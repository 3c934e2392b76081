/**
 The builder's peephole rewrite, step by step: what a fused opcode does against the plain opcode and
 OP_VERIFY, and how far two runs that differ in the bytes of the script alone stay together.
 */
module PushVerifyMeaning {
  import opened Outcomes
  import opened ScriptTypes
  import opened ScriptNumbers
  import opened Opcodes
  import opened ScriptCodec
  import opened ScriptContext
  import opened ScriptBuilder
  import opened Multisig
  import opened Interpreter
  import opened OpcodeMeaning

  ghost predicate IgnoresSubscript(ctx: Context) {
    forall sig, s1, s2, idx ::
      ctx.verifySignature(sig, s1, idx) == ctx.verifySignature(sig, s2, idx)
  }

  predicate IsSignature(i: Instruction) {
    i.Op? && Classify(i.code).Signature?
  }

  /** An instruction that cannot tell which bytes the script is made of. */
  ghost predicate Blind(ctx: Context, i: Instruction) {
    IgnoresSubscript(ctx) || !IsSignature(i)
  }

  ghost predicate AllBlind(ctx: Context, code: seq<Located>) {
    forall k :: 0 <= k < |code| ==> Blind(ctx, code[k].instr)
  }

  /** Equal up to the part of the script that signatures commit to. */
  predicate Similar(a: Machine, b: Machine) {
    a == b.(subscript := a.subscript)
  }

  predicate SimilarResults(a: ScriptResult<State>, b: ScriptResult<State>) {
    match a
    case Err(e) => b == Err(e)
    case Ok(x) => b.Ok? && Similar(x.m, b.value.m) && x.masks == b.value.masks
  }

  lemma {:induction false} GreedySimilar(ctx: Context, s1: Bytes, s2: Bytes, idx: nat, sigs: seq<Bytes>,
                                         keys: seq<Bytes>)
    requires IgnoresSubscript(ctx)
    ensures Greedy(Judge(ctx, s1, idx), sigs, keys) == Greedy(Judge(ctx, s2, idx), sigs, keys)
    decreases |keys|
  {
    if sigs != [] && |keys| >= |sigs| {
      assert Judge(ctx, s1, idx).Accepts(keys[0], sigs[0]) == Judge(ctx, s2, idx).Accepts(keys[0], sigs[0]);
      GreedySimilar(ctx, s1, s2, idx, sigs[1..], keys[1..]);
      GreedySimilar(ctx, s1, s2, idx, sigs, keys[1..]);
    }
  }

  lemma SignatureSimilar(ctx: Context, s1: Bytes, s2: Bytes, idx: nat, op: SignatureOp, s: Items)
    requires IgnoresSubscript(ctx)
    ensures ApplySignature(Judge(ctx, s1, idx), op, s) == ApplySignature(Judge(ctx, s2, idx), op, s)
  {
    if |s| >= 2 {
      GreedySimilar(ctx, s1, s2, idx, [s[|s| - 2]], [s[|s| - 1]]);
    }
    var f := FrameOf(ctx, s);
    if f.Ok? {
      GreedySimilar(ctx, s1, s2, idx, f.value.sigs, f.value.keys);
    }
  }

  lemma ActSimilar(ctx: Context, i: Instruction, r1: Bytes, r2: Bytes, a: Machine, b: Machine)
    requires Blind(ctx, i) && Similar(a, b)
    ensures var x, y := Act(ctx, Located(i, r1), a), Act(ctx, Located(i, r2), b);
            if x.Err? then y == Err(x.error) else y.Ok? && Similar(x.value, y.value)
  {
    if i.Op? {
      match Classify(i.code)
      case Signature(op) => SignatureSimilar(ctx, a.subscript, b.subscript, a.codesep, op, a.stack);
      case _ =>
    }
  }

  lemma PlainSimilar(ctx: Context, i: Instruction, r1: Bytes, r2: Bytes, executing: bool, a: Machine, b: Machine)
    requires Blind(ctx, i) && Similar(a, b)
    ensures var x, y := PlainStep(ctx, Located(i, r1), executing, a), PlainStep(ctx, Located(i, r2), executing, b);
            if x.Err? then y == Err(x.error) else y.Ok? && Similar(x.value, y.value)
  {
    if executing {
      ActSimilar(ctx, i, r1, r2, a, b);
    }
  }

  lemma OpenSimilar(ctx: Context, notIf: bool, executing: bool, a: Machine, b: Machine)
    requires Similar(a, b)
    ensures var x, y := OpenStep(ctx, notIf, executing, a), OpenStep(ctx, notIf, executing, b);
            if x.Err? then y == Err(x.error)
            else y.Ok? && x.value.0 == y.value.0 && Similar(x.value.1, y.value.1)
  {}

  lemma StepSimilar(ctx: Context, i: Instruction, r1: Bytes, r2: Bytes, a: State, b: State)
    requires Blind(ctx, i) && Similar(a.m, b.m) && a.masks == b.masks
    ensures SimilarResults(Step(ctx, Located(i, r1), a), Step(ctx, Located(i, r2), b))
  {
    if !IsNesting(i) {
      PlainSimilar(ctx, i, r1, r2, Executing(a.masks), a.m, b.m);
    } else if i.code == OP_IF || i.code == OP_NOTIF {
      OpenSimilar(ctx, i.code == OP_NOTIF, Executing(a.masks), a.m, b.m);
    }
  }

  /** The same instructions in front of different tails run alike. */
  lemma {:induction false} RunSimilar(ctx: Context, body: seq<Located>, t1: Bytes, t2: Bytes, a: State, b: State)
    requires AllBlind(ctx, body) && Similar(a.m, b.m) && a.masks == b.masks
    ensures SimilarResults(RunBody(ctx, Relocate(body, t1), a), RunBody(ctx, Relocate(body, t2), b))
  {
    if body != [] {
      var i := body[0].instr;
      var l1, l2 := Located(i, body[0].rest + t1), Located(i, body[0].rest + t2);
      RunBodyCons(ctx, l1, Relocate(body[1..], t1), a);
      RunBodyCons(ctx, l2, Relocate(body[1..], t2), b);
      StepSimilar(ctx, i, l1.rest, l2.rest, a, b);
      var x, y := Step(ctx, l1, a), Step(ctx, l2, b);
      if x.Ok? {
        RunSimilar(ctx, body[1..], t1, t2, x.value, y.value);
      }
    }
  }

  function Depth(m: Machine): nat {
    |m.stack| + |m.alt|
  }

  /** After any instruction the stacks are within the limit. */
  lemma {:induction false} RunDepth(ctx: Context, body: seq<Located>, st: State)
    requires body != [] && RunBody(ctx, body, st).Ok?
    ensures Depth(RunBody(ctx, body, st).value.m) <= ctx.maxStackElements
  {
    var st' := Step(ctx, body[0], st).value;
    if |body| > 1 {
      RunDepth(ctx, body[1..], st');
    } else {
      assert body[1..] == [];
    }
  }

  // ----- which opcodes fuse

  predicate IsVerifying(b: Byte) {
    match Classify(b)
    case OrdinaryClass(op) => OrdinaryIsVerify(op)
    case Signature(op) => SignatureIsVerify(op)
    case _ => false
  }

  /** An opcode fuses exactly when the next byte is a verifying opcode, other than OP_VERIFY itself. */
  lemma VerifyingForms(c: Byte, f: Byte)
    ensures Fused(c) == Some(f) <==> f == c + 1 && IsVerifying(f) && f != OP_VERIFY
  {
    VerifyingBytes(f);
  }

  lemma VerifyingBytes(b: Byte)
    ensures IsVerifying(b) <==>
            b in {OP_VERIFY, OP_EQUALVERIFY, OP_NUMEQUALVERIFY, OP_CHECKSIGVERIFY, OP_CHECKMULTISIGVERIFY}
  {
    EqualClasses();
    NumEqualClasses();
    CheckSigClasses();
    CheckMultisigClasses();
    if IsVerifying(b) {
      VerifyingCode(Classify(b));
      ClassifyInverts(b);
    }
  }

  lemma VerifyingCode(c: Class)
    ensures c.OrdinaryClass? && OrdinaryIsVerify(c.ordinary) ==>
              ClassCode(c).Some? && ClassCode(c).value in {OP_VERIFY, OP_EQUALVERIFY, OP_NUMEQUALVERIFY}
    ensures c.Signature? && SignatureIsVerify(c.signature) ==>
              ClassCode(c).Some? && ClassCode(c).value in {OP_CHECKSIGVERIFY, OP_CHECKMULTISIGVERIFY}
  {}

  // ----- one fused opcode against two plain ones

  /** What fusing means for the effect on the stack: apply the plain opcode, then verify. */
  predicate FusesTo(plain: ScriptResult<Items>, fused: ScriptResult<Items>, s: Items) {
    (plain.Ok? ==> |plain.value| < |s|) && fused == if plain.Err? then plain else VerifyTop(plain.value)
  }

  lemma FusedEqual(ctx: Context, s: Items)
    ensures FusesTo(Apply(ctx, OpEqual, s), Apply(ctx, OpEqualVerify, s), s)
  {
    EqualCore(ctx, OpEqual, s);
    EqualCore(ctx, OpEqualVerify, s);
  }

  lemma FusedNumEqual(ctx: Context, s: Items)
    ensures FusesTo(Apply(ctx, OpNumEqual, s), Apply(ctx, OpNumEqualVerify, s), s)
  {
    BinaryCore(ctx, OpNumEqual, s);
    BinaryCore(ctx, OpNumEqualVerify, s);
  }

  lemma FusedSignature(j: Judge, op: SignatureOp, fused: SignatureOp, s: Items)
    requires (op.OpCheckSig? && fused.OpCheckSigVerify?) || (op.OpCheckMultisig? && fused.OpCheckMultisigVerify?)
    ensures FusesTo(ApplySignature(j, op, s), ApplySignature(j, fused, s), s)
  {}

  /** Fusing at the level of the machine: verify what the plain opcode left. */
  predicate Fuses(ctx: Context, c: Byte, f: Byte, r1: Bytes, r2: Bytes, m: Machine) {
    var plain := Act(ctx, Located(Op(c), r1), m);
    && (plain.Ok? ==> |plain.value.stack| < |m.stack| && plain.value == m.(stack := plain.value.stack))
    && Act(ctx, Located(Op(f), r2), m) == if plain.Err? then plain else PutStack(m, VerifyTop(plain.value.stack))
  }

  lemma FusesOrdinary(ctx: Context, c: Byte, f: Byte, op: Ordinary, fused: Ordinary, r1: Bytes, r2: Bytes, m: Machine)
    requires Classify(c) == OrdinaryClass(op) && Classify(f) == OrdinaryClass(fused)
    requires (op.OpEqual? && fused.OpEqualVerify?) || (op.OpNumEqual? && fused.OpNumEqualVerify?)
    ensures Fuses(ctx, c, f, r1, r2, m)
  {
    if op.OpEqual? {
      FusedEqual(ctx, m.stack);
    } else {
      FusedNumEqual(ctx, m.stack);
    }
  }

  lemma FusesSignature(ctx: Context, c: Byte, f: Byte, op: SignatureOp, fused: SignatureOp, r1: Bytes, r2: Bytes,
                       m: Machine)
    requires Classify(c) == Signature(op) && Classify(f) == Signature(fused)
    requires (op.OpCheckSig? && fused.OpCheckSigVerify?) || (op.OpCheckMultisig? && fused.OpCheckMultisigVerify?)
    ensures Fuses(ctx, c, f, r1, r2, m)
  {
    FusedSignature(Judge(ctx, m.subscript, m.codesep), op, fused, m.stack);
  }

  lemma FusedAct(ctx: Context, c: Byte, r1: Bytes, r2: Bytes, m: Machine)
    requires Fused(c).Some?
    ensures Fuses(ctx, c, Fused(c).value, r1, r2, m)
  {
    var f := Fused(c).value;
    if c == OP_EQUAL || c == OP_NUMEQUAL {
      EqualClasses();
      NumEqualClasses();
      var op, fused := Classify(c).ordinary, Classify(f).ordinary;
      FusesOrdinary(ctx, c, f, op, fused, r1, r2, m);
    } else {
      CheckSigClasses();
      CheckMultisigClasses();
      var op, fused := Classify(c).signature, Classify(f).signature;
      FusesSignature(ctx, c, f, op, fused, r1, r2, m);
    }
  }

  lemma VerifyAct(ctx: Context, rest: Bytes, m: Machine)
    ensures Act(ctx, Located(Op(OP_VERIFY), rest), m) == PutStack(m, VerifyTop(m.stack))
  {
    EqualClasses();
    var s := m.stack;
    var nothing := Select(s[|s| - 0..], []);
    assert nothing == [] && s[..|s| - 0] + nothing == s;
    assert ApplyCore(ctx, OpVerify, s) == Ok(s);
  }

  /** The last steps of the two scripts end alike. */
  predicate EndAlike(fused: ScriptResult<State>, plain: ScriptResult<State>) {
    if fused.Err? then plain == Err(fused.error)
    else plain.Ok? && fused.value.m.stack == plain.value.m.stack && fused.value.masks == plain.value.masks
  }

  lemma FusedStepSkipped(ctx: Context, c: Byte, a: State, b: State)
    requires Fused(c).Some? && !Executing(a.masks) && Similar(a.m, b.m) && a.masks == b.masks
    ensures var plain := Step(ctx, Located(Op(c), [OP_VERIFY]), b);
            EndAlike(Step(ctx, Located(Op(Fused(c).value), []), a),
                     if plain.Err? then plain else Step(ctx, Located(Op(OP_VERIFY), []), plain.value))
  {
    EqualClasses();
    NumEqualClasses();
    CheckSigClasses();
    CheckMultisigClasses();
  }

  lemma DecodeOpcode(c: Byte, tail: Bytes, minimal: bool)
    requires c > OP_PUSHDATA4
    ensures Decode([c] + tail, minimal) ==
            Code([Located(Op(c), tail)] + Decode(tail, minimal).body, Decode(tail, minimal).failure)
  {
    assert ([c] + tail)[1..] == tail;
    DecodeCons([c] + tail, minimal, Op(c), tail);
  }

  lemma DecodeEnds(c: Byte, minimal: bool)
    requires Fused(c).Some?
    ensures Decode([Fused(c).value], minimal) == Code([Located(Op(Fused(c).value), [])], None)
    ensures Decode([c, OP_VERIFY], minimal) ==
            Code([Located(Op(c), [OP_VERIFY]), Located(Op(OP_VERIFY), [])], None)
  {
    var f := Fused(c).value;
    assert [f] == [f] + [] && [c, OP_VERIFY] == [c] + [OP_VERIFY] && [OP_VERIFY] == [OP_VERIFY] + [];
    DecodeOpcode(f, [], minimal);
    DecodeOpcode(OP_VERIFY, [], minimal);
    DecodeOpcode(c, [OP_VERIFY], minimal);
  }

  lemma {:induction false} RelocateKeeps(body: seq<Located>, tail: Bytes)
    ensures |Relocate(body, tail)| == |body|
    ensures forall k :: 0 <= k < |body| ==> Relocate(body, tail)[k].instr == body[k].instr
  {
    if body != [] {
      RelocateKeeps(body[1..], tail);
    }
  }

  lemma JoinedBlind(ctx: Context, front: Code, back: Code, b: Bytes)
    requires AllBlind(ctx, Joined(front, back, b).body)
    ensures AllBlind(ctx, front.body)
    ensures front.failure.None? ==> AllBlind(ctx, back.body)
  {
    var all, n := Joined(front, back, b).body, |front.body|;
    RelocateKeeps(front.body, b);
    forall k | 0 <= k < n ensures Blind(ctx, front.body[k].instr) {
      assert all[k].instr == front.body[k].instr;
    }
    if front.failure.None? {
      forall k | 0 <= k < |back.body| ensures Blind(ctx, back.body[k].instr) {
        assert all[n + k] == back.body[k];
      }
    }
  }

  /** What a script with an opcode at its end cannot see, neither of the two can. */
  lemma BlindParts(ctx: Context, front: Bytes, c: Byte)
    requires Whole(front) && Fused(c).Some?
    requires AllBlind(ctx, Decode(front + [c], ctx.enforceMinimalPush).body)
    ensures AllBlind(ctx, Decode(front, ctx.enforceMinimalPush).body)
    ensures Decode(front, ctx.enforceMinimalPush).failure.None? ==> Blind(ctx, Op(c))
  {
    var minimal := ctx.enforceMinimalPush;
    DecodeAppend(front, [c], minimal);
    JoinedBlind(ctx, Decode(front, minimal), Decode([c], minimal), [c]);
    assert [c] == [c] + [];
    DecodeOpcode(c, [], minimal);
    assert Decode([c], minimal).body[0].instr == Op(c);
  }

  function Outcome(ctx: Context, code: Code, st: State): ScriptResult<Items> {
    var st' :- RunBody(ctx, code.body, st);
    Finish(code.failure, st')
  }

  /** A script of some front and an end, by the codes of both. */
  lemma RunIsOutcome(ctx: Context, front: Bytes, end: Bytes, back: Code, items: Items)
    requires Whole(front) && |front + end| <= ctx.maxScriptSize && Decode(end, ctx.enforceMinimalPush) == back
    ensures Run(ctx, front + end, items) ==
            Outcome(ctx, Joined(Decode(front, ctx.enforceMinimalPush), back, end), Start(front + end, items))
  {
    DecodeAppend(front, end, ctx.enforceMinimalPush);
  }

  lemma EmptyCode(front: Bytes, minimal: bool)
    requires Decode(front, minimal) == Code([], None)
    ensures front == []
  {}
}
