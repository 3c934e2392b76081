/**
 What the remaining instructions do: pushes, conditionals, the second stack, time locks, signatures,
 and the bookkeeping of every step.
 */
module StepMeaning {
  import opened Outcomes
  import opened ScriptTypes
  import opened ScriptNumbers
  import opened Opcodes
  import opened ScriptCodec
  import opened ScriptContext
  import opened Multisig
  import opened Interpreter
  import opened ScriptTree
  import opened OpcodeMeaning

  // ----- conditionals

  predicate Opens(l: Located) {
    HasCode(l, {OP_IF, OP_NOTIF})
  }

  /** The machine at the end of a step, if the stacks are within their limit. */
  predicate Settles(ctx: Context, m: Machine, r: ScriptResult<Machine>) {
    if |m.stack| + |m.alt| > ctx.maxStackElements then r == Err(StackSize)
    else r == Ok(m.(count := if m.count == U32_MAX then U32_MAX else m.count + 1))
  }

  lemma SettleMeans(ctx: Context, m: Machine)
    requires m.count <= U32_MAX
    ensures Settles(ctx, m, Settle(ctx, m))
  {}

  /**
   Executing OP_IF takes the top item off and goes into the first branch exactly when the item
   means a number other than zero; OP_NOTIF exactly when it means zero.
   */
  lemma OpeningTakes(ctx: Context, l: Located, m: Machine, s: Items, x: Bytes, masks: seq<bool>)
    requires Opens(l) && Executing(masks) && m.stack == s + [x] && !ctx.enforceMinimalIf
    ensures var first := (SignedMagnitude(x) != 0) == HasCode(l, {OP_IF});
            Step(ctx, l, State(m, masks)) == WithMasks(Settle(ctx, m.(stack := s)), masks + [first])
  {
    ReadScriptboolIsNonzero(x);
    assert m.stack[..|m.stack| - 1] == s;
  }

  /** With minimal conditions the item must be empty, which is false, or a single one, which is true. */
  lemma OpeningMinimal(ctx: Context, l: Located, m: Machine, s: Items, x: Bytes, masks: seq<bool>)
    requires Opens(l) && Executing(masks) && m.stack == s + [x] && ctx.enforceMinimalIf
    ensures x != [] && x != [1] ==> Step(ctx, l, State(m, masks)) == Err(InvalidOperand)
    ensures x == [] || x == [1] ==>
              Step(ctx, l, State(m, masks)) ==
              WithMasks(Settle(ctx, m.(stack := s)), masks + [(x == [1]) == HasCode(l, {OP_IF})])
  {
    assert m.stack[..|m.stack| - 1] == s;
  }

  /** Without an item it fails; inside a skipped branch it takes nothing and skips both of its own. */
  lemma OpeningOtherwise(ctx: Context, l: Located, m: Machine, masks: seq<bool>)
    requires Opens(l)
    ensures Executing(masks) && m.stack == [] ==> Step(ctx, l, State(m, masks)) == Err(NotEnoughElementsOnStack)
    ensures !Executing(masks) ==> Step(ctx, l, State(m, masks)) == WithMasks(Settle(ctx, m), masks + [false])
  {}

  /** OP_ELSE turns the innermost mask round and OP_ENDIF drops it; both need one. */
  lemma ClosingTurns(ctx: Context, l: Located, m: Machine, masks: seq<bool>, top: bool)
    ensures HasCode(l, {OP_ELSE}) ==>
              Step(ctx, l, State(m, masks + [top])) == WithMasks(Settle(ctx, m), masks + [!top])
    ensures HasCode(l, {OP_ENDIF}) ==> Step(ctx, l, State(m, masks + [top])) == WithMasks(Settle(ctx, m), masks)
    ensures HasCode(l, {OP_ELSE, OP_ENDIF}) ==> Step(ctx, l, State(m, [])) == Err(UnbalancedIfElse)
  {
    assert (masks + [top])[..|masks|] == masks;
  }

  /** Two blocks of which exactly one is executed, the other only scanned. */
  function OneOf(ctx: Context, first: bool, a: Block, b: Block, m: Machine): ScriptResult<Machine> {
    var m1 :- Settle(ctx, m);
    var m2 :- Eval(ctx, a, first, m1);
    var m3 :- Settle(ctx, m2);
    var m4 :- Eval(ctx, b, !first, m3);
    Settle(ctx, m4)
  }

  /** A whole conditional with two branches executes the one that the item on the stack chooses. */
  lemma ConditionalChooses(ctx: Context, open: Located, a: Block, middle: Located, b: Block, close: Located,
                           m: Machine, s: Items, x: Bytes)
    requires Opens(open) && HasCode(middle, {OP_ELSE}) && HasCode(close, {OP_ENDIF}) && WellFormed(a) && WellFormed(b)
    requires m.stack == s + [x] && !ctx.enforceMinimalIf
    ensures var first := (SignedMagnitude(x) != 0) == HasCode(open, {OP_IF});
            RunBody(ctx, [open] + (Flatten(a) + ([middle] + (Flatten(b) + [close]))), State(m, [])) ==
            WithMasks(OneOf(ctx, first, a, b, m.(stack := s)), [])
  {
    var first := (SignedMagnitude(x) != 0) == HasCode(open, {OP_IF});
    var tree := If(open, Arm(a, middle, Last(b)), close, Empty);
    assert WellFormed(tree);
    RunIsEval(ctx, tree, m, []);
    FlattenConditional(open, a, middle, b, close);
    ConditionMeans(ctx, open, m, s, x);
    EvalConditional(ctx, open, a, middle, b, close, m, first);
  }

  lemma ConditionMeans(ctx: Context, open: Located, m: Machine, s: Items, x: Bytes)
    requires Opens(open) && m.stack == s + [x] && !ctx.enforceMinimalIf
    ensures Condition(ctx, HasCode(open, {OP_NOTIF}), m) == Ok((SignedMagnitude(x) != 0) == HasCode(open, {OP_IF}))
    ensures m.(stack := m.stack[..|m.stack| - 1]) == m.(stack := s)
  {
    ReadScriptboolIsNonzero(x);
    assert m.stack[..|m.stack| - 1] == s;
  }

  lemma EvalTwoArms(ctx: Context, a: Block, middle: Located, b: Block, first: bool, m: Machine)
    ensures EvalArms(ctx, Arm(a, middle, Last(b)), true, first, m) ==
            var m2 := Eval(ctx, a, first, m);
            if m2.Err? then m2
            else
              var m3 := Settle(ctx, m2.value);
              if m3.Err? then m3 else Eval(ctx, b, !first, m3.value)
  {
    var m2 := Eval(ctx, a, first, m);
    if m2.Ok? && Settle(ctx, m2.value).Ok? {
      var m3 := Settle(ctx, m2.value).value;
      assert EvalArms(ctx, Last(b), true, !first, m3) == Eval(ctx, b, !first, m3);
    }
  }

  lemma EvalConditional(ctx: Context, open: Located, a: Block, middle: Located, b: Block, close: Located,
                        m: Machine, first: bool)
    requires m.stack != [] && Condition(ctx, HasCode(open, {OP_NOTIF}), m) == Ok(first)
    ensures Eval(ctx, If(open, Arm(a, middle, Last(b)), close, Empty), true, m) ==
            OneOf(ctx, first, a, b, m.(stack := m.stack[..|m.stack| - 1]))
  {
    var m1 := Settle(ctx, m.(stack := m.stack[..|m.stack| - 1]));
    if m1.Ok? {
      EvalTwoArms(ctx, a, middle, b, first, m1.value);
    }
  }

  lemma FlattenConditional(open: Located, a: Block, middle: Located, b: Block, close: Located)
    ensures Flatten(If(open, Arm(a, middle, Last(b)), close, Empty)) ==
            [open] + (Flatten(a) + ([middle] + (Flatten(b) + [close])))
  {
    var x, y := Flatten(a), Flatten(b);
    assert FlattenArms(Last(b)) == y;
    assert FlattenArms(Arm(a, middle, Last(b))) == x + ([middle] + y);
    assert [close] + Flatten(Empty) == [close];
    assert (x + ([middle] + y)) + ([close] + []) == x + ([middle] + (y + [close]));
  }

  /** And a script that is such a conditional leaves what the chosen branch does. */
  lemma ScriptChooses(ctx: Context, script: Bytes, open: Located, a: Block, middle: Located, b: Block, close: Located,
                      s: Items, x: Bytes)
    requires Opens(open) && HasCode(middle, {OP_ELSE}) && HasCode(close, {OP_ENDIF}) && WellFormed(a) && WellFormed(b)
    requires |script| <= ctx.maxScriptSize && !ctx.enforceMinimalIf
    requires Decode(script, ctx.enforceMinimalPush) ==
             Code([open] + (Flatten(a) + ([middle] + (Flatten(b) + [close]))), None)
    ensures var first := (SignedMagnitude(x) != 0) == HasCode(open, {OP_IF});
            var r := OneOf(ctx, first, a, b, Start(script, s).m);
            Run(ctx, script, s + [x]) == if r.Err? then Err(r.error) else Ok(r.value.stack)
  {
    ConditionalChooses(ctx, open, a, middle, b, close, Start(script, s + [x]).m, s, x);
  }

  // ----- pushes

  /** A push puts its data on the stack, if that is within the limit; the limit holds in skipped code too. */
  lemma PushMeans(ctx: Context, d: Bytes, rest: Bytes, m: Machine)
    ensures |d| <= ctx.maxElementSize ==> Act(ctx, Located(PushBytes(d), rest), m) == Ok(m.(stack := m.stack + [d]))
    ensures |d| <= ctx.maxElementSize ==> ActSkipped(ctx, Located(PushBytes(d), rest), m) == Ok(m)
    ensures |d| > ctx.maxElementSize ==>
              && Act(ctx, Located(PushBytes(d), rest), m) == Err(PushSize)
              && ActSkipped(ctx, Located(PushBytes(d), rest), m) == Err(PushSize)
  {}

  /** The bytes 0x51 to 0x60 push the numbers one to sixteen, 0x4f pushes minus one. */
  lemma NumberOpcodes(ctx: Context, n: int, rest: Bytes, m: Machine)
    requires 1 <= n <= 16
    ensures Act(ctx, Located(Op(0x50 + n), rest), m) == Ok(m.(stack := m.stack + [ScriptInt(n)]))
    ensures Act(ctx, Located(Op(0x4f), rest), m) == Ok(m.(stack := m.stack + [ScriptInt(-1)]))
  {
    assert Classify(0x50 + n) == PushNum(n);
    assert Classify(0x4f) == PushNum(-1);
  }

  // ----- opcodes without effect, and without use

  predicate IsNop(b: Byte) {
    b == 0x61 || b == 0xb0 || 0xb3 <= b <= 0xb9
  }

  lemma NopMeans(ctx: Context, b: Byte, rest: Bytes, m: Machine)
    requires IsNop(b)
    ensures Act(ctx, Located(Op(b), rest), m) == ActSkipped(ctx, Located(Op(b), rest), m) == Ok(m)
  {
    assert Classify(b) == NoOp;
  }

  predicate IsDisabled(b: Byte) {
    b in {0x65, 0x66, 0x8d, 0x8e} || 0x7e <= b <= 0x81 || 0x83 <= b <= 0x86 || 0x95 <= b <= 0x99
  }

  /** Reserved opcodes fail when they are executed, disabled ones also when they are skipped. */
  lemma FailingOpcodes(ctx: Context, b: Byte, rest: Bytes, m: Machine)
    ensures b in {0x50, 0x62, 0x6a, 0x89, 0x8a} || 0xba <= b ==>
              && Act(ctx, Located(Op(b), rest), m) == Err(VerifyFail)
              && ActSkipped(ctx, Located(Op(b), rest), m) == Ok(m)
    ensures IsDisabled(b) ==>
              Act(ctx, Located(Op(b), rest), m) == ActSkipped(ctx, Located(Op(b), rest), m) == Err(IllegalOp)
  {
    if b in {0x50, 0x62, 0x6a, 0x89, 0x8a} || 0xba <= b {
      assert Classify(b) == ReturnOp;
    }
  }

  /** Any other opcode does nothing where it is skipped. */
  lemma SkippedMeans(ctx: Context, b: Byte, rest: Bytes, m: Machine)
    ensures ActSkipped(ctx, Located(Op(b), rest), m) ==
            if IsDisabled(b) then Err(IllegalOp)
            else if b == 0xab then Ok(m.(subscript := rest, codesep := m.count))
            else Ok(m)
  {
    SeparatorClass();
    if Classify(b) == Control(OpCodeSeparator) {
      ClassifyInverts(b);
    }
  }

  // ----- the second stack

  /** 0x6b moves the top item over to the second stack and 0x6c moves it back. */
  lemma AltStackMeans(ctx: Context, rest: Bytes, m: Machine, s: Items, x: Bytes)
    ensures m.stack == s + [x] ==>
              Act(ctx, Located(Op(0x6b), rest), m) == Ok(m.(stack := s, alt := m.alt + [x]))
    ensures m.alt == s + [x] ==>
              Act(ctx, Located(Op(0x6c), rest), m) == Ok(m.(stack := m.stack + [x], alt := s))
    ensures m.stack == [] ==> Act(ctx, Located(Op(0x6b), rest), m) == Err(NotEnoughElementsOnStack)
    ensures m.alt == [] ==> Act(ctx, Located(Op(0x6c), rest), m) == Err(NotEnoughElementsOnStack)
  {
    AltClasses();
    assert (s + [x])[..|s|] == s;
  }

  // ----- time locks

  /**
   0xb1 asks whether the number on top is a lock time that has passed, 0xb2 whether it is a sequence
   that has; the number may have five bytes, and stays where it is.
   */
  lemma TimeLockMeans(ctx: Context, rest: Bytes, m: Machine, s: Items, x: Bytes)
    requires m.stack == s + [x]
    ensures |x| > 5 ==>
              Act(ctx, Located(Op(0xb1), rest), m) == Act(ctx, Located(Op(0xb2), rest), m) == Err(NumericOverflow)
    ensures |x| <= 5 ==>
              && Act(ctx, Located(Op(0xb1), rest), m) ==
                 (if ctx.checkLockTime(SignedMagnitude(x)) then Ok(m) else Err(TimeLock))
              && Act(ctx, Located(Op(0xb2), rest), m) ==
                 (if ctx.checkSequence(SignedMagnitude(x)) then Ok(m) else Err(TimeLock))
  {
    TimeLockClasses();
    ReadIsSignedMagnitude(x, 5);
  }

  // ----- what signatures commit to

  /** At the start signatures commit to the whole script; 0xab makes it what follows, and notes its own place. */
  lemma SeparatorMeans(ctx: Context, rest: Bytes, m: Machine, script: Bytes, items: Items)
    ensures Start(script, items).m.subscript == script && Start(script, items).m.codesep == 0xffff_ffff
    ensures Start(script, items).m.count == 0
    ensures Act(ctx, Located(Op(0xab), rest), m) == ActSkipped(ctx, Located(Op(0xab), rest), m) ==
            Ok(m.(subscript := rest, codesep := m.count))
  {
    SeparatorClass();
  }

  /** The place of an instruction is the number of instructions before it, as far as 32 bits go. */
  lemma {:induction false} CountIsPlace(ctx: Context, body: seq<Located>, st: State)
    requires st.m.count <= U32_MAX && RunBody(ctx, body, st).Ok?
    ensures RunBody(ctx, body, st).value.m.count ==
            if st.m.count + |body| <= U32_MAX then st.m.count + |body| else U32_MAX
  {
    if body != [] {
      StepCounts(ctx, body[0], st);
      CountIsPlace(ctx, body[1..], Step(ctx, body[0], st).value);
    }
  }

  lemma ActKeepsCount(ctx: Context, l: Located, m: Machine)
    ensures Act(ctx, l, m).Ok? ==> Act(ctx, l, m).value.count == m.count
    ensures ActSkipped(ctx, l, m).Ok? ==> ActSkipped(ctx, l, m).value.count == m.count
  {}

  lemma StepCounts(ctx: Context, l: Located, st: State)
    requires st.m.count <= U32_MAX && Step(ctx, l, st).Ok?
    ensures Step(ctx, l, st).value.m.count == if st.m.count < U32_MAX then st.m.count + 1 else U32_MAX
  {
    ActKeepsCount(ctx, l, st.m);
  }

  /** A step fails for the size of the stacks exactly when its instruction leaves too many items on them. */
  lemma LimitMeans(ctx: Context, l: Located, st: State)
    requires !IsNesting(l.instr) && Executing(st.masks)
    ensures match Act(ctx, l, st.m)
            case Err(e) => Step(ctx, l, st) == Err(e)
            case Ok(m) =>
              if |m.stack| + |m.alt| > ctx.maxStackElements then Step(ctx, l, st) == Err(StackSize)
              else Step(ctx, l, st).Ok? && Step(ctx, l, st).value.m.stack == m.stack
                   && Step(ctx, l, st).value.m.alt == m.alt && Step(ctx, l, st).value.masks == st.masks
  {}

  // ----- signatures

  /** A malformed key fails, a reserved one accepts anything, and any other asks the signature check. */
  lemma KeyKinds(j: Judge, key: Bytes, sig: Bytes)
    ensures j.ctx.parsePubkey(key).Malformed? ==> Greedy(j, [sig], [key]) == Err(PubkeyFormat)
    ensures j.ctx.parsePubkey(key).Reserved? ==> Greedy(j, [sig], [key]) == Ok(true)
    ensures match j.ctx.parsePubkey(key)
            case Parsed(pk) =>
              Greedy(j, [sig], [key]) ==
              Ok(match j.ctx.parseSignature(pk, sig)
                 case None => false
                 case Some(data) => j.ctx.verifySignature(data, j.subscript, j.codesep))
            case _ => true
  {
    assert [sig][1..] == [] && [key][1..] == [];
    assert Greedy(j, [], []) == Ok(true) && Greedy(j, [sig], []) == Ok(false);
  }

  /** 0xac checks the signature below the key on top, 0xad also asks for the answer to be yes. */
  lemma CheckSigMeans(ctx: Context, rest: Bytes, m: Machine, s: Items, sig: Bytes, key: Bytes)
    requires m.stack == s + [sig, key]
    ensures var ok := Greedy(Judge(ctx, m.subscript, m.codesep), [sig], [key]);
            && Act(ctx, Located(Op(0xac), rest), m) ==
               (if ok.Err? then Err(ok.error) else Ok(m.(stack := s + [BoolItem(ok.value)])))
            && Act(ctx, Located(Op(0xad), rest), m) ==
               (if ok.Err? then Err(ok.error) else if ok.value then Ok(m.(stack := s)) else Err(VerifyFail))
  {
    CheckSigClasses();
    var ok := Greedy(Judge(ctx, m.subscript, m.codesep), [sig], [key]);
    assert m.stack[..|m.stack| - 2] == s;
    if ok.Ok? {
      Verifies(s, BoolItem(ok.value));
      VerdictMeans(ok.value);
    }
  }

  /** The stack a multi-signature check wants: an empty item, signatures, their number, keys, their number. */
  lemma FrameMeans(ctx: Context, s: Items, sigs: Items, nsig: Bytes, keys: Items, nkey: Bytes)
    requires Short(nsig) && Short(nkey) && SignedMagnitude(nsig) == |sigs| && SignedMagnitude(nkey) == |keys|
    requires |sigs| <= |keys| <= ctx.maxPubkeys
    ensures FrameOf(ctx, s + sigs + [nsig] + keys + [nkey]) == Ok(MultisigFrame(keys, sigs, s))
  {
    var all := s + sigs + [nsig] + keys + [nkey];
    ReadIsSignedMagnitude(nkey, 4);
    ReadIsSignedMagnitude(nsig, 4);
    var keysAt := |all| - 1 - |keys|;
    assert all[|all| - 1] == nkey && all[keysAt - 1] == nsig;
    var sigsAt := keysAt - 1 - |sigs|;
    assert all[keysAt..|all| - 1] == keys && all[sigsAt..keysAt - 1] == sigs && all[..sigsAt] == s;
  }

  /** Counts out of range are refused, and so is a stack with fewer items than they announce. */
  lemma FrameRefused(ctx: Context, s: Items, nsig: Bytes, keys: Items, nkey: Bytes)
    requires Short(nsig) && Short(nkey)
    ensures SignedMagnitude(nkey) < 0 || SignedMagnitude(nkey) > ctx.maxPubkeys ==>
              FrameOf(ctx, s + [nkey]) == Err(PubkeyCount)
    ensures |s| <= SignedMagnitude(nkey) <= ctx.maxPubkeys ==> FrameOf(ctx, s + [nkey]) == Err(NotEnoughElementsOnStack)
    ensures SignedMagnitude(nkey) == |keys| <= ctx.maxPubkeys ==>
              var r := FrameOf(ctx, s + [nsig] + keys + [nkey]);
              && (SignedMagnitude(nsig) < 0 || SignedMagnitude(nsig) > |keys| ==> r == Err(SigCount))
              && (|s| < SignedMagnitude(nsig) <= |keys| ==> r == Err(NotEnoughElementsOnStack))
  {
    ReadIsSignedMagnitude(nkey, 4);
    ReadIsSignedMagnitude(nsig, 4);
    var all := s + [nsig] + keys + [nkey];
    assert all[|all| - 1] == nkey && all[|all| - 2 - |keys|] == nsig;
  }

  /**
   0xae takes all that off and leaves whether every signature can be matched with a key that accepts
   it, in the same order; the item below must be empty. 0xaf also asks for the answer to be yes.
   */
  lemma CheckMultisigMeans(ctx: Context, rest: Bytes, m: Machine, s: Items, dummy: Bytes, sigs: Items, nsig: Bytes,
                           keys: Items, nkey: Bytes)
    requires Short(nsig) && Short(nkey) && SignedMagnitude(nsig) == |sigs| && SignedMagnitude(nkey) == |keys|
    requires |sigs| <= |keys| <= ctx.maxPubkeys
    requires m.stack == s + [dummy] + sigs + [nsig] + keys + [nkey]
    ensures var j := Judge(ctx, m.subscript, m.codesep);
            var ok := Greedy(j, sigs, keys);
            var r, v := Act(ctx, Located(Op(0xae), rest), m), Act(ctx, Located(Op(0xaf), rest), m);
            && (ok.Ok? ==> (ok.value <==> Matchable(j, sigs, keys)))
            && ((forall key :: key in keys ==> !j.Rejects(key)) ==> ok.Ok?)
            && (ok.Err? ==> r == v == Err(PubkeyFormat))
            && (ok.Ok? && dummy != [] ==> r == v == Err(NullDummy))
            && (ok.Ok? && dummy == [] ==> r == Ok(m.(stack := s + [BoolItem(ok.value)])))
            && (ok.Ok? && dummy == [] ==> v == if ok.value then Ok(m.(stack := s)) else Err(VerifyFail))
  {
    CheckMultisigClasses();
    var j := Judge(ctx, m.subscript, m.codesep);
    var ok := Greedy(j, sigs, keys);
    MultisigApplies(j, m.stack, s, dummy, sigs, nsig, keys, nkey);
    GreedyDecidesMatching(j, sigs, keys);
    GreedyFailsExactly(j, sigs, keys);
    if forall key :: key in keys ==> !j.Rejects(key) {
      NoneRejected(j, sigs, keys);
    }
    if ok.Ok? {
      Verifies(s, BoolItem(ok.value));
      VerdictMeans(ok.value);
    }
  }

  lemma MultisigApplies(j: Judge, stack: Items, s: Items, dummy: Bytes, sigs: Items, nsig: Bytes, keys: Items,
                        nkey: Bytes)
    requires Short(nsig) && Short(nkey) && SignedMagnitude(nsig) == |sigs| && SignedMagnitude(nkey) == |keys|
    requires |sigs| <= |keys| <= j.ctx.maxPubkeys
    requires stack == s + [dummy] + sigs + [nsig] + keys + [nkey]
    ensures var ok := Greedy(j, sigs, keys);
            ApplyCheckMultisig(j, stack) ==
            if ok.Err? then Err(ok.error)
            else if dummy != [] then Err(NullDummy)
            else Ok(s + [BoolItem(ok.value)])
  {
    FrameMeans(j.ctx, s + [dummy], sigs, nsig, keys, nkey);
    assert (s + [dummy])[..|s|] == s;
  }

  lemma NoneRejected(j: Judge, sigs: seq<Bytes>, keys: seq<Bytes>)
    requires forall key :: key in keys ==> !j.Rejects(key)
    ensures Greedy(j, sigs, keys).Ok?
    decreases |keys|
  {}
}
