/**
 What each opcode does, said of the items it finds, and the byte that stands for it.

 Items are listed bottom first. Numbers are what the items mean as signed magnitudes, whatever
 their bytes; verdicts are items that mean one or zero.
 */
module OpcodeMeaning {
  import opened Outcomes
  import opened ScriptTypes
  import opened ScriptNumbers
  import opened Opcodes
  import opened ScriptCodec
  import opened ScriptContext
  import opened Multisig
  import opened Interpreter

  // ----- bytes and opcodes

  lemma ClassifyOrdinary(b: Byte)
    requires IsOrdinary(b) && OrdinaryFrom(b).Some?
    ensures Classify(b) == OrdinaryClass(OrdinaryFrom(b).value)
  {}

  /** Every ordinary opcode has a byte that is classified as it. */
  lemma OrdinaryBytes(op: Ordinary)
    ensures Classify(OrdinaryCode(op)) == OrdinaryClass(op)
  {
    var b := OrdinaryCode(op);
    OrdinaryFromCode(op);
    OrdinaryPlaces(b);
    ClassifyOrdinary(b);
  }

  lemma NumericFromCode(op: Ordinary)
    requires IsUnary(op) || IsBinary(op)
    ensures OrdinaryFrom(OrdinaryCode(op)) == Some(op)
  {}

  lemma ShuffleFromCode(op: Ordinary)
    requires ShuffleOf(op).Some?
    ensures OrdinaryFrom(OrdinaryCode(op)) == Some(op)
  {}

  lemma OrdinaryFromCode(op: Ordinary)
    ensures OrdinaryFrom(OrdinaryCode(op)) == Some(op)
  {
    if IsUnary(op) || IsBinary(op) {
      NumericFromCode(op);
    } else if ShuffleOf(op).Some? {
      ShuffleFromCode(op);
    }
  }

  // the table of bytes, in parts

  lemma PairBytes()
    ensures OrdinaryCode(OpVerify) == 0x69 && OrdinaryCode(Op2Drop) == 0x6d
    ensures OrdinaryCode(Op2Dup) == 0x6e && OrdinaryCode(Op3Dup) == 0x6f
    ensures OrdinaryCode(Op2Over) == 0x70 && OrdinaryCode(Op2Rot) == 0x71
    ensures OrdinaryCode(Op2Swap) == 0x72
  {}

  lemma ItemBytes()
    ensures OrdinaryCode(OpDrop) == 0x75 && OrdinaryCode(OpDup) == 0x76
    ensures OrdinaryCode(OpNip) == 0x77 && OrdinaryCode(OpOver) == 0x78
    ensures OrdinaryCode(OpRot) == 0x7b && OrdinaryCode(OpSwap) == 0x7c
    ensures OrdinaryCode(OpTuck) == 0x7d
  {}

  lemma QueryBytes()
    ensures OrdinaryCode(OpIfDup) == 0x73 && OrdinaryCode(OpDepth) == 0x74
    ensures OrdinaryCode(OpPick) == 0x79 && OrdinaryCode(OpRoll) == 0x7a
    ensures OrdinaryCode(OpSize) == 0x82 && OrdinaryCode(OpEqual) == 0x87
    ensures OrdinaryCode(OpEqualVerify) == 0x88
  {}

  lemma HashBytes()
    ensures OrdinaryCode(OpRipemd160) == 0xa6 && OrdinaryCode(OpSha1) == 0xa7
    ensures OrdinaryCode(OpSha256) == 0xa8 && OrdinaryCode(OpHash160) == 0xa9
    ensures OrdinaryCode(OpHash256) == 0xaa
  {}

  lemma UnaryBytes()
    ensures OrdinaryCode(Op1Add) == 0x8b && OrdinaryCode(Op1Sub) == 0x8c
    ensures OrdinaryCode(OpNegate) == 0x8f && OrdinaryCode(OpAbs) == 0x90
    ensures OrdinaryCode(OpNot) == 0x91 && OrdinaryCode(Op0NotEqual) == 0x92
  {}

  lemma BinaryBytes()
    ensures OrdinaryCode(OpAdd) == 0x93 && OrdinaryCode(OpSub) == 0x94
    ensures OrdinaryCode(OpBoolAnd) == 0x9a && OrdinaryCode(OpBoolOr) == 0x9b
    ensures OrdinaryCode(OpMin) == 0xa3 && OrdinaryCode(OpMax) == 0xa4
    ensures OrdinaryCode(OpWithin) == 0xa5
  {}

  lemma ComparisonBytes()
    ensures OrdinaryCode(OpNumEqual) == 0x9c && OrdinaryCode(OpNumEqualVerify) == 0x9d
    ensures OrdinaryCode(OpNumNotEqual) == 0x9e
  {}

  lemma OrderBytes()
    ensures OrdinaryCode(OpLessThan) == 0x9f && OrdinaryCode(OpGreaterThan) == 0xa0
    ensures OrdinaryCode(OpLessThanOrEqual) == 0xa1 && OrdinaryCode(OpGreaterThanOrEqual) == 0xa2
  {}

  /** Wherever it stands in a script, an ordinary opcode has its effect on the stack and no other. */
  lemma OrdinaryAnywhere(ctx: Context, op: Ordinary, rest: Bytes, m: Machine)
    ensures Act(ctx, Located(Op(OrdinaryCode(op)), rest), m) == PutStack(m, Apply(ctx, op, m.stack))
  {
    OrdinaryBytes(op);
  }

  /** One opcode after the other. */
  function Effects(ctx: Context, ops: seq<Ordinary>, s: Items): ScriptResult<Items>
    decreases |ops|
  {
    if ops == [] then Ok(s)
    else
      var s' :- Apply(ctx, ops[0], s);
      Effects(ctx, ops[1..], s')
  }

  // ----- rearranging

  lemma ShuffleOn(sh: Shuffle, s: Items, taken: Items)
    requires forall k :: 0 <= k < |sh.leaves| ==> sh.leaves[k] < sh.arity
    requires |taken| == sh.arity
    ensures ApplyShuffle(sh, s + taken) == Ok(s + Select(taken, sh.leaves))
  {
    var all := s + taken;
    assert all[..|all| - |taken|] == s && all[|all| - |taken|..] == taken;
  }

  lemma ShuffleCore(ctx: Context, op: Ordinary, sh: Shuffle, s: Items)
    requires ShuffleOf(op) == Some(sh) && !op.OpVerify?
    ensures forall k :: 0 <= k < |sh.leaves| ==> sh.leaves[k] < sh.arity
    ensures Apply(ctx, op, s) == ApplyShuffle(sh, s)
  {}

  lemma ShuffleEffect(ctx: Context, op: Ordinary, sh: Shuffle, s: Items, taken: Items)
    requires ShuffleOf(op) == Some(sh) && !op.OpVerify? && |taken| == sh.arity
    requires forall k :: 0 <= k < |sh.leaves| ==> sh.leaves[k] < sh.arity
    ensures Apply(ctx, op, s + taken) == Ok(s + Select(taken, sh.leaves))
  {
    ShuffleCore(ctx, op, sh, s + taken);
    ShuffleOn(sh, s, taken);
  }

  /** The opcodes that drop and copy. */
  lemma Copies(ctx: Context, s: Items, a: Bytes, b: Bytes)
    ensures Apply(ctx, OpDrop, s + [a]) == Ok(s)
    ensures Apply(ctx, OpDup, s + [a]) == Ok(s + [a, a])
    ensures Apply(ctx, OpOver, s + [a, b]) == Ok(s + [a, b, a])
  {
    ShuffleEffect(ctx, OpDrop, Shuffle(1, []), s, [a]);
    assert Select([a], []) == [] && s + [] == s;
    ShuffleEffect(ctx, OpDup, Shuffle(1, [0, 0]), s, [a]);
    assert Select([a], [0, 0]) == [a, a];
    ShuffleEffect(ctx, OpOver, Shuffle(2, [0, 1, 0]), s, [a, b]);
    assert Select([a, b], [0, 1, 0]) == [a, b, a];
  }

  lemma PairCopies(ctx: Context, s: Items, a: Bytes, b: Bytes)
    ensures Apply(ctx, Op2Drop, s + [a, b]) == Ok(s)
    ensures Apply(ctx, Op2Dup, s + [a, b]) == Ok(s + [a, b, a, b])
  {
    ShuffleEffect(ctx, Op2Drop, Shuffle(2, []), s, [a, b]);
    assert Select([a, b], []) == [] && s + [] == s;
    ShuffleEffect(ctx, Op2Dup, Shuffle(2, [0, 1, 0, 1]), s, [a, b]);
    assert Select([a, b], [0, 1, 0, 1]) == [a, b, a, b];
  }

  lemma LongCopies(ctx: Context, s: Items, a: Bytes, b: Bytes, c: Bytes, d: Bytes)
    ensures Apply(ctx, Op3Dup, s + [a, b, c]) == Ok(s + [a, b, c, a, b, c])
    ensures Apply(ctx, Op2Over, s + [a, b, c, d]) == Ok(s + [a, b, c, d, a, b])
  {
    ShuffleEffect(ctx, Op3Dup, Shuffle(3, [0, 1, 2, 0, 1, 2]), s, [a, b, c]);
    assert Select([a, b, c], [0, 1, 2, 0, 1, 2]) == [a, b, c, a, b, c];
    ShuffleEffect(ctx, Op2Over, Shuffle(4, [0, 1, 2, 3, 0, 1]), s, [a, b, c, d]);
    assert Select([a, b, c, d], [0, 1, 2, 3, 0, 1]) == [a, b, c, d, a, b];
  }

  /** The opcodes that change the order. */
  lemma Moves(ctx: Context, s: Items, a: Bytes, b: Bytes, c: Bytes)
    ensures Apply(ctx, OpSwap, s + [a, b]) == Ok(s + [b, a])
    ensures Apply(ctx, OpNip, s + [a, b]) == Ok(s + [b])
    ensures Apply(ctx, OpTuck, s + [a, b]) == Ok(s + [b, a, b])
    ensures Apply(ctx, OpRot, s + [a, b, c]) == Ok(s + [b, c, a])
  {
    ShuffleEffect(ctx, OpSwap, Shuffle(2, [1, 0]), s, [a, b]);
    assert Select([a, b], [1, 0]) == [b, a];
    ShuffleEffect(ctx, OpNip, Shuffle(2, [1]), s, [a, b]);
    assert Select([a, b], [1]) == [b];
    ShuffleEffect(ctx, OpTuck, Shuffle(2, [1, 0, 1]), s, [a, b]);
    assert Select([a, b], [1, 0, 1]) == [b, a, b];
    ShuffleEffect(ctx, OpRot, Shuffle(3, [1, 2, 0]), s, [a, b, c]);
    assert Select([a, b, c], [1, 2, 0]) == [b, c, a];
  }

  lemma PairMoves(ctx: Context, s: Items, a: Bytes, b: Bytes, c: Bytes, d: Bytes, e: Bytes, f: Bytes)
    ensures Apply(ctx, Op2Swap, s + [a, b, c, d]) == Ok(s + [c, d, a, b])
    ensures Apply(ctx, Op2Rot, s + [a, b, c, d, e, f]) == Ok(s + [c, d, e, f, a, b])
  {
    ShuffleEffect(ctx, Op2Swap, Shuffle(4, [2, 3, 0, 1]), s, [a, b, c, d]);
    assert Select([a, b, c, d], [2, 3, 0, 1]) == [c, d, a, b];
    ShuffleEffect(ctx, Op2Rot, Shuffle(6, [2, 3, 4, 5, 0, 1]), s, [a, b, c, d, e, f]);
    assert Select([a, b, c, d, e, f], [2, 3, 4, 5, 0, 1]) == [c, d, e, f, a, b];
  }

  /** The number of items each of them needs. */
  function Needs(op: Ordinary): nat {
    if op in {OpDrop, OpDup} then 1
    else if op in {Op2Drop, Op2Dup, OpOver, OpSwap, OpNip, OpTuck} then 2
    else if op in {Op3Dup, OpRot} then 3
    else if op in {Op2Over, Op2Swap} then 4
    else if op == Op2Rot then 6
    else 0
  }

  lemma NeedsIsArity(op: Ordinary)
    requires Needs(op) > 0
    ensures ShuffleOf(op).Some? && ShuffleOf(op).value.arity == Needs(op)
  {}

  lemma TooFewItems(ctx: Context, op: Ordinary, s: Items)
    requires |s| < Needs(op)
    ensures Apply(ctx, op, s) == Err(NotEnoughElementsOnStack)
  {
    NeedsIsArity(op);
    ShuffleCore(ctx, op, ShuffleOf(op).value, s);
  }

  // ----- numbers

  /** Items the default reader accepts. */
  predicate Short(item: Bytes) {
    |item| <= 4
  }

  lemma TopIntMeans(s: Items, p: Bytes)
    ensures TopInt(s + [p]) == if Short(p) then Ok(SignedMagnitude(p)) else Err(NumericOverflow)
  {
    ReadIsSignedMagnitude(p, 4);
  }

  lemma UnaryEffect(ctx: Context, op: Ordinary, s: Items, p: Bytes)
    requires IsUnary(op)
    ensures Apply(ctx, op, s + [p]) ==
            if Short(p) then Ok(s + [ScriptInt(Unary(op, SignedMagnitude(p)))]) else Err(NumericOverflow)
  {
    TopIntMeans(s, p);
    assert (s + [p])[..|s|] == s;
  }

  /** The opcodes on one number `x`. */
  lemma OneNumber(ctx: Context, s: Items, p: Bytes)
    requires Short(p)
    ensures var x := SignedMagnitude(p);
            && Apply(ctx, Op1Add, s + [p]) == Ok(s + [ScriptInt(x + 1)])
            && Apply(ctx, Op1Sub, s + [p]) == Ok(s + [ScriptInt(x - 1)])
            && Apply(ctx, OpNegate, s + [p]) == Ok(s + [ScriptInt(0 - x)])
            && Apply(ctx, OpAbs, s + [p]) == Ok(s + [ScriptInt(if x >= 0 then x else 0 - x)])
            && Apply(ctx, OpNot, s + [p]) == Ok(s + [BoolItem(x == 0)])
            && Apply(ctx, Op0NotEqual, s + [p]) == Ok(s + [BoolItem(x != 0)])
  {
    UnaryEffect(ctx, Op1Add, s, p);
    UnaryEffect(ctx, Op1Sub, s, p);
    UnaryEffect(ctx, OpNegate, s, p);
    UnaryEffect(ctx, OpAbs, s, p);
    UnaryEffect(ctx, OpNot, s, p);
    UnaryEffect(ctx, Op0NotEqual, s, p);
  }

  lemma BinaryMeans(op: Ordinary, s: Items, p: Bytes, q: Bytes)
    requires IsBinary(op)
    ensures ApplyBinary(op, s + [p, q]) ==
            if Short(p) && Short(q) then Ok(s + [ScriptInt(Binary(op, SignedMagnitude(p), SignedMagnitude(q)))])
            else Err(NumericOverflow)
  {
    var all := s + [p, q];
    assert all == (s + [p]) + [q] && all[..|all| - 1] == s + [p] && all[..|all| - 2] == s;
    TopIntMeans(s + [p], q);
    TopIntMeans(s, p);
  }

  lemma BinaryCore(ctx: Context, op: Ordinary, s: Items)
    requires IsBinary(op)
    ensures ApplyCore(ctx, op, s) == ApplyBinary(op, s)
  {
    assert ShuffleOf(op).None? && !IsUnary(op);
  }

  lemma BinaryEffect(ctx: Context, op: Ordinary, s: Items, p: Bytes, q: Bytes)
    requires IsBinary(op) && !op.OpNumEqualVerify?
    ensures Apply(ctx, op, s + [p, q]) ==
            if Short(p) && Short(q) then Ok(s + [ScriptInt(Binary(op, SignedMagnitude(p), SignedMagnitude(q)))])
            else Err(NumericOverflow)
  {
    BinaryMeans(op, s, p, q);
    BinaryCore(ctx, op, s + [p, q]);
  }

  /** The opcodes on two numbers, `x` below `y`. */
  lemma TwoNumbers(ctx: Context, s: Items, p: Bytes, q: Bytes)
    requires Short(p) && Short(q)
    ensures var x, y := SignedMagnitude(p), SignedMagnitude(q);
            && Apply(ctx, OpAdd, s + [p, q]) == Ok(s + [ScriptInt(x + y)])
            && Apply(ctx, OpSub, s + [p, q]) == Ok(s + [ScriptInt(x - y)])
            && Apply(ctx, OpBoolAnd, s + [p, q]) == Ok(s + [BoolItem(x != 0 && y != 0)])
            && Apply(ctx, OpBoolOr, s + [p, q]) == Ok(s + [BoolItem(x != 0 || y != 0)])
            && Apply(ctx, OpMin, s + [p, q]) == Ok(s + [ScriptInt(if x < y then x else y)])
            && Apply(ctx, OpMax, s + [p, q]) == Ok(s + [ScriptInt(if x < y then y else x)])
  {
    BinaryEffect(ctx, OpAdd, s, p, q);
    BinaryEffect(ctx, OpSub, s, p, q);
    BinaryEffect(ctx, OpBoolAnd, s, p, q);
    BinaryEffect(ctx, OpBoolOr, s, p, q);
    BinaryEffect(ctx, OpMin, s, p, q);
    BinaryEffect(ctx, OpMax, s, p, q);
  }

  lemma Comparisons(ctx: Context, s: Items, p: Bytes, q: Bytes)
    requires Short(p) && Short(q)
    ensures var x, y := SignedMagnitude(p), SignedMagnitude(q);
            && Apply(ctx, OpNumEqual, s + [p, q]) == Ok(s + [BoolItem(x == y)])
            && Apply(ctx, OpNumNotEqual, s + [p, q]) == Ok(s + [BoolItem(x != y)])
            && Apply(ctx, OpLessThan, s + [p, q]) == Ok(s + [BoolItem(x < y)])
            && Apply(ctx, OpGreaterThan, s + [p, q]) == Ok(s + [BoolItem(x > y)])
            && Apply(ctx, OpLessThanOrEqual, s + [p, q]) == Ok(s + [BoolItem(x <= y)])
            && Apply(ctx, OpGreaterThanOrEqual, s + [p, q]) == Ok(s + [BoolItem(x >= y)])
  {
    BinaryEffect(ctx, OpNumEqual, s, p, q);
    BinaryEffect(ctx, OpNumNotEqual, s, p, q);
    BinaryEffect(ctx, OpLessThan, s, p, q);
    BinaryEffect(ctx, OpGreaterThan, s, p, q);
    BinaryEffect(ctx, OpLessThanOrEqual, s, p, q);
    BinaryEffect(ctx, OpGreaterThanOrEqual, s, p, q);
  }

  const ONE_NUMBER := {Op1Add, Op1Sub, OpNegate, OpAbs, OpNot, Op0NotEqual}
  const TWO_NUMBERS := {OpAdd, OpSub, OpBoolAnd, OpBoolOr, OpMin, OpMax, OpNumEqual, OpNumNotEqual,
                        OpLessThan, OpGreaterThan, OpLessThanOrEqual, OpGreaterThanOrEqual}

  /** An operand of more than four bytes is refused, the one on top before the one below it. */
  lemma LongOperands(ctx: Context, op: Ordinary, s: Items, p: Bytes, q: Bytes)
    ensures op in ONE_NUMBER && !Short(p) ==> Apply(ctx, op, s + [p]) == Err(NumericOverflow)
    ensures op in TWO_NUMBERS && !(Short(p) && Short(q)) ==> Apply(ctx, op, s + [p, q]) == Err(NumericOverflow)
  {
    if op in ONE_NUMBER {
      UnaryEffect(ctx, op, s, p);
    }
    if op in TWO_NUMBERS {
      BinaryEffect(ctx, op, s, p, q);
    }
  }

  /** Whether a number lies in a half-open range; the bounds are on top of it, the upper one last. */
  lemma WithinRange(ctx: Context, s: Items, p: Bytes, q: Bytes, r: Bytes)
    requires Short(p) && Short(q) && Short(r)
    ensures var x, lo, hi := SignedMagnitude(p), SignedMagnitude(q), SignedMagnitude(r);
            Apply(ctx, OpWithin, s + [p, q, r]) == Ok(s + [BoolItem(lo <= x && x < hi)])
  {
    var all := s + [p, q, r];
    assert all == (s + [p, q]) + [r] && all[..|all| - 1] == (s + [p]) + [q] && all[..|all| - 2] == s + [p];
    assert all[..|all| - 3] == s;
    TopIntMeans(s + [p, q], r);
    TopIntMeans(s + [p], q);
    TopIntMeans(s, p);
  }

  // ----- verification and equality

  /** An item is accepted exactly when it means a number other than zero. */
  lemma Verifies(s: Items, p: Bytes)
    ensures VerifyTop(s + [p]) == if SignedMagnitude(p) != 0 then Ok(s) else Err(VerifyFail)
  {
    ReadScriptboolIsNonzero(p);
    assert (s + [p])[..|s|] == s;
  }

  lemma VerdictMeans(b: bool)
    ensures SignedMagnitude(BoolItem(b)) == if b then 1 else 0
  {
    ScriptIntMeansItsNumber(if b then 1 else 0);
  }

  lemma VerifyingOpcodes(ctx: Context, s: Items, p: Bytes, q: Bytes)
    ensures Apply(ctx, OpVerify, s + [p]) == if SignedMagnitude(p) != 0 then Ok(s) else Err(VerifyFail)
    ensures Apply(ctx, OpEqualVerify, s + [p, q]) == if p == q then Ok(s) else Err(VerifyFail)
    ensures Short(p) && Short(q) ==>
              Apply(ctx, OpNumEqualVerify, s + [p, q]) ==
              if SignedMagnitude(p) == SignedMagnitude(q) then Ok(s) else Err(VerifyFail)
  {
    var one, two := s + [p], s + [p, q];
    assert one[..|one| - 0] + Select(one[|one| - 0..], []) == one;
    Verifies(s, p);
    EqualCore(ctx, OpEqualVerify, two);
    assert two[..|two| - 2] == s;
    Verifies(s, BoolItem(p == q));
    VerdictMeans(p == q);
    BinaryMeans(OpNumEqualVerify, s, p, q);
    BinaryCore(ctx, OpNumEqualVerify, two);
    Verifies(s, BoolItem(SignedMagnitude(p) == SignedMagnitude(q)));
    VerdictMeans(SignedMagnitude(p) == SignedMagnitude(q));
  }

  lemma EqualCore(ctx: Context, op: Ordinary, s: Items)
    requires op.OpEqual? || op.OpEqualVerify?
    ensures ApplyCore(ctx, op, s) == ApplyEqual(s)
  {
    assert ShuffleOf(op).None? && !IsUnary(op) && !IsBinary(op) && !IsHash(op);
  }

  lemma QueryCore(ctx: Context, op: Ordinary, s: Items)
    requires op.OpIfDup? || op.OpDepth? || op.OpSize?
    ensures Apply(ctx, op, s) == ApplyQuery(op, s)
  {
    assert ShuffleOf(op).None? && !IsUnary(op) && !IsBinary(op) && !IsHash(op);
  }

  /** Equality is of bytes; the rest look at one item or at the depth. */
  lemma Queries(ctx: Context, s: Items, p: Bytes, q: Bytes)
    ensures Apply(ctx, OpEqual, s + [p, q]) == Ok(s + [BoolItem(p == q)])
    ensures Apply(ctx, OpIfDup, s + [p]) == Ok(if SignedMagnitude(p) != 0 then s + [p, p] else s + [p])
    ensures |p| < I32_MAX ==> Apply(ctx, OpSize, s + [p]) == Ok(s + [p, ScriptInt(|p|)])
    ensures |s| < I32_MAX ==> Apply(ctx, OpDepth, s) == Ok(s + [ScriptInt(|s|)])
  {
    EqualCore(ctx, OpEqual, s + [p, q]);
    assert (s + [p, q])[..|s|] == s;
    QueryCore(ctx, OpIfDup, s + [p]);
    QueryCore(ctx, OpSize, s + [p]);
    QueryCore(ctx, OpDepth, s);
    ReadScriptboolIsNonzero(p);
    assert s + [p] + [p] == s + [p, p] && s + [p] + [ScriptInt(|p|)] == s + [p, ScriptInt(|p|)];
  }

  // ----- hashes

  lemma HashEffect(ctx: Context, op: Ordinary, s: Items, p: Bytes)
    requires IsHash(op)
    ensures Apply(ctx, op, s + [p]) == Ok(s + [Hash(ctx, op, p)])
  {
    assert ShuffleOf(op).None? && !IsUnary(op) && !IsBinary(op);
    assert (s + [p])[..|s|] == s;
  }

  lemma Hashes(ctx: Context, s: Items, p: Bytes)
    ensures Apply(ctx, OpRipemd160, s + [p]) == Ok(s + [ctx.ripemd160(p)])
    ensures Apply(ctx, OpSha1, s + [p]) == Ok(s + [ctx.sha1(p)])
    ensures Apply(ctx, OpSha256, s + [p]) == Ok(s + [ctx.sha256(p)])
    ensures Apply(ctx, OpHash160, s + [p]) == Ok(s + [ctx.ripemd160(ctx.sha256(p))])
    ensures Apply(ctx, OpHash256, s + [p]) == Ok(s + [ctx.sha256(ctx.sha256(p))])
  {
    HashEffect(ctx, OpRipemd160, s, p);
    HashEffect(ctx, OpSha1, s, p);
    HashEffect(ctx, OpSha256, s, p);
    HashEffect(ctx, OpHash160, s, p);
    HashEffect(ctx, OpHash256, s, p);
  }

  // ----- picking and rolling

  lemma IndexMeans(s: Items, n: Bytes)
    requires Short(n)
    ensures PopIndex(s + [n]) ==
            var i := SignedMagnitude(n);
            if i < 0 then Err(InvalidOperand) else if i >= |s| then Err(NotEnoughElementsOnStack) else Ok(i)
  {
    TopIntMeans(s, n);
  }

  /** The item that has as many items above it as the index says is copied, or moved, to the top. */
  lemma Indexed(ctx: Context, s: Items, x: Bytes, above: Items, n: Bytes)
    requires Short(n) && SignedMagnitude(n) == |above|
    ensures Apply(ctx, OpPick, s + [x] + above + [n]) == Ok(s + [x] + above + [x])
    ensures Apply(ctx, OpRoll, s + [x] + above + [n]) == Ok(s + above + [x])
  {
    var items := s + [x] + above;
    var all := items + [n];
    IndexMeans(items, n);
    assert all[..|all| - 1] == items && all[|all| - 2 - |above|] == x;
    var at := |all| - 2 - |above|;
    assert all[..at] == s && all[at + 1..|all| - 1] == above;
  }

  lemma BadIndex(ctx: Context, s: Items, n: Bytes)
    requires Short(n)
    ensures SignedMagnitude(n) < 0 ==>
              Apply(ctx, OpPick, s + [n]) == Apply(ctx, OpRoll, s + [n]) == Err(InvalidOperand)
    ensures SignedMagnitude(n) >= |s| ==>
              Apply(ctx, OpPick, s + [n]) == Apply(ctx, OpRoll, s + [n]) == Err(NotEnoughElementsOnStack)
  {
    IndexMeans(s, n);
  }

  // ----- missing operands

  /** Opcodes that need one item, or two, and have fewer, the ones there being numbers. */
  lemma MissingOperands(ctx: Context, op: Ordinary, q: Bytes)
    requires Short(q)
    ensures op in ONE_NUMBER + TWO_NUMBERS ==> Apply(ctx, op, []) == Err(NotEnoughElementsOnStack)
    ensures op in TWO_NUMBERS ==> Apply(ctx, op, [q]) == Err(NotEnoughElementsOnStack)
  {
    if op in TWO_NUMBERS {
      BinaryCore(ctx, op, []);
      BinaryCore(ctx, op, [q]);
      assert [q] == [] + [q] && [q][..0] == [];
      TopIntMeans([], q);
    }
  }

  lemma MissingItems(ctx: Context, op: Ordinary, q: Bytes)
    ensures op.OpEqual? || op.OpEqualVerify? ==>
              Apply(ctx, op, []) == Apply(ctx, op, [q]) == Err(NotEnoughElementsOnStack)
    ensures IsHash(op) || op.OpIfDup? || op.OpSize? || op.OpPick? || op.OpRoll? || op.OpVerify? ==>
              Apply(ctx, op, []) == Err(NotEnoughElementsOnStack)
  {
    if op.OpEqual? || op.OpEqualVerify? {
      EqualCore(ctx, op, []);
      EqualCore(ctx, op, [q]);
    } else if op.OpIfDup? || op.OpSize? {
      QueryCore(ctx, op, []);
    }
  }

  // ----- laws that follow

  lemma InTurn(ctx: Context, first: Ordinary, second: Ordinary, s: Items, t: Items, u: Items)
    requires Apply(ctx, first, s) == Ok(t) && Apply(ctx, second, t) == Ok(u)
    ensures Effects(ctx, [first, second], s) == Ok(u)
  {
    assert [first, second][1..] == [second] && [second][1..] == [];
    assert Effects(ctx, [second], t) == Ok(u);
  }

  lemma SwapTwice(ctx: Context, s: Items, a: Bytes, b: Bytes)
    ensures Effects(ctx, [OpSwap, OpSwap], s + [a, b]) == Ok(s + [a, b])
  {
    Moves(ctx, s, a, b, b);
    Moves(ctx, s, b, a, a);
    InTurn(ctx, OpSwap, OpSwap, s + [a, b], s + [b, a], s + [a, b]);
  }

  lemma RotThrice(ctx: Context, s: Items, a: Bytes, b: Bytes, c: Bytes)
    ensures Effects(ctx, [OpRot, OpRot, OpRot], s + [a, b, c]) == Ok(s + [a, b, c])
  {
    Moves(ctx, s, a, b, c);
    Moves(ctx, s, b, c, a);
    Moves(ctx, s, c, a, b);
    InTurn(ctx, OpRot, OpRot, s + [b, c, a], s + [c, a, b], s + [a, b, c]);
    assert [OpRot, OpRot, OpRot][1..] == [OpRot, OpRot];
  }

  lemma TuckIsSwapOver(ctx: Context, s: Items, a: Bytes, b: Bytes)
    ensures Effects(ctx, [OpSwap, OpOver], s + [a, b]) == Apply(ctx, OpTuck, s + [a, b])
  {
    Moves(ctx, s, a, b, b);
    Copies(ctx, s, b, a);
    InTurn(ctx, OpSwap, OpOver, s + [a, b], s + [b, a], s + [b, a, b]);
  }

  lemma NipIsSwapDrop(ctx: Context, s: Items, a: Bytes, b: Bytes)
    ensures Effects(ctx, [OpSwap, OpDrop], s + [a, b]) == Apply(ctx, OpNip, s + [a, b])
  {
    Moves(ctx, s, a, b, b);
    Copies(ctx, s + [b], a, a);
    assert s + [b] + [a] == s + [b, a];
    InTurn(ctx, OpSwap, OpDrop, s + [a, b], s + [b, a], s + [b]);
  }

  lemma PairIsOverOver(ctx: Context, s: Items, a: Bytes, b: Bytes)
    ensures Effects(ctx, [OpOver, OpOver], s + [a, b]) == Apply(ctx, Op2Dup, s + [a, b])
  {
    Copies(ctx, s, a, b);
    PairCopies(ctx, s, a, b);
    Copies(ctx, s + [a], b, a);
    assert s + [a] + [b, a] == s + [a, b, a] && s + [a] + [b, a, b] == s + [a, b, a, b];
    InTurn(ctx, OpOver, OpOver, s + [a, b], s + [a, b, a], s + [a, b, a, b]);
  }

  /** Numbers within the reach of the reader stay within it. */
  lemma ShortNumber(n: int)
    requires -TWO_31 < n < TWO_31
    ensures Short(ScriptInt(n)) && SignedMagnitude(ScriptInt(n)) == n
  {
    Exp256Values();
    ScriptIntLength(n, 4);
    ScriptIntMeansItsNumber(n);
  }

  lemma SubAbove(ctx: Context, s: Items, a: Bytes, p: Bytes, q: Bytes)
    requires Short(p) && Short(q)
    ensures Apply(ctx, OpSub, s + [a, p, q]) == Ok(s + [a, ScriptInt(SignedMagnitude(p) - SignedMagnitude(q))])
  {
    var d := ScriptInt(SignedMagnitude(p) - SignedMagnitude(q));
    assert s + [a, p, q] == s + [a] + [p, q] && s + [a, d] == s + [a] + [d];
    TwoNumbers(ctx, s + [a], p, q);
  }

  lemma AddItem(ctx: Context, s: Items, q: Bytes, r: Bytes, sum: int)
    requires Short(q) && Short(r) && sum == SignedMagnitude(q) + SignedMagnitude(r)
    ensures Apply(ctx, OpAdd, s + [q, r]) == Ok(s + [ScriptInt(sum)])
  {
    BinaryEffect(ctx, OpAdd, s, q, r);
  }

  /** What subtraction takes away addition brings back, while the difference can be read. */
  lemma SubThenAdd(ctx: Context, s: Items, p: Bytes, q: Bytes)
    requires Short(p) && Short(q) && -TWO_31 < SignedMagnitude(p) - SignedMagnitude(q) < TWO_31
    ensures Effects(ctx, [OpSub, OpAdd], s + [q, p, q]) == Ok(s + [ScriptInt(SignedMagnitude(p))])
  {
    var x, d := SignedMagnitude(p), SignedMagnitude(p) - SignedMagnitude(q);
    SubAbove(ctx, s, q, p, q);
    ShortNumber(d);
    AddItem(ctx, s, q, ScriptInt(d), x);
    InTurn(ctx, OpSub, OpAdd, s + [q, p, q], s + [q, ScriptInt(d)], s + [ScriptInt(x)]);
  }

  /** Each comparison is another one turned round, or denied. */
  lemma ComparisonLaws(ctx: Context, s: Items, p: Bytes, q: Bytes)
    requires Short(p) && Short(q)
    ensures Apply(ctx, OpGreaterThan, s + [p, q]) == Apply(ctx, OpLessThan, s + [q, p])
    ensures Apply(ctx, OpGreaterThanOrEqual, s + [p, q]) == Apply(ctx, OpLessThanOrEqual, s + [q, p])
    ensures Effects(ctx, [OpLessThan, OpNot], s + [p, q]) == Apply(ctx, OpGreaterThanOrEqual, s + [p, q])
    ensures Effects(ctx, [OpNumEqual, OpNot], s + [p, q]) == Apply(ctx, OpNumNotEqual, s + [p, q])
  {
    var x, y := SignedMagnitude(p), SignedMagnitude(q);
    Comparisons(ctx, s, p, q);
    Comparisons(ctx, s, q, p);
    ShortNumber(0);
    ShortNumber(1);
    OneNumber(ctx, s, BoolItem(x < y));
    OneNumber(ctx, s, BoolItem(x == y));
    InTurn(ctx, OpLessThan, OpNot, s + [p, q], s + [BoolItem(x < y)], s + [BoolItem(x >= y)]);
    InTurn(ctx, OpNumEqual, OpNot, s + [p, q], s + [BoolItem(x == y)], s + [BoolItem(x != y)]);
  }

  /** Negation is subtraction from zero. */
  lemma NegateIsSub(ctx: Context, s: Items, p: Bytes)
    requires Short(p)
    ensures Apply(ctx, OpNegate, s + [p]) == Apply(ctx, OpSub, s + [[], p])
  {
    UnaryEffect(ctx, OpNegate, s, p);
    BinaryEffect(ctx, OpSub, s, [], p);
  }

  lemma NegateItem(ctx: Context, s: Items, r: Bytes, x: int)
    requires Short(r) && SignedMagnitude(r) == 0 - x
    ensures Apply(ctx, OpNegate, s + [r]) == Ok(s + [ScriptInt(x)])
  {
    UnaryEffect(ctx, OpNegate, s, r);
  }

  /** It undoes itself, up to the form of the number. */
  lemma NegateTwice(ctx: Context, s: Items, p: Bytes)
    requires Short(p)
    ensures Effects(ctx, [OpNegate, OpNegate], s + [p]) == Ok(s + [ScriptInt(SignedMagnitude(p))])
  {
    var x := SignedMagnitude(p);
    ReadScriptintRange(p);
    ReadIsSignedMagnitude(p, 4);
    ShortNumber(0 - x);
    NegateItem(ctx, s, p, 0 - x);
    NegateItem(ctx, s, ScriptInt(0 - x), x);
    InTurn(ctx, OpNegate, OpNegate, s + [p], s + [ScriptInt(0 - x)], s + [ScriptInt(x)]);
  }

  /** The lesser and the greater of two numbers add up to their sum. */
  lemma ExtremesShareTheSum(ctx: Context, s: Items, p: Bytes, q: Bytes)
    requires Short(p) && Short(q)
    ensures var lo, hi := Apply(ctx, OpMin, s + [p, q]), Apply(ctx, OpMax, s + [p, q]);
            && lo.Ok? && hi.Ok? && |lo.value| == |hi.value| == |s| + 1
            && var a, b := SignedMagnitude(lo.value[|s|]), SignedMagnitude(hi.value[|s|]);
               a <= b && a + b == SignedMagnitude(p) + SignedMagnitude(q)
               && a in {SignedMagnitude(p), SignedMagnitude(q)}
  {
    var x, y := SignedMagnitude(p), SignedMagnitude(q);
    TwoNumbers(ctx, s, p, q);
    ScriptIntMeansItsNumber(x);
    ScriptIntMeansItsNumber(y);
  }
}
