/**
 Conditionals as trees.

 The interpreter runs a flat list of instructions with a stack of masks. Here a properly nested
 list is a tree, evaluated by recursion: the arms of a conditional are executed and skipped in
 turn. The two agree on every result, and a run that succeeds was properly nested.
 */
module ScriptTree {
  import opened Outcomes
  import opened ScriptTypes
  import opened Opcodes
  import opened ScriptCodec
  import opened ScriptContext
  import opened Interpreter

  /** A sequence of plain instructions and conditionals. */
  datatype Block =
    | Empty
    | Plain(head: Located, tail: Block)
    | If(open: Located, arms: Arms, close: Located, tail: Block)

  /** The blocks between OP_IF and OP_ENDIF; OP_ELSE may occur any number of times. */
  datatype Arms =
    | Last(body: Block)
    | Arm(body: Block, separator: Located, rest: Arms)

  predicate HasCode(l: Located, codes: set<Byte>) {
    l.instr.Op? && l.instr.code in codes
  }

  predicate WellFormed(b: Block) {
    match b
    case Empty => true
    case Plain(head, tail) => !IsNesting(head.instr) && WellFormed(tail)
    case If(open, arms, close, tail) =>
      HasCode(open, {OP_IF, OP_NOTIF}) && WellFormedArms(arms) && HasCode(close, {OP_ENDIF}) && WellFormed(tail)
  }

  predicate WellFormedArms(a: Arms) {
    match a
    case Last(body) => WellFormed(body)
    case Arm(body, separator, rest) => WellFormed(body) && HasCode(separator, {OP_ELSE}) && WellFormedArms(rest)
  }

  function Flatten(b: Block): seq<Located> {
    match b
    case Empty => []
    case Plain(head, tail) => [head] + Flatten(tail)
    case If(open, arms, close, tail) => [open] + (FlattenArms(arms) + ([close] + Flatten(tail)))
  }

  function FlattenArms(a: Arms): seq<Located> {
    match a
    case Last(body) => Flatten(body)
    case Arm(body, separator, rest) => Flatten(body) + ([separator] + FlattenArms(rest))
  }

  // ----- evaluation of trees

  /** Evaluates a block that is executed, or scans one that is skipped. */
  function Eval(ctx: Context, b: Block, executing: bool, m: Machine): ScriptResult<Machine>
    decreases b
  {
    match b
    case Empty => Ok(m)
    case Plain(head, tail) =>
      var m' :- PlainStep(ctx, head, executing, m);
      Eval(ctx, tail, executing, m')
    case If(open, arms, close, tail) =>
      var (taken, m1) :- OpenStep(ctx, HasCode(open, {OP_NOTIF}), executing, m);
      var m2 :- EvalArms(ctx, arms, executing, taken, m1);
      var m3 :- Settle(ctx, m2);
      Eval(ctx, tail, executing, m3)
  }

  /** Arms alternate: each one runs exactly when the one before it did not. */
  function EvalArms(ctx: Context, a: Arms, executing: bool, taken: bool, m: Machine): ScriptResult<Machine>
    decreases a
  {
    match a
    case Last(body) => Eval(ctx, body, executing && taken, m)
    case Arm(body, separator, rest) =>
      var m1 :- Eval(ctx, body, executing && taken, m);
      var m2 :- Settle(ctx, m1);
      EvalArms(ctx, rest, executing, !taken, m2)
  }

  function WithMasks(r: ScriptResult<Machine>, masks: seq<bool>): ScriptResult<State> {
    match r
    case Ok(m) => Ok(State(m, masks))
    case Err(e) => Err(e)
  }

  // ----- the flat run is the evaluation of the tree

  /** Running a well-formed block inside any conditionals evaluates it and leaves the masks alone. */
  lemma {:induction false} RunIsEval(ctx: Context, b: Block, m: Machine, masks: seq<bool>)
    requires WellFormed(b)
    ensures RunBody(ctx, Flatten(b), State(m, masks)) == WithMasks(Eval(ctx, b, Executing(masks), m), masks)
    decreases b, 0
  {
    match b
    case Empty =>
    case Plain(head, tail) =>
      RunBodyCons(ctx, head, Flatten(tail), State(m, masks));
      var r := PlainStep(ctx, head, Executing(masks), m);
      if r.Ok? {
        RunIsEval(ctx, tail, r.value, masks);
      }
    case If(open, arms, close, tail) =>
      var after := [close] + Flatten(tail);
      RunBodyCons(ctx, open, FlattenArms(arms) + after, State(m, masks));
      var r := OpenStep(ctx, HasCode(open, {OP_NOTIF}), Executing(masks), m);
      if r.Ok? {
        var (taken, m1) := r.value;
        RunBodyAppend(ctx, FlattenArms(arms), after, State(m1, masks + [taken]));
        RunIsEvalArms(ctx, arms, m1, masks, taken);
        var r2 := EvalArms(ctx, arms, Executing(masks), taken, m1);
        if r2.Ok? {
          CloseStep(ctx, close, tail, r2.value, masks, LastTaken(arms, taken));
        }
      }
  }

  /** The mask on top when the last arm ends. */
  function LastTaken(a: Arms, taken: bool): bool {
    match a
    case Last(_) => taken
    case Arm(_, _, rest) => LastTaken(rest, !taken)
  }

  lemma CloseStep(ctx: Context, close: Located, tail: Block, m: Machine, masks: seq<bool>, top: bool)
    requires HasCode(close, {OP_ENDIF}) && WellFormed(tail)
    ensures RunBody(ctx, [close] + Flatten(tail), State(m, masks + [top])) ==
            var r := Settle(ctx, m);
            if r.Err? then Err(r.error) else WithMasks(Eval(ctx, tail, Executing(masks), r.value), masks)
    decreases tail, 1
  {
    RunBodyCons(ctx, close, Flatten(tail), State(m, masks + [top]));
    assert (masks + [top])[..|masks|] == masks;
    if Settle(ctx, m).Ok? {
      RunIsEval(ctx, tail, Settle(ctx, m).value, masks);
    }
  }

  lemma {:induction false} RunIsEvalArms(ctx: Context, a: Arms, m: Machine, masks: seq<bool>, taken: bool)
    requires WellFormedArms(a)
    ensures RunBody(ctx, FlattenArms(a), State(m, masks + [taken])) ==
            WithMasks(EvalArms(ctx, a, Executing(masks), taken, m), masks + [LastTaken(a, taken)])
    decreases a, 0
  {
    assert Executing(masks + [taken]) <==> Executing(masks) && taken;
    match a
    case Last(body) =>
      RunIsEval(ctx, body, m, masks + [taken]);
    case Arm(body, separator, rest) =>
      RunBodyAppend(ctx, Flatten(body), [separator] + FlattenArms(rest), State(m, masks + [taken]));
      RunIsEval(ctx, body, m, masks + [taken]);
      var r := Eval(ctx, body, Executing(masks) && taken, m);
      if r.Ok? {
        RunBodyCons(ctx, separator, FlattenArms(rest), State(r.value, masks + [taken]));
        assert (masks + [taken])[..|masks|] == masks;
        var r2 := Settle(ctx, r.value);
        if r2.Ok? {
          RunIsEvalArms(ctx, rest, r2.value, masks, !taken);
        }
      }
  }

  // ----- skipped code

  /** A skipped block, conditionals inside it included, touches neither stack. */
  lemma {:induction false} SkippedLeavesStacks(ctx: Context, b: Block, m: Machine)
    ensures match Eval(ctx, b, false, m)
            case Ok(m') => m'.stack == m.stack && m'.alt == m.alt
            case Err(e) => e == IllegalOp || e == PushSize || e == StackSize
    decreases b
  {
    match b
    case Empty =>
    case Plain(head, tail) =>
      var r := PlainStep(ctx, head, false, m);
      if r.Ok? {
        SkippedLeavesStacks(ctx, tail, r.value);
      }
    case If(open, arms, close, tail) =>
      var r := OpenStep(ctx, HasCode(open, {OP_NOTIF}), false, m);
      if r.Ok? {
        SkippedArmsLeaveStacks(ctx, arms, r.value.0, r.value.1);
        var r2 := EvalArms(ctx, arms, false, r.value.0, r.value.1);
        if r2.Ok? && Settle(ctx, r2.value).Ok? {
          SkippedLeavesStacks(ctx, tail, Settle(ctx, r2.value).value);
        }
      }
  }

  lemma {:induction false} SkippedArmsLeaveStacks(ctx: Context, a: Arms, taken: bool, m: Machine)
    ensures match EvalArms(ctx, a, false, taken, m)
            case Ok(m') => m'.stack == m.stack && m'.alt == m.alt
            case Err(e) => e == IllegalOp || e == PushSize || e == StackSize
    decreases a
  {
    match a
    case Last(body) => SkippedLeavesStacks(ctx, body, m);
    case Arm(body, separator, rest) =>
      SkippedLeavesStacks(ctx, body, m);
      var r := Eval(ctx, body, false, m);
      if r.Ok? && Settle(ctx, r.value).Ok? {
        SkippedArmsLeaveStacks(ctx, rest, !taken, Settle(ctx, r.value).value);
      }
  }

  // ----- proper nesting

  /** Reading left to right from nesting depth `d`, every OP_ELSE and OP_ENDIF has its OP_IF. */
  predicate Closes(code: seq<Located>, d: nat) {
    if code == [] then d == 0
    else if HasCode(code[0], {OP_IF, OP_NOTIF}) then Closes(code[1..], d + 1)
    else if HasCode(code[0], {OP_ELSE}) then d > 0 && Closes(code[1..], d)
    else if HasCode(code[0], {OP_ENDIF}) then d > 0 && Closes(code[1..], d - 1)
    else Closes(code[1..], d)
  }

  /** A run that ends outside of all conditionals was properly nested. */
  lemma {:induction false} RunCloses(ctx: Context, code: seq<Located>, st: State)
    requires RunBody(ctx, code, st).Ok? && RunBody(ctx, code, st).value.masks == []
    ensures Closes(code, |st.masks|)
  {
    if code != [] {
      RunCloses(ctx, code[1..], Step(ctx, code[0], st).value);
    }
  }

  /** The longest block at the front of properly nested code: what follows it ends or goes on an arm. */
  lemma {:induction false} Renest(code: seq<Located>, d: nat) returns (b: Block, rest: seq<Located>)
    requires Closes(code, d)
    ensures WellFormed(b) && code == Flatten(b) + rest && Closes(rest, d)
    ensures if rest == [] then d == 0 else d > 0 && HasCode(rest[0], {OP_ELSE, OP_ENDIF})
    decreases |code|, 1
  {
    if code == [] {
      b, rest := Empty, [];
    } else if !IsNesting(code[0].instr) {
      var t;
      t, rest := Renest(code[1..], d);
      b := Plain(code[0], t);
      assert code == [code[0]] + code[1..];
    } else if HasCode(code[0], {OP_IF, OP_NOTIF}) {
      var arms, close, mid := RenestArms(code[1..], d);
      var t;
      t, rest := Renest(mid, d);
      b := If(code[0], arms, close, t);
      assert code == [code[0]] + code[1..];
      assert code == Flatten(b) + rest;
    } else {
      b, rest := Empty, code;
    }
  }

  lemma {:induction false} RenestArms(code: seq<Located>, d: nat)
    returns (a: Arms, close: Located, rest: seq<Located>)
    requires Closes(code, d + 1)
    ensures WellFormedArms(a) && HasCode(close, {OP_ENDIF})
    ensures code == FlattenArms(a) + ([close] + rest) && Closes(rest, d)
    ensures |rest| < |code|
    decreases |code|, 2
  {
    var b, mid := Renest(code, d + 1);
    assert mid == [mid[0]] + mid[1..];
    if HasCode(mid[0], {OP_ENDIF}) {
      a, close, rest := Last(b), mid[0], mid[1..];
    } else {
      var more;
      more, close, rest := RenestArms(mid[1..], d);
      a := Arm(b, mid[0], more);
      assert code == FlattenArms(a) + ([close] + rest);
    }
  }

  /** Properly nested code is exactly the code of trees. */
  lemma ClosesIsFlatten(code: seq<Located>)
    ensures Closes(code, 0) <==> exists b :: WellFormed(b) && Flatten(b) == code
  {
    if Closes(code, 0) {
      var b, rest := Renest(code, 0);
      assert Flatten(b) == code;
    }
    forall b | WellFormed(b) && Flatten(b) == code ensures Closes(code, 0) {
      FlattenCloses(b, [], 0);
      assert Flatten(b) + [] == code;
    }
  }

  lemma {:induction false} FlattenCloses(b: Block, k: seq<Located>, d: nat)
    requires WellFormed(b)
    ensures Closes(Flatten(b) + k, d) <==> Closes(k, d)
    decreases b
  {
    match b
    case Empty => assert Flatten(b) + k == k;
    case Plain(head, tail) =>
      assert (Flatten(b) + k)[1..] == Flatten(tail) + k;
      FlattenCloses(tail, k, d);
    case If(open, arms, close, tail) =>
      var after := [close] + (Flatten(tail) + k);
      assert (Flatten(b) + k)[1..] == FlattenArms(arms) + after;
      FlattenArmsCloses(arms, after, d + 1);
      assert after[1..] == Flatten(tail) + k;
      FlattenCloses(tail, k, d);
  }

  lemma {:induction false} FlattenArmsCloses(a: Arms, k: seq<Located>, d: nat)
    requires WellFormedArms(a) && d > 0
    ensures Closes(FlattenArms(a) + k, d) <==> Closes(k, d)
    decreases a
  {
    match a
    case Last(body) => FlattenCloses(body, k, d);
    case Arm(body, separator, rest) =>
      var after := [separator] + (FlattenArms(rest) + k);
      assert FlattenArms(a) + k == Flatten(body) + after;
      FlattenCloses(body, after, d);
      assert after[1..] == FlattenArms(rest) + k;
      FlattenArmsCloses(rest, k, d);
  }

  // ----- whole scripts

  /** A script whose instructions form a tree runs to the evaluation of the tree, errors included. */
  lemma ScriptRunIsTreeEval(ctx: Context, script: Bytes, items: Items, b: Block)
    requires |script| <= ctx.maxScriptSize
    requires WellFormed(b) && Decode(script, ctx.enforceMinimalPush) == Code(Flatten(b), None)
    ensures Run(ctx, script, items) ==
            var r := Eval(ctx, b, true, Start(script, items).m);
            if r.Err? then Err(r.error) else Ok(r.value.stack)
  {
    RunIsEval(ctx, b, Start(script, items).m, []);
  }

  /** A script that succeeds parses completely, is properly nested, and evaluates as its tree. */
  lemma ScriptSuccessIsTree(ctx: Context, script: Bytes, items: Items)
    requires Run(ctx, script, items).Ok?
    ensures exists b ::
              && WellFormed(b)
              && Decode(script, ctx.enforceMinimalPush) == Code(Flatten(b), None)
              && var r := Eval(ctx, b, true, Start(script, items).m);
                 r.Ok? && r.value.stack == Run(ctx, script, items).value
  {
    var code := Decode(script, ctx.enforceMinimalPush);
    RunCloses(ctx, code.body, Start(script, items));
    ClosesIsFlatten(code.body);
    var b :| WellFormed(b) && Flatten(b) == code.body;
    ScriptRunIsTreeEval(ctx, script, items, b);
  }
}
