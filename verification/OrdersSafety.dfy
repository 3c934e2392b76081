/** What every run of order operations keeps, and what undoing it restores. */
module OrdersSafety {
  import opened Outcomes
  import opened Accounting
  import opened OrderPricing
  import opened Orders

  // ----- the invariant

  /** An order's amounts as the pricing sees them. */
  function BookOf(o: OrderData, ask: Amount, give: Amount): Option<Book> {
    if OutputAmount(o.ask).Err? || OutputAmount(o.give).Err? then None
    else Some(Book(OutputAmount(o.ask).value, OutputAmount(o.give).value, ask, give))
  }

  /** No balance without an order; an existing order is covered at its original price. */
  predicate OrderSound(data: Option<OrderData>, ask: Amount, give: Amount) {
    match data
    case None => ask == 0 && give == 0
    case Some(o) =>
      && BookOf(o, ask, give).Some?
      && var b := BookOf(o, ask, give).value;
         Covered(b) && b.askTotal <= I128_MAX && b.giveTotal <= I128_MAX
  }

  predicate Readable(parent: View, d: Delta, id: OrderId) {
    DataIn(parent, d, id).Ok? && AskIn(parent, d, id).Ok? && GiveIn(parent, d, id).Ok?
  }

  predicate SoundAt(parent: View, d: Delta, id: OrderId) {
    && Readable(parent, d, id)
    && OrderSound(DataIn(parent, d, id).value, AskIn(parent, d, id).value, GiveIn(parent, d, id).value)
  }

  ghost predicate Sound(parent: View, d: Delta) {
    Normal(d) && forall id :: SoundAt(parent, d, id)
  }

  /** A ledger without orders and balances is sound. */
  lemma StartsSound(parent: View)
    requires forall id: OrderId :: parent.data(id) == Ok(None) && parent.ask(id) == Ok(0) && parent.give(id) == Ok(0)
    ensures Sound(parent, Delta(map[], map[], map[]))
  {}

  /** A fresh layer is sound exactly when what it is put on is. */
  lemma FreshLayerSound(parent: View, d: Delta)
    requires Normal(d)
    ensures Sound(ViewOf(parent, d), Delta(map[], map[], map[])) <==> Sound(parent, d)
  {
    var top := Delta(map[], map[], map[]);
    if Sound(parent, d) {
      forall id ensures SoundAt(ViewOf(parent, d), top, id) {
        assert SoundAt(parent, d, id);
      }
    }
    if Sound(ViewOf(parent, d), top) {
      forall id ensures SoundAt(parent, d, id) {
        assert SoundAt(ViewOf(parent, d), top, id);
      }
    }
  }

  // ----- one operation

  /** The view after a commit, at the order it concerns. */
  lemma CommitAtOrder(parent: View, d: Delta, e: Effect)
    requires Commit(d, e).Ok? && Readable(parent, d, e.id)
    requires AskIn(parent, d, e.id).value <= I128_MAX && 0 <= AskIn(parent, d, e.id).value + e.ask <= I128_MAX
    requires GiveIn(parent, d, e.id).value <= I128_MAX && 0 <= GiveIn(parent, d, e.id).value + e.give <= I128_MAX
    ensures var d' := Commit(d, e).value;
            && DataIn(parent, d', e.id) == (if e.data.None? then DataIn(parent, d, e.id) else Ok(e.data.value.after))
            && AskIn(parent, d', e.id) == Ok(AskIn(parent, d, e.id).value + e.ask)
            && GiveIn(parent, d', e.id) == Ok(GiveIn(parent, d, e.id).value + e.give)
  {
    BalanceAfterMerge(d.ask, e.id, parent.ask(e.id).value, AskIn(parent, d, e.id).value, e.ask);
    BalanceAfterMerge(d.give, e.id, parent.give(e.id).value, GiveIn(parent, d, e.id).value, e.give);
  }

  /** A commit does not touch any other order. */
  lemma CommitElsewhere(parent: View, d: Delta, e: Effect, id: OrderId)
    requires Commit(d, e).Ok? && id != e.id
    ensures var d' := Commit(d, e).value;
            && DataIn(parent, d', id) == DataIn(parent, d, id)
            && AskIn(parent, d', id) == AskIn(parent, d, id)
            && GiveIn(parent, d', id) == GiveIn(parent, d, id)
  {
    OthersAfterMerge(d.ask, e.id, e.ask, id);
    OthersAfterMerge(d.give, e.id, e.give, id);
  }

  /** A change of data starts from the data that is there, so merging it cannot fail. */
  lemma PlanStartsFromView(parent: View, d: Delta, op: Operation)
    requires Plan(parent, d, op).Ok?
    ensures var e := Plan(parent, d, op).value;
            e.data.Some? ==> DataIn(parent, d, e.id) == Ok(e.data.value.before)
  {}

  /** The price a layer computes is the quote of the order's book. */
  lemma PriceIsQuote(parent: View, d: Delta, id: OrderId, fill: Amount, version: Version)
    requires SoundAt(parent, d, id) && DataIn(parent, d, id).value.Some?
    ensures var ask, give := AskIn(parent, d, id).value, GiveIn(parent, d, id).value;
            var b := BookOf(DataIn(parent, d, id).value.value, ask, give).value;
            && (PriceOf(parent, d, id, fill, version).Ok? <==> Fills(b, fill, version))
            && (Fills(b, fill, version) ==>
                  PriceOf(parent, d, id, fill, version) == Ok(Quote(b, fill, version).value))
  {}

  /** The balances a plan leads to, and that they are those of a sound order. */
  lemma PlanIsSound(parent: View, d: Delta, op: Operation)
    requires SoundAt(parent, d, op.id) && Plan(parent, d, op).Ok?
    requires op.Create? ==> Plan(parent, d, op).value.ask <= I128_MAX && Plan(parent, d, op).value.give <= I128_MAX
    ensures var e := Plan(parent, d, op).value;
            var ask, give := AskIn(parent, d, op.id).value + e.ask, GiveIn(parent, d, op.id).value + e.give;
            && Convertible(e.ask) && Convertible(e.give)
            && 0 <= ask <= I128_MAX && 0 <= give <= I128_MAX
            && OrderSound(if e.data.None? then DataIn(parent, d, op.id).value else e.data.value.after, ask, give)
  {
    match op
    case FillOrder(id, amount, version) =>
      PriceIsQuote(parent, d, id, amount, version);
      var o := DataIn(parent, d, id).value.value;
      FillKeepsCovered(BookOf(o, AskIn(parent, d, id).value, GiveIn(parent, d, id).value).value, amount, version);
    case _ =>
  }

  predicate CreateFits(e: Effect) {
    e.ask <= I128_MAX && e.give <= I128_MAX
  }

  /**
   On a sound ledger an operation is refused only by its own checks: recording it never fails,
   except that a new order must fit the signed amounts.
   */
  lemma DoSucceedsExactly(parent: View, d: Delta, op: Operation)
    requires SoundAt(parent, d, op.id)
    ensures Do(parent, d, op).Ok? <==>
            Plan(parent, d, op).Ok? && (op.Create? ==> CreateFits(Plan(parent, d, op).value))
  {
    if Plan(parent, d, op).Ok? && (op.Create? ==> CreateFits(Plan(parent, d, op).value)) {
      var e := Plan(parent, d, op).value;
      PlanIsSound(parent, d, op);
      PlanStartsFromView(parent, d, op);
      PlanRecords(parent, d, op);
      SoundBalances(parent, d, op.id);
      BalanceAfterMerge(d.ask, e.id, parent.ask(e.id).value, AskIn(parent, d, e.id).value, e.ask);
      BalanceAfterMerge(d.give, e.id, parent.give(e.id).value, GiveIn(parent, d, e.id).value, e.give);
    }
  }

  lemma SoundBalances(parent: View, d: Delta, id: OrderId)
    requires SoundAt(parent, d, id)
    ensures AskIn(parent, d, id).value <= I128_MAX && GiveIn(parent, d, id).value <= I128_MAX
  {}

  /** When a fill goes through, spelled out in terms the caller can check. */
  lemma FillSucceedsExactly(parent: View, d: Delta, id: OrderId, fill: Amount, version: Version)
    requires SoundAt(parent, d, id)
    ensures Do(parent, d, FillOrder(id, fill, version)).Ok? <==>
            && DataIn(parent, d, id).value.Some?
            && var o, ask := DataIn(parent, d, id).value.value, AskIn(parent, d, id).value;
               && !o.isFrozen && fill <= ask
               && (version.V0? ==> ask > 0)
               && (version.V1? ==> OutputAmount(o.give).value * fill / OutputAmount(o.ask).value > 0)
  {
    DoSucceedsExactly(parent, d, FillOrder(id, fill, version));
    if DataIn(parent, d, id).value.Some? {
      PriceIsQuote(parent, d, id, fill, version);
      var b := BookOf(DataIn(parent, d, id).value.value, AskIn(parent, d, id).value, GiveIn(parent, d, id).value).value;
      if fill <= b.ask {
        QuoteExists(b, fill, version);
      }
    }
  }

  /** What an effect makes of its order: still sound, and changed by just that. */
  predicate MovedBy(parent: View, d: Delta, e: Effect, d': Delta)
    requires Readable(parent, d, e.id)
  {
    && Normal(d') && SoundAt(parent, d', e.id)
    && AskIn(parent, d', e.id) == Ok(AskIn(parent, d, e.id).value + e.ask)
    && GiveIn(parent, d', e.id) == Ok(GiveIn(parent, d, e.id).value + e.give)
    && DataIn(parent, d', e.id) == (if e.data.None? then DataIn(parent, d, e.id) else Ok(e.data.value.after))
  }

  /** Committing an effect that leads to a sound order. */
  lemma CommitSound(parent: View, d: Delta, e: Effect)
    requires Normal(d) && SoundAt(parent, d, e.id) && Commit(d, e).Ok?
    requires var ask, give := AskIn(parent, d, e.id).value + e.ask, GiveIn(parent, d, e.id).value + e.give;
             && 0 <= ask <= I128_MAX && 0 <= give <= I128_MAX
             && OrderSound(if e.data.None? then DataIn(parent, d, e.id).value else e.data.value.after, ask, give)
    ensures MovedBy(parent, d, e, Commit(d, e).value)
  {
    SoundBalances(parent, d, e.id);
    CommitAtOrder(parent, d, e);
    AdjustUndone(d.ask, e.id, e.ask);
    AdjustUndone(d.give, e.id, e.give);
  }

  lemma DoCommits(parent: View, d: Delta, op: Operation)
    requires Do(parent, d, op).Ok?
    ensures Plan(parent, d, op).Ok? && Plan(parent, d, op).value.id == op.id
    ensures Commit(d, Plan(parent, d, op).value).Ok?
    ensures Do(parent, d, op).value == (Commit(d, Plan(parent, d, op).value).value, Plan(parent, d, op).value)
  {
    PlanRecords(parent, d, op);
  }

  lemma PlannedIsSound(parent: View, d: Delta, op: Operation, e: Effect)
    requires SoundAt(parent, d, op.id) && Do(parent, d, op).Ok? && Plan(parent, d, op) == Ok(e) && e.id == op.id
    ensures var ask, give := AskIn(parent, d, e.id).value + e.ask, GiveIn(parent, d, e.id).value + e.give;
            && 0 <= ask <= I128_MAX && 0 <= give <= I128_MAX
            && OrderSound(if e.data.None? then DataIn(parent, d, e.id).value else e.data.value.after, ask, give)
  {
    DoSucceedsExactly(parent, d, op);
    PlanIsSound(parent, d, op);
  }

  /** The view of its order after a successful operation. */
  lemma DoAtOrder(parent: View, d: Delta, op: Operation)
    requires Normal(d) && SoundAt(parent, d, op.id) && Do(parent, d, op).Ok?
    ensures var (d', e) := Do(parent, d, op).value;
            e.id == op.id && MovedBy(parent, d, e, d')
  {
    DoCommits(parent, d, op);
    var e := Plan(parent, d, op).value;
    PlannedIsSound(parent, d, op, e);
    CommitSound(parent, d, e);
  }

  /** Every successful operation keeps the ledger sound. */
  lemma DoKeepsSound(parent: View, d: Delta, op: Operation)
    requires Sound(parent, d) && Do(parent, d, op).Ok?
    ensures Sound(parent, Do(parent, d, op).value.0)
  {
    var (d', e) := Do(parent, d, op).value;
    assert SoundAt(parent, d, op.id);
    DoAtOrder(parent, d, op);
    forall id ensures SoundAt(parent, d', id) {
      assert SoundAt(parent, d, id);
      if id != op.id {
        CommitElsewhere(parent, d, e, id);
      }
    }
  }

  // ----- runs

  /** A run of successful operations, with the undo records it leaves. */
  function RunAll(parent: View, d: Delta, ops: seq<Operation>): Option<(Delta, seq<Undo>)>
    decreases |ops|
  {
    if ops == [] then Some((d, []))
    else
      var r := Do(parent, d, ops[0]);
      if r.Err? || RecordOf(ops[0], r.value.1).None? then None
      else
        var more := RunAll(parent, r.value.0, ops[1..]);
        if more.None? then None
        else Some((more.value.0, [RecordOf(ops[0], r.value.1).value] + more.value.1))
  }

  /** Undoing records from the last to the first. */
  function UndoAll(parent: View, d: Delta, undos: seq<Undo>): OrdersResult<Delta>
    decreases |undos|
  {
    if undos == [] then Ok(d)
    else
      var back :- UndoAll(parent, d, undos[1..]);
      ApplyUndo(parent, back, undos[0])
  }

  /** Whatever mix of creations, fills of both versions, freezes and conclusions: the ledger stays sound. */
  lemma {:induction false} RunKeepsSound(parent: View, d: Delta, ops: seq<Operation>)
    requires Sound(parent, d) && RunAll(parent, d, ops).Some?
    ensures Sound(parent, RunAll(parent, d, ops).value.0)
    decreases |ops|
  {
    if ops != [] {
      DoKeepsSound(parent, d, ops[0]);
      RunKeepsSound(parent, Do(parent, d, ops[0]).value.0, ops[1..]);
    }
  }

  // ----- frozen orders

  /** Freezing marks the order; a marked order admits nothing but its conclusion. */
  lemma FrozenAdmitsConclusionOnly(parent: View, d: Delta, op: Operation)
    requires DataIn(parent, d, op.id).Ok? && DataIn(parent, d, op.id).value.Some? && Do(parent, d, op).Ok?
    ensures DataIn(parent, d, op.id).value.value.isFrozen ==> op.Conclude?
    ensures op.Freeze? ==>
              DataIn(parent, Do(parent, d, op).value.0, op.id) ==
              Ok(Some(DataIn(parent, d, op.id).value.value.(isFrozen := true)))
  {
    PlanRecords(parent, d, op);
  }

  /** Until it is concluded, a frozen order does not change in any run. */
  lemma {:induction false} FrozenStays(parent: View, d: Delta, ops: seq<Operation>, id: OrderId)
    requires RunAll(parent, d, ops).Some? && Conclude(id) !in ops
    requires DataIn(parent, d, id).Ok? && DataIn(parent, d, id).value.Some?
    requires DataIn(parent, d, id).value.value.isFrozen
    ensures var d' := RunAll(parent, d, ops).value.0;
            && DataIn(parent, d', id) == DataIn(parent, d, id)
            && AskIn(parent, d', id) == AskIn(parent, d, id) && GiveIn(parent, d', id) == GiveIn(parent, d, id)
    decreases |ops|
  {
    if ops != [] {
      var (d1, e) := Do(parent, d, ops[0]).value;
      PlanRecords(parent, d, ops[0]);
      if ops[0].id == id {
        FrozenAdmitsConclusionOnly(parent, d, ops[0]);
      } else {
        CommitElsewhere(parent, d, e, id);
        FrozenStays(parent, d1, ops[1..], id);
      }
    }
  }

  // ----- fills of one order

  function FillOps(id: OrderId, fills: seq<Fill>): seq<Operation> {
    if fills == [] then [] else [FillOrder(id, fills[0].amount, fills[0].version)] + FillOps(id, fills[1..])
  }

  function BookAt(parent: View, d: Delta, id: OrderId): Option<Book> {
    if Readable(parent, d, id) && DataIn(parent, d, id).value.Some?
    then BookOf(DataIn(parent, d, id).value.value, AskIn(parent, d, id).value, GiveIn(parent, d, id).value) else None
  }

  /** One fill on the ledger is one fill of the order's book. */
  lemma FillIsBookFill(parent: View, d: Delta, id: OrderId, fill: Fill)
    requires Normal(d) && SoundAt(parent, d, id) && DataIn(parent, d, id).value.Some?
    requires !DataIn(parent, d, id).value.value.isFrozen
    ensures var b, op := BookAt(parent, d, id).value, FillOrder(id, fill.amount, fill.version);
            && (Do(parent, d, op).Ok? <==> Fills(b, fill.amount, fill.version))
            && (Do(parent, d, op).Ok? ==>
                  && Quote(b, fill.amount, fill.version).value <= b.give
                  && Covered(AfterFill(b, fill.amount, fill.version))
                  && RecordOf(op, Do(parent, d, op).value.1).Some?
                  && BookAt(parent, Do(parent, d, op).value.0, id) == Some(AfterFill(b, fill.amount, fill.version))
                  && DataIn(parent, Do(parent, d, op).value.0, id) == DataIn(parent, d, id))
  {
    var op := FillOrder(id, fill.amount, fill.version);
    DoSucceedsExactly(parent, d, op);
    PriceIsQuote(parent, d, id, fill.amount, fill.version);
    if Do(parent, d, op).Ok? {
      PlanRecords(parent, d, op);
      DoAtOrder(parent, d, op);
      FillKeepsCovered(BookAt(parent, d, id).value, fill.amount, fill.version);
    }
  }

  /** So what was shown of runs of fills on a book holds of runs of fills on the ledger. */
  lemma {:induction false} FillsAreBookFills(parent: View, d: Delta, id: OrderId, fills: seq<Fill>)
    requires Sound(parent, d) && SoundAt(parent, d, id) && DataIn(parent, d, id).value.Some?
    requires !DataIn(parent, d, id).value.value.isFrozen
    ensures RunAll(parent, d, FillOps(id, fills)).Some? <==> FillAll(BookAt(parent, d, id).value, fills).Some?
    ensures RunAll(parent, d, FillOps(id, fills)).Some? ==>
              BookAt(parent, RunAll(parent, d, FillOps(id, fills)).value.0, id) ==
              Some(FillAll(BookAt(parent, d, id).value, fills).value.0)
    decreases |fills|
  {
    if fills != [] {
      var ops := FillOps(id, fills);
      assert ops[0] == FillOrder(id, fills[0].amount, fills[0].version) && ops[1..] == FillOps(id, fills[1..]);
      FillIsBookFill(parent, d, id, fills[0]);
      if Do(parent, d, ops[0]).Ok? {
        var d1 := Do(parent, d, ops[0]).value.0;
        DoKeepsSound(parent, d, ops[0]);
        assert SoundAt(parent, d1, id);
        FillsAreBookFills(parent, d1, id, fills[1..]);
      }
    }
  }

  // ----- conservation

  /** What the records say went into an order's give balance, payouts counted as negative. */
  function GiveFlow(undos: seq<Undo>, id: OrderId): int {
    if undos == [] then 0
    else (if UndoEffect(undos[0]).id == id then 0 - UndoEffect(undos[0]).give else 0) + GiveFlow(undos[1..], id)
  }

  function AskFlow(undos: seq<Undo>, id: OrderId): int {
    if undos == [] then 0
    else (if UndoEffect(undos[0]).id == id then 0 - UndoEffect(undos[0]).ask else 0) + AskFlow(undos[1..], id)
  }

  /** Over any run every balance changes by exactly what the records account for. */
  lemma {:induction false} RunConserves(parent: View, d: Delta, ops: seq<Operation>, id: OrderId)
    requires Sound(parent, d) && RunAll(parent, d, ops).Some?
    ensures var (d', undos) := RunAll(parent, d, ops).value;
            && SoundAt(parent, d', id) && SoundAt(parent, d, id)
            && GiveIn(parent, d', id).value == GiveIn(parent, d, id).value + GiveFlow(undos, id)
            && AskIn(parent, d', id).value == AskIn(parent, d, id).value + AskFlow(undos, id)
    decreases |ops|
  {
    assert SoundAt(parent, d, id);
    if ops != [] {
      var (d1, e) := Do(parent, d, ops[0]).value;
      assert SoundAt(parent, d, ops[0].id);
      DoAtOrder(parent, d, ops[0]);
      DoKeepsSound(parent, d, ops[0]);
      PlanRecords(parent, d, ops[0]);
      RunConserves(parent, d1, ops[1..], id);
      var undos := RunAll(parent, d, ops).value.1;
      assert undos[0] == RecordOf(ops[0], e).value && undos[1..] == RunAll(parent, d1, ops[1..]).value.1;
      if id != e.id {
        CommitElsewhere(parent, d, e, id);
      }
    }
  }

  // ----- undo

  /** Two deltas that mean the same over the parent. */
  ghost predicate SameView(parent: View, d: Delta, d': Delta) {
    d.ask == d'.ask && d.give == d'.give && forall id :: DataIn(parent, d, id) == DataIn(parent, d', id)
  }

  lemma AdjustUndone(m: AmountDeltas<OrderId>, id: OrderId, x: int)
    requires NoZeros(m) && Adjust(m, id, x).Ok?
    ensures NoZeros(Adjust(m, id, x).value) && Adjust(Adjust(m, id, x).value, id, 0 - x) == Ok(m)
  {
    MergeAmountUndone(m, id, x);
  }

  lemma InverseRecords(d: Delta, e: Effect)
    requires Adjust(d.ask, e.id, 0 - e.ask).Ok? && Adjust(d.give, e.id, 0 - e.give).Ok?
    requires e.data.Some? ==> MergeData(d.data, e.id, Invert(e.data.value)).Ok?
    ensures Commit(d, Inverse(e)) ==
            Ok(Delta(if e.data.None? then d.data else MergeData(d.data, e.id, Invert(e.data.value)).value,
                     Adjust(d.ask, e.id, 0 - e.ask).value, Adjust(d.give, e.id, 0 - e.give).value))
  {}

  /** Committing the inverse of an effect brings the view back. */
  lemma CommitUndone(parent: View, d: Delta, e: Effect, d1: Delta)
    requires Normal(d) && Commit(d, e).Ok?
    requires e.data.Some? ==> DataIn(parent, d, e.id) == Ok(e.data.value.before)
    requires SameView(parent, Commit(d, e).value, d1)
    ensures Commit(d1, Inverse(e)).Ok? && SameView(parent, d, Commit(d1, Inverse(e)).value)
    ensures Normal(d1)
  {
    var after := Commit(d, e).value;
    AdjustUndone(d.ask, e.id, e.ask);
    AdjustUndone(d.give, e.id, e.give);
    assert DataIn(parent, d1, e.id) == DataIn(parent, after, e.id);
    if e.data.Some? {
      DataAfterMerge(d1.data, e.id, parent.data(e.id), Invert(e.data.value));
    }
    InverseRecords(d1, e);
    var back := Commit(d1, Inverse(e)).value;
    forall id ensures DataIn(parent, d, id) == DataIn(parent, back, id) {
      assert DataIn(parent, after, id) == DataIn(parent, d1, id);
    }
  }

  lemma SameViewReads(parent: View, d: Delta, d': Delta, id: OrderId)
    requires SameView(parent, d, d')
    ensures AskIn(parent, d, id) == AskIn(parent, d', id) && GiveIn(parent, d, id) == GiveIn(parent, d', id)
    ensures DataIn(parent, d, id) == DataIn(parent, d', id)
  {}

  /** The checks of an undo pass on the view that its operation left. */
  lemma UndoPasses(parent: View, d: Delta, op: Operation)
    requires Normal(d) && SoundAt(parent, d, op.id) && Do(parent, d, op).Ok?
    ensures var (d', e) := Do(parent, d, op).value;
            RecordOf(op, e).Some? && UndoAllowed(parent, d', RecordOf(op, e).value)
  {
    PlanRecords(parent, d, op);
    DoAtOrder(parent, d, op);
  }

  lemma SameViewAllows(parent: View, d: Delta, d': Delta, u: Undo)
    requires SameView(parent, d, d') && UndoAllowed(parent, d, u)
    ensures UndoAllowed(parent, d', u)
  {
    SameViewReads(parent, d, d', u.id);
  }

  /** The record of an operation on a sound ledger can be undone, and undoing it restores the view. */
  lemma UndoOne(parent: View, d: Delta, op: Operation, d1: Delta)
    requires Sound(parent, d) && Do(parent, d, op).Ok?
    requires SameView(parent, Do(parent, d, op).value.0, d1)
    ensures var u := RecordOf(op, Do(parent, d, op).value.1);
            && u.Some? && ApplyUndo(parent, d1, u.value).Ok?
            && SameView(parent, d, ApplyUndo(parent, d1, u.value).value)
  {
    var (after, e) := Do(parent, d, op).value;
    assert SoundAt(parent, d, op.id);
    UndoPasses(parent, d, op);
    PlanRecords(parent, d, op);
    SameViewAllows(parent, after, d1, RecordOf(op, e).value);
    PlanStartsFromView(parent, d, op);
    CommitUndone(parent, d, e, d1);
    UndoIsCheckThenCommit(parent, d1, RecordOf(op, e).value);
  }

  /** Undoing a whole run in reverse order never fails and restores every order. */
  lemma {:induction false} UndoRestores(parent: View, d: Delta, ops: seq<Operation>)
    requires Sound(parent, d) && RunAll(parent, d, ops).Some?
    ensures var (d', undos) := RunAll(parent, d, ops).value;
            && UndoAll(parent, d', undos).Ok?
            && SameView(parent, d, UndoAll(parent, d', undos).value)
    decreases |ops|
  {
    if ops != [] {
      var (d1, e) := Do(parent, d, ops[0]).value;
      DoKeepsSound(parent, d, ops[0]);
      UndoRestores(parent, d1, ops[1..]);
      var (end, undos) := RunAll(parent, d, ops).value;
      assert undos[1..] == RunAll(parent, d1, ops[1..]).value.1;
      UndoOne(parent, d, ops[0], UndoAll(parent, end, undos[1..]).value);
    }
  }

  // ----- undo in any cache

  /** The same orders and balances, whatever layers they are found in. */
  ghost predicate SameReadings(p: View, d: Delta, q: View, d1: Delta) {
    forall id :: SameAt(p, d, q, d1, id)
  }

  predicate SameAt(p: View, d: Delta, q: View, d1: Delta, id: OrderId) {
    && DataIn(p, d, id) == DataIn(q, d1, id)
    && AskIn(p, d, id) == AskIn(q, d1, id) && GiveIn(p, d, id) == GiveIn(q, d1, id)
  }

  /** What an effect did to its order: from the readings before to the readings after. */
  predicate Led(p: View, d: Delta, e: Effect, after: Delta) {
    && Readable(p, d, e.id) && Convertible(e.ask) && Convertible(e.give)
    && var ask, give := AskIn(p, d, e.id).value, GiveIn(p, d, e.id).value;
       && ask <= I128_MAX && give <= I128_MAX && 0 <= ask + e.ask <= I128_MAX && 0 <= give + e.give <= I128_MAX
       && AskIn(p, after, e.id) == Ok(ask + e.ask) && GiveIn(p, after, e.id) == Ok(give + e.give)
       && DataIn(p, d, e.id) == (if e.data.None? then DataIn(p, after, e.id) else Ok(e.data.value.before))
       && DataIn(p, after, e.id) == (if e.data.None? then DataIn(p, d, e.id) else Ok(e.data.value.after))
  }

  lemma SoundLed(p: View, d: Delta, e: Effect, after: Delta)
    requires SoundAt(p, d, e.id) && SoundAt(p, after, e.id)
    requires AskIn(p, after, e.id).value == AskIn(p, d, e.id).value + e.ask
    requires GiveIn(p, after, e.id).value == GiveIn(p, d, e.id).value + e.give
    requires e.data.Some? ==> DataIn(p, d, e.id) == Ok(e.data.value.before)
    requires DataIn(p, after, e.id) == if e.data.None? then DataIn(p, d, e.id) else Ok(e.data.value.after)
    ensures Led(p, d, e, after)
  {
    SoundBalances(p, d, e.id);
    SoundBalances(p, after, e.id);
  }

  lemma DoLed(p: View, d: Delta, op: Operation)
    requires Sound(p, d) && Do(p, d, op).Ok?
    ensures var (after, e) := Do(p, d, op).value;
            e.id == op.id && Led(p, d, e, after)
  {
    assert SoundAt(p, d, op.id);
    DoAtOrder(p, d, op);
    DoCommits(p, d, op);
    PlanStartsFromView(p, d, op);
    var (after, e) := Do(p, d, op).value;
    SoundLed(p, d, e, after);
  }

  lemma AdjustInRange(m: AmountDeltas<OrderId>, id: OrderId, parent: Reading<Amount>, x: int)
    requires NoZeros(m) && Convertible(x) && ReadBalance(parent, Lookup(m, id)).Ok?
    requires ReadBalance(parent, Lookup(m, id)).value <= I128_MAX
    requires 0 <= ReadBalance(parent, Lookup(m, id)).value + x <= I128_MAX
    ensures Adjust(m, id, x).Ok? && NoZeros(Adjust(m, id, x).value)
    ensures ReadBalance(parent, Lookup(Adjust(m, id, x).value, id)) == Ok(ReadBalance(parent, Lookup(m, id)).value + x)
  {
    BalanceAfterMerge(m, id, parent.value, ReadBalance(parent, Lookup(m, id)).value, x);
    AdjustUndone(m, id, x);
  }

  /** Where the order reads as the effect left it, the inverse can be recorded and brings it back. */
  lemma InverseAnywhere(p: View, d: Delta, e: Effect, after: Delta, q: View, d1: Delta)
    requires Led(p, d, e, after) && Normal(d1) && SameAt(p, after, q, d1, e.id)
    ensures Commit(d1, Inverse(e)).Ok? && Normal(Commit(d1, Inverse(e)).value)
    ensures SameAt(p, d, q, Commit(d1, Inverse(e)).value, e.id)
  {
    if e.data.Some? {
      DataAfterMerge(d1.data, e.id, q.data(e.id), Invert(e.data.value));
    }
    AdjustInRange(d1.ask, e.id, q.ask(e.id), 0 - e.ask);
    AdjustInRange(d1.give, e.id, q.give(e.id), 0 - e.give);
    InverseRecords(d1, e);
  }

  /** The record of an operation can be undone in any cache that reads as the operation left the ledger. */
  lemma UndoOneAnywhere(p: View, d: Delta, op: Operation, q: View, d1: Delta)
    requires Sound(p, d) && Do(p, d, op).Ok? && Normal(d1) && SameReadings(p, Do(p, d, op).value.0, q, d1)
    ensures var u := RecordOf(op, Do(p, d, op).value.1);
            && u.Some? && ApplyUndo(q, d1, u.value).Ok? && Normal(ApplyUndo(q, d1, u.value).value)
            && SameReadings(p, d, q, ApplyUndo(q, d1, u.value).value)
  {
    var (after, e) := Do(p, d, op).value;
    assert SoundAt(p, d, op.id) && SameAt(p, after, q, d1, op.id);
    UndoPasses(p, d, op);
    PlanRecords(p, d, op);
    var u := RecordOf(op, e).value;
    DoLed(p, d, op);
    InverseAnywhere(p, d, e, after, q, d1);
    UndoIsCheckThenCommit(q, d1, u);
    var back := Commit(d1, Inverse(e)).value;
    forall id ensures SameAt(p, d, q, back, id) {
      if id != op.id {
        CommitElsewhere(p, d, e, id);
        CommitElsewhere(q, d1, Inverse(e), id);
        assert SameAt(p, after, q, d1, id);
      }
    }
  }

  /**
   The records of a run can be undone, in reverse order, in any cache over any view that reads as
   the run left the ledger; every order then reads as before the run.
   */
  lemma {:induction false} UndoRestoresAnywhere(p: View, d: Delta, ops: seq<Operation>, q: View, d1: Delta)
    requires Sound(p, d) && RunAll(p, d, ops).Some? && Normal(d1)
    requires SameReadings(p, RunAll(p, d, ops).value.0, q, d1)
    ensures var back := UndoAll(q, d1, RunAll(p, d, ops).value.1);
            back.Ok? && Normal(back.value) && SameReadings(p, d, q, back.value)
    decreases |ops|
  {
    if ops != [] {
      var mid := Do(p, d, ops[0]).value.0;
      DoKeepsSound(p, d, ops[0]);
      UndoRestoresAnywhere(p, mid, ops[1..], q, d1);
      var undos := RunAll(p, d, ops).value.1;
      assert undos[1..] == RunAll(p, mid, ops[1..]).value.1;
      UndoOneAnywhere(p, d, ops[0], q, UndoAll(q, d1, undos[1..]).value);
    }
  }

  /**
   Creation checks the ask balance but not the give balance, so without the invariant its undo
   can be refused: it is accepted exactly when the give balance was zero before.
   */
  lemma CreateUndoExactly(parent: View, d: Delta, id: OrderId, order: OrderData)
    requires Normal(d) && Do(parent, d, Create(id, order)).Ok?
    ensures var (d', e) := Do(parent, d, Create(id, order)).value;
            ApplyUndo(parent, d', RecordOf(Create(id, order), e).value).Ok? <==> GiveIn(parent, d, id) == Ok(0)
  {
    var op := Create(id, order);
    var (d', e) := Do(parent, d, op).value;
    PlanRecords(parent, d, op);
    PlanStartsFromView(parent, d, op);
    BalanceAfterMerge(d.ask, id, parent.ask(id).value, 0, e.ask);
    assert SameView(parent, d', d');
    CommitUndone(parent, d, e, d');
    UndoIsCheckThenCommit(parent, d', RecordOf(op, e).value);
    ZeroBefore(d.give, id, parent.give(id), e.give);
  }

  /** A concrete case: a leftover give balance of one, and a new order whose creation cannot be undone. */
  lemma CreateUndoCanFail(parent: View, id: OrderId, key: Destination)
    requires parent.data(id) == Ok(None) && parent.ask(id) == Ok(0) && parent.give(id) == Ok(1)
    ensures var op, d := Create(id, OrderData(key, Coin(2), Coin(3), false)), Delta(map[], map[], map[]);
            && Do(parent, d, op).Ok?
            && var (d', e) := Do(parent, d, op).value;
               ApplyUndo(parent, d', RecordOf(op, e).value).Err?
  {
    CreateUndoExactly(parent, Delta(map[], map[], map[]), id, OrderData(key, Coin(2), Coin(3), false));
  }

  /** A balance reads as the amount just added exactly when it read as zero before. */
  lemma ZeroBefore(m: AmountDeltas<OrderId>, id: OrderId, parent: Reading<Amount>, x: SignedAmount)
    requires NoZeros(m) && 0 < x && MergeAmount(m, id, x).Ok?
    ensures ReadBalance(parent, Lookup(MergeAmount(m, id, x).value, id)) == Ok(x) <==>
            ReadBalance(parent, Lookup(m, id)) == Ok(0)
  {}
}
