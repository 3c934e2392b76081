/** What each order operation does to what is read of the ledger, and when it is refused. */
module OrdersOutcomes {
  import opened Outcomes
  import opened Accounting
  import opened OrderPricing
  import opened Orders
  import opened OrdersSafety

  /** Nothing reads differently but perhaps the order `id`. */
  ghost predicate OthersSame(parent: View, d: Delta, d': Delta, id: OrderId) {
    forall other :: other != id ==> SameAt(parent, d, parent, d', other)
  }

  lemma DoLeavesOthers(parent: View, d: Delta, op: Operation)
    requires Do(parent, d, op).Ok?
    ensures OthersSame(parent, d, Do(parent, d, op).value.0, op.id)
  {
    DoCommits(parent, d, op);
    forall other | other != op.id ensures SameAt(parent, d, parent, Do(parent, d, op).value.0, other) {
      CommitElsewhere(parent, d, Plan(parent, d, op).value, other);
    }
  }

  // ----- filling

  /** The price is the give in the proportion of the fill to the ask, short of less than one atom. */
  predicate PaysInProportion(ask: int, give: int, fill: int, pay: int) {
    0 < ask && ask * pay <= give * fill < ask * (pay + 1)
  }

  lemma FilledInProportion(ask: Amount, give: Amount, fill: Amount)
    requires FilledAmount(ask, give, fill).Some?
    ensures PaysInProportion(ask, give, fill, FilledAmount(ask, give, fill).value)
  {
    FloorBounds(give * fill, ask);
  }

  /** V0 prices by what remains, V1 by the original amounts. */
  lemma QuoteInProportion(b: Book, fill: Amount, version: Version)
    requires Quote(b, fill, version).Some?
    ensures version.V0? ==> PaysInProportion(b.ask, b.give, fill, Quote(b, fill, version).value)
    ensures version.V1? ==> PaysInProportion(b.askTotal, b.giveTotal, fill, Quote(b, fill, version).value)
  {
    if version.V0? {
      FilledInProportion(b.ask, b.give, fill);
    } else {
      FilledInProportion(b.askTotal, b.giveTotal, fill);
    }
  }

  /**
   A fill takes its amount off the ask and the price off the give. Under V0 the price is in
   proportion to the balances before the fill, under V1 to the order's original amounts, and then it
   is not nothing.
   */
  lemma FillPays(parent: View, d: Delta, id: OrderId, fill: Amount, version: Version)
    requires Sound(parent, d) && Do(parent, d, FillOrder(id, fill, version)).Ok?
    ensures SoundAt(parent, d, id) && DataIn(parent, d, id).value.Some? && !DataIn(parent, d, id).value.value.isFrozen
    ensures var d' := Do(parent, d, FillOrder(id, fill, version)).value.0;
            var ask, give := AskIn(parent, d, id).value, GiveIn(parent, d, id).value;
            && fill <= ask && AskIn(parent, d', id) == Ok(ask - fill)
            && GiveIn(parent, d', id).Ok? && GiveIn(parent, d', id).value <= give
            && DataIn(parent, d', id) == DataIn(parent, d, id) && OthersSame(parent, d, d', id)
    ensures var (d', e) := Do(parent, d, FillOrder(id, fill, version)).value;
            var order, ask := DataIn(parent, d, id).value.value, AskIn(parent, d, id).value;
            var give := GiveIn(parent, d, id).value;
            var pay := give - GiveIn(parent, d', id).value;
            && !order.ask.TokenV0? && !order.give.TokenV0?
            && (version.V0? ==> PaysInProportion(ask, give, fill, pay))
            && (version.V1? ==> pay > 0 && PaysInProportion(order.ask.amount, order.give.amount, fill, pay))
            && RecordOf(FillOrder(id, fill, version), e) == Some(UndoFill(id, fill, pay))
  {
    var op := FillOrder(id, fill, version);
    assert SoundAt(parent, d, id);
    DoLeavesOthers(parent, d, op);
    DoAtOrder(parent, d, op);
    DoCommits(parent, d, op);
    PriceIsQuote(parent, d, id, fill, version);
    var order, ask, give := DataIn(parent, d, id).value.value, AskIn(parent, d, id).value, GiveIn(parent, d, id).value;
    QuoteInProportion(BookOf(order, ask, give).value, fill, version);
  }

  /** Why a fill is refused: these reasons, in this order. */
  lemma FillRefused(parent: View, d: Delta, id: OrderId, fill: Amount, version: Version)
    requires Sound(parent, d)
    ensures SoundAt(parent, d, id)
    ensures var data, ask := DataIn(parent, d, id).value, AskIn(parent, d, id).value;
            var r := Do(parent, d, FillOrder(id, fill, version));
            && (r == Err(OrderDataNotFound(id)) <==> data.None?)
            && (r == Err(AttemptedFillFrozenOrder(id)) <==> data.Some? && data.value.isFrozen)
            && (r == Err(OrderOverbid(id, ask, fill)) <==> data.Some? && !data.value.isFrozen && ask < fill)
            && (r == Err(OrderOverflow(id)) <==>
                  data.Some? && !data.value.isFrozen && version.V0? && ask == fill == 0)
            && (r == Err(OrderUnderbid(id, fill)) <==>
                  && data.Some? && !data.value.isFrozen && version.V1? && fill <= ask
                  && data.value.give.amount * fill < data.value.ask.amount)
  {
    var op := FillOrder(id, fill, version);
    assert SoundAt(parent, d, id);
    DoSucceedsExactly(parent, d, op);
    if DataIn(parent, d, id).value.Some? {
      var order, ask := DataIn(parent, d, id).value.value, AskIn(parent, d, id).value;
      var b := BookOf(order, ask, GiveIn(parent, d, id).value).value;
      if fill <= ask {
        QuoteExists(b, fill, version);
        if version.V1? {
          ZeroPrice(order.ask.amount, order.give.amount, fill);
        }
      }
    }
  }

  lemma ZeroPrice(ask: nat, give: nat, fill: nat)
    requires 0 < ask
    ensures give * fill / ask == 0 <==> give * fill < ask
  {
    FloorBounds(give * fill, ask);
  }

  // ----- creating

  predicate Fillable(v: OutputValue) {
    !v.TokenV0? && 0 < v.amount <= I128_MAX
  }

  /** A new order needs a free id and two amounts that are something and fit; it then reads as it was given. */
  lemma CreateOutcome(parent: View, d: Delta, id: OrderId, order: OrderData)
    requires Sound(parent, d)
    ensures SoundAt(parent, d, id)
    ensures var r := Do(parent, d, Create(id, order));
            r.Ok? <==> DataIn(parent, d, id).value.None? && Fillable(order.ask) && Fillable(order.give)
    ensures var r := Do(parent, d, Create(id, order));
            r.Ok? ==>
              && DataIn(parent, r.value.0, id) == Ok(Some(order))
              && AskIn(parent, r.value.0, id) == Ok(order.ask.amount)
              && GiveIn(parent, r.value.0, id) == Ok(order.give.amount)
              && OthersSame(parent, d, r.value.0, id)
              && RecordOf(Create(id, order), r.value.1) ==
                 Some(UndoCreate(id, DataDelta(Some(order), None), order.ask.amount, order.give.amount))
  {
    var op := Create(id, order);
    assert SoundAt(parent, d, id);
    DoSucceedsExactly(parent, d, op);
    if Do(parent, d, op).Ok? {
      DoLeavesOthers(parent, d, op);
      DoAtOrder(parent, d, op);
      DoCommits(parent, d, op);
    }
  }

  lemma CreateRefused(parent: View, d: Delta, id: OrderId, order: OrderData)
    requires Sound(parent, d)
    ensures SoundAt(parent, d, id)
    ensures var r, data := Do(parent, d, Create(id, order)), DataIn(parent, d, id).value;
            && (r == Err(OrderAlreadyExists(id)) <==> data.Some?)
            && (r == Err(UnsupportedTokenVersion) <==> data.None? && (order.ask.TokenV0? || order.give.TokenV0?))
            && (r == Err(OrderWithZeroValue(id)) <==>
                  data.None? && !order.ask.TokenV0? && !order.give.TokenV0?
                  && (order.ask.amount == 0 || order.give.amount == 0))
  {
    assert SoundAt(parent, d, id);
  }

  // ----- concluding and freezing

  /** Conclusion needs the order and leaves nothing of it; the record holds all that was there. */
  lemma ConcludeOutcome(parent: View, d: Delta, id: OrderId)
    requires Sound(parent, d)
    ensures SoundAt(parent, d, id)
    ensures var r, data := Do(parent, d, Conclude(id)), DataIn(parent, d, id).value;
            && (r.Ok? <==> data.Some?)
            && (data.None? ==> r == Err(AttemptedConcludeNonexistingOrderData(id)))
    ensures var r := Do(parent, d, Conclude(id));
            r.Ok? ==>
              && DataIn(parent, r.value.0, id) == Ok(None)
              && AskIn(parent, r.value.0, id) == Ok(0) && GiveIn(parent, r.value.0, id) == Ok(0)
              && OthersSame(parent, d, r.value.0, id)
              && RecordOf(Conclude(id), r.value.1) ==
                 Some(UndoConclude(id, DataDelta(None, DataIn(parent, d, id).value),
                                   AskIn(parent, d, id).value, GiveIn(parent, d, id).value))
  {
    var op := Conclude(id);
    assert SoundAt(parent, d, id);
    DoSucceedsExactly(parent, d, op);
    if Do(parent, d, op).Ok? {
      DoLeavesOthers(parent, d, op);
      DoAtOrder(parent, d, op);
      DoCommits(parent, d, op);
    }
  }

  /** Freezing needs an order that is not frozen, and marks it. */
  lemma FreezeOutcome(parent: View, d: Delta, id: OrderId)
    requires Sound(parent, d)
    ensures SoundAt(parent, d, id)
    ensures var r, data := Do(parent, d, Freeze(id)), DataIn(parent, d, id).value;
            && (r.Ok? <==> data.Some? && !data.value.isFrozen)
            && (data.None? ==> r == Err(AttemptedFreezeNonexistingOrderData(id)))
            && (data.Some? && data.value.isFrozen ==> r == Err(AttemptedFreezeAlreadyFrozenOrder(id)))
    ensures var r := Do(parent, d, Freeze(id));
            r.Ok? ==>
              && DataIn(parent, d, id).value.Some?
              && var order := DataIn(parent, d, id).value.value;
                 && DataIn(parent, r.value.0, id) == Ok(Some(order.(isFrozen := true)))
                 && AskIn(parent, r.value.0, id) == AskIn(parent, d, id)
                 && GiveIn(parent, r.value.0, id) == GiveIn(parent, d, id)
                 && OthersSame(parent, d, r.value.0, id)
  {
    var op := Freeze(id);
    assert SoundAt(parent, d, id);
    DoSucceedsExactly(parent, d, op);
    if Do(parent, d, op).Ok? {
      DoLeavesOthers(parent, d, op);
      DoAtOrder(parent, d, op);
      DoCommits(parent, d, op);
    }
  }

  // ----- undoing

  /** The change can be recorded on top of the one that is there. */
  predicate CanChange(m: AmountDeltas<OrderId>, id: OrderId, x: int) {
    -I128_MAX <= x <= I128_MAX && -I128_MAX - 1 <= Change(m, id) + x <= I128_MAX
  }

  predicate Follows(d: Delta, id: OrderId, x: DataDelta<OrderData>) {
    id in d.data ==> d.data[id].after == x.before
  }

  predicate Exists(parent: View, d: Delta, id: OrderId, there: bool) {
    DataIn(parent, d, id).Ok? && DataIn(parent, d, id).value.Some? == there
  }

  /** A creation is undone while the order is as it was created. */
  lemma UndoCreateOutcome(parent: View, d: Delta, id: OrderId, x: DataDelta<OrderData>, ask: Amount, give: Amount)
    ensures var r := ApplyUndo(parent, d, UndoCreate(id, x, ask, give));
            && (r.Ok? <==>
                  && AskIn(parent, d, id) == Ok(ask) && GiveIn(parent, d, id) == Ok(give) && Exists(parent, d, id, true)
                  && CanChange(d.ask, id, 0 - ask) && CanChange(d.give, id, 0 - give) && Follows(d, id, x))
            && (r.Ok? ==>
                  && Change(r.value.ask, id) == Change(d.ask, id) - ask
                  && Change(r.value.give, id) == Change(d.give, id) - give
                  && DataIn(parent, r.value, id) == Ok(x.after))
            && (AskIn(parent, d, id).Ok? && AskIn(parent, d, id).value != ask ==>
                  r == Err(InvariantOrderAskBalanceChangedForUndo(id)))
            && (AskIn(parent, d, id) == Ok(ask) && CanChange(d.ask, id, 0 - ask)
                && GiveIn(parent, d, id).Ok? && GiveIn(parent, d, id).value != give ==>
                  r == Err(InvariantOrderGiveBalanceChangedForUndo(id)))
            && (AskIn(parent, d, id) == Ok(ask) && CanChange(d.ask, id, 0 - ask)
                && GiveIn(parent, d, id) == Ok(give) && CanChange(d.give, id, 0 - give)
                && Exists(parent, d, id, false) ==>
                  r == Err(InvariantOrderDataNotFoundForUndo(id)))
  {}

  /** A conclusion is undone while there is nothing of the order. */
  lemma UndoConcludeOutcome(parent: View, d: Delta, id: OrderId, x: DataDelta<OrderData>, ask: Amount, give: Amount)
    ensures var r := ApplyUndo(parent, d, UndoConclude(id, x, ask, give));
            && (r.Ok? <==>
                  && AskIn(parent, d, id) == Ok(0) && GiveIn(parent, d, id) == Ok(0) && Exists(parent, d, id, false)
                  && CanChange(d.ask, id, ask) && CanChange(d.give, id, give) && Follows(d, id, x))
            && (r.Ok? ==>
                  && Change(r.value.ask, id) == Change(d.ask, id) + ask
                  && Change(r.value.give, id) == Change(d.give, id) + give
                  && DataIn(parent, r.value, id) == Ok(x.after))
            && (Exists(parent, d, id, true) ==> r == Err(InvariantOrderDataExistForConcludeUndo(id)))
            && (Exists(parent, d, id, false) && Follows(d, id, x)
                && AskIn(parent, d, id).Ok? && AskIn(parent, d, id).value != 0 ==>
                  r == Err(InvariantOrderAskBalanceExistForConcludeUndo(id)))
            && (Exists(parent, d, id, false) && Follows(d, id, x) && AskIn(parent, d, id) == Ok(0)
                && CanChange(d.ask, id, ask) && GiveIn(parent, d, id).Ok? && GiveIn(parent, d, id).value != 0 ==>
                  r == Err(InvariantOrderGiveBalanceExistForConcludeUndo(id)))
  {}

  /** A fill is undone whenever the amounts can be added back, a freeze while the order is there. */
  lemma UndoFillOutcome(parent: View, d: Delta, id: OrderId, ask: Amount, give: Amount)
    ensures var r := ApplyUndo(parent, d, UndoFill(id, ask, give));
            && (r.Ok? <==> CanChange(d.ask, id, ask) && CanChange(d.give, id, give))
            && (r.Ok? ==>
                  && Change(r.value.ask, id) == Change(d.ask, id) + ask
                  && Change(r.value.give, id) == Change(d.give, id) + give && r.value.data == d.data)
  {}

  lemma UndoFreezeOutcome(parent: View, d: Delta, id: OrderId, x: DataDelta<OrderData>)
    ensures var r := ApplyUndo(parent, d, UndoFreeze(id, x));
            && (r.Ok? <==> Exists(parent, d, id, true) && Follows(d, id, x))
            && (r.Ok? ==> DataIn(parent, r.value, id) == Ok(x.after) && r.value.ask == d.ask && r.value.give == d.give)
            && (Exists(parent, d, id, false) ==> r == Err(InvariantOrderDataNotExistForFreezeUndo(id)))
  {}

  /** And no undo touches any other order. */
  lemma UndoLeavesOthers(parent: View, d: Delta, u: Undo)
    requires Normal(d) && ApplyUndo(parent, d, u).Ok?
    ensures OthersSame(parent, d, ApplyUndo(parent, d, u).value, u.id)
  {
    UndoIsCheckThenCommit(parent, d, u);
    forall other | other != u.id ensures SameAt(parent, d, parent, ApplyUndo(parent, d, u).value, other) {
      CommitElsewhere(parent, d, UndoEffect(u), other);
    }
  }
}
