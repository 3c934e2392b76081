/** The mutable cache over a parent view. */
module OrdersCache {
  import opened Outcomes
  import opened Accounting
  import opened OrderPricing
  import opened Orders

  /** What undoing a flush needs: inverse data changes, and the amounts to negate. */
  datatype DeltaUndo = DeltaUndo(
    data: DataDeltas<OrderId, OrderData>,
    ask: AmountDeltas<OrderId>,
    give: AmountDeltas<OrderId>
  )

  ghost predicate Mergeable(lower: Delta, upper: Delta) {
    Continues(lower.data, upper.data) && SumsFit(lower.ask, upper.ask) && SumsFit(lower.give, upper.give)
  }

  ghost function Merged(lower: Delta, upper: Delta): Delta
    requires Mergeable(lower, upper)
  {
    Delta(MergedData(lower.data, upper.data), SumOf(lower.ask, upper.ask), SumOf(lower.give, upper.give))
  }

  /** What a failed flush reports: data is merged before the amounts. */
  ghost function FlushError(lower: Delta, upper: Delta): OrdersError {
    AccountingError(if !Continues(lower.data, upper.data) then DeltaDataMismatch else DeltaAdditionFailed)
  }

  /** What a failed flush leaves: data, asks and gives in this order, the failing one merged in part. */
  ghost predicate StoppedAt(was: Delta, delta: Delta, now: Delta) {
    if !Continues(was.data, delta.data) then
      PartlyMerged(now.data, was.data, delta.data) && now.ask == was.ask && now.give == was.give
    else
      && now.data == MergedData(was.data, delta.data)
      && if !SumsFit(was.ask, delta.ask) then
           PartlySummed(now.ask, was.ask, delta.ask) && now.give == was.give
         else
           now.ask == SumOf(was.ask, delta.ask) && PartlySummed(now.give, was.give, delta.give)
  }

  class OrdersAccountingCache {
    const parent: View
    var orderData: DataDeltas<OrderId, OrderData>
    var askBalances: AmountDeltas<OrderId>
    var giveBalances: AmountDeltas<OrderId>

    function Data(): Delta
      reads this
    {
      Delta(orderData, askBalances, giveBalances)
    }

    ghost predicate Valid()
      reads this
    {
      Normal(Data())
    }

    constructor (parent: View)
      ensures Valid() && this.parent == parent && Data() == Delta(map[], map[], map[])
    {
      this.parent := parent;
      orderData, askBalances, giveBalances := map[], map[], map[];
    }

    method GetOrderData(id: OrderId) returns (r: OrdersResult<Option<OrderData>>)
      ensures r == Lift(DataIn(parent, Data(), id))
    {
      if id in orderData {
        return Ok(orderData[id].after);
      }
      var below := parent.data(id);
      if below.Err? {
        return Err(ViewFail);
      }
      return Ok(below.value);
    }

    /** A balance of the parent with the change recorded for it. */
    static method Combined(below: Reading<Amount>, change: Option<SignedAmount>) returns (r: OrdersResult<Amount>)
      ensures r == Lift(ReadBalance(below, change))
    {
      if below.Err? {
        return Err(ViewFail);
      }
      var sum := CombineAmount(below.value, change);
      return if sum.Ok? then Ok(sum.value) else Err(AccountingError(sum.error));
    }

    method GetAskBalance(id: OrderId) returns (r: OrdersResult<Amount>)
      ensures r == Lift(AskIn(parent, Data(), id))
    {
      r := Combined(parent.ask(id), Lookup(askBalances, id));
    }

    method GetGiveBalance(id: OrderId) returns (r: OrdersResult<Amount>)
      ensures r == Lift(GiveIn(parent, Data(), id))
    {
      r := Combined(parent.give(id), Lookup(giveBalances, id));
    }

    /** Adds to a balance, or takes from it, and reports failures as this component's errors. */
    static method Adjusted(m: AmountDeltas<OrderId>, id: OrderId, add: bool, amount: Amount)
      returns (r: OrdersResult<AmountDeltas<OrderId>>)
      requires NoZeros(m)
      ensures r == Recorded(Adjust(m, id, if add then amount else 0 - amount))
      ensures r.Ok? ==> NoZeros(r.value)
    {
      var next := if add then AddUnsigned(m, id, amount) else SubUnsigned(m, id, amount);
      if next.Err? {
        return Err(AccountingError(next.error));
      }
      MergeAmountUndone(m, id, if add then amount else 0 - amount);
      return Ok(next.value);
    }

    /** Records a change of data. A change that does not continue the one there drops it. */
    method Changed(id: OrderId, d: DataDelta<OrderData>) returns (r: OrdersResult<()>)
      modifies this`orderData
      ensures match MergeData(old(orderData), id, d)
              case Ok(m) => r == Ok(()) && orderData == m
              case Err(e) => r == Err(AccountingError(e)) && orderData == old(orderData) - {id}
    {
      var next := MergeData(orderData, id, d);
      if next.Err? {
        orderData := orderData - {id};
        return Err(AccountingError(next.error));
      }
      orderData := next.value;
      return Ok(());
    }

    /**
     The outcome of an operation against its plan: refused alike, with nothing changed, or
     recorded with its undo.
     */
    ghost predicate Performs(op: Operation, before: Delta, r: OrdersResult<Undo>)
      reads this
    {
      && Valid()
      && match Do(parent, before, op)
         case Ok((d, e)) => Data() == d && RecordOf(op, e).Some? && r == Ok(RecordOf(op, e).value)
         case Err(e) => r == Err(e) && (Plan(parent, before, op).Err? ==> Data() == before)
    }

    method CreateOrder(id: OrderId, order: OrderData) returns (r: OrdersResult<Undo>)
      requires Valid()
      modifies this
      ensures Performs(Create(id, order), old(Data()), r)
    {
      var current :- GetOrderData(id);
      if current.Some? {
        return Err(OrderAlreadyExists(id));
      }
      var ask :- GetAskBalance(id);
      if ask != 0 {
        return Err(OrderAlreadyExists(id));
      }
      var askAmount :- OutputAmount(order.ask);
      var giveAmount :- OutputAmount(order.give);
      if !(askAmount > 0 && giveAmount > 0) {
        return Err(OrderWithZeroValue(id));
      }
      var change := DataDelta(None, Some(order));
      var data := Changed(id, change);
      assert data.Ok?; // the change starts from what the layer shows
      askBalances :- Adjusted(askBalances, id, true, askAmount);
      giveBalances :- Adjusted(giveBalances, id, true, giveAmount);
      return Ok(UndoCreate(id, Invert(change), askAmount, giveAmount));
    }

    /** Records a change of data and a decrease of both balances. */
    method TakeOut(id: OrderId, change: DataDelta<OrderData>, ask: Amount, give: Amount) returns (r: OrdersResult<()>)
      requires Valid()
      modifies this
      ensures Valid()
      ensures match Commit(old(Data()), Effect(id, Some(change), 0 - ask, 0 - give))
              case Ok(d) => r == Ok(()) && Data() == d
              case Err(e) => r == Err(AccountingError(e))
    {
      var _ :- Changed(id, change);
      askBalances :- Adjusted(askBalances, id, false, ask);
      giveBalances :- Adjusted(giveBalances, id, false, give);
      return Ok(());
    }

    method ConcludeOrder(id: OrderId) returns (r: OrdersResult<Undo>)
      requires Valid()
      modifies this
      ensures Performs(Conclude(id), old(Data()), r)
    {
      var current :- GetOrderData(id);
      if current.None? {
        return Err(AttemptedConcludeNonexistingOrderData(id));
      }
      var ask :- GetAskBalance(id);
      var give :- GetGiveBalance(id);
      var change := DataDelta(current, None);
      ConcludePlan(parent, Data(), id, current.value, ask, give);
      var _ :- TakeOut(id, change, ask, give);
      return Ok(UndoConclude(id, Invert(change), ask, give));
    }

    method CalculateFill(id: OrderId, fill: Amount, version: Version) returns (r: OrdersResult<Amount>)
      ensures r == PriceOf(parent, Data(), id, fill, version)
    {
      if version.V0? {
        var ask := GetAskBalance(id);
        if ask.Err? {
          return Err(ViewFail);
        }
        var give := GetGiveBalance(id);
        if give.Err? {
          return Err(ViewFail);
        }
        if !(ask.value >= fill) {
          return Err(OrderOverbid(id, ask.value, fill));
        }
        var pay := FilledAmount(ask.value, give.value, fill);
        return if pay.None? then Err(OrderOverflow(id)) else Ok(pay.value);
      } else {
        var current := GetOrderData(id);
        if current.Err? {
          return Err(ViewFail);
        }
        if current.value.None? {
          return Err(OrderDataNotFound(id));
        }
        var askTotal :- OutputAmount(current.value.value.ask);
        var giveTotal :- OutputAmount(current.value.value.give);
        var ask := GetAskBalance(id);
        if ask.Err? {
          return Err(ViewFail);
        }
        if !(ask.value >= fill) {
          return Err(OrderOverbid(id, ask.value, fill));
        }
        var pay := FilledAmount(askTotal, giveTotal, fill);
        if pay.None? {
          return Err(OrderOverflow(id));
        }
        return if pay.value > 0 then Ok(pay.value) else Err(OrderUnderbid(id, fill));
      }
    }

    /** Records a payment and the fill it is for. */
    method Pay(id: OrderId, amount: Amount, pay: Amount) returns (r: OrdersResult<()>)
      requires Valid()
      modifies this
      ensures Valid()
      ensures match Commit(old(Data()), Effect(id, None, 0 - amount, 0 - pay))
              case Ok(d) => r == Ok(()) && Data() == d
              case Err(e) =>
                var give := Adjust(old(giveBalances), id, 0 - pay);
                r == Err(AccountingError(if give.Err? then give.error else e))
    {
      giveBalances :- Adjusted(giveBalances, id, false, pay);
      askBalances :- Adjusted(askBalances, id, false, amount);
      return Ok(());
    }

    method Fill(id: OrderId, amount: Amount, version: Version) returns (r: OrdersResult<Undo>)
      requires Valid()
      modifies this
      ensures Performs(FillOrder(id, amount, version), old(Data()), r)
    {
      var current :- GetOrderData(id);
      if current.None? {
        return Err(OrderDataNotFound(id));
      }
      if current.value.isFrozen {
        return Err(AttemptedFillFrozenOrder(id));
      }
      var pay :- CalculateFill(id, amount, version);
      var _ :- Pay(id, amount, pay);
      return Ok(UndoFill(id, amount, pay));
    }

    method FreezeOrder(id: OrderId) returns (r: OrdersResult<Undo>)
      requires Valid()
      modifies this
      ensures Performs(Freeze(id), old(Data()), r)
    {
      var current :- GetOrderData(id);
      if current.None? {
        return Err(AttemptedFreezeNonexistingOrderData(id));
      }
      var frozen := TryFreeze(current.value);
      if frozen.Err? {
        return Err(AttemptedFreezeAlreadyFrozenOrder(id));
      }
      MergeZero(askBalances, id);
      MergeZero(giveBalances, id);
      var change := DataDelta(current, Some(frozen.value));
      var data := Changed(id, change);
      assert data.Ok?; // the change starts from what the layer shows
      return Ok(UndoFreeze(id, Invert(change)));
    }

    /** The outcome of an undo: the first step to fail is reported, or the inverse effect is recorded. */
    ghost predicate Undoes(u: Undo, before: Delta, r: OrdersResult<()>)
      reads this
    {
      && Valid()
      && match ApplyUndo(parent, before, u)
         case Ok(d) => r == Ok(()) && Data() == d
         case Err(e) => r == Err(e)
    }

    method ExpectAsk(id: OrderId, wanted: Amount, otherwise: OrdersError) returns (r: OrdersResult<()>)
      ensures r == Expect(AskIn(parent, Data(), id), wanted, otherwise)
    {
      var ask :- GetAskBalance(id);
      return if ask == wanted then Ok(()) else Err(otherwise);
    }

    method ExpectGive(id: OrderId, wanted: Amount, otherwise: OrdersError) returns (r: OrdersResult<()>)
      ensures r == Expect(GiveIn(parent, Data(), id), wanted, otherwise)
    {
      var give :- GetGiveBalance(id);
      return if give == wanted then Ok(()) else Err(otherwise);
    }

    method ExpectOrder(id: OrderId, present: bool, otherwise: OrdersError) returns (r: OrdersResult<()>)
      ensures r == ExpectData(DataIn(parent, Data(), id), present, otherwise)
    {
      var current :- GetOrderData(id);
      return if current.Some? == present then Ok(()) else Err(otherwise);
    }

    method UndoCreateOrder(u: Undo) returns (r: OrdersResult<()>)
      requires Valid() && u.UndoCreate?
      modifies this
      ensures Undoes(u, old(Data()), r)
    {
      var _ :- ExpectAsk(u.id, u.ask, InvariantOrderAskBalanceChangedForUndo(u.id));
      askBalances :- Adjusted(askBalances, u.id, false, u.ask);
      var _ :- ExpectGive(u.id, u.give, InvariantOrderGiveBalanceChangedForUndo(u.id));
      giveBalances :- Adjusted(giveBalances, u.id, false, u.give);
      var _ :- ExpectOrder(u.id, true, InvariantOrderDataNotFoundForUndo(u.id));
      var _ :- Changed(u.id, u.undoData);
      return Ok(());
    }

    method UndoConcludeOrder(u: Undo) returns (r: OrdersResult<()>)
      requires Valid() && u.UndoConclude?
      modifies this
      ensures Undoes(u, old(Data()), r)
    {
      var _ :- ExpectOrder(u.id, false, InvariantOrderDataExistForConcludeUndo(u.id));
      var _ :- Changed(u.id, u.undoData);
      var _ :- ExpectAsk(u.id, 0, InvariantOrderAskBalanceExistForConcludeUndo(u.id));
      askBalances :- Adjusted(askBalances, u.id, true, u.ask);
      var _ :- ExpectGive(u.id, 0, InvariantOrderGiveBalanceExistForConcludeUndo(u.id));
      giveBalances :- Adjusted(giveBalances, u.id, true, u.give);
      return Ok(());
    }

    method UndoFreezeOrder(u: Undo) returns (r: OrdersResult<()>)
      requires Valid() && u.UndoFreeze?
      modifies this
      ensures Undoes(u, old(Data()), r)
    {
      var _ :- ExpectOrder(u.id, true, InvariantOrderDataNotExistForFreezeUndo(u.id));
      var _ :- Changed(u.id, u.undoData);
      return Ok(());
    }

    method UndoFillOrder(u: Undo) returns (r: OrdersResult<()>)
      requires Valid() && u.UndoFill?
      modifies this
      ensures Undoes(u, old(Data()), r)
    {
      askBalances :- Adjusted(askBalances, u.id, true, u.ask);
      giveBalances :- Adjusted(giveBalances, u.id, true, u.give);
      return Ok(());
    }

    method Revert(u: Undo) returns (r: OrdersResult<()>)
      requires Valid()
      modifies this
      ensures Undoes(u, old(Data()), r)
    {
      match u {
        case UndoCreate(_, _, _, _) => r := UndoCreateOrder(u);
        case UndoConclude(_, _, _, _) => r := UndoConcludeOrder(u);
        case UndoFill(_, _, _) => r := UndoFillOrder(u);
        case UndoFreeze(_, _) => r := UndoFreezeOrder(u);
      }
    }

    /** `batch_write_orders_data`: takes over the delta of the layer above, or stops at the first failure. */
    method BatchWrite(delta: Delta) returns (r: OrdersResult<DeltaUndo>)
      requires Valid()
      modifies this
      ensures Valid()
      ensures r.Ok? <==> Mergeable(old(Data()), delta)
      ensures r.Ok? ==> Mergeable(old(Data()), delta) && Data() == Merged(old(Data()), delta)
      ensures r.Ok? ==> r.value == DeltaUndo(map k | k in delta.data :: Invert(delta.data[k]), delta.ask, delta.give)
      ensures r.Err? ==> r.error == FlushError(old(Data()), delta) && StoppedAt(old(Data()), delta, Data())
    {
      var data, undo := MergeDatas(orderData, delta.data);
      orderData := data;
      if undo.Err? {
        return Err(AccountingError(undo.error));
      }
      MergedIsUnique(data, old(orderData), delta.data);
      var ask, askDone := MergeAmounts(askBalances, delta.ask);
      askBalances := ask;
      if askDone.Err? {
        return Err(AccountingError(askDone.error));
      }
      SumIsUnique(ask, old(askBalances), delta.ask);
      var give, giveDone := MergeAmounts(giveBalances, delta.give);
      giveBalances := give;
      if giveDone.Err? {
        return Err(AccountingError(giveDone.error));
      }
      SumIsUnique(give, old(giveBalances), delta.give);
      return Ok(DeltaUndo(undo.value, delta.ask, delta.give));
    }
  }
}
