/**
 The orders ledger as layers of deltas over a parent view.

 Every operation is a plan made on the view, an `Effect`, which is then committed to the delta of
 the top layer; every undo commits the inverse effect.
 */
module Orders {
  import opened Outcomes
  import opened Accounting
  import opened OrderPricing

  type OrderId = nat
  type Destination = nat

  datatype OutputValue = Coin(amount: Amount) | TokenV0(data: seq<int>) | TokenV1(token: nat, amount: Amount)

  datatype OrderData = OrderData(concludeKey: Destination, ask: OutputValue, give: OutputValue, isFrozen: bool)

  datatype OrdersError =
    | AccountingError(inner: Error)
    | OrderAlreadyExists(id: OrderId)
    | OrderDataNotFound(id: OrderId)
    | OrderWithZeroValue(id: OrderId)
    | OrderOverflow(id: OrderId)
    | OrderOverbid(id: OrderId, ask: Amount, fill: Amount)
    | OrderUnderbid(id: OrderId, fill: Amount)
    | AttemptedConcludeNonexistingOrderData(id: OrderId)
    | AttemptedFreezeNonexistingOrderData(id: OrderId)
    | AttemptedFreezeAlreadyFrozenOrder(id: OrderId)
    | AttemptedFillFrozenOrder(id: OrderId)
    | UnsupportedTokenVersion
    | InvariantOrderDataNotFoundForUndo(id: OrderId)
    | InvariantOrderAskBalanceChangedForUndo(id: OrderId)
    | InvariantOrderGiveBalanceChangedForUndo(id: OrderId)
    | InvariantOrderDataExistForConcludeUndo(id: OrderId)
    | InvariantOrderDataNotExistForFreezeUndo(id: OrderId)
    | InvariantOrderAskBalanceExistForConcludeUndo(id: OrderId)
    | InvariantOrderGiveBalanceExistForConcludeUndo(id: OrderId)
    | ViewFail

  type OrdersResult<+T> = Result<T, OrdersError>

  /** What a layer can be asked: storage at the bottom, or the layers below. */
  datatype View = View(
    data: OrderId -> Reading<Option<OrderData>>,
    ask: OrderId -> Reading<Amount>,
    give: OrderId -> Reading<Amount>
  )

  /** What a layer records. */
  datatype Delta = Delta(
    data: DataDeltas<OrderId, OrderData>,
    ask: AmountDeltas<OrderId>,
    give: AmountDeltas<OrderId>
  )

  predicate Normal(d: Delta) {
    NoZeros(d.ask) && NoZeros(d.give)
  }

  function OutputAmount(v: OutputValue): OrdersResult<Amount> {
    match v
    case Coin(a) => Ok(a)
    case TokenV1(_, a) => Ok(a)
    case TokenV0(_) => Err(UnsupportedTokenVersion)
  }

  function TryFreeze(o: OrderData): Result<OrderData, OrderData> {
    if o.isFrozen then Err(o) else Ok(o.(isFrozen := true))
  }

  // ----- reading through a layer

  function DataIn(parent: View, d: Delta, id: OrderId): Reading<Option<OrderData>> {
    ReadData(parent.data(id), Lookup(d.data, id))
  }

  function AskIn(parent: View, d: Delta, id: OrderId): Reading<Amount> {
    ReadBalance(parent.ask(id), Lookup(d.ask, id))
  }

  function GiveIn(parent: View, d: Delta, id: OrderId): Reading<Amount> {
    ReadBalance(parent.give(id), Lookup(d.give, id))
  }

  /** A reading with its fault as an error of this component. */
  function Lift<T>(r: Reading<T>): OrdersResult<T> {
    match r
    case Ok(x) => Ok(x)
    case Err(Unreadable) => Err(ViewFail)
    case Err(Uncombinable(e)) => Err(AccountingError(e))
  }

  /** A layer is itself a view for the layer above it. */
  function ViewOf(parent: View, d: Delta): View {
    View((id: OrderId) => DataIn(parent, d, id),
         (id: OrderId) => AskIn(parent, d, id),
         (id: OrderId) => GiveIn(parent, d, id))
  }

  // ----- plans

  datatype Operation =
    | Create(id: OrderId, order: OrderData)
    | Conclude(id: OrderId)
    | FillOrder(id: OrderId, amount: Amount, version: Version)
    | Freeze(id: OrderId)

  /** A change to one order: its data, if that changes, and its two balances. */
  datatype Effect = Effect(id: OrderId, data: Option<DataDelta<OrderData>>, ask: int, give: int)

  function Inverse(e: Effect): Effect {
    Effect(e.id, if e.data.None? then None else Some(Invert(e.data.value)), 0 - e.ask, 0 - e.give)
  }

  /** `calculate_fill_order` on a layer. */
  function PriceOf(parent: View, d: Delta, id: OrderId, fill: Amount, version: Version): OrdersResult<Amount> {
    if version.V0? then
      if AskIn(parent, d, id).Err? || GiveIn(parent, d, id).Err? then Err(ViewFail)
      else
        var ask, give := AskIn(parent, d, id).value, GiveIn(parent, d, id).value;
        if ask < fill then Err(OrderOverbid(id, ask, fill))
        else
          var pay := FilledAmount(ask, give, fill);
          if pay.None? then Err(OrderOverflow(id)) else Ok(pay.value)
    else if DataIn(parent, d, id).Err? then Err(ViewFail)
    else if DataIn(parent, d, id).value.None? then Err(OrderDataNotFound(id))
    else
      var order := DataIn(parent, d, id).value.value;
      var askTotal :- OutputAmount(order.ask);
      var giveTotal :- OutputAmount(order.give);
      if AskIn(parent, d, id).Err? then Err(ViewFail)
      else if AskIn(parent, d, id).value < fill then Err(OrderOverbid(id, AskIn(parent, d, id).value, fill))
      else
        var pay := FilledAmount(askTotal, giveTotal, fill);
        if pay.None? then Err(OrderOverflow(id))
        else if pay.value == 0 then Err(OrderUnderbid(id, fill))
        else Ok(pay.value)
  }

  /** What an operation is going to change, or why it is refused. */
  function Plan(parent: View, d: Delta, op: Operation): OrdersResult<Effect> {
    var current :- Lift(DataIn(parent, d, op.id));
    match op
    case Create(id, order) =>
      if current.Some? then Err(OrderAlreadyExists(id))
      else
        var ask :- Lift(AskIn(parent, d, id));
        if ask != 0 then Err(OrderAlreadyExists(id))
        else
          var askTotal :- OutputAmount(order.ask);
          var giveTotal :- OutputAmount(order.give);
          if askTotal == 0 || giveTotal == 0 then Err(OrderWithZeroValue(id))
          else Ok(Effect(id, Some(DataDelta(None, Some(order))), askTotal, giveTotal))
    case Conclude(id) =>
      if current.None? then Err(AttemptedConcludeNonexistingOrderData(id))
      else
        var ask: int :- Lift(AskIn(parent, d, id));
        var give: int :- Lift(GiveIn(parent, d, id));
        Ok(Effect(id, Some(DataDelta(current, None)), 0 - ask, 0 - give))
    case FillOrder(id, amount, version) =>
      if current.None? then Err(OrderDataNotFound(id))
      else if current.value.isFrozen then Err(AttemptedFillFrozenOrder(id))
      else
        var pay :- PriceOf(parent, d, id, amount, version);
        Ok(Effect(id, None, 0 - amount, 0 - pay))
    case Freeze(id) =>
      if current.None? then Err(AttemptedFreezeNonexistingOrderData(id))
      else if TryFreeze(current.value).Err? then Err(AttemptedFreezeAlreadyFrozenOrder(id))
      else Ok(Effect(id, Some(DataDelta(current, Some(TryFreeze(current.value).value))), 0, 0))
  }

  /** The plan of a conclusion, by what is read. */
  lemma ConcludePlan(parent: View, d: Delta, id: OrderId, order: OrderData, ask: Amount, give: Amount)
    requires DataIn(parent, d, id) == Ok(Some(order))
    requires AskIn(parent, d, id) == Ok(ask) && GiveIn(parent, d, id) == Ok(give)
    ensures var e := Effect(id, Some(DataDelta(Some(order), None)), 0 - ask, 0 - give);
            && Plan(parent, d, Conclude(id)) == Ok(e)
            && RecordOf(Conclude(id), e) == Some(UndoConclude(id, DataDelta(None, Some(order)), ask, give))
  {}

  /** A change that its unsigned size can be converted for. */
  predicate Convertible(x: int) {
    -I128_MAX <= x <= I128_MAX
  }

  /** Adding to a balance, or taking from it, through the unsigned interface. */
  function Adjust(m: AmountDeltas<OrderId>, id: OrderId, x: int): Result<AmountDeltas<OrderId>, Error> {
    if !Convertible(x) then Err(ToSignedFailed) else MergeAmount(m, id, x)
  }

  /** Recording an effect in the delta of the layer. */
  function Commit(d: Delta, e: Effect): Result<Delta, Error> {
    var data :- if e.data.None? then Ok(d.data) else MergeData(d.data, e.id, e.data.value);
    var ask :- Adjust(d.ask, e.id, e.ask);
    var give :- Adjust(d.give, e.id, e.give);
    Ok(Delta(data, ask, give))
  }

  /** The failure an operation reports: a fill records the payment before the fill it is for. */
  function CommitFailure(d: Delta, op: Operation, e: Effect): Option<Error> {
    if Commit(d, e).Ok? then None
    else if op.FillOrder? && Adjust(d.give, e.id, e.give).Err? then Some(Adjust(d.give, e.id, e.give).error)
    else Some(Commit(d, e).error)
  }

  /** An operation: the new delta and the effect that its undo record stands for. */
  function Do(parent: View, d: Delta, op: Operation): OrdersResult<(Delta, Effect)> {
    var e :- Plan(parent, d, op);
    match CommitFailure(d, op, e)
    case None => Ok((Commit(d, e).value, e))
    case Some(err) => Err(AccountingError(err))
  }

  // ----- undo records

  datatype Undo =
    | UndoCreate(id: OrderId, undoData: DataDelta<OrderData>, ask: Amount, give: Amount)
    | UndoConclude(id: OrderId, undoData: DataDelta<OrderData>, ask: Amount, give: Amount)
    | UndoFill(id: OrderId, ask: Amount, give: Amount)
    | UndoFreeze(id: OrderId, undoData: DataDelta<OrderData>)

  /** The effect of applying an undo record. */
  function UndoEffect(u: Undo): Effect {
    match u
    case UndoCreate(id, data, ask, give) => Effect(id, Some(data), 0 - ask, 0 - give)
    case UndoConclude(id, data, ask, give) => Effect(id, Some(data), ask, give)
    case UndoFill(id, ask, give) => Effect(id, None, ask, give)
    case UndoFreeze(id, data) => Effect(id, Some(data), 0, 0)
  }

  /** The checks an undo makes before changing anything it checked. */
  predicate UndoAllowed(parent: View, d: Delta, u: Undo) {
    match u
    case UndoCreate(id, _, ask, give) =>
      && AskIn(parent, d, id) == Ok(ask) && GiveIn(parent, d, id) == Ok(give)
      && DataIn(parent, d, id).Ok? && DataIn(parent, d, id).value.Some?
    case UndoConclude(id, _, _, _) =>
      && AskIn(parent, d, id) == Ok(0) && GiveIn(parent, d, id) == Ok(0)
      && DataIn(parent, d, id).Ok? && DataIn(parent, d, id).value.None?
    case UndoFill(_, _, _) => true
    case UndoFreeze(id, _) => DataIn(parent, d, id).Ok? && DataIn(parent, d, id).value.Some?
  }

  function Recorded<T>(r: Result<T, Error>): OrdersResult<T> {
    match r
    case Ok(x) => Ok(x)
    case Err(e) => Err(AccountingError(e))
  }

  function Expect(balance: Reading<Amount>, wanted: Amount, otherwise: OrdersError): OrdersResult<()> {
    var b :- Lift(balance);
    if b == wanted then Ok(()) else Err(otherwise)
  }

  function ExpectData(data: Reading<Option<OrderData>>, present: bool, otherwise: OrdersError): OrdersResult<()> {
    var o :- Lift(data);
    if o.Some? == present then Ok(()) else Err(otherwise)
  }

  /** Applying an undo record: checks and changes in the order they are made, and the first to fail is reported. */
  function ApplyUndo(parent: View, d: Delta, u: Undo): OrdersResult<Delta> {
    var ask, give, data := AskIn(parent, d, u.id), GiveIn(parent, d, u.id), DataIn(parent, d, u.id);
    match u
    case UndoCreate(id, undoData, askWas, giveWas) =>
      var _ :- Expect(ask, askWas, InvariantOrderAskBalanceChangedForUndo(id));
      var ask' :- Recorded(Adjust(d.ask, id, 0 - askWas));
      var _ :- Expect(give, giveWas, InvariantOrderGiveBalanceChangedForUndo(id));
      var give' :- Recorded(Adjust(d.give, id, 0 - giveWas));
      var _ :- ExpectData(data, true, InvariantOrderDataNotFoundForUndo(id));
      var data' :- Recorded(MergeData(d.data, id, undoData));
      Ok(Delta(data', ask', give'))
    case UndoConclude(id, undoData, askWas, giveWas) =>
      var _ :- ExpectData(data, false, InvariantOrderDataExistForConcludeUndo(id));
      var data' :- Recorded(MergeData(d.data, id, undoData));
      var _ :- Expect(ask, 0, InvariantOrderAskBalanceExistForConcludeUndo(id));
      var ask' :- Recorded(Adjust(d.ask, id, askWas));
      var _ :- Expect(give, 0, InvariantOrderGiveBalanceExistForConcludeUndo(id));
      var give' :- Recorded(Adjust(d.give, id, giveWas));
      Ok(Delta(data', ask', give'))
    case UndoFill(id, askWas, giveWas) =>
      var ask' :- Recorded(Adjust(d.ask, id, askWas));
      var give' :- Recorded(Adjust(d.give, id, giveWas));
      Ok(Delta(d.data, ask', give'))
    case UndoFreeze(id, undoData) =>
      var _ :- ExpectData(data, true, InvariantOrderDataNotExistForFreezeUndo(id));
      var data' :- Recorded(MergeData(d.data, id, undoData));
      Ok(Delta(data', d.ask, d.give))
  }

  ghost predicate ChecksThenCommits(parent: View, d: Delta, u: Undo) {
    match ApplyUndo(parent, d, u)
    case Ok(d') => UndoAllowed(parent, d, u) && Commit(d, UndoEffect(u)) == Ok(d')
    case Err(_) => !UndoAllowed(parent, d, u) || Commit(d, UndoEffect(u)).Err?
  }

  lemma UndoCreateChecksFirst(parent: View, d: Delta, u: Undo)
    requires u.UndoCreate?
    ensures ChecksThenCommits(parent, d, u)
  {}

  lemma UndoConcludeChecksFirst(parent: View, d: Delta, u: Undo)
    requires u.UndoConclude?
    ensures ChecksThenCommits(parent, d, u)
  {}

  /** However checks and changes are interleaved, an undo is its checks and then the commit of its effect. */
  lemma UndoIsCheckThenCommit(parent: View, d: Delta, u: Undo)
    requires Normal(d)
    ensures ChecksThenCommits(parent, d, u)
  {
    match u
    case UndoCreate(_, _, _, _) => UndoCreateChecksFirst(parent, d, u);
    case UndoConclude(_, _, _, _) => UndoConcludeChecksFirst(parent, d, u);
    case _ =>
      MergeZero(d.ask, u.id);
      MergeZero(d.give, u.id);
  }

  /** The record an operation returns for the effect it had. */
  ghost predicate Records(op: Operation, e: Effect, u: Undo) {
    && UndoEffect(u) == Inverse(e)
    && (op.Create? <==> u.UndoCreate?) && (op.Conclude? <==> u.UndoConclude?)
    && (op.FillOrder? <==> u.UndoFill?) && (op.Freeze? <==> u.UndoFreeze?)
  }

  /** The undo record for an effect, in the shape its operation calls for. */
  function RecordOf(op: Operation, e: Effect): Option<Undo> {
    match op
    case Create(_, _) =>
      if e.data.Some? && 0 <= e.ask <= U128_MAX && 0 <= e.give <= U128_MAX
      then Some(UndoCreate(e.id, Invert(e.data.value), e.ask, e.give)) else None
    case Conclude(_) =>
      if e.data.Some? && 0 <= 0 - e.ask <= U128_MAX && 0 <= 0 - e.give <= U128_MAX
      then Some(UndoConclude(e.id, Invert(e.data.value), 0 - e.ask, 0 - e.give)) else None
    case FillOrder(_, _, _) =>
      if 0 <= 0 - e.ask <= U128_MAX && 0 <= 0 - e.give <= U128_MAX
      then Some(UndoFill(e.id, 0 - e.ask, 0 - e.give)) else None
    case Freeze(_) => if e.data.Some? then Some(UndoFreeze(e.id, Invert(e.data.value))) else None
  }

  lemma PlanRecords(parent: View, d: Delta, op: Operation)
    requires Plan(parent, d, op).Ok?
    ensures var e := Plan(parent, d, op).value;
            e.id == op.id && RecordOf(op, e).Some? && Records(op, e, RecordOf(op, e).value)
  {}
}
