/**
 The tokens ledger: token data with its lock and freeze states, and circulating supplies, as layers
 of deltas over a parent view. Operations are planned on the view and committed as effects.
 */
module Tokens {
  import opened Outcomes
  import opened Accounting

  type TokenId = nat
  type Destination = nat

  datatype TotalSupply = Fixed(limit: Amount) | Lockable | Unlimited

  /** Not frozen, with whether it may be; or frozen, with whether that may be lifted. */
  datatype Frozen = No(freezable: bool) | Yes(unfreezable: bool)

  datatype TokenData = TokenData(
    ticker: seq<int>,
    decimals: nat,
    metadataUri: seq<int>,
    totalSupply: TotalSupply,
    locked: bool,
    frozen: Frozen,
    authority: Destination
  ) {
    predicate CanBeFrozen() {
      frozen.No? && frozen.freezable
    }

    predicate CanBeUnfrozen() {
      frozen.Yes? && frozen.unfreezable
    }

    function TryLock(): Result<TokenData, TokenData> {
      if totalSupply.Lockable? then Ok(this.(locked := true)) else Err(this)
    }

    function TryFreeze(unfreezable: bool): Result<TokenData, TokenData> {
      if CanBeFrozen() then Ok(this.(frozen := Yes(unfreezable))) else Err(this)
    }

    function TryUnfreeze(): Result<TokenData, TokenData> {
      if CanBeUnfrozen() then Ok(this.(frozen := No(true))) else Err(this)
    }
  }

  datatype Issuance = Issuance(
    ticker: seq<int>,
    decimals: nat,
    metadataUri: seq<int>,
    totalSupply: TotalSupply,
    authority: Destination,
    freezable: bool
  )

  /** A newly issued token is neither locked nor frozen. */
  function FromIssuance(i: Issuance): TokenData {
    TokenData(i.ticker, i.decimals, i.metadataUri, i.totalSupply, false, No(i.freezable), i.authority)
  }

  lemma IssuedFresh(i: Issuance)
    ensures var t := FromIssuance(i);
            && !t.locked && t.frozen.No? && (t.CanBeFrozen() <==> i.freezable)
            && t.totalSupply == i.totalSupply && t.authority == i.authority
            && t.ticker == i.ticker && t.decimals == i.decimals && t.metadataUri == i.metadataUri
            && (t.TryLock().Ok? <==> i.totalSupply.Lockable?)
  {}

  datatype TokensError =
    | AccountingError(inner: Error)
    | TokenAlreadyExists(id: TokenId)
    | TokenDataNotFound(id: TokenId)
    | MintExceedsSupplyLimit(amount: Amount, limit: Amount, id: TokenId)
    | AmountOverflow
    | CannotMintFromLockedSupply(id: TokenId)
    | CannotMintFrozenToken(id: TokenId)
    | CannotUnmintFromLockedSupply(id: TokenId)
    | CannotUnmintFrozenToken(id: TokenId)
    | NotEnoughCirculatingSupplyToUnmint(supply: Amount, amount: Amount, id: TokenId)
    | SupplyIsAlreadyLocked(id: TokenId)
    | CannotLockNotLockableSupply(id: TokenId)
    | CannotLockFrozenToken(id: TokenId)
    | TokenIsAlreadyFrozen(id: TokenId)
    | CannotFreezeNotFreezableToken(id: TokenId)
    | CannotUnfreezeNotUnfreezableToken(id: TokenId)
    | CannotUnfreezeTokenThatIsNotFrozen(id: TokenId)
    | CannotChangeAuthorityForFrozenToken(id: TokenId)
    | CannotChangeMetadataUriForFrozenToken(id: TokenId)
    | TokenDataNotFoundOnReversal(id: TokenId)
    | CannotUndoMintForLockedSupplyOnReversal(id: TokenId)
    | CannotUndoUnmintForLockedSupplyOnReversal(id: TokenId)
    | CannotUnlockNotLockedSupplyOnReversal(id: TokenId)
    | CannotUndoFreezeTokenThatIsNotFrozen(id: TokenId)
    | CannotUndoUnfreezeTokenThatIsFrozen(id: TokenId)
    | CannotUndoChangeAuthorityForFrozenToken(id: TokenId)
    | CannotUndoChangeMetadataUriForFrozenToken(id: TokenId)
    | ViewFail

  type TokensResult<+T> = Result<T, TokensError>

  datatype View = View(
    data: TokenId -> Reading<Option<TokenData>>,
    supply: TokenId -> Reading<Amount>
  )

  datatype Delta = Delta(data: DataDeltas<TokenId, TokenData>, supply: AmountDeltas<TokenId>)

  function DataIn(parent: View, d: Delta, id: TokenId): Reading<Option<TokenData>> {
    ReadData(parent.data(id), Lookup(d.data, id))
  }

  function SupplyIn(parent: View, d: Delta, id: TokenId): Reading<Amount> {
    ReadBalance(parent.supply(id), Lookup(d.supply, id))
  }

  /** A reading with its fault as an error of this component. */
  function Lift<T>(r: Reading<T>): TokensResult<T> {
    match r
    case Ok(x) => Ok(x)
    case Err(Unreadable) => Err(ViewFail)
    case Err(Uncombinable(e)) => Err(AccountingError(e))
  }

  function ViewOf(parent: View, d: Delta): View {
    View((id: TokenId) => DataIn(parent, d, id), (id: TokenId) => SupplyIn(parent, d, id))
  }

  // ----- plans

  datatype Operation =
    | Issue(id: TokenId, token: TokenData)
    | Mint(id: TokenId, amount: Amount)
    | Unmint(id: TokenId, amount: Amount)
    | Lock(id: TokenId)
    | Freeze(id: TokenId, unfreezable: bool)
    | Unfreeze(id: TokenId)
    | ChangeAuthority(id: TokenId, authority: Destination)
    | ChangeMetadataUri(id: TokenId, uri: seq<int>)

  /** A change to one token: its data, if that changes, and its supply. */
  datatype Effect = Effect(id: TokenId, data: Option<DataDelta<TokenData>>, supply: int)

  function Inverse(e: Effect): Effect {
    Effect(e.id, if e.data.None? then None else Some(Invert(e.data.value)), 0 - e.supply)
  }

  /** The data an operation on an existing token puts in place of `t`, or why it is refused. */
  function NewData(op: Operation, t: TokenData): TokensResult<TokenData>
    requires !op.Issue? && !op.Mint? && !op.Unmint?
  {
    match op
    case Lock(id) =>
      if t.locked then Err(SupplyIsAlreadyLocked(id))
      else if t.frozen.Yes? then Err(CannotLockFrozenToken(id))
      else if t.TryLock().Err? then Err(CannotLockNotLockableSupply(id))
      else Ok(t.TryLock().value)
    case Freeze(id, unfreezable) =>
      if t.frozen.Yes? then Err(TokenIsAlreadyFrozen(id))
      else if t.TryFreeze(unfreezable).Err? then Err(CannotFreezeNotFreezableToken(id))
      else Ok(t.TryFreeze(unfreezable).value)
    case Unfreeze(id) =>
      if t.frozen.No? then Err(CannotUnfreezeTokenThatIsNotFrozen(id))
      else if t.TryUnfreeze().Err? then Err(CannotUnfreezeNotUnfreezableToken(id))
      else Ok(t.TryUnfreeze().value)
    case ChangeAuthority(id, authority) =>
      if t.frozen.Yes? then Err(CannotChangeAuthorityForFrozenToken(id)) else Ok(t.(authority := authority))
    case ChangeMetadataUri(id, uri) =>
      if t.frozen.Yes? then Err(CannotChangeMetadataUriForFrozenToken(id)) else Ok(t.(metadataUri := uri))
  }

  /** Whether minting is refused: only a fixed supply looks at the amount, only a lockable one at the lock. */
  function MintCheck(parent: View, d: Delta, id: TokenId, t: TokenData, amount: Amount): TokensResult<()> {
    if t.frozen.Yes? then Err(CannotMintFrozenToken(id))
    else
      match t.totalSupply
      case Fixed(limit) =>
        var supply :- Lift(SupplyIn(parent, d, id));
        if supply + amount > U128_MAX then Err(AmountOverflow)
        else if supply + amount > limit then Err(MintExceedsSupplyLimit(amount, limit, id))
        else Ok(())
      case Lockable => if t.locked then Err(CannotMintFromLockedSupply(id)) else Ok(())
      case Unlimited => Ok(())
  }

  function UnmintCheck(parent: View, d: Delta, id: TokenId, t: TokenData, amount: Amount): TokensResult<()> {
    if t.locked then Err(CannotUnmintFromLockedSupply(id))
    else if t.frozen.Yes? then Err(CannotUnmintFrozenToken(id))
    else
      var supply :- Lift(SupplyIn(parent, d, id));
      if supply < amount then Err(NotEnoughCirculatingSupplyToUnmint(supply, amount, id)) else Ok(())
  }

  /** What an operation is going to change, or why it is refused. */
  function Plan(parent: View, d: Delta, op: Operation): TokensResult<Effect> {
    var current :- Lift(DataIn(parent, d, op.id));
    if op.Issue? then
      if current.Some? then Err(TokenAlreadyExists(op.id))
      else
        var supply :- Lift(SupplyIn(parent, d, op.id));
        if supply > 0 then Err(TokenAlreadyExists(op.id))
        else Ok(Effect(op.id, Some(DataDelta(None, Some(op.token))), 0))
    else if current.None? then Err(TokenDataNotFound(op.id))
    else if op.Mint? then
      var _ :- MintCheck(parent, d, op.id, current.value, op.amount);
      Ok(Effect(op.id, None, op.amount))
    else if op.Unmint? then
      var _ :- UnmintCheck(parent, d, op.id, current.value, op.amount);
      Ok(Effect(op.id, None, 0 - op.amount))
    else
      var t :- NewData(op, current.value);
      Ok(Effect(op.id, Some(DataDelta(current, Some(t))), 0))
  }

  predicate Convertible(x: int) {
    -I128_MAX <= x <= I128_MAX
  }

  function Commit(d: Delta, e: Effect): Result<Delta, Error> {
    var data :- if e.data.None? then Ok(d.data) else MergeData(d.data, e.id, e.data.value);
    if !Convertible(e.supply) then Err(ToSignedFailed)
    else
      var supply :- MergeAmount(d.supply, e.id, e.supply);
      Ok(Delta(data, supply))
  }

  function Do(parent: View, d: Delta, op: Operation): TokensResult<(Delta, Effect)> {
    var e :- Plan(parent, d, op);
    match Commit(d, e)
    case Ok(d') => Ok((d', e))
    case Err(err) => Err(AccountingError(err))
  }

  // ----- undo records

  datatype Undo =
    | UndoIssue(id: TokenId, undoData: DataDelta<TokenData>)
    | UndoMint(id: TokenId, amount: Amount)
    | UndoUnmint(id: TokenId, amount: Amount)
    | UndoLock(id: TokenId, undoData: DataDelta<TokenData>)
    | UndoFreeze(id: TokenId, undoData: DataDelta<TokenData>)
    | UndoUnfreeze(id: TokenId, undoData: DataDelta<TokenData>)
    | UndoChangeAuthority(id: TokenId, undoData: DataDelta<TokenData>)
    | UndoChangeMetadataUri(id: TokenId, undoData: DataDelta<TokenData>)

  function UndoEffect(u: Undo): Effect {
    match u
    case UndoMint(id, amount) => Effect(id, None, 0 - amount)
    case UndoUnmint(id, amount) => Effect(id, None, amount)
    case _ => Effect(u.id, Some(u.undoData), 0)
  }

  /** Why an undo is refused on the token it finds, if it is. */
  function UndoRefusal(u: Undo, t: TokenData): Option<TokensError> {
    match u
    case UndoIssue(_, _) => None
    case UndoMint(id, _) => if t.locked then Some(CannotUndoMintForLockedSupplyOnReversal(id)) else None
    case UndoUnmint(id, _) => if t.locked then Some(CannotUndoUnmintForLockedSupplyOnReversal(id)) else None
    case UndoLock(id, _) => if !t.locked then Some(CannotUnlockNotLockedSupplyOnReversal(id)) else None
    case UndoFreeze(id, _) => if t.frozen.No? then Some(CannotUndoFreezeTokenThatIsNotFrozen(id)) else None
    case UndoUnfreeze(id, _) => if t.frozen.Yes? then Some(CannotUndoUnfreezeTokenThatIsFrozen(id)) else None
    case UndoChangeAuthority(id, _) =>
      if t.frozen.Yes? then Some(CannotUndoChangeAuthorityForFrozenToken(id)) else None
    case UndoChangeMetadataUri(id, _) =>
      if t.frozen.Yes? then Some(CannotUndoChangeMetadataUriForFrozenToken(id)) else None
  }

  /** Applying an undo record: the token must exist and pass the guard, and the change must be recordable. */
  function ApplyUndo(parent: View, d: Delta, u: Undo): TokensResult<Delta> {
    var current :- Lift(DataIn(parent, d, u.id));
    if current.None? then Err(TokenDataNotFoundOnReversal(u.id))
    else if UndoRefusal(u, current.value).Some? then Err(UndoRefusal(u, current.value).value)
    else
      match Commit(d, UndoEffect(u))
      case Ok(d') => Ok(d')
      case Err(e) => Err(AccountingError(e))
  }

  /** The undo record for an effect, in the shape its operation calls for. */
  function RecordOf(op: Operation, e: Effect): Option<Undo> {
    if op.Mint? then if 0 <= e.supply <= U128_MAX then Some(UndoMint(e.id, e.supply)) else None
    else if op.Unmint? then if 0 <= 0 - e.supply <= U128_MAX then Some(UndoUnmint(e.id, 0 - e.supply)) else None
    else if e.data.None? then None
    else
      var back := Invert(e.data.value);
      Some(match op
           case Issue(_, _) => UndoIssue(e.id, back)
           case Lock(_) => UndoLock(e.id, back)
           case Freeze(_, _) => UndoFreeze(e.id, back)
           case Unfreeze(_) => UndoUnfreeze(e.id, back)
           case ChangeAuthority(_, _) => UndoChangeAuthority(e.id, back)
           case ChangeMetadataUri(_, _) => UndoChangeMetadataUri(e.id, back))
  }

  lemma PlanRecords(parent: View, d: Delta, op: Operation)
    requires Plan(parent, d, op).Ok?
    ensures var e := Plan(parent, d, op).value;
            && e.id == op.id && RecordOf(op, e).Some? && UndoEffect(RecordOf(op, e).value) == Inverse(e)
            && RecordOf(op, e).value.id == op.id
            && (e.data.Some? ==> e.supply == 0 && e.data.value.after.Some?)
            && (e.data.Some? ==> DataIn(parent, d, e.id) == Ok(e.data.value.before))
  {}
}
