/** What each token operation does to what is read of the ledger, and when it is refused. */
module TokensOutcomes {
  import opened Outcomes
  import opened Accounting
  import opened Tokens
  import opened TokensSafety

  /** Nothing changes but perhaps the token `id`. */
  ghost predicate OthersSame(parent: View, d: Delta, d': Delta, id: TokenId) {
    forall other :: other != id ==> SameToken(parent, d, d', other)
  }

  predicate SameToken(parent: View, d: Delta, d': Delta, id: TokenId) {
    DataIn(parent, d', id) == DataIn(parent, d, id) && Lookup(d'.supply, id) == Lookup(d.supply, id)
  }

  lemma DoLeavesOthers(parent: View, d: Delta, op: Operation)
    requires Do(parent, d, op).Ok?
    ensures OthersSame(parent, d, Do(parent, d, op).value.0, op.id)
  {
    PlanRecords(parent, d, op);
    var e := Plan(parent, d, op).value;
    forall other | other != op.id ensures SameToken(parent, d, Do(parent, d, op).value.0, other) {
      CommitElsewhere(parent, d, e, other);
    }
  }

  /** The change can be recorded on top of the one that is there. */
  predicate CanChange(m: AmountDeltas<TokenId>, id: TokenId, x: int) {
    -I128_MAX <= x <= I128_MAX && -I128_MAX - 1 <= Accounting.Change(m, id) + x <= I128_MAX
  }

  /** The token as it reads, if it reads as one. */
  predicate Is(parent: View, d: Delta, id: TokenId, t: TokenData) {
    DataIn(parent, d, id) == Ok(Some(t))
  }

  // ----- issuing

  /** A token needs a free id with nothing in circulation, and then reads as it was given. */
  lemma IssueOutcome(parent: View, d: Delta, id: TokenId, token: TokenData)
    requires NoZeros(d.supply) && DataIn(parent, d, id).Ok? && SupplyIn(parent, d, id).Ok?
    ensures var r := Do(parent, d, Issue(id, token));
            && (r.Ok? <==> DataIn(parent, d, id) == Ok(None) && SupplyIn(parent, d, id) == Ok(0))
            && (r.Err? ==> r == Err(TokenAlreadyExists(id)))
            && (r.Ok? ==> Is(parent, r.value.0, id, token) && r.value.0.supply == d.supply
                          && RecordOf(Issue(id, token), r.value.1) == Some(UndoIssue(id, DataDelta(Some(token), None))))
  {
    MergeZero(d.supply, id);
  }

  /** On a token that does not exist every other operation is refused. */
  lemma NoToken(parent: View, d: Delta, op: Operation)
    requires DataIn(parent, d, op.id) == Ok(None) && !op.Issue?
    ensures Do(parent, d, op) == Err(TokenDataNotFound(op.id))
  {}

  // ----- minting and unminting

  /** What the kind of supply allows to be minted. */
  predicate MayMint(t: TokenData, supply: Reading<Amount>, amount: Amount) {
    match t.totalSupply
    case Fixed(limit) => supply.Ok? && supply.value + amount <= limit
    case Lockable => !t.locked
    case Unlimited => true
  }

  /** Minting needs a token that is not frozen and whose kind of supply allows it. */
  lemma MintOutcome(parent: View, d: Delta, id: TokenId, t: TokenData, amount: Amount)
    requires Is(parent, d, id, t)
    ensures var r := Do(parent, d, Mint(id, amount));
            && (r.Ok? <==>
                  t.frozen.No? && MayMint(t, SupplyIn(parent, d, id), amount) && CanChange(d.supply, id, amount))
            && (r.Ok? ==> Is(parent, r.value.0, id, t)
                          && Accounting.Change(r.value.0.supply, id) == Accounting.Change(d.supply, id) + amount
                          && RecordOf(Mint(id, amount), r.value.1) == Some(UndoMint(id, amount)))
            && (t.frozen.Yes? <==> r == Err(CannotMintFrozenToken(id)))
            && (t.frozen.No? && t.totalSupply.Lockable? && t.locked <==> r == Err(CannotMintFromLockedSupply(id)))
            && (t.frozen.No? && t.totalSupply.Fixed? && SupplyIn(parent, d, id).Ok?
                && t.totalSupply.limit < SupplyIn(parent, d, id).value + amount <= U128_MAX <==>
                  t.totalSupply.Fixed? && r == Err(MintExceedsSupplyLimit(amount, t.totalSupply.limit, id)))
            && (t.frozen.No? && t.totalSupply.Fixed? && SupplyIn(parent, d, id).Ok?
                && U128_MAX < SupplyIn(parent, d, id).value + amount <==>
                  r == Err(AmountOverflow))
  {}

  /** Unminting needs a token neither locked nor frozen, and as much in circulation. */
  lemma UnmintOutcome(parent: View, d: Delta, id: TokenId, t: TokenData, amount: Amount)
    requires Is(parent, d, id, t)
    ensures var r, supply := Do(parent, d, Unmint(id, amount)), SupplyIn(parent, d, id);
            && (r.Ok? <==>
                  && !t.locked && t.frozen.No? && supply.Ok? && amount <= supply.value
                  && CanChange(d.supply, id, 0 - amount))
            && (r.Ok? ==> Is(parent, r.value.0, id, t)
                          && Accounting.Change(r.value.0.supply, id) == Accounting.Change(d.supply, id) - amount
                          && RecordOf(Unmint(id, amount), r.value.1) == Some(UndoUnmint(id, amount)))
            && (t.locked <==> r == Err(CannotUnmintFromLockedSupply(id)))
            && (!t.locked && t.frozen.Yes? <==> r == Err(CannotUnmintFrozenToken(id)))
            && (!t.locked && t.frozen.No? && supply.Ok? && supply.value < amount <==>
                  supply.Ok? && r == Err(NotEnoughCirculatingSupplyToUnmint(supply.value, amount, id)))
  {}

  // ----- operations on the data

  /** The outcome of an operation that replaces the token by `after` exactly when it is allowed. */
  predicate Replaces(parent: View, d: Delta, op: Operation, allowed: bool, after: TokenData) {
    var r := Do(parent, d, op);
    && (r.Ok? <==> allowed)
    && (r.Ok? ==> Is(parent, r.value.0, op.id, after) && r.value.0.supply == d.supply)
  }

  lemma LockOutcome(parent: View, d: Delta, id: TokenId, t: TokenData)
    requires NoZeros(d.supply) && Is(parent, d, id, t)
    ensures Replaces(parent, d, Lock(id), !t.locked && t.frozen.No? && t.totalSupply.Lockable?, t.(locked := true))
    ensures var r := Do(parent, d, Lock(id));
            && (t.locked <==> r == Err(SupplyIsAlreadyLocked(id)))
            && (!t.locked && t.frozen.Yes? <==> r == Err(CannotLockFrozenToken(id)))
            && (!t.locked && t.frozen.No? && !t.totalSupply.Lockable? <==> r == Err(CannotLockNotLockableSupply(id)))
  {
    MergeZero(d.supply, id);
  }

  /** Freezing says whether it can be lifted; what is lifted can be frozen again. */
  lemma FreezeOutcome(parent: View, d: Delta, id: TokenId, t: TokenData, unfreezable: bool)
    requires NoZeros(d.supply) && Is(parent, d, id, t)
    ensures Replaces(parent, d, Freeze(id, unfreezable), t.frozen == No(true), t.(frozen := Yes(unfreezable)))
    ensures Replaces(parent, d, Unfreeze(id), t.frozen == Yes(true), t.(frozen := No(true)))
    ensures var f, u := Do(parent, d, Freeze(id, unfreezable)), Do(parent, d, Unfreeze(id));
            && (t.frozen.Yes? <==> f == Err(TokenIsAlreadyFrozen(id)))
            && (t.frozen == No(false) <==> f == Err(CannotFreezeNotFreezableToken(id)))
            && (t.frozen.No? <==> u == Err(CannotUnfreezeTokenThatIsNotFrozen(id)))
            && (t.frozen == Yes(false) <==> u == Err(CannotUnfreezeNotUnfreezableToken(id)))
  {
    MergeZero(d.supply, id);
  }

  lemma ChangeOutcome(parent: View, d: Delta, id: TokenId, t: TokenData, authority: Destination, uri: seq<int>)
    requires NoZeros(d.supply) && Is(parent, d, id, t)
    ensures Replaces(parent, d, ChangeAuthority(id, authority), t.frozen.No?, t.(authority := authority))
    ensures Replaces(parent, d, ChangeMetadataUri(id, uri), t.frozen.No?, t.(metadataUri := uri))
    ensures t.frozen.Yes? <==>
            Do(parent, d, ChangeAuthority(id, authority)) == Err(CannotChangeAuthorityForFrozenToken(id))
    ensures t.frozen.Yes? <==>
            Do(parent, d, ChangeMetadataUri(id, uri)) == Err(CannotChangeMetadataUriForFrozenToken(id))
  {
    MergeZero(d.supply, id);
  }

  /** The record of an operation on the data leads back from the new data to the old. */
  lemma DataRecords(parent: View, d: Delta, op: Operation, t: TokenData)
    requires Is(parent, d, op.id, t) && Do(parent, d, op).Ok? && !op.Mint? && !op.Unmint?
    ensures var (d', e) := Do(parent, d, op).value;
            && RecordOf(op, e).Some? && DataIn(parent, d', op.id).Ok?
            && var back := DataDelta(DataIn(parent, d', op.id).value, Some(t));
               && (op.Lock? ==> RecordOf(op, e).value == UndoLock(op.id, back))
               && (op.Freeze? ==> RecordOf(op, e).value == UndoFreeze(op.id, back))
               && (op.Unfreeze? ==> RecordOf(op, e).value == UndoUnfreeze(op.id, back))
               && (op.ChangeAuthority? ==> RecordOf(op, e).value == UndoChangeAuthority(op.id, back))
               && (op.ChangeMetadataUri? ==> RecordOf(op, e).value == UndoChangeMetadataUri(op.id, back))
  {
    PlanRecords(parent, d, op);
    DataAfter(parent, d, op);
  }

  // ----- frozen tokens

  /** A frozen token admits nothing but its unfreezing. */
  lemma FrozenAdmitsUnfreezeOnly(parent: View, d: Delta, op: Operation, t: TokenData)
    requires Is(parent, d, op.id, t) && t.frozen.Yes? && Do(parent, d, op).Ok?
    ensures op.Unfreeze? && t.frozen == Yes(true)
  {}

  /** Until it is unfrozen a frozen token does not change in any run, nor does its supply. */
  lemma {:induction false} FrozenTokenStays(parent: View, d: Delta, ops: seq<Operation>, id: TokenId, t: TokenData)
    requires RunAll(parent, d, ops).Some? && Unfreeze(id) !in ops && Is(parent, d, id, t) && t.frozen.Yes?
    ensures var d' := RunAll(parent, d, ops).value.0;
            Is(parent, d', id, t) && Lookup(d'.supply, id) == Lookup(d.supply, id)
    decreases |ops|
  {
    if ops != [] {
      var (d1, e) := Do(parent, d, ops[0]).value;
      PlanRecords(parent, d, ops[0]);
      if ops[0].id == id {
        FrozenAdmitsUnfreezeOnly(parent, d, ops[0], t);
      } else {
        CommitElsewhere(parent, d, e, id);
        FrozenTokenStays(parent, d1, ops[1..], id, t);
      }
    }
  }

  // ----- undoing

  /** Undoing a mint or an unmint needs the token, not locked, and a change that can be recorded. */
  lemma UndoSupplyOutcome(parent: View, d: Delta, id: TokenId, t: TokenData, amount: Amount)
    requires Is(parent, d, id, t)
    ensures var r := ApplyUndo(parent, d, UndoMint(id, amount));
            && (r.Ok? <==> !t.locked && CanChange(d.supply, id, 0 - amount))
            && (r.Ok? ==> r.value.data == d.data
                          && Accounting.Change(r.value.supply, id) == Accounting.Change(d.supply, id) - amount)
            && (t.locked <==> r == Err(CannotUndoMintForLockedSupplyOnReversal(id)))
    ensures var r := ApplyUndo(parent, d, UndoUnmint(id, amount));
            && (r.Ok? <==> !t.locked && CanChange(d.supply, id, amount))
            && (r.Ok? ==> r.value.data == d.data
                          && Accounting.Change(r.value.supply, id) == Accounting.Change(d.supply, id) + amount)
            && (t.locked <==> r == Err(CannotUndoUnmintForLockedSupplyOnReversal(id)))
  {}

  /** The outcome of undoing a change of data: the guard, the change it must follow, and what is left. */
  predicate PutsBack(parent: View, d: Delta, u: Undo, guard: bool, x: DataDelta<TokenData>, otherwise: TokensError) {
    var r := ApplyUndo(parent, d, u);
    && (r.Ok? <==> guard && (u.id in d.data ==> d.data[u.id].after == x.before))
    && (r.Ok? ==> DataIn(parent, r.value, u.id) == Ok(x.after) && r.value.supply == d.supply)
    && (!guard ==> r == Err(otherwise))
    && (guard && r.Err? ==> r == Err(AccountingError(DeltaDataMismatch)))
  }

  lemma UndoDataOutcome(parent: View, d: Delta, id: TokenId, t: TokenData, x: DataDelta<TokenData>)
    requires NoZeros(d.supply) && Is(parent, d, id, t)
    ensures PutsBack(parent, d, UndoIssue(id, x), true, x, TokenDataNotFoundOnReversal(id))
    ensures PutsBack(parent, d, UndoLock(id, x), t.locked, x, CannotUnlockNotLockedSupplyOnReversal(id))
    ensures PutsBack(parent, d, UndoFreeze(id, x), t.frozen.Yes?, x, CannotUndoFreezeTokenThatIsNotFrozen(id))
    ensures PutsBack(parent, d, UndoUnfreeze(id, x), t.frozen.No?, x, CannotUndoUnfreezeTokenThatIsFrozen(id))
    ensures PutsBack(parent, d, UndoChangeAuthority(id, x), t.frozen.No?, x,
                     CannotUndoChangeAuthorityForFrozenToken(id))
    ensures PutsBack(parent, d, UndoChangeMetadataUri(id, x), t.frozen.No?, x,
                     CannotUndoChangeMetadataUriForFrozenToken(id))
  {
    MergeZero(d.supply, id);
  }

  lemma UndoNoToken(parent: View, d: Delta, u: Undo)
    requires DataIn(parent, d, u.id) == Ok(None)
    ensures ApplyUndo(parent, d, u) == Err(TokenDataNotFoundOnReversal(u.id))
  {}
}
