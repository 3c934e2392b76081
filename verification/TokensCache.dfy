/** The mutable cache of token data and supplies over a parent view. */
module TokensCache {
  import opened Outcomes
  import opened Accounting
  import opened Tokens

  datatype DeltaUndo = DeltaUndo(data: DataDeltas<TokenId, TokenData>, supply: AmountDeltas<TokenId>)

  ghost predicate Mergeable(lower: Delta, upper: Delta) {
    Continues(lower.data, upper.data) && SumsFit(lower.supply, upper.supply)
  }

  ghost function Merged(lower: Delta, upper: Delta): Delta
    requires Mergeable(lower, upper)
  {
    Delta(MergedData(lower.data, upper.data), SumOf(lower.supply, upper.supply))
  }

  /** What a failed flush reports: data is merged before the supplies. */
  ghost function FlushError(lower: Delta, upper: Delta): TokensError {
    AccountingError(if !Continues(lower.data, upper.data) then DeltaDataMismatch else DeltaAdditionFailed)
  }

  /** What a failed flush leaves: data and supplies in this order, the failing one merged in part. */
  ghost predicate StoppedAt(was: Delta, delta: Delta, now: Delta) {
    if !Continues(was.data, delta.data) then
      PartlyMerged(now.data, was.data, delta.data) && now.supply == was.supply
    else
      now.data == MergedData(was.data, delta.data) && PartlySummed(now.supply, was.supply, delta.supply)
  }

  /** What a refused change leaves: a mismatch takes the recorded change out before it is noticed. */
  function Abandoned(d: Delta, id: TokenId, e: TokensError): Delta {
    if e == AccountingError(DeltaDataMismatch) then Delta(d.data - {id}, d.supply) else d
  }

  class TokensAccountingCache {
    const parent: View
    var tokenData: DataDeltas<TokenId, TokenData>
    var circulatingSupply: AmountDeltas<TokenId>

    function Data(): Delta
      reads this
    {
      Delta(tokenData, circulatingSupply)
    }

    ghost predicate Valid()
      reads this
    {
      NoZeros(circulatingSupply)
    }

    constructor (parent: View)
      ensures Valid() && this.parent == parent && Data() == Delta(map[], map[])
    {
      this.parent := parent;
      tokenData, circulatingSupply := map[], map[];
    }

    method GetTokenData(id: TokenId) returns (r: TokensResult<Option<TokenData>>)
      ensures r == Lift(DataIn(parent, Data(), id))
    {
      if id in tokenData {
        return Ok(tokenData[id].after);
      }
      var below := parent.data(id);
      if below.Err? {
        return Err(ViewFail);
      }
      return Ok(below.value);
    }

    method GetCirculatingSupply(id: TokenId) returns (r: TokensResult<Amount>)
      ensures r == Lift(SupplyIn(parent, Data(), id))
    {
      var below := parent.supply(id);
      if below.Err? {
        return Err(ViewFail);
      }
      var sum := CombineAmount(below.value, Lookup(circulatingSupply, id));
      return if sum.Ok? then Ok(sum.value) else Err(AccountingError(sum.error));
    }

    /** The token an operation needs to exist. */
    method ExistingToken(id: TokenId) returns (r: TokensResult<TokenData>)
      ensures match Lift<Option<TokenData>>(DataIn(parent, Data(), id))
              case Err(e) => r == Err(e)
              case Ok(None) => r == Err(TokenDataNotFound(id))
              case Ok(Some(t)) => r == Ok(t)
    {
      var current :- GetTokenData(id);
      return if current.Some? then Ok(current.value) else Err(TokenDataNotFound(id));
    }

    /** Records a change of data; the supply stays as it is. A change that does not continue the one there drops it. */
    method Change(id: TokenId, change: DataDelta<TokenData>) returns (r: TokensResult<()>)
      requires Valid()
      modifies this`tokenData
      ensures match Commit(old(Data()), Effect(id, Some(change), 0))
              case Ok(d) => r == Ok(()) && Data() == d
              case Err(e) => r == Err(AccountingError(e)) && Data() == Abandoned(old(Data()), id, r.error)
      ensures Valid()
    {
      MergeZero(circulatingSupply, id);
      var next := MergeData(tokenData, id, change);
      if next.Err? {
        tokenData := tokenData - {id};
        return Err(AccountingError(next.error));
      }
      tokenData := next.value;
      return Ok(());
    }

    /** Records a change of supply. */
    method Supply(id: TokenId, add: bool, amount: Amount) returns (r: TokensResult<()>)
      requires Valid()
      modifies this`circulatingSupply
      ensures match Commit(old(Data()), Effect(id, None, if add then amount else 0 - amount))
              case Ok(d) => r == Ok(()) && Data() == d
              case Err(e) => r == Err(AccountingError(e)) && Data() == old(Data())
      ensures Valid()
    {
      var next := if add then AddUnsigned(circulatingSupply, id, amount)
                  else SubUnsigned(circulatingSupply, id, amount);
      if next.Err? {
        return Err(AccountingError(next.error));
      }
      MergeAmountUndone(circulatingSupply, id, if add then amount else 0 - amount);
      circulatingSupply := next.value;
      return Ok(());
    }

    /** The outcome of an operation against its plan: refused alike and nothing changed, or recorded with its undo. */
    ghost predicate Performs(op: Operation, before: Delta, r: TokensResult<Undo>)
      reads this
    {
      && Valid()
      && match Do(parent, before, op)
         case Ok((d, e)) => Data() == d && RecordOf(op, e).Some? && r == Ok(RecordOf(op, e).value)
         case Err(e) => r == Err(e) && Data() == before
    }

    method IssueToken(id: TokenId, token: TokenData) returns (r: TokensResult<Undo>)
      requires Valid()
      modifies this
      ensures Performs(Issue(id, token), old(Data()), r)
    {
      var current :- GetTokenData(id);
      if current.Some? {
        return Err(TokenAlreadyExists(id));
      }
      var supply :- GetCirculatingSupply(id);
      if supply > 0 {
        return Err(TokenAlreadyExists(id));
      }
      var change := DataDelta(None, Some(token));
      var done := Change(id, change);
      assert done.Ok?; // the change starts from what the layer shows
      return Ok(UndoIssue(id, Invert(change)));
    }

    method MintTokens(id: TokenId, amount: Amount) returns (r: TokensResult<Undo>)
      requires Valid()
      modifies this
      ensures Performs(Mint(id, amount), old(Data()), r)
    {
      var t :- ExistingToken(id);
      if t.frozen.Yes? {
        return Err(CannotMintFrozenToken(id));
      }
      match t.totalSupply {
        case Fixed(limit) =>
          var supply :- GetCirculatingSupply(id);
          if supply + amount > U128_MAX {
            return Err(AmountOverflow);
          }
          if supply + amount > limit {
            return Err(MintExceedsSupplyLimit(amount, limit, id));
          }
        case Lockable =>
          if t.locked {
            return Err(CannotMintFromLockedSupply(id));
          }
        case Unlimited =>
      }
      var _ :- Supply(id, true, amount);
      return Ok(UndoMint(id, amount));
    }

    method UnmintTokens(id: TokenId, amount: Amount) returns (r: TokensResult<Undo>)
      requires Valid()
      modifies this
      ensures Performs(Unmint(id, amount), old(Data()), r)
    {
      var t :- ExistingToken(id);
      if t.locked {
        return Err(CannotUnmintFromLockedSupply(id));
      } else if t.frozen.Yes? {
        return Err(CannotUnmintFrozenToken(id));
      }
      var supply :- GetCirculatingSupply(id);
      if supply < amount {
        return Err(NotEnoughCirculatingSupplyToUnmint(supply, amount, id));
      }
      var _ :- Supply(id, false, amount);
      return Ok(UndoUnmint(id, amount));
    }

    method LockCirculatingSupply(id: TokenId) returns (r: TokensResult<Undo>)
      requires Valid()
      modifies this
      ensures Performs(Lock(id), old(Data()), r)
    {
      var t :- ExistingToken(id);
      if t.locked {
        return Err(SupplyIsAlreadyLocked(id));
      } else if t.frozen.Yes? {
        return Err(CannotLockFrozenToken(id));
      }
      var next := t.TryLock();
      if next.Err? {
        return Err(CannotLockNotLockableSupply(id));
      }
      var change := DataDelta(Some(t), Some(next.value));
      var done := Change(id, change);
      assert done.Ok?; // the change starts from what the layer shows
      return Ok(UndoLock(id, Invert(change)));
    }

    method FreezeToken(id: TokenId, unfreezable: bool) returns (r: TokensResult<Undo>)
      requires Valid()
      modifies this
      ensures Performs(Freeze(id, unfreezable), old(Data()), r)
    {
      var t :- ExistingToken(id);
      if t.frozen.Yes? {
        return Err(TokenIsAlreadyFrozen(id));
      }
      var next := t.TryFreeze(unfreezable);
      if next.Err? {
        return Err(CannotFreezeNotFreezableToken(id));
      }
      var change := DataDelta(Some(t), Some(next.value));
      var done := Change(id, change);
      assert done.Ok?; // the change starts from what the layer shows
      return Ok(UndoFreeze(id, Invert(change)));
    }

    method UnfreezeToken(id: TokenId) returns (r: TokensResult<Undo>)
      requires Valid()
      modifies this
      ensures Performs(Unfreeze(id), old(Data()), r)
    {
      var t :- ExistingToken(id);
      if !t.frozen.Yes? {
        return Err(CannotUnfreezeTokenThatIsNotFrozen(id));
      }
      var next := t.TryUnfreeze();
      if next.Err? {
        return Err(CannotUnfreezeNotUnfreezableToken(id));
      }
      var change := DataDelta(Some(t), Some(next.value));
      var done := Change(id, change);
      assert done.Ok?; // the change starts from what the layer shows
      return Ok(UndoUnfreeze(id, Invert(change)));
    }

    method SetAuthority(id: TokenId, authority: Destination) returns (r: TokensResult<Undo>)
      requires Valid()
      modifies this
      ensures Performs(ChangeAuthority(id, authority), old(Data()), r)
    {
      var t :- ExistingToken(id);
      if t.frozen.Yes? {
        return Err(CannotChangeAuthorityForFrozenToken(id));
      }
      var change := DataDelta(Some(t), Some(t.(authority := authority)));
      var done := Change(id, change);
      assert done.Ok?; // the change starts from what the layer shows
      return Ok(UndoChangeAuthority(id, Invert(change)));
    }

    method SetMetadataUri(id: TokenId, uri: seq<int>) returns (r: TokensResult<Undo>)
      requires Valid()
      modifies this
      ensures Performs(ChangeMetadataUri(id, uri), old(Data()), r)
    {
      var t :- ExistingToken(id);
      if t.frozen.Yes? {
        return Err(CannotChangeMetadataUriForFrozenToken(id));
      }
      var change := DataDelta(Some(t), Some(t.(metadataUri := uri)));
      var done := Change(id, change);
      assert done.Ok?; // the change starts from what the layer shows
      return Ok(UndoChangeMetadataUri(id, Invert(change)));
    }

    /** `undo`: each record is checked against the token it finds before the inverse is recorded. */
    method Revert(u: Undo) returns (r: TokensResult<()>)
      requires Valid()
      modifies this
      ensures Valid()
      ensures match ApplyUndo(parent, old(Data()), u)
              case Ok(d) => r == Ok(()) && Data() == d
              case Err(e) => r == Err(e) && Data() == Abandoned(old(Data()), u.id, e)
    {
      var current :- GetTokenData(u.id);
      if current.None? {
        return Err(TokenDataNotFoundOnReversal(u.id));
      }
      var t := current.value;
      match u {
        case UndoIssue(id, undoData) =>
          r := Change(id, undoData);
        case UndoMint(id, amount) =>
          if t.locked {
            return Err(CannotUndoMintForLockedSupplyOnReversal(id));
          }
          r := Supply(id, false, amount);
        case UndoUnmint(id, amount) =>
          if t.locked {
            return Err(CannotUndoUnmintForLockedSupplyOnReversal(id));
          }
          r := Supply(id, true, amount);
        case UndoLock(id, undoData) =>
          if !t.locked {
            return Err(CannotUnlockNotLockedSupplyOnReversal(id));
          }
          r := Change(id, undoData);
        case UndoFreeze(id, undoData) =>
          if !t.frozen.Yes? {
            return Err(CannotUndoFreezeTokenThatIsNotFrozen(id));
          }
          r := Change(id, undoData);
        case UndoUnfreeze(id, undoData) =>
          if t.frozen.Yes? {
            return Err(CannotUndoUnfreezeTokenThatIsFrozen(id));
          }
          r := Change(id, undoData);
        case UndoChangeAuthority(id, undoData) =>
          if t.frozen.Yes? {
            return Err(CannotUndoChangeAuthorityForFrozenToken(id));
          }
          r := Change(id, undoData);
        case UndoChangeMetadataUri(id, undoData) =>
          if t.frozen.Yes? {
            return Err(CannotUndoChangeMetadataUriForFrozenToken(id));
          }
          r := Change(id, undoData);
      }
    }

    /** `batch_write_tokens_data`: takes over the delta of the layer above, or stops at the first failure. */
    method BatchWrite(delta: Delta) returns (r: TokensResult<DeltaUndo>)
      requires Valid()
      modifies this
      ensures Valid()
      ensures r.Ok? <==> Mergeable(old(Data()), delta)
      ensures r.Ok? ==> Mergeable(old(Data()), delta) && Data() == Merged(old(Data()), delta)
      ensures r.Ok? ==> r.value == DeltaUndo(map k | k in delta.data :: Invert(delta.data[k]), delta.supply)
      ensures r.Err? ==> r.error == FlushError(old(Data()), delta) && StoppedAt(old(Data()), delta, Data())
    {
      var data, undo := MergeDatas(tokenData, delta.data);
      tokenData := data;
      if undo.Err? {
        return Err(AccountingError(undo.error));
      }
      MergedIsUnique(data, old(tokenData), delta.data);
      var supply, done := MergeAmounts(circulatingSupply, delta.supply);
      circulatingSupply := supply;
      if done.Err? {
        return Err(AccountingError(done.error));
      }
      SumIsUnique(supply, old(circulatingSupply), delta.supply);
      return Ok(DeltaUndo(undo.value, delta.supply));
    }
  }
}
