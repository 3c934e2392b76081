/** What every run of token operations keeps, and what undoing it restores. */
module TokensSafety {
  import opened Outcomes
  import opened Accounting
  import opened Tokens

  // ----- undo

  /** Only a lockable supply is ever locked. */
  predicate LockSound(data: Option<TokenData>) {
    data.Some? && data.value.locked ==> data.value.totalSupply.Lockable?
  }

  ghost predicate LocksSound(parent: View, d: Delta) {
    forall id :: DataIn(parent, d, id).Ok? ==> LockSound(DataIn(parent, d, id).value)
  }

  /** Tokens are issued from an issuance, or at least not locked against their kind. */
  predicate IssuesSoundly(ops: seq<Operation>) {
    forall op :: op in ops && op.Issue? ==> LockSound(Some(op.token))
  }

  lemma IssuanceIsSound(i: Issuance)
    ensures LockSound(Some(FromIssuance(i)))
  {}

  ghost predicate FromIssuances(ops: seq<Operation>) {
    forall op :: op in ops && op.Issue? ==> exists i: Issuance :: op.token == FromIssuance(i)
  }

  lemma IssuancesAreSound(ops: seq<Operation>)
    requires FromIssuances(ops)
    ensures IssuesSoundly(ops)
  {
    forall op | op in ops && op.Issue? ensures LockSound(Some(op.token)) {
      var i: Issuance :| op.token == FromIssuance(i);
      IssuanceIsSound(i);
    }
  }

  lemma CommitElsewhere(parent: View, d: Delta, e: Effect, id: TokenId)
    requires Commit(d, e).Ok? && id != e.id
    ensures var d' := Commit(d, e).value;
            && DataIn(parent, d', id) == DataIn(parent, d, id)
            && Lookup(d'.supply, id) == Lookup(d.supply, id)
  {
    OthersAfterMerge(d.supply, e.id, e.supply, id);
  }

  lemma DataAfter(parent: View, d: Delta, op: Operation)
    requires Do(parent, d, op).Ok?
    ensures var (d', e) := Do(parent, d, op).value;
            && e.id == op.id
            && DataIn(parent, d', op.id) == (if e.data.None? then DataIn(parent, d, op.id) else Ok(e.data.value.after))
  {
    PlanRecords(parent, d, op);
  }

  lemma DoKeepsLocksSound(parent: View, d: Delta, op: Operation)
    requires LocksSound(parent, d) && Do(parent, d, op).Ok? && (op.Issue? ==> LockSound(Some(op.token)))
    ensures LocksSound(parent, Do(parent, d, op).value.0)
  {
    var (d', e) := Do(parent, d, op).value;
    DataAfter(parent, d, op);
    assert LockSound(DataIn(parent, d, op.id).value);
    forall id | DataIn(parent, d', id).Ok? ensures LockSound(DataIn(parent, d', id).value) {
      if id != op.id {
        CommitElsewhere(parent, d, e, id);
        assert DataIn(parent, d, id).Ok?;
      }
    }
  }

  function RunAll(parent: View, d: Delta, ops: seq<Operation>): Option<(Delta, seq<Undo>)>
    decreases |ops|
  {
    if ops == [] then Some((d, []))
    else
      var r := Do(parent, d, ops[0]);
      if r.Err? || RecordOf(ops[0], r.value.1).None? then None
      else
        var more := RunAll(parent, r.value.0, ops[1..]);
        if more.None? then None
        else Some((more.value.0, [RecordOf(ops[0], r.value.1).value] + more.value.1))
  }

  function UndoAll(parent: View, d: Delta, undos: seq<Undo>): TokensResult<Delta>
    decreases |undos|
  {
    if undos == [] then Ok(d)
    else
      var back :- UndoAll(parent, d, undos[1..]);
      ApplyUndo(parent, back, undos[0])
  }

  /** The same token data everywhere and the same supply changes. */
  ghost predicate SameView(parent: View, d: Delta, d': Delta) {
    d.supply == d'.supply && forall id :: DataIn(parent, d, id) == DataIn(parent, d', id)
  }

  lemma CommitUndone(parent: View, d: Delta, e: Effect, d1: Delta)
    requires NoZeros(d.supply) && Commit(d, e).Ok?
    requires e.data.Some? ==> DataIn(parent, d, e.id) == Ok(e.data.value.before)
    requires SameView(parent, Commit(d, e).value, d1)
    ensures Commit(d1, Inverse(e)).Ok? && SameView(parent, d, Commit(d1, Inverse(e)).value)
    ensures NoZeros(Commit(d, e).value.supply)
  {
    var after := Commit(d, e).value;
    MergeAmountUndone(d.supply, e.id, e.supply);
    assert DataIn(parent, d1, e.id) == DataIn(parent, after, e.id);
    var back := Commit(d1, Inverse(e)).value;
    forall id ensures DataIn(parent, d, id) == DataIn(parent, back, id) {
      assert DataIn(parent, after, id) == DataIn(parent, d1, id);
    }
  }

  /** The guard of the undo passes on the token its operation left. */
  lemma UndoPasses(parent: View, d: Delta, op: Operation)
    requires Do(parent, d, op).Ok? && LockSound(DataIn(parent, d, op.id).value)
    ensures var (d', e) := Do(parent, d, op).value;
            && RecordOf(op, e).Some? && DataIn(parent, d', op.id).Ok? && DataIn(parent, d', op.id).value.Some?
            && UndoRefusal(RecordOf(op, e).value, DataIn(parent, d', op.id).value.value).None?
  {
    PlanRecords(parent, d, op);
    DataAfter(parent, d, op);
  }

  lemma UndoOne(parent: View, d: Delta, op: Operation, d1: Delta)
    requires NoZeros(d.supply) && Do(parent, d, op).Ok? && LockSound(DataIn(parent, d, op.id).value)
    requires SameView(parent, Do(parent, d, op).value.0, d1)
    ensures var u := RecordOf(op, Do(parent, d, op).value.1);
            && u.Some? && ApplyUndo(parent, d1, u.value).Ok?
            && SameView(parent, d, ApplyUndo(parent, d1, u.value).value)
    ensures NoZeros(Do(parent, d, op).value.0.supply)
  {
    var (after, e) := Do(parent, d, op).value;
    PlanRecords(parent, d, op);
    UndoPasses(parent, d, op);
    assert DataIn(parent, after, op.id) == DataIn(parent, d1, op.id);
    CommitUndone(parent, d, e, d1);
  }

  /** Undoing a whole run in reverse order passes every guard and restores data and supply changes. */
  lemma {:induction false} UndoRestores(parent: View, d: Delta, ops: seq<Operation>)
    requires NoZeros(d.supply) && LocksSound(parent, d) && IssuesSoundly(ops) && RunAll(parent, d, ops).Some?
    ensures var (d', undos) := RunAll(parent, d, ops).value;
            && UndoAll(parent, d', undos).Ok?
            && SameView(parent, d, UndoAll(parent, d', undos).value)
    decreases |ops|
  {
    if ops != [] {
      var (d1, e) := Do(parent, d, ops[0]).value;
      assert LockSound(DataIn(parent, d, ops[0].id).value);
      assert SameView(parent, d1, d1);
      UndoOne(parent, d, ops[0], d1);
      DoKeepsLocksSound(parent, d, ops[0]);
      UndoRestores(parent, d1, ops[1..]);
      var (end, undos) := RunAll(parent, d, ops).value;
      assert undos[1..] == RunAll(parent, d1, ops[1..]).value.1;
      UndoOne(parent, d, ops[0], UndoAll(parent, end, undos[1..]).value);
    }
  }

  /**
   Minting a fixed or unlimited supply does not look at the lock, but undoing it does: without
   the invariant the undo is accepted exactly when the token is not locked.
   */
  lemma MintUndoExactly(parent: View, d: Delta, id: TokenId, amount: Amount)
    requires NoZeros(d.supply) && Do(parent, d, Mint(id, amount)).Ok?
    ensures var (d', e) := Do(parent, d, Mint(id, amount)).value;
            ApplyUndo(parent, d', RecordOf(Mint(id, amount), e).value).Ok? <==>
            !DataIn(parent, d, id).value.value.locked
  {
    var (d', e) := Do(parent, d, Mint(id, amount)).value;
    PlanRecords(parent, d, Mint(id, amount));
    DataAfter(parent, d, Mint(id, amount));
    assert SameView(parent, d', d');
    CommitUndone(parent, d, e, d');
  }

  /** A concrete case: a locked token of unlimited supply, and a mint that cannot be undone. */
  lemma MintUndoCanFail(parent: View, id: TokenId, t: TokenData)
    requires parent.data(id) == Ok(Some(t)) && t.totalSupply == Unlimited && t.locked && t.frozen.No?
    ensures var d := Delta(map[], map[]);
            && Do(parent, d, Mint(id, 1)).Ok?
            && var (d', e) := Do(parent, d, Mint(id, 1)).value;
               ApplyUndo(parent, d', RecordOf(Mint(id, 1), e).value).Err?
  {
    MintUndoExactly(parent, Delta(map[], map[]), id, 1);
  }

  // ----- forward safety

  /** The supply as a number, whether or not it can be read back. */
  function Supply(parent: View, d: Delta, id: TokenId): int
    requires parent.supply(id).Ok?
  {
    parent.supply(id).value + Change(d.supply, id)
  }

  lemma SupplyRead(parent: View, d: Delta, id: TokenId)
    requires NoZeros(d.supply) && SupplyIn(parent, d, id).Ok?
    ensures parent.supply(id).Ok? && SupplyIn(parent, d, id).value == Supply(parent, d, id)
  {}

  /** A token as it must be: no supply without a token, none below zero or over a fixed limit. */
  predicate TokenSound(data: Option<TokenData>, supply: int) {
    match data
    case None => supply == 0
    case Some(t) => 0 <= supply && LockSound(data) && (t.totalSupply.Fixed? ==> supply <= t.totalSupply.limit)
  }

  predicate SoundAt(parent: View, d: Delta, id: TokenId) {
    DataIn(parent, d, id).Ok? && parent.supply(id).Ok? && TokenSound(DataIn(parent, d, id).value, Supply(parent, d, id))
  }

  ghost predicate Sound(parent: View, d: Delta) {
    NoZeros(d.supply) && forall id :: SoundAt(parent, d, id)
  }

  /** What no run can take away from a token. */
  predicate Keeps(t: TokenData, supply: int, t': TokenData, supply': int) {
    && t'.ticker == t.ticker && t'.decimals == t.decimals && t'.totalSupply == t.totalSupply
    && (t.locked ==> t'.locked && supply' == supply)
    && (t.frozen == No(false) ==> t'.frozen == No(false))
    && (t.frozen == Yes(false) ==> t' == t && supply' == supply)
  }

  /** The effect of a plan on a sound token is sound and keeps what must be kept. */
  lemma PlanIsSafe(parent: View, d: Delta, op: Operation)
    requires NoZeros(d.supply) && SoundAt(parent, d, op.id) && Plan(parent, d, op).Ok?
    requires op.Issue? ==> LockSound(Some(op.token))
    ensures var e := Plan(parent, d, op).value;
            var was, supply := DataIn(parent, d, op.id).value, Supply(parent, d, op.id);
            var now := if e.data.None? then was else e.data.value.after;
            && TokenSound(now, supply + e.supply)
            && (was.Some? ==> now.Some? && Keeps(was.value, supply, now.value, supply + e.supply))
  {
    if SupplyIn(parent, d, op.id).Ok? {
      SupplyRead(parent, d, op.id);
    }
  }

  /** One operation: the whole ledger stays sound and every existing token keeps what must be kept. */
  lemma DoIsSafe(parent: View, d: Delta, op: Operation, id: TokenId)
    requires Sound(parent, d) && Do(parent, d, op).Ok? && (op.Issue? ==> LockSound(Some(op.token)))
    ensures var d' := Do(parent, d, op).value.0;
            && NoZeros(d'.supply) && SoundAt(parent, d, id) && SoundAt(parent, d', id)
            && var was, now := DataIn(parent, d, id).value, DataIn(parent, d', id).value;
               was.Some? ==>
                 now.Some? && Keeps(was.value, Supply(parent, d, id), now.value, Supply(parent, d', id))
  {
    var (d', e) := Do(parent, d, op).value;
    assert SoundAt(parent, d, id) && SoundAt(parent, d, op.id);
    PlanRecords(parent, d, op);
    DataAfter(parent, d, op);
    MergeAmountUndone(d.supply, e.id, e.supply);
    if id == op.id {
      PlanIsSafe(parent, d, op);
      assert Change(d'.supply, id) == Change(d.supply, id) + e.supply;
    } else {
      CommitElsewhere(parent, d, e, id);
      assert Change(d'.supply, id) == Change(d.supply, id);
    }
  }

  lemma DoKeepsSound(parent: View, d: Delta, op: Operation)
    requires Sound(parent, d) && Do(parent, d, op).Ok? && (op.Issue? ==> LockSound(Some(op.token)))
    ensures Sound(parent, Do(parent, d, op).value.0)
  {
    DoIsSafe(parent, d, op, op.id);
    forall id ensures SoundAt(parent, Do(parent, d, op).value.0, id) {
      DoIsSafe(parent, d, op, id);
    }
  }

  lemma KeepsTransitive(t: TokenData, s: int, t1: TokenData, s1: int, t2: TokenData, s2: int)
    requires Keeps(t, s, t1, s1) && Keeps(t1, s1, t2, s2)
    ensures Keeps(t, s, t2, s2)
  {}

  /**
   In every run: supplies stay within fixed limits, a locked token's supply and lock never change
   again, a token frozen for good does not change at all, and one that cannot be frozen never is.
   */
  lemma {:induction false} RunIsSafe(parent: View, d: Delta, ops: seq<Operation>, id: TokenId)
    requires Sound(parent, d) && IssuesSoundly(ops) && RunAll(parent, d, ops).Some?
    ensures var d' := RunAll(parent, d, ops).value.0;
            && Sound(parent, d') && SoundAt(parent, d, id) && SoundAt(parent, d', id)
            && var was, now := DataIn(parent, d, id).value, DataIn(parent, d', id).value;
               was.Some? ==>
                 now.Some? && Keeps(was.value, Supply(parent, d, id), now.value, Supply(parent, d', id))
    decreases |ops|
  {
    assert SoundAt(parent, d, id);
    if ops != [] {
      var d1 := Do(parent, d, ops[0]).value.0;
      DoKeepsSound(parent, d, ops[0]);
      DoIsSafe(parent, d, ops[0], id);
      RunIsSafe(parent, d1, ops[1..], id);
      var end := RunAll(parent, d, ops).value.0;
      var was, mid, now := DataIn(parent, d, id).value, DataIn(parent, d1, id).value, DataIn(parent, end, id).value;
      if was.Some? {
        KeepsTransitive(was.value, Supply(parent, d, id), mid.value, Supply(parent, d1, id),
                        now.value, Supply(parent, end, id));
      }
    }
  }

  /** Every run of a ledger that starts empty and issues tokens from issuances: safe, and undone without failure. */
  lemma IssuedLedgerIsSafe(parent: View, ops: seq<Operation>, more: seq<Operation>, id: TokenId)
    requires forall id: TokenId :: parent.data(id) == Ok(None) && parent.supply(id) == Ok(0)
    requires FromIssuances(ops) && FromIssuances(more)
    requires RunAll(parent, Delta(map[], map[]), ops).Some?
    requires RunAll(parent, RunAll(parent, Delta(map[], map[]), ops).value.0, more).Some?
    ensures var d := RunAll(parent, Delta(map[], map[]), ops).value.0;
            var (d', undos) := RunAll(parent, d, more).value;
            && Sound(parent, d) && Sound(parent, d') && SoundAt(parent, d, id) && SoundAt(parent, d', id)
            && UndoAll(parent, d', undos).Ok? && SameView(parent, d, UndoAll(parent, d', undos).value)
            && var was, now := DataIn(parent, d, id).value, DataIn(parent, d', id).value;
               was.Some? ==>
                 now.Some? && Keeps(was.value, Supply(parent, d, id), now.value, Supply(parent, d', id))
  {
    StartsSound(parent);
    IssuancesAreSound(ops);
    IssuancesAreSound(more);
    RunIsSafe(parent, Delta(map[], map[]), ops, id);
    var d := RunAll(parent, Delta(map[], map[]), ops).value.0;
    forall id | DataIn(parent, d, id).Ok? ensures LockSound(DataIn(parent, d, id).value) {
      assert SoundAt(parent, d, id);
    }
    RunIsSafe(parent, d, more, id);
    UndoRestores(parent, d, more);
  }

  // ----- undo in any cache

  /** Every supply can be read and fits a signed amount. */
  ghost predicate Fits(p: View, d: Delta) {
    NoZeros(d.supply) && forall id :: FitsAt(p, d, id)
  }

  predicate FitsAt(p: View, d: Delta, id: TokenId) {
    DataIn(p, d, id).Ok? && SupplyIn(p, d, id).Ok? && SupplyIn(p, d, id).value <= I128_MAX
  }

  /** All along a run. */
  ghost predicate RunFits(p: View, d: Delta, ops: seq<Operation>)
    decreases |ops|
  {
    Fits(p, d) && (ops != [] && Do(p, d, ops[0]).Ok? ==> RunFits(p, Do(p, d, ops[0]).value.0, ops[1..]))
  }

  ghost predicate SameReadings(p: View, d: Delta, q: View, d1: Delta) {
    forall id :: SameAt(p, d, q, d1, id)
  }

  predicate SameAt(p: View, d: Delta, q: View, d1: Delta, id: TokenId) {
    DataIn(p, d, id) == DataIn(q, d1, id) && SupplyIn(p, d, id) == SupplyIn(q, d1, id)
  }

  /** What an effect did to its token: from the readings before to the readings after. */
  predicate Led(p: View, d: Delta, e: Effect, after: Delta) {
    && FitsAt(p, d, e.id) && FitsAt(p, after, e.id) && Convertible(e.supply)
    && SupplyIn(p, after, e.id) == Ok(SupplyIn(p, d, e.id).value + e.supply)
    && DataIn(p, d, e.id) == (if e.data.None? then DataIn(p, after, e.id) else Ok(e.data.value.before))
    && DataIn(p, after, e.id) == (if e.data.None? then DataIn(p, d, e.id) else Ok(e.data.value.after))
  }

  lemma DoLed(p: View, d: Delta, op: Operation)
    requires Fits(p, d) && Do(p, d, op).Ok? && Fits(p, Do(p, d, op).value.0)
    ensures var (after, e) := Do(p, d, op).value;
            e.id == op.id && Led(p, d, e, after)
  {
    var (after, e) := Do(p, d, op).value;
    assert FitsAt(p, d, op.id) && FitsAt(p, after, op.id);
    PlanRecords(p, d, op);
    DataAfter(p, d, op);
    SupplyRead(p, d, op.id);
    SupplyRead(p, after, op.id);
    assert Change(after.supply, op.id) == Change(d.supply, op.id) + e.supply;
  }

  /** Where the token reads as the effect left it, the inverse can be recorded and brings it back. */
  lemma InverseAnywhere(p: View, d: Delta, e: Effect, after: Delta, q: View, d1: Delta)
    requires Led(p, d, e, after) && NoZeros(d1.supply) && SameAt(p, after, q, d1, e.id)
    ensures Commit(d1, Inverse(e)).Ok? && NoZeros(Commit(d1, Inverse(e)).value.supply)
    ensures SameAt(p, d, q, Commit(d1, Inverse(e)).value, e.id)
  {
    BalanceAfterMerge(d1.supply, e.id, q.supply(e.id).value, SupplyIn(q, d1, e.id).value, 0 - e.supply);
    MergeAmountUndone(d1.supply, e.id, 0 - e.supply);
  }

  lemma UndoOneAnywhere(p: View, d: Delta, op: Operation, q: View, d1: Delta)
    requires Fits(p, d) && Do(p, d, op).Ok? && Fits(p, Do(p, d, op).value.0) && NoZeros(d1.supply)
    requires LockSound(DataIn(p, d, op.id).value) && SameReadings(p, Do(p, d, op).value.0, q, d1)
    ensures var u := RecordOf(op, Do(p, d, op).value.1);
            && u.Some? && ApplyUndo(q, d1, u.value).Ok? && NoZeros(ApplyUndo(q, d1, u.value).value.supply)
            && SameReadings(p, d, q, ApplyUndo(q, d1, u.value).value)
  {
    var (after, e) := Do(p, d, op).value;
    assert SameAt(p, after, q, d1, op.id);
    PlanRecords(p, d, op);
    UndoPasses(p, d, op);
    DoLed(p, d, op);
    InverseAnywhere(p, d, e, after, q, d1);
    var back := Commit(d1, Inverse(e)).value;
    forall id ensures SameAt(p, d, q, back, id) {
      if id != op.id {
        CommitElsewhere(p, d, e, id);
        CommitElsewhere(q, d1, Inverse(e), id);
        assert SameAt(p, after, q, d1, id);
      }
    }
  }

  /**
   While supplies can be read, the records of a run can be undone, in reverse order, in any cache
   over any view that reads as the run left the ledger; every token then reads as before the run.
   */
  lemma {:induction false} UndoRestoresAnywhere(p: View, d: Delta, ops: seq<Operation>, q: View, d1: Delta)
    requires RunFits(p, d, ops) && LocksSound(p, d) && IssuesSoundly(ops) && RunAll(p, d, ops).Some?
    requires NoZeros(d1.supply) && SameReadings(p, RunAll(p, d, ops).value.0, q, d1)
    ensures var back := UndoAll(q, d1, RunAll(p, d, ops).value.1);
            back.Ok? && NoZeros(back.value.supply) && SameReadings(p, d, q, back.value)
    decreases |ops|
  {
    if ops != [] {
      var mid := Do(p, d, ops[0]).value.0;
      assert FitsAt(p, d, ops[0].id) && LockSound(DataIn(p, d, ops[0].id).value);
      DoKeepsLocksSound(p, d, ops[0]);
      UndoRestoresAnywhere(p, mid, ops[1..], q, d1);
      var undos := RunAll(p, d, ops).value.1;
      assert undos[1..] == RunAll(p, mid, ops[1..]).value.1;
      UndoOneAnywhere(p, d, ops[0], q, UndoAll(q, d1, undos[1..]).value);
    }
  }

  /** A token frozen for good accepts no operation at all. */
  lemma FrozenForGoodRefusesAll(parent: View, d: Delta, op: Operation)
    requires DataIn(parent, d, op.id).Ok? && DataIn(parent, d, op.id).value.Some?
    requires DataIn(parent, d, op.id).value.value.frozen == Yes(false)
    ensures Do(parent, d, op).Err?
  {}

  /**
   Minting does not check that the new supply can be read back: after a successful mint it can
   exactly when nothing was minted or the sum fits a signed amount.
   */
  lemma MintReadableExactly(parent: View, d: Delta, id: TokenId, amount: Amount)
    requires NoZeros(d.supply) && Do(parent, d, Mint(id, amount)).Ok? && SupplyIn(parent, d, id).Ok?
    ensures SupplyIn(parent, Do(parent, d, Mint(id, amount)).value.0, id).Ok? <==>
            amount == 0 || SupplyIn(parent, d, id).value + amount <= I128_MAX
  {
    var d' := Do(parent, d, Mint(id, amount)).value.0;
    assert Change(d'.supply, id) == Change(d.supply, id) + amount;
    if amount == 0 {
      MergeZero(d.supply, id);
    }
  }

  /** A concrete case: an unlimited token at the largest readable supply takes one more atom. */
  lemma MintCanHideSupply(parent: View, d: Delta, id: TokenId, t: TokenData)
    requires d == Delta(map[], map[]) && t.totalSupply == Unlimited && t.frozen.No?
    requires parent.data(id) == Ok(Some(t)) && parent.supply(id) == Ok(I128_MAX)
    ensures SupplyIn(parent, d, id) == Ok(I128_MAX)
    ensures Do(parent, d, Mint(id, 1)).Ok?
    ensures SupplyIn(parent, Do(parent, d, Mint(id, 1)).value.0, id).Err?
  {
    MintReadableExactly(parent, d, id, 1);
  }

  /** A ledger without tokens is sound. */
  lemma StartsSound(parent: View)
    requires forall id: TokenId :: parent.data(id) == Ok(None) && parent.supply(id) == Ok(0)
    ensures Sound(parent, Delta(map[], map[])) && LocksSound(parent, Delta(map[], map[]))
  {}
}
