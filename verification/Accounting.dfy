/**
 Deltas: what a cache layer records on top of its parent.

 Amounts are recorded as signed 128-bit changes, data as the value before and after. Merging a
 delta element and merging its inverse is how an operation and its undo reach a collection.
 */
module Accounting {
  import opened Outcomes

  const I128_MAX: int := 0x7fff_ffff_ffff_ffff_ffff_ffff_ffff_ffff
  const U128_MAX: int := 0xffff_ffff_ffff_ffff_ffff_ffff_ffff_ffff

  type Amount = x: int | 0 <= x <= 0xffff_ffff_ffff_ffff_ffff_ffff_ffff_ffff
  type SignedAmount = x: int |
      -0x8000_0000_0000_0000_0000_0000_0000_0000 <= x <= 0x7fff_ffff_ffff_ffff_ffff_ffff_ffff_ffff

  predicate FitsSigned(x: int) {
    -I128_MAX - 1 <= x <= I128_MAX
  }

  datatype Error =
    | ToSignedFailed
    | DeltaAdditionFailed
    | SumToUnsignedFailed
    | UndoNegationFailed
    | DeltaDataMismatch

  // ----- data

  /** A change of one piece of data; absence is `None`. */
  datatype DataDelta<+T> = DataDelta(before: Option<T>, after: Option<T>)

  function Invert<T>(d: DataDelta<T>): DataDelta<T> {
    DataDelta(d.after, d.before)
  }

  function CombineDeltas<T(==)>(lhs: DataDelta<T>, rhs: DataDelta<T>): Result<DataDelta<T>, Error> {
    if lhs.after != rhs.before then Err(DeltaDataMismatch) else Ok(DataDelta(lhs.before, rhs.after))
  }

  type DataDeltas<!K, +T> = map<K, DataDelta<T>>

  /** `merge_delta_data_element`; its undo is the merge of the inverse. */
  function MergeData<K, T(==)>(m: DataDeltas<K, T>, k: K, d: DataDelta<T>): Result<DataDeltas<K, T>, Error> {
    if k in m then
      var c :- CombineDeltas(m[k], d);
      Ok(m[k := c])
    else Ok(m[k := d])
  }

  /** Combining is associative, errors included, and a change, its inverse and itself again is the change. */
  lemma DeltaLaws<T>(a: DataDelta<T>, b: DataDelta<T>, c: DataDelta<T>)
    ensures var ab, bc := CombineDeltas(a, b), CombineDeltas(b, c);
            (if ab.Err? then ab else CombineDeltas(ab.value, c)) ==
            (if bc.Err? then bc else CombineDeltas(a, bc.value))
    ensures var there := CombineDeltas(a, Invert(a));
            there.Ok? && CombineDeltas(there.value, a) == Ok(a)
  {}

  // ----- amounts

  type AmountDeltas<!K> = map<K, SignedAmount>

  function Change<K>(m: AmountDeltas<K>, k: K): SignedAmount {
    if k in m then m[k] else 0
  }

  /** Collections never keep a change of zero. */
  predicate NoZeros<K>(m: AmountDeltas<K>) {
    forall k :: k in m ==> m[k] != 0
  }

  function PutChange<K>(m: AmountDeltas<K>, k: K, x: SignedAmount): AmountDeltas<K> {
    if x == 0 then m - {k} else m[k := x]
  }

  /** `merge_delta_amount_element`. */
  function MergeAmount<K>(m: AmountDeltas<K>, k: K, x: SignedAmount): Result<AmountDeltas<K>, Error> {
    if !FitsSigned(Change(m, k) + x) then Err(DeltaAdditionFailed)
    else Ok(PutChange(m, k, Change(m, k) + x))
  }

  function IntoSigned(a: Amount): Result<SignedAmount, Error> {
    if a > I128_MAX then Err(ToSignedFailed) else Ok(a)
  }

  function AddUnsigned<K>(m: AmountDeltas<K>, k: K, a: Amount): Result<AmountDeltas<K>, Error> {
    var x :- IntoSigned(a);
    MergeAmount(m, k, x)
  }

  function SubUnsigned<K>(m: AmountDeltas<K>, k: K, a: Amount): Result<AmountDeltas<K>, Error> {
    var x :- IntoSigned(a);
    MergeAmount(m, k, -x)
  }

  /** `combine_amount_delta`: an unsigned balance with a signed change, if there is one. */
  function CombineAmount(balance: Amount, change: Option<SignedAmount>): Result<Amount, Error> {
    if change.None? then Ok(balance)
    else
      var b :- IntoSigned(balance);
      if !FitsSigned(b + change.value) then Err(DeltaAdditionFailed)
      else if b + change.value < 0 then Err(SumToUnsignedFailed)
      else Ok(b + change.value)
  }

  function Lookup<K, V>(m: map<K, V>, k: K): Option<V> {
    if k in m then Some(m[k]) else None
  }

  // ----- reading through a layer

  /** Why a layer cannot be read: its parent cannot, or the recorded change does not combine with it. */
  datatype Fault = Unreadable | Uncombinable(inner: Error)

  type Reading<+T> = Result<T, Fault>

  function ReadData<T>(parent: Reading<Option<T>>, change: Option<DataDelta<T>>): Reading<Option<T>> {
    if change.Some? then Ok(change.value.after)
    else if parent.Err? then Err(Unreadable)
    else parent
  }

  function ReadBalance(parent: Reading<Amount>, change: Option<SignedAmount>): Reading<Amount> {
    if parent.Err? then Err(Unreadable)
    else
      match CombineAmount(parent.value, change)
      case Ok(a) => Ok(a)
      case Err(e) => Err(Uncombinable(e))
  }

  /** A change that starts from what is read can be recorded, and its end is then read. */
  lemma DataAfterMerge<K, T>(m: DataDeltas<K, T>, k: K, parent: Reading<Option<T>>, x: DataDelta<T>)
    requires ReadData(parent, Lookup(m, k)) == Ok(x.before)
    ensures MergeData(m, k, x).Ok?
    ensures ReadData(parent, Lookup(MergeData(m, k, x).value, k)) == Ok(x.after)
  {}

  /** Adding a change and then its negation restores the collection itself. */
  lemma MergeAmountUndone<K>(m: AmountDeltas<K>, k: K, x: SignedAmount)
    requires NoZeros(m) && -I128_MAX <= x && MergeAmount(m, k, x).Ok?
    ensures NoZeros(MergeAmount(m, k, x).value)
    ensures MergeAmount(MergeAmount(m, k, x).value, k, -x) == Ok(m)
  {
    var m1 := MergeAmount(m, k, x).value;
    assert Change(m1, k) == Change(m, k) + x;
    assert PutChange(m1, k, Change(m, k)) == m;
  }

  /** A balance with a change is their sum, if both it and the balance fit a signed amount and it is not negative. */
  lemma CombineExactly(balance: Amount, change: Option<SignedAmount>, v: Amount)
    ensures CombineAmount(balance, change) == Ok(v) <==>
            if change.None? then v == balance
            else balance <= I128_MAX && v == balance + change.value && v <= I128_MAX
    ensures CombineAmount(balance, change).Err? <==>
            change.Some? && (balance > I128_MAX || !(0 <= balance + change.value <= I128_MAX))
  {}

  /** Adding and taking away change what is recorded by the amount, and fail only for numbers too large. */
  lemma AdjustExactly<K>(m: AmountDeltas<K>, k: K, a: Amount)
    ensures var r := AddUnsigned(m, k, a);
            && (r.Ok? <==> a <= I128_MAX && Change(m, k) + a <= I128_MAX)
            && (r.Ok? ==> Change(r.value, k) == Change(m, k) + a)
    ensures var r := SubUnsigned(m, k, a);
            && (r.Ok? <==> a <= I128_MAX && Change(m, k) - a >= -I128_MAX - 1)
            && (r.Ok? ==> Change(r.value, k) == Change(m, k) - a)
  {}

  /** A balance that can be read, and stays in range, can be changed and read again. */
  lemma BalanceAfterMerge<K>(m: AmountDeltas<K>, k: K, parent: Amount, v: Amount, x: SignedAmount)
    requires CombineAmount(parent, Lookup(m, k)) == Ok(v)
    requires v <= I128_MAX && 0 <= v + x <= I128_MAX
    ensures MergeAmount(m, k, x).Ok?
    ensures CombineAmount(parent, Lookup(MergeAmount(m, k, x).value, k)) == Ok(v + x)
  {}

  lemma OthersAfterMerge<K>(m: AmountDeltas<K>, k: K, x: SignedAmount, other: K)
    requires MergeAmount(m, k, x).Ok? && other != k
    ensures Lookup(MergeAmount(m, k, x).value, other) == Lookup(m, other)
  {}

  // ----- whole collections

  ghost predicate SumsFit<K>(m: AmountDeltas<K>, other: AmountDeltas<K>) {
    forall k :: k in other ==> FitsSigned(Change(m, k) + other[k])
  }

  /** The collection that records the changes of both. */
  ghost predicate IsSum<K(!new)>(sum: AmountDeltas<K>, m: AmountDeltas<K>, other: AmountDeltas<K>) {
    && NoZeros(sum)
    && forall k :: Change(sum, k) == Change(m, k) + Change(other, k)
  }

  /** At every key the change is as it was, or the one of `other` has been added to it. */
  ghost predicate PartlySummed<K(!new)>(sum: AmountDeltas<K>, m: AmountDeltas<K>, other: AmountDeltas<K>) {
    && NoZeros(sum)
    && forall k :: Change(sum, k) == Change(m, k) || Change(sum, k) == Change(m, k) + Change(other, k)
  }

  /** `merge_delta_amounts` takes the elements one by one; their order does not matter unless one fails. */
  method MergeAmounts<K(==,!new)>(m: AmountDeltas<K>, other: AmountDeltas<K>)
    returns (sum: AmountDeltas<K>, r: Result<(), Error>)
    requires NoZeros(m)
    ensures r == if SumsFit(m, other) then Ok(()) else Err(DeltaAdditionFailed)
    ensures r.Ok? ==> IsSum(sum, m, other)
    ensures r.Err? ==> PartlySummed(sum, m, other)
  {
    sum := m;
    var left := other.Keys;
    while left != {}
      invariant left <= other.Keys && NoZeros(sum)
      invariant forall k :: Change(sum, k) == Change(m, k) + if k in left then 0 else Change(other, k)
      invariant forall k :: k in other && k !in left ==> FitsSigned(Change(m, k) + other[k])
    {
      var k :| k in left;
      assert Change(sum, k) == Change(m, k);
      var next := MergeAmount(sum, k, other[k]);
      if next.Err? {
        return sum, Err(next.error);
      }
      sum := next.value;
      left := left - {k};
    }
    r := Ok(());
  }

  ghost predicate Continues<K, T>(m: DataDeltas<K, T>, other: DataDeltas<K, T>) {
    forall k :: k in other && k in m ==> m[k].after == other[k].before
  }

  /** The change at `k` once the elements of `other` outside `left` have been merged into `m`. */
  ghost function MergedAt<K, T>(m: DataDeltas<K, T>, other: DataDeltas<K, T>, left: set<K>,
                                k: K): Option<DataDelta<T>> {
    if k in other && k !in left then
      Some(if k in m then DataDelta(m[k].before, other[k].after) else other[k])
    else if k in m then Some(m[k])
    else None
  }

  ghost predicate IsMerged<K(!new), T>(all: DataDeltas<K, T>, m: DataDeltas<K, T>, other: DataDeltas<K, T>,
                                       left: set<K>) {
    forall k :: MergedAt(m, other, left, k) == if k in all then Some(all[k]) else None
  }

  /** At every key the change is as it was, or the one of `other` has been merged, or a mismatch has dropped it. */
  ghost predicate PartlyMerged<K(!new), T>(all: DataDeltas<K, T>, m: DataDeltas<K, T>, other: DataDeltas<K, T>) {
    forall k ::
      || Lookup(all, k) == Lookup(m, k)
      || Lookup(all, k) == MergedAt(m, other, {}, k)
      || (k !in all && k in m && k in other && m[k].after != other[k].before)
  }

  /** `merge_delta_data`, with the undo element of every change. */
  method MergeDatas<K(==,!new), T(==)>(m: DataDeltas<K, T>, other: DataDeltas<K, T>)
    returns (all: DataDeltas<K, T>, r: Result<DataDeltas<K, T>, Error>)
    ensures r == if Continues(m, other) then Ok(map k | k in other :: Invert(other[k])) else Err(DeltaDataMismatch)
    ensures r.Ok? ==> IsMerged(all, m, other, {})
    ensures r.Err? ==> PartlyMerged(all, m, other)
  {
    var undo: DataDeltas<K, T> := map[];
    all := m;
    var left := other.Keys;
    while left != {}
      invariant left <= other.Keys
      invariant undo == map k | k in other && k !in left :: Invert(other[k])
      invariant IsMerged(all, m, other, left)
      invariant forall k :: k in other && k !in left && k in m ==> m[k].after == other[k].before
    {
      var k :| k in left;
      assert MergedAt(m, other, left, k) == if k in m then Some(m[k]) else None;
      var next := MergeData(all, k, other[k]);
      if next.Err? {
        PartWay(all, m, other, left, k);
        return all - {k}, Err(next.error);
      }
      all := next.value;
      undo := undo[k := Invert(other[k])];
      left := left - {k};
    }
    assert undo == map k | k in other :: Invert(other[k]);
    return all, Ok(undo);
  }

  lemma PartWay<K(!new), T>(all: DataDeltas<K, T>, m: DataDeltas<K, T>, other: DataDeltas<K, T>, left: set<K>, k: K)
    requires IsMerged(all, m, other, left) && k in m && k in other && m[k].after != other[k].before
    ensures PartlyMerged(all - {k}, m, other)
  {
    forall j | j != k
      ensures Lookup(all - {k}, j) == Lookup(m, j) || Lookup(all - {k}, j) == MergedAt(m, other, {}, j)
    {
      assert MergedAt(m, other, left, j) == Lookup(all, j);
    }
  }

  // ----- the merged collections as values

  ghost function SumOf<K>(m: AmountDeltas<K>, other: AmountDeltas<K>): AmountDeltas<K>
    requires SumsFit(m, other)
  {
    map k | k in m.Keys + other.Keys && Change(m, k) + Change(other, k) != 0 :: Change(m, k) + Change(other, k)
  }

  ghost function MergedData<K, T>(m: DataDeltas<K, T>, other: DataDeltas<K, T>): DataDeltas<K, T> {
    map k | k in m.Keys + other.Keys :: MergedAt(m, other, {}, k).value
  }

  lemma SumIsUnique<K(!new)>(sum: AmountDeltas<K>, m: AmountDeltas<K>, other: AmountDeltas<K>)
    requires SumsFit(m, other) && IsSum(sum, m, other)
    ensures sum == SumOf(m, other)
  {
    forall k ensures k in sum <==> k in SumOf(m, other) {
      assert Change(sum, k) == Change(m, k) + Change(other, k);
    }
    forall k | k in sum ensures sum[k] == SumOf(m, other)[k] {
      assert Change(sum, k) == Change(m, k) + Change(other, k);
    }
  }

  lemma MergedIsUnique<K(!new), T>(all: DataDeltas<K, T>, m: DataDeltas<K, T>, other: DataDeltas<K, T>)
    requires IsMerged(all, m, other, {})
    ensures all == MergedData(m, other)
  {
    forall k ensures k in all <==> k in MergedData(m, other) {
      assert MergedAt(m, other, {}, k) == if k in all then Some(all[k]) else None;
    }
    forall k | k in all ensures all[k] == MergedData(m, other)[k] {
      assert MergedAt(m, other, {}, k) == Some(all[k]);
    }
  }

  // ----- undoing whole merges

  /** Taking back the changes of a collection needs every one of them negated. */
  ghost predicate DifferencesFit<K>(m: AmountDeltas<K>, other: AmountDeltas<K>) {
    forall k :: k in other ==> other[k] != -I128_MAX - 1 && FitsSigned(Change(m, k) - other[k])
  }

  ghost predicate IsDifference<K(!new)>(diff: AmountDeltas<K>, m: AmountDeltas<K>, other: AmountDeltas<K>) {
    && NoZeros(diff)
    && forall k :: Change(diff, k) == Change(m, k) - Change(other, k)
  }

  /** `undo_merge_delta_amounts` flips the sign of every element and merges it. */
  method UndoMergeAmounts<K(==,!new)>(m: AmountDeltas<K>, other: AmountDeltas<K>)
    returns (r: Result<AmountDeltas<K>, Error>)
    requires NoZeros(m)
    ensures r.Ok? <==> DifferencesFit(m, other)
    ensures r.Ok? ==> IsDifference(r.value, m, other)
  {
    var diff := m;
    var left := other.Keys;
    while left != {}
      invariant left <= other.Keys && NoZeros(diff)
      invariant forall k :: Change(diff, k) == Change(m, k) - if k in left then 0 else Change(other, k)
      invariant forall k :: k in other && k !in left ==>
                  other[k] != -I128_MAX - 1 && FitsSigned(Change(m, k) - other[k])
    {
      var k :| k in left;
      assert Change(diff, k) == Change(m, k);
      if other[k] == -I128_MAX - 1 {
        return Err(UndoNegationFailed);
      }
      var next := MergeAmount(diff, k, -other[k]);
      if next.Err? {
        return Err(next.error);
      }
      diff := next.value;
      left := left - {k};
    }
    return Ok(diff);
  }

  /** A merge can be undone exactly when no merged change is the one that cannot be negated, and that restores `m`. */
  lemma MergeAmountsUndone<K(!new)>(m: AmountDeltas<K>, other: AmountDeltas<K>)
    requires NoZeros(m) && SumsFit(m, other)
    ensures DifferencesFit(SumOf(m, other), other) <==> forall k :: k in other ==> other[k] != -I128_MAX - 1
    ensures forall back :: IsDifference(back, SumOf(m, other), other) <==> back == m
  {
    var sum := SumOf(m, other);
    forall k ensures Change(sum, k) == Change(m, k) + Change(other, k) {
      if k in other {
        assert FitsSigned(Change(m, k) + other[k]);
      }
    }
    forall back | IsDifference(back, sum, other) ensures back == m {
      DifferenceIsUnique(back, m, sum, other);
    }
  }

  lemma DifferenceIsUnique<K(!new)>(a: AmountDeltas<K>, b: AmountDeltas<K>, m: AmountDeltas<K>, other: AmountDeltas<K>)
    requires IsDifference(a, m, other) && IsDifference(b, m, other)
    ensures a == b
  {
    forall k ensures Change(a, k) == Change(b, k) {
      assert Change(a, k) == Change(m, k) - Change(other, k);
    }
    forall k ensures k in a <==> k in b {
      assert Change(a, k) == Change(b, k);
    }
    forall k | k in a ensures a[k] == b[k] {
      assert Change(a, k) == Change(b, k);
    }
  }

  /** The undo collection of a merge merges back, and leaves `m` with a change to nothing where it had none. */
  lemma MergeDatasUndone<K(!new), T>(m: DataDeltas<K, T>, other: DataDeltas<K, T>)
    requires Continues(m, other)
    ensures var undo: DataDeltas<K, T> := map k | k in other :: Invert(other[k]);
            && Continues(MergedData(m, other), undo)
            && MergedData(MergedData(m, other), undo) ==
               map k | k in m.Keys + other.Keys :: if k in m then m[k] else DataDelta(other[k].before, other[k].before)
  {}

  /** Merging no change leaves a collection as it is. */
  lemma MergeZero<K>(m: AmountDeltas<K>, k: K)
    requires NoZeros(m)
    ensures MergeAmount(m, k, 0) == Ok(m)
  {
    assert PutChange(m, k, Change(m, k)) == m;
  }
}
