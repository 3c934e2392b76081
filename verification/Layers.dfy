/**
 Layers of deltas over a base, and flushing them down.

 A ledger is a stack of layers, each with changes of data and of balances. What a key reads as at the
 top is found by going through the layers; flushing merges the top layer into the one below it.
 */
module Layers {
  import opened Outcomes
  import opened Accounting

  /** A balance read through layers, the bottom one first. */
  function BalanceThrough<K>(base: Reading<Amount>, ms: seq<AmountDeltas<K>>, k: K): Reading<Amount>
    decreases |ms|
  {
    if ms == [] then base else ReadBalance(BalanceThrough(base, ms[..|ms| - 1], k), Lookup(ms[|ms| - 1], k))
  }

  function DataThrough<K, T>(base: Reading<Option<T>>, ds: seq<DataDeltas<K, T>>, k: K): Reading<Option<T>>
    decreases |ds|
  {
    if ds == [] then base else ReadData(DataThrough(base, ds[..|ds| - 1], k), Lookup(ds[|ds| - 1], k))
  }

  // ----- one flush

  /**
   Reading through two layers is reading through their sum exactly when the lower one can be read;
   errors included, and an unreadable base stays unreadable.
   */
  lemma FlushedBalance<K>(base: Reading<Amount>, lower: AmountDeltas<K>, upper: AmountDeltas<K>, k: K)
    requires NoZeros(lower) && NoZeros(upper) && SumsFit(lower, upper)
    ensures ReadBalance(base, Lookup(SumOf(lower, upper), k)) ==
            ReadBalance(ReadBalance(base, Lookup(lower, k)), Lookup(upper, k))
            <==> base.Err? || ReadBalance(base, Lookup(lower, k)).Ok?
  {}

  /** Data always reads the same after a flush. */
  lemma FlushedData<K, T>(base: Reading<Option<T>>, lower: DataDeltas<K, T>, upper: DataDeltas<K, T>, k: K)
    requires Continues(lower, upper)
    ensures ReadData(base, Lookup(MergedData(lower, upper), k)) ==
            ReadData(ReadData(base, Lookup(lower, k)), Lookup(upper, k))
  {}

  /** Where both layers can be read their changes add up without overflow. */
  lemma ReadableSumFits<K>(base: Reading<Amount>, lower: AmountDeltas<K>, upper: AmountDeltas<K>, k: K)
    requires NoZeros(lower) && NoZeros(upper)
    requires ReadBalance(ReadBalance(base, Lookup(lower, k)), Lookup(upper, k)).Ok?
    ensures FitsSigned(Change(lower, k) + Change(upper, k))
  {}

  // ----- flushing down to one layer

  ghost function CollapseAmounts<K>(ms: seq<AmountDeltas<K>>): Option<AmountDeltas<K>>
    decreases |ms|
  {
    var n := |ms|;
    if n == 0 then None
    else if n == 1 then Some(ms[0])
    else if SumsFit(ms[n - 2], ms[n - 1]) then CollapseAmounts(ms[..n - 2] + [SumOf(ms[n - 2], ms[n - 1])])
    else None
  }

  ghost function CollapseDatas<K, T>(ds: seq<DataDeltas<K, T>>): Option<DataDeltas<K, T>>
    decreases |ds|
  {
    var n := |ds|;
    if n == 0 then None
    else if n == 1 then Some(ds[0])
    else if Continues(ds[n - 2], ds[n - 1]) then CollapseDatas(ds[..n - 2] + [MergedData(ds[n - 2], ds[n - 1])])
    else None
  }

  ghost predicate AllNormal<K>(ms: seq<AmountDeltas<K>>) {
    forall i :: 0 <= i < |ms| ==> NoZeros(ms[i])
  }

  /** The layer just below the top, and so all below it, can be read at `k`; or there is nothing to read. */
  predicate ReadableBelow<K>(base: Reading<Amount>, ms: seq<AmountDeltas<K>>, k: K)
    requires ms != []
  {
    base.Err? || BalanceThrough(base, ms[..|ms| - 1], k).Ok?
  }

  /** Replacing the two top layers by their sum, as a flush does, below a reading of `below`. */
  lemma TopFlushBalance<K>(base: Reading<Amount>, ms: seq<AmountDeltas<K>>, k: K)
    requires |ms| >= 2 && AllNormal(ms) && SumsFit(ms[|ms| - 2], ms[|ms| - 1])
    ensures var n := |ms|;
            var flat := ms[..n - 2] + [SumOf(ms[n - 2], ms[n - 1])];
            && AllNormal(flat) && |flat| == n - 1
            && (BalanceThrough(base, flat, k) == BalanceThrough(base, ms, k) <==>
                BalanceThrough(base, ms[..n - 2], k).Err? || BalanceThrough(base, ms[..n - 1], k).Ok?)
  {
    var n := |ms|;
    var flat := ms[..n - 2] + [SumOf(ms[n - 2], ms[n - 1])];
    assert ms[..n - 1][..n - 2] == ms[..n - 2] == flat[..n - 2];
    FlushedBalance(BalanceThrough(base, ms[..n - 2], k), ms[n - 2], ms[n - 1], k);
  }

  /** A layer that can be read lies on layers that can. */
  lemma {:induction false} ReadableDown<K>(base: Reading<Amount>, ms: seq<AmountDeltas<K>>, k: K, i: nat)
    requires i <= |ms| && BalanceThrough(base, ms, k).Ok?
    ensures BalanceThrough(base, ms[..i], k).Ok?
    decreases |ms|
  {
    var n := |ms| - 1;
    if i <= n {
      assert ms[..n][..i] == ms[..i];
      ReadableDown(base, ms[..n], k, i);
    } else {
      assert ms[..i] == ms;
    }
  }

  lemma OneLayer<K>(base: Reading<Amount>, m: AmountDeltas<K>, k: K)
    ensures BalanceThrough(base, [m], k) == ReadBalance(base, Lookup(m, k))
  {
    assert [m][..0] == [];
  }

  /**
   However many layers are flushed down, the balance of `k` reads the same exactly when the layers
   below the top could be read at `k`.
   */
  lemma {:induction false} CollapsedBalance<K>(base: Reading<Amount>, ms: seq<AmountDeltas<K>>, k: K)
    requires ms != [] && AllNormal(ms) && CollapseAmounts(ms).Some?
    ensures ReadBalance(base, Lookup(CollapseAmounts(ms).value, k)) == BalanceThrough(base, ms, k)
            <==> ReadableBelow(base, ms, k)
    decreases |ms|
  {
    var n := |ms|;
    if n == 1 {
      OneLayer(base, ms[0], k);
      assert ms == [ms[0]];
    } else {
      var flat := ms[..n - 2] + [SumOf(ms[n - 2], ms[n - 1])];
      TopFlushBalance(base, ms, k);
      CollapsedBalance(base, flat, k);
      assert flat[..n - 2] == ms[..n - 2] == ms[..n - 1][..n - 2];
      if base.Err? && BalanceThrough(base, ms[..n - 2], k).Ok? {
        ReadableDown(base, ms[..n - 2], k, 0);
      }
    }
  }

  /** Data reads the same however many layers are flushed down. */
  lemma {:induction false} CollapsedData<K, T>(base: Reading<Option<T>>, ds: seq<DataDeltas<K, T>>, k: K)
    requires ds != [] && CollapseDatas(ds).Some?
    ensures ReadData(base, Lookup(CollapseDatas(ds).value, k)) == DataThrough(base, ds, k)
    decreases |ds|
  {
    var n := |ds|;
    if n == 1 {
      assert ds[..0] == [];
    } else {
      var flat := ds[..n - 2] + [MergedData(ds[n - 2], ds[n - 1])];
      assert ds[..n - 1][..n - 2] == ds[..n - 2] == flat[..n - 2];
      FlushedData(DataThrough(base, ds[..n - 2], k), ds[n - 2], ds[n - 1], k);
      CollapsedData(base, flat, k);
    }
  }

  // ----- when it all succeeds

  ghost predicate ReadableEverywhere<K(!new)>(base: K -> Reading<Amount>, ms: seq<AmountDeltas<K>>) {
    forall k :: BalanceThrough(base(k), ms, k).Ok?
  }

  /** Layers that can be read everywhere can be flushed down to one. */
  lemma {:induction false} AmountsCollapse<K(!new)>(base: K -> Reading<Amount>, ms: seq<AmountDeltas<K>>)
    requires ms != [] && AllNormal(ms) && ReadableEverywhere(base, ms)
    ensures CollapseAmounts(ms).Some?
    decreases |ms|
  {
    var n := |ms|;
    if n > 1 {
      assert ms[..n - 1][..n - 2] == ms[..n - 2];
      var lower, upper := ms[n - 2], ms[n - 1];
      forall k | k in upper ensures FitsSigned(Change(lower, k) + upper[k]) {
        assert BalanceThrough(base(k), ms, k).Ok?;
        ReadableSumFits(BalanceThrough(base(k), ms[..n - 2], k), lower, upper, k);
      }
      var flat := ms[..n - 2] + [SumOf(lower, upper)];
      forall k ensures BalanceThrough(base(k), flat, k).Ok? {
        TopFlushBalance(base(k), ms, k);
        assert BalanceThrough(base(k), ms, k).Ok?;
      }
      assert AllNormal(flat);
      AmountsCollapse(base, flat);
    }
  }

  /** Every data change starts from what the layers below show. */
  ghost predicate ConsistentThroughout<K(!new), T(!new)>(base: K -> Reading<Option<T>>, ds: seq<DataDeltas<K, T>>) {
    forall k, i :: 0 <= i < |ds| && k in ds[i] ==> DataThrough(base(k), ds[..i], k) == Ok(ds[i][k].before)
  }

  lemma {:induction false} DatasCollapse<K(!new), T(!new)>(base: K -> Reading<Option<T>>, ds: seq<DataDeltas<K, T>>)
    requires ds != [] && ConsistentThroughout(base, ds)
    ensures CollapseDatas(ds).Some?
    decreases |ds|
  {
    var n := |ds|;
    if n > 1 {
      var lower, upper := ds[n - 2], ds[n - 1];
      assert ds[..n - 1][..n - 2] == ds[..n - 2];
      forall k | k in upper && k in lower ensures lower[k].after == upper[k].before {
        assert DataThrough(base(k), ds[..n - 1], k) == Ok(upper[k].before);
      }
      var flat := ds[..n - 2] + [MergedData(lower, upper)];
      forall k, i | 0 <= i < |flat| && k in flat[i]
        ensures DataThrough(base(k), flat[..i], k) == Ok(flat[i][k].before)
      {
        assert flat[..i] == ds[..i];
        if i == n - 2 && k !in lower {
          assert DataThrough(base(k), ds[..n - 1], k) == Ok(upper[k].before);
        } else {
          assert DataThrough(base(k), ds[..i], k) == Ok(ds[i][k].before);
        }
      }
      DatasCollapse(base, flat);
    }
  }
}
