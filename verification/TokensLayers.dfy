/** Layers of the tokens ledger: flushing keeps what tokens read as. */
module TokensLayers {
  import opened Outcomes
  import opened Accounting
  import opened Layers
  import opened Tokens
  import opened TokensSafety
  import opened TokensCache

  /** Every data change starts from what the parent shows. */
  ghost predicate Consistent(parent: View, d: Delta) {
    forall id :: id in d.data ==> parent.data(id) == Ok(d.data[id].before)
  }

  predicate Readable(parent: View, d: Delta, id: TokenId) {
    DataIn(parent, d, id).Ok? && SupplyIn(parent, d, id).Ok?
  }

  /** A consistent layer that can be read everywhere. */
  ghost predicate GoodLayer(parent: View, d: Delta) {
    NoZeros(d.supply) && Consistent(parent, d) && forall id :: Readable(parent, d, id)
  }

  lemma DoKeepsConsistent(parent: View, d: Delta, op: Operation)
    requires Consistent(parent, d) && Do(parent, d, op).Ok?
    ensures Consistent(parent, Do(parent, d, op).value.0)
  {
    PlanRecords(parent, d, op);
  }

  /** A run leaves a layer that can be flushed if its supplies can be read: mints do not see to that. */
  lemma {:induction false} RunIsGoodLayer(parent: View, d: Delta, ops: seq<Operation>)
    requires NoZeros(d.supply) && Consistent(parent, d) && RunAll(parent, d, ops).Some?
    ensures var d' := RunAll(parent, d, ops).value.0;
            GoodLayer(parent, d') <==> forall id :: Readable(parent, d', id)
    decreases |ops|
  {
    if ops != [] {
      var (d1, e) := Do(parent, d, ops[0]).value;
      DoKeepsConsistent(parent, d, ops[0]);
      MergeAmountUndone(d.supply, e.id, e.supply);
      RunIsGoodLayer(parent, d1, ops[1..]);
    }
  }

  // ----- one flush

  /** Flushing a good layer into the layer below succeeds. */
  lemma FlushSucceeds(base: View, lower: Delta, upper: Delta)
    requires NoZeros(lower.supply) && GoodLayer(ViewOf(base, lower), upper)
    ensures Mergeable(lower, upper)
  {
    forall id | id in upper.supply ensures FitsSigned(Accounting.Change(lower.supply, id) + upper.supply[id]) {
      assert Readable(ViewOf(base, lower), upper, id);
      ReadableSumFits(base.supply(id), lower.supply, upper.supply, id);
    }
  }

  /**
   After a flush every token's data reads as it did at the top, and its supply does exactly when the
   lower layer could be read there, or there was nothing to read.
   */
  lemma FlushKeepsView(base: View, lower: Delta, upper: Delta, id: TokenId)
    requires NoZeros(lower.supply) && NoZeros(upper.supply) && Mergeable(lower, upper)
    ensures var mid, all := ViewOf(base, lower), Merged(lower, upper);
            && DataIn(base, all, id) == DataIn(mid, upper, id)
            && (SupplyIn(base, all, id) == SupplyIn(mid, upper, id) <==>
                base.supply(id).Err? || SupplyIn(base, lower, id).Ok?)
  {
    FlushedData(base.data(id), lower.data, upper.data, id);
    FlushedBalance(base.supply(id), lower.supply, upper.supply, id);
  }

  // ----- any number of layers

  function Stacked(base: View, ds: seq<Delta>): View {
    if ds == [] then base else ViewOf(Stacked(base, ds[..|ds| - 1]), ds[|ds| - 1])
  }

  function Datas(ds: seq<Delta>): seq<DataDeltas<TokenId, TokenData>> {
    seq(|ds|, i requires 0 <= i < |ds| => ds[i].data)
  }

  function Supplies(ds: seq<Delta>): seq<AmountDeltas<TokenId>> {
    seq(|ds|, i requires 0 <= i < |ds| => ds[i].supply)
  }

  lemma {:induction false} StackedReads(base: View, ds: seq<Delta>, id: TokenId)
    ensures Stacked(base, ds).data(id) == DataThrough(base.data(id), Datas(ds), id)
    ensures Stacked(base, ds).supply(id) == BalanceThrough(base.supply(id), Supplies(ds), id)
    decreases |ds|
  {
    if ds != [] {
      var front := ds[..|ds| - 1];
      assert Datas(ds)[..|ds| - 1] == Datas(front);
      assert Supplies(ds)[..|ds| - 1] == Supplies(front);
      StackedReads(base, front, id);
    }
  }

  /** All layers flushed down to one. */
  ghost function Collapse(ds: seq<Delta>): Option<Delta> {
    var data, supply := CollapseDatas(Datas(ds)), CollapseAmounts(Supplies(ds));
    if data.Some? && supply.Some? then Some(Delta(data.value, supply.value)) else None
  }

  /** That is: flushing the top layer into the one below it, and then collapsing what is left. */
  lemma CollapseIsFlushing(ds: seq<Delta>)
    requires |ds| >= 2
    ensures var n := |ds|;
            Collapse(ds) ==
            if Mergeable(ds[n - 2], ds[n - 1]) then Collapse(ds[..n - 2] + [Merged(ds[n - 2], ds[n - 1])]) else None
  {
    var n := |ds|;
    if Mergeable(ds[n - 2], ds[n - 1]) {
      var all := Merged(ds[n - 2], ds[n - 1]);
      var flat := ds[..n - 2] + [all];
      assert Datas(flat) == Datas(ds)[..n - 2] + [all.data];
      assert Supplies(flat) == Supplies(ds)[..n - 2] + [all.supply];
    }
  }

  ghost predicate AllLayersNormal(ds: seq<Delta>) {
    forall i :: 0 <= i < |ds| ==> NoZeros(ds[i].supply)
  }

  /**
   However many layers are flushed down, every token's data reads as it did at the top, and its
   supply does exactly when the layers below the top could be read there.
   */
  lemma CollapseKeepsView(base: View, ds: seq<Delta>, id: TokenId)
    requires ds != [] && AllLayersNormal(ds) && Collapse(ds).Some?
    ensures var top, below, one := Stacked(base, ds), Stacked(base, ds[..|ds| - 1]), Collapse(ds).value;
            && DataIn(base, one, id) == top.data(id)
            && (SupplyIn(base, one, id) == top.supply(id) <==> base.supply(id).Err? || below.supply(id).Ok?)
  {
    var front := ds[..|ds| - 1];
    StackedReads(base, ds, id);
    StackedReads(base, front, id);
    assert Supplies(ds)[..|ds| - 1] == Supplies(front);
    CollapsedData(base.data(id), Datas(ds), id);
    CollapsedBalance(base.supply(id), Supplies(ds), id);
  }

  ghost predicate GoodLayers(base: View, ds: seq<Delta>) {
    forall i :: 0 <= i < |ds| ==> GoodLayer(Stacked(base, ds[..i]), ds[i])
  }

  ghost predicate SameReadings(v: View, w: View) {
    forall id :: v.data(id) == w.data(id) && v.supply(id) == w.supply(id)
  }

  /** Good layers, one upon the other, can all be flushed down, and then every token reads as at the top. */
  lemma GoodLayersCollapse(base: View, ds: seq<Delta>)
    requires ds != [] && GoodLayers(base, ds)
    ensures Collapse(ds).Some?
    ensures SameReadings(ViewOf(base, Collapse(ds).value), Stacked(base, ds))
  {
    GoodLayersRead(base, ds);
    DatasCollapse(base.data, Datas(ds));
    AmountsCollapse(base.supply, Supplies(ds));
    forall id ensures var top, one := Stacked(base, ds), ViewOf(base, Collapse(ds).value);
                      one.data(id) == top.data(id) && one.supply(id) == top.supply(id)
    {
      CollapseKeepsView(base, ds, id);
      assert Readable(Stacked(base, ds[..|ds| - 1]), ds[|ds| - 1], id);
    }
  }

  lemma GoodLayersRead(base: View, ds: seq<Delta>)
    requires ds != [] && GoodLayers(base, ds)
    ensures AllLayersNormal(ds) && ConsistentThroughout(base.data, Datas(ds))
    ensures ReadableEverywhere(base.supply, Supplies(ds))
  {
    forall id, i | 0 <= i < |ds| && id in Datas(ds)[i]
      ensures DataThrough(base.data(id), Datas(ds)[..i], id) == Ok(Datas(ds)[i][id].before)
    {
      assert GoodLayer(Stacked(base, ds[..i]), ds[i]);
      StackedReads(base, ds[..i], id);
      assert Datas(ds)[..i] == Datas(ds[..i]);
    }
    var n := |ds| - 1;
    forall id ensures BalanceThrough(base.supply(id), Supplies(ds), id).Ok? {
      assert GoodLayer(Stacked(base, ds[..n]), ds[n]) && Readable(Stacked(base, ds[..n]), ds[n], id);
      StackedReads(base, ds, id);
    }
  }
}
