/** Layers of the orders ledger: what runs leave can be flushed down, and flushing keeps what orders read as. */
module OrdersLayers {
  import opened Outcomes
  import opened Accounting
  import opened Layers
  import opened Orders
  import opened OrdersSafety
  import opened OrdersCache

  /** Every data change starts from what the parent shows. */
  ghost predicate Consistent(parent: View, d: Delta) {
    forall id :: id in d.data ==> parent.data(id) == Ok(d.data[id].before)
  }

  /** A layer as its operations leave it: consistent, and readable everywhere. */
  ghost predicate GoodLayer(parent: View, d: Delta) {
    Normal(d) && Consistent(parent, d) && forall id :: Readable(parent, d, id)
  }

  lemma DoKeepsConsistent(parent: View, d: Delta, op: Operation)
    requires Consistent(parent, d) && Do(parent, d, op).Ok?
    ensures Consistent(parent, Do(parent, d, op).value.0)
  {
    PlanStartsFromView(parent, d, op);
    PlanRecords(parent, d, op);
  }

  /** A run on a sound and consistent layer, a fresh one for instance, leaves a layer that can be flushed. */
  lemma {:induction false} RunIsGoodLayer(parent: View, d: Delta, ops: seq<Operation>)
    requires Sound(parent, d) && Consistent(parent, d) && RunAll(parent, d, ops).Some?
    ensures GoodLayer(parent, RunAll(parent, d, ops).value.0)
    decreases |ops|
  {
    if ops == [] {
      forall id ensures Readable(parent, d, id) {
        assert SoundAt(parent, d, id);
      }
    } else {
      DoKeepsSound(parent, d, ops[0]);
      DoKeepsConsistent(parent, d, ops[0]);
      RunIsGoodLayer(parent, Do(parent, d, ops[0]).value.0, ops[1..]);
    }
  }

  // ----- one flush

  /** Flushing a good layer into the layer below succeeds. */
  lemma FlushSucceeds(base: View, lower: Delta, upper: Delta)
    requires Normal(lower) && GoodLayer(ViewOf(base, lower), upper)
    ensures Mergeable(lower, upper)
  {
    forall id | id in upper.ask ensures FitsSigned(Change(lower.ask, id) + upper.ask[id]) {
      assert Readable(ViewOf(base, lower), upper, id);
      ReadableSumFits(base.ask(id), lower.ask, upper.ask, id);
    }
    forall id | id in upper.give ensures FitsSigned(Change(lower.give, id) + upper.give[id]) {
      assert Readable(ViewOf(base, lower), upper, id);
      ReadableSumFits(base.give(id), lower.give, upper.give, id);
    }
  }

  /**
   After a flush every order's data reads as it did at the top, and a balance does exactly when the
   lower layer could be read there, or there was nothing to read.
   */
  lemma FlushKeepsView(base: View, lower: Delta, upper: Delta, id: OrderId)
    requires Normal(lower) && Normal(upper) && Mergeable(lower, upper)
    ensures var mid, all := ViewOf(base, lower), Merged(lower, upper);
            && DataIn(base, all, id) == DataIn(mid, upper, id)
            && (AskIn(base, all, id) == AskIn(mid, upper, id) <==> base.ask(id).Err? || AskIn(base, lower, id).Ok?)
            && (GiveIn(base, all, id) == GiveIn(mid, upper, id) <==> base.give(id).Err? || GiveIn(base, lower, id).Ok?)
  {
    FlushedData(base.data(id), lower.data, upper.data, id);
    FlushedBalance(base.ask(id), lower.ask, upper.ask, id);
    FlushedBalance(base.give(id), lower.give, upper.give, id);
  }

  // ----- any number of layers

  function Stacked(base: View, ds: seq<Delta>): View {
    if ds == [] then base else ViewOf(Stacked(base, ds[..|ds| - 1]), ds[|ds| - 1])
  }

  function Datas(ds: seq<Delta>): seq<DataDeltas<OrderId, OrderData>> {
    seq(|ds|, i requires 0 <= i < |ds| => ds[i].data)
  }

  function Asks(ds: seq<Delta>): seq<AmountDeltas<OrderId>> {
    seq(|ds|, i requires 0 <= i < |ds| => ds[i].ask)
  }

  function Gives(ds: seq<Delta>): seq<AmountDeltas<OrderId>> {
    seq(|ds|, i requires 0 <= i < |ds| => ds[i].give)
  }

  lemma {:induction false} StackedReads(base: View, ds: seq<Delta>, id: OrderId)
    ensures Stacked(base, ds).data(id) == DataThrough(base.data(id), Datas(ds), id)
    ensures Stacked(base, ds).ask(id) == BalanceThrough(base.ask(id), Asks(ds), id)
    ensures Stacked(base, ds).give(id) == BalanceThrough(base.give(id), Gives(ds), id)
    decreases |ds|
  {
    if ds != [] {
      var front := ds[..|ds| - 1];
      assert Datas(ds)[..|ds| - 1] == Datas(front);
      assert Asks(ds)[..|ds| - 1] == Asks(front) && Gives(ds)[..|ds| - 1] == Gives(front);
      StackedReads(base, front, id);
    }
  }

  /** All layers flushed down to one. */
  ghost function Collapse(ds: seq<Delta>): Option<Delta> {
    var data, ask, give := CollapseDatas(Datas(ds)), CollapseAmounts(Asks(ds)), CollapseAmounts(Gives(ds));
    if data.Some? && ask.Some? && give.Some? then Some(Delta(data.value, ask.value, give.value)) else None
  }

  /** That is: flushing the top layer into the one below it, and then collapsing what is left. */
  lemma CollapseIsFlushing(ds: seq<Delta>)
    requires |ds| >= 2
    ensures var n := |ds|;
            Collapse(ds) ==
            if Mergeable(ds[n - 2], ds[n - 1]) then Collapse(ds[..n - 2] + [Merged(ds[n - 2], ds[n - 1])]) else None
  {
    var n := |ds|;
    if Mergeable(ds[n - 2], ds[n - 1]) {
      var all := Merged(ds[n - 2], ds[n - 1]);
      var flat := ds[..n - 2] + [all];
      assert Datas(flat) == Datas(ds)[..n - 2] + [all.data];
      assert Asks(flat) == Asks(ds)[..n - 2] + [all.ask];
      assert Gives(flat) == Gives(ds)[..n - 2] + [all.give];
    }
  }

  ghost predicate AllLayersNormal(ds: seq<Delta>) {
    forall i :: 0 <= i < |ds| ==> Normal(ds[i])
  }

  /**
   However many layers are flushed down, every order's data reads as it did at the top, and a
   balance does exactly when the layers below the top could be read there.
   */
  lemma CollapseKeepsView(base: View, ds: seq<Delta>, id: OrderId)
    requires ds != [] && AllLayersNormal(ds) && Collapse(ds).Some?
    ensures var top, below, one := Stacked(base, ds), Stacked(base, ds[..|ds| - 1]), Collapse(ds).value;
            && DataIn(base, one, id) == top.data(id)
            && (AskIn(base, one, id) == top.ask(id) <==> base.ask(id).Err? || below.ask(id).Ok?)
            && (GiveIn(base, one, id) == top.give(id) <==> base.give(id).Err? || below.give(id).Ok?)
  {
    var front := ds[..|ds| - 1];
    StackedReads(base, ds, id);
    StackedReads(base, front, id);
    assert Asks(ds)[..|ds| - 1] == Asks(front) && Gives(ds)[..|ds| - 1] == Gives(front);
    CollapsedData(base.data(id), Datas(ds), id);
    CollapsedBalance(base.ask(id), Asks(ds), id);
    CollapsedBalance(base.give(id), Gives(ds), id);
  }

  ghost predicate GoodLayers(base: View, ds: seq<Delta>) {
    forall i :: 0 <= i < |ds| ==> GoodLayer(Stacked(base, ds[..i]), ds[i])
  }

  ghost predicate SameReadings(v: View, w: View) {
    forall id :: v.data(id) == w.data(id) && v.ask(id) == w.ask(id) && v.give(id) == w.give(id)
  }

  /** Good layers, one upon the other, can all be flushed down, and then every order reads as at the top. */
  lemma GoodLayersCollapse(base: View, ds: seq<Delta>)
    requires ds != [] && GoodLayers(base, ds)
    ensures Collapse(ds).Some?
    ensures SameReadings(ViewOf(base, Collapse(ds).value), Stacked(base, ds))
  {
    GoodLayersRead(base, ds);
    DatasCollapse(base.data, Datas(ds));
    AmountsCollapse(base.ask, Asks(ds));
    AmountsCollapse(base.give, Gives(ds));
    forall id ensures var top, one := Stacked(base, ds), ViewOf(base, Collapse(ds).value);
                      one.data(id) == top.data(id) && one.ask(id) == top.ask(id) && one.give(id) == top.give(id)
    {
      CollapseKeepsView(base, ds, id);
      assert Readable(Stacked(base, ds[..|ds| - 1]), ds[|ds| - 1], id);
    }
  }

  lemma GoodLayersRead(base: View, ds: seq<Delta>)
    requires ds != [] && GoodLayers(base, ds)
    ensures AllLayersNormal(ds) && ConsistentThroughout(base.data, Datas(ds))
    ensures ReadableEverywhere(base.ask, Asks(ds)) && ReadableEverywhere(base.give, Gives(ds))
  {
    forall id, i | 0 <= i < |ds| && id in Datas(ds)[i]
      ensures DataThrough(base.data(id), Datas(ds)[..i], id) == Ok(Datas(ds)[i][id].before)
    {
      assert GoodLayer(Stacked(base, ds[..i]), ds[i]);
      StackedReads(base, ds[..i], id);
      assert Datas(ds)[..i] == Datas(ds[..i]);
    }
    var n := |ds| - 1;
    forall id
      ensures BalanceThrough(base.ask(id), Asks(ds), id).Ok? && BalanceThrough(base.give(id), Gives(ds), id).Ok?
    {
      assert GoodLayer(Stacked(base, ds[..n]), ds[n]) && Readable(Stacked(base, ds[..n]), ds[n], id);
      StackedReads(base, ds, id);
    }
  }

  // ----- caches upon caches, each with a run of its own

  const EMPTY: Delta := Delta(map[], map[], map[])

  /** The deltas of caches put one upon the other, each after its run of operations. */
  function RunStack(base: View, runs: seq<seq<Operation>>): Option<seq<Delta>>
    decreases |runs|
  {
    if runs == [] then Some([])
    else
      var below := RunStack(base, runs[..|runs| - 1]);
      if below.None? then None
      else
        var top := RunAll(Stacked(base, below.value), EMPTY, runs[|runs| - 1]);
        if top.None? then None else Some(below.value + [top.value.0])
  }

  lemma {:induction false} RunStackIsGood(base: View, runs: seq<seq<Operation>>)
    requires Sound(base, EMPTY) && RunStack(base, runs).Some?
    ensures var ds := RunStack(base, runs).value;
            |ds| == |runs| && GoodLayers(base, ds) && Sound(Stacked(base, ds), EMPTY)
    decreases |runs|
  {
    if runs != [] {
      var n := |runs| - 1;
      RunStackIsGood(base, runs[..n]);
      var front, ds := RunStack(base, runs[..n]).value, RunStack(base, runs).value;
      var below := Stacked(base, front);
      RunKeepsSound(below, EMPTY, runs[n]);
      RunIsGoodLayer(below, EMPTY, runs[n]);
      assert ds[..n] == front;
      FreshLayerSound(below, ds[n]);
      forall i | 0 <= i < |ds| ensures GoodLayer(Stacked(base, ds[..i]), ds[i]) {
        if i < n {
          assert ds[..i] == front[..i];
        }
      }
    }
  }

  /** Whatever runs the caches of a stack have seen, they can all be flushed down, and nothing reads differently. */
  lemma RunsCollapse(base: View, runs: seq<seq<Operation>>)
    requires Sound(base, EMPTY) && runs != [] && RunStack(base, runs).Some?
    ensures var ds := RunStack(base, runs).value;
            Collapse(ds).Some? && SameReadings(ViewOf(base, Collapse(ds).value), Stacked(base, ds))
  {
    RunStackIsGood(base, runs);
    GoodLayersCollapse(base, RunStack(base, runs).value);
  }
}
