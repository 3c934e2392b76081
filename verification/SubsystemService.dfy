/** What the worker loop does for those who call it: every call is served, in the order of the loop's priorities. */
module SubsystemService {
  import opened Outcomes
  import opened Subsystem

  /** A run that is possible is possible up to any of its steps. */
  lemma {:induction false} RunUpTo(s: State, run: seq<Label>, k: nat)
    requires Run(s, run).Some? && k <= |run|
    ensures Run(s, run[..k]).Some?
    ensures k < |run| ==> Enabled(Run(s, run[..k]).value, run[k])
    decreases |run|
  {
    if k > 0 {
      RunUpTo(Fire(s, run[0]), run[1..], k - 1);
      assert run[..k][1..] == run[1..][..k - 1];
    }
  }

  // ----- the shutdown signal

  /** The loop knows of a shutdown exactly when one has been signalled, and is left for no other reason. */
  lemma {:induction false} ShutdownIsSignalled(s: State, run: seq<Label>)
    requires Run(s, run).Some? && (s.phase.Draining? || s.phase.Terminated? ==> s.shutdown)
    ensures var end := Run(s, run).value;
            && (end.shutdown <==> s.shutdown || Shutdown in run)
            && (end.phase.Draining? || end.phase.Terminated? ==> end.shutdown)
    decreases |run|
  {
    if run != [] {
      ShutdownIsSignalled(Fire(s, run[0]), run[1..]);
      assert run == [run[0]] + run[1..];
    }
  }

  /** So without a signal the loop goes on serving. */
  lemma ServesUntilShutdown(run: seq<Label>)
    requires Run(Initial(), run).Some? && Shutdown !in run
    ensures var s := Run(Initial(), run).value;
            && s.phase != Draining && s.phase != Terminated && !s.shutdown
            && (s.phase.Idle? && s.queue != [] ==> Enabled(s, TakeCall))
  {
    ShutdownIsSignalled(Initial(), run);
  }

  // ----- priorities

  /** The calls sent but not received yet. */
  lemma WaitingCalls(run: seq<Label>)
    requires Run(Initial(), run).Some?
    ensures var s := Run(Initial(), run).value;
            Sends(run) == s.received + s.queue
  {
    ReceivedInOrder(Initial(), run);
    assert [] + Sends(run) == Sends(run);
  }

  ghost predicate EveryReadJoined(s: State) {
    forall w :: 0 <= w < |s.workers| && s.workers[w].stage == Finished ==> s.workers[w].joined
  }

  /**
   At every step of a run: the loop is left only after a signal; without one a call comes first, then
   the joining of finished reads, and background work only when nothing else is to be done.
   */
  lemma PrioritiesKept(run: seq<Label>, k: nat)
    requires Run(Initial(), run).Some? && k < |run|
    ensures Run(Initial(), run[..k]).Some?
    ensures var s, before := Run(Initial(), run[..k]).value, run[..k];
            && (run[k] == BreakLoop ==> Shutdown in before)
            && (run[k] == TakeCall ==> Shutdown !in before && |s.received| < |Sends(before)|)
            && (run[k].Join? && Shutdown !in before ==> s.received == Sends(before))
            && (run[k].Join? && s.phase == Idle ==> Shutdown !in before && s.received == Sends(before))
            && (run[k].TakeBackground? ==>
                  Shutdown !in before && s.received == Sends(before) && EveryReadJoined(s))
  {
    RunUpTo(Initial(), run, k);
    var before := run[..k];
    var s := Run(Initial(), before).value;
    ShutdownIsSignalled(Initial(), before);
    WaitingCalls(before);
    if run[k].TakeBackground? {
      forall w | 0 <= w < |s.workers| && s.workers[w].stage == Finished ensures s.workers[w].joined {
        assert !Joinable(s, w);
      }
    }
    if s.queue == [] {
      assert s.received + s.queue == s.received;
    }
  }

  // ----- every read is served

  /** The places of the read-only calls among the calls received. */
  function ReadPlaces(actions: seq<Action>): seq<nat> {
    if actions == [] then []
    else
      var n := |actions| - 1;
      ReadPlaces(actions[..n]) + if actions[n].Ref? then [n] else []
  }

  function PlacesOf(ws: seq<Worker>): seq<nat> {
    seq(|ws|, i requires 0 <= i < |ws| => ws[i].position)
  }

  lemma PlacesSnoc(ws: seq<Worker>, w: Worker)
    ensures PlacesOf(ws + [w]) == PlacesOf(ws) + [w.position]
  {}

  lemma PlacesPut(ws: seq<Worker>, i: nat, w: Worker)
    requires i < |ws| && w.position == ws[i].position
    ensures PlacesOf(ws[i := w]) == PlacesOf(ws)
  {}

  lemma ReadPlacesSnoc(actions: seq<Action>, a: Action)
    ensures ReadPlaces(actions + [a]) == ReadPlaces(actions) + if a.Ref? then [|actions|] else []
  {
    assert (actions + [a])[..|actions|] == actions;
  }

  lemma StepSpawns(s: State, l: Label)
    requires Enabled(s, l) && PlacesOf(s.workers) == ReadPlaces(s.received)
    ensures PlacesOf(Fire(s, l).workers) == ReadPlaces(Fire(s, l).received)
  {
    if l.TakeCall? {
      PlacesSnoc(s.workers, Worker(Waiting, |s.received|, |s.taken|, 0, [], false));
      ReadPlacesSnoc(s.received, s.queue[0]);
    } else if l.AcquireRead? || l.Observe? || l.FinishRead? || l.Join? {
      PlacesPut(s.workers, l.worker, Fire(s, l).workers[l.worker]);
    }
  }

  lemma {:induction false} SpawnedFrom(s: State, run: seq<Label>)
    requires Run(s, run).Some? && PlacesOf(s.workers) == ReadPlaces(s.received)
    ensures PlacesOf(Run(s, run).value.workers) == ReadPlaces(Run(s, run).value.received)
    decreases |run|
  {
    if run != [] {
      StepSpawns(s, run[0]);
      SpawnedFrom(Fire(s, run[0]), run[1..]);
    }
  }

  /** Each read-only call received has a worker of its own, and there are no others. */
  lemma EveryReadSpawned(run: seq<Label>)
    requires Run(Initial(), run).Some?
    ensures var s := Run(Initial(), run).value;
            PlacesOf(s.workers) == ReadPlaces(s.received)
  {
    SpawnedFrom(Initial(), run);
  }

  // ----- the end

  predicate EndedJoined(s: State) {
    s.phase.Terminated? ==> AllJoined(s)
  }

  lemma StepEnds(s: State, l: Label)
    requires Enabled(s, l) && Sound(s) && EndedJoined(s)
    ensures EndedJoined(Fire(s, l))
  {}

  lemma {:induction false} EndsFrom(s: State, run: seq<Label>)
    requires Run(s, run).Some? && Sound(s) && EndedJoined(s)
    ensures EndedJoined(Run(s, run).value)
    decreases |run|
  {
    if run != [] {
      StepEnds(s, run[0]);
      StepSound(s, run[0]);
      EndsFrom(Fire(s, run[0]), run[1..]);
    }
  }

  /**
   A run that has ended has served every call received: all reads are finished and joined, and the
   subsystem holds the work of all mutating calls, with background work between them, in order.
   */
  lemma EndedServed(run: seq<Label>)
    requires Run(Initial(), run).Some? && Run(Initial(), run).value.phase == Terminated
    ensures var s := Run(Initial(), run).value;
            && (forall w :: 0 <= w < |s.workers| ==> s.workers[w].stage == Finished && s.workers[w].joined)
            && PlacesOf(s.workers) == ReadPlaces(s.received)
            && s.cell == Flat(s.taken) && Calls(s.taken) == MutCalls(s.received)
            && s.received <= Sends(run)
  {
    InitialSound();
    EveryRunSound(run);
    EndsFrom(Initial(), run);
    EveryReadSpawned(run);
    WaitingCalls(run);
  }
}
