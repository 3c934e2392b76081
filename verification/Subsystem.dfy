/**
 The subsystem worker loop as a transition system.

 The main task takes calls off a queue one at a time. A mutating call or a unit of background work
 runs under the write lock before the next call is taken; a read-only call is spawned as a worker
 that holds a clone of the shared reference and reads under the read lock. On shutdown the main
 task joins all workers and takes the subsystem back out of the shared reference.

 Writes are lists of elementary writes, so that a reader could in principle observe a unit half
 done; every interleaving of elementary steps is a run.
 */
module Subsystem {
  import opened Outcomes

  /** What runs under the write lock. */
  datatype Unit = Call(writes: seq<int>) | Background(writes: seq<int>)

  datatype Action = Mut(writes: seq<int>) | Ref

  datatype Stage = Waiting | Reading | Finished

  /**
   A spawned read: where its call stood among the calls received, how many units had been taken
   by then, how many were complete when it got the lock, and what it has observed.
   */
  datatype Worker = Worker(stage: Stage, position: nat, since: nat, prefix: nat, observed: seq<seq<int>>, joined: bool)

  datatype Phase = Idle | Acquiring(unit: Unit) | Writing(unit: Unit, done: nat) | Draining | Terminated

  datatype State = State(
    phase: Phase,
    shutdown: bool,
    queue: seq<Action>,
    received: seq<Action>,
    taken: seq<Unit>,
    cell: seq<int>,
    workers: seq<Worker>,
    lockReaders: int,
    lockWriter: bool,
    references: int
  )

  function Initial(): State {
    State(Idle, false, [], [], [], [], [], 0, false, 1)
  }

  /** One step of the environment, the main task or a worker. */
  datatype Label =
    | Send(action: Action)
    | Shutdown
    | TakeCall
    | TakeBackground(writes: seq<int>)
    | AcquireWrite
    | WriteOne
    | ReleaseWrite
    | AcquireRead(worker: nat)
    | Observe(worker: nat)
    | FinishRead(worker: nat)
    | Join(worker: nat)
    | BreakLoop
    | Unwrap

  predicate Joinable(s: State, w: nat) {
    w < |s.workers| && s.workers[w].stage.Finished? && !s.workers[w].joined
  }

  predicate AnyJoinable(s: State) {
    exists w :: 0 <= w < |s.workers| && Joinable(s, w)
  }

  predicate AllJoined(s: State) {
    forall w :: 0 <= w < |s.workers| ==> s.workers[w].joined
  }

  /** The units that are complete; the one being worked on is the last taken. */
  function Complete(s: State): seq<Unit> {
    if (s.phase.Acquiring? || s.phase.Writing?) && s.taken != [] then s.taken[..|s.taken| - 1] else s.taken
  }

  // ----- the effect of each step

  function TakeMut(s: State): State
    requires s.queue != [] && s.queue[0].Mut?
  {
    s.(queue := s.queue[1..], received := s.received + [s.queue[0]],
       phase := Acquiring(Call(s.queue[0].writes)), taken := s.taken + [Call(s.queue[0].writes)])
  }

  /** A read-only call is spawned with a clone of the shared reference. */
  function SpawnRef(s: State): State
    requires s.queue != []
  {
    s.(queue := s.queue[1..], received := s.received + [s.queue[0]],
       workers := s.workers + [Worker(Waiting, |s.received|, |s.taken|, 0, [], false)], references := s.references + 1)
  }

  function StartBackground(s: State, writes: seq<int>): State {
    s.(phase := Acquiring(Background(writes)), taken := s.taken + [Background(writes)])
  }

  function GrantWrite(s: State): State
    requires s.phase.Acquiring?
  {
    s.(phase := Writing(s.phase.unit, 0), lockWriter := true)
  }

  function WriteNext(s: State): State
    requires s.phase.Writing? && s.phase.done < |s.phase.unit.writes|
  {
    s.(cell := s.cell + [s.phase.unit.writes[s.phase.done]], phase := Writing(s.phase.unit, s.phase.done + 1))
  }

  function DropWrite(s: State): State {
    s.(phase := Idle, lockWriter := false)
  }

  function PutWorker(s: State, i: nat, w: Worker): State
    requires i < |s.workers|
  {
    s.(workers := s.workers[i := w])
  }

  function GrantRead(s: State, i: nat): State
    requires i < |s.workers|
  {
    PutWorker(s, i, s.workers[i].(stage := Reading, prefix := |Complete(s)|)).(lockReaders := s.lockReaders + 1)
  }

  function ObserveCell(s: State, i: nat): State
    requires i < |s.workers|
  {
    PutWorker(s, i, s.workers[i].(observed := s.workers[i].observed + [s.cell]))
  }

  /** A finished worker has released the lock and dropped its reference. */
  function DropRead(s: State, i: nat): State
    requires i < |s.workers|
  {
    PutWorker(s, i, s.workers[i].(stage := Finished)).(lockReaders := s.lockReaders - 1, references := s.references - 1)
  }

  function MarkJoined(s: State, i: nat): State
    requires i < |s.workers|
  {
    PutWorker(s, i, s.workers[i].(joined := true))
  }

  // ----- when each step is possible

  predicate HasStage(s: State, i: nat, stage: Stage) {
    i < |s.workers| && s.workers[i].stage == stage
  }

  /** The selection of the main loop is biased: shutdown, then calls, then joins, then background work. */
  predicate Enabled(s: State, l: Label) {
    match l
    case Send(_) => true
    case Shutdown => true
    case TakeCall => s.phase.Idle? && !s.shutdown && s.queue != []
    case TakeBackground(_) => s.phase.Idle? && !s.shutdown && s.queue == [] && !AnyJoinable(s)
    case AcquireWrite => s.phase.Acquiring? && !s.lockWriter && s.lockReaders == 0
    case WriteOne => s.phase.Writing? && s.phase.done < |s.phase.unit.writes|
    case ReleaseWrite => s.phase.Writing? && s.phase.done >= |s.phase.unit.writes|
    case AcquireRead(i) => HasStage(s, i, Waiting) && !s.lockWriter
    case Observe(i) => HasStage(s, i, Reading)
    case FinishRead(i) => HasStage(s, i, Reading)
    case Join(i) => Joinable(s, i) && (s.phase.Draining? || (s.phase.Idle? && !s.shutdown && s.queue == []))
    case BreakLoop => s.phase.Idle? && s.shutdown
    case Unwrap => s.phase.Draining? && AllJoined(s)
  }

  function Fire(s: State, l: Label): State
    requires Enabled(s, l)
  {
    match l
    case Send(action) => s.(queue := s.queue + [action])
    case Shutdown => s.(shutdown := true)
    case TakeCall => if s.queue[0].Mut? then TakeMut(s) else SpawnRef(s)
    case TakeBackground(writes) => StartBackground(s, writes)
    case AcquireWrite => GrantWrite(s)
    case WriteOne => WriteNext(s)
    case ReleaseWrite => DropWrite(s)
    case AcquireRead(i) => GrantRead(s, i)
    case Observe(i) => ObserveCell(s, i)
    case FinishRead(i) => DropRead(s, i)
    case Join(i) => MarkJoined(s, i)
    case BreakLoop => s.(phase := Draining)
    case Unwrap => s.(phase := Terminated)
  }

  /** The state after a run, if every step of it is possible. */
  function Run(s: State, run: seq<Label>): Option<State>
    decreases |run|
  {
    if run == [] then Some(s)
    else if !Enabled(s, run[0]) then None
    else Run(Fire(s, run[0]), run[1..])
  }

  // ----- counting workers

  function Active(ws: seq<Worker>): nat {
    if ws == [] then 0 else Active(ws[..|ws| - 1]) + if ws[|ws| - 1].stage.Finished? then 0 else 1
  }

  function Readers(ws: seq<Worker>): nat {
    if ws == [] then 0 else Readers(ws[..|ws| - 1]) + if ws[|ws| - 1].stage.Reading? then 1 else 0
  }

  lemma CountsAppend(ws: seq<Worker>, w: Worker)
    ensures Active(ws + [w]) == Active(ws) + if w.stage.Finished? then 0 else 1
    ensures Readers(ws + [w]) == Readers(ws) + if w.stage.Reading? then 1 else 0
  {
    assert (ws + [w])[..|ws|] == ws;
  }

  lemma {:induction false} CountsUpdate(ws: seq<Worker>, i: nat, w: Worker)
    requires i < |ws|
    ensures Active(ws[i := w]) - Active(ws) ==
            (if w.stage.Finished? then 0 else 1) - (if ws[i].stage.Finished? then 0 else 1)
    ensures Readers(ws[i := w]) - Readers(ws) ==
            (if w.stage.Reading? then 1 else 0) - (if ws[i].stage.Reading? then 1 else 0)
    decreases |ws|
  {
    var n := |ws| - 1;
    if i < n {
      assert ws[i := w][..n] == ws[..n][i := w];
      CountsUpdate(ws[..n], i, w);
    } else {
      assert ws[i := w][..n] == ws[..n];
    }
  }

  lemma {:induction false} NoReaders(ws: seq<Worker>, i: nat)
    requires Readers(ws) == 0 && i < |ws|
    ensures !ws[i].stage.Reading?
  {
    if i < |ws| - 1 {
      NoReaders(ws[..|ws| - 1], i);
    }
  }

  lemma {:induction false} SomeReader(ws: seq<Worker>) returns (i: nat)
    requires Readers(ws) > 0
    ensures i < |ws| && ws[i].stage.Reading?
  {
    var n := |ws| - 1;
    if ws[n].stage.Reading? {
      i := n;
    } else {
      i := SomeReader(ws[..n]);
    }
  }

  lemma {:induction false} AllFinished(ws: seq<Worker>)
    requires forall i :: 0 <= i < |ws| ==> ws[i].stage.Finished?
    ensures Active(ws) == 0
  {
    if ws != [] {
      AllFinished(ws[..|ws| - 1]);
    }
  }

  // ----- what the units have written

  function Flat(units: seq<Unit>): seq<int> {
    if units == [] then [] else Flat(units[..|units| - 1]) + units[|units| - 1].writes
  }

  /** The mutating calls among the actions received, and among the units taken. */
  function MutCalls(actions: seq<Action>): seq<seq<int>> {
    if actions == [] then []
    else
      var last := actions[|actions| - 1];
      MutCalls(actions[..|actions| - 1]) + if last.Mut? then [last.writes] else []
  }

  function Calls(units: seq<Unit>): seq<seq<int>> {
    if units == [] then []
    else Calls(units[..|units| - 1]) + if units[|units| - 1].Call? then [units[|units| - 1].writes] else []
  }

  /** The subsystem holds the complete units in the order taken, and a part of the one being written. */
  predicate CellSound(s: State) {
    && ((s.phase.Acquiring? || s.phase.Writing?) ==> s.taken != [] && s.taken[|s.taken| - 1] == s.phase.unit)
    && (s.phase.Writing? ==> s.phase.done <= |s.phase.unit.writes|)
    && s.cell == Flat(Complete(s)) + if s.phase.Writing? then s.phase.unit.writes[..s.phase.done] else []
  }

  /** Lock and reference count tell the truth about the main task and the workers. */
  predicate LockSound(s: State) {
    && s.lockReaders == Readers(s.workers)
    && (s.lockWriter <==> s.phase.Writing?)
    && (s.lockWriter ==> s.lockReaders == 0)
    && s.references == 1 + Active(s.workers)
    && forall i :: 0 <= i < |s.workers| ==> s.workers[i].joined ==> s.workers[i].stage.Finished?
  }

  /**
   A worker's view: one whole prefix of the units taken, which includes every unit taken before
   its call was received, and among them exactly the mutating calls received before it.
   */
  predicate WorkerSound(s: State, w: Worker) {
    && w.position < |s.received| && w.since <= |Complete(s)|
    && Calls(s.taken[..w.since]) == MutCalls(s.received[..w.position])
    && (w.stage.Waiting? ==> w.observed == [])
    && (!w.stage.Waiting? ==> w.since <= w.prefix <= |Complete(s)|)
    && (w.stage.Reading? ==> w.prefix == |Complete(s)|)
    && (forall k :: 0 <= k < |w.observed| ==> w.observed[k] == Flat(s.taken[..w.prefix]))
  }

  ghost predicate Sound(s: State) {
    && CellSound(s) && LockSound(s)
    && Calls(s.taken) == MutCalls(s.received)
    && WorkersSound(s)
  }

  lemma InitialSound()
    ensures Sound(Initial())
  {}

  lemma FlatSnoc(units: seq<Unit>, u: Unit)
    ensures Flat(units + [u]) == Flat(units) + u.writes
    ensures Calls(units + [u]) == Calls(units) + if u.Call? then [u.writes] else []
  {
    assert (units + [u])[..|units|] == units;
  }

  lemma MutCallsSnoc(actions: seq<Action>, a: Action)
    ensures MutCalls(actions + [a]) == MutCalls(actions) + if a.Mut? then [a.writes] else []
  {
    assert (actions + [a])[..|actions|] == actions;
  }

  /** A worker's view does not change when more is received and taken and no unit is completed. */
  lemma WorkerStays(s: State, s': State, w: Worker)
    requires WorkerSound(s, w)
    requires s.received <= s'.received && s.taken <= s'.taken
    requires |Complete(s)| <= |Complete(s')| && (w.stage.Reading? ==> |Complete(s)| == |Complete(s')|)
    ensures WorkerSound(s', w)
  {
    assert s'.received[..w.position] == s.received[..w.position];
    assert s'.taken[..w.since] == s.taken[..w.since];
    if !w.stage.Waiting? {
      assert s'.taken[..w.prefix] == s.taken[..w.prefix];
    }
  }

  // ----- every step keeps the invariant

  ghost predicate WorkersSound(s: State) {
    forall i :: 0 <= i < |s.workers| ==> WorkerSound(s, s.workers[i])
  }

  /** Workers are not affected when more is received and taken and no unit is completed under a reader. */
  lemma WorkersStay(s: State, s': State)
    requires WorkersSound(s) && s'.workers == s.workers
    requires s.received <= s'.received && s.taken <= s'.taken
    requires |Complete(s)| <= |Complete(s')| && (Readers(s.workers) == 0 || |Complete(s)| == |Complete(s')|)
    ensures WorkersSound(s')
  {
    forall i | 0 <= i < |s.workers| ensures WorkerSound(s', s'.workers[i]) {
      if Readers(s.workers) == 0 {
        NoReaders(s.workers, i);
      }
      WorkerStays(s, s', s.workers[i]);
    }
  }

  /** Nor are the others when one worker moves. */
  lemma WorkerMoves(s: State, s': State, j: nat)
    requires WorkersSound(s) && j < |s.workers| == |s'.workers|
    requires s'.workers == s.workers[j := s'.workers[j]]
    requires s.received == s'.received && s.taken == s'.taken && s.phase == s'.phase
    requires WorkerSound(s', s'.workers[j])
    ensures WorkersSound(s')
  {
    forall i | 0 <= i < |s.workers| ensures WorkerSound(s', s'.workers[i]) {
      if i != j {
        WorkerStays(s, s', s.workers[i]);
      }
    }
  }

  lemma TakeMutSound(s: State)
    requires Sound(s) && s.phase.Idle? && s.queue != [] && s.queue[0].Mut?
    ensures Sound(TakeMut(s))
  {
    var s', unit := TakeMut(s), Call(s.queue[0].writes);
    MutCallsSnoc(s.received, s.queue[0]);
    FlatSnoc(s.taken, unit);
    assert Complete(s') == s.taken;
    WorkersStay(s, s');
  }

  lemma SpawnedSound(s: State)
    requires Sound(s) && s.phase.Idle? && s.queue != [] && s.queue[0].Ref?
    ensures WorkersSound(SpawnRef(s))
  {
    var s' := SpawnRef(s);
    var w := s'.workers[|s.workers|];
    assert s.taken[..|s.taken|] == s.taken && s'.received[..|s.received|] == s.received;
    assert WorkerSound(s', w);
    WorkersStay(s, s'.(workers := s.workers));
    forall i | 0 <= i < |s.workers| ensures WorkerSound(s', s'.workers[i]) {
      assert WorkerSound(s'.(workers := s.workers), s.workers[i]);
    }
  }

  lemma SpawnedLocks(s: State)
    requires LockSound(s) && s.queue != []
    ensures LockSound(SpawnRef(s))
  {
    CountsAppend(s.workers, SpawnRef(s).workers[|s.workers|]);
  }

  lemma SpawnRefSound(s: State)
    requires Sound(s) && s.phase.Idle? && s.queue != [] && s.queue[0].Ref?
    ensures Sound(SpawnRef(s))
  {
    MutCallsSnoc(s.received, s.queue[0]);
    SpawnedLocks(s);
    SpawnedSound(s);
  }

  lemma StartBackgroundSound(s: State, writes: seq<int>)
    requires Sound(s) && s.phase.Idle?
    ensures Sound(StartBackground(s, writes))
  {
    var s' := StartBackground(s, writes);
    FlatSnoc(s.taken, Background(writes));
    assert Complete(s') == s.taken;
    WorkersStay(s, s');
  }

  lemma GrantWriteSound(s: State)
    requires Sound(s) && s.phase.Acquiring? && s.lockReaders == 0
    ensures Sound(GrantWrite(s))
  {
    WorkersStay(s, GrantWrite(s));
  }

  lemma WriteNextCell(s: State)
    requires CellSound(s) && s.phase.Writing? && s.phase.done < |s.phase.unit.writes|
    ensures CellSound(WriteNext(s)) && Complete(WriteNext(s)) == Complete(s)
  {
    var writes, done := s.phase.unit.writes, s.phase.done;
    assert writes[..done] + [writes[done]] == writes[..done + 1];
  }

  lemma WriteNextSound(s: State)
    requires Sound(s) && s.phase.Writing? && s.phase.done < |s.phase.unit.writes|
    ensures Sound(WriteNext(s))
  {
    WriteNextCell(s);
    WorkersStay(s, WriteNext(s));
  }

  lemma DropWriteSound(s: State)
    requires Sound(s) && s.phase.Writing? && s.phase.done >= |s.phase.unit.writes|
    ensures Sound(DropWrite(s))
  {
    var unit := s.phase.unit;
    assert s.taken == Complete(s) + [unit];
    FlatSnoc(Complete(s), unit);
    assert unit.writes[..s.phase.done] == unit.writes;
    WorkersStay(s, DropWrite(s));
  }

  lemma GrantReadSound(s: State, i: nat)
    requires Sound(s) && HasStage(s, i, Waiting) && !s.lockWriter
    ensures Sound(GrantRead(s, i))
  {
    var s' := GrantRead(s, i);
    CountsUpdate(s.workers, i, s'.workers[i]);
    assert WorkerSound(s, s.workers[i]);
    assert WorkerSound(s', s'.workers[i]);
    WorkerMoves(s, s', i);
  }

  lemma ObserveSound(s: State, i: nat)
    requires Sound(s) && HasStage(s, i, Reading)
    ensures Sound(ObserveCell(s, i))
  {
    var s' := ObserveCell(s, i);
    CountsUpdate(s.workers, i, s'.workers[i]);
    assert WorkerSound(s, s.workers[i]);
    if s.phase.Writing? {
      NoReaders(s.workers, i);
    }
    assert s.taken[..|Complete(s)|] == Complete(s);
    assert WorkerSound(s', s'.workers[i]);
    WorkerMoves(s, s', i);
  }

  lemma DropReadSound(s: State, i: nat)
    requires Sound(s) && HasStage(s, i, Reading)
    ensures Sound(DropRead(s, i))
  {
    var s' := DropRead(s, i);
    CountsUpdate(s.workers, i, s'.workers[i]);
    assert WorkerSound(s, s.workers[i]);
    if s.phase.Writing? {
      NoReaders(s.workers, i);
    }
    assert WorkerSound(s', s'.workers[i]);
    WorkerMoves(s, s', i);
  }

  lemma MarkJoinedSound(s: State, i: nat)
    requires Sound(s) && Joinable(s, i)
    ensures Sound(MarkJoined(s, i))
  {
    var s' := MarkJoined(s, i);
    CountsUpdate(s.workers, i, s'.workers[i]);
    assert WorkerSound(s, s.workers[i]);
    assert WorkerSound(s', s'.workers[i]);
    WorkerMoves(s, s', i);
  }

  /** Steps that touch neither the units nor the workers. */
  lemma AsideSound(s: State, s': State)
    requires Sound(s)
    requires s' == s.(phase := s'.phase, shutdown := s'.shutdown, queue := s'.queue)
    requires || s'.phase == s.phase
             || (!s.phase.Acquiring? && !s.phase.Writing? && !s'.phase.Acquiring? && !s'.phase.Writing?)
    ensures Sound(s')
  {
    WorkersStay(s, s');
  }

  lemma StepSound(s: State, l: Label)
    requires Sound(s) && Enabled(s, l)
    ensures Sound(Fire(s, l))
  {
    match l
    case TakeCall => if s.queue[0].Mut? { TakeMutSound(s); } else { SpawnRefSound(s); }
    case TakeBackground(writes) => StartBackgroundSound(s, writes);
    case AcquireWrite => GrantWriteSound(s);
    case WriteOne => WriteNextSound(s);
    case ReleaseWrite => DropWriteSound(s);
    case AcquireRead(i) => GrantReadSound(s, i);
    case Observe(i) => ObserveSound(s, i);
    case FinishRead(i) => DropReadSound(s, i);
    case Join(i) => MarkJoinedSound(s, i);
    case _ => AsideSound(s, Fire(s, l));
  }

  lemma {:induction false} RunSoundFrom(s: State, run: seq<Label>)
    requires Sound(s) && Run(s, run).Some?
    ensures Sound(Run(s, run).value)
    decreases |run|
  {
    if run != [] {
      StepSound(s, run[0]);
      RunSoundFrom(Fire(s, run[0]), run[1..]);
    }
  }

  /** Every interleaving keeps the invariant. */
  lemma EveryRunSound(run: seq<Label>)
    requires Run(Initial(), run).Some?
    ensures Sound(Run(Initial(), run).value)
  {
    InitialSound();
    RunSoundFrom(Initial(), run);
  }

  // ----- what follows for every run

  /**
   The subsystem holds the first `whole` units taken, and of the next one the first `part` writes.
   No unit is missing: all but the last are whole, and so is the last unless the main task is at it.
   */
  predicate HoldsUnits(s: State, whole: nat, part: nat) {
    && whole <= |s.taken| <= whole + 1
    && (!s.phase.Acquiring? && !s.phase.Writing? ==> whole == |s.taken|)
    && (part == 0 || (whole < |s.taken| && part <= |s.taken[whole].writes|))
    && s.cell == Flat(s.taken[..whole]) + if part == 0 then [] else s.taken[whole].writes[..part]
  }

  /** Units run one at a time in the order taken: whole units, then a part of at most one more. */
  lemma WritesAreSerial(run: seq<Label>)
    requires Run(Initial(), run).Some?
    ensures var s := Run(Initial(), run).value;
            exists whole: nat, part: nat :: HoldsUnits(s, whole, part)
  {
    EveryRunSound(run);
    var s := Run(Initial(), run).value;
    var whole, part := |Complete(s)|, if s.phase.Writing? then s.phase.done else 0;
    assert s.taken[..whole] == Complete(s);
    assert HoldsUnits(s, whole, part);
  }

  /**
   All that one read observes is one state, the result of a whole prefix of the units taken. The
   prefix contains every unit taken before the read was received, so every mutating call received
   before it.
   */
  lemma ReadsSeeOnePrefix(run: seq<Label>, i: nat)
    requires Run(Initial(), run).Some? && i < |Run(Initial(), run).value.workers|
    ensures var s := Run(Initial(), run).value;
            var w := s.workers[i];
            && w.since <= |s.taken| && w.position < |s.received|
            && Calls(s.taken[..w.since]) == MutCalls(s.received[..w.position])
            && (w.observed != [] ==>
                  && w.since <= w.prefix <= |s.taken|
                  && forall k :: 0 <= k < |w.observed| ==> w.observed[k] == Flat(s.taken[..w.prefix]))
  {
    EveryRunSound(run);
    var s := Run(Initial(), run).value;
    assert WorkerSound(s, s.workers[i]);
  }

  /** When the loop is done joining, the reference count is one, so the subsystem can be taken out. */
  lemma UnwrapSucceeds(run: seq<Label>)
    requires Run(Initial(), run).Some? && Enabled(Run(Initial(), run).value, Unwrap)
    ensures var s := Run(Initial(), run).value;
            s.references == 1 && !s.lockWriter && s.lockReaders == 0 && s.cell == Flat(s.taken)
  {
    EveryRunSound(run);
    var s := Run(Initial(), run).value;
    AllFinished(s.workers);
    NobodyReads(s.workers);
  }

  lemma {:induction false} NobodyReads(ws: seq<Worker>)
    requires forall i :: 0 <= i < |ws| ==> ws[i].stage.Finished?
    ensures Readers(ws) == 0
  {
    if ws != [] {
      NobodyReads(ws[..|ws| - 1]);
    }
  }

  // ----- order of calls

  function SentBy(l: Label): seq<Action> {
    if l.Send? then [l.action] else []
  }

  function Sends(run: seq<Label>): seq<Action> {
    if run == [] then [] else SentBy(run[0]) + Sends(run[1..])
  }

  /** All calls so far: those received, then those still queued. */
  function AllCalls(s: State): seq<Action> {
    s.received + s.queue
  }

  lemma StepOrder(s: State, l: Label)
    requires Enabled(s, l)
    ensures AllCalls(Fire(s, l)) == AllCalls(s) + SentBy(l)
  {
    if l.TakeCall? {
      assert s.queue == [s.queue[0]] + s.queue[1..];
    }
  }

  /** Calls are received in the order sent, none lost and none made up; the rest is still queued. */
  lemma {:induction false} ReceivedInOrder(s: State, run: seq<Label>)
    requires Run(s, run).Some?
    ensures AllCalls(Run(s, run).value) == AllCalls(s) + Sends(run)
    decreases |run|
  {
    if run != [] {
      StepOrder(s, run[0]);
      ReceivedInOrder(Fire(s, run[0]), run[1..]);
      Regroup(AllCalls(s), SentBy(run[0]), Sends(run[1..]));
    }
  }

  lemma Regroup(a: seq<Action>, b: seq<Action>, c: seq<Action>)
    ensures (a + b) + c == a + (b + c)
  {}

  // ----- progress

  /** Nothing to do but wait for a call, a shutdown or background work. */
  predicate AtRest(s: State) {
    s.phase.Idle? && !s.shutdown && s.queue == []
  }

  lemma SomeUnjoined(s: State) returns (w: nat)
    requires !AllJoined(s)
    ensures w < |s.workers| && !s.workers[w].joined
  {
    w :| 0 <= w < |s.workers| && !s.workers[w].joined;
  }

  /** No deadlock: unless it is at rest or has terminated, the main task or a worker can move. */
  lemma SomeoneCanMove(s: State) returns (l: Label)
    requires Sound(s) && !s.phase.Terminated? && !AtRest(s)
    ensures !l.Send? && !l.Shutdown? && !l.Observe? && Enabled(s, l)
  {
    match s.phase
    case Idle => l := if s.shutdown then BreakLoop else TakeCall;
    case Acquiring(_) =>
      if s.lockReaders == 0 {
        l := AcquireWrite;
      } else {
        var w := SomeReader(s.workers);
        l := FinishRead(w);
      }
    case Writing(unit, done) => l := if done < |unit.writes| then WriteOne else ReleaseWrite;
    case Draining =>
      if AllJoined(s) {
        l := Unwrap;
      } else {
        var w := SomeUnjoined(s);
        match s.workers[w].stage {
          case Waiting => l := AcquireRead(w);
          case Reading => l := FinishRead(w);
          case Finished => l := Join(w);
        }
      }
  }

  function WorkOf(w: Worker): nat {
    match w.stage
    case Waiting => 3
    case Reading => 2
    case Finished => if w.joined then 0 else 1
  }

  function Work(ws: seq<Worker>): nat {
    if ws == [] then 0 else Work(ws[..|ws| - 1]) + WorkOf(ws[|ws| - 1])
  }

  /** Steps left once shutdown has been signalled, not counting what reads observe. */
  function StepsLeft(s: State): nat {
    Work(s.workers) +
    match s.phase
    case Idle => 2
    case Acquiring(unit) => 4 + |unit.writes|
    case Writing(unit, done) => if done <= |unit.writes| then 3 + |unit.writes| - done else 3
    case Draining => 1
    case Terminated => 0
  }

  lemma {:induction false} WorkUpdate(ws: seq<Worker>, i: nat, w: Worker)
    requires i < |ws|
    ensures Work(ws[i := w]) - Work(ws) == WorkOf(w) - WorkOf(ws[i])
    decreases |ws|
  {
    var n := |ws| - 1;
    if i < n {
      assert ws[i := w][..n] == ws[..n][i := w];
      WorkUpdate(ws[..n], i, w);
    } else {
      assert ws[i := w][..n] == ws[..n];
    }
  }

  /** A step of the main task or a worker, other than an observation. */
  predicate Moves(l: Label) {
    !l.Send? && !l.Shutdown? && !l.Observe?
  }

  function MoveCount(run: seq<Label>): nat {
    if run == [] then 0 else (if Moves(run[0]) then 1 else 0) + MoveCount(run[1..])
  }

  /** After the shutdown signal every move leaves fewer to go, and nothing else adds to them. */
  lemma StepAfterShutdown(s: State, l: Label)
    requires s.shutdown && Enabled(s, l)
    ensures StepsLeft(Fire(s, l)) + (if Moves(l) then 1 else 0) <= StepsLeft(s) && Fire(s, l).shutdown
  {
    var s' := Fire(s, l);
    if l.AcquireRead? || l.FinishRead? || l.Join? || l.Observe? {
      WorkUpdate(s.workers, l.worker, s'.workers[l.worker]);
    }
  }

  /**
   However calls keep arriving, a run after the shutdown signal has a bounded number of moves, and
   takes no call any more.
   */
  lemma {:induction false} ShutdownTerminates(s: State, run: seq<Label>)
    requires s.shutdown && Run(s, run).Some?
    ensures MoveCount(run) + StepsLeft(Run(s, run).value) <= StepsLeft(s)
    ensures Run(s, run).value.received == s.received
    decreases |run|
  {
    if run != [] {
      StepAfterShutdown(s, run[0]);
      ShutdownTerminates(Fire(s, run[0]), run[1..]);
    }
  }
}
