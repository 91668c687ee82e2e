/**
 The helper's engine lifecycle: starts and stops sharing one locked session slot, each started
 worker preparing, running and cleaning up in its own task. One step is one atomic piece of any
 of them, so a run is any interleaving, including stops abandoned while they wait.
 */
module Runner {
  import opened Basics

  datatype Public = Disconnected | Connecting | Connected

  datatype Phase =
    | Preparing
    | Prepared
    | Running
    | Cleaning
    | Ending(ran: bool)    // about to publish Disconnected
    | Published            // has published it, not yet seen as finished
    | Finished

  /** `permit` is the stored notification; `asked` is history: some stop has cancelled it. */
  datatype Worker = Worker(phase: Phase, permit: bool, asked: bool)

  datatype StartPoint = Checked | Announced | Spawned

  datatype Lock = Free | Starting(worker: nat, at: StartPoint) | Stopping(call: nat)

  datatype Stop =
    | Waiting
    | Locked
    | Draining(worker: nat)
    | Drained(joined: Option<nat>)
    | Cleared(joined: Option<nat>)
    | Returned(joined: Option<nat>)
    | Abandoned

  datatype State = State(
    lock: Lock,
    slot: Option<nat>,
    workers: map<nat, Worker>,
    stops: map<nat, Stop>,
    public: Public)

  function Init(): State { State(Free, None, map[], map[], Disconnected) }

  datatype Step =
    | StartTry(worker: nat)
    | StartAnnounce
    | StartSpawn
    | StartStore
    | StopCall(call: nat)
    | StopLock(call: nat)
    | StopCancel(call: nat)
    | StopJoin(call: nat)
    | StopClear(call: nat)
    | StopPublish(call: nat)
    | StopAbandon(call: nat)
    | CancelStartup(worker: nat)
    | PrepareDone(worker: nat, ok: bool)
    | Announce(worker: nat)
    | SeeCancel(worker: nat)
    | EngineExit(worker: nat)
    | CleanedUp(worker: nat)
    | PublishEnd(worker: nat)
    | Finish(worker: nat)

  predicate Busy(s: State, w: nat) { w in s.workers && !s.workers[w].phase.Finished? }

  predicate At(s: State, w: nat, p: Phase) { w in s.workers && s.workers[w].phase == p }

  predicate Calls(s: State, c: nat) { c in s.stops && s.lock == Stopping(c) }

  predicate Can(s: State, step: Step) {
    match step
    case StartTry(w) => w !in s.workers
    case StartAnnounce => s.lock.Starting? && s.lock.at.Checked?
    case StartSpawn => s.lock.Starting? && s.lock.at.Announced?
    case StartStore => s.lock.Starting? && s.lock.at.Spawned?
    case StopCall(c) => c !in s.stops
    case StopLock(c) => c in s.stops && s.stops[c].Waiting? && s.lock.Free?
    case StopCancel(c) => Calls(s, c) && s.stops[c].Locked?
    case StopJoin(c) => Calls(s, c) && s.stops[c].Draining? && At(s, s.stops[c].worker, Finished)
    case StopClear(c) => Calls(s, c) && s.stops[c].Drained?
    case StopPublish(c) => Calls(s, c) && s.stops[c].Cleared?
    case StopAbandon(c) => c in s.stops && (s.stops[c].Waiting? || s.stops[c].Draining?)
    case CancelStartup(w) => At(s, w, Preparing) && s.workers[w].permit
    case PrepareDone(w, _) => At(s, w, Preparing)
    case Announce(w) => At(s, w, Prepared)
    case SeeCancel(w) => At(s, w, Running) && s.workers[w].permit
    case EngineExit(w) => At(s, w, Running)
    case CleanedUp(w) => At(s, w, Cleaning)
    case PublishEnd(w) => w in s.workers && s.workers[w].phase.Ending?
    case Finish(w) => At(s, w, Published)
  }

  function Goes(s: State, w: nat, p: Phase): State
    requires w in s.workers
  {
    s.(workers := s.workers[w := s.workers[w].(phase := p)])
  }

  function Takes(s: State, w: nat, p: Phase): State
    requires w in s.workers
  {
    s.(workers := s.workers[w := s.workers[w].(phase := p, permit := false)])
  }

  function Now(s: State, c: nat, stop: Stop): State { s.(stops := s.stops[c := stop]) }

  function Cancelled(s: State, w: nat): State
    requires w in s.workers
  {
    s.(workers := s.workers[w := s.workers[w].(permit := true, asked := true)])
  }

  /** A start that finds the lock taken, or the slot's worker unfinished, is refused. */
  predicate Refused(s: State) { !s.lock.Free? || (s.slot.Some? && Busy(s, s.slot.value)) }

  function Next(s: State, step: Step): State
    requires Can(s, step)
  {
    match step
    case StartTry(w) => if Refused(s) then s else s.(lock := Starting(w, Checked))
    case StartAnnounce => s.(public := Connecting, lock := s.lock.(at := Announced))
    case StartSpawn =>
      s.(workers := s.workers[s.lock.worker := Worker(Preparing, false, false)], lock := s.lock.(at := Spawned))
    case StartStore => s.(slot := Some(s.lock.worker), lock := Free)
    case StopCall(c) => Now(s, c, Waiting)
    case StopLock(c) => Now(s, c, Locked).(lock := Stopping(c))
    case StopCancel(c) =>
      if s.slot.Some? && s.slot.value in s.workers then Now(Cancelled(s, s.slot.value), c, Draining(s.slot.value))
      else Now(s, c, Drained(None))
    case StopJoin(c) => Now(s, c, Drained(Some(s.stops[c].worker)))
    case StopClear(c) => Now(s, c, Cleared(s.stops[c].joined)).(slot := None)
    case StopPublish(c) => Now(s, c, Returned(s.stops[c].joined)).(public := Disconnected, lock := Free)
    case StopAbandon(c) =>
      Now(s, c, Abandoned).(lock := if s.lock == Stopping(c) then Free else s.lock)
    case CancelStartup(w) => Takes(s, w, Ending(false))
    case PrepareDone(w, ok) => Goes(s, w, if ok then Prepared else Ending(false))
    case Announce(w) => Goes(s, w, Running).(public := Connected)
    case SeeCancel(w) => Takes(s, w, Cleaning)
    case EngineExit(w) => Goes(s, w, Cleaning)
    case CleanedUp(w) => Goes(s, w, Ending(true))
    case PublishEnd(w) => Goes(s, w, Published).(public := Disconnected)
    case Finish(w) => Goes(s, w, Finished)
  }

  // --- invariant -------------------------------------------------------------------------

  /** The worker a start or the slot owns. */
  predicate Owned(s: State, w: nat) { s.slot == Some(w) || s.lock == Starting(w, Spawned) }

  /** What subscribers must see while this worker is at this phase. */
  function Shows(p: Phase): Public {
    match p
    case Preparing => Connecting
    case Prepared => Connecting
    case Running => Connected
    case Cleaning => Connected
    case Ending(ran) => if ran then Connected else Connecting
    case Published => Disconnected
    case Finished => Disconnected
  }

  predicate Quiet(s: State) { forall w :: w in s.workers ==> s.workers[w].phase.Finished? }

  predicate WorkersOk(s: State) {
    && (s.slot.Some? ==> s.slot.value in s.workers)
    && (forall w :: w in s.workers && !s.workers[w].phase.Finished? ==> Owned(s, w))
    && (forall w :: w in s.workers && !s.workers[w].phase.Finished? ==> s.public == Shows(s.workers[w].phase))
    && (forall w :: w in s.workers && s.workers[w].asked
          && (s.workers[w].phase.Preparing? || s.workers[w].phase.Prepared? || s.workers[w].phase.Running?)
          ==> s.workers[w].permit)
  }

  predicate LockOk(s: State) {
    match s.lock
    case Free => Quiet(s) ==> s.public.Disconnected?
    case Starting(w, at) =>
      if at.Spawned? then w in s.workers && (forall v :: v in s.workers && v != w ==> s.workers[v].phase.Finished?)
                          && (s.workers[w].phase.Finished? ==> s.public.Disconnected?)
      else w !in s.workers && Quiet(s) && s.public == if at.Checked? then Disconnected else Connecting
    case Stopping(c) =>
      && c in s.stops
      && (s.stops[c].Locked? || s.stops[c].Draining? || s.stops[c].Drained? || s.stops[c].Cleared?)
      && (Quiet(s) ==> s.public.Disconnected?)
  }

  predicate StopOk(s: State, c: nat)
    requires c in s.stops
  {
    match s.stops[c]
    case Waiting => true
    case Locked => s.lock == Stopping(c)
    case Draining(w) => s.lock == Stopping(c) && s.slot == Some(w) && w in s.workers && s.workers[w].asked
    case Drained(j) => s.lock == Stopping(c) && Quiet(s) && (j.Some? ==> At(s, j.value, Finished))
    case Cleared(j) => s.lock == Stopping(c) && Quiet(s) && s.slot.None? && (j.Some? ==> At(s, j.value, Finished))
    case Returned(j) => j.Some? ==> At(s, j.value, Finished)
    case Abandoned => true
  }

  predicate StopsOk(s: State) { forall c :: c in s.stops ==> StopOk(s, c) }

  predicate Inv(s: State) { WorkersOk(s) && LockOk(s) && StopsOk(s) }

  lemma OnlyOne(s: State, w: nat)
    requires Inv(s) && Busy(s, w)
    ensures forall v :: v in s.workers && v != w ==> s.workers[v].phase.Finished?
  {
  }

  /** A worker's own step, or a cancel, that leaves the slot, the lock and the stops alone. */
  lemma WorkerStepKeeps(s: State, s': State, w: nat)
    requires Inv(s) && Busy(s, w)
    requires s' == s.(workers := s'.workers, public := s'.public)
    requires w in s'.workers && s'.workers == s.workers[w := s'.workers[w]]
    requires s'.public == Shows(s'.workers[w].phase)
    requires s.workers[w].asked == s'.workers[w].asked
    requires s'.workers[w].asked
             && (s'.workers[w].phase.Preparing? || s'.workers[w].phase.Prepared? || s'.workers[w].phase.Running?)
             ==> s'.workers[w].permit
    ensures Inv(s')
  {
    OnlyOne(s, w);
    forall c | c in s'.stops
      ensures StopOk(s', c)
    {
      assert StopOk(s, c);
    }
  }

  lemma WorkerKeeps(s: State, step: Step)
    requires Inv(s) && Can(s, step)
    requires step.CancelStartup? || step.PrepareDone? || step.Announce? || step.SeeCancel? || step.EngineExit?
             || step.CleanedUp? || step.PublishEnd? || step.Finish?
    ensures Inv(Next(s, step))
  {
    hide Inv;
    assert s.public == Shows(s.workers[step.worker].phase) by { WorkerShows(s, step.worker); }
    AskedHasPermit(s, step.worker);
    WorkerStepKeeps(s, Next(s, step), step.worker);
  }

  lemma WorkerShows(s: State, w: nat)
    requires Inv(s) && Busy(s, w)
    ensures s.public == Shows(s.workers[w].phase)
  {
  }

  lemma AskedHasPermit(s: State, w: nat)
    requires Inv(s) && w in s.workers
    ensures s.workers[w].asked
            && (s.workers[w].phase.Preparing? || s.workers[w].phase.Prepared? || s.workers[w].phase.Running?)
            ==> s.workers[w].permit
  {
  }

  lemma StartKeeps(s: State, step: Step)
    requires Inv(s) && Can(s, step)
    requires step.StartTry? || step.StartAnnounce? || step.StartSpawn? || step.StartStore?
    ensures Inv(Next(s, step))
  {
    var s' := Next(s, step);
    forall c | c in s'.stops
      ensures StopOk(s', c)
    {
      assert StopOk(s, c);
    }
  }

  lemma StopKeeps(s: State, step: Step)
    requires Inv(s) && Can(s, step)
    requires step.StopCall? || step.StopLock? || step.StopCancel? || step.StopJoin? || step.StopClear?
             || step.StopPublish? || step.StopAbandon?
    ensures Inv(Next(s, step))
  {
    var s' := Next(s, step);
    if step.call in s.stops { assert StopOk(s, step.call); }
    assert StopOk(s', step.call);
    forall c | c in s'.stops
      ensures StopOk(s', c)
    {
      if c != step.call { assert StopOk(s, c); }
    }
  }

  lemma StepKeeps(s: State, step: Step)
    requires Inv(s) && Can(s, step)
    ensures Inv(Next(s, step))
  {
    hide Inv, Can, Next;
    match step
    case StartTry(_) => StartKeeps(s, step);
    case StartAnnounce => StartKeeps(s, step);
    case StartSpawn => StartKeeps(s, step);
    case StartStore => StartKeeps(s, step);
    case StopCall(_) => StopKeeps(s, step);
    case StopLock(_) => StopKeeps(s, step);
    case StopCancel(_) => StopKeeps(s, step);
    case StopJoin(_) => StopKeeps(s, step);
    case StopClear(_) => StopKeeps(s, step);
    case StopPublish(_) => StopKeeps(s, step);
    case StopAbandon(_) => StopKeeps(s, step);
    case _ => WorkerKeeps(s, step);
  }

  // --- runs ------------------------------------------------------------------------------

  predicate Runs(s: State, steps: seq<Step>, end: State)
    decreases |steps|
  {
    if steps == [] then end == s
    else Can(s, steps[0]) && Runs(Next(s, steps[0]), steps[1..], end)
  }

  lemma {:induction false} RunKeeps(s: State, steps: seq<Step>, end: State)
    requires Inv(s) && Runs(s, steps, end)
    ensures Inv(end)
    decreases |steps|
  {
    hide Inv, Can, Next;
    if steps != [] {
      StepKeeps(s, steps[0]);
      RunKeeps(Next(s, steps[0]), steps[1..], end);
    }
  }

  lemma ReachableKeeps(steps: seq<Step>, s: State)
    requires Runs(Init(), steps, s)
    ensures Inv(s)
  {
    RunKeeps(Init(), steps, s);
  }

  /** At most one worker is between its preparation and the end of its cleanup, and while one is,
      a start is refused unless it is the start that owns it. */
  lemma OneEngineAtATime(steps: seq<Step>, s: State, v: nat, w: nat)
    requires Runs(Init(), steps, s) && Busy(s, v) && Busy(s, w)
    ensures v == w && Refused(s)
  {
    ReachableKeeps(steps, s);
  }

  /** Once a stop has returned, the worker it drained has finished, cleanup included. */
  lemma StopReturnsAfterCleanup(steps: seq<Step>, s: State, c: nat)
    requires Runs(Init(), steps, s) && c in s.stops && s.stops[c].Returned? && s.stops[c].joined.Some?
    ensures At(s, s.stops[c].joined.value, Finished)
  {
    ReachableKeeps(steps, s);
    assert StopOk(s, c);
  }

  /** At the moment a stop returns, no worker at all is left, nothing is in the slot, and
      subscribers see Disconnected. */
  lemma StopLeavesNothing(steps: seq<Step>, s: State, c: nat)
    requires Runs(Init(), steps, s) && Can(s, StopPublish(c))
    ensures var s' := Next(s, StopPublish(c));
            s'.slot.None? && s'.public.Disconnected? && s'.lock.Free? && forall w :: !Busy(s', w)
  {
    ReachableKeeps(steps, s);
    assert StopOk(s, c);
  }

  /** A cancel raised before or during the run is never lost: a worker some stop has asked to end,
      and that has not begun to, holds a notification it will wake up on. */
  lemma CancelIsNotLost(steps: seq<Step>, s: State, w: nat)
    requires Runs(Init(), steps, s) && w in s.workers && s.workers[w].asked
    ensures At(s, w, Preparing) ==> Can(s, CancelStartup(w))
    ensures At(s, w, Prepared) ==> Can(Next(s, Announce(w)), SeeCancel(w))
    ensures At(s, w, Running) ==> Can(s, SeeCancel(w))
  {
    ReachableKeeps(steps, s);
  }

  /** Subscribers never see Disconnected while an engine runs or cleans up; and they do see it
      whenever no worker is left and no start or stop holds the slot. */
  lemma PublicStateIsTrue(steps: seq<Step>, s: State)
    requires Runs(Init(), steps, s)
    ensures forall w :: At(s, w, Running) || At(s, w, Cleaning) ==> s.public.Connected?
    ensures forall w :: At(s, w, Preparing) || At(s, w, Prepared) ==> s.public.Connecting?
    ensures s.lock.Free? && (forall w :: !Busy(s, w)) ==> s.public.Disconnected?
  {
    ReachableKeeps(steps, s);
    if s.lock.Free? && (forall w :: !Busy(s, w)) {
      forall w | w in s.workers ensures s.workers[w].phase.Finished? { assert !Busy(s, w); }
    }
  }

  /** A stop abandoned while it drains leaves its worker owned: the slot still names it, the cancel
      stands, and any start is refused until it has finished. */
  lemma AbandonedStopKeepsOwnership(steps: seq<Step>, s: State, c: nat, w: nat)
    requires Runs(Init(), steps, s) && c in s.stops && s.stops[c] == Draining(w) && Busy(s, w)
    ensures var s' := Next(s, StopAbandon(c));
            s'.slot == Some(w) && s'.lock.Free? && s'.workers[w].asked && Refused(s')
  {
    ReachableKeeps(steps, s);
    assert StopOk(s, c);
  }

  // --- what ordinary calls come to -------------------------------------------------------

  lemma {:induction false} RunOn(s: State, steps: seq<Step>, m: State, step: Step) returns (more: seq<Step>)
    requires Runs(s, steps, m) && Can(m, step)
    ensures more == steps + [step] && Runs(s, more, Next(m, step))
    decreases |steps|
  {
    hide Can, Next;
    more := steps + [step];
    if steps == [] {
      assert more[1..] == [];
    } else {
      var rest := RunOn(Next(s, steps[0]), steps[1..], m, step);
      assert more[1..] == rest;
    }
  }

  /** In every reachable state a start is admitted if and only if no call has the lock and no engine is
      left; otherwise it changes nothing. */
  lemma StartIsAdmittedIff(steps: seq<Step>, s: State, w: nat)
    requires Runs(Init(), steps, s) && Can(s, StartTry(w))
    ensures Next(s, StartTry(w)) == if s.lock.Free? && (forall v :: !Busy(s, v)) then s.(lock := Starting(w, Checked)) else s
  {
    ReachableKeeps(steps, s);
    if s.lock.Free? && s.slot.Some? && Busy(s, s.slot.value) { assert !(forall v :: !Busy(s, v)); }
    if s.lock.Free? && !(forall v :: !Busy(s, v)) {
      var v :| Busy(s, v);
      assert Owned(s, v);
    }
  }

  function StartSteps(w: nat): seq<Step> { [StartTry(w), StartAnnounce, StartSpawn, StartStore] }

  /** The worker a start has made, in this phase, with nothing else going on. */
  function Started(s: State, w: nat, phase: Phase, public: Public): State {
    s.(lock := Free, slot := Some(w), workers := s.workers[w := Worker(phase, false, false)], public := public)
  }

  /** From rest, a start begins a worker; if preparation succeeds its engine runs and subscribers see
      Connected; if it fails, all is at rest again and subscribers see Disconnected. */
  lemma IdleStartRuns(s: State, w: nat)
    requires s.lock.Free? && (forall v :: !Busy(s, v)) && w !in s.workers
    ensures Runs(s, StartSteps(w), Started(s, w, Preparing, Connecting))
    ensures Runs(s, StartSteps(w) + [PrepareDone(w, true), Announce(w)], Started(s, w, Running, Connected))
    ensures Runs(s, StartSteps(w) + [PrepareDone(w, false), PublishEnd(w), Finish(w)], Started(s, w, Finished, Disconnected))
  {
    StartBegins(s, w);
    GoodStart(s, w);
    BadStart(s, w);
    hide *;
    var s4 := Started(s, w, Preparing, Connecting);
    var good := RunOn(s, StartSteps(w), s4, PrepareDone(w, true));
    good := RunOn(s, good, Started(s, w, Prepared, Connecting), Announce(w));
    assert good == StartSteps(w) + [PrepareDone(w, true), Announce(w)];
    var bad := RunOn(s, StartSteps(w), s4, PrepareDone(w, false));
    bad := RunOn(s, bad, Started(s, w, Ending(false), Connecting), PublishEnd(w));
    bad := RunOn(s, bad, Started(s, w, Published, Disconnected), Finish(w));
    assert bad == StartSteps(w) + [PrepareDone(w, false), PublishEnd(w), Finish(w)];
  }

  lemma StartBegins(s: State, w: nat)
    requires s.lock.Free? && (forall v :: !Busy(s, v)) && w !in s.workers
    ensures Runs(s, StartSteps(w), Started(s, w, Preparing, Connecting))
  {
    var s1 := s.(lock := Starting(w, Checked));
    var s2 := s.(lock := Starting(w, Announced), public := Connecting);
    var s3 := s.(lock := Starting(w, Spawned), public := Connecting, workers := s.workers[w := Worker(Preparing, false, false)]);
    var s4 := Started(s, w, Preparing, Connecting);
    assert !Refused(s);
    assert Can(s, StartTry(w)) && Next(s, StartTry(w)) == s1;
    hide Refused, Busy;
    assert Can(s1, StartAnnounce) && Next(s1, StartAnnounce) == s2;
    assert Can(s2, StartSpawn) && Next(s2, StartSpawn) == s3;
    assert Can(s3, StartStore) && Next(s3, StartStore) == s4;
    assert Runs(s, [], s);
    assert StartSteps(w) == [] + [StartTry(w)] + [StartAnnounce] + [StartSpawn] + [StartStore];
    hide *;
    var steps := RunOn(s, [], s, StartTry(w));
    steps := RunOn(s, steps, s1, StartAnnounce);
    steps := RunOn(s, steps, s2, StartSpawn);
    steps := RunOn(s, steps, s3, StartStore);
  }

  lemma GoodStart(s: State, w: nat)
    ensures Can(Started(s, w, Preparing, Connecting), PrepareDone(w, true))
    ensures Next(Started(s, w, Preparing, Connecting), PrepareDone(w, true)) == Started(s, w, Prepared, Connecting)
    ensures Can(Started(s, w, Prepared, Connecting), Announce(w))
    ensures Next(Started(s, w, Prepared, Connecting), Announce(w)) == Started(s, w, Running, Connected)
  {
  }

  lemma BadStart(s: State, w: nat)
    ensures Can(Started(s, w, Preparing, Connecting), PrepareDone(w, false))
    ensures Next(Started(s, w, Preparing, Connecting), PrepareDone(w, false)) == Started(s, w, Ending(false), Connecting)
    ensures Can(Started(s, w, Ending(false), Connecting), PublishEnd(w))
    ensures Next(Started(s, w, Ending(false), Connecting), PublishEnd(w)) == Started(s, w, Published, Disconnected)
    ensures Can(Started(s, w, Published, Disconnected), Finish(w))
    ensures Next(Started(s, w, Published, Disconnected), Finish(w)) == Started(s, w, Finished, Disconnected)
  {
  }

  // A stop that has begun to drain.

  predicate OwnStep(step: Step, w: nat, c: nat) {
    step in {CancelStartup(w), PrepareDone(w, true), Announce(w), SeeCancel(w), CleanedUp(w), PublishEnd(w), Finish(w),
             StopJoin(c), StopClear(c), StopPublish(c)}
  }

  /** How far a worker is from finished. */
  function ToGo(p: Phase): nat {
    match p
    case Preparing => 6
    case Prepared => 5
    case Running => 4
    case Cleaning => 3
    case Ending(_) => 2
    case Published => 1
    case Finished => 0
  }

  /** The next step of a worker that has been asked to end. */
  function Towards(w: nat, p: Phase): Step
    requires !p.Finished?
  {
    match p
    case Preparing => CancelStartup(w)
    case Prepared => Announce(w)
    case Running => SeeCancel(w)
    case Cleaning => CleanedUp(w)
    case Ending(_) => PublishEnd(w)
    case Published => Finish(w)
  }

  lemma DrainStep(s: State, c: nat, w: nat)
    requires Inv(s) && c in s.stops && s.stops[c] == Draining(w) && Busy(s, w)
    ensures var step := Towards(w, s.workers[w].phase);
            && Can(s, step) && OwnStep(step, w, c)
            && var s' := Next(s, step);
               && Inv(s') && c in s'.stops && s'.stops[c] == Draining(w) && s'.lock == Stopping(c)
               && w in s'.workers && ToGo(s'.workers[w].phase) < ToGo(s.workers[w].phase)
  {
    assert StopOk(s, c);
    AskedHasPermit(s, w);
    StepKeeps(s, Towards(w, s.workers[w].phase));
    hide Inv;
  }

  /** A stop never waits for good: from any state in which it drains a worker, that worker's own steps
      and the stop's lead to its return, with the engine cleaned up and everything at rest. */
  lemma {:induction false} DrainCanFinish(s: State, c: nat, w: nat) returns (more: seq<Step>, end: State)
    requires Inv(s) && c in s.stops && s.stops[c] == Draining(w)
    ensures Runs(s, more, end) && forall step <- more :: OwnStep(step, w, c)
    ensures c in end.stops && end.stops[c] == Returned(Some(w)) && At(end, w, Finished)
    ensures end.slot.None? && end.lock.Free? && end.public.Disconnected? && forall v :: !Busy(end, v)
    decreases ToGo(if w in s.workers then s.workers[w].phase else Finished)
  {
    assert w in s.workers && s.lock == Stopping(c) by { assert StopOk(s, c); }
    if Busy(s, w) {
      DrainStep(s, c, w);
      var step := Towards(w, s.workers[w].phase);
      hide Inv, Can, Next, OwnStep, Towards;
      var rest;
      rest, end := DrainCanFinish(Next(s, step), c, w);
      more := [step] + rest;
      assert more[1..] == rest;
    } else {
      more, end := DrainEnds(s, c, w);
    }
  }

  lemma DrainEnds(s: State, c: nat, w: nat) returns (more: seq<Step>, end: State)
    requires Inv(s) && c in s.stops && s.stops[c] == Draining(w) && s.lock == Stopping(c) && At(s, w, Finished)
    ensures Runs(s, more, end) && forall step <- more :: OwnStep(step, w, c)
    ensures c in end.stops && end.stops[c] == Returned(Some(w)) && At(end, w, Finished)
    ensures end.slot.None? && end.lock.Free? && end.public.Disconnected? && forall v :: !Busy(end, v)
  {
    var s1 := Next(s, StopJoin(c));
    var s2 := Next(s1, StopClear(c));
    end := Next(s2, StopPublish(c));
    StepKeeps(s, StopJoin(c));
    assert StopOk(s1, c);
    assert end.stops[c] == Returned(Some(w)) && end.slot.None? && end.lock.Free? && end.public.Disconnected?;
    assert Can(s1, StopClear(c)) && Can(s2, StopPublish(c));
    assert end.workers == s1.workers;
    hide Can, Next, Inv;
    more := RunOn(s, [], s, StopJoin(c));
    more := RunOn(s, more, s1, StopClear(c));
    more := RunOn(s, more, s2, StopPublish(c));
  }

  /** And a stop called when nobody has the lock begins to drain the engine in the slot, asking it to
      end; with an empty slot it has nothing to join. */
  lemma StopBegins(steps: seq<Step>, s: State, c: nat)
    requires Runs(Init(), steps, s) && s.lock.Free? && c !in s.stops
    ensures var s1 := Next(s, StopCall(c));
            && Can(s1, StopLock(c)) && Can(Next(s1, StopLock(c)), StopCancel(c))
            && var s3 := Next(Next(s1, StopLock(c)), StopCancel(c));
               c in s3.stops
               && if s.slot.Some? then s3.stops[c] == Draining(s.slot.value) && s.slot.value in s3.workers
                                       && s3.workers[s.slot.value].asked
                  else s3.stops[c] == Drained(None)
  {
    ReachableKeeps(steps, s);
  }
}
