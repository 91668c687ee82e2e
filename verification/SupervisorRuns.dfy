/**
 Whole runs of the supervisor: what holds between any two events, from a fresh shell, whatever
 the user, the network, the dials, the timers and the local services do.
 */
module SupervisorRuns {
  import opened Basics
  import opened Supervisor

  datatype Step = Step(ev: Event, out: Outcomes)

  /** Handling `steps` in order takes `sh` to `end`. */
  predicate Runs(sh: Shell, steps: seq<Step>, end: Shell)
    decreases |steps|
  {
    if steps == [] then end == sh
    else CanHappen(sh, steps[0].ev) && Runs(React(sh, steps[0].ev, steps[0].out), steps[1..], end)
  }

  ghost predicate Reachable(sh: Shell) {
    exists killSwitch, base, max, addr, steps ::
      Runs(NewShell(killSwitch, base, max, addr), steps, sh)
  }

  lemma {:induction false} RunKeeps(sh: Shell, steps: seq<Step>, end: Shell)
    requires ShellInv(sh) && Runs(sh, steps, end)
    ensures ShellInv(end)
    decreases |steps|
  {
    hide React;
    if steps != [] {
      ReactKeeps(sh, steps[0].ev, steps[0].out);
      RunKeeps(React(sh, steps[0].ev, steps[0].out), steps[1..], end);
    }
  }

  lemma ReachableKeeps(sh: Shell)
    requires Reachable(sh)
    ensures ShellInv(sh)
  {
    var killSwitch, base, max, addr, steps :| Runs(NewShell(killSwitch, base, max, addr), steps, sh);
    StartsIdle(killSwitch, base, max, addr);
    RunKeeps(NewShell(killSwitch, base, max, addr), steps, sh);
  }

  // --- wake-ups --------------------------------------------------------------------------

  /** The dials and timers whose arrival the run loop would act on. */
  function LiveDials(sh: Shell): nat { if sh.generation in sh.dials then 1 else 0 }
  function LiveTimers(sh: Shell): nat { sh.timers[sh.generation] }

  /** Between events the machine waits on exactly what its state calls for: never on nothing
      while it should be trying, and never on two things at once. */
  lemma NoLostWakeUp(sh: Shell)
    requires Reachable(sh)
    ensures sh.m.state.Connecting? ==> LiveDials(sh) == 1 && LiveTimers(sh) == 0
    ensures sh.m.state.Reconnecting? ==> LiveDials(sh) + LiveTimers(sh) <= 1
    ensures sh.m.state.Reconnecting? && sh.m.online ==> LiveDials(sh) + LiveTimers(sh) == 1
    ensures sh.m.state.Disconnected? || sh.m.state.Error? || sh.m.state.Connected? ==>
              LiveDials(sh) == 0 && LiveTimers(sh) == 0
  {
    ReachableKeeps(sh);
  }

  /** A result, timer or drop signal of an earlier generation leaves everything but its mailbox
      as it was; in particular a result of a dial the user has disconnected since. */
  lemma StaleEventsChangeNothing(sh: Shell, ev: Event, out: Outcomes)
    requires CanHappen(sh, ev) && (ev.DialDone? || ev.TimerFired? || ev.Dropped?)
    requires ev.generation != sh.generation
    ensures var sh' := React(sh, ev, out);
            sh' == sh.(dials := sh'.dials, timers := sh'.timers)
            && sh'.timers[sh.generation] == sh.timers[sh.generation]
            && (sh.generation in sh'.dials <==> sh.generation in sh.dials)
  {
  }

  // --- disconnecting is final ------------------------------------------------------------

  predicate Asks(steps: seq<Step>) { exists i :: 0 <= i < |steps| && steps[i].ev.UserConnect? }

  lemma IdleStays(sh: Shell, ev: Event, out: Outcomes)
    requires ShellInv(sh) && sh.m.state.Disconnected? && CanHappen(sh, ev) && !ev.UserConnect?
    ensures var sh' := React(sh, ev, out);
            sh'.m.state.Disconnected? && sh'.published.Disconnected? && sh'.dial.None?
  {
    ReactKeeps(sh, ev, out);
    match ev
    case DialDone(g, ok) => StaleEventsChangeNothing(sh, ev, out);
    case TimerFired(g) => StaleEventsChangeNothing(sh, ev, out);
    case Dropped(g) => assert Feed(sh, TunnelDropped, out) == sh;
    case NetworkChanged(o) => assert Feed(sh, Connectivity(o), out) == sh.(m := sh.m.(online := o));
    case UserDisconnect =>
      var sh1 := sh.(generation := sh.generation + 1, dial := None);
      assert Feed(sh1, Disconnect, out) == sh1;
  }

  /** Once disconnected, nothing but the user connects again: whatever late results, timers, drop
      signals and network changes arrive, no dial starts, nothing is served and the proxy is off. */
  lemma {:induction false} DisconnectIsFinal(sh: Shell, steps: seq<Step>, end: Shell)
    requires ShellInv(sh) && sh.m.state.Disconnected? && Runs(sh, steps, end) && !Asks(steps)
    ensures end.m.state.Disconnected? && end.published.Disconnected?
    ensures end.dial.None? && end.current.None? && end.serving.None? && end.proxy.Off?
    decreases |steps|
  {
    if steps != [] {
      assert !steps[0].ev.UserConnect?;
      IdleStays(sh, steps[0].ev, steps[0].out);
      ReactKeeps(sh, steps[0].ev, steps[0].out);
      forall i | 0 <= i < |steps[1..]| ensures !steps[1..][i].ev.UserConnect? {
        assert steps[1..][i] == steps[i + 1];
      }
      DisconnectIsFinal(React(sh, steps[0].ev, steps[0].out), steps[1..], end);
    }
  }

  // --- proxy and publication -------------------------------------------------------------

  /** Subscribers see the machine's state; Connected means a listener is bound on the tunnel of the
      current generation and the system proxy points at it; Disconnected means the proxy is off. */
  lemma PublishedStateIsTrue(sh: Shell)
    requires Reachable(sh)
    ensures sh.published == sh.m.state
    ensures sh.published.Connected? ==>
              && sh.current == Some(sh.generation)
              && sh.serving.Some? && sh.serving.value.tunnel == sh.current.value
              && sh.serving.value.generation == sh.generation
              && sh.proxy == Pointing(sh.serving.value.addr)
    ensures !sh.published.Connected? ==> sh.serving.None? && sh.current.None?
    ensures sh.published.Disconnected? ==> sh.proxy.Off?
  {
    ReachableKeeps(sh);
  }

  /** With the kill switch on, the proxy stops pointing at the client exactly when the user
      disconnects, or when a dial the user asked for succeeds and setting the proxy anew fails: it
      is then off or, if undoing fails too, in doubt. */
  lemma KillSwitchHolds(sh: Shell, ev: Event, out: Outcomes)
    requires Reachable(sh) && CanHappen(sh, ev)
    requires sh.m.killSwitch && sh.proxy.Pointing?
    ensures !React(sh, ev, out).proxy.Pointing?
            <==> || ev.UserDisconnect?
                 || (&& ev == DialDone(sh.generation, true) && sh.m.state.Connecting?
                     && out.bindOk && !out.setOk)
  {
    ReachableKeeps(sh);
    hide Reachable, Mailboxes;
    match ev
    case UserConnect => if sh.m.state.Error? { FeedConnect(sh, out); }
    case UserDisconnect => KillSwitchOnDisconnect(sh, out);
    case NetworkChanged(o) =>
      if sh.m.state.Reconnecting? && o && !sh.m.online {
        PerformOne(sh.(m := sh.m.(online := true, attempt := 0)), Dial, out);
      }
    case DialDone(g, ok) => if g == sh.generation { KillSwitchOnDial(sh, ok, out); }
    case TimerFired(g) =>
      if g == sh.generation && sh.m.state.Reconnecting? && sh.m.online {
        PerformOne(sh.(timers := sh.timers - multiset{g}), Dial, out);
      }
    case Dropped(g) => if g == sh.generation && sh.m.state.Connected? { FeedDropped(sh, out); }
  }

  lemma KillSwitchOnDisconnect(sh: Shell, out: Outcomes)
    requires ShellInv(sh) && sh.proxy.Pointing?
    ensures !React(sh, UserDisconnect, out).proxy.Pointing?
  {
    FeedDisconnect(sh.(generation := sh.generation + 1, dial := None), out);
    hide Feed;
  }

  lemma KillSwitchOnDial(sh: Shell, ok: bool, out: Outcomes)
    requires ShellInv(sh) && sh.generation in sh.dials
    requires sh.m.killSwitch && sh.proxy.Pointing?
    ensures !React(sh, DialDone(sh.generation, ok), out).proxy.Pointing?
            <==> ok && sh.m.state.Connecting? && out.bindOk && !out.setOk
  {
    var sh1 := sh.(dials := sh.dials - {sh.generation}, dial := None);
    if ok {
      FeedServed(sh1.(current := Some(sh.generation)), out);
      hide Feed;
    } else {
      var (m, acts) := Handled(sh.m, DialFailed);
      PerformOne(sh1.(m := m), acts[0], out);
    }
  }

  // The second way is one that a run can take.

  const ALL_WELL := Outcomes(true, 0, true, true, true)

  lemma {:induction false} RunOn(start: Shell, steps: seq<Step>, sh: Shell, step: Step) returns (more: seq<Step>)
    requires Runs(start, steps, sh) && CanHappen(sh, step.ev)
    ensures more == steps + [step] && Runs(start, more, React(sh, step.ev, step.out))
    decreases |steps|
  {
    hide React, CanHappen;
    more := steps + [step];
    if steps == [] {
      assert more[1..] == [];
    } else {
      var rest := RunOn(React(start, steps[0].ev, steps[0].out), steps[1..], sh, step);
      assert more[1..] == rest;
    }
  }

  /** The shells a run passes through: connecting, connected, and dropped. */
  lemma ConnectAndDrop(start: Shell, base: nat, max: nat, addr: Addr) returns (steps: seq<Step>, sh: Shell)
    requires start == NewShell(true, base, max, addr) && addr.port != 0
    ensures steps == [Step(UserConnect, ALL_WELL), Step(DialDone(1, true), ALL_WELL), Step(Dropped(1), ALL_WELL)]
    ensures Runs(start, steps, sh)
    ensures sh == Shell(MachineState(Reconnecting, true, true, 0, base, max, true), 1, None, None, None, addr,
                        Reconnecting, Pointing(addr), {}, multiset{1}, {1}, Min(base, max))
  {
    FeedConnect(start, ALL_WELL);
    var s1 := React(start, UserConnect, ALL_WELL);
    FeedServed(s1.(dials := {}, dial := None, current := Some(1)), ALL_WELL);
    assert s1.dials - {1} == {};
    var s2 := React(s1, DialDone(1, true), ALL_WELL);
    FeedDropped(s2, ALL_WELL);
    BackoffDoubles(0, base, max);
    sh := React(s2, Dropped(1), ALL_WELL);
    hide React, Feed;
    steps := RunOn(start, [], start, Step(UserConnect, ALL_WELL));
    steps := RunOn(start, steps, s1, Step(DialDone(1, true), ALL_WELL));
    steps := RunOn(start, steps, s2, Step(Dropped(1), ALL_WELL));
  }

  /** The redial succeeds but its listener cannot be bound; the user then connects again. */
  lemma RedialAndConnect(sh: Shell, base: nat, max: nat, addr: Addr) returns (s1: Shell, s2: Shell, s3: Shell)
    requires sh == Shell(MachineState(Reconnecting, true, true, 0, base, max, true), 1, None, None, None, addr,
                         Reconnecting, Pointing(addr), {}, multiset{1}, {1}, Min(base, max))
    ensures CanHappen(sh, TimerFired(1)) && s1 == React(sh, TimerFired(1), ALL_WELL)
    ensures CanHappen(s1, DialDone(2, true)) && s2 == React(s1, DialDone(2, true), ALL_WELL.(bindOk := false))
    ensures s3 == React(s2, UserConnect, ALL_WELL)
    ensures s3 == Shell(MachineState(Connecting, true, false, 0, base, max, true), 3, Some(3), None, None, addr,
                        Connecting, Pointing(addr), {3}, multiset{}, {1}, Min(base, max))
  {
    var noBind := ALL_WELL.(bindOk := false);
    PerformOne(sh.(timers := multiset{}), Dial, ALL_WELL);
    assert sh.timers - multiset{1} == multiset{};
    s1 := React(sh, TimerFired(1), ALL_WELL);
    FeedServed(s1.(dials := {}, dial := None, current := Some(2)), noBind);
    assert s1.dials - {2} == {};
    s2 := React(s1, DialDone(2, true), noBind);
    FeedConnect(s2, ALL_WELL);
    s3 := React(s2, UserConnect, ALL_WELL);
  }

  /** A tunnel drops under the kill switch, its listener cannot be bound again, and when the user
      connects once more, setting the proxy fails. */
  lemma KillSwitchWayOut(base: nat, max: nat, addr: Addr, undoOk: bool) returns (steps: seq<Step>, sh: Shell)
    requires addr.port != 0
    ensures steps == [Step(UserConnect, ALL_WELL), Step(DialDone(1, true), ALL_WELL), Step(Dropped(1), ALL_WELL),
                      Step(TimerFired(1), ALL_WELL), Step(DialDone(2, true), ALL_WELL.(bindOk := false)),
                      Step(UserConnect, ALL_WELL)]
    ensures Runs(NewShell(true, base, max, addr), steps, sh) && Reachable(sh)
    ensures sh.m.killSwitch && sh.m.state.Connecting? && sh.proxy == Pointing(addr) && CanHappen(sh, DialDone(3, true))
    ensures React(sh, DialDone(3, true), ALL_WELL.(setOk := false, undoOk := undoOk)).proxy
            == if undoOk then Off else InDoubt
  {
    var start := NewShell(true, base, max, addr);
    var s3, s4, s5: Shell;
    steps, s3 := ConnectAndDrop(start, base, max, addr);
    s4, s5, sh := RedialAndConnect(s3, base, max, addr);
    FeedServed(sh.(dials := {}, dial := None, current := Some(3)), ALL_WELL.(setOk := false, undoOk := undoOk));
    assert sh.dials - {3} == {};
    hide Feed, Runs;
    steps := RunOn(start, steps, s3, Step(TimerFired(1), ALL_WELL));
    steps := RunOn(start, steps, s4, Step(DialDone(2, true), ALL_WELL.(bindOk := false)));
    steps := RunOn(start, steps, s5, Step(UserConnect, ALL_WELL));
  }

  // --- what each event comes to ----------------------------------------------------------

  /** A connect starts one dial from rest, and otherwise changes nothing. A disconnect ends in
      Disconnected unless the proxy had to be cleared and could not be. */
  lemma WhatTheUserDoes(sh: Shell, out: Outcomes)
    requires Reachable(sh)
    ensures var sh' := React(sh, UserConnect, out);
            if sh.published.Disconnected? || sh.published.Error?
            then sh'.published.Connecting? && sh'.generation == sh.generation + 1 && LiveDials(sh') == 1
            else sh' == sh
    ensures var sh' := React(sh, UserDisconnect, out);
            if sh.published.Disconnected? || out.clearOk || (sh.published.Reconnecting? && !sh.m.killSwitch)
            then sh'.published.Disconnected? && sh'.proxy.Off?
            else sh'.published.Error? && sh'.proxy.InDoubt?
  {
    ReachableKeeps(sh);
    hide Reachable;
    if sh.m.state.Disconnected? || sh.m.state.Error? { FeedConnect(sh, out); }
    var sh1 := sh.(generation := sh.generation + 1, dial := None);
    if sh.m.state.Disconnected? { assert Feed(sh1, Disconnect, out) == sh1; } else { FeedDisconnect(sh1, out); }
    hide Feed;
  }

  /** The dial in flight fails: an attempt the user asked for ends in Error, a retry schedules the next
      one. It succeeds: the shell is Connected, with a listener on the new tunnel, if and only if the
      listener was bound and the proxy set, or still set under the kill switch; else it is in Error. */
  lemma WhatADialDoes(sh: Shell, out: Outcomes)
    requires Reachable(sh) && sh.generation in sh.dials
    ensures var sh' := React(sh, DialDone(sh.generation, false), out);
            if sh.published.Connecting? then sh'.published.Error?
            else sh'.published.Reconnecting? && LiveTimers(sh') == 1 && LiveDials(sh') == 0
    ensures var sh' := React(sh, DialDone(sh.generation, true), out);
            if out.bindOk && (out.setOk || (sh.published.Reconnecting? && sh.m.killSwitch))
            then sh'.published.Connected? && sh'.current == Some(sh.generation)
            else sh'.published.Error? && sh'.serving.None? && sh'.current.None?
  {
    ReachableKeeps(sh);
    hide Reachable;
    var sh1 := sh.(dials := sh.dials - {sh.generation}, dial := None);
    FeedServed(sh1.(current := Some(sh.generation)), out);
    var (m, acts) := Handled(sh.m, DialFailed);
    assert |acts| == 1 && !CanFail(acts[0]);
    PerformOne(sh1.(m := m), acts[0], out);
    assert acts == [acts[0]];
    hide Feed, Perform;
    assert Feed(sh1, DialFailed, out) == Perform(sh1.(m := m), acts, out) by { FeedIs(sh1, DialFailed, out); }
  }

  lemma FeedIs(sh: Shell, input: Input, out: Outcomes)
    ensures Feed(sh, input, out) == Perform(sh.(m := Handled(sh.m, input).0), Handled(sh.m, input).1, out)
  {
  }

  /** The tunnel drops: the first retry is scheduled after the base delay, with the proxy left pointing at
      the client under the kill switch and otherwise cleared; only a clear that fails ends in Error. A
      timer that fires dials if the network is there; a network that returns dials at once. */
  lemma WhatTheNetworkDoes(sh: Shell, out: Outcomes)
    requires Reachable(sh)
    ensures sh.published.Connected? && sh.generation in sh.served ==>
              var sh' := React(sh, Dropped(sh.generation), out);
              if sh.m.killSwitch || out.clearOk
              then sh'.published.Reconnecting? && LiveTimers(sh') == 1 && sh'.wait == Min(sh.m.base, sh.m.max)
                   && sh'.proxy == if sh.m.killSwitch then sh.proxy else Off
              else sh'.published.Error? && sh'.proxy.InDoubt?
    ensures sh.generation in sh.timers ==>
              var sh' := React(sh, TimerFired(sh.generation), out);
              sh'.published.Reconnecting? && LiveTimers(sh') == 0 && LiveDials(sh') == if sh.m.online then 1 else 0
    ensures forall o :: var sh' := React(sh, NetworkChanged(o), out);
              && sh'.m.online == o && sh'.published == sh.published && sh'.proxy == sh.proxy
              && (if sh.published.Reconnecting? && o && !sh.m.online then LiveDials(sh') == 1
                  else sh' == sh.(m := sh.m.(online := o)))
  {
    ReachableKeeps(sh);
    hide Reachable;
    if sh.published.Connected? && sh.generation in sh.served { DropMeans(sh, out); }
    if sh.generation in sh.timers { TimerMeans(sh, out); }
    forall o { NetworkMeans(sh, o, out); }
    hide *;
  }

  lemma DropMeans(sh: Shell, out: Outcomes)
    requires ShellInv(sh) && sh.published.Connected? && sh.generation in sh.served
    ensures var sh' := React(sh, Dropped(sh.generation), out);
            if sh.m.killSwitch || out.clearOk
            then sh'.published.Reconnecting? && LiveTimers(sh') == 1 && sh'.wait == Min(sh.m.base, sh.m.max)
                 && sh'.proxy == if sh.m.killSwitch then sh.proxy else Off
            else sh'.published.Error? && sh'.proxy.InDoubt?
  {
    FeedDropped(sh, out);
    BackoffDoubles(0, sh.m.base, sh.m.max);
    hide Feed, BackoffDelay;
  }

  lemma TimerMeans(sh: Shell, out: Outcomes)
    requires ShellInv(sh) && sh.generation in sh.timers
    ensures var sh' := React(sh, TimerFired(sh.generation), out);
            sh'.published.Reconnecting? && LiveTimers(sh') == 0 && LiveDials(sh') == if sh.m.online then 1 else 0
  {
    PerformOne(sh.(timers := sh.timers - multiset{sh.generation}), Dial, out);
  }

  lemma NetworkMeans(sh: Shell, o: bool, out: Outcomes)
    requires ShellInv(sh)
    ensures var sh' := React(sh, NetworkChanged(o), out);
            && sh'.m.online == o && sh'.published == sh.published && sh'.proxy == sh.proxy
            && (if sh.published.Reconnecting? && o && !sh.m.online then LiveDials(sh') == 1
                else sh' == sh.(m := sh.m.(online := o)))
  {
    FeedNetwork(sh, o, out);
    hide Feed;
  }

  // --- the delays of a run ---------------------------------------------------------------

  /** Counted on the events alone: redials failed since the tunnel last dropped or the network last came
      back, and whether the network is there. */
  datatype Tally = Tally(failed: nat, online: bool)

  function Tallied(t: Tally, sh: Shell, ev: Event): Tally {
    match ev
    case Dropped(g) => if g == sh.generation && sh.published.Connected? then t.(failed := 0) else t
    case NetworkChanged(o) => Tally(if o && !t.online then 0 else t.failed, o)
    case DialDone(g, ok) => if g == sh.generation && !ok then t.(failed := t.failed + 1) else t
    case _ => t
  }

  function TallyOf(t: Tally, sh: Shell, steps: seq<Step>, end: Shell): Tally
    requires Runs(sh, steps, end)
    decreases |steps|
  {
    if steps == [] then t
    else TallyOf(Tallied(t, sh, steps[0].ev), React(sh, steps[0].ev, steps[0].out), steps[1..], end)
  }

  predicate Paced(sh: Shell, t: Tally, base: nat, max: nat) {
    && sh.m.base == base && sh.m.max == max && sh.m.online == t.online
    && (sh.m.state.Reconnecting? ==> sh.m.attempt == Min(t.failed, MAX_ATTEMPT))
    && (LiveTimers(sh) > 0 ==> sh.wait == BackoffDelay(t.failed, base, max))
  }

  lemma EventKeepsPace(sh: Shell, t: Tally, ev: Event, out: Outcomes, base: nat, max: nat)
    requires ShellInv(sh) && CanHappen(sh, ev) && Paced(sh, t, base, max)
    ensures Paced(React(sh, ev, out), Tallied(t, sh, ev), base, max)
  {
    hide BackoffDelay;
    ReactKeeps(sh, ev, out);
    match ev
    case UserConnect => if sh.m.state.Disconnected? || sh.m.state.Error? { FeedConnect(sh, out); }
    case UserDisconnect =>
      var sh1 := sh.(generation := sh.generation + 1, dial := None);
      if sh.m.state.Disconnected? { assert Feed(sh1, Disconnect, out) == sh1; } else { FeedDisconnect(sh1, out); }
      hide Feed;
    case NetworkChanged(o) => NetworkKeepsPace(sh, t, o, out, base, max);
    case DialDone(g, ok) => DialKeepsPace(sh, t, g, ok, out, base, max);
    case TimerFired(g) => TimerKeepsPace(sh, t, g, out, base, max);
    case Dropped(g) =>
      if g == sh.generation && sh.m.state.Connected? {
        FeedDropped(sh, out);
        hide Feed;
      }
  }

  lemma NetworkKeepsPace(sh: Shell, t: Tally, o: bool, out: Outcomes, base: nat, max: nat)
    requires ShellInv(sh) && Paced(sh, t, base, max)
    ensures Paced(React(sh, NetworkChanged(o), out), Tallied(t, sh, NetworkChanged(o)), base, max)
  {
    hide BackoffDelay;
    NetworkKeeps(sh, o, out);
    FeedNetwork(sh, o, out);
    hide Feed;
  }

  lemma FeedNetwork(sh: Shell, o: bool, out: Outcomes)
    ensures Feed(sh, Connectivity(o), out)
            == if sh.m.state.Reconnecting? && o && !sh.m.online
               then StartDial(sh.(m := sh.m.(online := true, attempt := 0))) else sh.(m := sh.m.(online := o))
  {
    if sh.m.state.Reconnecting? && o && !sh.m.online {
      PerformOne(sh.(m := sh.m.(online := true, attempt := 0)), Dial, out);
    } else {
      assert Handled(sh.m, Connectivity(o)) == (sh.m.(online := o), []);
    }
  }

  lemma TimerKeepsPace(sh: Shell, t: Tally, g: nat, out: Outcomes, base: nat, max: nat)
    requires ShellInv(sh) && g in sh.timers && Paced(sh, t, base, max)
    ensures Paced(React(sh, TimerFired(g), out), t, base, max)
  {
    hide BackoffDelay;
    if g == sh.generation && sh.m.state.Reconnecting? && sh.m.online {
      PerformOne(sh.(timers := sh.timers - multiset{g}), Dial, out);
    }
  }

  lemma DialKeepsPace(sh: Shell, t: Tally, g: nat, ok: bool, out: Outcomes, base: nat, max: nat)
    requires ShellInv(sh) && g in sh.dials && Paced(sh, t, base, max)
    ensures Paced(React(sh, DialDone(g, ok), out), Tallied(t, sh, DialDone(g, ok)), base, max)
  {
    if g == sh.generation {
      var sh1 := sh.(dials := sh.dials - {g}, dial := None);
      if ok {
        FeedServed(sh1.(current := Some(g)), out);
        hide Feed, BackoffDelay;
      } else {
        var (m, acts) := Handled(sh.m, DialFailed);
        PerformOne(sh1.(m := m), acts[0], out);
        FarAttempts(t.failed, base, max);
        hide BackoffDelay;
      }
    }
  }

  /** The counter stops at its largest value, long after the exponent has. */
  lemma FarAttempts(failed: nat, base: nat, max: nat)
    ensures BackoffDelay(Min(Min(failed, MAX_ATTEMPT) + 1, MAX_ATTEMPT), base, max) == BackoffDelay(failed + 1, base, max)
  {
  }

  lemma {:induction false} RunKeepsPace(t: Tally, sh: Shell, steps: seq<Step>, end: Shell, base: nat, max: nat)
    requires ShellInv(sh) && Paced(sh, t, base, max) && Runs(sh, steps, end)
    ensures Paced(end, TallyOf(t, sh, steps, end), base, max)
    decreases |steps|
  {
    hide React, CanHappen, ShellInv, Paced, Tallied;
    if steps != [] {
      EventKeepsPace(sh, t, steps[0].ev, steps[0].out, base, max);
      ReactKeeps(sh, steps[0].ev, steps[0].out);
      RunKeepsPace(Tallied(t, sh, steps[0].ev), React(sh, steps[0].ev, steps[0].out), steps[1..], end, base, max);
    }
  }

  /** Over every run, a retry that is waiting was told to wait the base delay doubled once for every
      redial that has failed since the tunnel dropped or the network last came back, sixteen times at
      most, and no longer than the cap. */
  lemma RetriesBackOff(killSwitch: bool, base: nat, max: nat, addr: Addr, steps: seq<Step>, sh: Shell)
    requires Runs(NewShell(killSwitch, base, max, addr), steps, sh) && LiveTimers(sh) > 0
    ensures sh.published.Reconnecting?
    ensures var n := TallyOf(Tally(0, true), NewShell(killSwitch, base, max, addr), steps, sh).failed;
            sh.wait == Min(base * Pow2(Min(n, 16)), max)
  {
    StartsIdle(killSwitch, base, max, addr);
    RunKeepsPace(Tally(0, true), NewShell(killSwitch, base, max, addr), steps, sh, base, max);
    RunKeeps(NewShell(killSwitch, base, max, addr), steps, sh);
    hide Runs, TallyOf;
  }

  // --- backoff ---------------------------------------------------------------------------

  /** Delays never shrink as attempts fail and stay within the cap. */
  lemma BackoffGrowsToItsCap(a: nat, b: nat, base: nat, max: nat)
    requires a <= b
    ensures BackoffDelay(a, base, max) <= BackoffDelay(b, base, max) <= max
  {
    hide Pow2;
    Pow2Grows(Min(a, 16), Min(b, 16));
    ScaleGrows(base, Pow2(Min(a, 16)), Pow2(Min(b, 16)));
  }

  /** They start at the base and double with each attempt, as far as the cap; the exponent stops
      at 16, so from there they are constant whatever the cap. */
  lemma BackoffDoubles(a: nat, base: nat, max: nat)
    ensures BackoffDelay(0, base, max) == Min(base, max)
    ensures a < 16 ==> BackoffDelay(a + 1, base, max) == Min(2 * BackoffDelay(a, base, max), max)
    ensures a >= 16 ==> BackoffDelay(a, base, max) == Min(base * 65536, max)
  {
    hide Pow2;
    PowStep(a);
    DoubleProduct(base, Pow2(a));
    Pow16();
  }

  lemma PowStep(a: nat)
    ensures Pow2(0) == 1 && Pow2(a + 1) == 2 * Pow2(a)
  {
  }

  lemma DoubleProduct(a: nat, b: nat)
    ensures a * (2 * b) == 2 * (a * b)
  {
  }

  lemma Pow16()
    ensures Pow2(16) == 65536
  {
    assert Pow2(4) == 16;
    assert Pow2(8) == 16 * Pow2(4);
    assert Pow2(12) == 16 * Pow2(8);
  }

  lemma ScaleGrows(k: nat, a: nat, b: nat)
    requires a <= b
    ensures k * a <= k * b
  {
    assert k * b - k * a == k * (b - a);
  }
}
