/**
 The supervisor as objects: the machine whose `Handle` updates its fields, and the shell whose
 methods run the machine's actions one by one and re-enter the machine when one of them fails.
 Each method is proved to do what the functions of `Supervisor` say.
 */
module SupervisorShell {
  import opened Basics
  import opened Supervisor

  class Machine {
    var state: State
    const killSwitch: bool
    var proxySet: bool
    var attempt: nat
    const base: nat
    const max: nat
    var online: bool

    constructor (killSwitch: bool, base: nat, max: nat)
      ensures View() == NewMachine(killSwitch, base, max)
    {
      this.state := Disconnected;
      this.killSwitch := killSwitch;
      this.proxySet := false;
      this.attempt := 0;
      this.base := base;
      this.max := max;
      this.online := true;
    }

    function View(): MachineState
      reads this
    {
      MachineState(state, killSwitch, proxySet, attempt, base, max, online)
    }

    method Handle(input: Input) returns (actions: seq<Action>)
      modifies this
      ensures (View(), actions) == Handled(old(View()), input)
    {
      match (state, input) {
        case (_, ServiceFailed) =>
          state := Error;
          proxySet := false;
          actions := [StopServing, Emit(Error)];
        case (Error, Disconnect) =>
          state := Disconnected;
          proxySet := false;
          actions := [StopServing, ClearProxy, Emit(Disconnected)];
        case (Disconnected, Connect) =>
          state := Connecting;
          attempt := 0;
          actions := [Emit(Connecting), Dial];
        case (Error, Connect) =>
          state := Connecting;
          attempt := 0;
          actions := [Emit(Connecting), Dial];
        case (Connecting, DialSucceeded) =>
          state := Connected;
          actions := Adopt();
        case (Connecting, DialFailed) =>
          state := Error;
          actions := [Emit(Error)];
        case (Connecting, Disconnect) =>
          state := Disconnected;
          proxySet := false;
          actions := [ClearProxy, Emit(Disconnected)];
        case (Connected, TunnelDropped) =>
          state := Reconnecting;
          attempt := 0;
          actions := [StopServing];
          if !killSwitch && proxySet {
            proxySet := false;
            actions := actions + [ClearProxy];
          }
          assert actions == [StopServing] + if !killSwitch && old(proxySet) then [ClearProxy] else [];
          var delay := ScheduleBackoff(BackoffDelay(attempt, base, max));
          actions := actions + [delay, Emit(Reconnecting)];
        case (Connected, Disconnect) =>
          state := Disconnected;
          actions := [StopServing];
          if proxySet {
            proxySet := false;
            actions := actions + [ClearProxy];
          }
          assert actions == [StopServing] + if old(proxySet) then [ClearProxy] else [];
          actions := actions + [Emit(Disconnected)];
        case (Reconnecting, BackoffElapsed) =>
          actions := if online then [Dial] else [];
        case (Reconnecting, Connectivity(o)) =>
          var wasOffline := !online;
          online := o;
          if o && wasOffline {
            attempt := 0;
            actions := [Dial];
          } else {
            actions := [];
          }
        case (Reconnecting, DialSucceeded) =>
          state := Connected;
          attempt := 0;
          actions := Adopt();
        case (Reconnecting, DialFailed) =>
          attempt := Min(attempt + 1, MAX_ATTEMPT);
          actions := [ScheduleBackoff(BackoffDelay(attempt, base, max))];
        case (Reconnecting, Disconnect) =>
          state := Disconnected;
          actions := if proxySet then [ClearProxy] else [];
          proxySet := false;
          actions := actions + [Emit(Disconnected)];
        case (_, Connectivity(o)) =>
          online := o;
          actions := [];
        case _ =>
          actions := [];
      }
    }

    /** The actions for a tunnel that is up: serve it, and set the proxy unless it is set. */
    method Adopt() returns (actions: seq<Action>)
      modifies this`proxySet
      ensures proxySet
      ensures actions == [StartServing] + (if old(proxySet) then [] else [SetProxy]) + [Emit(Connected)]
    {
      actions := [StartServing];
      if !proxySet {
        proxySet := true;
        actions := actions + [SetProxy];
      }
      actions := actions + [Emit(Connected)];
    }
  }

  class Inner {
    const machine: Machine
    var generation: nat
    var dial: Option<nat>
    var current: Option<nat>
    var listener: Option<Serving>
    var socksAddr: Addr
    var published: State
    var proxy: Proxy
    var dials: set<nat>
    var timers: multiset<nat>
    var dropped: set<nat>
    var wait: nat

    constructor (killSwitch: bool, base: nat, max: nat, addr: Addr)
      ensures fresh(machine)
      ensures View() == NewShell(killSwitch, base, max, addr)
    {
      machine := new Machine(killSwitch, base, max);
      generation := 0;
      dial, current, listener := None, None, None;
      socksAddr := addr;
      published := Disconnected;
      proxy := Off;
      dials, timers, dropped, wait := {}, multiset{}, {}, 0;
    }

    function View(): Shell
      reads this, machine
    {
      Shell(machine.View(), generation, dial, current, listener, socksAddr, published, proxy,
            dials, timers, dropped, wait)
    }

    method Feed(input: Input, out: Outcomes)
      modifies this, machine
      ensures View() == Supervisor.Feed(old(View()), input, out)
      decreases if input.ServiceFailed? then 0 else 1, 10
    {
      var actions := machine.Handle(input);
      if input.ServiceFailed? { FewActions(old(machine.View()), input); }
      Apply(actions, out);
    }

    /** Runs `actions` in order. A failed one feeds ServiceFailed back and drops the rest. */
    method Apply(actions: seq<Action>, out: Outcomes)
      modifies this, machine
      ensures View() == Perform(old(View()), actions, out)
      decreases if Fallible(actions) then 1 else 0, 5
    {
      hide Supervisor.Feed;
      var i := 0;
      while i < |actions|
        invariant 0 <= i <= |actions|
        invariant Perform(View(), actions[i..], out) == Perform(old(View()), actions, out)
      {
        assert actions[i..][1..] == actions[i + 1..];
        if CanFail(actions[i]) { FallibleAt(actions, i); }
        match actions[i] {
          case Dial =>
            if dial.None? {
              generation := generation + 1;
              dial := Some(generation);
              dials := dials + {generation};
            }
          case SetProxy =>
            if out.setOk {
              proxy := Pointing(socksAddr);
            } else {
              proxy := if out.undoOk then Off else InDoubt;
              Feed(ServiceFailed, out);
              return;
            }
          case ClearProxy =>
            if out.clearOk {
              proxy := Off;
            } else {
              proxy := InDoubt;
              Feed(ServiceFailed, out);
              return;
            }
          case StartServing =>
            if current.Some? {
              if !out.bindOk {
                Feed(ServiceFailed, out);
                return;
              }
              socksAddr := Bound(socksAddr, out);
              listener := Some(Serving(generation, socksAddr, current.value));
              dropped := dropped + {generation};
            }
          case StopServing =>
            listener := None;
            current := None;
          case ScheduleBackoff(delay) =>
            timers := timers + multiset{generation};
            wait := delay;
          case Emit(state) =>
            published := state;
        }
        i := i + 1;
      }
    }

    method OnDialResult(ok: bool, out: Outcomes)
      modifies this, machine
      ensures View() == Supervisor.OnDialResult(old(View()), ok, out)
    {
      if ok {
        current := Some(generation);
        Feed(DialSucceeded, out);
        if machine.state != Connected { current := None; }
      } else {
        Feed(DialFailed, out);
      }
    }

    method OnCommand(ev: Event, out: Outcomes)
      requires ev.UserConnect? || ev.UserDisconnect? || ev.NetworkChanged?
      modifies this, machine
      ensures View() == React(old(View()), ev, out)
    {
      hide Supervisor.Feed;
      match ev {
        case UserConnect =>
          if machine.state == Disconnected || machine.state == Error { Feed(Connect, out); }
        case UserDisconnect =>
          generation := generation + 1;
          dial := None;
          Feed(Disconnect, out);
        case NetworkChanged(online) =>
          Feed(Connectivity(online), out);
      }
    }

    /** One turn of the run loop: the shell takes one message and handles it. */
    method Turn(ev: Event, out: Outcomes)
      requires CanHappen(View(), ev)
      requires ShellInv(View())
      modifies this, machine
      ensures View() == React(old(View()), ev, out)
      ensures ShellInv(View())
    {
      ReactKeeps(View(), ev, out);
      hide ShellInv, Supervisor.Feed;
      match ev {
        case UserConnect => OnCommand(ev, out);
        case UserDisconnect => OnCommand(ev, out);
        case NetworkChanged(_) => OnCommand(ev, out);
        case DialDone(g, ok) =>
          dials := dials - {g};
          if g == generation {
            dial := None;
            OnDialResult(ok, out);
          }
        case TimerFired(g) =>
          timers := timers - multiset{g};
          if g == generation { Feed(BackoffElapsed, out); }
        case Dropped(g) =>
          if g == generation { Feed(TunnelDropped, out); }
      }
    }
  }

  lemma {:induction false} FallibleAt(actions: seq<Action>, i: nat)
    requires i < |actions| && CanFail(actions[i])
    ensures Fallible(actions)
  {
    if i > 0 {
      assert actions[1..][i - 1] == actions[i];
      FallibleAt(actions[1..], i - 1);
    }
  }

  /** The actions of a local failure cannot fail themselves, so failures do not cascade. */
  lemma FewActions(m: MachineState, input: Input)
    requires input.ServiceFailed?
    ensures !Fallible(Handled(m, input).1)
  {
    var acts := [StopServing, Emit(Error)];
    assert acts[1..] == [Emit(Error)];
    assert acts[1..][1..] == [];
  }
}
