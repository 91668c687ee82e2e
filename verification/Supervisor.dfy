/**
 The connection supervisor: the pure state machine and the shell that runs its actions against
 dials, timers, the local listener and the system proxy, any of which may fail. The shell is given
 as a function of its state, the event and the outcomes of the operations it tries.
 */
module Supervisor {
  import opened Basics

  // --- the machine -----------------------------------------------------------------------

  datatype State = Disconnected | Connecting | Connected | Reconnecting | Error

  datatype Input =
    | Connect
    | Disconnect
    | DialSucceeded
    | DialFailed
    | ServiceFailed
    | TunnelDropped
    | BackoffElapsed
    | Connectivity(online: bool)

  datatype Action =
    | Dial
    | SetProxy
    | ClearProxy
    | StartServing
    | StopServing
    | ScheduleBackoff(delay: nat)   // milliseconds
    | Emit(state: State)

  const MAX_ATTEMPT := 0xFFFF_FFFF

  /** `min(base * 2^attempt, max)`; the exponent stops growing at 16. */
  function BackoffDelay(attempt: nat, base: nat, max: nat): nat {
    Min(base * Pow2(Min(attempt, 16)), max)
  }

  datatype MachineState = MachineState(
    state: State,
    killSwitch: bool,
    proxySet: bool,
    attempt: nat,
    base: nat,
    max: nat,
    online: bool)

  function NewMachine(killSwitch: bool, base: nat, max: nat): MachineState {
    MachineState(Disconnected, killSwitch, false, 0, base, max, true)
  }

  function Handled(m: MachineState, input: Input): (MachineState, seq<Action>) {
    match (m.state, input)
    case (_, ServiceFailed) => (m.(state := Error, proxySet := false), [StopServing, Emit(Error)])
    case (Error, Disconnect) =>
      (m.(state := Disconnected, proxySet := false), [StopServing, ClearProxy, Emit(Disconnected)])
    case (Disconnected, Connect) => (m.(state := Connecting, attempt := 0), [Emit(Connecting), Dial])
    case (Error, Connect) => (m.(state := Connecting, attempt := 0), [Emit(Connecting), Dial])
    case (Connecting, DialSucceeded) =>
      (m.(state := Connected, proxySet := true),
       [StartServing] + (if m.proxySet then [] else [SetProxy]) + [Emit(Connected)])
    case (Connecting, DialFailed) => (m.(state := Error), [Emit(Error)])
    case (Connecting, Disconnect) =>
      (m.(state := Disconnected, proxySet := false), [ClearProxy, Emit(Disconnected)])
    case (Connected, TunnelDropped) =>
      (m.(state := Reconnecting, attempt := 0, proxySet := m.killSwitch && m.proxySet),
       [StopServing] + (if !m.killSwitch && m.proxySet then [ClearProxy] else [])
       + [ScheduleBackoff(BackoffDelay(0, m.base, m.max)), Emit(Reconnecting)])
    case (Connected, Disconnect) =>
      (m.(state := Disconnected, proxySet := false),
       [StopServing] + (if m.proxySet then [ClearProxy] else []) + [Emit(Disconnected)])
    case (Reconnecting, BackoffElapsed) => (m, if m.online then [Dial] else [])
    case (Reconnecting, Connectivity(o)) =>
      if o && !m.online then (m.(online := o, attempt := 0), [Dial]) else (m.(online := o), [])
    case (Reconnecting, DialSucceeded) =>
      (m.(state := Connected, attempt := 0, proxySet := true),
       [StartServing] + (if m.proxySet then [] else [SetProxy]) + [Emit(Connected)])
    case (Reconnecting, DialFailed) =>
      var attempt := Min(m.attempt + 1, MAX_ATTEMPT);
      (m.(attempt := attempt), [ScheduleBackoff(BackoffDelay(attempt, m.base, m.max))])
    case (Reconnecting, Disconnect) =>
      (m.(state := Disconnected, proxySet := false),
       (if m.proxySet then [ClearProxy] else []) + [Emit(Disconnected)])
    case (_, Connectivity(o)) => (m.(online := o), [])
    case _ => (m, [])
  }

  // --- the shell's state -----------------------------------------------------------------

  datatype Addr = Addr(host: int, port: nat)

  /** A bound listener with its monitor: what they serve, and the generation they report. */
  datatype Serving = Serving(generation: nat, addr: Addr, tunnel: nat)

  /** The system proxy: off, pointing at an address, or left in doubt by a failed operation. */
  datatype Proxy = Off | Pointing(addr: Addr) | InDoubt

  datatype Shell = Shell(
    m: MachineState,
    generation: nat,
    dial: Option<nat>,            // the dial task, by generation
    current: Option<nat>,         // the live tunnel, by the generation that dialed it
    serving: Option<Serving>,
    addr: Addr,
    published: State,
    proxy: Proxy,
    // mailboxes: results, timers and drop signals that can still arrive
    dials: set<nat>,
    timers: multiset<nat>,
    served: set<nat>,
    wait: nat)                    // what the newest timer was told to wait

  function NewShell(killSwitch: bool, base: nat, max: nat, addr: Addr): Shell {
    Shell(NewMachine(killSwitch, base, max), 0, None, None, None, addr, Disconnected, Off, {}, multiset{}, {}, 0)
  }

  /** How the operations tried while handling one event turn out. */
  datatype Outcomes = Outcomes(bindOk: bool, freePort: nat, setOk: bool, undoOk: bool, clearOk: bool)

  /** Binding port 0 takes a free port; binding any other port binds that one. */
  function Bound(addr: Addr, out: Outcomes): Addr {
    if addr.port == 0 then addr.(port := out.freePort + 1) else addr
  }

  // --- the shell's actions ---------------------------------------------------------------

  predicate CanFail(a: Action) { a.SetProxy? || a.ClearProxy? || a.StartServing? }

  predicate Fallible(acts: seq<Action>) {
    acts != [] && (CanFail(acts[0]) || Fallible(acts[1..]))
  }

  function StartDial(sh: Shell): Shell {
    if sh.dial.Some? then sh
    else
      var g := sh.generation + 1;
      sh.(generation := g, dial := Some(g), dials := sh.dials + {g})
  }

  function Feed(sh: Shell, input: Input, out: Outcomes): Shell
    decreases if input.ServiceFailed? then 0 else 1, 10
  {
    var (m, acts) := Handled(sh.m, input);
    Perform(sh.(m := m), acts, out)
  }

  /** The actions in order; a failed one feeds ServiceFailed back and drops the rest. */
  function Perform(sh: Shell, acts: seq<Action>, out: Outcomes): Shell
    decreases if Fallible(acts) then 1 else 0, |acts|
  {
    if acts == [] then sh
    else
      match acts[0]
      case Dial => Perform(StartDial(sh), acts[1..], out)
      case SetProxy =>
        if out.setOk then Perform(sh.(proxy := Pointing(sh.addr)), acts[1..], out)
        else Feed(sh.(proxy := if out.undoOk then Off else InDoubt), ServiceFailed, out)
      case ClearProxy =>
        if out.clearOk then Perform(sh.(proxy := Off), acts[1..], out)
        else Feed(sh.(proxy := InDoubt), ServiceFailed, out)
      case StartServing =>
        if sh.current.None? then Perform(sh, acts[1..], out)
        else if !out.bindOk then Feed(sh, ServiceFailed, out)
        else
          var addr := Bound(sh.addr, out);
          Perform(sh.(addr := addr, serving := Some(Serving(sh.generation, addr, sh.current.value)),
                      served := sh.served + {sh.generation}), acts[1..], out)
      case StopServing => Perform(sh.(serving := None, current := None), acts[1..], out)
      case ScheduleBackoff(delay) =>
        Perform(sh.(timers := sh.timers + multiset{sh.generation}, wait := delay), acts[1..], out)
      case Emit(state) => Perform(sh.(published := state), acts[1..], out)
  }

  // --- events ----------------------------------------------------------------------------

  datatype Event =
    | UserConnect
    | UserDisconnect
    | NetworkChanged(online: bool)
    | DialDone(generation: nat, ok: bool)
    | TimerFired(generation: nat)
    | Dropped(generation: nat)

  predicate CanHappen(sh: Shell, ev: Event) {
    match ev
    case DialDone(g, _) => g in sh.dials
    case TimerFired(g) => g in sh.timers
    case Dropped(g) => g in sh.served
    case _ => true
  }

  function OnDialResult(sh: Shell, ok: bool, out: Outcomes): Shell {
    if !ok then Feed(sh, DialFailed, out)
    else
      var sh' := Feed(sh.(current := Some(sh.generation)), DialSucceeded, out);
      if sh'.m.state.Connected? then sh' else sh'.(current := None)
  }

  function React(sh: Shell, ev: Event, out: Outcomes): Shell
    requires CanHappen(sh, ev)
  {
    match ev
    case UserConnect =>
      if sh.m.state.Disconnected? || sh.m.state.Error? then Feed(sh, Connect, out) else sh
    case UserDisconnect => Feed(sh.(generation := sh.generation + 1, dial := None), Disconnect, out)
    case NetworkChanged(o) => Feed(sh, Connectivity(o), out)
    case DialDone(g, ok) =>
      var sh' := sh.(dials := sh.dials - {g});
      if g == sh.generation then OnDialResult(sh'.(dial := None), ok, out) else sh'
    case TimerFired(g) =>
      var sh' := sh.(timers := sh.timers - multiset{g});
      if g == sh.generation then Feed(sh', BackoffElapsed, out) else sh'
    case Dropped(g) => if g == sh.generation then Feed(sh, TunnelDropped, out) else sh
  }

  // --- invariants ------------------------------------------------------------------------

  ghost predicate Mailboxes(sh: Shell) {
    && (forall g :: g in sh.dials || g in sh.timers || g in sh.served ==> g <= sh.generation)
    && (sh.dial.Some? ==> sh.dial.value == sh.generation)
    && (sh.generation in sh.dials <==> sh.dial.Some?)
  }

  /** No lost wake-up, single flight: what can still bring the machine out of its state. */
  predicate WakeUps(sh: Shell) {
    match sh.m.state
    case Connecting => sh.dial.Some? && sh.timers[sh.generation] == 0
    case Reconnecting =>
      && sh.timers[sh.generation] <= 1
      && !(sh.dial.Some? && sh.timers[sh.generation] == 1)
      && (sh.m.online ==> sh.dial.Some? || sh.timers[sh.generation] == 1)
    case _ => sh.dial.None? && sh.timers[sh.generation] == 0
  }

  /** Publication, serving and proxy agree with the machine. */
  predicate Services(sh: Shell) {
    && sh.published == sh.m.state
    && (sh.m.proxySet ==> sh.proxy == Pointing(sh.addr) && sh.addr.port != 0)
    && (sh.m.state.Connected? ==>
          && sh.m.proxySet
          && sh.current == Some(sh.generation)
          && sh.serving == Some(Serving(sh.generation, sh.addr, sh.generation)))
    && (!sh.m.state.Connected? ==> sh.serving.None? && sh.current.None?)
    && (sh.m.state.Disconnected? ==> sh.proxy.Off? && !sh.m.proxySet)
    && (sh.m.state.Connecting? || sh.m.state.Error? ==> !sh.m.proxySet)
    && (sh.m.state.Reconnecting? ==> sh.m.proxySet == sh.m.killSwitch && (!sh.m.killSwitch ==> sh.proxy.Off?))
  }

  ghost predicate ShellInv(sh: Shell) { Mailboxes(sh) && WakeUps(sh) && Services(sh) }

  lemma StartsIdle(killSwitch: bool, base: nat, max: nat, addr: Addr)
    ensures ShellInv(NewShell(killSwitch, base, max, addr))
  {
  }

  // --- what feeding each input does ------------------------------------------------------

  lemma PerformOne(sh: Shell, a: Action, out: Outcomes)
    requires !CanFail(a)
    ensures Perform(sh, [a], out) == Done(sh, a)
  {
    assert [a][1..] == [];
  }

  /** The effect of an action that succeeds. */
  function Done(sh: Shell, a: Action): Shell {
    match a
    case Dial => StartDial(sh)
    case SetProxy => sh.(proxy := Pointing(sh.addr))
    case ClearProxy => sh.(proxy := Off)
    case StartServing => sh
    case StopServing => sh.(serving := None, current := None)
    case ScheduleBackoff(delay) => sh.(timers := sh.timers + multiset{sh.generation}, wait := delay)
    case Emit(state) => sh.(published := state)
  }

  /** A local failure ends in Error with nothing served, and says so. */
  function Failed(sh: Shell): Shell {
    sh.(m := sh.m.(state := Error, proxySet := false), serving := None, current := None, published := Error)
  }

  lemma FeedFailed(sh: Shell, out: Outcomes)
    ensures Feed(sh, ServiceFailed, out) == Failed(sh)
  {
    var sh1 := sh.(m := sh.m.(state := Error, proxySet := false));
    var acts := [StopServing, Emit(Error)];
    assert acts[1..] == [Emit(Error)];
    PerformOne(Done(sh1, StopServing), Emit(Error), out);
  }

  lemma PerformFirst(sh: Shell, a: Action, rest: seq<Action>, out: Outcomes)
    ensures !CanFail(a) ==> Perform(sh, [a] + rest, out) == Perform(Done(sh, a), rest, out)
    ensures a.SetProxy? && out.setOk ==> Perform(sh, [a] + rest, out) == Perform(Done(sh, a), rest, out)
    ensures a.ClearProxy? && out.clearOk ==> Perform(sh, [a] + rest, out) == Perform(Done(sh, a), rest, out)
    ensures a.SetProxy? && !out.setOk ==>
              Perform(sh, [a] + rest, out) == Failed(sh.(proxy := if out.undoOk then Off else InDoubt))
    ensures a.ClearProxy? && !out.clearOk ==>
              Perform(sh, [a] + rest, out) == Failed(sh.(proxy := InDoubt))
    ensures a.StartServing? && sh.current.Some? && !out.bindOk ==>
              Perform(sh, [a] + rest, out) == Failed(sh)
    ensures a.StartServing? && sh.current.Some? && out.bindOk ==>
              Perform(sh, [a] + rest, out)
              == Perform(sh.(addr := Bound(sh.addr, out),
                             serving := Some(Serving(sh.generation, Bound(sh.addr, out), sh.current.value)),
                             served := sh.served + {sh.generation}), rest, out)
  {
    assert ([a] + rest)[1..] == rest;
    FeedFailed(sh, out);
    FeedFailed(sh.(proxy := if out.undoOk then Off else InDoubt), out);
    FeedFailed(sh.(proxy := InDoubt), out);
  }

  lemma FeedConnect(sh: Shell, out: Outcomes)
    requires sh.m.state.Disconnected? || sh.m.state.Error?
    ensures Feed(sh, Connect, out)
            == StartDial(sh.(m := sh.m.(state := Connecting, attempt := 0), published := Connecting))
  {
    var sh1 := sh.(m := sh.m.(state := Connecting, attempt := 0));
    assert [Emit(Connecting)] + [Dial] == [Emit(Connecting), Dial];
    PerformFirst(sh1, Emit(Connecting), [Dial], out);
    PerformOne(Done(sh1, Emit(Connecting)), Dial, out);
  }

  /** A dial that succeeds: listener first, then the proxy unless it is already set, then the news. */
  function Served(sh: Shell, out: Outcomes): Shell
    requires sh.current.Some?
  {
    var m := sh.m.(state := Connected, attempt := if sh.m.state.Reconnecting? then 0 else sh.m.attempt, proxySet := true);
    if !out.bindOk then Failed(sh.(m := m))
    else
      var addr := Bound(sh.addr, out);
      var sh1 := sh.(m := m, addr := addr, serving := Some(Serving(sh.generation, addr, sh.current.value)),
                     served := sh.served + {sh.generation});
      if sh.m.proxySet then sh1.(published := Connected)
      else if out.setOk then sh1.(proxy := Pointing(addr), published := Connected)
      else Failed(sh1.(proxy := if out.undoOk then Off else InDoubt))
  }

  lemma FeedServed(sh: Shell, out: Outcomes)
    requires sh.current.Some? && (sh.m.state.Connecting? || sh.m.state.Reconnecting?)
    ensures Feed(sh, DialSucceeded, out) == Served(sh, out)
  {
    var (m, acts) := Handled(sh.m, DialSucceeded);
    var sh0 := sh.(m := m);
    var rest := (if sh.m.proxySet then [] else [SetProxy]) + [Emit(Connected)];
    assert acts == [StartServing] + rest;
    PerformFirst(sh0, StartServing, rest, out);
    if out.bindOk {
      var addr := Bound(sh.addr, out);
      var sh1 := sh0.(addr := addr, serving := Some(Serving(sh.generation, addr, sh.current.value)),
                      served := sh.served + {sh.generation});
      assert Feed(sh, DialSucceeded, out) == Perform(sh1, rest, out);
      if sh.m.proxySet {
        assert rest == [Emit(Connected)];
        PerformOne(sh1, Emit(Connected), out);
      } else {
        assert rest == [SetProxy] + [Emit(Connected)];
        PerformFirst(sh1, SetProxy, [Emit(Connected)], out);
        PerformOne(Done(sh1, SetProxy), Emit(Connected), out);
      }
    }
  }

  /** Clear the proxy if asked to, then do the rest; a failed clear ends in Error. */
  lemma PerformClear(sh: Shell, clear: bool, last: Action, out: Outcomes)
    requires !CanFail(last)
    ensures Perform(sh, (if clear then [ClearProxy] else []) + [last], out)
            == if !clear then Done(sh, last)
               else if out.clearOk then Done(sh.(proxy := Off), last)
               else Failed(sh.(proxy := InDoubt))
  {
    if clear {
      PerformFirst(sh, ClearProxy, [last], out);
      PerformOne(sh.(proxy := Off), last, out);
    } else {
      assert [] + [last] == [last];
      PerformOne(sh, last, out);
    }
  }

  lemma FeedDisconnect(sh: Shell, out: Outcomes)
    requires !sh.m.state.Disconnected?
    ensures var idle := sh.m.state.Connecting? || sh.m.state.Reconnecting?;
            var sh1 := sh.(m := sh.m.(state := Disconnected, proxySet := false),
                           serving := if idle then sh.serving else None, current := if idle then sh.current else None);
            var clear := sh.m.proxySet || sh.m.state.Connecting? || sh.m.state.Error?;
            Feed(sh, Disconnect, out)
            == if !clear then sh1.(published := Disconnected)
               else if out.clearOk then sh1.(proxy := Off, published := Disconnected)
               else Failed(sh1.(proxy := InDoubt))
  {
    var (m, acts) := Handled(sh.m, Disconnect);
    var sh0 := sh.(m := m);
    var clear := sh.m.proxySet || sh.m.state.Connecting? || sh.m.state.Error?;
    var rest := (if clear then [ClearProxy] else []) + [Emit(Disconnected)];
    if sh.m.state.Connecting? || sh.m.state.Reconnecting? {
      assert acts == rest;
      PerformClear(sh0, clear, Emit(Disconnected), out);
    } else {
      assert acts == [StopServing] + rest;
      PerformFirst(sh0, StopServing, rest, out);
      PerformClear(Done(sh0, StopServing), clear, Emit(Disconnected), out);
    }
  }

  lemma FeedDropped(sh: Shell, out: Outcomes)
    requires sh.m.state.Connected?
    ensures var clear := !sh.m.killSwitch && sh.m.proxySet;
            var sh1 := sh.(m := sh.m.(state := Reconnecting, attempt := 0, proxySet := sh.m.killSwitch && sh.m.proxySet),
                           serving := None, current := None);
            var then_ := sh1.(timers := sh.timers + multiset{sh.generation}, published := Reconnecting,
                              wait := BackoffDelay(0, sh.m.base, sh.m.max));
            Feed(sh, TunnelDropped, out)
            == if !clear then then_
               else if out.clearOk then then_.(proxy := Off)
               else Failed(sh1.(proxy := InDoubt))
  {
    var (m, acts) := Handled(sh.m, TunnelDropped);
    var sh0 := sh.(m := m);
    var sh1 := Done(sh0, StopServing);
    var timer := ScheduleBackoff(BackoffDelay(0, sh.m.base, sh.m.max));
    var last := [timer] + [Emit(Reconnecting)];
    assert last == [timer, Emit(Reconnecting)];
    if !sh.m.killSwitch && sh.m.proxySet {
      assert acts == [StopServing] + ([ClearProxy] + last);
      PerformFirst(sh0, StopServing, [ClearProxy] + last, out);
      PerformFirst(sh1, ClearProxy, last, out);
      PerformFirst(sh1.(proxy := Off), timer, [Emit(Reconnecting)], out);
      PerformOne(Done(sh1.(proxy := Off), timer), Emit(Reconnecting), out);
    } else {
      assert acts == [StopServing] + last;
      PerformFirst(sh0, StopServing, last, out);
      PerformFirst(sh1, timer, [Emit(Reconnecting)], out);
      PerformOne(Done(sh1, timer), Emit(Reconnecting), out);
    }
  }

  // --- every event keeps the invariant ---------------------------------------------------

  lemma ServedKeeps(sh: Shell, out: Outcomes)
    requires Mailboxes(sh) && sh.dial.None? && sh.timers[sh.generation] == 0
    requires sh.m.state.Connecting? || sh.m.state.Reconnecting?
    requires Services(sh)
    ensures ShellInv(OnDialResult(sh, true, out))
  {
    FeedServed(sh.(current := Some(sh.generation)), out);
    hide Feed;
  }

  lemma DisconnectKeeps(sh: Shell, out: Outcomes)
    requires ShellInv(sh)
    ensures ShellInv(React(sh, UserDisconnect, out))
  {
    var sh1 := sh.(generation := sh.generation + 1, dial := None);
    if sh.m.state.Disconnected? {
      assert Feed(sh1, Disconnect, out) == sh1;
    } else {
      FeedDisconnect(sh1, out);
      hide Feed;
    }
  }

  lemma DroppedKeeps(sh: Shell, out: Outcomes)
    requires ShellInv(sh)
    ensures ShellInv(Feed(sh, TunnelDropped, out))
  {
    if sh.m.state.Connected? {
      FeedDropped(sh, out);
      hide Feed;
    }
  }

  lemma DialKeeps(sh: Shell, m: MachineState, out: Outcomes)
    requires Mailboxes(sh) && Services(sh) && sh.m.state.Reconnecting?
    requires m == sh.m.(online := m.online, attempt := m.attempt) && m.online
    requires sh.timers[sh.generation] == 0 || sh.dial.None?
    ensures ShellInv(Perform(sh.(m := m), [Dial], out))
  {
    PerformOne(sh.(m := m), Dial, out);
  }

  lemma DialResultKeeps(sh: Shell, g: nat, ok: bool, out: Outcomes)
    requires ShellInv(sh) && g in sh.dials
    ensures ShellInv(React(sh, DialDone(g, ok), out))
  {
    if g == sh.generation {
      var sh1 := sh.(dials := sh.dials - {g}, dial := None);
      if ok {
        ServedKeeps(sh1, out);
      } else {
        var (m, acts) := Handled(sh.m, DialFailed);
        if sh.m.state.Connecting? {
          PerformOne(sh1.(m := m), Emit(Error), out);
        } else {
          PerformOne(sh1.(m := m), acts[0], out);
        }
      }
    }
  }

  lemma TimerKeeps(sh: Shell, g: nat, out: Outcomes)
    requires ShellInv(sh) && g in sh.timers
    ensures ShellInv(React(sh, TimerFired(g), out))
  {
    if g == sh.generation {
      var sh1 := sh.(timers := sh.timers - multiset{g});
      if sh.m.state.Reconnecting? && sh.m.online { DialKeeps(sh1, sh.m, out); }
    }
  }

  lemma NetworkKeeps(sh: Shell, online: bool, out: Outcomes)
    requires ShellInv(sh)
    ensures ShellInv(Feed(sh, Connectivity(online), out))
  {
    if sh.m.state.Reconnecting? && online && !sh.m.online {
      DialKeeps(sh, sh.m.(online := true, attempt := 0), out);
    }
  }

  /** Every event, under every pattern of failures, keeps the invariant. */
  lemma ReactKeeps(sh: Shell, ev: Event, out: Outcomes)
    requires ShellInv(sh) && CanHappen(sh, ev)
    ensures ShellInv(React(sh, ev, out))
  {
    match ev
    case UserConnect => if sh.m.state.Disconnected? || sh.m.state.Error? { FeedConnect(sh, out); }
    case UserDisconnect => DisconnectKeeps(sh, out);
    case NetworkChanged(o) => NetworkKeeps(sh, o, out);
    case DialDone(g, ok) => DialResultKeeps(sh, g, ok, out);
    case TimerFired(g) => TimerKeeps(sh, g, out);
    case Dropped(_) => DroppedKeeps(sh, out);
  }
}
