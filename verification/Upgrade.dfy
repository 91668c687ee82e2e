/**
 Replacing a server's container by one of a new image, over a remote host on which every command
 may work, fail, or be lost with or without having taken effect.
 */
module Upgrade {
  import opened Basics

  // --- the remote host -------------------------------------------------------------------

  type Name = string

  /** `stopped` on command: such a container stays down until it is started; one that fell over may be
      restarted by the host at any time. */
  datatype Container = Container(id: nat, image: string, running: bool, stopped: bool)

  /** The host's containers by name; `ready` is history: those that answered a readiness probe. */
  datatype World = World(containers: map<Name, Container>, nextId: nat, ready: set<nat>)

  datatype Command =
    | Inspect(name: Name)
    | ReadConfig
    | Pull(image: string)
    | Rename(name: Name, newName: Name)
    | Stop(name: Name)
    | Remove(name: Name)
    | RunNew(name: Name, image: string)
    | Start(name: Name)
    | Probe(name: Name)

  datatype Why = NoSuchContainer | AddressInUse | Unready | Other

  datatype Reply = Done | Refused(why: Why) | Lost

  datatype Kind = Works | Fails(why: Why) | Drops

  /** What happens to one command. A command that does not work may still have been applied;
      `up` says whether a container it starts or probes is alive by then. */
  datatype Fault = Fault(kind: Kind, applied: bool, up: bool)

  predicate Possible(w: World, c: Command) {
    match c
    case ReadConfig => true
    case Pull(_) => true
    case Rename(a, b) => a in w.containers && b !in w.containers
    case RunNew(n, _) => n !in w.containers
    case _ => c.name in w.containers
  }

  function Performed(w: World, c: Command, up: bool): World
    requires Possible(w, c)
  {
    var cs := w.containers;
    match c
    case Rename(a, b) => w.(containers := (cs - {a})[b := cs[a]])
    case Stop(n) => w.(containers := cs[n := cs[n].(running := false, stopped := true)])
    case Remove(n) => w.(containers := cs - {n})
    case RunNew(n, image) => w.(containers := cs[n := Container(w.nextId, image, up, false)], nextId := w.nextId + 1)
    case Start(n) => w.(containers := cs[n := cs[n].(running := up, stopped := false)])
    case Probe(n) => w.(containers := cs[n := cs[n].(running := up && !cs[n].stopped)])
    case _ => w
  }

  /** The host's answers are truthful: it says a container is missing only when it is. */
  function Answer(w: World, c: Command, why: Why): Reply {
    if why.NoSuchContainer? && c.Remove? && c.name in w.containers then Refused(Other) else Refused(why)
  }

  function Execute(w: World, c: Command, f: Fault): (World, Reply) {
    if !Possible(w, c) then
      (w, if f.kind.Drops? then Lost
          else if c.RunNew? || (c.Rename? && c.name in w.containers) then Refused(Other)
          else Refused(NoSuchContainer))
    else if f.kind.Works? then
      if c.Probe? then
        var w' := Performed(w, c, f.up);
        if w'.containers[c.name].running then (w'.(ready := w.ready + {w.containers[c.name].id}), Done) else (w', Refused(Unready))
      else (Performed(w, c, true), Done)
    else
      var w' := if f.applied then Performed(w, c, f.up) else w;
      (w', if f.kind.Drops? then Lost else Answer(w', c, f.kind.why))
  }

  // --- what a stretch of commands may touch ----------------------------------------------

  predicate SameBox(c: Container, d: Container) { c.id == d.id && c.image == d.image }

  ghost predicate Fresh(w: World) {
    forall n :: n in w.containers ==> w.containers[n].id < w.nextId
  }

  /** `w` differs from `w0` at most in the containers of these names. */
  ghost predicate Confined(w0: World, w: World, names: set<Name>) {
    && w0.nextId <= w.nextId && w0.ready <= w.ready
    && (forall n :: n !in names ==> (n in w.containers <==> n in w0.containers))
    && (forall n :: n !in names && n in w0.containers ==> w.containers[n] == w0.containers[n])
  }

  function Names(c: Command): set<Name> {
    match c
    case ReadConfig => {}
    case Pull(_) => {}
    case Rename(a, b) => {a, b}
    case _ => {c.name}
  }

  lemma ExecuteIsConfined(w: World, c: Command, f: Fault)
    requires Fresh(w)
    ensures Fresh(Execute(w, c, f).0) && Confined(w, Execute(w, c, f).0, Names(c))
  {
  }

  /** The container `box` is on the host under one of the two names. */
  predicate Kept(w: World, box: Container, a: Name, b: Name) {
    || (a in w.containers && SameBox(w.containers[a], box))
    || (b in w.containers && SameBox(w.containers[b], box))
  }

  /** The container of this name has the image, was made at or after `since`, and answered. */
  predicate Serving(w: World, name: Name, image: string, since: nat) {
    && name in w.containers && w.containers[name].image == image
    && w.containers[name].id >= since && w.containers[name].running
    && w.containers[name].id in w.ready
  }

  // --- the record and the outcome --------------------------------------------------------

  datatype Record = Record(container: Name, imageRef: string, host: string, port: Option<nat>)

  datatype Outcome =
    | Upgraded(recoveryRetained: bool)
    | NotStarted                // refused before anything was renamed, or at the rename itself
    | RolledBack                // failed, and the old container serves again
    | RollbackFailed(recovery: Name)

  const RUN_ATTEMPTS := 5
  const READY_ATTEMPTS := 15

  predicate ValidChar(c: char) {
    || 'a' <= c <= 'z' || 'A' <= c <= 'Z' || '0' <= c <= '9'
    || c == '.' || c == '_' || c == '-' || c == '/' || c == ':' || c == '@'
  }

  predicate ValidImageRef(s: string) { s != [] && forall c <- s :: ValidChar(c) }

  /** The characters an image or container name may have. */
  lemma ImageRefAlphabet(c: char)
    ensures ValidChar(c) <==> c in "abcdefghijklmnopqrstuvwxyz" || c in "ABCDEFGHIJKLMNOPQRSTUVWXYZ" || c in "0123456789._-/:@"
  {
    LowerCase(c);
    UpperCase(c);
  }

  lemma LowerCase(c: char)
    ensures c in "abcdefghijklmnopqrstuvwxyz" <==> 'a' <= c <= 'z'
  {
  }

  lemma UpperCase(c: char)
    ensures c in "ABCDEFGHIJKLMNOPQRSTUVWXYZ" <==> 'A' <= c <= 'Z'
  {
  }

  function BackupName(container: Name, suffix: string): (b: Name)
    ensures b != container
  {
    var b := container + "-rollback-" + suffix;
    assert |b| > |container|;
    b
  }

  /** Every state from `from` on in the log is confined to these names. */
  ghost predicate LogConfined(log: seq<World>, from: nat, w0: World, names: set<Name>) {
    forall i :: from <= i < |log| ==> Confined(w0, log[i], names)
  }

  ghost predicate LogKept(log: seq<World>, from: nat, box: Container, a: Name, b: Name) {
    forall i :: from <= i < |log| ==> Kept(log[i], box, a, b)
  }

  /** The k-th command does not work, or a container it starts or probes does not come up. */
  predicate Bad(faults: nat -> Fault, k: nat) { !(faults(k).kind.Works? && faults(k).up) }

  /** The first `n` attempts from the c-th command on, two commands each, lost a race for a port. */
  ghost predicate PortRaces(faults: nat -> Fault, c: nat, n: nat) {
    n == 0 || (PortRaces(faults, c, n - 1) && faults(c + 2 * n - 1).kind == Fails(AddressInUse))
  }

  /** Something went wrong from the m-th command on, before the n-th. */
  ghost predicate BadIn(faults: nat -> Fault, m: nat, n: nat) { exists k :: m <= k < n && Bad(faults, k) }

  /** Two things did. */
  ghost predicate TwiceBadIn(faults: nat -> Fault, m: nat, n: nat) {
    exists j, k :: m <= j < k < n && Bad(faults, j) && Bad(faults, k)
  }

  lemma BadLately(faults: nat -> Fault, m: nat, m': nat, n: nat)
    requires m <= m' && BadIn(faults, m', n)
    ensures BadIn(faults, m, n)
  {
    var k :| m' <= k < n && Bad(faults, k);
  }

  lemma OneMoreRace(faults: nat -> Fault, c: nat, n: nat)
    requires n > 0 && PortRaces(faults, c, n - 1) && faults(c + 2 * n - 1).kind == Fails(AddressInUse)
    ensures PortRaces(faults, c, n)
  {
  }

  /** The commands before the swap. */
  function Preparation(container: Name, image: string): seq<Command> {
    [Inspect(container), Inspect(container), ReadConfig, Pull(image)]
  }

  class Operator {
    const faults: nat -> Fault       // what happens to the n-th command
    var clock: nat
    var world: World
    var rec: Record
    ghost var log: seq<World>        // the host after each command
    ghost var trace: seq<Command>

    constructor (faults: nat -> Fault, world: World, rec: Record)
      requires Fresh(world)
      ensures Valid() && this.world == world && this.rec == rec && this.faults == faults && log == []
    {
      this.faults, this.clock, this.world, this.rec, this.log, this.trace := faults, 0, world, rec, [], [];
    }

    ghost predicate Valid() reads this { Fresh(world) }

    method Run(c: Command) returns (r: Reply)
      requires Valid()
      modifies this`clock, this`world, this`log, this`trace
      ensures Valid() && (world, r) == Execute(old(world), c, faults(old(clock)))
      ensures Confined(old(world), world, Names(c))
      ensures clock == old(clock) + 1 && log == old(log) + [world] && trace == old(trace) + [c]
      ensures !r.Done? && Possible(old(world), c) && !(c.Probe? && old(world).containers[c.name].stopped) ==>
                Bad(faults, old(clock))
    {
      ExecuteIsConfined(world, c, faults(clock));
      r := Execute(world, c, faults(clock)).1;
      world := Execute(world, c, faults(clock)).0;
      clock := clock + 1;
      log := log + [world];
      trace := trace + [c];
    }

    /** Creates the container, first removing any of its name. A port race is retried, five attempts
        in all, and nothing else is. */
    method RunContainer(name: Name, image: string) returns (r: Reply)
      requires Valid()
      modifies this`clock, this`world, this`log, this`trace
      ensures Valid() && old(clock) <= clock <= old(clock) + 2 * RUN_ATTEMPTS
      ensures old(log) <= log && LogConfined(log, |old(log)|, old(world), {name})
      ensures Confined(old(world), world, {name})
      ensures r.Done? ==>
                && name in world.containers && world.containers[name].image == image
                && world.containers[name].id >= old(world).nextId && world.containers[name].running
                && !world.containers[name].stopped
      ensures old(trace) <= trace
      ensures !r.Done? ==> BadIn(faults, old(clock), clock)
      ensures clock >= old(clock) + 2 && (r == Refused(AddressInUse) ==> clock == old(clock) + 10)
      ensures PortRaces(faults, old(clock), (clock - old(clock)) / 2 - 1)
    {
      assert PortRaces(faults, clock, 0);
      hide Execute, BadIn, Bad, Fresh, PortRaces, LogConfined, Confined;
      ConfinedNowhere(world, log, {name});
      var attempt := 0;
      r := Lost;
      while attempt < RUN_ATTEMPTS
        invariant 0 <= attempt <= RUN_ATTEMPTS && clock == old(clock) + 2 * attempt && !r.Done?
        invariant attempt > 0 ==> BadIn(faults, old(clock), clock) && r == Refused(AddressInUse)
        invariant Valid() && old(log) <= log && LogConfined(log, |old(log)|, old(world), {name})
        invariant Confined(old(world), world, {name}) && old(world).nextId <= world.nextId && old(trace) <= trace
        invariant PortRaces(faults, old(clock), attempt)
      {
        label before:
        r := Attempt(name, image);
        ConfinedFurther(old(log), old(world), old@before(log), old@before(world), log, world, {name});
        if !r.Done? { BadLately(faults, old(clock), old@before(clock), clock); }
        if r != Refused(AddressInUse) { return; }
        attempt := attempt + 1;
        OneMoreRace(faults, old(clock), attempt);
      }
    }

    method Attempt(name: Name, image: string) returns (r: Reply)
      requires Valid()
      modifies this`clock, this`world, this`log, this`trace
      ensures Valid() && clock == old(clock) + 2
      ensures old(log) <= log && LogConfined(log, |old(log)|, old(world), {name})
      ensures Confined(old(world), world, {name}) && old(world).nextId <= world.nextId
      ensures r.Done? ==>
                && name in world.containers && world.containers[name].image == image
                && world.containers[name].id >= old(world).nextId && world.containers[name].running
                && !world.containers[name].stopped
      ensures trace == old(trace) + [Remove(name), RunNew(name, image)]
      ensures !r.Done? ==> BadIn(faults, old(clock), clock)
      ensures r == Refused(AddressInUse) ==> faults(old(clock) + 1).kind == Fails(AddressInUse)
    {
      hide Execute;
      RemovedFreesTheName(world, name, faults(clock));
      var _ := Run(Remove(name));
      RunMakesIt(world, name, image, faults(clock));
      r := Run(RunNew(name, image));
      assert !r.Done? ==> Bad(faults, old(clock)) || Bad(faults, old(clock) + 1);
    }

    /** Asks the server's control socket, again while it is not up yet, fifteen times at most; it gives
        up before that only on another reply. */
    method WaitReady(name: Name) returns (r: Reply)
      requires Valid()
      modifies this`clock, this`world, this`log, this`trace
      ensures Valid() && old(clock) <= clock <= old(clock) + READY_ATTEMPTS
      ensures old(log) <= log && LogConfined(log, |old(log)|, old(world), {name})
      ensures Confined(old(world), world, {name})
      ensures name in world.containers <==> name in old(world).containers
      ensures name in world.containers ==> SameBox(world.containers[name], old(world).containers[name])
      ensures name in old(world).containers ==>
                forall i :: |old(log)| <= i < |log| ==>
                  name in log[i].containers && SameBox(log[i].containers[name], old(world).containers[name])
      ensures r.Done? ==>
                name in world.containers && world.containers[name].running
                && world.containers[name].id in world.ready
      ensures !r.Done? && name in old(world).containers && !old(world).containers[name].stopped ==>
                BadIn(faults, old(clock), clock)
      ensures old(trace) <= trace
      ensures clock >= old(clock) + 1 && (r == Refused(Unready) ==> clock == old(clock) + 15)
      ensures name in old(world).containers && !old(world).containers[name].stopped ==>
                forall k :: old(clock) <= k < clock - 1 ==> Bad(faults, k)
    {
      var attempt := 0;
      r := Lost;
      while attempt < READY_ATTEMPTS
        invariant 0 <= attempt <= READY_ATTEMPTS && clock == old(clock) + attempt && !r.Done?
        invariant attempt > 0 ==> r == Refused(Unready)
        invariant old(trace) <= trace
        invariant Valid() && old(log) <= log && LogConfined(log, |old(log)|, old(world), {name})
        invariant Confined(old(world), world, {name})
        invariant name in world.containers <==> name in old(world).containers
        invariant name in world.containers ==> SameBox(world.containers[name], old(world).containers[name])
        invariant name in old(world).containers && !old(world).containers[name].stopped ==>
                    !world.containers[name].stopped && forall k :: old(clock) <= k < clock ==> Bad(faults, k)
        invariant name in old(world).containers ==>
                    forall i :: |old(log)| <= i < |log| ==>
                      name in log[i].containers && SameBox(log[i].containers[name], old(world).containers[name])
      {
        r := Run(Probe(name));
        assert !r.Done? && name in old(world).containers && !old(world).containers[name].stopped ==> Bad(faults, clock - 1);
        if r != Refused(Unready) || attempt + 1 == READY_ATTEMPTS { return; }
        attempt := attempt + 1;
      }
      assert name in old(world).containers && !old(world).containers[name].stopped ==> Bad(faults, old(clock));
    }

    /** Stops the old container under its recovery name and brings the replacement up. */
    method Replace(name: Name, backup: Name, image: string) returns (r: Reply)
      requires Valid() && name != backup && backup in world.containers
      modifies this`clock, this`world, this`log, this`trace
      ensures Valid() && old(clock) <= clock <= old(clock) + 1 + 2 * RUN_ATTEMPTS + READY_ATTEMPTS
      ensures Stretch(old(log), old(world), log, world, old(world).containers[backup], name, backup)
      ensures backup in world.containers && SameBox(world.containers[backup], old(world).containers[backup])
      ensures r.Done? ==> Serving(world, name, image, old(world).nextId) && !world.containers[backup].running
      ensures old(trace) + [Stop(backup)] <= trace
      ensures !r.Done? ==> BadIn(faults, old(clock), clock)
    {
      hide Execute, Stretch, LogConfined;
      ghost var box := world.containers[backup];
      StopKeepsTheBox(world, backup, faults(clock));
      r := Run(Stop(backup));
      StretchByOne(old(log), old(world), world, {backup}, box, name, backup);
      if !r.Done? { return; }
      label stopped:
      r := RunContainer(name, image);
      StretchBeside(old@stopped(log), old@stopped(world), log, world, box, name, backup);
      StretchThen(old(log), old(world), old@stopped(log), old@stopped(world), log, world, box, name, backup);
      if !r.Done? { return; }
      label started:
      r := WaitReady(name);
      StretchBeside(old@started(log), old@started(world), log, world, box, name, backup);
      StretchThen(old(log), old(world), old@started(log), old@started(world), log, world, box, name, backup);
    }

    /** Puts the old container back under its own name and waits until it answers. */
    method Rollback(name: Name, backup: Name, ghost box: Container) returns (ok: bool)
      requires Valid() && name != backup && backup in world.containers
      requires SameBox(world.containers[backup], box)
      modifies this`clock, this`world, this`log, this`trace
      ensures Valid() && old(clock) <= clock <= old(clock) + 3 + READY_ATTEMPTS
      ensures Stretch(old(log), old(world), log, world, box, name, backup)
      ensures ok ==> Restored(world, name, backup, box)
      ensures old(trace) + [Remove(name)] <= trace
      ensures ok ==> old(trace) + [Remove(name), Rename(backup, name), Start(name)] <= trace
      ensures !ok ==> BadIn(faults, old(clock), clock)
    {
      hide Execute, Stretch;
      RemovedFreesTheName(world, name, faults(clock));
      var r := Run(Remove(name));
      StretchByOne(old(log), old(world), world, {name}, box, name, backup);
      if !RemovedOrAbsent(r) {
        assert Bad(faults, old(clock));
        return false;
      }
      label removed:
      ok := PutBack(name, backup, box);
      StretchThen(old(log), old(world), old@removed(log), old@removed(world), log, world, box, name, backup);
    }

    method PutBack(name: Name, backup: Name, ghost box: Container) returns (ok: bool)
      requires Valid() && name != backup && backup in world.containers && name !in world.containers
      requires SameBox(world.containers[backup], box)
      modifies this`clock, this`world, this`log, this`trace
      ensures Valid() && old(clock) <= clock <= old(clock) + 2 + READY_ATTEMPTS
      ensures Stretch(old(log), old(world), log, world, box, name, backup)
      ensures ok ==> Restored(world, name, backup, box)
      ensures old(trace) <= trace && (ok ==> old(trace) + [Rename(backup, name), Start(name)] <= trace)
      ensures !ok ==> BadIn(faults, old(clock), clock)
    {
      hide Execute, Stretch, LogConfined;
      RenameMovesTheBox(world, backup, name, faults(clock));
      var r := Run(Rename(backup, name));
      StretchByOne(old(log), old(world), world, {backup, name}, box, name, backup);
      if !r.Done? { return false; }
      label renamed:
      StartKeepsTheBox(world, name, faults(clock));
      r := Run(Start(name));
      StretchByOne(old@renamed(log), old@renamed(world), world, {name}, box, name, backup);
      StretchThen(old(log), old(world), old@renamed(log), old@renamed(world), log, world, box, name, backup);
      if !r.Done? { return false; }
      label started:
      r := WaitReady(name);
      StretchOf(old@started(log), old@started(world), log, world, {name}, box, name, backup);
      StretchThen(old(log), old(world), old@started(log), old@started(world), log, world, box, name, backup);
      return r.Done?;
    }

    /** The checks and the pull that come before anything is touched. `hasEnv` says whether the
        container carries settings to preserve, `persisted` is the port its stored config names. */
    method Prepare(image: string, hasEnv: bool, persisted: Option<nat>) returns (port: Option<nat>)
      requires Valid()
      modifies this`clock, this`world, this`log, this`trace
      ensures Valid() && world == old(world) && old(clock) <= clock <= old(clock) + 4
      ensures old(log) <= log && forall i :: |old(log)| <= i < |log| ==> log[i] == old(world)
      ensures port.Some? ==>
                && ValidImageRef(image) && ValidImageRef(rec.container) && hasEnv
                && rec.container in world.containers
                && port == if persisted.Some? then persisted else rec.port
      ensures old(trace) <= trace && (port.Some? ==> trace == old(trace) + Preparation(rec.container, image))
      ensures (&& port.None? && ValidImageRef(image) && ValidImageRef(rec.container) && hasEnv
               && rec.container in old(world).containers && (persisted.Some? || rec.port.Some?))
              ==> BadIn(faults, old(clock), clock)
    {
      hide Confined;
      if !ValidImageRef(image) || !ValidImageRef(rec.container) { return None; }
      LooksOnly(world, Inspect(rec.container), faults(clock));
      var r := Run(Inspect(rec.container));
      if !r.Done? || !hasEnv { return None; }
      LooksOnly(world, Inspect(rec.container), faults(clock));
      r := Run(Inspect(rec.container));
      if !r.Done? { return None; }
      LooksOnly(world, ReadConfig, faults(clock));
      var _ := Run(ReadConfig);
      port := if persisted.Some? then persisted else rec.port;
      if port.None? { return; }
      LooksOnly(world, Pull(image), faults(clock));
      r := Run(Pull(image));
      if !r.Done? { port := None; }
    }

    /** Renames the old container aside, brings the replacement up, and puts the old one back if
        that fails. */
    method Swap(name: Name, backup: Name, image: string) returns (r: Outcome)
      requires Valid() && name in world.containers && name != backup
      modifies this`clock, this`world, this`log, this`trace
      ensures Valid() && old(clock) <= clock <= old(clock) + 1 + (1 + 2 * RUN_ATTEMPTS + READY_ATTEMPTS) + (3 + READY_ATTEMPTS)
      ensures old(log) <= log
      ensures forall i :: |old(log)| <= i < |log| ==> SafeState(old(world), log[i], name, backup, image, r)
      ensures r.Upgraded? ==>
                && Serving(world, name, image, old(world).nextId)
                && (backup in world.containers ==> r.recoveryRetained)
      ensures r.NotStarted? ==> Untouched(world, name, backup, old(world).containers[name])
      ensures r.RolledBack? ==> Restored(world, name, backup, old(world).containers[name])
      ensures r.RollbackFailed? ==> r.recovery == backup
      ensures r.Upgraded? && backup in world.containers ==> !world.containers[backup].running
      ensures old(trace) <= trace && (!r.NotStarted? ==> old(trace) + [Rename(name, backup), Stop(backup)] <= trace)
      ensures r.RollbackFailed? ==> TwiceBadIn(faults, old(clock), clock)
      ensures r != Upgraded(false) && backup !in old(world).containers ==> BadIn(faults, old(clock), clock)
    {
      hide Execute, Stretch, SafeState;
      ghost var box := world.containers[name];
      RenameAside(world, name, backup, faults(clock));
      var reply := Run(Rename(name, backup));
      StretchByOne(old(log), old(world), world, {name, backup}, box, name, backup);
      if !reply.Done? {
        r := NotStarted;
        StretchIsSafe(old(log), old(world), log, world, image, name, backup, r);
        return;
      }
      label renamed:
      reply := Replace(name, backup, image);
      StretchThen(old(log), old(world), old@renamed(log), old@renamed(world), log, world, box, name, backup);
      if !reply.Done? {
        label failed:
        var ok := Rollback(name, backup, box);
        StretchThen(old(log), old(world), old@failed(log), old@failed(world), log, world, box, name, backup);
        r := if ok then RolledBack else RollbackFailed(backup);
        StretchIsSafe(old(log), old(world), log, world, image, name, backup, r);
        return;
      }
      label ready:
      RemovedFreesTheName(world, backup, faults(clock));
      reply := Run(Remove(backup));
      r := Upgraded(!reply.Done?);
      StretchIsSafe(old(log), old(world), old@ready(log), old@ready(world), image, name, backup, r);
      StillServing(old(world), old@ready(world), world, image, name, backup, r);
    }

    /** Pulls the new image and swaps the container for one that runs it. `suffix` is the random
        part of the recovery name. */
    method Upgrade(image: string, suffix: string, hasEnv: bool, persisted: Option<nat>) returns (r: Outcome)
      requires Valid()
      modifies this
      ensures Valid() && old(clock) <= clock <= old(clock) + 5 + (1 + 2 * RUN_ATTEMPTS + READY_ATTEMPTS) + (3 + READY_ATTEMPTS)
      // Success: the named container runs the new image and has answered, and the record says so.
      ensures r.Upgraded? ==>
                && Serving(world, old(rec).container, image, old(world).nextId)
                && rec == old(rec).(imageRef := image, port := if persisted.Some? then persisted else old(rec).port)
                && (BackupName(old(rec).container, suffix) in world.containers ==> r.recoveryRetained)
      // Failure: the record is untouched.
      ensures !r.Upgraded? ==> rec == old(rec)
      // Only the container and its recovery name are ever touched, and after every command the old
      // container exists under one of the two, unless its replacement serves.
      ensures old(log) <= log
      ensures forall i :: |old(log)| <= i < |log| ==>
                SafeState(old(world), log[i], old(rec).container, BackupName(old(rec).container, suffix), image, r)
      // A missing container is left to provisioning; any other failure says where the old one is.
      ensures old(rec).container !in old(world).containers ==> r.NotStarted? && world == old(world)
      ensures r.NotStarted? && rec.container in old(world).containers ==>
                Untouched(world, rec.container, BackupName(rec.container, suffix), old(world).containers[rec.container])
      ensures r.RolledBack? ==>
                Restored(world, rec.container, BackupName(rec.container, suffix), old(world).containers[rec.container])
      ensures r.RollbackFailed? ==> r.recovery == BackupName(rec.container, suffix)
      // Where there is something to upgrade, only a command that went wrong keeps it from succeeding.
      ensures (&& r != Upgraded(false) && ValidImageRef(image) && ValidImageRef(old(rec).container)
               && hasEnv && (persisted.Some? || old(rec).port.Some?)
               && old(rec).container in old(world).containers
               && BackupName(old(rec).container, suffix) !in old(world).containers)
              ==> BadIn(faults, old(clock), clock)
      // The image is pulled before anything is touched, and the old container is stopped, under its
      // recovery name, before the new one is made; it is not running beside one that serves.
      ensures !r.NotStarted? ==>
                old(trace) + Preparation(old(rec).container, image)
                + [Rename(old(rec).container, BackupName(old(rec).container, suffix)),
                   Stop(BackupName(old(rec).container, suffix))] <= trace
      ensures r.Upgraded? && BackupName(old(rec).container, suffix) in world.containers ==>
                !world.containers[BackupName(old(rec).container, suffix)].running
      // And one that went wrong is rolled back: the rollback is given up only if a second one does.
      ensures r.RollbackFailed? ==> TwiceBadIn(faults, old(clock), clock)
    {
      var port := Prepare(image, hasEnv, persisted);
      if port.None? { return NotStarted; }
      var backup := BackupName(rec.container, suffix);
      label prepared:
      r := Swap(rec.container, backup, image);
      if r.Upgraded? { rec := rec.(imageRef := image, port := port); }
    }
  }

  /** The container as it was, still under its own name or already under the other. */
  predicate Untouched(w: World, name: Name, backup: Name, box: Container) {
    || (name in w.containers && w.containers[name] == box)
    || (backup in w.containers && w.containers[backup] == box)
  }

  /** What holds of the host after each command of an upgrade that ends with `r`. */
  ghost predicate SafeState(w0: World, w: World, name: Name, backup: Name, image: string, r: Outcome) {
    && Confined(w0, w, {name, backup})
    && (name in w0.containers ==>
          || Kept(w, w0.containers[name], name, backup)
          || (r.Upgraded? && Serving(w, name, image, w0.nextId)))
  }

  lemma ConfinedNowhere(w: World, log: seq<World>, names: set<Name>)
    ensures Confined(w, w, names) && LogConfined(log, |log|, w, names)
  {
  }

  lemma ConfinedFurther(log0: seq<World>, w0: World, log1: seq<World>, w1: World, log: seq<World>, w: World, names: set<Name>)
    requires log0 <= log1 <= log && Confined(w0, w1, names) && Confined(w1, w, names)
    requires LogConfined(log1, |log0|, w0, names) && LogConfined(log, |log1|, w1, names)
    ensures Confined(w0, w, names) && LogConfined(log, |log0|, w0, names)
  {
    forall i | |log0| <= i < |log| ensures Confined(w0, log[i], names) {
      if i < |log1| { assert log[i] == log1[i]; }
    }
  }

  lemma LooksOnly(w: World, c: Command, f: Fault)
    requires c.Inspect? || c.ReadConfig? || c.Pull?
    ensures Execute(w, c, f).0 == w
    ensures c.Inspect? && Execute(w, c, f).1.Done? ==> c.name in w.containers
  {
  }

  lemma RenameAside(w: World, a: Name, b: Name, f: Fault)
    requires a in w.containers && a != b
    ensures var (w', r) := Execute(w, Rename(a, b), f);
            && Kept(w', w.containers[a], a, b)
            && (|| (a in w'.containers && w'.containers[a] == w.containers[a])
                || (b in w'.containers && w'.containers[b] == w.containers[a]))
            && (r.Done? ==> b in w'.containers && w'.containers[b] == w.containers[a])
            && w'.nextId == w.nextId
  {
  }

  lemma StretchIsSafe(log0: seq<World>, w0: World, log: seq<World>, w: World, image: string, a: Name, b: Name, r: Outcome)
    requires a in w0.containers && Stretch(log0, w0, log, w, w0.containers[a], a, b)
    ensures log0 <= log && Confined(w0, w, {a, b})
    ensures forall i :: |log0| <= i < |log| ==> SafeState(w0, log[i], a, b, image, r)
  {
  }

  /** Removing the recovery copy leaves the replacement serving. */
  lemma StillServing(w0: World, w1: World, w: World, image: string, a: Name, b: Name, r: Outcome)
    requires a != b && Confined(w0, w1, {a, b}) && Confined(w1, w, {b})
    requires Serving(w1, a, image, w0.nextId) && r.Upgraded?
    ensures Serving(w, a, image, w0.nextId) && SafeState(w0, w, a, b, image, r)
  {
  }

  predicate RemovedOrAbsent(r: Reply) { r.Done? || r == Refused(NoSuchContainer) }

  /** The container is back under its own name, running, and has answered. */
  predicate Restored(w: World, name: Name, backup: Name, box: Container) {
    && backup !in w.containers && name in w.containers && SameBox(w.containers[name], box)
    && w.containers[name].running && w.containers[name].id in w.ready
  }

  /** From `w0` with log `log0` to `w` with log `log`, only the two names were touched, and the
      container `box` was under one of them after every command. */
  ghost predicate Stretch(log0: seq<World>, w0: World, log: seq<World>, w: World, box: Container, a: Name, b: Name) {
    && log0 <= log && Confined(w0, w, {a, b}) && Kept(w, box, a, b)
    && LogConfined(log, |log0|, w0, {a, b}) && LogKept(log, |log0|, box, a, b)
  }

  lemma StretchOf(log0: seq<World>, w0: World, log: seq<World>, w: World, names: set<Name>, box: Container, a: Name, b: Name)
    requires names <= {a, b} && log0 <= log && Confined(w0, w, names) && Kept(w, box, a, b)
    requires LogConfined(log, |log0|, w0, names) && LogKept(log, |log0|, box, a, b)
    ensures Stretch(log0, w0, log, w, box, a, b)
  {
  }

  lemma StretchByOne(log0: seq<World>, w0: World, w: World, names: set<Name>, box: Container, a: Name, b: Name)
    requires names <= {a, b} && Confined(w0, w, names) && Kept(w, box, a, b)
    ensures Stretch(log0, w0, log0 + [w], w, box, a, b)
  {
    StretchOf(log0, w0, log0 + [w], w, names, box, a, b);
  }

  /** A stretch that touches only `a`, while the container sits under `b`. */
  lemma StretchBeside(log0: seq<World>, w0: World, log: seq<World>, w: World, box: Container, a: Name, b: Name)
    requires log0 <= log && Confined(w0, w, {a}) && LogConfined(log, |log0|, w0, {a})
    requires a != b && b in w0.containers && SameBox(w0.containers[b], box)
    ensures Stretch(log0, w0, log, w, box, a, b)
  {
    StretchOf(log0, w0, log, w, {a}, box, a, b);
  }

  lemma StretchThen(log0: seq<World>, w0: World, log1: seq<World>, w1: World, log: seq<World>, w: World,
                    box: Container, a: Name, b: Name)
    requires Stretch(log0, w0, log1, w1, box, a, b) && Stretch(log1, w1, log, w, box, a, b)
    ensures Stretch(log0, w0, log, w, box, a, b)
  {
    forall i | |log0| <= i < |log|
      ensures Confined(w0, log[i], {a, b}) && Kept(log[i], box, a, b)
    {
      if i < |log1| { assert log[i] == log1[i]; }
    }
  }

  lemma StopKeepsTheBox(w: World, name: Name, f: Fault)
    requires name in w.containers
    ensures var w' := Execute(w, Stop(name), f).0;
            name in w'.containers && SameBox(w'.containers[name], w.containers[name])
    ensures Execute(w, Stop(name), f).1.Done? ==> !Execute(w, Stop(name), f).0.containers[name].running
  {
  }

  lemma RunMakesIt(w: World, name: Name, image: string, f: Fault)
    ensures Execute(w, RunNew(name, image), f).1.Done? ==>
              Execute(w, RunNew(name, image), f).0.containers
              == w.containers[name := Container(w.nextId, image, true, false)]
    ensures Execute(w, RunNew(name, image), f).1 == Refused(AddressInUse) ==> f.kind == Fails(AddressInUse)
  {
  }

  lemma RemovedFreesTheName(w: World, name: Name, f: Fault)
    ensures RemovedOrAbsent(Execute(w, Remove(name), f).1) ==> name !in Execute(w, Remove(name), f).0.containers
    ensures f.kind.Works? ==> RemovedOrAbsent(Execute(w, Remove(name), f).1)
    ensures var w' := Execute(w, Remove(name), f).0;
            name in w'.containers ==> name in w.containers && w'.containers[name] == w.containers[name]
  {
  }

  lemma RenameMovesTheBox(w: World, a: Name, b: Name, f: Fault)
    requires a in w.containers && b !in w.containers
    ensures var (w', r) := Execute(w, Rename(a, b), f);
            && Kept(w', w.containers[a], a, b)
            && (b in w'.containers ==> a !in w'.containers)
            && (r.Done? ==> b in w'.containers && w'.containers[b] == w.containers[a])
  {
  }

  lemma StartKeepsTheBox(w: World, name: Name, f: Fault)
    requires name in w.containers
    ensures var w' := Execute(w, Start(name), f).0;
            name in w'.containers && SameBox(w'.containers[name], w.containers[name])
    ensures Execute(w, Start(name), f).1.Done? ==> !Execute(w, Start(name), f).0.containers[name].stopped
  {
  }
}
