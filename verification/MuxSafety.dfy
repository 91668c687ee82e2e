/**
 What one end of the multiplexer keeps against any peer, and what is left once it is torn down.
 The peer may send any frames; the caller may open, send, receive, cancel and drop in any order;
 the tasks may stop at any point.
 */
module MuxSafety {
  import opened Basics
  import opened Frames
  import opened MuxEndpoint

  /** The sinks inside the command queue. */
  function Waiting(q: seq<Command>): set<Key> {
    if q == [] then {}
    else (if q[0].OpenCmd? then {q[0].key} else {}) + Waiting(q[1..])
  }

  /** No sink is in the queue twice. */
  predicate OncePerSink(q: seq<Command>) {
    q == [] || ((q[0].OpenCmd? ==> q[0].key !in Waiting(q[1..])) && OncePerSink(q[1..]))
  }

  lemma {:induction false} WaitingAppend(q: seq<Command>, c: Command)
    ensures Waiting(q + [c]) == Waiting(q) + (if c.OpenCmd? then {c.key} else {})
    ensures OncePerSink(q + [c]) <==> OncePerSink(q) && (c.OpenCmd? ==> c.key !in Waiting(q))
  {
    if q == [] {
      assert q + [c] == [c];
    } else {
      assert (q + [c])[1..] == q[1..] + [c];
      WaitingAppend(q[1..], c);
    }
  }

  predicate StreamOk(s: Stream) {
    && s.rx.buffered == Total(s.rx.chan) <= MAX_BUFFERED
    && |s.rx.chan| <= CHANNEL_MESSAGES
    && |s.rx.pending| <= 1
    && |s.tx.held| <= 1
    && (s.rx.pending == [] ==> s.rx.consumed < WINDOW_THRESHOLD)
  }

  // --- where a sink can be ---------------------------------------------------------------

  function OpenKeys(streams: map<Key, Stream>): set<Key> {
    set k | k in streams && !streams[k].shut
  }

  /** Every sink whose window is open is in exactly one place: registered under one id, waiting
      in the queue once, or clobbered; and only such sinks are there. */
  ghost predicate Placed(reg: map<nat, Key>, waiting: set<Key>, clobbered: set<Key>, open: set<Key>) {
    && (forall i, j :: i in reg && j in reg && reg[i] == reg[j] ==> i == j)
    && (forall i :: i in reg ==> reg[i] in open && reg[i] !in waiting && reg[i] !in clobbered)
    && (forall k :: k in waiting ==> k in open && k !in clobbered)
    && clobbered <= open
    && (forall k :: k in open ==> k in waiting || k in clobbered || k in reg.Values)
  }

  lemma PlaceRegistered(reg: map<nat, Key>, w: set<Key>, c: set<Key>, open: set<Key>, id: nat, k: Key)
    requires Placed(reg, w, c, open) && (k in w || k !in open)
    ensures Placed(reg[id := k], w - {k}, if id in reg then c + {reg[id]} else c, open + {k})
  {
    var reg', c' := reg[id := k], if id in reg then c + {reg[id]} else c;
    assert reg'[id] == k;
    forall j | j in open + {k}
      ensures j in w - {k} || j in c' || j in reg'.Values
    {
      if j != k && j in reg.Values {
        var i :| i in reg && reg[i] == j;
        if i != id { assert reg'[i] == j; }
      }
    }
  }

  lemma PlaceRemoved(reg: map<nat, Key>, w: set<Key>, c: set<Key>, open: set<Key>, id: nat)
    requires Placed(reg, w, c, open) && id in reg
    ensures Placed(reg - {id}, w, c, open - {reg[id]})
  {
    forall j | j in open - {reg[id]}
      ensures j in w || j in c || j in (reg - {id}).Values
    {
      if j in reg.Values {
        var i :| i in reg && reg[i] == j;
        assert (reg - {id})[i] == j;
      }
    }
  }

  lemma PlaceDrained(reg: map<nat, Key>, w: set<Key>, c: set<Key>, open: set<Key>, k: Key)
    requires Placed(reg, w, c, open) && k in w
    ensures Placed(reg, w - {k}, c, open - {k})
  {
  }

  lemma PlaceQueued(reg: map<nat, Key>, w: set<Key>, c: set<Key>, open: set<Key>, k: Key)
    requires Placed(reg, w, c, open) && k !in open
    ensures Placed(reg, w + {k}, c, open + {k})
  {
  }

  lemma PlaceCleared(reg: map<nat, Key>, w: set<Key>, c: set<Key>, open: set<Key>)
    requires Placed(reg, w, c, open)
    ensures Placed(map[], w, c, open - reg.Values)
  {
  }

  // What each registry change does to the set of open windows.

  lemma OpenAfterShut(streams: map<Key, Stream>, k: Key)
    requires k in streams
    ensures OpenKeys(streams[k := streams[k].(shut := true)]) == OpenKeys(streams) - {k}
  {
  }

  lemma OpenAfterNew(streams: map<Key, Stream>, k: Key, s: Stream)
    requires k !in streams && !s.shut
    ensures OpenKeys(streams[k := s]) == OpenKeys(streams) + {k}
  {
  }

  lemma OpenAfterCloseAll(e: Endpoint)
    ensures OpenKeys(CloseAll(e).streams) == OpenKeys(e.streams) - e.registry.Values
  {
  }

  lemma OpenKeysSame(streams: map<Key, Stream>, k: Key, s: Stream)
    requires k in streams && s.shut == streams[k].shut
    ensures OpenKeys(streams[k := s]) == OpenKeys(streams)
  {
  }

  // --- the invariant of one endpoint -----------------------------------------------------

  predicate StreamsOk(streams: map<Key, Stream>) {
    forall k :: k in streams ==> StreamOk(streams[k])
  }

  ghost predicate PlacedIn(e: Endpoint) {
    && OncePerSink(e.queue)
    && Placed(e.registry, Waiting(e.queue), e.clobbered, OpenKeys(e.streams))
  }

  predicate Finished(p: Phase) { p.Swept? || p.Done? }

  predicate TasksOk(e: Endpoint) {
    && e.peerOpened <= e.registry.Keys
    && |e.peerOpened| <= MAX_CONCURRENT_PEER_STREAMS
    && |e.queue| <= QUEUE_COMMANDS
    && |e.writing| <= 1
    && |e.outbox| <= 1
    && (e.queueClosed <==> !e.writer.Running?)
    && (Finished(e.writer) ==> e.queue == [])
    && (Finished(e.writer) && Finished(e.reader) ==> e.registry == map[])
    && (e.writer.Done? || e.reader.Done? || e.watchdog.Done? ==> e.closed)
  }

  ghost predicate EndpointInv(e: Endpoint) {
    StreamsOk(e.streams) && PlacedIn(e) && TasksOk(e)
  }

  lemma StartsSafe(fc: bool, firstId: nat)
    ensures EndpointInv(NewEndpoint(fc, firstId))
  {
  }

  // --- one step --------------------------------------------------------------------------

  lemma PutKeeps(e: Endpoint, k: Key, s: Stream)
    requires EndpointInv(e) && k in e.streams
    requires StreamOk(s) && s.shut == e.streams[k].shut
    ensures EndpointInv(Put(e, k, s))
  {
    OpenKeysSame(e.streams, k, s);
  }

  /** Changing only task phases and message slots, or queueing frames, moves no sink. */
  lemma SlotsKeep(e: Endpoint, e': Endpoint)
    requires EndpointInv(e) && TasksOk(e')
    requires e'.registry == e.registry && e'.clobbered == e.clobbered && e'.streams == e.streams
    requires OncePerSink(e'.queue) && Waiting(e'.queue) == Waiting(e.queue)
    ensures EndpointInv(e')
  {
  }

  lemma WaitingTail(q: seq<Command>)
    requires q != [] && q[0].WriteCmd?
    ensures Waiting(q[1..]) == Waiting(q)
    ensures OncePerSink(q) ==> OncePerSink(q[1..])
  {
  }

  lemma PopWriteKeeps(e: Endpoint)
    requires EndpointInv(e) && e.queue != [] && e.queue[0].WriteCmd?
    ensures EndpointInv(e.(queue := e.queue[1..]))
  {
    WaitingTail(e.queue);
    SlotsKeep(e, e.(queue := e.queue[1..]));
  }

  lemma PopOpenKeeps(e: Endpoint)
    requires EndpointInv(e) && e.queue != [] && e.queue[0].OpenCmd?
    ensures EndpointInv(ShutKey(e.(queue := e.queue[1..]), e.queue[0].key))
  {
    var k := e.queue[0].key;
    PlaceDrained(e.registry, Waiting(e.queue), e.clobbered, OpenKeys(e.streams), k);
    assert Waiting(e.queue) - {k} == Waiting(e.queue[1..]);
    OpenAfterShut(e.streams, k);
  }

  lemma PushKeeps(e: Endpoint, f: Frame)
    requires EndpointInv(e) && Room(e)
    ensures EndpointInv(Push(e, WriteCmd(f)))
  {
    WaitingAppend(e.queue, WriteCmd(f));
    SlotsKeep(e, Push(e, WriteCmd(f)));
  }

  lemma {:induction false} SubsetSize(a: set<nat>, b: set<nat>)
    requires a <= b
    ensures |a| <= |b|
  {
    if a != {} {
      var x :| x in a;
      SubsetSize(a - {x}, b - {x});
    }
  }

  lemma RemoveKeeps(e: Endpoint, id: nat)
    requires EndpointInv(e)
    ensures EndpointInv(Remove(e, id))
  {
    if id in e.registry {
      PlaceRemoved(e.registry, Waiting(e.queue), e.clobbered, OpenKeys(e.streams), id);
      OpenAfterShut(e.streams, e.registry[id]);
      SubsetSize(e.peerOpened - {id}, e.peerOpened);
    }
  }

  lemma CloseAllKeeps(e: Endpoint)
    requires EndpointInv(e)
    ensures EndpointInv(CloseAll(e))
  {
    PlaceCleared(e.registry, Waiting(e.queue), e.clobbered, OpenKeys(e.streams));
    OpenAfterCloseAll(e);
  }

  lemma PeerRoom(e: Endpoint, id: nat)
    requires TasksOk(e) && |e.registry| < MAX_CONCURRENT_PEER_STREAMS
    ensures |e.peerOpened + {id}| <= MAX_CONCURRENT_PEER_STREAMS
  {
    SubsetSize(e.peerOpened, e.registry.Keys);
  }

  lemma NewPlace(e: Endpoint, id: u32, k: Key, kind: Kind)
    requires PlacedIn(e) && k !in e.streams
    ensures PlacedIn(Register(Put(e, k, NewStream(id, kind)), id, k, true))
  {
    var open := OpenKeys(e.streams);
    assert k !in open && k !in Waiting(e.queue);
    PlaceRegistered(e.registry, Waiting(e.queue), e.clobbered, open, id, k);
    OpenAfterNew(e.streams, k, NewStream(id, kind));
    assert Waiting(e.queue) - {k} == Waiting(e.queue);
  }

  lemma RegisterPeerKeeps(e: Endpoint, id: u32, k: Key, kind: Kind)
    requires EndpointInv(e) && k !in e.streams
    requires |e.registry| < MAX_CONCURRENT_PEER_STREAMS && e.reader.Running?
    ensures EndpointInv(Register(Put(e, k, NewStream(id, kind)), id, k, true))
  {
    hide Placed, OpenKeys;
    NewPlace(e, id, k, kind);
    PeerRoom(e, id);
  }

  lemma TakeOpenKeeps(e: Endpoint)
    requires EndpointInv(e) && e.writer.Running? && e.queue != [] && e.queue[0].OpenCmd?
    ensures EndpointInv(TakeCommand(e))
  {
    var OpenCmd(id, _, k) := e.queue[0];
    assert PlacedIn(TakeCommand(e)) by {
      PlaceRegistered(e.registry, Waiting(e.queue), e.clobbered, OpenKeys(e.streams), id, k);
      assert Waiting(e.queue) - {k} == Waiting(e.queue[1..]);
      assert OpenKeys(e.streams) + {k} == OpenKeys(e.streams);
    }
    SubsetSize(e.peerOpened - {id}, e.peerOpened);
  }

  lemma TakeWriteKeeps(e: Endpoint)
    requires EndpointInv(e) && e.writer.Running? && e.queue != [] && e.queue[0].WriteCmd?
    ensures EndpointInv(TakeCommand(e))
  {
    var f, e1 := e.queue[0].frame, e.(queue := e.queue[1..]);
    PopWriteKeeps(e);
    RemoveKeeps(e1, f.streamId);
    var e2 := if BaseType(f.ftype) == CLOSE then Remove(e1, f.streamId) else e1;
    SlotsKeep(e2, e2.(writing := [f]));
  }

  lemma OpenKeeps(e: Endpoint, k: Key, kind: Kind, target: Bytes)
    requires EndpointInv(e) && k !in e.streams && Room(e) && e.nextId < 0x1_0000_0000
    ensures EndpointInv(OpenNew(e, k, kind, target))
  {
    var e' := OpenNew(e, k, kind, target);
    assert PlacedIn(e') by {
      WaitingAppend(e.queue, e'.queue[|e.queue|]);
      PlaceQueued(e.registry, Waiting(e.queue), e.clobbered, OpenKeys(e.streams), k);
      OpenAfterNew(e.streams, k, NewStream(e.nextId, kind));
    }
  }

  lemma ReceiveDataKeeps(e: Endpoint, id: u32, chunk: Bytes)
    requires EndpointInv(e)
    ensures EndpointInv(ReceiveData(e, id, chunk))
  {
    if id in e.registry && e.registry[id] in e.streams {
      var s := e.streams[e.registry[id]];
      if Overflows(s, |chunk|) {
        RemoveKeeps(e, id);
      } else {
        TotalAppend(s.rx.chan, [chunk]);
        PutKeeps(e, e.registry[id], s.(rx := PushOn(s.rx, chunk)));
      }
    }
  }

  lemma ReceiveCreditKeeps(e: Endpoint, id: u32, credit: nat)
    requires EndpointInv(e)
    ensures EndpointInv(ReceiveCredit(e, id, credit))
  {
    if id in e.registry && e.registry[id] in e.streams {
      var s := e.streams[e.registry[id]];
      PutKeeps(e, e.registry[id], s.(tx := GrantOn(e.fc, s.tx, credit)));
    }
  }

  lemma ReceiveOpenKeeps(e: Endpoint, id: u32, target: Bytes, k: Key)
    requires EndpointInv(e) && e.reader.Running? && k !in e.streams
    ensures EndpointInv(ReceiveOpen(e, id, target, k))
  {
    hide Placed;
    if |e.registry| < MAX_CONCURRENT_PEER_STREAMS {
      RegisterPeerKeeps(e, id, k, ParseTarget(target).0);
    } else {
      SlotsKeep(e, e.(reader := Stopping));
    }
  }

  lemma DispatchKeeps(e: Endpoint, f: Frame, k: Key)
    requires EndpointInv(e) && e.reader.Running? && (Classify(f).Open? ==> k !in e.streams)
    ensures EndpointInv(Dispatch(e, f, k))
  {
    hide Placed, StreamOk, ReceiveOpen, ReceiveData, ReceiveCredit, Remove;
    match Classify(f)
    case Open(target) => ReceiveOpenKeeps(e, f.streamId, target, k);
    case Data(chunk) => ReceiveDataKeeps(e, f.streamId, chunk);
    case Credit(n) => ReceiveCreditKeeps(e, f.streamId, n);
    case Close => RemoveKeeps(e, f.streamId);
    case Ping => SlotsKeep(e, e.(outbox := [Frame(0, PONG, [])]));
    case Abort => SlotsKeep(e, e.(reader := Stopping));
    case _ =>
  }

  lemma EnqueueKeeps(e: Endpoint, k: Key)
    requires EndpointInv(e) && k in e.streams && e.streams[k].tx.held != [] && Room(e)
    ensures EndpointInv(EnqueueHeld(e, k))
  {
    var s := e.streams[k];
    PutKeeps(e, k, s.(tx := EmitOn(s.tx)));
    PushKeeps(PutTx(e, k, EmitOn(s.tx)), DataFrame(s, s.tx.held[0]));
  }

  lemma FinishKeeps(e: Endpoint, k: Key)
    requires EndpointInv(e) && k in e.streams && e.streams[k].rx.pending != []
    requires e.streams[k].rx.consumed >= WINDOW_THRESHOLD && !e.queueClosed ==> Room(e)
    ensures EndpointInv(FinishRecv(e, k))
  {
    var s := e.streams[k];
    PutKeeps(e, k, s.(rx := FinishOn(s.rx)));
    if s.rx.consumed >= WINDOW_THRESHOLD && !e.queueClosed {
      PushKeeps(PutRx(e, k, FinishOn(s.rx)), CreditFrame(s.id, Min(s.rx.consumed, 0xFFFF_FFFF)));
    }
  }

  lemma CallKeeps(e: Endpoint, act: Action)
    requires EndpointInv(e) && Enabled(e, act)
    requires !TaskAction(act)
    ensures EndpointInv(Apply(e, act))
  {
    hide Placed, TakeCommand, DrainCommand, Dispatch, CloseAll, EnqueueHeld, FinishRecv, OpenNew, Push;
    match act
    case OpenStream(k, kind, target) => OpenKeeps(e, k, kind, target);
    case StartSend(k, data) => PutKeeps(e, k, Apply(e, act).streams[k]);
    case Acquire(k) => PutKeeps(e, k, Apply(e, act).streams[k]);
    case Enqueue(k) => EnqueueKeeps(e, k);
    case CancelSend(k) => PutKeeps(e, k, Apply(e, act).streams[k]);
    case FailSend(k) => PutKeeps(e, k, Apply(e, act).streams[k]);
    case RecvTake(k) => PutKeeps(e, k, Apply(e, act).streams[k]);
    case RecvFinish(k) => FinishKeeps(e, k);
    case CloseStream(k) => PushKeeps(e, CloseFrame(e.streams[k].id));
    case DropStream(k) => PutKeeps(e, k, Apply(e, act).streams[k]);
    case SendPing => PushKeeps(e, Frame(0, PING, []));
  }

  predicate TaskAction(act: Action) {
    || act.WriterTake? || act.WriterDrain? || act.Receive? || act.ReaderFlush? || PhaseAction(act)
    || act.WriterSweep? || act.ReaderSweep? || act.WatchdogSweep?
  }

  predicate PhaseAction(act: Action) {
    || act.WriterPut? || act.WriterStop? || act.WriterDone? || act.ReaderStop? || act.ReaderDone?
    || act.WatchdogDone? || act.ReaderGiveUp? || act.SkipId?
  }

  lemma SweepKeeps(e: Endpoint, e': Endpoint)
    requires EndpointInv(e) && TasksOk(e')
    requires e'.registry == map[] && e'.clobbered == e.clobbered && e'.queue == e.queue
    requires e'.streams == CloseAll(e).streams
    ensures EndpointInv(e')
  {
    hide Placed;
    CloseAllKeeps(e);
    SlotsKeep(CloseAll(e), e');
  }

  lemma PhaseKeeps(e: Endpoint, act: Action)
    requires EndpointInv(e) && Enabled(e, act) && PhaseAction(act)
    ensures EndpointInv(Apply(e, act))
  {
    PhaseLeavesSlots(e, act);
    hide *;
    SlotsKeep(e, Apply(e, act));
  }

  lemma PhaseLeavesSlots(e: Endpoint, act: Action)
    requires EndpointInv(e) && Enabled(e, act) && PhaseAction(act)
    ensures var e' := Apply(e, act);
            && e'.registry == e.registry && e'.clobbered == e.clobbered && e'.streams == e.streams
            && e'.queue == e.queue && OncePerSink(e.queue) && TasksOk(e')
  {
    hide Placed, StreamOk, StreamsOk, Waiting, OncePerSink, TakeCommand, DrainCommand, Dispatch, CloseAll, Push,
      OpenNew, EnqueueHeld, FinishRecv, PutTx, PutRx, Put, Chunks;
  }

  lemma FlushKeeps(e: Endpoint)
    requires EndpointInv(e) && e.outbox != [] && Room(e)
    ensures EndpointInv(Push(e, WriteCmd(e.outbox[0])).(outbox := []))
  {
    hide Placed;
    WaitingAppend(e.queue, WriteCmd(e.outbox[0]));
    SlotsKeep(e, Push(e, WriteCmd(e.outbox[0])).(outbox := []));
  }

  lemma TaskKeeps(e: Endpoint, act: Action)
    requires EndpointInv(e) && Enabled(e, act)
    requires TaskAction(act) && !PhaseAction(act)
    ensures EndpointInv(Apply(e, act))
  {
    hide Placed, StreamOk, StreamsOk, PlacedIn, TakeCommand, Dispatch, Push,
      OpenNew, EnqueueHeld, FinishRecv, PutTx, PutRx, Put, Chunks;
    if act.WriterTake? {
      if e.queue[0].OpenCmd? { TakeOpenKeeps(e); } else { TakeWriteKeeps(e); }
    } else if act.WriterDrain? {
      if e.queue[0].OpenCmd? { PopOpenKeeps(e); } else { PopWriteKeeps(e); }
    } else if act.Receive? {
      DispatchKeeps(e, act.frame, act.key);
    } else if act.ReaderFlush? {
      FlushKeeps(e);
    } else {
      SweepKeeps(e, Apply(e, act));
    }
  }

  /** Every action, by any task, the caller or the peer, keeps the invariant. */
  lemma StepKeepsInv(e: Endpoint, act: Action)
    requires EndpointInv(e) && Enabled(e, act)
    ensures EndpointInv(Apply(e, act))
  {
    hide Placed;
    if PhaseAction(act) { PhaseKeeps(e, act); }
    else if TaskAction(act) { TaskKeeps(e, act); }
    else { CallKeeps(e, act); }
  }

  // --- whole runs ------------------------------------------------------------------------

  /** The state after a run of actions, if each was possible in its turn. */
  ghost predicate Run(e: Endpoint, acts: seq<Action>, e': Endpoint)
    decreases |acts|
  {
    if acts == [] then e == e'
    else Enabled(e, acts[0]) && Run(Apply(e, acts[0]), acts[1..], e')
  }

  lemma {:induction false} RunKeepsInv(e: Endpoint, acts: seq<Action>, e': Endpoint)
    requires EndpointInv(e) && Run(e, acts, e')
    ensures EndpointInv(e')
    decreases |acts|
  {
    if acts != [] {
      StepKeepsInv(e, acts[0]);
      RunKeepsInv(Apply(e, acts[0]), acts[1..], e');
    }
  }

  /** Whatever a peer sends: every stream's byte counter equals what is queued on it, no stream
      queues more than MAX_BUFFERED bytes or CHANNEL_MESSAGES messages, and no more than
      MAX_CONCURRENT_PEER_STREAMS peer-opened streams are registered. */
  lemma BoundedAgainstAnyPeer(fc: bool, firstId: nat, acts: seq<Action>, e: Endpoint)
    requires Run(NewEndpoint(fc, firstId), acts, e)
    ensures forall k :: k in e.streams ==>
                          && e.streams[k].rx.buffered == Total(e.streams[k].rx.chan) <= 4194304
                          && |e.streams[k].rx.chan| <= 1024
    ensures |e.peerOpened| <= 1024 && e.peerOpened <= e.registry.Keys
  {
    StartsSafe(fc, firstId);
    RunKeepsInv(NewEndpoint(fc, firstId), acts, e);
  }

  /** The bytes or messages queued on a stream leave no room for the chunk, or its caller is gone. */
  predicate NoRoom(s: Stream, chunk: Bytes) {
    Total(s.rx.chan) + |chunk| > 4194304 || |s.rx.chan| >= 1024 || s.gone
  }

  /** Another id keeps its key and its stream, down to the last queued byte. */
  predicate KeepsId(e: Endpoint, e': Endpoint, id: nat)
    requires id in e.registry && e.registry[id] in e.streams
  {
    && id in e'.registry && e'.registry[id] == e.registry[id]
    && e.registry[id] in e'.streams && e'.streams[e.registry[id]] == e.streams[e.registry[id]]
  }

  lemma RegisteredApart(e: Endpoint, i: nat, j: nat)
    requires EndpointInv(e) && i in e.registry && j in e.registry
    ensures e.registry[i] in e.streams && !e.streams[e.registry[i]].shut
    ensures i != j ==> e.registry[i] != e.registry[j]
  {
    assert e.registry[i] in OpenKeys(e.streams);
  }

  lemma RemovedKeepsId(e: Endpoint, id: nat, j: nat)
    requires id in e.registry && j in e.registry && j != id && e.registry[j] != e.registry[id]
    requires e.registry[j] in e.streams
    ensures KeepsId(e, Remove(e, id), j)
  {
  }

  lemma PutKeepsId(e: Endpoint, own: Key, s: Stream, j: nat)
    requires own in e.streams && j in e.registry && e.registry[j] != own && e.registry[j] in e.streams
    ensures KeepsId(e, Put(e, own, s), j)
  {
  }

  /** What the frame does to its own stream. */
  lemma DataOnItsOwn(e: Endpoint, id: u32, chunk: Bytes)
    requires id in e.registry && e.registry[id] in e.streams
    requires var s := e.streams[e.registry[id]]; !s.shut && s.rx.buffered == Total(s.rx.chan)
    ensures var own, e' := e.registry[id], ReceiveData(e, id, chunk);
            && own in e'.streams
            && (id in e'.registry <==> !NoRoom(e.streams[own], chunk))
            && (e'.streams[own].shut <==> NoRoom(e.streams[own], chunk))
            && (e'.outbox == [CloseFrame(id)] || !NoRoom(e.streams[own], chunk))
            && (NoRoom(e.streams[own], chunk) || e' == PutRx(e, own, PushOn(e.streams[own].rx, chunk)))
  {
    hide Total;
  }

  /** And to the others: nothing, since no two ids share a stream. */
  lemma DataOnOthers(e: Endpoint, id: u32, chunk: Bytes, j: nat)
    requires EndpointInv(e) && id in e.registry && j in e.registry && j != id
    ensures e.registry[j] in e.streams && KeepsId(e, ReceiveData(e, id, chunk), j)
  {
    RegisteredApart(e, id, j);
    RegisteredApart(e, j, id);
    RemovedKeepsId(e, id, j);
    var s := e.streams[e.registry[id]];
    PutKeepsId(e, e.registry[id], s.(rx := PushOn(s.rx, chunk)), j);
    hide EndpointInv, Remove, Put, PushOn, Overflows;
  }

  lemma ReceiveIsData(e: Endpoint, f: Frame, k: Key)
    requires Enabled(e, Receive(f, k)) && Classify(f).Data?
    ensures Apply(e, Receive(f, k)) == ReceiveData(e, f.streamId, f.payload)
  {
    hide ReceiveData;
  }

  lemma CountsItsBytes(e: Endpoint, k: Key)
    requires EndpointInv(e) && k in e.streams
    ensures e.streams[k].rx.buffered == Total(e.streams[k].rx.chan)
  {
    assert StreamOk(e.streams[k]);
  }

  /** Isolation, in every run and against any peer: a DATA or DATAGRAM frame for a registered stream
      removes and shuts that stream if and only if it does not fit, and then owes the peer one CLOSE;
      if it fits, all that changes is that the chunk is queued there; and either way every other
      registered id keeps its key and its stream. */
  lemma OverflowIsIsolated(fc: bool, firstId: nat, acts: seq<Action>, e: Endpoint, f: Frame, k: Key)
    requires Run(NewEndpoint(fc, firstId), acts, e) && Enabled(e, Receive(f, k))
    requires Classify(f).Data? && f.streamId in e.registry
    ensures e.registry[f.streamId] in e.streams
    ensures var own, e' := e.registry[f.streamId], Apply(e, Receive(f, k));
            && own in e'.streams
            && (f.streamId in e'.registry <==> !NoRoom(e.streams[own], f.payload))
            && (e'.streams[own].shut <==> NoRoom(e.streams[own], f.payload))
            && (e'.outbox == [CloseFrame(f.streamId)] || !NoRoom(e.streams[own], f.payload))
            && (NoRoom(e.streams[own], f.payload) || e' == PutRx(e, own, PushOn(e.streams[own].rx, f.payload)))
    ensures forall j :: j in e.registry && j != f.streamId ==>
              e.registry[j] in e.streams && KeepsId(e, Apply(e, Receive(f, k)), j)
  {
    hide Run, Apply, EndpointInv, Classify, ReceiveData, NoRoom, KeepsId, Total;
    StartsSafe(fc, firstId);
    RunKeepsInv(NewEndpoint(fc, firstId), acts, e);
    ReceiveIsData(e, f, k);
    RegisteredApart(e, f.streamId, f.streamId);
    CountsItsBytes(e, e.registry[f.streamId]);
    DataOnItsOwn(e, f.streamId, f.payload);
    forall j | j in e.registry && j != f.streamId
      ensures e.registry[j] in e.streams && KeepsId(e, Apply(e, Receive(f, k)), j)
    {
      DataOnOthers(e, f.streamId, f.payload, j);
    }
  }

  /** Once writer and reader have both finished, closure is latched, the registry and the queue
      are empty, and the windows still open are exactly the clobbered ones. */
  lemma TeardownLeavesNoWaiter(fc: bool, firstId: nat, acts: seq<Action>, e: Endpoint)
    requires Run(NewEndpoint(fc, firstId), acts, e)
    requires e.writer.Done? && e.reader.Done?
    ensures e.closed && e.registry == map[] && e.queue == []
    ensures forall k :: k in e.streams ==> (!e.streams[k].shut <==> k in e.clobbered)
    ensures (forall k :: k in e.streams ==> e.streams[k].shut) <==> e.clobbered == {}
  {
    StartsSafe(fc, firstId);
    RunKeepsInv(NewEndpoint(fc, firstId), acts, e);
    forall k | k in e.streams
      ensures !e.streams[k].shut <==> k in e.clobbered
    {
      assert e.streams[k].shut || k in OpenKeys(e.streams);
    }
    if e.clobbered != {} {
      var k :| k in e.clobbered;
      assert k in OpenKeys(e.streams);
    }
  }

  /** A send that has begun and can neither go on nor fail. */
  predicate SendWaits(e: Endpoint, k: Key)
    requires k in e.streams
  {
    var s := e.streams[k];
    && !Idle(s.tx) && !CanAcquire(e.fc, s.shut, s.tx) && !(s.tx.held != [] && Room(e))
    && !MustFail(e.fc, s.shut, !e.queueClosed, s.tx)
  }

  /** It fails, at once or when it next asks for room in the queue. */
  predicate SendFails(e: Endpoint, k: Key)
    requires k in e.streams
  {
    var s := e.streams[k];
    || MustFail(e.fc, s.shut, !e.queueClosed, s.tx)
    || (CanAcquire(e.fc, s.shut, s.tx) && MustFail(e.fc, s.shut, !e.queueClosed, AcquireOn(e.fc, s.tx)))
  }

  /** A receive returns: it holds a payload and need not wait to grant credit for it, or one is
      queued, or the sink that would queue one is gone. */
  predicate RecvEnds(e: Endpoint, k: Key)
    requires k in e.streams
  {
    var r := e.streams[k].rx;
    if r.pending != [] then (r.consumed >= WINDOW_THRESHOLD && !e.queueClosed ==> Room(e))
    else r.chan != [] || (k !in e.registry.Values && k !in Waiting(e.queue))
  }

  lemma CallsAfterTeardown(e: Endpoint, k: Key)
    requires EndpointInv(e) && e.writer.Done? && e.reader.Done? && k in e.streams
    ensures var s := e.streams[k];
            SendWaits(e, k) <==>
              e.fc && k in e.clobbered && s.tx.held == [] && s.tx.todo != [] && s.tx.permits < |s.tx.todo[0]|
    ensures !Idle(e.streams[k].tx) ==> (SendFails(e, k) <==> !SendWaits(e, k))
    ensures RecvEnds(e, k)
  {
    assert k in OpenKeys(e.streams) <==> !e.streams[k].shut;
    hide StreamsOk, OncePerSink;
  }

  /** What teardown means for the callers, in every run and against any peer: an unfinished send waits
      for good if and only if its sink was replaced in the registry and it lacks credit; any other
      fails; and every receive returns. */
  lemma WhoWaitsAfterTeardown(fc: bool, firstId: nat, acts: seq<Action>, e: Endpoint, k: Key)
    requires Run(NewEndpoint(fc, firstId), acts, e)
    requires e.writer.Done? && e.reader.Done? && k in e.streams
    ensures var s := e.streams[k];
            SendWaits(e, k) <==>
              e.fc && k in e.clobbered && s.tx.held == [] && s.tx.todo != [] && s.tx.permits < |s.tx.todo[0]|
    ensures !Idle(e.streams[k].tx) ==> (SendFails(e, k) <==> !SendWaits(e, k))
    ensures RecvEnds(e, k)
  {
    StartsSafe(fc, firstId);
    RunKeepsInv(NewEndpoint(fc, firstId), acts, e);
    CallsAfterTeardown(e, k);
    hide EndpointInv, Run, SendWaits, SendFails, RecvEnds;
  }

  /** The action registers a stream under an id that is still registered: a peer's OPEN of a live
      id, or a local OPEN taken from the queue after the peer has opened its id. */
  predicate Reopens(e: Endpoint, act: Action) {
    match act
    case Receive(f, _) =>
      Classify(f).Open? && |e.registry| < MAX_CONCURRENT_PEER_STREAMS && f.streamId in e.registry
    case WriterTake => e.queue != [] && e.queue[0].OpenCmd? && e.queue[0].id in e.registry
    case _ => false
  }

  lemma {:induction false} ReopensSomewhere(e: Endpoint, acts: seq<Action>, e': Endpoint)
    requires EndpointInv(e) && Run(e, acts, e')
    ensures e.clobbered <= e'.clobbered
    ensures e'.clobbered == e.clobbered <==> NeverReopens(e, acts)
    decreases |acts|
  {
    if acts != [] {
      var e1 := Apply(e, acts[0]);
      StepKeepsInv(e, acts[0]);
      ClobbersExactlyWhenReopening(e, acts[0]);
      hide Apply, Enabled, EndpointInv, Reopens;
      ReopensSomewhere(e1, acts[1..], e');
    }
  }

  ghost predicate NeverReopens(e: Endpoint, acts: seq<Action>)
    decreases |acts|
  {
    acts != [] && Enabled(e, acts[0]) ==>
      !Reopens(e, acts[0]) && NeverReopens(Apply(e, acts[0]), acts[1..])
  }

  lemma ClobberedByRest(e: Endpoint, act: Action)
    requires Enabled(e, act) && !act.Receive? && !act.WriterTake?
    ensures Apply(e, act).clobbered == e.clobbered
  {
    hide TakeCommand, Dispatch, Chunks, NewStream, StartOn, AcquireOn, EmitOn, CancelOn, FailOn, TakeOn;
    hide FinishOn, OpenPayload, CreditFrame, DataFrame;
  }

  lemma ClobberedByData(e: Endpoint, id: u32, chunk: Bytes, credit: nat)
    ensures ReceiveData(e, id, chunk).clobbered == e.clobbered == Remove(e, id).clobbered
    ensures ReceiveCredit(e, id, credit).clobbered == e.clobbered
  {
    hide PushOn, GrantOn, Overflows;
  }

  lemma ClobberedByReceive(e: Endpoint, f: Frame, k: Key)
    requires f.streamId in e.registry ==> e.registry[f.streamId] !in e.clobbered
    ensures e.clobbered <= Dispatch(e, f, k).clobbered
    ensures Dispatch(e, f, k).clobbered == e.clobbered <==> !Reopens(e, Receive(f, k))
  {
    match Classify(f)
    case Data(chunk) => ClobberedByData(e, f.streamId, chunk, 0);
    case Credit(n) => ClobberedByData(e, f.streamId, [], n);
    case Close => ClobberedByData(e, f.streamId, [], 0);
    case _ => hide ParseTarget, NewStream;
    hide ReceiveData, ReceiveCredit, Remove;
  }

  lemma ClobberedByTake(e: Endpoint)
    requires e.queue != []
    requires forall i :: i in e.registry ==> e.registry[i] !in e.clobbered
    ensures e.clobbered <= TakeCommand(e).clobbered
    ensures TakeCommand(e).clobbered == e.clobbered <==> !Reopens(e, WriterTake)
  {
    if e.queue[0].WriteCmd? {
      ClobberedByData(e.(queue := e.queue[1..]), e.queue[0].frame.streamId, [], 0);
      hide Remove;
    }
  }

  lemma LiveIsNotClobbered(e: Endpoint)
    requires EndpointInv(e)
    ensures forall i :: i in e.registry ==> e.registry[i] !in e.clobbered
  {
    hide StreamsOk, TasksOk, OncePerSink, OpenKeys;
  }

  lemma ClobbersExactlyWhenReopening(e: Endpoint, act: Action)
    requires EndpointInv(e) && Enabled(e, act)
    ensures e.clobbered <= Apply(e, act).clobbered
    ensures Apply(e, act).clobbered == e.clobbered <==> !Reopens(e, act)
  {
    LiveIsNotClobbered(e);
    hide EndpointInv, TakeCommand, Dispatch, Reopens, CloseAll, Remove, Put, ShutKey;
    hide OpenNew, PutTx, PutRx, EnqueueHeld, FinishRecv, DrainCommand, CanAcquire, MustFail, Chunks, Idle;
    if act.Receive? { ClobberedByReceive(e, act.frame, act.key); }
    else if act.WriterTake? { ClobberedByTake(e); }
    else { ClobberedByRest(e, act); NotReopening(e, act); }
  }

  lemma NotReopening(e: Endpoint, act: Action)
    requires !act.Receive? && !act.WriterTake?
    ensures !Reopens(e, act)
  {
  }

  /** The exact condition for a clean teardown: every send window is closed once writer and reader
      have finished if and only if no OPEN ever reached a live id. */
  lemma CleanTeardownIffNoReopen(fc: bool, firstId: nat, acts: seq<Action>, e: Endpoint)
    requires Run(NewEndpoint(fc, firstId), acts, e)
    requires e.writer.Done? && e.reader.Done?
    ensures (forall k :: k in e.streams ==> e.streams[k].shut) <==> NeverReopens(NewEndpoint(fc, firstId), acts)
  {
    TeardownLeavesNoWaiter(fc, firstId, acts, e);
    StartsSafe(fc, firstId);
    ReopensSomewhere(NewEndpoint(fc, firstId), acts, e);
  }

  /** A sink replaced in the registry while live keeps its window open, whatever follows. */
  lemma ClobberedForGood(e: Endpoint, rest: seq<Action>, e': Endpoint, k: Key)
    requires EndpointInv(e) && Run(e, rest, e') && k in e.clobbered
    ensures k in e'.streams && !e'.streams[k].shut
  {
    ReopensSomewhere(e, rest, e');
    RunKeepsInv(e, rest, e');
    ClobberedIsOpen(e', k);
  }

  lemma ClobberedIsOpen(e: Endpoint, k: Key)
    requires EndpointInv(e) && k in e.clobbered
    ensures k in e.streams && !e.streams[k].shut
  {
    assert k in OpenKeys(e.streams);
  }

  lemma PeerOpens(e: Endpoint, id: u32, k: Key)
    requires Enabled(e, Receive(OpenFrame(id, []), k)) && |e.registry| < MAX_CONCURRENT_PEER_STREAMS
    ensures var e' := Apply(e, Receive(OpenFrame(id, []), k));
            && e'.registry == e.registry[id := k]
            && e'.clobbered == if id in e.registry then e.clobbered + {e.registry[id]} else e.clobbered
  {
    assert Classify(OpenFrame(id, [])) == Open([]);
    hide Classify, ParseTarget, NewStream;
  }

  lemma RunOfTwo(e: Endpoint, a: Action, b: Action, rest: seq<Action>, e': Endpoint)
    requires Run(e, [a, b] + rest, e')
    ensures Enabled(e, a) && Enabled(Apply(e, a), b) && Run(Apply(Apply(e, a), b), rest, e')
  {
    hide Enabled, Apply;
    assert ([a, b] + rest)[1..] == [b] + rest;
    assert ([b] + rest)[1..] == rest;
  }

  /** A peer that opens id 1 twice leaves the first stream's window open, whatever follows. */
  lemma ReopenedIdKeepsAWaiter(rest: seq<Action>, e: Endpoint)
    requires Run(NewEndpoint(true, 2), [Receive(OpenFrame(1, []), 0), Receive(OpenFrame(1, []), 1)] + rest, e)
    ensures 0 in e.streams && !e.streams[0].shut
  {
    var e0, open1, open2 := NewEndpoint(true, 2), Receive(OpenFrame(1, []), 0), Receive(OpenFrame(1, []), 1);
    StartsSafe(true, 2);
    hide Apply, Enabled, EndpointInv, Run;
    RunOfTwo(e0, open1, open2, rest, e);
    PeerOpens(e0, 1, 0);
    StepKeepsInv(e0, open1);
    PeerOpens(Apply(e0, open1), 1, 1);
    StepKeepsInv(Apply(e0, open1), open2);
    ClobberedForGood(Apply(Apply(e0, open1), open2), rest, e, 0);
  }
}
