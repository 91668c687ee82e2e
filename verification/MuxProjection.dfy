/**
 The view of one endpoint that a single stream id gives, and the proof that every action of the
 endpoint is, seen from any stream id, one event of that stream's own machine or nothing at all.
 Stream objects are named by their ids here, which is possible as long as ids are not reused.
 */
module MuxProjection {
  import opened Basics
  import opened Frames
  import opened MuxEndpoint
  import opened MuxSafety
  import opened MuxStream

  // --- the view --------------------------------------------------------------------------

  /** The messages for stream `i` among some frames. */
  function Msgs(i: nat, fs: seq<Frame>): seq<Message> {
    if fs == [] then []
    else (if fs[0].streamId == i then [Classify(fs[0])] else []) + Msgs(i, fs[1..])
  }

  function MsgOf(i: nat, f: Frame): seq<Message> {
    if f.streamId == i then [Classify(f)] else []
  }

  function FrameOf(c: Command): Frame {
    match c
    case OpenCmd(id, target, _) => OpenFrame(id, target)
    case WriteCmd(f) => f
  }

  function CmdFrames(q: seq<Command>): seq<Frame> {
    if q == [] then [] else [FrameOf(q[0])] + CmdFrames(q[1..])
  }

  lemma {:induction false} MsgsAppend(i: nat, a: seq<Frame>, b: seq<Frame>)
    ensures Msgs(i, a + b) == Msgs(i, a) + Msgs(i, b)
  {
    hide Classify;
    if a == [] {
      assert a + b == b;
    } else {
      var head := MsgOf(i, a[0]);
      assert (a + b)[1..] == a[1..] + b;
      MsgsAppend(i, a[1..], b);
      assert Msgs(i, a) == head + Msgs(i, a[1..]);
      assert Msgs(i, a + b) == head + Msgs(i, a[1..] + b);
    }
  }

  lemma {:induction false} CmdFramesAppend(q: seq<Command>, c: Command)
    ensures CmdFrames(q + [c]) == CmdFrames(q) + [FrameOf(c)]
  {
    if q == [] {
      assert q + [c] == [c];
    } else {
      assert (q + [c])[1..] == q[1..] + [c];
      CmdFramesAppend(q[1..], c);
    }
  }

  lemma MsgsOne(i: nat, f: Frame)
    ensures Msgs(i, [f]) == MsgOf(i, f)
  {
    assert [f][1..] == [];
  }

  function StageOf(e: Endpoint, i: nat): Stage {
    if i !in e.streams then Absent
    else if i in e.registry then Live
    else if i in Waiting(e.queue) then InQueue
    else Removed
  }

  function StreamOf(e: Endpoint, i: nat): Stream {
    if i in e.streams then e.streams[i] else NewStream(0, Tcp)
  }

  function Front(e: Endpoint, i: nat): seq<Message> { Msgs(i, e.wire + e.writing) }

  function Back(e: Endpoint, i: nat): seq<Message> {
    if e.writer.Running? then Msgs(i, CmdFrames(e.queue)) else []
  }

  function HalfOf(e: Endpoint, i: nat): Half {
    Half(StageOf(e, i), e.writer.Running?, e.reader.Running?, StreamOf(e, i), Front(e, i), Back(e, i))
  }

  // --- the naming discipline -------------------------------------------------------------

  /** Frames of a compliant endpoint: stream 0 carries only keepalives, the others never do. */
  predicate GoodFrame(f: Frame) {
    var m := Classify(f);
    if f.streamId == 0 then m.Ping? || m.Pong?
    else m.Open? || m.Data? || m.Credit? || m.Close?
  }

  predicate GoodCmd(streams: map<Key, Stream>, c: Command) {
    match c
    case OpenCmd(id, _, k) => id > 0 && k == id && k in streams
    case WriteCmd(f) => GoodFrame(f) && !Classify(f).Open?
  }

  ghost predicate Named(e: Endpoint) {
    && e.nextId > 0
    && (forall k :: k in e.streams ==> k > 0 && e.streams[k].id == k)
    && (forall i :: i in e.registry ==> e.registry[i] == i && i in e.streams)
    && (forall c <- e.queue :: GoodCmd(e.streams, c))
    && (forall f <- e.wire :: GoodFrame(f))
    && (forall f <- e.writing :: GoodFrame(f))
    && (forall f <- e.outbox :: GoodFrame(f) && (f.streamId == 0 || (f == CloseFrame(f.streamId) && f.streamId in e.streams)))
    && (!e.writer.Running? ==> e.writing == [])
  }

  /** The action uses the id as the name of the stream it makes; the peer sends good frames. */
  predicate WellNamed(e: Endpoint, act: Action) {
    && (act.OpenStream? ==> act.key == e.nextId)
    && (act.Receive? ==> act.key == act.frame.streamId && GoodFrame(act.frame))
  }

  // --- the event a stream sees -----------------------------------------------------------

  function Seen(e: Endpoint, act: Action, i: nat): Event
    requires Enabled(e, act)
  {
    match act
    case OpenStream(k, kind, target) =>
      if k == i then Create(e.nextId, kind, OpenPayload(kind, target)) else Stay
    case SkipId => Stay
    case StartSend(k, data) => if k == i then Start(data) else Stay
    case Acquire(k) => if k == i then Grab else Stay
    case Enqueue(k) => if k == i then Emit else Stay
    case CancelSend(k) => if k == i then Cancel else Stay
    case FailSend(k) => if k == i then Fail else Stay
    case RecvTake(k) => if k == i then Take else Stay
    case RecvFinish(k) => if k == i then Finish else Stay
    case CloseStream(k) => if k == i then AskClose else Stay
    case DropStream(k) => if k == i then Drop else Stay
    case SendPing => Stay
    case WriterTake => if FrameOf(e.queue[0]).streamId == i then Write else Stay
    case WriterPut => Stay
    case WriterStop => Cut(Msgs(i, e.wire))
    case WriterDrain =>
      if e.queue[0].OpenCmd? && e.queue[0].key == i then Unqueue else Stay
    case WriterSweep => if StageOf(e, i).Live? then Sweep else Stay
    case WriterDone => Stay
    case Receive(f, _) =>
      var refused := Classify(f).Open? && |e.registry| >= MAX_CONCURRENT_PEER_STREAMS;
      if f.streamId == i then Get(Classify(f), f.streamId, refused)
      else if refused then Deafen else Stay
    case ReaderFlush => if e.outbox[0].streamId == i then AskClose else Stay
    case ReaderGiveUp => Stay
    case ReaderStop => Deafen
    case ReaderSweep => if StageOf(e, i).Live? then Sweep else Stay
    case ReaderDone => Stay
    case WatchdogSweep => if StageOf(e, i).Live? then Sweep else Stay
    case WatchdogDone => Stay
  }

  /** What the view needs to know of the registry at one id. */
  predicate RegOk(e: Endpoint, i: nat) {
    i in e.registry ==> e.registry[i] == i && i in e.streams && i !in Waiting(e.queue)
  }

  lemma RegistryIsOk(e: Endpoint, i: nat)
    requires EndpointInv(e) && Named(e)
    ensures RegOk(e, i)
  {
    hide StreamsOk, TasksOk, OpenKeys, Waiting;
    if i in e.registry { assert e.registry[i] == i; }
  }

  // --- what each change of the endpoint does to the view ---------------------------------

  lemma ViewOfPut(e: Endpoint, k: Key, s: Stream, i: nat)
    requires k in e.streams
    ensures HalfOf(Put(e, k, s), i) == if i == k then HalfOf(e, i).(st := s) else HalfOf(e, i)
  {
  }

  lemma ViewOfPush(e: Endpoint, f: Frame, i: nat)
    requires e.writer.Running?
    ensures HalfOf(Push(e, WriteCmd(f)), i) == HalfOf(e, i).(back := Back(e, i) + MsgOf(i, f))
  {
    WaitingAppend(e.queue, WriteCmd(f));
    CmdFramesAppend(e.queue, WriteCmd(f));
    MsgsAppend(i, CmdFrames(e.queue), [f]);
    MsgsOne(i, f);
  }

  lemma ViewOfOpen(e: Endpoint, kind: Kind, target: Bytes, i: nat)
    requires e.writer.Running? && 0 < e.nextId < 0x1_0000_0000 && e.nextId !in e.streams
    ensures HalfOf(OpenNew(e, e.nextId, kind, target), i)
            == if i != e.nextId then HalfOf(e, i)
               else HalfOf(e, i).(stage := if i in e.registry then Live else InQueue,
                                  st := NewStream(e.nextId, kind),
                                  back := Back(e, i) + [Open(OpenPayload(kind, target))])
  {
    var id: u32 := e.nextId;
    var c := OpenCmd(id, OpenPayload(kind, target), id);
    WaitingAppend(e.queue, c);
    CmdFramesAppend(e.queue, c);
    MsgsAppend(i, CmdFrames(e.queue), [FrameOf(c)]);
    MsgsOne(i, FrameOf(c));
  }

  /** The queue's head moves to the slot being written: nothing under way changes. */
  lemma ViewOfPop(e: Endpoint, i: nat)
    requires e.queue != [] && e.writer.Running? && e.writing == []
    ensures var f := FrameOf(e.queue[0]);
            && Back(e, i) == MsgOf(i, f) + Msgs(i, CmdFrames(e.queue[1..]))
            && Msgs(i, e.wire + [f]) == Front(e, i) + MsgOf(i, f)
  {
    var f := FrameOf(e.queue[0]);
    assert CmdFrames(e.queue)[1..] == CmdFrames(e.queue[1..]);
    MsgsAppend(i, e.wire, [f]);
    MsgsOne(i, f);
    assert e.wire + e.writing == e.wire;
  }

  lemma ViewOfRead(e: Endpoint, i: nat)
    requires e.wire != []
    ensures Front(e, i) == MsgOf(i, e.wire[0]) + Front(e.(wire := e.wire[1..]), i)
  {
    assert (e.wire + e.writing)[1..] == e.wire[1..] + e.writing;
  }

  predicate SelfNamed(reg: map<nat, Key>) { forall j :: j in reg ==> reg[j] == j }

  lemma ViewOfCloseAll(e: Endpoint, i: nat)
    requires SelfNamed(e.registry) && RegOk(e, i)
    ensures var h, h' := HalfOf(e, i), HalfOf(CloseAll(e), i);
            h' == if h.stage.Live? then Shut(h) else h
  {
    hide Msgs, CmdFrames, NewStream;
    assert i in e.registry.Values <==> i in e.registry by {
      if i in e.registry { assert e.registry[i] == i; }
    }
  }

  // --- every action is one event of each stream's machine --------------------------------

  ghost predicate Commutes(e: Endpoint, e': Endpoint, i: nat, ev: Event) {
    Can(e.fc, HalfOf(e, i), ev) && HalfOf(e', i) == Next(e.fc, HalfOf(e, i), ev)
  }

  predicate QueueUp(e: Endpoint) { e.writer.Running? <==> !e.queueClosed }

  /** Calls that change one side of stream `k` and send nothing. */
  lemma SeesPut(e: Endpoint, act: Action, k: Key, i: nat)
    requires Enabled(e, act) && k in e.streams && QueueUp(e)
    requires act.StartSend? || act.Acquire? || act.CancelSend? || act.FailSend? || act.RecvTake? || act.DropStream?
    requires act.key == k
    ensures Commutes(e, Apply(e, act), i, Seen(e, act, i))
  {
    hide Chunks, StartOn, AcquireOn, CancelOn, FailOn, TakeOn, NewStream;
    hide TakeCommand, DrainCommand, Dispatch, CloseAll, FinishRecv, EnqueueHeld, OpenNew;
    ViewOfPut(e, k, Apply(e, act).streams[k], i);
    hide Front, Back;
  }

  lemma SeesEnqueue(e: Endpoint, k: Key, i: nat)
    requires k in e.streams && e.streams[k].tx.held != [] && e.writer.Running? && e.streams[k].id == k
    ensures Commutes(e, EnqueueHeld(e, k), i, if k == i then Emit else Stay)
  {
    hide EmitOn, NewStream;
    var s := e.streams[k];
    ViewOfPut(e, k, s.(tx := EmitOn(s.tx)), i);
    ViewOfPush(PutTx(e, k, EmitOn(s.tx)), DataFrame(s, s.tx.held[0]), i);
    assert Classify(DataFrame(s, s.tx.held[0])) == Data(s.tx.held[0]);
    hide Front, Classify;
  }

  lemma SeesFinish(e: Endpoint, k: Key, i: nat)
    requires k in e.streams && QueueUp(e) && e.streams[k].id == k
    ensures Commutes(e, FinishRecv(e, k), i, if k == i then Finish else Stay)
  {
    hide FinishOn, NewStream;
    var s := e.streams[k];
    var e1 := PutRx(e, k, FinishOn(s.rx));
    ViewOfPut(e, k, s.(rx := FinishOn(s.rx)), i);
    if s.rx.consumed >= WINDOW_THRESHOLD && !e.queueClosed {
      var credit: u32 := Min(s.rx.consumed, 0xFFFF_FFFF);
      CreditFrameMeansItsCredit(s.id, credit);
      ViewOfPush(e1, CreditFrame(s.id, credit), i);
      hide Front, Classify;
    } else {
      hide Front, Back, Classify;
      assert Grants(HalfOf(e, i)) == [] || k != i;
    }
  }

  lemma SeesFrame(e: Endpoint, f: Frame, i: nat)
    requires e.writer.Running? && i > 0
    requires f.streamId == 0 || (f == CloseFrame(f.streamId) && f.streamId in e.streams)
    ensures Commutes(e, Push(e, WriteCmd(f)), i, if f.streamId == i then AskClose else Stay)
  {
    ViewOfPush(e, f, i);
    hide Front, NewStream;
  }

  lemma SeesOpen(e: Endpoint, k: Key, kind: Kind, target: Bytes, i: nat)
    requires Enabled(e, OpenStream(k, kind, target)) && k == e.nextId > 0
    requires e.writer.Running? && RegOk(e, k)
    ensures Commutes(e, OpenNew(e, k, kind, target), i, Seen(e, OpenStream(k, kind, target), i))
  {
    ViewOfOpen(e, kind, target, i);
    hide Front, Back, OpenPayload, NewStream;
  }

  /** Taking the queue's head does to a stream what its own writer would do. */
  ghost predicate Wrote(h: Half, h': Half, mine: bool) {
    if mine then h.up && h.back != [] && h' == WriteOne(h) else h' == h
  }

  lemma SeesWrite(e: Endpoint, e': Endpoint, i: nat, mine: bool)
    requires Wrote(HalfOf(e, i), HalfOf(e', i), mine)
    ensures Commutes(e, e', i, if mine then Write else Stay)
  {
    hide HalfOf, WriteOne;
  }

  /** The part of it that concerns the messages under way. */
  lemma PopSplits(e: Endpoint, e': Endpoint, i: nat)
    requires e.writer.Running? && e.queue != [] && e.writing == []
    requires e'.writer.Running? && e'.queue == e.queue[1..] && e'.wire == e.wire
    requires e'.writing == [FrameOf(e.queue[0])]
    ensures var m := MsgOf(i, FrameOf(e.queue[0]));
            && Front(e', i) == Front(e, i) + m && Back(e, i) == m + Back(e', i)
            && (m != [] ==> Back(e, i) != [] && Back(e, i)[0] == m[0] && Back(e', i) == Back(e, i)[1..])
            && (m == [] ==> Back(e', i) == Back(e, i) && Front(e', i) == Front(e, i))
  {
    ViewOfPop(e, i);
    hide Msgs, CmdFrames;
  }

  lemma SeesTakeOpen(e: Endpoint, i: nat)
    requires e.writer.Running? && e.queue != [] && e.writing == [] && e.queue[0].OpenCmd?
    requires e.queue[0].key == e.queue[0].id && e.queue[0].key in e.streams
    requires OncePerSink(e.queue)
    ensures Wrote(HalfOf(e, i), HalfOf(TakeCommand(e), i), FrameOf(e.queue[0]).streamId == i)
  {
    var e', k := TakeCommand(e), e.queue[0].key;
    PopSplits(e, e', i);
    assert i != k ==> (i in Waiting(e.queue) <==> i in Waiting(e.queue[1..]));
    hide Front, Back, Waiting, NewStream, OncePerSink;
    assert StreamOf(e', i) == StreamOf(e, i);
    assert StageOf(e', i) == if i == k then Live else StageOf(e, i);
  }

  predicate TakesWrite(e: Endpoint, i: nat) {
    && e.writer.Running? && e.queue != [] && e.writing == [] && e.queue[0].WriteCmd?
    && !Classify(e.queue[0].frame).Open?
    && RegOk(e, i) && RegOk(e, e.queue[0].frame.streamId)
  }

  lemma StageAfterTakeWrite(e: Endpoint, i: nat)
    requires TakesWrite(e, i)
    ensures var f, e' := e.queue[0].frame, TakeCommand(e);
            var closes := i == f.streamId && Classify(f).Close? && StageOf(e, i).Live?;
            && StreamOf(e', i) == (if closes then StreamOf(e, i).(shut := true) else StreamOf(e, i))
            && StageOf(e', i) == (if closes then Removed else StageOf(e, i))
  {
    WaitingTail(e.queue);
    hide Waiting, NewStream;
  }

  lemma SlotsAfterTakeWrite(e: Endpoint)
    requires e.queue != [] && e.queue[0].WriteCmd?
    ensures var e' := TakeCommand(e);
            && e'.writer == e.writer && e'.reader == e.reader && e'.queue == e.queue[1..]
            && e'.wire == e.wire && e'.writing == [FrameOf(e.queue[0])]
  {
  }

  lemma SeesTakeWrite(e: Endpoint, i: nat)
    requires TakesWrite(e, i)
    ensures Wrote(HalfOf(e, i), HalfOf(TakeCommand(e), i), FrameOf(e.queue[0]).streamId == i)
  {
    SlotsAfterTakeWrite(e);
    StageAfterTakeWrite(e, i);
    PopSplits(e, TakeCommand(e), i);
    hide Front, Back, TakeCommand, StageOf, StreamOf, Classify, RegOk;
  }

  lemma SeesPutAndStop(e: Endpoint, i: nat)
    requires e.writer.Running?
    ensures Commutes(e, e.(wire := e.wire + e.writing, writing := []), i, Stay)
    ensures Commutes(e, e.(writer := Stopping, queueClosed := true, writing := []), i, Cut(Msgs(i, e.wire)))
  {
    assert e.wire + e.writing + [] == e.wire + e.writing;
    assert e.wire + [] == e.wire;
    MsgsAppend(i, e.wire, e.writing);
    hide Msgs, CmdFrames, NewStream;
  }

  lemma SeesDrain(e: Endpoint, i: nat)
    requires Enabled(e, WriterDrain) && OncePerSink(e.queue)
    requires e.queue[0].OpenCmd? ==> e.queue[0].key in e.streams && e.queue[0].key !in e.registry
    ensures Commutes(e, DrainCommand(e), i,
                     if e.queue[0].OpenCmd? && e.queue[0].key == i then Unqueue else Stay)
  {
    hide NewStream, Msgs, CmdFrames;
    if e.queue[0].WriteCmd? { WaitingTail(e.queue); }
  }

  lemma SeesSweep(e: Endpoint, e': Endpoint, i: nat)
    requires SelfNamed(e.registry) && RegOk(e, i)
    requires HalfOf(e', i) == HalfOf(CloseAll(e), i)
    ensures Commutes(e, e', i, if StageOf(e, i).Live? then Sweep else Stay)
  {
    ViewOfCloseAll(e, i);
    hide CloseAll, StreamOf, Front, Back, RegOk;
  }

  lemma SeesReceiveOpen(e: Endpoint, id: u32, target: Bytes, i: nat)
    requires id !in e.streams && e.reader.Running?
    ensures var refused := |e.registry| >= MAX_CONCURRENT_PEER_STREAMS;
            Commutes(e, ReceiveOpen(e, id, target, id), i,
                     if id == i then Get(Open(target), id, refused)
                     else if refused then Deafen else Stay)
  {
    hide ParseTarget, Msgs, CmdFrames, Waiting;
  }

  lemma SeesReceiveData(e: Endpoint, id: u32, chunk: Bytes, i: nat)
    requires RegOk(e, id) && e.reader.Running?
    ensures Commutes(e, ReceiveData(e, id, chunk), i, if id == i then Get(Data(chunk), id, false) else Stay)
  {
    hide Overflows, PushOn, NewStream, Msgs, CmdFrames, Waiting;
  }

  lemma SeesReceiveCredit(e: Endpoint, id: u32, n: u32, i: nat)
    requires RegOk(e, id) && e.reader.Running?
    ensures Commutes(e, ReceiveCredit(e, id, n), i, if id == i then Get(Credit(n), id, false) else Stay)
  {
    hide GrantOn, NewStream, Msgs, CmdFrames, Waiting;
  }

  lemma SeesReceiveClose(e: Endpoint, id: u32, i: nat)
    requires RegOk(e, id) && e.reader.Running?
    ensures Commutes(e, Remove(e, id), i, if id == i then Get(Close, id, false) else Stay)
  {
    hide NewStream, Msgs, CmdFrames, Waiting;
  }

  /** Facts about the queue that the lemmas above ask for. */
  lemma QueueFacts(e: Endpoint)
    requires EndpointInv(e) && Named(e)
    ensures QueueUp(e) && SelfNamed(e.registry) && OncePerSink(e.queue)
    ensures e.queue != [] ==> GoodCmd(e.streams, e.queue[0])
    ensures e.queue != [] && e.queue[0].OpenCmd? ==> e.queue[0].key !in e.registry
  {
    hide StreamOk, OpenKeys;
    if e.queue != [] && e.queue[0].OpenCmd? {
      var k := e.queue[0].key;
      assert k in Waiting(e.queue);
    }
  }

  lemma SeesReceive(e: Endpoint, f: Frame, i: nat)
    requires Enabled(e, Receive(f, f.streamId)) && GoodFrame(f) && i > 0
    requires RegOk(e, f.streamId)
    ensures Commutes(e, Dispatch(e, f, f.streamId), i, Seen(e, Receive(f, f.streamId), i))
  {
    var id := f.streamId;
    match Classify(f)
    case Open(target) => SeesReceiveOpen(e, id, target, i);
    case Data(chunk) => SeesReceiveData(e, id, chunk, i);
    case Credit(n) => SeesReceiveCredit(e, id, n, i);
    case Close => SeesReceiveClose(e, id, i);
    case Ping =>
      hide Msgs, CmdFrames, Waiting, NewStream;
      assert HalfOf(Dispatch(e, f, id), i) == HalfOf(e, i);
    case Pong =>
    case _ => assert false;
    hide Commutes, ReceiveOpen, ReceiveData, ReceiveCredit, Remove;
  }

  lemma SeesCall(e: Endpoint, act: Action, i: nat)
    requires EndpointInv(e) && Named(e) && Enabled(e, act) && WellNamed(e, act) && i > 0
    requires !TaskAction(act)
    ensures Commutes(e, Apply(e, act), i, Seen(e, act, i))
  {
    QueueFacts(e);
    assert Room(e) ==> e.writer.Running?;
    if act.OpenStream? {
      RegistryIsOk(e, act.key);
      SeesOpen(e, act.key, act.kind, act.target, i);
    } else if act.SendPing? {
      SeesFrame(e, Frame(0, PING, []), i);
    } else {
      var k := act.key;
      assert e.streams[k].id == k;
      hide Named, EndpointInv, Commutes, PutTx, PutRx, EnqueueHeld, FinishRecv;
      if act.Enqueue? { SeesEnqueue(e, k, i); }
      else if act.RecvFinish? { SeesFinish(e, k, i); }
      else if act.CloseStream? { SeesFrame(e, CloseFrame(e.streams[k].id), i); }
      else { SeesPut(e, act, k, i); }
    }
    hide Commutes, OpenNew, EndpointInv, Named;
  }

  lemma SeesPhase(e: Endpoint, act: Action, i: nat)
    requires Enabled(e, act) && PhaseAction(act)
    ensures Commutes(e, Apply(e, act), i, Seen(e, act, i))
  {
    hide TakeCommand, DrainCommand, Dispatch, CloseAll, FinishRecv, EnqueueHeld, OpenNew, Put, Push, Chunks;
    hide Msgs, CmdFrames, Waiting, NewStream;
    if act.WriterPut? || act.WriterStop? {
      SeesPutAndStop(e, i);
      hide HalfOf;
    }
  }

  lemma SeesFlush(e: Endpoint, i: nat)
    requires e.outbox != [] && i > 0
    requires Commutes(e, Push(e, WriteCmd(e.outbox[0])), i, if e.outbox[0].streamId == i then AskClose else Stay)
    ensures Commutes(e, Push(e, WriteCmd(e.outbox[0])).(outbox := []), i,
                     if e.outbox[0].streamId == i then AskClose else Stay)
  {
    hide Msgs, CmdFrames, Waiting, NewStream;
  }

  lemma SeesReader(e: Endpoint, act: Action, i: nat)
    requires EndpointInv(e) && Named(e) && Enabled(e, act) && WellNamed(e, act) && i > 0
    requires act.ReaderFlush? || act.Receive?
    ensures Commutes(e, Apply(e, act), i, Seen(e, act, i))
  {
    QueueFacts(e);
    if act.ReaderFlush? {
      assert e.outbox[0] in e.outbox;
      hide EndpointInv, Named, Commutes;
      SeesFrame(e, e.outbox[0], i);
      SeesFlush(e, i);
    } else {
      RegistryIsOk(e, act.frame.streamId);
      hide EndpointInv, Named, Commutes;
      SeesReceive(e, act.frame, i);
    }
  }

  lemma SeesWriter(e: Endpoint, act: Action, i: nat)
    requires EndpointInv(e) && Named(e) && Enabled(e, act) && i > 0
    requires act.WriterTake? || act.WriterDrain?
    ensures Commutes(e, Apply(e, act), i, Seen(e, act, i))
  {
    QueueFacts(e);
    RegistryIsOk(e, i);
    if e.queue[0].WriteCmd? { RegistryIsOk(e, e.queue[0].frame.streamId); }
    hide EndpointInv, Named, Commutes, SelfNamed;
    if act.WriterDrain? {
      SeesDrain(e, i);
    } else {
      if e.queue[0].OpenCmd? { SeesTakeOpen(e, i); } else { SeesTakeWrite(e, i); }
      SeesWrite(e, TakeCommand(e), i, FrameOf(e.queue[0]).streamId == i);
    }
  }

  lemma SweepView(e: Endpoint, act: Action, i: nat)
    requires Enabled(e, act) && (act.WriterSweep? || act.ReaderSweep? || act.WatchdogSweep?)
    ensures HalfOf(Apply(e, act), i) == HalfOf(CloseAll(e), i)
    ensures Seen(e, act, i) == if StageOf(e, i).Live? then Sweep else Stay
  {
    assert CloseAll(e).writer == e.writer && CloseAll(e).reader == e.reader;
    hide Msgs, CmdFrames, Waiting, CloseAll, NewStream;
  }

  lemma SeesSweeping(e: Endpoint, act: Action, i: nat)
    requires EndpointInv(e) && Named(e) && Enabled(e, act) && i > 0
    requires act.WriterSweep? || act.ReaderSweep? || act.WatchdogSweep?
    ensures Commutes(e, Apply(e, act), i, Seen(e, act, i))
  {
    QueueFacts(e);
    RegistryIsOk(e, i);
    SweepView(e, act, i);
    hide EndpointInv, Named, Commutes, HalfOf, Apply, Enabled, Seen, Msgs, CmdFrames, Waiting, QueueUp, GoodCmd;
    SeesSweep(e, Apply(e, act), i);
  }

  /** The multiplexer behaves, on every stream id, as that stream's own machine: whatever task,
      call or frame acts, one stream sees one event or none, and its next state depends on its own
      state alone. */
  lemma EveryActionIsOneEvent(e: Endpoint, act: Action, i: nat)
    requires EndpointInv(e) && Named(e) && Enabled(e, act) && WellNamed(e, act) && i > 0
    ensures Can(e.fc, HalfOf(e, i), Seen(e, act, i))
    ensures HalfOf(Apply(e, act), i) == Next(e.fc, HalfOf(e, i), Seen(e, act, i))
  {
    hide EndpointInv, Named, WellNamed, HalfOf, Next, Can, Apply, Enabled, Seen;
    if PhaseAction(act) { SeesPhase(e, act, i); }
    else if act.ReaderFlush? || act.Receive? { SeesReader(e, act, i); }
    else if act.WriterTake? || act.WriterDrain? { SeesWriter(e, act, i); }
    else if TaskAction(act) { SeesSweeping(e, act, i); }
    else { SeesCall(e, act, i); }
  }
}
