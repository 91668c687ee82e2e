/**
 One end of the stream multiplexer, as a step system. Each action is one atomic piece of the
 writer task, the reader task, the suspend watchdog, or a call on a stream; the peer is any
 source of frames at all. Stream objects are named by keys, because a hostile peer can make two
 objects share one stream id.
 */
module MuxEndpoint {
  import opened Basics
  import opened Frames

  const MAX_CONCURRENT_PEER_STREAMS := 1024
  const INIT_WINDOW := 256 * 1024
  const WINDOW_THRESHOLD := INIT_WINDOW / 2
  const MAX_CREDIT := INIT_WINDOW
  const MAX_BUFFERED := 4 * 1024 * 1024
  const CHANNEL_MESSAGES := 1024
  const QUEUE_COMMANDS := 256

  type Key = nat
  datatype Kind = Tcp | Udp | Icmp

  // --- payload sequences -----------------------------------------------------------------

  function Total(cs: seq<Bytes>): nat {
    if cs == [] then 0 else |cs[0]| + Total(cs[1..])
  }

  function Flatten(cs: seq<Bytes>): Bytes {
    if cs == [] then [] else cs[0] + Flatten(cs[1..])
  }

  lemma {:induction false} TotalAppend(a: seq<Bytes>, b: seq<Bytes>)
    ensures Total(a + b) == Total(a) + Total(b)
  {
    if a == [] {
      assert a + b == b;
    } else {
      assert (a + b)[1..] == a[1..] + b;
      TotalAppend(a[1..], b);
    }
  }

  lemma {:induction false} FlattenAppend(a: seq<Bytes>, b: seq<Bytes>)
    ensures Flatten(a + b) == Flatten(a) + Flatten(b)
  {
    if a == [] {
      assert a + b == b;
    } else {
      assert (a + b)[1..] == a[1..] + b;
      FlattenAppend(a[1..], b);
    }
  }

  /** The frames' payloads one `send` turns into: TCP bytes are cut at MAX_FRAME_PAYLOAD, a
      datagram stays whole or is refused. */
  function Chunks(kind: Kind, data: Bytes): Option<seq<Bytes>> {
    if kind.Tcp? then Some(Pieces(data))
    else if |data| > MAX_FRAME_PAYLOAD then None
    else Some([data])
  }

  function Pieces(data: Bytes): (cs: seq<Bytes>)
    ensures Flatten(cs) == data
    ensures forall c <- cs :: 0 < |c| <= MAX_FRAME_PAYLOAD
  {
    if data == [] then []
    else if |data| <= MAX_FRAME_PAYLOAD then [data]
    else [data[..MAX_FRAME_PAYLOAD]] + Pieces(data[MAX_FRAME_PAYLOAD..])
  }

  // --- state -----------------------------------------------------------------------------

  /** The sending side of a stream. `asked`, `sent` and `leaked` are history: the payloads handed
      to `send`, those put into the command queue, and the credit lost by sends cancelled after
      they had acquired it. */
  datatype Sender = Sender(
    permits: nat,             // send credit
    todo: seq<Bytes>,         // chunks of the current `send` still waiting for credit
    held: seq<Bytes>,         // the chunk that has credit and waits for room in the queue
    asked: seq<Bytes>,
    sent: seq<Bytes>,
    broken: bool,             // a `send` has failed
    cancelled: bool,          // a `send` was abandoned half way
    leaked: nat)

  /** The receiving side; `delivered` is history: the payloads `recv` has returned. */
  datatype Receiver = Receiver(
    chan: seq<Bytes>,         // received, not yet taken by `recv`
    buffered: nat,
    consumed: nat,
    pending: seq<Bytes>,      // taken by `recv`, not yet returned
    delivered: seq<Bytes>)

  datatype Stream = Stream(
    id: u32,
    kind: Kind,
    shut: bool,               // the sink was closed: no more credit can be acquired
    gone: bool,               // the caller dropped the stream
    tx: Sender,
    rx: Receiver)

  function NewStream(id: u32, kind: Kind): Stream {
    Stream(id, kind, false, false,
           Sender(INIT_WINDOW, [], [], [], [], false, false, 0), Receiver([], 0, 0, [], []))
  }

  datatype Command =
    | OpenCmd(id: u32, target: Bytes, key: Key)
    | WriteCmd(frame: Frame)

  datatype Phase = Running | Stopping | Swept | Done

  datatype Endpoint = Endpoint(
    fc: bool,                    // flow control was negotiated
    nextId: nat,
    queue: seq<Command>,
    queueClosed: bool,
    writing: seq<Frame>,         // the frame the writer is writing, if any
    wire: seq<Frame>,            // written, not yet read by the peer
    outbox: seq<Frame>,          // the frame the reader is waiting to queue, if any
    registry: map<nat, Key>,
    peerOpened: set<nat>,
    streams: map<Key, Stream>,   // every stream object ever made
    clobbered: set<Key>,         // history: sinks replaced in the registry while still live
    closed: bool,
    writer: Phase,
    reader: Phase,
    watchdog: Phase)

  function NewEndpoint(fc: bool, firstId: nat): Endpoint {
    Endpoint(fc, firstId, [], false, [], [], [], map[], {}, map[], {}, false,
             Running, Running, Running)
  }

  // --- actions ---------------------------------------------------------------------------

  datatype Action =
    | OpenStream(key: Key, kind: Kind, target: Bytes)
    | SkipId                           // an open is refused or abandoned: its id is not reused
    | StartSend(key: Key, data: Bytes)
    | Acquire(key: Key)
    | Enqueue(key: Key)
    | CancelSend(key: Key)
    | FailSend(key: Key)
    | RecvTake(key: Key)
    | RecvFinish(key: Key)
    | CloseStream(key: Key)
    | DropStream(key: Key)
    | SendPing
    | WriterTake
    | WriterPut
    | WriterStop
    | WriterDrain
    | WriterSweep
    | WriterDone
    | Receive(frame: Frame, key: Key)   // the key names the stream an OPEN creates
    | ReaderFlush
    | ReaderGiveUp                     // the queue is closed: its reply is dropped
    | ReaderStop
    | ReaderSweep
    | ReaderDone
    | WatchdogSweep
    | WatchdogDone

  predicate Room(e: Endpoint) { !e.queueClosed && |e.queue| < QUEUE_COMMANDS }

  /** The caller still holds the stream. */
  predicate Usable(e: Endpoint, k: Key) { k in e.streams && !e.streams[k].gone }

  predicate Idle(t: Sender) { t.todo == [] && t.held == [] }

  predicate Enabled(e: Endpoint, act: Action) {
    match act
    case OpenStream(k, _, _) => k !in e.streams && Room(e) && e.nextId < 0x1_0000_0000
    case SkipId => e.nextId < 0x1_0000_0000
    case StartSend(k, data) =>
      Usable(e, k) && Idle(e.streams[k].tx) && Chunks(e.streams[k].kind, data).Some?
    case Acquire(k) => Usable(e, k) && CanAcquire(e.fc, e.streams[k].shut, e.streams[k].tx)
    case Enqueue(k) => Usable(e, k) && e.streams[k].tx.held != [] && Room(e)
    case CancelSend(k) => Usable(e, k) && !Idle(e.streams[k].tx)
    case FailSend(k) => Usable(e, k) && MustFail(e.fc, e.streams[k].shut, !e.queueClosed, e.streams[k].tx)
    case RecvTake(k) => Usable(e, k) && e.streams[k].rx.pending == [] && e.streams[k].rx.chan != []
    case RecvFinish(k) =>
      Usable(e, k) && e.streams[k].rx.pending != []
      && (e.streams[k].rx.consumed >= WINDOW_THRESHOLD && !e.queueClosed ==> Room(e))
    case CloseStream(k) => Usable(e, k) && Room(e)
    case DropStream(k) => Usable(e, k) && Idle(e.streams[k].tx)
    case SendPing => Room(e)
    case WriterTake => e.writer.Running? && e.writing == [] && e.queue != []
    case WriterPut => e.writer.Running? && e.writing != []
    case WriterStop => e.writer.Running?
    case WriterDrain => e.writer.Stopping? && e.queue != []
    case WriterSweep => e.writer.Stopping? && e.queue == []
    case WriterDone => e.writer.Swept?
    case Receive(f, k) =>
      e.reader.Running? && e.outbox == [] && (Classify(f).Open? ==> k !in e.streams)
    case ReaderFlush => e.reader.Running? && e.outbox != [] && Room(e)
    case ReaderGiveUp => e.reader.Running? && e.outbox != [] && e.queueClosed
    case ReaderStop => e.reader.Running?
    case ReaderSweep => e.reader.Stopping?
    case ReaderDone => e.reader.Swept?
    case WatchdogSweep => e.watchdog.Running?
    case WatchdogDone => e.watchdog.Swept?
  }

  // Pieces of the actions that concern one side of one stream only.

  predicate CanAcquire(fc: bool, shut: bool, t: Sender) {
    t.todo != [] && t.held == [] && (fc ==> !shut && t.permits >= |t.todo[0]|)
  }

  /** A send errs when its window is closed, or when the queue is closed under it. */
  predicate MustFail(fc: bool, shut: bool, queueOpen: bool, t: Sender) {
    || (fc && shut && t.todo != [] && t.held == [])
    || (!queueOpen && t.held != [])
  }

  function StartOn(t: Sender, chunks: seq<Bytes>): Sender {
    t.(todo := chunks, asked := t.asked + chunks)
  }

  function AcquireOn(fc: bool, t: Sender): Sender
    requires CanAcquire(fc, false, t)
  {
    t.(held := [t.todo[0]], todo := t.todo[1..],
       permits := if fc then t.permits - |t.todo[0]| else t.permits)
  }

  function EmitOn(t: Sender): Sender
    requires t.held != []
  {
    t.(held := [], sent := t.sent + [t.held[0]])
  }

  function CancelOn(t: Sender): Sender {
    t.(todo := [], held := [], cancelled := true, leaked := t.leaked + Total(t.held))
  }

  function FailOn(t: Sender): Sender { t.(todo := [], held := [], broken := true) }

  function GrantOn(fc: bool, t: Sender, credit: nat): Sender {
    if fc then t.(permits := t.permits + Min(credit, MAX_CREDIT)) else t
  }

  function TakeOn(fc: bool, r: Receiver): Receiver
    requires r.chan != []
  {
    r.(pending := [r.chan[0]], chan := r.chan[1..],
       buffered := if r.buffered >= |r.chan[0]| then r.buffered - |r.chan[0]| else 0,
       consumed := if fc then r.consumed + |r.chan[0]| else r.consumed)
  }

  function FinishOn(r: Receiver): Receiver {
    r.(consumed := if r.consumed >= WINDOW_THRESHOLD then 0 else r.consumed,
       delivered := r.delivered + r.pending, pending := [])
  }

  function PushOn(r: Receiver, chunk: Bytes): Receiver {
    r.(chan := r.chan + [chunk], buffered := r.buffered + |chunk|)
  }

  predicate Overflows(s: Stream, n: nat) {
    s.rx.buffered + n > MAX_BUFFERED || |s.rx.chan| >= CHANNEL_MESSAGES || s.gone
  }

  function DataFrame(s: Stream, chunk: Bytes): Frame {
    Frame(s.id, if s.kind.Tcp? then DATA else DATAGRAM, chunk)
  }

  // Pieces that change the shared registry.

  function Put(e: Endpoint, k: Key, s: Stream): Endpoint { e.(streams := e.streams[k := s]) }

  function Push(e: Endpoint, c: Command): Endpoint { e.(queue := e.queue + [c]) }

  function ShutKey(e: Endpoint, k: Key): Endpoint {
    if k in e.streams then Put(e, k, e.streams[k].(shut := true)) else e
  }

  function Register(e: Endpoint, id: nat, k: Key, byPeer: bool): Endpoint {
    e.(registry := e.registry[id := k],
       peerOpened := if byPeer then e.peerOpened + {id} else e.peerOpened - {id},
       clobbered := if id in e.registry then e.clobbered + {e.registry[id]} else e.clobbered)
  }

  function Remove(e: Endpoint, id: nat): Endpoint {
    if id in e.registry then
      ShutKey(e, e.registry[id]).(registry := e.registry - {id}, peerOpened := e.peerOpened - {id})
    else e
  }

  function CloseAll(e: Endpoint): Endpoint {
    e.(streams := map k | k in e.streams ::
                    if k in e.registry.Values then e.streams[k].(shut := true) else e.streams[k],
       registry := map[], peerOpened := {})
  }

  // The reader, one message at a time.

  function ReceiveOpen(e: Endpoint, id: u32, target: Bytes, k: Key): Endpoint {
    if |e.registry| >= MAX_CONCURRENT_PEER_STREAMS then e.(reader := Stopping)
    else Register(Put(e, k, NewStream(id, ParseTarget(target).0)), id, k, true)
  }

  function ReceiveData(e: Endpoint, id: u32, chunk: Bytes): Endpoint {
    if id !in e.registry || e.registry[id] !in e.streams then e
    else
      var s := e.streams[e.registry[id]];
      if Overflows(s, |chunk|) then Remove(e, id).(outbox := [CloseFrame(id)])
      else Put(e, e.registry[id], s.(rx := PushOn(s.rx, chunk)))
  }

  function ReceiveCredit(e: Endpoint, id: u32, credit: nat): Endpoint {
    if id !in e.registry || e.registry[id] !in e.streams then e
    else
      var s := e.streams[e.registry[id]];
      Put(e, e.registry[id], s.(tx := GrantOn(e.fc, s.tx, credit)))
  }

  /** The reader's dispatch on one inbound frame. */
  function Dispatch(e: Endpoint, f: Frame, k: Key): Endpoint {
    match Classify(f)
    case Ping => e.(outbox := [Frame(0, PONG, [])])
    case Pong => e
    case Ignored => e
    case Abort => e.(reader := Stopping)
    case Open(target) => ReceiveOpen(e, f.streamId, target, k)
    case Data(chunk) => ReceiveData(e, f.streamId, chunk)
    case Credit(n) => ReceiveCredit(e, f.streamId, n)
    case Close => Remove(e, f.streamId)
  }

  // The writer, one command at a time.

  function TakeCommand(e: Endpoint): Endpoint
    requires e.queue != []
  {
    var e' := e.(queue := e.queue[1..]);
    match e.queue[0]
    case OpenCmd(id, target, k) => Register(e', id, k, false).(writing := [OpenFrame(id, target)])
    case WriteCmd(f) =>
      (if BaseType(f.ftype) == CLOSE then Remove(e', f.streamId) else e').(writing := [f])
  }

  function DrainCommand(e: Endpoint): Endpoint
    requires e.queue != []
  {
    var e' := e.(queue := e.queue[1..]);
    if e.queue[0].OpenCmd? then ShutKey(e', e.queue[0].key) else e'
  }

  // Calls on the mux and on a stream.

  function OpenNew(e: Endpoint, k: Key, kind: Kind, target: Bytes): Endpoint
    requires e.nextId < 0x1_0000_0000
  {
    Push(Put(e, k, NewStream(e.nextId, kind)).(nextId := e.nextId + 2),
         OpenCmd(e.nextId, OpenPayload(kind, target), k))
  }

  function PutTx(e: Endpoint, k: Key, t: Sender): Endpoint
    requires k in e.streams
  {
    Put(e, k, e.streams[k].(tx := t))
  }

  function PutRx(e: Endpoint, k: Key, r: Receiver): Endpoint
    requires k in e.streams
  {
    Put(e, k, e.streams[k].(rx := r))
  }

  function EnqueueHeld(e: Endpoint, k: Key): Endpoint
    requires k in e.streams && e.streams[k].tx.held != []
  {
    var s := e.streams[k];
    Push(PutTx(e, k, EmitOn(s.tx)), WriteCmd(DataFrame(s, s.tx.held[0])))
  }

  function FinishRecv(e: Endpoint, k: Key): Endpoint
    requires k in e.streams
  {
    var s := e.streams[k];
    var e' := PutRx(e, k, FinishOn(s.rx));
    if s.rx.consumed >= WINDOW_THRESHOLD && !e.queueClosed then
      Push(e', WriteCmd(CreditFrame(s.id, Min(s.rx.consumed, 0xFFFF_FFFF))))
    else e'
  }

  function Apply(e: Endpoint, act: Action): Endpoint
    requires Enabled(e, act)
  {
    match act
    case OpenStream(k, kind, target) => OpenNew(e, k, kind, target)
    case SkipId => e.(nextId := e.nextId + 2)
    case StartSend(k, data) =>
      PutTx(e, k, StartOn(e.streams[k].tx, Chunks(e.streams[k].kind, data).value))
    case Acquire(k) => PutTx(e, k, AcquireOn(e.fc, e.streams[k].tx))
    case Enqueue(k) => EnqueueHeld(e, k)
    case CancelSend(k) => PutTx(e, k, CancelOn(e.streams[k].tx))
    case FailSend(k) => PutTx(e, k, FailOn(e.streams[k].tx))
    case RecvTake(k) => PutRx(e, k, TakeOn(e.fc, e.streams[k].rx))
    case RecvFinish(k) => FinishRecv(e, k)
    case CloseStream(k) => Push(e, WriteCmd(CloseFrame(e.streams[k].id)))
    case DropStream(k) => Put(e, k, e.streams[k].(gone := true))
    case SendPing => Push(e, WriteCmd(Frame(0, PING, [])))
    case WriterTake => TakeCommand(e)
    case WriterPut => e.(wire := e.wire + e.writing, writing := [])
    case WriterStop => e.(writer := Stopping, queueClosed := true, writing := [])
    case WriterDrain => DrainCommand(e)
    case WriterSweep => CloseAll(e).(writer := Swept)
    case WriterDone => e.(writer := Done, closed := true)
    case Receive(f, k) => Dispatch(e, f, k)
    case ReaderFlush => Push(e, WriteCmd(e.outbox[0])).(outbox := [])
    case ReaderGiveUp => e.(outbox := [])
    case ReaderStop => e.(reader := Stopping)
    case ReaderSweep => CloseAll(e).(reader := Swept)
    case ReaderDone => e.(reader := Done, closed := true)
    case WatchdogSweep => CloseAll(e).(watchdog := Swept)
    case WatchdogDone => e.(watchdog := Done, closed := true)
  }

  // --- OPEN targets ----------------------------------------------------------------------

  const UDP_SCHEME: Bytes := [117, 100, 112, 58]         // "udp:"
  const ICMP_SCHEME: Bytes := [105, 99, 109, 112, 58]    // "icmp:"
  const TCP_SCHEME: Bytes := [116, 99, 112, 58]          // "tcp:"

  /** The payload of the OPEN that asks for `target`; a TCP open carries it bare. */
  function OpenPayload(kind: Kind, target: Bytes): Bytes {
    match kind
    case Tcp => target
    case Udp => UDP_SCHEME + target
    case Icmp => ICMP_SCHEME + target
  }

  function ParseTarget(raw: Bytes): (Kind, Bytes) {
    if UDP_SCHEME <= raw then (Udp, raw[|UDP_SCHEME|..])
    else if ICMP_SCHEME <= raw then (Icmp, raw[|ICMP_SCHEME|..])
    else if TCP_SCHEME <= raw then (Tcp, raw[|TCP_SCHEME|..])
    else (Tcp, raw)
  }

  predicate StartsWithScheme(target: Bytes) {
    UDP_SCHEME <= target || ICMP_SCHEME <= target || TCP_SCHEME <= target
  }

  /** The acceptor reads the kind and target the opener meant, except exactly for TCP targets
      that themselves begin with a scheme. */
  lemma OpenTargetSurvives(kind: Kind, target: Bytes)
    ensures ParseTarget(OpenPayload(kind, target)) == (kind, target)
            <==> !(kind.Tcp? && StartsWithScheme(target))
  {
    assert (UDP_SCHEME + target)[|UDP_SCHEME|..] == target;
    assert (ICMP_SCHEME + target)[|ICMP_SCHEME|..] == target;
    assert !(UDP_SCHEME <= ICMP_SCHEME + target) by { assert (ICMP_SCHEME + target)[0] == 105; }
    if UDP_SCHEME <= target { assert ParseTarget(target).0 == Udp; }
    else if ICMP_SCHEME <= target { assert ParseTarget(target).0 == Icmp; }
    else if TCP_SCHEME <= target { assert |ParseTarget(target).1| < |target|; }
  }
}
