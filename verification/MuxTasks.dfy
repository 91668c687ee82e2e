/**
 The multiplexer's tasks and calls as they run: loops and branches over shared fields. Each turn
 of a task and each call is proved to compute a function of the state, and that function to be a
 run of the atomic actions of `MuxEndpoint`: what is proved of runs holds of them too.
 */
module MuxTasks {
  import opened Basics
  import opened Frames
  import opened MuxEndpoint
  import opened MuxSafety

  // --- the tasks' ways out ---------------------------------------------------------------

  lemma {:induction false} RunJoin(e: Endpoint, a: seq<Action>, e1: Endpoint, b: seq<Action>, e2: Endpoint)
    requires Run(e, a, e1) && Run(e1, b, e2)
    ensures Run(e, a + b, e2)
    decreases |a|
  {
    hide Enabled, Apply;
    if a == [] {
      assert a + b == b;
    } else {
      RunJoin(Apply(e, a[0]), a[1..], e1, b, e2);
      assert (a + b)[1..] == a[1..] + b;
    }
  }

  lemma RunOne(e: Endpoint, act: Action)
    requires Enabled(e, act)
    ensures Run(e, [act], Apply(e, act))
  {
    hide Enabled, Apply;
    assert [act][1..] == [];
  }

  function ReaderLeft(e: Endpoint): Endpoint {
    CloseAll(e.(reader := Stopping)).(reader := Done, closed := true)
  }

  function Stopped(e: Endpoint): Endpoint { e.(writer := Stopping, queueClosed := true, writing := []) }

  /** The queue taken to its end, each open in it having its window closed. */
  function Drained(e: Endpoint): Endpoint
    decreases |e.queue|
  {
    if e.queue == [] then e else Drained(DrainCommand(e))
  }

  function Written(e: Endpoint): Endpoint { e.(wire := e.wire + e.writing, writing := []) }

  function WriterLeft(e: Endpoint): Endpoint {
    CloseAll(Drained(Stopped(e))).(writer := Done, closed := true)
  }

  lemma ReaderSteps(e: Endpoint)
    ensures e.reader.Running? ==> Run(e, [ReaderStop], e.(reader := Stopping))
    ensures e.reader.Stopping? ==> Run(e, [ReaderSweep], CloseAll(e).(reader := Swept))
    ensures e.reader.Swept? ==> Run(e, [ReaderDone], e.(reader := Done, closed := true))
  {
    if e.reader.Running? { RunOne(e, ReaderStop); }
    if e.reader.Stopping? { RunOne(e, ReaderSweep); }
    if e.reader.Swept? { RunOne(e, ReaderDone); }
  }

  lemma WriterSteps(e: Endpoint)
    ensures e.writer.Running? ==> Run(e, [WriterStop], Stopped(e))
    ensures e.writer.Stopping? && e.queue == [] ==> Run(e, [WriterSweep], CloseAll(e).(writer := Swept))
    ensures e.writer.Swept? ==> Run(e, [WriterDone], e.(writer := Done, closed := true))
  {
    if e.writer.Running? { RunOne(e, WriterStop); }
    if e.writer.Stopping? && e.queue == [] { RunOne(e, WriterSweep); }
    if e.writer.Swept? { RunOne(e, WriterDone); }
  }

  lemma ReaderLeaves(e: Endpoint)
    requires e.reader.Running?
    ensures Run(e, [ReaderStop, ReaderSweep, ReaderDone], ReaderLeft(e))
  {
    var e1 := e.(reader := Stopping);
    var e2 := CloseAll(e1).(reader := Swept);
    hide Run, CloseAll;
    ReaderSteps(e);
    ReaderSteps(e1);
    ReaderSteps(e2);
    RunJoin(e, [ReaderStop], e1, [ReaderSweep], e2);
    RunJoin(e, [ReaderStop] + [ReaderSweep], e2, [ReaderDone], ReaderLeft(e));
    assert [ReaderStop] + [ReaderSweep] + [ReaderDone] == [ReaderStop, ReaderSweep, ReaderDone];
  }

  lemma {:induction false} DrainingIsARun(e: Endpoint) returns (acts: seq<Action>)
    requires e.writer.Stopping?
    ensures Run(e, acts, Drained(e))
    ensures Drained(e) == e.(queue := [], streams := Drained(e).streams)
    decreases |e.queue|
  {
    acts := [];
    if e.queue != [] {
      assert DrainCommand(e) == e.(queue := e.queue[1..], streams := DrainCommand(e).streams);
      RunOne(e, WriterDrain);
      var rest := DrainingIsARun(DrainCommand(e));
      acts := [WriterDrain] + rest;
      hide Apply, Enabled, DrainCommand;
      RunJoin(e, [WriterDrain], DrainCommand(e), rest, Drained(e));
    }
  }

  lemma WriterLeaves(e: Endpoint) returns (acts: seq<Action>)
    requires e.writer.Running?
    ensures Run(e, acts, WriterLeft(e))
  {
    var e1 := Stopped(e);
    var drain := DrainingIsARun(e1);
    var e2 := Drained(e1);
    var e3 := CloseAll(e2).(writer := Swept);
    hide Run, CloseAll, Drained;
    WriterSteps(e);
    WriterSteps(e2);
    WriterSteps(e3);
    RunJoin(e, [WriterStop], e1, drain, e2);
    RunJoin(e, [WriterStop] + drain, e2, [WriterSweep], e3);
    RunJoin(e, [WriterStop] + drain + [WriterSweep], e3, [WriterDone], WriterLeft(e));
    acts := [WriterStop] + drain + [WriterSweep] + [WriterDone];
  }

  /** A turn of the writer's loop is its two actions, the frame written at once. */
  lemma WriteNextIsARun(e: Endpoint)
    requires Enabled(e, WriterTake)
    ensures Run(e, [WriterTake, WriterPut], Written(TakeCommand(e)))
  {
    TakingWrites(e);
    RunOne(e, WriterTake);
    RunOne(TakeCommand(e), WriterPut);
    hide Run, Enabled, Apply, TakeCommand;
    RunJoin(e, [WriterTake], TakeCommand(e), [WriterPut], Written(TakeCommand(e)));
    assert [WriterTake] + [WriterPut] == [WriterTake, WriterPut];
  }

  lemma TakingWrites(e: Endpoint)
    requires e.queue != []
    ensures TakeCommand(e).writing != [] && TakeCommand(e).writer == e.writer
  {
  }

  // --- sending ---------------------------------------------------------------------------

  datatype SendResult = Sent | Waiting | Closed | TooLong

  /** The chunks of a stream's sends, in the order they go out. */
  function Outgoing(t: Sender): seq<Bytes> { t.sent + t.held + t.todo }

  /** A started send, as far as credit and room let it go. */
  function Pump(e: Endpoint, k: Key): (Endpoint, SendResult)
    requires k in e.streams && e.streams[k].tx.held == []
    decreases |e.streams[k].tx.todo|
  {
    var s := e.streams[k];
    if s.tx.todo == [] then (e, Sent)
    else if e.fc && s.shut then (PutTx(e, k, FailOn(s.tx)), Closed)
    else if e.fc && s.tx.permits < |s.tx.todo[0]| then (e, Waiting)
    else
      var e1 := PutTx(e, k, AcquireOn(e.fc, s.tx));
      if e.queueClosed then (PutTx(e, k, FailOn(AcquireOn(e.fc, s.tx))), Closed)
      else if |e.queue| >= QUEUE_COMMANDS then (e1, Waiting)
      else Pump(EnqueueHeld(e1, k), k)
  }

  lemma {:induction false} PumpIsARun(e: Endpoint, k: Key) returns (acts: seq<Action>)
    requires Usable(e, k) && e.streams[k].tx.held == []
    ensures Run(e, acts, Pump(e, k).0)
    decreases |e.streams[k].tx.todo|
  {
    var s := e.streams[k];
    if s.tx.todo == [] || (!(e.fc && s.shut) && e.fc && s.tx.permits < |s.tx.todo[0]|) {
      return [];
    }
    if e.fc && s.shut {
      CallSteps(e, k);
      return [FailSend(k)];
    }
    var e1 := PutTx(e, k, AcquireOn(e.fc, s.tx));
    CallSteps(e, k);
    CallSteps(e1, k);
    hide Run;
    if e.queueClosed {
      RunJoin(e, [Acquire(k)], e1, [FailSend(k)], Pump(e, k).0);
      return [Acquire(k)] + [FailSend(k)];
    }
    if |e.queue| >= QUEUE_COMMANDS { return [Acquire(k)]; }
    var e2 := EnqueueHeld(e1, k);
    var rest := PumpIsARun(e2, k);
    RunJoin(e, [Acquire(k)], e1, [Enqueue(k)], e2);
    RunJoin(e, [Acquire(k)] + [Enqueue(k)], e2, rest, Pump(e, k).0);
    acts := [Acquire(k)] + [Enqueue(k)] + rest;
  }

  /** A whole send: its start, then as much of it as credit and room allow. */
  lemma SendIsARun(e: Endpoint, k: Key, data: Bytes) returns (acts: seq<Action>)
    requires Enabled(e, StartSend(k, data))
    ensures var s := e.streams[k];
            Run(e, acts, Pump(PutTx(e, k, StartOn(s.tx, Chunks(s.kind, data).value)), k).0)
  {
    var s := e.streams[k];
    var e1 := PutTx(e, k, StartOn(s.tx, Chunks(s.kind, data).value));
    RunOne(e, StartSend(k, data));
    hide Run, Pump, Chunks;
    var rest := PumpIsARun(e1, k);
    RunJoin(e, [StartSend(k, data)], e1, rest, Pump(e1, k).0);
    acts := [StartSend(k, data)] + rest;
  }

  /** What a whole send comes to, said without its steps. */
  lemma SendMeans(e: Endpoint, k: Key, data: Bytes)
    requires k in e.streams && Idle(e.streams[k].tx)
    ensures Chunks(e.streams[k].kind, data).None? <==> !e.streams[k].kind.Tcp? && |data| > 16378
    ensures var s := e.streams[k];
            Chunks(s.kind, data).Some? ==>
              var (e', r) := Pump(PutTx(e, k, StartOn(s.tx, Chunks(s.kind, data).value)), k);
              && k in e'.streams && !r.TooLong?
              && (r.Waiting? ==> SendWaits(e', k) && LacksCreditOrRoom(e', k))
              && (r.Closed? ==> (e.fc && s.shut) || e.queueClosed)
              && (r.Sent? ==> Flatten(e'.streams[k].tx.sent) == Flatten(s.tx.sent) + data)
              && Queued(e, e', k)
  {
    var s := e.streams[k];
    if Chunks(s.kind, data).Some? {
      var chunks := Chunks(s.kind, data).value;
      assert Flatten(chunks) == data;
      var e1 := PutTx(e, k, StartOn(s.tx, chunks));
      PumpStops(e1, k);
      PumpQueues(e1, k);
      FlattenAppend(s.tx.sent, chunks);
      hide Pump, SendWaits, LacksCreditOrRoom, Flatten, Chunks;
      assert Queued(e, e1, k);
      QueuedOneMore(e, e1, Pump(e1, k).0, k);
    }
  }

  lemma CallSteps(e: Endpoint, k: Key)
    requires Usable(e, k)
    ensures Enabled(e, Acquire(k)) ==> Run(e, [Acquire(k)], PutTx(e, k, AcquireOn(e.fc, e.streams[k].tx)))
    ensures Enabled(e, FailSend(k)) ==> Run(e, [FailSend(k)], PutTx(e, k, FailOn(e.streams[k].tx)))
    ensures Enabled(e, Enqueue(k)) ==> Run(e, [Enqueue(k)], EnqueueHeld(e, k))
  {
    hide PutTx, EnqueueHeld;
    if Enabled(e, Acquire(k)) { RunOne(e, Acquire(k)); }
    if Enabled(e, FailSend(k)) { RunOne(e, FailSend(k)); }
    if Enabled(e, Enqueue(k)) { RunOne(e, Enqueue(k)); }
  }

  lemma PumpNothing(e: Endpoint, k: Key)
    requires k in e.streams && Idle(e.streams[k].tx)
    ensures Pump(e, k) == (e, Sent)
  {
  }

  lemma OneChunkOn(fc: bool, t: Sender)
    requires CanAcquire(fc, false, t)
    ensures var t1 := AcquireOn(fc, t);
            && t1.held != [] && Outgoing(t1) == Outgoing(t)
            && Outgoing(EmitOn(t1)) == Outgoing(t) && EmitOn(t1).held == [] && |EmitOn(t1).todo| < |t.todo|
  {
    assert [t.todo[0]] + t.todo[1..] == t.todo;
  }

  /** Pumping sends or keeps every chunk, in order, and leaves every other stream alone. */
  lemma {:induction false} PumpKeepsChunks(e: Endpoint, k: Key)
    requires k in e.streams && e.streams[k].tx.held == []
    ensures var (e', r) := Pump(e, k);
            && e'.streams.Keys == e.streams.Keys
            && (forall j :: j in e.streams && j != k ==> e'.streams[j] == e.streams[j])
            && (!r.Closed? ==> Outgoing(e'.streams[k].tx) == Outgoing(e.streams[k].tx))
            && (r.Sent? ==> Idle(e'.streams[k].tx))
            && (r.Closed? ==> e'.streams[k].tx.broken)
    decreases |e.streams[k].tx.todo|
  {
    var s := e.streams[k];
    if s.tx.todo != [] && !(e.fc && (s.shut || s.tx.permits < |s.tx.todo[0]|)) {
      OneChunkOn(e.fc, s.tx);
      hide AcquireOn, EmitOn, Outgoing;
      var e1 := PutTx(e, k, AcquireOn(e.fc, s.tx));
      if !e.queueClosed && |e.queue| < QUEUE_COMMANDS { PumpKeepsChunks(EnqueueHeld(e1, k), k); }
    }
  }

  /** The next chunk has no credit, or a chunk that has it finds 256 commands queued. */
  predicate LacksCreditOrRoom(e: Endpoint, k: Key)
    requires k in e.streams
  {
    var t := e.streams[k].tx;
    if t.held == [] then e.fc && t.todo != [] && t.permits < |t.todo[0]| else |e.queue| >= 256 && !e.queueClosed
  }

  /** Why a send stops where it does. It waits only if it can neither go on nor fail; it fails only if
      its window is closed or the queue is; and otherwise everything it had to send is sent. */
  lemma {:induction false} PumpStops(e: Endpoint, k: Key)
    requires k in e.streams && e.streams[k].tx.held == []
    ensures var (e', r) := Pump(e, k);
            && k in e'.streams && !r.TooLong?
            && (r.Waiting? ==> SendWaits(e', k) && LacksCreditOrRoom(e', k))
            && (r.Closed? ==> (e.fc && e.streams[k].shut) || e.queueClosed)
            && (r.Sent? ==> e'.streams[k].tx.sent == e.streams[k].tx.sent + e.streams[k].tx.todo)
    decreases |e.streams[k].tx.todo|
  {
    hide Pump, SendWaits, LacksCreditOrRoom;
    if GoesOn(e, k) {
      PumpGoesOn(e, k);
      hide OneSent;
      PumpStops(OneSent(e, k), k);
    } else {
      PumpEnds(e, k);
    }
  }

  /** There is a chunk to send, with credit and room for it. */
  predicate GoesOn(e: Endpoint, k: Key)
    requires k in e.streams
  {
    && CanAcquire(e.fc, e.streams[k].shut, e.streams[k].tx)
    && !e.queueClosed && |e.queue| < QUEUE_COMMANDS
  }

  function OneSent(e: Endpoint, k: Key): Endpoint
    requires k in e.streams && GoesOn(e, k)
  {
    EnqueueHeld(PutTx(e, k, AcquireOn(e.fc, e.streams[k].tx)), k)
  }

  lemma PumpGoesOn(e: Endpoint, k: Key)
    requires k in e.streams && e.streams[k].tx.held == [] && GoesOn(e, k)
    ensures var e1 := OneSent(e, k);
            && k in e1.streams && e1.streams[k].tx.held == [] && Pump(e, k) == Pump(e1, k)
            && e1.fc == e.fc && e1.queueClosed == e.queueClosed && e1.streams[k].shut == e.streams[k].shut
            && e1.streams[k].tx.sent + e1.streams[k].tx.todo == e.streams[k].tx.sent + e.streams[k].tx.todo
            && |e1.streams[k].tx.todo| < |e.streams[k].tx.todo|
  {
    var t := e.streams[k].tx;
    assert t.todo == [t.todo[0]] + t.todo[1..];
  }

  lemma PumpEnds(e: Endpoint, k: Key)
    requires k in e.streams && e.streams[k].tx.held == [] && !GoesOn(e, k)
    ensures var (e', r) := Pump(e, k);
            && k in e'.streams && !r.TooLong?
            && (r.Waiting? ==> SendWaits(e', k) && LacksCreditOrRoom(e', k))
            && (r.Closed? ==> (e.fc && e.streams[k].shut) || e.queueClosed)
            && (r.Sent? ==> e.streams[k].tx.todo == [] && e' == e)
  {
  }

  /** And what is sent is queued, chunk by chunk, as frames of its stream: DATA for TCP, DATAGRAM for
      the others. */
  lemma {:induction false} PumpQueues(e: Endpoint, k: Key)
    requires k in e.streams && e.streams[k].tx.held == []
    ensures Queued(e, Pump(e, k).0, k)
    decreases |e.streams[k].tx.todo|
  {
    if GoesOn(e, k) {
      PumpGoesOn(e, k);
      QueuesOne(e, k);
      hide Pump, Queued, OneSent;
      PumpQueues(OneSent(e, k), k);
      QueuedOneMore(e, OneSent(e, k), Pump(e, k).0, k);
    }
  }

  lemma QueuesOne(e: Endpoint, k: Key)
    requires k in e.streams && GoesOn(e, k)
    ensures Queued(e, OneSent(e, k), k)
  {
    var a, c := e.streams[k].tx.sent, e.streams[k].tx.todo[0];
    assert (a + [c])[|a|..] == [c];
  }

  /** Between the two, exactly the chunks newly sent on the stream were queued, in order. */
  ghost predicate Queued(e: Endpoint, e': Endpoint, k: Key) {
    && k in e.streams && k in e'.streams
    && e'.streams[k].id == e.streams[k].id && e'.streams[k].kind == e.streams[k].kind
    && e.streams[k].tx.sent <= e'.streams[k].tx.sent
    && e'.queue == e.queue + SentFrames(e.streams[k], e'.streams[k].tx.sent[|e.streams[k].tx.sent|..])
  }

  function SentFrames(s: Stream, chunks: seq<Bytes>): seq<Command> {
    seq(|chunks|, i requires 0 <= i < |chunks| => WriteCmd(Frame(s.id, if s.kind == Tcp then 3 else 5, chunks[i])))
  }

  lemma QueuedOneMore(e: Endpoint, e1: Endpoint, e2: Endpoint, k: Key)
    requires Queued(e, e1, k) && Queued(e1, e2, k)
    ensures Queued(e, e2, k)
  {
    var a, b, c := e.streams[k].tx.sent, e1.streams[k].tx.sent, e2.streams[k].tx.sent;
    assert c[|a|..] == b[|a|..] + c[|b|..];
    assert SentFrames(e.streams[k], c[|a|..])
        == SentFrames(e.streams[k], b[|a|..]) + SentFrames(e1.streams[k], c[|b|..]);
  }

  /** A TCP send is cut into whole frames and a rest, and is never refused for its length; a datagram
      is one chunk, and is refused exactly when it does not fit a frame. */
  lemma {:induction false} PiecesAreWhole(data: Bytes)
    ensures var cs := Pieces(data);
            && (cs == [] <==> data == [])
            && (forall i :: 0 <= i < |cs| - 1 ==> |cs[i]| == 16378)
            && (forall c <- cs :: 1 <= |c| <= 16378)
  {
    if |data| > MAX_FRAME_PAYLOAD {
      PiecesAreWhole(data[MAX_FRAME_PAYLOAD..]);
      var cs, rest := Pieces(data), Pieces(data[MAX_FRAME_PAYLOAD..]);
      assert forall i :: 0 < i < |cs| ==> cs[i] == rest[i - 1];
    }
  }

  // --- receiving -------------------------------------------------------------------------

  /** The chunks of a stream in the order `recv` returns them: returned, taken, queued. */
  function Incoming(r: Receiver): seq<Bytes> { r.delivered + r.pending + r.chan }

  function Taken(e: Endpoint, k: Key): Endpoint
    requires k in e.streams && (e.streams[k].rx.pending != [] || e.streams[k].rx.chan != [])
  {
    if e.streams[k].rx.pending == [] then PutRx(e, k, TakeOn(e.fc, e.streams[k].rx)) else e
  }

  /** A receive: it returns a chunk, or is abandoned waiting for room for the credit update. */
  function Received(e: Endpoint, k: Key): (Endpoint, Option<Bytes>)
    requires k in e.streams && (e.streams[k].rx.pending != [] || e.streams[k].rx.chan != [])
  {
    var e1 := Taken(e, k);
    if e1.streams[k].rx.consumed >= WINDOW_THRESHOLD && !e.queueClosed && !Room(e) then (e1, None)
    else (FinishRecv(e1, k), Some(e1.streams[k].rx.pending[0]))
  }

  lemma ReceivedIsARun(e: Endpoint, k: Key) returns (acts: seq<Action>)
    requires Usable(e, k) && (e.streams[k].rx.pending != [] || e.streams[k].rx.chan != [])
    ensures Run(e, acts, Received(e, k).0)
  {
    var e1 := Taken(e, k);
    var take := if e.streams[k].rx.pending == [] then [RecvTake(k)] else [];
    var finish := if Received(e, k).1.Some? then [RecvFinish(k)] else [];
    if take != [] { RunOne(e, RecvTake(k)); }
    if finish != [] { RunOne(e1, RecvFinish(k)); }
    RunJoin(e, take, e1, finish, Received(e, k).0);
    acts := take + finish;
  }

  /** A receive loses and reorders nothing, even when it is abandoned: what it took stays first in
      line, and what it returns is exactly the next chunk. */
  lemma ReceivedInOrder(e: Endpoint, k: Key)
    requires EndpointInv(e) && Usable(e, k)
    requires e.streams[k].rx.pending != [] || e.streams[k].rx.chan != []
    ensures var (e', r) := Received(e, k);
            && k in e'.streams
            && Incoming(e'.streams[k].rx) == Incoming(e.streams[k].rx)
            && (r.Some? ==> e'.streams[k].rx.delivered == e.streams[k].rx.delivered + [r.value])
            && (r.None? ==> e'.streams[k].rx.delivered == e.streams[k].rx.delivered)
  {
    assert StreamOk(e.streams[k]);
    OneChunkIn(e.fc, e.streams[k].rx);
    hide EndpointInv, Incoming, TakeOn, FinishOn, CreditFrame;
  }

  /** What a receive owes: the bytes consumed so far, this chunk's included. */
  function Owed(fc: bool, r: Receiver): nat
    requires r.pending != [] || r.chan != []
  {
    r.consumed + if r.pending == [] && fc then |r.chan[0]| else 0
  }

  /** It is abandoned only if half a window is owed and the queue, open, has no room; it returns the
      chunk next in line; and it then queues one WINDOW_UPDATE for exactly what is owed, if that is at
      least half a window and the queue is open. */
  lemma ReceiveStops(e: Endpoint, k: Key)
    requires k in e.streams && (e.streams[k].rx.pending != [] || e.streams[k].rx.chan != [])
    requires e.streams[k].rx.consumed <= INIT_WINDOW
    requires |e.streams[k].rx.chan| > 0 ==> |e.streams[k].rx.chan[0]| <= MAX_BUFFERED
    ensures var (e', r) := Received(e, k);
            var s := e.streams[k];
            var owed := Owed(e.fc, s.rx);
            && (r.None? <==> owed >= 131072 && !e.queueClosed && |e.queue| >= 256)
            && (r.Some? ==>
                  && r.value == (if s.rx.pending != [] then s.rx.pending else s.rx.chan)[0]
                  && e'.queue == e.queue + (if owed >= 131072 && !e.queueClosed
                                            then [WriteCmd(Frame(s.id, 8, Be32(owed)))] else [])
                  && k in e'.streams
                  && e'.streams[k].rx.consumed == if owed >= 131072 then 0 else owed)
            && (r.None? ==> e'.queue == e.queue)
  {
  }

  lemma OneChunkIn(fc: bool, r: Receiver)
    requires |r.pending| <= 1 && (r.pending != [] || r.chan != [])
    ensures var r1 := if r.pending == [] then TakeOn(fc, r) else r;
            && r1.pending != [] && Incoming(r1) == Incoming(r) == Incoming(FinishOn(r1))
            && r1.delivered == r.delivered && FinishOn(r1).delivered == r.delivered + [r1.pending[0]]
  {
    if r.pending == [] {
      assert [r.chan[0]] + r.chan[1..] == r.chan;
    } else {
      assert r.pending == [r.pending[0]];
    }
  }

  function ClosedIn(streams: map<Key, Stream>, sinks: set<Key>): map<Key, Stream> {
    map k | k in streams :: if k in sinks then streams[k].(shut := true) else streams[k]
  }

  class Mux {
    const fc: bool
    var nextId: nat
    var queue: seq<Command>
    var queueClosed: bool
    var writing: seq<Frame>
    var wire: seq<Frame>
    var outbox: seq<Frame>
    var registry: map<nat, Key>
    var peerOpened: set<nat>
    var streams: map<Key, Stream>
    var clobbered: set<Key>
    var closed: bool
    var writer: Phase
    var reader: Phase
    var watchdog: Phase

    constructor (fc: bool, firstId: nat)
      ensures View() == NewEndpoint(fc, firstId)
    {
      this.fc := fc;
      nextId := firstId;
      queue, queueClosed, writing, wire, outbox := [], false, [], [], [];
      registry, peerOpened, streams, clobbered, closed := map[], {}, map[], {}, false;
      writer, reader, watchdog := Running, Running, Running;
    }

    function View(): Endpoint
      reads this
    {
      Endpoint(fc, nextId, queue, queueClosed, writing, wire, outbox, registry, peerOpened, streams,
               clobbered, closed, writer, reader, watchdog)
    }

    // --- the shared registry -------------------------------------------------------------

    method CloseSink(k: Key)
      modifies this`streams
      ensures View() == ShutKey(old(View()), k)
    {
      if k in streams { streams := streams[k := streams[k].(shut := true)]; }
    }

    method RegisterStream(id: nat, k: Key, byPeer: bool)
      modifies this
      ensures View() == Register(old(View()), id, k, byPeer)
    {
      if id in registry { clobbered := clobbered + {registry[id]}; }
      registry := registry[id := k];
      peerOpened := if byPeer then peerOpened + {id} else peerOpened - {id};
    }

    method RemoveStream(id: nat)
      modifies this
      ensures View() == Remove(old(View()), id)
    {
      if id in registry {
        var k := registry[id];
        registry := registry - {id};
        peerOpened := peerOpened - {id};
        CloseSink(k);
      }
    }

    method CloseSinks(sinks: set<Key>)
      modifies this`streams
      ensures streams == ClosedIn(old(streams), sinks)
    {
      var left := sinks;
      while left != {}
        invariant left <= sinks
        invariant streams == ClosedIn(old(streams), sinks - left)
      {
        var k :| k in left;
        if k in streams { streams := streams[k := streams[k].(shut := true)]; }
        left := left - {k};
      }
      assert sinks - left == sinks;
    }

    /** Empties the registry, then closes each drained sink in turn. */
    method CloseAllStreams()
      modifies this
      ensures View() == CloseAll(old(View()))
    {
      var sinks := registry.Values;
      registry := map[];
      peerOpened := {};
      CloseSinks(sinks);
    }

    // --- the reader ----------------------------------------------------------------------

    method ReadOpen(id: u32, target: Bytes, k: Key)
      modifies this
      ensures View() == ReceiveOpen(old(View()), id, target, k)
    {
      hide Register, ParseTarget;
      var stream := NewStream(id, ParseTarget(target).0);
      if |registry| >= MAX_CONCURRENT_PEER_STREAMS {
        reader := Stopping;
      } else {
        streams := streams[k := stream];
        RegisterStream(id, k, true);
      }
    }

    /** Counts the bytes in, tries to queue the chunk, and undoes both by resetting the stream. */
    method ReadData(id: u32, chunk: Bytes)
      modifies this
      ensures View() == ReceiveData(old(View()), id, chunk)
    {
      if id in registry && registry[id] in streams {
        var k := registry[id];
        var s := streams[k];
        var buffered := s.rx.buffered + |chunk|;
        if buffered > MAX_BUFFERED || |s.rx.chan| >= CHANNEL_MESSAGES || s.gone {
          RemoveStream(id);
          outbox := [CloseFrame(id)];
        } else {
          streams := streams[k := s.(rx := s.rx.(chan := s.rx.chan + [chunk], buffered := buffered))];
        }
      }
    }

    method ReadCredit(id: u32, credit: u32)
      modifies this
      ensures View() == ReceiveCredit(old(View()), id, credit)
    {
      if id in registry && registry[id] in streams {
        var k := registry[id];
        var s := streams[k];
        if fc {
          streams := streams[k := s.(tx := s.tx.(permits := s.tx.permits + Min(credit, MAX_CREDIT)))];
        } else {
          assert streams == streams[k := s];
        }
      }
    }

    /** One turn of the reader's loop. */
    method ReadFrame(f: Frame, k: Key)
      requires Enabled(View(), Receive(f, k))
      modifies this
      ensures View() == Apply(old(View()), Receive(f, k))
    {
      hide ReceiveOpen, ReceiveData, ReceiveCredit, Remove;
      var bt := BaseType(f.ftype);
      if bt == PING {
        outbox := [Frame(0, PONG, [])];
      } else if bt == PONG {
      } else if bt == OPEN {
        ReadOpen(f.streamId, f.payload, k);
      } else if bt == DATA || bt == DATAGRAM {
        ReadData(f.streamId, f.payload);
      } else if bt == WINDOW_UPDATE {
        if |f.payload| >= 4 { ReadCredit(f.streamId, FromBe32(f.payload)); }
      } else if bt == CLOSE {
        RemoveStream(f.streamId);
      } else if IsCritical(f.ftype) {
        reader := Stopping;
      }
    }

    /** The reader's way out: tear every stream down, then publish closure. */
    method ReaderExit()
      requires reader.Running?
      modifies this
      ensures View() == ReaderLeft(old(View()))
    {
      reader := Stopping;
      CloseAllStreams();
      reader := Done;
      closed := true;
    }

    // --- the writer ----------------------------------------------------------------------

    /** One turn of the writer's loop: a new stream is registered before its OPEN is written. */
    method WriteNext()
      requires Enabled(View(), WriterTake)
      modifies this
      ensures View() == Written(TakeCommand(old(View())))
    {
      hide Remove, Register;
      var command := queue[0];
      queue := queue[1..];
      match command {
        case OpenCmd(id, target, k) =>
          RegisterStream(id, k, false);
          writing := [OpenFrame(id, target)];
        case WriteCmd(f) =>
          if BaseType(f.ftype) == CLOSE { RemoveStream(f.streamId); }
          writing := [f];
      }
      wire := wire + writing;
      writing := [];
    }

    /** Closes the windows of the opens still in the queue. */
    method DrainQueue()
      modifies this
      ensures View() == Drained(old(View()))
    {
      hide ShutKey;
      while queue != []
        invariant Drained(View()) == Drained(old(View()))
        decreases |queue|
      {
        var command := queue[0];
        queue := queue[1..];
        if command.OpenCmd? { CloseSink(command.key); }
      }
    }

    /** The writer's way out. */
    method WriterExit()
      requires writer.Running?
      modifies this
      ensures View() == WriterLeft(old(View()))
    {
      writer := Stopping;
      queueClosed := true;
      writing := [];
      DrainQueue();
      CloseAllStreams();
      writer := Done;
      closed := true;
    }

    // --- calls -----------------------------------------------------------------------------

    /** Allocates the id, then queues the OPEN. A full queue makes the caller wait, and it may give
        up; that open and one that finds the queue closed leave their id unused. */
    method Open(k: Key, kind: Kind, target: Bytes) returns (ok: bool)
      requires k !in streams && nextId < 0x1_0000_0000
      modifies this
      ensures ok <==> Room(old(View()))
      ensures View() == Apply(old(View()), if ok then OpenStream(k, kind, target) else SkipId)
    {
      hide OpenPayload;
      var id := nextId;
      nextId := nextId + 2;
      if queueClosed || |queue| >= QUEUE_COMMANDS { return false; }
      streams := streams[k := NewStream(id, kind)];
      queue := queue + [OpenCmd(id, OpenPayload(kind, target), k)];
      return true;
    }

    /** One chunk of a send: credit first, then a place in the queue. */
    method SendChunk(k: Key, chunk: Bytes) returns (r: SendResult)
      requires k in streams && streams[k].tx.held == []
      requires streams[k].tx.todo != [] && streams[k].tx.todo[0] == chunk
      modifies this
      ensures k in streams && !r.TooLong?
      ensures r.Sent? ==>
                && streams[k].tx.todo == old(streams)[k].tx.todo[1..] && streams[k].tx.held == []
                && Pump(View(), k) == Pump(old(View()), k)
      ensures !r.Sent? ==> (View(), r) == Pump(old(View()), k)
    {
      var s := streams[k];
      if fc && s.shut {
        streams := streams[k := s.(tx := FailOn(s.tx))];
        return Closed;
      }
      if fc && s.tx.permits < |chunk| { return Waiting; }
      s := s.(tx := AcquireOn(fc, s.tx));
      if queueClosed {
        streams := streams[k := s.(tx := FailOn(s.tx))];
        return Closed;
      }
      streams := streams[k := s];
      if |queue| >= QUEUE_COMMANDS { return Waiting; }
      streams := streams[k := s.(tx := EmitOn(s.tx))];
      queue := queue + [WriteCmd(DataFrame(s, chunk))];
      assert View() == EnqueueHeld(PutTx(old(View()), k, AcquireOn(fc, old(streams)[k].tx)), k);
      return Sent;
    }

    /** Cuts TCP bytes at the frame limit, piece by piece; a datagram goes whole or is refused. A
        send that must wait keeps the rest; one that finds its window or the queue closed fails. */
    method Send(k: Key, data: Bytes) returns (r: SendResult)
      requires Usable(View(), k) && Idle(streams[k].tx)
      modifies this
      ensures var s := old(streams)[k];
              match Chunks(s.kind, data)
              case None => r.TooLong? && View() == old(View())
              case Some(chunks) => (View(), r) == Pump(PutTx(old(View()), k, StartOn(s.tx, chunks)), k)
    {
      hide Pump;
      var s := streams[k];
      if s.kind.Tcp? {
        streams := streams[k := s.(tx := StartOn(s.tx, Pieces(data)))];
        ghost var started := View();
        var rest := data;
        while rest != []
          invariant k in streams && streams[k].tx.held == [] && streams[k].tx.todo == Pieces(rest)
          invariant Pump(View(), k) == Pump(started, k)
        {
          var n := Min(|rest|, MAX_FRAME_PAYLOAD);
          var chunk := rest[..n];
          rest := rest[n..];
          r := SendChunk(k, chunk);
          if !r.Sent? { return; }
        }
        PumpNothing(View(), k);
        r := Sent;
      } else if |data| > MAX_FRAME_PAYLOAD {
        r := TooLong;
      } else {
        streams := streams[k := s.(tx := StartOn(s.tx, [data]))];
        r := SendChunk(k, data);
        if r.Sent? { PumpNothing(View(), k); }
      }
    }

    /** Takes the next chunk unless one is already taken. */
    method TakeNext(k: Key)
      requires k in streams && (streams[k].rx.pending != [] || streams[k].rx.chan != [])
      modifies this`streams
      ensures View() == Taken(old(View()), k)
    {
      var rx := streams[k].rx;
      if rx.pending == [] {
        var chunk := rx.chan[0];
        rx := rx.(chan := rx.chan[1..],
                  buffered := if rx.buffered >= |chunk| then rx.buffered - |chunk| else 0,
                  consumed := if fc then rx.consumed + |chunk| else rx.consumed,
                  pending := [chunk]);
        streams := streams[k := streams[k].(rx := rx)];
      }
    }

    /** Takes a chunk, reports the credit it owes, returns the chunk. */
    method Recv(k: Key) returns (r: Option<Bytes>)
      requires k in streams && (streams[k].rx.pending != [] || streams[k].rx.chan != [])
      modifies this
      ensures (View(), r) == Received(old(View()), k)
    {
      TakeNext(k);
      assert k in streams && streams[k].rx.pending != [];
      hide Taken, CreditFrame;
      var s := streams[k];
      if s.rx.consumed >= WINDOW_THRESHOLD {
        if !queueClosed {
          if |queue| >= QUEUE_COMMANDS { return None; }
          queue := queue + [WriteCmd(CreditFrame(s.id, Min(s.rx.consumed, 0xFFFF_FFFF)))];
        }
        s := s.(rx := s.rx.(consumed := 0));
      }
      r := Some(s.rx.pending[0]);
      streams := streams[k := s.(rx := s.rx.(delivered := s.rx.delivered + s.rx.pending, pending := []))];
    }
  }
}
