/**
 A session: two endpoints running the multiplexer over a reliable, ordered transport. Over every
 interleaving of their tasks and callers, credit is conserved, data arrives once and in order,
 and teardown leaves nobody waiting.
 */
module MuxSystem {
  import opened Basics
  import opened Frames
  import opened MuxEndpoint
  import opened MuxSafety
  import opened MuxStream
  import opened MuxProjection
  import opened MuxNaming

  datatype Side = Client | Server

  function Other(side: Side): Side { if side.Client? then Server else Client }

  datatype Session = Session(client: Endpoint, server: Endpoint)

  function End(s: Session, side: Side): Endpoint { if side.Client? then s.client else s.server }

  function With(s: Session, side: Side, e: Endpoint): Session {
    if side.Client? then s.(client := e) else s.(server := e)
  }

  /** Clients allocate odd ids, servers even ones. */
  function NewSession(fc: bool): Session { Session(NewEndpoint(fc, 1), NewEndpoint(fc, 2)) }

  function OpenerOf(i: nat): Side { if i % 2 == 1 then Client else Server }

  // --- steps -----------------------------------------------------------------------------

  /** `side` acts; a received frame is the oldest one the other end has written. */
  predicate CanStep(s: Session, side: Side, act: Action) {
    && Enabled(End(s, side), act)
    && (act.OpenStream? ==> act.key == End(s, side).nextId)
    && (act.Receive? ==>
          && End(s, Other(side)).wire != []
          && act.frame == End(s, Other(side)).wire[0]
          && act.key == act.frame.streamId)
  }

  function Step(s: Session, side: Side, act: Action): Session
    requires CanStep(s, side, act)
  {
    var s' := With(s, side, Apply(End(s, side), act));
    if act.Receive? then With(s', Other(side), Read(End(s, Other(side)))) else s'
  }

  function Read(e: Endpoint): Endpoint
    requires e.wire != []
  {
    e.(wire := e.wire[1..])
  }

  ghost predicate Reaches(s: Session, steps: seq<(Side, Action)>, s': Session)
    decreases |steps|
  {
    if steps == [] then s == s'
    else CanStep(s, steps[0].0, steps[0].1) && Reaches(Step(s, steps[0].0, steps[0].1), steps[1..], s')
  }

  // --- invariant -------------------------------------------------------------------------

  function OpenerHalf(s: Session, i: nat): Half { HalfOf(End(s, OpenerOf(i)), i) }

  function AcceptorHalf(s: Session, i: nat): Half { HalfOf(End(s, Other(OpenerOf(i))), i) }

  ghost predicate StreamInv(s: Session, i: nat) {
    PairInv(s.client.fc, OpenerHalf(s, i), AcceptorHalf(s, i))
  }

  /** Ids this end allocates next are unused, and nothing was ever clobbered. */
  ghost predicate FreshIds(e: Endpoint, side: Side) {
    && e.nextId > 0 && OpenerOf(e.nextId) == side
    && e.clobbered == {}
    && (forall k :: k in e.streams && OpenerOf(k) == side ==> k < e.nextId)
  }

  ghost predicate EndOk(e: Endpoint, side: Side) {
    EndpointInv(e) && Named(e) && FreshIds(e, side)
  }

  ghost predicate SessionInv(s: Session) {
    && EndOk(s.client, Client) && EndOk(s.server, Server)
    && s.client.fc == s.server.fc
    && (forall i: nat :: i > 0 ==> StreamInv(s, i))
  }

  lemma StartsOk(fc: bool)
    ensures SessionInv(NewSession(fc))
  {
    StartsSafe(fc, 1);
    StartsSafe(fc, 2);
    forall i: nat | i > 0
      ensures StreamInv(NewSession(fc), i)
    {
      assert OpenerHalf(NewSession(fc), i) == AcceptorHalf(NewSession(fc), i)
          == Half(Absent, true, true, NewStream(0, Tcp), [], []);
    }
  }

  // --- identifiers stay fresh ------------------------------------------------------------

  /** No stream is made and none replaced in the registry while live. */
  predicate SameIds(e: Endpoint, e': Endpoint) {
    e'.clobbered == e.clobbered && e'.fc == e.fc && e'.nextId == e.nextId && e'.streams.Keys == e.streams.Keys
  }

  lemma SameAfterRemove(e: Endpoint, id: nat)
    ensures SameIds(e, Remove(e, id))
  {
  }

  lemma SameAfterTake(e: Endpoint)
    requires e.queue != [] && (e.queue[0].OpenCmd? ==> e.queue[0].id !in e.registry)
    ensures SameIds(e, TakeCommand(e))
  {
    if e.queue[0].WriteCmd? {
      SameAfterRemove(e.(queue := e.queue[1..]), e.queue[0].frame.streamId);
      hide Remove;
    }
  }

  lemma SameAfterDrain(e: Endpoint)
    requires e.queue != []
    ensures SameIds(e, DrainCommand(e))
  {
  }

  lemma SameAfterPut(e: Endpoint, k: Key, s: Stream)
    requires k in e.streams
    ensures SameIds(e, Put(e, k, s))
  {
  }

  lemma SameAfterData(e: Endpoint, id: u32, chunk: Bytes, credit: nat)
    ensures SameIds(e, ReceiveData(e, id, chunk)) && SameIds(e, ReceiveCredit(e, id, credit))
  {
    SameAfterRemove(e, id);
    if id in e.registry && e.registry[id] in e.streams {
      var s := e.streams[e.registry[id]];
      SameAfterPut(e, e.registry[id], s.(rx := PushOn(s.rx, chunk)));
      SameAfterPut(e, e.registry[id], s.(tx := GrantOn(e.fc, s.tx, credit)));
    }
    hide Remove, Put, PushOn, GrantOn, Overflows;
  }

  lemma SameAfterDispatch(e: Endpoint, f: Frame)
    requires !Classify(f).Open?
    ensures SameIds(e, Dispatch(e, f, f.streamId))
  {
    SameAfterRemove(e, f.streamId);
    match Classify(f)
    case Data(chunk) => SameAfterData(e, f.streamId, chunk, 0);
    case Credit(n) => SameAfterData(e, f.streamId, [], n);
    case _ =>
    hide Remove, ReceiveData, ReceiveCredit;
  }

  lemma SameAfterRest(e: Endpoint, act: Action)
    requires Enabled(e, act)
    requires !act.Receive? && !act.WriterTake? && !act.WriterDrain? && !act.OpenStream? && !act.SkipId?
    ensures SameIds(e, Apply(e, act))
  {
    hide TakeCommand, DrainCommand, Dispatch, OpenNew, Chunks, NewStream, StartOn, AcquireOn, EmitOn, CancelOn;
    hide FailOn, TakeOn, FinishOn, GrantOn, PushOn, DataFrame, CreditFrame;
  }

  predicate Makes(act: Action) { act.OpenStream? || act.SkipId? || (act.Receive? && Classify(act.frame).Open?) }

  lemma SameUnlessMade(e: Endpoint, act: Action)
    requires EndpointInv(e) && Named(e) && Enabled(e, act) && WellNamed(e, act) && !Makes(act)
    ensures SameIds(e, Apply(e, act))
  {
    QueueFacts(e);
    hide EndpointInv, Named, SameIds, TakeCommand, DrainCommand, Dispatch;
    if act.WriterTake? { SameAfterTake(e); }
    else if act.WriterDrain? { SameAfterDrain(e); }
    else if act.Receive? { SameAfterDispatch(e, act.frame); }
    else { SameAfterRest(e, act); }
  }

  lemma FreshAfterOpen(e: Endpoint, side: Side, kind: Kind, target: Bytes)
    requires FreshIds(e, side) && e.nextId < 0x1_0000_0000
    ensures FreshIds(OpenNew(e, e.nextId, kind, target), side)
    ensures OpenNew(e, e.nextId, kind, target).fc == e.fc
  {
    hide OpenPayload, NewStream;
  }

  lemma FreshAfterAccept(e: Endpoint, side: Side, id: u32, target: Bytes)
    requires FreshIds(e, side) && OpenerOf(id) != side && id !in e.registry
    ensures FreshIds(ReceiveOpen(e, id, target, id), side)
    ensures ReceiveOpen(e, id, target, id).fc == e.fc
  {
    hide ParseTarget, NewStream;
  }

  lemma FreshAfter(e: Endpoint, side: Side, act: Action)
    requires EndOk(e, side) && Enabled(e, act) && WellNamed(e, act)
    requires act.Receive? && Classify(act.frame).Open? ==> OpenerOf(act.frame.streamId) != side
    ensures FreshIds(Apply(e, act), side) && Apply(e, act).fc == e.fc
  {
    if !Makes(act) {
      SameUnlessMade(e, act);
      hide Apply, Enabled, EndpointInv, Named;
    } else if act.SkipId? {
      hide EndpointInv, Named;
    } else if act.OpenStream? {
      hide EndpointInv, Named, OpenNew, FreshIds;
      FreshAfterOpen(e, side, act.kind, act.target);
    } else {
      assert act.frame.streamId !in e.registry;
      hide EndpointInv, Named, FreshIds, ReceiveOpen;
      FreshAfterAccept(e, side, act.frame.streamId, Classify(act.frame).target);
    }
  }

  lemma EndAfter(e: Endpoint, side: Side, act: Action)
    requires EndOk(e, side) && Enabled(e, act) && WellNamed(e, act)
    requires act.Receive? && Classify(act.frame).Open? ==> OpenerOf(act.frame.streamId) != side
    ensures EndOk(Apply(e, act), side) && Apply(e, act).fc == e.fc
  {
    StepKeepsInv(e, act);
    NamedAfterAction(e, act);
    FreshAfter(e, side, act);
    hide EndpointInv, Named, FreshIds, Apply, Enabled;
  }

  /** The end whose oldest frame was read. */
  lemma EndAfterRead(e: Endpoint, side: Side)
    requires EndOk(e, side) && e.wire != []
    ensures EndOk(Read(e), side) && Read(e).fc == e.fc
  {
    hide StreamOk, Placed, GoodFrame, GoodCmd;
  }

  lemma ViewAfterRead(e: Endpoint, i: nat)
    requires e.wire != []
    ensures HalfOf(Read(e), i)
            == (if e.wire[0].streamId == i then HalfOf(e, i).(front := HalfOf(e, i).front[1..]) else HalfOf(e, i))
    ensures e.wire[0].streamId == i ==> HalfOf(e, i).front != [] && HalfOf(e, i).front[0] == Classify(e.wire[0])
  {
    ViewOfRead(e, i);
    hide Msgs, CmdFrames, Waiting, Classify;
  }

  // --- one step of the session -----------------------------------------------------------

  lemma SeenIsLocal(e: Endpoint, act: Action, i: nat)
    requires Enabled(e, act) && !act.Receive?
    ensures Local(Seen(e, act, i))
    ensures Seen(e, act, i).Create? ==> act.OpenStream? && act.key == i
  {
    hide Enabled;
  }

  lemma NextIsOwn(e: Endpoint, side: Side)
    requires FreshIds(e, side)
    ensures OpenerOf(e.nextId) == side
  {
  }

  /** A step that receives nothing is, on every stream, a local event at the end that acts. */
  lemma LocalStepKeeps(s: Session, side: Side, act: Action, i: nat)
    requires SessionInv(s) && CanStep(s, side, act) && !act.Receive? && i > 0
    ensures StreamInv(Step(s, side, act), i)
  {
    hide EndpointInv, Named, FreshIds, PairInv, HalfOf, Apply, Enabled, Seen, Next, Can, Local, OpenerOf;
    var e := End(s, side);
    var ev := Seen(e, act, i);
    assert StreamInv(s, i);
    EveryActionIsOneEvent(e, act, i);
    SeenIsLocal(e, act, i);
    NextIsOwn(e, side);
    EndAfter(e, side, act);
    if OpenerOf(i) == side {
      OpenerStep(e.fc, OpenerHalf(s, i), AcceptorHalf(s, i), ev);
    } else {
      AcceptorStep(e.fc, OpenerHalf(s, i), AcceptorHalf(s, i), ev);
    }
  }

  /** Receiving is, on the frame's own stream, a delivery; on the others at most a reader that
      stops. */
  lemma ReceiveKeepsStream(s: Session, side: Side, act: Action, i: nat)
    requires SessionInv(s) && CanStep(s, side, act) && act.Receive? && i > 0
    requires GoodFrame(act.frame)
    requires Classify(act.frame).Open? ==> OpenerOf(act.frame.streamId) != side
    ensures StreamInv(Step(s, side, act), i)
  {
    hide EndpointInv, Named, FreshIds, PairInv, HalfOf, Apply, Enabled, Seen, Next, Can, OpenerOf, GoodFrame;
    hide Classify, Read;
    var e, o := End(s, side), End(s, Other(side));
    assert StreamInv(s, i);
    EveryActionIsOneEvent(e, act, i);
    EndAfter(e, side, act);
    EndAfterRead(o, Other(side));
    ViewAfterRead(o, i);
    ReceiveSeen(e, act.frame, i);
    var oh, ah := OpenerHalf(s, i), AcceptorHalf(s, i);
    var ev := Seen(e, act, i);
    if act.frame.streamId == i {
      if OpenerOf(i) == side {
        OpenerGets(e.fc, oh, ah, act.frame.streamId, ev.refused);
      } else {
        AcceptorGets(e.fc, oh, ah, act.frame.streamId, ev.refused);
      }
    } else if OpenerOf(i) == side {
      OpenerStep(e.fc, oh, ah, ev);
    } else {
      AcceptorStep(e.fc, oh, ah, ev);
    }
  }

  lemma ReceiveSeen(e: Endpoint, f: Frame, i: nat)
    requires Enabled(e, Receive(f, f.streamId))
    ensures HalfOf(e, i).ears
    ensures var ev := Seen(e, Receive(f, f.streamId), i);
            if f.streamId == i then
              && ev.Get? && ev.m == Classify(f) && ev.id == f.streamId
              && Can(e.fc, HalfOf(e, i), ev)
              && Next(e.fc, HalfOf(e, i), ev) == GetOn(e.fc, HalfOf(e, i), Classify(f), f.streamId, ev.refused)
            else ev.Deafen? || ev.Stay?
  {
    hide Msgs, CmdFrames, Waiting, Classify, GetOn;
  }

  /** An OPEN on the wire was written by the end that allocates its id. */
  lemma OpenComesFromOpener(s: Session, side: Side)
    requires SessionInv(s) && End(s, Other(side)).wire != []
    requires Classify(End(s, Other(side)).wire[0]).Open?
    ensures OpenerOf(End(s, Other(side)).wire[0].streamId) != side
  {
    var o := End(s, Other(side));
    var i := o.wire[0].streamId;
    ViewAfterRead(o, i);
    assert GoodFrame(o.wire[0]);
    hide EndpointInv, Named, FreshIds, HalfOf, Classify;
    if OpenerOf(i) == side {
      assert StreamInv(s, i);
      OpenIsFirst(s, i);
    }
  }

  lemma OpenIsFirst(s: Session, i: nat)
    requires StreamInv(s, i)
    ensures OpenFirst(OpenerHalf(s, i), AcceptorHalf(s, i))
  {
    hide OpenFirst, HalfOf;
  }

  lemma WireIsGood(e: Endpoint, side: Side)
    requires EndOk(e, side) && e.wire != []
    ensures GoodFrame(e.wire[0])
  {
    hide EndpointInv, FreshIds, GoodFrame, GoodCmd;
  }

  lemma EndsAfterStep(s: Session, side: Side, act: Action)
    requires SessionInv(s) && CanStep(s, side, act)
    ensures var s' := Step(s, side, act);
            && EndOk(s'.client, Client) && EndOk(s'.server, Server)
            && s'.client.fc == s'.server.fc == s.client.fc
    ensures act.Receive? ==> GoodFrame(act.frame)
    ensures act.Receive? && Classify(act.frame).Open? ==> OpenerOf(act.frame.streamId) != side
  {
    hide EndOk, StreamInv, Enabled, Apply, Classify, GoodFrame, OpenerOf, Read;
    if act.Receive? {
      if Classify(act.frame).Open? { OpenComesFromOpener(s, side); }
      WireIsGood(End(s, Other(side)), Other(side));
      EndAfterRead(End(s, Other(side)), Other(side));
    }
    EndAfter(End(s, side), side, act);
  }

  /** Every step, of either end, keeps the whole invariant. */
  lemma SessionStepKeeps(s: Session, side: Side, act: Action)
    requires SessionInv(s) && CanStep(s, side, act)
    ensures SessionInv(Step(s, side, act)) && Step(s, side, act).client.fc == s.client.fc
  {
    hide EndOk, StreamInv, Step, Classify, GoodFrame, OpenerOf;
    EndsAfterStep(s, side, act);
    forall i: nat | i > 0
      ensures StreamInv(Step(s, side, act), i)
    {
      if act.Receive? { ReceiveKeepsStream(s, side, act, i); } else { LocalStepKeeps(s, side, act, i); }
    }
  }

  lemma {:induction false} ReachableKeeps(s: Session, steps: seq<(Side, Action)>, s': Session)
    requires SessionInv(s) && Reaches(s, steps, s')
    ensures SessionInv(s') && s'.client.fc == s.client.fc
    decreases |steps|
  {
    hide SessionInv, CanStep, Step;
    if steps != [] {
      SessionStepKeeps(s, steps[0].0, steps[0].1);
      ReachableKeeps(Step(s, steps[0].0, steps[0].1), steps[1..], s');
    }
  }

  ghost predicate Reachable(fc: bool, s: Session) {
    exists steps :: Reaches(NewSession(fc), steps, s)
  }

  lemma ReachableIsOk(fc: bool, s: Session)
    requires Reachable(fc, s)
    ensures SessionInv(s) && s.client.fc == fc
  {
    hide SessionInv;
    var steps :| Reaches(NewSession(fc), steps, s);
    StartsOk(fc);
    ReachableKeeps(NewSession(fc), steps, s);
  }

  // --- what a session guarantees ---------------------------------------------------------

  /** The messages for stream `i` between a call at this end and the peer's reader. */
  function UnderWay(e: Endpoint, i: nat): seq<Message> { Msgs(i, e.wire + e.writing + CmdFrames(e.queue)) }

  lemma OutIsUnderWay(e: Endpoint, i: nat)
    requires e.writer.Running?
    ensures Out(HalfOf(e, i)) == UnderWay(e, i)
  {
    MsgsAppend(i, e.wire + e.writing, CmdFrames(e.queue));
    hide Msgs, CmdFrames, Waiting;
  }

  /** Neither end of the stream has been removed from its registry, and both writers run. */
  predicate Unbroken(e: Endpoint, i: nat) {
    e.writer.Running? && (i in e.streams ==> i in e.registry || i in Waiting(e.queue))
  }

  lemma UnbrokenIsIntact(e: Endpoint, i: nat)
    requires Unbroken(e, i)
    ensures Intact(HalfOf(e, i))
  {
    hide Msgs, CmdFrames, Waiting;
  }

  /** Both directions of a stream keep the stream machine's invariants. */
  lemma DirectionFacts(s: Session, side: Side, i: nat)
    requires SessionInv(s) && i > 0
    ensures var t, r := HalfOf(End(s, side), i), HalfOf(End(s, Other(side)), i);
            && HalfOk(s.client.fc, t) && HalfOk(s.client.fc, r) && Ordered(t, r)
            && (s.client.fc ==> Conserved(t, r))
  {
    hide EndOk, HalfOf, HalfOk, Ordered, Conserved, OpenFirst;
    assert StreamInv(s, i);
  }

  /** Credit conservation. On a flow-controlled stream not yet closed at either end, in every
      reachable state and for each direction: free permits, credit held by an unfinished send,
      bytes queued or on the wire, bytes buffered at the receiver, bytes taken but not re-granted,
      and re-grants queued or on the wire add up to INIT_WINDOW; a cancelled send leaks exactly
      what it held. */
  lemma CreditIsConserved(s: Session, side: Side, i: nat)
    requires Reachable(true, s) && i > 0
    requires Unbroken(s.client, i) && Unbroken(s.server, i)
    requires i in End(s, side).streams
    ensures var t, r := End(s, side), End(s, Other(side));
            var tx := t.streams[i].tx;
            tx.permits + Total(tx.held) + tx.leaked + Total(Datas(UnderWay(t, i)))
            + (if i in r.streams then Total(r.streams[i].rx.chan) + r.streams[i].rx.consumed else 0)
            + Credits(UnderWay(r, i))
            == 262144
  {
    ReachableIsOk(true, s);
    DirectionFacts(s, side, i);
    hide SessionInv, Reachable;
    UnbrokenIsIntact(s.client, i);
    UnbrokenIsIntact(s.server, i);
    OutIsUnderWay(s.client, i);
    OutIsUnderWay(s.server, i);
    hide Msgs, CmdFrames, Waiting, HalfOk, Ordered, Datas, Credits, UnderWay, Unbroken;
  }

  /** Nothing of direction `side` of the stream is under way, buffered, owed, or in the hands of an
      unfinished `send` or `recv`. */
  predicate AtRest(s: Session, side: Side, i: nat)
    requires i in End(s, side).streams
  {
    var t, r := End(s, side), End(s, Other(side));
    && t.streams[i].tx.held == [] && Datas(UnderWay(t, i)) == [] && Credits(UnderWay(r, i)) == 0
    && (i in r.streams ==> r.streams[i].rx.chan == [] && r.streams[i].rx.pending == [])
  }

  /** No credit deadlock. At rest, the sender of an unbroken stream holds more than
      INIT_WINDOW - WINDOW_THRESHOLD of credit, less what its cancelled sends have leaked. */
  lemma NoCreditDeadlock(s: Session, side: Side, i: nat)
    requires Reachable(true, s) && i > 0
    requires Unbroken(s.client, i) && Unbroken(s.server, i)
    requires i in End(s, side).streams && AtRest(s, side, i)
    ensures var tx := End(s, side).streams[i].tx;
            tx.permits + tx.leaked > 131072
  {
    ReachableIsOk(true, s);
    DirectionFacts(s, side, i);
    ViewStream(End(s, side), i);
    var r := End(s, Other(side));
    if i in r.streams { ViewStream(r, i); } else { ViewNothing(r, i); }
    UnbrokenIsIntact(s.client, i);
    UnbrokenIsIntact(s.server, i);
    OutIsUnderWay(s.client, i);
    OutIsUnderWay(s.server, i);
    hide SessionInv, Reachable, UnderWay, Msgs, CmdFrames, Waiting, Ordered, Conserved, HalfOf, HalfOk, Intact, Out, Datas, Credits;
    NothingInTransitMeansCredit(HalfOf(End(s, side), i), HalfOf(r, i));
  }

  lemma ViewNothing(e: Endpoint, i: nat)
    requires i !in e.streams
    ensures HalfOf(e, i).st == NewStream(0, Tcp)
  {
  }

  /** Between compliant ends the byte guard and the credit clamp never act: a received chunk fits
      far below MAX_BUFFERED, and a received credit is at most MAX_CREDIT. */
  lemma GuardsNeverAct(s: Session, side: Side, f: Frame)
    requires Reachable(true, s)
    requires End(s, Other(side)).wire != [] && f == End(s, Other(side)).wire[0]
    ensures Classify(f).Credit? ==> Classify(f).amount <= MAX_CREDIT
    ensures Classify(f).Data? && f.streamId in End(s, side).streams ==>
              End(s, side).streams[f.streamId].rx.buffered + |Classify(f).chunk| <= 262144 < MAX_BUFFERED
  {
    ReachableIsOk(true, s);
    var i, e, o := f.streamId, End(s, side), End(s, Other(side));
    ViewAfterRead(o, i);
    WireIsGood(o, Other(side));
    assert StreamsOk(e.streams);
    if Classify(f).Credit? || Classify(f).Data? {
      DirectionFacts(s, side, i);
      DirectionFacts(s, Other(side), i);
      var h, g := HalfOf(o, i), HalfOf(e, i);
      hide SessionInv, Reachable, HalfOf, HalfOk, Ordered, Classify, StreamsOk;
      OutAfterSent(h);
      if Classify(f).Data? && i in e.streams {
        assert g.st == e.streams[i] && StreamOk(e.streams[i]) by { ViewStream(e, i); StreamOkAt(e, i); }
        ByteGuardNeverFires(h, g);
      }
    }
  }

  lemma ViewStream(e: Endpoint, i: nat)
    requires i in e.streams
    ensures HalfOf(e, i).st == e.streams[i]
  {
  }

  lemma StreamOkAt(e: Endpoint, i: nat)
    requires StreamsOk(e.streams) && i in e.streams
    ensures StreamOk(e.streams[i])
  {
  }

  lemma {:induction false} FlattenPrefix(a: seq<Bytes>, b: seq<Bytes>)
    requires a <= b
    ensures Flatten(a) <= Flatten(b)
  {
    assert b == a + b[|a|..];
    FlattenAppend(a, b[|a|..]);
  }

  /** Ordered exactly-once delivery. What `recv` has returned at one end is always a prefix, chunk
      by chunk and byte by byte, of what was handed to `send` at the other, whatever was interleaved,
      cancelled at the receiver, reset or torn down; and once nothing is under way or buffered on an
      unbroken stream, everything queued has been delivered. */
  lemma DeliveredInOrder(fc: bool, s: Session, side: Side, i: nat)
    requires Reachable(fc, s) && i > 0
    requires i in End(s, side).streams && i in End(s, Other(side)).streams
    ensures var tx, rx := End(s, side).streams[i].tx, End(s, Other(side)).streams[i].rx;
            && rx.delivered <= tx.sent
            && (!tx.cancelled ==> rx.delivered <= tx.asked && Flatten(rx.delivered) <= Flatten(tx.asked))
    ensures var t, r := End(s, side), End(s, Other(side));
            Unbroken(t, i) && Unbroken(r, i) && Datas(UnderWay(t, i)) == []
            && r.streams[i].rx.pending == [] && r.streams[i].rx.chan == [] ==>
              r.streams[i].rx.delivered == t.streams[i].tx.sent
  {
    ReachableIsOk(fc, s);
    DirectionFacts(s, side, i);
    var t, r := End(s, side), End(s, Other(side));
    hide SessionInv, Reachable, Conserved, Msgs, CmdFrames, Waiting, Flatten, UnderWay;
    if t.writer.Running? { OutIsUnderWay(t, i); }
    if Unbroken(r, i) { UnbrokenIsIntact(r, i); }
    var tx, rx := t.streams[i].tx, r.streams[i].rx;
    assert rx.delivered <= TakenIn(rx);
    if !tx.cancelled { FlattenPrefix(rx.delivered, tx.asked); }
  }

  /** A frame about to reach the end that opened its stream finds the sink registered, or already
      removed again: the sink entered the registry before the OPEN could reach the peer. */
  lemma NoReplyMissesItsSink(fc: bool, s: Session, side: Side)
    requires Reachable(fc, s)
    requires End(s, Other(side)).wire != []
    requires var i := End(s, Other(side)).wire[0].streamId; i > 0 && OpenerOf(i) == side
    ensures var i, e := End(s, Other(side)).wire[0].streamId, End(s, side);
            i in e.streams && i !in Waiting(e.queue)
  {
    ReachableIsOk(fc, s);
    var o, e := End(s, Other(side)), End(s, side);
    var i := o.wire[0].streamId;
    ViewAfterRead(o, i);
    RegistryIsOk(e, i);
    assert StreamInv(s, i);
    OpenIsFirst(s, i);
    hide SessionInv, Reachable, Msgs, CmdFrames, Waiting, NewStream;
    assert Out(HalfOf(o, i)) != [];
  }

  /** The naming used for the steps is always available: the id an end allocates next, and the id
      of an OPEN it is about to receive, name no stream of it yet. */
  lemma NamesAreFresh(fc: bool, s: Session, side: Side)
    requires Reachable(fc, s)
    ensures End(s, side).nextId !in End(s, side).streams
    ensures End(s, Other(side)).wire != [] && Classify(End(s, Other(side)).wire[0]).Open? ==>
              End(s, Other(side)).wire[0].streamId !in End(s, side).streams
  {
    ReachableIsOk(fc, s);
    var e, o := End(s, side), End(s, Other(side));
    NextIsFresh(e, side);
    if o.wire != [] && Classify(o.wire[0]).Open? { OpenIsNew(s, side); }
    hide SessionInv, Reachable;
  }

  lemma NextIsFresh(e: Endpoint, side: Side)
    requires EndOk(e, side)
    ensures e.nextId !in e.streams
  {
    hide EndpointInv, Named;
  }

  lemma OpenIsNew(s: Session, side: Side)
    requires SessionInv(s) && End(s, Other(side)).wire != [] && Classify(End(s, Other(side)).wire[0]).Open?
    ensures End(s, Other(side)).wire[0].streamId !in End(s, side).streams
  {
    var o := End(s, Other(side));
    var i := o.wire[0].streamId;
    OpenComesFromOpener(s, side);
    WireIsGood(o, Other(side));
    ViewAfterRead(o, i);
    assert i > 0 && StreamInv(s, i);
    hide SessionInv, StreamInv, HalfOf, Classify, OpenFirst;
    OpenIsFirst(s, i);
    OpenMeetsNobody(HalfOf(o, i), HalfOf(End(s, side), i));
    KnownStage(End(s, side), i);
  }

  lemma OpenMeetsNobody(o: Half, a: Half)
    requires OpenFirst(o, a) && o.front != [] && o.front[0].Open?
    ensures a.stage.Absent?
  {
    var m := o.front[0];
    assert m in o.front;
  }

  lemma KnownStage(e: Endpoint, i: nat)
    ensures HalfOf(e, i).stage.Absent? <==> i !in e.streams
  {
  }

  /** Teardown leaves no waiter: once the writer and reader of an end have finished, closure is
      latched, nothing is registered or queued, and every send window it ever handed out is
      closed, including those of opens that were still in the queue. */
  lemma SessionTeardown(fc: bool, s: Session, side: Side)
    requires Reachable(fc, s)
    requires End(s, side).writer.Done? && End(s, side).reader.Done?
    ensures var e := End(s, side);
            e.closed && e.registry == map[] && e.queue == [] && forall k :: k in e.streams ==> e.streams[k].shut
  {
    ReachableIsOk(fc, s);
    var e := End(s, side);
    hide Reachable, StreamOk;
    forall k | k in e.streams
      ensures e.streams[k].shut
    {
      assert k in OpenKeys(e.streams) || e.streams[k].shut;
    }
  }

  /** So, once they have, no call on any stream of that end waits: with flow control an unfinished send
      fails at once, without it a send fails after at most one more credit check, and a receive
      returns what is left or finds its stream closed. */
  lemma NoCallWaitsAfterTeardown(fc: bool, s: Session, side: Side, k: Key)
    requires Reachable(fc, s)
    requires End(s, side).writer.Done? && End(s, side).reader.Done? && k in End(s, side).streams
    ensures var e := End(s, side);
            && !SendWaits(e, k) && RecvEnds(e, k)
            && (!Idle(e.streams[k].tx) ==> SendFails(e, k))
            && (fc && !Idle(e.streams[k].tx) ==> MustFail(fc, e.streams[k].shut, !e.queueClosed, e.streams[k].tx))
  {
    SessionTeardown(fc, s, side);
    ReachableIsOk(fc, s);
    var e := End(s, side);
    CallsAfterTeardown(e, k) by { hide Reachable, FreshIds, Named, PairInv, EndpointInv; }
    hide SessionInv, Reachable, PairInv, RecvEnds;
  }
}
