/**
 When a send waits for good. Credit that a cancelled send had acquired is gone, so a caller who
 cancels often enough ends up waiting for credit that nobody owes it: exactly when that is, that
 nothing but another cancel or the end of the stream then helps, and a session that gets there.
 */
module MuxStall {
  import opened Basics
  import opened Frames
  import opened MuxEndpoint
  import opened MuxSafety
  import opened MuxStream
  import opened MuxProjection
  import opened MuxNaming
  import opened MuxSystem

  // --- the condition ---------------------------------------------------------------------

  /** What the receiving end has consumed of the stream and not yet granted back. */
  function Ungranted(s: Session, side: Side, i: nat): nat {
    var r := End(s, Other(side));
    if i in r.streams then r.streams[i].rx.consumed else 0
  }

  /** At rest, the window is the sender's credit, what its cancelled sends have leaked, and what the
      receiver keeps back until it is worth a grant. */
  lemma WindowAtRest(s: Session, side: Side, i: nat)
    requires Reachable(true, s) && i > 0
    requires Unbroken(s.client, i) && Unbroken(s.server, i)
    requires i in End(s, side).streams && AtRest(s, side, i)
    ensures var tx := End(s, side).streams[i].tx;
            tx.permits + tx.leaked + Ungranted(s, side, i) == 262144
  {
    CreditIsConserved(s, side, i);
    hide Reachable, Unbroken, Datas, Credits, UnderWay;
  }

  /** So a send at rest lacks credit for its next chunk if and only if what was leaked and what is
      kept back leave less than that chunk of the window. In particular it never does while no more
      than half the window less one frame has leaked. */
  lemma BlockedAtRestIff(s: Session, side: Side, i: nat)
    requires Reachable(true, s) && i > 0
    requires Unbroken(s.client, i) && Unbroken(s.server, i)
    requires i in End(s, side).streams && AtRest(s, side, i)
    requires End(s, side).streams[i].tx.todo != []
    ensures var tx := End(s, side).streams[i].tx;
            tx.permits < |tx.todo[0]| <==> tx.leaked + Ungranted(s, side, i) > 262144 - |tx.todo[0]|
    ensures var tx := End(s, side).streams[i].tx;
            tx.leaked <= 131072 - 16378 ==> tx.permits >= |tx.todo[0]|
  {
    WindowAtRest(s, side, i);
    NoCreditDeadlock(s, side, i);
    NextChunkFits(s, side, i);
    hide Reachable, Unbroken, AtRest, Ungranted;
  }

  lemma NextChunkFits(s: Session, side: Side, i: nat)
    requires Reachable(true, s) && i > 0
    requires i in End(s, side).streams && End(s, side).streams[i].tx.todo != []
    ensures |End(s, side).streams[i].tx.todo[0]| <= MAX_FRAME_PAYLOAD
  {
    ReachableIsOk(true, s);
    DirectionFacts(s, side, i);
    ViewStream(End(s, side), i);
    hide SessionInv, Reachable, HalfOf, StageOk, Ordered, Conserved;
  }

  // --- for good --------------------------------------------------------------------------

  /** The stream is whole, nothing of this direction is on its way, and the send lacks credit. */
  ghost predicate BlockedAtRest(s: Session, side: Side, i: nat) {
    && Unbroken(s.client, i) && Unbroken(s.server, i)
    && i in End(s, side).streams && AtRest(s, side, i)
    && var tx := End(s, side).streams[i].tx;
       tx.todo != [] && tx.permits < |tx.todo[0]|
  }

  /** The same, of the two ends of one stream on their own. */
  ghost predicate Stalled(t: Half, r: Half) {
    && Intact(t) && Intact(r) && !t.stage.Absent? && !t.st.shut
    && t.st.tx.held == [] && t.st.tx.todo != [] && t.st.tx.permits < |t.st.tx.todo[0]|
    && Datas(Out(t)) == [] && Credits(Out(r)) == 0
    && r.st.rx.chan == [] && r.st.rx.pending == []
  }

  lemma SenderStalls(t: Half, r: Half, ev: Event)
    requires Stalled(t, r) && Can(true, t, ev) && Local(ev) && !ev.Cancel? && HalfOk(true, t)
    ensures Intact(Next(true, t, ev)) ==> Stalled(Next(true, t, ev), r)
  {
    SumsAfter(true, t, ev);
    StageAfter(true, t, ev);
    assert Datas(Queues(t, ev)) == [];
    hide Datas, Credits, Out, Chunks, Total, TakeOn, FinishOn, HalfOk, Grants;
  }

  lemma ReceiverStalls(t: Half, r: Half, ev: Event)
    requires Stalled(t, r) && Can(true, r, ev) && Local(ev) && HalfOk(true, r)
    ensures Intact(Next(true, r, ev)) ==> Stalled(t, Next(true, r, ev))
  {
    SumsAfter(true, r, ev);
    StageAfter(true, r, ev);
    assert Credits(Queues(r, ev)) == 0;
    assert ev.Create? ==> Fresh(r.st);
    hide Datas, Credits, Out, Chunks, Total, StartOn, AcquireOn, EmitOn, CancelOn, FailOn, Queues;
  }

  lemma SenderGets(t: Half, r: Half, id: u32, refused: bool)
    requires Stalled(t, r) && CanDeliver(r, t) && MeetsOpen(r, t) && HalfOk(true, t)
    ensures Intact(Got(true, r, t, id, refused)) ==> Stalled(Got(true, r, t, id, refused), Sent(r))
  {
    GotMeans(true, r, t, id, refused);
    OutAfterSent(r);
    StaysOpen(r, t, id, refused);
    hide Got, Datas, Credits, Out, HalfOk;
  }

  lemma StaysOpen(s: Half, r: Half, id: u32, refused: bool)
    requires CanDeliver(s, r) && MeetsOpen(s, r) && !r.stage.Absent? && !r.st.shut
    ensures var r' := Got(true, s, r, id, refused);
            !r'.stage.Absent? && (Intact(r') ==> !r'.st.shut)
  {
    hide ParseTarget, Overflows, GrantOn, PushOn;
  }

  lemma ReceiverGets(t: Half, r: Half, id: u32, refused: bool)
    requires Stalled(t, r) && CanDeliver(t, r) && MeetsOpen(t, r) && HalfOk(true, r)
    ensures Intact(Got(true, t, r, id, refused)) ==> Stalled(Sent(t), Got(true, t, r, id, refused))
  {
    GotMeans(true, t, r, id, refused);
    OutAfterSent(t);
    hide Got, Datas, Credits, Out, HalfOk;
  }

  // In a session.

  lemma IntactIsUnbroken(e: Endpoint, i: nat)
    ensures Intact(HalfOf(e, i)) <==> Unbroken(e, i)
  {
    hide Msgs, CmdFrames, Waiting;
  }

  lemma UnbrokenIsOpen(e: Endpoint, i: nat)
    requires EndpointInv(e) && Named(e) && Unbroken(e, i) && i in e.streams
    ensures !e.streams[i].shut
  {
    hide StreamsOk, TasksOk, OncePerSink, Waiting;
    assert i in OpenKeys(e.streams);
  }

  lemma BlockedIsStalled(s: Session, side: Side, i: nat)
    requires SessionInv(s)
    ensures BlockedAtRest(s, side, i) <==> Stalled(HalfOf(End(s, side), i), HalfOf(End(s, Other(side)), i))
  {
    var t, r := End(s, side), End(s, Other(side));
    IntactIsUnbroken(t, i);
    IntactIsUnbroken(r, i);
    KnownStage(t, i);
    if Unbroken(t, i) && Unbroken(r, i) && i in t.streams {
      UnbrokenIsOpen(t, i) by { hide FreshIds; }
      OutIsUnderWay(t, i);
      OutIsUnderWay(r, i);
      ViewStream(t, i);
      if i in r.streams { ViewStream(r, i); } else { ViewNothing(r, i); }
    }
    hide SessionInv, HalfOf, Datas, Credits, UnderWay, Out;
  }

  lemma ReceiverMeetsOpen(s: Session, who: Side, i: nat)
    requires SessionInv(s) && i > 0 && HalfOf(End(s, Other(who)), i).front != [] && HalfOf(End(s, who), i).ears
    ensures MeetsOpen(HalfOf(End(s, Other(who)), i), HalfOf(End(s, who), i))
  {
    assert StreamInv(s, i);
    hide SessionInv, HalfOf, HalfOk, Ordered, Conserved;
    if OpenerOf(i) == who {
      DeliverToOpener(true, OpenerHalf(s, i), AcceptorHalf(s, i), i % 2, false);
    } else {
      DeliverToAcceptor(true, OpenerHalf(s, i), AcceptorHalf(s, i), i % 2, false);
    }
  }

  lemma StepEnds(s: Session, who: Side, act: Action)
    requires SessionInv(s) && CanStep(s, who, act)
    ensures var e, o, s' := End(s, who), End(s, Other(who)), Step(s, who, act);
            && e.fc == s.client.fc && EndpointInv(e) && Named(e) && Enabled(e, act) && WellNamed(e, act)
            && End(s', who) == Apply(e, act)
            && (act.Receive? ==> act == Receive(act.frame, act.frame.streamId))
            && (act.Receive? ==> o.wire != [] && o.wire[0] == act.frame && End(s', Other(who)) == Read(o))
            && (!act.Receive? ==> End(s', Other(who)) == o)
  {
    EndsAfterStep(s, who, act);
    assert EndOk(End(s, who), who);
    hide Apply, Enabled, FreshIds, EndpointInv, Named, GoodFrame, Classify, Read;
  }

  /** What one stream sees of a step: the end that acts makes one event, the other end none. */
  lemma LocalView(s: Session, who: Side, act: Action, i: nat)
    requires SessionInv(s) && CanStep(s, who, act) && !act.Receive? && i > 0
    ensures Enabled(End(s, who), act) && Local(Seen(End(s, who), act, i))
    ensures Seen(End(s, who), act, i).Cancel? ==> act == CancelSend(i)
    ensures Can(s.client.fc, HalfOf(End(s, who), i), Seen(End(s, who), act, i))
    ensures var s', ev := Step(s, who, act), Seen(End(s, who), act, i);
            && HalfOf(End(s', who), i) == Next(s.client.fc, HalfOf(End(s, who), i), ev)
            && HalfOf(End(s', Other(who)), i) == HalfOf(End(s, Other(who)), i)
  {
    var e := End(s, who);
    StepEnds(s, who, act);
    hide SessionInv, CanStep, Step, End, WellNamed, Named, EndpointInv, HalfOf, Apply, Enabled, Next, Can;
    EveryActionIsOneEvent(e, act, i);
    SeenIsLocal(e, act, i);
    CancelIsSeen(e, act, i);
    hide Seen, Local;
  }

  lemma CancelIsSeen(e: Endpoint, act: Action, i: nat)
    requires Enabled(e, act)
    ensures Seen(e, act, i).Cancel? ==> act == CancelSend(i)
  {
    hide Msgs, HalfOf, Classify, OpenPayload, StageOf, Enabled;
  }

  /** Or a message of the stream is delivered, or at most the reader of another stops. */
  lemma ReceiveView(s: Session, who: Side, act: Action, i: nat) returns (refused: bool)
    requires SessionInv(s) && CanStep(s, who, act) && act.Receive? && i > 0
    ensures var s', h, g := Step(s, who, act), HalfOf(End(s, who), i), HalfOf(End(s, Other(who)), i);
            if act.frame.streamId == i then
              && CanDeliver(g, h) && MeetsOpen(g, h)
              && HalfOf(End(s', who), i) == Got(s.client.fc, g, h, i, refused)
              && HalfOf(End(s', Other(who)), i) == Sent(g)
            else
              && HalfOf(End(s', who), i) == h.(ears := HalfOf(End(s', who), i).ears)
              && HalfOf(End(s', Other(who)), i) == g
  {
    var e, o := End(s, who), End(s, Other(who));
    StepEnds(s, who, act);
    hide SessionInv, CanStep, Step, End, Named, EndpointInv, HalfOf, Apply, Enabled, GoodFrame, Classify, Read, GetOn;
    refused := GetView(e, act.frame, i);
    ViewAfterRead(o, i);
    if act.frame.streamId == i { ReceiverMeetsOpen(s, who, i); }
    hide MeetsOpen;
  }

  lemma GetView(e: Endpoint, f: Frame, i: nat) returns (refused: bool)
    requires EndpointInv(e) && Named(e) && Enabled(e, Receive(f, f.streamId)) && GoodFrame(f) && i > 0
    ensures HalfOf(e, i).ears
    ensures var h, h' := HalfOf(e, i), HalfOf(Apply(e, Receive(f, f.streamId)), i);
            h' == if f.streamId == i then GetOn(e.fc, h, Classify(f), i, refused) else h.(ears := h'.ears)
  {
    var ev := Seen(e, Receive(f, f.streamId), i);
    EveryActionIsOneEvent(e, Receive(f, f.streamId), i);
    ReceiveSeen(e, f, i);
    refused := ev.Get? && ev.refused;
    hide Seen, Named, EndpointInv, HalfOf, Apply, Enabled, GoodFrame, Classify, GetOn, Next, Can;
    if f.streamId != i { AtMostDeafens(e.fc, HalfOf(e, i), ev); }
  }

  lemma AtMostDeafens(fc: bool, h: Half, ev: Event)
    requires Can(fc, h, ev) && (ev.Deafen? || ev.Stay?)
    ensures Next(fc, h, ev) == h.(ears := Next(fc, h, ev).ears)
  {
  }

  lemma DeafStalls(t: Half, r: Half, ears: bool)
    requires Stalled(t, r)
    ensures Stalled(t.(ears := ears), r) && Stalled(t, r.(ears := ears))
  {
    hide Datas, Credits;
  }

  lemma LocalStepStalls(s: Session, side: Side, who: Side, act: Action, i: nat)
    requires SessionInv(s) && CanStep(s, who, act) && !act.Receive? && i > 0 && s.client.fc
    requires Stalled(HalfOf(End(s, side), i), HalfOf(End(s, Other(side)), i))
    requires !(who == side && act == CancelSend(i))
    ensures var s' := Step(s, who, act);
            Intact(HalfOf(s'.client, i)) && Intact(HalfOf(s'.server, i)) ==>
              Stalled(HalfOf(End(s', side), i), HalfOf(End(s', Other(side)), i))
  {
    var e := End(s, who);
    LocalView(s, who, act, i);
    DirectionFacts(s, side, i);
    hide SessionInv, HalfOf, Step, CanStep, Enabled, Seen, Next, Can, Local, HalfOk, Ordered, Conserved, Stalled, Intact;
    if who == side {
      SenderStalls(HalfOf(e, i), HalfOf(End(s, Other(side)), i), Seen(e, act, i));
    } else {
      ReceiverStalls(HalfOf(End(s, side), i), HalfOf(e, i), Seen(e, act, i));
    }
  }

  lemma ReceiveStalls(s: Session, side: Side, who: Side, act: Action, i: nat)
    requires SessionInv(s) && CanStep(s, who, act) && act.Receive? && i > 0 && s.client.fc
    requires Stalled(HalfOf(End(s, side), i), HalfOf(End(s, Other(side)), i))
    ensures var s' := Step(s, who, act);
            Intact(HalfOf(s'.client, i)) && Intact(HalfOf(s'.server, i)) ==>
              Stalled(HalfOf(End(s', side), i), HalfOf(End(s', Other(side)), i))
  {
    var t, r := HalfOf(End(s, side), i), HalfOf(End(s, Other(side)), i);
    var refused := ReceiveView(s, who, act, i);
    DirectionFacts(s, side, i);
    hide SessionInv, HalfOf, Step, CanStep, HalfOk, Ordered, Conserved, MeetsOpen, Got, Sent, Stalled, Intact, CanDeliver;
    if act.frame.streamId == i {
      if who == side { SenderGets(t, r, i, refused); } else { ReceiverGets(t, r, i, refused); }
    } else {
      DeafStalls(t, r, HalfOf(End(Step(s, who, act), who), i).ears);
    }
  }

  // Over whole runs.

  /** Once an end of a stream has removed it, or a writer has stopped, that stays so. */
  lemma StepLeavesBroken(s: Session, who: Side, act: Action, i: nat)
    requires SessionInv(s) && CanStep(s, who, act) && i > 0
    ensures var s' := Step(s, who, act);
            Unbroken(s'.client, i) && Unbroken(s'.server, i) ==> Unbroken(s.client, i) && Unbroken(s.server, i)
  {
    var s' := Step(s, who, act);
    var h, g := HalfOf(End(s, who), i), HalfOf(End(s, Other(who)), i);
    IntactIsUnbroken(s.client, i);
    IntactIsUnbroken(s.server, i);
    IntactIsUnbroken(s'.client, i);
    IntactIsUnbroken(s'.server, i);
    DirectionFacts(s, who, i);
    if act.Receive? {
      var refused := ReceiveView(s, who, act, i);
      if act.frame.streamId == i { GotMeans(s.client.fc, g, h, i, refused); }
    } else {
      LocalView(s, who, act, i);
      StageAfter(s.client.fc, h, Seen(End(s, who), act, i));
    }
    hide SessionInv, HalfOf, Step, CanStep, StageOk, AskedOk, Ordered, Conserved, MeetsOpen, Got, Unbroken;
    hide Seen, Next, Can, Out, Local, Enabled;
  }

  lemma {:induction false} BrokenForGood(s: Session, steps: seq<(Side, Action)>, s': Session, i: nat)
    requires SessionInv(s) && Reaches(s, steps, s') && i > 0
    requires !(Unbroken(s.client, i) && Unbroken(s.server, i))
    ensures !(Unbroken(s'.client, i) && Unbroken(s'.server, i))
    decreases |steps|
  {
    if steps != [] {
      StepLeavesBroken(s, steps[0].0, steps[0].1, i);
      SessionStepKeeps(s, steps[0].0, steps[0].1);
      hide SessionInv, Unbroken, Step, CanStep;
      BrokenForGood(Step(s, steps[0].0, steps[0].1), steps[1..], s', i);
    }
  }

  /** A blocked send stays blocked unless it is cancelled or the stream is broken. */
  lemma StepLeavesBlocked(s: Session, side: Side, who: Side, act: Action, i: nat)
    requires SessionInv(s) && s.client.fc && CanStep(s, who, act) && i > 0
    requires BlockedAtRest(s, side, i) && !(who == side && act == CancelSend(i))
    ensures var s' := Step(s, who, act);
            Unbroken(s'.client, i) && Unbroken(s'.server, i) ==> BlockedAtRest(s', side, i)
  {
    var s' := Step(s, who, act);
    SessionStepKeeps(s, who, act);
    BlockedIsStalled(s, side, i);
    BlockedIsStalled(s', side, i);
    IntactIsUnbroken(s'.client, i);
    IntactIsUnbroken(s'.server, i);
    hide SessionInv, BlockedAtRest, Stalled, Unbroken, Intact, HalfOf, Step, CanStep;
    if act.Receive? { ReceiveStalls(s, side, who, act, i); } else { LocalStepStalls(s, side, who, act, i); }
  }

  lemma {:induction false} RunLeavesBlocked(s: Session, side: Side, i: nat, steps: seq<(Side, Action)>, s': Session)
    requires SessionInv(s) && s.client.fc && Reaches(s, steps, s') && i > 0
    requires BlockedAtRest(s, side, i) && (side, CancelSend(i)) !in steps
    ensures Unbroken(s'.client, i) && Unbroken(s'.server, i) ==> BlockedAtRest(s', side, i)
    decreases |steps|
  {
    hide BlockedAtRest;
    if steps != [] {
      var s1 := Step(s, steps[0].0, steps[0].1);
      assert steps[0] in steps;
      assert forall x <- steps[1..] :: x in steps;
      StepLeavesBlocked(s, side, steps[0].0, steps[0].1, i);
      SessionStepKeeps(s, steps[0].0, steps[0].1);
      hide SessionInv, Unbroken, Step, CanStep;
      if Unbroken(s1.client, i) && Unbroken(s1.server, i) {
        RunLeavesBlocked(s1, side, i, steps[1..], s');
      } else {
        BrokenForGood(s1, steps[1..], s', i);
      }
    }
  }

  /** A send blocked at rest waits for good: in whatever run follows, with every call, frame and task
      of both ends, it neither gets its credit nor fails until it is cancelled, the stream is closed
      or reset at one end, or a writer stops. */
  lemma BlockedForGood(s: Session, side: Side, i: nat, steps: seq<(Side, Action)>, s': Session)
    requires Reachable(true, s) && BlockedAtRest(s, side, i) && i > 0
    requires Reaches(s, steps, s') && (side, CancelSend(i)) !in steps
    requires Unbroken(s'.client, i) && Unbroken(s'.server, i)
    ensures BlockedAtRest(s', side, i)
    ensures var e, t := End(s', side), End(s', side).streams[i].tx;
            !CanAcquire(true, e.streams[i].shut, t) && !MustFail(true, e.streams[i].shut, !e.queueClosed, t)
  {
    ReachableIsOk(true, s);
    RunLeavesBlocked(s, side, i, steps, s');
    MuxSystem.ReachableKeeps(s, steps, s');
    UnbrokenIsOpen(End(s', side), i) by { hide Reachable, Reaches, AtRest, FreshIds; }
    hide SessionInv, Reachable, Reaches, Unbroken;
  }

  // --- a session that gets there ---------------------------------------------------------

  lemma {:induction false} ReachesThen(s: Session, a: seq<(Side, Action)>, m: Session, b: seq<(Side, Action)>, end: Session)
    requires Reaches(s, a, m) && Reaches(m, b, end)
    ensures Reaches(s, a + b, end)
    decreases |a|
  {
    hide CanStep, Step;
    if a == [] {
      assert a + b == b;
    } else {
      assert (a + b)[1..] == a[1..] + b;
      ReachesThen(Step(s, a[0].0, a[0].1), a[1..], m, b, end);
    }
  }

  lemma OneMoreStep(s: Session, steps: seq<(Side, Action)>, m: Session, side: Side, act: Action)
    returns (more: seq<(Side, Action)>)
    requires Reaches(s, steps, m) && CanStep(m, side, act)
    ensures more == steps + [(side, act)] && Reaches(s, more, Step(m, side, act))
  {
    hide CanStep, Step;
    assert [(side, act)][1..] == [];
    more := steps + [(side, act)];
    ReachesThen(s, steps, m, [(side, act)], Step(m, side, act));
  }

  const WHOLE_FRAME: Bytes := seq(MAX_FRAME_PAYLOAD, _ => 0)

  function Alone(nextId: nat, registry: map<nat, Key>, byPeer: set<nat>, t: Sender): Endpoint {
    NewEndpoint(true, nextId).(registry := registry, peerOpened := byPeer, streams := map[1 := NewStream(1, Tcp).(tx := t)])
  }

  /** The client has opened stream 1 and has this sender on it; nothing else is going on. */
  function Live(t: Sender): Session {
    Session(Alone(3, map[1 := 1], {}, t), Alone(2, map[1 := 1], {1}, NewStream(1, Tcp).tx))
  }

  lemma OpenIsWritten() returns (s: Session)
    ensures var s0, open := NewSession(true), OpenStream(1, Tcp, []);
            && CanStep(s0, Client, open) && CanStep(Step(s0, Client, open), Client, WriterTake)
            && CanStep(Step(Step(s0, Client, open), Client, WriterTake), Client, WriterPut)
            && s == Step(Step(Step(s0, Client, open), Client, WriterTake), Client, WriterPut)
    ensures s == Live(NewStream(1, Tcp).tx).(server := NewEndpoint(true, 2),
                                             client := Live(NewStream(1, Tcp).tx).client.(wire := [OpenFrame(1, [])]))
  {
    var s0, open := NewSession(true), OpenStream(1, Tcp, []);
    var s1 := Step(s0, Client, open);
    assert s1.client == Alone(3, map[], {}, NewStream(1, Tcp).tx).(queue := [OpenCmd(1, [], 1)]);
    var s2 := Step(s1, Client, WriterTake);
    assert s2.client == Alone(3, map[1 := 1], {}, NewStream(1, Tcp).tx).(writing := [OpenFrame(1, [])]);
    s := Step(s2, Client, WriterPut);
  }

  lemma OpenIsRead(s: Session)
    requires s == Live(NewStream(1, Tcp).tx).(server := NewEndpoint(true, 2),
                                              client := Live(NewStream(1, Tcp).tx).client.(wire := [OpenFrame(1, [])]))
    ensures CanStep(s, Server, Receive(OpenFrame(1, []), 1))
    ensures Step(s, Server, Receive(OpenFrame(1, []), 1)) == Live(NewStream(1, Tcp).tx)
  {
    assert Classify(OpenFrame(1, [])) == Open([]);
    assert ParseTarget([]) == (Tcp, []);
    hide Classify, ParseTarget;
    assert ReceiveOpen(s.server, 1, [], 1) == Live(NewStream(1, Tcp).tx).server;
  }

  lemma StreamGoesLive() returns (steps: seq<(Side, Action)>)
    ensures Reaches(NewSession(true), steps, Live(NewStream(1, Tcp).tx))
  {
    var s0, open := NewSession(true), OpenStream(1, Tcp, []);
    var s3 := OpenIsWritten();
    OpenIsRead(s3);
    hide CanStep, Step, Live, NewSession;
    steps := OneMoreStep(s0, [], s0, Client, open);
    steps := OneMoreStep(s0, steps, Step(s0, Client, open), Client, WriterTake);
    steps := OneMoreStep(s0, steps, Step(Step(s0, Client, open), Client, WriterTake), Client, WriterPut);
    steps := OneMoreStep(s0, steps, s3, Server, Receive(OpenFrame(1, []), 1));
  }

  // The command queue fills with keepalives, so that a send that has its credit waits for room.

  function Pings(n: nat): seq<Command> { seq(n, _ => WriteCmd(Frame(0, PING, []))) }

  /** The same, with keepalives in the client's command queue. */
  function Busy(t: Sender, n: nat): Session { Live(t).(client := Live(t).client.(queue := Pings(n))) }

  lemma {:induction false} QueueFills(n: nat) returns (steps: seq<(Side, Action)>)
    requires n <= QUEUE_COMMANDS
    ensures Reaches(NewSession(true), steps, Busy(NewStream(1, Tcp).tx, n))
  {
    var t := NewStream(1, Tcp).tx;
    if n == 0 {
      steps := StreamGoesLive();
      assert Busy(t, 0) == Live(t);
    } else {
      steps := QueueFills(n - 1);
      OnePing(t, n - 1);
      hide CanStep, Step, Busy, NewSession;
      steps := OneMoreStep(NewSession(true), steps, Busy(t, n - 1), Client, SendPing);
    }
  }

  lemma OnePing(t: Sender, n: nat)
    requires n < QUEUE_COMMANDS
    ensures CanStep(Busy(t, n), Client, SendPing) && Step(Busy(t, n), Client, SendPing) == Busy(t, n + 1)
  {
    assert Pings(n + 1) == Pings(n) + [WriteCmd(Frame(0, PING, []))];
  }

  /** With no room left. */
  function Full(t: Sender): Session { Busy(t, QUEUE_COMMANDS) }

  lemma StartOfFrame(t: Sender)
    requires Idle(t)
    ensures CanStep(Full(t), Client, StartSend(1, WHOLE_FRAME))
    ensures Step(Full(t), Client, StartSend(1, WHOLE_FRAME)) == Full(StartOn(t, [WHOLE_FRAME]))
  {
    assert Chunks(Tcp, WHOLE_FRAME) == Some([WHOLE_FRAME]);
    hide Chunks;
  }

  lemma AcquireFrame(t: Sender)
    requires t.todo == [WHOLE_FRAME] && t.held == [] && t.permits >= MAX_FRAME_PAYLOAD
    ensures CanStep(Full(t), Client, Acquire(1))
    ensures Step(Full(t), Client, Acquire(1)) == Full(AcquireOn(true, t))
  {
  }

  lemma CancelFrame(t: Sender)
    requires !Idle(t)
    ensures CanStep(Full(t), Client, CancelSend(1))
    ensures Step(Full(t), Client, CancelSend(1)) == Full(CancelOn(t)) && !Room(Full(t).client)
  {
    hide CancelOn;
  }

  /** The sender after `n` sends of a whole frame, each cancelled once it had its credit. */
  function Cancelled(n: nat): Sender
    requires n <= 16
  {
    Sender(INIT_WINDOW - n * MAX_FRAME_PAYLOAD, [], [], seq(n, _ => WHOLE_FRAME), [], false, n > 0, n * MAX_FRAME_PAYLOAD)
  }

  lemma CancelledOnceMore(n: nat)
    requires n < 16
    ensures var t := StartOn(Cancelled(n), [WHOLE_FRAME]);
            t.permits >= MAX_FRAME_PAYLOAD && CancelOn(AcquireOn(true, t)) == Cancelled(n + 1)
  {
    assert seq(n + 1, _ => WHOLE_FRAME) == seq(n, _ => WHOLE_FRAME) + [WHOLE_FRAME];
    assert Total([WHOLE_FRAME]) == MAX_FRAME_PAYLOAD;
    assert [WHOLE_FRAME][1..] == [];
  }

  lemma {:induction false} CancelRounds(n: nat) returns (steps: seq<(Side, Action)>)
    requires n <= 16
    ensures Reaches(NewSession(true), steps, Full(Cancelled(n)))
  {
    if n == 0 {
      steps := QueueFills(QUEUE_COMMANDS);
      assert Cancelled(0) == NewStream(1, Tcp).tx;
    } else {
      steps := CancelRounds(n - 1);
      CancelledOnceMore(n - 1);
      var t := StartOn(Cancelled(n - 1), [WHOLE_FRAME]);
      StartOfFrame(Cancelled(n - 1));
      AcquireFrame(t);
      CancelFrame(AcquireOn(true, t));
      hide CanStep, Step, Full, NewSession;
      var s0 := NewSession(true);
      steps := OneMoreStep(s0, steps, Full(Cancelled(n - 1)), Client, StartSend(1, WHOLE_FRAME));
      steps := OneMoreStep(s0, steps, Full(t), Client, Acquire(1));
      steps := OneMoreStep(s0, steps, Full(AcquireOn(true, t)), Client, CancelSend(1));
    }
  }

  lemma FullIsAtRest(t: Sender)
    requires t.held == []
    ensures Unbroken(Full(t).client, 1) && Unbroken(Full(t).server, 1) && AtRest(Full(t), Client, 1)
  {
    PingsAreNoMessages(QUEUE_COMMANDS);
    assert [] + [] + CmdFrames(Pings(QUEUE_COMMANDS)) == CmdFrames(Pings(QUEUE_COMMANDS));
    assert UnderWay(Full(t).client, 1) == [] == UnderWay(Full(t).server, 1) by { hide Msgs, CmdFrames, Pings; NoFrames(1); }
    hide Msgs, CmdFrames, Waiting, Pings;
  }

  lemma NoFrames(i: nat)
    ensures Msgs(i, [] + [] + CmdFrames([])) == []
  {
  }

  lemma {:induction false} PingsAreNoMessages(n: nat)
    ensures Msgs(1, CmdFrames(Pings(n))) == []
  {
    if n > 0 {
      PingsAreNoMessages(n - 1);
      assert Pings(n)[1..] == Pings(n - 1);
      assert CmdFrames(Pings(n)) == [Frame(0, PING, [])] + CmdFrames(Pings(n - 1));
    }
  }

  /** The input: one stream, a command queue full of keepalives, sixteen sends of a whole frame, each
      cancelled while it has its credit and waits for room in the queue, and a seventeenth. That one
      is blocked at rest, short of 16282 of its 16378 bytes. */
  lemma CancelsBlockASend() returns (steps: seq<(Side, Action)>, s: Session)
    ensures Reaches(NewSession(true), steps, s) && Reachable(true, s) && BlockedAtRest(s, Client, 1)
    ensures var tx := s.client.streams[1].tx;
            |tx.todo[0]| == 16378 && tx.permits == 96 && tx.leaked == 262048 && Ungranted(s, Client, 1) == 0
  {
    steps := CancelRounds(16);
    StartOfFrame(Cancelled(16));
    var t := StartOn(Cancelled(16), [WHOLE_FRAME]);
    FullIsAtRest(t);
    s := Full(t);
    hide CanStep, Step, NewSession, Unbroken, AtRest, Reaches;
    steps := OneMoreStep(NewSession(true), steps, Full(Cancelled(16)), Client, StartSend(1, WHOLE_FRAME));
  }
}
