/**
 Every action of an endpoint that talks to a compliant peer keeps its naming discipline: streams
 are named by their ids, and only well-formed frames are queued, written or owed.
 */
module MuxNaming {
  import opened Basics
  import opened Frames
  import opened MuxEndpoint
  import opened MuxSafety
  import opened MuxProjection

  lemma NamedAfterRemove(e: Endpoint, id: nat)
    requires Named(e)
    ensures Named(Remove(e, id))
  {
    hide GoodFrame;
  }

  lemma NamedAfterPut(e: Endpoint, k: Key, s: Stream)
    requires Named(e) && s.id == k > 0
    ensures Named(Put(e, k, s))
  {
    hide GoodFrame;
  }

  lemma NamedAfterRegister(e: Endpoint, id: nat, byPeer: bool)
    requires Named(e) && id in e.streams
    ensures Named(Register(e, id, id, byPeer))
  {
    hide GoodFrame, GoodCmd;
  }

  lemma NamedAfterPush(e: Endpoint, f: Frame)
    requires Named(e) && GoodFrame(f) && !Classify(f).Open?
    ensures Named(Push(e, WriteCmd(f)))
  {
    hide GoodFrame, Classify;
  }

  /** Changing task phases, skipping an id, or dropping or moving frames renames nothing. */
  lemma NamedAfterSlots(e: Endpoint, e': Endpoint)
    requires Named(e)
    requires e'.nextId > 0 && e'.streams == e.streams && e'.registry == e.registry && e'.queue == e.queue
    requires forall f <- e'.wire :: GoodFrame(f)
    requires forall f <- e'.writing :: GoodFrame(f)
    requires !e'.writer.Running? ==> e'.writing == []
    requires forall f <- e'.outbox :: GoodFrame(f) && (f.streamId == 0 || (f == CloseFrame(f.streamId) && f.streamId in e.streams))
    ensures Named(e')
  {
    hide GoodFrame, GoodCmd;
  }

  lemma NamedWhileWriting(e: Endpoint, f: Frame)
    requires Named(e) && GoodFrame(f) && e.writer.Running?
    ensures Named(e.(writing := [f]))
  {
    hide GoodFrame, GoodCmd;
  }

  lemma NamedAfterPop(e: Endpoint)
    requires Named(e) && e.queue != []
    ensures Named(e.(queue := e.queue[1..]))
  {
    hide GoodFrame, GoodCmd;
  }

  lemma NamedAfterTake(e: Endpoint)
    requires Named(e) && e.queue != [] && e.writer.Running?
    ensures Named(TakeCommand(e))
  {
    assert GoodCmd(e.streams, e.queue[0]);
    var e1 := e.(queue := e.queue[1..]);
    NamedAfterPop(e);
    if e.queue[0].OpenCmd? {
      var id := e.queue[0].id;
      assert GoodFrame(OpenFrame(id, e.queue[0].target));
      hide GoodFrame, GoodCmd;
      NamedAfterRegister(e1, id, false);
      NamedWhileWriting(Register(e1, id, id, false), OpenFrame(id, e.queue[0].target));
    } else {
      var f := e.queue[0].frame;
      hide GoodFrame, GoodCmd;
      NamedAfterRemove(e1, f.streamId);
      NamedWhileWriting(e1, f);
      NamedWhileWriting(Remove(e1, f.streamId), f);
    }
    hide Named;
  }

  lemma NamedAfterData(e: Endpoint, id: u32, chunk: Bytes)
    requires Named(e) && id > 0
    ensures Named(ReceiveData(e, id, chunk))
  {
    if id in e.registry {
      var s := e.streams[id];
      if Overflows(s, |chunk|) {
        NamedAfterRemove(e, id);
        assert GoodFrame(CloseFrame(id));
        hide GoodFrame, GoodCmd, Overflows;
        assert id in Remove(e, id).streams;
        NamedAfterSlots(Remove(e, id), Remove(e, id).(outbox := [CloseFrame(id)]));
      } else {
        hide GoodFrame, GoodCmd, PushOn, Overflows;
        NamedAfterPut(e, id, s.(rx := PushOn(s.rx, chunk)));
      }
    }
  }

  lemma NamedAfterCredit(e: Endpoint, id: u32, n: nat)
    requires Named(e)
    ensures Named(ReceiveCredit(e, id, n))
  {
    if id in e.registry {
      var s := e.streams[id];
      hide GoodFrame, GoodCmd, GrantOn;
      NamedAfterPut(e, id, s.(tx := GrantOn(e.fc, s.tx, n)));
    }
  }

  lemma NamedAfterReceiveOpen(e: Endpoint, id: u32, target: Bytes)
    requires Named(e) && id > 0
    ensures Named(ReceiveOpen(e, id, target, id))
  {
    hide GoodFrame, GoodCmd, ParseTarget;
    var st := NewStream(id, ParseTarget(target).0);
    NamedAfterPut(e, id, st);
    NamedAfterRegister(Put(e, id, st), id, true);
    NamedAfterSlots(e, e.(reader := Stopping));
    hide Named;
  }

  lemma NamedAfterDispatch(e: Endpoint, f: Frame)
    requires Named(e) && GoodFrame(f)
    ensures Named(Dispatch(e, f, f.streamId))
  {
    assert GoodFrame(Frame(0, PONG, []));
    hide GoodCmd, Named;
    match Classify(f)
    case Open(target) => NamedAfterReceiveOpen(e, f.streamId, target);
    case Data(chunk) => NamedAfterData(e, f.streamId, chunk);
    case Credit(n) => NamedAfterCredit(e, f.streamId, n);
    case Close => NamedAfterRemove(e, f.streamId);
    case Ping => NamedAfterPing(e);
    case _ =>
  }

  lemma NamedAfterPing(e: Endpoint)
    requires Named(e)
    ensures Named(e.(outbox := [Frame(0, PONG, [])]))
  {
    assert GoodFrame(Frame(0, PONG, []));
    hide GoodFrame, GoodCmd;
    NamedAfterSlots(e, e.(outbox := [Frame(0, PONG, [])]));
  }

  lemma NamedAfterOpen(e: Endpoint, kind: Kind, target: Bytes)
    requires Named(e) && e.nextId < 0x1_0000_0000
    ensures Named(OpenNew(e, e.nextId, kind, target))
  {
    hide GoodFrame, OpenPayload;
  }

  lemma NamedAfterCall(e: Endpoint, act: Action)
    requires Named(e) && EndpointInv(e) && Enabled(e, act) && WellNamed(e, act) && !TaskAction(act)
    ensures Named(Apply(e, act))
  {
    hide EndpointInv;
    if act.OpenStream? {
      NamedAfterOpen(e, act.kind, act.target);
    } else if act.SendPing? {
      NamedAfterPush(e, Frame(0, PING, []));
    } else {
      var k := act.key;
      var s, s' := e.streams[k], Apply(e, act).streams[k];
      assert s.id == k > 0;
      assert s'.id == k by { hide StartOn, AcquireOn, EmitOn, CancelOn, FailOn, TakeOn, FinishOn, Chunks; }
      hide Named, GoodFrame, StartOn, AcquireOn, EmitOn, CancelOn, FailOn, TakeOn, FinishOn, Chunks;
      NamedAfterPut(e, k, s');
      if act.Enqueue? {
        GoodToSend(s, s.tx.held[0], 0);
        NamedAfterPush(Put(e, k, s'), DataFrame(s, s.tx.held[0]));
      } else if act.RecvFinish? && s.rx.consumed >= WINDOW_THRESHOLD && !e.queueClosed {
        var credit := Min(s.rx.consumed, 0xFFFF_FFFF);
        GoodToSend(s, [], credit);
        NamedAfterPush(Put(e, k, s'), CreditFrame(s.id, credit));
      } else if act.CloseStream? {
        GoodToSend(s, [], 0);
        NamedAfterPush(e, CloseFrame(s.id));
      }
    }
  }

  lemma GoodToSend(s: Stream, chunk: Bytes, credit: u32)
    requires s.id > 0
    ensures GoodFrame(DataFrame(s, chunk)) && !Classify(DataFrame(s, chunk)).Open?
    ensures GoodFrame(CreditFrame(s.id, credit)) && !Classify(CreditFrame(s.id, credit)).Open?
    ensures GoodFrame(CloseFrame(s.id)) && !Classify(CloseFrame(s.id)).Open?
  {
  }

  lemma NamedAfterFlush(e: Endpoint)
    requires Named(e) && e.outbox != []
    ensures Named(Push(e, WriteCmd(e.outbox[0])).(outbox := []))
  {
    assert e.outbox[0] in e.outbox;
    assert Classify(CloseFrame(e.outbox[0].streamId)).Close?;
    NamedAfterPush(e, e.outbox[0]);
    hide GoodFrame, GoodCmd;
    NamedAfterSlots(Push(e, WriteCmd(e.outbox[0])), Push(e, WriteCmd(e.outbox[0])).(outbox := []));
  }

  lemma NamedAfterDrain(e: Endpoint)
    requires Named(e) && e.queue != []
    ensures Named(DrainCommand(e))
  {
    hide GoodFrame;
    NamedAfterPop(e);
    if e.queue[0].OpenCmd? && e.queue[0].key in e.streams {
      var k := e.queue[0].key;
      NamedAfterPut(e.(queue := e.queue[1..]), k, e.streams[k].(shut := true));
    }
  }

  lemma NamedAfterSweep(e: Endpoint, act: Action)
    requires Named(e) && Enabled(e, act) && (act.WriterSweep? || act.ReaderSweep? || act.WatchdogSweep?)
    ensures Named(Apply(e, act))
  {
    hide GoodFrame, GoodCmd;
    NamedAfterCloseAll(e);
    NamedAfterSlots(CloseAll(e), Apply(e, act));
  }

  lemma NamedAfterPhase(e: Endpoint, act: Action)
    requires Named(e) && Enabled(e, act) && PhaseAction(act)
    ensures Named(Apply(e, act))
  {
    hide GoodFrame, GoodCmd, TakeCommand, DrainCommand, Dispatch, CloseAll, FinishRecv, EnqueueHeld, OpenNew;
    NamedAfterSlots(e, Apply(e, act));
  }

  lemma NamedAfterAction(e: Endpoint, act: Action)
    requires Named(e) && EndpointInv(e) && Enabled(e, act) && WellNamed(e, act)
    ensures Named(Apply(e, act))
  {
    hide Named, EndpointInv, GoodFrame, TakeCommand, DrainCommand, Dispatch, Push;
    if PhaseAction(act) { NamedAfterPhase(e, act); }
    else if act.WriterTake? { NamedAfterTake(e); }
    else if act.Receive? { NamedAfterDispatch(e, act.frame); }
    else if act.ReaderFlush? { NamedAfterFlush(e); }
    else if act.WriterDrain? { NamedAfterDrain(e); }
    else if TaskAction(act) { NamedAfterSweep(e, act); }
    else { NamedAfterCall(e, act); }
  }

  lemma NamedAfterCloseAll(e: Endpoint)
    requires Named(e)
    ensures Named(CloseAll(e))
  {
    hide GoodFrame;
    forall c | c in e.queue
      ensures GoodCmd(CloseAll(e).streams, c)
    {
      assert GoodCmd(e.streams, c);
    }
  }
}
