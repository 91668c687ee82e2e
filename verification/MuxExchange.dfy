/**
 What each frame does to the end that reads it, by the numbers on the wire, and how opening and
 closing a stream at one end shows at the other.
 */
module MuxExchange {
  import opened Basics
  import opened Frames
  import opened MuxEndpoint
  import opened MuxSafety

  // --- the reader, by type byte ----------------------------------------------------------

  /** A ping is answered by one pong; a pong, an unknown type, and a credit too short to read change
      nothing; an unknown type marked critical ends the session. */
  lemma ReaderOnControl(e: Endpoint, f: Frame, k: Key)
    requires Enabled(e, Receive(f, k))
    ensures var e', base := Apply(e, Receive(f, k)), f.ftype % 128;
            && (base == 6 ==> e' == e.(outbox := [Frame(0, 7, [])]))
            && (base == 7 ==> e' == e)
            && (base == 3 || base == 5 ==> Classify(f) == Data(f.payload))
            && (base == 8 && |f.payload| < 4 ==> e' == e)
            && (base !in {2, 3, 4, 5, 6, 7, 8} ==> e' == if f.ftype >= 128 then e.(reader := Stopping) else e)
  {
  }

  /** A credit adds what its first four bytes say to the permits of its stream, up to one window, if
      flow control is on; and touches nothing else. */
  lemma ReaderOnCredit(e: Endpoint, f: Frame, k: Key)
    requires Enabled(e, Receive(f, k)) && f.ftype % 128 == 8 && |f.payload| >= 4
    ensures var e' := Apply(e, Receive(f, k));
            if f.streamId in e.registry && e.registry[f.streamId] in e.streams && e.fc then
              var own, n := e.registry[f.streamId], (f.payload[0] as int) * 16777216 + (f.payload[1] as int) * 65536
                                                    + (f.payload[2] as int) * 256 + f.payload[3] as int;
              var s := e.streams[own];
              e' == e.(streams := e.streams[own :=
                       s.(tx := s.tx.(permits := s.tx.permits + if n <= 262144 then n else 262144))])
            else e' == e
  {
    BigEndian(f.payload);
    hide FromBe32;
    if f.streamId in e.registry && e.registry[f.streamId] in e.streams && !e.fc {
      assert e.streams[e.registry[f.streamId] := e.streams[e.registry[f.streamId]]] == e.streams;
    }
  }

  /** A close takes its stream out of the registry and closes its window; of an unknown stream it
      changes nothing. */
  lemma ReaderOnClose(e: Endpoint, f: Frame, k: Key)
    requires Enabled(e, Receive(f, k)) && f.ftype % 128 == 4
    ensures var e' := Apply(e, Receive(f, k));
            && (f.streamId !in e.registry ==> e' == e)
            && (f.streamId in e.registry ==>
                  && e'.registry == e.registry - {f.streamId}
                  && forall j :: j in e.streams ==>
                       j in e'.streams
                       && e'.streams[j] == if j == e.registry[f.streamId] then e.streams[j].(shut := true) else e.streams[j])
  {
  }

  /** An open registers a new stream with a full window and nothing received, unless 1024 are registered
      already: then the session ends. */
  lemma ReaderOnOpen(e: Endpoint, f: Frame, k: Key)
    requires Enabled(e, Receive(f, k)) && f.ftype % 128 == 2
    ensures var e' := Apply(e, Receive(f, k));
            if |e.registry| >= 1024 then e' == e.(reader := Stopping)
            else
              && e'.registry == e.registry[f.streamId := k] && k in e'.streams
              && var s := e'.streams[k];
                 && s.id == f.streamId && s.tx.permits == 262144 && !s.shut && !s.gone
                 && s.tx.sent == [] && s.rx.chan == [] && s.rx.pending == [] && s.rx.consumed == 0
  {
    hide ParseTarget;
  }

  // --- from one end to the other ---------------------------------------------------------

  /** What a call to open puts on the wire makes, at the other end, a stream of the same id and of the
      same kind, exactly unless it is a TCP target that begins with a scheme of another kind. */
  lemma OpenArrives(e: Endpoint, k: Key, kind: Kind, target: Bytes, o: Endpoint, k': Key)
    requires e.queue == [] && Enabled(e, OpenStream(k, kind, target))
    requires e.writer.Running? && e.writing == []
    ensures Enabled(Apply(e, OpenStream(k, kind, target)), WriterTake)
    ensures var e1 := Apply(Apply(e, OpenStream(k, kind, target)), WriterTake);
            && |e1.writing| == 1 && e1.writing[0].ftype == 2 && e1.writing[0].streamId == e.nextId
            && e.nextId in e1.registry && e1.registry[e.nextId] == k
            && k in e1.streams && e1.streams[k].kind == kind && e1.streams[k].tx.permits == 262144
            && e1.nextId == e.nextId + 2
            && (Enabled(o, Receive(e1.writing[0], k')) && |o.registry| < 1024 ==>
                  var o' := Apply(o, Receive(e1.writing[0], k'));
                  && k' in o'.streams && o'.streams[k'].id == e.nextId
                  && (o'.streams[k'].kind == kind
                      <==> !(kind == Tcp && ([117, 100, 112, 58] <= target || [105, 99, 109, 112, 58] <= target))))
  {
    OpenGoesOut(e, k, kind, target);
    KindArrives(kind, target);
    var f := OpenFrame(e.nextId, OpenPayload(kind, target));
    hide OpenPayload, OpenNew;
    if Enabled(o, Receive(f, k')) && |o.registry| < 1024 { OpenComesIn(o, f, k'); }
    hide Apply, Enabled, ParseTarget;
  }

  lemma OpenGoesOut(e: Endpoint, k: Key, kind: Kind, target: Bytes)
    requires e.queue == [] && Enabled(e, OpenStream(k, kind, target))
    requires e.writer.Running? && e.writing == []
    ensures Enabled(Apply(e, OpenStream(k, kind, target)), WriterTake)
    ensures var e1 := Apply(Apply(e, OpenStream(k, kind, target)), WriterTake);
            && e1.writing == [OpenFrame(e.nextId, OpenPayload(kind, target))]
            && e.nextId in e1.registry && e1.registry[e.nextId] == k
            && k in e1.streams && e1.streams[k].kind == kind && e1.streams[k].tx.permits == 262144
            && e1.nextId == e.nextId + 2
  {
    hide OpenPayload;
  }

  lemma OpenComesIn(o: Endpoint, f: Frame, k: Key)
    requires Enabled(o, Receive(f, k)) && f.ftype == OPEN && |o.registry| < 1024
    ensures var o' := Apply(o, Receive(f, k));
            k in o'.streams && o'.streams[k].id == f.streamId && o'.streams[k].kind == ParseTarget(f.payload).0
  {
    hide ParseTarget;
  }

  lemma KindArrives(kind: Kind, target: Bytes)
    ensures ParseTarget(OpenPayload(kind, target)).0 == kind
            <==> !(kind == Tcp && ([117, 100, 112, 58] <= target || [105, 99, 109, 112, 58] <= target))
  {
    OpenTargetSurvives(kind, target);
  }

  /** Closing a stream ends it at both ends: once the writer takes its CLOSE the stream is no longer
      registered here and its window is closed, and so it is there when the CLOSE arrives. */
  lemma CloseArrives(e: Endpoint, k: Key, o: Endpoint, k': Key)
    requires e.queue == [] && Enabled(e, CloseStream(k)) && e.writer.Running? && e.writing == []
    ensures Enabled(Apply(e, CloseStream(k)), WriterTake)
    ensures var id := e.streams[k].id;
            var e1 := Apply(Apply(e, CloseStream(k)), WriterTake);
            && e1.writing == [Frame(id, 4, [])] && id !in e1.registry
            && (id in e.registry && e.registry[id] == k ==> k in e1.streams && e1.streams[k].shut)
            && (Enabled(o, Receive(e1.writing[0], k')) ==>
                  var o' := Apply(o, Receive(e1.writing[0], k'));
                  && id !in o'.registry
                  && (id in o.registry && o.registry[id] in o.streams ==>
                        o.registry[id] in o'.streams && o'.streams[o.registry[id]].shut))
  {
    var e1 := Apply(Apply(e, CloseStream(k)), WriterTake);
    if Enabled(o, Receive(Frame(e.streams[k].id, 4, []), k')) {
      ReaderOnClose(o, Frame(e.streams[k].id, 4, []), k');
    }
  }
}
