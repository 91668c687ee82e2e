/**
 One stream of the multiplexer seen on its own: the state of its two ends and the messages for
 it between them. MuxSystem shows that a session of two endpoints behaves, on every stream id,
 as this machine; here its invariants are proved, with no registry and no other streams about.
 */
module MuxStream {
  import opened Basics
  import opened Frames
  import opened MuxEndpoint

  /** Where one end stands with a stream: unknown to it, its OPEN still queued, registered, or
      removed from the registry. */
  datatype Stage = Absent | InQueue | Live | Removed

  datatype Half = Half(
    stage: Stage,
    up: bool,                 // the writer task runs, so the command queue is open
    ears: bool,               // the reader task runs
    st: Stream,
    front: seq<Message>,      // for this stream: being written or on the wire, oldest first
    back: seq<Message>)       // for this stream: in the command queue

  function Out(h: Half): seq<Message> { h.front + h.back }

  // --- message sequences -----------------------------------------------------------------

  function Datas(ms: seq<Message>): seq<Bytes> {
    if ms == [] then []
    else (if ms[0].Data? then [ms[0].chunk] else []) + Datas(ms[1..])
  }

  function Credits(ms: seq<Message>): nat {
    if ms == [] then 0
    else (if ms[0].Credit? then ms[0].amount else 0) + Credits(ms[1..])
  }

  predicate NoOpen(ms: seq<Message>) { forall m <- ms :: !m.Open? }

  lemma {:induction false} DatasAppend(a: seq<Message>, b: seq<Message>)
    ensures Datas(a + b) == Datas(a) + Datas(b)
    ensures Credits(a + b) == Credits(a) + Credits(b)
  {
    if a == [] {
      assert a + b == b;
    } else {
      var head := if a[0].Data? then [a[0].chunk] else [];
      assert (a + b)[1..] == a[1..] + b;
      DatasAppend(a[1..], b);
      assert Datas(a) == head + Datas(a[1..]) && Datas(a + b) == head + Datas(a[1..] + b);
    }
  }

  // --- events ----------------------------------------------------------------------------

  datatype Event =
    | Stay
    | Create(id: u32, kind: Kind, payload: Bytes)
    | Start(data: Bytes)
    | Grab
    | Emit
    | Cancel
    | Fail
    | Take
    | Finish
    | AskClose
    | Drop
    | Write                        // the writer takes the oldest queued message for the stream
    | Cut(keep: seq<Message>)      // the writer stops; what is on the wire stays
    | Unqueue                      // the stopped writer closes a queued sink
    | Sweep                        // every registered sink is closed
    | Deafen                       // the reader stops
    | Get(m: Message, id: u32, refused: bool)

  predicate Can(fc: bool, h: Half, ev: Event) {
    match ev
    case Stay => true
    case Create(_, _, _) => h.stage.Absent? && h.up
    case Start(data) => !h.stage.Absent? && h.st.tx.todo == [] && h.st.tx.held == []
                        && Chunks(h.st.kind, data).Some?
    case Grab => !h.stage.Absent? && CanAcquire(fc, h.st.shut, h.st.tx)
    case Emit => !h.stage.Absent? && h.st.tx.held != [] && h.up
    case Cancel => !h.stage.Absent?
    case Fail => !h.stage.Absent? && MustFail(fc, h.st.shut, h.up, h.st.tx)
    case Take => !h.stage.Absent? && h.st.rx.pending == [] && h.st.rx.chan != []
    case Finish => !h.stage.Absent?
    case AskClose => !h.stage.Absent? && h.up
    case Drop => !h.stage.Absent?
    case Write => h.up && h.back != []
    case Cut(keep) => h.up && keep <= h.front
    case Unqueue => h.stage.InQueue? && !h.up
    case Sweep => h.stage.Live?
    case Deafen => true
    case Get(m, _, _) => h.ears
  }

  function Tx(h: Half, t: Sender): Half { h.(st := h.st.(tx := t)) }

  function Rx(h: Half, r: Receiver): Half { h.(st := h.st.(rx := r)) }

  function Shut(h: Half): Half { h.(stage := Removed, st := h.st.(shut := true)) }

  function GetOn(fc: bool, h: Half, m: Message, id: u32, refused: bool): Half {
    match m
    case Open(target) =>
      if refused then h.(ears := false)
      else h.(stage := Live, st := NewStream(id, ParseTarget(target).0))
    case Data(chunk) =>
      if !h.stage.Live? then h
      else if Overflows(h.st, |chunk|) then Shut(h)
      else Rx(h, PushOn(h.st.rx, chunk))
    case Credit(n) => if h.stage.Live? then Tx(h, GrantOn(fc, h.st.tx, n)) else h
    case Close => if h.stage.Live? then Shut(h) else h
    case _ => h
  }

  function Grants(h: Half): seq<Message> {
    if h.st.rx.consumed >= WINDOW_THRESHOLD && h.up
    then [Credit(Min(h.st.rx.consumed, 0xFFFF_FFFF))] else []
  }

  function WriteOne(h: Half): Half
    requires h.back != []
  {
    var h' := h.(front := h.front + [h.back[0]], back := h.back[1..]);
    if h.back[0].Open? then h'.(stage := Live)
    else if h.back[0].Close? && h.stage.Live? then Shut(h')
    else h'
  }

  function Next(fc: bool, h: Half, ev: Event): Half
    requires Can(fc, h, ev)
  {
    match ev
    case Stay => h
    case Create(id, kind, payload) =>
      h.(stage := InQueue, st := NewStream(id, kind), back := h.back + [Open(payload)])
    case Start(data) => Tx(h, StartOn(h.st.tx, Chunks(h.st.kind, data).value))
    case Grab => Tx(h, AcquireOn(fc, h.st.tx))
    case Emit => Tx(h, EmitOn(h.st.tx)).(back := h.back + [Data(h.st.tx.held[0])])
    case Cancel => Tx(h, CancelOn(h.st.tx))
    case Fail => Tx(h, FailOn(h.st.tx))
    case Take => Rx(h, TakeOn(fc, h.st.rx))
    case Finish => Rx(h, FinishOn(h.st.rx)).(back := h.back + Grants(h))
    case AskClose => h.(back := h.back + [Close])
    case Drop => h.(st := h.st.(gone := true))
    case Write => WriteOne(h)
    case Cut(keep) => h.(up := false, front := keep, back := [])
    case Unqueue => Shut(h)
    case Sweep => Shut(h)
    case Deafen => h.(ears := false)
    case Get(m, id, refused) => GetOn(fc, h, m, id, refused)
  }

  // --- invariants ------------------------------------------------------------------------

  /** What the receiver has taken in, oldest first: returned, about to be returned, queued. */
  function TakenIn(r: Receiver): seq<Bytes> { r.delivered + r.pending + r.chan }

  /** Exactly-once and in order, from `s` to `r`: what `r` took in followed by what is under way
      is what `s` queued; a dead writer may lose a tail of it, a removed receiver ignores it. */
  ghost predicate Ordered(s: Half, r: Half) {
    && TakenIn(r.st.rx) <= s.st.tx.sent
    && (!r.stage.Removed? ==> TakenIn(r.st.rx) + Datas(Out(s)) <= s.st.tx.sent)
    && (!r.stage.Removed? && s.up ==> TakenIn(r.st.rx) + Datas(Out(s)) == s.st.tx.sent)
  }

  /** The credit a sender accounts for: free, held by an unfinished send, leaked. */
  function Credit0(t: Sender): nat { t.permits + Total(t.held) + t.leaked }

  /** ... and spent on bytes under way. */
  function SendSum(s: Half): nat { Credit0(s.st.tx) + Total(Datas(Out(s))) }

  /** The credit a receiver accounts for: queued bytes, bytes taken but not yet re-granted, and
      re-grants under way. */
  function RecvSum(r: Half): nat { Total(r.st.rx.chan) + r.st.rx.consumed + Credits(Out(r)) }

  /** All the credit of the direction from `s` to `r`, wherever it is. */
  function Budget(s: Half, r: Half): nat { SendSum(s) + RecvSum(r) }

  predicate Intact(h: Half) { h.up && !h.stage.Removed? }

  predicate Conserved(s: Half, r: Half) {
    && Budget(s, r) <= INIT_WINDOW
    && (Intact(s) && Intact(r) ==> Budget(s, r) == INIT_WINDOW)
  }

  predicate Fresh(s: Stream) { s == NewStream(s.id, s.kind) }

  /** The OPEN comes first, once, and only from the opener `o` to the acceptor `a`. */
  ghost predicate OpenFirst(o: Half, a: Half) {
    && NoOpen(Out(a))
    && !a.stage.InQueue?
    && (a.stage.Absent? ==> Out(a) == [])
    && (o.stage.Absent? ==> Out(o) == [] && a.stage.Absent?)
    && (o.stage.InQueue? ==> o.front == [] && a.stage.Absent?)
    && (o.stage.Live? || o.stage.Removed? ==>
          (a.stage.Absent? && a.ears ==>
             || (o.front == [] && !o.up)
             || (o.front != [] && o.front[0].Open? && NoOpen(o.front[1..]))))
    && (!a.stage.Absent? ==> NoOpen(o.front))
  }

  /** `asked` are the chunks handed to `send`; without a cancelled send, what was queued is a
      prefix of them, and after a failure no more is queued. */
  predicate AskedOk(fc: bool, up: bool, shut: bool, t: Sender) {
    && |t.held| <= 1
    && (forall c <- t.todo :: |c| <= MAX_FRAME_PAYLOAD)
    && (!t.cancelled ==>
          && t.sent <= t.asked
          && (!t.broken ==> t.sent + t.held + t.todo == t.asked)
          && (t.broken ==> !up || (fc && shut && t.held == [])))
  }

  /** How the stage of one end and the messages queued at it fit together. */
  ghost predicate StageOk(h: Half) {
    && (h.stage.Absent? ==> Fresh(h.st) && h.front == [] && h.back == [])
    && (!h.up ==> h.back == [])
    && (!h.stage.InQueue? ==> NoOpen(h.back))
    && (h.stage.InQueue? && h.up ==> h.back != [] && h.back[0].Open? && NoOpen(h.back[1..]))
  }

  /** What one end alone keeps. */
  ghost predicate HalfOk(fc: bool, h: Half) {
    && AskedOk(fc, h.up, h.st.shut, h.st.tx)
    && StageOk(h)
    && (h.st.rx.pending == [] ==> h.st.rx.consumed < WINDOW_THRESHOLD)
  }

  ghost predicate PairInv(fc: bool, o: Half, a: Half) {
    && HalfOk(fc, o) && HalfOk(fc, a)
    && OpenFirst(o, a)
    && Ordered(o, a) && Ordered(a, o)
    && (fc ==> Conserved(o, a) && Conserved(a, o))
  }

  // --- one event at one end --------------------------------------------------------------

  predicate Local(ev: Event) { !ev.Get? }

  lemma TotalOne(c: Bytes)
    ensures Total([c]) == |c|
  {
  }

  /** The messages an event adds to those under way. */
  function Queues(h: Half, ev: Event): seq<Message>
    requires ev.Emit? ==> h.st.tx.held != []
  {
    match ev
    case Create(_, _, payload) => [Open(payload)]
    case Emit => [Data(h.st.tx.held[0])]
    case Finish => Grants(h)
    case AskClose => [Close]
    case _ => []
  }

  lemma OutAfter(fc: bool, h: Half, ev: Event)
    requires Can(fc, h, ev) && Local(ev)
    ensures !ev.Cut? ==> Out(Next(fc, h, ev)) == Out(h) + Queues(h, ev)
    ensures ev.Cut? ==> Out(Next(fc, h, ev)) <= Out(h)
  {
    hide Chunks, StartOn, AcquireOn, CancelOn, FailOn, EmitOn, TakeOn, FinishOn, Grants;
    if ev.Write? { assert h.back == [h.back[0]] + h.back[1..]; }
  }

  lemma SumsAfter(fc: bool, h: Half, ev: Event)
    requires Can(fc, h, ev) && Local(ev)
    ensures var ms, ms' := Out(h), Out(Next(fc, h, ev));
            && (!ev.Cut? ==> Datas(ms') == Datas(ms) + Datas(Queues(h, ev))
                             && Credits(ms') == Credits(ms) + Credits(Queues(h, ev)))
            && (ev.Cut? ==> Datas(ms') <= Datas(ms) && Credits(ms') <= Credits(ms))
  {
    OutAfter(fc, h, ev);
    hide Next, Queues;
    if ev.Cut? {
      var keep := Out(Next(fc, h, ev));
      var rest := Out(h)[|keep|..];
      assert Out(h) == keep + rest;
      DatasAppend(keep, rest);
    } else {
      DatasAppend(Out(h), Queues(h, ev));
    }
  }

  lemma ChunksFit(kind: Kind, data: Bytes)
    requires Chunks(kind, data).Some?
    ensures forall c <- Chunks(kind, data).value :: |c| <= MAX_FRAME_PAYLOAD
  {
  }

  // Each change of a sending side keeps AskedOk, and makes or loses no credit.

  lemma StartKeeps(fc: bool, up: bool, shut: bool, t: Sender, cs: seq<Bytes>)
    requires AskedOk(fc, up, shut, t) && t.todo == [] && t.held == []
    requires forall c <- cs :: |c| <= MAX_FRAME_PAYLOAD
    ensures AskedOk(fc, up, shut, StartOn(t, cs)) && Credit0(StartOn(t, cs)) == Credit0(t)
  {
    if !t.cancelled && !t.broken { assert t.sent + t.held + t.todo == t.sent; }
  }

  lemma AcquireKeeps(fc: bool, up: bool, shut: bool, t: Sender)
    requires AskedOk(fc, up, shut, t) && CanAcquire(fc, shut, t)
    ensures AskedOk(fc, up, shut, AcquireOn(fc, t)) && AcquireOn(fc, t).sent == t.sent
    ensures fc ==> Credit0(AcquireOn(fc, t)) == Credit0(t)
  {
    TotalOne(t.todo[0]);
    assert t.todo == [t.todo[0]] + t.todo[1..];
  }

  lemma EmitKeeps(fc: bool, up: bool, shut: bool, t: Sender)
    requires AskedOk(fc, up, shut, t) && t.held != [] && up
    ensures AskedOk(fc, up, shut, EmitOn(t))
    ensures Credit0(EmitOn(t)) + |t.held[0]| == Credit0(t)
  {
    TotalOne(t.held[0]);
    assert t.held == [t.held[0]];
  }

  lemma CancelKeeps(fc: bool, up: bool, shut: bool, t: Sender)
    requires AskedOk(fc, up, shut, t)
    ensures AskedOk(fc, up, shut, CancelOn(t)) && Credit0(CancelOn(t)) == Credit0(t)
  {
  }

  lemma FailKeeps(fc: bool, up: bool, shut: bool, t: Sender)
    requires AskedOk(fc, up, shut, t) && MustFail(fc, shut, up, t)
    ensures AskedOk(fc, up, shut, FailOn(t))
    ensures Credit0(FailOn(t)) <= Credit0(t) && (up ==> Credit0(FailOn(t)) == Credit0(t))
  {
  }

  function Sum(r: Receiver): nat { Total(r.chan) + r.consumed }

  lemma TakeKeeps(fc: bool, r: Receiver)
    requires r.chan != [] && r.pending == []
    ensures TakenIn(TakeOn(fc, r)) == TakenIn(r)
    ensures fc ==> Sum(TakeOn(fc, r)) == Sum(r)
  {
    assert r.chan == [r.chan[0]] + r.chan[1..];
  }

  lemma FinishKeeps(h: Half)
    requires h.st.rx.consumed <= INIT_WINDOW
    ensures TakenIn(FinishOn(h.st.rx)) == TakenIn(h.st.rx)
    ensures Sum(FinishOn(h.st.rx)) + Credits(Grants(h)) <= Sum(h.st.rx)
    ensures h.up ==> Sum(FinishOn(h.st.rx)) + Credits(Grants(h)) == Sum(h.st.rx)
    ensures Datas(Grants(h)) == []
  {
  }

  /** How an event changes the sending side. */
  ghost predicate SenderFacts(fc: bool, h: Half, h': Half, queued: seq<Message>) {
    && AskedOk(fc, h'.up, h'.st.shut, h'.st.tx)
    && h'.st.tx.sent == h.st.tx.sent + Datas(queued)
    && (fc ==> Credit0(h'.st.tx) + Total(Datas(queued)) <= Credit0(h.st.tx))
    && (fc && h'.up ==> Credit0(h'.st.tx) + Total(Datas(queued)) == Credit0(h.st.tx))
  }

  lemma SenderAfterOwn(fc: bool, h: Half, ev: Event)
    requires Can(fc, h, ev) && HalfOk(fc, h)
    requires ev.Start? || ev.Grab? || ev.Emit? || ev.Cancel? || ev.Fail?
    ensures SenderFacts(fc, h, Next(fc, h, ev), Queues(h, ev))
  {
    hide Chunks;
    var t, up, shut := h.st.tx, h.up, h.st.shut;
    if ev.Emit? { TotalOne(t.held[0]); }
    hide AskedOk, Credit0, Total;
    if ev.Start? {
      ChunksFit(h.st.kind, ev.data);
      StartKeeps(fc, up, shut, t, Chunks(h.st.kind, ev.data).value);
    } else if ev.Grab? {
      AcquireKeeps(fc, up, shut, t);
    } else if ev.Emit? {
      EmitKeeps(fc, up, shut, t);
    } else if ev.Cancel? {
      CancelKeeps(fc, up, shut, t);
    } else {
      FailKeeps(fc, up, shut, t);
    }
    assert !ev.Emit? ==> Datas(Queues(h, ev)) == [];
    assert Total([]) == 0;
  }

  lemma SenderAfter(fc: bool, h: Half, ev: Event)
    requires Can(fc, h, ev) && Local(ev) && HalfOk(fc, h)
    ensures SenderFacts(fc, h, Next(fc, h, ev), Queues(h, ev))
  {
    if ev.Start? || ev.Grab? || ev.Emit? || ev.Cancel? || ev.Fail? {
      SenderAfterOwn(fc, h, ev);
    } else {
      hide Chunks, TakeOn, FinishOn, Credit0, StartOn, AcquireOn, EmitOn, CancelOn, FailOn;
      var h' := Next(fc, h, ev);
      assert ev.Create? ==> Fresh(h.st);
      assert h'.st.tx == h.st.tx && AskedOk(fc, h'.up, h'.st.shut, h.st.tx);
      assert Datas(Queues(h, ev)) == [];
    }
  }

  /** How an event changes the receiving side. */
  ghost predicate ReceiverFacts(fc: bool, h: Half, h': Half, queued: seq<Message>) {
    && TakenIn(h'.st.rx) == TakenIn(h.st.rx)
    && (h'.st.rx.pending == [] ==> h'.st.rx.consumed < WINDOW_THRESHOLD)
    && (fc && h.st.rx.consumed <= INIT_WINDOW ==> Sum(h'.st.rx) + Credits(queued) <= Sum(h.st.rx))
    && (fc && h.st.rx.consumed <= INIT_WINDOW && h'.up ==> Sum(h'.st.rx) + Credits(queued) == Sum(h.st.rx))
  }

  lemma ReceiverAfter(fc: bool, h: Half, ev: Event)
    requires Can(fc, h, ev) && Local(ev) && HalfOk(fc, h)
    ensures ReceiverFacts(fc, h, Next(fc, h, ev), Queues(h, ev))
  {
    if ev.Take? {
      TakeKeeps(fc, h.st.rx);
      hide TakeOn, TakenIn, Sum;
    } else if ev.Finish? {
      if h.st.rx.consumed <= INIT_WINDOW { FinishKeeps(h); }
      hide Sum;
    } else {
      hide Chunks, StartOn, AcquireOn, CancelOn, FailOn, EmitOn, AskedOk, Total;
      assert ev.Create? ==> Fresh(h.st);
      assert Next(fc, h, ev).st.rx == h.st.rx;
      assert Credits(Queues(h, ev)) == 0;
    }
    hide Total, Chunks, StartOn, AcquireOn, CancelOn, FailOn, EmitOn, AskedOk;
  }

  lemma StageAfter(fc: bool, h: Half, ev: Event)
    requires Can(fc, h, ev) && Local(ev) && StageOk(h)
    ensures StageOk(Next(fc, h, ev))
    ensures Intact(Next(fc, h, ev)) ==> Intact(h)
    ensures h.stage.Removed? ==> Next(fc, h, ev).stage.Removed?
  {
    hide Chunks, StartOn, AcquireOn, CancelOn, FailOn, EmitOn, TakeOn, FinishOn;
    if ev.Write? {
      hide NewStream;
    } else if ev.Emit? || ev.Finish? || ev.AskClose? {
      var h', q := Next(fc, h, ev), Queues(h, ev);
      assert h'.stage == h.stage && h'.up == h.up && h'.front == h.front && h'.back == h.back + q && !h.stage.Absent?;
      assert NoOpen(q) && (q != [] ==> h.up);
      hide Next, Queues, Can, NewStream;
      MoreQueued(h, h', q);
    } else {
      hide Grants;
    }
  }

  lemma MoreQueued(h: Half, h': Half, q: seq<Message>)
    requires StageOk(h) && !h.stage.Absent? && NoOpen(q) && (q != [] ==> h.up)
    requires h'.stage == h.stage && h'.up == h.up && h'.front == h.front && h'.back == h.back + q
    ensures StageOk(h')
  {
    hide NewStream;
    if h.back != [] { assert h'.back[1..] == h.back[1..] + q; }
  }

  lemma LocalKeepsHalf(fc: bool, h: Half, ev: Event)
    requires Can(fc, h, ev) && Local(ev) && HalfOk(fc, h)
    ensures HalfOk(fc, Next(fc, h, ev))
  {
    SenderAfter(fc, h, ev);
    ReceiverAfter(fc, h, ev);
    StageAfter(fc, h, ev);
    hide Next, Can, StageOk, AskedOk, Credit0, Sum, Total, Datas, Credits, TakenIn;
  }

  /** What an event does to the data of the two directions. */
  lemma DataAfter(fc: bool, h: Half, ev: Event)
    requires Can(fc, h, ev) && Local(ev) && HalfOk(fc, h)
    ensures var h' := Next(fc, h, ev);
            && TakenIn(h'.st.rx) == TakenIn(h.st.rx)
            && h'.st.tx.sent == h.st.tx.sent + Datas(Queues(h, ev))
            && (h'.up ==> h.up && !ev.Cut?) && (!h.up ==> Datas(Queues(h, ev)) == [])
            && (h.stage.Removed? ==> h'.stage.Removed?)
            && (!ev.Cut? ==> Datas(Out(h')) == Datas(Out(h)) + Datas(Queues(h, ev)))
            && (ev.Cut? ==> Datas(Out(h')) <= Datas(Out(h)) && Datas(Queues(h, ev)) == [])
  {
    SumsAfter(fc, h, ev);
    SenderAfter(fc, h, ev);
    ReceiverAfter(fc, h, ev);
    StageAfter(fc, h, ev);
    hide HalfOk, Out, TakenIn, Chunks, Total, StartOn, AcquireOn, CancelOn, FailOn, EmitOn, TakeOn, FinishOn, Grants;
  }

  /** The direction the end sends on: what it queued more of is under way. */
  lemma SendingKeepsOrder(h: Half, h': Half, g: Half, q: seq<Bytes>, cut: bool)
    requires Ordered(h, g) && h'.st.tx.sent == h.st.tx.sent + q && (h'.up ==> h.up && !cut) && (!h.up ==> q == [])
    requires if cut then q == [] && Datas(Out(h')) <= Datas(Out(h)) else Datas(Out(h')) == Datas(Out(h)) + q
    ensures Ordered(h', g)
  {
    var got, d, d' := TakenIn(g.st.rx), Datas(Out(h)), Datas(Out(h'));
    hide TakenIn, Datas, Out;
    assert got + (d + q) == (got + d) + q;
    if cut { assert got + d' <= got + d; }
  }

  lemma LocalKeepsOrder(fc: bool, h: Half, g: Half, ev: Event)
    requires Can(fc, h, ev) && Local(ev) && HalfOk(fc, h) && Ordered(h, g) && Ordered(g, h)
    ensures Ordered(Next(fc, h, ev), g) && Ordered(g, Next(fc, h, ev))
  {
    DataAfter(fc, h, ev);
    hide Next, Can, Queues, Datas, TakenIn, HalfOk, Out;
    SendingKeepsOrder(h, Next(fc, h, ev), g, Datas(Queues(h, ev)), ev.Cut?);
  }

  lemma SendSumAfter(h: Half, ev: Event)
    requires Can(true, h, ev) && Local(ev) && HalfOk(true, h)
    ensures var h' := Next(true, h, ev);
            SendSum(h') <= SendSum(h) && (h'.up ==> SendSum(h') == SendSum(h))
  {
    SumsAfter(true, h, ev);
    SenderAfter(true, h, ev);
    assert ev.Cut? ==> Datas(Queues(h, ev)) == [] && !Next(true, h, ev).up;
    hide Next, Can, Queues, Credit0, HalfOk, Datas, Credits, AskedOk;
    var d, d' := Datas(Out(h)), Datas(Out(Next(true, h, ev)));
    if ev.Cut? {
      assert d == d' + d[|d'|..];
      TotalAppend(d', d[|d'|..]);
    } else {
      TotalAppend(d, Datas(Queues(h, ev)));
    }
  }

  lemma RecvSumAfter(h: Half, ev: Event)
    requires Can(true, h, ev) && Local(ev) && HalfOk(true, h) && h.st.rx.consumed <= INIT_WINDOW
    ensures var h' := Next(true, h, ev);
            RecvSum(h') <= RecvSum(h) && (h'.up ==> RecvSum(h') == RecvSum(h))
  {
    SumsAfter(true, h, ev);
    ReceiverAfter(true, h, ev);
    assert ev.Cut? ==> Credits(Queues(h, ev)) == 0 && !Next(true, h, ev).up;
    hide Next, Can, Queues, HalfOk, Datas, Credits, Total, TakenIn;
  }

  lemma LocalKeepsBudget(h: Half, g: Half, ev: Event)
    requires Can(true, h, ev) && Local(ev) && HalfOk(true, h) && Conserved(h, g) && Conserved(g, h)
    ensures Conserved(Next(true, h, ev), g) && Conserved(g, Next(true, h, ev))
  {
    assert h.st.rx.consumed <= INIT_WINDOW by { hide SendSum, Total, Credits; }
    SendSumAfter(h, ev);
    RecvSumAfter(h, ev);
    StageAfter(true, h, ev);
    hide Next, Can, HalfOk, SendSum, RecvSum;
  }

  lemma LocalByOpener(fc: bool, o: Half, a: Half, ev: Event)
    requires Can(fc, o, ev) && Local(ev) && HalfOk(fc, o) && OpenFirst(o, a)
    ensures OpenFirst(Next(fc, o, ev), a)
  {
    hide AskedOk, Chunks, StartOn, AcquireOn, CancelOn, FailOn, EmitOn, TakeOn, FinishOn;
    if ev.Write? && !a.stage.Absent? {
      assert !o.back[0].Open?;
    }
  }

  lemma LocalByAcceptor(fc: bool, o: Half, a: Half, ev: Event)
    requires Can(fc, a, ev) && Local(ev) && HalfOk(fc, a) && OpenFirst(o, a) && !ev.Create?
    ensures OpenFirst(o, Next(fc, a, ev))
  {
    OutAfter(fc, a, ev);
    hide AskedOk, Chunks, StartOn, AcquireOn, CancelOn, FailOn, EmitOn, TakeOn, FinishOn;
  }

  // --- delivery of the oldest message from `s` to `r` ------------------------------------

  predicate CanDeliver(s: Half, r: Half) { s.front != [] && r.ears }

  function Sent(s: Half): Half
    requires s.front != []
  {
    s.(front := s.front[1..])
  }

  function Got(fc: bool, s: Half, r: Half, id: u32, refused: bool): Half
    requires s.front != []
  {
    GetOn(fc, r, s.front[0], id, refused)
  }

  lemma OutAfterSent(s: Half)
    requires s.front != []
    ensures s.front[0].Data? ==> Datas(Out(s)) == [s.front[0].chunk] + Datas(Out(Sent(s)))
    ensures !s.front[0].Data? ==> Datas(Out(s)) == Datas(Out(Sent(s)))
    ensures Credits(Out(s)) == (if s.front[0].Credit? then s.front[0].amount else 0) + Credits(Out(Sent(s)))
  {
    assert Out(s)[1..] == Out(Sent(s));
  }

  /** A receiver that does not know the stream can only be handed its OPEN. */
  predicate MeetsOpen(s: Half, r: Half) {
    && (s.front != [] ==> (s.front[0].Open? <==> r.stage.Absent?))
    && !(s.front != [] && r.stage.InQueue?)
  }

  /** What a delivered message does to its receiver. */
  ghost predicate GotFacts(fc: bool, r: Half, r': Half, m: Message) {
    && Out(r') == Out(r) && r'.up == r.up && r'.st.tx.sent == r.st.tx.sent
    && (Intact(r') ==> Intact(r))
    && (r.stage.Removed? ==> r'.stage.Removed?)
    && (m.Data? && !r'.stage.Removed? ==> r'.st.rx == PushOn(r.st.rx, m.chunk))
    && (m.Data? && r'.stage.Removed? ==> r'.st.rx == r.st.rx)
    && (!m.Data? ==> r'.st.rx == r.st.rx)
    && (m.Credit? && !r'.stage.Removed? ==> r'.st.tx == GrantOn(fc, r.st.tx, m.amount))
    && (m.Credit? && r'.stage.Removed? ==> r'.st.tx == r.st.tx)
    && (!m.Credit? ==> r'.st.tx == r.st.tx)
  }

  lemma GotMeans(fc: bool, s: Half, r: Half, id: u32, refused: bool)
    requires CanDeliver(s, r) && MeetsOpen(s, r) && HalfOk(fc, r)
    ensures GotFacts(fc, r, Got(fc, s, r, id, refused), s.front[0])
  {
    hide ParseTarget, Overflows, Total, AskedOk, NoOpen;
  }

  lemma GrantKeepsAsked(fc: bool, up: bool, shut: bool, t: Sender, n: nat)
    requires AskedOk(fc, up, shut, t)
    ensures AskedOk(fc, up, true, t) && AskedOk(fc, up, shut, GrantOn(fc, t, n))
  {
  }

  lemma FreshIsOk(fc: bool, up: bool, id: u32, kind: Kind)
    ensures var s := NewStream(id, kind);
            AskedOk(fc, up, s.shut, s.tx) && s.rx.pending == [] && s.rx.consumed == 0
  {
  }

  lemma GotKeepsStage(fc: bool, s: Half, r: Half, id: u32, refused: bool)
    requires CanDeliver(s, r) && MeetsOpen(s, r) && StageOk(r)
    ensures StageOk(Got(fc, s, r, id, refused))
  {
    hide ParseTarget, Overflows, NoOpen, GrantOn, PushOn;
  }

  predicate RecvOk(h: Half) { h.st.rx.pending == [] ==> h.st.rx.consumed < WINDOW_THRESHOLD }

  lemma GotKeepsAsked(fc: bool, s: Half, r: Half, id: u32, refused: bool)
    requires CanDeliver(s, r) && AskedOk(fc, r.up, r.st.shut, r.st.tx) && RecvOk(r)
    ensures var r' := Got(fc, s, r, id, refused);
            AskedOk(fc, r'.up, r'.st.shut, r'.st.tx) && RecvOk(r')
  {
    hide AskedOk, NewStream, ParseTarget, Overflows, GrantOn;
    match s.front[0]
    case Open(target) => FreshIsOk(fc, r.up, id, ParseTarget(target).0);
    case Credit(n) => GrantKeepsAsked(fc, r.up, r.st.shut, r.st.tx, n);
    case _ => GrantKeepsAsked(fc, r.up, r.st.shut, r.st.tx, 0);
  }

  lemma GotKeepsHalf(fc: bool, s: Half, r: Half, id: u32, refused: bool)
    requires CanDeliver(s, r) && MeetsOpen(s, r) && HalfOk(fc, r)
    ensures HalfOk(fc, Got(fc, s, r, id, refused))
  {
    GotKeepsAsked(fc, s, r, id, refused);
    GotKeepsStage(fc, s, r, id, refused);
    hide Got, StageOk, AskedOk;
  }

  /** From `s` to `r`: the chunk moves from those under way to those taken in, or is dropped. */
  lemma DeliverMovesData(s: Half, r: Half, r': Half, fc: bool)
    requires s.front != [] && GotFacts(fc, r, r', s.front[0]) && Ordered(s, r)
    ensures Ordered(Sent(s), r')
  {
    OutAfterSent(s);
    hide Datas, Credits, GrantOn;
    if s.front[0].Data? && !r'.stage.Removed? {
      assert TakenIn(r'.st.rx) == TakenIn(r.st.rx) + [s.front[0].chunk];
      assert TakenIn(r.st.rx) + Datas(Out(s)) == TakenIn(r'.st.rx) + Datas(Out(Sent(s)));
    }
    hide Out, TakenIn;
  }

  lemma DeliverKeepsOrder(fc: bool, s: Half, r: Half, id: u32, refused: bool)
    requires CanDeliver(s, r) && MeetsOpen(s, r) && HalfOk(fc, r) && Ordered(s, r) && Ordered(r, s)
    ensures Ordered(Sent(s), Got(fc, s, r, id, refused))
    ensures Ordered(Got(fc, s, r, id, refused), Sent(s))
  {
    GotMeans(fc, s, r, id, refused);
    hide HalfOk, Datas, Got, GrantOn, PushOn, TakenIn;
    DeliverMovesData(s, r, Got(fc, s, r, id, refused), fc);
  }

  /** The credit granted is the credit sent: the MAX_CREDIT clamp never cuts it. */
  lemma DeliverKeepsBudget(s: Half, r: Half, id: u32, refused: bool)
    requires CanDeliver(s, r) && MeetsOpen(s, r) && HalfOk(true, r) && Conserved(s, r) && Conserved(r, s)
    ensures Conserved(Sent(s), Got(true, s, r, id, refused))
    ensures Conserved(Got(true, s, r, id, refused), Sent(s))
    ensures s.front[0].Credit? ==> s.front[0].amount <= MAX_CREDIT
  {
    GotMeans(true, s, r, id, refused);
    OutAfterSent(s);
    if s.front[0].Data? {
      var chunk := s.front[0].chunk;
      TotalAppend([chunk], Datas(Out(Sent(s))));
      TotalAppend(r.st.rx.chan, [chunk]);
      TotalOne(chunk);
    }
    hide HalfOk, GetOn, Datas, Credits, Got;
    var s', r' := Sent(s), Got(true, s, r, id, refused);
    assert SendSum(s') + RecvSum(r') <= Budget(s, r);
  }

  lemma DeliverToAcceptor(fc: bool, o: Half, a: Half, id: u32, refused: bool)
    requires CanDeliver(o, a) && OpenFirst(o, a)
    ensures MeetsOpen(o, a)
    ensures OpenFirst(Sent(o), Got(fc, o, a, id, refused))
  {
    hide ParseTarget, Overflows, GrantOn, PushOn;
    if a.stage.Absent? {
      assert o.front[0].Open?;
    } else {
      assert forall m <- o.front[1..] :: m in o.front;
    }
  }

  lemma DeliverToOpener(fc: bool, o: Half, a: Half, id: u32, refused: bool)
    requires CanDeliver(a, o) && OpenFirst(o, a)
    ensures MeetsOpen(a, o)
    ensures OpenFirst(Got(fc, a, o, id, refused), Sent(a))
  {
    hide ParseTarget, Overflows, GrantOn, PushOn;
    assert a.front[0] in Out(a);
    assert forall m <- Out(Sent(a)) :: m in Out(a);
  }

  // --- the two ends together -------------------------------------------------------------

  lemma OpenerStep(fc: bool, o: Half, a: Half, ev: Event)
    requires PairInv(fc, o, a) && Can(fc, o, ev) && Local(ev)
    ensures PairInv(fc, Next(fc, o, ev), a)
  {
    hide HalfOk, OpenFirst, Ordered, Conserved, Next, Can;
    LocalKeepsHalf(fc, o, ev);
    LocalByOpener(fc, o, a, ev);
    LocalKeepsOrder(fc, o, a, ev);
    if fc { LocalKeepsBudget(o, a, ev); }
  }

  lemma AcceptorStep(fc: bool, o: Half, a: Half, ev: Event)
    requires PairInv(fc, o, a) && Can(fc, a, ev) && Local(ev) && !ev.Create?
    ensures PairInv(fc, o, Next(fc, a, ev))
  {
    hide HalfOk, OpenFirst, Ordered, Conserved, Next, Can;
    LocalKeepsHalf(fc, a, ev);
    LocalByAcceptor(fc, o, a, ev);
    LocalKeepsOrder(fc, a, o, ev);
    if fc { LocalKeepsBudget(a, o, ev); }
  }

  lemma SentKeepsHalf(fc: bool, s: Half)
    requires HalfOk(fc, s) && s.front != []
    ensures HalfOk(fc, Sent(s))
  {
    hide AskedOk;
  }

  lemma AcceptorGets(fc: bool, o: Half, a: Half, id: u32, refused: bool)
    requires PairInv(fc, o, a) && CanDeliver(o, a)
    ensures PairInv(fc, Sent(o), Got(fc, o, a, id, refused))
  {
    hide HalfOk, OpenFirst, Ordered, Conserved, Got, Sent, MeetsOpen;
    DeliverToAcceptor(fc, o, a, id, refused);
    SentKeepsHalf(fc, o);
    GotKeepsHalf(fc, o, a, id, refused);
    DeliverKeepsOrder(fc, o, a, id, refused);
    if fc { DeliverKeepsBudget(o, a, id, refused); }
  }

  lemma OpenerGets(fc: bool, o: Half, a: Half, id: u32, refused: bool)
    requires PairInv(fc, o, a) && CanDeliver(a, o)
    ensures PairInv(fc, Got(fc, a, o, id, refused), Sent(a))
  {
    hide HalfOk, OpenFirst, Ordered, Conserved, Got, Sent, MeetsOpen;
    DeliverToOpener(fc, o, a, id, refused);
    SentKeepsHalf(fc, a);
    GotKeepsHalf(fc, a, o, id, refused);
    DeliverKeepsOrder(fc, a, o, id, refused);
    if fc { DeliverKeepsBudget(a, o, id, refused); }
  }

  // --- what the invariants give a caller --------------------------------------------------

  /** With nothing in transit, buffered or owed, all the credit is back at the sender, but for what
      the receiver has taken and need not re-grant yet, and what cancelled sends have leaked. */
  lemma NothingInTransitMeansCredit(s: Half, r: Half)
    requires Conserved(s, r) && HalfOk(true, r) && Intact(s) && Intact(r)
    requires s.st.tx.held == [] && Datas(Out(s)) == []
    requires r.st.rx.chan == [] && r.st.rx.pending == [] && Credits(Out(r)) == 0
    ensures s.st.tx.permits + s.st.tx.leaked > INIT_WINDOW - WINDOW_THRESHOLD
  {
  }

  /** The byte guard cannot fire between compliant ends: only a full channel or a dropped
      stream resets. */
  lemma ByteGuardNeverFires(s: Half, r: Half)
    requires Conserved(s, r) && r.st.rx.buffered == Total(r.st.rx.chan)
    requires s.front != [] && s.front[0].Data?
    ensures r.st.rx.buffered + |s.front[0].chunk| <= INIT_WINDOW < MAX_BUFFERED
  {
    OutAfterSent(s);
    var chunk := s.front[0].chunk;
    TotalAppend([chunk], Datas(Out(Sent(s))));
    TotalOne(chunk);
  }
}
