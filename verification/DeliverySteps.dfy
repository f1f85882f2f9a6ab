/**
 What whole handlers do when nothing runs in between: the single effects of the delivery machine compose
 into SendText, a flush of the outbox, and the relay's handling of one frame.
 */
module DeliverySteps {
  import opened Wire
  import opened ClientTables
  import opened OfflineQueue
  import opened Delivery
  import Registry
  import opened Seqs

  // --- SendText ------------------------------------------------------------------------

  /** The client after the steps of one SendText call. */
  ghost function SendTextSteps(c: Client, id: MsgId, to: DeviceId, text: string, o: Outcome): Client
    requires to in c.peers
  {
    var begun := BeginC(c, id, to, text);
    var wrote := WriteC(begun, id, begun.sends[id], o);
    var ready := if wrote.sends[id].Unsent? then StashC(wrote, id, wrote.sends[id]) else wrote;
    RecordC(ready, id, ready.sends[id])
  }

  /** Uninterrupted, the steps leave what SendText promises: written or stashed, never both, and one row. */
  lemma SendTextComposes(c: Client, id: MsgId, to: DeviceId, text: string, o: Outcome)
    requires to in c.peers && id !in c.sends
    ensures var r := SendTextSteps(c, id, to, text, o);
      && r.history == InsertMessage(c.history, Message(id, to, Out, text, if o == Written then Sent else Queued))
      && r.outbox == (if o == Written then c.outbox
                      else EnqueueOutbox(c.outbox, OutboxRow(id, to, Seal(Text(text), c.key, c.peers[to]))))
      && r.sends == c.sends && r.reader == c.reader && r.peers == c.peers
  {
    var r := SendTextSteps(c, id, to, text, o);
    assert r.sends == c.sends;
  }

  // --- flushOutbox -------------------------------------------------------------------------

  /** The first row sent, deleted and marked. */
  ghost function FlushRow(c: Client): Client
    requires c.reader.Flushing? && c.reader.rows != []
  {
    var row := c.reader.rows[0];
    MarkedC(DeletedC(SentC(c, Written), row), row)
  }

  lemma FlushRowComposes(c: Client)
    requires c.reader.Flushing? && c.reader.phase == AtSend && c.reader.rows != []
    requires c.outbox == c.reader.rows && UniqueIds(c.outbox)
    ensures var row, r := c.reader.rows[0], FlushRow(c);
      && r.reader == c.reader.(rows := c.reader.rows[1..]) && r.outbox == c.outbox[1..]
      && r.history == SetState(c.history, row.msgId, row.peer, Out, Sent)
      && r.peers == c.peers && r.sends == c.sends
  {
    DeleteHead(c.outbox);
  }

  /** The client is flushing its whole outbox and about to send the next row. */
  ghost predicate AtRow(c: Client) {
    c.reader.Flushing? && c.reader.phase == AtSend && c.outbox == c.reader.rows && UniqueIds(c.outbox)
  }

  /** `n` rows, one after the other. */
  ghost function FlushRows(c: Client, n: nat): (r: Client)
    requires AtRow(c) && n <= |c.outbox|
    ensures AtRow(r) && r.outbox == c.outbox[n..] && r.reader.conn == c.reader.conn
    ensures r.peers == c.peers && r.sends == c.sends && r.key == c.key
  {
    if n == 0 then c
    else
      var r := FlushRows(c, n - 1);
      FlushRowComposes(r);
      FlushRow(r)
  }

  /**
   Uninterrupted, the steps of a flush that gets `n` rows out leave what flushOutbox promises: those rows
   off the front of the outbox and marked as sent, the others in place.
   */
  lemma {:induction false} FlushComposes(c: Client, n: nat)
    requires AtRow(c) && n <= |c.outbox|
    ensures FlushRows(c, n).history == MarkSent(c.history, c.outbox[..n])
  {
    if n > 0 {
      FlushComposes(c, n - 1);
      FlushRowComposes(FlushRows(c, n - 1));
      assert c.outbox[..n][..n - 1] == c.outbox[..n - 1];
    }
  }

  // --- one frame from the relay ---------------------------------------------------------------

  /** A message read and acknowledged: what is owed is read and sent, with no one in between. */
  ghost function Answered(w: World, d: DeviceId, i: nat, o: Outcome): World
    requires CanServe(w, d, Receive(i)) && CanPlace(w, i, o)
  {
    var read := Next(w, Serving(d, Receive(i)));
    if read.clients[d].reader.AckDue? then Next(read, Serving(d, SendAck(o))) else read
  }

  /**
   Uninterrupted, the steps for one message leave what HandleIncoming promises: its history, and one ack to
   its sender. The ack is for an unread message exactly when the box is not a text sealed between the known
   sender and this client.
   */
  lemma IncomingComposes(w: World, d: DeviceId, i: nat, o: Outcome)
    requires CanServe(w, d, Receive(i)) && CanPlace(w, i, o) && w.conns[i].down[0].Msg? && w.conns[i].down[0].from != ""
    ensures var c, f, r := w.clients[d], w.conns[i].down[0], Answered(w, d, i, o);
      && d in r.clients && r.clients[d].reader == Listening
      && r.clients[d].history == Incoming(c.history, c.peers, c.key, f.from, f.msgId, f.box)
      && r.clients[d].outbox == c.outbox && r.clients[d].sends == c.sends
      && r.conns == PlaceUp(w.conns[i := w.conns[i].(down := w.conns[i].down[1..])], i, Ack(f.msgId, f.from), o)
      && r.queue == w.queue && r.registry == w.registry
    ensures var c, f := w.clients[d], w.conns[i].down[0];
      Next(w, Serving(d, Receive(i))).clients[d].reader.unread <==>
        !(f.from in c.peers && f.box.inner.Text? && {f.box.sealer, f.box.opener} == {c.peers[f.from], c.key})
  {
    var c, f := w.clients[d], w.conns[i].down[0];
    if f.from in c.peers {
      var k := c.peers[f.from];
      assert f.box == Box(k, c.key, f.box.inner) || f.box == Box(c.key, k, f.box.inner)
        <==> {f.box.sealer, f.box.opener} == {k, c.key};
    }
  }

  /** Uninterrupted, the steps for one complete ack leave what HandleAck promises. */
  lemma AckComposes(w: World, d: DeviceId, i: nat)
    requires CanServe(w, d, Receive(i)) && w.conns[i].down[0].Ack?
    requires w.conns[i].down[0].msgId != "" && w.conns[i].down[0].peer != ""
    ensures var c, f, read := w.clients[d], w.conns[i].down[0], Next(w, Serving(d, Receive(i)));
      && CanServe(read, d, AckMark)
      && var r := Next(read, Serving(d, AckMark)).clients[d];
      && r.outbox == DeleteOutbox(c.outbox, f.msgId) && r.reader == Listening && r.sends == c.sends
      && r.history == SetState(c.history, f.msgId, f.peer, Out, Delivered)
  {
  }

  // --- what surrounds the handlers ------------------------------------------------------------------

  /** A cut keeps what is already on its way in either direction up to some point; expiry takes the old rows alone. */
  lemma CutAndExpire(w: World, i: nat, nUp: nat, nDown: nat, retention: int, now: int)
    ensures CanRelay(w, Cut(i, nUp, nDown)) ==>
      var c, r := w.conns[i], NextRelay(w, Cut(i, nUp, nDown));
      && r.queue == w.queue && r.registry == w.registry && |r.conns| == |w.conns| && !r.conns[i].open
      && r.conns[i].up == c.up[..nUp] && r.conns[i].down == c.down[..nDown]
      && forall j :: 0 <= j < |w.conns| && j != i ==> r.conns[j] == w.conns[j]
    ensures var r := NextRelay(w, Expire(retention, now));
      && r.conns == w.conns && r.registry == w.registry
      && forall x :: x in r.queue.rows <==> x in w.queue.rows && (retention <= 0 || x.at >= now - retention)
  {
    if retention > 0 { FilterMember(w.queue.rows, (x: Row) => x.at >= now - retention); }
  }

  // --- the registry -----------------------------------------------------------------------------

  /** The machine's registry steps are addConn, which closes the connection it displaces, and removeConn. */
  lemma RegistryComposes(w: World, i: nat)
    requires i < |w.conns| && w.conns[i].device in w.registry ==> w.registry[w.conns[i].device] < |w.conns|
    requires i < |w.conns|
    ensures var added := Registry.Apply(Registry.State(w.registry, {}), Registry.Added(w.conns[i].device, i));
      var r := NextRelay(w, Register(i));
      && r.registry == added.entries && |r.conns| == |w.conns|
      && forall j :: 0 <= j < |w.conns| ==> r.conns[j] == if j in added.closed then w.conns[j].(open := false) else w.conns[j]
    ensures NextRelay(w, Unregister(i)).conns == w.conns
    ensures NextRelay(w, Unregister(i)).registry ==
      Registry.Apply(Registry.State(w.registry, {}), Registry.Removed(w.conns[i].device, i)).entries
  {
  }

  // --- the drain after readiness ----------------------------------------------------------------

  /** The frames whose sends succeed. */
  function Passed(fs: seq<Frame>, oks: seq<bool>): seq<Frame>
    requires |fs| <= |oks|
  {
    if fs == [] then [] else Passed(fs[..|fs| - 1], oks) + if oks[|fs| - 1] then [fs[|fs| - 1]] else []
  }

  /** How many of the first `n` sends succeed. */
  function Trues(oks: seq<bool>, n: nat): nat
    requires n <= |oks|
  {
    if n == 0 then 0 else Trues(oks, n - 1) + if oks[n - 1] then 1 else 0
  }

  /** The frames that pass keep their order: each stands behind those that passed before it. */
  lemma {:induction false} PassedAt(fs: seq<Frame>, oks: seq<bool>, k: nat)
    requires k < |fs| <= |oks| && oks[k]
    ensures |Passed(fs, oks)| == Trues(oks, |fs|) && Trues(oks, k) < Trues(oks, |fs|)
    ensures Passed(fs, oks)[Trues(oks, k)] == fs[k]
  {
    var n := |fs| - 1;
    PassedLength(fs, oks);
    PassedLength(fs[..n], oks);
    if k < n { PassedAt(fs[..n], oks, k); }
  }

  lemma {:induction false} PassedLength(fs: seq<Frame>, oks: seq<bool>)
    requires |fs| <= |oks|
    ensures |Passed(fs, oks)| == Trues(oks, |fs|)
  {
    if fs != [] { PassedLength(fs[..|fs| - 1], oks); }
  }

  lemma {:induction false} AllPass(fs: seq<Frame>, oks: seq<bool>)
    requires |fs| <= |oks| && forall k :: 0 <= k < |oks| ==> oks[k]
    ensures Passed(fs, oks) == fs
  {
    if fs != [] { AllPass(fs[..|fs| - 1], oks); }
  }

  /** The drain's start and its first `n` sends. */
  ghost function Drained(w: World, i: nat, oks: seq<bool>, n: nat): World
    requires CanRelay(w, DrainStart(i)) && w.conns[i].open
    requires n <= |DrainFrames(w.queue, w.conns[i].device)| <= |oks|
    ensures var c, fs := w.conns[i], DrainFrames(w.queue, w.conns[i].device);
      Drained(w, i, oks, n) == w.(conns := w.conns[i := c.(draining := fs[n..], down := c.down + Passed(fs[..n], oks))])
  {
    var c, fs := w.conns[i], DrainFrames(w.queue, w.conns[i].device);
    if n == 0 then
      assert fs[0..] == fs && c.down + Passed(fs[..0], oks) == c.down;
      NextRelay(w, DrainStart(i))
    else
      var r := Drained(w, i, oks, n - 1);
      assert fs[..n][..n - 1] == fs[..n - 1] && fs[n - 1..][1..] == fs[n..] && fs[..n][n - 1] == fs[n - 1];
      NextRelay(r, DrainSend(i, oks[n - 1]))
  }

  /**
   Uninterrupted, the drain of a ready connection leaves what SendQueued promises: the queued messages whose
   sends succeed, in order, and a queue that still holds them all.
   */
  lemma DrainComposes(w: World, i: nat, oks: seq<bool>)
    requires CanRelay(w, DrainStart(i)) && w.conns[i].open && |DrainFrames(w.queue, w.conns[i].device)| <= |oks|
    ensures var c, fs := w.conns[i], DrainFrames(w.queue, w.conns[i].device);
      var r := Drained(w, i, oks, |fs|);
      && |r.conns| == |w.conns| && r.queue == w.queue
      && r.conns[i].draining == [] && r.conns[i].down == c.down + Passed(fs, oks)
      && forall j :: 0 <= j < |w.conns| && j != i ==> r.conns[j] == w.conns[j]
  {
    var fs := DrainFrames(w.queue, w.conns[i].device);
    assert fs[..|fs|] == fs;
  }

  // --- the relay's handler of one frame -----------------------------------------------------

  /** Read, look up, then hand over or store, with no one in between. */
  ghost function Handled(w: World, i: nat, ok: bool, cap: int, now: int): World
    requires i < |w.conns| && w.conns[i].handler.Idle? && w.conns[i].up != []
  {
    var read := NextRelay(w, Read(i, true));
    if !CanRelay(read, Lookup(i)) then read
    else
      var found := NextRelay(read, Lookup(i));
      if CanRelay(found, HandOver(i, ok)) then NextRelay(found, HandOver(i, ok))
      else if CanRelay(found, EnqueueMsg(i, cap, now)) then NextRelay(found, EnqueueMsg(i, cap, now))
      else found
  }

  /** A message the relay takes on: complete, and for an active device. */
  predicate Takes(w: World, c: Conn, f: Frame) {
    c.ready && f.Msg? && f.to != "" && f.msgId != "" && f.to in w.active
  }

  /** What the addressee's connection gets of a frame meant for it. */
  function Push(online: bool, ok: bool, f: Frame): seq<Frame> { if online && ok then [f] else [] }

  /** The queue after a message the relay takes on: untouched if the addressee is online. */
  ghost function QueueAfter(online: bool, q: Table, from: DeviceId, to: DeviceId, id: MsgId, box: Box, cap: int, now: int): Table {
    if online then q else Enqueue(q, to, QueuedMsg(from, id, box), cap, now)
  }

  /** What connection `j` gets when `f` is pushed to device `d`. */
  ghost function Pushed(w: World, d: DeviceId, f: Frame, ok: bool, j: nat): seq<Frame> {
    if d in w.registry && j == w.registry[d] && j < |w.conns| && w.conns[j].ready then Push(true, ok, f) else []
  }

  lemma MessageIsRouted(w: World, i: nat)
    requires i < |w.conns| && w.conns[i].handler.Idle? && w.conns[i].up != [] && Takes(w, w.conns[i], w.conns[i].up[0])
    ensures var f, c := w.conns[i].up[0], w.conns[i];
      NextRelay(w, Read(i, true)) ==
        w.(conns := w.conns[i := c.(up := c.up[1..], handler := Route(Msg(c.device, f.to, f.msgId, f.box)))])
  {
    var f, c := w.conns[i].up[0], w.conns[i];
    var routed := c.(up := c.up[1..], handler := Route(Msg(c.device, f.to, f.msgId, f.box)));
    assert NextRelay(w, Read(i, true)).conns == w.conns[i := routed];
  }

  /**
   A message the relay takes on goes one way only: pushed to the recipient's current ready connection
   under the sender's own id, or, when there is none, into the queue; a push that fails drops it.
   */
  lemma MessageGoesOneWay(w: World, i: nat, ok: bool, cap: int, now: int)
    requires i < |w.conns| && w.conns[i].handler.Idle? && w.conns[i].up != []
    requires Takes(w, w.conns[i], w.conns[i].up[0])
    requires IsOnline(w, w.conns[i].up[0].to) && ok ==> w.conns[w.registry[w.conns[i].up[0].to]].open
    ensures var f, r := w.conns[i].up[0], Handled(w, i, ok, cap, now);
      var stamped := Msg(w.conns[i].device, f.to, f.msgId, f.box);
      && |r.conns| == |w.conns| && r.conns[i].handler.Idle? && r.conns[i].up == w.conns[i].up[1..]
      && (forall j :: 0 <= j < |w.conns| ==> r.conns[j].down == w.conns[j].down + Pushed(w, f.to, stamped, ok, j))
      && r.queue == QueueAfter(IsOnline(w, f.to), w.queue, stamped.from, f.to, f.msgId, f.box, cap, now)
  {
    MessageIsRouted(w, i);
    var f, read := w.conns[i].up[0], NextRelay(w, Read(i, true));
    assert IsOnline(read, f.to) == IsOnline(w, f.to);
  }

  /** What the relay does not take on leaves the queue and every connection's frames as they are. */
  lemma RefusedGoesNowhere(w: World, i: nat, ok: bool, cap: int, now: int)
    requires i < |w.conns| && w.conns[i].handler.Idle? && w.conns[i].up != []
    requires var c, f := w.conns[i], w.conns[i].up[0];
      !c.ready || f.msgId == "" || (f.Msg? && (f.to == "" || f.to !in w.active)) || (f.Ack? && f.peer == "")
    ensures var r := Handled(w, i, ok, cap, now);
      r == w.(conns := w.conns[i := w.conns[i].(up := w.conns[i].up[1..])])
  {
  }

  /**
   An ack takes the acknowledger's own copy out of the queue, and is passed on, under the acknowledger's
   id, only to the sender's current ready connection.
   */
  lemma AckPurgesAndPasses(w: World, i: nat, ok: bool, cap: int, now: int)
    requires i < |w.conns| && w.conns[i].handler.Idle? && w.conns[i].up != []
    requires w.conns[i].ready && w.conns[i].up[0].Ack? && w.conns[i].up[0].msgId != "" && w.conns[i].up[0].peer != ""
    requires IsOnline(w, w.conns[i].up[0].peer) && ok ==> w.conns[w.registry[w.conns[i].up[0].peer]].open
    ensures var f, r := w.conns[i].up[0], Handled(w, i, ok, cap, now);
      && |r.conns| == |w.conns| && r.conns[i].handler.Idle? && r.conns[i].up == w.conns[i].up[1..]
      && r.queue == AckQueued(w.queue, w.conns[i].device, f.peer, f.msgId)
      && (forall j :: 0 <= j < |w.conns| ==>
            r.conns[j].down == w.conns[j].down + Pushed(w, f.peer, Ack(f.msgId, w.conns[i].device), ok, j))
  {
  }
}
