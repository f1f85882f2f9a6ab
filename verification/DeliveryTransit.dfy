/**
 Between the sender's write and the recipient: in every run a message that left on some connection is still
 under way, has been taken by its recipient, or met one of a few named steps that lose or discard a copy.
 */
module DeliveryTransit {
  import opened Wire
  import opened ClientTables
  import opened OfflineQueue
  import opened Delivery
  import opened DeliverySafety
  import opened DeliveryConservation

  // --- where a copy can be -------------------------------------------------------------

  predicate Carries(f: Frame, id: MsgId) { f.Msg? && f.msgId == id }

  ghost predicate Among(fs: seq<Frame>, id: MsgId) {
    exists k :: 0 <= k < |fs| && Carries(fs[k], id)
  }

  predicate Handles(h: Handler, id: MsgId) { !h.Idle? && Carries(h.frame, id) }

  ghost predicate OnConn(c: Conn, id: MsgId) {
    Among(c.up, id) || Among(c.down, id) || Among(c.draining, id) || Handles(c.handler, id)
  }

  ghost predicate OnSome(conns: seq<Conn>, id: MsgId) {
    exists i :: 0 <= i < |conns| && OnConn(conns[i], id)
  }

  ghost predicate InQueue(q: Table, id: MsgId) {
    exists row :: row in q.rows && row.msg.msgId == id
  }

  ghost predicate InTransit(w: World, id: MsgId) { OnSome(w.conns, id) || InQueue(w.queue, id) }

  // --- where a copy can end ------------------------------------------------------------

  /** The relay takes on only complete messages for active devices, of a ready connection within its rate. */
  predicate Admitted(w: World, c: Conn, f: Frame, admitted: bool) {
    admitted && c.ready && f.Msg? && f.to != "" && f.msgId != "" && f.to in w.active
  }

  /** A frame of the message goes with its connection, is refused, or is not sent on. */
  ghost predicate FrameLost(w: World, x: RelayStep, id: MsgId)
    requires CanRelay(w, x)
  {
    match x
    case Cut(i, u, n) => Among(w.conns[i].up[u..], id) || Among(w.conns[i].down[n..], id)
    case Read(i, admitted) => Carries(w.conns[i].up[0], id) && !Admitted(w, w.conns[i], w.conns[i].up[0], admitted)
    case HandOver(i, ok) => !ok && Carries(w.conns[i].handler.frame, id)
    case DrainSend(i, ok) => !ok && Carries(w.conns[i].draining[0], id)
    case _ => false
  }

  /** A queued copy goes: by its age, to make room, or for its recipient's ack. */
  ghost predicate RowGoes(w: World, x: RelayStep, id: MsgId) {
    exists row :: row in w.queue.rows && row.msg.msgId == id && MayRemove(w, x, row)
  }

  /** The recipient's client takes a frame of the message off its connection. */
  ghost predicate TakenAt(w: World, a: Action, id: MsgId) {
    match a
    case Serving(d, Receive(i)) => CanServe(w, d, a.r) && Carries(w.conns[i].down[0], id)
    case _ => false
  }

  ghost predicate EndsAt(w: World, a: Action, id: MsgId) {
    TakenAt(w, a, id) || (a.Relaying? && CanRelay(w, a.x) && (FrameLost(w, a.x, id) || RowGoes(w, a.x, id)))
  }

  // --- sequences of frames -----------------------------------------------------------------

  lemma AmongSplit(fs: seq<Frame>, k: nat, id: MsgId)
    requires k <= |fs| && Among(fs, id)
    ensures Among(fs[..k], id) || Among(fs[k..], id)
  {
    var j :| 0 <= j < |fs| && Carries(fs[j], id);
    if j < k { assert fs[..k][j] == fs[j]; } else { assert fs[k..][j - k] == fs[j]; }
  }

  lemma AmongHead(fs: seq<Frame>, id: MsgId)
    requires fs != [] && Among(fs, id)
    ensures Carries(fs[0], id) || Among(fs[1..], id)
  {
    AmongSplit(fs, 1, id);
  }

  lemma AmongAppend(fs: seq<Frame>, f: Frame, id: MsgId)
    ensures Among(fs, id) || Carries(f, id) ==> Among(fs + [f], id)
  {
    var all := fs + [f];
    assert all[|fs|] == f;
    if Among(fs, id) {
      var j :| 0 <= j < |fs| && Carries(fs[j], id);
      assert all[j] == fs[j];
    }
  }

  /** Replacing one connection by another that still has its copy. */
  lemma ReplaceKeeps(conns: seq<Conn>, i: nat, c: Conn, id: MsgId)
    requires i < |conns| && OnSome(conns, id) && (OnConn(conns[i], id) ==> OnConn(c, id))
    ensures OnSome(conns[i := c], id)
  {
    var j :| 0 <= j < |conns| && OnConn(conns[j], id);
    assert OnConn(conns[i := c][j], id);
  }

  lemma ReplaceGives(conns: seq<Conn>, i: nat, c: Conn, id: MsgId)
    requires i < |conns| && OnConn(c, id)
    ensures OnSome(conns[i := c], id)
  {
    assert OnConn(conns[i := c][i], id);
  }

  lemma PushDownKeeps(w: World, i: nat, f: Frame, ok: bool, id: MsgId)
    requires i < |w.conns|
    ensures OnSome(w.conns, id) || (ok && Carries(f, id)) ==> OnSome(PushDown(w, i, f, ok).conns, id)
  {
    if ok {
      var c := w.conns[i].(down := w.conns[i].down + [f]);
      AmongAppend(w.conns[i].down, f, id);
      if OnSome(w.conns, id) { ReplaceKeeps(w.conns, i, c, id); }
      if Carries(f, id) { ReplaceGives(w.conns, i, c, id); }
    }
  }

  // --- the relay's steps -----------------------------------------------------------------------

  lemma CutEnds(w: World, x: RelayStep, id: MsgId)
    requires x.Cut? && CanRelay(w, x) && OnSome(w.conns, id)
    ensures OnSome(NextRelay(w, x).conns, id) || FrameLost(w, x, id)
  {
    var c := w.conns[x.i];
    if Among(c.up, id) { AmongSplit(c.up, x.nUp, id); }
    if Among(c.down, id) { AmongSplit(c.down, x.nDown, id); }
    if !FrameLost(w, x, id) {
      ReplaceKeeps(w.conns, x.i, c.(open := false, up := c.up[..x.nUp], down := c.down[..x.nDown]), id);
    }
  }

  lemma ReadEnds(w: World, x: RelayStep, id: MsgId)
    requires x.Read? && CanRelay(w, x) && OnSome(w.conns, id)
    ensures OnSome(NextRelay(w, x).conns, id) || FrameLost(w, x, id)
  {
    var c := w.conns[x.i];
    var f, c' := c.up[0], NextRelay(w, x).conns[x.i];
    if Among(c.up, id) { AmongHead(c.up, id); }
    assert NextRelay(w, x).conns == w.conns[x.i := c'];
    if !FrameLost(w, x, id) {
      assert c'.up == c.up[1..] && c'.down == c.down && c'.draining == c.draining;
      assert Carries(f, id) ==> Handles(c'.handler, id);
      ReplaceKeeps(w.conns, x.i, c', id);
    }
  }

  lemma LookupKeeps(w: World, x: RelayStep, id: MsgId)
    requires x.Lookup? && CanRelay(w, x) && OnSome(w.conns, id)
    ensures OnSome(NextRelay(w, x).conns, id)
  {
    var c := w.conns[x.i];
    ReplaceKeeps(w.conns, x.i, c.(handler := RouteTo(w, c, c.handler.frame)), id);
  }

  lemma HandOverEnds(w: World, x: RelayStep, id: MsgId)
    requires x.HandOver? && CanRelay(w, x) && OnSome(w.conns, id)
    ensures OnSome(NextRelay(w, x).conns, id) || FrameLost(w, x, id)
  {
    var c := w.conns[x.i];
    var idle := SetConn(w, x.i, c.(handler := Idle));
    PushDownKeeps(idle, c.handler.dst, c.handler.frame, x.ok, id);
    if !Carries(c.handler.frame, id) { ReplaceKeeps(w.conns, x.i, c.(handler := Idle), id); }
  }

  lemma EnqueueMsgKeeps(w: World, x: RelayStep, id: MsgId)
    requires x.EnqueueMsg? && CanRelay(w, x) && OnSome(w.conns, id)
    ensures InTransit(NextRelay(w, x), id)
  {
    var c := w.conns[x.i];
    var f := c.handler.frame;
    if Carries(f, id) {
      HoldsEnqueued(w.queue, f.to, QueuedMsg(f.from, f.msgId, f.box), x.cap, x.now);
    } else {
      ReplaceKeeps(w.conns, x.i, c.(handler := Idle), id);
    }
  }

  lemma DrainSendEnds(w: World, x: RelayStep, id: MsgId)
    requires x.DrainSend? && CanRelay(w, x) && OnSome(w.conns, id)
    ensures OnSome(NextRelay(w, x).conns, id) || FrameLost(w, x, id)
  {
    var c := w.conns[x.i];
    var rest := c.(draining := c.draining[1..]);
    if Among(c.draining, id) { AmongHead(c.draining, id); }
    PushDownKeeps(SetConn(w, x.i, rest), x.i, c.draining[0], x.ok, id);
    if !Carries(c.draining[0], id) { ReplaceKeeps(w.conns, x.i, rest, id); }
  }

  /** The other steps leave every frame where it is. */
  lemma OthersKeepFrames(w: World, x: RelayStep, id: MsgId)
    requires CanRelay(w, x) && OnSome(w.conns, id)
    requires x.Dial? || x.MarkReady? || x.Register? || x.Unregister? || x.DrainStart? || x.Expire? || x.Directory?
    ensures OnSome(NextRelay(w, x).conns, id)
  {
    var j :| 0 <= j < |w.conns| && OnConn(w.conns[j], id);
    assert OnConn(NextRelay(w, x).conns[j], id);
  }

  lemma FramesUnderRelay(w: World, x: RelayStep, id: MsgId)
    requires CanRelay(w, x) && OnSome(w.conns, id)
    ensures InTransit(NextRelay(w, x), id) || FrameLost(w, x, id)
  {
    match x
    case Cut(_, _, _) => CutEnds(w, x, id);
    case Read(_, _) => ReadEnds(w, x, id);
    case Lookup(_) => LookupKeeps(w, x, id);
    case HandOver(_, _) => HandOverEnds(w, x, id);
    case EnqueueMsg(_, _, _) => EnqueueMsgKeeps(w, x, id);
    case DrainSend(_, _) => DrainSendEnds(w, x, id);
    case _ => OthersKeepFrames(w, x, id);
  }

  lemma RowUnderRelay(w: World, x: RelayStep, id: MsgId)
    requires CanRelay(w, x) && QueueOk(w.ledger, w.queue) && ConnsOk(w.ledger, w.conns) && InQueue(w.queue, id)
    ensures InQueue(NextRelay(w, x).queue, id) || RowGoes(w, x, id)
  {
    var row :| row in w.queue.rows && row.msg.msgId == id;
    if row !in NextRelay(w, x).queue.rows { RelayStepRemoves(w, x, row); }
  }

  // --- the clients' steps --------------------------------------------------------------------------

  /** A client's write only ever adds a frame. */
  lemma PlaceUpKeeps(conns: seq<Conn>, i: nat, f: Frame, o: Outcome, id: MsgId)
    requires i < |conns|
    ensures OnSome(conns, id) || (o.Placed() && Carries(f, id)) ==> OnSome(PlaceUp(conns, i, f, o), id)
  {
    if o.Placed() {
      var c := conns[i].(up := conns[i].up + [f]);
      AmongAppend(conns[i].up, f, id);
      if OnSome(conns, id) { ReplaceKeeps(conns, i, c, id); }
      if Carries(f, id) { ReplaceGives(conns, i, c, id); }
    }
  }

  lemma ReceiveEnds(w: World, d: DeviceId, i: nat, id: MsgId)
    requires CanServe(w, d, Receive(i)) && OnSome(w.conns, id)
    ensures OnSome(ServeConns(w, d, Receive(i)), id) || TakenAt(w, Serving(d, Receive(i)), id)
  {
    var c := w.conns[i];
    if Among(c.down, id) { AmongHead(c.down, id); }
    if !Carries(c.down[0], id) { ReplaceKeeps(w.conns, i, c.(down := c.down[1..]), id); }
  }

  lemma FramesUnderServe(w: World, d: DeviceId, r: ReadStep, id: MsgId)
    requires CanServe(w, d, r) && OnSome(w.conns, id)
    ensures OnSome(ServeConns(w, d, r), id) || TakenAt(w, Serving(d, r), id)
  {
    var rd := w.clients[d].reader;
    match r
    case FlushSend(o) => PlaceUpKeeps(w.conns, rd.conn, rd.rows[0].Frame(), o, id);
    case SendAck(o) => PlaceUpKeeps(w.conns, rd.conn, Ack(rd.msgId, rd.peer), o, id);
    case Receive(i) => ReceiveEnds(w, d, i, id);
    case _ =>
  }

  lemma FramesUnderSend(w: World, d: DeviceId, s: SendStep, id: MsgId)
    requires CanSend(w, d, s) && OnSome(w.conns, id)
    ensures OnSome(SendConns(w, d, s), id)
  {
    if s.Write? {
      PlaceUpKeeps(w.conns, s.i, Msg("", w.clients[d].sends[s.id].to, s.id, w.clients[d].sends[s.id].box), s.o, id);
    }
  }

  // --- every step, every run --------------------------------------------------------------------------

  lemma StepEnds(w: World, a: Action, id: MsgId)
    requires Enabled(w, a) && QueueOk(w.ledger, w.queue) && ConnsOk(w.ledger, w.conns) && InTransit(w, id)
    ensures InTransit(Next(w, a), id) || EndsAt(w, a, id)
  {
    match a
    case Sending(d, s) => if OnSome(w.conns, id) { FramesUnderSend(w, d, s, id); }
    case Serving(d, r) => if OnSome(w.conns, id) { FramesUnderServe(w, d, r, id); }
    case Relaying(x) =>
      if OnSome(w.conns, id) { FramesUnderRelay(w, x, id); } else { RowUnderRelay(w, x, id); }
  }

  /** A message that is newly placed is on the connection it was written to. */
  lemma PlacedIsOnConn(w: World, a: Action, id: MsgId)
    requires Enabled(w, a) && id !in w.ledger.placed && id in Next(w, a).ledger.placed
    ensures InTransit(Next(w, a), id)
  {
    match a
    case Sending(d, Write(id', i, o)) =>
      PlaceUpKeeps(w.conns, i, Msg("", w.clients[d].sends[id'].to, id', w.clients[d].sends[id'].box), o, id);
    case Serving(d, FlushSend(o)) =>
      var rd := w.clients[d].reader;
      PlaceUpKeeps(w.conns, rd.conn, rd.rows[0].Frame(), o, id);
    case Serving(_, _) =>
    case Sending(_, _) =>
    case Relaying(x) => RelayLeavesClients(w, x);
  }

  lemma {:induction false} WrittenIsPlaced(ws: seq<World>, acts: seq<Action>, k: nat)
    requires IsRun(ws, acts) && k < |ws|
    ensures ws[k].ledger.written <= ws[k].ledger.placed
  {
    if k > 0 {
      WrittenIsPlaced(ws, acts, k - 1);
      assert StepAt(ws, acts, k - 1);
    }
  }

  ghost predicate Ended(ws: seq<World>, acts: seq<Action>, k: nat, id: MsgId)
    requires k <= |acts| && |ws| == |acts| + 1
  {
    exists m :: 0 <= m < k && EndsAt(ws[m], acts[m], id)
  }

  /**
   In every run a message that left on some connection, successfully written or not, is on some connection,
   in a relay handler, or in the queue; or its recipient took it; or a copy of it was lost or discarded at
   a named step: with a cut connection, refused on reading, by a failed hand-over or drain, or from the
   queue by expiry, for room, or on its recipient's ack.
   */
  lemma {:induction false} WhereMessagesAre(ws: seq<World>, acts: seq<Action>, k: nat, id: MsgId)
    requires IsRun(ws, acts) && k < |ws| && (id in ws[k].ledger.placed || id in ws[k].ledger.written)
    ensures InTransit(ws[k], id) || Ended(ws, acts, k, id)
  {
    WrittenIsPlaced(ws, acts, k);
    assert k > 0;
    var w, a := ws[k - 1], acts[k - 1];
    assert StepAt(ws, acts, k - 1);
    RunInv(ws, acts, k - 1);
    if id !in w.ledger.placed {
      PlacedIsOnConn(w, a, id);
    } else {
      WhereMessagesAre(ws, acts, k - 1, id);
      if InTransit(w, id) { StepEnds(w, a, id); }
      if EndsAt(w, a, id) { assert Ended(ws, acts, k, id); }
    }
  }

  /** The client lists the sender under the key the message was sealed with, and it was sealed for its own. */
  predicate Opens(c: Client, f: Frame)
    requires f.Msg?
  {
    f.from != "" && f.from in c.peers && c.peers[f.from] == f.box.sealer && c.key == f.box.opener
  }

  lemma StoresOpened(c: Client, i: nat, f: Frame)
    requires f.Msg? && Opens(c, f) && f.box.inner.Text?
    ensures HasKey(ReceiveC(c, i, f).history, f.msgId, f.from, In)
  {
    InsertKeepsRows(c.history, Message(f.msgId, f.from, In, f.box.inner.text, Received));
  }

  lemma StoredIsLetter(l: Ledger, d: DeviceId, c: Client, id: MsgId, from: DeviceId)
    requires Facts(l, d, c) && HasKey(c.history, id, from, In)
    ensures id in l.sent && Message(id, from, In, l.sent[id].text, Received) in c.history
  {
    var j :| 0 <= j < |c.history| && c.history[j].KeyIs(id, from, In);
    assert RowOk(l, d, c.history[j]);
    assert c.history[j] == Message(id, from, In, l.sent[id].text, Received);
  }

  /**
   Taking is storing: the client that takes a frame of a message is its addressee and sees its sender. If it
   lists the sender under the key the message was sealed with, and that was sealed for its own key, then from
   there on its history has the text as it was given to SendText.
   */
  lemma TakenIsStored(ws: seq<World>, acts: seq<Action>, k: nat, id: MsgId)
    requires IsRun(ws, acts) && k < |acts| && TakenAt(ws[k], acts[k], id)
    ensures id in ws[k].ledger.sent && acts[k].d == ws[k].ledger.sent[id].to
    ensures acts[k].d in ws[k + 1].clients
    ensures var c, f, letter := ws[k].clients[acts[k].d], ws[k].conns[acts[k].r.i].down[0], ws[k].ledger.sent[id];
      && f.from == letter.from
      && (Opens(c, f) ==> Message(id, letter.from, In, letter.text, Received) in ws[k + 1].clients[acts[k].d].history)
  {
    RunInv(ws, acts, k);
    RunInv(ws, acts, k + 1);
    assert StepAt(ws, acts, k);
    var w, d, i := ws[k], acts[k].d, acts[k].r.i;
    assert ConnOk(w.ledger, w.conns, w.conns[i]) && DownOk(w.ledger, w.conns[i].device, w.conns[i].down[0]);
    if Opens(w.clients[d], w.conns[i].down[0]) {
      StoresOpened(w.clients[d], i, w.conns[i].down[0]);
      StoredIsLetter(ws[k + 1].ledger, d, ws[k + 1].clients[d], id, w.conns[i].down[0].from);
    }
  }
}
