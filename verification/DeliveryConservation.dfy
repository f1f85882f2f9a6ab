/** Where a message can go missing, on the client that sent it and in the relay's queue. */
module DeliveryConservation {
  import opened Wire
  import opened ClientTables
  import opened OfflineQueue
  import opened Delivery
  import opened DeliverySafety
  import Seqs

  // --- on the client -------------------------------------------------------------------

  /** A write of this message reports failure although its frame leaves, in SendText or in a flush. */
  ghost predicate FailsUncleanly(w: World, a: Action, id: MsgId) {
    match a
    case Sending(_, Write(id', _, o)) => id' == id && o == FailedPlaced
    case Serving(d, FlushSend(o)) =>
      o == FailedPlaced && CanServe(w, d, a.r) && w.clients[d].reader.rows[0].msgId == id
    case _ => false
  }

  ghost predicate WritesAreClean(ws: seq<World>, acts: seq<Action>, k: nat, id: MsgId)
    requires k <= |acts| && |ws| == |acts| + 1
  {
    forall m :: 0 <= m < k ==> !FailsUncleanly(ws[m], acts[m], id)
  }

  lemma {:induction false} PlacedIsWritten(ws: seq<World>, acts: seq<Action>, k: nat, id: MsgId)
    requires IsRun(ws, acts) && k < |ws| && WritesAreClean(ws, acts, k, id)
    ensures id in ws[k].ledger.placed ==> id in ws[k].ledger.written
  {
    if k > 0 {
      PlacedIsWritten(ws, acts, k - 1, id);
      assert StepAt(ws, acts, k - 1) && !FailsUncleanly(ws[k - 1], acts[k - 1], id);
    }
  }

  /**
   As long as no write of the message reported failure although its frame had left: once SendText has
   returned, the message is in the outbox or was successfully written, whatever else fails or restarts.
   */
  lemma NothingIsLostWhenWritesAreClean(ws: seq<World>, acts: seq<Action>, k: nat, id: MsgId)
    requires IsRun(ws, acts) && k < |ws| && id in ws[k].ledger.returned && WritesAreClean(ws, acts, k, id)
    ensures id in ws[k].ledger.sent && ws[k].ledger.sent[id].from in ws[k].clients
    ensures id in OutboxIds(ws[k].clients[ws[k].ledger.sent[id].from].outbox) || id in ws[k].ledger.written
  {
    NothingIsLostOnTheClient(ws, acts, k, id);
    PlacedIsWritten(ws, acts, k, id);
    RunInv(ws, acts, k);
  }

  /** The client's reading goroutine takes an ack for the message. */
  ghost predicate ClearsByAck(w: World, a: Action, d: DeviceId, id: MsgId) {
    match a
    case Serving(d', Receive(i)) =>
      && d' == d && CanServe(w, d, a.r)
      && w.conns[i].down[0].Ack? && w.conns[i].down[0].msgId == id && id != "" && w.conns[i].down[0].peer != ""
    case _ => false
  }

  lemma OutboxShrinks(o: seq<OutboxRow>, id: MsgId, gone: MsgId)
    ensures id in OutboxIds(DeleteOutbox(o, gone)) <==> id in OutboxIds(o) && id != gone
  {
    var row := OutboxRow(gone, "", Box(0, 0, Other));
    OutboxIdsChange(o, row);
  }

  lemma SendKeepsStash(w: World, d: DeviceId, s: SendStep, id: MsgId)
    requires CanSend(w, d, s) && id in OutboxIds(w.clients[d].outbox)
    ensures id in OutboxIds(SendClient(w, d, s).outbox)
  {
    if s.Stash? {
      var op := w.clients[d].sends[s.id];
      OutboxIdsChange(w.clients[d].outbox, OutboxRow(s.id, op.to, op.box));
    }
  }

  lemma ServeKeepsStash(w: World, d: DeviceId, r: ReadStep, id: MsgId)
    requires CanServe(w, d, r) && id in OutboxIds(w.clients[d].outbox)
    requires ReaderOk(w.ledger, d, w.clients[d]) && id !in w.ledger.written
    ensures id !in OutboxIds(ServeClient(w, d, r).outbox) <==> ClearsByAck(w, Serving(d, r), d, id)
  {
    match r
    case FlushDelete => OutboxShrinks(w.clients[d].outbox, id, w.clients[d].reader.rows[0].msgId);
    case Receive(i) =>
      if w.conns[i].down[0].Ack? { OutboxShrinks(w.clients[d].outbox, id, w.conns[i].down[0].msgId); }
    case _ =>
  }

  /**
   A stashed message that no write has got out leaves the outbox at exactly one kind of step: its sender
   taking an ack for it.
   */
  lemma StashLeavesOnlyByAck(ws: seq<World>, acts: seq<Action>, k: nat, d: DeviceId, id: MsgId)
    requires IsRun(ws, acts) && k < |acts| && d in ws[k].clients && d in ws[k + 1].clients
    requires id in OutboxIds(ws[k].clients[d].outbox) && id !in ws[k].ledger.written
    ensures id !in OutboxIds(ws[k + 1].clients[d].outbox) <==> ClearsByAck(ws[k], acts[k], d, id)
  {
    RunInv(ws, acts, k);
    assert StepAt(ws, acts, k);
    assert ClientOk(ws[k].ledger, d, ws[k].clients[d]);
    match acts[k]
    case Sending(d', s) => if d' == d { SendKeepsStash(ws[k], d, s, id); }
    case Serving(d', r) => if d' == d { ServeKeepsStash(ws[k], d, r, id); }
    case Relaying(x) => RelayLeavesClients(ws[k], x);
  }

  lemma ReturnedIsDone(w: World, d: DeviceId, id: MsgId)
    requires Inv(w) && id in w.ledger.returned && d in w.clients && w.ledger.sent[id].from == d
    ensures id !in w.clients[d].sends
  {
    var c := w.clients[d];
    assert ClientOk(w.ledger, d, c);
    var i :| 0 <= i < |c.history| && c.history[i].KeyIs(id, w.ledger.sent[id].to, Out);
    assert id in View(c).rows;
  }

  lemma SendStashesOwn(w: World, d: DeviceId, s: SendStep, id: MsgId)
    requires CanSend(w, d, s) && id !in w.clients[d].sends && id !in OutboxIds(w.clients[d].outbox)
    ensures id !in OutboxIds(SendClient(w, d, s).outbox)
  {
    if s.Stash? {
      var op := w.clients[d].sends[s.id];
      OutboxIdsChange(w.clients[d].outbox, OutboxRow(s.id, op.to, op.box));
    }
  }

  lemma ServeStashesNone(w: World, d: DeviceId, r: ReadStep, id: MsgId)
    requires CanServe(w, d, r) && id !in OutboxIds(w.clients[d].outbox)
    ensures id !in OutboxIds(ServeClient(w, d, r).outbox)
  {
    match r
    case FlushDelete => OutboxShrinks(w.clients[d].outbox, id, w.clients[d].reader.rows[0].msgId);
    case Receive(i) =>
      if w.conns[i].down[0].Ack? { OutboxShrinks(w.clients[d].outbox, id, w.conns[i].down[0].msgId); }
    case _ =>
  }

  /** Nothing puts a returned message back into the outbox. */
  lemma OutStaysOut(ws: seq<World>, acts: seq<Action>, k: nat, d: DeviceId, id: MsgId)
    requires IsRun(ws, acts) && k < |acts| && d in ws[k].clients && d in ws[k + 1].clients
    requires id in ws[k].ledger.returned && id in ws[k].ledger.sent && ws[k].ledger.sent[id].from == d
    requires id !in OutboxIds(ws[k].clients[d].outbox)
    ensures id !in OutboxIds(ws[k + 1].clients[d].outbox)
  {
    RunInv(ws, acts, k);
    ReturnedIsDone(ws[k], d, id);
    assert StepAt(ws, acts, k);
    match acts[k]
    case Sending(d', s) => if d' == d { SendStashesOwn(ws[k], d, s, id); }
    case Serving(d', r) => if d' == d { ServeStashesNone(ws[k], d, r, id); }
    case Relaying(x) => RelayLeavesClients(ws[k], x);
  }

  /** What the ledger knows of a message, and whose it is, is there for good. */
  lemma {:induction false} LedgerGrows(ws: seq<World>, acts: seq<Action>, j: nat, k: nat, id: MsgId)
    requires IsRun(ws, acts) && j <= k < |ws| && id in ws[j].ledger.returned && id in ws[j].ledger.sent
    ensures id in ws[k].ledger.returned && id in ws[k].ledger.sent && ws[k].ledger.sent[id] == ws[j].ledger.sent[id]
    ensures ws[j].clients.Keys == ws[k].clients.Keys && ws[j].ledger.written <= ws[k].ledger.written
    decreases k
  {
    if j < k {
      LedgerGrows(ws, acts, j, k - 1, id);
      assert StepAt(ws, acts, k - 1);
    }
  }

  /**
   Exactly when an unwritten message is lost: one that SendText stashed and that no write has got out is
   still in the outbox if and only if no ack for it was taken meanwhile.
   */
  lemma {:induction false} StashedUnlessAcked(ws: seq<World>, acts: seq<Action>, j: nat, k: nat, d: DeviceId, id: MsgId)
    requires IsRun(ws, acts) && j <= k < |ws| && d in ws[j].clients && d in ws[k].clients
    requires id in ws[j].ledger.returned && id in ws[j].ledger.sent && ws[j].ledger.sent[id].from == d
    requires id in OutboxIds(ws[j].clients[d].outbox) && id !in ws[k].ledger.written
    ensures id in OutboxIds(ws[k].clients[d].outbox) <==> forall m :: j <= m < k ==> !ClearsByAck(ws[m], acts[m], d, id)
    decreases k
  {
    if j < k {
      LedgerGrows(ws, acts, j, k - 1, id);
      LedgerGrows(ws, acts, k - 1, k, id);
      StashedUnlessAcked(ws, acts, j, k - 1, d, id);
      if id in OutboxIds(ws[k - 1].clients[d].outbox) {
        StashLeavesOnlyByAck(ws, acts, k - 1, d, id);
      } else {
        OutStaysOut(ws, acts, k - 1, d, id);
      }
    }
  }

  // --- in the relay's queue -----------------------------------------------------------------

  /** The step may take the row: by its age, to make room for its recipient, or for its recipient's own ack. */
  ghost predicate MayRemove(w: World, x: RelayStep, row: Row) {
    match x
    case Expire(retention, now) => retention > 0 && row.at < now - retention
    case EnqueueMsg(i, cap, _) => CanRelay(w, x) && w.conns[i].handler.frame.to == row.recipient
      && 0 < cap <= |OfRecipient(w.queue.rows, row.recipient)|
    case Read(_, _) => Receipt(row.recipient, row.msg.msgId, row.msg.sender) in w.ledger.acked
    case _ => false
  }

  lemma TrimTakesOwn(rows: seq<Row>, r: DeviceId, cap: int, row: Row)
    requires row in rows && row !in Trim(rows, r, cap)
    requires forall i, j :: 0 <= i < j < |rows| ==> rows[i].id < rows[j].id
    ensures row.recipient == r && 0 < cap <= |OfRecipient(rows, r)|
  {
    var n := |OfRecipient(rows, r)|;
    if cap > 0 && n >= cap {
      Seqs.FilterMember(rows, (x: Row) => x.id !in OldestIds(rows, r, n - cap + 1));
      OldestIdsBelong(rows, r, n - cap + 1, row.id);
      var i :| 0 <= i < |rows| && rows[i].id == row.id && rows[i].recipient == r;
      var j :| 0 <= j < |rows| && rows[j] == row;
    }
  }

  lemma ExpireRemoves(w: World, x: RelayStep, row: Row)
    requires x.Expire? && row in w.queue.rows && row !in Purge(w.queue, x.retention, x.now).rows
    ensures MayRemove(w, x, row)
  {
    Seqs.FilterMember(w.queue.rows, (y: Row) => y.at >= x.now - x.retention);
  }

  lemma EnqueueRemoves(w: World, x: RelayStep, row: Row)
    requires x.EnqueueMsg? && CanRelay(w, x) && WellFormed(w.queue)
    requires row in w.queue.rows && row !in NextRelay(w, x).queue.rows
    ensures MayRemove(w, x, row)
  {
    var f := w.conns[x.i].handler.frame;
    assert NextRelay(w, x).queue == Enqueue(w.queue, f.to, QueuedMsg(f.from, f.msgId, f.box), x.cap, x.now);
    TrimTakesOwn(w.queue.rows, f.to, x.cap, row);
  }

  /** What reading a frame does to the queue: an admitted complete ack purges, nothing else does. */
  lemma ReadQueue(w: World, x: RelayStep)
    requires x.Read? && CanRelay(w, x)
    ensures var c := w.conns[x.i];
      NextRelay(w, x).queue == w.queue ||
      (c.up[0].Ack? && NextRelay(w, x).queue == AckQueued(w.queue, c.device, c.up[0].peer, c.up[0].msgId))
  {
  }

  lemma ReadRemoves(w: World, x: RelayStep, row: Row)
    requires x.Read? && CanRelay(w, x) && UpOk(w.ledger, w.conns[x.i].device, w.conns[x.i].up[0])
    requires row in w.queue.rows && row !in NextRelay(w, x).queue.rows
    ensures MayRemove(w, x, row)
  {
    ReadQueue(w, x);
    var c := w.conns[x.i];
    if c.up[0].Ack? {
      Seqs.FilterMember(w.queue.rows, (y: Row) => !y.KeyIs(c.device, c.up[0].peer, c.up[0].msgId));
    }
  }

  lemma OthersKeepQueue(w: World, x: RelayStep)
    requires CanRelay(w, x) && !x.Expire? && !x.EnqueueMsg? && !x.Read?
    ensures NextRelay(w, x).queue == w.queue
  {
  }

  lemma RelayStepRemoves(w: World, x: RelayStep, row: Row)
    requires QueueOk(w.ledger, w.queue) && ConnsOk(w.ledger, w.conns) && CanRelay(w, x)
    requires row in w.queue.rows && row !in NextRelay(w, x).queue.rows
    ensures MayRemove(w, x, row)
  {
    match x
    case Expire(_, _) => ExpireRemoves(w, x, row);
    case EnqueueMsg(_, _, _) => EnqueueRemoves(w, x, row);
    case Read(i, _) =>
      assert ConnOk(w.ledger, w.conns, w.conns[i]);
      ReadRemoves(w, x, row);
    case _ => OthersKeepQueue(w, x);
  }

  ghost predicate RemovedAt(ws: seq<World>, acts: seq<Action>, m: nat, row: Row)
    requires m < |ws| && m < |acts|
  {
    acts[m].Relaying? && row in ws[m].queue.rows && MayRemove(ws[m], acts[m].x, row)
  }

  /** Only the relay's own steps touch its queue. */
  lemma LossIsRelayed(w: World, a: Action, row: Row)
    requires Inv(w) && Enabled(w, a) && row in w.queue.rows && row !in Next(w, a).queue.rows
    ensures a.Relaying? && MayRemove(w, a.x, row)
  {
    if a.Relaying? { RelayStepRemoves(w, a.x, row); }
  }

  lemma {:induction false} RowRemovedAt(ws: seq<World>, acts: seq<Action>, j: nat, k: nat, row: Row) returns (m: nat)
    requires IsRun(ws, acts) && j <= k < |ws| && row in ws[j].queue.rows && row !in ws[k].queue.rows
    ensures j <= m < k && RemovedAt(ws, acts, m, row)
  {
    if row !in ws[k - 1].queue.rows {
      m := RowRemovedAt(ws, acts, j, k - 1, row);
    } else {
      m := k - 1;
      RunInv(ws, acts, m);
      assert StepAt(ws, acts, m);
      LossIsRelayed(ws[m], acts[m], row);
    }
  }

  /** What the recipient's ack stands for: it has stored the message, or it could not read it. */
  ghost predicate StoredOrUnread(w: World, row: Row) {
    Receipt(row.recipient, row.msg.msgId, row.msg.sender) in w.ledger.blind ||
    (row.recipient in w.clients && HasKey(w.clients[row.recipient].history, row.msg.msgId, row.msg.sender, In))
  }

  /**
   The relay's half of at-least-once, in every run: a message once in the queue and gone later expired,
   made room for another message to its recipient, or was acknowledged by its recipient, which by then
   had stored it unless it could not read it.
   */
  lemma QueueKeepsUntilAcked(ws: seq<World>, acts: seq<Action>, j: nat, k: nat, row: Row)
    requires IsRun(ws, acts) && j <= k < |ws| && row in ws[j].queue.rows && row !in ws[k].queue.rows
    ensures exists m :: j <= m < k && RemovedAt(ws, acts, m, row) && (acts[m].x.Read? ==> StoredOrUnread(ws[m], row))
  {
    var m := RowRemovedAt(ws, acts, j, k, row);
    RunInv(ws, acts, m);
    assert acts[m].x.Read? ==> StoredOrUnread(ws[m], row);
  }
}
