/** What every step of the delivery protocol keeps, and what follows for every run. */
module DeliverySafety {
  import opened Wire
  import opened ClientTables
  import opened OfflineQueue
  import opened Delivery
  import Seqs

  // --- invariant -------------------------------------------------------------

  /** A message in transit from `from` to `to` is the letter SendText was given under this id. */
  ghost predicate MsgOk(l: Ledger, from: DeviceId, to: DeviceId, id: MsgId, box: Box) {
    && id in l.sent && id in l.placed
    && l.sent[id].from == from && l.sent[id].to == to && box.inner == Text(l.sent[id].text)
  }

  ghost predicate UpOk(l: Ledger, d: DeviceId, f: Frame) {
    match f
    case Msg(_, to, id, box) => MsgOk(l, d, to, id, box)
    case Ack(id, peer) => Receipt(d, id, peer) in l.acked
  }

  ghost predicate DownOk(l: Ledger, d: DeviceId, f: Frame) {
    match f
    case Msg(from, to, id, box) => to == d && MsgOk(l, from, d, id, box)
    case Ack(id, peer) => Receipt(peer, id, d) in l.acked
  }

  ghost predicate HandlerOk(l: Ledger, conns: seq<Conn>, c: Conn) {
    match c.handler
    case Idle => true
    case Route(f) => UpOk(l, c.device, f) && (f.Msg? ==> f.from == c.device)
    case Forward(dst, f) => dst < |conns| && DownOk(l, conns[dst].device, f)
    case Store(f) => f.Msg? && f.from == c.device && UpOk(l, c.device, f)
  }

  ghost predicate ConnOk(l: Ledger, conns: seq<Conn>, c: Conn) {
    && (forall k :: 0 <= k < |c.up| ==> UpOk(l, c.device, c.up[k]))
    && (forall k :: 0 <= k < |c.down| ==> DownOk(l, c.device, c.down[k]))
    && (forall k :: 0 <= k < |c.draining| ==> DownOk(l, c.device, c.draining[k]))
    && HandlerOk(l, conns, c)
  }

  /** The reading goroutine works on a connection of its own device. */
  ghost predicate AtHome(conns: seq<Conn>, d: DeviceId, c: Client) {
    c.reader.Flushing? || c.reader.AckDue? ==> c.reader.conn < |conns| && conns[c.reader.conn].device == d
  }

  ghost predicate ConnsOk(l: Ledger, conns: seq<Conn>) {
    forall i :: 0 <= i < |conns| ==> ConnOk(l, conns, conns[i])
  }

  ghost predicate RegistryOk(w: World) {
    forall d :: d in w.registry ==> w.registry[d] < |w.conns| && w.conns[w.registry[d]].device == d
  }

  ghost predicate QueueOk(l: Ledger, q: Table) {
    && WellFormed(q)
    && forall x :: x in q.rows ==> MsgOk(l, x.msg.sender, x.recipient, x.msg.msgId, x.msg.box)
  }

  ghost predicate RowOk(l: Ledger, d: DeviceId, m: Message) {
    && m.msgId in l.sent
    && match m.dir
       case In => m.state == Received && l.sent[m.msgId] == Letter(m.peer, d, m.body)
       case Out =>
         && m.state != Received && l.sent[m.msgId] == Letter(d, m.peer, m.body)
         && (m.state == Delivered ==> Receipt(m.peer, m.msgId, d) in l.acked)
  }

  ghost predicate StashOk(l: Ledger, d: DeviceId, o: seq<OutboxRow>) {
    && UniqueIds(o)
    && forall k :: 0 <= k < |o| ==>
         o[k].msgId in l.sent && l.sent[o[k].msgId].from == d && l.sent[o[k].msgId].to == o[k].peer &&
         o[k].box.inner == Text(l.sent[o[k].msgId].text)
  }

  ghost predicate OpOk(l: Ledger, d: DeviceId, id: MsgId, op: SendOp) {
    && id in l.sent && l.sent[id] == Letter(d, op.to, op.text)
    && (if op.Recording? then op.state == Queued || (op.state == Sent && id in l.written)
        else op.box.inner == Text(op.text))
  }

  ghost predicate ReaderOk(l: Ledger, d: DeviceId, c: Client) {
    match c.reader
    case Listening => true
    case Flushing(_, rows, phase) =>
      StashOk(l, d, rows) && (phase == AtSend || (rows != [] && rows[0].msgId in l.written))
    case AckDue(_, id, peer, unread) =>
      && id in l.sent && id in l.placed && l.sent[id].from == peer && l.sent[id].to == d
      && (!unread ==> HasKey(c.history, id, peer, In))
    case Acking(id, peer) => Receipt(peer, id, d) in l.acked
  }

  /** Positive facts about one client: each stays true as the ledger grows. */
  ghost predicate Facts(l: Ledger, d: DeviceId, c: Client) {
    && UniqueKeys(c.history)
    && (forall k :: 0 <= k < |c.history| ==> RowOk(l, d, c.history[k]))
    && StashOk(l, d, c.outbox)
    && (forall id :: id in c.sends ==> OpOk(l, d, id, c.sends[id]))
    && ReaderOk(l, d, c)
  }

  /** The message ids of one client that the UI goroutine and the reading goroutine both touch. */
  datatype Overlap = Overlap(
    ops: set<MsgId>,         // inside SendText
    early: set<MsgId>,       // of those, before the stash or the successful write
    rows: set<MsgId>,        // outbound history rows
    delivered: set<MsgId>,   // of those, shown as delivered
    stash: set<MsgId>,       // in the outbox
    flush: set<MsgId>,       // still ahead of the running flush
    acking: Option<MsgId>)   // between an ack's delete and its state change

  ghost function View(c: Client): Overlap {
    Overlap(c.sends.Keys, (set id | id in c.sends && !c.sends[id].Recording?),
            OutIds(c.history), DeliveredIds(c.history), OutboxIds(c.outbox),
            if c.reader.Flushing? then OutboxIds(c.reader.rows) else {},
            if c.reader.Acking? then Some(c.reader.msgId) else None)
  }

  ghost predicate Order(l: Ledger, v: Overlap) {
    && v.early <= v.ops && v.ops !! v.rows
    && v.early !! (v.stash + v.flush)
    && (v.early - l.unclean) !! l.placed
    && (v.delivered - l.unclean) !! (v.stash + v.flush)
    && (v.acking.Some? && v.acking.value !in l.unclean ==> v.acking.value !in v.stash + v.early)
  }

  /** Where a message is, once it has been stashed or written: nothing is dropped on the client. */
  ghost predicate Accounted(l: Ledger, d: DeviceId, c: Client, id: MsgId)
    requires id in l.sent
  {
    id in OutboxIds(c.outbox) || id in l.written || Receipt(l.sent[id].to, id, d) in l.acked
  }

  ghost predicate Kept(l: Ledger, d: DeviceId, c: Client) {
    && (forall id :: id in c.sends && c.sends[id].Recording? && id in l.sent ==> Accounted(l, d, c, id))
    && (forall id :: id in l.returned && id in l.sent && l.sent[id].from == d ==>
          Accounted(l, d, c, id) && HasKey(c.history, id, l.sent[id].to, Out))
  }

  ghost predicate ClientOk(l: Ledger, d: DeviceId, c: Client) {
    Facts(l, d, c) && Order(l, View(c)) && Kept(l, d, c)
  }

  /** Ids are only ever used after SendText gave them out, and only the addressee acknowledges. */
  ghost predicate Sane(l: Ledger) {
    && (forall id :: id in l.placed || id in l.written || id in l.unclean || id in l.returned ==> id in l.sent)
    && (forall r :: r in l.acked ==>
          r.msgId in l.sent && r.msgId in l.placed && l.sent[r.msgId].from == r.sender && l.sent[r.msgId].to == r.acker)
  }

  /** Every acknowledgement not sent blind is backed by a stored row. */
  ghost predicate Backed(w: World) {
    forall r :: r in w.ledger.acked && r !in w.ledger.blind ==>
      r.acker in w.clients && HasKey(w.clients[r.acker].history, r.msgId, r.sender, In)
  }

  ghost predicate Inv(w: World) {
    && Sane(w.ledger) && Backed(w) && ConnsOk(w.ledger, w.conns) && RegistryOk(w) && QueueOk(w.ledger, w.queue)
    && EachClient(w)
    && forall id :: id in w.ledger.sent ==> w.ledger.sent[id].from in w.clients
  }

  ghost predicate EachClient(w: World) {
    forall d :: d in w.clients ==> ClientOk(w.ledger, d, w.clients[d]) && AtHome(w.conns, d, w.clients[d])
  }

  // --- the ledger only grows ---------------------------------------------------

  ghost predicate Grows(l: Ledger, l': Ledger) {
    && (forall id :: id in l.sent ==> id in l'.sent && l'.sent[id] == l.sent[id])
    && l.placed <= l'.placed && l.written <= l'.written && l.unclean <= l'.unclean
    && l.returned <= l'.returned && l.acked <= l'.acked
  }

  lemma ConnsGrow(l: Ledger, l': Ledger, conns: seq<Conn>)
    requires Grows(l, l') && ConnsOk(l, conns)
    ensures ConnsOk(l', conns)
  {
    forall i | 0 <= i < |conns| ensures ConnOk(l', conns, conns[i]) {
      assert ConnOk(l, conns, conns[i]);
    }
  }

  lemma FactsGrow(l: Ledger, l': Ledger, d: DeviceId, c: Client)
    requires Grows(l, l') && Facts(l, d, c)
    ensures Facts(l', d, c)
  {
    forall k | 0 <= k < |c.history| ensures RowOk(l', d, c.history[k]) {
      assert RowOk(l, d, c.history[k]);
    }
    forall id | id in c.sends ensures OpOk(l', d, id, c.sends[id]) {
      assert OpOk(l, d, id, c.sends[id]);
    }
  }

  /** Another client's step leaves this client's part of the invariant alone. */
  lemma OthersKeep(l: Ledger, l': Ledger, d: DeviceId, c: Client)
    requires Grows(l, l') && ClientOk(l, d, c)
    requires forall id :: id in l'.sent && l'.sent[id].from == d ==> id in l.sent
    requires forall id :: id in l'.placed - l.placed ==> id in l'.sent && l'.sent[id].from != d
    requires forall id :: id in l'.returned - l.returned ==> id in l'.sent && l'.sent[id].from != d
    ensures ClientOk(l', d, c)
  {
    FactsGrow(l, l', d, c);
    forall id | id in View(c).early - l'.unclean ensures id !in l'.placed {
      assert OpOk(l, d, id, c.sends[id]);
    }
    forall id | id in c.sends && c.sends[id].Recording? && id in l'.sent ensures Accounted(l', d, c, id) {
      assert OpOk(l, d, id, c.sends[id]);
    }
  }

  // --- one client step, seen from that client ----------------------------------

  /** Nothing already accounted for is lost when the outbox, the ledger and the history only gain. */
  lemma KeptGrows(l: Ledger, l': Ledger, d: DeviceId, c: Client, c': Client)
    requires Kept(l, d, c) && Facts(l, d, c) && Grows(l, l')
    requires OutboxIds(c.outbox) <= OutboxIds(c'.outbox) && SameRows(c.history, c'.history)
    requires l'.returned == l.returned && c'.sends.Keys <= c.sends.Keys
    requires forall id :: id in l'.sent && l'.sent[id].from == d ==> id in l.sent
    requires forall id :: id in c'.sends && c'.sends[id].Recording? ==>
      c.sends[id].Recording? || (id in l'.sent && Accounted(l', d, c', id))
    ensures Kept(l', d, c')
  {
    forall id | id in c'.sends && c'.sends[id].Recording? && id in l'.sent ensures Accounted(l', d, c', id) {
      assert OpOk(l, d, id, c.sends[id]);
    }
    forall id | id in l'.returned && id in l'.sent && l'.sent[id].from == d
      ensures Accounted(l', d, c', id) && HasKey(c'.history, id, l'.sent[id].to, Out)
    {
      KeysStay(c.history, c'.history, id, l.sent[id].to, Out);
    }
  }

  lemma OpChanges(l: Ledger, d: DeviceId, c: Client, id: MsgId, op: SendOp)
    requires Facts(l, d, c) && OpOk(l, d, id, op)
    ensures Facts(l, d, c.(sends := c.sends[id := op]))
  {
    var sends' := c.sends[id := op];
    forall x | x in sends' ensures OpOk(l, d, x, sends'[x]) {
      assert x != id ==> OpOk(l, d, x, c.sends[x]);
    }
  }

  lemma FreshId(l: Ledger, d: DeviceId, c: Client, id: MsgId)
    requires Sane(l) && ClientOk(l, d, c) && id !in l.sent
    ensures var v := View(c); id !in v.ops + v.rows + v.stash + v.flush && v.acking != Some(id)
  {
    assert forall x :: x in c.sends ==> OpOk(l, d, x, c.sends[x]);
    forall k | 0 <= k < |c.history| ensures c.history[k].msgId != id { assert RowOk(l, d, c.history[k]); }
  }

  lemma BeginOk(l: Ledger, d: DeviceId, c: Client, id: MsgId, to: DeviceId, text: string)
    requires Sane(l) && ClientOk(l, d, c) && to in c.peers && id !in l.sent
    ensures ClientOk(l.(sent := l.sent[id := Letter(d, to, text)]), d, BeginC(c, id, to, text))
  {
    var l', c' := l.(sent := l.sent[id := Letter(d, to, text)]), BeginC(c, id, to, text);
    FreshId(l, d, c, id);
    assert View(c') == View(c).(ops := View(c).ops + {id}, early := View(c).early + {id});
    assert Facts(l', d, c') by {
      FactsGrow(l, l', d, c);
      OpChanges(l', d, c, id, c'.sends[id]);
    }
    assert Kept(l', d, c') by {
      forall x | x in c'.sends && c'.sends[x].Recording? && x in l'.sent ensures Accounted(l', d, c', x) {
        assert OpOk(l, d, x, c.sends[x]);
      }
    }
  }

  lemma WriteOrder(l: Ledger, c: Client, id: MsgId, o: Outcome, direct: bool)
    requires Order(l, View(c)) && id in c.sends && c.sends[id].Sealed? && (direct || o == FailedClean)
    ensures Order(NoteWrite(l, id, o, direct), View(WriteC(c, id, c.sends[id], o)))
  {
    var c' := WriteC(c, id, c.sends[id], o);
    assert View(c').ops == View(c).ops;
    assert View(c').early == if o == Written then View(c).early - {id} else View(c).early;
  }

  lemma WriteOk(l: Ledger, d: DeviceId, c: Client, id: MsgId, o: Outcome, direct: bool)
    requires ClientOk(l, d, c) && id in c.sends && c.sends[id].Sealed? && (direct || o == FailedClean)
    ensures ClientOk(NoteWrite(l, id, o, direct), d, WriteC(c, id, c.sends[id], o))
  {
    var l', c' := NoteWrite(l, id, o, direct), WriteC(c, id, c.sends[id], o);
    WriteOrder(l, c, id, o, direct);
    FactsGrow(l, l', d, c);
    OpChanges(l', d, c, id, c'.sends[id]) by { assert OpOk(l', d, id, c.sends[id]); }
    KeptGrows(l, l', d, c, c');
  }

  lemma StashAppend(l: Ledger, d: DeviceId, o: seq<OutboxRow>, row: OutboxRow)
    requires StashOk(l, d, o) && row.msgId !in OutboxIds(o)
    requires row.msgId in l.sent && OpOk(l, d, row.msgId, Unsent(row.peer, l.sent[row.msgId].text, row.box))
    ensures StashOk(l, d, EnqueueOutbox(o, row))
  {
    DeleteAbsent(o, row.msgId);
  }

  lemma StashFacts(l: Ledger, d: DeviceId, c: Client, id: MsgId)
    requires Facts(l, d, c) && id in c.sends && c.sends[id].Unsent? && id !in OutboxIds(c.outbox)
    ensures Facts(l, d, StashC(c, id, c.sends[id]))
  {
    var c' := StashC(c, id, c.sends[id]);
    assert OpOk(l, d, id, c.sends[id]);
    StashAppend(l, d, c.outbox, OutboxRow(id, c.sends[id].to, c.sends[id].box));
    OpChanges(l, d, c.(outbox := c'.outbox), id, c'.sends[id]);
  }

  lemma StashView(c: Client, id: MsgId)
    requires id in c.sends && c.sends[id].Unsent?
    ensures View(c).delivered <= View(c).rows && id in View(c).early
    ensures var v := View(c); View(StashC(c, id, c.sends[id])) == v.(early := v.early - {id}, stash := v.stash + {id})
  {
    OutboxIdsChange(c.outbox, OutboxRow(id, c.sends[id].to, c.sends[id].box));
    assert StashC(c, id, c.sends[id]).sends.Keys == c.sends.Keys;
  }

  lemma StashOrder(l: Ledger, v: Overlap, id: MsgId)
    requires Order(l, v) && id in v.early && v.delivered <= v.rows
    ensures id !in v.stash && Order(l, v.(early := v.early - {id}, stash := v.stash + {id}))
  {
  }

  lemma StashOpOk(l: Ledger, d: DeviceId, c: Client, id: MsgId)
    requires ClientOk(l, d, c) && id in c.sends && c.sends[id].Unsent?
    ensures ClientOk(l, d, StashC(c, id, c.sends[id]))
  {
    StashView(c, id);
    StashOrder(l, View(c), id);
    StashFacts(l, d, c, id);
    KeptGrows(l, l, d, c, StashC(c, id, c.sends[id]));
  }

  lemma RecordOk(l: Ledger, d: DeviceId, c: Client, id: MsgId)
    requires ClientOk(l, d, c) && id in c.sends && c.sends[id].Recording?
    ensures ClientOk(l.(returned := l.returned + {id}), d, RecordC(c, id, c.sends[id]))
  {
    var l', c' := l.(returned := l.returned + {id}), RecordC(c, id, c.sends[id]);
    var op := c.sends[id];
    var m := Message(id, op.to, Out, op.text, op.state);
    assert OpOk(l, d, id, op);
    FactsGrow(l, l', d, c);
    InsertKeepsRows(c.history, m);
    InsertChangesIds(c.history, m);
    if c.reader.AckDue? && !c.reader.unread { KeysStay(c.history, c'.history, c.reader.msgId, c.reader.peer, In); }
    assert View(c').ops == View(c).ops - {id} && View(c').early == View(c).early;
    forall x | x in l'.returned && x in l'.sent && l'.sent[x].from == d
      ensures Accounted(l', d, c', x) && HasKey(c'.history, x, l'.sent[x].to, Out)
    {
      if x != id { KeysStay(c.history, c'.history, x, l.sent[x].to, Out); }
    }
  }

  lemma StateOk(l: Ledger, d: DeviceId, h: seq<Message>, id: MsgId, peer: DeviceId, s: MessageState)
    requires forall k :: 0 <= k < |h| ==> RowOk(l, d, h[k])
    requires s == Sent || (s == Delivered && Receipt(peer, id, d) in l.acked)
    ensures var h' := SetState(h, id, peer, Out, s); forall k :: 0 <= k < |h'| ==> RowOk(l, d, h'[k])
  {
    forall k | 0 <= k < |h| ensures RowOk(l, d, SetState(h, id, peer, Out, s)[k]) {
      assert RowOk(l, d, h[k]);
    }
  }

  lemma FlushStartOk(l: Ledger, d: DeviceId, c: Client, i: nat)
    requires ClientOk(l, d, c) && c.reader.Listening?
    ensures ClientOk(l, d, c.(reader := Flushing(i, c.outbox, AtSend)))
  {
    KeptGrows(l, l, d, c, c.(reader := Flushing(i, c.outbox, AtSend)));
  }

  /** Leaving a flush, or having sent an ack: the reader listens again. */
  lemma ListenOk(l: Ledger, d: DeviceId, c: Client)
    requires ClientOk(l, d, c)
    ensures ClientOk(l, d, c.(reader := Listening))
  {
    KeptGrows(l, l, d, c, c.(reader := Listening));
  }

  lemma FlushSendOk(l: Ledger, d: DeviceId, c: Client, o: Outcome)
    requires ClientOk(l, d, c) && c.reader.Flushing? && c.reader.rows != [] && c.reader.phase == AtSend
    ensures ClientOk(NoteWrite(l, c.reader.rows[0].msgId, o, false), d, SentC(c, o))
  {
    var id := c.reader.rows[0].msgId;
    var l', c' := NoteWrite(l, id, o, false), SentC(c, o);
    assert id in View(c).flush;
    FactsGrow(l, l', d, c);
    KeptGrows(l, l', d, c, c');
  }

  lemma SendAckOk(l: Ledger, d: DeviceId, c: Client, o: Outcome)
    requires ClientOk(l, d, c) && c.reader.AckDue?
    ensures ClientOk(NoteAck(l, Receipt(d, c.reader.msgId, c.reader.peer), c.reader.unread, o), d, c.(reader := Listening))
  {
    var l' := NoteAck(l, Receipt(d, c.reader.msgId, c.reader.peer), c.reader.unread, o);
    FactsGrow(l, l', d, c);
    KeptGrows(l, l', d, c, c.(reader := Listening));
  }

  lemma FlushDeleteOk(l: Ledger, d: DeviceId, c: Client)
    requires ClientOk(l, d, c) && c.reader.Flushing? && c.reader.rows != [] && c.reader.phase == AtDelete
    ensures ClientOk(l, d, DeletedC(c, c.reader.rows[0]))
  {
    var row := c.reader.rows[0];
    var c' := DeletedC(c, row);
    OutboxIdsChange(c.outbox, row);
    DeleteOk(l, d, c.outbox, row.msgId);
    assert View(c') == View(c).(stash := View(c).stash - {row.msgId});
  }

  lemma DeleteOk(l: Ledger, d: DeviceId, o: seq<OutboxRow>, id: MsgId)
    requires StashOk(l, d, o)
    ensures StashOk(l, d, DeleteOutbox(o, id))
  {
    DeleteKeepsUnique(o, id);
    var o' := DeleteOutbox(o, id);
    forall k | 0 <= k < |o'| ensures o'[k] in o { assert o'[k] in o'; }
  }

  lemma FlushMarkOk(l: Ledger, d: DeviceId, c: Client)
    requires ClientOk(l, d, c) && c.reader.Flushing? && c.reader.rows != [] && c.reader.phase == AtMark
    ensures ClientOk(l, d, MarkedC(c, c.reader.rows[0]))
  {
    var row := c.reader.rows[0];
    var c' := MarkedC(c, row);
    SetStateKeepsRows(c.history, row.msgId, row.peer, Out, Sent);
    SetStateChangesIds(c.history, row.msgId, row.peer, Sent);
    StateOk(l, d, c.history, row.msgId, row.peer, Sent);
    KeptGrows(l, l, d, c, c');
    assert OutboxIds(c.reader.rows[1..]) <= OutboxIds(c.reader.rows);
  }

  lemma ReceiveAckOk(l: Ledger, d: DeviceId, c: Client, i: nat, f: Frame)
    requires Sane(l) && ClientOk(l, d, c) && c.reader.Listening? && f.Ack? && DownOk(l, d, f)
    ensures ClientOk(l, d, ReceiveC(c, i, f))
  {
    if f.msgId != "" && f.peer != "" {
      var c' := ReceiveC(c, i, f);
      OutboxIdsChange(c.outbox, OutboxRow(f.msgId, f.peer, Box(0, 0, Other)));
      DeleteOk(l, d, c.outbox, f.msgId);
      assert View(c') == View(c).(stash := View(c).stash - {f.msgId}, acking := Some(f.msgId));
    }
  }

  lemma ReceiveMsgOk(l: Ledger, d: DeviceId, c: Client, i: nat, f: Frame)
    requires ClientOk(l, d, c) && c.reader.Listening? && f.Msg? && DownOk(l, d, f)
    ensures ClientOk(l, d, ReceiveC(c, i, f))
  {
    if f.from != "" {
      var c' := ReceiveC(c, i, f);
      var text := Readable(c.peers, c.key, f.from, f.box);
      if text.Some? {
        var m := Message(f.msgId, f.from, In, text.value, Received);
        InsertKeepsRows(c.history, m);
        InsertChangesIds(c.history, m);
        assert RowOk(l, d, m);
      }
      KeptGrows(l, l, d, c, c');
    }
  }

  lemma AckMarkOk(l: Ledger, d: DeviceId, c: Client)
    requires ClientOk(l, d, c) && c.reader.Acking?
    ensures ClientOk(l, d, AckMarkedC(c, c.reader.msgId, c.reader.peer))
  {
    var id, peer := c.reader.msgId, c.reader.peer;
    SetStateKeepsRows(c.history, id, peer, Out, Delivered);
    SetStateChangesIds(c.history, id, peer, Delivered);
    StateOk(l, d, c.history, id, peer, Delivered);
    KeptGrows(l, l, d, c, AckMarkedC(c, id, peer));
  }

  lemma RestartOk(l: Ledger, d: DeviceId, c: Client)
    requires ClientOk(l, d, c)
    ensures ClientOk(l, d, c.(reader := Listening, sends := map[]))
  {
    KeptGrows(l, l, d, c, c.(reader := Listening, sends := map[]));
  }

  // --- client steps in the whole system ----------------------------------------

  lemma ConnReplaced(l: Ledger, conns: seq<Conn>, i: nat, c: Conn)
    requires ConnsOk(l, conns) && i < |conns| && c.device == conns[i].device && ConnOk(l, conns, c)
    ensures ConnsOk(l, conns[i := c])
  {
    var conns' := conns[i := c];
    forall k | 0 <= k < |conns'| ensures ConnOk(l, conns', conns'[k]) {
      assert ConnOk(l, conns, conns[k]);
    }
  }

  lemma PlaceUpOk(l: Ledger, conns: seq<Conn>, i: nat, f: Frame, o: Outcome)
    requires ConnsOk(l, conns) && i < |conns| && (o.Placed() ==> UpOk(l, conns[i].device, f))
    ensures ConnsOk(l, PlaceUp(conns, i, f, o))
  {
    if o.Placed() {
      var c := conns[i];
      assert ConnOk(l, conns, c);
      ConnReplaced(l, conns, i, c.(up := c.up + [f]));
    }
  }

  /** SendText's effects keep their client's part. */
  lemma SendActorOk(w: World, d: DeviceId, s: SendStep)
    requires CanSend(w, d, s) && Sane(w.ledger) && ClientOk(w.ledger, d, w.clients[d])
    ensures ClientOk(SendLedger(w, d, s), d, SendClient(w, d, s))
  {
    var l, c := w.ledger, w.clients[d];
    match s
    case Begin(id, to, text) => BeginOk(l, d, c, id, to, text);
    case Write(id, i, o) => WriteOk(l, d, c, id, o, true);
    case NoLink(id) => WriteOk(l, d, c, id, FailedClean, true);
    case Stash(id) => StashOpOk(l, d, c, id);
    case Record(id) => RecordOk(l, d, c, id);
  }

  /** The reading goroutine's effects keep their client's part. */
  lemma ServeActorOk(w: World, d: DeviceId, r: ReadStep)
    requires CanServe(w, d, r) && Sane(w.ledger) && ConnsOk(w.ledger, w.conns) && ClientOk(w.ledger, d, w.clients[d])
    ensures ClientOk(ServeLedger(w, d, r), d, ServeClient(w, d, r))
  {
    var l, c := w.ledger, w.clients[d];
    match r
    case FlushStart(i) => FlushStartOk(l, d, c, i);
    case FlushSend(o) => FlushSendOk(l, d, c, o);
    case FlushDelete => FlushDeleteOk(l, d, c);
    case FlushMark => FlushMarkOk(l, d, c);
    case FlushEnd => ListenOk(l, d, c);
    case Receive(i) =>
      assert ConnOk(l, w.conns, w.conns[i]);
      var f := w.conns[i].down[0];
      assert DownOk(l, d, f);
      if f.Msg? { ReceiveMsgOk(l, d, c, i, f); } else { ReceiveAckOk(l, d, c, i, f); }
    case SendAck(o) => SendAckOk(l, d, c, o);
    case AckMark => AckMarkOk(l, d, c);
    case Restart => RestartOk(l, d, c);
    case Roster(peers) => KeptGrows(l, l, d, c, c.(peers := peers));
  }

  /** A client's step only adds to the ledger, and only about its own messages. */
  ghost predicate OwnGrowth(l: Ledger, l': Ledger, d: DeviceId) {
    && Grows(l, l') && Sane(l')
    && (forall id :: id in l'.sent && id !in l.sent ==> l'.sent[id].from == d)
    && (forall id :: id in (l'.placed - l.placed) + (l'.returned - l.returned) ==> id in l'.sent && l'.sent[id].from == d)
  }

  lemma SendLedgerOk(w: World, d: DeviceId, s: SendStep)
    requires CanSend(w, d, s) && Sane(w.ledger) && Facts(w.ledger, d, w.clients[d])
    ensures OwnGrowth(w.ledger, SendLedger(w, d, s), d)
  {
    if !s.Begin? { assert OpOk(w.ledger, d, s.id, w.clients[d].sends[s.id]); }
  }

  lemma ServeLedgerOk(w: World, d: DeviceId, r: ReadStep)
    requires CanServe(w, d, r) && Sane(w.ledger) && Facts(w.ledger, d, w.clients[d])
    ensures OwnGrowth(w.ledger, ServeLedger(w, d, r), d)
  {
  }

  lemma SendConnsOk(w: World, d: DeviceId, s: SendStep)
    requires CanSend(w, d, s) && ConnsOk(w.ledger, w.conns) && Facts(w.ledger, d, w.clients[d])
    requires Grows(w.ledger, SendLedger(w, d, s))
    ensures ConnsOk(SendLedger(w, d, s), SendConns(w, d, s))
  {
    var l', c := SendLedger(w, d, s), w.clients[d];
    ConnsGrow(w.ledger, l', w.conns);
    if s.Write? {
      assert OpOk(w.ledger, d, s.id, c.sends[s.id]);
      PlaceUpOk(l', w.conns, s.i, Msg("", c.sends[s.id].to, s.id, c.sends[s.id].box), s.o);
    }
  }

  lemma ServeConnsOk(w: World, d: DeviceId, r: ReadStep)
    requires CanServe(w, d, r) && ConnsOk(w.ledger, w.conns) && Facts(w.ledger, d, w.clients[d])
    requires Grows(w.ledger, ServeLedger(w, d, r)) && AtHome(w.conns, d, w.clients[d])
    ensures ConnsOk(ServeLedger(w, d, r), ServeConns(w, d, r))
  {
    var l', rd := ServeLedger(w, d, r), w.clients[d].reader;
    ConnsGrow(w.ledger, l', w.conns);
    match r
    case FlushSend(o) => PlaceUpOk(l', w.conns, rd.conn, rd.rows[0].Frame(), o);
    case SendAck(o) => PlaceUpOk(l', w.conns, rd.conn, Ack(rd.msgId, rd.peer), o);
    case Receive(i) =>
      assert ConnOk(l', w.conns, w.conns[i]);
      ConnReplaced(l', w.conns, i, w.conns[i].(down := w.conns[i].down[1..]));
    case _ =>
  }

  /** Frames change but connections keep their place and device. */
  ghost predicate SameDevices(conns: seq<Conn>, conns': seq<Conn>) {
    |conns| <= |conns'| && forall i :: 0 <= i < |conns| ==> conns'[i].device == conns[i].device
  }

  lemma SendHistory(w: World, d: DeviceId, s: SendStep)
    requires CanSend(w, d, s)
    ensures SameRows(w.clients[d].history, SendClient(w, d, s).history)
  {
    if s.Record? {
      var op := w.clients[d].sends[s.id];
      InsertKeepsRows(w.clients[d].history, Message(s.id, op.to, Out, op.text, op.state));
    }
  }

  lemma ServeHistory(w: World, d: DeviceId, r: ReadStep)
    requires CanServe(w, d, r)
    ensures SameRows(w.clients[d].history, ServeClient(w, d, r).history)
  {
    var c := w.clients[d];
    if r.Receive? {
      var f := w.conns[r.i].down[0];
      if f.Msg? && Readable(c.peers, c.key, f.from, f.box).Some? {
        InsertKeepsRows(c.history, Message(f.msgId, f.from, In, Readable(c.peers, c.key, f.from, f.box).value, Received));
      }
    }
  }

  /** What one client's step hands to the whole system. */
  ghost predicate GoodStep(w: World, d: DeviceId, c': Client, l': Ledger, conns': seq<Conn>)
    requires d in w.clients
  {
    && OwnGrowth(w.ledger, l', d)
    && ClientOk(l', d, c') && ConnsOk(l', conns')
    && SameDevices(w.conns, conns') && AtHome(conns', d, c')
    && SameRows(w.clients[d].history, c'.history)
    && (forall r :: r in l'.acked && r !in w.ledger.acked && r !in l'.blind ==>
          r.acker == d && HasKey(c'.history, r.msgId, r.sender, In))
    && w.ledger.blind <= l'.blind
  }

  lemma SendStepOk(w: World, d: DeviceId, s: SendStep)
    requires CanSend(w, d, s) && Sane(w.ledger) && ConnsOk(w.ledger, w.conns)
    requires ClientOk(w.ledger, d, w.clients[d]) && AtHome(w.conns, d, w.clients[d])
    ensures GoodStep(w, d, SendClient(w, d, s), SendLedger(w, d, s), SendConns(w, d, s))
  {
    SendActorOk(w, d, s);
    SendLedgerOk(w, d, s);
    SendConnsOk(w, d, s);
    SendHistory(w, d, s);
  }

  lemma ServeHome(w: World, d: DeviceId, r: ReadStep)
    requires CanServe(w, d, r) && AtHome(w.conns, d, w.clients[d])
    ensures SameDevices(w.conns, ServeConns(w, d, r)) && AtHome(ServeConns(w, d, r), d, ServeClient(w, d, r))
  {
  }

  lemma ServeBacked(w: World, d: DeviceId, r: ReadStep)
    requires CanServe(w, d, r) && Facts(w.ledger, d, w.clients[d])
    ensures var l, l', h := w.ledger, ServeLedger(w, d, r), ServeClient(w, d, r).history;
      && l.blind <= l'.blind
      && forall x :: x in l'.acked && x !in l.acked && x !in l'.blind ==> x.acker == d && HasKey(h, x.msgId, x.sender, In)
  {
  }

  lemma ServeStepOk(w: World, d: DeviceId, r: ReadStep)
    requires CanServe(w, d, r) && Sane(w.ledger) && ConnsOk(w.ledger, w.conns)
    requires ClientOk(w.ledger, d, w.clients[d]) && AtHome(w.conns, d, w.clients[d])
    ensures GoodStep(w, d, ServeClient(w, d, r), ServeLedger(w, d, r), ServeConns(w, d, r))
  {
    ServeActorOk(w, d, r);
    ServeLedgerOk(w, d, r);
    ServeConnsOk(w, d, r);
    ServeHistory(w, d, r);
    ServeHome(w, d, r);
    ServeBacked(w, d, r);
  }

  lemma QueueGrows(l: Ledger, l': Ledger, q: Table)
    requires Grows(l, l') && QueueOk(l, q)
    ensures QueueOk(l', q)
  {
  }

  lemma BackedKeeps(w: World, d: DeviceId, c': Client, l': Ledger, conns': seq<Conn>)
    requires d in w.clients && Backed(w) && GoodStep(w, d, c', l', conns')
    ensures Backed(WithClient(w, d, c', l', conns'))
  {
    var w' := WithClient(w, d, c', l', conns');
    forall r | r in l'.acked && r !in l'.blind
      ensures r.acker in w'.clients && HasKey(w'.clients[r.acker].history, r.msgId, r.sender, In)
    {
      if r in w.ledger.acked && r.acker == d {
        KeysStay(w.clients[d].history, c'.history, r.msgId, r.sender, In);
      }
    }
  }

  lemma ClientsKeep(w: World, d: DeviceId, c': Client, l': Ledger, conns': seq<Conn>)
    requires d in w.clients && EachClient(w) && GoodStep(w, d, c', l', conns')
    ensures EachClient(WithClient(w, d, c', l', conns'))
  {
    var w' := WithClient(w, d, c', l', conns');
    forall e | e in w'.clients ensures ClientOk(l', e, w'.clients[e]) && AtHome(conns', e, w'.clients[e]) {
      if e != d { OthersKeep(w.ledger, l', e, w.clients[e]); }
    }
  }

  /** A good step of one client keeps the invariant of the whole system. */
  lemma GoodStepKeeps(w: World, d: DeviceId, c': Client, l': Ledger, conns': seq<Conn>)
    requires Inv(w) && d in w.clients && GoodStep(w, d, c', l', conns')
    ensures Inv(WithClient(w, d, c', l', conns'))
  {
    BackedKeeps(w, d, c', l', conns');
    ClientsKeep(w, d, c', l', conns');
    QueueGrows(w.ledger, l', w.queue);
  }

  // --- relay and network steps -------------------------------------------------

  /** What a step outside the clients must keep. */
  ghost predicate RelayOk(w: World) {
    ConnsOk(w.ledger, w.conns) && RegistryOk(w) && QueueOk(w.ledger, w.queue)
  }

  /** One connection replaced by one of the same device that is still well-formed. */
  lemma SetConnOk(w: World, i: nat, c: Conn)
    requires RelayOk(w) && i < |w.conns| && c.device == w.conns[i].device && ConnOk(w.ledger, w.conns, c)
    ensures RelayOk(SetConn(w, i, c)) && SameDevices(w.conns, SetConn(w, i, c).conns)
  {
    ConnReplaced(w.ledger, w.conns, i, c);
  }

  lemma PushDownOk(w: World, i: nat, f: Frame, ok: bool)
    requires RelayOk(w) && i < |w.conns| && DownOk(w.ledger, w.conns[i].device, f)
    ensures RelayOk(PushDown(w, i, f, ok)) && SameDevices(w.conns, PushDown(w, i, f, ok).conns)
  {
    assert ConnOk(w.ledger, w.conns, w.conns[i]);
    if ok { SetConnOk(w, i, w.conns[i].(down := w.conns[i].down + [f])); }
  }

  lemma DialOk(w: World, x: RelayStep)
    requires RelayOk(w) && x.Dial? && CanRelay(w, x)
    ensures RelayOk(NextRelay(w, x)) && SameDevices(w.conns, NextRelay(w, x).conns)
  {
    var conns' := NextRelay(w, x).conns;
    forall k | 0 <= k < |conns'| ensures ConnOk(w.ledger, conns', conns'[k]) {
      if k < |w.conns| { assert ConnOk(w.ledger, w.conns, w.conns[k]); }
    }
  }

  lemma RegisterOk(w: World, x: RelayStep)
    requires RelayOk(w) && x.Register? && CanRelay(w, x)
    ensures RelayOk(NextRelay(w, x)) && SameDevices(w.conns, NextRelay(w, x).conns)
  {
    var d := w.conns[x.i].device;
    if d in w.registry {
      var prev := w.registry[d];
      assert ConnOk(w.ledger, w.conns, w.conns[prev]);
      SetConnOk(w, prev, w.conns[prev].(open := false));
    }
  }

  lemma CutOk(w: World, x: RelayStep)
    requires RelayOk(w) && x.Cut? && CanRelay(w, x)
    ensures RelayOk(NextRelay(w, x)) && SameDevices(w.conns, NextRelay(w, x).conns)
  {
    var c := w.conns[x.i];
    assert ConnOk(w.ledger, w.conns, c);
    SetConnOk(w, x.i, c.(open := false, up := c.up[..x.nUp], down := c.down[..x.nDown]));
  }

  lemma AckQueuedOk(l: Ledger, q: Table, r: DeviceId, s: DeviceId, m: MsgId)
    requires QueueOk(l, q)
    ensures QueueOk(l, AckQueued(q, r, s, m))
  {
    ApplyWellFormed(q, DoAck(r, s, m), 0);
    Seqs.FilterMember(q.rows, (x: Row) => !x.KeyIs(r, s, m));
  }

  lemma ReadOk(w: World, x: RelayStep)
    requires RelayOk(w) && x.Read? && CanRelay(w, x)
    ensures RelayOk(NextRelay(w, x)) && SameDevices(w.conns, NextRelay(w, x).conns)
  {
    var c := w.conns[x.i];
    var f := c.up[0];
    assert ConnOk(w.ledger, w.conns, c) && UpOk(w.ledger, c.device, f);
    var c1 := c.(up := c.up[1..]);
    var w1 := SetConn(w, x.i, c1);
    SetConnOk(w, x.i, c1);
    if x.admitted && c.ready {
      match f
      case Msg(_, to, id, box) =>
        if to != "" && id != "" && to in w.active {
          SetConnOk(w1, x.i, c1.(handler := Route(Msg(c.device, to, id, box))));
        }
      case Ack(id, peer) =>
        if id != "" && peer != "" {
          SetConnOk(w1, x.i, c1.(handler := Route(f)));
          AckQueuedOk(w.ledger, w.queue, c.device, peer, id);
        }
    }
  }

  lemma LookupOk(w: World, x: RelayStep)
    requires RelayOk(w) && x.Lookup? && CanRelay(w, x)
    ensures RelayOk(NextRelay(w, x)) && SameDevices(w.conns, NextRelay(w, x).conns)
  {
    var c := w.conns[x.i];
    assert ConnOk(w.ledger, w.conns, c);
    SetConnOk(w, x.i, c.(handler := RouteTo(w, c, c.handler.frame)));
  }

  lemma HandOverOk(w: World, x: RelayStep)
    requires RelayOk(w) && x.HandOver? && CanRelay(w, x)
    ensures RelayOk(NextRelay(w, x)) && SameDevices(w.conns, NextRelay(w, x).conns)
  {
    var c := w.conns[x.i];
    assert ConnOk(w.ledger, w.conns, c);
    SetConnOk(w, x.i, c.(handler := Idle));
    PushDownOk(SetConn(w, x.i, c.(handler := Idle)), c.handler.dst, c.handler.frame, x.ok);
  }

  lemma EnqueueMsgOk(w: World, x: RelayStep)
    requires RelayOk(w) && x.EnqueueMsg? && CanRelay(w, x)
    ensures RelayOk(NextRelay(w, x)) && SameDevices(w.conns, NextRelay(w, x).conns)
  {
    var c := w.conns[x.i];
    var f := c.handler.frame;
    assert ConnOk(w.ledger, w.conns, c);
    SetConnOk(w, x.i, c.(handler := Idle));
    var m := QueuedMsg(f.from, f.msgId, f.box);
    ApplyWellFormed(w.queue, DoEnqueue(f.to, m, x.cap), x.now);
    TrimSubset(w.queue.rows, f.to, x.cap);
  }

  lemma {:induction false} EntryIsRow(rows: seq<Row>, r: DeviceId, e: Entry)
    requires e in Entries(rows, r)
    ensures exists y :: y in rows && y.recipient == r && y.msg == e.msg
  {
    if rows[0].recipient == r && e == Entry(rows[0].msg, rows[0].at) {
      assert rows[0] in rows;
    } else {
      EntryIsRow(rows[1..], r, e);
      var y :| y in rows[1..] && y.recipient == r && y.msg == e.msg;
      assert y in rows;
    }
  }

  lemma DrainStartOk(w: World, x: RelayStep)
    requires RelayOk(w) && x.DrainStart? && CanRelay(w, x)
    ensures RelayOk(NextRelay(w, x)) && SameDevices(w.conns, NextRelay(w, x).conns)
  {
    var c := w.conns[x.i];
    var l, fs := Entries(w.queue.rows, c.device), DrainFrames(w.queue, c.device);
    assert ConnOk(w.ledger, w.conns, c);
    forall k | 0 <= k < |fs| ensures DownOk(w.ledger, c.device, fs[k]) {
      EntryIsRow(w.queue.rows, c.device, l[k]);
    }
    SetConnOk(w, x.i, c.(draining := fs));
  }

  lemma DrainSendOk(w: World, x: RelayStep)
    requires RelayOk(w) && x.DrainSend? && CanRelay(w, x)
    ensures RelayOk(NextRelay(w, x)) && SameDevices(w.conns, NextRelay(w, x).conns)
  {
    var c := w.conns[x.i];
    assert ConnOk(w.ledger, w.conns, c);
    SetConnOk(w, x.i, c.(draining := c.draining[1..]));
    PushDownOk(SetConn(w, x.i, c.(draining := c.draining[1..])), x.i, c.draining[0], x.ok);
  }

  lemma ExpireOk(l: Ledger, q: Table, retention: int, now: int)
    requires QueueOk(l, q)
    ensures QueueOk(l, Purge(q, retention, now))
  {
    ApplyWellFormed(q, DoPurge(retention), now);
    if retention > 0 { Seqs.FilterMember(q.rows, (x: Row) => x.at >= now - retention); }
  }

  lemma MarkReadyOk(w: World, x: RelayStep)
    requires RelayOk(w) && x.MarkReady? && CanRelay(w, x)
    ensures RelayOk(NextRelay(w, x)) && SameDevices(w.conns, NextRelay(w, x).conns)
  {
    assert ConnOk(w.ledger, w.conns, w.conns[x.i]);
    SetConnOk(w, x.i, w.conns[x.i].(ready := true));
  }

  lemma RelayKeeps(w: World, x: RelayStep)
    requires RelayOk(w) && CanRelay(w, x)
    ensures RelayOk(NextRelay(w, x)) && SameDevices(w.conns, NextRelay(w, x).conns)
  {
    match x
    case Dial(_) => DialOk(w, x);
    case MarkReady(_) => MarkReadyOk(w, x);
    case Register(_) => RegisterOk(w, x);
    case Unregister(_) =>
    case Cut(_, _, _) => CutOk(w, x);
    case Read(_, _) => ReadOk(w, x);
    case Lookup(_) => LookupOk(w, x);
    case HandOver(_, _) => HandOverOk(w, x);
    case EnqueueMsg(_, _, _) => EnqueueMsgOk(w, x);
    case DrainStart(_) => DrainStartOk(w, x);
    case DrainSend(_, _) => DrainSendOk(w, x);
    case Expire(retention, now) => ExpireOk(w.ledger, w.queue, retention, now);
    case Directory(_) =>
  }

  lemma RelayLeavesClients(w: World, x: RelayStep)
    requires CanRelay(w, x)
    ensures NextRelay(w, x).clients == w.clients && NextRelay(w, x).ledger == w.ledger
  {
  }

  lemma RelayStepKeeps(w: World, x: RelayStep)
    requires Inv(w) && CanRelay(w, x)
    ensures Inv(NextRelay(w, x))
  {
    RelayKeeps(w, x);
    RelayLeavesClients(w, x);
    var w' := NextRelay(w, x);
    forall d | d in w'.clients ensures ClientOk(w'.ledger, d, w'.clients[d]) && AtHome(w'.conns, d, w'.clients[d]) {
      assert ClientOk(w.ledger, d, w.clients[d]) && AtHome(w.conns, d, w.clients[d]);
    }
  }

  // --- every step, every run -----------------------------------------------------

  lemma StepKeeps(w: World, a: Action)
    requires Inv(w) && Enabled(w, a)
    ensures Inv(Next(w, a))
  {
    match a
    case Sending(d, s) =>
      SendStepOk(w, d, s);
      GoodStepKeeps(w, d, SendClient(w, d, s), SendLedger(w, d, s), SendConns(w, d, s));
    case Serving(d, r) =>
      ServeStepOk(w, d, r);
      GoodStepKeeps(w, d, ServeClient(w, d, r), ServeLedger(w, d, r), ServeConns(w, d, r));
    case Relaying(x) => RelayStepKeeps(w, x);
  }

  lemma InitialInv(w: World)
    requires Initial(w)
    ensures Inv(w)
  {
  }

  lemma {:induction false} RunInv(ws: seq<World>, acts: seq<Action>, k: nat)
    requires IsRun(ws, acts) && k < |ws|
    ensures Inv(ws[k])
  {
    if k == 0 {
      InitialInv(ws[0]);
    } else {
      RunInv(ws, acts, k - 1);
      assert StepAt(ws, acts, k - 1);
      StepKeeps(ws[k - 1], acts[k - 1]);
    }
  }

  /** At most once: no history holds a message twice, and every received row is the letter its sender wrote. */
  lemma HistoryIsFaithful(ws: seq<World>, acts: seq<Action>, k: nat, d: DeviceId)
    requires IsRun(ws, acts) && k < |ws| && d in ws[k].clients
    ensures var h, sent := ws[k].clients[d].history, ws[k].ledger.sent;
      && (forall i, j :: 0 <= i < j < |h| ==> !(h[i].msgId == h[j].msgId && h[i].peer == h[j].peer && h[i].dir == h[j].dir))
      && (forall i :: 0 <= i < |h| && h[i].dir == In ==>
            h[i].msgId in sent && sent[h[i].msgId] == Letter(h[i].peer, d, h[i].body))
  {
    RunInv(ws, acts, k);
    var l, h := ws[k].ledger, ws[k].clients[d].history;
    assert ClientOk(l, d, ws[k].clients[d]);
    forall i | 0 <= i < |h| && h[i].dir == In
      ensures h[i].msgId in l.sent && l.sent[h[i].msgId] == Letter(h[i].peer, d, h[i].body)
    {
      assert RowOk(l, d, h[i]);
    }
  }

  /**
   A row shown as delivered was acknowledged on the peer's own connection; and unless that ack was for a message
   the peer could not read, the peer had stored exactly that text.
   */
  lemma DeliveredIsSound(ws: seq<World>, acts: seq<Action>, k: nat, d: DeviceId, i: nat)
    requires IsRun(ws, acts) && k < |ws| && d in ws[k].clients && i < |ws[k].clients[d].history|
    requires ws[k].clients[d].history[i].dir == Out && ws[k].clients[d].history[i].state == Delivered
    ensures var m := ws[k].clients[d].history[i];
      var r := Receipt(m.peer, m.msgId, d);
      && r in ws[k].ledger.acked
      && (r !in ws[k].ledger.blind ==>
            && m.peer in ws[k].clients
            && exists j :: 0 <= j < |ws[k].clients[m.peer].history| &&
                 ws[k].clients[m.peer].history[j] == Message(m.msgId, d, In, m.body, Received))
  {
    RunInv(ws, acts, k);
    var l, m := ws[k].ledger, ws[k].clients[d].history[i];
    assert ClientOk(l, d, ws[k].clients[d]) && RowOk(l, d, m);
    var r := Receipt(m.peer, m.msgId, d);
    if r !in l.blind {
      var h := ws[k].clients[m.peer].history;
      assert ClientOk(l, m.peer, ws[k].clients[m.peer]);
      var j :| 0 <= j < |h| && h[j].KeyIs(m.msgId, d, In);
      assert RowOk(l, m.peer, h[j]);
    }
  }

  /** Once SendText has returned, its message is stashed, was written, or reached its peer; and it is in the history. */
  lemma NothingIsLostOnTheClient(ws: seq<World>, acts: seq<Action>, k: nat, id: MsgId)
    requires IsRun(ws, acts) && k < |ws| && id in ws[k].ledger.returned
    ensures id in ws[k].ledger.sent && ws[k].ledger.sent[id].from in ws[k].clients
    ensures var l, d := ws[k].ledger, ws[k].ledger.sent[id].from;
      && (id in OutboxIds(ws[k].clients[d].outbox) || id in l.written || Receipt(l.sent[id].to, id, d) in l.acked)
      && HasKey(ws[k].clients[d].history, id, l.sent[id].to, Out)
  {
    RunInv(ws, acts, k);
    var l := ws[k].ledger;
    var d := l.sent[id].from;
    assert ClientOk(l, d, ws[k].clients[d]);
  }

  // --- the history variables ---------------------------------------------------------------------

  /** The step is a write of the message with this outcome, by SendText or in a flush. */
  predicate Writes(w: World, a: Action, id: MsgId, o: Outcome) {
    match a
    case Sending(_, Write(id', _, o')) => id' == id && o' == o
    case Serving(d, FlushSend(o')) => o' == o && CanServe(w, d, FlushSend(o)) && w.clients[d].reader.rows[0].msgId == id
    case _ => false
  }

  /** What an acknowledging step acknowledges, if its frame leaves. */
  predicate IsAckOf(w: World, a: Action, r: Receipt, unread: bool) {
    match a
    case Serving(d, SendAck(o)) =>
      && o != FailedClean && CanServe(w, d, SendAck(o))
      && var rd := w.clients[d].reader;
      rd.unread == unread && r == Receipt(d, rd.msgId, rd.peer)
    case _ => false
  }

  /**
   The history variables record what happens and nothing else: a message counts as written only by a write that
   reported success, as placed only by one whose frame left, as unclean only by a direct write that failed although
   it had, as returned only at its record; and a receipt is there only for an ack that left, blind if unread.
   */
  lemma LedgerIsHistory(w: World, a: Action, id: MsgId, r: Receipt)
    requires Enabled(w, a)
    ensures var l, l' := w.ledger, Next(w, a).ledger;
      && (id in l'.written <==> id in l.written || Writes(w, a, id, Written))
      && (id in l'.placed <==> id in l.placed || Writes(w, a, id, Written) || Writes(w, a, id, FailedPlaced))
      && (id in l'.unclean <==> id in l.unclean || (a.Sending? && Writes(w, a, id, FailedPlaced)))
      && (id in l'.returned <==> id in l.returned || (a.Sending? && a.s == Record(id)))
      && (r in l'.acked <==> r in l.acked || IsAckOf(w, a, r, true) || IsAckOf(w, a, r, false))
      && (r in l'.blind <==> r in l.blind || IsAckOf(w, a, r, true))
    ensures var l, l' := w.ledger, Next(w, a).ledger;
      && (id in l.sent ==> id in l'.sent && l'.sent[id] == l.sent[id])
      && (id in l'.sent && id !in l.sent ==> a == Sending(l'.sent[id].from, Begin(id, l'.sent[id].to, l'.sent[id].text)))
  {
    if a.Relaying? { RelayLeavesClients(w, a.x); }
  }
}
