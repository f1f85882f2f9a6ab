/** Outbound states only move forward, with the one exception that breaks it. */
module DeliveryOrder {
  import opened Wire
  import opened ClientTables
  import opened OfflineQueue
  import opened Delivery
  import opened DeliverySafety

  /** Rows stay where they are, and outside `except` no outbound state goes back. */
  ghost predicate Forward(h: seq<Message>, h': seq<Message>, except: set<MsgId>) {
    && SameRows(h, h')
    && forall i :: 0 <= i < |h| && h[i].dir == Out && h[i].msgId !in except ==> Rank(h[i].state) <= Rank(h'[i].state)
  }

  lemma FlushMarkForward(l: Ledger, d: DeviceId, c: Client)
    requires ClientOk(l, d, c) && c.reader.Flushing? && c.reader.rows != []
    ensures Forward(c.history, MarkedC(c, c.reader.rows[0]).history, l.unclean)
  {
    var row, h := c.reader.rows[0], c.history;
    SetStateKeepsRows(h, row.msgId, row.peer, Out, Sent);
    forall i | 0 <= i < |h| && h[i].dir == Out && h[i].msgId !in l.unclean
      ensures Rank(h[i].state) <= Rank(MarkedC(c, row).history[i].state)
    {
      assert h[i].state == Delivered ==> h[i].msgId in View(c).delivered;
      assert row.msgId in View(c).flush;
      assert RowOk(l, d, h[i]);
    }
  }

  lemma InsertForward(h: seq<Message>, m: Message, except: set<MsgId>)
    ensures Forward(h, InsertMessage(h, m), except)
  {
  }

  lemma AckMarkForward(h: seq<Message>, id: MsgId, peer: DeviceId, except: set<MsgId>)
    ensures Forward(h, SetState(h, id, peer, Out, Delivered), except)
  {
  }

  lemma SendForward(w: World, d: DeviceId, s: SendStep)
    requires CanSend(w, d, s)
    ensures Forward(w.clients[d].history, SendClient(w, d, s).history, w.ledger.unclean)
  {
    if s.Record? {
      var op := w.clients[d].sends[s.id];
      InsertForward(w.clients[d].history, Message(s.id, op.to, Out, op.text, op.state), w.ledger.unclean);
    }
  }

  lemma ServeForward(w: World, d: DeviceId, r: ReadStep)
    requires CanServe(w, d, r) && ClientOk(w.ledger, d, w.clients[d])
    ensures Forward(w.clients[d].history, ServeClient(w, d, r).history, w.ledger.unclean)
  {
    var c, e := w.clients[d], w.ledger.unclean;
    match r
    case Receive(i) =>
      var f := w.conns[i].down[0];
      if f.Msg? && Readable(c.peers, c.key, f.from, f.box).Some? {
        InsertForward(c.history, Message(f.msgId, f.from, In, Readable(c.peers, c.key, f.from, f.box).value, Received), e);
      }
    case FlushMark => FlushMarkForward(w.ledger, d, c);
    case AckMark => AckMarkForward(c.history, c.reader.msgId, c.reader.peer, e);
    case _ =>
  }

  lemma StepForward(w: World, a: Action, d: DeviceId)
    requires Enabled(w, a) && d in w.clients
    requires a.Serving? ==> ClientOk(w.ledger, a.d, w.clients[a.d])
    ensures d in Next(w, a).clients && w.ledger.unclean <= Next(w, a).ledger.unclean
    ensures Forward(w.clients[d].history, Next(w, a).clients[d].history, w.ledger.unclean)
  {
    match a
    case Sending(e, s) => SendForward(w, e, s);
    case Serving(e, r) => ServeForward(w, e, r);
    case Relaying(x) => RelayLeavesClients(w, x);
  }

  lemma ActorOk(ws: seq<World>, acts: seq<Action>, k: nat)
    requires IsRun(ws, acts) && k < |acts|
    ensures Enabled(ws[k], acts[k]) && ws[k + 1] == Next(ws[k], acts[k])
    ensures acts[k].Serving? ==> ClientOk(ws[k].ledger, acts[k].d, ws[k].clients[acts[k].d])
  {
    assert StepAt(ws, acts, k);
    RunInv(ws, acts, k);
  }

  lemma ForwardChains(h: seq<Message>, h1: seq<Message>, h2: seq<Message>, e1: set<MsgId>, e2: set<MsgId>)
    requires Forward(h, h1, e1) && Forward(h1, h2, e1) && e1 <= e2
    ensures Forward(h, h2, e2)
  {
  }

  /**
   In every run and between any two moments of it, an outbound row keeps its place and its state never
   goes back, as long as SendText's own write of it did not report failure after the frame had left.
   */
  lemma {:induction false} StatesMoveForward(ws: seq<World>, acts: seq<Action>, j: nat, k: nat, d: DeviceId)
    requires IsRun(ws, acts) && j <= k < |ws| && d in ws[j].clients
    ensures d in ws[k].clients && ws[j].ledger.unclean <= ws[k].ledger.unclean
    ensures Forward(ws[j].clients[d].history, ws[k].clients[d].history, ws[k].ledger.unclean)
    decreases k
  {
    if j < k {
      StatesMoveForward(ws, acts, j, k - 1, d);
      ActorOk(ws, acts, k - 1);
      StepForward(ws[k - 1], acts[k - 1], d);
      ForwardChains(ws[j].clients[d].history, ws[k - 1].clients[d].history, ws[k].clients[d].history,
                    ws[k - 1].ledger.unclean, ws[k].ledger.unclean);
    }
  }

  // --- exactly when a state goes back --------------------------------------------------

  /** A flush marks as sent a row that an ack has already marked as delivered. */
  ghost predicate MarksDelivered(w: World, a: Action, d: DeviceId) {
    match a
    case Serving(d', FlushMark) =>
      d' == d && CanServe(w, d, a.r)
      && exists i :: 0 <= i < |w.clients[d].history| && IsRow(w.clients[d].history[i], w.clients[d].reader.rows[0])
                     && w.clients[d].history[i].state == Delivered
    case _ => false
  }

  predicate IsRow(m: Message, row: OutboxRow) { m.KeyIs(row.msgId, row.peer, Out) }

  ghost predicate Onward(h: seq<Message>, h': seq<Message>) { Forward(h, h', {}) }

  lemma FlushMarkOnwardIff(l: Ledger, d: DeviceId, c: Client)
    requires Facts(l, d, c) && c.reader.Flushing? && c.reader.rows != []
    ensures var row := c.reader.rows[0];
      Onward(c.history, MarkedC(c, row).history) <==>
        !exists i :: 0 <= i < |c.history| && IsRow(c.history[i], row) && c.history[i].state == Delivered
  {
    var row, h := c.reader.rows[0], c.history;
    var h' := MarkedC(c, row).history;
    SetStateKeepsRows(h, row.msgId, row.peer, Out, Sent);
    forall i | 0 <= i < |h| && h[i].dir == Out
      ensures Rank(h[i].state) <= Rank(h'[i].state) <==> !(IsRow(h[i], row) && h[i].state == Delivered)
    {
      assert RowOk(l, d, h[i]);
    }
  }

  lemma SendOnward(w: World, d: DeviceId, s: SendStep)
    requires CanSend(w, d, s)
    ensures Onward(w.clients[d].history, SendClient(w, d, s).history)
  {
    if s.Record? {
      var op := w.clients[d].sends[s.id];
      InsertForward(w.clients[d].history, Message(s.id, op.to, Out, op.text, op.state), {});
    }
  }

  lemma ServeOnwardIff(w: World, d: DeviceId, r: ReadStep)
    requires CanServe(w, d, r) && Facts(w.ledger, d, w.clients[d])
    ensures Onward(w.clients[d].history, ServeClient(w, d, r).history) <==> !MarksDelivered(w, Serving(d, r), d)
  {
    var c := w.clients[d];
    match r
    case Receive(i) =>
      var f := w.conns[i].down[0];
      if f.Msg? && Readable(c.peers, c.key, f.from, f.box).Some? {
        InsertForward(c.history, Message(f.msgId, f.from, In, Readable(c.peers, c.key, f.from, f.box).value, Received), {});
      }
    case FlushMark => FlushMarkOnwardIff(w.ledger, d, c);
    case AckMark => AckMarkForward(c.history, c.reader.msgId, c.reader.peer, {});
    case _ =>
  }

  lemma StepOnwardIff(w: World, a: Action, d: DeviceId)
    requires Enabled(w, a) && d in w.clients
    requires a.Serving? ==> Facts(w.ledger, a.d, w.clients[a.d])
    ensures d in Next(w, a).clients
    ensures Onward(w.clients[d].history, Next(w, a).clients[d].history) <==> !MarksDelivered(w, a, d)
  {
    match a
    case Sending(e, s) => if e == d { SendOnward(w, e, s); }
    case Serving(e, r) => if e == d { ServeOnwardIff(w, e, r); }
    case Relaying(x) => RelayLeavesClients(w, x);
  }

  lemma RunStepOnwardIff(ws: seq<World>, acts: seq<Action>, k: nat, d: DeviceId)
    requires IsRun(ws, acts) && k < |acts| && d in ws[k].clients
    ensures d in ws[k + 1].clients
    ensures Onward(ws[k].clients[d].history, ws[k + 1].clients[d].history) <==> !MarksDelivered(ws[k], acts[k], d)
  {
    ActorOk(ws, acts, k);
    StepOnwardIff(ws[k], acts[k], d);
  }

  lemma {:induction false} ClientStays(ws: seq<World>, acts: seq<Action>, k: nat, d: DeviceId)
    requires IsRun(ws, acts) && k < |ws| && d in ws[0].clients
    ensures d in ws[k].clients
  {
    if k > 0 {
      ClientStays(ws, acts, k - 1, d);
      RunStepOnwardIff(ws, acts, k - 1, d);
    }
  }

  ghost predicate AlwaysOnward(ws: seq<World>, d: DeviceId)
    requires forall k :: 0 <= k < |ws| ==> d in ws[k].clients
  {
    forall j, k :: 0 <= j <= k < |ws| ==> Onward(ws[j].clients[d].history, ws[k].clients[d].history)
  }

  lemma {:induction false} OnwardUpTo(ws: seq<World>, acts: seq<Action>, j: nat, k: nat, d: DeviceId)
    requires IsRun(ws, acts) && j <= k < |ws| && d in ws[j].clients && d in ws[k].clients
    requires forall m :: j <= m < k ==> !MarksDelivered(ws[m], acts[m], d)
    ensures Onward(ws[j].clients[d].history, ws[k].clients[d].history)
    decreases k
  {
    if j < k {
      StatesMoveForward(ws, acts, j, k - 1, d);
      OnwardUpTo(ws, acts, j, k - 1, d);
      RunStepOnwardIff(ws, acts, k - 1, d);
      ForwardChains(ws[j].clients[d].history, ws[k - 1].clients[d].history, ws[k].clients[d].history, {}, {});
    }
  }

  /**
   Over a whole run no outbound row of a client ever goes back exactly when no flush marks as sent a row
   that an ack has already marked as delivered.
   */
  lemma ForwardIffNoLateMark(ws: seq<World>, acts: seq<Action>, d: DeviceId)
    requires IsRun(ws, acts) && d in ws[0].clients
    ensures forall k :: 0 <= k < |ws| ==> d in ws[k].clients
    ensures AlwaysOnward(ws, d) <==> forall k :: 0 <= k < |acts| ==> !MarksDelivered(ws[k], acts[k], d)
  {
    forall k | 0 <= k < |ws| ensures d in ws[k].clients { ClientStays(ws, acts, k, d); }
    if AlwaysOnward(ws, d) {
      forall k | 0 <= k < |acts| ensures !MarksDelivered(ws[k], acts[k], d) {
        assert Onward(ws[k].clients[d].history, ws[k + 1].clients[d].history);
        RunStepOnwardIff(ws, acts, k, d);
      }
    }
    if forall k :: 0 <= k < |acts| ==> !MarksDelivered(ws[k], acts[k], d) {
      forall j, k | 0 <= j <= k < |ws| ensures Onward(ws[j].clients[d].history, ws[k].clients[d].history) {
        OnwardUpTo(ws, acts, j, k, d);
      }
    }
  }

  // --- every mark takes effect ------------------------------------------------------------

  /** The step marks outbound rows of this message: after an ack for it, or after its flush. */
  predicate MarksRow(w: World, a: Action, d: DeviceId, id: MsgId, peer: DeviceId) {
    match a
    case Serving(d', AckMark) =>
      d' == d && CanServe(w, d, AckMark) && w.clients[d].reader.msgId == id && w.clients[d].reader.peer == peer
    case Serving(d', FlushMark) =>
      d' == d && CanServe(w, d, FlushMark)
      && w.clients[d].reader.rows[0].msgId == id && w.clients[d].reader.rows[0].peer == peer
    case _ => false
  }

  ghost predicate IsOutRow(w: World, d: DeviceId, i: nat, id: MsgId, peer: DeviceId) {
    && d in w.clients && i < |w.clients[d].history|
    && var m := w.clients[d].history[i];
    m.dir == Out && m.msgId == id && m.peer == peer
  }

  ghost predicate HasState(w: World, d: DeviceId, i: nat, s: MessageState) {
    d in w.clients && i < |w.clients[d].history| && w.clients[d].history[i].state == s
  }

  /** An ack's mark shows the row as delivered, a flush's as sent, whatever it was before. */
  lemma MarkTakesEffect(w: World, a: Action, d: DeviceId, i: nat, id: MsgId, peer: DeviceId)
    requires Enabled(w, a) && IsOutRow(w, d, i, id, peer) && MarksRow(w, a, d, id, peer)
    ensures IsOutRow(Next(w, a), d, i, id, peer) && HasState(Next(w, a), d, i, if a == Serving(d, AckMark) then Delivered else Sent)
  {
    var c := w.clients[d];
    if a == Serving(d, AckMark) {
      assert Next(w, a).clients[d].history == SetState(c.history, id, peer, Out, Delivered);
    } else {
      assert a == Serving(d, FlushMark);
      assert Next(w, a).clients[d].history == SetState(c.history, id, peer, Out, Sent);
    }
  }

  lemma NoMarkNoChange(w: World, a: Action, d: DeviceId, i: nat, id: MsgId, peer: DeviceId)
    requires Enabled(w, a) && IsOutRow(w, d, i, id, peer) && !MarksRow(w, a, d, id, peer)
    ensures IsOutRow(Next(w, a), d, i, id, peer) && Next(w, a).clients[d].history[i] == w.clients[d].history[i]
  {
    match a
    case Sending(e, s) =>
      if e == d && s.Record? {
        var op := w.clients[d].sends[s.id];
        InsertKeepsPlaces(w.clients[d].history, Message(s.id, op.to, Out, op.text, op.state));
      }
    case Serving(e, r) =>
      if e == d && r.Receive? {
        var c, f := w.clients[d], w.conns[r.i].down[0];
        if f.Msg? && Readable(c.peers, c.key, f.from, f.box).Some? {
          InsertKeepsPlaces(c.history, Message(f.msgId, f.from, In, Readable(c.peers, c.key, f.from, f.box).value, Received));
        }
      }
    case Relaying(x) => RelayLeavesClients(w, x);
  }

  lemma InsertKeepsPlaces(h: seq<Message>, m: Message)
    ensures |h| <= |InsertMessage(h, m)| && forall i :: 0 <= i < |h| ==> InsertMessage(h, m)[i] == h[i]
  {
  }

  /**
   The converse of "shown as delivered only when acknowledged": from the moment a client takes an ack's mark,
   every outbound row of that message it has by then is shown as delivered, until a flush marks it.
   */
  lemma {:induction false} AckShowsDelivered(ws: seq<World>, acts: seq<Action>, j: nat, k: nat, d: DeviceId, i: nat)
    requires IsRun(ws, acts) && j < k < |ws| && acts[j] == Serving(d, AckMark) && CanServe(ws[j], d, AckMark)
    requires IsOutRow(ws[j], d, i, ws[j].clients[d].reader.msgId, ws[j].clients[d].reader.peer)
    requires var rd := ws[j].clients[d].reader;
      forall m :: j < m < k && acts[m] == Serving(d, FlushMark) ==> !MarksRow(ws[m], acts[m], d, rd.msgId, rd.peer)
    ensures var rd := ws[j].clients[d].reader;
      IsOutRow(ws[k], d, i, rd.msgId, rd.peer) && HasState(ws[k], d, i, Delivered)
    decreases k
  {
    var rd := ws[j].clients[d].reader;
    assert StepAt(ws, acts, k - 1);
    if k == j + 1 {
      MarkTakesEffect(ws[j], acts[j], d, i, rd.msgId, rd.peer);
    } else {
      AckShowsDelivered(ws, acts, j, k - 1, d, i);
      if MarksRow(ws[k - 1], acts[k - 1], d, rd.msgId, rd.peer) {
        MarkTakesEffect(ws[k - 1], acts[k - 1], d, i, rd.msgId, rd.peer);
      } else {
        NoMarkNoChange(ws[k - 1], acts[k - 1], d, i, rd.msgId, rd.peer);
      }
    }
  }
}
