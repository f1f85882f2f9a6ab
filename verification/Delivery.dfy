/**
 The message-delivery protocol as a machine over single effects: each client's UI goroutine runs
 the steps of SendText between the steps of the one goroutine that reads, flushes and acknowledges;
 the relay's handlers read, look up, and hand over or store one frame at a time.
 */
module Delivery {
  import opened Wire
  import opened ClientTables
  import opened OfflineQueue

  /** What SendText was asked to deliver. */
  datatype Letter = Letter(from: DeviceId, to: DeviceId, text: string)

  /** `acker` acknowledged message `msgId` of `sender`. */
  datatype Receipt = Receipt(acker: DeviceId, msgId: MsgId, sender: DeviceId)

  /** History variables: nothing in the protocol reads them. */
  datatype Ledger = Ledger(
    sent: map<MsgId, Letter>,   // every message id given out, with its letter
    placed: set<MsgId>,         // its frame left on some connection
    written: set<MsgId>,        // some write of it reported success
    unclean: set<MsgId>,        // SendText's own write reported failure although the frame left
    returned: set<MsgId>,       // SendText returned successfully
    acked: set<Receipt>,        // an ack frame left on the acknowledger's own connection
    blind: set<Receipt>)        // such an ack left for a message that was not stored

  /** Where one SendText call is: before its write, before its enqueue, before its insert. */
  datatype SendOp =
    | Sealed(to: DeviceId, text: string, box: Box)
    | Unsent(to: DeviceId, text: string, box: Box)
    | Recording(to: DeviceId, text: string, state: MessageState)

  datatype Phase = AtSend | AtDelete | AtMark

  /** What the client's single reading goroutine is doing. */
  datatype Reader =
    | Listening
    | Flushing(conn: nat, rows: seq<OutboxRow>, phase: Phase)
    | AckDue(conn: nat, msgId: MsgId, peer: DeviceId, unread: bool)
    | Acking(msgId: MsgId, peer: DeviceId)

  datatype Client = Client(
    key: Key, peers: map<DeviceId, Key>, history: seq<Message>, outbox: seq<OutboxRow>,
    reader: Reader, sends: map<MsgId, SendOp>)

  /** What the relay goroutine of one connection is doing with the frame it read. */
  datatype Handler = Idle | Route(frame: Frame) | Forward(dst: nat, frame: Frame) | Store(frame: Frame)

  datatype Conn = Conn(
    device: DeviceId, up: seq<Frame>, down: seq<Frame>, handler: Handler,
    draining: seq<Frame>, ready: bool, open: bool)

  datatype World = World(
    clients: map<DeviceId, Client>, conns: seq<Conn>, registry: map<DeviceId, nat>,
    queue: Table, active: set<DeviceId>, ledger: Ledger)

  /** The effects of one SendText call, in the order the UI goroutine performs them. */
  datatype SendStep =
    | Begin(id: MsgId, to: DeviceId, text: string)
    | Write(id: MsgId, i: nat, o: Outcome)
    | NoLink(id: MsgId)
    | Stash(id: MsgId)
    | Record(id: MsgId)

  /** The effects of the client's reading goroutine, and the two that happen around it. */
  datatype ReadStep =
    | FlushStart(i: nat)
    | FlushSend(o: Outcome)
    | FlushDelete
    | FlushMark
    | FlushEnd
    | Receive(i: nat)
    | SendAck(o: Outcome)
    | AckMark
    | Restart
    | Roster(peers: map<DeviceId, Key>)

  /** Connections, the registry, and the relay's handlers. */
  datatype RelayStep =
    | Dial(device: DeviceId)
    | MarkReady(i: nat)
    | Register(i: nat)
    | Unregister(i: nat)
    | Cut(i: nat, nUp: nat, nDown: nat)
    | Read(i: nat, admitted: bool)
    | Lookup(i: nat)
    | HandOver(i: nat, ok: bool)
    | EnqueueMsg(i: nat, cap: int, now: int)
    | DrainStart(i: nat)
    | DrainSend(i: nat, ok: bool)
    | Expire(retention: int, now: int)
    | Directory(active: set<DeviceId>)

  datatype Action = Sending(d: DeviceId, s: SendStep) | Serving(d: DeviceId, r: ReadStep) | Relaying(x: RelayStep)

  // --- steps -----------------------------------------------------------------

  predicate Mine(w: World, d: DeviceId, i: nat) {
    d in w.clients && i < |w.conns| && w.conns[i].device == d
  }

  predicate AtPhase(c: Client, p: Phase) {
    c.reader.Flushing? && c.reader.phase == p && c.reader.rows != []
  }

  predicate CanPlace(w: World, i: nat, o: Outcome) {
    i < |w.conns| && (o.Placed() ==> w.conns[i].open)
  }

  predicate CanSend(w: World, d: DeviceId, s: SendStep) {
    && d in w.clients
    && (!s.Begin? ==> s.id in w.clients[d].sends)
    && match s
       case Begin(id, to, _) => to in w.clients[d].peers && id != "" && id !in w.ledger.sent
       case Write(id, i, o) => w.clients[d].sends[id].Sealed? && Mine(w, d, i) && CanPlace(w, i, o)
       case NoLink(id) => w.clients[d].sends[id].Sealed?
       case Stash(id) => w.clients[d].sends[id].Unsent?
       case Record(id) => w.clients[d].sends[id].Recording?
  }

  predicate CanServe(w: World, d: DeviceId, r: ReadStep) {
    && d in w.clients
    && match r
       case FlushStart(i) => Mine(w, d, i) && w.clients[d].reader.Listening?
       case FlushSend(o) => AtPhase(w.clients[d], AtSend) && CanPlace(w, w.clients[d].reader.conn, o)
       case FlushDelete => AtPhase(w.clients[d], AtDelete)
       case FlushMark => AtPhase(w.clients[d], AtMark)
       case FlushEnd => w.clients[d].reader.Flushing? && w.clients[d].reader.rows == []
       case Receive(i) => Mine(w, d, i) && w.clients[d].reader.Listening? && w.conns[i].down != []
       case SendAck(o) => w.clients[d].reader.AckDue? && CanPlace(w, w.clients[d].reader.conn, o)
       case AckMark => w.clients[d].reader.Acking?
       case Restart => true
       case Roster(_) => true
  }

  predicate CanRelay(w: World, x: RelayStep) {
    match x
    case Dial(d) => d in w.clients
    case MarkReady(i) => i < |w.conns|
    case Register(i) => i < |w.conns|
    case Unregister(i) => i < |w.conns|
    case Cut(i, u, n) => i < |w.conns| && u <= |w.conns[i].up| && n <= |w.conns[i].down|
    case Read(i, _) => i < |w.conns| && w.conns[i].handler.Idle? && w.conns[i].up != []
    case Lookup(i) => i < |w.conns| && w.conns[i].handler.Route?
    case HandOver(i, ok) =>
      i < |w.conns| && w.conns[i].handler.Forward? &&
      w.conns[i].handler.dst < |w.conns| && (ok ==> w.conns[w.conns[i].handler.dst].open)
    case EnqueueMsg(i, _, _) => i < |w.conns| && w.conns[i].handler.Store? && w.conns[i].handler.frame.Msg?
    case DrainStart(i) => i < |w.conns| && w.conns[i].ready && w.conns[i].draining == []
    case DrainSend(i, ok) => i < |w.conns| && w.conns[i].draining != [] && (ok ==> w.conns[i].open)
    case Expire(_, _) => true
    case Directory(_) => true
  }

  predicate Enabled(w: World, a: Action) {
    match a
    case Sending(d, s) => CanSend(w, d, s)
    case Serving(d, r) => CanServe(w, d, r)
    case Relaying(x) => CanRelay(w, x)
  }

  /** A client's frame enters the connection when the write really placed it. */
  ghost function PlaceUp(conns: seq<Conn>, i: nat, f: Frame, o: Outcome): seq<Conn>
    requires i < |conns|
  {
    if o.Placed() then conns[i := conns[i].(up := conns[i].up + [f])] else conns
  }

  ghost function NoteWrite(l: Ledger, id: MsgId, o: Outcome, direct: bool): Ledger {
    l.(placed := if o.Placed() then l.placed + {id} else l.placed,
       written := if o == Written then l.written + {id} else l.written,
       unclean := if direct && o == FailedPlaced then l.unclean + {id} else l.unclean)
  }

  ghost function NoteAck(l: Ledger, r: Receipt, unread: bool, o: Outcome): Ledger {
    if !o.Placed() then l
    else l.(acked := l.acked + {r}, blind := if unread then l.blind + {r} else l.blind)
  }

  // What each effect does to the client that performs it.

  ghost function BeginC(c: Client, id: MsgId, to: DeviceId, text: string): Client
    requires to in c.peers
  {
    c.(sends := c.sends[id := Sealed(to, text, Seal(Text(text), c.key, c.peers[to]))])
  }

  ghost function WriteC(c: Client, id: MsgId, op: SendOp, o: Outcome): Client
    requires op.Sealed?
  {
    c.(sends := c.sends[id := if o == Written then Recording(op.to, op.text, Sent) else Unsent(op.to, op.text, op.box)])
  }

  ghost function StashC(c: Client, id: MsgId, op: SendOp): Client
    requires op.Unsent?
  {
    c.(outbox := EnqueueOutbox(c.outbox, OutboxRow(id, op.to, op.box)),
       sends := c.sends[id := Recording(op.to, op.text, Queued)])
  }

  ghost function RecordC(c: Client, id: MsgId, op: SendOp): Client
    requires op.Recording?
  {
    c.(history := InsertMessage(c.history, Message(id, op.to, Out, op.text, op.state)), sends := c.sends - {id})
  }

  ghost function SentC(c: Client, o: Outcome): Client
    requires c.reader.Flushing?
  {
    c.(reader := if o == Written then c.reader.(phase := AtDelete) else Listening)
  }

  ghost function DeletedC(c: Client, row: OutboxRow): Client
    requires c.reader.Flushing?
  {
    c.(outbox := DeleteOutbox(c.outbox, row.msgId), reader := c.reader.(phase := AtMark))
  }

  ghost function MarkedC(c: Client, row: OutboxRow): Client
    requires c.reader.Flushing? && c.reader.rows != []
  {
    c.(history := SetState(c.history, row.msgId, row.peer, Out, Sent),
       reader := c.reader.(rows := c.reader.rows[1..], phase := AtSend))
  }

  /** One frame from the relay, as the client's dispatch handles it up to its first effect. */
  ghost function ReceiveC(c: Client, i: nat, f: Frame): Client {
    match f
    case Msg(from, _, id, box) =>
      if from == "" then c
      else c.(history := Incoming(c.history, c.peers, c.key, from, id, box),
              reader := AckDue(i, id, from, Readable(c.peers, c.key, from, box) == None))
    case Ack(id, peer) =>
      if id == "" || peer == "" then c
      else c.(outbox := DeleteOutbox(c.outbox, id), reader := Acking(id, peer))
  }

  ghost function AckMarkedC(c: Client, id: MsgId, peer: DeviceId): Client {
    c.(history := SetState(c.history, id, peer, Out, Delivered), reader := Listening)
  }

  // A client step changes one client, the ledger and at most one connection.

  ghost function SendClient(w: World, d: DeviceId, s: SendStep): Client
    requires CanSend(w, d, s)
  {
    var c := w.clients[d];
    match s
    case Begin(id, to, text) => BeginC(c, id, to, text)
    case Write(id, _, o) => WriteC(c, id, c.sends[id], o)
    case NoLink(id) => WriteC(c, id, c.sends[id], FailedClean)
    case Stash(id) => StashC(c, id, c.sends[id])
    case Record(id) => RecordC(c, id, c.sends[id])
  }

  ghost function SendLedger(w: World, d: DeviceId, s: SendStep): Ledger {
    var l := w.ledger;
    match s
    case Begin(id, to, text) => l.(sent := l.sent[id := Letter(d, to, text)])
    case Write(id, _, o) => NoteWrite(l, id, o, true)
    case Record(id) => l.(returned := l.returned + {id})
    case _ => l
  }

  ghost function SendConns(w: World, d: DeviceId, s: SendStep): seq<Conn>
    requires CanSend(w, d, s)
  {
    if s.Write?
    then PlaceUp(w.conns, s.i, Msg("", w.clients[d].sends[s.id].to, s.id, w.clients[d].sends[s.id].box), s.o)
    else w.conns
  }

  ghost function ServeClient(w: World, d: DeviceId, r: ReadStep): Client
    requires CanServe(w, d, r)
  {
    var c := w.clients[d];
    match r
    case FlushStart(i) => c.(reader := Flushing(i, c.outbox, AtSend))
    case FlushSend(o) => SentC(c, o)
    case FlushDelete => DeletedC(c, c.reader.rows[0])
    case FlushMark => MarkedC(c, c.reader.rows[0])
    case FlushEnd => c.(reader := Listening)
    case Receive(i) => ReceiveC(c, i, w.conns[i].down[0])
    case SendAck(_) => c.(reader := Listening)
    case AckMark => AckMarkedC(c, c.reader.msgId, c.reader.peer)
    case Restart => c.(reader := Listening, sends := map[])
    case Roster(peers) => c.(peers := peers)
  }

  ghost function ServeLedger(w: World, d: DeviceId, r: ReadStep): Ledger
    requires CanServe(w, d, r)
  {
    var l, rd := w.ledger, w.clients[d].reader;
    match r
    case FlushSend(o) => NoteWrite(l, rd.rows[0].msgId, o, false)
    case SendAck(o) => NoteAck(l, Receipt(d, rd.msgId, rd.peer), rd.unread, o)
    case _ => l
  }

  ghost function ServeConns(w: World, d: DeviceId, r: ReadStep): seq<Conn>
    requires CanServe(w, d, r)
  {
    var rd, conns := w.clients[d].reader, w.conns;
    match r
    case FlushSend(o) => PlaceUp(conns, rd.conn, rd.rows[0].Frame(), o)
    case Receive(i) => conns[i := conns[i].(down := conns[i].down[1..])]
    case SendAck(o) => PlaceUp(conns, rd.conn, Ack(rd.msgId, rd.peer), o)
    case _ => conns
  }

  ghost function SetConn(w: World, i: nat, c: Conn): World
    requires i < |w.conns|
  {
    w.(conns := w.conns[i := c])
  }

  /** The relay accepts a frame: it stamps the sender, or purges the acknowledged queue row. */
  ghost function Accept(w: World, i: nat, f: Frame): World
    requires i < |w.conns|
  {
    var c := w.conns[i];
    match f
    case Msg(_, to, id, box) =>
      if to == "" || id == "" || to !in w.active then w
      else SetConn(w, i, c.(handler := Route(Msg(c.device, to, id, box))))
    case Ack(id, peer) =>
      if id == "" || peer == "" then w
      else SetConn(w, i, c.(handler := Route(f))).(queue := AckQueued(w.queue, c.device, peer, id))
  }

  predicate IsOnline(w: World, d: DeviceId) {
    d in w.registry && w.registry[d] < |w.conns| && w.conns[w.registry[d]].ready
  }

  ghost function RouteTo(w: World, c: Conn, f: Frame): Handler {
    match f
    case Msg(_, to, _, _) => if IsOnline(w, to) then Forward(w.registry[to], f) else Store(f)
    case Ack(id, peer) => if IsOnline(w, peer) then Forward(w.registry[peer], Ack(id, c.device)) else Idle
  }

  ghost function DrainFrames(q: Table, d: DeviceId): seq<Frame> {
    var l := Entries(q.rows, d);
    seq(|l|, k requires 0 <= k < |l| => Msg(l[k].msg.sender, d, l[k].msg.msgId, l[k].msg.box))
  }

  ghost function PushDown(w: World, i: nat, f: Frame, ok: bool): World
    requires i < |w.conns|
  {
    if ok then SetConn(w, i, w.conns[i].(down := w.conns[i].down + [f])) else w
  }

  ghost function NextRelay(w: World, x: RelayStep): World
    requires CanRelay(w, x)
  {
    match x
    case Dial(d) => w.(conns := w.conns + [Conn(d, [], [], Idle, [], false, true)])
    case MarkReady(i) => SetConn(w, i, w.conns[i].(ready := true))
    case Register(i) =>
      var d := w.conns[i].device;
      var w' := if d in w.registry && w.registry[d] < |w.conns|
                then SetConn(w, w.registry[d], w.conns[w.registry[d]].(open := false)) else w;
      w'.(registry := w.registry[d := i])
    case Unregister(i) =>
      var d := w.conns[i].device;
      if d in w.registry && w.registry[d] == i then w.(registry := w.registry - {d}) else w
    case Cut(i, u, n) =>
      SetConn(w, i, w.conns[i].(open := false, up := w.conns[i].up[..u], down := w.conns[i].down[..n]))
    case Read(i, admitted) =>
      var c := w.conns[i];
      var w' := SetConn(w, i, c.(up := c.up[1..]));
      if admitted && c.ready then Accept(w', i, c.up[0]) else w'
    case Lookup(i) =>
      var c := w.conns[i];
      SetConn(w, i, c.(handler := RouteTo(w, c, c.handler.frame)))
    case HandOver(i, ok) =>
      var c := w.conns[i];
      PushDown(SetConn(w, i, c.(handler := Idle)), c.handler.dst, c.handler.frame, ok)
    case EnqueueMsg(i, cap, now) =>
      var c := w.conns[i];
      var f := c.handler.frame;
      SetConn(w, i, c.(handler := Idle))
        .(queue := Enqueue(w.queue, f.to, QueuedMsg(f.from, f.msgId, f.box), cap, now))
    case DrainStart(i) => SetConn(w, i, w.conns[i].(draining := DrainFrames(w.queue, w.conns[i].device)))
    case DrainSend(i, ok) =>
      var c := w.conns[i];
      PushDown(SetConn(w, i, c.(draining := c.draining[1..])), i, c.draining[0], ok)
    case Expire(retention, now) => w.(queue := Purge(w.queue, retention, now))
    case Directory(active) => w.(active := active)
  }

  ghost function WithClient(w: World, d: DeviceId, c: Client, l: Ledger, conns: seq<Conn>): World {
    w.(clients := w.clients[d := c], ledger := l, conns := conns)
  }

  ghost function Next(w: World, a: Action): World
    requires Enabled(w, a)
  {
    match a
    case Sending(d, s) => WithClient(w, d, SendClient(w, d, s), SendLedger(w, d, s), SendConns(w, d, s))
    case Serving(d, r) => WithClient(w, d, ServeClient(w, d, r), ServeLedger(w, d, r), ServeConns(w, d, r))
    case Relaying(x) => NextRelay(w, x)
  }

  /** Enrolled clients with empty tables, no connection and an empty relay. */
  ghost predicate Initial(w: World) {
    && (forall d :: d in w.clients ==>
          w.clients[d].history == [] && w.clients[d].outbox == [] &&
          w.clients[d].reader == Listening && w.clients[d].sends == map[])
    && w.conns == [] && w.registry == map[] && w.queue == EMPTY
    && w.ledger == Ledger(map[], {}, {}, {}, {}, {}, {})
  }

  ghost predicate StepAt(ws: seq<World>, acts: seq<Action>, k: nat)
    requires |ws| == |acts| + 1 && k < |acts|
  {
    Enabled(ws[k], acts[k]) && ws[k + 1] == Next(ws[k], acts[k])
  }

  /** `ws` is a run: it starts initially and every step is an enabled action. */
  ghost predicate IsRun(ws: seq<World>, acts: seq<Action>) {
    && |ws| == |acts| + 1
    && Initial(ws[0])
    && forall k :: 0 <= k < |acts| ==> StepAt(ws, acts, k)
  }
}
