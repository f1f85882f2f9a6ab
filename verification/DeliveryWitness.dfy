/**
 Concrete runs of the delivery machine. In each, Ann sends Bob one note and his acknowledgement comes back;
 what differs is what Ann's own goroutines have done by then.
 */
module DeliveryWitness {
  import opened Wire
  import opened ClientTables
  import opened OfflineQueue
  import opened Delivery

  ghost predicate Reachable(w: World) {
    exists ws, acts :: IsRun(ws, acts) && ws[|acts|] == w
  }

  lemma Step(w: World, a: Action)
    requires Reachable(w) && Enabled(w, a)
    ensures Reachable(Next(w, a))
  {
    var ws, acts :| IsRun(ws, acts) && ws[|acts|] == w;
    var ws', acts' := ws + [Next(w, a)], acts + [a];
    forall k | 0 <= k < |acts'| ensures StepAt(ws', acts', k) {
      if k < |acts| { assert StepAt(ws, acts, k); }
    }
    assert IsRun(ws', acts') && ws'[|acts'|] == Next(w, a);
  }

  const ANN: DeviceId := "a"
  const BOB: DeviceId := "b"
  const NOTE: MsgId := "m"
  const SEALED := Box(1, 2, Text("hi"))
  const PLAIN := Msg("", BOB, NOTE, SEALED)
  const STAMPED := Msg(ANN, BOB, NOTE, SEALED)
  const ROW := OutboxRow(NOTE, BOB, SEALED)
  const RECEIPT := Receipt(BOB, NOTE, ANN)
  const NO_LEDGER := Ledger(map[], {}, {}, {}, {}, {}, {})
  const BEGUN := NO_LEDGER.(sent := map[NOTE := Letter(ANN, BOB, "hi")])

  function Fresh(key: Key, peer: DeviceId, peerKey: Key): Client {
    Client(key, map[peer := peerKey], [], [], Listening, map[])
  }

  function Line(d: DeviceId): Conn { Conn(d, [], [], Idle, [], true, true) }

  /** Ann and Bob connected through the relay; the parts that matter vary. */
  function Stage(ann: Client, bob: Client, c0: Conn, c1: Conn, l: Ledger): World {
    World(map[ANN := ann, BOB := bob], [c0, c1], map[ANN := 0, BOB := 1], EMPTY, {ANN, BOB}, l)
  }

  // --- both connect ------------------------------------------------------------------

  function Lobby(conns: seq<Conn>, registry: map<DeviceId, nat>): World {
    World(map[ANN := Fresh(1, BOB, 2), BOB := Fresh(2, ANN, 1)], conns, registry, EMPTY, {}, NO_LEDGER)
  }

  lemma BothDial()
    ensures Reachable(Lobby([Line(ANN).(ready := false), Line(BOB).(ready := false)], map[]))
  {
    var a, b := Line(ANN).(ready := false), Line(BOB).(ready := false);
    var w := Lobby([], map[]);
    assert IsRun([w], []) && [w][0] == w;
    Step(w, Relaying(Dial(ANN)));
    assert Next(w, Relaying(Dial(ANN))) == Lobby([a], map[]);
    Step(Lobby([a], map[]), Relaying(Dial(BOB)));
    assert Next(Lobby([a], map[]), Relaying(Dial(BOB))) == Lobby([a, b], map[]);
  }

  lemma BothReady()
    ensures Reachable(Lobby([Line(ANN), Line(BOB)], map[]))
  {
    BothDial();
    var a, b := Line(ANN).(ready := false), Line(BOB).(ready := false);
    Step(Lobby([a, b], map[]), Relaying(MarkReady(0)));
    assert Next(Lobby([a, b], map[]), Relaying(MarkReady(0))) == Lobby([Line(ANN), b], map[]);
    Step(Lobby([Line(ANN), b], map[]), Relaying(MarkReady(1)));
    assert Next(Lobby([Line(ANN), b], map[]), Relaying(MarkReady(1))) == Lobby([Line(ANN), Line(BOB)], map[]);
  }

  lemma BothRegister()
    ensures Reachable(Lobby([Line(ANN), Line(BOB)], map[ANN := 0, BOB := 1]))
  {
    BothReady();
    var lines := [Line(ANN), Line(BOB)];
    Step(Lobby(lines, map[]), Relaying(Register(0)));
    assert Next(Lobby(lines, map[]), Relaying(Register(0))) == Lobby(lines, map[ANN := 0]);
    Step(Lobby(lines, map[ANN := 0]), Relaying(Register(1)));
    assert Next(Lobby(lines, map[ANN := 0]), Relaying(Register(1))) == Lobby(lines, map[ANN := 0, BOB := 1]);
  }

  lemma Connected()
    ensures Reachable(Stage(Fresh(1, BOB, 2), Fresh(2, ANN, 1), Line(ANN), Line(BOB), NO_LEDGER))
  {
    BothRegister();
    Step(Lobby([Line(ANN), Line(BOB)], map[ANN := 0, BOB := 1]), Relaying(Directory({ANN, BOB})));
  }

  // --- the note goes out, and the acknowledgement comes back --------------------------------

  function NoteUp(ann: Client, l: Ledger): World {
    Stage(ann, Fresh(2, ANN, 1), Line(ANN).(up := [PLAIN]), Line(BOB), l)
  }

  function NoteHandled(ann: Client, h: Handler, l: Ledger): World {
    Stage(ann, Fresh(2, ANN, 1), Line(ANN).(handler := h), Line(BOB), l)
  }

  function NoteDown(ann: Client, l: Ledger): World {
    Stage(ann, Fresh(2, ANN, 1), Line(ANN), Line(BOB).(down := [STAMPED]), l)
  }

  function HasNote(reader: Reader): Client {
    Fresh(2, ANN, 1).(history := [Message(NOTE, ANN, In, "hi", Received)], reader := reader)
  }

  function NoteStored(ann: Client, reader: Reader, c1: Conn, l: Ledger): World {
    Stage(ann, HasNote(reader), Line(ANN), c1, l)
  }

  function AckDown(ann: Client, l: Ledger): World {
    Stage(ann, HasNote(Listening), Line(ANN).(down := [Ack(NOTE, BOB)]), Line(BOB), l)
  }

  lemma RelayReads(ann: Client, l: Ledger)
    requires Reachable(NoteUp(ann, l))
    ensures Reachable(NoteHandled(ann, Route(STAMPED), l))
  {
    var w := NoteUp(ann, l);
    assert w.conns[0].up[1..] == [];
    Step(w, Relaying(Read(0, true)));
    assert Next(w, Relaying(Read(0, true))) == NoteHandled(ann, Route(STAMPED), l);
  }

  lemma RelayLooksUp(ann: Client, l: Ledger)
    requires Reachable(NoteHandled(ann, Route(STAMPED), l))
    ensures Reachable(NoteHandled(ann, Handler.Forward(1, STAMPED), l))
  {
    var w := NoteHandled(ann, Route(STAMPED), l);
    assert RouteTo(w, w.conns[0], STAMPED) == Handler.Forward(1, STAMPED);
    Step(w, Relaying(Lookup(0)));
    assert Next(w, Relaying(Lookup(0))) == NoteHandled(ann, Handler.Forward(1, STAMPED), l);
  }

  lemma RelayHandsOver(ann: Client, l: Ledger)
    requires Reachable(NoteHandled(ann, Handler.Forward(1, STAMPED), l))
    ensures Reachable(NoteDown(ann, l))
  {
    var w := NoteHandled(ann, Handler.Forward(1, STAMPED), l);
    assert w.conns[1].down + [STAMPED] == [STAMPED];
    Step(w, Relaying(HandOver(0, true)));
    assert Next(w, Relaying(HandOver(0, true))) == NoteDown(ann, l);
  }

  lemma BobStores(ann: Client, l: Ledger)
    requires Reachable(NoteDown(ann, l))
    ensures Reachable(NoteStored(ann, AckDue(1, NOTE, ANN, false), Line(BOB), l))
  {
    var w, bob := NoteDown(ann, l), Fresh(2, ANN, 1);
    assert Readable(bob.peers, bob.key, ANN, SEALED) == Some("hi");
    assert Incoming([], bob.peers, bob.key, ANN, NOTE, SEALED) == [Message(NOTE, ANN, In, "hi", Received)];
    assert w.conns[1].down[1..] == [];
    assert ServeClient(w, BOB, Receive(1)) == HasNote(AckDue(1, NOTE, ANN, false));
    assert ServeConns(w, BOB, Receive(1)) == [Line(ANN), Line(BOB)];
    Step(w, Serving(BOB, Receive(1)));
    assert Next(w, Serving(BOB, Receive(1))) == NoteStored(ann, AckDue(1, NOTE, ANN, false), Line(BOB), l);
  }

  function Acked(l: Ledger): Ledger { l.(acked := l.acked + {RECEIPT}) }

  lemma BobAcknowledges(ann: Client, l: Ledger)
    requires Reachable(NoteStored(ann, AckDue(1, NOTE, ANN, false), Line(BOB), l))
    ensures Reachable(NoteStored(ann, Listening, Line(BOB).(up := [Ack(NOTE, ANN)]), Acked(l)))
  {
    var w := NoteStored(ann, AckDue(1, NOTE, ANN, false), Line(BOB), l);
    assert w.conns[1].up + [Ack(NOTE, ANN)] == [Ack(NOTE, ANN)];
    assert ServeConns(w, BOB, SendAck(Written)) == [Line(ANN), Line(BOB).(up := [Ack(NOTE, ANN)])];
    assert ServeClient(w, BOB, SendAck(Written)) == HasNote(Listening);
    Step(w, Serving(BOB, SendAck(Written)));
    assert Next(w, Serving(BOB, SendAck(Written)))
        == NoteStored(ann, Listening, Line(BOB).(up := [Ack(NOTE, ANN)]), Acked(l));
  }

  lemma RelayReadsAck(ann: Client, l: Ledger)
    requires Reachable(NoteStored(ann, Listening, Line(BOB).(up := [Ack(NOTE, ANN)]), l))
    ensures Reachable(NoteStored(ann, Listening, Line(BOB).(handler := Route(Ack(NOTE, ANN))), l))
  {
    var w := NoteStored(ann, Listening, Line(BOB).(up := [Ack(NOTE, ANN)]), l);
    assert w.conns[1].up[1..] == [];
    Step(w, Relaying(Read(1, true)));
    assert Next(w, Relaying(Read(1, true))) == NoteStored(ann, Listening, Line(BOB).(handler := Route(Ack(NOTE, ANN))), l);
  }

  lemma RelayPassesAck(ann: Client, l: Ledger)
    requires Reachable(NoteStored(ann, Listening, Line(BOB).(handler := Route(Ack(NOTE, ANN))), l))
    ensures Reachable(AckDown(ann, l))
  {
    var w := NoteStored(ann, Listening, Line(BOB).(handler := Route(Ack(NOTE, ANN))), l);
    var found := NoteStored(ann, Listening, Line(BOB).(handler := Handler.Forward(0, Ack(NOTE, BOB))), l);
    assert RouteTo(w, w.conns[1], Ack(NOTE, ANN)) == Handler.Forward(0, Ack(NOTE, BOB));
    Step(w, Relaying(Lookup(1)));
    assert Next(w, Relaying(Lookup(1))) == found;
    assert found.conns[0].down + [Ack(NOTE, BOB)] == [Ack(NOTE, BOB)];
    Step(found, Relaying(HandOver(1, true)));
    assert Next(found, Relaying(HandOver(1, true))) == AckDown(ann, l);
  }

  /** Whatever Ann has done: once her frame is on its way, Bob's acknowledgement can be on its way back. */
  lemma Echo(ann: Client, l: Ledger)
    requires Reachable(NoteUp(ann, l))
    ensures Reachable(AckDown(ann, Acked(l)))
  {
    RelayReads(ann, l);
    RelayLooksUp(ann, l);
    RelayHandsOver(ann, l);
    BobStores(ann, l);
    BobAcknowledges(ann, l);
    RelayReadsAck(ann, Acked(l));
    RelayPassesAck(ann, Acked(l));
  }

  // --- Ann's side -----------------------------------------------------------------------------

  function InCall(op: SendOp, reader: Reader): Client {
    Fresh(1, BOB, 2).(sends := map[NOTE := op], reader := reader)
  }

  function Shows(s: MessageState, outbox: seq<OutboxRow>, reader: Reader): Client {
    Fresh(1, BOB, 2).(history := [Message(NOTE, BOB, Out, "hi", s)], outbox := outbox, reader := reader)
  }

  function Quiet(ann: Client, bob: Client, l: Ledger): World { Stage(ann, bob, Line(ANN), Line(BOB), l) }

  lemma Begins()
    ensures Reachable(Quiet(InCall(Sealed(BOB, "hi", SEALED), Listening), Fresh(2, ANN, 1), BEGUN))
  {
    Connected();
    var w := Quiet(Fresh(1, BOB, 2), Fresh(2, ANN, 1), NO_LEDGER);
    var a := Sending(ANN, Begin(NOTE, BOB, "hi"));
    Step(w, a);
    assert SendClient(w, ANN, a.s) == InCall(Sealed(BOB, "hi", SEALED), Listening);
    assert Next(w, a) == Quiet(InCall(Sealed(BOB, "hi", SEALED), Listening), Fresh(2, ANN, 1), BEGUN);
  }

  /** SendText's own write, whose frame leaves whatever it reports. */
  lemma Writes(o: Outcome)
    requires o.Placed()
    ensures Reachable(NoteUp(InCall(if o == Written then Recording(BOB, "hi", Sent) else Unsent(BOB, "hi", SEALED), Listening),
                             NoteWrite(BEGUN, NOTE, o, true)))
  {
    Begins();
    var w := Quiet(InCall(Sealed(BOB, "hi", SEALED), Listening), Fresh(2, ANN, 1), BEGUN);
    var write := Write(NOTE, 0, o);
    var ann := InCall(if o == Written then Recording(BOB, "hi", Sent) else Unsent(BOB, "hi", SEALED), Listening);
    assert SendClient(w, ANN, write) == ann;
    assert w.conns[0].up + [PLAIN] == [PLAIN];
    assert SendConns(w, ANN, write) == [Line(ANN).(up := [PLAIN]), Line(BOB)];
    Step(w, Sending(ANN, write));
    assert Next(w, Sending(ANN, write)) == NoteUp(ann, NoteWrite(BEGUN, NOTE, o, true));
  }

  /** SendText stashes the note, whatever else is on the way. */
  lemma Stashes(bob: Client, c0: Conn, reader: Reader, l: Ledger)
    requires Reachable(Stage(InCall(Unsent(BOB, "hi", SEALED), reader), bob, c0, Line(BOB), l))
    ensures Reachable(Stage(InCall(Recording(BOB, "hi", Queued), reader).(outbox := [ROW]), bob, c0, Line(BOB), l))
  {
    var w := Stage(InCall(Unsent(BOB, "hi", SEALED), reader), bob, c0, Line(BOB), l);
    var ann := InCall(Recording(BOB, "hi", Queued), reader).(outbox := [ROW]);
    assert EnqueueOutbox([], ROW) == [ROW];
    assert SendClient(w, ANN, Stash(NOTE)) == ann;
    Step(w, Sending(ANN, Stash(NOTE)));
    assert Next(w, Sending(ANN, Stash(NOTE))) == Stage(ann, bob, c0, Line(BOB), l);
  }

  /** SendText records its row and returns. */
  lemma Records(s: MessageState, outbox: seq<OutboxRow>, bob: Client, c0: Conn, reader: Reader, l: Ledger)
    requires s == Queued || s == Sent
    requires Reachable(Stage(InCall(Recording(BOB, "hi", s), reader).(outbox := outbox), bob, c0, Line(BOB), l))
    ensures Reachable(Stage(Shows(s, outbox, reader), bob, c0, Line(BOB), l.(returned := l.returned + {NOTE})))
  {
    var w := Stage(InCall(Recording(BOB, "hi", s), reader).(outbox := outbox), bob, c0, Line(BOB), l);
    var row := Message(NOTE, BOB, Out, "hi", s);
    assert InsertMessage([], row) == [row];
    assert w.clients[ANN].sends - {NOTE} == map[];
    assert SendClient(w, ANN, Record(NOTE)) == Shows(s, outbox, reader);
    Step(w, Sending(ANN, Record(NOTE)));
    assert Next(w, Sending(ANN, Record(NOTE)))
        == Stage(Shows(s, outbox, reader), bob, c0, Line(BOB), l.(returned := l.returned + {NOTE}));
  }

  /** Ann without the note in her outbox, the ack's state change still due. */
  function Cleared(ann: Client): Client { ann.(outbox := DeleteOutbox(ann.outbox, NOTE), reader := Acking(NOTE, BOB)) }

  lemma AckTaken(ann: Client, l: Ledger)
    requires ann.reader == Listening
    ensures var w := AckDown(ann, l);
      && CanServe(w, ANN, Receive(0)) && ServeClient(w, ANN, Receive(0)) == Cleared(ann)
      && ServeConns(w, ANN, Receive(0)) == [Line(ANN), Line(BOB)] && ServeLedger(w, ANN, Receive(0)) == l
  {
    assert AckDown(ann, l).conns[0].down[1..] == [];
  }

  /** Ann's reading goroutine takes the acknowledgement. */
  lemma TakesAck(ann: Client, l: Ledger)
    requires Reachable(AckDown(ann, l)) && ann.reader == Listening
    ensures Reachable(Quiet(Cleared(ann), HasNote(Listening), l))
  {
    AckTaken(ann, l);
    var w, bob := AckDown(ann, l), HasNote(Listening);
    Step(w, Serving(ANN, Receive(0)));
    assert w.clients[ANN := Cleared(ann)] == map[ANN := Cleared(ann), BOB := bob];
  }

  /** One step of Ann's reading goroutine that touches no connection. */
  lemma Serves(ann: Client, bob: Client, l: Ledger, r: ReadStep, ann': Client)
    requires Reachable(Quiet(ann, bob, l)) && (r.FlushStart? || r.FlushDelete? || r.FlushMark? || r.AckMark?)
    requires CanServe(Quiet(ann, bob, l), ANN, r) && ServeClient(Quiet(ann, bob, l), ANN, r) == ann'
    ensures Reachable(Quiet(ann', bob, l))
  {
    var w := Quiet(ann, bob, l);
    Step(w, Serving(ANN, r));
    assert Next(w, Serving(ANN, r)) == Quiet(ann', bob, l);
  }

  const UNCLEAN := BEGUN.(placed := {NOTE}, unclean := {NOTE})

  // --- lost from the outbox without a successful write -------------------------------------------

  /** Ann's SendText of the note has returned, yet the note is in no client's outbox and no write of it succeeded. */
  ghost predicate Lost(w: World) {
    && Reachable(w) && NOTE in w.ledger.returned && NOTE in w.ledger.sent && w.ledger.sent[NOTE] == Letter(ANN, BOB, "hi")
    && (forall d :: d in w.clients ==> NOTE !in OutboxIds(w.clients[d].outbox))
    && NOTE !in w.ledger.written
  }

  /** Its own write is enough: it fails although the frame leaves, and the ack clears the stash. */
  lemma DirectWriteCanLose() returns (w: World)
    ensures Lost(w) && w.ledger.unclean == {NOTE}
  {
    var l := Acked(UNCLEAN);
    Writes(FailedPlaced);
    Echo(InCall(Unsent(BOB, "hi", SEALED), Listening), UNCLEAN);
    Stashes(HasNote(Listening), Line(ANN).(down := [Ack(NOTE, BOB)]), Listening, l);
    Records(Queued, [ROW], HasNote(Listening), Line(ANN).(down := [Ack(NOTE, BOB)]), Listening, l);
    TakesAck(Shows(Queued, [ROW], Listening), l.(returned := {NOTE}));
    assert DeleteOutbox([ROW], NOTE) == [];
    w := Quiet(Shows(Queued, [], Acking(NOTE, BOB)), HasNote(Listening), l.(returned := {NOTE}));
  }

  /** SendText finds no connection, stashes the note and returns. */
  lemma StashedOffline()
    ensures Reachable(Quiet(Shows(Queued, [ROW], Listening), Fresh(2, ANN, 1), BEGUN.(returned := {NOTE})))
  {
    Begins();
    var w, bob := Quiet(InCall(Sealed(BOB, "hi", SEALED), Listening), Fresh(2, ANN, 1), BEGUN), Fresh(2, ANN, 1);
    assert SendClient(w, ANN, NoLink(NOTE)) == InCall(Unsent(BOB, "hi", SEALED), Listening);
    Step(w, Sending(ANN, NoLink(NOTE)));
    assert Next(w, Sending(ANN, NoLink(NOTE))) == Quiet(InCall(Unsent(BOB, "hi", SEALED), Listening), bob, BEGUN);
    Stashes(bob, Line(ANN), Listening, BEGUN);
    Records(Queued, [ROW], bob, Line(ANN), Listening, BEGUN);
  }

  /** So is a flush's write: here SendText itself never wrote. */
  lemma FlushWriteCanLose() returns (w: World)
    ensures Lost(w) && w.ledger.unclean == {}
  {
    var l := BEGUN.(returned := {NOTE});
    var ann := Shows(Queued, [ROW], Flushing(0, [ROW], AtSend));
    var bob := Fresh(2, ANN, 1);
    StashedOffline();
    Serves(Shows(Queued, [ROW], Listening), bob, l, FlushStart(0), ann);
    var due := Quiet(ann, bob, l);
    assert due.conns[0].up + [PLAIN] == [PLAIN] && ROW.Frame() == PLAIN;
    assert ServeConns(due, ANN, FlushSend(FailedPlaced)) == [Line(ANN).(up := [PLAIN]), Line(BOB)];
    Step(due, Serving(ANN, FlushSend(FailedPlaced)));
    assert Next(due, Serving(ANN, FlushSend(FailedPlaced)))
        == NoteUp(Shows(Queued, [ROW], Listening), l.(placed := {NOTE}));
    Echo(Shows(Queued, [ROW], Listening), l.(placed := {NOTE}));
    TakesAck(Shows(Queued, [ROW], Listening), Acked(l.(placed := {NOTE})));
    assert DeleteOutbox([ROW], NOTE) == [];
    w := Quiet(Shows(Queued, [], Acking(NOTE, BOB)), HasNote(Listening), Acked(l.(placed := {NOTE})));
  }

  /** Either kind of write that fails although its frame left can leave a returned note neither stashed nor written. */
  lemma UncleanWriteCanLose()
    ensures exists w :: Lost(w) && w.ledger.unclean == {NOTE}
    ensures exists w :: Lost(w) && w.ledger.unclean == {}
  {
    var w := DirectWriteCanLose();
    var w' := FlushWriteCanLose();
  }

  // --- an ack before its row ---------------------------------------------------------------------

  /** Bob's acknowledgement has been taken and marked, nothing is left on its way, and the row still shows the note as merely sent. */
  ghost predicate Unmarked(w: World) {
    && Reachable(w) && ANN in w.clients && RECEIPT in w.ledger.acked && RECEIPT !in w.ledger.blind
    && w.clients[ANN].history == [Message(NOTE, BOB, Out, "hi", Sent)] && w.clients[ANN].reader == Listening
    && (forall d :: d in w.clients ==> w.clients[d].outbox == [] && w.clients[d].sends == map[] && w.clients[d].reader == Listening)
    && w.queue.rows == []
    && forall i :: 0 <= i < |w.conns| ==> Silent(w.conns[i])
  }

  /** Nothing is on its way on the connection, nor in the relay's hands. */
  predicate Silent(c: Conn) {
    c.up == [] && c.down == [] && c.handler == Idle && c.draining == []
  }

  function Beaten(): World {
    Quiet(Shows(Sent, [], Listening), HasNote(Listening),
          BEGUN.(placed := {NOTE}, written := {NOTE}, acked := {RECEIPT}, returned := {NOTE}))
  }

  lemma AckMarksNothing(l: Ledger)
    requires Reachable(Quiet(InCall(Recording(BOB, "hi", Sent), Acking(NOTE, BOB)), HasNote(Listening), l))
    ensures Reachable(Quiet(InCall(Recording(BOB, "hi", Sent), Listening), HasNote(Listening), l))
  {
    var op := Recording(BOB, "hi", Sent);
    assert SetState([], NOTE, BOB, Out, Delivered) == [];
    Serves(InCall(op, Acking(NOTE, BOB)), HasNote(Listening), l, AckMark, InCall(op, Listening));
  }

  lemma AckBeatsRow()
    ensures Reachable(Beaten())
  {
    var l := NoteWrite(BEGUN, NOTE, Written, true);
    var op := Recording(BOB, "hi", Sent);
    Writes(Written);
    Echo(InCall(op, Listening), l);
    TakesAck(InCall(op, Listening), Acked(l));
    assert Cleared(InCall(op, Listening)) == InCall(op, Acking(NOTE, BOB));
    AckMarksNothing(Acked(l));
    Records(Sent, [], HasNote(Listening), Line(ANN), Listening, Acked(l));
  }

  /** An ack can arrive between SendText's write and its insert, and then marks nothing. */
  lemma AckCanBeatRow()
    ensures exists w :: Unmarked(w)
  {
    AckBeatsRow();
    assert Unmarked(Beaten());
  }

  // --- from delivered back to sent -----------------------------------------------------------------

  /** The ack's two effects around SendText's last two: the note shows as delivered while it is stashed. */
  lemma DeliveredYetStashed()
    ensures Reachable(Quiet(Shows(Delivered, [ROW], Listening), HasNote(Listening), Acked(UNCLEAN).(returned := {NOTE})))
  {
    var l, bob := Acked(UNCLEAN), HasNote(Listening);
    Writes(FailedPlaced);
    Echo(InCall(Unsent(BOB, "hi", SEALED), Listening), UNCLEAN);
    TakesAck(InCall(Unsent(BOB, "hi", SEALED), Listening), l);
    Stashes(bob, Line(ANN), Acking(NOTE, BOB), l);
    Records(Queued, [ROW], bob, Line(ANN), Acking(NOTE, BOB), l);
    var row := Message(NOTE, BOB, Out, "hi", Queued);
    assert SetState([row], NOTE, BOB, Out, Delivered) == [row.(state := Delivered)];
    Serves(Shows(Queued, [ROW], Acking(NOTE, BOB)), bob, l.(returned := {NOTE}), AckMark, Shows(Delivered, [ROW], Listening));
  }

  lemma FlushedAgain() returns (l: Ledger)
    ensures l.unclean == {NOTE}
    ensures Reachable(Stage(Shows(Delivered, [ROW], Flushing(0, [ROW], AtDelete)), HasNote(Listening),
                            Line(ANN).(up := [PLAIN]), Line(BOB), l))
  {
    var l0, bob := Acked(UNCLEAN).(returned := {NOTE}), HasNote(Listening);
    var ann := Shows(Delivered, [ROW], Flushing(0, [ROW], AtSend));
    DeliveredYetStashed();
    Serves(Shows(Delivered, [ROW], Listening), bob, l0, FlushStart(0), ann);
    var due := Quiet(ann, bob, l0);
    l := NoteWrite(l0, NOTE, Written, false);
    assert due.conns[0].up + [PLAIN] == [PLAIN] && ROW.Frame() == PLAIN;
    assert ServeConns(due, ANN, FlushSend(Written)) == [Line(ANN).(up := [PLAIN]), Line(BOB)];
    Step(due, Serving(ANN, FlushSend(Written)));
  }

  /** Step `a` takes a row of a reachable world back from delivered to sent, after one unclean write. */
  ghost predicate Regresses(w: World, a: Action) {
    && Reachable(w) && Enabled(w, a)
    && ANN in w.clients && ANN in Next(w, a).clients && w.ledger.unclean == {NOTE}
    && w.clients[ANN].history == [Message(NOTE, BOB, Out, "hi", Delivered)]
    && Next(w, a).clients[ANN].history == [Message(NOTE, BOB, Out, "hi", Sent)]
  }

  /**
   The exception is real: after one write that failed although its frame left, a run leads to a step
   that takes a row back from delivered to sent.
   */
  lemma UncleanFailureCanRegress()
    ensures exists w, a :: Regresses(w, a)
  {
    var l := FlushedAgain();
    var due := Stage(Shows(Delivered, [ROW], Flushing(0, [ROW], AtDelete)), HasNote(Listening),
                     Line(ANN).(up := [PLAIN]), Line(BOB), l);
    Step(due, Serving(ANN, FlushDelete));
    var w, a := Next(due, Serving(ANN, FlushDelete)), Serving(ANN, FlushMark);
    assert Next(w, a).clients[ANN] == MarkedC(w.clients[ANN], ROW);
    assert Regresses(w, a);
  }
}
