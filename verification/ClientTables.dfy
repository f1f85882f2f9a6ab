/** The client's history and outbox tables, and the handlers that update them. */
module ClientTables {
  import opened Wire

  datatype Direction = In | Out

  datatype MessageState = Received | Queued | Sent | Delivered

  datatype Message = Message(msgId: MsgId, peer: DeviceId, dir: Direction, body: string, state: MessageState) {
    predicate KeyIs(id: MsgId, p: DeviceId, d: Direction) {
      msgId == id && peer == p && dir == d
    }
  }

  datatype OutboxRow = OutboxRow(msgId: MsgId, peer: DeviceId, box: Box) {
    /** The frame a client writes for this row. */
    function Frame(): Frame { Msg("", peer, msgId, box) }
  }

  /** How far an outbound row has got; inbound rows have no progress. */
  function Rank(s: MessageState): nat {
    match s
    case Received => 0
    case Queued => 1
    case Sent => 2
    case Delivered => 3
  }

  // --- history table ---------------------------------------------------------

  ghost predicate HasKey(h: seq<Message>, id: MsgId, peer: DeviceId, dir: Direction) {
    exists i :: 0 <= i < |h| && h[i].KeyIs(id, peer, dir)
  }

  ghost predicate UniqueKeys(h: seq<Message>) {
    forall i, j :: 0 <= i < j < |h| ==> !h[i].KeyIs(h[j].msgId, h[j].peer, h[j].dir)
  }

  /** INSERT OR IGNORE under UNIQUE(msg_id, peer_id, direction). */
  ghost function InsertMessage(h: seq<Message>, m: Message): seq<Message> {
    if HasKey(h, m.msgId, m.peer, m.dir) then h else h + [m]
  }

  ghost function SetState(h: seq<Message>, id: MsgId, peer: DeviceId, dir: Direction, s: MessageState): seq<Message> {
    seq(|h|, i requires 0 <= i < |h| => if h[i].KeyIs(id, peer, dir) then h[i].(state := s) else h[i])
  }

  /** Rows keep their place and key, and only the state may differ. */
  ghost predicate SameRows(h: seq<Message>, h': seq<Message>) {
    && |h| <= |h'|
    && forall i :: 0 <= i < |h| ==> h[i] == h'[i].(state := h[i].state)
  }

  /** Ids of outbound rows, and of those already shown as delivered. */
  ghost function OutIds(h: seq<Message>): set<MsgId> {
    set i | 0 <= i < |h| && h[i].dir == Out :: h[i].msgId
  }

  ghost function DeliveredIds(h: seq<Message>): set<MsgId> {
    set i | 0 <= i < |h| && h[i].dir == Out && h[i].state == Delivered :: h[i].msgId
  }

  lemma InsertChangesIds(h: seq<Message>, m: Message)
    requires m.state != Delivered
    ensures OutIds(InsertMessage(h, m)) <= OutIds(h) + (if m.dir == Out then {m.msgId} else {})
    ensures DeliveredIds(InsertMessage(h, m)) == DeliveredIds(h)
  {
    var h' := InsertMessage(h, m);
    assert forall i :: 0 <= i < |h| ==> h'[i] == h[i];
    forall id | id in DeliveredIds(h) ensures id in DeliveredIds(h') {
      var i :| 0 <= i < |h| && h[i].dir == Out && h[i].state == Delivered && h[i].msgId == id;
      assert h'[i] == h[i];
    }
  }

  lemma SetStateChangesIds(h: seq<Message>, id: MsgId, peer: DeviceId, s: MessageState)
    ensures OutIds(SetState(h, id, peer, Out, s)) == OutIds(h)
    ensures DeliveredIds(SetState(h, id, peer, Out, s)) <= DeliveredIds(h) + (if s == Delivered then {id} else {})
  {
    var h' := SetState(h, id, peer, Out, s);
    forall x | x in OutIds(h) ensures x in OutIds(h') {
      var i :| 0 <= i < |h| && h[i].dir == Out && h[i].msgId == x;
      assert h'[i].dir == Out && h'[i].msgId == x;
    }
  }

  /** A row is added, at the end, exactly when none with its id, peer and direction is there. */
  lemma InsertMeaning(h: seq<Message>, m: Message)
    ensures InsertMessage(h, m) ==
      if exists i :: 0 <= i < |h| && h[i].msgId == m.msgId && h[i].peer == m.peer && h[i].dir == m.dir then h else h + [m]
  {
    if exists i :: 0 <= i < |h| && h[i].msgId == m.msgId && h[i].peer == m.peer && h[i].dir == m.dir {
      var i :| 0 <= i < |h| && h[i].msgId == m.msgId && h[i].peer == m.peer && h[i].dir == m.dir;
      assert h[i].KeyIs(m.msgId, m.peer, m.dir);
    }
  }

  lemma InsertKeepsRows(h: seq<Message>, m: Message)
    ensures SameRows(h, InsertMessage(h, m))
    ensures UniqueKeys(h) ==> UniqueKeys(InsertMessage(h, m))
    ensures HasKey(InsertMessage(h, m), m.msgId, m.peer, m.dir)
  {
    var h' := InsertMessage(h, m);
    if h' != h {
      assert h'[|h|].KeyIs(m.msgId, m.peer, m.dir);
    }
  }

  lemma SetStateKeepsRows(h: seq<Message>, id: MsgId, peer: DeviceId, dir: Direction, s: MessageState)
    ensures SameRows(h, SetState(h, id, peer, dir, s)) && |SetState(h, id, peer, dir, s)| == |h|
    ensures UniqueKeys(h) ==> UniqueKeys(SetState(h, id, peer, dir, s))
  {
  }

  /** A key once in the history stays there. */
  lemma KeysStay(h: seq<Message>, h': seq<Message>, id: MsgId, peer: DeviceId, dir: Direction)
    requires SameRows(h, h') && HasKey(h, id, peer, dir)
    ensures HasKey(h', id, peer, dir)
  {
    var i :| 0 <= i < |h| && h[i].KeyIs(id, peer, dir);
    assert h'[i].KeyIs(id, peer, dir);
  }

  // --- outbox table ----------------------------------------------------------

  ghost function OutboxIds(o: seq<OutboxRow>): set<MsgId> {
    set i | 0 <= i < |o| :: o[i].msgId
  }

  ghost predicate UniqueIds(o: seq<OutboxRow>) {
    forall i, j :: 0 <= i < j < |o| ==> o[i].msgId != o[j].msgId
  }

  function DeleteOutbox(o: seq<OutboxRow>, id: MsgId): (r: seq<OutboxRow>)
    ensures forall x :: x in r <==> x in o && x.msgId != id
  {
    if o == [] then [] else
      (if o[0].msgId == id then [] else [o[0]]) + DeleteOutbox(o[1..], id)
  }

  /** INSERT OR REPLACE on the primary key: the new row takes the last place. */
  function EnqueueOutbox(o: seq<OutboxRow>, row: OutboxRow): seq<OutboxRow> {
    DeleteOutbox(o, row.msgId) + [row]
  }

  lemma OutboxIdsChange(o: seq<OutboxRow>, row: OutboxRow)
    ensures OutboxIds(DeleteOutbox(o, row.msgId)) == OutboxIds(o) - {row.msgId}
    ensures OutboxIds(EnqueueOutbox(o, row)) == OutboxIds(o) + {row.msgId}
  {
    var o' := DeleteOutbox(o, row.msgId);
    forall id ensures id in OutboxIds(o') <==> id in OutboxIds(o) && id != row.msgId {
      if id in OutboxIds(o) && id != row.msgId {
        var i :| 0 <= i < |o| && o[i].msgId == id;
        assert o[i] in o';
      }
      if id in OutboxIds(o') {
        var i :| 0 <= i < |o'| && o'[i].msgId == id;
        assert o'[i] in o;
      }
    }
    var q := EnqueueOutbox(o, row);
    assert forall i :: 0 <= i < |o'| ==> q[i] == o'[i];
    assert q[|o'|] == row;
  }

  lemma {:induction false} DeleteAbsent(o: seq<OutboxRow>, id: MsgId)
    requires id !in OutboxIds(o)
    ensures DeleteOutbox(o, id) == o
  {
    if o != [] {
      assert o[0].msgId != id;
      assert id !in OutboxIds(o[1..]) by {
        forall i | 0 <= i < |o[1..]| ensures o[1..][i].msgId != id { assert o[1..][i] == o[i + 1]; }
      }
      DeleteAbsent(o[1..], id);
    }
  }

  lemma {:induction false} DeleteKeepsUnique(o: seq<OutboxRow>, id: MsgId)
    requires UniqueIds(o)
    ensures UniqueIds(DeleteOutbox(o, id)) && id !in OutboxIds(DeleteOutbox(o, id))
  {
    if o != [] {
      DeleteKeepsUnique(o[1..], id);
      var rest := DeleteOutbox(o[1..], id);
      forall j | 0 <= j < |rest| ensures rest[j].msgId != o[0].msgId {
        assert rest[j] in o[1..];
      }
    }
  }

  /** Deleting takes out the one row of the id, and leaves the others in order. */
  lemma {:induction false} DeleteTakesOne(before: seq<OutboxRow>, row: OutboxRow, after: seq<OutboxRow>)
    requires UniqueIds(before + [row] + after)
    ensures DeleteOutbox(before + [row] + after, row.msgId) == before + after
  {
    var all := before + [row] + after;
    if before == [] {
      assert all == [row] + after;
      DeleteHead(all);
    } else {
      assert all[1..] == before[1..] + [row] + after;
      assert all[0].msgId != all[|before|].msgId;
      DeleteTakesOne(before[1..], row, after);
    }
  }

  // --- flushing the outbox ---------------------------------------------------

  /** History after the rows `sent` have been flushed in order. */
  ghost function MarkSent(h: seq<Message>, sent: seq<OutboxRow>): seq<Message>
  {
    if sent == [] then h
    else SetState(MarkSent(h, sent[..|sent| - 1]), sent[|sent| - 1].msgId, sent[|sent| - 1].peer, Out, Sent)
  }

  ghost predicate Flushed(sent: seq<OutboxRow>, m: Message) {
    exists i :: 0 <= i < |sent| && m.KeyIs(sent[i].msgId, sent[i].peer, Out)
  }

  /** A flush marks exactly the outbound rows whose sealed message left, and touches nothing else. */
  lemma {:induction false} MarkSentMeaning(h: seq<Message>, sent: seq<OutboxRow>)
    ensures |MarkSent(h, sent)| == |h|
    ensures forall i :: 0 <= i < |h| ==>
      MarkSent(h, sent)[i] == if Flushed(sent, h[i]) then h[i].(state := Sent) else h[i]
  {
    if sent != [] {
      var n := |sent| - 1;
      MarkSentMeaning(h, sent[..n]);
      forall i | 0 <= i < |h|
        ensures Flushed(sent, h[i]) <==> Flushed(sent[..n], h[i]) || h[i].KeyIs(sent[n].msgId, sent[n].peer, Out)
      {
        if Flushed(sent, h[i]) {
          var k :| 0 <= k < |sent| && h[i].KeyIs(sent[k].msgId, sent[k].peer, Out);
          assert k < n ==> sent[..n][k] == sent[k];
        }
        if Flushed(sent[..n], h[i]) {
          var k :| 0 <= k < n && h[i].KeyIs(sent[..n][k].msgId, sent[..n][k].peer, Out);
          assert sent[k] == sent[..n][k];
        }
      }
    }
  }

  lemma DeleteHead(o: seq<OutboxRow>)
    requires o != [] && UniqueIds(o)
    ensures DeleteOutbox(o, o[0].msgId) == o[1..]
  {
    assert o[0].msgId !in OutboxIds(o[1..]);
    DeleteAbsent(o[1..], o[0].msgId);
  }

  ghost predicate Wrote(frames: seq<Frame>, id: MsgId, peer: DeviceId) {
    exists k :: 0 <= k < |frames| && frames[k].Msg? && frames[k].msgId == id && frames[k].to == peer
  }

  /** The rows a flush marks are those whose frames it wrote. */
  lemma MarkedWereWritten(h: seq<Message>, rows: seq<OutboxRow>, frames: seq<Frame>)
    requires |frames| == |rows| && forall i :: 0 <= i < |rows| ==> frames[i] == rows[i].Frame()
    ensures |MarkSent(h, rows)| == |h| && forall i :: 0 <= i < |h| ==>
      MarkSent(h, rows)[i] == if h[i].dir == Out && Wrote(frames, h[i].msgId, h[i].peer) then h[i].(state := Sent) else h[i]
  {
    MarkSentMeaning(h, rows);
    forall i | 0 <= i < |h| ensures Flushed(rows, h[i]) <==> h[i].dir == Out && Wrote(frames, h[i].msgId, h[i].peer) {
      if Flushed(rows, h[i]) {
        var k :| 0 <= k < |rows| && h[i].KeyIs(rows[k].msgId, rows[k].peer, Out);
        assert frames[k].msgId == h[i].msgId;
      }
      if h[i].dir == Out && Wrote(frames, h[i].msgId, h[i].peer) {
        var k :| 0 <= k < |frames| && frames[k].Msg? && frames[k].msgId == h[i].msgId && frames[k].to == h[i].peer;
        assert h[i].KeyIs(rows[k].msgId, rows[k].peer, Out);
      }
    }
  }

  predicate SameKey(m: Message, n: Message) { m.msgId == n.msgId && m.peer == n.peer && m.dir == n.dir }

  datatype SendError = UnknownPeer

  datatype Result<+T, +E> = Ok(value: T) | Err(error: E)

  /** The connection `SendText` finds: none that is ready, or one whose write has this outcome. */
  datatype Link = Offline | Online(outcome: Outcome)

  /** One client's database and the handlers that run on it. */
  class ClientCore {
    const key: Key
    var peers: map<DeviceId, Key>
    var messages: seq<Message>
    var outbox: seq<OutboxRow>

    ghost predicate Valid() reads this { UniqueKeys(messages) && UniqueIds(outbox) }

    constructor (key: Key)
      ensures Valid() && this.key == key && peers == map[] && messages == [] && outbox == []
    {
      this.key := key;
      peers, messages, outbox := map[], [], [];
    }

    method FindMessage(id: MsgId, peer: DeviceId, dir: Direction) returns (found: bool)
      ensures found == HasKey(messages, id, peer, dir)
    {
      found := false;
      for i := 0 to |messages|
        invariant found == exists k :: 0 <= k < i && messages[k].KeyIs(id, peer, dir)
      {
        found := found || messages[i].KeyIs(id, peer, dir);
      }
    }

    method Insert(m: Message) returns (inserted: bool)
      requires Valid()
      modifies this`messages
      ensures Valid()
      ensures messages == InsertMessage(old(messages), m)
      ensures inserted <==> forall i :: 0 <= i < |old(messages)| ==>
        !(old(messages)[i].msgId == m.msgId && old(messages)[i].peer == m.peer && old(messages)[i].dir == m.dir)
      ensures messages == if inserted then old(messages) + [m] else old(messages)
    {
      var found := FindMessage(m.msgId, m.peer, m.dir);
      inserted := !found;
      InsertMeaning(messages, m);
      if inserted {
        messages := messages + [m];
      }
    }

    method SetMessageState(id: MsgId, peer: DeviceId, dir: Direction, s: MessageState)
      requires Valid()
      modifies this`messages
      ensures Valid()
      ensures messages == SetState(old(messages), id, peer, dir, s)
    {
      var h := messages;
      messages := seq(|h|, i requires 0 <= i < |h| => if h[i].KeyIs(id, peer, dir) then h[i].(state := s) else h[i]);
    }

    /** Seals, tries the current connection, falls back to the outbox, then records the row. */
    method SendText(peer: DeviceId, text: string, id: MsgId, link: Link)
      returns (r: Result<Message, SendError>, placed: Option<Frame>)
      requires Valid()
      modifies this`messages, this`outbox
      ensures Valid()
      ensures r.Ok? <==> peer in peers
      ensures r.Err? ==> messages == old(messages) && outbox == old(outbox) && placed == None
      ensures r.Ok? ==>
        var sent := link.Online? && link.outcome == Written;
        var row := OutboxRow(id, peer, Seal(Text(text), key, peers[peer]));
        && r.value == Message(id, peer, Out, text, if sent then Sent else Queued)
        && messages == InsertMessage(old(messages), r.value)
        && outbox == (if sent then old(outbox) else EnqueueOutbox(old(outbox), row))
        && placed == if link.Online? && link.outcome.Placed() then Some(row.Frame()) else None
      ensures placed.Some? ==> placed == Some(Msg("", peer, id, Seal(Text(text), key, peers[peer])))
      ensures placed.Some? <==> r.Ok? && link.Online? && link.outcome != FailedClean
      ensures r.Ok? && (forall i :: 0 <= i < |old(messages)| ==> old(messages)[i].msgId != id) ==>
        messages == old(messages) + [r.value]
      ensures r.Ok? && r.value.state == Queued && (forall i :: 0 <= i < |old(outbox)| ==> old(outbox)[i].msgId != id) ==>
        outbox == old(outbox) + [OutboxRow(id, peer, Seal(Text(text), key, peers[peer]))]
    {
      placed := None;
      if peer !in peers {
        return Err(UnknownPeer), None;
      }
      var box := Seal(Text(text), key, peers[peer]);
      var msg := Message(id, peer, Out, text, Queued);
      var sent := false;
      if link.Online? {
        if link.outcome.Placed() {
          placed := Some(Msg("", peer, id, box));
        }
        if link.outcome == Written {
          msg := msg.(state := Sent);
          sent := true;
        }
      }
      if !sent {
        DeleteKeepsUnique(outbox, id);
        if id !in OutboxIds(outbox) { DeleteAbsent(outbox, id); }
        outbox := EnqueueOutbox(outbox, OutboxRow(id, peer, box));
      }
      var inserted := Insert(msg);
      r := Ok(msg);
    }

    /** Resends the outbox in order; the connection takes `budget` more frames before a write fails. */
    method FlushOutbox(budget: nat) returns (written: seq<Frame>)
      requires Valid()
      modifies this`messages, this`outbox
      ensures Valid()
      ensures |written| == if budget < |old(outbox)| then budget else |old(outbox)|
      ensures outbox == old(outbox)[|written|..]
      ensures messages == MarkSent(old(messages), old(outbox)[..|written|])
      ensures forall i :: 0 <= i < |written| ==>
        written[i] == Msg("", old(outbox)[i].peer, old(outbox)[i].msgId, old(outbox)[i].box)
      ensures |messages| == |old(messages)| && forall i :: 0 <= i < |messages| ==>
        messages[i] == if old(messages)[i].dir == Out && Wrote(written, old(messages)[i].msgId, old(messages)[i].peer)
                       then old(messages)[i].(state := Sent) else old(messages)[i]
    {
      var rows := outbox;
      ghost var h := messages;
      written := [];
      var i := 0;
      while i < |rows|
        invariant 0 <= i <= |rows| && i <= budget && |written| == i
        invariant Valid()
        invariant forall k :: 0 <= k < i ==> written[k] == rows[k].Frame()
        invariant outbox == rows[i..]
        invariant messages == MarkSent(old(messages), rows[..i])
      {
        if i == budget {
          MarkedWereWritten(h, rows[..i], written);
          return;
        }
        var row := rows[i];
        written := written + [row.Frame()];
        DeleteHead(outbox);
        outbox := DeleteOutbox(outbox, row.msgId);
        assert rows[..i + 1][..i] == rows[..i];
        SetMessageState(row.msgId, row.peer, Out, Sent);
        i := i + 1;
      }
      assert rows[..i] == rows;
      MarkedWereWritten(h, rows, written);
    }

    /** A frame of type msg from the relay: what is stored, and the ack that is owed. */
    method HandleIncoming(from: DeviceId, id: MsgId, box: Box) returns (ack: Option<Frame>, inserted: bool)
      requires Valid()
      modifies this`messages
      ensures Valid()
      ensures ack == if from == "" then None else Some(Ack(id, from))
      ensures messages == Incoming(old(messages), peers, key, from, id, box)
      ensures inserted <==> |messages| > |old(messages)|
      ensures forall t :: from != "" && from in peers && box == Seal(Text(t), peers[from], key) ==>
        var m := Message(id, from, In, t, Received);
        if inserted then messages == old(messages) + [m]
        else messages == old(messages) && exists i :: 0 <= i < |messages| && SameKey(messages[i], m)
      ensures inserted ==> from != "" && from in peers && box.inner.Text?
      ensures inserted ==> box == Seal(box.inner, peers[from], key) || box == Seal(box.inner, key, peers[from])
    {
      ack, inserted := None, false;
      if from == "" {
        return;
      }
      ack := Some(Ack(id, from));
      if from !in peers {
        return;
      }
      match Open(box, key, peers[from])
      case None =>
      case Some(inner) =>
        match inner
        case Text(text) => inserted := Insert(Message(id, from, In, text, Received));
        case MalformedText =>
        case Other =>
    }

    method HandleAck(id: MsgId, peer: DeviceId)
      requires Valid()
      modifies this`messages, this`outbox
      ensures Valid()
      ensures id == "" || peer == "" ==> messages == old(messages) && outbox == old(outbox)
      ensures id != "" && peer != "" ==>
        && outbox == DeleteOutbox(old(outbox), id)
        && messages == SetState(old(messages), id, peer, Out, Delivered)
      ensures id != "" && peer != "" ==> forall x :: x in outbox <==> x in old(outbox) && x.msgId != id
      ensures |messages| == |old(messages)|
      ensures id != "" && peer != "" ==> forall i :: 0 <= i < |messages| ==>
        var m := old(messages)[i];
        messages[i] == if m.msgId == id && m.peer == peer && m.dir == Out then m.(state := Delivered) else m
    {
      if id == "" || peer == "" {
        return;
      }
      DeleteKeepsUnique(outbox, id);
      outbox := DeleteOutbox(outbox, id);
      SetMessageState(id, peer, Out, Delivered);
    }
  }

  /** The text a client reads from a message, when it knows the sender and the box opens. */
  function Readable(peers: map<DeviceId, Key>, key: Key, from: DeviceId, box: Box): Option<string> {
    if from == "" || from !in peers then None else
      match Open(box, key, peers[from])
      case Some(Text(t)) => Some(t)
      case _ => None
  }

  ghost function Incoming(h: seq<Message>, peers: map<DeviceId, Key>, key: Key, from: DeviceId, id: MsgId, box: Box): seq<Message>
  {
    match Readable(peers, key, from, box)
    case None => h
    case Some(t) => InsertMessage(h, Message(id, from, In, t, Received))
  }
}
