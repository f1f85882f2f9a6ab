/** The relay's offline queue: one SQL table that must act as a separate bounded list per recipient. */
module OfflineQueue {
  import opened Wire
  import opened Seqs

  datatype QueuedMsg = QueuedMsg(sender: DeviceId, msgId: MsgId, box: Box)

  datatype Row = Row(id: nat, recipient: DeviceId, msg: QueuedMsg, at: int) {
    predicate KeyIs(r: DeviceId, s: DeviceId, m: MsgId) {
      recipient == r && msg.sender == s && msg.msgId == m
    }
  }

  /** Rows are in id order; `nextId` is the next AUTOINCREMENT value. */
  datatype Table = Table(rows: seq<Row>, nextId: nat)

  const EMPTY := Table([], 0)

  ghost predicate HasRow(rows: seq<Row>, r: DeviceId, s: DeviceId, m: MsgId) {
    exists i :: 0 <= i < |rows| && rows[i].KeyIs(r, s, m)
  }

  /** Ids ascend and UNIQUE(recipient, sender, msg_id) holds. */
  ghost predicate WellFormed(t: Table) {
    && (forall i, j :: 0 <= i < j < |t.rows| ==> t.rows[i].id < t.rows[j].id)
    && (forall i :: 0 <= i < |t.rows| ==> t.rows[i].id < t.nextId)
    && (forall i, j :: 0 <= i < j < |t.rows| ==>
          !t.rows[i].KeyIs(t.rows[j].recipient, t.rows[j].msg.sender, t.rows[j].msg.msgId))
  }

  function OfRecipient(rows: seq<Row>, r: DeviceId): seq<Row> {
    Filter(rows, (x: Row) => x.recipient == r)
  }

  /** SELECT id ... WHERE recipient = ? ORDER BY id LIMIT n. */
  function OldestIds(rows: seq<Row>, r: DeviceId, n: nat): set<nat> {
    if rows == [] || n == 0 then {}
    else if rows[0].recipient == r then {rows[0].id} + OldestIds(rows[1..], r, n - 1)
    else OldestIds(rows[1..], r, n)
  }

  function Trim(rows: seq<Row>, r: DeviceId, cap: int): seq<Row> {
    var n := |OfRecipient(rows, r)|;
    if cap > 0 && n >= cap
    then Filter(rows, (x: Row) => x.id !in OldestIds(rows, r, n - cap + 1))
    else rows
  }

  ghost function Enqueue(t: Table, r: DeviceId, m: QueuedMsg, cap: int, now: int): Table {
    var kept := Trim(t.rows, r, cap);
    if HasRow(kept, r, m.sender, m.msgId) then Table(kept, t.nextId)
    else Table(kept + [Row(t.nextId, r, m, now)], t.nextId + 1)
  }

  function AckQueued(t: Table, r: DeviceId, s: DeviceId, m: MsgId): Table {
    t.(rows := Filter(t.rows, (x: Row) => !x.KeyIs(r, s, m)))
  }

  function Purge(t: Table, retention: int, now: int): Table {
    if retention <= 0 then t else t.(rows := Filter(t.rows, (x: Row) => x.at >= now - retention))
  }

  // --- the simple list each recipient should see ------------------------------

  datatype Entry = Entry(msg: QueuedMsg, at: int) {
    predicate KeyIs(s: DeviceId, m: MsgId) { msg.sender == s && msg.msgId == m }
  }

  function Entries(rows: seq<Row>, r: DeviceId): seq<Entry> {
    if rows == [] then []
    else if rows[0].recipient == r then [Entry(rows[0].msg, rows[0].at)] + Entries(rows[1..], r)
    else Entries(rows[1..], r)
  }

  ghost predicate InList(l: seq<Entry>, s: DeviceId, m: MsgId) {
    exists i :: 0 <= i < |l| && l[i].KeyIs(s, m)
  }

  /** Newest `cap - 1` entries when full, otherwise everything. */
  function MakeRoom(l: seq<Entry>, cap: int): seq<Entry> {
    if cap > 0 && |l| >= cap then l[|l| - cap + 1..] else l
  }

  ghost function Push(l: seq<Entry>, e: Entry, cap: int): seq<Entry> {
    var kept := MakeRoom(l, cap);
    if InList(kept, e.msg.sender, e.msg.msgId) then kept else kept + [e]
  }

  datatype Op =
    | DoEnqueue(recipient: DeviceId, msg: QueuedMsg, cap: int)
    | DoAck(recipient: DeviceId, sender: DeviceId, msgId: MsgId)
    | DoPurge(retention: int)

  ghost function Apply(t: Table, op: Op, now: int): Table {
    match op
    case DoEnqueue(r, m, cap) => Enqueue(t, r, m, cap, now)
    case DoAck(r, s, m) => AckQueued(t, r, s, m)
    case DoPurge(retention) => Purge(t, retention, now)
  }

  ghost function ListApply(l: seq<Entry>, r: DeviceId, op: Op, now: int): seq<Entry> {
    match op
    case DoEnqueue(r', m, cap) => if r' == r then Push(l, Entry(m, now), cap) else l
    case DoAck(r', s, m) => if r' == r then Filter(l, (e: Entry) => !e.KeyIs(s, m)) else l
    case DoPurge(ret) => if ret <= 0 then l else Filter(l, (e: Entry) => e.at >= now - ret)
  }

  /** The table after a run of timed operations on an empty queue. */
  ghost function Run(ops: seq<(Op, int)>): Table {
    if ops == [] then EMPTY
    else Apply(Run(ops[..|ops| - 1]), ops[|ops| - 1].0, ops[|ops| - 1].1)
  }

  ghost function ListRun(ops: seq<(Op, int)>, r: DeviceId): seq<Entry> {
    if ops == [] then []
    else ListApply(ListRun(ops[..|ops| - 1], r), r, ops[|ops| - 1].0, ops[|ops| - 1].1)
  }

  // --- table facts -----------------------------------------------------------

  lemma {:induction false} EntriesAppend(rows: seq<Row>, x: Row, r: DeviceId)
    ensures Entries(rows + [x], r) == Entries(rows, r) + if x.recipient == r then [Entry(x.msg, x.at)] else []
  {
    if rows == [] {
      assert rows + [x] == [x];
    } else {
      EntriesAppend(rows[1..], x, r);
      assert (rows + [x])[1..] == rows[1..] + [x];
    }
  }

  /** Deleting by a test on rows deletes each recipient's entries by the matching test. */
  lemma {:induction false} EntriesFilter(rows: seq<Row>, r: DeviceId, keep: Row -> bool, keepEntry: Entry -> bool)
    requires forall x :: x in rows && x.recipient == r ==> keep(x) == keepEntry(Entry(x.msg, x.at))
    ensures Entries(Filter(rows, keep), r) == Filter(Entries(rows, r), keepEntry)
  {
    if rows != [] {
      assert rows[0] in rows;
      assert forall x :: x in rows[1..] ==> x in rows;
      EntriesFilter(rows[1..], r, keep, keepEntry);
      var rest, tail := Filter(rows[1..], keep), Entries(rows[1..], r);
      assert ([rows[0]] + rest)[1..] == rest;
      assert ([Entry(rows[0].msg, rows[0].at)] + tail)[1..] == tail;
    }
  }

  lemma {:induction false} EntriesCount(rows: seq<Row>, r: DeviceId)
    ensures |Entries(rows, r)| == |OfRecipient(rows, r)|
  {
    if rows != [] { EntriesCount(rows[1..], r); }
  }

  lemma {:induction false} OldestIdsBelong(rows: seq<Row>, r: DeviceId, n: nat, id: nat)
    requires id in OldestIds(rows, r, n)
    ensures exists i :: 0 <= i < |rows| && rows[i].id == id && rows[i].recipient == r
  {
    if rows[0].recipient == r && id == rows[0].id {
      assert rows[0].id == id;
    } else {
      OldestIdsBelong(rows[1..], r, if rows[0].recipient == r then n - 1 else n, id);
      var i :| 0 <= i < |rows[1..]| && rows[1..][i].id == id && rows[1..][i].recipient == r;
      assert rows[i + 1].id == id;
    }
  }

  /** The nested SELECT drops exactly the first `n` entries of that recipient. */
  lemma {:induction false} DropOldest(rows: seq<Row>, r: DeviceId, n: nat)
    requires forall i, j :: 0 <= i < j < |rows| ==> rows[i].id < rows[j].id
    requires n <= |Entries(rows, r)|
    ensures Entries(Filter(rows, (x: Row) => x.id !in OldestIds(rows, r, n)), r) == Entries(rows, r)[n..]
  {
    if n == 0 {
      FilterAll(rows, (x: Row) => x.id !in OldestIds(rows, r, n));
    } else {
      var k := if rows[0].recipient == r then n - 1 else n;
      var tail := rows[1..];
      DropOldest(tail, r, k);
      FilterSame(tail, (x: Row) => x.id !in OldestIds(tail, r, k), (x: Row) => x.id !in OldestIds(rows, r, n));
      if rows[0].recipient != r {
        var rest := Filter(tail, (x: Row) => x.id !in OldestIds(rows, r, n));
        assert ([rows[0]] + rest)[1..] == rest;
      }
    }
  }

  lemma TrimRefines(rows: seq<Row>, r: DeviceId, cap: int, r': DeviceId)
    requires forall i, j :: 0 <= i < j < |rows| ==> rows[i].id < rows[j].id
    ensures Entries(Trim(rows, r, cap), r') == if r' == r then MakeRoom(Entries(rows, r), cap) else Entries(rows, r')
  {
    EntriesCount(rows, r);
    var n := |OfRecipient(rows, r)|;
    if cap > 0 && n >= cap {
      var ids := OldestIds(rows, r, n - cap + 1);
      if r' == r {
        DropOldest(rows, r, n - cap + 1);
      } else {
        forall x | x in rows && x.recipient == r' ensures x.id !in ids {
          if x.id in ids {
            OldestIdsBelong(rows, r, n - cap + 1, x.id);
          }
        }
        EntriesFilter(rows, r', (x: Row) => x.id !in ids, (e: Entry) => true);
        FilterAll(Entries(rows, r'), (e: Entry) => true);
      }
    }
  }

  lemma {:induction false} EntryOfRow(rows: seq<Row>, r: DeviceId, s: DeviceId, m: MsgId)
    ensures HasRow(rows, r, s, m) <==> InList(Entries(rows, r), s, m)
  {
    if rows != [] {
      EntryOfRow(rows[1..], r, s, m);
      var l, tail := Entries(rows, r), Entries(rows[1..], r);
      assert HasRow(rows, r, s, m) <==> rows[0].KeyIs(r, s, m) || HasRow(rows[1..], r, s, m) by {
        if HasRow(rows, r, s, m) {
          var i :| 0 <= i < |rows| && rows[i].KeyIs(r, s, m);
          assert i > 0 ==> rows[1..][i - 1] == rows[i];
        }
        if HasRow(rows[1..], r, s, m) {
          var i :| 0 <= i < |rows[1..]| && rows[1..][i].KeyIs(r, s, m);
          assert rows[i + 1] == rows[1..][i];
        }
      }
      if rows[0].recipient == r {
        assert l == [Entry(rows[0].msg, rows[0].at)] + tail;
        assert InList(l, s, m) <==> l[0].KeyIs(s, m) || InList(tail, s, m) by {
          if InList(l, s, m) {
            var i :| 0 <= i < |l| && l[i].KeyIs(s, m);
            assert i > 0 ==> tail[i - 1] == l[i];
          }
          if InList(tail, s, m) {
            var i :| 0 <= i < |tail| && tail[i].KeyIs(s, m);
            assert l[i + 1] == tail[i];
          }
        }
      }
    }
  }

  lemma FilterKeepsOrder(t: Table, keep: Row -> bool)
    requires WellFormed(t)
    ensures WellFormed(t.(rows := Filter(t.rows, keep)))
  {
    FilterPairwise(t.rows, keep, (x: Row, y: Row) => x.id < y.id);
    FilterPairwise(t.rows, keep, (x: Row, y: Row) => !x.KeyIs(y.recipient, y.msg.sender, y.msg.msgId));
    FilterMember(t.rows, keep);
    var rest := Filter(t.rows, keep);
    forall i | 0 <= i < |rest| ensures rest[i].id < t.nextId {
      assert rest[i] in rest;
    }
  }

  lemma TrimSubset(rows: seq<Row>, r: DeviceId, cap: int)
    ensures forall x :: x in Trim(rows, r, cap) ==> x in rows
  {
    var n := |OfRecipient(rows, r)|;
    if cap > 0 && n >= cap {
      FilterMember(rows, (x: Row) => x.id !in OldestIds(rows, r, n - cap + 1));
    }
  }

  lemma TrimWellFormed(t: Table, r: DeviceId, cap: int)
    requires WellFormed(t)
    ensures WellFormed(t.(rows := Trim(t.rows, r, cap)))
  {
    var n := |OfRecipient(t.rows, r)|;
    if cap > 0 && n >= cap {
      FilterKeepsOrder(t, (x: Row) => x.id !in OldestIds(t.rows, r, n - cap + 1));
    }
  }

  /** Every operation keeps the unique key, so a queued message is never held twice. */
  lemma ApplyWellFormed(t: Table, op: Op, now: int)
    requires WellFormed(t)
    ensures WellFormed(Apply(t, op, now))
  {
    match op
    case DoEnqueue(r, m, cap) => TrimWellFormed(t, r, cap);
    case DoAck(r, s, m) => FilterKeepsOrder(t, (x: Row) => !x.KeyIs(r, s, m));
    case DoPurge(ret) => FilterKeepsOrder(t, (x: Row) => x.at >= now - ret);
  }

  /** One operation on the shared table is one operation on each recipient's list. */
  lemma ApplyRefines(t: Table, op: Op, now: int, r: DeviceId)
    requires WellFormed(t)
    ensures Entries(Apply(t, op, now).rows, r) == ListApply(Entries(t.rows, r), r, op, now)
  {
    match op
    case DoEnqueue(r', m, cap) =>
      TrimRefines(t.rows, r', cap, r);
      var kept := Trim(t.rows, r', cap);
      EntryOfRow(kept, r', m.sender, m.msgId);
      EntriesAppend(kept, Row(t.nextId, r', m, now), r);
    case DoAck(r', s, m) =>
      if r' == r {
        EntriesFilter(t.rows, r, (x: Row) => !x.KeyIs(r', s, m), (e: Entry) => !e.KeyIs(s, m));
      } else {
        EntriesFilter(t.rows, r, (x: Row) => !x.KeyIs(r', s, m), (e: Entry) => true);
        FilterAll(Entries(t.rows, r), (e: Entry) => true);
      }
    case DoPurge(ret) =>
      if ret > 0 {
        EntriesFilter(t.rows, r, (x: Row) => x.at >= now - ret, (e: Entry) => e.at >= now - ret);
      }
  }

  /** The shared table refines one independent list per recipient, over every run. */
  lemma {:induction false} QueueRefinesLists(ops: seq<(Op, int)>, r: DeviceId)
    ensures WellFormed(Run(ops)) && Entries(Run(ops).rows, r) == ListRun(ops, r)
  {
    if ops != [] {
      var n := |ops| - 1;
      QueueRefinesLists(ops[..n], r);
      ApplyWellFormed(Run(ops[..n]), ops[n].0, ops[n].1);
      ApplyRefines(Run(ops[..n]), ops[n].0, ops[n].1, r);
    }
  }

  // --- what the list promises ------------------------------------------------

  lemma PushFits(l: seq<Entry>, e: Entry, cap: int)
    requires cap > 0
    ensures |Push(l, e, cap)| <= cap
  {
  }

  /** As long as every enqueue comes with the same cap, no recipient's queue is ever longer than that. */
  lemma CapHolds(ops: seq<(Op, int)>, r: DeviceId, cap: int)
    requires cap > 0 && forall i :: 0 <= i < |ops| && ops[i].0.DoEnqueue? ==> ops[i].0.cap == cap
    ensures |OfRecipient(Run(ops).rows, r)| <= cap
  {
    CapHoldsInList(ops, r, cap);
    QueueRefinesLists(ops, r);
    EntriesCount(Run(ops).rows, r);
  }

  lemma {:induction false} CapHoldsInList(ops: seq<(Op, int)>, r: DeviceId, cap: int)
    requires cap > 0 && forall i :: 0 <= i < |ops| && ops[i].0.DoEnqueue? ==> ops[i].0.cap == cap
    ensures |ListRun(ops, r)| <= cap
  {
    if ops != [] {
      var n := |ops| - 1;
      CapHoldsInList(ops[..n], r, cap);
      var l := ListRun(ops[..n], r);
      if ops[n].0.DoEnqueue? { PushFits(l, Entry(ops[n].0.msg, ops[n].1), cap); }
    }
  }

  lemma {:induction false} OldestExists(rows: seq<Row>, r: DeviceId, n: nat) returns (i: nat)
    requires 0 < n && OfRecipient(rows, r) != []
    ensures i < |rows| && rows[i].id in OldestIds(rows, r, n)
  {
    if rows[0].recipient == r {
      i := 0;
    } else {
      i := OldestExists(rows[1..], r, n);
      i := i + 1;
    }
  }

  /** A message already queued is ignored exactly when the recipient's queue is below its cap. */
  lemma DuplicateIgnoredIff(t: Table, r: DeviceId, m: QueuedMsg, cap: int, now: int)
    requires WellFormed(t) && HasRow(t.rows, r, m.sender, m.msgId)
    ensures Enqueue(t, r, m, cap, now) == t <==> !(cap > 0 && |OfRecipient(t.rows, r)| >= cap)
  {
    var n := |OfRecipient(t.rows, r)|;
    if cap > 0 && n >= cap {
      var kept := Trim(t.rows, r, cap);
      var i := OldestExists(t.rows, r, n - cap + 1);
      FilterMember(t.rows, (x: Row) => x.id !in OldestIds(t.rows, r, n - cap + 1));
      assert t.rows[i] in t.rows && t.rows[i] !in kept;
      if !HasRow(kept, r, m.sender, m.msgId) {
        assert Enqueue(t, r, m, cap, now).nextId != t.nextId;
      }
    }
  }

  /** An enqueued message is in the queue, whatever made room for it. */
  lemma HoldsEnqueued(t: Table, r: DeviceId, m: QueuedMsg, cap: int, now: int)
    ensures exists x :: x in Enqueue(t, r, m, cap, now).rows && x.recipient == r && x.msg.sender == m.sender && x.msg.msgId == m.msgId
  {
    var q, kept := Enqueue(t, r, m, cap, now), Trim(t.rows, r, cap);
    if HasRow(kept, r, m.sender, m.msgId) {
      var i :| 0 <= i < |kept| && kept[i].KeyIs(r, m.sender, m.msgId);
      assert kept[i] in q.rows;
    } else {
      assert Row(t.nextId, r, m, now) in q.rows;
    }
  }

  /** Nothing but enqueues, for any recipients and at any times, under one cap. */
  predicate OnlyEnqueues(ops: seq<(Op, int)>, cap: int) {
    forall i :: 0 <= i < |ops| ==> ops[i].0.DoEnqueue? && ops[i].0.cap == cap
  }

  /** Everything ever enqueued for `r`, in order. */
  function EnqueuedFor(ops: seq<(Op, int)>, r: DeviceId): seq<Entry> {
    if ops == [] then []
    else
      var (op, at) := ops[|ops| - 1];
      EnqueuedFor(ops[..|ops| - 1], r) + if op.DoEnqueue? && op.recipient == r then [Entry(op.msg, at)] else []
  }

  ghost predicate DistinctEntries(l: seq<Entry>) {
    forall i, j :: 0 <= i < j < |l| ==> !l[i].KeyIs(l[j].msg.sender, l[j].msg.msgId)
  }

  /** The newest `cap` elements, or all of them when there is no cap. */
  function Newest<T>(s: seq<T>, cap: int): seq<T> {
    if cap > 0 && |s| > cap then s[|s| - cap..] else s
  }

  /** What making room leaves of the newest `cap`, as a suffix of everything. */
  lemma RoomIsSuffix(all: seq<Entry>, cap: int) returns (skipped: nat)
    ensures skipped == if cap > 0 && |all| >= cap then |all| - cap + 1 else 0
    ensures skipped <= |all| && MakeRoom(Newest(all, cap), cap) == all[skipped..]
  {
    skipped := if cap > 0 && |all| >= cap then |all| - cap + 1 else 0;
    if cap > 0 && |all| > cap {
      var a := |all| - cap;
      assert all[a..][1..] == all[a + 1..];
    }
  }

  lemma SuffixLacks(all: seq<Entry>, k: nat, s: DeviceId, m: MsgId)
    requires k <= |all| && !InList(all, s, m)
    ensures !InList(all[k..], s, m)
  {
    forall i | 0 <= i < |all[k..]| ensures !all[k..][i].KeyIs(s, m) {
      assert all[k..][i] == all[k + i];
    }
  }

  lemma PushFresh(all: seq<Entry>, e: Entry, cap: int)
    requires !InList(all, e.msg.sender, e.msg.msgId)
    ensures Push(Newest(all, cap), e, cap) == Newest(all + [e], cap)
  {
    var skipped := RoomIsSuffix(all, cap);
    SuffixLacks(all, skipped, e.msg.sender, e.msg.msgId);
    assert (all + [e])[skipped..] == all[skipped..] + [e];
  }

  lemma LastIsNew(l: seq<Entry>, e: Entry)
    requires DistinctEntries(l + [e])
    ensures DistinctEntries(l) && !InList(l, e.msg.sender, e.msg.msgId)
  {
    var all := l + [e];
    assert forall i :: 0 <= i < |l| ==> all[i] == l[i];
    assert all[|l|] == e;
  }

  lemma {:induction false} NewestInList(ops: seq<(Op, int)>, r: DeviceId, cap: int)
    requires OnlyEnqueues(ops, cap) && DistinctEntries(EnqueuedFor(ops, r))
    ensures ListRun(ops, r) == Newest(EnqueuedFor(ops, r), cap)
  {
    if ops != [] {
      var n := |ops| - 1;
      var (op, at) := ops[n];
      var before := EnqueuedFor(ops[..n], r);
      if op.recipient == r {
        LastIsNew(before, Entry(op.msg, at));
        NewestInList(ops[..n], r, cap);
        PushFresh(before, Entry(op.msg, at), cap);
      } else {
        assert EnqueuedFor(ops, r) == before;
        NewestInList(ops[..n], r, cap);
      }
    }
  }

  /**
   From an empty queue with no ack or expiry, whatever is enqueued for whom and when: if the messages for
   one recipient are distinct, its rows are exactly the last `cap` of them, in order.
   */
  lemma KeepsNewest(ops: seq<(Op, int)>, r: DeviceId, cap: int)
    requires OnlyEnqueues(ops, cap) && DistinctEntries(EnqueuedFor(ops, r))
    ensures Entries(Run(ops).rows, r) == Newest(EnqueuedFor(ops, r), cap)
  {
    QueueRefinesLists(ops, r);
    NewestInList(ops, r, cap);
  }

  /** Why the entry at `i` goes when `op` runs. */
  ghost predicate Leaves(l: seq<Entry>, i: nat, r: DeviceId, op: Op, now: int)
    requires i < |l|
  {
    match op
    case DoEnqueue(r', m, cap) => r' == r && cap > 0 && i < |l| - cap + 1
    case DoAck(r', s, m) => r' == r && l[i].KeyIs(s, m)
    case DoPurge(ret) => ret > 0 && l[i].at < now - ret
  }

  lemma LeavesOnlyFor(l: seq<Entry>, i: nat, r: DeviceId, op: Op, now: int)
    requires i < |l| && l[i] !in ListApply(l, r, op, now)
    ensures Leaves(l, i, r, op, now)
  {
    match op
    case DoEnqueue(r', m, cap) =>
      if r' == r {
        var kept := MakeRoom(l, cap);
        var dropped := |l| - |kept|;
        assert forall k :: dropped <= k < |l| ==> l[k] == kept[k - dropped];
        assert forall x :: x in kept ==> x in Push(l, Entry(m, now), cap);
      }
    case DoAck(r', s, m) => FilterMember(l, (e: Entry) => !e.KeyIs(s, m));
    case DoPurge(ret) => FilterMember(l, (e: Entry) => e.at >= now - ret);
  }

  /** Over a run: an entry queued after `a` operations and gone after `b` left for one of those reasons. */
  lemma {:induction false} RemovedOnlyFor(ops: seq<(Op, int)>, r: DeviceId, a: nat, b: nat, e: Entry)
    requires a <= b <= |ops|
    requires e in ListRun(ops[..a], r) && e !in ListRun(ops[..b], r)
    ensures exists k, i ::
      && a <= k < b && 0 <= i < |ListRun(ops[..k], r)| && ListRun(ops[..k], r)[i] == e
      && Leaves(ListRun(ops[..k], r), i, r, ops[k].0, ops[k].1)
    decreases b
  {
    var p := ops[..b];
    assert b > a;
    assert p[..b - 1] == ops[..b - 1];
    var before := ListRun(ops[..b - 1], r);
    if e in before {
      var i :| 0 <= i < |before| && before[i] == e;
      LeavesOnlyFor(before, i, r, ops[b - 1].0, ops[b - 1].1);
    } else {
      RemovedOnlyFor(ops, r, a, b - 1, e);
    }
  }

  ghost predicate ClockForward(ops: seq<(Op, int)>) {
    forall i, j :: 0 <= i < j < |ops| ==> ops[i].1 <= ops[j].1
  }

  ghost predicate Aged(l: seq<Entry>, now: int) {
    && (forall i, j :: 0 <= i < j < |l| ==> l[i].at <= l[j].at)
    && (forall i :: 0 <= i < |l| ==> l[i].at <= now)
  }

  lemma FilterAged(l: seq<Entry>, keep: Entry -> bool, now: int)
    requires Aged(l, now)
    ensures Aged(Filter(l, keep), now)
  {
    FilterPairwise(l, keep, (x: Entry, y: Entry) => x.at <= y.at);
    FilterMember(l, keep);
    var rest := Filter(l, keep);
    forall i | 0 <= i < |rest| ensures rest[i].at <= now {
      assert rest[i] in rest;
    }
  }

  lemma PushAged(l: seq<Entry>, e: Entry, cap: int)
    requires Aged(l, e.at)
    ensures Aged(Push(l, e, cap), e.at)
  {
    var kept, pushed := MakeRoom(l, cap), Push(l, e, cap);
    var skipped := |l| - |kept|;
    assert kept == l[skipped..];
    forall i | 0 <= i < |pushed| ensures pushed[i] == if i < |kept| then l[skipped + i] else e {
    }
  }

  lemma ApplyAged(l: seq<Entry>, r: DeviceId, op: Op, now: int)
    requires Aged(l, now)
    ensures Aged(ListApply(l, r, op, now), now)
  {
    match op
    case DoEnqueue(_, m, cap) => PushAged(l, Entry(m, now), cap);
    case DoAck(_, s, m) => FilterAged(l, (e: Entry) => !e.KeyIs(s, m), now);
    case DoPurge(ret) => FilterAged(l, (e: Entry) => e.at >= now - ret, now);
  }

  lemma {:induction false} RunAged(ops: seq<(Op, int)>, r: DeviceId, now: int)
    requires ClockForward(ops) && (ops != [] ==> ops[|ops| - 1].1 <= now)
    ensures Aged(ListRun(ops, r), now)
  {
    if ops != [] {
      var n := |ops| - 1;
      RunAged(ops[..n], r, ops[n].1);
      ApplyAged(ListRun(ops[..n], r), r, ops[n].0, ops[n].1);
    }
  }

  predicate IsSuffix(l': seq<Entry>, l: seq<Entry>) {
    |l'| <= |l| && l' == l[|l| - |l'|..]
  }

  lemma PurgeTakesPrefixOf(l: seq<Entry>, r: DeviceId, retention: int, now: int)
    requires Aged(l, now)
    ensures IsSuffix(ListApply(l, r, DoPurge(retention), now), l)
  {
    if retention > 0 {
      FilterKeepsSuffix(l, (e: Entry) => e.at >= now - retention);
    }
  }

  /** With a clock that never goes back, expiry takes only the oldest entries: it removes a prefix. */
  lemma PurgeTakesPrefix(ops: seq<(Op, int)>, r: DeviceId, retention: int, now: int)
    requires ClockForward(ops) && (ops != [] ==> ops[|ops| - 1].1 <= now)
    ensures IsSuffix(ListApply(ListRun(ops, r), r, DoPurge(retention), now), ListRun(ops, r))
  {
    RunAged(ops, r, now);
    PurgeTakesPrefixOf(ListRun(ops, r), r, retention, now);
  }

  // --- the store -------------------------------------------------------------

  function Payloads(l: seq<Entry>): seq<QueuedMsg> {
    seq(|l|, i requires 0 <= i < |l| => l[i].msg)
  }

  ghost predicate Queues(l: seq<Entry>, m: QueuedMsg) {
    exists i :: 0 <= i < |l| && l[i].msg.sender == m.sender && l[i].msg.msgId == m.msgId
  }

  lemma QueuesIsInList(l: seq<Entry>, m: QueuedMsg)
    ensures Queues(l, m) <==> InList(l, m.sender, m.msgId)
  {
    if Queues(l, m) {
      var i :| 0 <= i < |l| && l[i].msg.sender == m.sender && l[i].msg.msgId == m.msgId;
      assert l[i].KeyIs(m.sender, m.msgId);
    }
  }

  class QueueStore {
    var rows: seq<Row>
    var nextId: nat

    ghost function Contents(): Table reads this { Table(rows, nextId) }

    constructor ()
      ensures Contents() == EMPTY
    {
      rows, nextId := [], 0;
    }

    method InsertOrIgnore(recipient: DeviceId, m: QueuedMsg, now: int)
      modifies this
      ensures if HasRow(old(rows), recipient, m.sender, m.msgId)
              then Contents() == old(Contents())
              else Contents() == Table(old(rows) + [Row(old(nextId), recipient, m, now)], old(nextId) + 1)
    {
      var found := false;
      for i := 0 to |rows|
        invariant Contents() == old(Contents())
        invariant found == exists k :: 0 <= k < i && rows[k].KeyIs(recipient, m.sender, m.msgId)
      {
        found := found || rows[i].KeyIs(recipient, m.sender, m.msgId);
      }
      if !found {
        rows, nextId := rows + [Row(nextId, recipient, m, now)], nextId + 1;
      }
    }

    method EnqueueMsg(recipient: DeviceId, m: QueuedMsg, cap: int, now: int)
      requires WellFormed(Contents())
      modifies this
      ensures WellFormed(Contents())
      ensures Contents() == Enqueue(old(Contents()), recipient, m, cap, now)
      ensures forall r :: r != recipient ==> Entries(rows, r) == Entries(old(rows), r)
      ensures var was := Entries(old(rows), recipient);
        var kept := if cap > 0 && |was| >= cap then was[|was| - cap + 1..] else was;
        Entries(rows, recipient) == if Queues(kept, m) then kept else kept + [Entry(m, now)]
    {
      ApplyWellFormed(Contents(), DoEnqueue(recipient, m, cap), now);
      forall r ensures Entries(Enqueue(Contents(), recipient, m, cap, now).rows, r) ==
        if r == recipient then Push(Entries(rows, r), Entry(m, now), cap) else Entries(rows, r)
      {
        ApplyRefines(Contents(), DoEnqueue(recipient, m, cap), now, r);
      }
      QueuesIsInList(MakeRoom(Entries(rows, recipient), cap), m);
      rows := Trim(rows, recipient, cap);
      InsertOrIgnore(recipient, m, now);
    }

    method Drain(recipient: DeviceId) returns (out: seq<QueuedMsg>)
      ensures out == Payloads(Entries(rows, recipient))
      ensures |out| == |Entries(rows, recipient)|
      ensures forall k :: 0 <= k < |out| ==> out[k] == Entries(rows, recipient)[k].msg
    {
      out := [];
      for i := 0 to |rows|
        invariant out == Payloads(Entries(rows[..i], recipient))
      {
        assert rows[..i + 1] == rows[..i] + [rows[i]];
        EntriesAppend(rows[..i], rows[i], recipient);
        if rows[i].recipient == recipient {
          out := out + [rows[i].msg];
        }
      }
      assert rows[..|rows|] == rows;
    }

    method Acknowledge(recipient: DeviceId, sender: DeviceId, msgId: MsgId)
      requires WellFormed(Contents())
      modifies this`rows
      ensures WellFormed(Contents())
      ensures Contents() == AckQueued(old(Contents()), recipient, sender, msgId)
      ensures forall x :: x in rows <==>
        x in old(rows) && !(x.recipient == recipient && x.msg.sender == sender && x.msg.msgId == msgId)
      ensures forall r :: r != recipient ==> Entries(rows, r) == Entries(old(rows), r)
    {
      ApplyWellFormed(Contents(), DoAck(recipient, sender, msgId), 0);
      FilterMember(rows, (x: Row) => !x.KeyIs(recipient, sender, msgId));
      forall r | r != recipient ensures Entries(AckQueued(Contents(), recipient, sender, msgId).rows, r) == Entries(rows, r) {
        ApplyRefines(Contents(), DoAck(recipient, sender, msgId), 0, r);
      }
      rows := Filter(rows, (x: Row) => !x.KeyIs(recipient, sender, msgId));
    }

    method PurgeExpired(retention: int, now: int) returns (removed: nat)
      requires WellFormed(Contents())
      modifies this`rows
      ensures WellFormed(Contents())
      ensures Contents() == Purge(old(Contents()), retention, now)
      ensures removed == |old(rows)| - |rows|
      ensures forall x :: x in rows <==> x in old(rows) && (retention <= 0 || x.at >= now - retention)
      ensures forall i, j :: 0 <= i < j < |rows| ==> rows[i].id < rows[j].id
    {
      if retention <= 0 {
        return 0;
      }
      ApplyWellFormed(Contents(), DoPurge(retention), now);
      FilterMember(rows, (x: Row) => x.at >= now - retention);
      var kept := Filter(rows, (x: Row) => x.at >= now - retention);
      removed := |rows| - |kept|;
      rows := kept;
    }
  }
}
