/**
 The client's roster and its two trust flags, against the history of directory entries received and of
 the user's verifications.
 */
module PeerTrust {
  import opened Wire

  /** A directory entry; keys are compared as the text they arrive in. */
  datatype Entry = Entry(id: DeviceId, name: string, signPub: string, boxPub: string, standing: string, admin: bool)

  datatype Peer = Peer(entry: Entry, verified: bool, keyChanged: bool)

  type Roster = map<DeviceId, Peer>

  datatype Op = Put(entry: Entry) | Remove(id: DeviceId) | Verify(id: DeviceId, v: bool)

  predicate SameKeys(a: Entry, b: Entry) { a.signPub == b.signPub && a.boxPub == b.boxPub }

  /** The row an upsert writes, from the row it read. */
  function Merged(prev: Option<Peer>, e: Entry): Peer {
    match prev
    case None => Peer(e, false, false)
    case Some(p) => Peer(e, p.verified && SameKeys(p.entry, e), p.keyChanged || !SameKeys(p.entry, e))
  }

  function Row(ps: Roster, id: DeviceId): Option<Peer> { if id in ps then Some(ps[id]) else None }

  function Apply(ps: Roster, op: Op): Roster {
    match op
    case Put(e) => ps[e.id := Merged(Row(ps, e.id), e)]
    case Remove(id) => ps - {id}
    case Verify(id, v) => if id in ps then ps[id := ps[id].(verified := v, keyChanged := false)] else ps
  }

  function ApplyAll(ps: Roster, h: seq<Op>): Roster {
    if h == [] then ps else Apply(ApplyAll(ps, h[..|h| - 1]), h[|h| - 1])
  }

  // --- history -----------------------------------------------------------------------

  /** The last entry received for `id`, unless it was removed since. */
  function Latest(h: seq<Op>, id: DeviceId): Option<Entry> {
    if h == [] then None
    else
      var last := h[|h| - 1];
      if last.Put? && last.entry.id == id then Some(last.entry)
      else if last == Remove(id) then None
      else Latest(h[..|h| - 1], id)
  }

  predicate ChangesKeys(h: seq<Op>, i: nat, id: DeviceId) requires i < |h| {
    h[i].Put? && h[i].entry.id == id && Latest(h[..i], id).Some? && !SameKeys(Latest(h[..i], id).value, h[i].entry)
  }

  predicate Verifies(h: seq<Op>, i: nat, id: DeviceId) requires i < |h| {
    h[i].Verify? && h[i].id == id && Latest(h[..i], id).Some?
  }

  /** The user's last word on the peer, since its insertion and its last key change, was that it is verified. */
  ghost predicate VerifiedSince(h: seq<Op>, id: DeviceId) {
    exists i :: 0 <= i < |h| && Verifies(h, i, id) && h[i].v && NoneAfter(h, i, id, true)
  }

  /** The keys changed since the peer's insertion and since the user last gave a word on it. */
  ghost predicate ChangedSince(h: seq<Op>, id: DeviceId) {
    exists i :: 0 <= i < |h| && ChangesKeys(h, i, id) && NoneAfter(h, i, id, false)
  }

  /** After `i`: no word on the peer, no removal, and no key change either if `keys`. */
  ghost predicate NoneAfter(h: seq<Op>, i: nat, id: DeviceId, keys: bool) {
    forall j :: i < j < |h| ==> !Verifies(h, j, id) && h[j] != Remove(id) && !(keys && ChangesKeys(h, j, id))
  }

  lemma PrefixFacts(h: seq<Op>, op: Op, i: nat, id: DeviceId)
    requires i < |h|
    ensures var g := h + [op];
      && g[i] == h[i] && (Verifies(g, i, id) <==> Verifies(h, i, id)) && (ChangesKeys(g, i, id) <==> ChangesKeys(h, i, id))
  {
    assert (h + [op])[..i] == h[..i];
  }

  lemma NoneAfterAppend(h: seq<Op>, op: Op, i: nat, id: DeviceId, keys: bool)
    requires i < |h|
    ensures var g := h + [op];
      NoneAfter(g, i, id, keys) <==>
        NoneAfter(h, i, id, keys) && !Verifies(g, |h|, id) && op != Remove(id) && !(keys && ChangesKeys(g, |h|, id))
  {
    var g := h + [op];
    assert g[|h|] == op;
    forall j | 0 <= j < |h|
      ensures g[j] == h[j] && (Verifies(g, j, id) <==> Verifies(h, j, id)) && (ChangesKeys(g, j, id) <==> ChangesKeys(h, j, id))
    {
      PrefixFacts(h, op, j, id);
    }
    if NoneAfter(g, i, id, keys) {
      forall j | i < j < |h| ensures !Verifies(h, j, id) && h[j] != Remove(id) && !(keys && ChangesKeys(h, j, id)) {
        assert !Verifies(g, j, id);
      }
    }
  }

  lemma VerifiedAppend(h: seq<Op>, op: Op, id: DeviceId)
    ensures var g := h + [op];
      VerifiedSince(g, id) <==>
        if Verifies(g, |h|, id) then op.v
        else VerifiedSince(h, id) && op != Remove(id) && !ChangesKeys(g, |h|, id)
  {
    var g := h + [op];
    if VerifiedSince(h, id) {
      var i :| 0 <= i < |h| && Verifies(h, i, id) && h[i].v && NoneAfter(h, i, id, true);
      PrefixFacts(h, op, i, id);
      NoneAfterAppend(h, op, i, id, true);
      assert Verifies(g, i, id);
    }
    if VerifiedSince(g, id) {
      var i :| 0 <= i < |g| && Verifies(g, i, id) && g[i].v && NoneAfter(g, i, id, true);
      if i < |h| {
        PrefixFacts(h, op, i, id);
        NoneAfterAppend(h, op, i, id, true);
      }
    }
    assert NoneAfter(g, |h|, id, true);
  }

  lemma ChangedAppend(h: seq<Op>, op: Op, id: DeviceId)
    ensures var g := h + [op];
      ChangedSince(g, id) <==>
        ChangesKeys(g, |h|, id) || (ChangedSince(h, id) && !Verifies(g, |h|, id) && op != Remove(id))
  {
    var g := h + [op];
    if ChangedSince(h, id) {
      var i :| 0 <= i < |h| && ChangesKeys(h, i, id) && NoneAfter(h, i, id, false);
      PrefixFacts(h, op, i, id);
      NoneAfterAppend(h, op, i, id, false);
      assert ChangesKeys(g, i, id);
    }
    if ChangedSince(g, id) {
      var i :| 0 <= i < |g| && ChangesKeys(g, i, id) && NoneAfter(g, i, id, false);
      if i < |h| {
        PrefixFacts(h, op, i, id);
        NoneAfterAppend(h, op, i, id, false);
      }
    }
    assert NoneAfter(g, |h|, id, false);
  }

  /** The roster row of `id` is what the history says. */
  ghost predicate Agrees(ps: Roster, h: seq<Op>, id: DeviceId) {
    match Latest(h, id)
    case None => id !in ps && !VerifiedSince(h, id) && !ChangedSince(h, id)
    case Some(e) => id in ps && ps[id] == Peer(e, VerifiedSince(h, id), ChangedSince(h, id))
  }

  lemma ApplyAgrees(ps: Roster, h: seq<Op>, op: Op, id: DeviceId)
    requires Agrees(ps, h, id)
    ensures Agrees(Apply(ps, op), h + [op], id)
  {
    var g := h + [op];
    assert g[..|h|] == h && g[|h|] == op;
    VerifiedAppend(h, op, id);
    ChangedAppend(h, op, id);
  }

  /**
   For any history, a peer is listed with the last entry received for it; it is verified exactly when
   the user said so since its insertion and last key change, and its key counts as changed exactly when
   it changed since its insertion and the user's last word.
   */
  lemma {:induction false} FlagsFollowHistory(h: seq<Op>, id: DeviceId)
    ensures Agrees(ApplyAll(map[], h), h, id)
  {
    if h != [] {
      var n := |h| - 1;
      FlagsFollowHistory(h[..n], id);
      ApplyAgrees(ApplyAll(map[], h[..n]), h[..n], h[n], id);
      assert h == h[..n] + [h[n]];
    }
  }

  lemma {:induction false} NeverBothAfter(h: seq<Op>, id: DeviceId)
    ensures var ps := ApplyAll(map[], h); id in ps ==> !(ps[id].verified && ps[id].keyChanged)
  {
    if h != [] { NeverBothAfter(h[..|h| - 1], id); }
  }

  // --- snapshots ---------------------------------------------------------------------------

  function PutAll(ps: Roster, es: seq<Entry>): Roster {
    if es == [] then ps else Apply(PutAll(ps, es[..|es| - 1]), Put(es[|es| - 1]))
  }

  function Ids(es: seq<Entry>): set<DeviceId> { set k | 0 <= k < |es| :: es[k].id }

  /** Every entry is put, then the peers the snapshot does not list are dropped. */
  function Snapshot(ps: Roster, es: seq<Entry>): Roster {
    var put := PutAll(ps, es);
    put - (put.Keys - Ids(es))
  }

  function LastOf(es: seq<Entry>, id: DeviceId): Option<Entry> {
    if es == [] then None
    else if es[|es| - 1].id == id then Some(es[|es| - 1]) else LastOf(es[..|es| - 1], id)
  }

  lemma {:induction false} PutAllRow(ps: Roster, es: seq<Entry>, id: DeviceId)
    ensures var r := PutAll(ps, es);
      && (id in r <==> id in ps || id in Ids(es))
      && (LastOf(es, id).Some? <==> id in Ids(es))
      && (id in r ==> r[id].entry == if id in Ids(es) then LastOf(es, id).value else ps[id].entry)
      && (id in ps && (forall e :: e in es && e.id == id ==> SameKeys(e, ps[id].entry)) ==>
            SameKeys(r[id].entry, ps[id].entry) && r[id] == ps[id].(entry := r[id].entry))
      && (id in ps && (exists e :: e in es && e.id == id && !SameKeys(e, ps[id].entry)) ==>
            !r[id].verified && r[id].keyChanged)
      && (id in r && id !in ps ==> !r[id].verified)
  {
    if es != [] {
      var n := |es| - 1;
      PutAllRow(ps, es[..n], id);
      assert es == es[..n] + [es[n]];
      assert Ids(es) == Ids(es[..n]) + {es[n].id};
      if id in ps && (forall e :: e in es && e.id == id ==> SameKeys(e, ps[id].entry)) {
        assert forall e :: e in es[..n] ==> e in es;
      }
    }
  }

  /**
   After a snapshot the roster lists exactly its ids, each with its last entry there. A peer all of whose
   entries carry the keys already known keeps both flags; one whose entries include other keys is not
   verified and marked as changed; a new one is not verified.
   */
  lemma SnapshotMatches(ps: Roster, es: seq<Entry>, id: DeviceId)
    ensures var r := Snapshot(ps, es);
      && (id in r <==> id in Ids(es))
      && (id in r ==>
            && LastOf(es, id) == Some(r[id].entry)
            && (id in ps && (forall e :: e in es && e.id == id ==> SameKeys(e, ps[id].entry)) ==>
                  r[id].verified == ps[id].verified && r[id].keyChanged == ps[id].keyChanged)
            && (id in ps && (exists e :: e in es && e.id == id && !SameKeys(e, ps[id].entry)) ==>
                  !r[id].verified && r[id].keyChanged)
            && (id !in ps ==> !r[id].verified))
  {
    PutAllRow(ps, es, id);
  }

  /** The snapshot carries keys for the peer that differ from those known, or from each other. */
  ghost predicate KeysVary(ps: Roster, es: seq<Entry>, id: DeviceId) {
    || (exists i, j :: 0 <= i < |es| && 0 <= j < |es| && es[i].id == id && es[j].id == id && !SameKeys(es[i], es[j]))
    || (id in ps && exists i :: 0 <= i < |es| && es[i].id == id && !SameKeys(es[i], ps[id].entry))
  }

  lemma {:induction false} LastOfIsEntry(es: seq<Entry>, id: DeviceId)
    ensures LastOf(es, id).Some? ==> exists i :: 0 <= i < |es| && es[i] == LastOf(es, id).value && es[i].id == id
  {
    if es != [] && es[|es| - 1].id != id {
      LastOfIsEntry(es[..|es| - 1], id);
      if LastOf(es, id).Some? {
        var i :| 0 <= i < |es[..|es| - 1]| && es[..|es| - 1][i] == LastOf(es, id).value;
        assert es[i] == LastOf(es, id).value;
      }
    }
  }

  /** One more entry varies the keys exactly when it differs from what the roster then holds. */
  lemma KeysVaryStep(ps: Roster, es: seq<Entry>, e: Entry, id: DeviceId)
    ensures var now := PutAll(ps, es);
      KeysVary(ps, es + [e], id) <==>
        KeysVary(ps, es, id) || (id == e.id && id in now && !SameKeys(now[id].entry, e))
  {
    var all, n := es + [e], |es|;
    assert all[n] == e && forall i :: 0 <= i < n ==> all[i] == es[i];
    PutAllRow(ps, es, id);
    LastOfIsEntry(es, id);
    if KeysVary(ps, es, id) {
      if i, j :| 0 <= i < n && 0 <= j < n && es[i].id == id && es[j].id == id && !SameKeys(es[i], es[j]) {
        assert !SameKeys(all[i], all[j]);
      } else {
        var i :| 0 <= i < n && es[i].id == id && !SameKeys(es[i], ps[id].entry);
        assert !SameKeys(all[i], ps[id].entry);
      }
    } else if id == e.id && id in PutAll(ps, es) && !SameKeys(PutAll(ps, es)[id].entry, e) {
      if LastOf(es, id).Some? {
        var i :| 0 <= i < n && es[i] == LastOf(es, id).value && es[i].id == id;
        assert !SameKeys(all[i], all[n]);
      } else {
        assert !SameKeys(all[n], ps[id].entry);
      }
    } else if KeysVary(ps, all, id) {
      StillSame(ps, es, e, id);
    }
  }

  lemma StillSame(ps: Roster, es: seq<Entry>, e: Entry, id: DeviceId)
    requires !KeysVary(ps, es, id)
    requires id == e.id && id in PutAll(ps, es) ==> SameKeys(PutAll(ps, es)[id].entry, e)
    ensures !KeysVary(ps, es + [e], id)
  {
    var all, n := es + [e], |es|;
    PutAllRow(ps, es, id);
    LastOfIsEntry(es, id);
    forall i | 0 <= i < n && es[i].id == id && id == e.id ensures SameKeys(es[i], e) {
      assert es[i].id in Ids(es);
      var j :| 0 <= j < n && es[j] == LastOf(es, id).value && es[j].id == id;
      assert SameKeys(es[i], es[j]);
    }
    assert all[n] == e && forall i :: 0 <= i < n ==> all[i] == es[i];
    forall i, j | 0 <= i < |all| && 0 <= j < |all| && all[i].id == id && all[j].id == id ensures SameKeys(all[i], all[j]) {
      if i < n && j < n { assert SameKeys(es[i], es[j]); }
    }
    if id in ps {
      forall i | 0 <= i < |all| && all[i].id == id ensures SameKeys(all[i], ps[id].entry) {
        if i < n {
          assert SameKeys(es[i], ps[id].entry);
        } else if id in Ids(es) {
          var j :| 0 <= j < n && es[j] == LastOf(es, id).value && es[j].id == id;
          assert SameKeys(es[j], ps[id].entry);
        }
      }
    }
  }

  // --- the upsert's read and write, with the user in between ------------------------------------

  /** The reading goroutine's upsert has read a row (or none) and is about to write. */
  datatype Pending = Pending(entry: Entry, prev: Option<Peer>)

  datatype Store = Store(peers: Roster, pending: Option<Pending>, h: seq<Op>)

  datatype Step = Fetch(entry: Entry) | Write | Drop(id: DeviceId) | Say(id: DeviceId, v: bool)

  predicate Can(s: Store, a: Step) {
    match a
    case Fetch(_) => s.pending == None
    case Write => s.pending.Some?
    case Drop(_) => s.pending == None
    case Say(_, _) => true
  }

  function After(s: Store, a: Step): Store
    requires Can(s, a)
  {
    match a
    case Fetch(e) => s.(pending := Some(Pending(e, Row(s.peers, e.id))))
    case Write =>
      var e := s.pending.value.entry;
      Store(s.peers[e.id := Merged(s.pending.value.prev, e)], None, s.h + [Put(e)])
    case Drop(id) => s.(peers := Apply(s.peers, Remove(id)), h := s.h + [Remove(id)])
    case Say(id, v) => s.(peers := Apply(s.peers, Verify(id, v)), h := s.h + [Verify(id, v)])
  }

  ghost predicate StepAt(ss: seq<Store>, steps: seq<Step>, k: nat)
    requires |ss| == |steps| + 1 && k < |steps|
  {
    Can(ss[k], steps[k]) && ss[k + 1] == After(ss[k], steps[k])
  }

  ghost predicate IsRun(ss: seq<Store>, steps: seq<Step>) {
    && |ss| == |steps| + 1 && ss[0] == Store(map[], None, [])
    && forall k :: 0 <= k < |steps| ==> StepAt(ss, steps, k)
  }

  /** The row the upsert read is still the row it overwrites, unless it brings other keys anyway. */
  predicate StillStands(s: Store, a: Step) {
    a.Write? && s.pending.Some? && s.pending.value.prev.Some? ==>
      var (e, p) := (s.pending.value.entry, s.pending.value.prev.value);
      SameKeys(p.entry, e) ==> Row(s.peers, e.id) == Some(p)
  }

  ghost predicate AllAgree(s: Store) {
    forall id :: Agrees(s.peers, s.h, id)
  }

  ghost predicate PendingKnown(s: Store) {
    s.pending.Some? ==>
      var (e, prev) := (s.pending.value.entry, s.pending.value.prev);
      match prev
      case None => e.id !in s.peers
      case Some(p) => e.id in s.peers && s.peers[e.id].entry == p.entry
  }

  lemma {:induction false} RunPendingKnown(ss: seq<Store>, steps: seq<Step>, k: nat)
    requires IsRun(ss, steps) && k < |ss|
    ensures PendingKnown(ss[k])
  {
    if k > 0 {
      RunPendingKnown(ss, steps, k - 1);
      assert StepAt(ss, steps, k - 1);
    }
  }

  ghost predicate OneFlag(s: Store) {
    && (forall id :: id in s.peers ==> !(s.peers[id].verified && s.peers[id].keyChanged))
    && (s.pending.Some? && s.pending.value.prev.Some? ==>
          !(s.pending.value.prev.value.verified && s.pending.value.prev.value.keyChanged))
  }

  /** Even with the user between an upsert's read and write, no peer is ever shown as verified and with a changed key. */
  lemma {:induction false} NeverBothFlags(ss: seq<Store>, steps: seq<Step>, k: nat)
    requires IsRun(ss, steps) && k < |ss|
    ensures OneFlag(ss[k])
  {
    if k > 0 {
      NeverBothFlags(ss, steps, k - 1);
      assert StepAt(ss, steps, k - 1);
    }
  }

  lemma WriteIsPut(s: Store)
    requires s.pending.Some? && PendingKnown(s)
    ensures var e := s.pending.value.entry;
      var r, p := After(s, Write).peers, Apply(s.peers, Put(e));
      e.id in r && e.id in p && (r[e.id] == p[e.id] ==> r == p) && (r == p <==> StillStands(s, Write))
  {
    var e := s.pending.value.entry;
    var r, p := After(s, Write).peers, Apply(s.peers, Put(e));
    assert r == p[e.id := r[e.id]];
    if StillStands(s, Write) { assert r[e.id] == p[e.id]; }
  }

  lemma StepAgrees(s: Store, a: Step)
    requires Can(s, a) && PendingKnown(s) && AllAgree(s)
    ensures AllAgree(After(s, a)) <==> StillStands(s, a)
  {
    var s' := After(s, a);
    if !a.Fetch? {
      var op := s'.h[|s.h|];
      var p := Apply(s.peers, op);
      forall id ensures Agrees(p, s'.h, id) {
        assert Agrees(s.peers, s.h, id);
        ApplyAgrees(s.peers, s.h, op, id);
      }
      if a.Write? {
        WriteIsPut(s);
        if AllAgree(s') {
          assert Agrees(s'.peers, s'.h, op.entry.id) && Agrees(p, s'.h, op.entry.id);
        }
      }
    } else {
      forall id ensures Agrees(s'.peers, s'.h, id) { assert Agrees(s.peers, s.h, id); }
    }
  }

  lemma {:induction false} AgreeUpTo(ss: seq<Store>, steps: seq<Step>, k: nat)
    requires IsRun(ss, steps) && k < |ss|
    requires forall m :: 0 <= m < |steps| ==> StillStands(ss[m], steps[m])
    ensures AllAgree(ss[k])
  {
    if k > 0 {
      AgreeUpTo(ss, steps, k - 1);
      RunPendingKnown(ss, steps, k - 1);
      assert StepAt(ss, steps, k - 1);
      StepAgrees(ss[k - 1], steps[k - 1]);
    }
  }

  /**
   An upsert reads the row and writes it back without a transaction. Over a whole run the flags follow
   the history exactly when every write still finds the row it read, or brings new keys.
   */
  lemma FlagsFollowIffRowsStand(ss: seq<Store>, steps: seq<Step>)
    requires IsRun(ss, steps)
    ensures (forall k :: 0 <= k < |ss| ==> AllAgree(ss[k])) <==>
      (forall k :: 0 <= k < |steps| ==> StillStands(ss[k], steps[k]))
  {
    if forall k :: 0 <= k < |ss| ==> AllAgree(ss[k]) {
      forall k | 0 <= k < |steps| ensures StillStands(ss[k], steps[k]) {
        RunPendingKnown(ss, steps, k);
        assert StepAt(ss, steps, k) && AllAgree(ss[k]) && AllAgree(ss[k + 1]);
        StepAgrees(ss[k], steps[k]);
      }
    }
    if forall k :: 0 <= k < |steps| ==> StillStands(ss[k], steps[k]) {
      forall k | 0 <= k < |ss| ensures AllAgree(ss[k]) { AgreeUpTo(ss, steps, k); }
    }
  }

  const ANN := Entry("ann", "Ann", "s1", "b1", "active", false)

  /** A verification between the read and the write of an unchanged entry is lost. */
  lemma VerificationCanBeLost() returns (ss: seq<Store>, steps: seq<Step>)
    ensures IsRun(ss, steps) && |steps| == 5
    ensures steps == [Fetch(ANN), Write, Fetch(ANN), Say("ann", true), Write]
    ensures ss[5].peers == map["ann" := Peer(ANN, false, false)] && VerifiedSince(ss[5].h, "ann")
  {
    steps := [Fetch(ANN), Write, Fetch(ANN), Say("ann", true), Write];
    var row := map["ann" := Peer(ANN, false, false)];
    var s1 := Store(map[], Some(Pending(ANN, None)), []);
    var s2 := Store(row, None, [Put(ANN)]);
    var s3 := Store(row, Some(Pending(ANN, Some(row["ann"]))), [Put(ANN)]);
    var s4 := Store(map["ann" := Peer(ANN, true, false)], s3.pending, [Put(ANN), Verify("ann", true)]);
    var s5 := Store(row, None, [Put(ANN), Verify("ann", true), Put(ANN)]);
    ss := [Store(map[], None, []), s1, s2, s3, s4, s5];
    assert After(ss[0], steps[0]) == s1 && After(s1, Write) == s2 && After(s2, steps[2]) == s3;
    assert After(s3, steps[3]) == s4 && After(s4, Write) == s5;
    forall k | 0 <= k < 5 ensures StepAt(ss, steps, k) {}
    var h := s5.h;
    assert h[..1] == [Put(ANN)] && h[..2] == [Put(ANN), Verify("ann", true)];
    assert Latest(h[..1], "ann") == Some(ANN) && Latest(h[..2], "ann") == Latest(h[..2][..1], "ann");
    assert h[..2][..1] == h[..1];
    assert Verifies(h, 1, "ann") && NoneAfter(h, 1, "ann", true);
  }

  // --- the client's store ------------------------------------------------------------------------

  class ClientStore {
    var peers: Roster

    constructor ()
      ensures peers == map[]
    {
      peers := map[];
    }

    method GetPeer(id: DeviceId) returns (p: Option<Peer>)
      ensures p == Row(peers, id)
    {
      if id in peers {
        return Some(peers[id]);
      }
      return None;
    }

    /** With no one in between. */
    method UpsertPeer(e: Entry) returns (keyChanged: bool)
      modifies this
      ensures peers == Apply(old(peers), Put(e))
      ensures keyChanged <==>
        e.id in old(peers) && (old(peers)[e.id].entry.signPub != e.signPub || old(peers)[e.id].entry.boxPub != e.boxPub)
      ensures e.id in peers && peers[e.id].entry == e && peers - {e.id} == old(peers) - {e.id}
      ensures peers[e.id].verified <==> e.id in old(peers) && old(peers)[e.id].verified && !keyChanged
      ensures peers[e.id].keyChanged <==> e.id in old(peers) && (old(peers)[e.id].keyChanged || keyChanged)
    {
      var prev := GetPeer(e.id);
      match prev
      case None =>
        peers := peers[e.id := Peer(e, false, false)];
        keyChanged := false;
      case Some(p) =>
        keyChanged := p.entry.signPub != e.signPub || p.entry.boxPub != e.boxPub;
        peers := peers[e.id := Peer(e, p.verified && !keyChanged, p.keyChanged || keyChanged)];
    }

    method RemovePeer(id: DeviceId)
      modifies this
      ensures peers == Apply(old(peers), Remove(id)) && peers == old(peers) - {id}
    {
      peers := peers - {id};
    }

    method SetPeerVerified(id: DeviceId, v: bool) returns (found: bool)
      modifies this
      ensures found <==> id in old(peers)
      ensures peers == Apply(old(peers), Verify(id, v))
      ensures peers.Keys == old(peers).Keys && peers - {id} == old(peers) - {id}
      ensures found ==> peers[id] == Peer(old(peers)[id].entry, v, false)
    {
      found := id in peers;
      if found {
        peers := peers[id := peers[id].(verified := v, keyChanged := false)];
      }
    }

    method PutEntries(es: seq<Entry>) returns (keep: set<DeviceId>, alerts: seq<DeviceId>)
      modifies this
      ensures peers == PutAll(old(peers), es) && keep == Ids(es)
      ensures forall id :: id in alerts <==> KeysVary(old(peers), es, id)
    {
      keep, alerts := {}, [];
      var i := 0;
      while i < |es|
        invariant 0 <= i <= |es| && keep == Ids(es[..i])
        invariant peers == PutAll(old(peers), es[..i])
        invariant forall id :: id in alerts <==> KeysVary(old(peers), es[..i], id)
      {
        assert es[..i + 1] == es[..i] + [es[i]] && es[..i + 1][..i] == es[..i];
        forall id
          ensures KeysVary(old(peers), es[..i + 1], id) <==>
            KeysVary(old(peers), es[..i], id) || (id == es[i].id && id in peers && !SameKeys(peers[id].entry, es[i]))
        {
          KeysVaryStep(old(peers), es[..i], es[i], id);
        }
        keep := keep + {es[i].id};
        var changed := UpsertPeer(es[i]);
        if changed {
          alerts := alerts + [es[i].id];
        }
        i := i + 1;
      }
      assert es[..|es|] == es;
    }

    /** Drop the local peers that are not to be kept. */
    method DropOthers(keep: set<DeviceId>)
      modifies this
      ensures peers == old(peers) - (old(peers).Keys - keep)
    {
      var existing := peers.Keys;
      while existing != {}
        invariant existing <= old(peers).Keys
        invariant peers == old(peers) - (old(peers).Keys - existing - keep)
        decreases existing
      {
        var id :| id in existing;
        existing := existing - {id};
        if id !in keep {
          RemovePeer(id);
        }
      }
      assert old(peers).Keys - existing - keep == old(peers).Keys - keep;
    }

    /** `alerts` are the peers the user is warned about: exactly those whose keys vary. */
    method HandleSnapshot(es: seq<Entry>) returns (alerts: seq<DeviceId>)
      modifies this
      ensures peers == Snapshot(old(peers), es)
      ensures forall id :: id in alerts <==> KeysVary(old(peers), es, id)
      ensures forall i :: 0 <= i < |es| && es[i].id in old(peers) && es[i].id !in alerts ==>
        es[i].signPub == old(peers)[es[i].id].entry.signPub && es[i].boxPub == old(peers)[es[i].id].entry.boxPub
    {
      var keep;
      keep, alerts := PutEntries(es);
      DropOthers(keep);
    }

    method HandleDirUpdate(e: Entry, removed: bool) returns (alert: bool)
      modifies this
      ensures peers == Apply(old(peers), if removed then Remove(e.id) else Put(e))
      ensures alert <==> !removed && e.id in old(peers) && !SameKeys(old(peers)[e.id].entry, e)
    {
      if removed {
        RemovePeer(e.id);
        return false;
      }
      alert := UpsertPeer(e);
    }
  }
}
