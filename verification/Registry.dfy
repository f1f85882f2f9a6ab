/** The relay's connection registry against its history: which connection is current, and which were closed. */
module Registry {

  /** `addConn` and `removeConn`, each atomic under the registry lock. */
  datatype Event<K, C> = Added(id: K, conn: C) | Removed(id: K, conn: C)

  datatype State<K(==), C(==)> = State(entries: map<K, C>, closed: set<C>)

  function Apply<K(==), C(==)>(s: State<K, C>, e: Event<K, C>): State<K, C> {
    match e
    case Added(id, c) =>
      State(s.entries[id := c], if id in s.entries then s.closed + {s.entries[id]} else s.closed)
    case Removed(id, c) =>
      if id in s.entries && s.entries[id] == c then s.(entries := s.entries - {id}) else s
  }

  function Replay<K(==), C(==)>(h: seq<Event<K, C>>): State<K, C> {
    if h == [] then State(map[], {}) else Apply(Replay(h[..|h| - 1]), h[|h| - 1])
  }

  /** From `i` on, nothing replaced or removed the connection added there. */
  predicate Undisturbed<K(==), C(==)>(h: seq<Event<K, C>>, i: nat, upTo: nat)
    requires i < upTo <= |h| && h[i].Added?
  {
    forall j :: i < j < upTo ==> !(h[j].Added? && h[j].id == h[i].id) && h[j] != Removed(h[i].id, h[i].conn)
  }

  /** The most recent addition for `id` is of `c`, which has not been removed since. */
  ghost predicate IsCurrent<K, C>(h: seq<Event<K, C>>, id: K, c: C) {
    exists i :: 0 <= i < |h| && h[i] == Added(id, c) && Undisturbed(h, i, |h|)
  }

  /** `c` was the current connection of some device when another was added for that device. */
  ghost predicate WasDisplaced<K, C>(h: seq<Event<K, C>>, c: C) {
    exists i, j :: DisplacedAt(h, c, i, j)
  }

  ghost predicate DisplacedAt<K, C>(h: seq<Event<K, C>>, c: C, i: int, j: int) {
    && 0 <= i < j < |h| && h[i].Added? && h[i].conn == c
    && h[j].Added? && h[j].id == h[i].id && Undisturbed(h, i, j)
  }

  lemma UndisturbedAppend<K, C>(h: seq<Event<K, C>>, e: Event<K, C>, i: nat)
    requires i < |h| && h[i].Added?
    ensures Undisturbed(h + [e], i, |h| + 1) <==>
      Undisturbed(h, i, |h|) && !(e.Added? && e.id == h[i].id) && e != Removed(h[i].id, h[i].conn)
    ensures forall j :: i < j <= |h| ==> (Undisturbed(h + [e], i, j) <==> Undisturbed(h, i, j))
  {
    var g := h + [e];
    if Undisturbed(g, i, |g|) {
      assert g[|h|] == e;
      forall j | i < j < |h| ensures !(h[j].Added? && h[j].id == h[i].id) && h[j] != Removed(h[i].id, h[i].conn) {
        assert g[j] == h[j];
      }
    }
    forall k | i < k <= |h| ensures Undisturbed(g, i, k) <==> Undisturbed(h, i, k) {
      assert forall j :: i < j < k ==> g[j] == h[j];
    }
  }

  lemma CurrentAppend<K, C>(h: seq<Event<K, C>>, e: Event<K, C>, id: K, c: C)
    ensures IsCurrent(h + [e], id, c) <==>
      e == Added(id, c) || (IsCurrent(h, id, c) && !(e.Added? && e.id == id) && e != Removed(id, c))
  {
    var g := h + [e];
    assert g[|h|] == e;
    forall i | 0 <= i < |h| && h[i].Added? {
      UndisturbedAppend(h, e, i);
    }
    if IsCurrent(h, id, c) && !(e.Added? && e.id == id) && e != Removed(id, c) {
      var i :| 0 <= i < |h| && h[i] == Added(id, c) && Undisturbed(h, i, |h|);
      assert g[i] == Added(id, c) && Undisturbed(g, i, |g|);
    }
    if IsCurrent(g, id, c) && e != Added(id, c) {
      var i :| 0 <= i < |g| && g[i] == Added(id, c) && Undisturbed(g, i, |g|);
      assert h[i] == Added(id, c) && Undisturbed(h, i, |h|);
    }
    if e == Added(id, c) {
      assert Undisturbed(g, |h|, |g|);
    }
  }

  lemma DisplacedAppend<K, C>(h: seq<Event<K, C>>, e: Event<K, C>, c: C)
    ensures WasDisplaced(h + [e], c) <==> WasDisplaced(h, c) || (e.Added? && IsCurrent(h, e.id, c))
  {
    var g := h + [e];
    forall i | 0 <= i < |h| && h[i].Added? {
      UndisturbedAppend(h, e, i);
    }
    if WasDisplaced(g, c) {
      var i, j :| DisplacedAt(g, c, i, j);
      assert Undisturbed(h, i, j) && h[i] == g[i];
      if j < |h| {
        assert g[j] == h[j];
        assert DisplacedAt(h, c, i, j);
      } else {
        assert h[i] == Added(e.id, c) && Undisturbed(h, i, |h|);
      }
    }
    if WasDisplaced(h, c) {
      var i, j :| DisplacedAt(h, c, i, j);
      assert DisplacedAt(g, c, i, j);
    }
    if e.Added? && IsCurrent(h, e.id, c) {
      var i :| 0 <= i < |h| && h[i] == Added(e.id, c) && Undisturbed(h, i, |h|);
      assert DisplacedAt(g, c, i, |h|);
    }
  }

  /**
   After any interleaving of additions and removals, a device's entry is its most recently added
   connection, there exactly as long as that one has not been removed: removing any other connection,
   in particular a replaced one, leaves it alone.
   */
  lemma {:induction false} EntryIsCurrent<K, C>(h: seq<Event<K, C>>, id: K, c: C)
    ensures (id in Replay(h).entries && Replay(h).entries[id] == c) <==> IsCurrent(h, id, c)
  {
    if h != [] {
      var n := |h| - 1;
      assert h == h[..n] + [h[n]];
      EntryIsCurrent(h[..n], id, c);
      CurrentAppend(h[..n], h[n], id, c);
    }
  }

  /** The connections closed are exactly those another connection displaced. */
  lemma {:induction false} ClosedAreDisplaced<K, C>(h: seq<Event<K, C>>, c: C)
    ensures c in Replay(h).closed <==> WasDisplaced(h, c)
  {
    if h != [] {
      var n := |h| - 1;
      assert h == h[..n] + [h[n]];
      ClosedAreDisplaced(h[..n], c);
      DisplacedAppend(h[..n], h[n], c);
      EntryIsCurrent(h[..n], h[n].id, c);
    }
  }

  /**
   A connection that was added is still current, or closed, or was removed after that addition:
   none is left open and forgotten.
   */
  lemma {:induction false} NoneForgotten<K, C>(h: seq<Event<K, C>>, i: nat)
    requires i < |h| && h[i].Added?
    ensures var (id, c) := (h[i].id, h[i].conn);
      IsCurrent(h, id, c) || c in Replay(h).closed || Removed(id, c) in h[i..]
  {
    var (id, c) := (h[i].id, h[i].conn);
    var n := |h| - 1;
    assert h == h[..n] + [h[n]];
    CurrentAppend(h[..n], h[n], id, c);
    if i < n {
      NoneForgotten(h[..n], i);
      if Removed(id, c) in h[..n][i..] {
        assert h[i..] == h[..n][i..] + [h[n]];
      } else if IsCurrent(h[..n], id, c) {
        EntryIsCurrent(h[..n], id, c);
        assert h[n] in h[i..];
      }
    }
  }
}
