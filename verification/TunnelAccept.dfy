/**
 Correlation of tunnel streams with their announced addresses, within one backend session. The hub opens
 the control stream first and announces every data stream on it; the listener pairs them up by stream id.
 */
module TunnelAccept {
  import opened Wire

  type StreamId = nat

  datatype Addr = Addr(ip: string, port: int)

  /** What the hub saw as the public peer's address, as text the listener can or cannot parse. */
  datatype Remote = Literal(addr: Addr) | Unparsable(text: string)

  /** Only a literal ip and port is an address; anything else is a bad preamble. */
  function ParseRemoteAddr(r: Remote): Option<Addr> {
    match r
    case Literal(a) => Some(a)
    case Unparsable(_) => None
  }

  datatype Preamble = Preamble(id: StreamId, remote: Remote)

  datatype Hub = Hub(nextId: StreamId, ctrl: Option<StreamId>, streams: map<StreamId, Remote>,
                     opening: set<StreamId>, announced: set<StreamId>)

  datatype Listener = Listener(ctrl: Option<StreamId>, pending: map<StreamId, Addr>, waiting: Option<StreamId>)

  /** `backlog` and `wire` are in transit; the rest is history. */
  datatype State = State(
    hub: Hub, listener: Listener,
    backlog: seq<StreamId>,            // opened streams the listener has not accepted
    wire: seq<Preamble>,               // preambles on the control stream
    arrived: seq<StreamId>,            // data streams in the order they reached the listener
    heard: set<StreamId>,              // whose preamble the listener has read
    returned: seq<(StreamId, Addr)>,   // what Accept returned
    dropped: seq<StreamId>)            // closed for want of a preamble

  datatype Step =
    | Establish                        // handleBackend opens the control stream
    | Open(remote: Remote)             // handlePublic opens a stream
    | Arrive(id: StreamId)             // the open reaches the listener's side
    | Announce(id: StreamId)           // WriteFrame under ctrlMu
    | AcceptControl
    | ReadControl
    | AcceptData
    | Match                            // waitForAddr finds the address
    | GiveUp                           // waitForAddr times out

  const START := State(Hub(0, None, map[], {}, {}), Listener(None, map[], None), [], [], [], {}, [], [])

  predicate Can(s: State, a: Step) {
    match a
    case Establish => s.hub.ctrl == None
    case Open(_) => s.hub.ctrl.Some?
    case Arrive(id) => id in s.hub.opening
    case Announce(id) => id in s.hub.streams && id !in s.hub.opening && id !in s.hub.announced
    case AcceptControl => s.listener.ctrl == None && s.backlog != []
    case ReadControl => s.listener.ctrl.Some? && s.wire != []
    case AcceptData => s.listener.ctrl.Some? && s.listener.waiting == None && s.backlog != []
    case Match => s.listener.waiting.Some? && s.listener.waiting.value in s.listener.pending
    case GiveUp => s.listener.waiting.Some? && s.listener.waiting.value !in s.listener.pending
  }

  function Hear(l: Listener, p: Preamble): Listener {
    match ParseRemoteAddr(p.remote)
    case Some(a) => l.(pending := l.pending[p.id := a])
    case None => l
  }

  function After(s: State, a: Step): State
    requires Can(s, a)
  {
    var h, l := s.hub, s.listener;
    match a
    case Establish => s.(hub := h.(ctrl := Some(h.nextId), nextId := h.nextId + 1), backlog := s.backlog + [h.nextId])
    case Open(r) =>
      s.(hub := h.(nextId := h.nextId + 1, streams := h.streams[h.nextId := r], opening := h.opening + {h.nextId}))
    case Arrive(id) => s.(hub := h.(opening := h.opening - {id}), backlog := s.backlog + [id], arrived := s.arrived + [id])
    case Announce(id) => s.(hub := h.(announced := h.announced + {id}), wire := s.wire + [Preamble(id, h.streams[id])])
    case AcceptControl => s.(listener := l.(ctrl := Some(s.backlog[0])), backlog := s.backlog[1..])
    case ReadControl =>
      s.(listener := Hear(l, s.wire[0]), wire := s.wire[1..], heard := s.heard + {s.wire[0].id})
    case AcceptData => s.(listener := l.(waiting := Some(s.backlog[0])), backlog := s.backlog[1..])
    case Match =>
      var id := l.waiting.value;
      s.(listener := l.(waiting := None, pending := l.pending - {id}), returned := s.returned + [(id, l.pending[id])])
    case GiveUp => s.(listener := l.(waiting := None), dropped := s.dropped + [l.waiting.value])
  }

  ghost predicate IsRun(ss: seq<State>, steps: seq<Step>) {
    && |ss| == |steps| + 1 && ss[0] == START
    && forall k :: 0 <= k < |steps| ==> Can(ss[k], steps[k]) && ss[k + 1] == After(ss[k], steps[k])
  }

  // --- invariant ---------------------------------------------------------------

  ghost predicate Distinct(s: seq<StreamId>) {
    forall i, j :: 0 <= i < j < |s| ==> s[i] != s[j]
  }

  function Ids(rs: seq<(StreamId, Addr)>): seq<StreamId> {
    seq(|rs|, i requires 0 <= i < |rs| => rs[i].0)
  }

  /** The data streams the listener has taken off the backlog. */
  ghost function TakenIds(s: State): multiset<StreamId> {
    multiset(Ids(s.returned)) + multiset(s.dropped) +
    (if s.listener.waiting.Some? then multiset{s.listener.waiting.value} else multiset{})
  }

  /** The control stream heads the backlog until the listener takes it. */
  ghost function Data(s: State): seq<StreamId> {
    if s.hub.ctrl.Some? && s.listener.ctrl == None && s.backlog != [] then s.backlog[1..] else s.backlog
  }

  ghost predicate HubOk(s: State) {
    var h := s.hub;
    && (forall id :: id in h.streams ==> id < h.nextId && Some(id) != h.ctrl)
    && (h.ctrl.Some? ==> h.ctrl.value < h.nextId)
    && (h.ctrl == None ==> h.streams == map[] && s.backlog == [] && s.listener.ctrl == None)
    && (s.listener.ctrl == None ==> h.ctrl.Some? ==> s.backlog != [] && Some(s.backlog[0]) == h.ctrl)
    && (s.listener.ctrl.Some? ==> s.listener.ctrl == h.ctrl)
    && h.opening <= h.streams.Keys && h.announced <= h.streams.Keys
  }

  ghost predicate ArrivalsOk(s: State) {
    && Distinct(s.arrived)
    && (forall id :: id in s.arrived <==> id in s.hub.streams && id !in s.hub.opening)
    && multiset(s.arrived) == TakenIds(s) + multiset(Data(s))
    && (s.listener.ctrl == None ==> s.listener.waiting == None && s.returned == [] && s.dropped == [])
  }

  /** The address a stream was opened for, when it can be parsed. */
  ghost function AddrOf(s: State, id: StreamId): Option<Addr> {
    if id in s.hub.streams then ParseRemoteAddr(s.hub.streams[id]) else None
  }

  ghost predicate PreamblesOk(s: State) {
    && (forall k :: 0 <= k < |s.wire| ==> s.wire[k].id in s.hub.announced && s.wire[k].id in s.hub.streams)
    && (forall k :: 0 <= k < |s.wire| ==> ParseRemoteAddr(s.wire[k].remote) == AddrOf(s, s.wire[k].id))
    && (forall k :: 0 <= k < |s.wire| ==> s.wire[k].id !in s.heard)
    && (forall i, j :: 0 <= i < j < |s.wire| ==> s.wire[i].id != s.wire[j].id)
    && s.heard <= s.hub.announced
    && (forall id :: id in s.listener.pending ==>
          id in s.heard && AddrOf(s, id) == Some(s.listener.pending[id]))
    && (forall k :: 0 <= k < |s.returned| ==>
          s.returned[k].0 in s.heard && AddrOf(s, s.returned[k].0) == Some(s.returned[k].1))
  }

  /** An address heard in time waits for its stream; nothing else can take it. */
  ghost predicate Kept(s: State) {
    forall id :: id in s.heard && AddrOf(s, id).Some? && id !in Ids(s.returned) ==> id in s.listener.pending
  }

  ghost predicate Inv(s: State) {
    HubOk(s) && ArrivalsOk(s) && PreamblesOk(s) && Kept(s)
  }

  // --- each step keeps it --------------------------------------------------------

  lemma HubKeeps(s: State, a: Step)
    requires Inv(s) && Can(s, a)
    ensures HubOk(After(s, a))
  {
  }

  lemma IdsAppend(rs: seq<(StreamId, Addr)>, r: (StreamId, Addr))
    ensures Ids(rs + [r]) == Ids(rs) + [r.0]
  {
  }

  /** A stream reaches the listener's side. */
  lemma ArriveKeeps(s: State, a: Step)
    requires HubOk(s) && ArrivalsOk(s) && Can(s, a) && a.Arrive?
    ensures ArrivalsOk(After(s, a))
  {
    assert a.id !in s.arrived;
    assert Data(After(s, a)) == Data(s) + [a.id];
  }

  /** The hub's other steps. */
  lemma OpeningKeeps(s: State, a: Step)
    requires HubOk(s) && ArrivalsOk(s) && Can(s, a) && (a.Establish? || a.Open? || a.Announce?)
    ensures ArrivalsOk(After(s, a))
  {
    match a
    case Establish =>
      assert forall id :: id !in s.arrived;
      assert Data(After(s, a)) == [];
    case Open(_) => assert s.hub.nextId !in s.arrived;
    case Announce(_) =>
  }

  /** Steps that move a stream along on the listener's side. */
  lemma AcceptingKeeps(s: State, a: Step)
    requires HubOk(s) && ArrivalsOk(s) && Can(s, a) && !(a.Establish? || a.Open? || a.Announce? || a.Arrive?)
    ensures ArrivalsOk(After(s, a))
  {
    var s' := After(s, a);
    match a
    case AcceptControl => assert Data(s') == Data(s);
    case ReadControl =>
    case AcceptData => assert s.backlog == [s.backlog[0]] + s.backlog[1..];
    case Match => IdsAppend(s.returned, (s.listener.waiting.value, s.listener.pending[s.listener.waiting.value]));
    case GiveUp =>
  }

  lemma ArrivalsKeep(s: State, a: Step)
    requires HubOk(s) && ArrivalsOk(s) && Can(s, a)
    ensures ArrivalsOk(After(s, a))
  {
    if a.Arrive? {
      ArriveKeeps(s, a);
    } else if a.Establish? || a.Open? || a.Announce? {
      OpeningKeeps(s, a);
    } else {
      AcceptingKeeps(s, a);
    }
  }

  lemma PreamblesKeep(s: State, a: Step)
    requires HubOk(s) && PreamblesOk(s) && Can(s, a)
    ensures PreamblesOk(After(s, a))
  {
  }

  lemma KeptKeeps(s: State, a: Step)
    requires Inv(s) && Can(s, a)
    ensures Kept(After(s, a))
  {
    var s' := After(s, a);
    if a.Match? {
      var id := s.listener.waiting.value;
      IdsAppend(s.returned, (id, s.listener.pending[id]));
      assert Ids(s'.returned)[|s.returned|] == id;
    }
    forall id | id in s'.heard && AddrOf(s', id).Some? && id !in Ids(s'.returned)
      ensures id in s'.listener.pending
    {
      if a.Match? { assert forall x :: x in Ids(s.returned) ==> x in Ids(s'.returned); }
    }
  }

  lemma StepKeeps(s: State, a: Step)
    requires Inv(s) && Can(s, a)
    ensures Inv(After(s, a))
  {
    HubKeeps(s, a);
    ArrivalsKeep(s, a);
    PreamblesKeep(s, a);
    KeptKeeps(s, a);
  }

  lemma {:induction false} RunInv(ss: seq<State>, steps: seq<Step>, k: nat)
    requires IsRun(ss, steps) && k < |ss|
    ensures Inv(ss[k])
  {
    if k > 0 {
      RunInv(ss, steps, k - 1);
      StepKeeps(ss[k - 1], steps[k - 1]);
    }
  }

  // --- what Accept promises --------------------------------------------------------

  /**
   Every connection Accept returns carries the address the hub announced for that very stream; the
   control stream is never returned, and no stream is returned twice or both returned and dropped.
   */
  lemma AcceptIsFaithful(ss: seq<State>, steps: seq<Step>, k: nat, i: nat)
    requires IsRun(ss, steps) && k < |ss| && i < |ss[k].returned|
    ensures var (id, addr) := ss[k].returned[i];
      && id in ss[k].hub.streams && id in ss[k].hub.announced
      && ss[k].hub.streams[id] == Literal(addr)
      && Some(id) != ss[k].hub.ctrl && Some(id) != ss[k].listener.ctrl
      && id !in ss[k].dropped
      && forall j :: 0 <= j < |ss[k].returned| && j != i ==> ss[k].returned[j].0 != id
  {
    RunInv(ss, steps, k);
    var s := ss[k];
    var id := s.returned[i].0;
    DistinctCounts(s.arrived, id);
    assert multiset(s.arrived)[id] == TakenIds(s)[id] + multiset(Data(s))[id];
    assert Ids(s.returned)[i] == id;
    forall j | 0 <= j < |s.returned| && j != i ensures s.returned[j].0 != id {
      if s.returned[j].0 == id { TwiceCounts(Ids(s.returned), i, j); }
    }
  }

  lemma {:induction false} DistinctCounts(s: seq<StreamId>, id: StreamId)
    requires Distinct(s)
    ensures multiset(s)[id] <= 1
  {
    if s != [] {
      var n := |s| - 1;
      DistinctCounts(s[..n], id);
      assert s == s[..n] + [s[n]];
    }
  }

  lemma TwiceCounts(s: seq<StreamId>, i: nat, j: nat)
    requires i < |s| && j < |s| && i != j && s[i] == s[j]
    ensures multiset(s)[s[i]] >= 2
  {
    var a, b := if i < j then i else j, if i < j then j else i;
    assert s == s[..b] + [s[b]] + s[b + 1..];
    assert s[a] in s[..b];
  }

  /** The streams that reached the listener are each returned, dropped, being waited for, or still queued. */
  lemma EveryStreamAccountedFor(ss: seq<State>, steps: seq<Step>, k: nat)
    requires IsRun(ss, steps) && k < |ss|
    ensures multiset(ss[k].arrived) == TakenIds(ss[k]) + multiset(Data(ss[k])) && Distinct(ss[k].arrived)
  {
    RunInv(ss, steps, k);
  }

  /**
   A stream is given up only for its own preamble's sake: none has been read for it, or the one that was
   has a bad address. Whatever happened to other streams makes no difference.
   */
  lemma GiveUpIsDeserved(ss: seq<State>, steps: seq<Step>, k: nat)
    requires IsRun(ss, steps) && k < |steps| && steps[k].GiveUp?
    ensures Can(ss[k], steps[k]) && ss[k].listener.waiting.value in ss[k].hub.streams
    ensures var id := ss[k].listener.waiting.value;
      id !in ss[k].heard || ss[k].hub.streams[id].Unparsable?
  {
    RunInv(ss, steps, k);
    var s := ss[k];
    var id := s.listener.waiting.value;
    DistinctCounts(s.arrived, id);
    assert multiset(s.arrived)[id] == TakenIds(s)[id] + multiset(Data(s))[id];
    assert id in s.arrived;
    assert id !in Ids(s.returned);
  }

  // --- which address a wait finds -------------------------------------------------

  /** The address pending after these preambles: the last good one for the stream, or what was there. */
  function Heard(pended: Option<Addr>, ps: seq<Preamble>, id: StreamId): Option<Addr> {
    if ps == [] then pended
    else
      var last := ps[|ps| - 1];
      if last.id == id && ParseRemoteAddr(last.remote).Some? then ParseRemoteAddr(last.remote)
      else Heard(pended, ps[..|ps| - 1], id)
  }

  /** What a wait that polls after each batch finds. */
  function Awaited(pended: Option<Addr>, news: seq<seq<Preamble>>, id: StreamId): Option<Addr>
    decreases |news|
  {
    if news == [] then None
    else
      var now := Heard(pended, news[0], id);
      if now.Some? then now else Awaited(None, news[1..], id)
  }

  lemma {:induction false} HeardExists(pended: Option<Addr>, ps: seq<Preamble>, id: StreamId)
    ensures Heard(pended, ps, id).Some? <==> pended.Some? || exists j :: 0 <= j < |ps| && ps[j].id == id && ps[j].remote.Literal?
  {
    if ps != [] {
      var n := |ps| - 1;
      HeardExists(pended, ps[..n], id);
      assert forall j :: 0 <= j < n ==> ps[..n][j] == ps[j];
    }
  }

  /** The preamble at `j` is the last good one for the stream. */
  ghost predicate LastGood(ps: seq<Preamble>, j: int, id: StreamId) {
    && 0 <= j < |ps| && ps[j].id == id && ps[j].remote.Literal?
    && forall m :: j < m < |ps| && ps[m].id == id ==> ps[m].remote.Unparsable?
  }

  ghost predicate NoneGood(ps: seq<Preamble>, id: StreamId) {
    forall m :: 0 <= m < |ps| && ps[m].id == id ==> ps[m].remote.Unparsable?
  }

  /** A later good preamble for the stream takes the place of an earlier one, and nothing else does. */
  lemma {:induction false} HeardIsLast(pended: Option<Addr>, ps: seq<Preamble>, id: StreamId, j: int)
    ensures LastGood(ps, j, id) ==> Heard(pended, ps, id) == Some(ps[j].remote.addr)
    ensures NoneGood(ps, id) ==> Heard(pended, ps, id) == pended
  {
    if ps != [] {
      var n := |ps| - 1;
      HeardIsLast(pended, ps[..n], id, j);
      assert forall m :: 0 <= m < n ==> ps[..n][m] == ps[m];
      if LastGood(ps, j, id) && j < n { assert LastGood(ps[..n], j, id); }
    }
  }

  /** The first poll that finds any address finds it at `j` of what was read before poll `i`. */
  ghost predicate FoundAt(pended: Option<Addr>, news: seq<seq<Preamble>>, id: StreamId, i: int, j: int) {
    && 0 <= i < |news| && LastGood(news[i], j, id) && (i > 0 ==> pended == None)
    && forall m :: 0 <= m < i ==> NoneGood(news[m], id)
  }

  lemma {:induction false} AwaitedIsFirst(pended: Option<Addr>, news: seq<seq<Preamble>>, id: StreamId, i: int, j: int)
    requires news != []
    ensures FoundAt(pended, news, id, i, j) ==> Awaited(pended, news, id) == Some(news[i][j].remote.addr)
    ensures pended.Some? && NoneGood(news[0], id) ==> Awaited(pended, news, id) == pended
    decreases |news|
  {
    HeardIsLast(pended, news[0], id, j);
    if FoundAt(pended, news, id, i, j) && i > 0 {
      var rest := news[1..];
      assert rest[i - 1] == news[i] && forall m :: 0 <= m < i - 1 ==> rest[m] == news[m + 1];
      AwaitedIsFirst(None, rest, id, i - 1, j);
    }
  }

  lemma {:induction false} AwaitedExists(pended: Option<Addr>, news: seq<seq<Preamble>>, id: StreamId)
    requires news != []
    ensures Awaited(pended, news, id).Some? <==> pended.Some? || exists i, j ::
      0 <= i < |news| && 0 <= j < |news[i]| && news[i][j].id == id && news[i][j].remote.Literal?
    decreases |news|
  {
    HeardExists(pended, news[0], id);
    var rest := news[1..];
    assert forall i :: 0 <= i < |rest| ==> rest[i] == news[i + 1];
    if rest == [] {
      assert Awaited(None, rest, id) == None;
    } else {
      AwaitedExists(None, rest, id);
    }
    if exists i, j :: 0 <= i < |news| && 0 <= j < |news[i]| && news[i][j].id == id && news[i][j].remote.Literal? {
      var i, j :| 0 <= i < |news| && 0 <= j < |news[i]| && news[i][j].id == id && news[i][j].remote.Literal?;
      if i > 0 { assert rest[i - 1][j] == news[i][j]; }
    }
  }

  // --- the listener --------------------------------------------------------------

  class SessionListener {
    var ctrl: Option<StreamId>
    var pending: map<StreamId, Addr>
    ghost var waiting: Option<StreamId>

    ghost function View(): Listener reads this { Listener(ctrl, pending, waiting) }

    constructor ()
      ensures View() == START.listener
    {
      ctrl, pending, waiting := None, map[], None;
    }

    /** The first stream of the session becomes the control stream; later calls change nothing. */
    method EnsureControlStream(first: StreamId)
      modifies this
      ensures View() == if old(ctrl) == None then old(View()).(ctrl := Some(first)) else old(View())
    {
      if ctrl == None {
        ctrl := Some(first);
      }
    }

    /** One turn of readControl. */
    method ReadControlFrame(p: Preamble)
      modifies this`pending
      ensures View() == Hear(old(View()), p)
      ensures pending == if p.remote.Literal? then old(pending)[p.id := p.remote.addr] else old(pending)
    {
      match ParseRemoteAddr(p.remote)
      case Some(a) => pending := pending[p.id := a];
      case None =>
    }

    /** One poll of waitForAddr: the address is taken out as it is found. */
    method TakeAddr(id: StreamId) returns (addr: Option<Addr>)
      requires waiting == Some(id)
      modifies this`pending, this`waiting
      ensures if id in old(pending)
              then addr == Some(old(pending)[id]) && View() == old(View()).(waiting := None, pending := old(pending) - {id})
              else addr == None && View() == old(View())
    {
      if id in pending {
        addr := Some(pending[id]);
        pending := pending - {id};
        waiting := None;
      } else {
        addr := None;
      }
    }

    ghost function Pended(id: StreamId): Option<Addr> reads this { if id in pending then Some(pending[id]) else None }

    /** What the control goroutine reads in one go. */
    method ReadControlFrames(ps: seq<Preamble>, id: StreamId)
      modifies this`pending
      ensures Pended(id) == Heard(old(Pended(id)), ps, id)
    {
      var k := 0;
      while k < |ps|
        invariant 0 <= k <= |ps| && Pended(id) == Heard(old(Pended(id)), ps[..k], id)
      {
        assert ps[..k + 1][..k] == ps[..k];
        ReadControlFrame(ps[k]);
        k := k + 1;
      }
      assert ps[..|ps|] == ps;
    }

    /**
     waitForAddr: `news[i]` is what the control goroutine reads before poll `i`; the last poll comes
     after the deadline. What it finds is the last good preamble for the stream read before the first poll
     that has any, or else the one pending from before; it gives up exactly when there is neither.
     */
    method WaitForAddr(id: StreamId, news: seq<seq<Preamble>>) returns (addr: Option<Addr>)
      requires waiting == Some(id) && news != []
      modifies this`pending, this`waiting
      ensures addr == Awaited(old(Pended(id)), news, id)
      ensures addr.Some? <==> id in old(pending) || exists i, j ::
        0 <= i < |news| && 0 <= j < |news[i]| && news[i][j].id == id && news[i][j].remote.Literal?
      ensures forall i, j :: FoundAt(old(Pended(id)), news, id, i, j) ==> addr == Some(news[i][j].remote.addr)
      ensures id in old(pending) && NoneGood(news[0], id) ==> addr == Some(old(pending)[id])
      ensures waiting == if addr.Some? then None else Some(id)
      ensures addr.Some? ==> id !in pending
    {
      AwaitedExists(Pended(id), news, id);
      forall i, j
        ensures FoundAt(Pended(id), news, id, i, j) ==> Awaited(Pended(id), news, id) == Some(news[i][j].remote.addr)
      {
        AwaitedIsFirst(Pended(id), news, id, i, j);
      }
      AwaitedIsFirst(Pended(id), news, id, 0, 0);
      addr := None;
      var i := 0;
      while i < |news| && addr == None
        invariant 0 <= i <= |news|
        invariant waiting == if addr.Some? then None else Some(id)
        invariant addr.Some? ==> id !in pending
        invariant Awaited(old(Pended(id)), news, id) == if addr.Some? then addr else Awaited(Pended(id), news[i..], id)
      {
        assert news[i..][0] == news[i] && news[i..][1..] == news[i + 1..];
        ReadControlFrames(news[i], id);
        addr := TakeAddr(id);
        i := i + 1;
      }
    }
  }
}
