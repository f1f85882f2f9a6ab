/**
 The receiving side of file transfers: each transfer is the business of its own frames only, and what is
 published is the file that was sent, as long as no transfer is given a path another one uses or has published.
 */
module FileReceiver {
  import opened Wire
  import opened FileTransfer

  /** `fd` is the open descriptor's inode, written at offset `done`; `hashed` is what the hasher has seen. */
  datatype Transfer = Transfer(offer: Offer, part: Path, final: Path, fd: nat, hashed: seq<Byte>, next: int, done: nat)

  datatype End = Published(path: Path, content: seq<Byte>) | Unmoved | Mismatched | Aborted

  datatype Note = Started(tid: Tid) | Ended(tid: Tid, how: End)

  /** The directory names inodes; `log` is history. */
  datatype State = State(transfers: map<Tid, Transfer>, dir: map<Path, nat>, disk: seq<seq<Byte>>, log: seq<Note>)

  ghost predicate Wf(s: State) {
    && (forall p :: p in s.dir ==> s.dir[p] < |s.disk|)
    && (forall t :: t in s.transfers ==> s.transfers[t].fd < |s.disk|)
  }

  type Disk = s: State | Wf(s) witness State(map[], map[], [], [])

  function Zeros(n: nat): seq<Byte> { seq(n, _ => 0) }

  /** A write at an offset leaves what lies beyond it, and fills a gap before it with zeros. */
  function WriteAt(content: seq<Byte>, offset: nat, bytes: seq<Byte>): seq<Byte> {
    if bytes == [] then content
    else
      var before := if |content| < offset then content + Zeros(offset - |content|) else content[..offset];
      before + bytes + if offset + |bytes| < |content| then content[offset + |bytes|..] else []
  }

  /** Creating a file truncates the one that is there. */
  function Create(s: Disk, path: Path): (r: Disk)
    ensures path in r.dir
  {
    if path in s.dir then s.(disk := s.disk[s.dir[path] := []])
    else s.(dir := s.dir[path := |s.disk|], disk := s.disk + [[]])
  }

  function FinalPath(s: Disk, o: Offer): Path { FreePath(o.path, s.dir.Keys) }

  function PartPath(s: Disk, o: Offer): Path { FinalPath(s, o) + ".part" }

  function HandleOffer(s: Disk, max: int, o: Offer): Disk {
    if o.size > max then s
    else
      var c := Create(s, PartPath(s, o));
      c.(transfers := c.transfers[o.tid := Transfer(o, PartPath(s, o), FinalPath(s, o), c.dir[PartPath(s, o)], [], 0, 0)],
         log := c.log + [Started(o.tid)])
  }

  function Abort(s: Disk, tid: Tid): Disk
    requires tid in s.transfers
  {
    State(s.transfers - {tid}, s.dir - {s.transfers[tid].part}, s.disk, s.log + [Ended(tid, Aborted)])
  }

  /** Write, hash and count one chunk. */
  function Take(s: Disk, tid: Tid, bytes: seq<Byte>): (r: Disk)
    requires tid in s.transfers
    ensures tid in r.transfers
  {
    var tr := s.transfers[tid];
    s.(disk := s.disk[tr.fd := WriteAt(s.disk[tr.fd], tr.done, bytes)],
       transfers := s.transfers[tid := tr.(hashed := tr.hashed + bytes, next := tr.next + 1, done := tr.done + |bytes|)])
  }

  /** All chunks are in: check the hash, and move the part file to its final name. */
  function Finalize(s: Disk, tid: Tid): Disk
    requires tid in s.transfers
  {
    var tr := s.transfers[tid];
    if Sha256(tr.hashed) != tr.offer.sum then
      State(s.transfers - {tid}, s.dir - {tr.part}, s.disk, s.log + [Ended(tid, Mismatched)])
    else if tr.part !in s.dir then
      State(s.transfers - {tid}, s.dir, s.disk, s.log + [Ended(tid, Unmoved)])
    else
      State(s.transfers - {tid}, (s.dir - {tr.part})[tr.final := s.dir[tr.part]], s.disk,
            s.log + [Ended(tid, Published(tr.final, s.disk[s.dir[tr.part]]))])
  }

  /** A write puts its bytes at the offset and leaves the rest; a gap before it reads as zeros. */
  lemma WriteMeaning(content: seq<Byte>, offset: nat, bytes: seq<Byte>, k: nat)
    requires bytes != []
    ensures var after, end := WriteAt(content, offset, bytes), offset + |bytes|;
      && |after| == (if end < |content| then |content| else end)
      && (k < |after| ==> after[k] == if offset <= k < end then bytes[k - offset] else if k < |content| then content[k] else 0)
  {
  }

  /**
   An offer within the limit gets a free name, its own if that is free, and a part file beside it, created
   empty or emptied; its transfer starts from nothing. Everything else stays.
   */
  lemma OfferMeaning(s: Disk, max: int, o: Offer)
    ensures o.size > max ==> HandleOffer(s, max, o) == s
    ensures var r := HandleOffer(s, max, o);
      o.size <= max ==>
        && o.tid in r.transfers && r.transfers - {o.tid} == s.transfers - {o.tid} && r.log == s.log + [Started(o.tid)]
        && var tr := r.transfers[o.tid];
        && tr.offer == o && tr.hashed == [] && tr.next == 0 && tr.done == 0
        && tr.final !in s.dir && (o.path !in s.dir ==> tr.final == o.path)
        && tr.part == tr.final + ".part" && tr.part in r.dir && r.dir[tr.part] == tr.fd && r.disk[tr.fd] == []
        && r.dir - {tr.part} == s.dir - {tr.part}
        && |s.disk| <= |r.disk| && forall n :: 0 <= n < |s.disk| && n != tr.fd ==> r.disk[n] == s.disk[n]
  {
  }

  /** What is left of a transfer that ended: nothing, and its part file's name goes with it or moves. */
  ghost predicate Over(s: Disk, r: Disk, tid: Tid, how: End)
    requires tid in s.transfers
  {
    r.transfers == s.transfers - {tid} && r.disk == s.disk && r.log == s.log + [Ended(tid, how)]
    && r.dir - {s.transfers[tid].part} == s.dir - {s.transfers[tid].part} && s.transfers[tid].part !in r.dir
  }

  lemma AbortMeaning(s: Disk, tid: Tid)
    requires tid in s.transfers
    ensures Over(s, Abort(s, tid), tid, Aborted)
  {
  }

  /** A wrong hash leaves no file; a right one moves the part file, if it is still there, to its final name. */
  lemma FinalizeMeaning(s: Disk, tid: Tid)
    requires tid in s.transfers && s.transfers[tid].part != s.transfers[tid].final
    ensures var tr, r := s.transfers[tid], Finalize(s, tid);
      if Sha256(tr.hashed) != tr.offer.sum then Over(s, r, tid, Mismatched)
      else if tr.part !in s.dir then Over(s, r, tid, Unmoved)
      else
        && r.transfers == s.transfers - {tid} && r.disk == s.disk
        && tr.final in r.dir && r.dir[tr.final] == s.dir[tr.part] && tr.part !in r.dir
        && r.dir - {tr.part, tr.final} == s.dir - {tr.part, tr.final}
        && r.log == s.log + [Ended(tid, Published(tr.final, s.disk[s.dir[tr.part]]))]
  {
  }

  function HandleChunk(s: Disk, tid: Tid, index: int, bytes: Option<seq<Byte>>): Disk {
    if tid !in s.transfers then s
    else if index != s.transfers[tid].next || bytes == None then Abort(s, tid)
    else
      var t := Take(s, tid, bytes.value);
      if t.transfers[tid].next < t.transfers[tid].offer.chunks then t else Finalize(t, tid)
  }

  function Handle(s: Disk, max: int, e: Event): Disk {
    match e
    case OfferIn(o) => HandleOffer(s, max, o)
    case ChunkIn(tid, index, bytes) => HandleChunk(s, tid, index, bytes)
  }

  function Run(s: Disk, max: int, es: seq<Event>): Disk {
    if es == [] then s else Handle(Run(s, max, es[..|es| - 1]), max, es[|es| - 1])
  }

  /**
   A chunk of no transfer does nothing; one out of turn or badly encoded ends its transfer; any other is
   written after those before it, and the last ends the transfer.
   */
  lemma ChunkMeaning(s: Disk, tid: Tid, index: int, bytes: Option<seq<Byte>>)
    ensures var r := HandleChunk(s, tid, index, bytes);
      if tid !in s.transfers then r == s
      else
        var tr := s.transfers[tid];
        if index != tr.next || bytes == None then Over(s, r, tid, Aborted)
        else
          && |r.disk| == |s.disk| && r.disk[tr.fd] == WriteAt(s.disk[tr.fd], tr.done, bytes.value)
          && (forall n :: 0 <= n < |s.disk| && n != tr.fd ==> r.disk[n] == s.disk[n])
          && r.transfers - {tid} == s.transfers - {tid}
          && if index + 1 < tr.offer.chunks
             then tid in r.transfers && r.dir == s.dir && r.log == s.log
                  && r.transfers[tid] == tr.(hashed := tr.hashed + bytes.value, next := index + 1, done := tr.done + |bytes.value|)
             else tid !in r.transfers && |r.log| == |s.log| + 1
  {
  }

  const BARE := State(map[], map[], [], [])

  // --- one transfer at a time ------------------------------------------------------

  datatype Verdict = Begun | Verified | Failed | Dropped

  datatype Progress = Idle | Taking(offer: Offer, next: int, hashed: seq<Byte>)

  /** What a receiver of this one transfer would know and report. */
  datatype View = View(track: Progress, verdicts: seq<Verdict>)

  function TidOf(e: Event): Tid { if e.OfferIn? then e.offer.tid else e.tid }

  function ViewNext(v: View, max: int, e: Event): View {
    match e
    case OfferIn(o) => if o.size > max then v else View(Taking(o, 0, []), v.verdicts + [Begun])
    case ChunkIn(_, index, bytes) =>
      if v.track == Idle then v
      else
        var Taking(o, next, hashed) := v.track;
        if index != next || bytes == None then View(Idle, v.verdicts + [Dropped])
        else if next + 1 < o.chunks then v.(track := Taking(o, next + 1, hashed + bytes.value))
        else View(Idle, v.verdicts + [if Sha256(hashed + bytes.value) == o.sum then Verified else Failed])
  }

  function ViewRun(v: View, max: int, es: seq<Event>): View {
    if es == [] then v else ViewNext(ViewRun(v, max, es[..|es| - 1]), max, es[|es| - 1])
  }

  function Only(es: seq<Event>, tid: Tid): seq<Event> {
    if es == [] then []
    else Only(es[..|es| - 1], tid) + if TidOf(es[|es| - 1]) == tid then [es[|es| - 1]] else []
  }

  function VerdictOf(n: Note): Verdict {
    match n
    case Started(_) => Begun
    case Ended(_, how) =>
      match how
      case Published(_, _) => Verified
      case Unmoved => Verified
      case Mismatched => Failed
      case Aborted => Dropped
  }

  function Verdicts(log: seq<Note>, tid: Tid): seq<Verdict> {
    if log == [] then []
    else Verdicts(log[..|log| - 1], tid) + if log[|log| - 1].tid == tid then [VerdictOf(log[|log| - 1])] else []
  }

  function TrackOf(s: State, tid: Tid): Progress {
    if tid in s.transfers then Taking(s.transfers[tid].offer, s.transfers[tid].next, s.transfers[tid].hashed) else Idle
  }

  function ViewOf(s: State, tid: Tid): View { View(TrackOf(s, tid), Verdicts(s.log, tid)) }

  const FRESH := View(Idle, [])

  lemma VerdictsAppend(log: seq<Note>, n: Note, tid: Tid)
    ensures Verdicts(log + [n], tid) == Verdicts(log, tid) + if n.tid == tid then [VerdictOf(n)] else []
  {
    assert (log + [n])[..|log|] == log;
  }

  lemma OfferViewed(s: Disk, max: int, o: Offer, tid: Tid)
    ensures ViewOf(HandleOffer(s, max, o), tid) ==
      if o.tid == tid then ViewNext(ViewOf(s, tid), max, OfferIn(o)) else ViewOf(s, tid)
  {
    VerdictsAppend(s.log, Started(o.tid), tid);
  }

  lemma AbortViewed(s: Disk, t: Tid, tid: Tid)
    requires t in s.transfers
    ensures ViewOf(Abort(s, t), tid) ==
      if t == tid then View(Idle, Verdicts(s.log, tid) + [Dropped]) else ViewOf(s, tid)
  {
    VerdictsAppend(s.log, Ended(t, Aborted), tid);
  }

  lemma FinalizeViewed(s: Disk, t: Tid, tid: Tid)
    requires t in s.transfers
    ensures ViewOf(Finalize(s, t), tid) ==
      if t == tid
      then View(Idle, Verdicts(s.log, tid) + [if Sha256(s.transfers[t].hashed) == s.transfers[t].offer.sum then Verified else Failed])
      else ViewOf(s, tid)
  {
    var log' := Finalize(s, t).log;
    VerdictsAppend(s.log, log'[|log'| - 1], tid);
  }

  lemma TakeViewed(s: Disk, t: Tid, bytes: seq<Byte>, tid: Tid)
    requires t in s.transfers
    ensures var tr := s.transfers[t];
      ViewOf(Take(s, t, bytes), tid) ==
      if t == tid then View(Taking(tr.offer, tr.next + 1, tr.hashed + bytes), Verdicts(s.log, tid)) else ViewOf(s, tid)
  {
  }

  lemma ChunkViewed(s: Disk, max: int, t: Tid, index: int, bytes: Option<seq<Byte>>, tid: Tid)
    ensures ViewOf(HandleChunk(s, t, index, bytes), tid) ==
      if t == tid then ViewNext(ViewOf(s, tid), max, ChunkIn(t, index, bytes)) else ViewOf(s, tid)
  {
    if t in s.transfers {
      if index != s.transfers[t].next || bytes == None {
        AbortViewed(s, t, tid);
      } else {
        TakeViewed(s, t, bytes.value, tid);
        FinalizeViewed(Take(s, t, bytes.value), t, tid);
      }
    }
  }

  lemma HandleViewed(s: Disk, max: int, e: Event, tid: Tid)
    ensures ViewOf(Handle(s, max, e), tid) ==
      if TidOf(e) == tid then ViewNext(ViewOf(s, tid), max, e) else ViewOf(s, tid)
  {
    match e
    case OfferIn(o) => OfferViewed(s, max, o, tid);
    case ChunkIn(t, index, bytes) => ChunkViewed(s, max, t, index, bytes, tid);
  }

  /**
   What happens to a transfer, up to where its file ends up, depends on its own frames alone: all other
   transfers' frames in between, whatever they are, make no difference.
   */
  lemma {:induction false} NoInterference(s: Disk, max: int, es: seq<Event>, tid: Tid)
    requires s.transfers == map[] && s.log == []
    ensures ViewOf(Run(s, max, es), tid) == ViewRun(FRESH, max, Only(es, tid))
  {
    if es != [] {
      var n := |es| - 1;
      NoInterference(s, max, es[..n], tid);
      HandleViewed(Run(s, max, es[..n]), max, es[n], tid);
      if TidOf(es[n]) == tid {
        var own := Only(es, tid);
        assert own == Only(es[..n], tid) + [es[n]];
        assert own[..|own| - 1] == Only(es[..n], tid);
      } else {
        assert Only(es, tid) == Only(es[..n], tid);
      }
    }
  }

  // --- ends at most once ---------------------------------------------------------------

  function Count(vs: seq<Verdict>, begun: bool): nat {
    if vs == [] then 0
    else Count(vs[..|vs| - 1], begun) + if (vs[|vs| - 1] == Begun) == begun then 1 else 0
  }

  lemma {:induction false} ViewEndsOnce(max: int, es: seq<Event>)
    ensures var v := ViewRun(FRESH, max, es);
      Count(v.verdicts, false) + (if v.track.Taking? then 1 else 0) <= Count(v.verdicts, true)
  {
    if es != [] {
      var n := |es| - 1;
      ViewEndsOnce(max, es[..n]);
      var u, v := ViewRun(FRESH, max, es[..n]), ViewRun(FRESH, max, es);
      if |v.verdicts| > |u.verdicts| {
        assert v.verdicts[..|v.verdicts| - 1] == u.verdicts;
      }
    }
  }

  /** After any frames at all, a transfer has ended at most once for each time it began, and not while it goes on. */
  lemma EndsAtMostOnce(s: Disk, max: int, es: seq<Event>, tid: Tid)
    requires s.transfers == map[] && s.log == []
    ensures var r := Run(s, max, es);
      Count(Verdicts(r.log, tid), false) + (if tid in r.transfers then 1 else 0) <= Count(Verdicts(r.log, tid), true)
  {
    NoInterference(s, max, es, tid);
    ViewEndsOnce(max, Only(es, tid));
  }

  // --- honest senders ----------------------------------------------------------------------

  /** Every frame is one that SendFile sends for its transfer, in whatever order and however often. */
  ghost predicate Honest(es: seq<Event>, srcs: map<Tid, Source>) {
    forall k :: 0 <= k < |es| ==> TidOf(es[k]) in srcs && es[k] in Stream(TidOf(es[k]), srcs[TidOf(es[k])])
  }

  lemma FromStream(tid: Tid, src: Source, e: Event)
    requires e in Stream(tid, src)
    ensures match e
      case OfferIn(o) => o == OfferFor(tid, src)
      case ChunkIn(t, i, bytes) => t == tid && 0 <= i < ChunkCount(|src.file|) && bytes == Some(Chunk(src.file, i))
  {
  }

  ghost predicate Tracks(t: Progress, tid: Tid, src: Source) {
    t.Taking? ==>
      && t.offer == OfferFor(tid, src)
      && 0 <= t.next < ChunkCount(|src.file|)
      && t.hashed == Concat(Chunks(src.file, t.next))
  }

  lemma HonestNext(v: View, max: int, e: Event, tid: Tid, src: Source)
    requires Tracks(v.track, tid, src) && Failed !in v.verdicts && e in Stream(tid, src)
    ensures Tracks(ViewNext(v, max, e).track, tid, src) && Failed !in ViewNext(v, max, e).verdicts
  {
    FromStream(tid, src, e);
    if e.ChunkIn? && v.track.Taking? && e.index == v.track.next {
      var n := e.index;
      assert Chunks(src.file, n + 1)[..n] == Chunks(src.file, n);
      assert Concat(Chunks(src.file, n + 1)) == v.track.hashed + Chunk(src.file, n);
      ChunksMakeFile(src.file);
    }
  }

  lemma {:induction false} HonestViews(s: Disk, max: int, es: seq<Event>, srcs: map<Tid, Source>, tid: Tid)
    requires s.transfers == map[] && s.log == []
    requires Honest(es, srcs)
    ensures var v := ViewOf(Run(s, max, es), tid);
      Failed !in v.verdicts && (v.track == Idle || (tid in srcs && Tracks(v.track, tid, srcs[tid])))
  {
    if es != [] {
      var n := |es| - 1;
      assert Honest(es[..n], srcs);
      HonestViews(s, max, es[..n], srcs, tid);
      HandleViewed(Run(s, max, es[..n]), max, es[n], tid);
      if TidOf(es[n]) == tid {
        HonestNext(ViewOf(Run(s, max, es[..n]), tid), max, es[n], tid, srcs[tid]);
      }
    }
  }

  ghost predicate HasPrefix(tr: Transfer, file: seq<Byte>) {
    0 <= tr.next < ChunkCount(|file|) && tr.hashed == file[..Min(tr.next * CHUNK_SIZE, |file|)]
  }

  /**
   With honest senders, whatever is lost, repeated or reordered: what a transfer has taken in is exactly
   its file's first chunks, more are missing, and the hash check never fails.
   */
  lemma {:induction false} TakesPrefixAndHashHolds(s: Disk, max: int, es: seq<Event>, srcs: map<Tid, Source>, tid: Tid)
    requires s.transfers == map[] && s.log == []
    requires Honest(es, srcs)
    ensures var r := Run(s, max, es);
      && Failed !in Verdicts(r.log, tid)
      && (tid in r.transfers ==> tid in srcs && HasPrefix(r.transfers[tid], srcs[tid].file))
  {
    HonestViews(s, max, es, srcs, tid);
    var r := Run(s, max, es);
    if tid in r.transfers {
      ChunksMakePrefix(srcs[tid].file, r.transfers[tid].next);
    }
  }

  /** What the receiver of one transfer knows after its offer and its first `n` chunks. */
  function InOrderView(tid: Tid, src: Source, n: nat): View {
    if n < ChunkCount(|src.file|) then View(Taking(OfferFor(tid, src), n, Concat(Chunks(src.file, n))), [Begun])
    else View(Idle, [Begun, Verified])
  }

  lemma InOrderNext(max: int, tid: Tid, src: Source, n: nat)
    requires n < ChunkCount(|src.file|)
    ensures ViewNext(InOrderView(tid, src, n), max, ChunkIn(tid, n, Some(Chunk(src.file, n)))) == InOrderView(tid, src, n + 1)
  {
    assert Chunks(src.file, n + 1)[..n] == Chunks(src.file, n);
    assert Concat(Chunks(src.file, n + 1)) == Concat(Chunks(src.file, n)) + Chunk(src.file, n);
    ChunksMakeFile(src.file);
    assert [Begun] + [Verified] == [Begun, Verified];
  }

  lemma {:induction false} InOrderViews(max: int, tid: Tid, src: Source, n: nat)
    requires |src.file| <= max && n <= ChunkCount(|src.file|)
    ensures ViewRun(FRESH, max, Stream(tid, src)[..n + 1]) == InOrderView(tid, src, n)
  {
    var es := Stream(tid, src)[..n + 1];
    if n == 0 {
      assert es == [OfferIn(OfferFor(tid, src))] && es[..0] == [];
      assert FRESH.verdicts + [Begun] == [Begun];
    } else {
      InOrderViews(max, tid, src, n - 1);
      InOrderNext(max, tid, src, n - 1);
      assert es[..n] == Stream(tid, src)[..n] && es[n] == ChunkIn(tid, n - 1, Some(Chunk(src.file, n - 1)));
    }
  }

  /** A transfer whose own frames all arrive once and in order is received and verified, whatever else arrives. */
  lemma {:induction false} InOrderIsVerified(s: Disk, max: int, es: seq<Event>, tid: Tid, src: Source)
    requires s.transfers == map[] && s.log == []
    requires |src.file| <= max && Only(es, tid) == Stream(tid, src)
    ensures Verdicts(Run(s, max, es).log, tid) == [Begun, Verified] && tid !in Run(s, max, es).transfers
  {
    NoInterference(s, max, es, tid);
    InOrderViews(max, tid, src, ChunkCount(|src.file|));
    assert Stream(tid, src)[..ChunkCount(|src.file|) + 1] == Stream(tid, src);
  }

  // --- what is published -------------------------------------------------------------------

  /** The offer's two names belong to no other active transfer and to nothing published. */
  ghost predicate Clear(s: Disk, max: int, e: Event) {
    e.OfferIn? && e.offer.size <= max ==>
      var part, final := PartPath(s, e.offer), FinalPath(s, e.offer);
      && (forall t :: t in s.transfers && t != e.offer.tid ==> Apart(s.transfers[t], part, final))
      && (forall t, p, c :: Ended(t, Published(p, c)) in s.log ==> p != part)
  }

  predicate Apart(tr: Transfer, part: Path, final: Path) {
    tr.part != part && tr.part != final && tr.final != part && tr.final != final
  }

  ghost predicate ClearRun(s: Disk, max: int, es: seq<Event>) {
    forall k :: 0 <= k < |es| ==> Clear(Run(s, max, es[..k]), max, es[k])
  }

  /** No inode has two names. */
  ghost predicate OneName(dir: map<Path, nat>) {
    forall p, q :: p in dir && q in dir && p != q ==> dir[p] != dir[q]
  }

  /** What the transfer has hashed is what its part file holds. */
  ghost predicate Backed(s: Disk, tr: Transfer) {
    && tr.part in s.dir && s.dir[tr.part] == tr.fd && s.disk[tr.fd] == tr.hashed
    && tr.done == |tr.hashed| && tr.part != tr.final
  }

  ghost predicate Separate(s: Disk) {
    forall t, u :: t in s.transfers && u in s.transfers && t != u ==>
      Apart(s.transfers[t], s.transfers[u].part, s.transfers[u].final)
  }

  ghost predicate Kept(s: Disk, p: Path, c: seq<Byte>) {
    && p in s.dir && s.disk[s.dir[p]] == c
    && forall t :: t in s.transfers ==> s.transfers[t].part != p && s.transfers[t].final != p
  }

  ghost predicate Intact(s: Disk) {
    && OneName(s.dir)
    && (forall t :: t in s.transfers ==> s.transfers[t].offer.tid == t && s.transfers[t].fd < |s.disk| && Backed(s, s.transfers[t]))
    && Separate(s)
    && (forall t, p, c :: Ended(t, Published(p, c)) in s.log ==> Kept(s, p, c))
    && (forall t :: Ended(t, Unmoved) !in s.log)
  }

  lemma CreateLeavesOthers(s: Disk, path: Path)
    requires OneName(s.dir)
    ensures var r := Create(s, path);
      && OneName(r.dir) && r.disk[r.dir[path]] == [] && |s.disk| <= |r.disk|
      && forall p :: p in s.dir && p != path ==> p in r.dir && r.dir[p] == s.dir[p] && r.disk[r.dir[p]] == s.disk[s.dir[p]]
  {
  }

  lemma OfferKeepsTransfers(s: Disk, max: int, o: Offer, t: Tid)
    requires Intact(s) && Clear(s, max, OfferIn(o)) && o.size <= max
    requires t in HandleOffer(s, max, o).transfers
    ensures var r := HandleOffer(s, max, o);
      r.transfers[t].offer.tid == t && r.transfers[t].fd < |r.disk| && Backed(r, r.transfers[t])
      && (t != o.tid ==> t in s.transfers && r.transfers[t] == s.transfers[t])
  {
    CreateLeavesOthers(s, PartPath(s, o));
  }

  lemma OfferKeepsPublished(s: Disk, max: int, o: Offer, t: Tid, p: Path, c: seq<Byte>)
    requires Intact(s) && Clear(s, max, OfferIn(o)) && o.size <= max && Ended(t, Published(p, c)) in s.log
    ensures Kept(HandleOffer(s, max, o), p, c)
  {
    CreateLeavesOthers(s, PartPath(s, o));
    assert Kept(s, p, c);
  }

  lemma OfferKeepsSeparate(s: Disk, max: int, o: Offer)
    requires Separate(s) && Clear(s, max, OfferIn(o)) && o.size <= max
    ensures Separate(HandleOffer(s, max, o))
  {
  }

  lemma OfferKeepsIntact(s: Disk, max: int, o: Offer)
    requires Intact(s) && Clear(s, max, OfferIn(o))
    ensures Intact(HandleOffer(s, max, o))
  {
    if o.size <= max {
      var r := HandleOffer(s, max, o);
      CreateLeavesOthers(s, PartPath(s, o));
      forall t | t in r.transfers
        ensures r.transfers[t].offer.tid == t && r.transfers[t].fd < |r.disk| && Backed(r, r.transfers[t])
        ensures t != o.tid ==> t in s.transfers && r.transfers[t] == s.transfers[t]
      {
        OfferKeepsTransfers(s, max, o, t);
      }
      forall t, p, c | Ended(t, Published(p, c)) in r.log ensures Kept(r, p, c) {
        OfferKeepsPublished(s, max, o, t, p, c);
      }
      OfferKeepsSeparate(s, max, o);
    }
  }

  lemma AbortKeepsIntact(s: Disk, tid: Tid)
    requires Intact(s) && tid in s.transfers
    ensures Intact(Abort(s, tid))
  {
    var r := Abort(s, tid);
    forall t | t in r.transfers ensures Backed(r, r.transfers[t]) {
      assert Backed(s, s.transfers[t]) && Apart(s.transfers[t], s.transfers[tid].part, s.transfers[tid].final);
    }
    forall t, p, c | Ended(t, Published(p, c)) in r.log ensures Kept(r, p, c) {
      assert Kept(s, p, c);
    }
  }

  lemma TakeKeepsBacked(s: Disk, tid: Tid, bytes: seq<Byte>, t: Tid)
    requires Intact(s) && tid in s.transfers && t in s.transfers
    ensures var r := Take(s, tid, bytes); Backed(r, r.transfers[t])
  {
    assert Backed(s, s.transfers[tid]) && Backed(s, s.transfers[t]);
  }

  lemma TakeKeepsPublished(s: Disk, tid: Tid, bytes: seq<Byte>, p: Path, c: seq<Byte>)
    requires Intact(s) && tid in s.transfers && Kept(s, p, c)
    ensures Kept(Take(s, tid, bytes), p, c)
  {
    assert Backed(s, s.transfers[tid]);
  }

  lemma TakeKeepsIntact(s: Disk, tid: Tid, bytes: seq<Byte>)
    requires Intact(s) && tid in s.transfers
    ensures Intact(Take(s, tid, bytes))
  {
    var r := Take(s, tid, bytes);
    forall t | t in r.transfers ensures Backed(r, r.transfers[t]) {
      TakeKeepsBacked(s, tid, bytes, t);
    }
    forall t, p, c | Ended(t, Published(p, c)) in r.log ensures Kept(r, p, c) {
      TakeKeepsPublished(s, tid, bytes, p, c);
    }
  }

  lemma FinalizeKeepsPublished(s: Disk, tid: Tid, t: Tid, p: Path, c: seq<Byte>)
    requires Intact(s) && tid in s.transfers && Ended(t, Published(p, c)) in Finalize(s, tid).log
    ensures Kept(Finalize(s, tid), p, c)
  {
    if Ended(t, Published(p, c)) in s.log { assert Kept(s, p, c); }
  }

  lemma FinalizeKeepsIntact(s: Disk, tid: Tid)
    requires Intact(s) && tid in s.transfers
    ensures Intact(Finalize(s, tid))
  {
    var r := Finalize(s, tid);
    forall t, p, c | Ended(t, Published(p, c)) in r.log ensures Kept(r, p, c) {
      FinalizeKeepsPublished(s, tid, t, p, c);
    }
    assert Separate(r);
  }

  lemma HandleKeepsIntact(s: Disk, max: int, e: Event)
    requires Intact(s) && Clear(s, max, e)
    ensures Intact(Handle(s, max, e))
  {
    match e
    case OfferIn(o) => OfferKeepsIntact(s, max, o);
    case ChunkIn(t, index, bytes) =>
      if t in s.transfers {
        if index != s.transfers[t].next || bytes == None {
          AbortKeepsIntact(s, t);
        } else {
          TakeKeepsIntact(s, t, bytes.value);
          FinalizeKeepsIntact(Take(s, t, bytes.value), t);
        }
      }
  }

  lemma {:induction false} RunKeepsIntact(s: Disk, max: int, es: seq<Event>)
    requires s.transfers == map[] && s.log == [] && OneName(s.dir) && ClearRun(s, max, es)
    ensures Intact(Run(s, max, es))
  {
    if es != [] {
      var n := |es| - 1;
      ClearPrefix(s, max, es, n);
      RunKeepsIntact(s, max, es[..n]);
      HandleKeepsIntact(Run(s, max, es[..n]), max, es[n]);
    }
  }

  /** The note `n` says nothing but the truth about what was sent. */
  predicate Whole(n: Note, srcs: map<Tid, Source>) {
    n.Ended? && n.how.Published? ==> n.tid in srcs && n.how.content == srcs[n.tid].file
  }

  lemma LastChunkMakesFile(s: Disk, max: int, tid: Tid, src: Source)
    requires tid in s.transfers && s.transfers[tid].offer == OfferFor(tid, src)
    requires Tracks(TrackOf(s, tid), tid, src)
    requires s.transfers[tid].next + 1 == ChunkCount(|src.file|)
    ensures s.transfers[tid].hashed + Chunk(src.file, s.transfers[tid].next) == src.file
  {
    var n := s.transfers[tid].next;
    assert Chunks(src.file, n + 1)[..n] == Chunks(src.file, n);
    ChunksMakeFile(src.file);
  }

  lemma ChunkNotesWhole(s: Disk, max: int, tid: Tid, n: nat, srcs: map<Tid, Source>)
    requires Intact(s) && tid in srcs && tid in s.transfers && s.transfers[tid].next == n
    requires Tracks(TrackOf(s, tid), tid, srcs[tid])
    requires forall m :: m in s.log ==> Whole(m, srcs)
    ensures forall m :: m in HandleChunk(s, tid, n, Some(Chunk(srcs[tid].file, n))).log ==> Whole(m, srcs)
  {
    var bytes := Chunk(srcs[tid].file, n);
    TakeKeepsIntact(s, tid, bytes);
    assert Backed(Take(s, tid, bytes), Take(s, tid, bytes).transfers[tid]);
    if n + 1 == ChunkCount(|srcs[tid].file|) {
      LastChunkMakesFile(s, max, tid, srcs[tid]);
    }
  }

  lemma HandleNotesWhole(s: Disk, max: int, e: Event, srcs: map<Tid, Source>)
    requires Intact(s) && TidOf(e) in srcs && e in Stream(TidOf(e), srcs[TidOf(e)])
    requires Tracks(TrackOf(s, TidOf(e)), TidOf(e), srcs[TidOf(e)])
    requires forall n :: n in s.log ==> Whole(n, srcs)
    ensures forall n :: n in Handle(s, max, e).log ==> Whole(n, srcs)
  {
    FromStream(TidOf(e), srcs[TidOf(e)], e);
    if e.ChunkIn? && e.tid in s.transfers && e.index == s.transfers[e.tid].next {
      ChunkNotesWhole(s, max, e.tid, e.index, srcs);
    }
  }

  lemma {:induction false} NotesWhole(s: Disk, max: int, es: seq<Event>, srcs: map<Tid, Source>)
    requires s.transfers == map[] && s.log == [] && OneName(s.dir) && ClearRun(s, max, es) && Honest(es, srcs)
    ensures forall n :: n in Run(s, max, es).log ==> Whole(n, srcs)
    ensures Intact(Run(s, max, es))
  {
    RunKeepsIntact(s, max, es);
    if es != [] {
      var n := |es| - 1;
      ClearPrefix(s, max, es, n);
      NotesWhole(s, max, es[..n], srcs);
      HonestViews(s, max, es[..n], srcs, TidOf(es[n]));
      HandleNotesWhole(Run(s, max, es[..n]), max, es[n], srcs);
    }
  }

  /**
   With honest senders, and every accepted offer's two names apart from those of the other active
   transfers and its part file's name apart from every published file: a file is published only with its
   full contents, and keeps them; no verified file is lost; and a part file holds exactly the prefix taken in.
   */
  lemma PublishedIsWhole(s: Disk, max: int, es: seq<Event>, srcs: map<Tid, Source>)
    requires s.transfers == map[] && s.log == [] && OneName(s.dir) && ClearRun(s, max, es) && Honest(es, srcs)
    ensures var r := Run(s, max, es);
      && (forall t, p, c :: Ended(t, Published(p, c)) in r.log ==>
            t in srcs && c == srcs[t].file && p in r.dir && r.disk[r.dir[p]] == c)
      && (forall t :: Ended(t, Unmoved) !in r.log && Ended(t, Mismatched) !in r.log)
      && (forall t :: t in r.transfers ==>
            var tr := r.transfers[t];
            t in srcs && HasPrefix(tr, srcs[t].file) && tr.part in r.dir && r.disk[r.dir[tr.part]] == tr.hashed)
  {
    NotesWhole(s, max, es, srcs);
    var r := Run(s, max, es);
    forall t, p, c | Ended(t, Published(p, c)) in r.log
      ensures t in srcs && c == srcs[t].file && p in r.dir && r.disk[r.dir[p]] == c
    {
      assert Whole(Ended(t, Published(p, c)), srcs) && Kept(r, p, c);
    }
    forall t ensures Ended(t, Mismatched) !in r.log {
      TakesPrefixAndHashHolds(s, max, es, srcs, t);
      if Ended(t, Mismatched) in r.log { VerdictOfNote(r.log, Ended(t, Mismatched)); }
    }
    forall t | t in r.transfers ensures t in srcs && HasPrefix(r.transfers[t], srcs[t].file) {
      TakesPrefixAndHashHolds(s, max, es, srcs, t);
    }
    assert forall t :: t in r.transfers ==> Backed(r, r.transfers[t]);
  }

  lemma {:induction false} VerdictOfNote(log: seq<Note>, n: Note)
    requires n in log
    ensures VerdictOf(n) in Verdicts(log, n.tid)
  {
    if n != log[|log| - 1] { VerdictOfNote(log[..|log| - 1], n); }
  }

  // --- any senders ---------------------------------------------------------------------------

  ghost predicate WasOffered(es: seq<Event>, tid: Tid, o: Offer) {
    o.tid == tid && OfferIn(o) in es
  }

  /** A published file has the digest some offer of its transfer announced. */
  ghost predicate Vouched(es: seq<Event>, n: Note) {
    n.Ended? && n.how.Published? ==> exists o :: WasOffered(es, n.tid, o) && o.sum == Sha256(n.how.content)
  }

  ghost predicate AllVouched(es: seq<Event>, s: State) {
    && (forall t :: t in s.transfers ==> WasOffered(es, t, s.transfers[t].offer))
    && (forall n :: n in s.log ==> Vouched(es, n))
  }

  lemma VouchedStays(es: seq<Event>, e: Event, s: State)
    requires AllVouched(es, s)
    ensures AllVouched(es + [e], s)
  {
    forall n | n in s.log ensures Vouched(es + [e], n) {
      if n.Ended? && n.how.Published? {
        var o :| WasOffered(es, n.tid, o) && o.sum == Sha256(n.how.content);
        assert WasOffered(es + [e], n.tid, o);
      }
    }
  }

  lemma OfferVouched(s: Disk, max: int, o: Offer, es: seq<Event>)
    requires AllVouched(es, s) && OfferIn(o) in es
    ensures AllVouched(es, HandleOffer(s, max, o))
  {
  }

  lemma FinalizeVouched(s: Disk, tid: Tid, es: seq<Event>)
    requires Intact(s) && AllVouched(es, s) && tid in s.transfers
    ensures AllVouched(es, Finalize(s, tid))
  {
    var tr, r := s.transfers[tid], Finalize(s, tid);
    assert Backed(s, tr);
    forall n | n in r.log ensures Vouched(es, n) {
      if n !in s.log && n.how.Published? {
        assert WasOffered(es, tid, tr.offer) && tr.offer.sum == Sha256(n.how.content);
      }
    }
  }

  lemma TakeVouched(s: Disk, tid: Tid, bytes: seq<Byte>, es: seq<Event>)
    requires AllVouched(es, s) && tid in s.transfers
    ensures AllVouched(es, Take(s, tid, bytes))
  {
  }

  lemma ChunkVouched(s: Disk, tid: Tid, index: int, bytes: Option<seq<Byte>>, es: seq<Event>)
    requires Intact(s) && AllVouched(es, s)
    ensures AllVouched(es, HandleChunk(s, tid, index, bytes))
  {
    if tid in s.transfers && index == s.transfers[tid].next && bytes.Some? {
      TakeKeepsIntact(s, tid, bytes.value);
      TakeVouched(s, tid, bytes.value, es);
      FinalizeVouched(Take(s, tid, bytes.value), tid, es);
    }
  }

  lemma ClearPrefix(s: Disk, max: int, es: seq<Event>, n: nat)
    requires n <= |es| && ClearRun(s, max, es)
    ensures ClearRun(s, max, es[..n])
  {
    forall k | 0 <= k < n ensures Clear(Run(s, max, es[..n][..k]), max, es[..n][k]) {
      assert es[..n][..k] == es[..k];
    }
  }

  /** Whoever sends what: under the same condition on paths, every published file has the digest it was offered with. */
  lemma {:induction false} PublishedHasOfferedDigest(s: Disk, max: int, es: seq<Event>)
    requires s.transfers == map[] && s.log == [] && OneName(s.dir) && ClearRun(s, max, es)
    ensures AllVouched(es, Run(s, max, es))
  {
    if es != [] {
      var n := |es| - 1;
      ClearPrefix(s, max, es, n);
      PublishedHasOfferedDigest(s, max, es[..n]);
      RunKeepsIntact(s, max, es[..n]);
      assert es == es[..n] + [es[n]];
      var before := Run(s, max, es[..n]);
      VouchedStays(es[..n], es[n], before);
      match es[n]
      case OfferIn(o) => OfferVouched(before, max, o, es);
      case ChunkIn(t, index, bytes) => ChunkVouched(before, t, index, bytes, es);
    }
  }

  lemma {:induction false} VerifiedNote(log: seq<Note>, tid: Tid) returns (n: Note)
    requires Verified in Verdicts(log, tid)
    ensures n in log && n.tid == tid && VerdictOf(n) == Verified
  {
    n := log[|log| - 1];
    if !(n.tid == tid && VerdictOf(n) == Verified) { n := VerifiedNote(log[..|log| - 1], tid); }
  }

  lemma {:induction false} OwnFrames(es: seq<Event>, tid: Tid, e: Event)
    requires e in es && TidOf(e) == tid
    ensures e in Only(es, tid)
  {
    if es[|es| - 1] != e { OwnFrames(es[..|es| - 1], tid, e); }
  }

  /**
   A transfer whose own frames all arrive once and in order, among any others from anyone, is published
   with its full contents, under the condition on paths.
   */
  lemma {:induction false} InOrderIsPublished(s: Disk, max: int, es: seq<Event>, tid: Tid, src: Source)
    requires s.transfers == map[] && s.log == [] && OneName(s.dir) && ClearRun(s, max, es)
    requires |src.file| <= max && Only(es, tid) == Stream(tid, src)
    ensures exists p :: Ended(tid, Published(p, src.file)) in Run(s, max, es).log && Kept(Run(s, max, es), p, src.file)
  {
    InOrderIsVerified(s, max, es, tid, src);
    PublishedHasOfferedDigest(s, max, es);
    RunKeepsIntact(s, max, es);
    var r := Run(s, max, es);
    var n := VerifiedNote(r.log, tid);
    assert n.how.Published? && Vouched(es, n);
    var o :| WasOffered(es, tid, o) && o.sum == Sha256(n.how.content);
    OwnFrames(es, tid, OfferIn(o));
    FromStream(tid, src, OfferIn(o));
    assert Kept(r, n.how.path, src.file);
  }
}
