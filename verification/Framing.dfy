/** Length-prefixed frames: a 4-byte big-endian length, then the body. */
module Framing {

  type Byte = x: int | 0 <= x < 256
  type Bytes = seq<Byte>

  const MAX_FRAME_BYTES := 64 * 1024

  /** Most significant byte first. */
  function Header(n: nat): (h: Bytes)
    requires n < 0x1_0000_0000
    ensures |h| == 4
  {
    [n / 0x100_0000, n / 0x1_0000 % 256, n / 0x100 % 256, n % 256]
  }

  function Length(h: Bytes): nat
    requires |h| == 4
  {
    (h[0] as int) * 0x100_0000 + (h[1] as int) * 0x1_0000 + (h[2] as int) * 0x100 + h[3] as int
  }

  lemma HeaderRoundTrip(n: nat)
    requires n < 0x1_0000_0000
    ensures Length(Header(n)) == n
    ensures var h := Header(n);
      n == (h[0] as int) * 0x100_0000 + (h[1] as int) * 0x1_0000 + (h[2] as int) * 0x100 + h[3] as int
  {
    var a := n / 0x100;
    var b := n / 0x1_0000;
    assert n == a * 0x100 + n % 0x100;
    assert a == b * 0x100 + a % 0x100;
    assert b == n / 0x100_0000 * 0x100 + b % 0x100;
  }

  ghost predicate Fits(bodies: seq<Bytes>) {
    forall i :: 0 <= i < |bodies| ==> |bodies[i]| <= MAX_FRAME_BYTES
  }

  function Encode(body: Bytes): Bytes
    requires |body| <= MAX_FRAME_BYTES
  {
    Header(|body|) + body
  }

  /** The bytes of a sequence of frames. */
  function EncodeAll(bodies: seq<Bytes>): Bytes
    requires Fits(bodies)
  {
    if bodies == [] then [] else Encode(bodies[0]) + EncodeAll(bodies[1..])
  }

  datatype ReadResult = Body(body: Bytes) | HeaderCut | TooLarge(claimed: nat) | BodyCut

  /** What one ReadFrame makes of the bytes ahead of it. */
  function Decode(s: Bytes): ReadResult {
    if |s| < 4 then HeaderCut
    else if Length(s[..4]) > MAX_FRAME_BYTES then TooLarge(Length(s[..4]))
    else if |s| - 4 < Length(s[..4]) then BodyCut
    else Body(s[4..4 + Length(s[..4])])
  }

  /** How many bytes that ReadFrame takes: an oversize body is never touched. */
  function Taken(s: Bytes): nat {
    match Decode(s)
    case HeaderCut => |s|
    case TooLarge(_) => 4
    case BodyCut => |s|
    case Body(b) => 4 + |b|
  }

  /** Reads frames until one fails: the bodies, and how it ended. */
  function DecodeAll(s: Bytes): (seq<Bytes>, ReadResult)
    decreases |s|
  {
    match Decode(s)
    case Body(b) =>
      var rest := DecodeAll(s[4 + |b|..]);
      ([b] + rest.0, rest.1)
    case end => ([], end)
  }

  lemma DecodeFirst(body: Bytes, rest: Bytes)
    requires |body| <= MAX_FRAME_BYTES
    ensures Decode(Encode(body) + rest) == Body(body)
    ensures (Encode(body) + rest)[4 + |body|..] == rest
  {
    var s := Encode(body) + rest;
    assert s[..4] == Header(|body|);
    HeaderRoundTrip(|body|);
    assert s[4..4 + |body|] == body;
  }

  lemma DecodeStep(body: Bytes, rest: Bytes)
    requires |body| <= MAX_FRAME_BYTES
    ensures var r := DecodeAll(rest); DecodeAll(Encode(body) + rest) == ([body] + r.0, r.1)
  {
    DecodeFirst(body, rest);
  }

  lemma EncodeCons(body: Bytes, rest: seq<Bytes>)
    requires |body| <= MAX_FRAME_BYTES && Fits(rest)
    ensures Fits([body] + rest) && EncodeAll([body] + rest) == Encode(body) + EncodeAll(rest)
  {
    assert ([body] + rest)[1..] == rest;
  }

  /** A frame that did not arrive whole yields nothing but the report of the cut. */
  lemma CutFirst(body: Bytes, rest: Bytes, k: nat)
    requires |body| <= MAX_FRAME_BYTES && k < 4 + |body|
    ensures var s := (Encode(body) + rest)[..k];
      DecodeAll(s).0 == [] && DecodeAll(s).1 == if k < 4 then HeaderCut else BodyCut
  {
    var s := (Encode(body) + rest)[..k];
    if 4 <= k {
      assert s[..4] == Header(|body|);
      HeaderRoundTrip(|body|);
    }
  }

  /** The first `k` bytes of the stream hold `whole` frames entirely, and not the next one. */
  ghost predicate Holds(bodies: seq<Bytes>, k: nat, whole: nat)
    requires Fits(bodies)
  {
    && whole <= |bodies| && |EncodeAll(bodies[..whole])| <= k
    && (whole < |bodies| ==> k < |EncodeAll(bodies[..whole])| + 4 + |bodies[whole]|)
  }

  /** The first `k` bytes read as `whole` frames and a cut. */
  ghost predicate ReadsAs(bodies: seq<Bytes>, k: nat, whole: nat)
    requires Fits(bodies)
  {
    && k <= |EncodeAll(bodies)| && Holds(bodies, k, whole)
    && DecodeAll(EncodeAll(bodies)[..k]).0 == bodies[..whole]
    && DecodeAll(EncodeAll(bodies)[..k]).1 in {HeaderCut, BodyCut}
  }

  /** A whole first frame is read whole, and what follows as it would be alone. */
  lemma WholeFirst(bodies: seq<Bytes>, k: nat, rest: nat, n: nat)
    requires bodies != [] && Fits(bodies) && k == 4 + |bodies[0]| + rest && ReadsAs(bodies[1..], rest, n)
    ensures ReadsAs(bodies, k, n + 1)
  {
    var tail := EncodeAll(bodies[1..]);
    assert bodies[..n + 1] == [bodies[0]] + bodies[1..][..n];
    EncodeCons(bodies[0], bodies[1..][..n]);
    assert EncodeAll(bodies)[..k] == Encode(bodies[0]) + tail[..rest];
    DecodeStep(bodies[0], tail[..rest]);
  }

  lemma FirstIsCut(bodies: seq<Bytes>, k: nat)
    requires bodies != [] && Fits(bodies) && k < 4 + |bodies[0]|
    ensures ReadsAs(bodies, k, 0)
  {
    CutFirst(bodies[0], EncodeAll(bodies[1..]), k);
    assert bodies[..0] == [];
  }

  /**
   Whatever prefix of a frame stream arrives, reading yields exactly the frames that arrived whole, in
   order, and then reports the cut; it never invents a frame and never finds one oversize.
   */
  lemma {:induction false} PrefixDecodes(bodies: seq<Bytes>, k: nat) returns (whole: nat)
    requires Fits(bodies) && k <= |EncodeAll(bodies)|
    ensures ReadsAs(bodies, k, whole)
  {
    if bodies == [] {
      whole := 0;
    } else if k < 4 + |bodies[0]| {
      whole := 0;
      FirstIsCut(bodies, k);
    } else {
      var rest := k - 4 - |bodies[0]|;
      var n := PrefixDecodes(bodies[1..], rest);
      whole := n + 1;
      WholeFirst(bodies, k, rest, n);
    }
  }

  /** Any frames, written and read back, are the same frames. */
  lemma {:induction false} RoundTrip(bodies: seq<Bytes>)
    requires Fits(bodies)
    ensures DecodeAll(EncodeAll(bodies)).0 == bodies && DecodeAll(EncodeAll(bodies)).1 == HeaderCut
  {
    if bodies != [] {
      DecodeStep(bodies[0], EncodeAll(bodies[1..]));
      RoundTrip(bodies[1..]);
    }
  }

  lemma {:induction false} EncodeAppend(a: seq<Bytes>, b: seq<Bytes>)
    requires Fits(a) && Fits(b)
    ensures Fits(a + b) && EncodeAll(a + b) == EncodeAll(a) + EncodeAll(b)
  {
    if a == [] {
      assert a + b == b;
    } else {
      EncodeAppend(a[1..], b);
      assert (a + b)[0] == a[0] && (a + b)[1..] == a[1..] + b;
      assert Encode(a[0]) + (EncodeAll(a[1..]) + EncodeAll(b)) == Encode(a[0]) + EncodeAll(a[1..]) + EncodeAll(b);
    }
  }

  // --- concurrent writers on one control stream --------------------------------

  /** How far the writer that holds the lock has got with its frame. */
  datatype Stage = Locked | HeaderOut | BodyOut | GivenUp

  datatype Holder = Free | Held(body: Bytes, stage: Stage)

  /** `done` and `torn` are history: the frames written whole, and the one cut off by a failed write. */
  datatype Link = Link(wire: Bytes, holder: Holder, done: seq<Bytes>, torn: seq<Bytes>)

  /** A write that fails may have sent part of its piece; `closes` tells whether the stream is closed with that. */
  datatype WriterStep = Lock(body: Bytes) | WriteHeader | WriteBody | Unlock | Break(part: nat, closes: bool)

  /** The piece the holder's next write would send. */
  function Pending(h: Holder): Bytes
    requires h.Held? && |h.body| <= MAX_FRAME_BYTES
  {
    match h.stage
    case Locked => Header(|h.body|)
    case HeaderOut => h.body
    case BodyOut => []
    case GivenUp => []
  }

  predicate CanWrite(l: Link, s: WriterStep) {
    match s
    case Lock(body) => l.holder.Free? && |body| <= MAX_FRAME_BYTES
    case WriteHeader => l.torn == [] && l.holder.Held? && l.holder.stage == Locked && |l.holder.body| <= MAX_FRAME_BYTES
    case WriteBody => l.torn == [] && l.holder.Held? && l.holder.stage == HeaderOut
    case Unlock => l.holder.Held? && (l.torn != [] || l.holder.stage == BodyOut || l.holder.stage == GivenUp)
    case Break(part, _) =>
      && l.torn == [] && l.holder.Held? && (l.holder.stage == Locked || l.holder.stage == HeaderOut)
      && |l.holder.body| <= MAX_FRAME_BYTES && part <= |Pending(l.holder)|
  }

  /** On a closed stream nothing more is written; on one left open the next writer goes on. */
  function AfterWrite(l: Link, s: WriterStep): Link
    requires CanWrite(l, s)
  {
    match s
    case Lock(body) => l.(holder := Held(body, Locked))
    case WriteHeader => l.(wire := l.wire + Header(|l.holder.body|), holder := l.holder.(stage := HeaderOut))
    case WriteBody => l.(wire := l.wire + l.holder.body, holder := l.holder.(stage := BodyOut))
    case Unlock => l.(holder := Free, done := if l.holder.stage == BodyOut then l.done + [l.holder.body] else l.done)
    case Break(part, closes) =>
      l.(wire := l.wire + Pending(l.holder)[..part], torn := if closes then [l.holder.body] else [],
         holder := if closes then l.holder else l.holder.(stage := GivenUp))
  }

  const FRESH := Link([], Free, [], [])

  ghost predicate WriterRun(ls: seq<Link>, ss: seq<WriterStep>) {
    && |ls| == |ss| + 1 && ls[0] == FRESH
    && forall k :: 0 <= k < |ss| ==> CanWrite(ls[k], ss[k]) && ls[k + 1] == AfterWrite(ls[k], ss[k])
  }

  /** The frame that is only partly out, if any. */
  ghost function Partial(l: Link): seq<Bytes> {
    if l.torn != [] then l.torn else if l.holder.Held? then [l.holder.body] else []
  }

  /** The bytes of the holder's frame that are out. */
  function Out(h: Holder): Bytes
    requires h.Held? ==> |h.body| <= MAX_FRAME_BYTES
  {
    if h.Free? || h.stage == Locked || h.stage == GivenUp then []
    else if h.stage == HeaderOut then Header(|h.body|)
    else Encode(h.body)
  }

  ghost predicate Exclusive(l: Link) {
    && Fits(l.done) && |l.torn| <= 1 && Fits(l.torn)
    && (l.holder.Held? ==> |l.holder.body| <= MAX_FRAME_BYTES)
    && (l.torn == [] ==> l.wire == EncodeAll(l.done) + Out(l.holder))
    && (l.torn != [] ==> |EncodeAll(l.done)| <= |l.wire| && l.wire <= EncodeAll(l.done) + Encode(l.torn[0]))
    && (l.torn != [] && l.holder.Held? ==> l.holder.stage != BodyOut)
    && (l.holder.Held? ==> l.holder.stage != GivenUp)
  }

  /** Every failed write closes the stream. */
  ghost predicate FailuresClose(ss: seq<WriterStep>) {
    forall k :: 0 <= k < |ss| ==> ss[k].Break? ==> ss[k].closes
  }

  lemma WriteKeeps(l: Link, s: WriterStep)
    requires Exclusive(l) && CanWrite(l, s) && (s.Break? ==> s.closes)
    ensures Exclusive(AfterWrite(l, s))
  {
    var l' := AfterWrite(l, s);
    match s
    case Lock(_) =>
    case WriteHeader => assert l'.wire == EncodeAll(l'.done) + Header(|l.holder.body|);
    case WriteBody => assert l'.wire == EncodeAll(l'.done) + (Header(|l.holder.body|) + l.holder.body);
    case Unlock =>
      if l.holder.stage == BodyOut {
        EncodeAppend(l.done, [l.holder.body]);
        assert EncodeAll([l.holder.body]) == Encode(l.holder.body) + EncodeAll([]);
        assert l'.wire == EncodeAll(l'.done) + [];
      }
    case Break(part, _) =>
      var piece := Pending(l.holder);
      assert Out(l.holder) + piece <= Encode(l.holder.body);
      assert l'.wire == EncodeAll(l.done) + (Out(l.holder) + piece[..part]);
  }

  lemma {:induction false} WriterRunKeeps(ls: seq<Link>, ss: seq<WriterStep>, k: nat)
    requires WriterRun(ls, ss) && FailuresClose(ss) && k < |ls|
    ensures Exclusive(ls[k])
  {
    if k > 0 {
      WriterRunKeeps(ls, ss, k - 1);
      WriteKeeps(ls[k - 1], ss[k - 1]);
    }
  }

  /**
   Writers that take the lock around each frame never mix bytes, as long as a failed write closes the
   stream: at any moment of any run, also after such a failure, the reader decodes every finished frame in
   lock order and at most the one being written.
   */
  lemma WritersDoNotMix(ls: seq<Link>, ss: seq<WriterStep>, k: nat)
    requires WriterRun(ls, ss) && FailuresClose(ss) && k < |ls|
    ensures var got := DecodeAll(ls[k].wire).0;
      got == ls[k].done || got == ls[k].done + Partial(ls[k])
    ensures DecodeAll(ls[k].wire).1 in {HeaderCut, BodyCut}
  {
    WriterRunKeeps(ls, ss, k);
    var l := ls[k];
    var all := l.done + Partial(l);
    EncodeAppend(l.done, Partial(l));
    assert l.wire == EncodeAll(all)[..|l.wire|] by {
      if Partial(l) != [] { assert EncodeAll(Partial(l)) == Encode(Partial(l)[0]) + EncodeAll([]); }
    }
    var whole := PrefixDecodes(all, |l.wire|);
    if whole < |l.done| {
      EncodeMonotone(all, whole + 1, |l.done|);
      assert all[..|l.done|] == l.done;
      EncodeStep(all, whole);
    }
    assert all[..|l.done|] == l.done && all[..|all|] == all;
  }

  const TORN: Bytes := [5, 5, 5]
  const NEXT: Bytes := [7]

  /** A run in which the first writer's body fails to go out, and the stream stays open for the second. */
  function LeftOpen(): (r: (seq<Link>, seq<WriterStep>)) {
    var h := Header(3);
    var w := h + Header(1);
    ([FRESH, Link([], Held(TORN, Locked), [], []), Link(h, Held(TORN, HeaderOut), [], []),
      Link(h, Held(TORN, GivenUp), [], []), Link(h, Free, [], []), Link(h, Held(NEXT, Locked), [], []),
      Link(w, Held(NEXT, HeaderOut), [], []), Link(w + NEXT, Held(NEXT, BodyOut), [], []),
      Link(w + NEXT, Free, [NEXT], [])],
     [Lock(TORN), WriteHeader, Break(0, false), Unlock, Lock(NEXT), WriteHeader, WriteBody, Unlock])
  }

  lemma FirstGivesUp()
    ensures var (ls, ss) := LeftOpen();
      forall k :: 0 <= k < 4 ==> CanWrite(ls[k], ss[k]) && ls[k + 1] == AfterWrite(ls[k], ss[k])
  {
    var (ls, ss) := LeftOpen();
    var h := Header(3);
    assert [] + h == h && h + TORN[..0] == h;
    assert AfterWrite(ls[0], ss[0]) == ls[1] && AfterWrite(ls[1], ss[1]) == ls[2];
    assert AfterWrite(ls[2], ss[2]) == ls[3] && AfterWrite(ls[3], ss[3]) == ls[4];
  }

  lemma SecondWrites()
    ensures var (ls, ss) := LeftOpen();
      forall k :: 4 <= k < 8 ==> CanWrite(ls[k], ss[k]) && ls[k + 1] == AfterWrite(ls[k], ss[k])
  {
    var (ls, ss) := LeftOpen();
    assert [] + [NEXT] == [NEXT];
    assert AfterWrite(ls[4], ss[4]) == ls[5] && AfterWrite(ls[5], ss[5]) == ls[6];
    assert AfterWrite(ls[6], ss[6]) == ls[7] && AfterWrite(ls[7], ss[7]) == ls[8];
  }

  /** On a stream left open, the torn frame's header swallows the next frame: what is read, nobody wrote. */
  lemma TornHeaderSwallowsNext()
    ensures WriterRun(LeftOpen().0, LeftOpen().1) && LeftOpen().0[8].done == [NEXT]
    ensures DecodeAll(LeftOpen().0[8].wire) == ([[0, 0, 0]], HeaderCut)
  {
    FirstGivesUp();
    SecondWrites();
    var wire := LeftOpen().0[8].wire;
    var rest: Bytes := [1] + NEXT;
    var body: Bytes := [0, 0, 0];
    assert Header(1) == [0, 0, 0, 1] && Header(3) == [0, 0, 0, 3];
    assert wire == Encode(body) + rest;
    DecodeStep(body, rest);
    assert DecodeAll(rest) == ([], HeaderCut);
    assert [body] + [] == [body];
  }

  lemma EncodeStep(bodies: seq<Bytes>, k: nat)
    requires Fits(bodies) && k < |bodies|
    ensures |EncodeAll(bodies[..k + 1])| == |EncodeAll(bodies[..k])| + 4 + |bodies[k]|
  {
    EncodeAppend(bodies[..k], [bodies[k]]);
    assert bodies[..k + 1] == bodies[..k] + [bodies[k]];
    assert EncodeAll([bodies[k]]) == Encode(bodies[k]) + EncodeAll([]);
  }

  lemma EncodeMonotone(bodies: seq<Bytes>, j: nat, k: nat)
    requires Fits(bodies) && j <= k <= |bodies|
    ensures |EncodeAll(bodies[..j])| <= |EncodeAll(bodies[..k])|
  {
    EncodeAppend(bodies[..j], bodies[j..k]);
    assert bodies[..k] == bodies[..j] + bodies[j..k];
  }

  // --- the code ----------------------------------------------------------------

  datatype WriteResult = Wrote | FrameTooLarge

  /** The sink WriteFrame writes to. */
  class Sink {
    var data: Bytes

    constructor () ensures data == [] { data := []; }

    method Write(b: Bytes)
      modifies this
      ensures data == old(data) + b
    {
      data := data + b;
    }
  }

  method WriteFrame(w: Sink, body: Bytes) returns (r: WriteResult)
    modifies w
    ensures r == FrameTooLarge <==> |body| > MAX_FRAME_BYTES
    ensures w.data == if |body| > MAX_FRAME_BYTES then old(w.data) else old(w.data) + Encode(body)
  {
    if |body| > MAX_FRAME_BYTES {
      return FrameTooLarge;
    }
    w.Write(Header(|body|));
    w.Write(body);
    assert old(w.data) + (Header(|body|) + body) == old(w.data) + Header(|body|) + body;
    r := Wrote;
  }

  /** A byte stream that hands out its data in pieces of any size. */
  class Source {
    const data: Bytes
    var pos: nat

    ghost predicate Valid() reads this { pos <= |data| }

    constructor (data: Bytes) ensures Valid() && this.data == data && pos == 0 {
      this.data, pos := data, 0;
    }

    /** At least one byte and at most `max`, or none at the end of the stream. */
    method Read(max: nat) returns (b: Bytes)
      requires Valid() && max > 0
      modifies this`pos
      ensures Valid() && old(pos) <= pos && b == data[old(pos)..pos]
      ensures |b| <= max && (b == [] <==> old(pos) == |data|)
    {
      if pos == |data| {
        return [];
      }
      var n :| 1 <= n <= max && n <= |data| - pos;
      b := data[pos..pos + n];
      pos := pos + n;
    }

    /** Reads until `n` bytes are in or the stream ends. */
    method ReadFull(n: nat) returns (b: Bytes, ok: bool)
      requires Valid()
      modifies this`pos
      ensures Valid() && old(pos) <= pos && b == data[old(pos)..pos]
      ensures ok == (n <= |data| - old(pos))
      ensures pos == if ok then old(pos) + n else |data|
    {
      b := [];
      while |b| < n
        invariant Valid() && old(pos) <= pos && b == data[old(pos)..pos] && |b| <= n
        decreases n - |b|
      {
        var piece := Read(n - |b|);
        if piece == [] {
          return b, false;
        }
        b := b + piece;
      }
      ok := true;
    }
  }

  /** With the header in: over 64 KiB is refused with nothing more taken, else the body is taken whole or is cut. */
  ghost predicate ReadsFrame(s: Bytes, r: ReadResult, taken: int)
    requires |s| >= 4
  {
    var n := (s[0] as int) * 0x100_0000 + (s[1] as int) * 0x1_0000 + (s[2] as int) * 0x100 + s[3] as int;
    if n > 65536 then r == TooLarge(n) && taken == 4
    else if |s| < 4 + n then r == BodyCut && taken == |s|
    else r == Body(s[4..4 + n]) && taken == 4 + n
  }

  /** One frame off the stream, however the stream is fragmented. */
  method ReadFrame(src: Source) returns (r: ReadResult)
    requires src.Valid()
    modifies src`pos
    ensures src.Valid()
    ensures r == Decode(src.data[old(src.pos)..])
    ensures src.pos == old(src.pos) + Taken(src.data[old(src.pos)..])
    ensures r == HeaderCut <==> |src.data| < old(src.pos) + 4
    ensures r != HeaderCut ==> ReadsFrame(src.data[old(src.pos)..], r, src.pos - old(src.pos))
  {
    ghost var s := src.data[src.pos..];
    var header, ok := src.ReadFull(4);
    if !ok {
      return HeaderCut;
    }
    assert header == s[..4];
    var n := Length(header);
    if n > MAX_FRAME_BYTES {
      return TooLarge(n);
    }
    var body, ok' := src.ReadFull(n);
    if !ok' {
      return BodyCut;
    }
    assert body == s[4..4 + n];
    r := Body(body);
  }
}
