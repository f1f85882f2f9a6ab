/**
 Files in chunks: how the sender splits, and how the receiver reassembles on a file system with open
 descriptors, whatever the chunks' losses, repetitions and order.
 */
module FileTransfer {
  import opened Wire
  import opened Decimal

  type Byte = bv8
  type Tid = string
  type Path = string

  const CHUNK_SIZE := 512 * 1024

  // --- sending ---------------------------------------------------------------------

  /** Even an empty file is sent as one chunk. */
  function ChunkCount(size: nat): nat {
    var chunks := (size + CHUNK_SIZE - 1) / CHUNK_SIZE;
    if chunks == 0 then 1 else chunks
  }

  function Min(a: int, b: int): int { if a < b then a else b }

  function Chunk(file: seq<Byte>, i: nat): seq<Byte> {
    file[Min(i * CHUNK_SIZE, |file|)..Min((i + 1) * CHUNK_SIZE, |file|)]
  }

  function Concat(chunks: seq<seq<Byte>>): seq<Byte> {
    if chunks == [] then [] else Concat(chunks[..|chunks| - 1]) + chunks[|chunks| - 1]
  }

  function Chunks(file: seq<Byte>, n: nat): seq<seq<Byte>> {
    seq(n, i requires 0 <= i < n => Chunk(file, i))
  }

  lemma {:induction false} ChunksMakePrefix(file: seq<Byte>, n: nat)
    ensures Concat(Chunks(file, n)) == file[..Min(n * CHUNK_SIZE, |file|)]
  {
    if n > 0 {
      ChunksMakePrefix(file, n - 1);
      assert Chunks(file, n)[..n - 1] == Chunks(file, n - 1);
      assert n * CHUNK_SIZE == (n - 1) * CHUNK_SIZE + CHUNK_SIZE;
    }
  }

  /**
   For every size, empty files and exact multiples included, the chunks make up the file; all but the
   last are full, and the last is empty only for an empty file.
   */
  lemma ChunksMakeFile(file: seq<Byte>)
    ensures Concat(Chunks(file, ChunkCount(|file|))) == file
    ensures forall i :: 0 <= i < ChunkCount(|file|) - 1 ==> |Chunk(file, i)| == CHUNK_SIZE
    ensures |Chunk(file, ChunkCount(|file|) - 1)| <= CHUNK_SIZE
    ensures Chunk(file, ChunkCount(|file|) - 1) == [] <==> file == []
  {
    var n := ChunkCount(|file|);
    ChunksMakePrefix(file, n);
    assert (n - 1) * CHUNK_SIZE <= |file| <= n * CHUNK_SIZE;
    forall i | 0 <= i < n - 1 ensures |Chunk(file, i)| == CHUNK_SIZE {
      assert (i + 1) * CHUNK_SIZE <= (n - 1) * CHUNK_SIZE;
    }
  }

  /** An ideal digest. */
  datatype Digest = Sha256(content: seq<Byte>) | NoDigest

  datatype Offer = Offer(tid: Tid, path: Path, size: int, sum: Digest, chunks: int)

  /** What arrives: `path` is the sanitized name in the downloads directory; None is a bad encoding. */
  datatype Event = OfferIn(offer: Offer) | ChunkIn(tid: Tid, index: int, bytes: Option<seq<Byte>>)

  datatype Source = Source(path: Path, file: seq<Byte>)

  function OfferFor(tid: Tid, src: Source): Offer {
    Offer(tid, src.path, |src.file|, Sha256(src.file), ChunkCount(|src.file|))
  }

  /** What SendFile sends when nothing fails: the offer, then the chunks in order. */
  function Stream(tid: Tid, src: Source): seq<Event> {
    [OfferIn(OfferFor(tid, src))]
    + seq(ChunkCount(|src.file|), i requires 0 <= i < ChunkCount(|src.file|) => ChunkIn(tid, i, Some(Chunk(src.file, i))))
  }

  /** The offer describes the file as it is, and the frames after it carry its stretches from the front. */
  lemma StreamIsFile(tid: Tid, src: Source)
    ensures |Stream(tid, src)| >= 2
    ensures Stream(tid, src)[0] == OfferIn(Offer(tid, src.path, |src.file|, Sha256(src.file), |Stream(tid, src)| - 1))
    ensures forall k :: 0 < k < |Stream(tid, src)| ==>
      var from, to := Min((k - 1) * CHUNK_SIZE, |src.file|), Min(k * CHUNK_SIZE, |src.file|);
      Stream(tid, src)[k] == ChunkIn(tid, k - 1, Some(src.file[from..to]))
  {
  }

  /** `failAt` is the frame whose write fails, if any. */
  method SendFile(tid: Tid, src: Source, failAt: Option<nat>) returns (frames: seq<Event>, ok: bool)
    ensures ok <==> failAt == None || failAt.value > ChunkCount(|src.file|)
    ensures frames == if ok then Stream(tid, src) else Stream(tid, src)[..failAt.value]
  {
    var chunks := (|src.file| + CHUNK_SIZE - 1) / CHUNK_SIZE;
    if chunks == 0 {
      chunks := 1;
    }
    if failAt == Some(0) {
      return [], false;
    }
    frames := [OfferIn(Offer(tid, src.path, |src.file|, Sha256(src.file), chunks))];
    var rest := src.file;
    var idx := 0;
    while idx < chunks
      invariant 0 <= idx <= chunks && frames == Stream(tid, src)[..idx + 1]
      invariant rest == src.file[Min(idx * CHUNK_SIZE, |src.file|)..]
      invariant failAt.Some? ==> failAt.value > idx
    {
      if failAt == Some(idx + 1) {
        return frames, false;
      }
      var n := if |rest| < CHUNK_SIZE then |rest| else CHUNK_SIZE;
      assert (idx + 1) * CHUNK_SIZE == idx * CHUNK_SIZE + CHUNK_SIZE;
      assert rest[..n] == Chunk(src.file, idx);
      frames := frames + [ChunkIn(tid, idx, Some(rest[..n]))];
      rest := rest[n..];
      idx := idx + 1;
    }
    ok := true;
  }

  // --- free names ------------------------------------------------------------------------

  /** filepath.Ext: from the last dot of the last path element. */
  function Ext(path: Path): Path {
    if path == [] || path[|path| - 1] == '/' then []
    else if path[|path| - 1] == '.' then "."
    else var e := Ext(path[..|path| - 1]); if e == [] then [] else e + [path[|path| - 1]]
  }

  lemma {:induction false} ExtIsSuffix(path: Path)
    ensures |Ext(path)| <= |path| && path[|path| - |Ext(path)|..] == Ext(path)
  {
    if path != [] && path[|path| - 1] != '/' && path[|path| - 1] != '.' {
      ExtIsSuffix(path[..|path| - 1]);
    }
  }

  function Candidate(path: Path, i: nat): Path {
    ExtIsSuffix(path);
    path[..|path| - |Ext(path)|] + " (" + Render(i) + ")" + Ext(path)
  }

  lemma {:induction false} ExtAfterDot(base: Path, ext: Path)
    requires '.' !in ext && '/' !in ext
    ensures Ext(base + "." + ext) == "." + ext
  {
    var path := base + "." + ext;
    if ext != [] {
      var n := |ext| - 1;
      assert path[..|path| - 1] == base + "." + ext[..n];
      assert ext[n] in ext;
      ExtAfterDot(base, ext[..n]);
      assert "." + ext == "." + ext[..n] + [ext[n]];
    }
  }

  lemma {:induction false} NoDotNoExt(dir: Path, name: Path)
    requires '.' !in name && '/' !in name && (dir == [] || dir[|dir| - 1] == '/')
    ensures Ext(dir + name) == []
  {
    if name == [] {
      assert dir + name == dir;
    } else {
      var n := |name| - 1;
      assert (dir + name)[..|dir + name| - 1] == dir + name[..n];
      assert name[n] in name;
      NoDotNoExt(dir, name[..n]);
    }
  }

  /** The number goes in front of the extension, from the last dot on; a name without a dot has none. */
  lemma NumberBeforeExtension(base: Path, ext: Path, dir: Path, name: Path, i: nat)
    requires '.' !in ext && '/' !in ext
    requires '.' !in name && '/' !in name && (dir == [] || dir[|dir| - 1] == '/')
    ensures Candidate(base + "." + ext, i) == base + " (" + Render(i) + ")." + ext
    ensures Candidate(dir + name, i) == dir + name + " (" + Render(i) + ")"
  {
    ExtAfterDot(base, ext);
    NoDotNoExt(dir, name);
    var path := base + "." + ext;
    assert path[..|path| - |"." + ext|] == base;
    assert base + " (" + Render(i) + ")" + ("." + ext) == base + " (" + Render(i) + ")." + ext;
  }

  lemma Middle(before: Path, number: string, after: Path)
    ensures var c := before + number + after; c[|before|..|c| - |after|] == number
  {
  }

  lemma CandidatesDiffer(path: Path, i: nat, j: nat)
    requires Candidate(path, i) == Candidate(path, j)
    ensures i == j
  {
    ExtIsSuffix(path);
    var base := path[..|path| - |Ext(path)|] + " (";
    var tail := ")" + Ext(path);
    assert Candidate(path, i) == base + Render(i) + tail;
    assert Candidate(path, j) == base + Render(j) + tail;
    Middle(base, Render(i), tail);
    Middle(base, Render(j), tail);
    ValueOfRender(i);
    ValueOfRender(j);
  }

  ghost predicate AllTaken(path: Path, taken: set<Path>, i: int) {
    forall j :: 2 <= j < i ==> Candidate(path, j) in taken
  }

  /** As the candidates differ, a finite directory cannot hold more of them than it has names. */
  lemma {:induction false} TakenAreMany(path: Path, taken: set<Path>, i: nat)
    requires i >= 2 && AllTaken(path, taken, i)
    ensures i - 2 <= |taken|
  {
    if i > 2 {
      var c := Candidate(path, i - 1);
      forall j | 2 <= j < i - 1 ensures Candidate(path, j) in taken - {c} {
        if Candidate(path, j) == c { CandidatesDiffer(path, j, i - 1); }
      }
      TakenAreMany(path, taken - {c}, i - 1);
    }
  }

  function FreeFrom(path: Path, taken: set<Path>, i: nat): (r: Path)
    requires i >= 2 && AllTaken(path, taken, i)
    ensures r !in taken
    decreases |taken| + 2 - i
  {
    TakenAreMany(path, taken, i);
    if Candidate(path, i) !in taken then Candidate(path, i)
    else
      assert AllTaken(path, taken, i + 1);
      TakenAreMany(path, taken, i + 1);
      FreeFrom(path, taken, i + 1)
  }

  function FreePath(path: Path, taken: set<Path>): (r: Path)
    ensures r !in taken
  {
    if path !in taken then path else FreeFrom(path, taken, 2)
  }

  /** The search for a free name ends, at the first candidate not taken. */
  method UniquePath(path: Path, taken: set<Path>) returns (r: Path)
    ensures r == FreePath(path, taken) && r !in taken
    ensures path !in taken ==> r == path
    ensures path in taken ==> exists i :: i >= 2 && r == Candidate(path, i) && AllTaken(path, taken, i)
  {
    if path !in taken {
      return path;
    }
    var i := 2;
    r := Candidate(path, i);
    TakenAreMany(path, taken, i);
    while r in taken
      invariant i >= 2 && r == Candidate(path, i) && AllTaken(path, taken, i) && i - 2 <= |taken|
      invariant FreePath(path, taken) == FreeFrom(path, taken, i)
      decreases |taken| + 2 - i
    {
      assert AllTaken(path, taken, i + 1);
      TakenAreMany(path, taken, i + 1);
      i := i + 1;
      r := Candidate(path, i);
    }
  }
}
