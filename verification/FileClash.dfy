/** Two ways in which a path in use twice costs a file, though every frame arrives once and in order. */
module FileClash {
  import opened Wire
  import opened FileTransfer
  import opened FileReceiver

  /** One more frame after the first `k`. */
  lemma Continue(es: seq<Event>, k: nat, s: Disk, s': Disk)
    requires k < |es| && Run(BARE, 9, es[..k]) == s && Handle(s, 9, es[k]) == s'
    ensures Run(BARE, 9, es[..k + 1]) == s'
  {
    assert es[..k + 1][..k] == es[..k];
  }

  function Empty(tid: Tid, src: Source, part: Path, final: Path): Transfer {
    Transfer(OfferFor(tid, src), part, final, 0, [], 0, 0)
  }

  // --- two transfers of one name at a time ---------------------------------------------

  const FIRST := Source("f", [1])
  const SECOND := Source("f", [2, 2])
  const CLASH := [OfferIn(OfferFor("a", FIRST)), OfferIn(OfferFor("b", SECOND)),
                  ChunkIn("b", 0, Some([2, 2])), ChunkIn("a", 0, Some([1]))]

  const A := Empty("a", FIRST, "f.part", "f")
  const B := Empty("b", SECOND, "f.part", "f")
  const OFFERED := State(map["a" := A], map["f.part" := 0], [[]], [Started("a")])
  const BOTH := State(map["a" := A, "b" := B], map["f.part" := 0], [[]], [Started("a"), Started("b")])
  const MOVED := State(map["a" := A], map["f" := 0], [[2, 2]],
                       [Started("a"), Started("b"), Ended("b", Published("f", [2, 2]))])

  lemma FirstOffered()
    ensures Handle(BARE, 9, CLASH[0]) == OFFERED
  {
    assert "f" + ".part" == "f.part";
    assert BARE.disk + [[]] == [[]] && BARE.log + [Started("a")] == [Started("a")];
  }

  lemma SecondOffered()
    ensures Handle(OFFERED, 9, CLASH[1]) == BOTH
  {
    assert "f" + ".part" == "f.part";
    assert OFFERED.disk[0 := []] == [[]];
  }

  lemma SecondTaken() returns (t: Disk)
    ensures t == Take(BOTH, "b", [2, 2]) && t.disk == [[2, 2]] && t.transfers["b"].hashed == SECOND.file
  {
    assert WriteAt([], 0, [2, 2]) == [2, 2];
    t := Take(BOTH, "b", [2, 2]);
    assert t.transfers["b"].hashed == [] + [2, 2];
  }

  lemma SecondMoved()
    ensures Handle(BOTH, 9, CLASH[2]) == MOVED
  {
    var t := SecondTaken();
    var r := Finalize(t, "b");
    assert r == Handle(BOTH, 9, CLASH[2]);
    assert r.dir == map["f" := 0] && r.transfers == map["a" := A];
  }

  lemma FirstTaken() returns (t: Disk)
    ensures t == Take(MOVED, "a", [1]) && t.disk == [[1, 2]] && t.transfers["a"].hashed == FIRST.file
  {
    assert WriteAt([2, 2], 0, [1]) == [1, 2];
    t := Take(MOVED, "a", [1]);
    assert t.transfers["a"].hashed == [] + [1];
  }

  lemma FirstLeft()
    ensures Handle(MOVED, 9, CLASH[3]) == State(map[], map["f" := 0], [[1, 2]], MOVED.log + [Ended("a", Unmoved)])
  {
    var t := FirstTaken();
    var r := Finalize(t, "a");
    assert r == Handle(MOVED, 9, CLASH[3]);
    assert r.transfers == map[];
  }

  const LEFT := State(map[], map["f" := 0], [[1, 2]], MOVED.log + [Ended("a", Unmoved)])

  lemma ClashOffers()
    ensures Run(BARE, 9, CLASH[..2]) == BOTH
  {
    FirstOffered();
    SecondOffered();
    Continue(CLASH, 0, BARE, OFFERED);
    Continue(CLASH, 1, OFFERED, BOTH);
  }

  lemma ClashMoves()
    ensures Run(BARE, 9, CLASH[..3]) == MOVED
  {
    ClashOffers();
    SecondMoved();
    Continue(CLASH, 2, BOTH, MOVED);
  }

  lemma ClashRuns()
    ensures Run(BARE, 9, CLASH) == LEFT
  {
    ClashMoves();
    FirstLeft();
    Continue(CLASH, 3, MOVED, LEFT);
    assert CLASH[..4] == CLASH;
  }

  lemma ClashIsTwoStreams()
    ensures Only(CLASH, "a") == Stream("a", FIRST) && Only(CLASH, "b") == Stream("b", SECOND)
  {
    assert CLASH[..3][..2] == CLASH[..2] && CLASH[..2][..1] == CLASH[..1] && CLASH[..1][..0] == [];
    assert Only(CLASH[..1], "a") == [CLASH[0]] && Only(CLASH[..1], "b") == [];
    assert Only(CLASH[..2], "a") == [CLASH[0]] && Only(CLASH[..2], "b") == [CLASH[1]];
    assert Only(CLASH[..3], "a") == [CLASH[0]] && Only(CLASH[..3], "b") == [CLASH[1], CLASH[2]];
    assert Only(CLASH, "a") == [CLASH[0], CLASH[3]];
    assert Chunk(FIRST.file, 0) == [1] && Chunk(SECOND.file, 0) == [2, 2];
  }

  /** Both hashes hold, yet the one file published ends up holding neither sender's contents. */
  lemma SharedPathLosesFile()
    ensures Only(CLASH, "a") == Stream("a", FIRST) && Only(CLASH, "b") == Stream("b", SECOND)
    ensures var r := Run(BARE, 9, CLASH);
      && Ended("b", Published("f", SECOND.file)) in r.log && Ended("a", Unmoved) in r.log
      && r.dir.Keys == {"f"} && r.disk[r.dir["f"]] == [1, 2]
  {
    ClashIsTwoStreams();
    ClashRuns();
    var log := Run(BARE, 9, CLASH).log;
    assert log[2] == Ended("b", Published("f", SECOND.file)) && log[3] == Ended("a", Unmoved);
  }

  // --- a part file over a published file ------------------------------------------------------

  const EARLIER := Source("f.part", [1])
  const LATER := Source("f", [2])
  const OVERWRITE := [OfferIn(OfferFor("a", EARLIER)), ChunkIn("a", 0, Some([1])), OfferIn(OfferFor("b", LATER))]

  const AWAITED := State(map["a" := Empty("a", EARLIER, "f.part.part", "f.part")], map["f.part.part" := 0], [[]], [Started("a")])
  const RECEIVED := State(map[], map["f.part" := 0], [[1]], [Started("a"), Ended("a", Published("f.part", [1]))])
  const TRUNCATED := State(map["b" := Empty("b", LATER, "f.part", "f")], map["f.part" := 0], [[]],
                           RECEIVED.log + [Started("b")])

  lemma EarlierOffered()
    ensures Handle(BARE, 9, OVERWRITE[0]) == AWAITED
  {
    assert "f.part" + ".part" == "f.part.part";
    assert BARE.disk + [[]] == [[]] && BARE.log + [Started("a")] == [Started("a")];
  }

  lemma EarlierTaken() returns (t: Disk)
    ensures t == Take(AWAITED, "a", [1]) && t.disk == [[1]] && t.transfers["a"].hashed == EARLIER.file
  {
    assert WriteAt([], 0, [1]) == [1];
    t := Take(AWAITED, "a", [1]);
    assert t.transfers["a"].hashed == [] + [1];
  }

  lemma EarlierMoved()
    ensures Handle(AWAITED, 9, OVERWRITE[1]) == RECEIVED
  {
    var t := EarlierTaken();
    var r := Finalize(t, "a");
    assert r == Handle(AWAITED, 9, OVERWRITE[1]);
    assert r.dir == map["f.part" := 0] && r.transfers == map[];
  }

  lemma LaterOffered()
    ensures Handle(RECEIVED, 9, OVERWRITE[2]) == TRUNCATED
  {
    assert "f" + ".part" == "f.part";
    assert RECEIVED.disk[0 := []] == [[]];
  }

  lemma OverwriteOffers()
    ensures Run(BARE, 9, OVERWRITE[..1]) == AWAITED
  {
    EarlierOffered();
    Continue(OVERWRITE, 0, BARE, AWAITED);
  }

  lemma OverwriteReceives()
    ensures Run(BARE, 9, OVERWRITE[..2]) == RECEIVED
  {
    OverwriteOffers();
    EarlierMoved();
    Continue(OVERWRITE, 1, AWAITED, RECEIVED);
  }

  lemma OverwriteRuns()
    ensures Run(BARE, 9, OVERWRITE[..3]) == TRUNCATED
  {
    OverwriteReceives();
    LaterOffered();
    Continue(OVERWRITE, 2, RECEIVED, TRUNCATED);
  }

  lemma OverwriteIsHonest()
    ensures Honest(OVERWRITE, map["a" := EARLIER, "b" := LATER])
  {
    assert Chunk(EARLIER.file, 0) == [1];
    assert Stream("a", EARLIER)[0] == OVERWRITE[0] && Stream("a", EARLIER)[1] == OVERWRITE[1];
    assert Stream("b", LATER)[0] == OVERWRITE[2];
  }

  lemma OneAtATime(k: nat)
    requires k <= 3
    ensures |Run(BARE, 9, OVERWRITE[..k]).transfers| <= 1
  {
    match k
    case 0 => assert OVERWRITE[..0] == [];
    case 1 => OverwriteOffers();
    case 2 => OverwriteReceives();
    case 3 => OverwriteRuns();
  }

  /** Never two transfers at once, and both senders honest: the published file is emptied by the next offer's part file. */
  lemma PartPathTruncatesPublished()
    ensures Honest(OVERWRITE, map["a" := EARLIER, "b" := LATER])
    ensures forall k :: 0 <= k <= 3 ==> |Run(BARE, 9, OVERWRITE[..k]).transfers| <= 1
    ensures var r := Run(BARE, 9, OVERWRITE);
      Ended("a", Published("f.part", EARLIER.file)) in r.log && "f.part" in r.dir && r.disk[r.dir["f.part"]] == []
  {
    OverwriteIsHonest();
    forall k | 0 <= k <= 3 ensures |Run(BARE, 9, OVERWRITE[..k]).transfers| <= 1 { OneAtATime(k); }
    OverwriteRuns();
    assert OVERWRITE[..3] == OVERWRITE;
    assert TRUNCATED.log[1] == Ended("a", Published("f.part", EARLIER.file));
  }
}
