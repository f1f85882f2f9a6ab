/** Signed release manifests: how the signer chains them, and what a client accepts of them. */
module Release {
  import opened Wire

  /** A build, and the version it reports of itself. */
  datatype Binary = Binary(version: string, build: string)

  /** An ideal digest, or text that is no build's digest. */
  datatype Digest = Sha256(binary: Binary) | NoDigest(text: string)

  datatype Artifact = Artifact(target: string, os: string, arch: string, version: string,
                               url: string, sha256: Digest, size: int)

  /** What a client looks an artifact up by. */
  datatype Platform = Platform(target: string, os: string, arch: string)

  predicate For(a: Artifact, p: Platform) { a.target == p.target && a.os == p.os && a.arch == p.arch }

  function PlatformOf(a: Artifact): Platform { Platform(a.target, a.os, a.arch) }

  datatype Manifest = Manifest(seqNo: int, artifacts: seq<Artifact>)

  /** The first entry for the platform. */
  function Lookup(xs: seq<Artifact>, p: Platform): Option<Artifact> {
    if xs == [] then None else if For(xs[0], p) then Some(xs[0]) else Lookup(xs[1..], p)
  }

  ghost predicate FirstFor(xs: seq<Artifact>, i: int, p: Platform) {
    0 <= i < |xs| && For(xs[i], p) && forall j :: 0 <= j < i ==> !For(xs[j], p)
  }

  method ArtifactFor(m: Manifest, target: string, os: string, arch: string) returns (r: Option<Artifact>)
    ensures r == Lookup(m.artifacts, Platform(target, os, arch))
    ensures r.Some? ==> exists i :: FirstFor(m.artifacts, i, Platform(target, os, arch)) && m.artifacts[i] == r.value
    ensures r.Some? ==> r.value.target == target && r.value.os == os && r.value.arch == arch
    ensures r == None <==> forall j :: 0 <= j < |m.artifacts| ==>
      !(m.artifacts[j].target == target && m.artifacts[j].os == os && m.artifacts[j].arch == arch)
  {
    var i := 0;
    while i < |m.artifacts|
      invariant 0 <= i <= |m.artifacts|
      invariant forall j :: 0 <= j < i ==> !For(m.artifacts[j], Platform(target, os, arch))
      invariant Lookup(m.artifacts, Platform(target, os, arch)) == Lookup(m.artifacts[i..], Platform(target, os, arch))
    {
      var a := m.artifacts[i];
      if a.target == target && a.os == os && a.arch == arch {
        assert FirstFor(m.artifacts, i, Platform(target, os, arch));
        return Some(a);
      }
      i := i + 1;
    }
    return None;
  }

  // --- signing -----------------------------------------------------------------------

  /** The first entry for the artifact's platform gives way to it; with none, it goes to the end. */
  function Merged(xs: seq<Artifact>, a: Artifact): seq<Artifact> {
    if xs == [] then [a]
    else if For(xs[0], PlatformOf(a)) then [a] + xs[1..]
    else [xs[0]] + Merged(xs[1..], a)
  }

  method ReplaceOrAppend(xs: seq<Artifact>, a: Artifact) returns (r: seq<Artifact>)
    ensures r == Merged(xs, a)
  {
    r := xs;
    var i := 0;
    while i < |xs|
      invariant 0 <= i <= |xs| && r == xs
      invariant Merged(xs, a) == xs[..i] + Merged(xs[i..], a)
    {
      if xs[i].target == a.target && xs[i].os == a.os && xs[i].arch == a.arch {
        r := r[i := a];
        assert r == xs[..i] + ([a] + xs[i..][1..]);
        return;
      }
      assert xs[i..][1..] == xs[i + 1..];
      assert xs[..i] + ([xs[i]] + Merged(xs[i + 1..], a)) == xs[..i + 1] + Merged(xs[i + 1..], a);
      i := i + 1;
    }
    assert xs[..|xs|] == xs;
    r := r + [a];
  }

  function MergedAll(xs: seq<Artifact>, spec: seq<Artifact>): seq<Artifact> {
    if spec == [] then xs else Merged(MergedAll(xs, spec[..|spec| - 1]), spec[|spec| - 1])
  }

  function Signed(prev: Manifest, spec: seq<Artifact>): Manifest {
    Manifest(prev.seqNo + 1, MergedAll(prev.artifacts, spec))
  }

  /** `failAt` is the artifact whose file cannot be hashed and copied, if any; then nothing is signed. */
  method Sign(prev: Manifest, spec: seq<Artifact>, failAt: Option<nat>) returns (m: Option<Manifest>)
    ensures m == if spec == [] || (failAt.Some? && failAt.value < |spec|) then None else Some(Signed(prev, spec))
  {
    if |spec| == 0 {
      return None;
    }
    var merged := prev.artifacts;
    var i := 0;
    while i < |spec|
      invariant 0 <= i <= |spec| && merged == MergedAll(prev.artifacts, spec[..i])
      invariant failAt.Some? ==> i <= failAt.value
    {
      if failAt == Some(i) {
        return None;
      }
      merged := ReplaceOrAppend(merged, spec[i]);
      assert spec[..i + 1][..i] == spec[..i];
      i := i + 1;
    }
    assert spec[..|spec|] == spec;
    return Some(Manifest(prev.seqNo + 1, merged));
  }

  /** Releases signed each on the one before. */
  function Chain(start: Manifest, specs: seq<seq<Artifact>>): Manifest {
    if specs == [] then start else Signed(Chain(start, specs[..|specs| - 1]), specs[|specs| - 1])
  }

  /** The newest entry that names the platform: of the latest release that has one, the last. */
  function Newest(spec: seq<Artifact>, p: Platform): Option<Artifact> {
    if spec == [] then None
    else if For(spec[|spec| - 1], p) then Some(spec[|spec| - 1]) else Newest(spec[..|spec| - 1], p)
  }

  function NewestOf(specs: seq<seq<Artifact>>, p: Platform): Option<Artifact> {
    if specs == [] then None
    else
      var last := Newest(specs[|specs| - 1], p);
      if last.Some? then last else NewestOf(specs[..|specs| - 1], p)
  }

  function OrElse(a: Option<Artifact>, b: Option<Artifact>): Option<Artifact> { if a.Some? then a else b }

  lemma {:induction false} LookupMerged(xs: seq<Artifact>, a: Artifact, p: Platform)
    ensures Lookup(Merged(xs, a), p) == if For(a, p) then Some(a) else Lookup(xs, p)
  {
    if xs != [] {
      LookupMerged(xs[1..], a, p);
      var m := Merged(xs, a);
      assert m[1..] == if For(xs[0], PlatformOf(a)) then xs[1..] else Merged(xs[1..], a);
    }
  }

  lemma {:induction false} LookupMergedAll(xs: seq<Artifact>, spec: seq<Artifact>, p: Platform)
    ensures Lookup(MergedAll(xs, spec), p) == OrElse(Newest(spec, p), Lookup(xs, p))
  {
    if spec != [] {
      LookupMergedAll(xs, spec[..|spec| - 1], p);
      LookupMerged(MergedAll(xs, spec[..|spec| - 1]), spec[|spec| - 1], p);
    }
  }

  /**
   After any chain of releases every platform gets the newest entry that names it, or the one carried
   over from the start, even if the starting list has several; and the sequence number has grown by one
   for each release.
   */
  lemma {:induction false} ChainGivesNewest(start: Manifest, specs: seq<seq<Artifact>>, p: Platform)
    ensures Lookup(Chain(start, specs).artifacts, p) == OrElse(NewestOf(specs, p), Lookup(start.artifacts, p))
    ensures Chain(start, specs).seqNo == start.seqNo + |specs|
  {
    if specs != [] {
      var n := |specs| - 1;
      ChainGivesNewest(start, specs[..n], p);
      LookupMergedAll(Chain(start, specs[..n]).artifacts, specs[n], p);
    }
  }

  ghost predicate OnePerPlatform(xs: seq<Artifact>) {
    forall i, j :: 0 <= i < j < |xs| ==> PlatformOf(xs[i]) != PlatformOf(xs[j])
  }

  lemma {:induction false} MergedEntries(xs: seq<Artifact>, a: Artifact)
    ensures forall x :: x in Merged(xs, a) ==> x == a || x in xs
    ensures forall x :: x in xs && !For(x, PlatformOf(a)) ==> x in Merged(xs, a)
    ensures OnePerPlatform(xs) ==> OnePerPlatform(Merged(xs, a))
  {
    if xs != [] && !For(xs[0], PlatformOf(a)) {
      MergedEntries(xs[1..], a);
      var m := Merged(xs, a);
      if OnePerPlatform(xs) {
        assert forall j :: 1 <= j < |m| ==> m[j] == Merged(xs[1..], a)[j - 1];
        forall i, j | 0 <= i < j < |m| ensures PlatformOf(m[i]) != PlatformOf(m[j]) {
          assert m[j] in Merged(xs[1..], a);
          if i == 0 && m[j] != a {
            var k :| 0 <= k < |xs[1..]| && xs[1..][k] == m[j];
            assert xs[k + 1] == m[j];
          }
        }
      }
    }
  }

  lemma {:induction false} MergedAllOnePerPlatform(xs: seq<Artifact>, spec: seq<Artifact>)
    requires OnePerPlatform(xs)
    ensures OnePerPlatform(MergedAll(xs, spec))
  {
    if spec != [] {
      MergedAllOnePerPlatform(xs, spec[..|spec| - 1]);
      MergedEntries(MergedAll(xs, spec[..|spec| - 1]), spec[|spec| - 1]);
    }
  }

  /** A chain that starts with one entry a platform stays so, whatever its specs repeat. */
  lemma {:induction false} ChainOnePerPlatform(start: Manifest, specs: seq<seq<Artifact>>)
    requires OnePerPlatform(start.artifacts)
    ensures OnePerPlatform(Chain(start, specs).artifacts)
  {
    if specs != [] {
      var n := |specs| - 1;
      ChainOnePerPlatform(start, specs[..n]);
      MergedAllOnePerPlatform(Chain(start, specs[..n]).artifacts, specs[n]);
    }
  }

  // --- accepting -----------------------------------------------------------------------

  /** An ideal signature: `genuine` says whether it is the release key's over this very manifest. */
  datatype Response = Unreachable | Served(manifest: Manifest, genuine: bool)

  /** Whether update_state.json could be read, and then written. */
  datatype Disk = Disk(readable: bool, writable: bool)

  predicate Accepts(lastSeq: int, r: Response, d: Disk) {
    r.Served? && r.genuine && d.readable && r.manifest.seqNo > lastSeq && d.writable
  }

  class Fetcher {
    var lastSeq: Option<int>       // update_state.json
    ghost var accepted: seq<Manifest>

    function LastSeq(): int reads this { if lastSeq.Some? then lastSeq.value else 0 }

    /** The sequence numbers accepted grow strictly from above the first state, and the last is on disk. */
    ghost predicate Valid() reads this {
      && (forall i, j :: 0 <= i < j < |accepted| ==> accepted[i].seqNo < accepted[j].seqNo)
      && (forall i :: 0 <= i < |accepted| ==> 0 < accepted[i].seqNo <= LastSeq())
      && 0 <= LastSeq()
    }

    constructor ()
      ensures Valid() && lastSeq == None && accepted == []
    {
      lastSeq, accepted := None, [];
    }

    /** A missing file reads as 0. */
    method LoadSeq(d: Disk) returns (last: Option<int>)
      ensures last == if d.readable then Some(LastSeq()) else None
    {
      if !d.readable {
        return None;
      }
      return Some(if lastSeq.Some? then lastSeq.value else 0);
    }

    method SaveSeq(seqNo: int, d: Disk) returns (ok: bool)
      modifies this`lastSeq
      ensures ok == d.writable && lastSeq == if ok then Some(seqNo) else old(lastSeq)
    {
      ok := d.writable;
      if ok {
        lastSeq := Some(seqNo);
      }
    }

    /** With no other attempt in between. */
    method FetchManifest(r: Response, d: Disk) returns (m: Option<Manifest>)
      requires Valid()
      modifies this
      ensures Valid()
      ensures var last := if old(lastSeq) == None then 0 else old(lastSeq).value;
        m == if r.Served? && r.genuine && r.manifest.seqNo > last && d.readable && d.writable then Some(r.manifest) else None
      ensures accepted == if m.Some? then old(accepted) + [m.value] else old(accepted)
      ensures lastSeq == if m.Some? then Some(m.value.seqNo) else old(lastSeq)
    {
      if r.Unreachable? {
        return None;
      }
      if !r.genuine {
        return None;
      }
      var last := LoadSeq(d);
      if last == None {
        return None;
      }
      if r.manifest.seqNo <= last.value {
        return None;
      }
      var saved := SaveSeq(r.manifest.seqNo, d);
      if !saved {
        return None;
      }
      accepted := accepted + [r.manifest];
      return Some(r.manifest);
    }
  }

  /** What a client accepts of a run of responses, from a state. */
  function AcceptedOf(lastSeq: int, rs: seq<(Response, Disk)>): seq<Manifest>
    decreases |rs|
  {
    if rs == [] then []
    else if Accepts(lastSeq, rs[0].0, rs[0].1) then [rs[0].0.manifest] + AcceptedOf(rs[0].0.manifest.seqNo, rs[1..])
    else AcceptedOf(lastSeq, rs[1..])
  }

  ghost predicate WasServed(rs: seq<(Response, Disk)>, m: Manifest) {
    exists k :: 0 <= k < |rs| && rs[k].0 == Served(m, true)
  }

  ghost predicate Grows(ms: seq<Manifest>, above: int) {
    && (forall i :: 0 <= i < |ms| ==> ms[i].seqNo > above)
    && (forall i, j :: 0 <= i < j < |ms| ==> ms[i].seqNo < ms[j].seqNo)
  }

  /**
   One attempt after the other, whatever is replayed and in whatever order: accepted sequence numbers
   strictly increase, and are all genuine.
   */
  lemma {:induction false} ReplaysNeverRollBack(lastSeq: int, rs: seq<(Response, Disk)>)
    ensures Grows(AcceptedOf(lastSeq, rs), lastSeq)
    ensures forall m :: m in AcceptedOf(lastSeq, rs) ==> WasServed(rs, m)
    decreases |rs|
  {
    if rs != [] {
      var accepts := Accepts(lastSeq, rs[0].0, rs[0].1);
      var next := if accepts then rs[0].0.manifest.seqNo else lastSeq;
      ReplaysNeverRollBack(next, rs[1..]);
      forall m | m in AcceptedOf(next, rs[1..]) ensures WasServed(rs, m) {
        var k :| 0 <= k < |rs[1..]| && rs[1..][k].0 == Served(m, true);
        assert rs[k + 1].0 == Served(m, true);
      }
      if accepts { assert rs[0].0 == Served(rs[0].0.manifest, true); }
    }
  }

  /** Above the start and above every genuine manifest that came before. */
  ghost predicate TopsAll(lastSeq: int, rs: seq<(Response, Disk)>, k: nat)
    requires k < |rs|
  {
    && rs[k].0.Served? && rs[k].0.genuine && rs[k].1.readable && rs[k].1.writable && rs[k].0.manifest.seqNo > lastSeq
    && forall j :: 0 <= j < k && rs[j].0.Served? && rs[j].0.genuine ==> rs[j].0.manifest.seqNo < rs[k].0.manifest.seqNo
  }

  /** And no update is held up: a genuine manifest above the start and all before it is accepted. */
  lemma {:induction false} NewestIsAccepted(lastSeq: int, rs: seq<(Response, Disk)>, k: nat)
    requires k < |rs| && TopsAll(lastSeq, rs, k)
    ensures rs[k].0.manifest in AcceptedOf(lastSeq, rs)
    decreases |rs|
  {
    if k > 0 {
      var next := if Accepts(lastSeq, rs[0].0, rs[0].1) then rs[0].0.manifest.seqNo else lastSeq;
      forall j | 0 <= j < k - 1 && rs[1..][j].0.Served? && rs[1..][j].0.genuine
        ensures rs[1..][j].0.manifest.seqNo < rs[k].0.manifest.seqNo
      {
        assert rs[1..][j] == rs[j + 1];
      }
      NewestIsAccepted(next, rs[1..], k - 1);
    }
  }

  // --- attempts at once ------------------------------------------------------------------

  /** Attempts share the stored seq without a lock; `checked` are those between loading it and saving their own. */
  datatype Store = Store(stored: int, checked: map<nat, Manifest>, accepted: seq<Manifest>)

  datatype Step =
    | Load(i: nat, manifest: Manifest)   // a genuine manifest is compared with the stored seq
    | Save(i: nat)
    | SaveFails(i: nat)

  predicate Can(s: Store, a: Step) {
    if a.Load? then a.i !in s.checked else a.i in s.checked
  }

  function After(s: Store, a: Step): Store
    requires Can(s, a)
  {
    match a
    case Load(i, m) => if m.seqNo <= s.stored then s else s.(checked := s.checked[i := m])
    case Save(i) => Store(s.checked[i].seqNo, s.checked - {i}, s.accepted + [s.checked[i]])
    case SaveFails(i) => s.(checked := s.checked - {i})
  }

  ghost predicate IsRun(ss: seq<Store>, steps: seq<Step>) {
    && |ss| == |steps| + 1 && ss[0].checked == map[] && ss[0].accepted == []
    && forall k :: 0 <= k < |steps| ==> Can(ss[k], steps[k]) && ss[k + 1] == After(ss[k], steps[k])
  }

  /** Uninterrupted, an attempt's steps accept and store exactly what FetchManifest does of a genuine manifest. */
  lemma AttemptComposes(s: Store, i: nat, m: Manifest)
    requires i !in s.checked
    ensures var loaded := After(s, Load(i, m));
      if m.seqNo > s.stored then Can(loaded, Save(i)) && After(loaded, Save(i)) == Store(m.seqNo, s.checked, s.accepted + [m])
      else loaded == s
  {
    assert s.checked[i := m] - {i} == s.checked;
  }

  /** The save still finds a smaller seq stored, as the attempt did when it loaded it. */
  predicate StillNewer(s: Store, a: Step) {
    a.Save? && Can(s, a) ==> s.stored < s.checked[a.i].seqNo
  }

  ghost predicate LastIsStored(s: Store, start: int) {
    s.stored == if s.accepted == [] then start else s.accepted[|s.accepted| - 1].seqNo
  }

  lemma {:induction false} StoredIsLast(ss: seq<Store>, steps: seq<Step>, k: nat)
    requires IsRun(ss, steps) && k < |ss|
    ensures LastIsStored(ss[k], ss[0].stored)
  {
    if k > 0 {
      StoredIsLast(ss, steps, k - 1);
      assert Can(ss[k - 1], steps[k - 1]);
    }
  }

  lemma GrowsByOne(ms: seq<Manifest>, m: Manifest, above: int)
    requires Grows(ms, above)
    ensures Grows(ms + [m], above) <==> m.seqNo > if ms == [] then above else ms[|ms| - 1].seqNo
  {
    var all := ms + [m];
    assert all[|ms|] == m && (ms != [] ==> all[|ms| - 1] == ms[|ms| - 1]);
  }

  lemma StepGrows(s: Store, a: Step, start: int)
    requires Can(s, a) && LastIsStored(s, start) && Grows(s.accepted, start)
    ensures Grows(After(s, a).accepted, start) <==> StillNewer(s, a)
  {
    if a.Save? { GrowsByOne(s.accepted, s.checked[a.i], start); }
  }

  lemma GrowsPrefix(ms: seq<Manifest>, m: Manifest, above: int)
    requires Grows(ms + [m], above)
    ensures Grows(ms, above)
  {
    var all := ms + [m];
    assert forall i :: 0 <= i < |ms| ==> all[i] == ms[i];
  }

  lemma {:induction false} GrowsIff(ss: seq<Store>, steps: seq<Step>, k: nat)
    requires IsRun(ss, steps) && k < |ss|
    ensures Grows(ss[k].accepted, ss[0].stored) <==> forall m :: 0 <= m < k ==> StillNewer(ss[m], steps[m])
  {
    if k > 0 {
      var n := k - 1;
      GrowsIff(ss, steps, n);
      StoredIsLast(ss, steps, n);
      if Grows(ss[n].accepted, ss[0].stored) {
        StepGrows(ss[n], steps[n], ss[0].stored);
      } else if steps[n].Save? {
        var m := ss[n].checked[steps[n].i];
        if Grows(ss[k].accepted, ss[0].stored) { GrowsPrefix(ss[n].accepted, m, ss[0].stored); }
      }
    }
  }

  /**
   Of any interleaving of attempts, by one process or several: the accepted seqs strictly increase from the
   stored one exactly when every save still finds a smaller seq stored.
   */
  lemma AcceptedGrowIffStillNewer(ss: seq<Store>, steps: seq<Step>)
    requires IsRun(ss, steps)
    ensures Grows(ss[|steps|].accepted, ss[0].stored) <==> forall k :: 0 <= k < |steps| ==> StillNewer(ss[k], steps[k])
  {
    GrowsIff(ss, steps, |steps|);
  }

  const SIX := Manifest(6, [])
  const SEVEN := Manifest(7, [])

  /** Two attempts that have both loaded 5: one accepts 7, and then the other accepts 6. */
  lemma OverlapCanRollBack() returns (ss: seq<Store>, steps: seq<Step>)
    ensures IsRun(ss, steps) && steps == [Load(0, SEVEN), Load(1, SIX), Save(0), Save(1)]
    ensures ss[0].stored == 5 && ss[4].accepted == [SEVEN, SIX] && ss[4].stored == 6
  {
    steps := [Load(0, SEVEN), Load(1, SIX), Save(0), Save(1)];
    var s0 := Store(5, map[], []);
    var s1 := Store(5, map[0 := SEVEN], []);
    var s2 := Store(5, map[0 := SEVEN, 1 := SIX], []);
    var s3 := Store(7, map[1 := SIX], [SEVEN]);
    var s4 := Store(6, map[], [SEVEN, SIX]);
    ss := [s0, s1, s2, s3, s4];
    assert After(s0, steps[0]) == s1 && After(s1, steps[1]) == s2;
    assert s2.checked - {0} == s3.checked && s3.checked - {1} == s4.checked;
    assert After(s2, steps[2]) == s3 && After(s3, steps[3]) == s4;
  }
}
