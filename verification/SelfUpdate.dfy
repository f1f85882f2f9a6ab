/**
 Self-updates: fetch, look up, compare, download, verify, swap. Each attempt compares with the binary its own
 process runs, while the installed one may have been swapped since; attempts overlap within and across processes.
 */
module SelfUpdate {
  import opened Wire
  import opened Release
  import opened Version
  import opened Decimal

  /** How far an attempt has come: the seq loaded and compared, an artifact found newer, its download verified. */
  datatype Stage = Checked(manifest: Manifest) | Chosen(artifact: Artifact) | Verified(binary: Binary)

  datatype Attempt = Attempt(pid: nat, stage: Stage)

  datatype State = State(installed: Binary, stored: int, running: map<nat, Binary>, attempts: map<nat, Attempt>)

  datatype Move =
    | Start(pid: nat)                             // a process starts, or replaces itself by the installed binary
    | LoadFor(i: nat, pid: nat, manifest: Manifest)   // a genuine manifest is compared with the stored seq
    | Accept(i: nat)                              // the seq is saved, and the artifact compared
    | Download(i: nat, binary: Binary)            // whatever comes back is checked against the digest
    | Swap(i: nat)
    | GiveUp(i: nat)                              // any of it fails

  predicate CanMove(s: State, a: Move) {
    match a
    case Start(_) => true
    case LoadFor(i, pid, _) => pid in s.running && i !in s.attempts
    case Accept(i) => i in s.attempts && s.attempts[i].stage.Checked? && s.attempts[i].pid in s.running
    case Download(i, _) => i in s.attempts && s.attempts[i].stage.Chosen?
    case Swap(i) => i in s.attempts && s.attempts[i].stage.Verified? && s.attempts[i].pid in s.running
    case GiveUp(i) => i in s.attempts
  }

  /** CheckSelf: newer than the running binary. */
  function Choice(m: Manifest, p: Platform, running: Binary): Option<Artifact> {
    match Lookup(m.artifacts, p)
    case Some(a) => if Newer(a.version, running.version) then Some(a) else None
    case None => None
  }

  function Of(attempts: map<nat, Attempt>, pid: nat): set<nat> {
    set i | i in attempts && attempts[i].pid == pid
  }

  function Moved(s: State, p: Platform, a: Move): State
    requires CanMove(s, a)
  {
    match a
    case Start(pid) => s.(running := s.running[pid := s.installed], attempts := s.attempts - Of(s.attempts, pid))
    case LoadFor(i, pid, m) =>
      if m.seqNo <= s.stored then s else s.(attempts := s.attempts[i := Attempt(pid, Checked(m))])
    case Accept(i) =>
      var t := s.attempts[i];
      var choice := Choice(t.stage.manifest, p, s.running[t.pid]);
      s.(stored := t.stage.manifest.seqNo,
         attempts := if choice.Some? then s.attempts[i := t.(stage := Chosen(choice.value))] else s.attempts - {i})
    case Download(i, b) =>
      var t := s.attempts[i];
      s.(attempts := if t.stage.artifact.sha256 == Sha256(b) then s.attempts[i := t.(stage := Verified(b))]
                     else s.attempts - {i})
    case Swap(i) => s.(installed := s.attempts[i].stage.binary, attempts := s.attempts - {i})
    case GiveUp(i) => s.(attempts := s.attempts - {i})
  }

  ghost predicate MoveAt(ss: seq<State>, p: Platform, moves: seq<Move>, k: nat)
    requires |ss| == |moves| + 1 && k < |moves|
  {
    CanMove(ss[k], moves[k]) && ss[k + 1] == Moved(ss[k], p, moves[k])
  }

  /** No process and no attempt yet. */
  ghost predicate IsHistory(ss: seq<State>, p: Platform, moves: seq<Move>) {
    && |ss| == |moves| + 1 && ss[0].running == map[] && ss[0].attempts == map[]
    && forall k :: 0 <= k < |moves| ==> MoveAt(ss, p, moves, k)
  }

  // --- labels ------------------------------------------------------------------------

  predicate Labelled(a: Artifact) {
    a.sha256.Sha256? ==> a.sha256.binary.version == a.version
  }

  /** Released binaries report the version their manifest entry gives. */
  predicate WellLabelled(m: Manifest) {
    forall i :: 0 <= i < |m.artifacts| ==> Labelled(m.artifacts[i])
  }

  predicate AllLabelled(moves: seq<Move>) {
    forall k :: 0 <= k < |moves| && moves[k].LoadFor? ==> WellLabelled(moves[k].manifest)
  }

  lemma {:induction false} LookupIsEntry(xs: seq<Artifact>, p: Platform)
    requires Lookup(xs, p).Some?
    ensures exists i :: 0 <= i < |xs| && xs[i] == Lookup(xs, p).value
  {
    if !For(xs[0], p) {
      LookupIsEntry(xs[1..], p);
      var i :| 0 <= i < |xs[1..]| && xs[1..][i] == Lookup(xs, p).value;
      assert xs[i + 1] == Lookup(xs, p).value;
    } else {
      assert xs[0] == Lookup(xs, p).value;
    }
  }

  lemma ChoiceIsLabelled(m: Manifest, p: Platform, running: Binary)
    requires WellLabelled(m) && Choice(m, p, running).Some?
    ensures Labelled(Choice(m, p, running).value) && Newer(Choice(m, p, running).value.version, running.version)
  {
    LookupIsEntry(m.artifacts, p);
  }

  // --- what an attempt carries ----------------------------------------------------------

  /** An attempt past its comparison is on its way to a binary newer than the one its process runs. */
  ghost predicate Carries(s: State, i: nat)
    requires i in s.attempts
  {
    var t := s.attempts[i];
    && t.pid in s.running
    && match t.stage
       case Checked(m) => WellLabelled(m)
       case Chosen(a) => Labelled(a) && Newer(a.version, s.running[t.pid].version)
       case Verified(b) => Newer(b.version, s.running[t.pid].version)
  }

  ghost predicate AllCarry(s: State) {
    forall i :: i in s.attempts ==> Carries(s, i)
  }

  lemma MoveCarries(s: State, p: Platform, a: Move)
    requires CanMove(s, a) && AllCarry(s) && (a.LoadFor? ==> WellLabelled(a.manifest))
    ensures AllCarry(Moved(s, p, a))
  {
    var s' := Moved(s, p, a);
    forall i | i in s'.attempts ensures Carries(s', i) {
      if i in s.attempts {
        assert Carries(s, i);
        if a.Accept? && a.i == i { ChoiceIsLabelled(s.attempts[i].stage.manifest, p, s.running[s.attempts[i].pid]); }
      }
    }
  }

  lemma {:induction false} HistoryCarries(ss: seq<State>, p: Platform, moves: seq<Move>, k: nat)
    requires IsHistory(ss, p, moves) && AllLabelled(moves) && k < |ss|
    ensures AllCarry(ss[k])
  {
    if k > 0 {
      HistoryCarries(ss, p, moves, k - 1);
      assert MoveAt(ss, p, moves, k - 1);
      MoveCarries(ss[k - 1], p, moves[k - 1]);
    }
  }

  // --- installed versions ------------------------------------------------------------------

  /** The installed binary stayed, or one that reports a newer version took its place. */
  predicate Upgraded(early: Binary, late: Binary) { late == early || Newer(late.version, early.version) }

  /** The swapping process no longer runs what is installed: someone has swapped since it started. */
  predicate StaleSwap(s: State, a: Move) {
    a.Swap? && CanMove(s, a) && s.running[s.attempts[a.i].pid] != s.installed
  }

  /** A stale swap brings something newer than what is installed, too, or the same. */
  predicate StaleSwapUpgrades(s: State, a: Move) {
    StaleSwap(s, a) ==> Upgraded(s.installed, s.attempts[a.i].stage.binary)
  }

  /** A swap by a process that runs what is installed always upgrades. */
  lemma FreshSwapUpgrades(s: State, p: Platform, a: Move)
    requires CanMove(s, a) && AllCarry(s) && !StaleSwap(s, a)
    ensures Upgraded(s.installed, Moved(s, p, a).installed)
  {
    if a.Swap? { assert Carries(s, a.i); }
  }

  lemma MoveUpgrades(s: State, p: Platform, a: Move)
    requires CanMove(s, a) && AllCarry(s) && StaleSwapUpgrades(s, a)
    ensures Upgraded(s.installed, Moved(s, p, a).installed)
  {
    if !StaleSwap(s, a) { FreshSwapUpgrades(s, p, a); }
  }

  lemma UpgradesChain(a: Binary, b: Binary, c: Binary)
    requires Upgraded(a, b) && Upgraded(b, c)
    ensures Upgraded(a, c)
  {
    CompareIsTotalPreorder(c.version, b.version, a.version);
  }

  ghost predicate AlwaysUpgraded(ss: seq<State>) {
    forall j, k :: 0 <= j <= k < |ss| ==> Upgraded(ss[j].installed, ss[k].installed)
  }

  lemma StepUpgrades(ss: seq<State>, p: Platform, moves: seq<Move>, k: nat)
    requires IsHistory(ss, p, moves) && AllLabelled(moves) && k < |moves| && StaleSwapUpgrades(ss[k], moves[k])
    ensures Upgraded(ss[k].installed, ss[k + 1].installed)
  {
    HistoryCarries(ss, p, moves, k);
    assert MoveAt(ss, p, moves, k);
    MoveUpgrades(ss[k], p, moves[k]);
  }

  lemma {:induction false} UpgradedUpTo(ss: seq<State>, p: Platform, moves: seq<Move>, j: nat, k: nat)
    requires IsHistory(ss, p, moves) && AllLabelled(moves) && j <= k < |ss|
    requires forall m :: 0 <= m < |moves| ==> StaleSwapUpgrades(ss[m], moves[m])
    ensures Upgraded(ss[j].installed, ss[k].installed)
  {
    if j < k {
      UpgradedUpTo(ss, p, moves, j, k - 1);
      StepUpgrades(ss, p, moves, k - 1);
      UpgradesChain(ss[j].installed, ss[k - 1].installed, ss[k].installed);
    }
  }

  /**
   Over any history of processes and overlapping attempts, against any responses, downloads and failures:
   a changed binary always reports a strictly newer version exactly when every swap by a process that no
   longer runs the installed binary brings something newer than that one, or the same.
   */
  lemma InstalledIncreaseIff(ss: seq<State>, p: Platform, moves: seq<Move>)
    requires IsHistory(ss, p, moves) && AllLabelled(moves)
    ensures AlwaysUpgraded(ss) <==> forall k :: 0 <= k < |moves| ==> StaleSwapUpgrades(ss[k], moves[k])
  {
    if AlwaysUpgraded(ss) {
      forall k | 0 <= k < |moves| ensures StaleSwapUpgrades(ss[k], moves[k]) {
        assert MoveAt(ss, p, moves, k) && Upgraded(ss[k].installed, ss[k + 1].installed);
      }
    }
    if forall k :: 0 <= k < |moves| ==> StaleSwapUpgrades(ss[k], moves[k]) {
      forall j, k | 0 <= j <= k < |ss| ensures Upgraded(ss[j].installed, ss[k].installed) {
        UpgradedUpTo(ss, p, moves, j, k);
      }
    }
  }

  /** In particular: when every process that swaps still runs what is installed, versions only ever increase. */
  lemma InstalledVersionsIncrease(ss: seq<State>, p: Platform, moves: seq<Move>, j: nat, k: nat)
    requires IsHistory(ss, p, moves) && AllLabelled(moves) && j <= k < |ss|
    requires forall m :: 0 <= m < |moves| ==> !StaleSwap(ss[m], moves[m])
    ensures ss[k].installed == ss[j].installed || Newer(ss[k].installed.version, ss[j].installed.version)
  {
    UpgradedUpTo(ss, p, moves, j, k);
  }

  // --- what is installed was offered ---------------------------------------------------------

  /** By some genuine manifest compared before move `k`, for this very platform. */
  ghost predicate Offered(moves: seq<Move>, k: nat, p: Platform, a: Artifact)
    requires k <= |moves|
  {
    && a.target == p.target && a.os == p.os && a.arch == p.arch
    && exists j :: 0 <= j < k && moves[j].LoadFor? && a in moves[j].manifest.artifacts
  }

  ghost predicate OfferedBuild(moves: seq<Move>, k: nat, p: Platform, b: Binary)
    requires k <= |moves|
  {
    exists a :: Offered(moves, k, p, a) && a.sha256 == Sha256(b)
  }

  ghost predicate FromOffer(moves: seq<Move>, k: nat, p: Platform, g: Stage)
    requires k <= |moves|
  {
    match g
    case Checked(m) => exists j :: 0 <= j < k && moves[j].LoadFor? && moves[j].manifest == m
    case Chosen(a) => Offered(moves, k, p, a)
    case Verified(b) => OfferedBuild(moves, k, p, b)
  }

  lemma OffersStay(moves: seq<Move>, k: nat, p: Platform, g: Stage, b: Binary)
    requires k < |moves|
    ensures FromOffer(moves, k, p, g) ==> FromOffer(moves, k + 1, p, g)
    ensures OfferedBuild(moves, k, p, b) ==> OfferedBuild(moves, k + 1, p, b)
  {
    if OfferedBuild(moves, k, p, b) {
      var a :| Offered(moves, k, p, a) && a.sha256 == Sha256(b);
      assert Offered(moves, k + 1, p, a);
    }
    if g.Verified? && FromOffer(moves, k, p, g) {
      var a :| Offered(moves, k, p, a) && a.sha256 == Sha256(g.binary);
      assert Offered(moves, k + 1, p, a);
    }
  }

  lemma ChoiceIsOffered(moves: seq<Move>, k: nat, p: Platform, m: Manifest, running: Binary)
    requires k <= |moves| && FromOffer(moves, k, p, Checked(m)) && Choice(m, p, running).Some?
    ensures Offered(moves, k, p, Choice(m, p, running).value)
  {
    LookupIsEntry(m.artifacts, p);
    LookupIsFor(m.artifacts, p);
  }

  lemma {:induction false} LookupIsFor(xs: seq<Artifact>, p: Platform)
    requires Lookup(xs, p).Some?
    ensures var a := Lookup(xs, p).value; a.target == p.target && a.os == p.os && a.arch == p.arch
  {
    if !For(xs[0], p) { LookupIsFor(xs[1..], p); }
  }

  ghost predicate AllOffered(s: State, moves: seq<Move>, k: nat, p: Platform)
    requires k <= |moves|
  {
    forall i :: i in s.attempts ==> FromOffer(moves, k, p, s.attempts[i].stage)
  }

  lemma MoveKeepsOffers(s: State, moves: seq<Move>, k: nat, p: Platform)
    requires k < |moves| && CanMove(s, moves[k]) && AllOffered(s, moves, k, p)
    ensures AllOffered(Moved(s, p, moves[k]), moves, k + 1, p)
  {
    var a, s' := moves[k], Moved(s, p, moves[k]);
    forall i | i in s'.attempts ensures FromOffer(moves, k + 1, p, s'.attempts[i].stage) {
      if i in s.attempts {
        OffersStay(moves, k, p, s.attempts[i].stage, s.installed);
        if a.Accept? && a.i == i {
          ChoiceIsOffered(moves, k + 1, p, s.attempts[i].stage.manifest, s.running[s.attempts[i].pid]);
        }
      }
    }
  }

  lemma {:induction false} HistoryIsOffered(ss: seq<State>, p: Platform, moves: seq<Move>, k: nat)
    requires IsHistory(ss, p, moves) && k < |ss|
    ensures AllOffered(ss[k], moves, k, p)
  {
    if k > 0 {
      HistoryIsOffered(ss, p, moves, k - 1);
      assert MoveAt(ss, p, moves, k - 1);
      MoveKeepsOffers(ss[k - 1], moves, k - 1, p);
    }
  }

  /**
   Over any history of processes and overlapping attempts: what is installed is what was there at the start,
   or the very build that a genuine manifest offered for this platform.
   */
  lemma {:induction false} InstalledIsOffered(ss: seq<State>, p: Platform, moves: seq<Move>, k: nat)
    requires IsHistory(ss, p, moves) && k < |ss|
    ensures ss[k].installed == ss[0].installed || OfferedBuild(moves, k, p, ss[k].installed)
  {
    if k > 0 {
      InstalledIsOffered(ss, p, moves, k - 1);
      assert MoveAt(ss, p, moves, k - 1);
      HistoryIsOffered(ss, p, moves, k - 1);
      OffersStay(moves, k - 1, p, Verified(ss[k].installed), ss[k].installed);
      if moves[k - 1].Swap? { assert FromOffer(moves, k - 1, p, ss[k - 1].attempts[moves[k - 1].i].stage); }
    }
  }

  // --- one attempt, uninterrupted ------------------------------------------------------------

  /** What the outside does to one attempt: a download that fails is None, and a swap can fail. */
  datatype Luck = Luck(response: Response, disk: Disk, download: Option<Binary>, swaps: bool)

  /** What an attempt by a process leaves of the installed binary and the stored seq. */
  function Applied(installed: Binary, stored: int, running: Binary, p: Platform, t: Luck): (Binary, int) {
    if !Accepts(stored, t.response, t.disk) then (installed, stored)
    else
      var choice := Choice(t.response.manifest, p, running);
      (if choice.Some? && t.download.Some? && choice.value.sha256 == Sha256(t.download.value) && t.swaps
       then t.download.value else installed, t.response.manifest.seqNo)
  }

  /** One attempt leaves the binary alone or installs one newer than its process runs, under a newer seq. */
  lemma AttemptOnlyUpgrades(installed: Binary, stored: int, running: Binary, p: Platform, t: Luck)
    requires t.response.Served? && t.response.genuine ==> WellLabelled(t.response.manifest)
    ensures var (b, n) := Applied(installed, stored, running, p, t);
      && n >= stored
      && (b != installed ==> n > stored && Newer(b.version, running.version))
      && (running == installed ==> Upgraded(installed, b))
  {
    if Accepts(stored, t.response, t.disk) && Choice(t.response.manifest, p, running).Some? {
      ChoiceIsLabelled(t.response.manifest, p, running);
    }
  }

  /** From the choice on. */
  ghost function RunChosen(s: State, p: Platform, i: nat, t: Luck): State
    requires i in s.attempts && s.attempts[i].stage.Chosen? && s.attempts[i].pid in s.running
  {
    if t.download == None then Moved(s, p, GiveUp(i))
    else
      var fetched := Moved(s, p, Download(i, t.download.value));
      if i !in fetched.attempts then fetched else Moved(fetched, p, if t.swaps then Swap(i) else GiveUp(i))
  }

  lemma ChosenComposes(s: State, p: Platform, i: nat, t: Luck)
    requires i in s.attempts && s.attempts[i].stage.Chosen? && s.attempts[i].pid in s.running
    ensures var r, a := RunChosen(s, p, i, t), s.attempts[i].stage.artifact;
      r == s.(attempts := s.attempts - {i},
              installed := if t.download.Some? && a.sha256 == Sha256(t.download.value) && t.swaps
                           then t.download.value else s.installed)
  {
    if t.download.Some? {
      var verified := Attempt(s.attempts[i].pid, Verified(t.download.value));
      assert s.attempts[i := verified] - {i} == s.attempts - {i};
    }
  }

  ghost function RunAttempt(s: State, p: Platform, i: nat, pid: nat, t: Luck): State
    requires pid in s.running && i !in s.attempts
  {
    if !(t.response.Served? && t.response.genuine && t.disk.readable) then s
    else
      var loaded := Moved(s, p, LoadFor(i, pid, t.response.manifest));
      if i !in loaded.attempts then loaded
      else if !t.disk.writable then Moved(loaded, p, GiveUp(i))
      else
        var accepted := Moved(loaded, p, Accept(i));
        if i !in accepted.attempts then accepted else RunChosen(accepted, p, i, t)
  }

  lemma LoadAndAcceptCompose(s: State, p: Platform, i: nat, pid: nat, m: Manifest)
    requires pid in s.running && i !in s.attempts && m.seqNo > s.stored
    ensures var loaded := Moved(s, p, LoadFor(i, pid, m));
      var choice := Choice(m, p, s.running[pid]);
      && CanMove(loaded, Accept(i)) && Moved(loaded, p, GiveUp(i)) == s
      && Moved(loaded, p, Accept(i)) == s.(stored := m.seqNo,
           attempts := if choice.Some? then s.attempts[i := Attempt(pid, Chosen(choice.value))] else s.attempts)
  {
    assert s.attempts[i := Attempt(pid, Checked(m))] - {i} == s.attempts;
  }

  /** Uninterrupted, the moves of an attempt leave what one call of applySelfUpdate does. */
  lemma AttemptComposes(s: State, p: Platform, i: nat, pid: nat, t: Luck)
    requires pid in s.running && i !in s.attempts
    ensures var r := RunAttempt(s, p, i, pid, t);
      && (r.installed, r.stored) == Applied(s.installed, s.stored, s.running[pid], p, t)
      && r.attempts == s.attempts && r.running == s.running
  {
    if t.response.Served? && t.response.manifest.seqNo > s.stored {
      var m := t.response.manifest;
      LoadAndAcceptCompose(s, p, i, pid, m);
      var accepted := Moved(Moved(s, p, LoadFor(i, pid, m)), p, Accept(i));
      if i in accepted.attempts {
        ChosenComposes(accepted, p, i, t);
        assert accepted.attempts - {i} == s.attempts;
      }
    }
  }

  // --- an earlier binary can come back -----------------------------------------------------------

  const PLATFORM := Platform("lanmsg-cli", "linux", "amd64")
  const ONE := Binary("1", "x")
  const TWO := Binary("2", "y")
  const THREE := Binary("3", "z")

  function Entry(b: Binary): Artifact {
    Artifact(PLATFORM.target, PLATFORM.os, PLATFORM.arch, b.version, "", Sha256(b), 0)
  }

  function Offering(n: int, b: Binary): Manifest { Manifest(n, [Entry(b)]) }

  lemma DigitsCompare()
    ensures Newer("3", "1") && Newer("2", "1") && Newer("3", "2")
  {
    WrittenReadsBack(1, 0, 0);
    WrittenReadsBack(2, 0, 0);
    WrittenReadsBack(3, 0, 0);
    assert Render(1) == "1" && Render(2) == "2" && Render(3) == "3";
  }

  function At(b: Binary, n: int, attempts: map<nat, Attempt>): State { State(b, n, map[0 := ONE], attempts) }

  /** The moves of one attempt by process 0 that goes through. */
  function Through(n: int, b: Binary): seq<Move> { [LoadFor(0, 0, Offering(n, b)), Accept(0), Download(0, b), Swap(0)] }

  /** And the states after them. */
  function Visits(n: int, b: Binary, was: Binary): seq<State> {
    [At(was, n - 1, map[0 := Attempt(0, Checked(Offering(n, b)))]), At(was, n, map[0 := Attempt(0, Chosen(Entry(b)))]),
     At(was, n, map[0 := Attempt(0, Verified(b))]), At(b, n, map[])]
  }

  lemma GoesThrough(n: int, b: Binary, was: Binary, j: nat)
    requires Newer(b.version, ONE.version) && j < 4
    ensures var s := ([At(was, n - 1, map[])] + Visits(n, b, was))[j];
      CanMove(s, Through(n, b)[j]) && Moved(s, PLATFORM, Through(n, b)[j]) == Visits(n, b, was)[j]
  {
    assert Choice(Offering(n, b), PLATFORM, ONE) == Some(Entry(b));
    assert map[0 := Attempt(0, Verified(b))] - {0} == map[];
  }

  const HISTORY := [State(ONE, 0, map[], map[]), At(ONE, 0, map[])] + Visits(1, THREE, ONE) + Visits(2, TWO, THREE)
  const MOVES := [Start(0)] + Through(1, THREE) + Through(2, TWO)

  lemma FirstGoes(k: nat)
    requires 1 <= k < 5
    ensures MoveAt(HISTORY, PLATFORM, MOVES, k)
  {
    DigitsCompare();
    GoesThrough(1, THREE, ONE, k - 1);
    assert MOVES[k] == Through(1, THREE)[k - 1] && HISTORY[k + 1] == Visits(1, THREE, ONE)[k - 1];
    assert HISTORY[k] == ([At(ONE, 0, map[])] + Visits(1, THREE, ONE))[k - 1];
  }

  lemma SecondGoes(k: nat)
    requires 5 <= k < 9
    ensures MoveAt(HISTORY, PLATFORM, MOVES, k)
  {
    DigitsCompare();
    GoesThrough(2, TWO, THREE, k - 5);
    assert MOVES[k] == Through(2, TWO)[k - 5] && HISTORY[k + 1] == Visits(2, TWO, THREE)[k - 5];
    assert HISTORY[k] == ([At(THREE, 1, map[])] + Visits(2, TWO, THREE))[k - 5];
  }

  /**
   The process that swapped 3 in could not replace itself, and runs 1 on: its next attempt, under a newer
   seq, installs 2 over 3.
   */
  lemma UnfinishedSwapCanDowngrade()
    ensures IsHistory(HISTORY, PLATFORM, MOVES) && AllLabelled(MOVES)
    ensures MOVES == [Start(0)] + Through(1, THREE) + Through(2, TWO)
    ensures HISTORY[5].installed == THREE && HISTORY[9].installed == TWO && Newer(THREE.version, TWO.version)
  {
    DigitsCompare();
    forall k | 0 <= k < |MOVES| ensures MoveAt(HISTORY, PLATFORM, MOVES, k) {
      if k == 0 {
        assert Of(HISTORY[0].attempts, 0) == {};
      } else if k < 5 {
        FirstGoes(k);
      } else {
        SecondGoes(k);
      }
    }
  }

  lemma {:induction false} FirstIsLookup(xs: seq<Artifact>, p: Platform)
    ensures Lookup(xs, p).Some? <==> exists i :: FirstFor(xs, i, p)
    ensures forall i :: FirstFor(xs, i, p) ==> Lookup(xs, p) == Some(xs[i])
  {
    if xs != [] {
      FirstIsLookup(xs[1..], p);
      if For(xs[0], p) {
        assert FirstFor(xs, 0, p);
      } else {
        forall i ensures FirstFor(xs, i, p) <==> FirstFor(xs[1..], i - 1, p) {
          if 0 < i < |xs| {
            assert xs[1..][i - 1] == xs[i];
            if FirstFor(xs, i, p) {
              forall j | 0 <= j < i - 1 ensures !For(xs[1..][j], p) { assert xs[1..][j] == xs[j + 1]; }
            }
            if FirstFor(xs[1..], i - 1, p) {
              forall j | 0 <= j < i ensures !For(xs[j], p) { assert j > 0 ==> xs[1..][j - 1] == xs[j]; }
            }
          }
        }
        if Lookup(xs[1..], p).Some? {
          var i :| FirstFor(xs[1..], i, p);
          assert FirstFor(xs, i + 1, p);
        }
      }
    }
  }

  // --- the client ----------------------------------------------------------------------------------

  class Client {
    const fetcher: Fetcher
    const platform: Platform
    const running: Binary
    var installed: Binary

    /** A process that has just started runs what is installed. */
    constructor (platform: Platform, installed: Binary)
      ensures fresh(fetcher) && fetcher.Valid() && fetcher.LastSeq() == 0
      ensures this.platform == platform && this.installed == installed && this.running == installed
    {
      this.platform, this.installed, this.running := platform, installed, installed;
      fetcher := new Fetcher();
    }

    method CheckSelf(a: Artifact) returns (r: bool)
      ensures r == Newer(a.version, running.version)
    {
      var c := Compare(a.version, running.version);
      r := c > 0;
    }

    /** `fetched` is what the download yields; it is kept only if its digest is the manifest's. */
    method DownloadAndVerify(a: Artifact, fetched: Option<Binary>) returns (b: Option<Binary>)
      ensures b.Some? <==> fetched.Some? && a.sha256 == Sha256(fetched.value)
      ensures b.Some? ==> b == fetched
    {
      if fetched == None {
        return None;
      }
      var got := Sha256(fetched.value);
      if got != a.sha256 {
        return None;
      }
      b := fetched;
    }

    /** The first entry for this platform of an accepted manifest is newer than this process, and its build arrives. */
    ghost predicate Installs(t: Luck) reads this, fetcher {
      && Accepts(fetcher.LastSeq(), t.response, t.disk) && t.download.Some? && t.swaps
      && exists i :: FirstFor(t.response.manifest.artifacts, i, platform)
           && Newer(t.response.manifest.artifacts[i].version, running.version)
           && t.response.manifest.artifacts[i].sha256 == Sha256(t.download.value)
    }

    lemma InstallsMeaning(t: Luck)
      requires t.response.Served?
      ensures Installs(t) <==>
        && Accepts(fetcher.LastSeq(), t.response, t.disk) && t.download.Some? && t.swaps
        && var choice := Choice(t.response.manifest, platform, running);
           choice.Some? && choice.value.sha256 == Sha256(t.download.value)
    {
      FirstIsLookup(t.response.manifest.artifacts, platform);
    }

    method ApplySelfUpdate(t: Luck)
      requires fetcher.Valid()
      modifies this, fetcher
      ensures fetcher.Valid()
      ensures (installed, fetcher.LastSeq()) == Applied(old(installed), old(fetcher.LastSeq()), running, platform, t)
      ensures installed == if old(Installs(t)) then t.download.value else old(installed)
    {
      if t.response.Served? { InstallsMeaning(t); }
      var m := fetcher.FetchManifest(t.response, t.disk);
      if m == None {
        return;
      }
      var art := ArtifactFor(m.value, platform.target, platform.os, platform.arch);
      if art == None {
        return;
      }
      var newer := CheckSelf(art.value);
      if !newer {
        return;
      }
      var b := DownloadAndVerify(art.value, t.download);
      if b == None {
        return;
      }
      if t.swaps {
        installed := b.value;
      }
    }
  }
}
