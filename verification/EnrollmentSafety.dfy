/**
 What the enrollment machine guarantees over whole runs: unconditionally, and as long as no check that
 a goroutine acts on has gone stale.
 */
module EnrollmentSafety {
  import opened Wire
  import opened Enrollment

  // --- for every interleaving ------------------------------------------------------

  /** Ids always match their keys, admins are always active, and there is one as soon as there is a device. */
  lemma DirectoryIsAdministered(rs: seq<Relay>, steps: seq<Step>, k: nat)
    requires IsRun(rs, steps) && k < |rs|
    ensures var ds := rs[k].devices;
      && (forall id :: id in ds ==> id == Of(ds[id].signPub))
      && (forall id :: id in ds && ds[id].admin ==> ds[id].standing == Active)
      && (ds != map[] ==> exists id :: id in ds && ds[id].admin && ds[id].standing == Active)
  {
    RunInv(rs, steps, k);
    var ds := rs[k].devices;
    if ds != map[] {
      var id :| id in ds && ds[id].admin;
      assert ds[id].standing == Active;
    }
  }

  /** No row disappears, and nothing ever changes its key or its admin flag, re-enrollment included. */
  lemma {:induction false} RowsPersist(rs: seq<Relay>, steps: seq<Step>, j: nat, k: nat)
    requires IsRun(rs, steps) && j <= k < |rs|
    ensures Extends(rs[j].devices, rs[k].devices) && rs[j].admins <= rs[k].admins
  {
    if j < k {
      RowsPersist(rs, steps, j, k - 1);
      RunInv(rs, steps, k - 1);
      assert StepAt(rs, steps, k - 1);
      StepKeeps(rs[k - 1], steps[k - 1]);
    }
  }

  /**
   A stored standing changes only where handleAdminAction sets it, on a ready connection whose device the
   configuration or the directory names as admin, and only with that device's signature on this decision.
   */
  lemma StandingsChangeByAdminsOnly(rs: seq<Relay>, steps: seq<Step>, k: nat, id: Ident)
    requires IsRun(rs, steps) && k < |steps| && id in rs[k].devices
    requires id in rs[k + 1].devices ==> rs[k + 1].devices[id].standing != rs[k].devices[id].standing
    ensures id in rs[k + 1].devices && steps[k].Set? && steps[k].i < |rs[k].sessions|
    ensures var s := rs[k].sessions[steps[k].i];
      && s.job.Checked? && s.job.target == id && s.ready && s.id.Some?
      && s.id.value in rs[k].devices
      && (s.id.value in rs[k].admins || rs[k].devices[s.id.value].admin)
      && s.job.sig == Signed(rs[k].devices[s.id.value].signPub, s.job.approve, id)
      && rs[k + 1].devices[id].standing == if s.job.approve then Active else Denied
  {
    RunInv(rs, steps, k);
    RowsPersist(rs, steps, k, k + 1);
    assert StepAt(rs, steps, k);
    assert SessionOk(rs[k].devices, rs[k].admins, rs[k].sessions[steps[k].i]);
  }

  // --- terminal standings --------------------------------------------------------------

  /** The target is still pending when its standing is set, or is being set to what it already is. */
  predicate StillPending(r: Relay, a: Step) {
    a.Set? && Can(r, a) ==>
      var job := r.sessions[a.i].job;
      job.target in r.devices ==>
        r.devices[job.target].standing in {Pending, if job.approve then Active else Denied}
  }

  /** A decision with no one between its check and its set still finds its target pending. */
  lemma UninterruptedFindsPending(r: Relay, i: nat, target: Ident, approve: bool, sig: Signature)
    requires i < |r.sessions| && r.sessions[i].stage.Serving? && r.sessions[i].job.NoJob?
    ensures var checked := After(r, Check(i, target, approve, sig));
      && StillPending(checked, Set(i))
      && (checked.sessions[i].job.Checked? ==> target in checked.devices && checked.devices[target].standing == Pending)
  {
  }

  ghost predicate Settled(ds: Directory, ds': Directory) {
    forall id :: id in ds && ds[id].standing != Pending ==> id in ds' && ds'[id].standing == ds[id].standing
  }

  ghost predicate AllSettled(rs: seq<Relay>) {
    forall j, k :: 0 <= j <= k < |rs| ==> Settled(rs[j].devices, rs[k].devices)
  }

  lemma StepSettles(rs: seq<Relay>, steps: seq<Step>, k: nat)
    requires IsRun(rs, steps) && k < |steps|
    ensures Settled(rs[k].devices, rs[k + 1].devices) <==> StillPending(rs[k], steps[k])
  {
    assert StepAt(rs, steps, k);
    RunInv(rs, steps, k);
    if steps[k].Set? {
      assert SessionOk(rs[k].devices, rs[k].admins, rs[k].sessions[steps[k].i]);
    }
  }

  lemma {:induction false} SettledUpTo(rs: seq<Relay>, steps: seq<Step>, j: nat, k: nat)
    requires IsRun(rs, steps) && j <= k < |rs|
    requires forall m :: 0 <= m < |steps| ==> StillPending(rs[m], steps[m])
    ensures Settled(rs[j].devices, rs[k].devices)
  {
    if j < k {
      SettledUpTo(rs, steps, j, k - 1);
      StepSettles(rs, steps, k - 1);
    }
  }

  /** Active and denied are terminal in a run exactly when every approval or denial still finds its target pending. */
  lemma TerminalIffStillPending(rs: seq<Relay>, steps: seq<Step>)
    requires IsRun(rs, steps)
    ensures AllSettled(rs) <==> forall k :: 0 <= k < |steps| ==> StillPending(rs[k], steps[k])
  {
    if AllSettled(rs) {
      forall k | 0 <= k < |steps| ensures StillPending(rs[k], steps[k]) {
        assert Settled(rs[k].devices, rs[k + 1].devices);
        StepSettles(rs, steps, k);
      }
    }
    if forall k :: 0 <= k < |steps| ==> StillPending(rs[k], steps[k]) {
      forall j, k | 0 <= j <= k < |rs| ensures Settled(rs[j].devices, rs[k].devices) {
        SettledUpTo(rs, steps, j, k);
      }
    }
  }

  // --- ready means active ----------------------------------------------------------------

  predicate IsActive(ds: Directory, id: Ident) {
    id in ds && ds[id].standing == Active
  }

  /** A device upserted as the first one is new to the directory, or active there. */
  predicate StillFirst(r: Relay, a: Step) {
    a.Upsert? && Can(r, a) && r.sessions[a.i].stage.first ==>
      var id := Of(r.sessions[a.i].stage.request.signPub.value);
      id in r.devices ==> IsActive(r.devices, id)
  }

  ghost predicate SafeStage(ds: Directory, g: Stage) {
    match g
    case Unlisted(e) => e.standing == Active ==> IsActive(ds, Of(e.signPub))
    case Stored(e) => e.standing == Active ==> IsActive(ds, Of(e.signPub))
    case Loaded(id, e) => e.standing == Active ==> IsActive(ds, id)
    case _ => true
  }

  ghost predicate SafeJob(approval: bool, ds: Directory, job: Job) {
    match job
    case NoJob => true
    case Checked(_, _, _) => approval
    case Approved(t) => IsActive(ds, t)
    case Reloaded(t, _) => IsActive(ds, t)
  }

  ghost predicate SafeSession(approval: bool, ds: Directory, s: Session) {
    && (s.ready ==> s.id.Some? && IsActive(ds, s.id.value))
    && SafeStage(ds, s.stage)
    && SafeJob(approval, ds, s.job)
  }

  ghost predicate Safe(r: Relay) {
    && (!r.approval ==> forall id :: id in r.devices ==> IsActive(r.devices, id))
    && forall i :: 0 <= i < |r.sessions| ==> SafeSession(r.approval, r.devices, r.sessions[i])
  }

  lemma ActorStaysSafe(r: Relay, a: Step)
    requires Can(r, a) && Inv(r) && Safe(r) && !a.Accept?
    requires StillFirst(r, a) && Settled(r.devices, NextDevices(r, a))
    ensures SafeSession(r.approval, NextDevices(r, a), NextSession(r, a))
  {
    var s := r.sessions[a.i];
    assert SafeSession(r.approval, r.devices, s);
    assert SessionOk(r.devices, r.admins, s);
  }

  lemma NothingToDecide(r: Relay, i: nat)
    requires Safe(r) && !r.approval && i < |r.sessions|
    ensures !r.sessions[i].job.Checked?
  {
    assert SafeSession(r.approval, r.devices, r.sessions[i]);
  }

  /** Without approval mode every device stays active. */
  lemma OpenStaysActive(r: Relay, a: Step)
    requires Can(r, a) && Inv(r) && Safe(r) && !r.approval
    ensures forall id :: id in NextDevices(r, a) ==> IsActive(NextDevices(r, a), id)
  {
    if !a.Accept? { NothingToDecide(r, a.i); }
    forall id | id in NextDevices(r, a) ensures IsActive(NextDevices(r, a), id) {
      if id in r.devices { assert IsActive(r.devices, id); }
    }
  }

  lemma UntouchedStaysSafe(approval: bool, ds: Directory, ds': Directory, s: Session)
    requires Settled(ds, ds') && SafeSession(approval, ds, s)
    ensures SafeSession(approval, ds', s)
  {
  }

  /** A session after a step: the actor's, one it promotes, or as it was. */
  lemma SessionAfter(r: Relay, a: Step, i: nat)
    requires Can(r, a) && i < |r.sessions| && !a.Accept? && i != a.i
    ensures NextSessions(r, a)[i] ==
      if a.Promote? && Promotee(r, r.sessions[a.i].job.target) == Some(i)
      then MarkReady(r.sessions[i], r.admins, r.sessions[a.i].job.target, r.sessions[a.i].job.entry)
      else r.sessions[i]
  {
  }

  lemma SessionStaysSafe(r: Relay, a: Step, i: nat)
    requires Can(r, a) && Inv(r) && Safe(r) && i < |r.sessions| && !a.Accept?
    requires StillFirst(r, a) && Settled(r.devices, NextDevices(r, a))
    ensures SafeSession(r.approval, NextDevices(r, a), NextSessions(r, a)[i])
  {
    if i == a.i {
      ActorStaysSafe(r, a);
      ActorIsNotPromoted(r, a);
    } else {
      SessionAfter(r, a, i);
      UntouchedStaysSafe(r.approval, r.devices, NextDevices(r, a), r.sessions[i]);
      if a.Promote? { assert SafeSession(r.approval, r.devices, r.sessions[a.i]); }
    }
  }

  lemma ActorIsNotPromoted(r: Relay, a: Step)
    requires Can(r, a) && Inv(r) && !a.Accept?
    ensures NextSessions(r, a)[a.i] == NextSession(r, a) || (a.Promote? && !r.sessions[a.i].ready)
  {
  }

  lemma StepStaysSafe(r: Relay, a: Step)
    requires Can(r, a) && Inv(r) && Safe(r)
    requires StillFirst(r, a) && Settled(r.devices, NextDevices(r, a))
    ensures Safe(After(r, a))
  {
    var r' := After(r, a);
    forall i | 0 <= i < |r'.sessions| ensures SafeSession(r.approval, r'.devices, r'.sessions[i]) {
      if !a.Accept? {
        SessionStaysSafe(r, a, i);
      } else if i < |r.sessions| {
        UntouchedStaysSafe(r.approval, r.devices, r'.devices, r.sessions[i]);
      }
    }
    if !r.approval { OpenStaysActive(r, a); }
  }

  lemma {:induction false} RunStaysSafe(rs: seq<Relay>, steps: seq<Step>, k: nat)
    requires IsRun(rs, steps) && k < |rs|
    requires forall m :: 0 <= m < |steps| ==> StillFirst(rs[m], steps[m]) && StillPending(rs[m], steps[m])
    ensures Safe(rs[k])
  {
    if k > 0 {
      RunStaysSafe(rs, steps, k - 1);
      RunInv(rs, steps, k - 1);
      StepSettles(rs, steps, k - 1);
      assert StepAt(rs, steps, k - 1);
      StepStaysSafe(rs[k - 1], steps[k - 1]);
    }
  }

  /**
   As long as no stale check is acted on, whatever the interleaving, every ready connection belongs to a
   device that the directory holds as active, under the id of the key on the connection.
   */
  lemma ReadyMeansActive(rs: seq<Relay>, steps: seq<Step>, k: nat, i: nat)
    requires IsRun(rs, steps) && k < |rs| && i < |rs[k].sessions| && rs[k].sessions[i].ready
    requires forall m :: 0 <= m < |steps| ==> StillFirst(rs[m], steps[m]) && StillPending(rs[m], steps[m])
    ensures var s := rs[k].sessions[i];
      s.id == Some(Of(s.signPub)) && IsActive(rs[k].devices, Of(s.signPub))
  {
    RunStaysSafe(rs, steps, k);
    RunInv(rs, steps, k);
    assert SafeSession(rs[k].approval, rs[k].devices, rs[k].sessions[i]);
    assert SessionOk(rs[k].devices, rs[k].admins, rs[k].sessions[i]);
  }

  // --- and both conditions are needed ------------------------------------------------------

  /** Some run ends in `r`, keeping the first condition if `firsts`, and the second if `pendings`. */
  ghost predicate Reached(r: Relay, firsts: bool, pendings: bool) {
    exists rs, steps :: Ends(rs, steps, r) && Meets(rs, steps, firsts, pendings)
  }

  ghost predicate Ends(rs: seq<Relay>, steps: seq<Step>, r: Relay) {
    IsRun(rs, steps) && rs[|steps|] == r
  }

  predicate MeetsAt(r: Relay, a: Step, firsts: bool, pendings: bool) {
    (firsts ==> StillFirst(r, a)) && (pendings ==> StillPending(r, a))
  }

  ghost predicate Meets(rs: seq<Relay>, steps: seq<Step>, firsts: bool, pendings: bool)
    requires |rs| == |steps| + 1
  {
    forall m :: 0 <= m < |steps| ==> MeetsAt(rs[m], steps[m], firsts, pendings)
  }

  lemma Extend(rs: seq<Relay>, steps: seq<Step>, r: Relay, a: Step)
    requires Ends(rs, steps, r) && Can(r, a)
    ensures Ends(rs + [After(r, a)], steps + [a], After(r, a))
  {
    var rs', steps' := rs + [After(r, a)], steps + [a];
    forall k | 0 <= k < |steps'| ensures StepAt(rs', steps', k) {
      if k < |steps| { assert StepAt(rs, steps, k); }
    }
  }

  lemma Take(r: Relay, firsts: bool, pendings: bool, a: Step) returns (r': Relay)
    requires Reached(r, firsts, pendings) && Can(r, a) && MeetsAt(r, a, firsts, pendings)
    ensures r' == After(r, a) && Reached(r', firsts, pendings)
  {
    r' := After(r, a);
    var rs, steps :| Ends(rs, steps, r) && Meets(rs, steps, firsts, pendings);
    Extend(rs, steps, r, a);
    assert Meets(rs + [r'], steps + [a], firsts, pendings);
  }

  const ADA := 1
  const EVE := 7
  const START := Relay(true, map[], {}, [], map[])

  function Ask(key: Key): Request { Request("n", Some(key), Some(key)) }
  function Row(key: Key, s: Standing, admin: bool): Entry { Entry("n", key, key, s, admin) }
  function At(g: Stage): Session { NEW_SESSION.(stage := g) }
  function Known(key: Key, ready: bool, g: Stage): Session { Session(Some(Of(key)), key, ready, ready, g, NoJob) }

  lemma Starts(firsts: bool, pendings: bool)
    ensures Reached(START, firsts, pendings)
  {
    assert Ends([START], [], START);
  }

  /** Two connections have both counted an empty store. */
  lemma BothCount() returns (r: Relay)
    ensures r == START.(sessions := [At(Counted(Ask(EVE), true)), At(Counted(Ask(ADA), true))])
    ensures Reached(r, false, true)
  {
    r := START;
    Starts(false, true);
    r := Take(r, false, true, Accept);
    r := Take(r, false, true, Count(0, Ask(EVE)));
    r := Take(r, false, true, Accept);
    r := Take(r, false, true, Count(1, Ask(ADA)));
  }

  /** Ada is in; Eve, enrolling over another connection too, is pending. */
  lemma EvePends() returns (r: Relay)
    ensures r.approval && r.admins == {} && |r.sessions| == 3 && r.sessions[0] == At(Counted(Ask(EVE), true))
    ensures r.devices == map[Of(ADA) := Row(ADA, Active, true), Of(EVE) := Row(EVE, Pending, false)]
    ensures Reached(r, false, true)
  {
    r := BothCount();
    r := Take(r, false, true, Upsert(1));
    r := Take(r, false, true, Accept);
    assert Of(ADA) in r.devices;
    r := Take(r, false, true, Count(2, Ask(EVE)));
    r := Take(r, false, true, Upsert(2));
  }

  /** A stale count alone makes a connection ready, and an admin, whose device the directory holds as pending. */
  lemma StaleCountMakesPendingReady() returns (r: Relay)
    ensures Reached(r, false, true) && |r.sessions| > 0
    ensures r.sessions[0].id == Some(Of(EVE)) && r.sessions[0].ready && r.sessions[0].admin
    ensures Of(EVE) in r.devices && r.devices[Of(EVE)].standing == Pending
  {
    r := EvePends();
    r := Take(r, false, true, Upsert(0));
    r := Take(r, false, true, Grant(0));
    r := Take(r, false, true, Finish(0, true));
  }

  const ADA_ROW := Row(ADA, Active, true)

  const ADAS := map[Of(ADA) := ADA_ROW]

  lemma AdaStores() returns (r: Relay)
    ensures r == Relay(true, ADAS, {}, [At(Unlisted(ADA_ROW))], map[]) && Reached(r, true, false)
  {
    r := START;
    Starts(true, false);
    r := Take(r, true, false, Accept);
    r := Take(r, true, false, Count(0, Ask(ADA)));
    r := Take(r, true, false, Upsert(0));
  }

  /** Ada is the admin and connected. */
  lemma AdaServes() returns (r: Relay)
    ensures r == Relay(true, ADAS, {Of(ADA)}, [Known(ADA, true, Serving)], map[Of(ADA) := 0])
    ensures Reached(r, true, false)
  {
    r := AdaStores();
    r := Take(r, true, false, Grant(0));
    r := Take(r, true, false, Finish(0, true));
    assert r.sessions == [Known(ADA, true, Welcomed)];
    r := Take(r, true, false, Register(0));
  }

  /** Ada connects a second time before the relay has let go of her first connection. */
  lemma AdaServesTwice() returns (r: Relay)
    ensures r.approval && r.devices == ADAS
    ensures r.sessions == [Known(ADA, true, Serving), Known(ADA, true, Serving)]
    ensures Reached(r, true, false)
  {
    r := AdaServes();
    r := Take(r, true, false, Accept);
    r := Take(r, true, false, Load(1, Of(ADA)));
    r := Take(r, true, false, Resume(1, true));
    r := Take(r, true, false, Register(1));
  }

  const APPROVE := Signed(ADA, true, Of(EVE))
  const DENY := Signed(ADA, false, Of(EVE))

  const EVES_ROW := Row(EVE, Pending, false)

  /** Eve has enrolled. */
  lemma EveStores() returns (r: Relay)
    ensures r.approval && r.devices == ADAS[Of(EVE) := EVES_ROW]
    ensures r.sessions == [Known(ADA, true, Serving), Known(ADA, true, Serving), At(Stored(EVES_ROW))]
    ensures Reached(r, true, false)
  {
    r := AdaServesTwice();
    r := Take(r, true, false, Accept);
    assert Of(ADA) in r.devices;
    r := Take(r, true, false, Count(2, Ask(EVE)));
    r := Take(r, true, false, Upsert(2));
  }

  /** Both of Ada's connections find Eve pending. */
  lemma BothCheck() returns (r: Relay)
    ensures r.approval && r.devices == ADAS[Of(EVE) := EVES_ROW]
    ensures |r.sessions| == 3 && r.sessions[0] == Known(ADA, true, Serving).(job := Checked(Of(EVE), true, APPROVE))
    ensures r.sessions[1] == Known(ADA, true, Serving).(job := Checked(Of(EVE), false, DENY))
    ensures Reached(r, true, false)
  {
    r := EveStores();
    r := Take(r, true, false, Check(0, Of(EVE), true, APPROVE));
    r := Take(r, true, false, Check(1, Of(EVE), false, DENY));
  }

  /** The approval goes through, and Eve comes back. */
  lemma EveIsApproved() returns (r: Relay)
    ensures |r.sessions| == 4 && r.devices == ADAS[Of(EVE) := Row(EVE, Active, false)]
    ensures r.sessions[1] == Known(ADA, true, Serving).(job := Checked(Of(EVE), false, DENY))
    ensures r.sessions[3] == At(Loaded(Of(EVE), Row(EVE, Active, false)))
    ensures Reached(r, true, false)
  {
    r := BothCheck();
    r := Take(r, true, false, Set(0));
    r := Take(r, true, false, Accept);
    r := Take(r, true, false, Load(3, Of(EVE)));
  }

  /** A denial acted on after an approval leaves a ready connection whose device the directory holds as denied. */
  lemma StaleDenialLeavesDeniedReady() returns (r: Relay)
    ensures Reached(r, true, false) && |r.sessions| > 3
    ensures r.sessions[3].id == Some(Of(EVE)) && r.sessions[3].ready
    ensures Of(EVE) in r.devices && r.devices[Of(EVE)].standing == Denied
  {
    r := EveIsApproved();
    r := Take(r, true, false, Set(1));
    r := Take(r, true, false, Resume(3, true));
  }
}
