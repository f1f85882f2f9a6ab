/**
 What whole enrollment and approval handlers do when nothing runs in between: the single effects of the
 enrollment machine compose into them.
 */
module EnrollmentSteps {
  import opened Wire
  import opened Enrollment
  import Registry

  /** A directory, an admin list, and one connection's identity; where its goroutine is does not matter. */
  datatype Effect = Effect(devices: Directory, admins: set<Ident>, session: Session)

  function AtRest(s: Session): Session { s.(stage := Greeted, job := NoJob) }

  /** What enrollDevice leaves of a store and a new connection. */
  function Enrolled(ds: Directory, admins: set<Ident>, approval: bool, q: Request, sent: bool): Effect {
    if !Acceptable(q) then Effect(ds, admins, NEW_SESSION)
    else
      var e := NewEntry(q, approval, ds == map[]);
      var admins' := if ds == map[] then admins + {Of(e.signPub)} else admins;
      Effect(Upserted(ds, e), admins',
              if !sent then NEW_SESSION
              else if e.standing == Active then MarkReady(NEW_SESSION, admins', Of(e.signPub), e)
              else MarkWaiting(NEW_SESSION, Of(e.signPub), e))
  }

  /** What resumeDevice leaves of a new connection. */
  function Resumed(ds: Directory, admins: set<Ident>, id: Ident): Session {
    if id !in ds then NEW_SESSION
    else
      match ds[id].standing
      case Denied => NEW_SESSION
      case Pending => MarkWaiting(NEW_SESSION, id, ds[id])
      case Active => MarkReady(NEW_SESSION, admins, id, ds[id])
  }

  /** What a decision by `actor` leaves of the directory. */
  function Decided(ds: Directory, actor: Session, target: Ident, approve: bool, sig: Signature): Directory {
    if MayAct(ds, actor, target, approve, sig) then WithStanding(ds, target, if approve then Active else Denied) else ds
  }

  /** And of the target's current connection, which `ds` is the directory after. */
  function Promoted(ds: Directory, admins: set<Ident>, t: Session, target: Ident): Session {
    if target in ds && !t.ready then MarkReady(t, admins, target, ds[target]) else t
  }

  // --- enrollDevice ----------------------------------------------------------------------

  ghost function RunEnroll(r: Relay, i: nat, q: Request, sent: bool): Relay
    requires i < |r.sessions| && r.sessions[i] == NEW_SESSION
  {
    var counted := After(r, Count(i, q));
    if !Acceptable(q) then counted
    else
      var stored := After(counted, Upsert(i));
      var listed := if stored.sessions[i].stage.Unlisted? then After(stored, Grant(i)) else stored;
      After(listed, Finish(i, sent))
  }

  lemma CountThenUpsert(r: Relay, i: nat, q: Request)
    requires i < |r.sessions| && r.sessions[i] == NEW_SESSION && Acceptable(q)
    ensures var e := NewEntry(q, r.approval, r.devices == map[]);
      var counted := After(r, Count(i, q));
      Can(counted, Upsert(i)) &&
      After(counted, Upsert(i)) == r.(devices := Upserted(r.devices, e), sessions := r.sessions[i := NEW_SESSION.(
        stage := if r.devices == map[] then Unlisted(e) else Stored(e))])
  {
    assert |r.devices| == 0 <==> r.devices == map[];
  }

  /** Uninterrupted, one enrollment's steps leave the store, the admin list and the connection that enrollDevice promises. */
  lemma EnrollComposes(r: Relay, i: nat, q: Request, sent: bool)
    requires i < |r.sessions| && r.sessions[i] == NEW_SESSION
    ensures var r' := RunEnroll(r, i, q, sent);
      && |r'.sessions| == |r.sessions| && r'.registry == r.registry
      && Effect(r'.devices, r'.admins, AtRest(r'.sessions[i])) == Enrolled(r.devices, r.admins, r.approval, q, sent)
      && forall j :: 0 <= j < |r.sessions| && j != i ==> r'.sessions[j] == r.sessions[j]
  {
    if Acceptable(q) { CountThenUpsert(r, i, q); }
  }

  // --- resumeDevice ------------------------------------------------------------------------

  ghost function RunResume(r: Relay, i: nat, id: Ident, sent: bool): Relay
    requires i < |r.sessions| && r.sessions[i] == NEW_SESSION
  {
    var loaded := After(r, Load(i, id));
    if loaded.sessions[i].stage.Loaded? then After(loaded, Resume(i, sent)) else loaded
  }

  /** Uninterrupted, one resumption's steps leave the connection that resumeDevice promises, and nothing else. */
  lemma ResumeComposes(r: Relay, i: nat, id: Ident, sent: bool)
    requires i < |r.sessions| && r.sessions[i] == NEW_SESSION
    ensures var r' := RunResume(r, i, id, sent);
      && |r'.sessions| == |r.sessions| && r'.registry == r.registry
      && r'.devices == r.devices && r'.admins == r.admins
      && AtRest(r'.sessions[i]) == Resumed(r.devices, r.admins, id)
      && forall j :: 0 <= j < |r.sessions| && j != i ==> r'.sessions[j] == r.sessions[j]
  {
  }

  // --- the registry -----------------------------------------------------------------------------

  /** The machine's registry steps are addConn and removeConn, so what `Registry` proves holds of them. */
  lemma RegistryComposes(r: Relay, i: nat, closed: set<nat>)
    requires i < |r.sessions| && r.sessions[i].id.Some?
    ensures var added := Registry.Apply(Registry.State(r.registry, closed), Registry.Added(r.sessions[i].id.value, i));
      Can(r, Register(i)) ==> NextRegistry(r, Register(i)) == added.entries
    ensures var removed := Registry.Apply(Registry.State(r.registry, closed), Registry.Removed(r.sessions[i].id.value, i));
      Can(r, Close(i)) ==> NextRegistry(r, Close(i)) == removed.entries
  {
  }

  // --- handleAdminAction -----------------------------------------------------------------------

  ghost function RunDecision(r: Relay, i: nat, target: Ident, approve: bool, sig: Signature): Relay
    requires i < |r.sessions| && r.sessions[i].stage.Serving? && r.sessions[i].job.NoJob?
  {
    var checked := After(r, Check(i, target, approve, sig));
    if checked.sessions[i].job.NoJob? then checked
    else
      var set' := After(checked, Set(i));
      if !approve || !Can(set', Reload(i)) then set'
      else After(After(set', Reload(i)), Promote(i))
  }

  /** The guards let exactly a ready admin's signed decision on a pending device through. */
  lemma CheckMeaning(r: Relay, i: nat, target: Ident, approve: bool, sig: Signature)
    requires i < |r.sessions| && r.sessions[i].stage.Serving? && r.sessions[i].job.NoJob?
    ensures var s := r.sessions[i];
      var pending := target in r.devices && r.devices[target].standing == Pending;
      After(r, Check(i, target, approve, sig)).sessions[i].job ==
        if s.ready && s.admin && sig == Signed(s.signPub, approve, target) && pending
        then Checked(target, approve, sig) else NoJob
    ensures After(r, Check(i, target, approve, sig)).devices == r.devices
  {
  }

  lemma CheckThenSet(r: Relay, i: nat, target: Ident, approve: bool, sig: Signature)
    requires i < |r.sessions| && r.sessions[i].stage.Serving? && r.sessions[i].job.NoJob?
    requires MayAct(r.devices, r.sessions[i], target, approve, sig)
    ensures var checked := After(r, Check(i, target, approve, sig));
      Can(checked, Set(i)) &&
      After(checked, Set(i)) == r.(devices := Decided(r.devices, r.sessions[i], target, approve, sig),
        sessions := r.sessions[i := r.sessions[i].(job := if approve then Approved(target) else NoJob)])
  {
  }

  lemma ReloadThenPromote(r: Relay, i: nat, s: Session, target: Ident)
    requires i < |r.sessions| && r.sessions[i] == s.(job := Approved(target)) && s.job == NoJob && s.ready && target in r.devices
    ensures var loaded := After(r, Reload(i));
      && Can(r, Reload(i)) && Can(loaded, Promote(i))
      && var r' := After(loaded, Promote(i));
      && r'.devices == r.devices && r'.admins == r.admins && r'.registry == r.registry && |r'.sessions| == |r.sessions|
      && r'.sessions[i] == s
      && forall j :: 0 <= j < |r.sessions| && j != i ==>
           r'.sessions[j] == if Promotee(r, target) == Some(j) then Promoted(r.devices, r.admins, r.sessions[j], target)
                             else r.sessions[j]
  {
  }

  /**
   Uninterrupted, one decision's steps leave the directory that handleAdminAction promises, and make the
   target's current connection ready if it was approved and waiting; no other connection changes.
   */
  lemma DecisionComposes(r: Relay, i: nat, target: Ident, approve: bool, sig: Signature)
    requires i < |r.sessions| && r.sessions[i].stage.Serving? && r.sessions[i].job.NoJob?
    ensures var r' := RunDecision(r, i, target, approve, sig);
      var acts := MayAct(r.devices, r.sessions[i], target, approve, sig);
      && |r'.sessions| == |r.sessions| && r'.admins == r.admins && r'.registry == r.registry
      && r'.devices == Decided(r.devices, r.sessions[i], target, approve, sig)
      && forall j :: 0 <= j < |r.sessions| ==>
           r'.sessions[j] == if acts && approve && Promotee(r, target) == Some(j)
                             then Promoted(r'.devices, r.admins, r.sessions[j], target) else r.sessions[j]
  {
    var s := r.sessions[i];
    if MayAct(r.devices, s, target, approve, sig) {
      CheckThenSet(r, i, target, approve, sig);
      if approve {
        var checked := After(r, Check(i, target, approve, sig));
        var decided := After(checked, Set(i));
        ReloadThenPromote(decided, i, s, target);
        assert Promotee(decided, target) == Promotee(r, target);
      }
    }
  }
}
