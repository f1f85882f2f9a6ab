/**
 Who becomes ready: enrollment, resumption and admin approval, as single effects of the goroutines that
 run each connection. No lock spans "count then upsert" or "check then set", so the model splits them.
 */
module Enrollment {
  import opened Wire

  /** A directory id. The relay derives `Of` from the signing key; ids a peer merely names can be any text. */
  datatype Ident = Of(signPub: Key) | Text(text: string)

  datatype Standing = Pending | Active | Denied

  datatype Entry = Entry(name: string, signPub: Key, boxPub: Key, standing: Standing, admin: bool)

  type Directory = map<Ident, Entry>

  /** An enroll frame: the name is trimmed, one char per byte; a key that does not decode is None. */
  datatype Request = Request(name: string, signPub: Option<Key>, boxPub: Option<Key>)

  /** An ideal signature: it names its signer and what was signed. */
  datatype Signature = Forged | Signed(signer: Key, approve: bool, target: Ident)

  const MAX_DISPLAY_NAME_LEN := 64

  predicate Acceptable(q: Request) {
    0 < |q.name| <= MAX_DISPLAY_NAME_LEN && q.signPub.Some? && q.boxPub.Some?
  }

  function NewEntry(q: Request, approval: bool, first: bool): Entry
    requires Acceptable(q)
  {
    Entry(q.name, q.signPub.value, q.boxPub.value, if approval && !first then Pending else Active, first)
  }

  /** Insert, or on conflict update the name and keys only. */
  function Upserted(ds: Directory, e: Entry): Directory {
    var id := Of(e.signPub);
    ds[id := if id in ds then e.(standing := ds[id].standing, admin := ds[id].admin) else e]
  }

  function WithStanding(ds: Directory, id: Ident, s: Standing): Directory {
    if id in ds then ds[id := ds[id].(standing := s)] else ds
  }

  /** How far a connection's own goroutine has come. */
  datatype Stage =
    | Greeted                                  // authenticated
    | Counted(request: Request, first: bool)   // enrollDevice has counted the devices
    | Unlisted(entry: Entry)                   // first device, upserted but not yet in the admin list
    | Stored(entry: Entry)                     // upserted
    | Loaded(id: Ident, entry: Entry)          // resumeDevice has read the row
    | Welcomed                                 // the handshake returned nil
    | Serving                                  // registered and reading frames
    | Gone

  /** Where its handleAdminAction is. */
  datatype Job =
    | NoJob
    | Checked(target: Ident, approve: bool, sig: Signature)
    | Approved(target: Ident)
    | Reloaded(target: Ident, entry: Entry)

  datatype Session = Session(id: Option<Ident>, signPub: Key, admin: bool, ready: bool, stage: Stage, job: Job)

  const NEW_SESSION := Session(None, 0, false, false, Greeted, NoJob)

  datatype Relay = Relay(approval: bool, devices: Directory, admins: set<Ident>,
                         sessions: seq<Session>, registry: map<Ident, nat>)

  function MarkReady(s: Session, admins: set<Ident>, id: Ident, e: Entry): Session {
    s.(id := Some(id), signPub := e.signPub, admin := id in admins || e.admin, ready := true)
  }

  /** Not ready until approved. */
  function MarkWaiting(s: Session, id: Ident, e: Entry): Session {
    s.(id := Some(id), signPub := e.signPub)
  }

  datatype Step =
    | Accept
    | Count(i: nat, request: Request)
    | Upsert(i: nat)
    | Grant(i: nat)
    | Finish(i: nat, sent: bool)
    | Load(i: nat, id: Ident)
    | Resume(i: nat, sent: bool)
    | Register(i: nat)
    | Close(i: nat)
    | Check(i: nat, target: Ident, approve: bool, sig: Signature)
    | Set(i: nat)
    | Reload(i: nat)
    | Promote(i: nat)

  predicate CanStage(s: Session, a: Step) {
    match a
    case Accept => true
    case Count(_, _) => s.stage.Greeted?
    case Upsert(_) => s.stage.Counted? && Acceptable(s.stage.request)
    case Grant(_) => s.stage.Unlisted?
    case Finish(_, _) => s.stage.Stored?
    case Load(_, _) => s.stage.Greeted?
    case Resume(_, _) => s.stage.Loaded?
    case Register(_) => s.stage.Welcomed? && s.id.Some?
    case Close(_) => s.stage.Serving? && s.job.NoJob? && s.id.Some?
    case Check(_, _, _, _) => s.stage.Serving? && s.job.NoJob?
    case Set(_) => s.job.Checked?
    case Reload(_) => s.job.Approved?
    case Promote(_) => s.job.Reloaded?
  }

  predicate Can(r: Relay, a: Step) {
    a.Accept? || (a.i < |r.sessions| && CanStage(r.sessions[a.i], a)
                  && (a.Reload? ==> r.sessions[a.i].job.target in r.devices))
  }

  function NextDevices(r: Relay, a: Step): Directory
    requires Can(r, a)
  {
    match a
    case Upsert(i) => Upserted(r.devices, NewEntry(r.sessions[i].stage.request, r.approval, r.sessions[i].stage.first))
    case Set(i) => WithStanding(r.devices, r.sessions[i].job.target, if r.sessions[i].job.approve then Active else Denied)
    case _ => r.devices
  }

  function NextAdmins(r: Relay, a: Step): set<Ident>
    requires Can(r, a)
  {
    if a.Grant? then r.admins + {Of(r.sessions[a.i].stage.entry.signPub)} else r.admins
  }

  /** The guards of handleAdminAction, in its order. */
  predicate MayAct(ds: Directory, s: Session, target: Ident, approve: bool, sig: Signature) {
    s.ready && s.admin && sig == Signed(s.signPub, approve, target) && target in ds && ds[target].standing == Pending
  }

  function NextSession(r: Relay, a: Step): Session
    requires Can(r, a) && !a.Accept?
  {
    var s := r.sessions[a.i];
    match a
    case Accept => NEW_SESSION
    case Count(_, q) => s.(stage := if Acceptable(q) then Counted(q, |r.devices| == 0) else Gone)
    case Upsert(_) =>
      var e := NewEntry(s.stage.request, r.approval, s.stage.first);
      s.(stage := if s.stage.first then Unlisted(e) else Stored(e))
    case Grant(_) => s.(stage := Stored(s.stage.entry))
    case Finish(_, sent) =>
      var e := s.stage.entry;
      if !sent then s.(stage := Gone)
      else if e.standing == Active then MarkReady(s, r.admins, Of(e.signPub), e).(stage := Welcomed)
      else MarkWaiting(s, Of(e.signPub), e).(stage := Welcomed)
    case Load(_, id) =>
      s.(stage := if id in r.devices && r.devices[id].standing != Denied then Loaded(id, r.devices[id]) else Gone)
    case Resume(_, sent) =>
      var (id, e) := (s.stage.id, s.stage.entry);
      if e.standing == Active then MarkReady(s, r.admins, id, e).(stage := Welcomed)
      else MarkWaiting(s, id, e).(stage := if sent then Welcomed else Gone)
    case Register(_) => s.(stage := Serving)
    case Close(_) => s.(stage := Gone)
    case Check(_, t, approve, sig) => if MayAct(r.devices, s, t, approve, sig) then s.(job := Checked(t, approve, sig)) else s
    case Set(_) => s.(job := if s.job.approve then Approved(s.job.target) else NoJob)
    case Reload(_) => s.(job := Reloaded(s.job.target, r.devices[s.job.target]))
    case Promote(_) => s.(job := NoJob)
  }

  /** The connection Promote makes ready: the target's current one, if it is still waiting. */
  function Promotee(r: Relay, target: Ident): Option<nat> {
    if target in r.registry && r.registry[target] < |r.sessions| && !r.sessions[r.registry[target]].ready
    then Some(r.registry[target]) else None
  }

  function NextSessions(r: Relay, a: Step): seq<Session>
    requires Can(r, a)
  {
    if a.Accept? then r.sessions + [NEW_SESSION]
    else
      var ss := r.sessions[a.i := NextSession(r, a)];
      if a.Promote? then
        var job := r.sessions[a.i].job;
        var p := Promotee(r, job.target);
        if p.Some? then ss[p.value := MarkReady(ss[p.value], r.admins, job.target, job.entry)] else ss
      else ss
  }

  function NextRegistry(r: Relay, a: Step): map<Ident, nat>
    requires Can(r, a)
  {
    if a.Register? then r.registry[r.sessions[a.i].id.value := a.i]
    else if a.Close? then
      var id := r.sessions[a.i].id.value;
      if id in r.registry && r.registry[id] == a.i then r.registry - {id} else r.registry
    else r.registry
  }

  function After(r: Relay, a: Step): Relay
    requires Can(r, a)
  {
    Relay(r.approval, NextDevices(r, a), NextAdmins(r, a), NextSessions(r, a), NextRegistry(r, a))
  }

  /** An empty store; the operator may have listed admin ids in the configuration. */
  predicate Initial(r: Relay) {
    r.devices == map[] && r.sessions == [] && r.registry == map[]
  }

  ghost predicate StepAt(rs: seq<Relay>, steps: seq<Step>, k: nat)
    requires |rs| == |steps| + 1 && k < |steps|
  {
    Can(rs[k], steps[k]) && rs[k + 1] == After(rs[k], steps[k])
  }

  ghost predicate IsRun(rs: seq<Relay>, steps: seq<Step>) {
    && |rs| == |steps| + 1 && Initial(rs[0])
    && forall k :: 0 <= k < |steps| ==> StepAt(rs, steps, k)
  }

  // --- what every interleaving keeps ---------------------------------------------

  ghost predicate HasAdmin(ds: Directory) {
    exists id :: id in ds && ds[id].admin
  }

  /** Ids are derived, admin rows are active, and a directory with any device has an admin. */
  ghost predicate DirectoryOk(ds: Directory) {
    && (forall id :: id in ds ==> id == Of(ds[id].signPub))
    && (forall id :: id in ds && ds[id].admin ==> ds[id].standing == Active)
    && (ds != map[] ==> HasAdmin(ds))
  }

  ghost predicate StageOk(ds: Directory, admins: set<Ident>, g: Stage) {
    match g
    case Counted(q, first) => Acceptable(q) && (!first ==> ds != map[])
    case Unlisted(e) => e.admin && Of(e.signPub) in ds
    case Stored(e) => Of(e.signPub) in ds && (e.admin ==> Of(e.signPub) in admins)
    case Loaded(id, e) => id == Of(e.signPub) && id in ds && ds[id].admin == e.admin
    case _ => true
  }

  ghost predicate JobOk(ds: Directory, s: Session) {
    match s.job
    case NoJob => true
    case Checked(t, a, sig) => s.ready && s.admin && t in ds && !ds[t].admin && sig == Signed(s.signPub, a, t)
    case Approved(t) => t in ds && !ds[t].admin
    case Reloaded(t, e) => t == Of(e.signPub) && t in ds && ds[t].admin == e.admin
  }

  /** The handshake has not decided yet. */
  predicate Undecided(g: Stage) {
    g.Greeted? || g.Counted? || g.Unlisted? || g.Stored? || g.Loaded?
  }

  ghost predicate SelfOk(ds: Directory, admins: set<Ident>, s: Session) {
    && (Undecided(s.stage) ==> s.id == None && s.job == NoJob)
    && (s.id.Some? ==> s.id.value in ds && s.id.value == Of(s.signPub))
    && (s.ready ==> s.id.Some?)
    && (s.ready && s.admin ==> s.id.value in admins || ds[s.id.value].admin)
  }

  ghost predicate SessionOk(ds: Directory, admins: set<Ident>, s: Session) {
    SelfOk(ds, admins, s) && StageOk(ds, admins, s.stage) && JobOk(ds, s)
  }

  ghost predicate RegistryOk(ss: seq<Session>, reg: map<Ident, nat>) {
    forall id :: id in reg ==> reg[id] < |ss| && ss[reg[id]].id == Some(id)
  }

  ghost predicate Inv(r: Relay) {
    && DirectoryOk(r.devices)
    && RegistryOk(r.sessions, r.registry)
    && forall i :: 0 <= i < |r.sessions| ==> SessionOk(r.devices, r.admins, r.sessions[i])
  }

  /** Rows stay, with their key and admin flag. */
  ghost predicate Extends(ds: Directory, ds': Directory) {
    forall id :: id in ds ==> id in ds' && ds'[id].signPub == ds[id].signPub && ds'[id].admin == ds[id].admin
  }

  lemma SessionStaysOk(ds: Directory, ds': Directory, admins: set<Ident>, admins': set<Ident>, s: Session)
    requires Extends(ds, ds') && admins <= admins' && SessionOk(ds, admins, s)
    ensures SessionOk(ds', admins', s)
  {
    if s.stage.Counted? && !s.stage.first {
      var id :| id in ds;
      assert id in ds';
    }
  }

  lemma DirectoryStaysOk(r: Relay, a: Step)
    requires Can(r, a) && Inv(r)
    ensures DirectoryOk(NextDevices(r, a)) && Extends(r.devices, NextDevices(r, a))
  {
    var ds, ds' := r.devices, NextDevices(r, a);
    if a.Upsert? {
      var s := r.sessions[a.i];
      assert SessionOk(ds, r.admins, s);
      var id := Of(s.stage.request.signPub.value);
      if HasAdmin(ds) {
        var adm :| adm in ds && ds[adm].admin;
        assert ds'[adm].admin;
      } else {
        assert id in ds' && ds'[id].admin;
      }
    } else if a.Set? {
      assert SessionOk(ds, r.admins, r.sessions[a.i]);
      if ds != map[] {
        var adm :| adm in ds && ds[adm].admin;
        assert ds'[adm].admin;
      }
    }
  }

  lemma ActorStaysOk(r: Relay, a: Step)
    requires Can(r, a) && Inv(r) && !a.Accept?
    ensures SessionOk(NextDevices(r, a), NextAdmins(r, a), NextSession(r, a))
  {
    DirectoryStaysOk(r, a);
    var s := r.sessions[a.i];
    assert SessionOk(r.devices, r.admins, s);
    SessionStaysOk(r.devices, NextDevices(r, a), r.admins, NextAdmins(r, a), s);
    if a.Count? && |r.devices| != 0 {
      assert r.devices != map[];
    }
  }

  lemma SessionsStayOk(r: Relay, a: Step)
    requires Can(r, a) && Inv(r)
    ensures forall i :: 0 <= i < |NextSessions(r, a)| ==>
      SessionOk(NextDevices(r, a), NextAdmins(r, a), NextSessions(r, a)[i])
  {
    DirectoryStaysOk(r, a);
    if !a.Accept? { ActorStaysOk(r, a); }
    forall i | 0 <= i < |NextSessions(r, a)|
      ensures SessionOk(NextDevices(r, a), NextAdmins(r, a), NextSessions(r, a)[i])
    {
      if i < |r.sessions| {
        assert SessionOk(r.devices, r.admins, r.sessions[i]);
        SessionStaysOk(r.devices, NextDevices(r, a), r.admins, NextAdmins(r, a), r.sessions[i]);
        if a.Promote? { assert SessionOk(r.devices, r.admins, r.sessions[a.i]); }
      }
    }
  }

  lemma RegistryStaysOk(r: Relay, a: Step)
    requires Can(r, a) && Inv(r)
    ensures RegistryOk(NextSessions(r, a), NextRegistry(r, a))
  {
    var ss' := NextSessions(r, a);
    forall id | id in NextRegistry(r, a)
      ensures NextRegistry(r, a)[id] < |ss'| && ss'[NextRegistry(r, a)[id]].id == Some(id)
    {
      if !(a.Register? && NextRegistry(r, a)[id] == a.i) {
        assert id in r.registry;
      }
    }
  }

  lemma StepKeeps(r: Relay, a: Step)
    requires Can(r, a) && Inv(r)
    ensures Inv(After(r, a)) && Extends(r.devices, After(r, a).devices) && r.admins <= After(r, a).admins
  {
    DirectoryStaysOk(r, a);
    SessionsStayOk(r, a);
    RegistryStaysOk(r, a);
  }

  lemma {:induction false} RunInv(rs: seq<Relay>, steps: seq<Step>, k: nat)
    requires IsRun(rs, steps) && k < |rs|
    ensures Inv(rs[k])
  {
    if k > 0 {
      RunInv(rs, steps, k - 1);
      assert StepAt(rs, steps, k - 1);
      StepKeeps(rs[k - 1], steps[k - 1]);
    }
  }
}
