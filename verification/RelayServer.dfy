/** The relay's handlers for enrollment, approval and the registry, over its live state. */
module RelayServer {
  import opened Wire
  import opened Enrollment
  import opened EnrollmentSteps
  import opened Registry

  /** What a handler sends back on the connection it serves. */
  datatype Reply = Welcome | AwaitApproval | BadRequest | NotFound | Forbidden | NotReady | SendFailed | Done

  class Conn {
    var deviceId: Option<Ident>
    var signPub: Key
    var admin: bool
    var ready: bool
    var closed: bool

    constructor ()
      ensures View() == NEW_SESSION && !closed
    {
      deviceId, signPub, admin, ready, closed := None, 0, false, false, false;
    }

    /** The connection's identity, as the machine's session at rest. */
    ghost function View(): Session reads this {
      Session(deviceId, signPub, admin, ready, Greeted, NoJob)
    }

    method Close()
      modifies this`closed
      ensures closed
    {
      closed := true;
    }
  }

  class Server {
    const approval: bool
    var devices: Directory
    var admins: set<Ident>
    var conns: map<Ident, Conn>
    ghost var history: seq<Event<Ident, Conn>>

    /** The registry is what its history says, and holds each connection under its own device's id. */
    ghost predicate Valid() reads this, conns.Values {
      && conns == Replay(history).entries
      && forall id :: id in conns ==> conns[id].deviceId == Some(id)
    }

    constructor (approval: bool, admins: set<Ident>)
      ensures Valid() && fresh(this) && this.approval == approval && this.admins == admins
      ensures devices == map[] && conns == map[] && history == []
    {
      this.approval, this.admins := approval, admins;
      devices, conns, history := map[], map[], [];
    }

    // --- store -----------------------------------------------------------------------

    method UpsertDevice(e: Entry)
      modifies this`devices
      ensures devices == Upserted(old(devices), e)
      ensures var id := Of(e.signPub);
        && id in devices && devices - {id} == old(devices) - {id}
        && devices[id].(standing := e.standing, admin := e.admin) == e
        && if id in old(devices) then devices[id].standing == old(devices)[id].standing && devices[id].admin == old(devices)[id].admin
           else devices[id] == e
    {
      var id := Of(e.signPub);
      if id in devices {
        var was := devices[id];
        devices := devices[id := Entry(e.name, e.signPub, e.boxPub, was.standing, was.admin)];
      } else {
        devices := devices[id := e];
      }
    }

    method SetDeviceState(id: Ident, s: Standing) returns (found: bool)
      modifies this`devices
      ensures found == (id in old(devices)) && devices == WithStanding(old(devices), id, s)
      ensures devices.Keys == old(devices).Keys && devices - {id} == old(devices) - {id} && Extends(old(devices), devices)
      ensures found ==> devices[id].standing == s
    {
      found := id in devices;
      if found {
        devices := devices[id := devices[id].(standing := s)];
      }
    }

    // --- enrollment --------------------------------------------------------------------

    method MarkConnReady(c: Conn, id: Ident, e: Entry)
      requires c.deviceId == None || c.deviceId == Some(id)
      requires Valid()
      modifies c
      ensures c.View() == MarkReady(old(c.View()), admins, id, e) && c.closed == old(c.closed)
      ensures c.ready && c.deviceId == Some(id) && (c.admin <==> id in admins || e.admin)
      ensures Valid()
    {
      c.deviceId := Some(id);
      c.signPub := e.signPub;
      c.admin := id in admins || e.admin;
      c.ready := true;
    }

    /** The connection has taken a device's identity; it is ready or waits. */
    ghost predicate Carries(c: Conn, id: Ident, key: Key, ready: bool) reads c {
      c.deviceId == Some(id) && c.signPub == key && c.ready == ready
    }

    method ResumeDevice(c: Conn, id: Ident) returns (reply: Reply)
      requires Valid() && c.View() == NEW_SESSION
      modifies c
      ensures Valid() && c.closed == old(c.closed)
      ensures reply == if id !in devices then NotFound
                       else match devices[id].standing
                            case Denied => Forbidden
                            case Pending => AwaitApproval
                            case Active => Welcome
      ensures c.View() == Resumed(devices, admins, id)
      ensures reply == Welcome ==> Carries(c, id, devices[id].signPub, true) && c.admin == (id in admins || devices[id].admin)
      ensures reply == AwaitApproval ==> Carries(c, id, devices[id].signPub, false) && !c.admin
      ensures reply in {NotFound, Forbidden} ==> c.deviceId == None && !c.ready && !c.admin
    {
      if id !in devices {
        return NotFound;
      }
      var e := devices[id];
      match e.standing
      case Denied => reply := Forbidden;
      case Pending =>
        c.deviceId := Some(id);
        c.signPub := e.signPub;
        reply := AwaitApproval;
      case Active =>
        MarkConnReady(c, id, e);
        reply := Welcome;
    }

    /**
     The request's name and keys are in the row of the id of its signing key, and no other row has changed. A
     new row is an admin's if it is the first, and pending if approval is required of it; one that was there
     keeps its standing and admin flag.
     */
    ghost predicate RowFor(q: Request, was: Directory) reads this {
      && q.signPub.Some? && q.boxPub.Some?
      && var id := Of(q.signPub.value);
      && id in devices && devices - {id} == was - {id}
      && devices[id].name == q.name && devices[id].signPub == q.signPub.value && devices[id].boxPub == q.boxPub.value
      && if id in was then devices[id].standing == was[id].standing && devices[id].admin == was[id].admin
         else devices[id].admin == (was == map[]) && devices[id].standing == if approval && was != map[] then Pending else Active
    }

    /** `sent` tells whether the enroll result could be written. */
    method EnrollDevice(c: Conn, q: Request, sent: bool) returns (reply: Reply)
      requires Valid() && c.View() == NEW_SESSION
      modifies this`devices, this`admins, c
      ensures Valid() && c.closed == old(c.closed)
      ensures reply == BadRequest <==> q.name == "" || |q.name| > 64 || q.signPub == None || q.boxPub == None
      ensures reply == BadRequest ==> devices == old(devices) && admins == old(admins) && c.View() == NEW_SESSION
      ensures Effect(devices, admins, c.View()) == Enrolled(old(devices), old(admins), approval, q, sent)
      ensures Acceptable(q) ==> reply == if !sent then SendFailed else if c.ready then Welcome else AwaitApproval
      ensures reply != BadRequest ==> RowFor(q, old(devices)) && admins == if old(devices) == map[]
        then old(admins) + {Of(q.signPub.value)} else old(admins)
      ensures reply != BadRequest && sent ==>
        && Carries(c, Of(q.signPub.value), q.signPub.value, !approval || old(devices) == map[])
        && c.admin == (c.ready && (Of(q.signPub.value) in admins || old(devices) == map[]))
      ensures !sent ==> c.deviceId == None && !c.ready && !c.admin
      ensures reply == Welcome ==> c.deviceId.Some? && c.deviceId.value in devices
      ensures reply == Welcome && approval ==> devices[c.deviceId.value].standing == Active && devices[c.deviceId.value].admin
    {
      if |q.name| == 0 || |q.name| > MAX_DISPLAY_NAME_LEN || q.signPub == None || q.boxPub == None {
        return BadRequest;
      }
      var first := |devices| == 0;
      assert first <==> devices == map[];
      var state := Active;
      if approval && !first {
        state := Pending;
      }
      var e := Entry(q.name, q.signPub.value, q.boxPub.value, state, first);
      UpsertDevice(e);
      if first {
        admins := admins + {Of(e.signPub)};
      }
      if !sent {
        return SendFailed;
      }
      if state == Active {
        MarkConnReady(c, Of(e.signPub), e);
        reply := Welcome;
      } else {
        c.deviceId := Some(Of(e.signPub));
        c.signPub := e.signPub;
        reply := AwaitApproval;
      }
    }

    // --- approval --------------------------------------------------------------------------

    method Deny(target: Ident)
      requires Valid() && target in devices
      modifies this`devices, conns.Values
      ensures Valid() && conns == old(conns)
      ensures devices == old(devices)[target := old(devices)[target].(standing := Denied)]
      ensures forall id :: id in conns && id != target ==> unchanged(conns[id])
      ensures target in conns ==> conns[target].View() == old(conns[target].View()) && conns[target].closed
    {
      var _ := SetDeviceState(target, Denied);
      if target in conns {
        conns[target].Close();
      }
    }

    /** If the device is connected and waiting, its connection becomes ready. */
    method Approve(target: Ident)
      requires Valid() && target in devices
      modifies this`devices, conns.Values
      ensures Valid() && conns == old(conns)
      ensures devices == old(devices)[target := old(devices)[target].(standing := Active)]
      ensures forall id :: id in conns && id != target ==> unchanged(conns[id])
      ensures target in conns ==>
        && conns[target].closed == old(conns[target].closed)
        && conns[target].View() == Promoted(devices, admins, old(conns[target].View()), target)
    {
      var _ := SetDeviceState(target, Active);
      if target in conns && !conns[target].ready {
        MarkConnReady(conns[target], target, devices[target]);
      }
    }

    /** A ready admin's connection, and its own signature over this very decision. */
    ghost predicate Entitled(c: Conn, approve: bool, target: Ident, sig: Signature) reads c {
      c.ready && c.admin && sig == Signed(c.signPub, approve, target)
    }

    /**
     Only a pending target's standing changes, only on a ready admin's connection and with its signature. An
     approved device that is connected and waiting becomes ready; a denied one's connection is closed.
     */
    method HandleAdminAction(c: Conn, approve: bool, target: Ident, sig: Signature) returns (reply: Reply)
      requires Valid()
      modifies this`devices, conns.Values
      ensures Valid() && conns == old(conns)
      ensures devices == Decided(old(devices), old(c.View()), target, approve, sig)
      ensures reply == NotReady <==> !old(c.ready)
      ensures reply == Forbidden <==> old(c.ready) && (!old(c.admin) || sig != Signed(old(c.signPub), approve, target))
      ensures reply == NotFound <==> old(Entitled(c, approve, target, sig)) && target !in old(devices)
      ensures reply == BadRequest <==>
        old(Entitled(c, approve, target, sig)) && target in old(devices) && old(devices)[target].standing != Pending
      ensures reply == Done <==>
        old(Entitled(c, approve, target, sig)) && target in old(devices) && old(devices)[target].standing == Pending
      ensures reply in {NotReady, Forbidden, NotFound, BadRequest, Done}
      ensures reply != Done ==> devices == old(devices)
      ensures reply == Done ==>
        && target in devices && devices - {target} == old(devices) - {target}
        && devices[target] == old(devices)[target].(standing := if approve then Active else Denied)
      ensures forall id :: id in old(devices) && old(devices)[id].standing != Pending ==>
        id in devices && devices[id] == old(devices)[id]
      ensures forall id :: id in conns && id != target && conns[id] != c ==> unchanged(conns[id])
      ensures target in conns ==>
        var t := conns[target];
        if reply == Done && approve then
          && t.closed == old(t.closed) && t.ready
          && t.View() == Promoted(devices, admins, old(t.View()), target)
          && (!old(t.ready) ==> t.signPub == devices[target].signPub && t.admin == (target in admins || devices[target].admin))
        else t.View() == old(t.View()) && t.closed == (old(t.closed) || (reply == Done && !approve))
    {
      if !c.ready {
        return NotReady;
      }
      if !c.admin || sig != Signed(c.signPub, approve, target) {
        return Forbidden;
      }
      if target !in devices {
        return NotFound;
      }
      if devices[target].standing != Pending {
        return BadRequest;
      }
      if approve {
        Approve(target);
      } else {
        Deny(target);
      }
      reply := Done;
    }

    // --- registry ----------------------------------------------------------------------------

    /** A second login replaces the first and closes it. */
    method AddConn(c: Conn)
      requires Valid() && c.deviceId.Some?
      modifies this`conns, this`history, conns.Values
      ensures Valid() && c.deviceId == old(c.deviceId) && history == old(history) + [Added(c.deviceId.value, c)]
      ensures conns == old(conns)[c.deviceId.value := c]
      ensures c.deviceId.value in old(conns) ==> old(conns)[c.deviceId.value].closed
      ensures forall o :: o in old(conns).Values ==> o.View() == old(o.View())
      ensures forall o :: o in old(conns).Values && o.deviceId != c.deviceId ==> unchanged(o)
    {
      var id := c.deviceId.value;
      if id in conns {
        conns[id].Close();
      }
      history := history + [Added(id, c)];
      conns := conns[id := c];
    }

    /** Only the connection that is current for its device takes the entry with it. */
    method RemoveConn(c: Conn)
      requires Valid() && c.deviceId.Some?
      modifies this`conns, this`history
      ensures Valid() && history == old(history) + [Removed(c.deviceId.value, c)]
      ensures IsCurrent(old(history), c.deviceId.value, c) ==> conns == old(conns) - {c.deviceId.value}
      ensures !IsCurrent(old(history), c.deviceId.value, c) ==> conns == old(conns)
    {
      var id := c.deviceId.value;
      EntryIsCurrent(history, id, c);
      history := history + [Removed(id, c)];
      if id in conns && conns[id] == c {
        conns := conns - {id};
      }
    }

    method LookupConn(id: Ident) returns (c: Option<Conn>)
      requires Valid()
      ensures match c
        case Some(o) => IsCurrent(history, id, o)
        case None => forall o :: !IsCurrent(history, id, o)
    {
      if id in conns {
        c := Some(conns[id]);
        EntryIsCurrent(history, id, conns[id]);
      } else {
        c := None;
        forall o ensures !IsCurrent(history, id, o) {
          EntryIsCurrent(history, id, o);
        }
      }
    }

    /** Everyone ready but one, each once. */
    method ReadyConns(except: Option<Conn>) returns (out: seq<Conn>)
      requires Valid()
      ensures forall o :: o in out <==> o in conns.Values && o.ready && Some(o) != except
      ensures forall i, j :: 0 <= i < j < |out| ==> out[i] != out[j]
    {
      out := [];
      var rest := conns.Keys;
      while rest != {}
        invariant rest <= conns.Keys
        invariant forall o :: o in out <==>
          exists id :: id in conns && id !in rest && conns[id] == o && o.ready && Some(o) != except
        invariant forall i, j :: 0 <= i < j < |out| ==> out[i] != out[j]
        decreases rest
      {
        var id :| id in rest;
        rest := rest - {id};
        var o := conns[id];
        assert o.deviceId == Some(id);
        if Some(o) != except && o.ready {
          out := out + [o];
        }
      }
    }
  }
}
