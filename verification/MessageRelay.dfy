/** The relay's message handlers, over its queue and the live connections. */
module MessageRelay {
  import opened Wire
  import opened OfflineQueue
  import Delivery
  import DeliverySteps

  datatype ErrorCode = NotReady | BadRequest | TooLarge | NotFound

  /** One connection, as the handlers of others see it. */
  class Link {
    const device: DeviceId
    var ready: bool
    var down: seq<Frame>

    constructor (device: DeviceId)
      ensures this.device == device && !ready && down == []
    {
      this.device, ready, down := device, false, [];
    }

    /** A send that fails drops the frame. */
    method TrySend(f: Frame, ok: bool)
      modifies this`down
      ensures down == if ok then old(down) + [f] else old(down)
    {
      if ok {
        down := down + [f];
      }
    }
  }

  /**
   `frames` are the queued messages whose sends succeed, each under its sender's id to the recipient `d`, in
   their order: all of them when no send fails.
   */
  ghost predicate PassedOn(l: seq<Entry>, d: DeviceId, oks: seq<bool>, frames: seq<Frame>)
    requires |l| <= |oks|
  {
    && |frames| == DeliverySteps.Trues(oks, |l|)
    && (forall k :: 0 <= k < |l| && oks[k] ==>
          && DeliverySteps.Trues(oks, k) < |frames|
          && frames[DeliverySteps.Trues(oks, k)] == Msg(l[k].msg.sender, d, l[k].msg.msgId, l[k].msg.box))
    && ((forall k :: 0 <= k < |oks| ==> oks[k]) ==>
          |frames| == |l| && forall k :: 0 <= k < |l| ==> frames[k] == Msg(l[k].msg.sender, d, l[k].msg.msgId, l[k].msg.box))
  }

  lemma DrainPasses(q: Table, d: DeviceId, oks: seq<bool>)
    requires |Entries(q.rows, d)| <= |oks|
    ensures PassedOn(Entries(q.rows, d), d, oks, DeliverySteps.Passed(Delivery.DrainFrames(q, d), oks))
  {
    var fs := Delivery.DrainFrames(q, d);
    DeliverySteps.PassedLength(fs, oks);
    forall k | 0 <= k < |fs| && oks[k]
      ensures DeliverySteps.Trues(oks, k) < DeliverySteps.Trues(oks, |fs|)
      ensures DeliverySteps.Passed(fs, oks)[DeliverySteps.Trues(oks, k)] == fs[k]
    {
      DeliverySteps.PassedAt(fs, oks, k);
    }
    if forall k :: 0 <= k < |oks| ==> oks[k] {
      DeliverySteps.AllPass(fs, oks);
    }
  }

  class Relay {
    const queue: QueueStore
    const cap: int
    var active: set<DeviceId>
    var links: map<DeviceId, Link>

    ghost predicate Valid() reads this, queue, links.Values {
      WellFormed(queue.Contents()) && forall d :: d in links ==> links[d].device == d
    }

    constructor (cap: int)
      ensures Valid() && fresh(queue) && queue.Contents() == EMPTY && links == map[] && this.cap == cap
    {
      this.cap := cap;
      queue := new QueueStore();
      active, links := {}, map[];
    }

    predicate Online(d: DeviceId) reads this, links.Values { d in links && links[d].ready }

    /** The connection's owner could write to it: its frames are what they were, and `extra`. */
    twostate predicate Gained(d: DeviceId, extra: seq<Frame>) reads this, links.Values
      requires links == old(links)
    {
      && (d in links ==> links[d].down == old(links[d].down) + extra)
      && forall e :: e in links && e != d ==> links[e].down == old(links[e].down)
    }

    /** `ok` tells whether a send to the recipient's connection succeeds; None is a missing nonce or ciphertext. */
    method HandleMsg(c: Link, to: DeviceId, id: MsgId, box: Option<Box>, oversize: bool, ok: bool, now: int)
      returns (error: Option<ErrorCode>)
      requires Valid()
      modifies queue, set d | d in links :: links[d]
      ensures Valid() && links == old(links)
      ensures error == Some(NotReady) <==> !c.ready
      ensures error == Some(BadRequest) <==> c.ready && (to == "" || id == "" || box == None)
      ensures error == Some(TooLarge) <==> c.ready && to != "" && id != "" && box.Some? && oversize
      ensures error == Some(NotFound) <==> c.ready && to != "" && id != "" && box.Some? && !oversize && to !in active
      ensures forall d :: d in links ==> links[d].ready == old(links[d].ready)
      ensures error.Some? ==> queue.Contents() == old(queue.Contents()) && Gained(to, [])
      ensures error == None ==>
        && Gained(to, DeliverySteps.Push(Online(to), ok, Msg(c.device, to, id, box.value)))
        && queue.Contents() == DeliverySteps.QueueAfter(Online(to), old(queue.Contents()), c.device, to, id, box.value, cap, now)
      ensures error == None && to in links && links[to].ready ==>
        && queue.Contents() == old(queue.Contents())
        && links[to].down == old(links[to].down) + if ok then [Msg(c.device, to, id, box.value)] else []
      ensures error == None && !(to in links && links[to].ready) ==>
        exists x :: x in queue.rows && x.recipient == to && x.msg.sender == c.device && x.msg.msgId == id
    {
      if !c.ready {
        return Some(NotReady);
      }
      if to == "" || id == "" || box == None {
        return Some(BadRequest);
      }
      if oversize {
        return Some(TooLarge);
      }
      if to !in active {
        return Some(NotFound);
      }
      error := None;
      if to in links && links[to].ready {
        links[to].TrySend(Msg(c.device, to, id, box.value), ok);
        return;
      }
      queue.EnqueueMsg(to, QueuedMsg(c.device, id, box.value), cap, now);
      HoldsEnqueued(old(queue.Contents()), to, QueuedMsg(c.device, id, box.value), cap, now);
    }

    method HandleMsgAck(c: Link, id: MsgId, peer: DeviceId, ok: bool) returns (error: Option<ErrorCode>)
      requires Valid()
      modifies queue, set d | d in links :: links[d]
      ensures Valid() && links == old(links)
      ensures error == if !old(c.ready) then Some(NotReady) else if id == "" || peer == "" then Some(BadRequest) else None
      ensures forall d :: d in links ==> links[d].ready == old(links[d].ready)
      ensures error.Some? ==> queue.Contents() == old(queue.Contents()) && Gained(peer, [])
      ensures error == None ==>
        && queue.Contents() == AckQueued(old(queue.Contents()), c.device, peer, id)
        && Gained(peer, DeliverySteps.Push(Online(peer), ok, Ack(id, c.device)))
      ensures error == None ==> forall x :: x in queue.rows <==>
        x in old(queue.rows) && !(x.recipient == c.device && x.msg.sender == peer && x.msg.msgId == id)
      ensures error == None && peer in links ==>
        links[peer].down == old(links[peer].down) + if links[peer].ready && ok then [Ack(id, c.device)] else []
    {
      if !c.ready {
        return Some(NotReady);
      }
      if id == "" || peer == "" {
        return Some(BadRequest);
      }
      error := None;
      queue.Acknowledge(c.device, peer, id);
      if peer in links && links[peer].ready {
        links[peer].TrySend(Ack(id, c.device), ok);
      }
    }

    /** The drain that follows readiness: every queued message in order, and nothing leaves the queue. */
    method SendQueued(c: Link, oks: seq<bool>)
      requires Valid() && |Entries(queue.rows, c.device)| <= |oks|
      modifies c`down
      ensures Valid()
      ensures c.down == old(c.down) + DeliverySteps.Passed(Delivery.DrainFrames(queue.Contents(), c.device), oks)
      ensures PassedOn(Entries(queue.rows, c.device), c.device, oks, c.down[|old(c.down)|..])
    {
      var ms := queue.Drain(c.device);
      ghost var fs := Delivery.DrainFrames(queue.Contents(), c.device);
      var i := 0;
      while i < |ms|
        invariant 0 <= i <= |ms| && Valid()
        invariant c.down == old(c.down) + DeliverySteps.Passed(fs[..i], oks)
      {
        c.TrySend(Msg(ms[i].sender, c.device, ms[i].msgId, ms[i].box), oks[i]);
        assert fs[..i + 1][..i] == fs[..i];
        i := i + 1;
      }
      assert fs[..|ms|] == fs;
      DrainPasses(queue.Contents(), c.device, oks);
      assert c.down[|old(c.down)|..] == DeliverySteps.Passed(fs, oks);
    }
  }
}
