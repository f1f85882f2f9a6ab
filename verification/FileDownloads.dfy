/** The client's downloads: transfer objects, the files they write and the names those get. */
module FileDownloads {
  import opened Wire
  import opened FileTransfer
  import opened FileReceiver

  class Inbound {
    const offer: Offer
    const part: Path
    const final: Path
    const fd: nat
    var hashed: seq<Byte>
    var next: int
    var done: nat

    ghost function View(): Transfer reads this { Transfer(offer, part, final, fd, hashed, next, done) }

    constructor (offer: Offer, part: Path, final: Path, fd: nat)
      ensures View() == Transfer(offer, part, final, fd, [], 0, 0)
    {
      this.offer, this.part, this.final, this.fd := offer, part, final, fd;
      hashed, next, done := [], 0, 0;
    }

    method Add(raw: seq<Byte>)
      modifies this
      ensures View() == old(View()).(hashed := old(hashed) + raw, next := old(next) + 1, done := old(done) + |raw|)
    {
      hashed := hashed + raw;
      next := next + 1;
      done := done + |raw|;
    }
  }

  lemma OfferAssembled(s: Disk, max: int, o: Offer, r: State)
    requires o.size <= max && r.log == s.log + [Started(o.tid)]
    requires var c := Create(s, PartPath(s, o));
      && r.dir == c.dir && r.disk == c.disk
      && r.transfers == s.transfers[o.tid := Transfer(o, PartPath(s, o), FinalPath(s, o), c.dir[PartPath(s, o)], [], 0, 0)]
    ensures r == HandleOffer(s, max, o)
  {
  }

  class Downloads {
    var transfers: map<Tid, Inbound>
    var dir: map<Path, nat>
    var disk: seq<seq<Byte>>
    ghost var log: seq<Note>

    ghost function Views(): map<Tid, Transfer> reads this, transfers.Values {
      map t | t in transfers :: transfers[t].View()
    }

    ghost function Model(): State reads this, transfers.Values { State(Views(), dir, disk, log) }

    ghost predicate TidsMatch() reads this, transfers.Values {
      forall t :: t in transfers ==> transfers[t].offer.tid == t
    }

    ghost predicate Valid() reads this, transfers.Values {
      Wf(Model()) && TidsMatch()
    }

    constructor ()
      ensures Valid() && Model() == BARE
    {
      transfers, dir, disk, log := map[], map[], [], [];
    }

    method CreateFile(path: Path) returns (fd: nat)
      requires Valid()
      modifies this`dir, this`disk
      ensures dir == Create(old(Model()), path).dir && disk == Create(old(Model()), path).disk
      ensures path in dir && dir[path] == fd < |disk| && |disk| >= old(|disk|)
    {
      if path in dir {
        fd := dir[path];
        disk := disk[fd := []];
      } else {
        fd := |disk|;
        disk := disk + [[]];
        dir := dir[path := fd];
      }
    }

    method Track(o: Offer, part: Path, final: Path, fd: nat)
      requires TidsMatch()
      modifies this`transfers
      ensures TidsMatch()
      ensures Views() == old(Views())[o.tid := Transfer(o, part, final, fd, [], 0, 0)]
    {
      var tr := new Inbound(o, part, final, fd);
      transfers := transfers[o.tid := tr];
      assert Views() == old(Views())[o.tid := tr.View()];
    }

    method Forget(tid: Tid)
      modifies this`transfers
      ensures transfers == old(transfers) - {tid}
      ensures Views() == old(Views()) - {tid}
    {
      transfers := transfers - {tid};
      assert Views() == old(Views()) - {tid};
    }

    /** Create the part file and follow the transfer. */
    method Begin(o: Offer, final: Path)
      requires Valid()
      modifies this
      ensures TidsMatch() && log == old(log) + [Started(o.tid)]
      ensures var c := Create(old(Model()), final + ".part"); dir == c.dir && disk == c.disk
      ensures Views() == old(Views())[o.tid := Transfer(o, final + ".part", final,
                                                        Create(old(Model()), final + ".part").dir[final + ".part"], [], 0, 0)]
    {
      var fd := CreateFile(final + ".part");
      assert Views() == old(Views());
      Track(o, final + ".part", final, fd);
      log := log + [Started(o.tid)];
    }

    /** An offer over the limit is declined; any other gets a free name and an empty part file beside it. */
    method HandleOfferFrame(max: int, o: Offer)
      requires Valid()
      modifies this
      ensures Model() == HandleOffer(old(Model()), max, o)
      ensures Valid()
    {
      if o.size > max {
        return;
      }
      ghost var s: Disk := Model();
      var final := UniquePath(o.path, dir.Keys);
      Begin(o, final);
      OfferAssembled(s, max, o, Model());
    }

    method AbortInbound(tr: Inbound)
      requires Valid() && Holds(tr)
      modifies this
      ensures Model() == Abort(old(Model()), tr.offer.tid)
      ensures Valid()
    {
      var tid := tr.offer.tid;
      Forget(tid);
      dir := dir - {tr.part};
      log := log + [Ended(tid, Aborted)];
    }

    ghost predicate Holds(tr: Inbound) reads this, transfers.Values {
      tr.offer.tid in transfers && transfers[tr.offer.tid] == tr && tr.fd < |disk|
    }

    /** Write, hash, count. */
    method TakeChunk(tr: Inbound, raw: seq<Byte>)
      requires Valid() && Holds(tr)
      modifies this`disk, tr
      ensures Valid() && Holds(tr) && dir == old(dir) && log == old(log)
      ensures disk == old(disk[tr.fd := WriteAt(disk[tr.fd], tr.done, raw)])
      ensures Views() == old(Views())[tr.offer.tid := old(tr.View()).(
        hashed := old(tr.hashed) + raw, next := old(tr.next) + 1, done := old(tr.done) + |raw|)]
    {
      disk := disk[tr.fd := WriteAt(disk[tr.fd], tr.done, raw)];
      tr.Add(raw);
      forall t | t in transfers && t != tr.offer.tid ensures transfers[t].View() == old(transfers[t].View()) {
        assert transfers[t] != tr;
      }
      assert forall t :: t in transfers ==> transfers[t].fd == old(Views())[t].fd;
    }

    method FinalizeTransfer(tr: Inbound)
      requires Valid() && Holds(tr)
      modifies this
      ensures Model() == Finalize(old(Model()), tr.offer.tid)
      ensures Valid()
    {
      var tid := tr.offer.tid;
      ghost var s: Disk := Model();
      assert s.transfers[tid] == tr.View();
      Forget(tid);
      if Sha256(tr.hashed) != tr.offer.sum {
        dir := dir - {tr.part};
        log := log + [Ended(tid, Mismatched)];
      } else if tr.part !in dir {
        log := log + [Ended(tid, Unmoved)];
      } else {
        var inode := dir[tr.part];
        dir := dir - {tr.part};
        dir := dir[tr.final := inode];
        log := log + [Ended(tid, Published(tr.final, disk[inode]))];
      }
      assert Views() == s.transfers - {tid};
    }

    method HandleChunkFrame(tid: Tid, index: int, bytes: Option<seq<Byte>>)
      requires Valid()
      modifies this, transfers.Values
      ensures Valid() && Model() == HandleChunk(old(Model()), tid, index, bytes)
    {
      if tid !in transfers {
        return;
      }
      var tr := transfers[tid];
      assert Views()[tid] == tr.View();
      if index != tr.next {
        AbortInbound(tr);
        return;
      }
      if bytes == None {
        AbortInbound(tr);
        return;
      }
      TakeChunk(tr, bytes.value);
      assert Model() == Take(old(Model()), tid, bytes.value);
      if tr.next >= tr.offer.chunks {
        FinalizeTransfer(tr);
      }
    }
  }
}
