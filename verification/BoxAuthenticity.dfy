/**
 What the sealed box alone guarantees, when nothing on the way is trusted: frames may be repeated, rerouted
 and relabelled at will, and anyone may send any box it can build. Only the enrolled clients run the code.
 */
module BoxAuthenticity {
  import opened Wire
  import opened ClientTables

  datatype Party = Party(key: Key, peers: map<DeviceId, Key>, history: seq<Message>)

  /** `known` is every box on any wire or in anyone's hands; `sealed` those the clients made, as history. */
  datatype Net = Net(parties: map<DeviceId, Party>, sealed: set<Box>, known: set<Box>)

  datatype Step =
    | SealFor(d: DeviceId, to: DeviceId, inner: Inner)
    | Build(box: Box)
    | Take(d: DeviceId, from: DeviceId, id: MsgId, box: Box)

  function Keys(n: Net): set<Key> { set d | d in n.parties :: n.parties[d].key }

  /** A box can be built by whoever has either private key of its pair; the clients' own stay with them. */
  predicate Can(n: Net, a: Step) {
    match a
    case SealFor(d, to, _) => d in n.parties && to in n.parties[d].peers
    case Build(box) => box.sealer !in Keys(n) || box.opener !in Keys(n)
    case Take(d, _, _, box) => d in n.parties && box in n.known
  }

  ghost function After(n: Net, a: Step): Net
    requires Can(n, a)
  {
    match a
    case SealFor(d, to, inner) =>
      var box := Seal(inner, n.parties[d].key, n.parties[d].peers[to]);
      n.(sealed := n.sealed + {box}, known := n.known + {box})
    case Build(box) => n.(known := n.known + {box})
    case Take(d, from, id, box) =>
      var p := n.parties[d];
      n.(parties := n.parties[d := p.(history := Incoming(p.history, p.peers, p.key, from, id, box))])
  }

  ghost predicate StepAt(ns: seq<Net>, steps: seq<Step>, k: nat)
    requires |ns| == |steps| + 1 && k < |steps|
  {
    Can(ns[k], steps[k]) && ns[k + 1] == After(ns[k], steps[k])
  }

  ghost predicate IsRun(ns: seq<Net>, steps: seq<Step>) {
    && |ns| == |steps| + 1 && ns[0].sealed == {} && ns[0].known == {}
    && (forall d :: d in ns[0].parties ==> ns[0].parties[d].history == [])
    && forall k :: 0 <= k < |steps| ==> StepAt(ns, steps, k)
  }

  /** One of the pair sealed this text for the other. */
  ghost predicate SealedBetween(sealed: set<Box>, a: Key, b: Key, text: string) {
    Box(a, b, Text(text)) in sealed || Box(b, a, Text(text)) in sealed
  }

  ghost predicate RowAuthentic(n: Net, p: Party, m: Message) {
    m.dir == In ==>
      m.peer in p.peers && (p.peers[m.peer] in Keys(n) ==> SealedBetween(n.sealed, p.peers[m.peer], p.key, m.body))
  }

  ghost predicate Inv(n: Net) {
    && (forall box :: box in n.known && box.sealer in Keys(n) && box.opener in Keys(n) ==> box in n.sealed)
    && forall d :: d in n.parties ==> PartyOk(n, n.parties[d])
  }

  ghost predicate PartyOk(n: Net, p: Party) {
    p.key in Keys(n) && forall i :: 0 <= i < |p.history| ==> RowAuthentic(n, p, p.history[i])
  }

  /** A taken text was sealed by one of its pair, if both keys are clients'. */
  lemma TakenIsAuthentic(n: Net, p: Party, from: DeviceId, box: Box)
    requires Inv(n) && box in n.known && p.key in Keys(n) && Readable(p.peers, p.key, from, box).Some?
    ensures from in p.peers
    ensures p.peers[from] in Keys(n) ==>
      SealedBetween(n.sealed, p.peers[from], p.key, Readable(p.peers, p.key, from, box).value)
  {
  }

  lemma TakeKeeps(n: Net, d: DeviceId, from: DeviceId, id: MsgId, box: Box)
    requires Inv(n) && Can(n, Take(d, from, id, box))
    ensures Inv(After(n, Take(d, from, id, box))) && Keys(After(n, Take(d, from, id, box))) == Keys(n)
  {
    var p, n' := n.parties[d], After(n, Take(d, from, id, box));
    assert PartyOk(n, p);
    forall x | x in Keys(n) ensures x in Keys(n') {
      var e :| e in n.parties && n.parties[e].key == x;
      assert n'.parties[e].key == x;
    }
    forall x | x in Keys(n') ensures x in Keys(n) {
      var e :| e in n'.parties && n'.parties[e].key == x;
      assert n.parties[e].key == x;
    }
    if Readable(p.peers, p.key, from, box).Some? { TakenIsAuthentic(n, p, from, box); }
    forall e | e in n'.parties ensures PartyOk(n', n'.parties[e]) {
      assert PartyOk(n, n.parties[e]);
    }
  }

  lemma StepKeeps(n: Net, a: Step)
    requires Inv(n) && Can(n, a)
    ensures Inv(After(n, a)) && Keys(After(n, a)) == Keys(n)
  {
    if a.Take? {
      TakeKeeps(n, a.d, a.from, a.id, a.box);
    } else {
      var n' := After(n, a);
      assert Keys(n') == Keys(n);
      forall e | e in n'.parties ensures PartyOk(n', n'.parties[e]) {
        assert PartyOk(n, n.parties[e]);
      }
    }
  }

  lemma {:induction false} RunInv(ns: seq<Net>, steps: seq<Step>, k: nat)
    requires IsRun(ns, steps) && k < |ns|
    ensures Inv(ns[k])
  {
    if k > 0 {
      RunInv(ns, steps, k - 1);
      assert StepAt(ns, steps, k - 1);
      StepKeeps(ns[k - 1], steps[k - 1]);
    }
  }

  /**
   Whatever happens on the way: an inbound row shown as from a peer whose known key is another client's
   carries a text that one of the two sealed for the other. Both ends of a pair share its key, so the box
   does not tell which of them it was, nor under which id; that much rests on the relay.
   */
  lemma InboundRowsAreAuthentic(ns: seq<Net>, steps: seq<Step>, k: nat, d: DeviceId, i: nat)
    requires IsRun(ns, steps) && k < |ns| && d in ns[k].parties && i < |ns[k].parties[d].history|
    requires ns[k].parties[d].history[i].dir == In
    ensures var p, m := ns[k].parties[d], ns[k].parties[d].history[i];
      m.peer in p.peers && (p.peers[m.peer] in Keys(ns[k]) ==> SealedBetween(ns[k].sealed, p.peers[m.peer], p.key, m.body))
  {
    RunInv(ns, steps, k);
    assert PartyOk(ns[k], ns[k].parties[d]) && RowAuthentic(ns[k], ns[k].parties[d], ns[k].parties[d].history[i]);
  }
}
