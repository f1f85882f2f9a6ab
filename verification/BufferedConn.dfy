/**
 The adapter between a raw stream and a reader with deadlines: a goroutine pulls chunks into a channel,
 and Read works from the channel. Every atomic effect is one step; any order of steps is a run.
 */
module BufferedConn {
  import opened Framing
  import opened Wire

  type Time = int

  const CHANNEL_CAP := 64

  /** What ended the raw stream. */
  datatype Fault = Eof | Broken(code: int)

  datatype Result = Data(bytes: Bytes) | DeadlineExceeded | Failed(fault: Fault)

  /** A Read call that found no leftover and now waits on the channel, with the deadline it saw. */
  datatype Reading = NotReading | Waiting(want: nat, deadline: Option<Time>)

  datatype State = State(
    pulled: Bytes,             // history: every byte read from the raw stream
    hand: Bytes,               // the chunk the filling goroutine holds
    fault: Option<Fault>,      // the error its last raw read reported
    chunks: seq<Bytes>,        // chunkCh
    done: bool,                // doneCh is closed
    fillErr: Option<Fault>,
    leftover: Bytes,
    deadline: Option<Time>,
    reading: Reading,
    results: seq<Result>)      // history: what Read has returned so far

  datatype Step =
    | Pull(bytes: Bytes, fault: Option<Fault>)  // one raw read: some bytes, possibly with an error
    | Push                                      // chunkCh <- chunk
    | Stop                                      // fillErr = err; close(doneCh)
    | StartRead(want: nat, now: Time)
    | TakeChunk                                 // the channel case of select
    | SeeDone                                   // the doneCh case of select
    | Expire                                    // the timer case of select
    | SetDeadline(t: Option<Time>)

  const START := State([], [], None, [], false, None, [], None, NotReading, [])

  predicate Can(s: State, a: Step) {
    match a
    case Pull(_, _) => s.hand == [] && s.fault == None && !s.done
    case Push => s.hand != [] && |s.chunks| < CHANNEL_CAP
    case Stop => s.hand == [] && s.fault.Some? && !s.done
    case StartRead(_, _) => s.reading.NotReading?
    case TakeChunk => s.reading.Waiting? && s.chunks != []
    case SeeDone => s.reading.Waiting? && s.done
    case Expire => s.reading.Waiting? && s.reading.deadline.Some?
    case SetDeadline(_) => true
  }

  function Give(s: State, r: Result): State {
    s.(results := s.results + [r], reading := NotReading)
  }

  /** Hands over as much of the chunk as fits and keeps the rest. */
  function Deliver(s: State, chunk: Bytes, want: nat): State {
    var n := if want < |chunk| then want else |chunk|;
    Give(s.(leftover := if n < |chunk| then chunk[n..] else s.leftover), Data(chunk[..n]))
  }

  function After(s: State, a: Step): State
    requires Can(s, a)
  {
    match a
    case Pull(bytes, fault) => s.(pulled := s.pulled + bytes, hand := bytes, fault := fault)
    case Push => s.(chunks := s.chunks + [s.hand], hand := [])
    case Stop => s.(fillErr := s.fault, done := true)
    case StartRead(want, now) =>
      if s.leftover != [] then
        var n := if want < |s.leftover| then want else |s.leftover|;
        Give(s.(leftover := s.leftover[n..]), Data(s.leftover[..n]))
      else if s.deadline.Some? && s.deadline.value <= now then Give(s, DeadlineExceeded)
      else s.(reading := Waiting(want, s.deadline))
    case TakeChunk => Deliver(s.(chunks := s.chunks[1..]), s.chunks[0], s.reading.want)
    case SeeDone =>
      if s.chunks != [] then Deliver(s.(chunks := s.chunks[1..]), s.chunks[0], s.reading.want)
      else if s.fillErr.Some? then Give(s, Failed(s.fillErr.value))
      else Give(s, Failed(Eof))
    case Expire => Give(s, DeadlineExceeded)
    case SetDeadline(t) => s.(deadline := t)
  }

  ghost predicate IsRun(ss: seq<State>, steps: seq<Step>) {
    && |ss| == |steps| + 1 && ss[0] == START
    && forall k :: 0 <= k < |steps| ==> Can(ss[k], steps[k]) && ss[k + 1] == After(ss[k], steps[k])
  }

  function Flat(chunks: seq<Bytes>): Bytes {
    if chunks == [] then [] else chunks[0] + Flat(chunks[1..])
  }

  /** All the bytes a sequence of results has handed to the reader. */
  function Returned(results: seq<Result>): Bytes {
    if results == [] then [] else
      Returned(results[..|results| - 1]) + match results[|results| - 1]
        case Data(b) => b
        case DeadlineExceeded => []
        case Failed(_) => []
  }

  lemma {:induction false} FlatAppend(a: seq<Bytes>, b: Bytes)
    ensures Flat(a + [b]) == Flat(a) + b
  {
    if a == [] {
      assert a + [b] == [b];
    } else {
      FlatAppend(a[1..], b);
      assert (a + [b])[1..] == a[1..] + [b];
    }
  }

  lemma ReturnedAppend(rs: seq<Result>, r: Result)
    ensures Returned(rs + [r]) == Returned(rs) + if r.Data? then r.bytes else []
  {
    assert (rs + [r])[..|rs|] == rs;
  }

  /** The stream is exact, and its two ends agree on when it is over. */
  ghost predicate Exact(s: State) {
    && Returned(s.results) + s.leftover + Flat(s.chunks) + s.hand == s.pulled
    && (s.reading.Waiting? ==> s.leftover == [])
    && (s.done ==> s.hand == [] && s.fault.Some? && s.fillErr == s.fault)
  }

  lemma GiveKeeps(s: State, before: State, r: Result)
    requires Exact(before)
    requires s.pulled == before.pulled && s.hand == before.hand && s.results == before.results
    requires s.done == before.done && s.fault == before.fault && s.fillErr == before.fillErr
    requires (if r.Data? then r.bytes else []) + s.leftover + Flat(s.chunks) == before.leftover + Flat(before.chunks)
    ensures Exact(Give(s, r))
  {
    ReturnedAppend(s.results, r);
    var got := if r.Data? then r.bytes else [];
    var sofar := Returned(before.results);
    assert (sofar + got) + s.leftover + Flat(s.chunks) + s.hand == sofar + (got + s.leftover + Flat(s.chunks)) + s.hand;
    assert sofar + before.leftover + Flat(before.chunks) + s.hand == sofar + (before.leftover + Flat(before.chunks)) + s.hand;
  }

  lemma DeliverKeeps(s: State)
    requires Exact(s) && s.reading.Waiting? && s.chunks != []
    ensures Exact(Deliver(s.(chunks := s.chunks[1..]), s.chunks[0], s.reading.want))
  {
    var chunk, want := s.chunks[0], s.reading.want;
    var n := if want < |chunk| then want else |chunk|;
    assert chunk[..n] + chunk[n..] == chunk;
    var rest := if n < |chunk| then chunk[n..] else [];
    GiveKeeps(s.(chunks := s.chunks[1..], leftover := rest), s, Data(chunk[..n]));
  }

  lemma StepKeeps(s: State, a: Step)
    requires Exact(s) && Can(s, a)
    ensures Exact(After(s, a))
  {
    match a
    case Pull(bytes, _) =>
      var sofar := Returned(s.results) + s.leftover + Flat(s.chunks);
      assert sofar + s.hand == sofar;
    case Push =>
      FlatAppend(s.chunks, s.hand);
      var kept := Returned(s.results) + s.leftover;
      assert kept + (Flat(s.chunks) + s.hand) + [] == kept + Flat(s.chunks) + s.hand;
    case Stop =>
    case StartRead(want, now) =>
      if s.leftover != [] {
        var n := if want < |s.leftover| then want else |s.leftover|;
        assert s.leftover[..n] + s.leftover[n..] == s.leftover;
        GiveKeeps(s.(leftover := s.leftover[n..]), s, Data(s.leftover[..n]));
      } else if s.deadline.Some? && s.deadline.value <= now {
        GiveKeeps(s, s, DeadlineExceeded);
      }
    case TakeChunk => DeliverKeeps(s);
    case SeeDone =>
      if s.chunks != [] {
        DeliverKeeps(s);
      } else {
        GiveKeeps(s, s, Failed(if s.fillErr.Some? then s.fillErr.value else Eof));
      }
    case Expire => GiveKeeps(s, s, DeadlineExceeded);
    case SetDeadline(_) =>
  }

  /** The reader's bytes, then what is kept, then what is on the way, are always the raw stream. */
  lemma {:induction false} StreamIsExact(ss: seq<State>, steps: seq<Step>, k: nat)
    requires IsRun(ss, steps) && k < |ss|
    ensures Exact(ss[k])
    ensures Returned(ss[k].results) <= ss[k].pulled
  {
    if k > 0 {
      StreamIsExact(ss, steps, k - 1);
      StepKeeps(ss[k - 1], steps[k - 1]);
    }
    assert Returned(ss[k].results) <= Returned(ss[k].results) + ss[k].leftover + Flat(ss[k].chunks) + ss[k].hand;
  }

  /** A timeout takes nothing: only the result and the end of the call are recorded. */
  lemma TimeoutTakesNothing(ss: seq<State>, steps: seq<Step>, k: nat)
    requires IsRun(ss, steps) && k < |steps|
    requires ss[k + 1].results == ss[k].results + [DeadlineExceeded]
    ensures ss[k + 1] == ss[k].(results := ss[k + 1].results, reading := NotReading)
    ensures Returned(ss[k + 1].results) == Returned(ss[k].results)
  {
    var s, a := ss[k], steps[k];
    ReturnedAppend(s.results, DeadlineExceeded);
    assert ss[k + 1] == After(s, a);
    assert ss[k + 1].results[|s.results|] == DeadlineExceeded;
    assert |ss[k + 1].results| == |s.results| + 1;
  }

  /** An error or end of stream surfaces only after every byte, and it is the raw stream's own. */
  lemma FailureComesLast(ss: seq<State>, steps: seq<Step>, k: nat, f: Fault)
    requires IsRun(ss, steps) && k < |steps|
    requires ss[k + 1].results == ss[k].results + [Failed(f)]
    ensures Returned(ss[k].results) == ss[k].pulled && ss[k].fault == Some(f)
    ensures ss[k].done && ss[k].hand == [] && ss[k].chunks == [] && ss[k].leftover == []
  {
    var s, a := ss[k], steps[k];
    StreamIsExact(ss, steps, k);
    assert ss[k + 1] == After(s, a);
    assert ss[k + 1].results[|s.results|] == Failed(f);
    assert |ss[k + 1].results| == |s.results| + 1;
    assert s.leftover == [] && s.chunks == [];
    var r := Returned(s.results);
    assert r + s.leftover + Flat(s.chunks) + s.hand == r;
  }

  ghost predicate Over(s: State) {
    s.done && s.chunks == [] && s.leftover == []
  }

  lemma OverStays(s: State, a: Step)
    requires Exact(s) && Over(s) && Can(s, a)
    ensures Over(After(s, a)) && After(s, a).pulled == s.pulled
    ensures Returned(After(s, a).results) == Returned(s.results)
  {
    ReturnedAppend(s.results, DeadlineExceeded);
    ReturnedAppend(s.results, Failed(if s.fillErr.Some? then s.fillErr.value else Eof));
  }

  /** After the end nothing more is pulled, so no later Read gets a byte. */
  lemma {:induction false} NothingAfterTheEnd(ss: seq<State>, steps: seq<Step>, j: nat, k: nat)
    requires IsRun(ss, steps) && j <= k < |ss| && Over(ss[j])
    ensures Over(ss[k]) && ss[k].pulled == ss[j].pulled && Returned(ss[k].results) == Returned(ss[j].results)
  {
    if j < k {
      NothingAfterTheEnd(ss, steps, j, k - 1);
      StreamIsExact(ss, steps, k - 1);
      OverStays(ss[k - 1], steps[k - 1]);
    }
  }

  // --- the code: one method per atomic effect ------------------------------------

  class Conn {
    ghost var pulled: Bytes
    ghost var results: seq<Result>
    var hand: Bytes
    var fault: Option<Fault>
    var chunks: seq<Bytes>
    var done: bool
    var fillErr: Option<Fault>
    var leftover: Bytes
    var deadline: Option<Time>
    ghost var reading: Reading

    ghost function View(): State reads this {
      State(pulled, hand, fault, chunks, done, fillErr, leftover, deadline, reading, results)
    }

    constructor ()
      ensures View() == START
    {
      pulled, results, hand, fault, chunks := [], [], [], None, [];
      done, fillErr, leftover, deadline, reading := false, None, [], None, NotReading;
    }

    /** One turn of the filling loop up to its raw read. */
    method FillRead(bytes: Bytes, err: Option<Fault>)
      requires Can(View(), Pull(bytes, err)) && Exact(View())
      modifies this
      ensures View() == After(old(View()), Pull(bytes, err)) && Exact(View())
    {
      StepKeeps(View(), Pull(bytes, err));
      hand, fault := bytes, err;
      pulled := pulled + bytes;
    }

    method FillPush()
      requires Can(View(), Push) && Exact(View())
      modifies this
      ensures View() == After(old(View()), Push) && Exact(View())
      ensures chunks == old(chunks) + [old(hand)] && hand == []
    {
      StepKeeps(View(), Push);
      chunks, hand := chunks + [hand], [];
    }

    method FillStop()
      requires Can(View(), Stop) && Exact(View())
      modifies this
      ensures View() == After(old(View()), Stop) && Exact(View())
      ensures done && fillErr == old(fault)
    {
      fillErr := fault;
      done := true;
    }

    method SetReadDeadline(t: Option<Time>)
      requires Exact(View())
      modifies this
      ensures View() == After(old(View()), SetDeadline(t)) && Exact(View())
      ensures deadline == t && leftover == old(leftover) && chunks == old(chunks) && reading == old(reading)
    {
      deadline := t;
    }

    method DeliverChunk(chunk: Bytes, want: nat) returns (r: Result)
      modifies this
      ensures View() == Deliver(old(View()), chunk, want)
      ensures r.Data? && results == old(results) + [r]
      ensures |r.bytes| == if want < |chunk| then want else |chunk|
      ensures r.bytes + (if |chunk| > want then leftover else []) == chunk
    {
      var n := if want < |chunk| then want else |chunk|;
      if n < |chunk| {
        leftover := chunk[n..];
      }
      r := Data(chunk[..n]);
      results, reading := results + [r], NotReading;
    }

    /** Read up to the point where it would block: a result, or `blocked` with the deadline it saw. */
    method ReadStart(want: nat, now: Time) returns (r: Result, blocked: bool)
      requires Can(View(), StartRead(want, now)) && Exact(View())
      modifies this
      ensures View() == After(old(View()), StartRead(want, now)) && Exact(View())
      ensures blocked <==> old(leftover) == [] && !(deadline.Some? && deadline.value <= now)
      ensures reading == if blocked then Waiting(want, deadline) else NotReading
      ensures !blocked ==> results == old(results) + [r]
      ensures old(leftover) == [] && !blocked ==> r == DeadlineExceeded
      ensures old(leftover) != [] ==>
        r.Data? && r.bytes + leftover == old(leftover) && |r.bytes| == if want < |old(leftover)| then want else |old(leftover)|
    {
      StepKeeps(View(), StartRead(want, now));
      blocked, r := false, DeadlineExceeded;
      if |leftover| > 0 {
        var n := if want < |leftover| then want else |leftover|;
        r := Data(leftover[..n]);
        leftover := leftover[n..];
        results := results + [r];
        return;
      }
      if deadline.Some? && deadline.value <= now {
        results := results + [r];
        return;
      }
      blocked := true;
      reading := Waiting(want, deadline);
    }

    /** select: a chunk arrived. */
    method ReadChunk(want: nat) returns (r: Result)
      requires Can(View(), TakeChunk) && Exact(View()) && want == reading.want
      modifies this
      ensures View() == After(old(View()), TakeChunk) && Exact(View())
      ensures results == old(results) + [r]
      ensures r.Data? && chunks == old(chunks)[1..] && r.bytes + leftover == old(chunks)[0]
      ensures |r.bytes| == if want < |old(chunks)[0]| then want else |old(chunks)[0]|
    {
      StepKeeps(View(), TakeChunk);
      var chunk := chunks[0];
      chunks := chunks[1..];
      r := DeliverChunk(chunk, want);
    }

    /** select: the stream has ended; chunks still in the channel come first. */
    method ReadDone(want: nat) returns (r: Result)
      requires Can(View(), SeeDone) && Exact(View()) && want == reading.want
      modifies this
      ensures View() == After(old(View()), SeeDone) && Exact(View())
      ensures results == old(results) + [r]
      ensures old(chunks) != [] ==> r.Data? && chunks == old(chunks)[1..] && r.bytes + leftover == old(chunks)[0]
      ensures old(chunks) == [] ==> r == Failed(if fillErr.Some? then fillErr.value else Eof)
    {
      if chunks != [] {
        r := ReadChunk(want);
      } else {
        StepKeeps(View(), SeeDone);
        r := Failed(if fillErr.Some? then fillErr.value else Eof);
        results, reading := results + [r], NotReading;
      }
    }

    /** select: the timer fired. */
    method ReadTimeout() returns (r: Result)
      requires Can(View(), Expire) && Exact(View())
      modifies this
      ensures View() == After(old(View()), Expire) && Exact(View())
      ensures r == DeadlineExceeded && leftover == old(leftover) && chunks == old(chunks)
      ensures results == old(results) + [r]
    {
      StepKeeps(View(), Expire);
      r := DeadlineExceeded;
      results, reading := results + [r], NotReading;
    }
  }
}
