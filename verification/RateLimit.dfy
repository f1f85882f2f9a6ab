/** The sliding-window limiter: a history pruned in place that must answer like the full history. */
module RateLimit {
  import opened Seqs

  type Time = int
  type Hits = map<string, seq<Time>>

  /** The times strictly after `cutoff`, in order. */
  function Recent(times: seq<Time>, cutoff: Time): seq<Time> {
    Filter(times, t => t > cutoff)
  }

  function Times(h: Hits, key: string): seq<Time> {
    if key in h then h[key] else []
  }

  // --- the limiter as it is: pruned ------------------------------------------------

  predicate Allows(h: Hits, max: int, window: int, key: string, now: Time) {
    max <= 0 || |Recent(Times(h, key), now - window)| < max
  }

  function AfterAllow(h: Hits, max: int, window: int, key: string, now: Time): Hits {
    var kept := Recent(Times(h, key), now - window);
    if max <= 0 then h
    else if |kept| >= max then h[key := kept]
    else h[key := kept + [now]]
  }

  function AfterGc(h: Hits, window: int, now: Time): Hits {
    map k | k in h && Recent(h[k], now - window) != [] :: Recent(h[k], now - window)
  }

  // --- the limiter as it should be: every allowed time is remembered ------------------

  function AfterAllowFull(f: Hits, max: int, window: int, key: string, now: Time): Hits {
    if Allows(f, max, window, key, now) then f[key := Times(f, key) + [now]] else f
  }

  datatype Op = Call(key: string, now: Time) | Gc(now: Time)

  function Run(ops: seq<Op>, max: int, window: int): Hits {
    if ops == [] then map[] else
      var h := Run(ops[..|ops| - 1], max, window);
      match ops[|ops| - 1]
      case Call(key, now) => AfterAllow(h, max, window, key, now)
      case Gc(now) => AfterGc(h, window, now)
  }

  function FullRun(ops: seq<Op>, max: int, window: int): Hits {
    if ops == [] then map[] else
      var f := FullRun(ops[..|ops| - 1], max, window);
      match ops[|ops| - 1]
      case Call(key, now) => AfterAllowFull(f, max, window, key, now)
      case Gc(_) => f
  }

  /** No call happens at an earlier time than anything before it; a collection may use a stale time. */
  ghost predicate Ordered(ops: seq<Op>) {
    forall i, j :: 0 <= i < j < |ops| && ops[j].Call? ==> ops[i].now <= ops[j].now
  }

  ghost predicate Before(ops: seq<Op>, t: Time) {
    forall i :: 0 <= i < |ops| ==> ops[i].now <= t
  }

  /** From time `t` on, the two histories cannot be told apart. */
  ghost predicate Agree(h: Hits, f: Hits, window: int, t: Time) {
    forall k, c :: c >= t - window ==> Recent(Times(h, k), c) == Recent(Times(f, k), c)
  }

  lemma {:induction false} RecentTwice(s: seq<Time>, c: Time, c': Time)
    requires c <= c'
    ensures Recent(Recent(s, c), c') == Recent(s, c')
  {
    if s != [] {
      RecentTwice(s[1..], c, c');
      var rest := Recent(s[1..], c);
      assert ([s[0]] + rest)[1..] == rest;
    }
  }

  lemma RecentAppend(s: seq<Time>, x: Time, c: Time)
    ensures Recent(s + [x], c) == Recent(s, c) + if x > c then [x] else []
  {
    FilterAppend(s, [x], (t: Time) => t > c);
  }

  lemma AllowAgrees(h: Hits, f: Hits, max: int, window: int, key: string, now: Time)
    requires max > 0 && Agree(h, f, window, now)
    ensures Allows(h, max, window, key, now) == Allows(f, max, window, key, now)
    ensures Agree(AfterAllow(h, max, window, key, now), AfterAllowFull(f, max, window, key, now), window, now)
  {
    var h', f' := AfterAllow(h, max, window, key, now), AfterAllowFull(f, max, window, key, now);
    var kept := Recent(Times(h, key), now - window);
    forall k, c | c >= now - window ensures Recent(Times(h', k), c) == Recent(Times(f', k), c) {
      assert Recent(Times(h, k), c) == Recent(Times(f, k), c);
      if k == key {
        RecentTwice(Times(h, key), now - window, c);
        assert Recent(kept, c) == Recent(Times(f, key), c);
        RecentAppend(kept, now, c);
        RecentAppend(Times(f, key), now, c);
      }
    }
  }

  lemma GcAgrees(h: Hits, f: Hits, window: int, g: Time, t: Time)
    requires Agree(h, f, window, t) && g <= t
    ensures Agree(AfterGc(h, window, g), f, window, t)
  {
    var h' := AfterGc(h, window, g);
    forall k, c | c >= t - window ensures Recent(Times(h', k), c) == Recent(Times(f, k), c) {
      RecentTwice(Times(h, k), g - window, c);
    }
  }

  /** Pruning, reuse and collection never change what the limiter can still see. */
  lemma {:induction false} RunsAgree(ops: seq<Op>, max: int, window: int, t: Time)
    requires max > 0 && Ordered(ops) && Before(ops, t)
    ensures Agree(Run(ops, max, window), FullRun(ops, max, window), window, t)
  {
    if ops != [] {
      var n := |ops| - 1;
      match ops[n]
      case Call(key, now) =>
        RunsAgree(ops[..n], max, window, now);
        AllowAgrees(Run(ops[..n], max, window), FullRun(ops[..n], max, window), max, window, key, now);
      case Gc(now) =>
        RunsAgree(ops[..n], max, window, t);
        GcAgrees(Run(ops[..n], max, window), FullRun(ops[..n], max, window), window, now, t);
    }
  }

  /** Every call is answered exactly as an unpruned limiter that remembers everything would answer. */
  lemma AnswersAsFullHistory(ops: seq<Op>, max: int, window: int, k: nat)
    requires Ordered(ops) && k < |ops| && ops[k].Call?
    ensures Allows(Run(ops[..k], max, window), max, window, ops[k].key, ops[k].now)
         == Allows(FullRun(ops[..k], max, window), max, window, ops[k].key, ops[k].now)
  {
    if max > 0 {
      RunsAgree(ops[..k], max, window, ops[k].now);
      AllowAgrees(Run(ops[..k], max, window), FullRun(ops[..k], max, window), max, window, ops[k].key, ops[k].now);
    }
  }

  // --- the window guarantee --------------------------------------------------------

  /** How many of the times fall in the half-open interval (from, to]. */
  function CountIn(s: seq<Time>, from: Time, to: Time): nat {
    |Filter(s, t => from < t <= to)|
  }

  lemma {:induction false} CountWiden(s: seq<Time>, from: Time, to: Time, cutoff: Time)
    requires cutoff <= from
    ensures CountIn(s, from, to) <= |Recent(s, cutoff)|
  {
    if s != [] { CountWiden(s[1..], from, to, cutoff); }
  }

  lemma CountAppend(s: seq<Time>, now: Time, from: Time, to: Time)
    ensures CountIn(s + [now], from, to) == CountIn(s, from, to) + if from < now <= to then 1 else 0
  {
    FilterAppend(s, [now], (t: Time) => from < t <= to);
  }

  /** When the limiter as it is let a call of the key through. */
  function AllowedTimes(ops: seq<Op>, max: int, window: int, key: string): seq<Time> {
    if ops == [] then []
    else
      var n := |ops| - 1;
      AllowedTimes(ops[..n], max, window, key)
      + if ops[n].Call? && ops[n].key == key && Allows(Run(ops[..n], max, window), max, window, key, ops[n].now)
        then [ops[n].now] else []
  }

  /** The pruned limiter lets through exactly what the full history records. */
  lemma {:induction false} AllowedAreRecorded(ops: seq<Op>, max: int, window: int, key: string)
    requires Ordered(ops)
    ensures AllowedTimes(ops, max, window, key) == Times(FullRun(ops, max, window), key)
  {
    if ops != [] {
      var n := |ops| - 1;
      AllowedAreRecorded(ops[..n], max, window, key);
      if ops[n].Call? { AnswersAsFullHistory(ops, max, window, n); }
    }
  }

  /** The limiter lets at most `max` calls of one key through in any half-open interval as long as the window. */
  lemma WindowHolds(ops: seq<Op>, max: int, window: int, key: string, from: Time)
    requires max > 0 && Ordered(ops)
    ensures CountIn(AllowedTimes(ops, max, window, key), from, from + window) <= max
  {
    LateWindowHolds(ops, max, window, 0, key, from);
  }

  // --- calls recorded late ------------------------------------------------------------

  /** Callers read the clock before they take the lock: no call is recorded more than `late` behind an earlier one. */
  ghost predicate OrderedWithin(ops: seq<Op>, late: int) {
    forall i, j :: 0 <= i < j < |ops| && ops[j].Call? ==> ops[i].now <= ops[j].now + late
  }

  lemma CallKeeps(h: Hits, was: seq<Time>, max: int, window: int, k: string, now: Time, key: string, c: Time)
    requires max > 0 && c >= now - window && Recent(Times(h, key), c) == Recent(was, c)
    ensures Recent(Times(AfterAllow(h, max, window, k, now), key), c)
         == Recent(was + if k == key && Allows(h, max, window, key, now) then [now] else [], c)
  {
    var kept := Recent(Times(h, key), now - window);
    RecentTwice(Times(h, key), now - window, c);
    RecentAppend(kept, now, c);
    RecentAppend(was, now, c);
    assert was + [] == was;
  }

  lemma GcKeeps(h: Hits, was: seq<Time>, window: int, now: Time, key: string, c: Time)
    requires c >= now - window && Recent(Times(h, key), c) == Recent(was, c)
    ensures Recent(Times(AfterGc(h, window, now), key), c) == Recent(was, c)
  {
    RecentTwice(Times(h, key), now - window, c);
  }

  /** In any order of times: what has not fallen out of every window so far is still in the pruned history. */
  lemma {:induction false} KeepsAllowed(ops: seq<Op>, max: int, window: int, key: string, t: Time, c: Time)
    requires max > 0 && Before(ops, t) && c >= t - window
    ensures Recent(Times(Run(ops, max, window), key), c) == Recent(AllowedTimes(ops, max, window, key), c)
  {
    if ops != [] {
      var n := |ops| - 1;
      KeepsAllowed(ops[..n], max, window, key, t, c);
      var h, was := Run(ops[..n], max, window), AllowedTimes(ops[..n], max, window, key);
      match ops[n]
      case Call(k, now) => CallKeeps(h, was, max, window, k, now, key, c);
      case Gc(now) =>
        GcKeeps(h, was, window, now, key, c);
        assert was + [] == was;
    }
  }

  lemma {:induction false} RecentShrinks(s: seq<Time>, c: Time, c': Time)
    requires c <= c'
    ensures |Recent(s, c')| <= |Recent(s, c)|
  {
    if s != [] { RecentShrinks(s[1..], c, c'); }
  }

  lemma LateCallFits(ops: seq<Op>, max: int, window: int, late: nat, key: string, now: Time, from: Time)
    requires max > 0 && Before(ops, now + late) && Allows(Run(ops, max, window), max, window, key, now)
    requires from < now <= from + window - late
    ensures CountIn(AllowedTimes(ops, max, window, key), from, from + window - late) < max
  {
    var h, c := Times(Run(ops, max, window), key), now + late - window;
    KeepsAllowed(ops, max, window, key, now + late, c);
    RecentShrinks(h, now - window, c);
    CountWiden(AllowedTimes(ops, max, window, key), from, from + window - late, c);
  }

  /** One more call keeps the bound. */
  lemma LateCallCounts(ops: seq<Op>, max: int, window: int, late: nat, key: string, now: Time, from: Time)
    requires max > 0 && Before(ops, now + late) && Allows(Run(ops, max, window), max, window, key, now)
    requires CountIn(AllowedTimes(ops, max, window, key), from, from + window - late) <= max
    ensures CountIn(AllowedTimes(ops, max, window, key) + [now], from, from + window - late) <= max
  {
    CountAppend(AllowedTimes(ops, max, window, key), now, from, from + window - late);
    if from < now <= from + window - late {
      LateCallFits(ops, max, window, late, key, now, from);
    }
  }

  /**
   With calls recorded up to `late` behind earlier ones, the guarantee holds for half-open intervals that
   much shorter than the window.
   */
  lemma {:induction false} LateWindowHolds(ops: seq<Op>, max: int, window: int, late: nat, key: string, from: Time)
    requires max > 0 && OrderedWithin(ops, late)
    ensures CountIn(AllowedTimes(ops, max, window, key), from, from + window - late) <= max
  {
    if ops != [] {
      var n := |ops| - 1;
      LateWindowHolds(ops[..n], max, window, late, key, from);
      if ops[n].Call? && ops[n].key == key && Allows(Run(ops[..n], max, window), max, window, key, ops[n].now) {
        LateCallCounts(ops[..n], max, window, late, key, ops[n].now, from);
      } else {
        assert AllowedTimes(ops, max, window, key) == AllowedTimes(ops[..n], max, window, key);
      }
    }
  }

  // --- exactly which calls get through ---------------------------------------------------

  lemma {:induction false} AllowedBefore(ops: seq<Op>, max: int, window: int, key: string, t: Time)
    requires Before(ops, t)
    ensures forall x :: x in AllowedTimes(ops, max, window, key) ==> x <= t
  {
    if ops != [] {
      var n := |ops| - 1;
      assert Before(ops[..n], t);
      AllowedBefore(ops[..n], max, window, key, t);
    }
  }

  lemma {:induction false} CountUpTo(s: seq<Time>, from: Time, to: Time)
    requires forall x :: x in s ==> x <= to
    ensures CountIn(s, from, to) == |Recent(s, from)|
  {
    if s != [] {
      assert s[0] in s && forall x :: x in s[1..] ==> x in s;
      CountUpTo(s[1..], from, to);
    }
  }

  /**
   For calls recorded in time order the limiter is the plain sliding window: a call gets through exactly when
   there is no limit, or fewer calls of its key than the maximum got through in the window that ends with it.
   */
  lemma GetsThroughIff(ops: seq<Op>, max: int, window: int, k: nat)
    requires Ordered(ops) && k < |ops| && ops[k].Call?
    ensures var (key, now) := (ops[k].key, ops[k].now);
      var before := AllowedTimes(ops[..k], max, window, key);
      AllowedTimes(ops[..k + 1], max, window, key) ==
        before + if max <= 0 || CountIn(before, now - window, now) < max then [now] else []
  {
    var key, now := ops[k].key, ops[k].now;
    var before := AllowedTimes(ops[..k], max, window, key);
    assert ops[..k + 1][..k] == ops[..k] && ops[..k + 1][k] == ops[k];
    assert before + [] == before;
    if max > 0 {
      AllowedBefore(ops[..k], max, window, key, now);
      CountUpTo(before, now - window, now);
      KeepsAllowed(ops[..k], max, window, key, now, now - window);
      RecentTwice(Times(Run(ops[..k], max, window), key), now - window, now - window);
    }
  }

  function Burst(n: nat, now: Time): seq<Op> { seq(n, _ => Call("a", now)) }

  function Repeated(n: nat, now: Time): seq<Time> { seq(n, _ => now) }

  lemma AllowedCallIsRecorded(ops: seq<Op>, max: int, window: int, now: Time)
    requires Allows(FullRun(ops, max, window), max, window, "a", now)
    ensures Times(FullRun(ops + [Call("a", now)], max, window), "a") == Times(FullRun(ops, max, window), "a") + [now]
  {
    var all := ops + [Call("a", now)];
    assert all[..|all| - 1] == ops;
  }

  lemma RoomAfterBurst(was: seq<Time>, n: nat, now: Time, cutoff: Time)
    requires Recent(was, cutoff) == []
    ensures |Recent(was + Repeated(n, now), cutoff)| <= n
  {
    FilterAppend(was, Repeated(n, now), (t: Time) => t > cutoff);
  }

  lemma OneMore(ops: seq<Op>, max: int, window: int, was: seq<Time>, n: nat, now: Time)
    requires n < max && Times(FullRun(ops, max, window), "a") == was + Repeated(n, now)
    requires Recent(was, now - window) == []
    ensures Times(FullRun(ops + [Call("a", now)], max, window), "a") == was + Repeated(n + 1, now)
  {
    RoomAfterBurst(was, n, now, now - window);
    AllowedCallIsRecorded(ops, max, window, now);
    assert was + Repeated(n + 1, now) == was + Repeated(n, now) + [now];
  }

  lemma BurstGrows(ops: seq<Op>, n: nat, now: Time)
    ensures ops + Burst(n + 1, now) == ops + Burst(n, now) + [Call("a", now)]
  {
  }

  /** `n` more calls at one moment are all let through while none before counts and `n` is within the maximum. */
  lemma {:induction false} BurstIsAllowed(ops: seq<Op>, max: nat, window: nat, was: seq<Time>, n: nat, now: Time)
    requires n <= max && was == Times(FullRun(ops, max, window), "a") && Recent(was, now - window) == []
    ensures Times(FullRun(ops + Burst(n, now), max, window), "a") == was + Repeated(n, now)
  {
    if n == 0 {
      assert ops + Burst(0, now) == ops;
    } else {
      BurstIsAllowed(ops, max, window, was, n - 1, now);
      OneMore(ops + Burst(n - 1, now), max, window, was, n - 1, now);
      BurstGrows(ops, n - 1, now);
    }
  }

  lemma {:induction false} NoneRecent(n: nat, now: Time, cutoff: Time)
    requires now <= cutoff
    ensures Recent(Repeated(n, now), cutoff) == []
  {
    if n > 0 {
      NoneRecent(n - 1, now, cutoff);
      assert Repeated(n, now)[1..] == Repeated(n - 1, now);
    }
  }

  /** The guarantee is about half-open intervals: for every maximum, a closed one can hold twice as many. */
  lemma ClosedIntervalCanExceed(max: nat, window: nat)
    ensures var ops := Burst(max, 0) + Burst(max, window);
      Ordered(ops) && AllowedTimes(ops, max, window, "a") == Repeated(max, 0) + Repeated(max, window)
  {
    var ops := Burst(max, 0) + Burst(max, window);
    BurstIsAllowed([], max, window, [], max, 0);
    assert [] + Burst(max, 0) == Burst(max, 0) && [] + Repeated(max, 0) == Repeated(max, 0);
    NoneRecent(max, 0, window - window);
    BurstIsAllowed(Burst(max, 0), max, window, Repeated(max, 0), max, window);
    AllowedAreRecorded(ops, max, window, "a");
  }

  /** The burst, a call when the burst has just left the window, and one recorded `late` behind that. */
  function LateOps(max: nat, window: nat, late: nat): seq<Op> {
    Burst(max, 0) + [Call("a", window)] + [Call("a", window - late)]
  }

  lemma AllowedAppend(ops: seq<Op>, max: int, window: int, now: Time)
    requires Allows(Run(ops, max, window), max, window, "a", now)
    ensures AllowedTimes(ops + [Call("a", now)], max, window, "a") == AllowedTimes(ops, max, window, "a") + [now]
    ensures var was, h := Times(Run(ops, max, window), "a"), Times(Run(ops + [Call("a", now)], max, window), "a");
      max > 0 ==> h == Recent(was, now - window) + [now]
  {
    var all := ops + [Call("a", now)];
    assert all[..|all| - 1] == ops && all[|all| - 1] == Call("a", now);
  }

  lemma BurstIsOver(max: nat, window: nat)
    requires max > 0
    ensures Recent(Times(Run(Burst(max, 0), max, window), "a"), 0) == []
    ensures AllowedTimes(Burst(max, 0), max, window, "a") == Repeated(max, 0)
  {
    BurstIsAllowed([], max, window, [], max, 0);
    assert [] + Burst(max, 0) == Burst(max, 0) && [] + Repeated(max, 0) == Repeated(max, 0);
    AllowedAreRecorded(Burst(max, 0), max, window, "a");
    KeepsAllowed(Burst(max, 0), max, window, "a", 0, 0);
    NoneRecent(max, 0, 0);
  }

  lemma BurstIsForgotten(max: nat, window: nat)
    requires max > 0
    ensures var two := Burst(max, 0) + [Call("a", window)];
      && Times(Run(two, max, window), "a") == [window]
      && AllowedTimes(two, max, window, "a") == Repeated(max, 0) + [window]
  {
    BurstIsOver(max, window);
    assert window - window == 0;
    AllowedAppend(Burst(max, 0), max, window, window);
    assert [] + [window as Time] == [window];
  }

  lemma OneInHistoryAllows(ops: seq<Op>, max: nat, window: nat, now: Time)
    requires max >= 2 && Times(Run(ops, max, window), "a") == [window]
    ensures Allows(Run(ops, max, window), max, window, "a", now)
  {
    assert |Recent([window], now - window)| <= 1;
  }

  lemma LateCallsAllowed(max: nat, window: nat, late: nat)
    requires max >= 2
    ensures AllowedTimes(LateOps(max, window, late), max, window, "a") == Repeated(max, 0) + [window] + [window - late]
  {
    var two := Burst(max, 0) + [Call("a", window)];
    BurstIsForgotten(max, window);
    OneInHistoryAllows(two, max, window, window - late);
    AllowedAppend(two, max, window, window - late);
    assert LateOps(max, window, late) == two + [Call("a", window - late)];
  }

  lemma {:induction false} CountRepeated(n: nat, now: Time, from: Time, to: Time)
    requires from < now <= to
    ensures CountIn(Repeated(n, now), from, to) == n
  {
    if n > 0 {
      CountRepeated(n - 1, now, from, to);
      assert Repeated(n, now) == Repeated(n - 1, now) + [now];
      CountAppend(Repeated(n - 1, now), now, from, to);
    }
  }

  /**
   And no longer: for every maximum of two or more, every window and every lateness within it, a run with
   calls recorded that late lets one call too many through in an interval longer by one.
   */
  lemma LateWindowIsTight(max: nat, window: nat, late: nat)
    requires max >= 2 && 0 < late <= window
    ensures OrderedWithin(LateOps(max, window, late), late)
    ensures CountIn(AllowedTimes(LateOps(max, window, late), max, window, "a"), -1, -1 + window - late + 1) == max + 1
  {
    LateCallsAllowed(max, window, late);
    var to := window - late;
    CountRepeated(max, 0, -1, to);
    CountAppend(Repeated(max, 0), window, -1, to);
    CountAppend(Repeated(max, 0) + [window], window - late, -1, to);
  }

  lemma {:induction false} AllRecent(n: nat, now: Time, cutoff: Time)
    requires cutoff < now
    ensures Recent(Repeated(n, now), cutoff) == Repeated(n, now)
  {
    if n > 0 {
      AllRecent(n - 1, now, cutoff);
      assert Repeated(n, now) == Repeated(n - 1, now) + [now];
      RecentAppend(Repeated(n - 1, now), now, cutoff);
    }
  }

  lemma FullHistoryRefuses(ops: seq<Op>, max: int, window: int, now: Time)
    requires !Allows(FullRun(ops, max, window), max, window, "a", now)
    ensures FullRun(ops + [Call("a", now)], max, window) == FullRun(ops, max, window)
  {
    var all := ops + [Call("a", now)];
    assert all[..|all| - 1] == ops && all[|all| - 1] == Call("a", now);
  }

  lemma FullRemembersBurst(max: nat, window: nat)
    requires max > 0
    ensures Times(FullRun(Burst(max, 0) + [Call("a", window)], max, window), "a") == Repeated(max, 0) + [window]
  {
    BurstIsAllowed([], max, window, [], max, 0);
    assert [] + Burst(max, 0) == Burst(max, 0) && [] + Repeated(max, 0) == Repeated(max, 0);
    NoneRecent(max, 0, window - window);
    AllowedCallIsRecorded(Burst(max, 0), max, window, window);
  }

  /** In those runs the unpruned limiter refuses the late call that the pruned one lets through. */
  lemma LateAnswersDiffer(max: nat, window: nat, late: nat)
    requires max >= 2 && 0 < late <= window
    ensures Times(FullRun(LateOps(max, window, late), max, window), "a") == Repeated(max, 0) + [window]
    ensures AllowedTimes(LateOps(max, window, late), max, window, "a") == Repeated(max, 0) + [window] + [window - late]
  {
    FullRemembersBurst(max, window);
    AllRecent(max, 0, window - late - window);
    RecentAppend(Repeated(max, 0), window, window - late - window);
    FullHistoryRefuses(Burst(max, 0) + [Call("a", window)], max, window, window - late);
    LateCallsAllowed(max, window, late);
  }

  // --- the limiter over its backing arrays --------------------------------------------

  /** A Go slice: the first `len` elements of a backing array. */
  datatype Slice = Slice(arr: array<Time>, len: nat)

  /** Filters the first `n` elements in place, keeping those after `cutoff`. */
  method PruneInPlace(a: array<Time>, n: nat, cutoff: Time) returns (kept: nat)
    requires n <= a.Length
    modifies a
    ensures kept <= n
    ensures a[..kept] == Recent(old(a[..n]), cutoff)
  {
    kept := 0;
    for i := 0 to n
      invariant kept <= i
      invariant a[..kept] == Recent(old(a[..n])[..i], cutoff)
      invariant forall k :: i <= k < n ==> a[k] == old(a[k])
    {
      ghost var was := old(a[..n]);
      assert was[..i + 1] == was[..i] + [a[i]];
      FilterAppend(was[..i], [a[i]], (t: Time) => t > cutoff);
      var t := a[i];
      if t > cutoff {
        a[kept] := t;
        kept := kept + 1;
        assert a[..kept] == a[..kept - 1] + [t];
      }
    }
    assert old(a[..n])[..n] == old(a[..n]);
  }

  /** Puts `now` after the first `n` elements, in place when the backing array has room. */
  method Append(a: array<Time>, n: nat, now: Time) returns (s: Slice)
    requires n <= a.Length
    modifies a
    ensures s.len == n + 1 <= s.arr.Length && s.arr[..n + 1] == old(a[..n]) + [now]
    ensures s.arr == a || fresh(s.arr)
  {
    if n < a.Length {
      a[n] := now;
      s := Slice(a, n + 1);
    } else {
      var b := new Time[2 * n + 1](i requires 0 <= i reads a => if i < n && i < a.Length then a[i] else now);
      assert b[..n + 1] == a[..n] + [now];
      s := Slice(b, n + 1);
    }
  }

  /** A collection in progress from `was` to `h`, with the keys in `todo` still ahead. */
  ghost predicate Collected(h: Hits, was: Hits, todo: set<string>, cutoff: Time) {
    && todo <= h.Keys <= was.Keys
    && (forall k :: k in todo ==> h[k] == was[k])
    && (forall k :: k in was && k !in todo ==>
          (k in h <==> Recent(was[k], cutoff) != []) && (k in h ==> h[k] == Recent(was[k], cutoff)))
  }

  lemma CollectOne(h: Hits, was: Hits, todo: set<string>, cutoff: Time, k: string)
    requires Collected(h, was, todo, cutoff) && k in todo
    ensures var kept := Recent(h[k], cutoff);
      Collected(if kept == [] then h - {k} else h[k := kept], was, todo - {k}, cutoff)
  {
  }

  class Limiter {
    const max: int
    const window: int
    var hits: map<string, Slice>
    ghost var model: Hits
    ghost var repr: set<array<Time>>

    /** One key's slice holds the modelled times and shares its array with no other key. */
    ghost predicate Holds(k: string) requires k in hits && k in model reads this, hits[k].arr {
      hits[k].len <= hits[k].arr.Length && hits[k].arr[..hits[k].len] == model[k]
    }

    ghost predicate Valid() reads this, repr {
      && hits.Keys == model.Keys
      && (forall k :: k in hits ==> hits[k].arr in repr)
      && (forall k :: k in hits ==> Holds(k))
      && (forall j, k :: j in hits && k in hits && j != k ==> hits[j].arr != hits[k].arr)
    }

    constructor (max: int, window: int)
      ensures Valid() && fresh(this) && this.max == max && this.window == window && model == map[] && hits == map[]
    {
      this.max, this.window, hits, model, repr := max, window, map[], map[], {};
    }

    /** Everything but `key` is in order, and no other key uses the array `a`. */
    ghost predicate Except(key: string, a: array<Time>) reads this, repr {
      && hits.Keys == model.Keys
      && (forall k :: k in hits ==> hits[k].arr in repr)
      && (forall k :: k in hits && k != key ==> Holds(k) && hits[k].arr != a)
      && (forall j, k :: j in hits && k in hits && j != k ==> hits[j].arr != hits[k].arr)
    }

    method Put(key: string, s: Slice)
      requires Except(key, s.arr) && s.len <= s.arr.Length
      modifies this
      ensures Valid() && key in hits && hits[key] == s && repr == old(repr) + {s.arr}
      ensures model == old(model)[key := s.arr[..s.len]]
    {
      repr := repr + {s.arr};
      hits, model := hits[key := s], model[key := s.arr[..s.len]];
    }

    method Remove(key: string)
      requires key in hits && Except(key, hits[key].arr)
      modifies this`hits, this`model
      ensures Valid() && model == old(model) - {key}
    {
      hits, model := hits - {key}, model - {key};
    }

    /** Filters the slice of one key, or an empty one of its own for a key without any. */
    method PruneKey(key: string, cutoff: Time) returns (s: Slice)
      requires Valid()
      modifies repr
      ensures Except(key, s.arr) && s.len <= s.arr.Length && (s.arr in repr || fresh(s.arr))
      ensures key in hits ==> s.arr == hits[key].arr
      ensures s.arr[..s.len] == Recent(Times(model, key), cutoff)
    {
      if key !in hits {
        var empty := new Time[0];
        return Slice(empty, 0);
      }
      s := hits[key];
      assert Holds(key);
      label before:
      var kept := PruneInPlace(s.arr, s.len, cutoff);
      forall k | k in hits && k != key ensures Holds(k) && hits[k].arr != s.arr {
        assert old@before(Holds(k));
      }
      s := Slice(s.arr, kept);
    }

    /** Adds one time to a pruned slice and stores it. */
    method PutMore(key: string, s: Slice, now: Time)
      requires Except(key, s.arr) && s.len <= s.arr.Length
      modifies this, s.arr
      ensures Valid() && fresh(repr - old(repr) - {s.arr})
      ensures model == old(model)[key := old(s.arr[..s.len]) + [now]]
    {
      label before:
      var s' := Append(s.arr, s.len, now);
      forall k | k in hits && k != key ensures Holds(k) && hits[k].arr != s'.arr {
        assert old@before(Holds(k));
      }
      Put(key, s');
    }

    method Allow(key: string, now: Time) returns (ok: bool)
      requires Valid()
      modifies this, repr
      ensures Valid() && fresh(repr - old(repr))
      ensures ok <==> max <= 0 || |Recent(Times(old(model), key), now - window)| < max
      ensures model == AfterAllow(old(model), max, window, key, now)
    {
      if max <= 0 {
        return true;
      }
      var s := PruneKey(key, now - window);
      assert repr == old(repr) && model == old(model);
      assert s.arr[..s.len] == Recent(Times(model, key), now - window);
      ok := s.len < max;
      if ok {
        PutMore(key, s, now);
      } else {
        Put(key, s);
      }
    }

    method CollectKey(key: string, cutoff: Time)
      requires Valid() && key in hits
      modifies this, repr
      ensures Valid() && repr == old(repr)
      ensures var kept := Recent(old(model)[key], cutoff);
        model == if kept == [] then old(model) - {key} else old(model)[key := kept]
    {
      var s := PruneKey(key, cutoff);
      if s.len == 0 {
        Remove(key);
      } else {
        Put(key, s);
      }
    }

    method Collect(now: Time)
      requires Valid()
      modifies this, repr
      ensures Valid() && repr == old(repr)
      ensures model == AfterGc(old(model), window, now)
    {
      var todo := hits.Keys;
      var cutoff := now - window;
      while todo != {}
        invariant Valid() && repr == old(repr)
        invariant Collected(model, old(model), todo, cutoff)
        decreases todo
      {
        var k :| k in todo;
        CollectOne(model, old(model), todo, cutoff, k);
        CollectKey(k, cutoff);
        todo := todo - {k};
      }
    }
  }
}
