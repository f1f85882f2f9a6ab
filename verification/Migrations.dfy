/** The forward-only migration runner, with a failure possible at every statement of every run. */
module Migrations {

  datatype Migration = Migration(name: string, sql: string)

  /** `schema` is the steps that have taken effect; both grow together as transactions commit. */
  datatype Db = Db(recorded: seq<string>, schema: seq<string>)

  const EMPTY := Db([], [])

  /** How one migration's transaction goes; a commit can fail although it landed. */
  datatype Fate = Fine | BeginFails | ApplyFails | RecordFails | CommitFails(landed: bool)

  function Committed(db: Db, m: Migration): Db { Db(db.recorded + [m.name], db.schema + [m.sql]) }

  /** The name is a primary key, so recording it twice fails and undoes the step. */
  function Transact(db: Db, m: Migration, f: Fate): (Db, bool) {
    if f in {BeginFails, ApplyFails, RecordFails} || m.name in db.recorded then (db, false)
    else match f
         case CommitFails(landed) => (if landed then Committed(db, m) else db, false)
         case _ => (Committed(db, m), true)
  }

  function FateOf(fates: seq<Fate>, i: nat): Fate { if i < |fates| then fates[i] else Fine }

  /** The loop from `i` on; `applied` was read before the loop. */
  function Loop(db: Db, ms: seq<Migration>, applied: set<string>, fates: seq<Fate>, i: nat): (Db, bool)
    requires i <= |ms|
    decreases |ms| - i
  {
    if i == |ms| then (db, true)
    else if ms[i].name in applied then Loop(db, ms, applied, fates, i + 1)
    else
      var (db', ok) := Transact(db, ms[i], FateOf(fates, i));
      if ok then Loop(db', ms, applied, fates, i + 1) else (db', false)
  }

  function Names(db: Db): set<string> { set n | n in db.recorded }

  /** `early`: the bookkeeping table could not be created or read. */
  function Migrated(db: Db, ms: seq<Migration>, early: bool, fates: seq<Fate>): (Db, bool) {
    if early then (db, false) else Loop(db, ms, Names(db), fates, 0)
  }

  class Database {
    var recorded: seq<string>
    var schema: seq<string>

    ghost function Model(): Db reads this { Db(recorded, schema) }

    constructor ()
      ensures Model() == EMPTY
    {
      recorded, schema := [], [];
    }

    method Migrate(ms: seq<Migration>, early: bool, fates: seq<Fate>) returns (ok: bool)
      modifies this
      ensures (Model(), ok) == Migrated(old(Model()), ms, early, fates)
    {
      if early {
        return false;
      }
      var applied: set<string> := {};
      var r := 0;
      while r < |recorded|
        invariant 0 <= r <= |recorded| && applied == set n | n in recorded[..r]
      {
        assert recorded[..r + 1] == recorded[..r] + [recorded[r]];
        applied := applied + {recorded[r]};
        r := r + 1;
      }
      assert recorded[..r] == recorded;
      var i := 0;
      while i < |ms|
        invariant 0 <= i <= |ms|
        invariant Migrated(old(Model()), ms, early, fates) == Loop(Model(), ms, applied, fates, i)
      {
        var m := ms[i];
        if m.name !in applied {
          var f := FateOf(fates, i);
          if f == BeginFails {
            return false;
          }
          // The transaction's own view, dropped by a rollback.
          var txSchema := schema + [m.sql];
          if f == ApplyFails {
            return false;
          }
          if f == RecordFails || m.name in recorded {
            return false;
          }
          var txRecorded := recorded + [m.name];
          if f.CommitFails? {
            if f.landed {
              recorded, schema := txRecorded, txSchema;
            }
            return false;
          }
          recorded, schema := txRecorded, txSchema;
        }
        i := i + 1;
      }
      return true;
    }
  }

  // --- over many runs ------------------------------------------------------------------

  /** One start of a program: the list it knows, and what goes wrong. */
  datatype Start = Start(ms: seq<Migration>, early: bool, fates: seq<Fate>)

  function RunAll(starts: seq<Start>): Db {
    if starts == [] then EMPTY
    else
      var s := starts[|starts| - 1];
      Migrated(RunAll(starts[..|starts| - 1]), s.ms, s.early, s.fates).0
  }

  ghost predicate Distinct(ms: seq<Migration>) {
    forall i, j :: 0 <= i < j < |ms| ==> ms[i].name != ms[j].name
  }

  /** What the first `n` steps leave: each recorded, and each taken effect once, in order. */
  function Prefix(full: seq<Migration>, n: nat): Db
    requires n <= |full|
  {
    Db(seq(n, i requires 0 <= i < n => full[i].name), seq(n, i requires 0 <= i < n => full[i].sql))
  }

  lemma PrefixNames(full: seq<Migration>, n: nat, i: nat)
    requires Distinct(full) && n <= |full| && i < |full|
    ensures full[i].name in Prefix(full, n).recorded <==> i < n
  {
    if i < n { assert Prefix(full, n).recorded[i] == full[i].name; }
  }

  /** From the prefix of length `n`, the loop at `i` ends in a prefix no shorter. */
  lemma {:induction false} LoopKeepsPrefix(full: seq<Migration>, ms: seq<Migration>, n0: nat, n: nat, fates: seq<Fate>, i: nat)
    returns (n': nat)
    requires Distinct(full) && ms <= full && n0 <= n <= |full| && i <= |ms|
    requires n == if i < n0 then n0 else i
    ensures var (db, ok) := Loop(Prefix(full, n), ms, Names(Prefix(full, n0)), fates, i);
      n <= n' <= |full| && db == Prefix(full, n') && (ok ==> |ms| <= n') && (fates == [] ==> ok)
    decreases |ms| - i
  {
    n' := n;
    if i < |ms| {
      PrefixNames(full, n0, i);
      PrefixNames(full, n, i);
      assert ms[i] == full[i];
      if i < n0 {
        n' := LoopKeepsPrefix(full, ms, n0, n, fates, i + 1);
      } else {
        assert Committed(Prefix(full, n), ms[i]) == Prefix(full, n + 1);
        var (db, ok) := Transact(Prefix(full, n), ms[i], FateOf(fates, i));
        if ok {
          n' := LoopKeepsPrefix(full, ms, n0, n + 1, fates, i + 1);
        } else if db != Prefix(full, n) {
          n' := n + 1;
        }
      }
    }
  }

  ghost predicate PrefixesOf(starts: seq<Start>, full: seq<Migration>) {
    forall k :: 0 <= k < |starts| ==> starts[k].ms <= full
  }

  /**
   Over any number of starts, of older and newer programs whose lists are prefixes of one list with
   distinct names, and with any failures: what is recorded is always a prefix of that list, the schema is
   exactly that prefix applied once in order, it never shrinks, and a start that reports success finds its
   whole list applied.
   */
  lemma {:induction false} AlwaysAPrefix(starts: seq<Start>, full: seq<Migration>) returns (n: nat)
    requires Distinct(full) && PrefixesOf(starts, full)
    ensures n <= |full| && RunAll(starts) == Prefix(full, n)
    ensures starts != [] ==>
      var before, s := RunAll(starts[..|starts| - 1]), starts[|starts| - 1];
      && before.recorded <= RunAll(starts).recorded && before.schema <= RunAll(starts).schema
      && (Migrated(before, s.ms, s.early, s.fates).1 ==> |s.ms| <= n)
  {
    if starts == [] {
      n := 0;
    } else {
      var last := |starts| - 1;
      var s := starts[last];
      var n0 := AlwaysAPrefix(starts[..last], full);
      n := n0;
      if !s.early {
        n := LoopKeepsPrefix(full, s.ms, n0, n0, s.fates, 0);
      }
    }
  }

  /**
   A start that nothing fails until step `i` stops there, at what the steps before it leave: a step that fails
   has no effect, except that its commit may have landed.
   */
  lemma {:induction false} StopsAtFailure(full: seq<Migration>, n0: nat, i: nat, fates: seq<Fate>, at: nat)
    requires Distinct(full) && n0 <= at <= i < |full| && n0 <= |full|
    requires (forall j :: n0 <= j < i ==> FateOf(fates, j) == Fine) && FateOf(fates, i) != Fine
    ensures Loop(Prefix(full, at), full, Names(Prefix(full, n0)), fates, at) ==
      (Prefix(full, if FateOf(fates, i) == CommitFails(true) then i + 1 else i), false)
    decreases i - at
  {
    PrefixNames(full, n0, at);
    PrefixNames(full, at, at);
    assert Committed(Prefix(full, at), full[at]) == Prefix(full, at + 1);
    if at < i { StopsAtFailure(full, n0, i, fates, at + 1); }
  }

  /** And for a whole start on a database with the first `n0` steps. */
  lemma {:induction false} StartStopsAtFailure(full: seq<Migration>, n0: nat, i: nat, fates: seq<Fate>, from: nat)
    requires Distinct(full) && from <= n0 <= i < |full|
    requires (forall j :: n0 <= j < i ==> FateOf(fates, j) == Fine) && FateOf(fates, i) != Fine
    ensures Loop(Prefix(full, n0), full, Names(Prefix(full, n0)), fates, from) ==
      (Prefix(full, if FateOf(fates, i) == CommitFails(true) then i + 1 else i), false)
    decreases n0 - from
  {
    if from < n0 {
      PrefixNames(full, n0, from);
      StartStopsAtFailure(full, n0, i, fates, from + 1);
    } else {
      StopsAtFailure(full, n0, i, fates, n0);
    }
  }

  /** The first step that fails ends the start, which reports it; a failure before the steps leaves all as it was. */
  lemma FailureIsReported(full: seq<Migration>, n0: nat, i: nat, fates: seq<Fate>)
    requires Distinct(full) && n0 <= i < |full|
    requires (forall j :: n0 <= j < i ==> FateOf(fates, j) == Fine) && FateOf(fates, i) != Fine
    ensures Migrated(Prefix(full, n0), full, true, fates) == (Prefix(full, n0), false)
    ensures Migrated(Prefix(full, n0), full, false, fates) ==
      (Prefix(full, if fates[i] == CommitFails(true) then i + 1 else i), false)
  {
    StartStopsAtFailure(full, n0, i, fates, 0);
  }

  // --- and why names must differ ---------------------------------------------------------------

  function TwoCleanStarts(ms: seq<Migration>): (Db, bool) {
    Migrated(Migrated(EMPTY, ms, false, []).0, ms, false, [])
  }

  ghost predicate NoRepeats(names: seq<string>) {
    forall i, j :: 0 <= i < j < |names| ==> names[i] != names[j]
  }

  function NameSet(ms: seq<Migration>): set<string> { set k | 0 <= k < |ms| :: ms[k].name }

  lemma {:induction false} LoopRecordsOnce(db: Db, ms: seq<Migration>, applied: set<string>, i: nat)
    requires i <= |ms| && NoRepeats(db.recorded) && |db.recorded| == |db.schema|
    requires Names(db) <= NameSet(ms)
    ensures var r := Loop(db, ms, applied, [], i).0;
      NoRepeats(r.recorded) && |r.recorded| == |r.schema| && Names(r) <= NameSet(ms)
    decreases |ms| - i
  {
    if i < |ms| {
      if ms[i].name in applied {
        LoopRecordsOnce(db, ms, applied, i + 1);
      } else if ms[i].name !in db.recorded {
        LoopRecordsOnce(Committed(db, ms[i]), ms, applied, i + 1);
      }
    }
  }

  lemma {:induction false} NamesAreAsMany(db: Db)
    requires NoRepeats(db.recorded)
    ensures |Names(db)| == |db.recorded|
    decreases |db.recorded|
  {
    if db.recorded == [] {
      assert Names(db) == {};
    } else {
      var n := |db.recorded| - 1;
      var shorter := Db(db.recorded[..n], []);
      NamesAreAsMany(shorter);
      assert db.recorded == shorter.recorded + [db.recorded[n]];
      assert Names(db) == Names(shorter) + {db.recorded[n]};
    }
  }

  lemma {:induction false} NameSetBound(ms: seq<Migration>)
    ensures |NameSet(ms)| <= |ms|
  {
    if ms == [] {
      assert NameSet(ms) == {};
    } else {
      var n := |ms| - 1;
      NameSetBound(ms[..n]);
      assert ms == ms[..n] + [ms[n]];
      assert NameSet(ms) == NameSet(ms[..n]) + {ms[n].name};
    }
  }

  lemma RepeatMakesFewer(ms: seq<Migration>, i: nat, j: nat)
    requires i < j < |ms| && ms[i].name == ms[j].name
    ensures |NameSet(ms)| < |ms|
  {
    var others := ms[..j] + ms[j + 1..];
    forall k | 0 <= k < |ms| ensures ms[k].name in NameSet(others) {
      var at := if k < j then k else if k == j then i else k - 1;
      assert others[at].name == ms[k].name;
    }
    forall name | name in NameSet(others) ensures name in NameSet(ms) {
      var k :| 0 <= k < |others| && others[k].name == name;
      assert others[k] == ms[if k < j then k else k + 1];
    }
    assert NameSet(ms) == NameSet(others);
    NameSetBound(others);
  }

  function Sqls(ms: seq<Migration>): seq<string> { seq(|ms|, i requires 0 <= i < |ms| => ms[i].sql) }

  /**
   Started twice on an empty database with nothing failing, the runner has applied the whole list exactly
   when the names differ: with a repeated name, a step under it never takes effect.
   */
  lemma WholeListIffDistinct(ms: seq<Migration>)
    ensures TwoCleanStarts(ms).0.schema == Sqls(ms) <==> Distinct(ms)
  {
    if Distinct(ms) {
      assert Prefix(ms, 0) == EMPTY;
      var n := LoopKeepsPrefix(ms, ms, 0, 0, [], 0);
      var n' := LoopKeepsPrefix(ms, ms, n, n, [], 0);
    } else {
      var i, j :| 0 <= i < j < |ms| && ms[i].name == ms[j].name;
      RepeatMakesFewer(ms, i, j);
      var one := Migrated(EMPTY, ms, false, []).0;
      LoopRecordsOnce(EMPTY, ms, Names(EMPTY), 0);
      LoopRecordsOnce(one, ms, Names(one), 0);
      var two := TwoCleanStarts(ms).0;
      NamesAreAsMany(two);
      SubsetIsSmaller(Names(two), NameSet(ms));
    }
  }

  lemma {:induction false} SubsetIsSmaller(a: set<string>, b: set<string>)
    requires a <= b
    ensures |a| <= |b|
  {
    if a != {} {
      var x :| x in a;
      SubsetIsSmaller(a - {x}, b - {x});
    }
  }

  /** The exception in the small: success is reported although the second step never ran. */
  lemma RepeatedNameSkipsStep()
    ensures TwoCleanStarts([Migration("a", "one"), Migration("a", "two")]) == (Db(["a"], ["one"]), true)
  {
    var ms := [Migration("a", "one"), Migration("a", "two")];
    var one := Db(["a"], ["one"]);
    assert [] + ["a"] == ["a"] && [] + ["one"] == ["one"];
    assert Transact(EMPTY, ms[0], FateOf([], 0)) == (one, true);
    assert Transact(one, ms[1], FateOf([], 1)) == (one, false);
    assert Loop(EMPTY, ms, {}, [], 0) == Loop(one, ms, {}, [], 1) == (one, false);
    assert "a" in one.recorded;
    assert Loop(one, ms, {"a"}, [], 0) == Loop(one, ms, {"a"}, [], 1) == (one, true);
    assert Names(EMPTY) == {} && Names(one) == {"a"};
  }
}
