/** Filtering a sequence in order: the shape of every DELETE ... WHERE and of every pruning loop. */
module Seqs {

  function Filter<T>(s: seq<T>, keep: T -> bool): (r: seq<T>)
    ensures |r| <= |s|
  {
    if s == [] then []
    else if keep(s[0]) then [s[0]] + Filter(s[1..], keep)
    else Filter(s[1..], keep)
  }

  lemma {:induction false} FilterMember<T>(s: seq<T>, keep: T -> bool)
    ensures forall x :: x in Filter(s, keep) <==> x in s && keep(x)
    ensures forall j :: 0 <= j < |Filter(s, keep)| ==> Filter(s, keep)[j] in s && keep(Filter(s, keep)[j])
  {
    if s != [] {
      FilterMember(s[1..], keep);
      assert s == [s[0]] + s[1..];
    }
  }

  lemma {:induction false} FilterAppend<T>(a: seq<T>, b: seq<T>, keep: T -> bool)
    ensures Filter(a + b, keep) == Filter(a, keep) + Filter(b, keep)
  {
    if a == [] {
      assert a + b == b;
    } else {
      FilterAppend(a[1..], b, keep);
      assert (a + b)[0] == a[0] && (a + b)[1..] == a[1..] + b;
    }
  }

  lemma {:induction false} FilterAll<T>(s: seq<T>, keep: T -> bool)
    requires forall x :: x in s ==> keep(x)
    ensures Filter(s, keep) == s
  {
    if s != [] {
      assert forall x :: x in s[1..] ==> x in s;
      FilterAll(s[1..], keep);
    }
  }

  /** Two tests that agree on the elements keep the same ones. */
  lemma {:induction false} FilterSame<T>(s: seq<T>, p: T -> bool, q: T -> bool)
    requires forall x :: x in s ==> p(x) == q(x)
    ensures Filter(s, p) == Filter(s, q)
  {
    if s != [] {
      assert s[0] in s;
      assert forall x :: x in s[1..] ==> x in s;
      FilterSame(s[1..], p, q);
    }
  }

  /** A test that stays true once true keeps a suffix, so what it removes is a prefix. */
  lemma {:induction false} FilterKeepsSuffix<T>(s: seq<T>, keep: T -> bool)
    requires forall i, j :: 0 <= i < j < |s| && keep(s[i]) ==> keep(s[j])
    ensures Filter(s, keep) == s[|s| - |Filter(s, keep)|..]
  {
    if s != [] {
      if keep(s[0]) {
        forall x | x in s ensures keep(x) {
          var k :| 0 <= k < |s| && s[k] == x;
        }
        FilterAll(s, keep);
      } else {
        FilterKeepsSuffix(s[1..], keep);
      }
    }
  }

  /** Whatever holds between each element and every later one still does after filtering. */
  lemma {:induction false} FilterPairwise<T>(s: seq<T>, keep: T -> bool, rel: (T, T) -> bool)
    requires forall i, j :: 0 <= i < j < |s| ==> rel(s[i], s[j])
    ensures forall i, j :: 0 <= i < j < |Filter(s, keep)| ==> rel(Filter(s, keep)[i], Filter(s, keep)[j])
  {
    if s != [] {
      var rest := Filter(s[1..], keep);
      FilterPairwise(s[1..], keep, rel);
      FilterMember(s[1..], keep);
      if keep(s[0]) {
        forall j | 0 <= j < |rest| ensures rel(s[0], rest[j]) {
          assert rest[j] in s[1..];
          var k :| 0 <= k < |s[1..]| && s[1..][k] == rest[j];
          assert s[k + 1] == rest[j];
        }
      }
    }
  }
}
