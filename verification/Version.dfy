/** Version strings, and the order that gates updates and old clients. */
module Version {
  import opened Wire
  import opened Decimal

  const MAX_INT := 0x7FFF_FFFF_FFFF_FFFF

  datatype Triple = Triple(major: int, minor: int, patch: int)

  predicate Less(a: Triple, b: Triple) {
    a.major < b.major || (a.major == b.major && (a.minor < b.minor || (a.minor == b.minor && a.patch < b.patch)))
  }

  // --- parsing -----------------------------------------------------------------------

  /** Where the first dot is, or the length if there is none. */
  function FirstDot(v: string): (i: nat)
    ensures i <= |v|
    ensures '.' !in v[..i] && (i < |v| ==> v[i] == '.')
  {
    if v == [] || v[0] == '.' then 0 else
      var i := 1 + FirstDot(v[1..]);
      assert v[..i] == [v[0]] + v[1..][..i - 1];
      i
  }

  /** Up to `n` fields between dots; the last one keeps any further dots. */
  function SplitN(v: string, n: nat): seq<string>
    requires n > 0
  {
    var i := FirstDot(v);
    if n == 1 || i == |v| then [v] else [v[..i]] + SplitN(v[i + 1..], n - 1)
  }

  /** strconv.Atoi: an optional sign, then digits, within 64 bits; None is an error. */
  function Atoi(s: string): Option<int> {
    var negative := s != [] && s[0] == '-';
    var digits := if s != [] && (s[0] == '-' || s[0] == '+') then s[1..] else s;
    if digits == [] || !AllDigits(digits) then None
    else
      var n: int := if negative then -(Value(digits) as int) else Value(digits);
      if -MAX_INT - 1 <= n <= MAX_INT then Some(n) else None
  }

  /** A field that is missing or not a number counts as 0. */
  function Field(fields: seq<string>, i: nat): int {
    if i < |fields| && Atoi(fields[i]).Some? then Atoi(fields[i]).value else 0
  }

  function Parts(v: string): Triple {
    var fields := SplitN(v, 3);
    Triple(Field(fields, 0), Field(fields, 1), Field(fields, 2))
  }

  method PartsOf(v: string) returns (out: array<int>)
    ensures out.Length == 3 && fresh(out)
    ensures Triple(out[0], out[1], out[2]) == Parts(v)
  {
    out := new int[3](_ => 0);
    var fields := SplitN(v, 3);
    var i := 0;
    while i < |fields| && i < 3
      invariant 0 <= i <= 3 && i <= |fields|
      invariant forall k :: 0 <= k < 3 ==> out[k] == if k < i then Field(fields, k) else 0
    {
      var n := Atoi(fields[i]);
      if n.Some? {
        out[i] := n.value;
      }
      i := i + 1;
    }
  }

  // --- comparing ------------------------------------------------------------------------

  function Order(a: Triple, b: Triple): int {
    if Less(a, b) then -1 else if Less(b, a) then 1 else 0
  }

  /** The scan over the three parts is the lexicographic order. */
  method Compare(a: string, b: string) returns (r: int)
    ensures r == Order(Parts(a), Parts(b))
    ensures r == -1 <==> Less(Parts(a), Parts(b))
    ensures r == 1 <==> Less(Parts(b), Parts(a))
    ensures r == 0 <==> Parts(a) == Parts(b)
  {
    var pa := PartsOf(a);
    var pb := PartsOf(b);
    var i := 0;
    while i < 3
      invariant 0 <= i <= 3
      invariant forall k :: 0 <= k < i ==> pa[k] == pb[k]
    {
      if pa[i] != pb[i] {
        if pa[i] < pb[i] {
          return -1;
        }
        return 1;
      }
      i := i + 1;
    }
    return 0;
  }

  predicate Newer(a: string, b: string) { Order(Parts(a), Parts(b)) > 0 }

  /** Comparing is a total preorder: the two ways round agree, equals are interchangeable, and it chains. */
  lemma CompareIsTotalPreorder(a: string, b: string, c: string)
    ensures Order(Parts(a), Parts(b)) == -Order(Parts(b), Parts(a))
    ensures Order(Parts(a), Parts(b)) == 0 ==> Order(Parts(a), Parts(c)) == Order(Parts(b), Parts(c))
    ensures Order(Parts(a), Parts(b)) <= 0 && Order(Parts(b), Parts(c)) <= 0 ==> Order(Parts(a), Parts(c)) <= 0
    ensures Newer(a, b) && Newer(b, c) ==> Newer(a, c)
  {
  }

  // --- writing and reading back ------------------------------------------------------------

  lemma {:induction false} FirstDotAfter(a: string, rest: string)
    requires '.' !in a
    ensures FirstDot(a + "." + rest) == |a| && FirstDot(a) == |a|
  {
    if a != [] {
      FirstDotAfter(a[1..], rest);
      assert (a + "." + rest)[1..] == a[1..] + "." + rest;
    }
  }

  lemma SplitAfter(a: string, rest: string, n: nat)
    requires '.' !in a && n > 1
    ensures SplitN(a + "." + rest, n) == [a] + SplitN(rest, n - 1)
  {
    FirstDotAfter(a, rest);
    var v := a + "." + rest;
    assert v[..|a|] == a && v[|a| + 1..] == rest;
  }

  lemma RenderIsField(n: nat)
    requires n <= MAX_INT
    ensures '.' !in Render(n) && Atoi(Render(n)) == Some(n)
  {
    ValueOfRender(n);
    assert IsDigit(Render(n)[0]);
  }

  /** What the fields of a version come to. */
  function TripleOf(fields: seq<string>): Triple { Triple(Field(fields, 0), Field(fields, 1), Field(fields, 2)) }

  lemma SplitInTwo(a: string, b: string)
    requires '.' !in a
    ensures SplitN(a + "." + b, 2) == [a, b]
  {
    SplitAfter(a, b, 2);
    assert [a] + [b] == [a, b];
  }

  /** A field in front of a version of two, or of one. */
  lemma {:induction false} FieldInFront(a: string, rest: string)
    requires '.' !in a
    ensures Parts(a + "." + rest) == TripleOf([a] + SplitN(rest, 2))
  {
    SplitAfter(a, rest, 3);
  }

  lemma NoDotNoSplit(a: string, n: nat)
    requires '.' !in a && n > 0
    ensures SplitN(a, n) == [a]
  {
    FirstDotAfter(a, "");
  }

  /** Any triple of 64-bit naturals, written in decimal, reads back as itself; a missing part reads as 0. */
  lemma {:induction false} WrittenReadsBack(major: nat, minor: nat, patch: nat)
    requires major <= MAX_INT && minor <= MAX_INT && patch <= MAX_INT
    ensures Parts(Render(major) + "." + Render(minor) + "." + Render(patch)) == Triple(major, minor, patch)
    ensures Parts(Render(major) + "." + Render(minor)) == Triple(major, minor, 0)
    ensures Parts(Render(major)) == Triple(major, 0, 0)
  {
    RenderIsField(major);
    RenderIsField(minor);
    RenderIsField(patch);
    var a, b, c := Render(major), Render(minor), Render(patch);
    assert a + "." + b + "." + c == a + "." + (b + "." + c);
    SplitInTwo(b, c);
    FieldInFront(a, b + "." + c);
    NoDotNoSplit(b, 2);
    FieldInFront(a, b);
    NoDotNoSplit(a, 3);
  }

  /** Signs are read, and what does not fit in 64 bits is not. */
  lemma SignsAndWidth(n: nat)
    ensures Atoi("+" + Render(n)) == Atoi(Render(n)) == if n <= MAX_INT then Some(n) else None
    ensures Atoi("-" + Render(n)) == if n <= MAX_INT + 1 then Some(-(n as int)) else None
  {
    ValueOfRender(n);
    assert IsDigit(Render(n)[0]);
    assert ("+" + Render(n))[1..] == Render(n) && ("-" + Render(n))[1..] == Render(n);
  }

  /** A field with anything but digits after its sign, or with none, is no number. */
  lemma OnlyNumbersRead(s: string, k: nat)
    ensures k < |s| && !IsDigit(s[k]) && !(k == 0 && s[0] in {'-', '+'}) ==> Atoi(s) == None
    ensures s in {"", "-", "+"} ==> Atoi(s) == None
  {
    if k < |s| && !IsDigit(s[k]) && k > 0 { assert s[1..][k - 1] == s[k]; }
  }

  /** There are three fields: a dot in what follows the second makes it no number. */
  lemma {:induction false} FurtherDotSpoilsThird(major: nat, minor: nat, rest: string, k: nat)
    requires major <= MAX_INT && minor <= MAX_INT && k < |rest| && rest[k] == '.'
    ensures Parts(Render(major) + "." + Render(minor) + "." + rest) == Triple(major, minor, 0)
  {
    RenderIsField(major);
    RenderIsField(minor);
    var a, b := Render(major), Render(minor);
    assert a + "." + b + "." + rest == a + "." + (b + "." + rest);
    SplitInTwo(b, rest);
    FieldInFront(a, b + "." + rest);
    OnlyNumbersRead(rest, k);
  }

  /** Of two versions the newer is the one ahead in the first part that differs. */
  lemma NewerIsAhead(v: string, v': string)
    ensures var p, q := Parts(v), Parts(v');
      Newer(v, v') <==>
        if p.major != q.major then p.major > q.major else if p.minor != q.minor then p.minor > q.minor else p.patch > q.patch
  {
  }

  // --- is "" the smallest version? ------------------------------------------------------------

  /** The first of the version's fields that is neither 0 nor unreadable is a negative number. */
  predicate LeadsNegative(v: string) {
    var fields := SplitN(v, 3);
    exists i :: 0 <= i < 3 && Field(fields, i) < 0 && forall j :: 0 <= j < i ==> Field(fields, j) == 0
  }

  lemma EmptyParts()
    ensures Parts("") == Triple(0, 0, 0)
  {
    assert SplitN("", 3) == [""];
  }

  /** Exactly the versions that lead with a negative number are below the empty one. */
  lemma BelowEmptyIffNegative(v: string)
    ensures Order(Parts(v), Parts("")) < 0 <==> LeadsNegative(v)
  {
    EmptyParts();
    var fields := SplitN(v, 3);
    var p := Parts(v);
    if Less(p, Triple(0, 0, 0)) {
      var i := if p.major < 0 then 0 else if p.minor < 0 then 1 else 2;
      assert Field(fields, i) < 0 && forall j :: 0 <= j < i ==> Field(fields, j) == 0;
    }
  }

  /** The documented claim fails for one such version, and holds for every version without a minus sign. */
  lemma EmptyIsNotSmallest()
    ensures Order(Parts("-1"), Parts("")) < 0
  {
    EmptyParts();
    FirstDotAfter("-1", "");
    assert SplitN("-1", 3) == ["-1"];
    assert "-1"[1..] == "1" && Value("1") == 1 by { assert "1"[..0] == []; }
  }

  lemma {:induction false} FieldsComeFrom(v: string, n: nat, c: char)
    requires n > 0 && c !in v
    ensures forall i :: 0 <= i < |SplitN(v, n)| ==> c !in SplitN(v, n)[i]
    decreases n
  {
    var i := FirstDot(v);
    if n > 1 && i < |v| {
      FieldsComeFrom(v[i + 1..], n - 1, c);
    }
  }

  lemma EmptyIsSmallestWithoutMinus(v: string)
    requires '-' !in v
    ensures Order(Parts(""), Parts(v)) <= 0
  {
    EmptyParts();
    FieldsComeFrom(v, 3, '-');
    assert forall i :: 0 <= i < 3 ==> Field(SplitN(v, 3), i) >= 0;
  }
}
