// Options, and the lists of strings the program sorts in place: sort.Strings, and
// the comparison EqualsStringSlice built on it.

module Sorting {

  datatype Option<+T> = None | Some(value: T)

  // Byte order on strings, as sort.Strings uses it.
  predicate Leq(a: string, b: string)
  {
    a == [] || (b != [] && (a[0] < b[0] || (a[0] == b[0] && Leq(a[1..], b[1..]))))
  }

  predicate FirstDifference(a: string, b: string, i: nat)
  {
    i < |a| && i < |b| && a[i] < b[i] && forall k | 0 <= k < i :: a[k] == b[k]
  }

  // A prefix comes first; otherwise the first difference decides.
  lemma {:induction false} LeqMeans(a: string, b: string)
    ensures Leq(a, b) <==> a <= b || exists i: nat :: FirstDifference(a, b, i)
  {
    if a != [] && b != [] && a[0] == b[0] {
      var x, y := a[1..], b[1..];
      LeqMeans(x, y);
      assert a == [a[0]] + x && b == [b[0]] + y;
      if exists i: nat :: FirstDifference(x, y, i) {
        var i: nat :| FirstDifference(x, y, i);
        assert FirstDifference(a, b, i + 1);
      }
      if exists i: nat :: FirstDifference(a, b, i) {
        var i: nat :| FirstDifference(a, b, i);
        assert FirstDifference(x, y, i - 1);
      }
    } else if a != [] && b != [] {
      assert a[0] < b[0] ==> FirstDifference(a, b, 0);
    }
  }

  lemma LeqTotal(a: string, b: string)
    ensures Leq(a, b) || Leq(b, a)
  {}

  lemma LeqAntisymmetric(a: string, b: string)
    requires Leq(a, b) && Leq(b, a)
    ensures a == b
  {
    if a != [] && b != [] {
      LeqAntisymmetric(a[1..], b[1..]);
      assert a == [a[0]] + a[1..] && b == [b[0]] + b[1..];
    }
  }

  lemma LeqTransitive(a: string, b: string, c: string)
    requires Leq(a, b) && Leq(b, c)
    ensures Leq(a, c)
  {}

  predicate Sorted(s: seq<string>)
  {
    forall i, j | 0 <= i < j < |s| :: Leq(s[i], s[j])
  }

  function Insert(x: string, s: seq<string>): (r: seq<string>)
    ensures multiset(r) == multiset(s) + multiset{x}
  {
    if s == [] then [x]
    else if Leq(x, s[0]) then [x] + s
    else
      assert s == [s[0]] + s[1..];
      [s[0]] + Insert(x, s[1..])
  }

  // The contents of a slice after sort.Strings.
  function Sort(s: seq<string>): (r: seq<string>)
    ensures multiset(r) == multiset(s)
    ensures |r| == |s|
  {
    if s == [] then []
    else
      assert s == [s[0]] + s[1..];
      var r := Insert(s[0], Sort(s[1..]));
      assert |multiset(r)| == |r| && |multiset(s)| == |s|;
      r
  }

  lemma {:induction false} InsertSorted(x: string, s: seq<string>)
    requires Sorted(s)
    ensures Sorted(Insert(x, s))
  {
    if s != [] {
      if Leq(x, s[0]) {
        forall j | 0 <= j < |s| ensures Leq(x, s[j]) {
          if 0 < j { LeqTransitive(x, s[0], s[j]); }
        }
      } else {
        LeqTotal(x, s[0]);
        InsertSorted(x, s[1..]);
        var r := Insert(x, s[1..]);
        forall j | 0 <= j < |r| ensures Leq(s[0], r[j]) {
          assert r[j] in multiset(r);
          assert r[j] == x || r[j] in s[1..];
        }
      }
    }
  }

  lemma {:induction false} SortSorts(s: seq<string>)
    ensures Sorted(Sort(s))
  {
    if s != [] {
      SortSorts(s[1..]);
      InsertSorted(s[0], Sort(s[1..]));
    }
  }

  lemma HeadIsLeast(a: seq<string>, x: string)
    requires Sorted(a) && x in a
    ensures Leq(a[0], x)
  {
    var i :| 0 <= i < |a| && a[i] == x;
    LeqReflexive(x);
  }

  lemma {:induction false} SortedUnique(a: seq<string>, b: seq<string>)
    requires Sorted(a) && Sorted(b) && multiset(a) == multiset(b)
    ensures a == b
  {
    if a == [] {
      assert |multiset(b)| == 0;
    } else {
      hide Leq;
      assert a[0] in multiset(a) && |multiset(b)| > 0;
      assert b[0] in multiset(b);
      HeadIsLeast(a, b[0]);
      HeadIsLeast(b, a[0]);
      LeqAntisymmetric(a[0], b[0]);
      assert a == [a[0]] + a[1..] && b == [b[0]] + b[1..];
      assert multiset(a[1..]) == multiset(a) - multiset{a[0]};
      assert multiset(b[1..]) == multiset(b) - multiset{b[0]};
      SortedUnique(a[1..], b[1..]);
    }
  }

  lemma LeqReflexive(a: string)
    ensures Leq(a, a)
  {}

  // Sorting forgets the order of a list and nothing else.
  lemma SortForgetsOrder(a: seq<string>, b: seq<string>)
    ensures Sort(a) == Sort(b) <==> multiset(a) == multiset(b)
    ensures Sort(Sort(a)) == Sort(a)
  {
    SortSorts(a);
    SortSorts(b);
    SortSorts(Sort(a));
    SortedUnique(Sort(a), Sort(Sort(a)));
    if multiset(a) == multiset(b) { SortedUnique(Sort(a), Sort(b)); }
    if Sort(a) == Sort(b) { assert multiset(Sort(a)) == multiset(a); }
  }

  function SortOpt(a: Option<seq<string>>): (r: Option<seq<string>>)
    ensures r.Some? <==> a.Some?
    ensures a.Some? ==> multiset(r.value) == multiset(a.value)
  {
    match a
    case None => None
    case Some(s) => Some(Sort(s))
  }

  // Equality of two optional lists up to order; nil and the empty list differ.
  predicate ListEq(a: Option<seq<string>>, b: Option<seq<string>>)
  {
    match (a, b)
    case (None, None) => true
    case (Some(s), Some(t)) => multiset(s) == multiset(t)
    case _ => false
  }

  lemma SortOptForgetsOrder(a: Option<seq<string>>, b: Option<seq<string>>)
    ensures SortOpt(a) == SortOpt(b) <==> ListEq(a, b)
    ensures SortOpt(SortOpt(a)) == SortOpt(a)
  {
    if a.Some? { SortForgetsOrder(a.value, a.value); }
    if a.Some? && b.Some? { SortForgetsOrder(a.value, b.value); }
  }

  lemma ListEqSymmetric(a: Option<seq<string>>, b: Option<seq<string>>)
    ensures ListEq(a, b) <==> ListEq(b, a)
  {}

  // The value behind a *[]string.
  function Deref(a: array?<string>): (r: Option<seq<string>>)
    reads a
    ensures r.None? <==> a == null
  {
    if a == null then None else Some(a[..])
  }

  // sort.Strings on a slice: the library's contract.
  method SortInPlace(a: array<string>)
    modifies a
    ensures a[..] == Sort(old(a[..]))
  {
    var s := Sort(a[..]);
    forall i | 0 <= i < a.Length { a[i] := s[i]; }
    assert a[..] == s;
  }

  // Compares two slices element by element.
  method SameElements(a: array<string>, b: array<string>) returns (eq: bool)
    ensures eq <==> a[..] == b[..]
  {
    if a.Length != b.Length {
      assert |a[..]| != |b[..]|;
      return false;
    }
    for i := 0 to a.Length
      invariant forall j | 0 <= j < i :: a[j] == b[j]
    {
      if a[i] != b[i] {
        assert a[..][i] != b[..][i];
        return false;
      }
    }
    return true;
  }

  // Two slices are equal up to order when sortIt is set. Both are then left sorted,
  // but only when neither is nil.
  method EqualsStringSlice(a: array?<string>, b: array?<string>, sortIt: bool) returns (eq: bool)
    modifies a, b
    ensures sortIt ==> (eq <==> ListEq(old(Deref(a)), old(Deref(b))))
    ensures !sortIt ==> (eq <==> old(Deref(a)) == old(Deref(b)))
    ensures sortIt && a != null && b != null ==>
              Deref(a) == SortOpt(old(Deref(a))) && Deref(b) == SortOpt(old(Deref(b)))
    ensures !sortIt || a == null || b == null ==>
              Deref(a) == old(Deref(a)) && Deref(b) == old(Deref(b))
  {
    if a == null && b == null { return true; }
    if a == null || b == null { return false; }
    if sortIt {
      SortForgetsOrder(a[..], b[..]);
      SortInPlace(a);
      SortInPlace(b);
    }
    eq := SameElements(a, b);
  }
}
