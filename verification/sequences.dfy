/** The LINQ operators the result pipeline relies on, with the facts it needs about them. */
module Sequences {
  import opened Wrappers

  /** No element occurs twice. */
  ghost predicate NoDup<T>(s: seq<T>)
  {
    forall i, j :: 0 <= i < j < |s| ==> s[i] != s[j]
  }

  /** The position of the first occurrence of `x` in `s`. */
  function FirstIndex<T(==)>(s: seq<T>, x: T): (k: nat)
    requires x in s
    ensures k < |s| && s[k] == x
    ensures forall j :: 0 <= j < k ==> s[j] != x
  {
    if s[0] == x then 0
    else 1 + FirstIndex(s[1..], x)
  }

  /** `Enumerable.Distinct`: the first occurrence of every element, in the order of those occurrences. */
  function Distinct<T(==)>(s: seq<T>): (r: seq<T>)
    ensures NoDup(r)
    ensures forall i :: 0 <= i < |s| ==> s[i] in r
    ensures forall i :: 0 <= i < |r| ==> r[i] in s
    ensures |r| <= |s|
  {
    if s == [] then []
    else
      var d := Distinct(s[..|s| - 1]);
      var x := s[|s| - 1];
      assert s == s[..|s| - 1] + [x];
      if x in d then d else d + [x]
  }

  /** The first occurrence is the one with no occurrence before it. */
  lemma {:induction false} FirstIndexUnique<T>(s: seq<T>, x: T, k: nat)
    requires k < |s| && s[k] == x
    requires forall j :: 0 <= j < k ==> s[j] != x
    ensures FirstIndex(s, x) == k
  {
    if k > 0 {
      assert s[0] != x;
      assert s[1..][k - 1] == x;
      assert forall j :: 0 <= j < k - 1 ==> s[1..][j] == s[j + 1];
      FirstIndexUnique(s[1..], x, k - 1);
    }
  }

  /** A prefix finds an element where the whole sequence finds it. */
  lemma FirstIndexInPrefix<T>(s: seq<T>, n: nat, x: T)
    requires n <= |s| && x in s[..n]
    ensures x in s && FirstIndex(s, x) == FirstIndex(s[..n], x)
  {
    var k' := FirstIndex(s[..n], x);
    assert s[k'] == s[..n][k'];
    assert forall j :: 0 <= j < k' ==> s[j] == s[..n][j];
    FirstIndexUnique(s, x, k');
  }

  /** Distinct keeps the order of first occurrences: of two elements it returns,
      the one that occurs first in `s` comes first. */
  lemma {:induction false} DistinctKeepsFirstOccurrenceOrder<T>(s: seq<T>, i: nat, j: nat)
    requires i < j < |Distinct(s)|
    ensures Distinct(s)[i] in s && Distinct(s)[j] in s
    ensures FirstIndex(s, Distinct(s)[i]) < FirstIndex(s, Distinct(s)[j])
  {
    var p := s[..|s| - 1];
    var d := Distinct(p);
    var x := s[|s| - 1];
    assert p == s[..|p|];
    if j < |d| {
      assert Distinct(s)[i] == d[i] && Distinct(s)[j] == d[j];
      DistinctKeepsFirstOccurrenceOrder(p, i, j);
      FirstIndexInPrefix(s, |p|, d[i]);
      FirstIndexInPrefix(s, |p|, d[j]);
    } else {
      assert x !in d && Distinct(s) == d + [x];
      assert Distinct(s)[j] == x && Distinct(s)[i] == d[i];
      FirstIndexInPrefix(s, |p|, d[i]);
      forall k | 0 <= k < |p| ensures s[k] != x {
        assert s[k] == p[k] && p[k] in d;
      }
      FirstIndexUnique(s, x, |p|);
    }
  }

  /** Distinct of three elements: all of them when they differ, two when the first and last agree. */
  lemma DistinctOfThree<T>(a: T, b: T, c: T)
    ensures a != b && a != c && b != c ==> Distinct([a, b, c]) == [a, b, c]
    ensures a == c && a != b ==> Distinct([a, b, c]) == [a, b]
  {
    assert [a, b, c][..2] == [a, b];
    assert [a, b][..1] == [a];
    assert [a][..0] == [];
    assert Distinct([a]) == [a];
    if a != b {
      assert Distinct([a, b]) == [a, b];
    }
  }

  /** `Enumerable.Zip`: element i of the one paired with element i of the other,
      as many pairs as the shorter sequence has elements. */
  function Zip<A, B>(xs: seq<A>, ys: seq<B>): (r: seq<(A, B)>)
    ensures |r| == if |xs| <= |ys| then |xs| else |ys|
    ensures forall i :: 0 <= i < |r| ==> r[i] == (xs[i], ys[i])
  {
    if xs == [] || ys == [] then []
    else [(xs[0], ys[0])] + Zip(xs[1..], ys[1..])
  }

  /** Concatenation of the parts in order (repeated `List.AddRange`). */
  function Flatten<T>(ss: seq<seq<T>>): seq<T>
  {
    if ss == [] then [] else Flatten(ss[..|ss| - 1]) + ss[|ss| - 1]
  }

  /** Flattening the first parts gives a prefix of flattening all of them. */
  lemma {:induction false} FlattenPrefix<T>(ss: seq<seq<T>>, n: nat)
    requires n <= |ss|
    ensures Flatten(ss[..n]) <= Flatten(ss)
  {
    if n < |ss| {
      var p := ss[..|ss| - 1];
      assert ss[..n] == p[..n];
      FlattenPrefix(p, n);
    } else {
      assert ss[..n] == ss;
    }
  }

  /** No index drift: part i sits in the flattened sequence right after the parts before it. */
  lemma {:induction false} FlattenPartAt<T>(ss: seq<seq<T>>, i: nat)
    requires i < |ss|
    ensures |Flatten(ss[..i])| + |ss[i]| <= |Flatten(ss)|
    ensures Flatten(ss)[|Flatten(ss[..i])|..|Flatten(ss[..i])| + |ss[i]|] == ss[i]
  {
    FlattenPrefix(ss, i + 1);
    assert ss[..i + 1][..i] == ss[..i];
    assert Flatten(ss[..i + 1]) == Flatten(ss[..i]) + ss[i];
  }

  /** `Where(_ => _ != null)`. */
  function Present<T>(s: seq<Option<T>>): (r: seq<T>)
    ensures |r| <= |s|
  {
    if s == [] then []
    else (if s[0].Some? then [s[0].value] else []) + Present(s[1..])
  }

  /** Exactly the non-null entries are kept. */
  lemma {:induction false} PresentMembers<T>(s: seq<Option<T>>)
    ensures forall i :: 0 <= i < |Present(s)| ==> Some(Present(s)[i]) in s
    ensures forall i :: 0 <= i < |s| && s[i].Some? ==> s[i].value in Present(s)
  {
    if s != [] {
      var t := s[1..];
      PresentMembers(t);
      var head := if s[0].Some? then [s[0].value] else [];
      var r := Present(s);
      assert r == head + Present(t);
      forall i | 0 <= i < |r| ensures Some(r[i]) in s {
        if i >= |head| {
          assert r[i] == Present(t)[i - |head|];
          assert Some(r[i]) in t;
        }
      }
      forall i | 0 <= i < |s| && s[i].Some? ensures s[i].value in r {
        if i > 0 {
          assert s[i] == t[i - 1];
        }
      }
    }
  }

  /** A non-null entry is kept. */
  lemma PresentKeeps<T>(s: seq<Option<T>>, i: nat)
    requires i < |s| && s[i].Some?
    ensures s[i].value in Present(s)
  {
    PresentMembers(s);
  }

  /** A single entry is kept exactly when it is not null. */
  lemma PresentOfOne<T>(x: Option<T>)
    ensures Present([x]) == if x.Some? then [x.value] else []
  {
    assert [x][1..] == [];
  }

  /** Dropping nulls works entry by entry: it distributes over concatenation. */
  lemma {:induction false} PresentOfConcat<T>(a: seq<Option<T>>, b: seq<Option<T>>)
    ensures Present(a + b) == Present(a) + Present(b)
  {
    if a == [] {
      assert a + b == b;
    } else {
      var head := if a[0].Some? then [a[0].value] else [];
      PresentOfConcat(a[1..], b);
      assert (a + b)[0] == a[0];
      assert (a + b)[1..] == a[1..] + b;
      assert Present(a + b) == head + Present(a[1..] + b);
      assert Present(a) == head + Present(a[1..]);
    }
  }

  /** A kept value comes from a non-null entry. */
  lemma PresentMember<T>(s: seq<Option<T>>, x: T)
    requires x in Present(s)
    ensures Some(x) in s
  {
    PresentMembers(s);
    var p := Present(s);
    assert Some(p[FirstIndex(p, x)]) in s;
  }

  /** Past a first entry that is not `x`, `x` is found in the rest, one place later when
      the first entry was kept. */
  lemma PresentSkipsHead<T>(s: seq<Option<T>>, x: T)
    requires s != [] && s[0] != Some(x) && x in Present(s)
    ensures x in Present(s[1..])
    ensures FirstIndex(Present(s), x) == (if s[0].Some? then 1 else 0) + FirstIndex(Present(s[1..]), x)
  {
    var p := Present(s);
    if s[0].Some? {
      assert p == [s[0].value] + Present(s[1..]);
      assert p[1..] == Present(s[1..]);
    } else {
      assert p == Present(s[1..]);
    }
  }

  /** Dropping nulls keeps the order: of two kept values, the one found first in the result
      is also found first in the original list. */
  lemma {:induction false} PresentKeepsOrder<T>(s: seq<Option<T>>, x: T, y: T)
    requires x in Present(s) && y in Present(s)
    requires FirstIndex(Present(s), x) < FirstIndex(Present(s), y)
    ensures Some(x) in s && Some(y) in s && FirstIndex(s, Some(x)) < FirstIndex(s, Some(y))
  {
    var p := Present(s);
    PresentMember(s, x);
    PresentMember(s, y);
    if s[0] == Some(x) {
      assert x != y;
    } else {
      assert s[0] != Some(y);
      PresentSkipsHead(s, x);
      PresentSkipsHead(s, y);
      PresentKeepsOrder(s[1..], x, y);
      assert FirstIndex(s, Some(x)) == 1 + FirstIndex(s[1..], Some(x));
      assert FirstIndex(s, Some(y)) == 1 + FirstIndex(s[1..], Some(y));
    }
  }
}
