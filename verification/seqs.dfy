/** Sequence vocabulary shared by the trackers: duplicate freedom, the
    `position` / `Vec::remove` pair used to drop a label, and first-occurrence
    order. */
module Seqs {
  import opened Wrappers

  predicate NoDup<T(==)>(s: seq<T>)
  {
    forall i, j | 0 <= i < j < |s| :: s[i] != s[j]
  }

  function Elems<T>(s: seq<T>): set<T>
  {
    set x | x in s
  }

  ghost predicate Injective<T(!new), U>(f: T -> U)
  {
    forall a, b :: f(a) == f(b) ==> a == b
  }

  function Map<T, U>(f: T -> U, s: seq<T>): (r: seq<U>)
    ensures |r| == |s|
    ensures forall i :: 0 <= i < |s| ==> r[i] == f(s[i])
  {
    seq(|s|, i requires 0 <= i < |s| => f(s[i]))
  }

  /** Index of the first occurrence of `x` (`Iterator::position`). */
  function IndexOf<T(==)>(s: seq<T>, x: T): (r: Option<nat>)
    ensures r.None? <==> x !in s
    ensures r.Some? ==> r.value < |s| && s[r.value] == x && x !in s[..r.value]
  {
    if |s| == 0 then None
    else if s[0] == x then Some(0)
    else
      match IndexOf(s[1..], x)
      case None => None
      case Some(i) =>
        assert s[..i + 1] == [s[0]] + s[1..][..i];
        Some(i + 1)
  }

  /** Position of the first occurrence of `x`, or `|s|` when absent. */
  function Rank<T(==)>(s: seq<T>, x: T): (r: nat)
    ensures r <= |s|
    ensures r < |s| <==> x in s
  {
    match IndexOf(s, x)
    case Some(i) => i
    case None => |s|
  }

  /** Drop the first occurrence of `x`, if there is one, and keep the other
      elements in their order. */
  function RemoveFirst<T(==)>(s: seq<T>, x: T): (r: seq<T>)
    ensures x !in s ==> r == s
    ensures x in s ==> |r| == |s| - 1
    ensures NoDup(s) ==> r == Without(s, x)
  {
    match IndexOf(s, x)
    case None => s
    case Some(i) =>
      var r := s[..i] + s[i + 1..];
      if NoDup(s) then
        NoDupAfter(s, i);
        RemoveFirstIsWithout(s, x, i);
        r
      else r
  }

  /** Reference definition: keep every element other than `x`, in order. */
  function Without<T(==)>(s: seq<T>, x: T): (r: seq<T>)
    ensures x !in r
    ensures x !in s ==> r == s
  {
    if s == [] then []
    else if s[0] == x then Without(s[1..], x)
    else [s[0]] + Without(s[1..], x)
  }

  /** Removing `x` removes exactly `x` from the elements and keeps a
      duplicate-free sequence duplicate-free. */
  lemma {:induction false} WithoutElems<T>(s: seq<T>, x: T)
    ensures Elems(Without(s, x)) == Elems(s) - {x}
    ensures NoDup(s) ==> NoDup(Without(s, x))
    decreases |s|
  {
    if s != [] {
      var rest := Without(s[1..], x);
      WithoutElems(s[1..], x);
      assert Elems(s) == {s[0]} + Elems(s[1..]);
      if s[0] != x {
        var r := [s[0]] + rest;
        assert Elems(r) == {s[0]} + Elems(rest);
        if NoDup(s) {
          assert forall k | 0 <= k < |s[1..]| :: s[1..][k] != s[0];
          assert s[0] !in Elems(s[1..]);
          assert s[0] !in rest;
          assert forall i :: 1 <= i < |r| ==> r[i] == rest[i - 1];
        }
      }
    }
  }

  lemma {:induction false} WithoutConcat<T>(a: seq<T>, b: seq<T>, x: T)
    ensures Without(a + b, x) == Without(a, x) + Without(b, x)
    decreases |a|
  {
    if a == [] {
      assert a + b == b;
    } else {
      assert (a + b)[1..] == a[1..] + b;
      WithoutConcat(a[1..], b, x);
    }
  }

  /** Dropping the only occurrence of `x` is dropping every occurrence. */
  lemma {:induction false} RemoveFirstIsWithout<T>(s: seq<T>, x: T, i: nat)
    requires i < |s| && s[i] == x && x !in s[..i] && x !in s[i + 1..]
    ensures s[..i] + s[i + 1..] == Without(s, x)
  {
    var front, tail := s[..i], s[i + 1..];
    var rest := [x] + tail;
    assert s == front + rest;
    assert Without(rest, x) == tail by {
      assert rest[0] == x && rest[1..] == tail;
    }
    assert Without(front, x) == front;
    WithoutConcat(front, rest, x);
  }

  /** In a duplicate-free sequence an element does not recur after its
      position. */
  lemma NoDupAfter<T>(s: seq<T>, i: nat)
    requires NoDup(s) && i < |s|
    ensures s[i] !in s[i + 1..]
  {
    var tail := s[i + 1..];
    forall k | 0 <= k < |tail| ensures tail[k] != s[i] {
      assert tail[k] == s[i + 1 + k];
    }
  }

  lemma EmptyElems<T>(s: seq<T>)
    ensures Elems(s) == {} <==> s == []
  {
    if s != [] {
      assert s[0] in Elems(s);
    }
  }

  lemma {:induction false} NoDupCard<T>(s: seq<T>)
    requires NoDup(s)
    ensures |Elems(s)| == |s|
    decreases |s|
  {
    if s != [] {
      var tail := s[1..];
      forall k | 0 <= k < |tail| ensures tail[k] != s[0] {
        assert tail[k] == s[k + 1];
      }
      NoDupCard(tail);
      assert Elems(s) == {s[0]} + Elems(tail);
    }
  }

  /** Under an injective map, membership and element removal commute with
      mapping. */
  lemma {:induction false} MapWithout<T(!new), U>(f: T -> U, s: seq<T>, x: T)
    requires Injective(f)
    ensures Map(f, Without(s, x)) == Without(Map(f, s), f(x))
    decreases |s|
  {
    if s != [] {
      MapWithout(f, s[1..], x);
      assert Map(f, s)[1..] == Map(f, s[1..]);
      if s[0] != x {
        assert Map(f, [s[0]] + Without(s[1..], x)) == [f(s[0])] + Map(f, Without(s[1..], x));
      }
    }
  }

  lemma MapIn<T(!new), U>(f: T -> U, s: seq<T>, x: T)
    requires Injective(f)
    ensures f(x) in Map(f, s) <==> x in s
  {
    if f(x) in Map(f, s) {
      var i :| 0 <= i < |s| && Map(f, s)[i] == f(x);
      assert s[i] == x;
    }
    if x in s {
      var i :| 0 <= i < |s| && s[i] == x;
      assert Map(f, s)[i] == f(x);
    }
  }

  lemma MapNoDup<T(!new), U>(f: T -> U, s: seq<T>)
    requires Injective(f)
    requires NoDup(s)
    ensures NoDup(Map(f, s))
  {
  }

  /** `ys` lists each distinct element of `xs` once, ordered by where it
      first occurs in `xs`. */
  predicate FirstOccurrenceOrder<T(==)>(ys: seq<T>, xs: seq<T>)
  {
    && NoDup(ys)
    && Elems(ys) == Elems(xs)
    && forall i, j | 0 <= i < j < |ys| :: Rank(xs, ys[i]) < Rank(xs, ys[j])
  }

  lemma {:induction false} IndexOfAppend<T>(xs: seq<T>, x: T, y: T)
    ensures y in xs ==> IndexOf(xs + [x], y) == IndexOf(xs, y)
    ensures y !in xs && y == x ==> IndexOf(xs + [x], y) == Some(|xs|)
    decreases |xs|
  {
    if xs != [] {
      assert (xs + [x])[1..] == xs[1..] + [x];
      IndexOfAppend(xs[1..], x, y);
    }
  }

  /** Appending an element extends first-occurrence order: a new element goes
      last, a repeated one changes nothing. */
  lemma FirstOccurrenceAppend<T>(ys: seq<T>, xs: seq<T>, x: T)
    requires FirstOccurrenceOrder(ys, xs)
    ensures x in ys ==> FirstOccurrenceOrder(ys, xs + [x])
    ensures x !in ys ==> FirstOccurrenceOrder(ys + [x], xs + [x])
  {
    forall y | y in xs
      ensures Rank(xs + [x], y) == Rank(xs, y)
    {
      IndexOfAppend(xs, x, y);
    }
    assert Elems(xs + [x]) == Elems(xs) + {x};
    if x !in ys {
      IndexOfAppend(xs, x, x);
      var zs := ys + [x];
      forall i, j | 0 <= i < j < |zs|
        ensures Rank(xs + [x], zs[i]) < Rank(xs + [x], zs[j])
      {
        assert zs[i] == ys[i] && ys[i] in Elems(ys);
        if j < |ys| {
          assert zs[j] == ys[j] && ys[j] in Elems(ys);
        }
      }
      assert Elems(zs) == Elems(ys) + {x};
    } else {
      forall i | 0 <= i < |ys| ensures ys[i] in xs {
        assert ys[i] in Elems(ys);
      }
    }
  }

  /** The elements satisfying `f`, in order. */
  function Filter<T>(f: T -> bool, s: seq<T>): (r: seq<T>)
    ensures |r| <= |s|
    ensures forall i :: 0 <= i < |r| ==> f(r[i])
  {
    if s == [] then []
    else (if f(s[0]) then [s[0]] else []) + Filter(f, s[1..])
  }

  lemma {:induction false} FilterConcat<T>(f: T -> bool, a: seq<T>, b: seq<T>)
    ensures Filter(f, a + b) == Filter(f, a) + Filter(f, b)
    decreases |a|
  {
    if a == [] {
      assert a + b == b;
    } else {
      assert (a + b)[1..] == a[1..] + b;
      FilterConcat(f, a[1..], b);
    }
  }

  lemma {:induction false} FilterEmpty<T>(f: T -> bool, s: seq<T>)
    ensures Filter(f, s) == [] <==> forall i :: 0 <= i < |s| ==> !f(s[i])
    decreases |s|
  {
    if s != [] {
      FilterEmpty(f, s[1..]);
      assert forall i :: 1 <= i < |s| ==> s[i] == s[1..][i - 1];
    }
  }
}
