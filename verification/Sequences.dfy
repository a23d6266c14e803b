/** Distinct elements and first occurrences. */
module Sequences {
  /** acc, then the elements of s that are new, each at its first occurrence. */
  function Onto<T(==)>(acc: seq<T>, s: seq<T>): seq<T>
    decreases |s|
  {
    if s == [] then acc else Onto(if s[0] in acc then acc else acc + [s[0]], s[1..])
  }

  function Take<T>(s: seq<T>, n: nat): seq<T> { if |s| <= n then s else s[..n] }

  predicate Distinct<T(==)>(s: seq<T>) { forall i, j | 0 <= i < j < |s| :: s[i] != s[j] }

  lemma {:induction false} OntoConcat<T>(acc: seq<T>, s: seq<T>, t: seq<T>)
    ensures Onto(acc, s + t) == Onto(Onto(acc, s), t)
    decreases |s|
  {
    if s == [] { assert s + t == t; }
    else {
      assert (s + t)[0] == s[0] && (s + t)[1..] == s[1..] + t;
      OntoConcat(if s[0] in acc then acc else acc + [s[0]], s[1..], t);
    }
  }

  lemma OntoSnoc<T>(acc: seq<T>, s: seq<T>, x: T)
    ensures Onto(acc, s + [x]) == if x in Onto(acc, s) then Onto(acc, s) else Onto(acc, s) + [x]
  {
    OntoConcat(acc, s, [x]);
    assert [x][1..] == [];
  }

  /** Every element once, none lost and none invented, what was there stays in front. */
  lemma {:induction false} OntoKeeps<T>(acc: seq<T>, s: seq<T>)
    requires Distinct(acc)
    ensures Distinct(Onto(acc, s)) && acc <= Onto(acc, s)
    ensures forall x :: x in Onto(acc, s) <==> x in acc || x in s
    decreases |s|
  {
    if s != [] {
      OntoKeeps(if s[0] in acc then acc else acc + [s[0]], s[1..]);
      assert s == [s[0]] + s[1..];
    }
  }

  lemma OntoHas<T>(acc: seq<T>, s: seq<T>, x: T)
    requires Distinct(acc)
    ensures x in Onto(acc, s) <==> x in acc || x in s
  {
    OntoKeeps(acc, s);
  }

  /** Elements that are there already change nothing. */
  lemma {:induction false} OntoOld<T>(acc: seq<T>, s: seq<T>)
    requires forall x | x in s :: x in acc
    ensures Onto(acc, s) == acc
    decreases |s|
  {
    if s != [] { OntoOld(acc, s[1..]); }
  }

  lemma {:induction false} OntoNew<T>(acc: seq<T>, s: seq<T>)
    requires Distinct(acc + s)
    ensures Onto(acc, s) == acc + s
    decreases |s|
  {
    if s == [] { assert acc + s == acc; }
    else {
      assert acc + s == (acc + [s[0]]) + s[1..];
      assert (acc + s)[|acc|] == s[0] && forall i | 0 <= i < |acc| :: (acc + s)[i] == acc[i];
      OntoNew(acc + [s[0]], s[1..]);
    }
  }

  lemma DistinctMore<T>(s: seq<T>, x: T)
    requires Distinct(s) && x !in s
    ensures Distinct(s + [x])
  {
  }

  lemma DistinctPrefix<T>(xs: seq<T>, i: nat)
    requires i < |xs|
    ensures xs[i] !in xs[..i] <==> forall j | 0 <= j < i :: xs[j] != xs[i]
    ensures xs[..i] + [xs[i]] == xs[..i + 1]
  {
  }

  // ---- Taking one element out ----

  /** `s` with the first element equal to `x` removed, if there is one. */
  function Without<T(==)>(s: seq<T>, x: T): seq<T> {
    if s == [] then [] else if s[0] == x then s[1..] else [s[0]] + Without(s[1..], x)
  }

  lemma {:induction false} WithoutAbsent<T>(s: seq<T>, x: T)
    requires x !in s
    ensures Without(s, x) == s
  {
    if s != [] { WithoutAbsent(s[1..], x); }
  }

  lemma {:induction false} WithoutConcat<T>(a: seq<T>, b: seq<T>, x: T)
    ensures x !in a ==> Without(a + b, x) == a + Without(b, x)
    ensures x in a ==> Without(a + b, x) == Without(a, x) + b
  {
    if a == [] {
      assert a + b == b && a + Without(b, x) == Without(b, x);
    } else {
      assert (a + b)[0] == a[0] && (a + b)[1..] == a[1..] + b;
      WithoutConcat(a[1..], b, x);
      if a[0] == x {
      } else if x in a {
        assert x in a[1..];
        assert Without(a, x) + b == [a[0]] + (Without(a[1..], x) + b);
      } else {
        assert a + Without(b, x) == [a[0]] + (a[1..] + Without(b, x));
      }
    }
  }

  /** Removing what was put in front of no equal element restores the list. */
  lemma WithoutMiddle<T>(a: seq<T>, x: T, b: seq<T>)
    requires x !in a
    ensures Without(a + [x] + b, x) == a + b
  {
    assert a + [x] + b == a + ([x] + b) && ([x] + b)[1..] == b;
    WithoutConcat(a, [x] + b, x);
  }

  lemma {:induction false} WithoutParts<T>(s: seq<T>, x: T)
    ensures forall y | y in Without(s, x) :: y in s
    ensures forall y | y in s && y != x :: y in Without(s, x)
    ensures |Without(s, x)| <= |s|
  {
    if s != [] && s[0] != x {
      WithoutParts(s[1..], x);
      assert s == [s[0]] + s[1..];
    }
  }

  /** A last element that is not removed stays last. */
  lemma WithoutLast<T>(body: seq<T>, last: T, x: T)
    requires last != x
    ensures Without(body + [last], x) == Without(body, x) + [last]
  {
    WithoutConcat(body, [last], x);
    WithoutAbsent([last], x);
    if x !in body { WithoutAbsent(body, x); }
  }
}
