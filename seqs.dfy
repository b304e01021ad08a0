/** Generic sequence operations behind the frontend's `Array.prototype.filter`,
    element-wise `map` with a condition, and the add-or-remove toggles. */
module Seqs {

  /** The set of elements of a sequence. */
  function Elems<T(!new)>(s: seq<T>): set<T> {
    set x | x in s
  }

  /** No element occurs twice. */
  ghost predicate NoDup<T(!new)>(s: seq<T>) {
    forall x :: multiset(s)[x] <= 1
  }

  /** `s.filter(p)`: keeps exactly the elements satisfying `p`. */
  function Filter<T(!new)>(s: seq<T>, p: T -> bool): (r: seq<T>)
    ensures |r| <= |s|
    ensures forall x :: x in r <==> x in s && p(x)
  {
    if s == [] then []
    else
      var rest := Filter(s[1..], p);
      if p(s[0]) then [s[0]] + rest else rest
  }

  /** Each kept element occurs in the filtered sequence exactly as often as in `s`. */
  lemma {:induction false} FilterCount<T(!new)>(s: seq<T>, p: T -> bool)
    ensures forall x :: multiset(Filter(s, p))[x] == if p(x) then multiset(s)[x] else 0
    decreases |s|
  {
    if s != [] {
      FilterCount(s[1..], p);
      assert s == [s[0]] + s[1..];
    }
  }

  /** `a` is obtained from `b` by deleting elements, keeping the order of the rest. */
  predicate IsSubsequence<T(==,!new)>(a: seq<T>, b: seq<T>)
    decreases |b|
  {
    a == [] || (b != [] && if a[0] == b[0] then IsSubsequence(a[1..], b[1..]) else IsSubsequence(a, b[1..]))
  }

  lemma {:induction false} FilterIsSubsequence<T(!new)>(s: seq<T>, p: T -> bool)
    ensures IsSubsequence(Filter(s, p), s)
    decreases |s|
  {
    if s != [] {
      var rest := Filter(s[1..], p);
      FilterIsSubsequence(s[1..], p);
      if p(s[0]) {
        assert Filter(s, p) == [s[0]] + rest;
        assert ([s[0]] + rest)[1..] == rest;
      } else {
        assert Filter(s, p) == rest;
        // s[0] fails p, so it cannot head the filtered rest
        assert rest != [] ==> rest[0] != s[0] by {
          if rest != [] { assert rest[0] in rest; }
        }
      }
    }
  }

  /** Filtering by a weaker predicate keeps at least as many copies of every element. */
  lemma FilterMonotone<T(!new)>(s: seq<T>, p: T -> bool, q: T -> bool)
    requires forall x :: p(x) ==> q(x)
    ensures multiset(Filter(s, p)) <= multiset(Filter(s, q))
  {
    FilterCount(s, p);
    FilterCount(s, q);
  }

  /** Filtering by predicates that agree on every element of `s` gives the same sequence. */
  lemma {:induction false} FilterCongruent<T(!new)>(s: seq<T>, p: T -> bool, q: T -> bool)
    requires forall i :: 0 <= i < |s| ==> p(s[i]) == q(s[i])
    ensures Filter(s, p) == Filter(s, q)
    decreases |s|
  {
    if s != [] {
      FilterCongruent(s[1..], p, q);
    }
  }

  /** Filtering by a predicate every element satisfies is the identity. */
  lemma {:induction false} FilterAll<T(!new)>(s: seq<T>, p: T -> bool)
    requires forall i :: 0 <= i < |s| ==> p(s[i])
    ensures Filter(s, p) == s
    decreases |s|
  {
    if s != [] {
      FilterAll(s[1..], p);
      assert s == [s[0]] + s[1..];
    }
  }

  /** Filtering distributes over concatenation. */
  lemma {:induction false} FilterAppend<T(!new)>(a: seq<T>, b: seq<T>, p: T -> bool)
    ensures Filter(a + b, p) == Filter(a, p) + Filter(b, p)
    decreases |a|
  {
    if a == [] {
      assert a + b == b;
    } else {
      var t := a[1..];
      FilterAppend(t, b, p);
      assert (a + b)[0] == a[0] && (a + b)[1..] == t + b;
      if p(a[0]) {
        assert Filter(a + b, p) == [a[0]] + Filter(t + b, p);
        assert Filter(a, p) == [a[0]] + Filter(t, p);
      } else {
        assert Filter(a + b, p) == Filter(t + b, p);
        assert Filter(a, p) == Filter(t, p);
      }
    }
  }

  /** Two predicates that never hold together split a sequence into disjoint parts. */
  lemma {:induction false} FilterDisjointLength<T(!new)>(s: seq<T>, p: T -> bool, q: T -> bool)
    requires forall x :: !(p(x) && q(x))
    ensures |Filter(s, p)| + |Filter(s, q)| <= |s|
    decreases |s|
  {
    if s != [] {
      FilterDisjointLength(s[1..], p, q);
    }
  }

  /** `s.map(x => p(x) ? f(x) : x)`: every element satisfying `p` is replaced by its image. */
  function MapWhere<T(!new)>(s: seq<T>, p: T -> bool, f: T -> T): (r: seq<T>)
    ensures |r| == |s|
    ensures forall i :: 0 <= i < |s| ==> r[i] == if p(s[i]) then f(s[i]) else s[i]
  {
    if s == [] then []
    else [if p(s[0]) then f(s[0]) else s[0]] + MapWhere(s[1..], p, f)
  }

  /** The add-or-remove toggle of a selection list: remove every occurrence of `x`
      when present, otherwise append it. */
  function Toggle<T(==,!new)>(s: seq<T>, x: T): (r: seq<T>)
    ensures x in r <==> x !in s
    ensures forall y :: y != x ==> (y in r <==> y in s)
  {
    if x in s then Filter(s, y => y != x) else s + [x]
  }

  lemma ToggleKeepsNoDup<T(!new)>(s: seq<T>, x: T)
    requires NoDup(s)
    ensures NoDup(Toggle(s, x))
  {
    if x in s {
      FilterCount(s, y => y != x);
    } else {
      forall y ensures multiset(s + [x])[y] <= 1 {
        assert multiset(s + [x]) == multiset(s) + multiset{x};
        if y == x { assert multiset(s)[y] == 0; }
      }
    }
  }

  /** Toggling the same item twice restores the selection as a set; when the item
      was absent it restores the very sequence. */
  lemma ToggleTwice<T(!new)>(s: seq<T>, x: T)
    ensures Elems(Toggle(Toggle(s, x), x)) == Elems(s)
    ensures x !in s ==> Toggle(Toggle(s, x), x) == s
  {
    forall y ensures y in Toggle(Toggle(s, x), x) <==> y in s {
    }
    if x !in s {
      FilterAppend(s, [x], y => y != x);
      FilterAll(s, y => y != x);
      assert Filter([x], y => y != x) == [];
    }
  }

  /** Without duplicates, a sequence has as many distinct elements as positions. */
  lemma {:induction false} NoDupCardinality<T(!new)>(s: seq<T>)
    requires NoDup(s)
    ensures |Elems(s)| == |s|
    decreases |s|
  {
    if s != [] {
      var t := s[1..];
      assert s == [s[0]] + t;
      assert multiset(s) == multiset{s[0]} + multiset(t);
      assert NoDup(t) by {
        forall x ensures multiset(t)[x] <= 1 {
          assert multiset(t)[x] <= multiset(s)[x];
        }
      }
      NoDupCardinality(t);
      assert multiset(t)[s[0]] == 0 by {
        assert multiset(s)[s[0]] == 1 + multiset(t)[s[0]];
      }
      assert Elems(s) == {s[0]} + Elems(t);
    }
  }

  /** A subset of the same finite size is the whole set. */
  lemma SubsetSameSize<T(!new)>(a: set<T>, b: set<T>)
    requires a <= b && |a| == |b|
    ensures a == b
  {
    if a != {} {
      var y :| y in a;
      SubsetSameSize(a - {y}, b - {y});
      assert a == (a - {y}) + {y};
      assert b == (b - {y}) + {y};
    }
  }

  /** The JavaScript test "same length and every element of `a` is in `b`" decides
      set equality on duplicate-free lists. */
  lemma SameLengthContainedIsSetEqual<T(!new)>(a: seq<T>, b: seq<T>)
    requires NoDup(a) && NoDup(b)
    ensures (|a| == |b| && forall x :: x in a ==> x in b) <==> Elems(a) == Elems(b)
  {
    NoDupCardinality(a);
    NoDupCardinality(b);
    if |a| == |b| && forall x :: x in a ==> x in b {
      SubsetSameSize(Elems(a), Elems(b));
    }
    if Elems(a) == Elems(b) {
      forall x | x in a ensures x in b {
        assert x in Elems(a);
      }
    }
  }
}
