/**
 * The meaning of the three pipeline steps on sequences: Python's `filter`
 * (order-preserving selection), `sorted(xs, key=cmp_to_key(c))` (a stable
 * sort that orders by `c(a, b) < 0`), `heapq.nsmallest` by its documented
 * equivalence `sorted(xs, key=key)[:n]`, and mapping a transform.
 */
module Ranking {

  /** Order-preserving selection of the elements satisfying `p`. */
  function Filter<V>(p: V -> bool, s: seq<V>): (r: seq<V>)
    ensures |r| <= |s|
  {
    if s == [] then []
    else (if p(s[0]) then [s[0]] else []) + Filter(p, s[1..])
  }

  /** The survivors are exactly the input elements satisfying `p`. */
  lemma {:induction false} FilterMembers<V>(p: V -> bool, s: seq<V>)
    ensures forall i :: 0 <= i < |Filter(p, s)| ==> p(Filter(p, s)[i]) && Filter(p, s)[i] in s
    ensures forall i :: 0 <= i < |s| && p(s[i]) ==> s[i] in Filter(p, s)
  {
    if s != [] {
      FilterMembers(p, s[1..]);
      var r := Filter(p, s);
      var rest := Filter(p, s[1..]);
      assert r == (if p(s[0]) then [s[0]] else []) + rest;
      forall i | 0 <= i < |r| ensures p(r[i]) && r[i] in s {
        if !p(s[0]) || i > 0 {
          var j := if p(s[0]) then i - 1 else i;
          assert r[i] == rest[j];
          assert rest[j] in s[1..];
        }
      }
      forall i | 0 <= i < |s| && p(s[i]) ensures s[i] in r {
        if i > 0 {
          assert s[i] == s[1..][i - 1];
        }
      }
    }
  }

  /** Filtering distributes over concatenation: survivors keep their relative order. */
  lemma {:induction false} FilterAppend<V>(p: V -> bool, a: seq<V>, b: seq<V>)
    ensures Filter(p, a + b) == Filter(p, a) + Filter(p, b)
  {
    if a != [] {
      assert (a + b)[1..] == a[1..] + b;
      FilterAppend(p, a[1..], b);
    } else {
      assert a + b == b;
    }
  }

  /** The transform applied to every element, in order. */
  function Map<V, R>(f: V -> R, s: seq<V>): (r: seq<R>)
    ensures |r| == |s| && forall i :: 0 <= i < |s| ==> r[i] == f(s[i])
  {
    seq(|s|, i requires 0 <= i < |s| => f(s[i]))
  }

  /** What `cmp_to_key` makes of a comparator: `a` sorts before `b` when `c(a, b) < 0`. */
  predicate Less<V>(cmp: (V, V) -> int, a: V, b: V) {
    cmp(a, b) < 0
  }

  /**
   * A comparator that orders consistently: the relation `c(a, b) < 0` is a
   * strict weak order (asymmetric, and whenever `a < c` every `b` is above
   * `a` or below `c`), and `c(a, b) == 0` holds exactly for the pairs
   * neither of which sorts before the other. `cmp_to_key` keys compare equal
   * when the comparator returns 0, so this last clause is what makes the
   * keys' `==` agree with their order.
   */
  ghost predicate ConsistentComparator<V(!new)>(cmp: (V, V) -> int) {
    && (forall a, b :: cmp(a, b) < 0 ==> !(cmp(b, a) < 0))
    && (forall a, b, c :: cmp(a, c) < 0 ==> cmp(a, b) < 0 || cmp(b, c) < 0)
    && (forall a, b :: cmp(a, b) == 0 <==> !(cmp(a, b) < 0) && !(cmp(b, a) < 0))
  }

  /** Neither element sorts before the other. */
  predicate Equivalent<V>(cmp: (V, V) -> int, a: V, b: V) {
    !Less(cmp, a, b) && !Less(cmp, b, a)
  }

  /** No element sorts before an element ahead of it. */
  ghost predicate Sorted<V>(cmp: (V, V) -> int, s: seq<V>) {
    forall i, j :: 0 <= i < j < |s| ==> !Less(cmp, s[j], s[i])
  }

  /** Places `x` after every element it does not sort before: ties keep `x` last. */
  function Insert<V>(cmp: (V, V) -> int, x: V, s: seq<V>): (r: seq<V>)
    ensures multiset(r) == multiset(s) + multiset{x}
    ensures |r| == |s| + 1
  {
    if s == [] then [x]
    else if Less(cmp, x, s[0]) then [x] + s
    else
      assert s == [s[0]] + s[1..];
      [s[0]] + Insert(cmp, x, s[1..])
  }

  /** A stable sort: `sorted(s, key=cmp_to_key(cmp))`. */
  function Sort<V>(cmp: (V, V) -> int, s: seq<V>): (r: seq<V>)
    ensures multiset(r) == multiset(s)
    ensures |r| == |s|
    decreases |s|
  {
    if s == [] then []
    else
      assert s == s[..|s| - 1] + [s[|s| - 1]];
      Insert(cmp, s[|s| - 1], Sort(cmp, s[..|s| - 1]))
  }

  /** `heapq.nsmallest(n, s, key=cmp_to_key(cmp))`, i.e. `sorted(s, key=...)[:n]`. */
  function NSmallest<V>(n: int, cmp: (V, V) -> int, s: seq<V>): (r: seq<V>)
    ensures n <= 0 ==> r == []
    ensures 0 < n < |s| ==> r == Sort(cmp, s)[..n]
    ensures n >= |s| ==> r == Sort(cmp, s)
    ensures |r| == if n <= 0 then 0 else if n < |s| then n else |s|
  {
    var sorted := Sort(cmp, s);
    if n <= 0 then [] else if n < |sorted| then sorted[..n] else sorted
  }

  lemma {:induction false} InsertSorted<V(!new)>(cmp: (V, V) -> int, x: V, s: seq<V>)
    requires ConsistentComparator(cmp)
    requires Sorted(cmp, s)
    ensures Sorted(cmp, Insert(cmp, x, s))
  {
    if s != [] && !Less(cmp, x, s[0]) {
      InsertSorted(cmp, x, s[1..]);
      var r := Insert(cmp, x, s);
      var tail := Insert(cmp, x, s[1..]);
      assert r == [s[0]] + tail;
      forall j | 0 < j < |r| ensures !Less(cmp, r[j], s[0]) {
        assert r[j] == tail[j - 1];
        assert tail[j - 1] in multiset(tail);
        if tail[j - 1] != x {
          assert tail[j - 1] in multiset(s[1..]);
          var k :| 0 <= k < |s[1..]| && s[1..][k] == tail[j - 1];
          assert s[k + 1] == tail[j - 1];
        }
      }
    }
  }

  /** The result of a sort is sorted. */
  lemma {:induction false} SortSorted<V(!new)>(cmp: (V, V) -> int, s: seq<V>)
    requires ConsistentComparator(cmp)
    ensures Sorted(cmp, Sort(cmp, s))
    decreases |s|
  {
    if s != [] {
      SortSorted(cmp, s[..|s| - 1]);
      InsertSorted(cmp, s[|s| - 1], Sort(cmp, s[..|s| - 1]));
    }
  }

  /** The elements equivalent to `e`, in order. */
  function EquivalentTo<V>(cmp: (V, V) -> int, e: V, s: seq<V>): seq<V> {
    Filter(EquivalentToPredicate(cmp, e), s)
  }

  function EquivalentToPredicate<V>(cmp: (V, V) -> int, e: V): V -> bool {
    x => Equivalent(cmp, x, e)
  }

  /** Equivalence is transitive under a consistent comparator. */
  lemma EquivalentTransitive<V(!new)>(cmp: (V, V) -> int, a: V, b: V, c: V)
    requires ConsistentComparator(cmp)
    ensures Equivalent(cmp, a, b) && Equivalent(cmp, b, c) ==> Equivalent(cmp, a, c)
  {
  }

  lemma FilterNone<V>(p: V -> bool, s: seq<V>)
    requires forall i :: 0 <= i < |s| ==> !p(s[i])
    ensures Filter(p, s) == []
  {
    FilterMembers(p, s);
  }

  /**
   * In a sorted sequence whose first element is above `x`, no element is
   * equivalent to `x`.
   */
  lemma {:induction false} NoneEquivalentBelow<V(!new)>(cmp: (V, V) -> int, e: V, x: V, s: seq<V>)
    requires ConsistentComparator(cmp)
    requires Sorted(cmp, s) && s != [] && Less(cmp, x, s[0])
    requires Equivalent(cmp, x, e)
    ensures EquivalentTo(cmp, e, s) == []
  {
    forall k | 0 <= k < |s| ensures !Equivalent(cmp, s[k], e) {
      EquivalentTransitive(cmp, x, e, s[k]);
      if k > 0 {
        assert !Less(cmp, s[k], s[0]);
      }
    }
    FilterNone(EquivalentToPredicate(cmp, e), s);
  }

  /** When `x` goes in front, it comes last among the elements equivalent to `e` only if it is alone there. */
  lemma InsertStableInFront<V(!new)>(cmp: (V, V) -> int, e: V, x: V, s: seq<V>)
    requires ConsistentComparator(cmp)
    requires Sorted(cmp, s) && s != [] && Less(cmp, x, s[0])
    ensures EquivalentTo(cmp, e, [x] + s) == EquivalentTo(cmp, e, s) + EquivalentTo(cmp, e, [x])
  {
    var p := EquivalentToPredicate(cmp, e);
    FilterAppend(p, [x], s);
    if p(x) {
      NoneEquivalentBelow(cmp, e, x, s);
    } else {
      assert Filter(p, [x]) == [];
    }
  }

  /** Putting the same element in front of two sequences keeps a filtering identity between them. */
  lemma FilterConsStep<V>(p: V -> bool, y: V, a: seq<V>, b: seq<V>, c: seq<V>)
    requires Filter(p, a) == Filter(p, b) + Filter(p, c)
    ensures Filter(p, [y] + a) == Filter(p, [y] + b) + Filter(p, c)
  {
    var head, fb, fc := Filter(p, [y]), Filter(p, b), Filter(p, c);
    calc {
      Filter(p, [y] + a);
    == { FilterAppend(p, [y], a); }
      head + (fb + fc);
    == { SeqAppendAssociative(head, fb, fc); }
      (head + fb) + fc;
    == { FilterAppend(p, [y], b); }
      Filter(p, [y] + b) + fc;
    }
  }

  lemma SeqAppendAssociative<V>(a: seq<V>, b: seq<V>, c: seq<V>)
    ensures a + (b + c) == (a + b) + c
  {
  }

  /**
   * Inserting `x` into a sorted sequence puts it after every element
   * equivalent to it, so among the elements equivalent to `e` it comes last.
   */
  lemma {:induction false} InsertStable<V(!new)>(cmp: (V, V) -> int, e: V, x: V, s: seq<V>)
    requires ConsistentComparator(cmp)
    requires Sorted(cmp, s)
    ensures EquivalentTo(cmp, e, Insert(cmp, x, s))
         == EquivalentTo(cmp, e, s) + EquivalentTo(cmp, e, [x])
  {
    if s == [] {
      assert Insert(cmp, x, s) == [x];
    } else if Less(cmp, x, s[0]) {
      assert Insert(cmp, x, s) == [x] + s;
      InsertStableInFront(cmp, e, x, s);
    } else {
      InsertStable(cmp, e, x, s[1..]);
      assert Insert(cmp, x, s) == [s[0]] + Insert(cmp, x, s[1..]);
      FilterConsStep(EquivalentToPredicate(cmp, e), s[0], Insert(cmp, x, s[1..]), s[1..], [x]);
      assert [s[0]] + s[1..] == s;
    }
  }

  /**
   * Stability: elements that compare equal keep their input order; the
   * elements equivalent to any `e` appear in the sorted result exactly as in
   * the input.
   */
  lemma {:induction false} SortStable<V(!new)>(cmp: (V, V) -> int, e: V, s: seq<V>)
    requires ConsistentComparator(cmp)
    ensures EquivalentTo(cmp, e, Sort(cmp, s)) == EquivalentTo(cmp, e, s)
    decreases |s|
  {
    if s != [] {
      var init, last := s[..|s| - 1], s[|s| - 1];
      SortStable(cmp, e, init);
      SortSorted(cmp, init);
      InsertStable(cmp, e, last, Sort(cmp, init));
      assert init + [last] == s;
      FilterAppend(EquivalentToPredicate(cmp, e), init, [last]);
    }
  }

  /**
   * The ranking step of the generated pipeline: because `n` is the length of
   * the unfiltered partition, `nsmallest` keeps every survivor and only
   * reorders them.
   */
  lemma RankKeepsAllSurvivors<V>(p: V -> bool, cmp: (V, V) -> int, partition: seq<V>)
    ensures NSmallest(|partition|, cmp, Filter(p, partition)) == Sort(cmp, Filter(p, partition))
    ensures multiset(NSmallest(|partition|, cmp, Filter(p, partition))) == multiset(Filter(p, partition))
  {
  }
}
