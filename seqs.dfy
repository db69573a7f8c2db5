/**
  The array operations the components use: `filter`, and the
  `[...new Set(xs)]` idiom, which keeps the first occurrence of every element
  in insertion order.
 */
module Seqs {

  /** `s.filter(p)`. */
  function Filter<T(!new)>(s: seq<T>, p: T -> bool): (r: seq<T>)
    ensures |r| <= |s|
    ensures forall x :: x in r <==> x in s && p(x)
  {
    if s == [] then [] else (if p(s[0]) then [s[0]] else []) + Filter(s[1..], p)
  }

  lemma ConsAssoc<T>(x: T, a: seq<T>, b: seq<T>)
    ensures [x] + (a + b) == ([x] + a) + b
  {
  }

  lemma EmptyPrefix<T>(a: seq<T>)
    ensures [] + a == a
  {
  }

  lemma EmptySuffixes<T>(a: seq<T>)
    ensures a + [] + [] + [] + [] + [] == a
  {
  }

  lemma FilterSix<T(!new)>(a: seq<T>, b: seq<T>, c: seq<T>, d: seq<T>, e: seq<T>, f: seq<T>, p: T -> bool)
    ensures Filter(a + b + c + d + e + f, p) == Filter(a, p) + Filter(b, p) + Filter(c, p) + Filter(d, p) + Filter(e, p) + Filter(f, p)
  {
    FilterConcat(a + b + c + d + e, f, p);
    FilterConcat(a + b + c + d, e, p);
    FilterConcat(a + b + c, d, p);
    FilterConcat(a + b, c, p);
    FilterConcat(a, b, p);
  }

  lemma FilterHead<T(!new)>(s: seq<T>, p: T -> bool)
    requires s != []
    ensures Filter(s, p) == (if p(s[0]) then [s[0]] else []) + Filter(s[1..], p)
  {
  }

  /** `a` is `b` with some elements left out and the rest in their original order. */
  predicate IsSubseq<T(==)>(a: seq<T>, b: seq<T>) {
    a == [] || (b != [] && ((a[0] == b[0] && IsSubseq(a[1..], b[1..])) || IsSubseq(a, b[1..])))
  }

  ghost predicate NoDup<T>(s: seq<T>) {
    forall i, j :: 0 <= i < j < |s| ==> s[i] != s[j]
  }

  /** A filter keeps the surviving elements in their original order. */
  lemma {:induction false} FilterIsSubseq<T(!new)>(s: seq<T>, p: T -> bool)
    ensures IsSubseq(Filter(s, p), s)
  {
    if s != [] {
      FilterIsSubseq(s[1..], p);
      if p(s[0]) {
        assert Filter(s, p) == [s[0]] + Filter(s[1..], p);
        assert Filter(s, p)[1..] == Filter(s[1..], p);
      } else {
        assert Filter(s, p) == Filter(s[1..], p);
      }
    }
  }

  /** Filtering by a stronger condition keeps a subsequence of what the weaker one keeps. */
  lemma {:induction false} FilterStronger<T(!new)>(s: seq<T>, strong: T -> bool, weak: T -> bool)
    requires forall x :: x in s && strong(x) ==> weak(x)
    ensures IsSubseq(Filter(s, strong), Filter(s, weak))
  {
    if s != [] {
      FilterStronger(s[1..], strong, weak);
      var a, b := Filter(s[1..], strong), Filter(s[1..], weak);
      if strong(s[0]) {
        assert Filter(s, strong) == [s[0]] + a && Filter(s, weak) == [s[0]] + b;
        assert ([s[0]] + a)[1..] == a && ([s[0]] + b)[1..] == b;
      } else if weak(s[0]) {
        assert Filter(s, strong) == a && Filter(s, weak) == [s[0]] + b;
        assert ([s[0]] + b)[1..] == b;
        SubseqDropHead(a, b, s[0]);
      } else {
        assert Filter(s, strong) == a && Filter(s, weak) == b;
      }
    }
  }

  /** A subsequence of `b` is also one of `[x] + b`. */
  lemma SubseqDropHead<T(!new)>(a: seq<T>, b: seq<T>, x: T)
    requires IsSubseq(a, b)
    ensures IsSubseq(a, [x] + b)
  {
    assert ([x] + b)[1..] == b;
  }

  lemma {:induction false} FilterConcat<T(!new)>(a: seq<T>, b: seq<T>, p: T -> bool)
    ensures Filter(a + b, p) == Filter(a, p) + Filter(b, p)
  {
    if a != [] {
      assert (a + b)[1..] == a[1..] + b;
      FilterConcat(a[1..], b, p);
    } else {
      assert a + b == b;
    }
  }

  /** A filter of a three-element list, written out. */
  lemma FilterOfThree<T(!new)>(a: T, b: T, c: T, p: T -> bool)
    ensures Filter([a, b, c], p) == (if p(a) then [a] else []) + (if p(b) then [b] else []) + (if p(c) then [c] else [])
  {
    assert [a, b, c][1..] == [b, c] && [b, c][1..] == [c] && [c][1..] == [];
    assert Filter([c], p) == (if p(c) then [c] else []) + Filter([], p);
    assert Filter([b, c], p) == (if p(b) then [b] else []) + Filter([c], p);
    assert Filter([a, b, c], p) == (if p(a) then [a] else []) + Filter([b, c], p);
  }

  /** A filter that drops some element of the list is shorter than the list. */
  lemma {:induction false} FilterDrops<T(!new)>(s: seq<T>, p: T -> bool, x: T)
    requires x in s && !p(x)
    ensures |Filter(s, p)| < |s|
  {
    if s[0] != x {
      FilterDrops(s[1..], p, x);
    }
  }

  /** Keeping everything keeps the list as it is. */
  lemma {:induction false} FilterAll<T(!new)>(s: seq<T>, p: T -> bool)
    requires forall x :: x in s ==> p(x)
    ensures Filter(s, p) == s
  {
    if s != [] {
      FilterAll(s[1..], p);
      assert s == [s[0]] + s[1..];
    }
  }

  /** Nothing passes a filter that rejects every element. */
  lemma {:induction false} FilterNone<T(!new)>(s: seq<T>, p: T -> bool)
    requires forall x :: x in s ==> !p(x)
    ensures Filter(s, p) == []
  {
    if s != [] {
      FilterNone(s[1..], p);
    }
  }

  /** A subsequence of a list without repeats has none either. */
  lemma {:induction false} SubseqOfDistinct<T>(a: seq<T>, b: seq<T>)
    requires IsSubseq(a, b) && NoDup(b)
    ensures NoDup(a)
    decreases |b|
  {
    if a != [] {
      assert b != [];
      assert NoDup(b[1..]) by {
        forall i, j | 0 <= i < j < |b[1..]| ensures b[1..][i] != b[1..][j] {
          assert b[1..][i] == b[i + 1] && b[1..][j] == b[j + 1];
        }
      }
      if a[0] == b[0] && IsSubseq(a[1..], b[1..]) {
        SubseqOfDistinct(a[1..], b[1..]);
        SubseqMembers(a[1..], b[1..]);
        forall i, j | 0 <= i < j < |a| ensures a[i] != a[j] {
          if i == 0 {
            assert a[j] == a[1..][j - 1] && a[j] in a[1..];
            assert a[j] in b[1..];
            var k :| 0 <= k < |b[1..]| && b[1..][k] == a[j];
            assert b[k + 1] == a[j];
          } else {
            assert a[i] == a[1..][i - 1] && a[j] == a[1..][j - 1];
          }
        }
      } else {
        SubseqOfDistinct(a, b[1..]);
      }
    }
  }

  /** A subsequence only holds elements of the list. */
  lemma {:induction false} SubseqMembers<T>(a: seq<T>, b: seq<T>)
    requires IsSubseq(a, b)
    ensures forall x :: x in a ==> x in b
    decreases |b|
  {
    if a != [] {
      if a[0] == b[0] && IsSubseq(a[1..], b[1..]) {
        SubseqMembers(a[1..], b[1..]);
        assert a == [a[0]] + a[1..];
      } else {
        SubseqMembers(a, b[1..]);
      }
      assert b == [b[0]] + b[1..];
    }
  }

  /** A subsequence of a list of distinct elements is fixed by which of them it holds. */
  lemma SubseqOfOne<T>(a: seq<T>, z: T)
    requires IsSubseq(a, [z])
    ensures a == (if z in a then [z] else [])
  {
    assert [z][1..] == [];
    if a != [] {
      assert a[0] == z && IsSubseq(a[1..], []);
    }
  }

  lemma SubseqOfTwo<T>(a: seq<T>, y: T, z: T)
    requires y != z && IsSubseq(a, [y, z])
    ensures a == (if y in a then [y] else []) + (if z in a then [z] else [])
  {
    assert [y, z][1..] == [z];
    if a != [] && a[0] == y && IsSubseq(a[1..], [z]) {
      SubseqOfOne(a[1..], z);
      assert a == [y] + a[1..];
    } else if a != [] {
      SubseqOfOne(a, z);
    }
  }

  lemma SubseqOfThree<T>(a: seq<T>, x: T, y: T, z: T)
    requires x != y && x != z && y != z && IsSubseq(a, [x, y, z])
    ensures a == (if x in a then [x] else []) + (if y in a then [y] else []) + (if z in a then [z] else [])
  {
    assert [x, y, z][1..] == [y, z];
    if a != [] && a[0] == x && IsSubseq(a[1..], [y, z]) {
      ThreeWithFirst(a, x, y, z);
    } else if a != [] {
      ThreeWithoutFirst(a, x, y, z);
    }
  }

  lemma ThreeWithFirst<T>(a: seq<T>, x: T, y: T, z: T)
    requires x != y && x != z && y != z && a != [] && a[0] == x && IsSubseq(a[1..], [y, z])
    ensures a == [x] + (if y in a then [y] else []) + (if z in a then [z] else [])
  {
    var t := a[1..];
    SubseqOfTwo(t, y, z);
    SubseqMembers(t, [y, z]);
    assert a == [x] + t;
    assert (y in a) == (y in t) && (z in a) == (z in t);
  }

  lemma ThreeWithoutFirst<T>(a: seq<T>, x: T, y: T, z: T)
    requires x != y && x != z && y != z && IsSubseq(a, [y, z])
    ensures x !in a
    ensures a == (if y in a then [y] else []) + (if z in a then [z] else [])
  {
    SubseqOfTwo(a, y, z);
    SubseqMembers(a, [y, z]);
  }

  /** The first occurrences of the elements of `s` not in `seen`, in order. */
  function DedupFrom<T(==)>(seen: set<T>, s: seq<T>): seq<T>
    decreases s
  {
    if s == [] then []
    else if s[0] in seen then DedupFrom(seen, s[1..])
    else [s[0]] + DedupFrom(seen + {s[0]}, s[1..])
  }

  /** `[...new Set(s)]`. */
  function Dedup<T(==)>(s: seq<T>): seq<T> {
    DedupFrom({}, s)
  }

  /** What `DedupFrom` keeps: the elements of `s` outside `seen`, each once, in first-occurrence order. */
  lemma {:induction false} DedupFromFacts<T(!new)>(seen: set<T>, s: seq<T>)
    decreases s
    ensures forall x :: x in DedupFrom(seen, s) <==> x in s && x !in seen
    ensures NoDup(DedupFrom(seen, s))
    ensures IsSubseq(DedupFrom(seen, s), s)
  {
    if s != [] {
      if s[0] in seen {
        DedupFromFacts(seen, s[1..]);
        SubseqDropHead(DedupFrom(seen, s[1..]), s[1..], s[0]);
        assert s == [s[0]] + s[1..];
      } else {
        var rest := DedupFrom(seen + {s[0]}, s[1..]);
        DedupFromFacts(seen + {s[0]}, s[1..]);
        assert DedupFrom(seen, s) == [s[0]] + rest;
        assert ([s[0]] + rest)[1..] == rest;
      }
    }
  }

  /** Deduplication drops repeats only: same elements, no repeats, original order of first occurrences. */
  lemma DedupFacts<T(!new)>(s: seq<T>)
    ensures forall x :: x in Dedup(s) <==> x in s
    ensures NoDup(Dedup(s))
    ensures IsSubseq(Dedup(s), s)
    ensures forall k :: 0 <= k < |s| ==>
      Dedup(s[..k + 1]) == if s[k] in s[..k] then Dedup(s[..k]) else Dedup(s[..k]) + [s[k]]
  {
    DedupFromFacts({}, s);
    DedupPrefixes(s);
  }

  /** Each prefix's deduplicated list grows by the next element exactly when that element is new. */
  lemma DedupPrefixes<T(!new)>(s: seq<T>)
    ensures forall k :: 0 <= k < |s| ==>
      Dedup(s[..k + 1]) == if s[k] in s[..k] then Dedup(s[..k]) else Dedup(s[..k]) + [s[k]]
  {
    forall k | 0 <= k < |s|
      ensures Dedup(s[..k + 1]) == if s[k] in s[..k] then Dedup(s[..k]) else Dedup(s[..k]) + [s[k]]
    {
      assert s[..k + 1] == s[..k] + [s[k]];
      DedupSnoc(s[..k], s[k]);
    }
  }

  /** Appending an element adds it at the end of the deduplicated list exactly when it is new. */
  lemma DedupSnoc<T(!new)>(a: seq<T>, x: T)
    ensures Dedup(a + [x]) == if x in a then Dedup(a) else Dedup(a) + [x]
  {
    DedupUnion(a, [x]);
    assert Dedup([x]) == [x] by {
      assert [x][1..] == [];
      assert DedupFrom({} + {x}, [x][1..]) == [];
    }
    assert Filter([x], y => y !in a) == if x in a then [] else [x];
  }

  /** Elements already seen in `extra` are dropped exactly as a later filter would drop them. */
  lemma {:induction false} DedupFromSeen<T(!new)>(extra: set<T>, seen: set<T>, s: seq<T>)
    decreases s
    ensures DedupFrom(extra + seen, s) == Filter(DedupFrom(seen, s), x => x !in extra)
  {
    var p := (x: T) => x !in extra;
    if s != [] {
      var h := s[0];
      if h in seen {
        DedupFromSeen(extra, seen, s[1..]);
      } else if h in extra {
        DedupFromSeen(extra, seen + {h}, s[1..]);
        assert extra + (seen + {h}) == extra + seen;
        assert Filter([h] + DedupFrom(seen + {h}, s[1..]), p) == Filter(DedupFrom(seen + {h}, s[1..]), p);
      } else {
        DedupFromSeen(extra, seen + {h}, s[1..]);
        assert extra + (seen + {h}) == (extra + seen) + {h};
        var tail := DedupFrom(seen + {h}, s[1..]);
        assert ([h] + tail)[1..] == tail;
      }
    }
  }

  /** Deduplicating from a start set consumes a prefix `a` and then continues with what it has seen. */
  lemma {:induction false} DedupFromConcat<T(!new)>(seen: set<T>, a: seq<T>, b: seq<T>)
    decreases a
    ensures DedupFrom(seen, a + b) == DedupFrom(seen, a) + DedupFrom(seen + (set x | x in a), b)
  {
    if a == [] {
      assert a + b == b;
      assert (set x | x in a) == {};
      assert seen + {} == seen;
    } else {
      assert (a + b)[0] == a[0] && (a + b)[1..] == a[1..] + b;
      var rest := set x | x in a[1..];
      assert (set x | x in a) == {a[0]} + rest;
      if a[0] in seen {
        DedupFromConcat(seen, a[1..], b);
        assert seen + ({a[0]} + rest) == seen + rest;
      } else {
        DedupFromConcat(seen + {a[0]}, a[1..], b);
        assert (seen + {a[0]}) + rest == seen + ({a[0]} + rest);
      }
    }
  }

  /**
    The deduplicated union `[...new Set([...a, ...b])]`: the distinct elements
    of `a` in first-occurrence order, then the distinct elements of `b` that
    `a` does not hold.
   */
  lemma DedupUnion<T(!new)>(a: seq<T>, b: seq<T>)
    ensures Dedup(a + b) == Dedup(a) + Filter(Dedup(b), x => x !in a)
  {
    DedupFromConcat({}, a, b);
    var sa := set x | x in a;
    assert {} + sa == sa + {};
    DedupFromSeen(sa, {}, b);
    assert Filter(Dedup(b), x => x !in sa) == Filter(Dedup(b), x => x !in a) by {
      FilterSameCondition(Dedup(b), x => x !in sa, x => x !in a);
    }
  }

  lemma {:induction false} FilterSameCondition<T(!new)>(s: seq<T>, p: T -> bool, q: T -> bool)
    requires forall x :: p(x) == q(x)
    ensures Filter(s, p) == Filter(s, q)
  {
    if s != [] {
      FilterSameCondition(s[1..], p, q);
    }
  }

  /** A list with no repeats is its own deduplication. */
  lemma {:induction false} DedupOfDistinct<T(!new)>(s: seq<T>)
    ensures NoDup(s) ==> Dedup(s) == s
  {
    if NoDup(s) {
      DedupFromDistinct({}, s);
    }
  }

  lemma {:induction false} DedupFromDistinct<T(!new)>(seen: set<T>, s: seq<T>)
    decreases s
    requires NoDup(s)
    requires forall x :: x in s ==> x !in seen
    ensures DedupFrom(seen, s) == s
  {
    if s != [] {
      assert forall x :: x in s[1..] ==> x != s[0] by {
        forall x | x in s[1..] ensures x != s[0] {
          var k :| 0 <= k < |s[1..]| && s[1..][k] == x;
          assert s[k + 1] == x;
        }
      }
      DedupFromDistinct(seen + {s[0]}, s[1..]);
    }
  }
}
