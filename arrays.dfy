/** The array helpers the bot calls on lists of ONUs: `Array.prototype.find`,
    `Array.prototype.filter` and the stable `Array.prototype.sort` of ECMAScript 2019,
    modelled as insertion of each element before the first later element it does
    not come after. */
module Arrays {
  import opened Wrappers

  /** The index of the element `xs.find(p)` returns, if any: the first that satisfies `p`. */
  function Find<T>(xs: seq<T>, p: T -> bool): (r: Option<nat>)
    ensures r.Some? ==> r.value < |xs| && p(xs[r.value]) && forall j :: 0 <= j < r.value ==> !p(xs[j])
    ensures r.None? ==> forall j :: 0 <= j < |xs| ==> !p(xs[j])
  {
    if xs == [] then None
    else if p(xs[0]) then Some(0)
    else match Find(xs[1..], p)
      case None => None
      case Some(k) => Some(k + 1)
  }

  /** `xs.filter(p)`, keeping order. */
  function Filter<T(!new)>(xs: seq<T>, p: T -> bool): (r: seq<T>)
    ensures |r| <= |xs|
    ensures forall x :: x in r <==> x in xs && p(x)
    ensures forall i :: 0 <= i < |r| ==> p(r[i])
  {
    if xs == [] then [] else if p(xs[0]) then [xs[0]] + Filter(xs[1..], p) else Filter(xs[1..], p)
  }

  /** Filtering one element more adds it at the end when it passes. */
  lemma {:induction false} FilterSnoc<T(!new)>(xs: seq<T>, x: T, p: T -> bool)
    ensures Filter(xs + [x], p) == Filter(xs, p) + (if p(x) then [x] else [])
    decreases |xs|
  {
    if xs == [] {
      assert xs + [x] == [x];
    } else {
      assert (xs + [x])[1..] == xs[1..] + [x];
      FilterSnoc(xs[1..], x, p);
    }
  }

  /** Filtering keeps every copy of an element that passes. */
  lemma {:induction false} FilterKeepsCopies<T(!new)>(xs: seq<T>, p: T -> bool, x: T)
    requires p(x)
    ensures multiset(Filter(xs, p))[x] == multiset(xs)[x]
    decreases |xs|
  {
    if xs != [] {
      FilterKeepsCopies(xs[1..], p, x);
      assert xs == [xs[0]] + xs[1..];
    }
  }

  /** Filtering by two conditions no element meets at once keeps, between the two, as
      many elements as filtering by either. */
  lemma {:induction false} FilterDisjointCount<T(!new)>(xs: seq<T>, p: T -> bool, q: T -> bool, either: T -> bool)
    requires forall x :: !(p(x) && q(x))
    requires forall x :: either(x) == (p(x) || q(x))
    ensures |Filter(xs, p)| + |Filter(xs, q)| == |Filter(xs, either)|
    decreases |xs|
  {
    if xs != [] {
      FilterDisjointCount(xs[1..], p, q, either);
    }
  }

  /** A comparator reduced to "a may stay in front of b". */
  ghost predicate Total<T(!new)>(le: (T, T) -> bool) {
    forall a, b :: le(a, b) || le(b, a)
  }

  ghost predicate Transitive<T(!new)>(le: (T, T) -> bool) {
    forall a, b, c :: le(a, b) && le(b, c) ==> le(a, c)
  }

  /** Every element may stay in front of the one after it. */
  ghost predicate Sorted<T>(s: seq<T>, le: (T, T) -> bool) {
    forall i :: 0 < i < |s| ==> le(s[i - 1], s[i])
  }

  /** Every element may stay in front of every later one. */
  ghost predicate SortedPairwise<T>(s: seq<T>, le: (T, T) -> bool) {
    forall i, j :: 0 <= i < j < |s| ==> le(s[i], s[j])
  }

  /** Put `x` in front of the first element of `s` it may precede. */
  function Insert<T>(x: T, s: seq<T>, le: (T, T) -> bool): (r: seq<T>)
    ensures |r| == |s| + 1
    ensures multiset(r) == multiset(s) + multiset{x}
    ensures r[0] == x || (s != [] && r[0] == s[0])
  {
    if s == [] then [x]
    else if le(x, s[0]) then [x] + s
    else
      assert s == [s[0]] + s[1..];
      [s[0]] + Insert(x, s[1..], le)
  }

  /** The stable sort: each element goes in front of the later elements it may precede,
      so elements the comparator calls equal keep their original order. */
  function Sort<T>(xs: seq<T>, le: (T, T) -> bool): (r: seq<T>)
    ensures multiset(r) == multiset(xs)
    ensures |r| == |xs|
  {
    if xs == [] then []
    else
      assert xs == [xs[0]] + xs[1..];
      Insert(xs[0], Sort(xs[1..], le), le)
  }

  lemma {:induction false} InsertSorted<T(!new)>(x: T, s: seq<T>, le: (T, T) -> bool)
    requires Total(le) && Sorted(s, le)
    ensures Sorted(Insert(x, s, le), le)
    decreases |s|
  {
    if s != [] && !le(x, s[0]) {
      assert le(s[0], x);
      var tail := s[1..];
      InsertSorted(x, tail, le);
      var r := Insert(x, s, le);
      assert r == [s[0]] + Insert(x, tail, le);
      forall i | 0 < i < |r| ensures le(r[i - 1], r[i]) {
        if i > 1 {
          assert r[i - 1] == Insert(x, tail, le)[i - 2];
        }
      }
    }
  }

  /** The sort orders its output whenever the comparator is total. */
  lemma {:induction false} SortSorted<T(!new)>(xs: seq<T>, le: (T, T) -> bool)
    requires Total(le)
    ensures Sorted(Sort(xs, le), le)
    decreases |xs|
  {
    if xs != [] {
      SortSorted(xs[1..], le);
      InsertSorted(xs[0], Sort(xs[1..], le), le);
    }
  }

  /** For a transitive comparator, neighbouring order gives global order. */
  lemma {:induction false} SortedToPairwise<T(!new)>(s: seq<T>, le: (T, T) -> bool)
    requires Transitive(le) && Sorted(s, le)
    ensures SortedPairwise(s, le)
    decreases |s|
  {
    if |s| > 1 {
      var tail := s[1..];
      SortedToPairwise(tail, le);
      forall i, j | 0 <= i < j < |s| ensures le(s[i], s[j]) {
        if i > 0 {
          assert s[i] == tail[i - 1] && s[j] == tail[j - 1];
        } else if j > 1 {
          assert le(s[0], s[1]) && s[1] == tail[0] && s[j] == tail[j - 1];
        }
      }
    }
  }

  /** The elements the comparator ranks level with `c`. */
  function LevelWith<T>(le: (T, T) -> bool, c: T): T -> bool {
    (x: T) => le(x, c) && le(c, x)
  }

  /** Inserting `x` passes over no element level with it, so among the elements
      level with `c` it lands in front of those already there. */
  lemma {:induction false} InsertKeepsLevelOrder<T(!new)>(x: T, s: seq<T>, le: (T, T) -> bool, c: T)
    requires Transitive(le)
    ensures Filter(Insert(x, s, le), LevelWith(le, c))
      == (if LevelWith(le, c)(x) then [x] else []) + Filter(s, LevelWith(le, c))
    decreases |s|
  {
    var level := LevelWith(le, c);
    if s != [] {
      if le(x, s[0]) {
        assert Insert(x, s, le) == [x] + s;
        assert ([x] + s)[1..] == s;
      } else {
        var tail := s[1..];
        InsertKeepsLevelOrder(x, tail, le, c);
        var r := Insert(x, s, le);
        assert r == [s[0]] + Insert(x, tail, le);
        assert r[1..] == Insert(x, tail, le);
        assert level(x) ==> !level(s[0]);
      }
    }
  }

  /** The sort is stable: the elements level with any `c` come out in the order they
      went in, for a transitive comparator. */
  lemma {:induction false} SortStable<T(!new)>(xs: seq<T>, le: (T, T) -> bool, c: T)
    requires Transitive(le)
    ensures Filter(Sort(xs, le), LevelWith(le, c)) == Filter(xs, LevelWith(le, c))
    decreases |xs|
  {
    if xs != [] {
      SortStable(xs[1..], le, c);
      InsertKeepsLevelOrder(xs[0], Sort(xs[1..], le), le, c);
    }
  }

  /** Sorting leaves an already sorted list as it is (stability on sorted input). */
  lemma {:induction false} SortOfSorted<T>(xs: seq<T>, le: (T, T) -> bool)
    requires Sorted(xs, le)
    ensures Sort(xs, le) == xs
    decreases |xs|
  {
    if xs != [] {
      var tail := xs[1..];
      assert Sorted(tail, le) by {
        forall i | 0 < i < |tail| ensures le(tail[i - 1], tail[i]) {
          assert tail[i - 1] == xs[i] && tail[i] == xs[i + 1];
        }
      }
      SortOfSorted(tail, le);
      if tail != [] {
        assert le(xs[0], tail[0]) by { assert xs[1] == tail[0]; }
      }
    }
  }
}
