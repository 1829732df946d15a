/** The painter's algorithm every scene draws its buildings with:
    `buildings.map((b, i) => ({ ...b, idx: i, depth: getBuildingDepth(b) }))
    .sort((a, b) => b.depth - a.depth)`, then each building is rendered by its
    `idx`. The depth of a building is the projected depth of its mid-height
    centre, so the farthest (largest depth) building is drawn first and nearer
    ones paint over it. `Array.prototype.sort` is stable, so buildings at equal
    depth keep their catalogue order. */
module DepthSort {
  import opened Geometry
  import opened Projection

  /** `getBuildingDepth(b) = project(b.x, b.h / 2, b.z).z`. The depth of
      `project` does not depend on the perspective divide, zoom or pan. */
  function BuildingDepth(rot: Rotation, x: real, h: real, z: real): (d: real)
    ensures d == Depth(rot, Point(x, h / 2.0, z))
    ensures rot == Level ==> d == z
  {
    Depth(rot, Point(x, h / 2.0, z))
  }

  /** A building tagged with its catalogue index and its depth. */
  datatype Keyed = Keyed(idx: nat, depth: real)

  /** `map((b, i) => ({ ...b, idx: i, depth }))`. */
  function Tag(depths: seq<real>): (ks: seq<Keyed>)
  {
    seq(|depths|, i requires 0 <= i < |depths| => Keyed(i, depths[i]))
  }

  /** x is painted before y: it is farther, or equally far and earlier in the
      catalogue. */
  predicate Before(x: Keyed, y: Keyed)
  {
    x.depth > y.depth || (x.depth == y.depth && x.idx < y.idx)
  }

  /** The order the sort returns for distinct indices. */
  predicate Ordered(s: seq<Keyed>)
  {
    forall i, j :: 0 <= i < j < |s| ==> Before(s[i], s[j])
  }

  /** Indices strictly increase along s, as they do after `Tag`. */
  predicate IndexOrdered(s: seq<Keyed>)
  {
    forall i, j :: 0 <= i < j < |s| ==> s[i].idx < s[j].idx
  }

  /** Stable insertion of k in front of every element that is not farther
      than it. */
  function Insert(k: Keyed, s: seq<Keyed>): (r: seq<Keyed>)
    ensures multiset(r) == multiset(s) + multiset{k}
    ensures |r| == |s| + 1
  {
    if s == [] then [k]
    else if k.depth >= s[0].depth then [k] + s
    else
      assert s == [s[0]] + s[1..];
      [s[0]] + Insert(k, s[1..])
  }

  /** The comparator sort `(a, b) => b.depth - a.depth`, stable. */
  function Sort(s: seq<Keyed>): (r: seq<Keyed>)
    ensures multiset(r) == multiset(s)
    ensures |r| == |s|
  {
    if s == [] then []
    else
      assert s == [s[0]] + s[1..];
      Insert(s[0], Sort(s[1..]))
  }

  /** Inserting an element that comes before-or-level with everything by
      index keeps the order. */
  lemma {:induction false} InsertOrdered(k: Keyed, s: seq<Keyed>)
    requires Ordered(s)
    requires forall x :: x in s ==> k.idx < x.idx
    ensures Ordered(Insert(k, s))
  {
    if s == [] {
    } else if k.depth >= s[0].depth {
      forall y | y in s
        ensures Before(k, y)
      {
        HeadFirst(s, y);
      }
      ConsOrdered(k, s);
    } else {
      assert s == [s[0]] + s[1..];
      OrderedTail(s);
      forall x | x in s[1..]
        ensures k.idx < x.idx
      {
        assert x in s;
      }
      InsertOrdered(k, s[1..]);
      var t := Insert(k, s[1..]);
      forall y | y in t
        ensures Before(s[0], y)
      {
        assert y in multiset(s[1..]) + multiset{k};
        if y != k {
          TailAfterHead(s, y);
        }
      }
      ConsOrdered(s[0], t);
    }
  }

  /** An element placed before everything in an ordered sequence extends it. */
  lemma ConsOrdered(x: Keyed, t: seq<Keyed>)
    requires Ordered(t) && forall y :: y in t ==> Before(x, y)
    ensures Ordered([x] + t)
  {
    var r := [x] + t;
    forall i, j | 0 <= i < j < |r|
      ensures Before(r[i], r[j])
    {
      if i == 0 {
        assert r[j] == t[j - 1];
      } else {
        assert r[i] == t[i - 1] && r[j] == t[j - 1];
      }
    }
  }

  /** Everything after the head of an ordered sequence comes after it. */
  lemma TailAfterHead(s: seq<Keyed>, y: Keyed)
    requires Ordered(s) && s != [] && y in s[1..]
    ensures Before(s[0], y)
  {
    var m :| 0 <= m < |s[1..]| && s[1..][m] == y;
    assert s[m + 1] == y;
  }

  /** Sorting a catalogue-ordered sequence yields the painter's order. */
  lemma {:induction false} SortOrdered(s: seq<Keyed>)
    requires IndexOrdered(s)
    ensures Ordered(Sort(s))
  {
    if s != [] {
      assert IndexOrdered(s[1..]) by {
        forall i, j | 0 <= i < j < |s[1..]|
          ensures s[1..][i].idx < s[1..][j].idx
        {
          assert s[i + 1].idx < s[j + 1].idx;
        }
      }
      SortOrdered(s[1..]);
      var t := Sort(s[1..]);
      forall x | x in t
        ensures s[0].idx < x.idx
      {
        assert x in multiset(t);
        assert x in multiset(s[1..]);
        var m :| 0 <= m < |s[1..]| && s[1..][m] == x;
        assert s[0].idx < s[m + 1].idx;
      }
      InsertOrdered(s[0], t);
    }
  }

  /** Before is a strict order: never both ways. */
  lemma BeforeAsymmetric(x: Keyed, y: Keyed)
    ensures !(Before(x, y) && Before(y, x))
  {
  }

  /** Dropping the first element keeps the order. */
  lemma OrderedTail(s: seq<Keyed>)
    requires Ordered(s) && s != []
    ensures Ordered(s[1..])
  {
    forall p, q | 0 <= p < q < |s[1..]|
      ensures Before(s[1..][p], s[1..][q])
    {
      assert Before(s[p + 1], s[q + 1]);
    }
  }

  /** The head of an ordered sequence comes before every other element. */
  lemma HeadFirst(s: seq<Keyed>, x: Keyed)
    requires Ordered(s) && x in s
    ensures x == s[0] || Before(s[0], x)
  {
    var k :| 0 <= k < |s| && s[k] == x;
    if k != 0 {
      assert Before(s[0], s[k]);
    }
  }

  /** Two ordered arrangements of the same non-empty multiset start with the
      same element. */
  lemma OrderedHeads(a: seq<Keyed>, b: seq<Keyed>)
    requires Ordered(a) && Ordered(b) && multiset(a) == multiset(b) && a != []
    ensures b != [] && a[0] == b[0]
  {
    assert a[0] in multiset(b) && a[0] in b;
    assert b[0] in multiset(a) && b[0] in a;
    HeadFirst(a, b[0]);
    HeadFirst(b, a[0]);
    BeforeAsymmetric(a[0], b[0]);
  }

  /** Equal multisets with equal heads have equal tails. */
  lemma TailMultiset(a: seq<Keyed>, b: seq<Keyed>)
    requires a != [] && b != [] && a[0] == b[0] && multiset(a) == multiset(b)
    ensures multiset(a[1..]) == multiset(b[1..])
  {
    assert a == [a[0]] + a[1..] && b == [b[0]] + b[1..];
    assert multiset(a[1..]) == multiset(a) - multiset{a[0]};
    assert multiset(b[1..]) == multiset(b) - multiset{b[0]};
  }

  /** Two ordered arrangements of the same buildings are the same sequence:
      the painter's order is determined by the depths and indices alone. */
  lemma {:induction false} OrderedUnique(a: seq<Keyed>, b: seq<Keyed>)
    requires Ordered(a) && Ordered(b) && multiset(a) == multiset(b)
    ensures a == b
  {
    if a == [] {
      assert |b| == |multiset(b)| == 0;
    } else {
      OrderedHeads(a, b);
      TailMultiset(a, b);
      OrderedTail(a);
      OrderedTail(b);
      OrderedUnique(a[1..], b[1..]);
      assert a == [a[0]] + a[1..] && b == [b[0]] + b[1..];
    }
  }

  /** The building indices in the order they are drawn. */
  function PaintOrder(depths: seq<real>): (order: seq<nat>)
  {
    var r := Sort(Tag(depths));
    seq(|r|, i requires 0 <= i < |r| => r[i].idx)
  }

  /** What the painter's sort promises: every building is drawn exactly once
      (the result is a rearrangement of 0 .. n-1), farther buildings are drawn
      first, equally deep ones in catalogue order, and this order is the only
      arrangement with those properties. */
  lemma PaintOrderCorrect(depths: seq<real>)
    ensures var r := Sort(Tag(depths));
      multiset(r) == multiset(Tag(depths)) && Ordered(r) &&
      forall o :: Ordered(o) && multiset(o) == multiset(Tag(depths)) ==> o == r
    ensures var order := PaintOrder(depths);
      |order| == |depths| &&
      (forall i :: 0 <= i < |order| ==> order[i] < |depths|) &&
      (forall i, j :: 0 <= i < j < |order| ==> order[i] != order[j]) &&
      (forall i, j :: 0 <= i < j < |order| ==> depths[order[i]] >= depths[order[j]])
  {
    var t := Tag(depths);
    var r := Sort(t);
    assert IndexOrdered(t);
    SortOrdered(t);
    forall o | Ordered(o) && multiset(o) == multiset(t)
      ensures o == r
    {
      OrderedUnique(o, r);
    }
    var order := PaintOrder(depths);
    forall i | 0 <= i < |r|
      ensures r[i].idx < |depths| && r[i].depth == depths[r[i].idx]
    {
      assert r[i] in multiset(t);
      var m :| 0 <= m < |t| && t[m] == r[i];
    }
    forall i, j | 0 <= i < j < |order|
      ensures order[i] != order[j] && depths[order[i]] >= depths[order[j]]
    {
      assert Before(r[i], r[j]);
    }
  }
}
