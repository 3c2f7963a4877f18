/** Geometry and stacking-order helpers: the inclusive point-in-image test,
    clamping, sorting by zIndex and promoting one image to the top. */
module Helpers {
  import opened Types

  // ---------------------------------------------------------------------------
  // Geometry
  // ---------------------------------------------------------------------------

  /** The inclusive scaled-rectangle test. It is defined once here and used both
      by IsPointInImage and by the drag hook's hit scan. */
  predicate InScaledRect(pos: Position, img: ImageElement, p: Position) {
    ScaledBounds(pos, img).Contains(p)
  }

  /** A point hits an image when it lies inside the image's scaled rectangle,
      all four edges included. */
  function IsPointInImage(image: CanvasImage, point: Position): (hit: bool)
    ensures hit <==>
      && image.pos.x <= point.x <= image.pos.x + image.img.width * SCALE_FACTOR
      && image.pos.y <= point.y <= image.pos.y + image.img.height * SCALE_FACTOR
  {
    InScaledRect(image.pos, image.img, point)
  }

  /** `Math.max(min, Math.min(max, value))`. When the bounds are inverted the
      outer max wins, so the result is `min`. */
  function Clamp(value: real, min: real, max: real): (r: real)
    ensures min <= max ==> min <= r <= max
    ensures min > max ==> r == min
    ensures min <= value <= max ==> r == value
    ensures value < min ==> r == min
    ensures min <= max < value ==> r == max
    ensures r == min || r == max || r == value
  {
    var capped := if max < value then max else value;
    if capped < min then min else capped
  }

  /** Clamping an already clamped value changes nothing. */
  lemma ClampIdempotent(value: real, min: real, max: real)
    ensures Clamp(Clamp(value, min, max), min, max) == Clamp(value, min, max)
  {
  }

  // ---------------------------------------------------------------------------
  // Sorting by zIndex
  // ---------------------------------------------------------------------------

  /** `a` may precede `b`: the comparator `a.zIndex - b.zIndex` (ascending) or
      `b.zIndex - a.zIndex` (descending) is not positive. */
  predicate InZOrder(a: CanvasImage, b: CanvasImage, ascending: bool) {
    if ascending then a.zIndex <= b.zIndex else a.zIndex >= b.zIndex
  }

  predicate SortedByZIndex(s: seq<CanvasImage>, ascending: bool) {
    forall i, j :: 0 <= i < j < |s| ==> InZOrder(s[i], s[j], ascending)
  }

  /** Inserts `x` before the first element it may precede, so that `x` stays
      ahead of the elements with an equal zIndex that followed it. */
  function InsertByZIndex(x: CanvasImage, s: seq<CanvasImage>, ascending: bool): (r: seq<CanvasImage>)
    requires SortedByZIndex(s, ascending)
    ensures |r| == |s| + 1
    ensures multiset(r) == multiset(s) + multiset{x}
    ensures SortedByZIndex(r, ascending)
    decreases |s|
  {
    if s == [] || InZOrder(x, s[0], ascending) then [x] + s
    else
      var rest := InsertByZIndex(x, s[1..], ascending);
      InsertBehindHead(x, s, rest, ascending);
      [s[0]] + rest
  }

  /** When `x` may not precede the head of a sorted `s`, putting that head in
      front of the insertion of `x` into the tail gives a sorted result. */
  lemma InsertBehindHead(x: CanvasImage, s: seq<CanvasImage>, rest: seq<CanvasImage>, ascending: bool)
    requires SortedByZIndex(s, ascending) && s != [] && !InZOrder(x, s[0], ascending)
    requires SortedByZIndex(rest, ascending)
    requires multiset(rest) == multiset(s[1..]) + multiset{x}
    ensures SortedByZIndex([s[0]] + rest, ascending)
    ensures multiset([s[0]] + rest) == multiset(s) + multiset{x}
  {
    forall j | 0 <= j < |rest|
      ensures InZOrder(s[0], rest[j], ascending)
    {
      var y := rest[j];
      assert y in multiset(rest);
      if y != x {
        assert y in multiset(s[1..]);
        var k :| 0 <= k < |s[1..]| && s[1..][k] == y;
        assert s[k + 1] == y;
      }
    }
    var r := [s[0]] + rest;
    forall i, j | 0 <= i < j < |r|
      ensures InZOrder(r[i], r[j], ascending)
    {
      if i == 0 {
        assert r[j] == rest[j - 1];
      } else {
        assert r[i] == rest[i - 1] && r[j] == rest[j - 1];
      }
    }
    assert s == [s[0]] + s[1..];
  }

  /** `[...images].sort(...)`: a sorted copy. The argument is a value, so the
      caller's array is untouched, as the spread copy guarantees. */
  function SortImagesByZIndex(images: seq<CanvasImage>, ascending: bool := true): (sorted: seq<CanvasImage>)
    ensures |sorted| == |images|
    ensures multiset(sorted) == multiset(images)
    ensures SortedByZIndex(sorted, ascending)
  {
    if images == [] then []
    else
      assert images == [images[0]] + images[1..];
      InsertByZIndex(images[0], SortImagesByZIndex(images[1..], ascending), ascending)
  }

  // ---------------------------------------------------------------------------
  // Promoting one image to the top
  // ---------------------------------------------------------------------------

  /** The comparator of resetZIndexes ranks the promoted id above every other
      id and otherwise compares zIndex. */
  function PromoteRank(a: CanvasImage, topImageId: string): (rank: int) {
    if a.id == topImageId then 1 else 0
  }

  predicate PromoteOrder(a: CanvasImage, b: CanvasImage, topImageId: string) {
    var ra, rb := PromoteRank(a, topImageId), PromoteRank(b, topImageId);
    ra < rb || (ra == rb && a.zIndex <= b.zIndex)
  }

  predicate SortedForPromotion(s: seq<CanvasImage>, topImageId: string) {
    forall i, j :: 0 <= i < j < |s| ==> PromoteOrder(s[i], s[j], topImageId)
  }

  predicate UniqueIds(s: seq<CanvasImage>) {
    forall i, j :: 0 <= i < j < |s| ==> s[i].id != s[j].id
  }

  /** `images.sort(comparator)`: reorders the caller's array in place. */
  method SortForPromotion(a: array<CanvasImage>, topImageId: string)
    modifies a
    ensures SortedForPromotion(a[..], topImageId)
    ensures multiset(a[..]) == multiset(old(a[..]))
  {
    var i := 0;
    while i < a.Length
      invariant 0 <= i <= a.Length
      invariant forall p, q :: 0 <= p < q < i ==> PromoteOrder(a[p], a[q], topImageId)
      invariant multiset(a[..]) == multiset(old(a[..]))
    {
      var j := i;
      while 0 < j && !PromoteOrder(a[j - 1], a[j], topImageId)
        invariant 0 <= j <= i
        invariant forall p, q :: 0 <= p < q <= i && p != j && q != j ==> PromoteOrder(a[p], a[q], topImageId)
        invariant forall q :: j < q <= i ==> PromoteOrder(a[j], a[q], topImageId)
        invariant multiset(a[..]) == multiset(old(a[..]))
      {
        a[j - 1], a[j] := a[j], a[j - 1];
        j := j - 1;
      }
      i := i + 1;
    }
  }

  /** `.map((img, index) => ({ ...img, zIndex: index }))`. */
  function Renumber(images: seq<CanvasImage>): (r: seq<CanvasImage>)
    ensures |r| == |images|
    ensures forall i :: 0 <= i < |r| ==> r[i].zIndex == i
    ensures forall i :: 0 <= i < |r| ==>
      r[i].id == images[i].id && r[i].img == images[i].img && r[i].pos == images[i].pos
  {
    seq(|images|, i requires 0 <= i < |images| => images[i].(zIndex := i))
  }

  /** resetZIndexes: sorts the caller's array in place so that `topImageId`
      comes last, then returns a renumbered copy. */
  method ResetZIndexes(images: array<CanvasImage>, topImageId: string) returns (reset: seq<CanvasImage>)
    modifies images
    ensures SortedForPromotion(images[..], topImageId)
    ensures multiset(images[..]) == multiset(old(images[..]))
    ensures reset == Renumber(images[..])
  {
    SortForPromotion(images, topImageId);
    reset := Renumber(images[..]);
  }

  function ZIndexes(images: seq<CanvasImage>): (zs: set<int>) {
    set img | img in images :: img.zIndex
  }

  /** The renumbered zIndex values are exactly 0..n-1: no gap, no repeat. */
  lemma RenumberDense(images: seq<CanvasImage>)
    ensures forall z :: z in ZIndexes(Renumber(images)) <==> 0 <= z < |images|
  {
    var r := Renumber(images);
    forall z | 0 <= z < |images|
      ensures z in ZIndexes(r)
    {
      assert r[z] in r;
    }
  }

  /** With unique ids, a value occurs exactly once. */
  lemma {:induction false} OccursOnce(s: seq<CanvasImage>, k: int)
    requires UniqueIds(s) && 0 <= k < |s|
    ensures multiset(s)[s[k]] == 1
  {
    var v := s[k];
    assert s == s[..k] + [v] + s[k + 1..];
    forall m | 0 <= m < |s| && m != k
      ensures s[m] != v
    {
      if m < k { assert s[m].id != s[k].id; } else { assert s[k].id != s[m].id; }
    }
    assert v !in s[..k];
    assert v !in s[k + 1..];
    calc {
      multiset(s)[v];
      multiset(s[..k])[v] + multiset([v])[v] + multiset(s[k + 1..])[v];
      1;
    }
  }

  /** Two positions holding the same value make it occur at least twice. */
  lemma OccursTwice(t: seq<CanvasImage>, i: int, j: int)
    requires 0 <= i < j < |t| && t[i] == t[j]
    ensures multiset(t)[t[i]] >= 2
  {
    assert t == t[..j] + t[j..];
    assert t[i] == t[..j][i];
    assert t[j] == t[j..][0];
    assert multiset(t) == multiset(t[..j]) + multiset(t[j..]);
  }

  /** Reordering a collection with unique ids keeps them unique. */
  lemma PermutationKeepsUniqueIds(before: seq<CanvasImage>, after: seq<CanvasImage>)
    requires UniqueIds(before)
    requires multiset(after) == multiset(before)
    ensures UniqueIds(after)
  {
    forall i, j | 0 <= i < j < |after|
      ensures after[i].id != after[j].id
    {
      assert after[i] in multiset(before) && after[j] in multiset(before);
      var a :| 0 <= a < |before| && before[a] == after[i];
      var b :| 0 <= b < |before| && before[b] == after[j];
      if a == b {
        OccursTwice(after, i, j);
        OccursOnce(before, a);
        assert false;
      }
      if a < b {
        assert before[a].id != before[b].id;
      } else {
        assert before[b].id != before[a].id;
      }
    }
  }

  /** resetZIndexes with unique ids and `topImageId` present: the promoted image
      ends last and is the only one with that id; every other image keeps
      ascending order of its old zIndex. */
  lemma PromotedToTop(before: seq<CanvasImage>, after: seq<CanvasImage>, topImageId: string)
    requires UniqueIds(before)
    requires exists k :: 0 <= k < |before| && before[k].id == topImageId
    requires multiset(after) == multiset(before)
    requires SortedForPromotion(after, topImageId)
    ensures |after| == |before| > 0
    ensures after[|after| - 1].id == topImageId
    ensures forall i :: 0 <= i < |after| - 1 ==> after[i].id != topImageId
    ensures forall i, j :: 0 <= i < j < |after| - 1 ==> after[i].zIndex <= after[j].zIndex
  {
    assert |after| == |multiset(after)| == |multiset(before)| == |before|;
    PermutationKeepsUniqueIds(before, after);
    var k :| 0 <= k < |before| && before[k].id == topImageId;
    assert before[k] in multiset(after);
    var m :| 0 <= m < |after| && after[m] == before[k];
    var n := |after|;
    // The last image ranks at least as high as the promoted one, so it is the
    // promoted one: ids are unique after the reordering.
    assert PromoteOrder(after[m], after[n - 1], topImageId) || m == n - 1;
  }

  /** resetZIndexes with an id that is not present: the array is simply sorted
      by ascending zIndex. */
  lemma AbsentTopSortsByZIndex(before: seq<CanvasImage>, after: seq<CanvasImage>, topImageId: string)
    requires forall k :: 0 <= k < |before| ==> before[k].id != topImageId
    requires multiset(after) == multiset(before)
    requires SortedForPromotion(after, topImageId)
    ensures SortedByZIndex(after, true)
  {
    forall i | 0 <= i < |after|
      ensures after[i].id != topImageId
    {
      assert after[i] in multiset(before);
    }
  }
}
