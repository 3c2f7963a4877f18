/** The drag hook: the image list, the positions it updates in place, the drag
    session (which image is held and the pointer offset), the three pointer
    handlers, and the paint calls of the render step. */
module CanvasDrag {
  import opened Types
  import Helpers

  // ---------------------------------------------------------------------------
  // Paint commands
  // ---------------------------------------------------------------------------

  /** Style of the outline drawn around the dragged image. */
  const HIGHLIGHT_COLOR: string := "green"
  const HIGHLIGHT_WIDTH: real := 2.0

  /** The three canvas calls the render step issues: `clearRect`,
      `strokeRect` with the highlight style, and `drawImage` at a scaled rect. */
  datatype Paint =
    | Clear(r: Rect)
    | Stroke(color: string, lineWidth: real, r: Rect)
    | Draw(id: string, r: Rect)

  /** The highlight rectangle: one unit outside the image on every side. */
  function Outline(r: Rect): (outline: Rect) {
    Rect(r.x - 1.0, r.y - 1.0, r.w + 2.0, r.h + 2.0)
  }

  // ---------------------------------------------------------------------------
  // The image list and the position record
  // ---------------------------------------------------------------------------

  predicate UniqueIds(images: seq<LoadedImage>) {
    forall i, j :: 0 <= i < j < |images| ==> images[i].id != images[j].id
  }

  /** Every image has an entry in the position record. */
  predicate Placed(images: seq<LoadedImage>, positions: map<string, Position>) {
    forall i :: 0 <= i < |images| ==> images[i].id in positions
  }

  /** Every image fits on a W x H canvas at display scale. */
  predicate Fits(images: seq<LoadedImage>, W: real, H: real) {
    forall i :: 0 <= i < |images| ==>
      images[i].img.ScaledWidth() <= W && images[i].img.ScaledHeight() <= H
  }

  /** Every image lies wholly on the W x H canvas. */
  predicate WithinCanvas(images: seq<LoadedImage>, positions: map<string, Position>, W: real, H: real)
    requires Placed(images, positions)
  {
    forall i :: 0 <= i < |images| ==>
      && 0.0 <= positions[images[i].id].x <= W - images[i].img.ScaledWidth()
      && 0.0 <= positions[images[i].id].y <= H - images[i].img.ScaledHeight()
  }

  /** The hit test of the press handler, on the image's current position. */
  predicate Hits(image: LoadedImage, positions: map<string, Position>, p: Position)
    requires image.id in positions
  {
    Helpers.InScaledRect(positions[image.id], image.img, p)
  }

  /** The image a press at `p` picks up: the first one, in load order, whose
      scaled rectangle contains `p`. */
  function FirstHit(images: seq<LoadedImage>, positions: map<string, Position>, p: Position): (r: Option<nat>)
    requires Placed(images, positions)
    ensures r.Some? ==>
      && r.value < |images|
      && Hits(images[r.value], positions, p)
      && forall i :: 0 <= i < r.value ==> !Hits(images[i], positions, p)
    ensures r.None? ==> forall i :: 0 <= i < |images| ==> !Hits(images[i], positions, p)
  {
    if images == [] then None
    else if Hits(images[0], positions, p) then Some(0)
    else match FirstHit(images[1..], positions, p)
      case None => None
      case Some(k) => Some(k + 1)
  }

  /** `images.find((img) => img.id === id)`, as an index. */
  function IndexOfId(images: seq<LoadedImage>, id: string): (r: Option<nat>)
    ensures r.Some? ==>
      && r.value < |images|
      && images[r.value].id == id
      && forall i :: 0 <= i < r.value ==> images[i].id != id
    ensures r.None? ==> forall i :: 0 <= i < |images| ==> images[i].id != id
  {
    if images == [] then None
    else if images[0].id == id then Some(0)
    else match IndexOfId(images[1..], id)
      case None => None
      case Some(k) => Some(k + 1)
  }

  /** The position the move handler writes for an image of intrinsic size `img`
      when the pointer is at (x, y) and the grab offset is (offsetX, offsetY). */
  function DragTarget(x: real, y: real, offsetX: real, offsetY: real, img: ImageElement, W: real, H: real): (target: Position) {
    Position(Helpers.Clamp(x - offsetX, 0.0, W - img.ScaledWidth()), Helpers.Clamp(y - offsetY, 0.0, H - img.ScaledHeight()))
  }

  /** A grab at `p` on an image at `pos0` stores the offset p - pos0; a later
      move to p + d that needs no clamping puts the image exactly at pos0 + d. */
  lemma OffsetInvariance(pos0: Position, img: ImageElement, p: Position, dx: real, dy: real, W: real, H: real)
    requires 0.0 <= pos0.x + dx <= W - img.ScaledWidth()
    requires 0.0 <= pos0.y + dy <= H - img.ScaledHeight()
    ensures DragTarget(p.x + dx, p.y + dy, p.x - pos0.x, p.y - pos0.y, img, W, H)
         == Position(pos0.x + dx, pos0.y + dy)
  {
  }

  /** Where two images under the pointer overlap, the press picks the one that
      comes first in load order, which is the one painted below the other. */
  lemma PressOnOverlapPicksEarlier(images: seq<LoadedImage>, positions: map<string, Position>, p: Position, i: nat, j: nat)
    requires Placed(images, positions)
    requires i < j < |images|
    requires Hits(images[i], positions, p) && Hits(images[j], positions, p)
    ensures FirstHit(images, positions, p).Some? && FirstHit(images, positions, p).value <= i
  {
  }

  // ---------------------------------------------------------------------------
  // The press handler's scan as written
  // ---------------------------------------------------------------------------

  /** How a JavaScript evaluation ends: with a value or with an exception. */
  datatype Completion<T> = Normal(value: T) | Throw(error: string)

  /** The `for...of` loop of handleDragStart with `test` standing for the call
      made on each image: the index of the first image the test accepts, or the
      exception that ended the loop. */
  function ScanImages(images: seq<LoadedImage>, positions: map<string, Position>, p: Position,
                      test: (Position, ImageElement, real, real) -> Completion<bool>): (c: Completion<Option<nat>>)
    requires Placed(images, positions)
    ensures c.Normal? && c.value.Some? ==>
      && c.value.value < |images|
      && test(positions[images[c.value.value].id], images[c.value.value].img, p.x, p.y) == Normal(true)
      && forall i :: 0 <= i < c.value.value ==>
           test(positions[images[i].id], images[i].img, p.x, p.y) == Normal(false)
    ensures c.Normal? && c.value.None? ==>
      forall i :: 0 <= i < |images| ==> test(positions[images[i].id], images[i].img, p.x, p.y) == Normal(false)
    ensures c.Throw? ==>
      exists k :: 0 <= k < |images|
        && test(positions[images[k].id], images[k].img, p.x, p.y) == Throw(c.error)
        && forall i :: 0 <= i < k ==> test(positions[images[i].id], images[i].img, p.x, p.y) == Normal(false)
  {
    if images == [] then Normal(None)
    else match test(positions[images[0].id], images[0].img, p.x, p.y)
      case Throw(e) => Throw(e)
      case Normal(true) => Normal(Some(0))
      case Normal(false) =>
        match ScanImages(images[1..], positions, p, test)
        case Normal(Some(k)) => Normal(Some(k + 1))
        case other => other
  }

  /** The call as intended: the inclusive scaled-rectangle test on the
      image's position and the pointer. */
  function IntendedTest(pos: Position, img: ImageElement, x: real, y: real): (c: Completion<bool>) {
    Normal(Helpers.InScaledRect(pos, img, Position(x, y)))
  }

  /** The call as written, `isPointInImage(pos, img, x, y)`, against the
      helper's parameters `({ pos, img }, { x, y })`: the first argument is a
      Position, which has no `pos` member, so the helper's first comparison
      reads `x` of undefined and throws, whatever the coordinates. */
  function IsPointInImageAsCalled(pos: Position, img: ImageElement, x: real, y: real): (c: Completion<bool>) {
    Throw("TypeError: Cannot read properties of undefined (reading 'x')")
  }

  /** With the intended call the scan is exactly FirstHit. */
  lemma {:induction false} IntendedScanIsFirstHit(images: seq<LoadedImage>, positions: map<string, Position>, p: Position)
    requires Placed(images, positions)
    ensures ScanImages(images, positions, p, IntendedTest) == Normal(FirstHit(images, positions, p))
  {
    if images != [] {
      IntendedScanIsFirstHit(images[1..], positions, p);
    }
  }

  /** As written, every press on a canvas with at least one image throws
      before anything is picked up or repainted. */
  lemma AsWrittenScanThrows(images: seq<LoadedImage>, positions: map<string, Position>, p: Position)
    requires Placed(images, positions)
    ensures ScanImages(images, positions, p, IsPointInImageAsCalled).Throw? <==> images != []
  {
  }

  /** One image of 200 x 200 at (10, 10), a press at (15, 15): the intended test
      picks it up, the call as written throws. */
  lemma MisCallCounterexample()
    ensures var images := [LoadedImage("turtle", ImageElement(200.0, 200.0))];
      var positions := map["turtle" := Position(10.0, 10.0)];
      && FirstHit(images, positions, Position(15.0, 15.0)) == Some(0)
      && ScanImages(images, positions, Position(15.0, 15.0), IsPointInImageAsCalled).Throw?
  {
  }

  // ---------------------------------------------------------------------------
  // The render step as a function of the state
  // ---------------------------------------------------------------------------

  /** The calls for one image: the highlight when it is the dragged one, then
      the image itself at display scale. */
  function ImagePaints(image: LoadedImage, pos: Position, dragging: Option<string>): (paints: seq<Paint>) {
    var bounds := ScaledBounds(pos, image.img);
    (if dragging == Some(image.id) then [Stroke(HIGHLIGHT_COLOR, HIGHLIGHT_WIDTH, Outline(bounds))] else [])
      + [Draw(image.id, bounds)]
  }

  /** The calls for all images, in load order. */
  function Layers(images: seq<LoadedImage>, positions: map<string, Position>, dragging: Option<string>): (paints: seq<Paint>)
    requires Placed(images, positions)
  {
    if images == [] then []
    else
      var last := images[|images| - 1];
      Layers(images[..|images| - 1], positions, dragging) + ImagePaints(last, positions[last.id], dragging)
  }

  /** One repaint of a W x H canvas: clear everything, then the layers. */
  function Frame(images: seq<LoadedImage>, positions: map<string, Position>, dragging: Option<string>, W: real, H: real): (paints: seq<Paint>)
    requires Placed(images, positions)
  {
    [Clear(Rect(0.0, 0.0, W, H))] + Layers(images, positions, dragging)
  }

  /** The `drawImage` calls of a command list, in order. */
  function DrawsOf(cmds: seq<Paint>): (draws: seq<Paint>) {
    if cmds == [] then []
    else DrawsOf(cmds[..|cmds| - 1]) + (if cmds[|cmds| - 1].Draw? then [cmds[|cmds| - 1]] else [])
  }

  lemma {:induction false} DrawsOfAppend(a: seq<Paint>, b: seq<Paint>)
    ensures DrawsOf(a + b) == DrawsOf(a) + DrawsOf(b)
    decreases |b|
  {
    if b == [] {
      assert a + b == a;
    } else {
      var b' := b[..|b| - 1];
      assert (a + b)[..|a + b| - 1] == a + b';
      DrawsOfAppend(a, b');
    }
  }

  /** One draw per image, in load order, each at the image's position and
      display scale. */
  lemma {:induction false} LayersDraws(images: seq<LoadedImage>, positions: map<string, Position>, dragging: Option<string>)
    requires Placed(images, positions)
    ensures |DrawsOf(Layers(images, positions, dragging))| == |images|
    ensures forall i :: 0 <= i < |images| ==>
      DrawsOf(Layers(images, positions, dragging))[i]
        == Draw(images[i].id, ScaledBounds(positions[images[i].id], images[i].img))
  {
    if images != [] {
      var init, last := images[..|images| - 1], images[|images| - 1];
      var p := ImagePaints(last, positions[last.id], dragging);
      LayersDraws(init, positions, dragging);
      DrawsOfAppend(Layers(init, positions, dragging), p);
      if dragging == Some(last.id) {
        assert p == [p[0]] + [p[1]];
        DrawsOfAppend([p[0]], [p[1]]);
        assert DrawsOf([p[0]]) == DrawsOf([]) + [];
      }
      assert DrawsOf(p) == [Draw(last.id, ScaledBounds(positions[last.id], last.img))];
    }
  }

  /** Within the layers a highlight is always immediately followed by the
      draw of the dragged image and lies one unit outside that draw; the dragged image's draw
      is always immediately preceded by a highlight; nothing is cleared. */
  lemma {:induction false} LayersHighlight(images: seq<LoadedImage>, positions: map<string, Position>, dragging: Option<string>)
    requires Placed(images, positions)
    ensures forall j :: 0 <= j < |Layers(images, positions, dragging)| ==>
      !Layers(images, positions, dragging)[j].Clear?
    ensures forall j :: 0 <= j < |Layers(images, positions, dragging)| && Layers(images, positions, dragging)[j].Stroke? ==>
      && j + 1 < |Layers(images, positions, dragging)|
      && Layers(images, positions, dragging)[j + 1].Draw?
      && dragging == Some(Layers(images, positions, dragging)[j + 1].id)
      && Layers(images, positions, dragging)[j]
         == Stroke(HIGHLIGHT_COLOR, HIGHLIGHT_WIDTH, Outline(Layers(images, positions, dragging)[j + 1].r))
    ensures forall j ::
      (0 <= j < |Layers(images, positions, dragging)| && Layers(images, positions, dragging)[j].Draw?
       && dragging == Some(Layers(images, positions, dragging)[j].id)) ==>
      0 < j && Layers(images, positions, dragging)[j - 1].Stroke?
  {
    if images != [] {
      var init, last := images[..|images| - 1], images[|images| - 1];
      var a := Layers(init, positions, dragging);
      var p := ImagePaints(last, positions[last.id], dragging);
      LayersHighlight(init, positions, dragging);
      var l := Layers(images, positions, dragging);
      assert l == a + p;
      forall j | 0 <= j < |l|
        ensures !l[j].Clear?
        ensures l[j].Stroke? ==>
          j + 1 < |l| && l[j + 1].Draw? && dragging == Some(l[j + 1].id)
          && l[j] == Stroke(HIGHLIGHT_COLOR, HIGHLIGHT_WIDTH, Outline(l[j + 1].r))
        ensures l[j].Draw? && dragging == Some(l[j].id) ==> 0 < j && l[j - 1].Stroke?
      {
        if j < |a| {
          assert l[j] == a[j];
          if j + 1 < |a| { assert l[j + 1] == a[j + 1]; }
        } else {
          assert l[j] == p[j - |a|];
          if j + 1 < |l| { assert l[j + 1] == p[j + 1 - |a|]; }
          if 0 < j - |a| { assert l[j - 1] == p[j - 1 - |a|]; }
        }
      }
    }
  }

  /** The render step: exactly one clear, of the whole W x H canvas, and it
      comes first; then one draw per image in load order. */
  lemma FrameClearsThenDraws(images: seq<LoadedImage>, positions: map<string, Position>, dragging: Option<string>, W: real, H: real)
    requires Placed(images, positions)
    ensures Frame(images, positions, dragging, W, H)[0] == Clear(Rect(0.0, 0.0, W, H))
    ensures forall j :: 0 < j < |Frame(images, positions, dragging, W, H)| ==>
      !Frame(images, positions, dragging, W, H)[j].Clear?
    ensures |DrawsOf(Frame(images, positions, dragging, W, H))| == |images|
    ensures forall i :: 0 <= i < |images| ==>
      DrawsOf(Frame(images, positions, dragging, W, H))[i]
        == Draw(images[i].id, ScaledBounds(positions[images[i].id], images[i].img))
  {
    var c := [Clear(Rect(0.0, 0.0, W, H))];
    var l := Layers(images, positions, dragging);
    LayersDraws(images, positions, dragging);
    LayersHighlight(images, positions, dragging);
    DrawsOfAppend(c, l);
    assert DrawsOf(c) == DrawsOf([]) + [];
    forall j | 0 < j < |c + l|
      ensures !(c + l)[j].Clear?
    {
      assert (c + l)[j] == l[j - 1];
    }
  }

  /** The render step: the only outline is the one immediately before the
      dragged image's draw, one unit outside it, green and two units wide;
      with no image held, or one whose id matches no image, nothing is outlined. */
  lemma FrameHighlight(images: seq<LoadedImage>, positions: map<string, Position>, dragging: Option<string>, W: real, H: real)
    requires Placed(images, positions)
    ensures forall j :: 0 <= j < |Frame(images, positions, dragging, W, H)| && Frame(images, positions, dragging, W, H)[j].Stroke? ==>
      && j + 1 < |Frame(images, positions, dragging, W, H)|
      && Frame(images, positions, dragging, W, H)[j + 1].Draw?
      && dragging == Some(Frame(images, positions, dragging, W, H)[j + 1].id)
      && Frame(images, positions, dragging, W, H)[j]
         == Stroke(HIGHLIGHT_COLOR, HIGHLIGHT_WIDTH, Outline(Frame(images, positions, dragging, W, H)[j + 1].r))
    ensures forall j ::
      (0 <= j < |Frame(images, positions, dragging, W, H)| && Frame(images, positions, dragging, W, H)[j].Draw?
       && dragging == Some(Frame(images, positions, dragging, W, H)[j].id)) ==>
      1 < j && Frame(images, positions, dragging, W, H)[j - 1].Stroke?
  {
    var c := [Clear(Rect(0.0, 0.0, W, H))];
    var l := Layers(images, positions, dragging);
    LayersHighlight(images, positions, dragging);
    var f := c + l;
    forall j | 0 <= j < |f|
      ensures f[j].Stroke? ==>
        j + 1 < |f| && f[j + 1].Draw? && dragging == Some(f[j + 1].id)
        && f[j] == Stroke(HIGHLIGHT_COLOR, HIGHLIGHT_WIDTH, Outline(f[j + 1].r))
      ensures f[j].Draw? && dragging == Some(f[j].id) ==> 1 < j && f[j - 1].Stroke?
    {
      if 0 < j {
        assert f[j] == l[j - 1];
        if j + 1 < |f| { assert f[j + 1] == l[j]; }
        if 1 < j { assert f[j - 1] == l[j - 2]; }
      }
    }
  }

  // ---------------------------------------------------------------------------
  // The hook's state and handlers
  // ---------------------------------------------------------------------------

  /** Pointer events, already mapped to canvas coordinates. */
  datatype MouseEvent =
    | MouseDown(x: real, y: real)
    | MouseMove(x: real, y: real)
    | MouseUp
    | MouseLeave

  /** The state the hook's closures share once every image has loaded. */
  class Canvas {
    const images: seq<LoadedImage>
    var imagePositions: map<string, Position>
    var dragging: Option<string>
    var offsetX: real
    var offsetY: real

    ghost predicate Valid()
      reads this
    {
      UniqueIds(images) && Placed(images, imagePositions)
    }

    /** `if (dragging)`: a held id counts only when it is a non-empty string. */
    predicate IsDragging()
      reads this
    {
      dragging.Some? && dragging.value != ""
    }

    /** The paint calls the current state yields on a W x H canvas. */
    function Scene(W: real, H: real): (paints: seq<Paint>)
      reads this
      requires Valid()
    {
      Frame(images, imagePositions, dragging, W, H)
    }

    /** The state after loading: each image at its starting position (the
        record is built by one pass over the images), nothing held. */
    constructor (images: seq<LoadedImage>, start: seq<Position>)
      requires UniqueIds(images) && |start| == |images|
      ensures Valid() && this.images == images
      ensures forall i :: 0 <= i < |images| ==> imagePositions[images[i].id] == start[i]
      ensures imagePositions.Keys == set i | 0 <= i < |images| :: images[i].id
      ensures dragging == None && offsetX == 0.0 && offsetY == 0.0
    {
      var acc: map<string, Position> := map[];
      var i := 0;
      while i < |images|
        invariant 0 <= i <= |images|
        invariant forall k :: 0 <= k < i ==> images[k].id in acc && acc[images[k].id] == start[k]
        invariant acc.Keys == set k | 0 <= k < i :: images[k].id
      {
        acc := acc[images[i].id := start[i]];
        i := i + 1;
      }
      this.images := images;
      imagePositions := acc;
      dragging := None;
      offsetX, offsetY := 0.0, 0.0;
    }

    /** drawImages: the paint calls of one repaint. */
    method DrawImages(W: real, H: real) returns (paints: seq<Paint>)
      requires Valid()
      ensures paints == Frame(images, imagePositions, dragging, W, H)
    {
      paints := [Clear(Rect(0.0, 0.0, W, H))];
      var i := 0;
      while i < |images|
        invariant 0 <= i <= |images|
        invariant paints == [Clear(Rect(0.0, 0.0, W, H))] + Layers(images[..i], imagePositions, dragging)
      {
        var image := images[i];
        var pos := imagePositions[image.id];
        if dragging == Some(image.id) {
          paints := paints + [Stroke(HIGHLIGHT_COLOR, HIGHLIGHT_WIDTH, Outline(ScaledBounds(pos, image.img)))];
        }
        paints := paints + [Draw(image.id, ScaledBounds(pos, image.img))];
        assert images[..i + 1][..i] == images[..i];
        i := i + 1;
      }
      assert images[..i] == images;
    }

    /** handleDragStart: pick up the first image in load order under the
        pointer, remembering the pointer's offset from its corner; a press that
        hits nothing changes nothing. Repaints either way. */
    method HandleDragStart(x: real, y: real, W: real, H: real) returns (paints: seq<Paint>)
      requires Valid()
      modifies this
      ensures Valid()
      ensures imagePositions == old(imagePositions)
      ensures match FirstHit(images, imagePositions, Position(x, y))
        case Some(k) =>
          && dragging == Some(images[k].id)
          && offsetX == x - imagePositions[images[k].id].x
          && offsetY == y - imagePositions[images[k].id].y
        case None =>
          dragging == old(dragging) && offsetX == old(offsetX) && offsetY == old(offsetY)
      ensures paints == Scene(W, H)
    {
      var p := Position(x, y);
      var i := 0;
      while i < |images|
        invariant 0 <= i <= |images|
        invariant forall k :: 0 <= k < i ==> !Hits(images[k], imagePositions, p)
        invariant dragging == old(dragging) && offsetX == old(offsetX) && offsetY == old(offsetY)
      {
        var pos := imagePositions[images[i].id];
        if Helpers.InScaledRect(pos, images[i].img, p) {
          dragging := Some(images[i].id);
          offsetX := x - pos.x;
          offsetY := y - pos.y;
          break;
        }
        i := i + 1;
      }
      paints := DrawImages(W, H);
    }

    /** handleDragging: while an image is held, move it so that the grab
        offset is kept, clamped to the canvas; every other position stays.
        When nothing is held, nothing changes and nothing is repainted. */
    method HandleDragging(x: real, y: real, W: real, H: real) returns (paints: seq<Paint>)
      requires Valid()
      modifies this
      ensures Valid()
      ensures dragging == old(dragging) && offsetX == old(offsetX) && offsetY == old(offsetY)
      ensures !IsDragging() ==> imagePositions == old(imagePositions) && paints == []
      ensures IsDragging() ==> paints == Scene(W, H)
      ensures IsDragging() ==> match IndexOfId(images, dragging.value)
        case None => imagePositions == old(imagePositions)
        case Some(k) =>
          imagePositions == old(imagePositions)[dragging.value :=
            Position(Helpers.Clamp(x - offsetX, 0.0, W - images[k].img.width * SCALE_FACTOR),
                     Helpers.Clamp(y - offsetY, 0.0, H - images[k].img.height * SCALE_FACTOR))]
      ensures Fits(images, W, H) && old(WithinCanvas(images, imagePositions, W, H)) ==>
        WithinCanvas(images, imagePositions, W, H)
    {
      paints := [];
      if IsDragging() {
        var id := dragging.value;
        var found := IndexOfId(images, id);
        if found.Some? {
          var image := images[found.value];
          imagePositions := imagePositions[id := DragTarget(x, y, offsetX, offsetY, image.img, W, H)];
        }
        paints := DrawImages(W, H);
      }
    }

    /** handleDragEnd (pointer released or left the canvas): let go, keep
        every position, repaint. A second call changes nothing more. */
    method HandleDragEnd(W: real, H: real) returns (paints: seq<Paint>)
      requires Valid()
      modifies this
      ensures Valid()
      ensures dragging == None
      ensures imagePositions == old(imagePositions) && offsetX == old(offsetX) && offsetY == old(offsetY)
      ensures paints == Scene(W, H)
    {
      dragging := None;
      paints := DrawImages(W, H);
    }

    /** The listeners: press starts a drag, move drags, release and leaving
        the canvas both end it. */
    method Dispatch(e: MouseEvent, W: real, H: real) returns (paints: seq<Paint>)
      requires Valid()
      modifies this
      ensures Valid()
      ensures e.MouseDown? ==>
        && imagePositions == old(imagePositions)
        && paints == Scene(W, H)
        && match FirstHit(images, imagePositions, Position(e.x, e.y))
           case Some(k) =>
             dragging == Some(images[k].id) && offsetX == e.x - imagePositions[images[k].id].x
             && offsetY == e.y - imagePositions[images[k].id].y
           case None =>
             dragging == old(dragging) && offsetX == old(offsetX) && offsetY == old(offsetY)
      ensures e.MouseMove? ==> dragging == old(dragging) && offsetX == old(offsetX) && offsetY == old(offsetY)
      ensures e.MouseMove? && !old(IsDragging()) ==> imagePositions == old(imagePositions) && paints == []
      ensures e.MouseMove? && old(IsDragging()) ==> paints == Scene(W, H)
      ensures e.MouseMove? && old(IsDragging()) ==>
        match IndexOfId(images, dragging.value)
        case None => imagePositions == old(imagePositions)
        case Some(k) =>
          imagePositions == old(imagePositions)[dragging.value := DragTarget(e.x, e.y, offsetX, offsetY, images[k].img, W, H)]
      ensures (e.MouseUp? || e.MouseLeave?) ==>
        && dragging == None && offsetX == old(offsetX) && offsetY == old(offsetY)
        && imagePositions == old(imagePositions) && paints == Scene(W, H)
      ensures Fits(images, W, H) && old(WithinCanvas(images, imagePositions, W, H)) ==>
        WithinCanvas(images, imagePositions, W, H)
    {
      match e
      case MouseDown(x, y) => paints := HandleDragStart(x, y, W, H);
      case MouseMove(x, y) => paints := HandleDragging(x, y, W, H);
      case MouseUp => paints := HandleDragEnd(W, H);
      case MouseLeave => paints := HandleDragEnd(W, H);
    }

    /** Any sequence of pointer events keeps every image wholly on a canvas it
        fits on. */
    method HandleEvents(events: seq<MouseEvent>, W: real, H: real)
      requires Valid()
      requires Fits(images, W, H) && WithinCanvas(images, imagePositions, W, H)
      modifies this
      ensures Valid() && WithinCanvas(images, imagePositions, W, H)
    {
      for n := 0 to |events|
        invariant Valid() && WithinCanvas(images, imagePositions, W, H)
      {
        var _ := Dispatch(events[n], W, H);
      }
    }

    /** A grab on an image followed by a move by (dx, dy) that needs no
        clamping moves that image by exactly (dx, dy). */
    method GrabAndMove(x: real, y: real, dx: real, dy: real, W: real, H: real) returns (paints: seq<Paint>)
      requires Valid()
      requires FirstHit(images, imagePositions, Position(x, y)).Some?
      requires images[FirstHit(images, imagePositions, Position(x, y)).value].id != ""
      requires var image := images[FirstHit(images, imagePositions, Position(x, y)).value];
        && 0.0 <= imagePositions[image.id].x + dx <= W - image.img.ScaledWidth()
        && 0.0 <= imagePositions[image.id].y + dy <= H - image.img.ScaledHeight()
      modifies this
      ensures Valid()
      ensures var image := images[FirstHit(images, old(imagePositions), Position(x, y)).value];
        imagePositions == old(imagePositions)[image.id :=
          Position(old(imagePositions)[image.id].x + dx, old(imagePositions)[image.id].y + dy)]
    {
      var _ := HandleDragStart(x, y, W, H);
      paints := HandleDragging(x + dx, y + dy, W, H);
    }
  }

  /** A 800 x 450 canvas with one 200 x 200 image (30 x 30 on screen) at
      (10, 10): press at (15, 15), move to (100, 100), release. */
  method DragAndReleaseScenario()
  {
    var canvas := new Canvas([LoadedImage("turtle", ImageElement(200.0, 200.0))], [Position(10.0, 10.0)]);
    var _ := canvas.HandleDragStart(15.0, 15.0, 800.0, 450.0);
    assert canvas.dragging == Some("turtle") && canvas.offsetX == 5.0 && canvas.offsetY == 5.0;
    var _ := canvas.HandleDragging(100.0, 100.0, 800.0, 450.0);
    assert canvas.imagePositions["turtle"] == Position(95.0, 95.0);
    var _ := canvas.HandleDragEnd(800.0, 450.0);
    assert canvas.dragging == None && canvas.imagePositions["turtle"] == Position(95.0, 95.0);
  }
}
