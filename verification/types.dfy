/** The value types shared by the helpers and the drag hook, and the one
    display constant they use. */
module Types {

  datatype Option<+T> = None | Some(value: T)

  /** Display scale applied to every image's intrinsic size: 0.15, read as the
      exact rational 3/20. */
  const SCALE_FACTOR: real := 0.15

  /** A point on the canvas, or an image's top-left corner. */
  datatype Position = Position(x: real, y: real)

  /** A loaded image, reduced to the only thing the core reads from it: its
      intrinsic size in source pixels. */
  datatype ImageElement = ImageElement(width: real, height: real)
  {
    function ScaledWidth(): (w: real) { width * SCALE_FACTOR }
    function ScaledHeight(): (h: real) { height * SCALE_FACTOR }
  }

  /** An image together with its placement and stacking order. */
  datatype CanvasImage = CanvasImage(id: string, img: ImageElement, pos: Position, zIndex: int)

  /** One entry of the hook's image list: a source id and its loaded image. */
  datatype LoadedImage = LoadedImage(id: string, img: ImageElement)

  /** An axis-aligned rectangle as the canvas primitives take it. */
  datatype Rect = Rect(x: real, y: real, w: real, h: real)
  {
    /** Closed containment: every edge belongs to the rectangle. */
    predicate Contains(p: Position) {
      x <= p.x <= x + w && y <= p.y <= y + h
    }
  }

  /** The rectangle an image occupies when drawn at `pos` at display scale. */
  function ScaledBounds(pos: Position, img: ImageElement): (r: Rect) {
    Rect(pos.x, pos.y, img.ScaledWidth(), img.ScaledHeight())
  }
}
