/** The rectangle value type of the graphics API: `basic_rectangle<T>` and
    its `int` instance `rectangle`, shared by the viewport and scissor commands. */
module Rectangles {

  /** A C++ `int`, taken to be 32-bit two's complement. Rectangles are only
      stored and copied, never computed with, so no wrap-around arises. */
  newtype int32 = x: int | -0x8000_0000 <= x < 0x8000_0000

  /** A lower-left corner (x, y) and a size (width, height) over any numeric
      kind. A pure value: two rectangles with equal fields are the same. */
  datatype BasicRectangle<T> = BasicRectangle(x: T, y: T, width: T, height: T)

  /** `rectangle` is `basic_rectangle<int>`. */
  type Rectangle = BasicRectangle<int32>

  /** The four-argument constructor: each argument is stored, unchanged, in
      the field of the same name (and not, say, width and height swapped). */
  function MakeRectangle<T>(x: T, y: T, width: T, height: T): (r: BasicRectangle<T>)
    ensures r.x == x && r.y == y
    ensures r.width == width && r.height == height
  {
    BasicRectangle(x, y, width, height)
  }

  /** Value semantics: every rectangle is what the constructor builds from
      its own four fields, so nothing besides the fields is carried. */
  lemma RectangleIsItsFields<T>(r: BasicRectangle<T>)
    ensures MakeRectangle(r.x, r.y, r.width, r.height) == r
  {
  }

  /** Two constructor calls build the same rectangle exactly when they are
      given the same four values in the same positions. */
  lemma MakeRectangleInjective<T>(x: T, y: T, width: T, height: T,
                                  x': T, y': T, width': T, height': T)
    ensures MakeRectangle(x, y, width, height) == MakeRectangle(x', y', width', height')
            <==> x == x' && y == y' && width == width' && height == height'
  {
  }
}
