/** The viewport command: the window rectangle output is mapped into, with a
    lower-left corner, a size and a fixed diagnostic name. */
module ViewportCommands {
  import opened Rectangles

  /** The diagnostic name every viewport command carries. */
  const ViewportName: string := "viewport_command"

  /** The fields of `viewport_command`, in declaration order. */
  datatype ViewportCommand = ViewportCommand(width: int32, height: int32, x: int32, y: int32,
                                             name: string)

  /** A freshly constructed command: an empty viewport at the origin. */
  function NewViewportCommand(): (c: ViewportCommand)
    ensures c.width == 0 && c.height == 0
    ensures c.x == 0 && c.y == 0
    ensures c.name == ViewportName
  {
    ViewportCommand(0, 0, 0, 0, ViewportName)
  }

  /** The viewport rectangle the command currently holds. */
  function ViewportRectangle(c: ViewportCommand): Rectangle
  {
    MakeRectangle(c.x, c.y, c.width, c.height)
  }

  /** `set_rectangle(x, y, width, height)`: the lower-left corner becomes
      (x, y) and the size (width, height), stored verbatim with no validation;
      the name is left alone. */
  function SetRectangle(c: ViewportCommand, x: int32, y: int32, width: int32, height: int32)
    : (r: ViewportCommand)
    ensures r.x == x && r.y == y
    ensures r.width == width && r.height == height
    ensures r.name == c.name
  {
    c.(width := width, height := height, x := x, y := y)
  }

  /** `set_rectangle(rectangle)`: the corner comes from the rectangle's x and
      y, the size from its width and height; it agrees with the four-value
      overload, and the name is left alone. */
  function SetRectangleFrom(c: ViewportCommand, rect: Rectangle): (r: ViewportCommand)
    ensures ViewportRectangle(r) == rect
    ensures r.name == c.name
    ensures r == SetRectangle(c, rect.x, rect.y, rect.width, rect.height)
  {
    c.(width := rect.width, height := rect.height, x := rect.x, y := rect.y)
  }

  /** Frame condition: a setter changes the rectangle and nothing else, so
      two commands that differ only in their rectangles become equal. */
  lemma SetRectangleOnlyChangesRectangle(c: ViewportCommand, d: ViewportCommand, rect: Rectangle)
    requires c.name == d.name
    ensures SetRectangleFrom(c, rect) == SetRectangleFrom(d, rect)
  {
  }

  /** Overload equivalence for identical four values. */
  lemma SetRectangleOverloadsAgree(c: ViewportCommand, x: int32, y: int32, width: int32, height: int32)
    ensures SetRectangleFrom(c, MakeRectangle(x, y, width, height))
            == SetRectangle(c, x, y, width, height)
  {
  }

  /** Setting the same rectangle twice is the same as setting it once. */
  lemma SetRectangleIdempotent(c: ViewportCommand, x: int32, y: int32, width: int32, height: int32)
    ensures SetRectangle(SetRectangle(c, x, y, width, height), x, y, width, height)
            == SetRectangle(c, x, y, width, height)
  {
  }

  /** Chaining two calls leaves the second call's values. */
  lemma SetRectangleLastWriteWins(c: ViewportCommand, a: Rectangle, b: Rectangle)
    ensures SetRectangleFrom(SetRectangleFrom(c, a), b) == SetRectangleFrom(c, b)
  {
  }
}
