/** The scissor command: a clip rectangle held in four `int` fields, with
    the two `set_rectangle` overloads of scissor_command.cpp. */
module ScissorCommands {
  import opened Rectangles

  /** The four rectangle fields of `scissor_command` that its setters
      write. Any other member the class may declare is not modelled. */
  datatype ScissorCommand = ScissorCommand(width: int32, height: int32, x: int32, y: int32)

  /** The clip rectangle the command currently holds. */
  function ClipRectangle(c: ScissorCommand): Rectangle
  {
    MakeRectangle(c.x, c.y, c.width, c.height)
  }

  /** `set_rectangle(x, y, width, height)`: stores the four values verbatim.
      There is no validation and no error path: zero and negative values are
      kept as given. */
  function SetRectangle(c: ScissorCommand, x: int32, y: int32, width: int32, height: int32)
    : (r: ScissorCommand)
    ensures r.x == x && r.y == y
    ensures r.width == width && r.height == height
    ensures ClipRectangle(r) == MakeRectangle(x, y, width, height)
  {
    c.(width := width, height := height, x := x, y := y)
  }

  /** `set_rectangle(rectangle)`: copies each field of the rectangle into the
      field of the same name, and agrees with the four-value overload. */
  function SetRectangleFrom(c: ScissorCommand, rect: Rectangle): (r: ScissorCommand)
    ensures ClipRectangle(r) == rect
    ensures r == SetRectangle(c, rect.x, rect.y, rect.width, rect.height)
  {
    c.(width := rect.width, height := rect.height, x := rect.x, y := rect.y)
  }

  /** Overload equivalence: passing four values, or a rectangle built from
      the same four values, gives the same command. */
  lemma SetRectangleOverloadsAgree(c: ScissorCommand, x: int32, y: int32, width: int32, height: int32)
    ensures SetRectangleFrom(c, MakeRectangle(x, y, width, height))
            == SetRectangle(c, x, y, width, height)
  {
  }

  /** Setting the same rectangle twice is the same as setting it once. */
  lemma SetRectangleIdempotent(c: ScissorCommand, x: int32, y: int32, width: int32, height: int32)
    ensures SetRectangle(SetRectangle(c, x, y, width, height), x, y, width, height)
            == SetRectangle(c, x, y, width, height)
  {
  }

  /** Chaining two calls leaves the second call's values: the first call is
      completely overwritten. */
  lemma SetRectangleLastWriteWins(c: ScissorCommand, a: Rectangle, b: Rectangle)
    ensures SetRectangleFrom(SetRectangleFrom(c, a), b) == SetRectangleFrom(c, b)
  {
  }
}
