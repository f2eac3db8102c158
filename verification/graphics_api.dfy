/** The command family and the double-dispatch contract of `graphics_api`:
    a closed sum of the six command kinds, a visitor with one operation per
    kind, `accept` as a total match, and the two submission entry points. */
module GraphicsApi {
  import opened Rectangles
  import opened ScissorCommands
  import opened ViewportCommands

  /** Commands whose payloads are not part of this model; each is an opaque
      value that is handed to its visitor operation as is. */
  datatype ClearCommand = ClearCommand
  datatype DrawCommand = DrawCommand
  datatype FillVertexBufferCommand = FillVertexBufferCommand
  datatype FillIndexBufferCommand = FillIndexBufferCommand

  /** A graphics command: exactly one of the six kinds. */
  datatype Command =
    | Clear(clear: ClearCommand)
    | Draw(draw: DrawCommand)
    | Viewport(viewport: ViewportCommand)
    | Scissor(scissor: ScissorCommand)
    | FillVertexBuffer(fillVertexBuffer: FillVertexBufferCommand)
    | FillIndexBuffer(fillIndexBuffer: FillIndexBufferCommand)

  /** The six command kinds, one per `visit` overload. */
  datatype Kind =
    | ClearKind | DrawKind | ViewportKind | ScissorKind
    | FillVertexBufferKind | FillIndexBufferKind

  /** The kind a command belongs to, read off its own variant. */
  function KindOf(c: Command): Kind
  {
    match c
    case Clear(_) => ClearKind
    case Draw(_) => DrawKind
    case Viewport(_) => ViewportKind
    case Scissor(_) => ScissorKind
    case FillVertexBuffer(_) => FillVertexBufferKind
    case FillIndexBuffer(_) => FillIndexBufferKind
  }

  /** The visitor contract has exactly six operations: every kind is in this
      set and the set has six members. */
  function AllKinds(): (ks: set<Kind>)
    ensures |ks| == 6
    ensures forall k: Kind :: k in ks
  {
    var ks := {ClearKind, DrawKind, ViewportKind, ScissorKind,
               FillVertexBufferKind, FillIndexBufferKind};
    KindsListed(ks);
    ks
  }

  /** A set naming each of the six kinds contains every kind. */
  lemma KindsListed(ks: set<Kind>)
    requires {ClearKind, DrawKind, ViewportKind, ScissorKind,
              FillVertexBufferKind, FillIndexBufferKind} <= ks
    ensures forall k: Kind :: k in ks
  {
    forall k: Kind
      ensures k in ks
    {
      match k
      case ClearKind =>
      case DrawKind =>
      case ViewportKind =>
      case ScissorKind =>
      case FillVertexBufferKind =>
      case FillIndexBufferKind =>
    }
  }

  /** Every visitor operation is reachable: for each kind some command has
      that kind. */
  function SomeCommandOfKind(k: Kind): (c: Command)
    ensures KindOf(c) == k
  {
    match k
    case ClearKind => Clear(ClearCommand)
    case DrawKind => Draw(DrawCommand)
    case ViewportKind => Viewport(NewViewportCommand())
    case ScissorKind => Scissor(ScissorCommand(0, 0, 0, 0))
    case FillVertexBufferKind => FillVertexBuffer(FillVertexBufferCommand)
    case FillIndexBufferKind => FillIndexBuffer(FillIndexBufferCommand)
  }

  /** A graphics visitor over backend state `S`: one operation per command
      kind, none of them optional. A backend that leaves one out cannot be
      built, which stands in for every `visit` being pure virtual. */
  datatype GraphicsVisitor<!S> = GraphicsVisitor(
    visitClear: (ClearCommand, S) -> S,
    visitDraw: (DrawCommand, S) -> S,
    visitViewport: (ViewportCommand, S) -> S,
    visitScissor: (ScissorCommand, S) -> S,
    visitFillVertexBuffer: (FillVertexBufferCommand, S) -> S,
    visitFillIndexBuffer: (FillIndexBufferCommand, S) -> S)

  /** `accept`: the command calls `visitor.visit(*this)`, which resolves to
      the overload for its own type. A total match with no default case: the
      result is the visitor operation selected by the command's kind. */
  function Accept<S>(c: Command, v: GraphicsVisitor<S>, s: S): (r: S)
    ensures KindOf(c) == ClearKind ==> r == v.visitClear(c.clear, s)
    ensures KindOf(c) == DrawKind ==> r == v.visitDraw(c.draw, s)
    ensures KindOf(c) == ViewportKind ==> r == v.visitViewport(c.viewport, s)
    ensures KindOf(c) == ScissorKind ==> r == v.visitScissor(c.scissor, s)
    ensures KindOf(c) == FillVertexBufferKind ==> r == v.visitFillVertexBuffer(c.fillVertexBuffer, s)
    ensures KindOf(c) == FillIndexBufferKind ==> r == v.visitFillIndexBuffer(c.fillIndexBuffer, s)
  {
    match c
    case Clear(cmd) => v.visitClear(cmd, s)
    case Draw(cmd) => v.visitDraw(cmd, s)
    case Viewport(cmd) => v.visitViewport(cmd, s)
    case Scissor(cmd) => v.visitScissor(cmd, s)
    case FillVertexBuffer(cmd) => v.visitFillVertexBuffer(cmd, s)
    case FillIndexBuffer(cmd) => v.visitFillIndexBuffer(cmd, s)
  }

  /** Wraps every operation of a backend so that it also logs the kind of
      operation that ran, labelled by the operation rather than the command. */
  function Instrument<S>(v: GraphicsVisitor<S>): GraphicsVisitor<(S, seq<Kind>)>
  {
    GraphicsVisitor(
      (cmd, st: (S, seq<Kind>)) => (v.visitClear(cmd, st.0), st.1 + [ClearKind]),
      (cmd, st: (S, seq<Kind>)) => (v.visitDraw(cmd, st.0), st.1 + [DrawKind]),
      (cmd, st: (S, seq<Kind>)) => (v.visitViewport(cmd, st.0), st.1 + [ViewportKind]),
      (cmd, st: (S, seq<Kind>)) => (v.visitScissor(cmd, st.0), st.1 + [ScissorKind]),
      (cmd, st: (S, seq<Kind>)) => (v.visitFillVertexBuffer(cmd, st.0), st.1 + [FillVertexBufferKind]),
      (cmd, st: (S, seq<Kind>)) => (v.visitFillIndexBuffer(cmd, st.0), st.1 + [FillIndexBufferKind]))
  }

  /** Double-dispatch correctness, for every backend: accepting a command
      runs exactly one visitor operation, and it is the one for the
      command's own kind. */
  lemma AcceptRunsExactlyOwnOperation<S>(c: Command, v: GraphicsVisitor<S>, s: S, log: seq<Kind>)
    ensures Accept(c, Instrument(v), (s, log)) == (Accept(c, v, s), log + [KindOf(c)])
  {
  }

  /** A backend that only records the commands it is handed. */
  function Recorder(): GraphicsVisitor<seq<Command>>
  {
    GraphicsVisitor(
      (cmd, t: seq<Command>) => t + [Clear(cmd)],
      (cmd, t: seq<Command>) => t + [Draw(cmd)],
      (cmd, t: seq<Command>) => t + [Viewport(cmd)],
      (cmd, t: seq<Command>) => t + [Scissor(cmd)],
      (cmd, t: seq<Command>) => t + [FillVertexBuffer(cmd)],
      (cmd, t: seq<Command>) => t + [FillIndexBuffer(cmd)])
  }

  /** `accept` passes the command itself, unchanged, to the visitor. */
  lemma AcceptPassesThisCommand(c: Command, t: seq<Command>)
    ensures Accept(c, Recorder(), t) == t + [c]
  {
  }

  /** Viewport and scissor commands carry a rectangle. */
  predicate HasRectangle(c: Command)
  {
    c.Viewport? || c.Scissor?
  }

  /** The rectangle a viewport or scissor command holds. */
  function RectangleOf(c: Command): Rectangle
    requires HasRectangle(c)
  {
    if c.Viewport? then ViewportRectangle(c.viewport) else ClipRectangle(c.scissor)
  }

  /** `set_rectangle(rectangle)` on whichever rectangle-carrying command this
      is: the kind stays, the rectangle becomes the one given, and a
      viewport's name is untouched. */
  function SetCommandRectangle(c: Command, rect: Rectangle): (r: Command)
    requires HasRectangle(c)
    ensures HasRectangle(r) && KindOf(r) == KindOf(c)
    ensures RectangleOf(r) == rect
    ensures c.Viewport? ==> r.viewport.name == c.viewport.name
  {
    if c.Viewport? then Viewport(ViewportCommands.SetRectangleFrom(c.viewport, rect))
    else Scissor(ScissorCommands.SetRectangleFrom(c.scissor, rect))
  }

  /** The caller's side of a command list: a list it owns, or a list it has
      handed over. The submission signatures only demand an rvalue; whether a
      backend actually moves from it is up to the backend. The model adopts
      the convention that a submitted list is consumed. */
  datatype CommandListSlot = Owned(commands: seq<Command>) | MovedFrom

  /** What the device receives: the whole list, and whether it must present
      (swap buffers) afterwards. */
  datatype Submission = Submission(commands: seq<Command>, swapsBuffers: bool)

  /** `submit(command_list&&)`, under the consumed-list convention: the
      device receives every command of the caller's list, no present is
      requested, and the caller no longer holds a usable list. */
  function Submit(slot: CommandListSlot): (r: (CommandListSlot, Submission))
    requires slot.Owned?
    ensures r.0 == MovedFrom
    ensures r.1.commands == slot.commands && !r.1.swapsBuffers
  {
    (MovedFrom, Submission(slot.commands, false))
  }

  /** `submit_and_swap(command_list&&)`: the same hand-over, then a present. */
  function SubmitAndSwap(slot: CommandListSlot): (r: (CommandListSlot, Submission))
    requires slot.Owned?
    ensures r.0 == MovedFrom
    ensures r.1.commands == slot.commands && r.1.swapsBuffers
  {
    (MovedFrom, Submission(slot.commands, true))
  }

  /** The two entry points hand the device the same commands and leave the
      caller in the same state; they differ only in the present request. */
  lemma SubmitEntryPointsDifferOnlyInSwap(slot: CommandListSlot)
    requires slot.Owned?
    ensures Submit(slot).0 == SubmitAndSwap(slot).0
    ensures Submit(slot).1.commands == SubmitAndSwap(slot).1.commands
    ensures Submit(slot).1 != SubmitAndSwap(slot).1
  {
  }
}
