# Graphics command model (moka rendering back-end layer)

This project models the command object layer of the moka engine's rendering
back end in Dafny:

- `rectangle.dfy` — `basic_rectangle<T>` and `rectangle = basic_rectangle<int>`,
  a plain value of x, y, width and height. C++ `int` is the newtype `int32`.
  The values are only stored and copied, so no wrap-around can arise.
- `scissor_command.dfy` and `viewport_command.dfy` — the two commands that carry
  a rectangle. Each has its four `int` fields and both `set_rectangle`
  overloads as pure record updates. The viewport command also has its
  zero-initialised defaults and its constant `name`.
- `graphics_api.dfy` — the closed `Command` sum of the six kinds and the
  `GraphicsVisitor` record with one operation per kind. `Accept` is a total
  match with no default case. A backend that lacks one operation cannot be
  built, which stands in for every `visit` being pure virtual. The file also
  has `submit` and `submit_and_swap`. Their signatures only demand an rvalue
  command list; the model adopts the convention that a submitted list is
  consumed, so the caller no longer holds a usable list.
- `command_objects.dfy` — commands as objects in a store keyed by reference.
  `set_rectangle` returns the reference it was called through, so fluent
  chains can be stated, with frame conditions on every other object.

Double dispatch is stated for every backend at once. `Instrument` wraps a
backend so that each operation also logs its own kind. Accepting a command
through the wrapped backend gives the unwrapped result plus exactly one log
entry, and that entry is the command's own kind.

The viewport command's `.cpp` is not part of this model. Its setters follow
the documented contract in viewport_command.hpp, which matches the scissor
command's implementation. The scissor command's header is not part of this
model either, so only the four rectangle fields its setters write are
modelled; no default constructor, name or other member is.

## Model

| member | source | states |
|---|---|---|
| Rectangles.MakeRectangle | engine/src/includes/graphics/api/graphics_api.hpp:49-57 | the constructor stores x, y, width and height each in the field of the same name, in that order |
| Rectangles.RectangleIsItsFields | engine/src/includes/graphics/api/graphics_api.hpp:49-59 | value semantics: every rectangle equals the constructor applied to its own four fields |
| Rectangles.MakeRectangleInjective | engine/src/includes/graphics/api/graphics_api.hpp:54-56 | two constructions are equal exactly when all four arguments are equal position by position |
| ScissorCommands.SetRectangle | engine/src/graphics/command/scissor_command.cpp:41-48 | afterwards x, y, width and height equal the arguments, for every int including zero and negatives; there is no error path |
| ScissorCommands.SetRectangleFrom | engine/src/graphics/command/scissor_command.cpp:50-57 | the clip rectangle becomes the given rectangle, and the result equals the four-value overload on its fields |
| ScissorCommands.SetRectangleOverloadsAgree | engine/src/graphics/command/scissor_command.cpp:41-57 | four values and a rectangle built from the same four values give the identical command |
| ScissorCommands.SetRectangleIdempotent | engine/src/graphics/command/scissor_command.cpp:43-47 | setting the same values twice equals setting them once |
| ScissorCommands.SetRectangleLastWriteWins | engine/src/graphics/command/scissor_command.cpp:50-57 | two chained calls leave exactly the second call's rectangle |
| ViewportCommands.NewViewportCommand | engine/includes/graphics/command/viewport_command.hpp:43-48 | a fresh viewport command has width, height, x and y all 0 and the name "viewport_command" |
| ViewportCommands.SetRectangle | engine/includes/graphics/command/viewport_command.hpp:58-66 | the lower-left corner becomes (x, y) and the size (width, height), verbatim; the name is unchanged |
| ViewportCommands.SetRectangleFrom | engine/includes/graphics/command/viewport_command.hpp:68-73 | the corner comes from rect.x and rect.y and the size from rect.width and rect.height; the name is unchanged; the result equals the four-value overload |
| ViewportCommands.SetRectangleOnlyChangesRectangle | engine/includes/graphics/command/viewport_command.hpp:43-73 | frame: the setter overwrites the four rectangle fields, so two commands with the same name end equal whatever their old rectangles |
| ViewportCommands.SetRectangleOverloadsAgree | engine/includes/graphics/command/viewport_command.hpp:58-73 | both overloads give identical state for identical four values |
| ViewportCommands.SetRectangleIdempotent | engine/includes/graphics/command/viewport_command.hpp:58-66 | setting the same values twice equals setting them once |
| ViewportCommands.SetRectangleLastWriteWins | engine/includes/graphics/command/viewport_command.hpp:68-73 | two chained calls leave exactly the second call's rectangle |
| GraphicsApi.AllKinds | engine/src/includes/graphics/api/graphics_api.hpp:182-187 | the visitor contract has exactly six operation kinds, and every kind is among them |
| GraphicsApi.SomeCommandOfKind | engine/src/includes/graphics/api/graphics_api.hpp:182-187 | each of the six visitor operations is reached by some command of that kind |
| GraphicsApi.Accept | engine/src/graphics/command/scissor_command.cpp:36-39 | a total match with no default case: the result is exactly the visitor operation for the command's own kind, applied to that command's own payload |
| GraphicsApi.AcceptRunsExactlyOwnOperation | engine/src/includes/graphics/api/graphics_api.hpp:172-187 | for every backend, accepting a command runs exactly one visitor operation, the one for the command's own kind, with the backend's own effect |
| GraphicsApi.AcceptPassesThisCommand | engine/src/graphics/command/scissor_command.cpp:36-39 | accept hands the command itself, unchanged, to the visitor |
| GraphicsApi.SetCommandRectangle | engine/includes/graphics/command/viewport_command.hpp:68-73 | on a viewport or scissor command, the kind is kept, the rectangle becomes the given one and a viewport's name is kept |
| GraphicsApi.Submit | engine/src/includes/graphics/api/graphics_api.hpp:189 | under the consumed-list convention: the device receives all the caller's commands, no present is requested, and the caller no longer holds a usable list |
| GraphicsApi.SubmitAndSwap | engine/src/includes/graphics/api/graphics_api.hpp:190 | the same hand-over as submit, with a buffer swap requested |
| GraphicsApi.SubmitEntryPointsDifferOnlyInSwap | engine/src/includes/graphics/api/graphics_api.hpp:189-190 | both entry points hand over the same commands and leave the caller in the same state; only the present request differs |
| CommandObjects.SetRectangleAt | engine/includes/graphics/command/viewport_command.hpp:58-73 | returns the same reference it was called through; only that object changes, it keeps its kind and name, and it holds the new rectangle |
| CommandObjects.Chain | engine/includes/graphics/command/viewport_command.hpp:58-73 | a fluent chain of set_rectangle calls ends on the starting object with the last rectangle written, and leaves every other object unchanged |
| CommandObjects.SetRectangleAtIdempotent | engine/src/graphics/command/scissor_command.cpp:50-57 | setting the same rectangle twice through a reference equals setting it once |
| CommandObjects.ChainConcat | engine/includes/graphics/command/viewport_command.hpp:66-73 | continuing a chain with more calls equals one chain over all the rectangles |
| CommandObjects.ChainLastWriteWins | engine/src/graphics/command/scissor_command.cpp:41-57 | a chain of any length ending in rect equals a single set_rectangle(rect) |
| CommandObjects.SetCommandRectangleOverwrites | engine/src/graphics/command/scissor_command.cpp:52-55 | writing a rectangle erases any rectangle written before it |

## Left out

- Clear, draw and fill-buffer command payloads: their classes are not part of this model. They are field-less variants handed to their visitor operations as is.
- The resource factories `make_program`, `make_shader`, `make_vertex_buffer`, `make_index_buffer` and `make_texture` (graphics_api.hpp:192-196). They take untyped payloads and fail in backend-defined ways, so there is nothing to state about them.
- What a device does with a submitted list: the order in which it visits commands, and the present in `submit_and_swap`. `command_list` is not part of this model, and the interface states no order.
- GraphicsApi.Submit: the model requires an owned list and so treats a moved-from list as unusable. C++ leaves a moved-from list valid but unspecified, and `submit` accepts one.
- GraphicsApi.SubmitAndSwap: the model requires an owned list and so treats a moved-from list as unusable. C++ leaves a moved-from list valid but unspecified, and `submit_and_swap` accepts one.
- GraphicsApi.Submit and GraphicsApi.SubmitAndSwap model the list as consumed. The signatures only take the list by rvalue reference; a backend need not actually move from it, and one that iterates it in place leaves the caller's list intact.
- ScissorCommands.SetRectangle: the scissor command's header is not part of this model. Only the four rectangle fields written at scissor_command.cpp:43-46 are modelled; any other member (a `name`, as the viewport command has) is not, so no frame condition over such members is stated.
- GraphicsApi.AcceptPassesThisCommand: visitor operations are modelled as reading the command. A backend writing to the command through `visit(cmd&)` is not modelled.
- Texture importing (texture_importer.hpp): file-system image decoding and raw buffers, which are I/O.
- The enums `alpha_mode`, `attribute`, `primitive_type`, `toggle`, `cull_face`, the blend enums, `shader_attribute`, `parameter_type` and `face`. The structs `uniform_data` and `texture_binding` are left out too. They are tags and records with no behaviour.
- The default, copy and move special members of `graphics_api`: they are defaulted and carry no logic.
