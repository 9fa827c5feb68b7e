# Overlay compositor of Neothesia's UI, modelled in Dafny

The UI layer in `src/ui/ui.rs` is a small per-frame compositor. During a frame, callers
queue coloured rectangles and text sections. They can also set a full-screen transition
rectangle whose alpha drives a fade. Once per frame, `Ui::render` does four things in order:

1. It drains the rectangle queue into the main rectangle pipeline's instance buffer.
2. It runs the main rectangle pass with "load" semantics.
3. It has the glyph brush draw its pending text batch.
4. Only when the stored transition alpha is nonzero, it runs the transition pipeline's pass.

The model has three files:

- `primitives.dfy` (module `Primitives`): the value types. `RectangleInstance` carries position, size and an RGBA colour. Its `color.a` is the source's `color[3]`. The text engine's `Section` and `Text` are here too, along with its layout and alignment types. The source's `i32` is a newtype.
- `decimal.dfy` (module `Decimal`): how `format!("{}", fps)` writes an `i32`. A parser serves as an independent partner. Lemmas prove the two inverse in both directions.
- `ui.dfy` (module `Ui`): the `UiQueue` and `Ui` classes, each with their methods. It also has `Frame`, the function that specifies a render's events, and `FpsSection`, the pure section build inside `queue_fps`.

The GPU and the text engine are opaque collaborators. Each call into them is recorded as an
`Event` in the ghost field `Ui.trace`:
- `UpdateMain(instances)` and `SetTransitionBuffer(instances)` stand for `update_instance_buffer` on the main and the transition pipeline.
- `MainPass(drawn)` and `TransitionPass(drawn)` stand for the two "load" render passes, with the instances each one draws.
- `TextDraw(sections, width, height)` stands for `draw_queued`.

The two pipelines are represented by the contents of their instance buffers (`mainInstances`,
`transitionInstances`). The glyph brush is represented by its pending batch (`pendingText`).

`Ui.Valid()` is the object invariant that `set_transition_alpha` establishes: a nonzero stored
alpha is the alpha of the transition buffer's only rectangle. Every method keeps it.

## Model

| member | source | states |
|---|---|---|
| `Decimal.NatToDecimal` | src/ui/ui.rs:54 | a natural number is written as a non-empty digit string without a leading zero, and it starts with '0' exactly when the number is 0 |
| `Decimal.IntToDecimal` | src/ui/ui.rs:54 | an integer is written with a leading '-' exactly when it is negative, followed by the canonical digits of its magnitude |
| `Decimal.NatRoundTrip` | src/ui/ui.rs:54 | reading the digits written for n gives back n |
| `Decimal.CanonicalRoundTrip` | src/ui/ui.rs:54 | every canonical digit string is what would be written for the value it denotes |
| `Decimal.IntRoundTrip` | src/ui/ui.rs:54 | parsing the decimal rendering of any integer gives that integer |
| `Decimal.ParseIntRendered` | src/ui/ui.rs:54 | every string the parser accepts is exactly the rendering of the integer it reads, so rendering is onto the canonical numerals |
| `Decimal.IntToDecimalInjective` | src/ui/ui.rs:54 | different FPS readings produce different strings |
| `Ui.FpsSection` | src/ui/ui.rs:53-68 | the section has exactly one text run; its content is "FPS: " followed by a string that parses back to fps; the run is white (1,1,1,1) with scale 20; the section sits at (0, 5) with a wrapping layout aligned left and top |
| `Ui.FpsSectionOf42` | src/ui/ui.rs:53-68 | the reading 42 yields the single run "FPS: 42", white, scale 20 |
| `Ui.Frame` | src/ui/ui.rs:85-133 | within one render, the event stages strictly increase, so each step happens at most once and in the order update, main pass, text, transition pass; the main buffer receives exactly the queued rectangles and the main pass draws exactly them; the text draw takes the whole pending batch; a transition pass happens if and only if the stored alpha is nonzero, and it draws the transition buffer; a render never changes the transition buffer |
| `Ui.TransitionPassDrawsVisibleOverlay` | src/ui/ui.rs:119-133 | once the alpha and the transition buffer are coupled as set_transition_alpha leaves them, any transition pass draws exactly one rectangle, and that rectangle has nonzero alpha |
| `Ui.UiQueue.constructor` | src/ui/ui.rs:142-146 | a new queue is empty |
| `Ui.UiQueue.AddRectangle` | src/ui/ui.rs:147-149 | appends exactly the given instance at the end |
| `Ui.UiQueue.ClearRectangles` | src/ui/ui.rs:150-152 | returns exactly the queued instances in submission order, which is empty for an empty queue, and leaves the queue empty |
| `Ui.Ui.constructor` | src/ui/ui.rs:29-36 | a new compositor has an empty queue, no pending text, alpha 0 and an empty trace, and its invariant holds |
| `Ui.Ui.SetTransitionAlpha` | src/ui/ui.rs:38-45 | sets the stored alpha to the rectangle's color.a and the transition buffer to exactly [rectangle], whatever happened before; records one buffer update; nothing else changes |
| `Ui.Ui.QueueRectangle` | src/ui/ui.rs:46-48 | appends exactly one instance to the queue; the alpha, both buffers, the text batch and the trace are unchanged |
| `Ui.Ui.QueueText` | src/ui/ui.rs:49-51 | appends exactly the section to the pending text batch; nothing else changes |
| `Ui.Ui.QueueFps` | src/ui/ui.rs:53-69 | appends exactly the FPS section for the reading to the pending text batch; nothing else changes |
| `Ui.Ui.Update` | src/ui/ui.rs:71-77 | the main buffer becomes exactly the drained queue, the queue is empty, and one main-buffer update carrying those instances is recorded |
| `Ui.Ui.Render` | src/ui/ui.rs:78-134 | appends to the trace exactly the Frame of the queue, text batch, alpha and transition buffer found at the call; the queue and the text batch are empty afterwards; the main buffer holds what was queued; the alpha and the transition buffer are unchanged |
| `Ui.EmptyFrames` | src/ui/ui.rs:29-36 | a fresh compositor rendered twice with nothing queued issues UpdateMain([]), MainPass([]) and TextDraw in each frame, with no transition pass |
| `Ui.OverlayFrames` | src/ui/ui.rs:119-133 | after one queued rectangle and one set_transition_alpha, the first frame uploads and draws that rectangle, the second uploads and draws nothing, and both end with a pass over the overlay exactly when its alpha is nonzero |

## Left out

- GPU plumbing is reduced to trace events. This covers the device, the encoder, the staging belt and the render-pass descriptors (src/ui/ui.rs:86-98 and 120-130). The frame target and the transform uniform are not represented, because every pass targets the same frame.
- `RectanglePipeline` is not part of this model. Its buffer allocation and growth are out, and so is its draw-call recording. `update_instance_buffer` is taken to replace the buffer's contents, and `render` to draw them. `RectanglePipeline::new` is taken to start with an empty buffer. `Ui.Valid()` does not depend on that assumption.
- Font loading with `include_bytes!`/`expect` (src/ui/ui.rs:23-27) is out. Glyph rasterisation behind `draw_queued(...).expect` (src/ui/ui.rs:107-116) is out as well. Both are foreign calls whose failure aborts the process, so the model treats them as never failing.
- The window's logical size is floating point, and the source rounds it with `round() as u32` (src/ui/ui.rs:103-114). The model takes the rounded width and height as `nat` parameters of `Render`.
- `transition_rect_a` and all colour, position and scale components are modelled as reals. The model therefore has no NaN and no negative zero. In `f32`, a NaN alpha would pass the `!= 0.0` test and a `-0.0` alpha would not.
- Section fields that `queue_fps` leaves at their defaults are not modelled: the bounds, the font id, the extra data, and the line breaker inside `Layout::Wrap`.
- The `winit` window state and the `MainState` import are host plumbing and are left out.
