/**
 * Value types the overlay compositor exchanges with its collaborators:
 * the rectangle pipeline's per-instance record and the text engine's
 * logical text section. Floating-point components are modelled as reals.
 */
module Primitives {

  /** The source's `i32`. */
  newtype i32 = x: int | -0x8000_0000 <= x < 0x8000_0000

  /** An RGBA colour, the source's `[f32; 4]`; `a` is `color[3]`. */
  datatype Rgba = Rgba(r: real, g: real, b: real, a: real)

  const WHITE: Rgba := Rgba(1.0, 1.0, 1.0, 1.0)

  /** One rectangle drawn by a rectangle pipeline; its alpha doubles as opacity. */
  datatype RectangleInstance = RectangleInstance(position: (real, real), size: (real, real), color: Rgba)

  /** One run of text inside a section. */
  datatype Text = Text(content: string, color: Rgba, scale: real)

  datatype HorizontalAlign = Left | Center | Right

  datatype VerticalAlign = Top | Middle | Bottom

  /** How the text engine lays a section out. */
  datatype Layout =
    | SingleLine(hAlign: HorizontalAlign, vAlign: VerticalAlign)
    | Wrap(hAlign: HorizontalAlign, vAlign: VerticalAlign)

  /** A logical text request queued with the text engine. */
  datatype Section = Section(text: seq<Text>, screenPosition: (real, real), layout: Layout)
}
