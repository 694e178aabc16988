/**
 * The native UWP text box (FormsTextBox) as far as the Editor renderer uses
 * it: the properties the renderer copies, MaxLength and SelectionStart, and
 * Measure/DesiredSize. The native layout algorithm itself is foreign: each
 * text box carries it as a function value, and every Measure call is logged
 * with the properties it saw, so the order of measurements can be stated.
 */
module NativeTextBox {
  import opened Geometry
  import opened Utf16

  datatype FontStyle = Normal | Oblique | Italic

  /** The five font properties of a text box (FontStretch and FontWeight by their numeric values). */
  datatype NativeFont = NativeFont(size: real, family: string, stretch: nat, style: FontStyle, weight: nat)

  /** The four font properties ApplyFont assigns; FontStretch is not among them. */
  datatype AppliedFont = AppliedFont(size: real, family: string, style: FontStyle, weight: nat)

  /** A native font with the applied size, family, style and weight, and its own stretch. */
  function Overlay(current: NativeFont, f: AppliedFont): NativeFont {
    current.(size := f.size, family := f.family, style := f.style, weight := f.weight)
  }

  /** What a text box gets from its style before anything is assigned to it. */
  datatype Style = Style(font: NativeFont, margin: Thickness, padding: Thickness)

  /** The eight properties that decide a text box's measured size. */
  datatype Visual = Visual(
    text: Utf16Text,
    fontSize: real,
    fontFamily: string,
    fontStretch: nat,
    fontStyle: FontStyle,
    fontWeight: nat,
    margin: Thickness,
    padding: Thickness)

  /** One call of Measure: the properties at the time and the constraint. */
  datatype MeasureCall = MeasureCall(visual: Visual, constraint: Constraint)

  /** The native layout algorithm: a desired size for the given properties and constraint. */
  type Layout = (Visual, Constraint) -> DesiredSize

  /** Of a text box's state, at most the five font properties changed. */
  twostate predicate FontOnlyChanged(tb: TextBox)
    reads tb
  {
    && tb.acceptsReturn == old(tb.acceptsReturn) && tb.wraps == old(tb.wraps)
    && tb.text == old(tb.text) && tb.margin == old(tb.margin) && tb.padding == old(tb.padding)
    && tb.selectionStart == old(tb.selectionStart) && tb.maxLength == old(tb.maxLength)
    && tb.desiredSize == old(tb.desiredSize) && tb.measureLog == old(tb.measureLog)
  }

  /** Of a text box's state, at most DesiredSize and the measure log changed. */
  twostate predicate OnlyMeasured(tb: TextBox)
    reads tb
  {
    && tb.acceptsReturn == old(tb.acceptsReturn) && tb.wraps == old(tb.wraps)
    && tb.VisualState() == old(tb.VisualState())
    && tb.selectionStart == old(tb.selectionStart) && tb.maxLength == old(tb.maxLength)
  }

  class TextBox {
    const layout: Layout
    const style: Style
    var acceptsReturn: bool
    var wraps: bool
    var text: Utf16Text
    var fontSize: real
    var fontFamily: string
    var fontStretch: nat
    var fontStyle: FontStyle
    var fontWeight: nat
    var margin: Thickness
    var padding: Thickness
    var selectionStart: nat
    /** UWP's MaxLength; 0 means no limit. */
    var maxLength: nat
    var desiredSize: DesiredSize
    var measureLog: seq<MeasureCall>

    function VisualState(): Visual
      reads this
    {
      Visual(text, fontSize, fontFamily, fontStretch, fontStyle, fontWeight, margin, padding)
    }

    function Font(): NativeFont
      reads this
    {
      NativeFont(fontSize, fontFamily, fontStretch, fontStyle, fontWeight)
    }

    /** `new FormsTextBox { AcceptsReturn = true, TextWrapping = Wrap, Style = style }`. */
    constructor (layout: Layout, style: Style)
      ensures this.layout == layout && this.style == style
      ensures acceptsReturn && wraps
      ensures VisualState() == Visual([], style.font.size, style.font.family, style.font.stretch,
                                 style.font.style, style.font.weight, style.margin, style.padding)
      ensures selectionStart == 0 && maxLength == 0
      ensures measureLog == [] && desiredSize == Size(0.0, 0.0)
    {
      this.layout := layout;
      this.style := style;
      acceptsReturn, wraps := true, true;
      text := [];
      fontSize, fontFamily, fontStretch := style.font.size, style.font.family, style.font.stretch;
      fontStyle, fontWeight := style.font.style, style.font.weight;
      margin, padding := style.margin, style.padding;
      selectionStart, maxLength := 0, 0;
      desiredSize := Size(0.0, 0.0);
      measureLog := [];
    }

    /** Measure: DesiredSize becomes the layout of the current properties; the call is logged. */
    method Measure(c: Constraint)
      modifies this`desiredSize, this`measureLog
      ensures desiredSize == layout(VisualState(), c)
      ensures measureLog == old(measureLog) + [MeasureCall(VisualState(), c)]
    {
      desiredSize := layout(VisualState(), c);
      measureLog := measureLog + [MeasureCall(VisualState(), c)];
    }

    /** ClearValue on the five font properties: each goes back to the style's value. */
    method ClearFontValues()
      modifies this`fontSize, this`fontFamily, this`fontStretch, this`fontStyle, this`fontWeight
      ensures Font() == style.font
    {
      fontSize, fontFamily, fontStretch := style.font.size, style.font.family, style.font.stretch;
      fontStyle, fontWeight := style.font.style, style.font.weight;
    }

    /** ApplyFont's assignments: size, family, style and weight; FontStretch keeps its value. */
    method SetFont(f: AppliedFont)
      modifies this`fontSize, this`fontFamily, this`fontStyle, this`fontWeight
      ensures Font() == Overlay(old(Font()), f)
      ensures fontStretch == old(fontStretch)
    {
      fontSize, fontFamily := f.size, f.family;
      fontStyle, fontWeight := f.style, f.weight;
    }
  }
}
