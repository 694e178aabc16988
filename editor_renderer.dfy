/**
 * The UWP Editor renderer: how the desired size of an Editor is computed
 * (directly, or through a process-wide shadow text box in auto-size mode),
 * and how the Editor's text, maximum length and font reach the native control.
 */
module EditorRendering {
  import opened Nullable
  import opened Utf16
  import opened Geometry
  import opened NativeTextBox
  import opened EditorModel

  /** The renderer's static state: the lazily created shadow text box `copyOfTextBox`. */
  class ShadowStore {
    var copyOfTextBox: TextBox?
    /** How a text box that is not part of any layout measures. */
    const layout: Layout
    /** The "FormsTextBoxStyle" resource every Editor text box is built with. */
    const style: Style

    /** A shadow, once made, is a text box of this layout and style. */
    ghost predicate Valid()
      reads this
    {
      copyOfTextBox != null ==> copyOfTextBox.layout == layout && copyOfTextBox.style == style
    }

    constructor (layout: Layout, style: Style)
      ensures Valid()
      ensures copyOfTextBox == null
      ensures this.layout == layout && this.style == style
    {
      copyOfTextBox := null;
      this.layout := layout;
      this.style := style;
    }
  }

  /**
   * One shadow measurement for properties `v` under constraint `c`: the
   * shadow exists afterwards; if it was created by this call, it was
   * calibrated once with the zero size while still holding only its style's
   * values, and never before; an existing shadow is reused. Either way it was
   * then synced to `v` and measured with the zero size, then with `c`.
   */
  twostate predicate ShadowMeasured(shared: ShadowStore, v: Visual, c: Constraint)
    reads shared, shared.copyOfTextBox
  {
    var copy := shared.copyOfTextBox;
    && copy != null
    && copy.layout == shared.layout
    && (old(shared.copyOfTextBox) == null ==>
          && fresh(copy)
          && copy.acceptsReturn && copy.wraps
          && copy.measureLog == [MeasureCall(StyleOnly(shared.style), ZeroConstraint),
                                 MeasureCall(v, ZeroConstraint), MeasureCall(v, c)])
    && (old(shared.copyOfTextBox) != null ==>
          && copy == old(shared.copyOfTextBox)
          && copy.acceptsReturn == old(copy.acceptsReturn) && copy.wraps == old(copy.wraps)
          && copy.selectionStart == old(copy.selectionStart) && copy.maxLength == old(copy.maxLength)
          && copy.measureLog == old(copy.measureLog) + [MeasureCall(v, ZeroConstraint), MeasureCall(v, c)])
    && copy.VisualState() == v
    && copy.desiredSize == shared.layout(v, c)
  }

  /** The shadow, if any, is exactly as it was. */
  twostate predicate ShadowUntouched(shared: ShadowStore)
    reads shared, shared.copyOfTextBox
  {
    && shared.copyOfTextBox == old(shared.copyOfTextBox)
    && (shared.copyOfTextBox != null ==> unchanged(shared.copyOfTextBox))
  }

  /** The properties of a text box that holds nothing but its style. */
  function StyleOnly(style: Style): Visual {
    Visual([], style.font.size, style.font.family, style.font.stretch, style.font.style,
           style.font.weight, style.margin, style.padding)
  }

  /** The font description the renderer reads from an Editor. */
  function EditorFont(editor: Editor): Font
    reads editor
  {
    Font(editor.fontFamily, editor.fontSize, editor.fontAttributes)
  }

  /** The test in UpdateFont: no family, the platform's default size, no attributes. */
  predicate IsDefaultFont(f: Font, platformDefaultSize: real) {
    f.family == None && f.size == platformDefaultSize && f.attributes == NoAttributes
  }

  /** What UpdateFont does to the native control's font. */
  datatype FontAction = Keep | Clear | Apply

  /**
   * The `_fontApplied` state machine: the control's font is left alone only
   * while the Editor's font is the default and no font was ever applied;
   * once a font was applied the flag stays set.
   */
  function FontUpdate(fontApplied: bool, isDefault: bool): (r: (FontAction, bool))
    ensures r.0 == Keep <==> isDefault && !fontApplied
    ensures r.0 == Apply <==> !isDefault
    ensures r.1 == (fontApplied || !isDefault)
    ensures fontApplied ==> r.1
  {
    if isDefault && !fontApplied then (Keep, false)
    else if isDefault then (Clear, true)
    else (Apply, true)
  }

  /**
   * UpdateMaxLength's cut: the text if it fits, otherwise its first `n`
   * characters; always a prefix of the text and at most `n` long.
   */
  function Truncate(s: Utf16Text, n: nat): (r: Utf16Text)
    ensures |r| <= n
    ensures r <= s
    ensures |s| <= n ==> r == s
    ensures |s| > n ==> |r| == n
  {
    if |s| > n then s[..n] else s
  }

  class EditorRenderer {
    /** The process-wide static state, shared by all Editor renderers. */
    const shared: ShadowStore
    /** How a text box measures once it is part of a page's layout. */
    const hostedLayout: Layout
    /** Device.GetNamedSize(NamedSize.Default, typeof(Editor), true). */
    const platformDefaultFontSize: real
    /** FontExtensions.ApplyFont: the size, family, style and weight it assigns for an Editor font. */
    const applyFont: Font -> AppliedFont

    var element: Editor?
    var control: TextBox?
    /** Children.Count of the renderer panel. */
    var childCount: nat
    var fontApplied: bool

    constructor (shared: ShadowStore, hostedLayout: Layout, platformDefaultFontSize: real,
                 applyFont: Font -> AppliedFont)
      ensures this.shared == shared && this.hostedLayout == hostedLayout
      ensures this.platformDefaultFontSize == platformDefaultFontSize && this.applyFont == applyFont
      ensures element == null && control == null && childCount == 0 && !fontApplied
    {
      this.shared := shared;
      this.hostedLayout := hostedLayout;
      this.platformDefaultFontSize := platformDefaultFontSize;
      this.applyFont := applyFont;
      element, control := null, null;
      childCount := 0;
      fontApplied := false;
    }

    /**
     * GetCopyOfSize: create and calibrate the shadow on first use, copy the
     * eight properties from `control`, measure with the zero size and then
     * with `constraint`, and round the shadow's desired size up.
     */
    method GetCopyOfSize(control: TextBox, constraint: Constraint) returns (result: Size)
      requires shared.Valid() && control != shared.copyOfTextBox
      modifies shared, shared.copyOfTextBox
      ensures shared.Valid()
      ensures ShadowMeasured(shared, control.VisualState(), constraint)
      ensures result == RoundUp(shared.layout(control.VisualState(), constraint))
    {
      if shared.copyOfTextBox == null {
        var created := new TextBox(shared.layout, shared.style);
        shared.copyOfTextBox := created;
        created.Measure(ZeroConstraint);
      }
      var copy := shared.copyOfTextBox;
      SyncShadow(copy, control);
      copy.Measure(ZeroConstraint);
      copy.Measure(constraint);
      result := RoundUp(copy.desiredSize);
    }

    /** The property copy of GetCopyOfSize: text, the five font properties, margin and padding. */
    static method SyncShadow(copy: TextBox, control: TextBox)
      requires copy != control
      modifies copy`text, copy`fontSize, copy`fontFamily, copy`fontStretch, copy`fontStyle,
               copy`fontWeight, copy`margin, copy`padding
      ensures copy.VisualState() == control.VisualState()
    {
      copy.text := control.text;
      copy.fontSize := control.fontSize;
      copy.fontFamily := control.fontFamily;
      copy.fontStretch := control.fontStretch;
      copy.fontStyle := control.fontStyle;
      copy.fontWeight := control.fontWeight;
      copy.margin := control.margin;
      copy.padding := control.padding;
    }

    /**
     * CalculateDesiredSizes: in auto-size mode the answer comes from the
     * shadow alone, and the live control is measured with the constraint
     * but its desired size is not used; otherwise the live control is
     * measured and its desired size rounded up.
     */
    method CalculateDesiredSizes(control: TextBox, constraint: Constraint, sizeOption: SizeOption)
      returns (r: SizeRequest)
      requires shared.Valid() && control != shared.copyOfTextBox
      modifies shared, shared.copyOfTextBox, control`desiredSize, control`measureLog
      ensures shared.Valid()
      ensures control.measureLog == old(control.measureLog) + [MeasureCall(control.VisualState(), constraint)]
      ensures control.desiredSize == control.layout(control.VisualState(), constraint)
      ensures sizeOption == AutoSizeToTextChanges ==>
        && ShadowMeasured(shared, control.VisualState(), constraint)
        && r == Exact(RoundUp(shared.layout(control.VisualState(), constraint)))
      ensures sizeOption == Default ==>
        && ShadowUntouched(shared)
        && r == Exact(RoundUp(control.layout(control.VisualState(), constraint)))
    {
      if sizeOption == AutoSizeToTextChanges {
        var result := GetCopyOfSize(control, constraint);
        control.Measure(constraint);
        r := Exact(result);
      } else {
        control.Measure(constraint);
        r := Exact(RoundUp(control.desiredSize));
      }
    }

    /**
     * GetDesiredSize: the zero request, with nothing measured, when the
     * renderer has no child or no native control; otherwise the size for the
     * Editor's current SizeOption.
     */
    method GetDesiredSize(widthConstraint: Extent, heightConstraint: Extent) returns (r: SizeRequest)
      requires shared.Valid()
      requires childCount > 0 && control != null ==> element != null && control != shared.copyOfTextBox
      modifies shared, shared.copyOfTextBox, control
      ensures shared.Valid()
      ensures control != null ==> OnlyMeasured(control)
      ensures childCount == 0 || control == null ==>
        && r == ZeroRequest
        && unchanged(shared)
        && ShadowUntouched(shared)
        && (control != null ==> unchanged(control))
      ensures childCount > 0 && control != null ==>
        var c := Constraint(widthConstraint, heightConstraint);
        var v := control.VisualState();
        && control.measureLog == old(control.measureLog) + [MeasureCall(v, c)]
        && control.desiredSize == control.layout(v, c)
        && (element.sizeOption == AutoSizeToTextChanges ==>
              ShadowMeasured(shared, v, c) && r == Exact(RoundUp(shared.layout(v, c))))
        && (element.sizeOption == Default ==>
              ShadowUntouched(shared) && r == Exact(RoundUp(control.layout(v, c))))
    {
      var child := control;
      if childCount == 0 || child == null {
        return ZeroRequest;
      }
      r := CalculateDesiredSizes(child, Constraint(widthConstraint, heightConstraint), element.sizeOption);
    }

    /**
     * UpdateText: the control shows the Editor's text, null shown as "". If
     * it already did, nothing changes (the caret stays); otherwise the text
     * is replaced and the caret moves to its end.
     */
    method UpdateText()
      requires control != null && element != null
      modifies control`text, control`selectionStart
      ensures control.text == element.text.GetOr([])
      ensures old(control.text) == element.text.GetOr([]) ==> control.selectionStart == old(control.selectionStart)
      ensures old(control.text) != element.text.GetOr([]) ==> control.selectionStart == |control.text|
    {
      var newText := element.text.GetOr([]);
      if control.text == newText {
        return;
      }
      control.text := newText;
      control.selectionStart := |control.text|;
    }

    /** UpdateMaxLength: copy MaxLength to the control and cut the text down to it. */
    method UpdateMaxLength()
      requires control != null && element != null
      modifies control`maxLength, control`text
      ensures control.maxLength == element.maxLength
      ensures control.text == Truncate(old(control.text), element.maxLength)
    {
      control.maxLength := element.maxLength;
      var currentControlText := control.text;
      if |currentControlText| > element.maxLength {
        control.text := currentControlText[..element.maxLength];
      }
    }

    /**
     * UpdateFont: nothing without a control and an Editor; otherwise one step
     * of FontUpdate — keep the control's font, clear it back to the style's,
     * or apply the Editor's — and record whether a font has been applied.
     */
    method UpdateFont()
      modifies this`fontApplied, control
      ensures control != null ==> FontOnlyChanged(control)
      ensures control == null || element == null ==>
        fontApplied == old(fontApplied) && (control != null ==> unchanged(control))
      ensures control != null && element != null ==>
        var step := FontUpdate(old(fontApplied), IsDefaultFont(EditorFont(element), platformDefaultFontSize));
        && fontApplied == step.1
        && (step.0 == Keep ==> control.Font() == old(control.Font()))
        && (step.0 == Clear ==> control.Font() == control.style.font)
        && (step.0 == Apply ==> control.Font() == Overlay(old(control.Font()), applyFont(EditorFont(element))))
    {
      if control == null {
        return;
      }
      var editor := element;
      if editor == null {
        return;
      }
      var editorIsDefault := IsDefaultFont(EditorFont(editor), platformDefaultFontSize);
      if editorIsDefault && !fontApplied {
        return;
      }
      if editorIsDefault {
        control.ClearFontValues();
      } else {
        control.SetFont(applyFont(EditorFont(editor)));
      }
      fontApplied := true;
    }

    /**
     * OnElementChanged for a new Editor: create the native control on first
     * use (a multi-line, wrapping text box added as the renderer's child),
     * then push the Editor's text, font and maximum length to it.
     */
    method OnElementChanged(newElement: Editor)
      requires control != null ==> control != shared.copyOfTextBox
      modifies this, control
      ensures element == newElement
      ensures old(control) != null ==> control == old(control) && childCount == old(childCount)
      ensures old(control) == null ==>
        && control != null && fresh(control)
        && control.acceptsReturn && control.wraps
        && control.layout == hostedLayout && control.style == shared.style
        && childCount == old(childCount) + 1
        && control.margin == shared.style.margin && control.padding == shared.style.padding
        && control.measureLog == [] && control.desiredSize == Size(0.0, 0.0)
      ensures old(control) != null ==>
        && control.acceptsReturn == old(control.acceptsReturn) && control.wraps == old(control.wraps)
        && control.margin == old(control.margin) && control.padding == old(control.padding)
        && control.desiredSize == old(control.desiredSize) && control.measureLog == old(control.measureLog)
      ensures control != null && control != shared.copyOfTextBox
      ensures control.maxLength == newElement.maxLength
      ensures control.text == Truncate(newElement.text.GetOr([]), newElement.maxLength)
      ensures var shown := newElement.text.GetOr([]);
        && (old(control) == null ==> control.selectionStart == |shown|)
        && (old(control) != null && old(control.text) == shown ==>
              control.selectionStart == old(control.selectionStart))
        && (old(control) != null && old(control.text) != shown ==> control.selectionStart == |shown|)
      ensures var step := FontUpdate(old(fontApplied), IsDefaultFont(EditorFont(newElement), platformDefaultFontSize));
        && fontApplied == step.1
        && (step.0 == Keep && old(control) == null ==> control.Font() == shared.style.font)
        && (step.0 == Keep && old(control) != null ==> control.Font() == old(control.Font()))
        && (step.0 == Clear ==> control.Font() == control.style.font)
        && (step.0 == Apply && old(control) == null ==>
              control.Font() == Overlay(shared.style.font, applyFont(EditorFont(newElement))))
        && (step.0 == Apply && old(control) != null ==>
              control.Font() == Overlay(old(control.Font()), applyFont(EditorFont(newElement))))
    {
      element := newElement;
      if control == null {
        var textBox := new TextBox(hostedLayout, shared.style);
        control := textBox;
        childCount := childCount + 1;
      }
      UpdateText();
      UpdateFont();
      UpdateMaxLength();
    }
  }
}
