/**
 * The cross-platform Editor control: its stored properties, and the change
 * callbacks that raise TextChanged and invalidate the cached measurement.
 * Everything the Editor does to the outside world is appended, in order, to
 * an effect log; the number of InvalidateMeasure calls and the TextChanged
 * events raised are read off that log.
 */
module EditorModel {
  import opened Nullable
  import opened Utf16

  datatype SizeOption = Default | AutoSizeToTextChanges

  /** The FontAttributes flags (None, Bold, Italic, or both). */
  datatype FontAttributes = FontAttributes(bold: bool, italic: bool)

  const NoAttributes := FontAttributes(false, false)

  /** Xamarin.Forms.Font, as handed to the font-changed hook. */
  datatype Font = Font(family: Option<string>, size: real, attributes: FontAttributes)

  datatype Color = DefaultColor | Rgba(r: real, g: real, b: real, a: real)

  /** int.MaxValue, the default MaxLength an InputView starts with. */
  const IntMaxValue: nat := 0x7FFF_FFFF

  /** What the Editor does that someone else can observe. */
  datatype Effect =
    | TextChanged(sender: Editor, oldTextValue: Option<Utf16Text>, newTextValue: Option<Utf16Text>)
    | MeasureInvalidated
    | Completed(sender: Editor)

  /** The number of InvalidateMeasure calls in a log. */
  function Invalidations(log: seq<Effect>): nat
  {
    if log == [] then 0
    else (if log[0].MeasureInvalidated? then 1 else 0) + Invalidations(log[1..])
  }

  /** The TextChanged events in a log, in the order they were raised. */
  function TextChangedEvents(log: seq<Effect>): seq<Effect>
  {
    if log == [] then []
    else (if log[0].TextChanged? then [log[0]] else []) + TextChangedEvents(log[1..])
  }

  lemma {:induction false} InvalidationsConcat(a: seq<Effect>, b: seq<Effect>)
    ensures Invalidations(a + b) == Invalidations(a) + Invalidations(b)
  {
    if a != [] {
      assert (a + b)[1..] == a[1..] + b;
      InvalidationsConcat(a[1..], b);
    } else {
      assert a + b == b;
    }
  }

  lemma {:induction false} TextChangedEventsConcat(a: seq<Effect>, b: seq<Effect>)
    ensures TextChangedEvents(a + b) == TextChangedEvents(a) + TextChangedEvents(b)
  {
    if a != [] {
      assert (a + b)[1..] == a[1..] + b;
      TextChangedEventsConcat(a[1..], b);
    } else {
      assert a + b == b;
    }
  }

  /** The mode test of UpdateSizeOption and OnTextChanged. */
  predicate TracksContent(mode: SizeOption) {
    mode == AutoSizeToTextChanges
  }

  /**
   * What OnTextChanged does: raise exactly one TextChanged carrying the old
   * and new text, then invalidate exactly when in auto-size mode.
   */
  function TextChangeEffects(sender: Editor, oldText: Option<Utf16Text>, newText: Option<Utf16Text>,
                             mode: SizeOption): (r: seq<Effect>)
    ensures TextChangedEvents(r) == [TextChanged(sender, oldText, newText)]
    ensures Invalidations(r) == (if TracksContent(mode) then 1 else 0)
    ensures r[0] == TextChanged(sender, oldText, newText)
    ensures forall i :: 0 < i < |r| ==> r[i] == MeasureInvalidated
  {
    var tail := ContentChangeEffects(mode);
    var r := [TextChanged(sender, oldText, newText)] + tail;
    assert r[1..] == tail;
    r
  }

  /**
   * What UpdateSizeOption does (after a font family, size, attributes or font
   * change): invalidate exactly when in auto-size mode, nothing else.
   */
  function ContentChangeEffects(mode: SizeOption): (r: seq<Effect>)
    ensures TextChangedEvents(r) == []
    ensures Invalidations(r) == (if TracksContent(mode) then 1 else 0)
    ensures forall i :: 0 <= i < |r| ==> r[i] == MeasureInvalidated
    ensures !TracksContent(mode) ==> r == []
  {
    if TracksContent(mode) then [MeasureInvalidated] else []
  }

  class Editor {
    var sizeOption: SizeOption
    var text: Option<Utf16Text>
    var textColor: Color
    var fontFamily: Option<string>
    var fontSize: real
    var fontAttributes: FontAttributes
    /** InputView.MaxLength, read by the renderer; InputView, which owns its setter, is not part of this model. */
    var maxLength: nat
    var log: seq<Effect>

    function InvalidationCount(): nat
      reads this
    {
      Invalidations(log)
    }

    function RaisedTextChanged(): seq<Effect>
      reads this
    {
      TextChangedEvents(log)
    }

    /**
     * A new Editor holds every property's default value. The default font
     * size is the platform's named Default size, passed in.
     */
    constructor (defaultFontSize: real)
      ensures sizeOption == Default
      ensures text == None && fontFamily == None
      ensures fontSize == defaultFontSize && fontAttributes == NoAttributes
      ensures textColor == DefaultColor && maxLength == IntMaxValue
      ensures log == []
    {
      sizeOption := Default;
      text := None;
      textColor := DefaultColor;
      fontFamily := None;
      fontSize := defaultFontSize;
      fontAttributes := NoAttributes;
      maxLength := IntMaxValue;
      log := [];
    }

    /** The changed-callback of the SizeOption property: always invalidates. */
    method OnSizeOptionChanged(oldValue: SizeOption, newValue: SizeOption)
      modifies this`log
      ensures log == old(log) + [MeasureInvalidated]
      ensures InvalidationCount() == old(InvalidationCount()) + 1
      ensures RaisedTextChanged() == old(RaisedTextChanged())
    {
      InvalidationsConcat(log, [MeasureInvalidated]);
      TextChangedEventsConcat(log, [MeasureInvalidated]);
      log := log + [MeasureInvalidated];
    }

    /**
     * The SizeOption setter. A different value always reaches the
     * changed-callback; whether an equal value does is the property
     * system's business and is left open.
     */
    method SetSizeOption(value: SizeOption)
      modifies this`sizeOption, this`log
      ensures sizeOption == value
      ensures old(sizeOption) != value ==> log == old(log) + [MeasureInvalidated]
      ensures old(sizeOption) == value ==> log == old(log) || log == old(log) + [MeasureInvalidated]
    {
      var previous := sizeOption;
      sizeOption := value;
      var notify: bool :| previous != value ==> notify;
      if notify {
        OnSizeOptionChanged(previous, value);
      }
    }

    /** OnTextChanged: raise TextChanged(old, new) first, then invalidate in auto-size mode. */
    method OnTextChanged(oldValue: Option<Utf16Text>, newValue: Option<Utf16Text>)
      modifies this`log
      ensures log == old(log) + TextChangeEffects(this, oldValue, newValue, sizeOption)
      ensures RaisedTextChanged() == old(RaisedTextChanged()) + [TextChanged(this, oldValue, newValue)]
      ensures InvalidationCount() == old(InvalidationCount()) + (if TracksContent(sizeOption) then 1 else 0)
    {
      var effects := TextChangeEffects(this, oldValue, newValue, sizeOption);
      InvalidationsConcat(log, effects);
      TextChangedEventsConcat(log, effects);
      log := log + effects;
    }

    /** The Text setter, with its changed-callback OnTextChanged. */
    method SetText(value: Option<Utf16Text>)
      modifies this`text, this`log
      ensures text == value
      ensures old(text) != value ==> log == old(log) + TextChangeEffects(this, old(text), value, sizeOption)
      ensures old(text) == value ==>
        log == old(log) || log == old(log) + TextChangeEffects(this, value, value, sizeOption)
    {
      var previous := text;
      text := value;
      var notify: bool :| previous != value ==> notify;
      if notify {
        OnTextChanged(previous, value);
      }
    }

    /** UpdateSizeOption: invalidate the measurement only in auto-size mode. */
    method UpdateSizeOption()
      modifies this`log
      ensures log == old(log) + ContentChangeEffects(sizeOption)
      ensures InvalidationCount() == old(InvalidationCount()) + (if TracksContent(sizeOption) then 1 else 0)
      ensures RaisedTextChanged() == old(RaisedTextChanged())
    {
      var effects := ContentChangeEffects(sizeOption);
      InvalidationsConcat(log, effects);
      TextChangedEventsConcat(log, effects);
      log := log + effects;
    }

    method OnFontFamilyChanged(oldValue: Option<string>, newValue: Option<string>)
      modifies this`log
      ensures log == old(log) + ContentChangeEffects(sizeOption)
    {
      UpdateSizeOption();
    }

    method OnFontSizeChanged(oldValue: real, newValue: real)
      modifies this`log
      ensures log == old(log) + ContentChangeEffects(sizeOption)
    {
      UpdateSizeOption();
    }

    method OnFontChanged(oldValue: Font, newValue: Font)
      modifies this`log
      ensures log == old(log) + ContentChangeEffects(sizeOption)
    {
      UpdateSizeOption();
    }

    method OnFontAttributesChanged(oldValue: FontAttributes, newValue: FontAttributes)
      modifies this`log
      ensures log == old(log) + ContentChangeEffects(sizeOption)
    {
      UpdateSizeOption();
    }

    /** The FontFamily setter; the font element's callback calls OnFontFamilyChanged. */
    method SetFontFamily(value: Option<string>)
      modifies this`fontFamily, this`log
      ensures fontFamily == value
      ensures old(fontFamily) != value ==> log == old(log) + ContentChangeEffects(sizeOption)
      ensures old(fontFamily) == value ==> log == old(log) || log == old(log) + ContentChangeEffects(sizeOption)
    {
      var previous := fontFamily;
      fontFamily := value;
      var notify: bool :| previous != value ==> notify;
      if notify {
        OnFontFamilyChanged(previous, value);
      }
    }

    /** The FontSize setter; the font element's callback calls OnFontSizeChanged. */
    method SetFontSize(value: real)
      modifies this`fontSize, this`log
      ensures fontSize == value
      ensures old(fontSize) != value ==> log == old(log) + ContentChangeEffects(sizeOption)
      ensures old(fontSize) == value ==> log == old(log) || log == old(log) + ContentChangeEffects(sizeOption)
    {
      var previous := fontSize;
      fontSize := value;
      var notify: bool :| previous != value ==> notify;
      if notify {
        OnFontSizeChanged(previous, value);
      }
    }

    /** The FontAttributes setter; the font element's callback calls OnFontAttributesChanged. */
    method SetFontAttributes(value: FontAttributes)
      modifies this`fontAttributes, this`log
      ensures fontAttributes == value
      ensures old(fontAttributes) != value ==> log == old(log) + ContentChangeEffects(sizeOption)
      ensures old(fontAttributes) == value ==>
        log == old(log) || log == old(log) + ContentChangeEffects(sizeOption)
    {
      var previous := fontAttributes;
      fontAttributes := value;
      var notify: bool :| previous != value ==> notify;
      if notify {
        OnFontAttributesChanged(previous, value);
      }
    }

    /** The TextColor setter: its callback does nothing, so no event and no invalidation. */
    method SetTextColor(value: Color)
      modifies this`textColor
      ensures textColor == value
      ensures log == old(log)
    {
      var previous := textColor;
      textColor := value;
      OnTextColorPropertyChanged(previous, value);
    }

    /** The text colour hook is empty. */
    method OnTextColorPropertyChanged(oldValue: Color, newValue: Color)
    {
    }

    /** SendCompleted raises Completed with this editor as sender. */
    method SendCompleted()
      modifies this`log
      ensures log == old(log) + [Completed(this)]
      ensures InvalidationCount() == old(InvalidationCount())
      ensures RaisedTextChanged() == old(RaisedTextChanged())
    {
      InvalidationsConcat(log, [Completed(this)]);
      TextChangedEventsConcat(log, [Completed(this)]);
      log := log + [Completed(this)];
    }
  }
}
