# Editor auto-size measurement — a Dafny model

This project models two pieces of the Xamarin.Forms multi-line text control, the `Editor`:

* **The Editor's change and invalidation policy** (`Xamarin.Forms.Core/Editor.cs`). It stores the
  `SizeOption`, `Text`, font and text-colour properties. It raises `TextChanged(old, new)` on a text
  change. It calls `InvalidateMeasure` on every `SizeOption` change, and on text or font changes only
  in `AutoSizeToTextChanges` mode. The class `EditorModel.Editor` records what it does, in order, in an
  effect log (`TextChanged`, `MeasureInvalidated`, `Completed`). The number of invalidations and the
  events raised are read off that log.
* **The UWP renderer's measurement and sync logic** (`Xamarin.Forms.Platform.UAP/EditorRenderer.cs`).
  `GetDesiredSize` returns the zero request when there is no child or no native control. In `Default`
  mode it measures the live text box and rounds up. In auto-size mode it uses the process-wide shadow
  text box `copyOfTextBox` (`EditorRendering.ShadowStore`):
  * the shadow is created lazily, once, and calibrated with a zero-size measure only when it is created;
  * on every use, eight properties of the live control are copied onto it;
  * it is then measured with the zero size and then with the real constraint;
  * its desired size is rounded up, and the live control is measured too, but that result is not used.
  
  `UpdateText`, `UpdateMaxLength` and the `_fontApplied` state machine of `UpdateFont` are modelled too.

The native text box (`NativeTextBox.TextBox`) holds the properties the renderer reads and writes. Its
layout algorithm is foreign code. Each text box carries it as a function value from its eight
measured properties and a constraint to a non-negative size. Every `Measure` call is appended to the
box's measure log together with the properties it saw. The contracts can therefore state the order of
the measurements: calibrate once, then zero, then the constraint.

Text is modelled as .NET strings are stored: a sequence of UTF-16 code units (`Utf16.Utf16Text`). `String.Length`, `Substring` and `SelectionStart` count those units, so a cut may split a surrogate pair, as it does in the source.

Modules: `Nullable` (C# `null`), `Utf16` (.NET string text), `Geometry` (sizes, constraints, ceiling rounding), `NativeTextBox`,
`EditorModel` (Editor.cs), `EditorRendering` (EditorRenderer.cs).

## Model

| member | source | states |
|---|---|---|
| `Geometry.Ceiling` | Xamarin.Forms.Platform.UAP/EditorRenderer.cs:182-186 | Math.Ceiling: the result is a whole number, at least the input and less than the input plus one |
| `Geometry.CeilingIsLeast` | Xamarin.Forms.Platform.UAP/EditorRenderer.cs:184-185 | no whole number at or above the input lies below its ceiling |
| `Geometry.RoundUp` | Xamarin.Forms.Platform.UAP/EditorRenderer.cs:203 | each returned dimension is whole, non-negative, at least the measured desired dimension and less than it plus one |
| `EditorModel.TextChangeEffects` | Xamarin.Forms.Core/Editor.cs:118-125 | a text change raises exactly one TextChanged carrying sender, old and new text, as the first effect; after it comes one invalidation exactly in auto-size mode and nothing else |
| `EditorModel.ContentChangeEffects` | Xamarin.Forms.Core/Editor.cs:65-71 | the UpdateSizeOption step consists of invalidations only: none in Default mode, exactly one in auto-size mode, and never a TextChanged |
| `EditorModel.Editor.constructor` | Xamarin.Forms.Core/Editor.cs:11-22 | a new Editor has SizeOption Default, null text and family, the platform default font size, no attributes, default colour and an empty effect log |
| `EditorModel.Editor.OnSizeOptionChanged` | Xamarin.Forms.Core/Editor.cs:22-23 | a SizeOption change invalidates exactly once, whatever the new mode, and raises no TextChanged |
| `EditorModel.Editor.SetSizeOption` | Xamarin.Forms.Core/Editor.cs:28-32 | the stored mode is the value set; a different value invalidates exactly once |
| `EditorModel.Editor.OnTextChanged` | Xamarin.Forms.Core/Editor.cs:118-125 | the log grows by TextChanged(this, old, new) followed by an invalidation exactly in auto-size mode; one more event, one more invalidation only in auto-size mode |
| `EditorModel.Editor.SetText` | Xamarin.Forms.Core/Editor.cs:34-38 | the stored text is the value set (null included); a different value runs OnTextChanged with the previous and new text |
| `EditorModel.Editor.UpdateSizeOption` | Xamarin.Forms.Core/Editor.cs:65-71 | invalidates exactly in auto-size mode; raises no event |
| `EditorModel.Editor.OnFontFamilyChanged` | Xamarin.Forms.Core/Editor.cs:73-76 | goes through UpdateSizeOption |
| `EditorModel.Editor.OnFontSizeChanged` | Xamarin.Forms.Core/Editor.cs:78-81 | goes through UpdateSizeOption |
| `EditorModel.Editor.OnFontChanged` | Xamarin.Forms.Core/Editor.cs:83-86 | goes through UpdateSizeOption |
| `EditorModel.Editor.OnFontAttributesChanged` | Xamarin.Forms.Core/Editor.cs:91-94 | goes through UpdateSizeOption |
| `EditorModel.Editor.SetFontFamily` | Xamarin.Forms.Core/Editor.cs:52-56 | the stored family is the value set; a different value invalidates exactly in auto-size mode, and in Default mode leaves the log as it was |
| `EditorModel.Editor.SetFontSize` | Xamarin.Forms.Core/Editor.cs:58-63 | the stored size is the value set; a different value invalidates exactly in auto-size mode |
| `EditorModel.Editor.SetFontAttributes` | Xamarin.Forms.Core/Editor.cs:46-50 | the stored attributes are the value set; a different value invalidates exactly in auto-size mode |
| `EditorModel.Editor.SetTextColor` | Xamarin.Forms.Core/Editor.cs:114-116 | the stored colour is the value set; no event and no invalidation; its hook OnTextColorPropertyChanged is empty and changes nothing |
| `EditorModel.Editor.SendCompleted` | Xamarin.Forms.Core/Editor.cs:110-112 | raises Completed with this editor as sender; no TextChanged, no invalidation |
| `NativeTextBox.TextBox.constructor` | Xamarin.Forms.Platform.UAP/EditorRenderer.cs:155-160 | a new text box accepts returns, wraps, has empty text and its style's font, margin and padding, and has never been measured |
| `NativeTextBox.TextBox.Measure` | Xamarin.Forms.Platform.UAP/EditorRenderer.cs:179-180 | DesiredSize becomes the layout of the current properties under the constraint; the call is logged with those properties |
| `NativeTextBox.TextBox.ClearFontValues` | Xamarin.Forms.Platform.UAP/EditorRenderer.cs:239-243 | clearing the five font properties restores the style's font |
| `NativeTextBox.TextBox.SetFont` | Xamarin.Forms.Platform.UAP/EditorRenderer.cs:248 | applying a font sets size, family, style and weight, and FontStretch keeps its value |
| `EditorRendering.ShadowStore.constructor` | Xamarin.Forms.Platform.UAP/EditorRenderer.cs:17 | the process starts without a shadow text box |
| `EditorRendering.EditorRenderer.constructor` | Xamarin.Forms.Platform.UAP/EditorRenderer.cs:15-21 | a renderer starts with no Editor, no control, no child and `_fontApplied` false |
| `EditorRendering.EditorRenderer.SyncShadow` | Xamarin.Forms.Platform.UAP/EditorRenderer.cs:171-178 | after the copy the shadow's text, font size, family, stretch, style, weight, margin and padding all equal the live control's |
| `EditorRendering.EditorRenderer.GetCopyOfSize` | Xamarin.Forms.Platform.UAP/EditorRenderer.cs:151-189 | the shadow exists afterwards. If this call created it, it is fresh and its log is exactly: calibration on its bare style with the zero size, then zero, then the constraint on the synced properties. An existing shadow is reused and gains exactly the zero and constraint measures. The result is the shadow's desired size rounded up. The live control is not changed |
| `EditorRendering.EditorRenderer.CalculateDesiredSizes` | Xamarin.Forms.Platform.UAP/EditorRenderer.cs:192-206 | the live control is measured once with the constraint in both modes. In auto-size mode the result is the rounded shadow size and does not depend on the live control's desired size. In Default mode the result is the rounded live desired size and the shadow is untouched |
| `EditorRendering.EditorRenderer.GetDesiredSize` | Xamarin.Forms.Platform.UAP/EditorRenderer.cs:208-216 | no child or no control: the zero request, and nothing is measured or changed. Otherwise the CalculateDesiredSizes result for the Editor's SizeOption; of the live control only DesiredSize and the measure log change |
| `EditorRendering.EditorRenderer.UpdateText` | Xamarin.Forms.Platform.UAP/EditorRenderer.cs:275-286 | the control shows `Element.Text ?? ""`. If it already did, SelectionStart is kept; otherwise SelectionStart is the new text's length in UTF-16 code units |
| `EditorRendering.Truncate` | Xamarin.Forms.Platform.UAP/EditorRenderer.cs:313-316 | counting UTF-16 code units, the cut text is a prefix of the text, at most MaxLength long, exactly MaxLength long when the text was longer, and the text itself when it fit |
| `EditorRendering.EditorRenderer.UpdateMaxLength` | Xamarin.Forms.Platform.UAP/EditorRenderer.cs:309-317 | the control's MaxLength is the Editor's, and its text is the old text cut to it |
| `EditorRendering.FontUpdate` | Xamarin.Forms.Platform.UAP/EditorRenderer.cs:228-251 | the font is kept exactly when the Editor's font is the default and none was ever applied. It is applied exactly when it is not the default. The flag afterwards is "applied before or not default", and once set it stays set |
| `EditorRendering.EditorRenderer.UpdateFont` | Xamarin.Forms.Platform.UAP/EditorRenderer.cs:218-252 | without a control or Editor nothing changes. Otherwise the control's font is kept, cleared to its style, or overlaid with the applied Editor font (stretch kept), as FontUpdate says, and nothing but the font changes. The Editor's font counts as the default (IsDefaultFont) when it has no family, the platform's default size and no attributes |
| `EditorRendering.EditorRenderer.OnElementChanged` | Xamarin.Forms.Platform.UAP/EditorRenderer.cs:28-63 | a missing control is created once, as a wrapping multi-line box added as a child. It then shows the Editor's text, null as "", cut to MaxLength, and carries the Editor's MaxLength. SelectionStart is kept when the control already showed that text and is otherwise the text's length before the cut. The control's font is the one FontUpdate picks: kept (the style's font for a new control), cleared to its style, or overlaid with the applied Editor font, keeping its stretch; the flag follows FontUpdate. A new control has its style's margin and padding and has never been measured; an existing control keeps its wrapping settings, margin, padding, desired size and measure log |

## Left out

- The native layout algorithm is not modelled. Each text box carries it as a function of its eight measured properties and the constraint. The calibration measures therefore appear in the measure logs but cannot change a size. Whether skipping them would give a wrong size is outside the model.
- Because of that layout function, an auto-size result depends only on the live control's properties and the constraint, not on earlier uses of the shared shadow. This is a property of the model's abstraction, not something the native widget guarantees.
- Doubles, NaN and infinities: sizes are reals. Positive infinity is the `Unbounded` extent, which only reaches the layout function. The renderer does no check of its own on negative constraints; what `Windows.Foundation.Size` does with a negative value is outside the model.
- `FontSizeDefaultValueCreator` and `Device.GetNamedSize` are platform calls. They are parameters: the Editor constructor's default font size and the renderer's `platformDefaultFontSize`.
- NativeTextBox.TextBox.SetFont: `FontExtensions.ApplyFont` is not part of this model. The renderer's `applyFont` function value gives the size, family, style and weight it assigns. The model takes it to leave FontStretch alone, so the values it picks are open and which properties it writes is an assumption. `ClearValue` on the five font properties is modelled as restoring the text box style's font.
- The wiring from the font element's property callbacks to the `IFontElement.On*Changed` hooks is not part of this model. The setters call the matching hook.
- EditorModel.Editor.SetText: when the value equals the current text, the model allows either no effect or one `OnTextChanged`. Whether `BindableProperty.SetValue` fires its callback for an equal value is not part of this model.
- EditorModel.Editor.SetSizeOption: the equal-value case is left open in the same way.
- EditorModel.Editor.SetFontFamily: the equal-value case is left open in the same way.
- EditorModel.Editor.SetFontSize: the equal-value case is left open in the same way.
- EditorModel.Editor.SetFontAttributes: the equal-value case is left open in the same way.
- EditorModel.Editor.OnTextChanged: the TextChanged handlers are assumed to leave the Editor alone. In the source they run before SizeOption is read (Editor.cs:120-121). A handler that changes SizeOption, or sets Text again and so re-enters OnTextChanged, would change which invalidations follow and in what order. The model reads SizeOption on entry and lets nothing run between the event and the test.
- `TextChanged?.Invoke` and `Completed?.Invoke` reach only subscribed handlers. The effect log records every raised event, whether or not anyone is subscribed.
- `MaxLength` (an `InputView` property) is a natural number, read from the Editor's `maxLength` field; its setter belongs to InputView and is not modelled. A negative value would make `Substring` throw in the source; this is not modelled.
- After `UpdateMaxLength` cuts the text, the native box clamps `SelectionStart`. This is not modelled, so the model keeps the value `UpdateText` set.
- Event plumbing is not modelled: the subscriptions in `OnElementChanged` and `Dispose`, `OnLostFocus` → `SendCompleted`, and `OnNativeTextChanged`. The write-back to `Element.Text` that the native box triggers when `UpdateText` or `UpdateMaxLength` assigns its text is therefore not modelled either.
- The dispatch in `OnElementPropertyChanged` is left out. So is `OnElementChanged` with a null new element.
- Platform glue is left out: `UpdateInputScope`, `UpdateTextColor`, `UpdateBackgroundColor`, `UpdateTextAlignment`, `UpdateFlowDirection`, `UpdateDetectReadingOrderFromContent`, `UseFormsVsm` and the platform configuration registry (`On<T>`).
- `InvalidateMeasure` itself and the layout engine that consumes it are a count in the effect log only.
- The static field `copyOfTextBox` is a `ShadowStore` object handed to each renderer's constructor. "Created at most once" holds per store. It holds for the whole process only when every renderer is given the same store, and nothing in the model forces that.
- Thread safety of the static shadow is not modelled: the model is sequential, as the UI thread is.
- The sample page `Issue1733.cs` and the unit tests in `EditorTests.cs` are not modelled. The unit tests are the evidence for the `TextChanged` contract. No minimum-height or "longer text is taller" property is stated.
