# streamlit-colourplotting, modelled in Dafny

streamlit-colourplotting is a small web application. The user picks a source
colour, or uploads an image, and the application plots its chromaticities on a
CIE diagram. This project models the portable logic behind the interface:

- the numeric helpers of `core.py`: the axes box transform, the fast image
  decimation, and from the image reader the choice of decoder by file extension
  and the channel rules (`core.dfy`);
- the per-session user configuration of `ui/_config.py` (`config.dfy`):
  - the option enums and their value encodings;
  - the session key/value table, filled with defaults by every `config()`
    call;
  - the typed getters and setters over that table;
  - the derived `color`, `image` and `plot` views;
- the issue warning of `ui/_main.py`, built from the `UserIssue` bit flags and
  then cleared (`issues.dfy`);
- the two callbacks of the colour text field in `ui/_colorpicker.py`, a small
  state machine over the session table (`colorpicker.dfy`);
- the sidebar's value encoders in `ui/_sidebar.py` (`sidebar.dfy`):
  - the `#RRGGBBaa` style colour with its two alpha digits;
  - the overlay colourspace rows and the list of five stored from them;
  - the reciprocal axes scale.

The colour library the application uses (cocoon) is seen only through its
interface (`cocoon.dfy`). Its types are abstract and its functions are
parameters, so the model proves what the application does with them. The
option objects that `_main.py` and `_sidebar.py` read and write are modelled
as one slot class (`options.dfy`). That revision's configuration object is not
part of this model. `wrappers.dfy` holds Option, Result and the Python
exceptions the modelled code raises.

The session table is a `map<Key, Value>` held by a `Session` object. The
sixteen configuration keys are constructors of `Key`, and a widget's key is
`Widget(name)`. `UserConfig`'s constructor performs the sixteen
check-then-insert steps one by one, and it is proved equal to the single
function `Initialized` about which the lemmas speak. The colour-picker
callbacks are methods on the session, each proved equal to a step function,
and the properties are lemmas about those functions.

## Model

| member | source | states |
|---|---|---|
| Core.TransformBox | streamlit_colourplotting/core.py:16-58 | the centre moves by exactly the offsets, and width and height are multiplied by the scale |
| Core.TransformBoxIdentity | streamlit_colourplotting/core.py:40-58 | scale 1 with zero offsets gives the box back unchanged |
| Core.TransformBoxInverse | streamlit_colourplotting/core.py:40-58 | for s ≠ 0, scaling by s and then by 1/s without offsets gives back the original box |
| Core.TransformBoxCollapse | streamlit_colourplotting/core.py:43-56 | scale 0 collapses the box onto its centre moved by the offsets |
| Core.Stride | streamlit_colourplotting/core.py:83 | `s[::step]` keeps ceil(n / step) elements |
| Core.StrideAt | streamlit_colourplotting/core.py:83 | element i of `s[::step]` is element i·step of s |
| Core.StrideGrid | streamlit_colourplotting/core.py:83 | a strided image is rectangular, with ceil(h / rowStep) rows and ceil(w / colStep) columns |
| Core.StrideGridAt | streamlit_colourplotting/core.py:83 | cell (i, j) of the strided image is cell (i·rowStep, j·colStep) of the source |
| Core.StrideGridOne | streamlit_colourplotting/core.py:82-83 | a stride of 1 on both axes keeps the image |
| Core.WidthRatio | streamlit_colourplotting/core.py:74-76 | the effective target is never below the source width, so the width ratio is 1 when the requested width is at most the source width and 0 otherwise |
| Core.ScaledHeight | streamlit_colourplotting/core.py:78-79 | the target height is never below the source height, and is 0 for an empty image |
| Core.HeightRatio | streamlit_colourplotting/core.py:80 | the height ratio is 1 when the target height equals the source height and 0 otherwise |
| Core.RescaleImageFast | streamlit_colourplotting/core.py:61-84 | an empty image raises ZeroDivisionError; any other image comes back unchanged, as a stride-1 slice or as a copy |
| Core.RescaleImageFastNeverShrinks | streamlit_colourplotting/core.py:74-84 | a 100 × 50 image asked at width 10 comes back 50 wide |
| Core.RescaleImageIntended | streamlit_colourplotting/core.py:61-73 | the decimation the docstring describes: both axes are cut to ceil(n / ratio) with the same ratio max(1, width // target); a target at least the width keeps the image; otherwise the width lands in [target, 2·target) and neither axis grows |
| Core.RescaleImageIntendedAt | streamlit_colourplotting/core.py:61-73 | cell (i, j) of the corrected result is source cell (i·ratio, j·ratio), so rows and columns are sampled alike and the aspect ratio is kept |
| Core.RescaleImageIntendedExample | streamlit_colourplotting/core.py:61-73 | the corrected decimation takes a 100 × 50 image at width 10 to 20 × 10 |
| Core.Extension | streamlit_colourplotting/core.py:95 | `os.path.splitext(name)[-1]` is non-empty exactly when the last path component has a non-dot character somewhere before one of its dots; it then runs from the last dot to the end, with no further dot and no separator |
| Core.ExtensionFromLastDot | streamlit_colourplotting/core.py:95 | seen from the last dot: the extension is non-empty exactly when a non-dot character lies between the last separator and that dot, and it then starts at that dot |
| Core.CodecFor | streamlit_colourplotting/core.py:98 | no contract of its own: the decoder choice (OpenCV exactly for the extensions ".exr" and ".hdr") that Core.HdrSuffixUsesOpenCv, Core.OtherSuffixUsesImageIo and Core.ReadImageFromBytes are stated against |
| Core.HdrSuffixUsesOpenCv | streamlit_colourplotting/core.py:95-104 | a name ending in exactly ".exr" or ".hdr" takes the OpenCV path if and only if the last component before the suffix holds a non-dot character ("a..exr" does; ".exr" and "d/.exr" take imageio) |
| Core.OtherSuffixUsesImageIo | streamlit_colourplotting/core.py:95-107 | any other ending, including upper-case ones, takes the imageio path |
| Core.NormalizeChannels | streamlit_colourplotting/core.py:109-114 | a 2-D image becomes three equal channels; more than three channels are cut to the first three; one to three channels pass through unchanged |
| Core.BgrToRgb | streamlit_colourplotting/core.py:101-104 | three- or four-channel input becomes three channels in reverse order; other input raises |
| Core.ReadImageFromBytes | streamlit_colourplotting/core.py:87-115 | the decoder is chosen by extension; OpenCV output is reordered to RGB; the result always has at most three channels; failures are decode or conversion errors |
| Config.SourceTypeOf | streamlit_colourplotting/ui/_config.py:13-15 | `SourceType(value)` finds the member with that value, and raises ValueError exactly when no member has it |
| Config.SourceTypeLabels | streamlit_colourplotting/ui/_config.py:17-19 | the labels are the member values in declaration order, and each one looks up its member |
| Config.DiagramMethodOf | streamlit_colourplotting/ui/_config.py:33-36 | `DiagramMethod(value)` finds the member with that value, and raises ValueError exactly when no member has it |
| Config.DiagramMethodLabels | streamlit_colourplotting/ui/_config.py:38-40 | the labels look up the members in declaration order |
| Config.MarkerShapeStyleOf | streamlit_colourplotting/ui/_config.py:43-84 | a found marker has exactly the value looked up; anything else raises ValueError |
| Config.MarkerValueDecodes | streamlit_colourplotting/ui/_config.py:43-84 | each of the 37 markers, string or integer valued, is found again from its value |
| Config.MarkerShapeStyleOfComplete | streamlit_colourplotting/ui/_config.py:43-84 | the lookup fails if and only if no marker has that value |
| Config.MarkerValueInjective | streamlit_colourplotting/ui/_config.py:43-84 | distinct markers have distinct values |
| Config.MarkerShapeStyleLabels | streamlit_colourplotting/ui/_config.py:86-88 | the labels look up the markers in declaration order |
| Config.UserIssueOf | streamlit_colourplotting/ui/_config.py:22-30 | an IntFlag accepts every non-negative integer as a combination of bits, and gives back the same number |
| Config.ConfigKeysComplete | streamlit_colourplotting/ui/_config.py:95-127 | the sixteen initialised keys are exactly the configuration keys |
| Config.Initialized | streamlit_colourplotting/ui/_config.py:95-127 | no contract of its own: the session after the sixteen check-then-insert steps, the definition that Config.InitializedKeys, Config.InitializedIdempotent, Config.InitializedUnrolled and the constructor are stated against |
| Config.InitializedKeys | streamlit_colourplotting/ui/_config.py:95-127 | initialisation adds every configuration key and no other key; keys already present keep their values; absent ones get their defaults |
| Config.InitializedIdempotent | streamlit_colourplotting/ui/_config.py:328-332 | building the configuration twice leaves the same session as building it once |
| Config.InitializedUnrolled | streamlit_colourplotting/ui/_config.py:95-127 | the sixteen check-then-insert steps in source order amount to the initialisation |
| Config.DefaultsWellTyped | streamlit_colourplotting/ui/_config.py:95-127 | every default has the kind its getter expects |
| Config.InitializedWellTyped | streamlit_colourplotting/ui/_config.py:92-127 | a session whose present configuration keys hold values of their kind is well typed once initialised |
| Config.Read | streamlit_colourplotting/ui/_config.py:145-147 | a read of a present key gives its value, and a read of an absent key raises KeyError with that key's name |
| Config.UserSourceType | streamlit_colourplotting/ui/_config.py:129-131 | a decoded source type is the member whose value is stored; an absent key raises KeyError with its name; a stored value that is no member raises ValueError |
| Config.UserDiagramMethod | streamlit_colourplotting/ui/_config.py:137-139 | a decoded diagram method is the member whose value is stored; an absent key raises KeyError; any other value raises ValueError |
| Config.UserSourceColorFormat | streamlit_colourplotting/ui/_config.py:177-179 | a decoded format is the one the stored string looks up; an absent key raises KeyError; any other value raises ValueError |
| Config.UserSourceError | streamlit_colourplotting/ui/_config.py:201-203 | decoded flags are the stored integer; an absent key raises KeyError; any other value raises ValueError |
| Config.UserMarkerStyle | streamlit_colourplotting/ui/_config.py:233-235 | a decoded marker is the member whose value is stored; an absent key raises KeyError; any other value raises ValueError |
| Config.EnumSlotsRoundTrip | streamlit_colourplotting/ui/_config.py:129-239 | setting member x of source type, diagram method, colour format, error flags or marker style and then getting gives x, whatever else the session holds |
| Config.SourceColorspace | streamlit_colourplotting/ui/_config.py:283-285 | the colourspace is the linear copy if and only if forced linear is truthy |
| Config.ResolvedColor | streamlit_colourplotting/ui/_config.py:257-263 | `color` is the source colour in the source colourspace, or in its linear copy exactly when forced linear is truthy |
| Config.SourceImage | streamlit_colourplotting/ui/_config.py:265-273 | image mode raises NotImplementedError; colour mode gives a 2 × 2 image whose every pixel is the resolved colour without alpha |
| Config.SampleForPlot | streamlit_colourplotting/ui/_config.py:277-281 | the image is strided by 10 only when taller or wider than 10, and is then ceil(h/10) × ceil(w/10); otherwise it is unchanged |
| Config.SampleForPlotAt | streamlit_colourplotting/ui/_config.py:280-281 | a sampled cell is the cell ten times further along each axis |
| Config.ColorImageNotSampled | streamlit_colourplotting/ui/_config.py:266-281 | the 2 × 2 colour image is never sampled |
| Config.RendererFor | streamlit_colourplotting/ui/_config.py:289-302 | no contract of its own: the renderer each diagram method selects, the definition that Config.RendererForInjective and Config.Plot are stated against |
| Config.RendererForInjective | streamlit_colourplotting/ui/_config.py:289-302 | each diagram method has a renderer of its own |
| Config.Plot | streamlit_colourplotting/ui/_config.py:275-325 | on success, the renderer gets the sampled image, the resolved colourspace and the method's renderer; the scatter colour is "RGB" if and only if the RGB flag is truthy; the locus colours are "RGB" or None by the same rule; the marker is the value of the decoded marker style; scatter size, background, pointer gamut, its opacity and transparent background are passed as stored; image mode raises NotImplementedError; an undecodable diagram method raises its lookup error, and so does an undecodable marker once the scatter size and colour have been read |
| Config.PlotTotal | streamlit_colourplotting/ui/_config.py:275-325 | on a well-typed session in colour mode, `plot` reaches the renderer |
| Config.UserConfig.constructor | streamlit_colourplotting/ui/_config.py:92-127 | the session afterwards is the initialisation of the session before |
| Config.UserConfig.SetDefault | streamlit_colourplotting/ui/_config.py:95-96 | one key's default is written only when the key is absent |
| Config.UserConfig.SetUserSourceType | streamlit_colourplotting/ui/_config.py:133-135 | only the source-type key changes; it holds the member's value; the getter gives the member back; well-typedness is kept |
| Config.UserConfig.SetUserDiagramMethod | streamlit_colourplotting/ui/_config.py:141-143 | only its key changes; the getter gives the member back; well-typedness is kept |
| Config.UserConfig.SetUserSourceColorFormat | streamlit_colourplotting/ui/_config.py:181-183 | only its key changes; the getter gives the format back; well-typedness is kept |
| Config.UserConfig.SetUserSourceError | streamlit_colourplotting/ui/_config.py:205-207 | only its key changes; the getter gives the flags back; well-typedness is kept |
| Config.UserConfig.SetUserMarkerStyle | streamlit_colourplotting/ui/_config.py:237-239 | only its key changes; the getter gives the marker back; well-typedness is kept |
| Config.UserConfig.SetPlain | streamlit_colourplotting/ui/_config.py:145-255 | the eleven plain setters change only their own key, which reads back the value given |
| Config.NewConfig | streamlit_colourplotting/ui/_config.py:328-332 | `config()` builds a fresh object over the session and initialises it |
| Issues.ReportLinesWellFormed | streamlit_colourplotting/ui/_main.py:23-30 | each report line starts with "- " and ends with "\n" |
| Issues.ReportLinesDistinct | streamlit_colourplotting/ui/_main.py:23-30 | the three report lines differ |
| Issues.IssueLines | streamlit_colourplotting/ui/_main.py:23-30 | each line is reported if and only if its bit is set |
| Issues.IssueLinesOrdered | streamlit_colourplotting/ui/_main.py:22-30 | the lines come in the order value error, hexadecimal colourspace, hexadecimal linear, each at most once |
| Issues.IssueMessage | streamlit_colourplotting/ui/_main.py:18-30 | no contract of its own: the message built by the three conditional appends, the definition that Issues.IssueMessageLines and Issues.CreateIssueWarning are stated against |
| Issues.IssueMessageLines | streamlit_colourplotting/ui/_main.py:18-30 | the message is the reported lines joined, and is empty exactly when none of the three bits is set |
| Issues.CreateIssueWarning | streamlit_colourplotting/ui/_main.py:13-35 | exactly `unset` gives no warning and no change; any other value gives the built message and resets the flags to `unset` |
| Issues.WarnTwice | streamlit_colourplotting/ui/_main.py:20-35 | an immediate second call shows nothing |
| Issues.NoReportedBits | streamlit_colourplotting/ui/_main.py:20-35 | flags with none of the three bits, such as 0, give an empty message |
| Options.OptionSlot.Set | streamlit_colourplotting/ui/_main.py:35 | `.set(v)` stores v, and `.get()` then returns it |
| ColorPicker.ReadyInitialized | streamlit_colourplotting/ui/_colorpicker.py:26-31 | once `config()` has run, the colour and format slots can be read |
| ColorPicker.SourceStep | streamlit_colourplotting/ui/_colorpicker.py:24-48 | no contract of its own: the source callback's effect on an initialised session, the definition that ColorPicker.WidgetColorSource and the SourceStep lemmas are stated against |
| ColorPicker.WidgetColorSource | streamlit_colourplotting/ui/_colorpicker.py:24-48 | the session afterwards is the source step on the session before |
| ColorPicker.SourceStepKeepsReady | streamlit_colourplotting/ui/_colorpicker.py:24-48 | the step keeps the slots readable, keeps the format, and keeps every configuration key present |
| ColorPicker.SourceStepErrorSlot | streamlit_colourplotting/ui/_colorpicker.py:26-43 | afterwards the error is empty, unless rejected text was reverted, in which case it holds the revert message |
| ColorPicker.SourceStepRegenerates | streamlit_colourplotting/ui/_colorpicker.py:28-33 | with no text yet, or when forced, the text becomes the stored colour in the stored format, and the colour is unchanged |
| ColorPicker.SourceStepReverts | streamlit_colourplotting/ui/_colorpicker.py:37-43 | rejected text is deleted, the error holds the message, and the colour is unchanged |
| ColorPicker.SourceStepCommits | streamlit_colourplotting/ui/_colorpicker.py:45-48 | accepted text is replaced by its fixed form, the colour becomes that form's colour, and the error is empty |
| ColorPicker.SourceStepFrame | streamlit_colourplotting/ui/_colorpicker.py:24-48 | no key other than the text, the colour and the error changes |
| ColorPicker.RejectedThenPrevious | streamlit_colourplotting/ui/_colorpicker.py:28-43 | after rejected text, the next call shows the previous colour again and clears the error |
| ColorPicker.ColorSourceStepConfigured | streamlit_colourplotting/ui/_colorpicker.py:24-48 | after one call every configuration key is present, so later calls are the plain step |
| ColorPicker.FormatStep | streamlit_colourplotting/ui/_colorpicker.py:16-21 | no contract of its own: the format callback's effect once the format is decoded, the definition that ColorPicker.ColorFormatStep and ColorPicker.FormatStepRewritesText are stated against |
| ColorPicker.ColorFormatStep | streamlit_colourplotting/ui/_colorpicker.py:16-21 | an absent format widget raises KeyError, and a value that is no format raises ValueError |
| ColorPicker.WidgetColorFormat | streamlit_colourplotting/ui/_colorpicker.py:16-21 | the session afterwards is the format step, or is unchanged when the lookup raises |
| ColorPicker.FormatStepRewritesText | streamlit_colourplotting/ui/_colorpicker.py:16-21 | afterwards the stored format is the chosen one, the text is the unchanged colour written in it, and the error is empty |
| Sidebar.ParseDigits | streamlit_colourplotting/ui/_sidebar.py:78 | digits parse if and only if every character is a hexadecimal digit |
| Sidebar.ParseHex | streamlit_colourplotting/ui/_sidebar.py:78 | `int(s, 16)` raises ValueError on the empty string or a non-digit, and succeeds otherwise |
| Sidebar.HexDigits | streamlit_colourplotting/ui/_sidebar.py:103 | the lowercase numeral of n parses back to n; it has one digit exactly below 16, and two up to 255 |
| Sidebar.Hex02 | streamlit_colourplotting/ui/_sidebar.py:103 | `f"{n:02x}"` is lowercase, at least two digits, exactly two below 256, and parses back to n |
| Sidebar.Hex02OfParsed | streamlit_colourplotting/ui/_sidebar.py:78-103 | two lowercase digits are written back unchanged from their value |
| Sidebar.RoundHalfEven | streamlit_colourplotting/ui/_sidebar.py:103 | `round` gives the nearest integer, and the even one on a tie |
| Sidebar.RoundOfInteger | streamlit_colourplotting/ui/_sidebar.py:103 | rounding an integer gives it back |
| Sidebar.AlphaDigits | streamlit_colourplotting/ui/_sidebar.py:78 | `s[7:]` is what follows the first seven characters, or empty |
| Sidebar.InitialAlpha | streamlit_colourplotting/ui/_sidebar.py:78 | the initial alpha is the parsed byte divided by 255, and raises ValueError when the digits do not parse |
| Sidebar.AlphaByte | streamlit_colourplotting/ui/_sidebar.py:103 | an alpha in [0, 1] gives a byte of at most 255 within one half of alpha·255 |
| Sidebar.StyleEditRow | streamlit_colourplotting/ui/_sidebar.py:62-104 | the result is the picked colour followed by exactly two lowercase hex digits of round(alpha·255); they are "00" when alpha is hidden; unparseable initial digits raise ValueError |
| Sidebar.StyleEditRowUntouchedAlpha | streamlit_colourplotting/ui/_sidebar.py:77-103 | an alpha input left at its initial value writes back the initial byte |
| Sidebar.StyleEditRowUntouched | streamlit_colourplotting/ui/_sidebar.py:77-104 | a `#RRGGBBaa` value with lowercase alpha digits comes back unchanged when both widgets are untouched |
| Sidebar.ColorspaceRow | streamlit_colourplotting/ui/_sidebar.py:12-59 | row 1 always gives the source-colourspace token with the picked colour; other rows give the selected name and picked colour when checked, and (None, "#000000") when not |
| Sidebar.FigureColorspaces | streamlit_colourplotting/ui/_sidebar.py:271-284 | the stored list has five entries; the token entry is first; each later entry is named exactly when its box is checked |
| Sidebar.FirstRowIgnoresChoice | streamlit_colourplotting/ui/_sidebar.py:54-55 | row 1 always stores the source token: changing its checkbox or its colourspace choice leaves the whole stored list unchanged |
| Sidebar.StoreFigureColorspaces | streamlit_colourplotting/ui/_sidebar.py:271-284 | the slot afterwards holds the five-entry list, with the token entry first |
| Sidebar.Reciprocal | streamlit_colourplotting/ui/_sidebar.py:364 | `1 / x` raises ZeroDivisionError exactly on 0, and otherwise times x gives 1 |
| Sidebar.StoreAxesScale | streamlit_colourplotting/ui/_sidebar.py:357-364 | the stored scale times the widget value is 1; a zero widget value raises and stores nothing |
| Sidebar.AxesScaleUntouched | streamlit_colourplotting/ui/_sidebar.py:357-364 | the widget starts at the reciprocal of the default, so leaving it untouched stores the default back |
| Sidebar.ZeroScaleRaises | streamlit_colourplotting/ui/_sidebar.py:357-364 | 0.0 is inside the widget's range, yet it cannot be stored |

## Left out

- The actual decoding, the bit-depth conversion to float32, the buffer seek and read, and logging in `read_image_from_bytes`. These are foreign codecs and I/O. The two decoders are parameters of `Core.ReadImageFromBytes`, and the result is the array before conversion.
- Core.RescaleImageFast: `int(source_height / (source_width / target_width))` is computed in exact arithmetic, not in floats. It differs from the float result when rounding error crosses an integer. It also differs when `target_width` is so large that the float quotient `source_width / target_width` underflows to 0, or the height divided by it overflows to infinity: Python then raises ZeroDivisionError or OverflowError at lines 78-79, while the model returns the image.
- Core.Extension: models `os.path.splitext` for POSIX paths only.
- Rendering and colour conversion: the colour-science renderers, matplotlib, SVG export, and cocoon's colourspace and colour-string functions. They are opaque functions in `Cocoon.Library`. `Config.Plot` stops at the arguments handed to the renderer.
- Floats are modelled as `real`.
- Python's numeric equality in enum lookups is not modelled. `True == 1` and `1.0 == 1` would let a boolean or a float find an integer-valued marker.
- Config.UserIssueOf: accepts only non-negative integers. Python's IntFlag also accepts negative ones.
- Sidebar.ParseHex: digits only. Python's `int(s, 16)` also accepts surrounding whitespace, a sign, a `0x` prefix and underscores.
- Sidebar.StyleEditRow: requires the alpha input to lie in [0, 1] when it is shown, as the widget's own bounds guarantee.
- Widget layout is not modelled: columns, expanders, labels, and the other sidebar widgets and their `.set` calls. The same holds for `create_color_alpha_row`, the style dictionary, the centimetre-to-inch conversion, `create_body_source` and `create_main_ui`. Widget results enter as parameters.
- Cross-revision conflicts are not reconciled:
  - `_colorpicker.py` writes a string into the error key, which the `_config.py` setter would refuse. `ColorPicker` writes the string directly.
  - `_main.py` and `_sidebar.py` use option objects (`.get()`, `.set()`, `.default`). These are `Options.OptionSlot`. The configuration object of that revision is not part of this model.
- ColorPicker.WidgetColorSource: requires the colour slot, where present, to hold a colour, the format slot a format value, and the text widget a string. Python would raise on other values; the model does not cover those paths.
- The `widgetify` decorator is not modelled; widget keys are parameters. A widget whose key is spelled like a configuration key is not modelled either, since `Key` keeps the two apart.
- `ui/_imagepicker.py`, `ui/_colorspacepicker.py` and `src/app.py` are not part of this model. They hold file-upload UI, environment reads and one-line forwarding callbacks.

## Findings

| source | as written | input that shows it | evidently intended | confidence | as-written member | corrected member |
|---|---|---|---|---|---|---|
| streamlit_colourplotting/core.py:74-84 | `max(target_width, source_width)` makes the effective target at least the source width. Both ratios are then 1 or 0, so the image always comes back at full size. Line 83 also applies the width ratio to the rows axis. | an image of 100 rows and 50 columns with `target_width` 10 comes back 50 wide | the docstring asks for the given width with the aspect ratio kept: one stride of max(1, width // target) on rows and columns | not executed | Core.RescaleImageFastNeverShrinks | Core.RescaleImageIntended |
