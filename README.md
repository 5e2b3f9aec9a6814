# Ubuntu UI Toolkit core, modelled in Dafny

The Ubuntu UI Toolkit is the QML component set of Ubuntu's touch and
desktop shells. This project models the small, self-contained pieces of
logic inside its C++ components, inside one of its JavaScript helper
libraries and inside the autopilot proxy objects that its functional tests
use to drive an application. It proves what those pieces promise.

Each core source file becomes one Dafny module:

- **UbuntuShape** (`ubuntushape.dfy`): the property setters of the
  rounded-corner shape with their deprecation latches, the premultiplied
  ABGR colour packing and interpolation (as `bv32` arithmetic), and the
  shape-index and background-colour choices of `updatePaintNode`.
- **ApiCheck** (`apicheck.dfy`): the API dumper's table of already
  reported properties and methods, keyed by name (and argument count), with
  the revision seen; type-name and export-string rewriting; and which
  properties, methods and implicit change signals a dump mentions.
- **ListItem** (`listitem.dfy`): the divider's margins, and the press,
  tug, snap and rebound state machine of a list item whose content is
  dragged sideways to reveal its leading or trailing actions.
- **ListItemOptions** (`listitemoptions.dfy`): an action list with a
  failure latch, and the one action panel that at most one list item owns
  at a time, with a one-place queue for the next owner.
- **MouseFilters** (`mousefilters.dfy`): the `Mouse` and `InverseMouse`
  attached filters: pressed buttons, long press, double click and hover,
  and the clicked / pressAndHold signals built on them.
- **BottomEdge** and **BottomEdgeHint** (`bottomedge.dfy`,
  `bottomedgehint.dfy`): the bottom edge panel's ranges, commit point and
  reveal/commit/collapse states; the hint's status machine, its
  deactivation timer and its click gating.
- **SplitView** (`splitview.dfy`): layouts of column configurations, the
  choice of the active layout, which children are visible, column resizing
  and the distribution of the remaining width between fill-width columns.
- **AbstractButton** (`abstractbutton.dfy`): key and mouse click gating and
  the growth of the sensing area to at least 4 x 4 grid units.
- **Units** and **LegacyUnits** (`units.dfy`, `legacyunits.dfy`): the
  newer and the older grid unit classes: grid-unit and dp conversion, the
  grid unit setter and the choice of an image resource designed for the
  nearest grid unit. Both are modelled as their code is written; in
  particular the older `setGridUnit` announces every value, even an equal
  one, while the newer one ignores an equal value.
- **IconTheme** (`iconprovider.dfy`): icon lookup in an icon theme, after
  the DirectorySizeDistance routine of the "Icon Lookup" section of the
  freedesktop.org Icon Theme Specification, then in inherited themes; the
  theme cache; the comma-separated icon names of a request.
- **MenuBar** (`menubar.dfy`): the ordered menu list and the platform menu
  wrappers that mirror it.
- **ListViewExtensions** (`listviewext.dfy`): the focus and key-navigation
  helper a ListItem attaches to its ListView.
- **Label** (`label.dfy`): the adaptive size and the deprecated `fontSize`
  string, decoded from its first four characters.
- **ActionsProxy** (`actionsproxy.dfy`): the registry of local action
  contexts that keeps at most one of them current.
- **MathUtils** (`mathutils.dfy`): `clamp`, `lerp`, `projectValue` and
  `clampAndProject` of `mathUtils.js`.
- **Emulators**, **Pickers**, **TextField**, **Header** (`emulators.dfy`,
  `pickers.dfy`, `textfield.dfy`, `header.dfy`): the autopilot helpers for
  the toolbar, tabs, check boxes and removable list items; the date picker
  and path view; the text field; the application header. The application
  under test is an abstract state (opened, checked, selected index, text,
  the buttons that exist and are visible), and what a helper does to it is
  an appended list of gestures (drags, clicks, key presses, typing), so
  that "no drag" or "exactly one click" can be stated.

`common.dfy` (Option and Result, string prefixes, decimal formatting, the
Qt rounding helpers) and `gestures.dfy` (rectangles, gestures and how a
helper call ends) are shared vocabulary.

Mutable C++ objects and Python proxy objects are classes whose fields are
the object's fields. Most of the larger C++ classes are specified by a
function on a state value (`AfterX(old(State()))`) and the properties
are proved about those functions. Qt signals become an appended event
list, Qt `qreal` values become `real`, `qRound` is `floor(d + 0.5)` and
`qFuzzyCompare` is Qt's relative tolerance, `|p1 - p2| * 100000 <= min(|p1|, |p2|)`
(`Units.FuzzyEqual`).

## Model

| member | source | states |
|---|---|---|
| Units.GridUnitsRounded | src/UbuntuToolkit/ucunits.cpp:168-171 | gu(value) is a whole number of device pixels, within half a device pixel of value times the grid unit |
| Units.GridUnitsMonotone | src/UbuntuToolkit/ucunits.cpp:168-171 | for a non-negative grid unit a larger value never gives fewer pixels |
| Units.DensityPixelsSmallWhole | src/UbuntuToolkit/ucunits.cpp:150-159 | up to 2 dp the result depends only on the whole part of gridUnit / 8 |
| Units.DensityPixelsSmallMultiple | src/UbuntuToolkit/ucunits.cpp:150-159 | a whole number n <= 2 of dp is n times the whole ratio, in device pixels |
| Units.DensityPixelsLarge | src/UbuntuToolkit/ucunits.cpp:150-159 | above 2 dp the exact ratio gridUnit / 8 applies, to within half a device pixel |
| Units.DensityPixelsMonotone | src/UbuntuToolkit/ucunits.cpp:150-159 | dp never gives fewer pixels for a larger value, across the 2 dp threshold too |
| Units.SuffixWithoutAt | src/UbuntuToolkit/ucunits.cpp:250-259 | a file name without '@' has grid unit suffix 0 |
| Units.SuffixRoundTrip | src/UbuntuToolkit/ucunits.cpp:245-259 | the suffix read back from base + suffixForGridUnit(n) + extension is n, whatever the base, for an extension without '@' that does not start with a digit |
| Units.SelectSuffix | src/UbuntuToolkit/ucunits.cpp:226-235 | the selection loop ends on the best suffix: the smallest one at or above the grid unit, or the largest one when all are below |
| Units.BestSuffixUnique | src/UbuntuToolkit/ucunits.cpp:226-235 | at most one suffix is best |
| Units.BestSuffixPermutation | src/UbuntuToolkit/ucunits.cpp:224-235 | the best suffix does not depend on the order the directory lists the files in |
| Units.FourteenForTen | src/UbuntuToolkit/ucunits.cpp:217-220 | grid unit 10 with @9, @14 and @18 picks @14 |
| Units.LargestWhenAllSmaller | src/UbuntuToolkit/ucunits.cpp:213-215 | grid unit 20 with only @14 and @9 picks @14 |
| Units.ScaleFactor | src/UbuntuToolkit/ucunits.cpp:238 | the scale factor times the selected suffix is the grid unit; a zero suffix has none |
| Units.UCUnits.constructor | src/UbuntuToolkit/ucunits.cpp:102-118 | GRID_UNIT_PX sets the grid unit (8 when it does not parse); unset, the grid unit is 8 times the device pixel ratio |
| Units.UCUnits.SetGridUnit | src/UbuntuToolkit/ucunits.cpp:135-142 | a value fuzzily equal to the current one changes nothing and emits nothing; any other is stored and announced once |
| Units.UCUnits.WindowPropertyChanged | src/UbuntuToolkit/ucunits.cpp:261-301 | only a positive "scale" property that applies sets the grid unit, to qCeil(scale * 8) times the ratio, through setGridUnit |
| Units.UCUnits.ResolveResource | src/UbuntuToolkit/ucunits.cpp:173-243 | empty path: nothing; an existing path: itself if a file, else nothing; the exact grid unit file at scale 1; otherwise the best listed suffix with scale gridUnit / suffix, or nothing for no listed file |
| LegacyUnits.GridUnitsNearest | modules/Ubuntu/Components/plugin/ucunits.cpp:121-124 | gu rounds value * gridUnit to the nearest whole pixel, exactly when it is whole |
| LegacyUnits.DensityPixelsAtDefault | modules/Ubuntu/Components/plugin/ucunits.cpp:111-114 | at the default grid unit n dp are n pixels |
| LegacyUnits.DensityPixelsIsEighthGridUnit | modules/Ubuntu/Components/plugin/ucunits.cpp:111-124 | dp(value) is gu(value / 8) |
| LegacyUnits.Trim | modules/Ubuntu/Components/plugin/ucunits.cpp:81 | trimmed() leaves no space at either end and keeps any text that is not all space |
| LegacyUnits.TrimPadded | modules/Ubuntu/Components/plugin/ucunits.cpp:81 | trimming white space around a text gives back the text |
| LegacyUnits.ParseIntToString | modules/Ubuntu/Components/plugin/ucunits.cpp:81 | toInt reads back any 32-bit integer printed in decimal |
| LegacyUnits.ParseIntRejects | modules/Ubuntu/Components/plugin/ucunits.cpp:81 | an empty line or one starting with neither a sign nor a digit is not valid |
| LegacyUnits.ResourcesUnitLinePadded | modules/Ubuntu/Components/plugin/ucunits.cpp:79-85 | a first line holding a 32-bit integer padded with white space gives that integer |
| LegacyUnits.SixteenLine | modules/Ubuntu/Components/plugin/ucunits.cpp:79-85 | the line " 16\n" gives 16 |
| LegacyUnits.ScaleFactor | modules/Ubuntu/Components/plugin/ucunits.cpp:147 | the scale factor times the resources unit is the grid unit; a zero unit has none |
| LegacyUnits.UCUnits.constructor | modules/Ubuntu/Components/plugin/ucunits.cpp:64-69 | the grid unit comes from GRID_UNIT_PX, or 8; the resources unit is 8 |
| LegacyUnits.UCUnits.SetGridUnit | modules/Ubuntu/Components/plugin/ucunits.cpp:100-104 | stores the value and always announces it, equal or not |
| LegacyUnits.UCUnits.LoadResourcesUnitFile | modules/Ubuntu/Components/plugin/ucunits.cpp:73-88 | valid exactly when the first line parses; only a valid line changes the resources unit |
| LegacyUnits.UCUnits.ResolveResource | modules/Ubuntu/Components/plugin/ucunits.cpp:126-159 | nothing for an empty path or an existing non-file; the grid unit file at scale 1; else the plain file at gridUnit / resourcesUnit; else nothing |
| LegacyUnits.UnitFileRescales | modules/Ubuntu/Components/plugin/ucunits.cpp:73-155 | after a unit file saying 16, assets at grid unit 16 scale by 1 instead of 2 |
| AbstractButton.AdjustedSpanReach | src/Ubuntu/Components/plugin/ucabstractbutton.cpp:227-248 | a sensing area below the minimum grows to exactly the minimum, split evenly between the two sides; above it the sensing margins apply as they are, or without them the anchors stay |
| AbstractButton.AdjustedSpanIsMax | src/Ubuntu/Components/plugin/ucabstractbutton.cpp:227-248 | with sensing margins the sensing area is the larger of the minimum and the size plus the margins |
| AbstractButton.AdjustedSpanIdempotent | src/Ubuntu/Components/plugin/ucabstractbutton.cpp:217-248 | adjusting twice gives what adjusting once gives |
| AbstractButton.AdjustedAnchors | src/Ubuntu/Components/plugin/ucabstractbutton.cpp:225-248 | the horizontal and the vertical adjustments are independent, each against its own minimum |
| AbstractButton.SmallIconGrows | src/Ubuntu/Components/plugin/ucabstractbutton.cpp:233-236 | a 16x16 button without margins and a 32x32 minimum gets -8 on every side |
| AbstractButton.ExtendedExample | src/Ubuntu/Components/plugin/ucabstractbutton.cpp:331-345 | a 2 GU button with sensing margins of 1 and 2 GU reaches 5 GU wide and the 4 GU minimum high |
| AbstractButton.UCAbstractButton.constructor | src/Ubuntu/Components/plugin/ucabstractbutton.cpp:29-35 | a new button accepts events, has no sensing margins and is not complete |
| AbstractButton.UCAbstractButton.KeyRelease | src/Ubuntu/Components/plugin/ucabstractbutton.cpp:202-215 | Enter, Return and Space run the trigger and emit clicked; other keys do nothing |
| AbstractButton.UCAbstractButton.MouseAreaClicked | src/Ubuntu/Components/plugin/ucabstractbutton.cpp:179-189 | when events are accepted, haptics play, then the trigger and clicked; otherwise nothing |
| AbstractButton.UCAbstractButton.MouseAreaPressAndHold | src/Ubuntu/Components/plugin/ucabstractbutton.cpp:192-199 | pressAndHold is emitted only when events are accepted |
| AbstractButton.UCAbstractButton.MouseAreaPressed | src/Ubuntu/Components/plugin/ucabstractbutton.cpp:159-176 | on press the press-and-hold connection follows whether a handler is connected; a release leaves it |
| AbstractButton.UCAbstractButton.SetAcceptEvents | src/Ubuntu/Components/plugin/ucabstractbutton.cpp:284-288 | stores the flag |
| AbstractButton.UCAbstractButton.AdjustSensingArea | src/Ubuntu/Components/plugin/ucabstractbutton.cpp:217-248 | nothing before completion; afterwards the mouse area anchors are the adjusted anchors for the current size and margins |
| AbstractButton.UCAbstractButton.ComponentComplete | src/Ubuntu/Components/plugin/ucabstractbutton.cpp:142-155 | completion marks the button complete and adjusts the sensing area |
| AbstractButton.UCAbstractButton.GeometryChanged | src/Ubuntu/Components/plugin/ucabstractbutton.cpp:250-256 | the new size is stored and, once complete, the sensing area is adjusted to it |
| AbstractButton.UCAbstractButton.SetSensingMargins | src/Ubuntu/Components/plugin/ucabstractbutton.cpp:331-345 | the margins are stored and, once complete, the sensing area is adjusted to them |
| AbstractButton.DisabledButtonKeyStillClicks | src/Ubuntu/Components/plugin/ucabstractbutton.cpp:179-215 | with events not accepted, a mouse click emits nothing but the activation key still clicks |
| BottomEdgeHint.UCBottomEdgeHint.constructor | src/Ubuntu/Components/plugin/ucbottomedgehint.cpp:52-88 | a hint starts Locked with a mouse attached and Inactive otherwise, with the default timeout and no flickable |
| BottomEdgeHint.UCBottomEdgeHint.SetStatus | src/Ubuntu/Components/plugin/ucbottomedgehint.cpp:313-326 | the same status, or anything but Locked while a mouse is attached, changes nothing; otherwise the status is stored and announced, and the timer survives only into Active |
| BottomEdgeHint.UCBottomEdgeHint.GetStatus | src/Ubuntu/Components/plugin/ucbottomedgehint.cpp:304-311 | with a mouse attached the status read is Locked |
| BottomEdgeHint.UCBottomEdgeHint.StartTimer | src/Ubuntu/Components/plugin/ucbottomedgehint.cpp:155 | the deactivation timer runs with the current timeout |
| BottomEdgeHint.UCBottomEdgeHint.DeactivationTimeout | src/Ubuntu/Components/plugin/ucbottomedgehint.cpp:102-109 | the timer stops and the hint goes Inactive unless a mouse is attached |
| BottomEdgeHint.UCBottomEdgeHint.KeyPress | src/Ubuntu/Components/plugin/ucbottomedgehint.cpp:112-118 | Enter or Return clicks exactly when the status is Active or Locked |
| BottomEdgeHint.UCBottomEdgeHint.MousePress | src/Ubuntu/Components/plugin/ucbottomedgehint.cpp:128-135 | a press inside a clickable hint is taken |
| BottomEdgeHint.UCBottomEdgeHint.MouseRelease | src/Ubuntu/Components/plugin/ucbottomedgehint.cpp:136-142 | the release of a taken press on a clickable hint clicks |
| BottomEdgeHint.UCBottomEdgeHint.BottomUpSwipeDetected | src/Ubuntu/Components/plugin/ucbottomedgehint.cpp:145-149 | the timer stops and the hint becomes Active (Locked with a mouse) |
| BottomEdgeHint.UCBottomEdgeHint.GestureStatusChanged | src/Ubuntu/Components/plugin/ucbottomedgehint.cpp:151-158 | a completed gesture on an Active hint starts the timer; anything else leaves it |
| BottomEdgeHint.UCBottomEdgeHint.MouseAttachedChanged | src/Ubuntu/Components/plugin/ucbottomedgehint.cpp:79-84 | attaching a mouse locks the hint and stops the timer; detaching makes it Active and starts the timer; statusChanged is announced exactly when the status changes |
| BottomEdgeHint.UCBottomEdgeHint.FlickableActivation | src/Ubuntu/Components/plugin/ucbottomedgehint.cpp:217-227 | below Locked, not detecting and without a running timer, a moving flickable hides the hint and a stopped one shows a Hidden hint Inactive, each announced when the status changes; otherwise nothing changes; the timer is left as it was |
| BottomEdgeHint.UCBottomEdgeHint.SetFlickable | src/Ubuntu/Components/plugin/ucbottomedgehint.cpp:193-214 | the flickable is stored and a change announced |
| BottomEdgeHint.UCBottomEdgeHint.SetState | src/Ubuntu/Components/plugin/ucbottomedgehint.cpp:252-267 | the state is stored; with a style, "Hidden" and "Visible" set Hidden and Inactive, with the timer stopped and statusChanged announced when the status changes; other states, or no style, leave status, timer and events; a mouse keeps it Locked and silent |
| BottomEdgeHint.UCBottomEdgeHint.SetDeactivateTimeout | src/Ubuntu/Components/plugin/ucbottomedgehint.cpp:336-347 | a negative or unchanged timeout is ignored; a new one is stored, announced and restarts a running timer with it |
| BottomEdgeHint.SwipeThenTimeout | src/Ubuntu/Components/plugin/ucbottomedgehint.cpp:102-158 | a swipe makes the hint clickable, the completed gesture and its timeout make it Inactive, after which Enter no longer clicks |
| BottomEdgeHint.MouseKeepsLocked | src/Ubuntu/Components/plugin/ucbottomedgehint.cpp:304-326 | with a mouse attached nothing leaves Locked and Return still clicks |
| Label.Latin1 | src/Ubuntu/Components/plugin/uclabel.cpp:128 | the Latin-1 byte of a character below 256 is its own code, and every byte is below 256 |
| Label.Keyword | src/Ubuntu/Components/plugin/uclabel.cpp:129-134 | each size's keyword is the four characters its case label spells |
| Label.DecodeFontSize | src/Ubuntu/Components/plugin/uclabel.cpp:123-136 | a string shorter than four characters decodes to nothing; otherwise it decodes to a size exactly when its first four characters are that size's keyword |
| Label.PackInjective | src/Ubuntu/Components/plugin/uclabel.cpp:128 | two four-byte words are equal exactly when their bytes are |
| Label.WordOfKeyword | src/Ubuntu/Components/plugin/uclabel.cpp:128-134 | the word read from a size's keyword selects that size |
| Label.WordMatchesKeyword | src/Ubuntu/Components/plugin/uclabel.cpp:128 | a string's first word equals a keyword's word exactly when the string starts with that keyword |
| Label.DecodeByKeyword | src/Ubuntu/Components/plugin/uclabel.cpp:128-135 | the switch selects a size exactly when the string starts with its keyword |
| Label.KeywordWords | src/Ubuntu/Components/plugin/uclabel.cpp:129-134 | the case labels are pairwise distinct: a word selects a size only if it is that size's keyword word |
| Label.DocumentedFontSizes | src/Ubuntu/Components/plugin/uclabel.cpp:108-136 | each documented font size string decodes to its size, and an unknown one to nothing |
| Label.UCLabel.constructor | src/Ubuntu/Components/plugin/uclabel.cpp:59-65 | a label starts Medium with no adaptive size set, after one pixel size update |
| Label.UCLabel.SetAdaptiveSize | src/Ubuntu/Components/plugin/uclabel.cpp:85-97 | the size is stored and marked set; the first call announces fontSize, and a change updates the pixel size and announces it |
| Label.UCLabel.SetFontSize | src/Ubuntu/Components/plugin/uclabel.cpp:118-143 | ignored once the adaptive size was set or when the string decodes to nothing; otherwise the decoded size is stored, and a change updates the pixel size and announces fontSize |
| Label.AdaptiveSizeWins | src/Ubuntu/Components/plugin/uclabel.cpp:85-143 | after adaptiveSize is set, no fontSize string changes the size |
| UbuntuShape.PackColor | modules/Ubuntu/Components/plugin/ucubuntushape.cpp:964-970 | the alpha byte lands in the top byte of the packed word |
| UbuntuShape.PremultiplyOpaque | modules/Ubuntu/Components/plugin/ucubuntushape.cpp:966-968 | premultiplying a byte by full alpha gives the byte back |
| UbuntuShape.PremultiplyClear | modules/Ubuntu/Components/plugin/ucubuntushape.cpp:966-968 | premultiplying by zero alpha gives zero |
| UbuntuShape.PackOpaque | modules/Ubuntu/Components/plugin/ucubuntushape.cpp:964-970 | with full alpha the packed colour holds the input bytes unchanged, in ABGR order |
| UbuntuShape.ByteLayout | modules/Ubuntu/Components/plugin/ucubuntushape.cpp:969 | masking bytes already below 256 changes nothing in the packed word |
| UbuntuShape.PackClear | modules/Ubuntu/Components/plugin/ucubuntushape.cpp:964-970 | with zero alpha the packed colour is zero whatever the channels |
| UbuntuShape.LerpChannelStart | modules/Ubuntu/Components/plugin/ucubuntushape.cpp:975-978 | a channel interpolated at t = 0 is the start channel |
| UbuntuShape.LerpChannelSame | modules/Ubuntu/Components/plugin/ucubuntushape.cpp:975-978 | a channel interpolated between equal values is that value for every t |
| UbuntuShape.LerpColorStart | modules/Ubuntu/Components/plugin/ucubuntushape.cpp:973-980 | lerpColor at t = 0 is the packed start colour |
| UbuntuShape.LerpColorSame | modules/Ubuntu/Components/plugin/ucubuntushape.cpp:973-980 | lerpColor between a colour and itself is that colour packed, for every t |
| UbuntuShape.HAlignmentOf | modules/Ubuntu/Components/plugin/ucubuntushape.cpp:823-831 | Left exactly for Qt::AlignLeft, Right exactly for Qt::AlignRight, centred otherwise |
| UbuntuShape.VAlignmentOf | modules/Ubuntu/Components/plugin/ucubuntushape.cpp:834-842 | Top exactly for Qt::AlignTop, Bottom exactly for Qt::AlignBottom, centred otherwise |
| UbuntuShape.RadiusOf | modules/Ubuntu/Components/plugin/ucubuntushape.cpp:281 | the radius is medium exactly for the string "medium" |
| UbuntuShape.BorderOf | modules/Ubuntu/Components/plugin/ucubuntushape.cpp:296-311 | idle exactly for a name ending in radius_idle.sci, pressed exactly for one ending only in radius_pressed.sci, raw otherwise |
| UbuntuShape.ShapeIndex | modules/Ubuntu/Components/plugin/ucubuntushape.cpp:1080-1084 | the index is below 6, at least 3 exactly for the small radius, and its remainder by 3 names the border |
| UbuntuShape.ShapeIndexInjective | modules/Ubuntu/Components/plugin/ucubuntushape.cpp:1080-1084 | no two border and radius choices share a coordinate set |
| UbuntuShape.BackgroundColors | modules/Ubuntu/Components/plugin/ucubuntushape.cpp:1102-1119 | the new API paints the background colour, and the secondary one only for a gradient; the deprecated API paints transparent over a source texture and both colours otherwise |
| UbuntuShape.SolidBackgroundUniform | modules/Ubuntu/Components/plugin/ucubuntushape.cpp:1102-1126 | a solid background gives the same packed colour at all four vertex stops |
| UbuntuShape.UCUbuntuShape.constructor | modules/Ubuntu/Components/plugin/ucubuntushape.cpp:243-272 | a shape starts small, idle, stretched, centred, transparent and solid, with no source |
| UbuntuShape.UCUbuntuShape.SetRadius | modules/Ubuntu/Components/plugin/ucubuntushape.cpp:279-287 | the radius becomes RadiusOf the string, and a change repaints and is announced |
| UbuntuShape.UCUbuntuShape.SetBorderSource | modules/Ubuntu/Components/plugin/ucubuntushape.cpp:296-311 | the border becomes BorderOf the string, and a change repaints and is announced |
| UbuntuShape.UCUbuntuShape.DropImageSupport | modules/Ubuntu/Components/plugin/ucubuntushape.cpp:314-325 | the source API is latched; only the first call drops a deprecated image, announcing it when there was one |
| UbuntuShape.UCUbuntuShape.SetSource | modules/Ubuntu/Components/plugin/ucubuntushape.cpp:373-391 | the source is stored and the source API latched; the first use drops the image support with its events, and a source different from the previous one set through this API repaints, is announced and dirties the source transform |
| UbuntuShape.UCUbuntuShape.DropColorSupport | modules/Ubuntu/Components/plugin/ucubuntushape.cpp:598-611 | the background API is latched; only the first call clears both colours, announcing each one that was not already zero |
| UbuntuShape.UCUbuntuShape.SetBackgroundColor | modules/Ubuntu/Components/plugin/ucubuntushape.cpp:620-632 | the colour is stored under the background API; the first use zeroes both colours with their announcements, and a colour different from the one left after that repaints and is announced; the secondary colour is what the drop leaves |
| UbuntuShape.UCUbuntuShape.SetSecondaryBackgroundColor | modules/Ubuntu/Components/plugin/ucubuntushape.cpp:642-654 | the secondary colour is stored under the background API; the first use zeroes both colours with their announcements, and a colour different from the one left after that repaints and is announced; the background colour is what the drop leaves |
| UbuntuShape.UCUbuntuShape.SetBackgroundMode | modules/Ubuntu/Components/plugin/ucubuntushape.cpp:670-679 | the mode is stored under the background API; the first use zeroes both colours with their announcements, and a changed mode repaints and is announced |
| UbuntuShape.UCUbuntuShape.SetColor | modules/Ubuntu/Components/plugin/ucubuntushape.cpp:690-705 | ignored under the background API or when unchanged; otherwise stored, also as the secondary colour until a gradient colour was set |
| UbuntuShape.UCUbuntuShape.SetGradientColor | modules/Ubuntu/Components/plugin/ucubuntushape.cpp:716-729 | ignored under the background API; otherwise the gradient flag is latched and the secondary colour stored |
| UbuntuShape.UCUbuntuShape.SetStretched | modules/Ubuntu/Components/plugin/ucubuntushape.cpp:767-781 | ignored under the source API or when unchanged; otherwise the flag flips and the source transform is dirtied |
| UbuntuShape.UCUbuntuShape.SetHorizontalAlignment | modules/Ubuntu/Components/plugin/ucubuntushape.cpp:784-794 | ignored under the source API or when unchanged; otherwise stored and the source transform dirtied |
| UbuntuShape.UCUbuntuShape.SetVerticalAlignment | modules/Ubuntu/Components/plugin/ucubuntushape.cpp:797-807 | ignored under the source API or when unchanged; otherwise stored and the source transform dirtied |
| UbuntuShape.UCUbuntuShape.UpdateFromImageProperties | modules/Ubuntu/Components/plugin/ucubuntushape.cpp:810-843 | outside the source API the shape is stretched exactly when the image does not crop, takes the image's alignments, and repaints, announces and dirties the source transform for each of the three that changed; under the source API nothing changes |
| UbuntuShape.UCUbuntuShape.SetImage | modules/Ubuntu/Components/plugin/ucubuntushape.cpp:740-762 | ignored under the source API or when unchanged; otherwise the image is stored, a new image's properties are followed as UpdateFromImageProperties does and the source transform dirtied, and the call ends with a repaint and the image announcement |
| UbuntuShape.UCUbuntuShape.PaintColors | modules/Ubuntu/Components/plugin/ucubuntushape.cpp:1102-1119 | with only the deprecated colour in use and equal colours, the paint is uniform |
| UbuntuShape.DeprecatedColorIgnored | modules/Ubuntu/Components/plugin/ucubuntushape.cpp:620-729 | after the new colour API is used once, the deprecated colour setters change nothing |
| UbuntuShape.DeprecatedColorIsUniform | modules/Ubuntu/Components/plugin/ucubuntushape.cpp:690-705 | until setGradientColor is called the deprecated colour paints a uniform background |
| UbuntuShape.DeprecatedImageIgnored | modules/Ubuntu/Components/plugin/ucubuntushape.cpp:740-807 | once the source API is in use the deprecated image setters leave the shape alone |
| ApiCheck.AfterProperty | tests/apicheck/apicheck.cpp:326-332 | the name is recorded; a known entry leaves the table, otherwise the name maps to the new revision, and every other name keeps its entry |
| ApiCheck.AfterMethod | tests/apicheck/apicheck.cpp:315-324 | the overload is recorded; a known overload leaves the table, otherwise the overload maps to the new revision |
| ApiCheck.KnownPropertyAfterwards | tests/apicheck/apicheck.cpp:326-332 | a property reported as new is known from then on for every revision at or above it |
| ApiCheck.KnownPropertyIdempotent | tests/apicheck/apicheck.cpp:326-332 | asking again with the same revision answers known and changes nothing |
| ApiCheck.KnownPropertyLowerRevision | tests/apicheck/apicheck.cpp:326-332 | a revision below the recorded one is reported as new and lowers the record |
| ApiCheck.OverloadsIndependent | tests/apicheck/apicheck.cpp:315-324 | recording one argument count never changes what another count of the same name reports |
| ApiCheck.KnownMethodAfterwards | tests/apicheck/apicheck.cpp:315-324 | an overload reported as new is known from then on for every revision at or above it |
| ApiCheck.KnownAttributes.constructor | tests/apicheck/apicheck.cpp:311-314 | both tables start empty |
| ApiCheck.KnownAttributes.KnownMethod | tests/apicheck/apicheck.cpp:315-324 | answers whether the overload was known at or below the revision, and leaves AfterMethod's table |
| ApiCheck.KnownAttributes.KnownProperty | tests/apicheck/apicheck.cpp:326-332 | answers whether the property was known at or below the revision, and leaves AfterProperty's table |
| ApiCheck.Mid | tests/apicheck/apicheck.cpp:557 | the suffix from the position, or empty past the end |
| ApiCheck.RemovePointerAndList | tests/apicheck/apicheck.cpp:549-563 | the result neither ends in '*' nor starts with the list prefix, is no longer than the input, keeps set flags set, and equals the input exactly when the input had no decoration |
| ApiCheck.RemoveDecorations | tests/apicheck/apicheck.cpp:549-563 | stripping a list wrapper and k stars from a base name gives the base name and exactly the decorations used |
| ApiCheck.RemoveWrapper | tests/apicheck/apicheck.cpp:554-558 | the list wrapper is removed once, leaving the undecorated element type |
| ApiCheck.RemoveStars | tests/apicheck/apicheck.cpp:551-553 | any number of trailing stars is removed and marks the type as a pointer |
| ApiCheck.StripOneStar | tests/apicheck/apicheck.cpp:551-553 | one trailing star is removed and marks the type as a pointer |
| ApiCheck.Dumper.constructor | tests/apicheck/apicheck.cpp:342 | the module URI and import version start empty |
| ApiCheck.Dumper.SetRelocatableModuleUri | tests/apicheck/apicheck.cpp:344-347 | the URI is stored |
| ApiCheck.Dumper.SetImportVersion | tests/apicheck/apicheck.cpp:349-352 | the version is stored |
| ApiCheck.Dumper.GetExportString | tests/apicheck/apicheck.cpp:354-369 | the name with its prefixes removed, a space, and the version text |
| ApiCheck.ExportNameStripsPrefixes | tests/apicheck/apicheck.cpp:356-364 | a plain name is kept, and each of the module, "./" and "/" prefixes is removed from it |
| ApiCheck.ExportNameOrder | tests/apicheck/apicheck.cpp:356-364 | the module prefix is removed before "./", so "Ubuntu/./Label" gives "Label" but "./Ubuntu/Label" gives "Ubuntu/Label" |
| ApiCheck.VersionTextOfNat | tests/apicheck/apicheck.cpp:366-368 | a non-negative version prints as its major number, a dot and its minor number |
| ApiCheck.VersionTextInjective | tests/apicheck/apicheck.cpp:366-368 | different non-negative versions print differently |
| ApiCheck.DumpProperty | tests/apicheck/apicheck.cpp:580-595 | a property is written exactly when it is not internal and was not known, and the known table then follows AfterProperty |
| ApiCheck.DumpMethod | tests/apicheck/apicheck.cpp:597-650 | a method is written exactly when it is public, not internal, not an implicit change signal and not known; only a method that passes the filters is recorded |
| ApiCheck.WriteMetaContent | tests/apicheck/apicheck.cpp:371-431 | the properties written are exactly, and in input order, those that are not internal and not known, and the methods written exactly those passing the filters, not hidden QObject methods, not other types' Changed methods and not known, followed by the script methods; the known tables afterwards record every property, implicit signal, method and script method seen |
| ApiCheck.DumpPropertyAndSignal | tests/apicheck/apicheck.cpp:375-379 | a property is written as DumpProperty decides, and its implicit Changed signal is then recorded as known |
| ApiCheck.DumpProperties | tests/apicheck/apicheck.cpp:373-381 | the properties written are WrittenProperties of the input, and the known tables follow PropertyTable and SignalTable |
| ApiCheck.SignalNamesOfAll | tests/apicheck/apicheck.cpp:380 | the implicit signals gathered one property at a time are the Changed name of every property |
| ApiCheck.DumpMethods | tests/apicheck/apicheck.cpp:383-427 | the methods written are WrittenMethods of the input, and the known table follows MethodTable |
| ApiCheck.DumpScriptMethods | tests/apicheck/apicheck.cpp:396-419 | the script methods written are WrittenScript of the fixed list, and the known table follows ScriptTable |
| ApiCheck.WrittenPropertiesPrefix | tests/apicheck/apicheck.cpp:374-381 | the properties written for a prefix of the input are a prefix of those written for the whole |
| ApiCheck.WrittenPropertiesSound | tests/apicheck/apicheck.cpp:374-381 | every property written is in the input and passes the property filter |
| ApiCheck.WrittenPropertiesComplete | tests/apicheck/apicheck.cpp:374-381 | every input property that passes the filter is written |
| ApiCheck.WrittenMethodsPrefix | tests/apicheck/apicheck.cpp:383-427 | the methods written for a prefix of the input are a prefix of those written for the whole |
| ApiCheck.WrittenMethodsSound | tests/apicheck/apicheck.cpp:383-427 | every method written is in the input and passes every method filter |
| ApiCheck.WrittenMethodsComplete | tests/apicheck/apicheck.cpp:383-427 | every input method that passes every filter is written |
| ApiCheck.WrittenMethodsNoTable | tests/apicheck/apicheck.cpp:383-427 | without a known table the methods written do not depend on the table |
| ApiCheck.WrittenScriptNoTable | tests/apicheck/apicheck.cpp:396-419 | without a known table the script methods written do not depend on the table |
| ApiCheck.AllScriptMethodsWithoutTable | tests/apicheck/apicheck.cpp:396-419 | without a known table all three script methods, toString(), destroy() and destroy(int), are written |
| ListItem.ClampMacro | modules/Ubuntu/Components/plugin/uclistitem.cpp:34 | the result lies between the bounds in either order, and a value already between them is kept |
| ListItem.ClampMacroIsClamp | modules/Ubuntu/Components/plugin/uclistitem.cpp:34 | the macro agrees with MathUtils.Clamp on every input |
| ListItem.ClampX | modules/Ubuntu/Components/plugin/uclistitem.cpp:474-484 | the new x lies in the drag range, is x + dx when that is in range, is 0 with no panel, and never leaves the side that has no panel |
| ListItem.UCListItemDivider.constructor | modules/Ubuntu/Components/plugin/uclistitem.cpp:51-68 | a divider starts visible, dp(2) thick with dp(2) margins that the user has not set, not attached to a list item and with no repaint |
| ListItem.UCListItemDivider.Init | modules/Ubuntu/Components/plugin/uclistitem.cpp:73-77 | the divider is attached to its list item |
| ListItem.UCListItemDivider.UnitsChanged | modules/Ubuntu/Components/plugin/uclistitem.cpp:79-91 | the thickness follows dp(2) and each margin does so only while the user has not set it; the list item is repainted only once the divider is attached |
| ListItem.UCListItemDivider.SetVisible | modules/Ubuntu/Components/plugin/uclistitem.cpp:145-154 | the flag is stored, and a change repaints and is announced |
| ListItem.UCListItemDivider.SetLeftMargin | modules/Ubuntu/Components/plugin/uclistitem.cpp:156-165 | the margin is stored; only a change marks it user-set, repaints and is announced |
| ListItem.UCListItemDivider.SetRightMargin | modules/Ubuntu/Components/plugin/uclistitem.cpp:167-176 | the margin is stored; only a change marks it user-set, repaints and is announced |
| ListItem.UserMarginSurvivesUnits | modules/Ubuntu/Components/plugin/uclistitem.cpp:79-165 | a margin the user changed survives later grid-unit changes, but setting the margin already in place does not protect it |
| ListItem.ClickAfterQuiet | modules/Ubuntu/Components/plugin/uclistitem.cpp:731-763 | after a stretch without clicks, a later click is counted the same from either start |
| ListItem.QuietAfterClick | modules/Ubuntu/Components/plugin/uclistitem.cpp:731-763 | a stretch without clicks after a click leaves the click count unchanged |
| ListItem.NoClickTransitive | modules/Ubuntu/Components/plugin/uclistitem.cpp:731-763 | two stretches without clicks make one |
| ListItem.NoClickAppend | modules/Ubuntu/Components/plugin/uclistitem.cpp:731-763 | logging events other than clicked adds no click |
| ListItem.NoClickSetters | modules/Ubuntu/Components/plugin/uclistitem.cpp:348-422 | setPressed, setTugged and setContentMoved never emit clicked |
| ListItem.NoClickReboundTo | modules/Ubuntu/Components/plugin/uclistitem.cpp:282-384 | reboundTo and _q_completeRebinding never emit clicked |
| ListItem.NoClickRebounds | modules/Ubuntu/Components/plugin/uclistitem.cpp:269-369 | _q_rebound and promptRebound never emit clicked |
| ListItem.ReleaseActionClicks | modules/Ubuntu/Components/plugin/uclistitem.cpp:740-760 | the release decision emits clicked exactly when the click is not suppressed |
| ListItem.ReleaseClicks | modules/Ubuntu/Components/plugin/uclistitem.cpp:731-763 | a release while pressed emits clicked exactly when no tug suppressed it, and leaves the item unpressed |
| ListItem.ReleaseAfterTug | modules/Ubuntu/Components/plugin/uclistitem.cpp:744-762 | a suppressed release prompt-rebounds at x = 0, rebounds when the snap is 0, and snaps to the snap position otherwise |
| ListItem.SnapKeepsPanel | modules/Ubuntu/Components/plugin/uclistitem.cpp:744-762 | a snap to a non-zero position animates there with the snapping slot connected, keeps both panels and reports moving |
| ListItem.SmallMoveIgnored | modules/Ubuntu/Components/plugin/uclistitem.cpp:765-803 | without an attached panel, a move inside the threshold band changes nothing |
| ListItem.UnpressedMoveIgnored | modules/Ubuntu/Components/plugin/uclistitem.cpp:765-803 | without a press and without an attached panel, moves change nothing |
| ListItem.TugSuppressesClick | modules/Ubuntu/Components/plugin/uclistitem.cpp:789-802 | with a panel attached, a move by a non-zero dx tugs the item, suppresses the click, reports moving and keeps the content in the drag range |
| ListItem.TugStartDoesNotMove | modules/Ubuntu/Components/plugin/uclistitem.cpp:773-787 | leaving the band grabs each panel that can be taken but does not move the content yet |
| ListItem.SuppressClickRules | modules/Ubuntu/Components/plugin/uclistitem.cpp:348-422 | setTugged always sets suppressClick; setPressed clears it only on a change; setters given the current value change nothing; a moving change is reported with its start or end |
| ListItem.PromptReboundState | modules/Ubuntu/Components/plugin/uclistitem.cpp:364-369 | an immediate rebound leaves the item unpressed, untugged and still, both panels detached, no slot connected and the Flickable restored |
| ListItem.SetLeadingActionsState | modules/Ubuntu/Components/plugin/uclistitem.cpp:844-863 | the same list changes nothing; a new list is stored after an immediate rebound that detaches both panels |
| ListItem.LogsCompose | modules/Ubuntu/Components/plugin/uclistitem.cpp:731-763 | what t logged after s is what s1 logged after s followed by what t logged after s1 |
| ListItem.SwitchLeadingEvents | modules/Ubuntu/Components/plugin/uclistitem.cpp:853-862 | deleting the old panel and storing the new list logs no click, a panel deletion exactly when there was an old list, and ends with the change report |
| ListItem.SwitchLeadingReports | modules/Ubuntu/Components/plugin/uclistitem.cpp:853-862 | the reports end with the change report, hold no click, and hold a panel deletion exactly when there was an old list |
| ListItem.SwitchLeadingLog | modules/Ubuntu/Components/plugin/uclistitem.cpp:853-862 | the switch logs exactly SwitchLeadingReports |
| ListItem.LogTail | modules/Ubuntu/Components/plugin/uclistitem.cpp:853-862 | two appended pieces are what was logged since, and the last event is the second piece's last |
| ListItem.SetLeadingActionsEvents | modules/Ubuntu/Components/plugin/uclistitem.cpp:844-863 | replacing the leading list logs no click, a panel deletion exactly when there was an old list, and ends with the change report |
| ListItem.PromptReboundReports | modules/Ubuntu/Components/plugin/uclistitem.cpp:364-369 | an immediate rebound reports neither a click nor a panel deletion |
| ListItem.PromptReboundEventLog | modules/Ubuntu/Components/plugin/uclistitem.cpp:364-369 | an immediate rebound logs exactly PromptReboundReports |
| ListItem.PromptReboundEvents | modules/Ubuntu/Components/plugin/uclistitem.cpp:364-369 | an immediate rebound only extends the log, with no click and no panel deletion |
| ListItem.UCListItem.constructor | modules/Ubuntu/Components/plugin/uclistitem.cpp:203-221 | an item starts unpressed, still, at x = 0, with no action lists, no animation and an empty log |
| ListItem.UCListItem.SetPressed | modules/Ubuntu/Components/plugin/uclistitem.cpp:397-406 | the new state is AfterSetPressed: a change flips pressed, clears suppressClick and is announced |
| ListItem.UCListItem.SetTugged | modules/Ubuntu/Components/plugin/uclistitem.cpp:408-422 | the new state is AfterSetTugged: suppressClick takes the argument, and a change installs or removes the window filter |
| ListItem.UCListItem.SetContentMoved | modules/Ubuntu/Components/plugin/uclistitem.cpp:348-361 | the new state is AfterSetContentMoved: only a change is reported, as a start or an end |
| ListItem.UCListItem.GrabLeading | modules/Ubuntu/Components/plugin/uclistitem.cpp:425-438 | the new state and result are AfterGrabLeading: a list grabs when already attached or available, and a grab blocks the Flickable |
| ListItem.UCListItem.GrabTrailing | modules/Ubuntu/Components/plugin/uclistitem.cpp:425-438 | the new state and result are AfterGrabTrailing, as for the leading side |
| ListItem.UCListItem.CompleteRebindingSlot | modules/Ubuntu/Components/plugin/uclistitem.cpp:282-293 | the new state is AfterCompleteRebinding: slots dropped, Flickable restored, both panels released, moving ended |
| ListItem.UCListItem.CompleteSnappingSlot | modules/Ubuntu/Components/plugin/uclistitem.cpp:294-298 | the new state is AfterCompleteSnapping: slots dropped and moving ended |
| ListItem.UCListItem.ReboundTo | modules/Ubuntu/Components/plugin/uclistitem.cpp:371-384 | the new state is AfterReboundTo: an animation to x with the slot connected, reported as moving |
| ListItem.UCListItem.Rebound | modules/Ubuntu/Components/plugin/uclistitem.cpp:269-281 | the new state is AfterRebound: unpressed, and rebounding to 0 only when a panel is attached |
| ListItem.UCListItem.PromptRebound | modules/Ubuntu/Components/plugin/uclistitem.cpp:364-369 | the new state is AfterPromptRebound: unpressed, untugged and cleaned up without an animation |
| ListItem.UCListItem.AnimationStopped | modules/Ubuntu/Components/plugin/uclistitem.cpp:371-384 | the content stops at the target and only the first connected slot runs |
| ListItem.UCListItem.FlickableMovementStarted | modules/Ubuntu/Components/plugin/uclistitem.cpp:442-453 | a moving Flickable rebounds the item only while the item listens to it |
| ListItem.UCListItem.WindowPress | modules/Ubuntu/Components/plugin/uclistitem.cpp:805-829 | a press outside the item rebounds it, one inside changes nothing |
| ListItem.UCListItem.MousePress | modules/Ubuntu/Components/plugin/uclistitem.cpp:713-729 | the new state is AfterPress: ignored while the Flickable moves or for other buttons, otherwise pressed at x and listening |
| ListItem.UCListItem.ReleaseDecision | modules/Ubuntu/Components/plugin/uclistitem.cpp:740-760 | the new state is ReleaseAction: click and rebound, or prompt-rebound, rebound or snap |
| ListItem.UCListItem.MouseRelease | modules/Ubuntu/Components/plugin/uclistitem.cpp:731-763 | the new state is AfterRelease: a pressed item stops listening, reports moving, decides, and ends unpressed |
| ListItem.UCListItem.DragContent | modules/Ubuntu/Components/plugin/uclistitem.cpp:789-802 | the new state is AfterDrag: a non-zero dx moves the content by dx, clamped, and tugs |
| ListItem.UCListItem.MouseMove | modules/Ubuntu/Components/plugin/uclistitem.cpp:765-803 | the new state is AfterMove: panels are grabbed once the pointer leaves the band, then an attached item is dragged |
| ListItem.UCListItem.SetLeadingActions | modules/Ubuntu/Components/plugin/uclistitem.cpp:844-863 | the new state is AfterSetLeadingActions: the same action list changes nothing; another one rebounds the item at once, deletes the old leading panel and then switches to the new list |
| ListItem.UCListItem.DeleteLeadingPanel | modules/Ubuntu/Components/plugin/uclistitem.cpp:853-857 | the old leading list's panel goes, and the trailing side's too when it is the same list |
| ListItem.UCListItem.AssignLeading | modules/Ubuntu/Components/plugin/uclistitem.cpp:858-862 | the new list is stored, with a warning when the trailing list is the same one |
| ListItem.UCListItem.SetTrailingActions | modules/Ubuntu/Components/plugin/uclistitem.cpp:878-897 | the new state is AfterSetTrailingActions: the same action list changes nothing; another one rebounds the item at once, deletes the old trailing panel and then switches to the new list |
| ListItem.UCListItem.DeleteTrailingPanel | modules/Ubuntu/Components/plugin/uclistitem.cpp:887-891 | the old trailing list's panel goes, and the leading side's too when it is the same list |
| ListItem.UCListItem.AssignTrailing | modules/Ubuntu/Components/plugin/uclistitem.cpp:892-896 | the new list is stored, with a warning when the leading list is the same one |
| ListItem.PressReleaseClicks | modules/Ubuntu/Components/plugin/uclistitem.cpp:713-763 | a press and release without movement on a fresh item emits clicked and leaves it unpressed |
| ListItemOptions.UCListItemOptions.constructor | modules/Ubuntu/Components/plugin/uclistitemoptions.cpp:25-33 | a list starts empty, not failed, with no panel, no holder and no queued item |
| ListItemOptions.UCListItemOptions.Append | modules/Ubuntu/Components/plugin/uclistitemoptions.cpp:41-54 | a non-Action latches the failure, empties the list and is reported with its index; an Action is appended unless the list has failed |
| ListItemOptions.UCListItemOptions.Count | modules/Ubuntu/Components/plugin/uclistitemoptions.cpp:55-60 | the number of actions held |
| ListItemOptions.UCListItemOptions.At | modules/Ubuntu/Components/plugin/uclistitemoptions.cpp:61-66 | the action at the index |
| ListItemOptions.UCListItemOptions.Clear | modules/Ubuntu/Components/plugin/uclistitemoptions.cpp:67-73 | the list is emptied and the failure latch reset |
| ListItemOptions.UCListItemOptions.CreatePanelItem | modules/Ubuntu/Components/plugin/uclistitemoptions.cpp:119-143 | the panel exists afterwards exactly when it existed or could be created, and only a new panel is announced |
| ListItemOptions.UCListItemOptions.Connect | modules/Ubuntu/Components/plugin/uclistitemoptions.cpp:75-94 | without a panel, or when already held by this item, nothing but the panel changes; a panel held by another item queues the requester and refuses; a free panel goes to the item on the requested side; the answer is whether the item now holds the panel |
| ListItemOptions.UCListItemOptions.Disconnect | modules/Ubuntu/Components/plugin/uclistitemoptions.cpp:96-111 | a held panel is released and the queue emptied, and the queued item, if any, then holds the panel |
| ListItemOptions.FailureLatch | modules/Ubuntu/Components/plugin/uclistitemoptions.cpp:41-73 | after a non-Action, appended Actions are dropped until the list is cleared |
| ListItemOptions.QueuedItemTakesOver | modules/Ubuntu/Components/plugin/uclistitemoptions.cpp:75-111 | a second item asking for a held panel is refused and queued, and takes the panel over once the holder lets go |
| MouseFilters.InverseContains | modules/Ubuntu/Components/plugin/ucmousefilters.cpp:682-689 | a point counts as inside exactly when it is outside the owner and not over the keyboard while the keyboard is excluded |
| MouseFilters.PressAccepted | modules/Ubuntu/Components/plugin/ucmousefilters.cpp:286-309 | a press in an accepted button records it, clears both suppressions, hovers, starts the timer, reports pressed, and is consumed exactly when the handler accepted it |
| MouseFilters.PressIgnored | modules/Ubuntu/Components/plugin/ucmousefilters.cpp:286-309 | a press in a button the owner does not accept only clears m_moved and is not consumed |
| MouseFilters.IdleIgnores | modules/Ubuntu/Components/plugin/ucmousefilters.cpp:311-376 | with no button pressed, move, release and double click change nothing and are not consumed |
| MouseFilters.ReleaseClicks | modules/Ubuntu/Components/plugin/ucmousefilters.cpp:330-357 | a release reports released first and a click exactly when the released button was down and neither a long press nor a double click suppressed it |
| MouseFilters.ReleaseRemovesButton | modules/Ubuntu/Components/plugin/ucmousefilters.cpp:330-357 | the button leaves the mask and the timer stops; the last release unhovers an owner that ignores hover |
| MouseFilters.DoubleClickLatch | modules/Ubuntu/Components/plugin/ucmousefilters.cpp:359-376 | a double click while pressed suppresses the coming click exactly when a doubleClicked handler is connected |
| MouseFilters.HoverSignals | modules/Ubuntu/Components/plugin/ucmousefilters.cpp:272-284 | setHovered stores the flag and emits exactly on a change, entered for true and exited for false |
| MouseFilters.TimerLongPress | modules/Ubuntu/Components/plugin/ucmousefilters.cpp:252-270 | the press-and-hold timeout fires only while enabled, pressed and hovered, and its long press holds only if the handler accepted it |
| MouseFilters.EnabledRule | modules/Ubuntu/Components/plugin/ucmousefilters.cpp:445-456 | an owner without accepted buttons ignores the request; otherwise the flag is stored and a notification comes exactly with an effective change |
| MouseFilters.InverseSkipsAreas | modules/Ubuntu/Components/plugin/ucmousefilters.cpp:628-679 | events addressed to the owner or to mouse areas are never handled |
| MouseFilters.InversePassesInside | modules/Ubuntu/Components/plugin/ucmousefilters.cpp:628-679 | a mouse event inside the owner, or over an excluded keyboard, passes through unhandled |
| MouseFilters.InverseHandlesOutside | modules/Ubuntu/Components/plugin/ucmousefilters.cpp:628-679 | outside the owner, InverseMouse handles a mouse event exactly as Mouse handles one on its owner |
| MouseFilters.PressReleaseClicks | modules/Ubuntu/Components/plugin/ucmousefilters.cpp:286-357 | a press and release of one accepted button with nothing between is a click |
| MouseFilters.DoubleClickSuppressesClick | modules/Ubuntu/Components/plugin/ucmousefilters.cpp:330-376 | with a doubleClicked handler connected, the release after a double click is no click |
| MouseFilters.MoveRestoresClick | modules/Ubuntu/Components/plugin/ucmousefilters.cpp:311-376 | a move after the double click cancels the suppression and the release clicks again |
| MouseFilters.LongPressSuppressesClick | modules/Ubuntu/Components/plugin/ucmousefilters.cpp:252-357 | an accepted press-and-hold suppresses the click, a declined one lets it through |
| MouseFilters.UCMouse.constructor | modules/Ubuntu/Components/plugin/ucmousefilters.cpp:181-200 | a fresh filter is disabled, not hovered and has no button pressed |
| MouseFilters.UCMouse.SetHovered | modules/Ubuntu/Components/plugin/ucmousefilters.cpp:272-284 | the new state is AfterSetHovered: only a change of hover is stored, announced as entered or exited |
| MouseFilters.UCMouse.MousePressed | modules/Ubuntu/Components/plugin/ucmousefilters.cpp:286-309 | the new state is AfterPress: every press clears the moved flag; a press in an accepted button joins the pressed buttons, clears long press and double click, starts the hold timer, hovers and is announced; the press is consumed as MouseResult says |
| MouseFilters.UCMouse.MouseMoved | modules/Ubuntu/Components/plugin/ucmousefilters.cpp:311-328 | the new state is AfterMove: a pressed filter hovers, marks the gesture moved, cancels the double-click suppression and reports the position; an idle one changes nothing |
| MouseFilters.UCMouse.MouseReleased | modules/Ubuntu/Components/plugin/ucmousefilters.cpp:330-357 | the new state is AfterRelease: with no button pressed nothing changes; otherwise the button leaves the mask, the timer stops, a click is reported exactly when the button was pressed without long press or double click, and hover ends when no button is left and the owner takes no hover; the release is consumed as MouseResult says |
| MouseFilters.UCMouse.MouseDoubleClick | modules/Ubuntu/Components/plugin/ucmousefilters.cpp:359-376 | the new state is AfterDoubleClick: only while a button is pressed and a doubleClicked handler is connected is the double click latched, suppressing the next click, and announced |
| MouseFilters.UCMouse.Hover | modules/Ubuntu/Components/plugin/ucmousefilters.cpp:378-402 | entering and leaving set the hover flag, moving reports the position, and none consumes the event |
| MouseFilters.UCMouse.TimerEvent | modules/Ubuntu/Components/plugin/ucmousefilters.cpp:252-270 | the new state is AfterTimer: only the running hold timer's event counts; it stops the timer, and reports pressAndHold only while pressed and hovered, long press then holding the handler's answer |
| MouseFilters.UCMouse.SetEnabled | modules/Ubuntu/Components/plugin/ucmousefilters.cpp:445-456 | the new state is AfterSetEnabled, with the filter on the owner item: only a change, and only for an owner that accepts mouse buttons, installs or removes the filter and is announced |
| MouseFilters.UCMouse.DeliverMouse | modules/Ubuntu/Components/plugin/ucmousefilters.cpp:207-251 | each mouse event kind reaches its handler, as AfterMouse says |
| MouseFilters.UCMouse.EventFilter | modules/Ubuntu/Components/plugin/ucmousefilters.cpp:207-251 | the new state and the consumption are those of Step for the event |
| MouseFilters.UCInverseMouse.constructor | modules/Ubuntu/Components/plugin/ucmousefilters.cpp:571-575 | a fresh inverse filter is in the initial state and does not exclude the keyboard |
| MouseFilters.UCInverseMouse.SetExcludeInputArea | modules/Ubuntu/Components/plugin/ucmousefilters.cpp:592-598 | the flag is stored and a change announced |
| MouseFilters.UCInverseMouse.SetEnabled | modules/Ubuntu/Components/plugin/ucmousefilters.cpp:691-704 | the new state is AfterSetEnabled, with the filter on the whole application: only a change, and only for an owner that accepts mouse buttons, installs or removes the filter and is announced |
| MouseFilters.UCInverseMouse.EventFilter | modules/Ubuntu/Components/plugin/ucmousefilters.cpp:628-679 | the new state and the consumption are those of InverseStep |
| BottomEdge.CreateDefaultRanges | src/Ubuntu/Components/plugin/ucbottomedge.cpp:115-133 | one range from 0.33 to 1.0 is appended under a fresh identity, and a commit point handler is connected for it |
| BottomEdge.InitialRangesShape | src/Ubuntu/Components/plugin/ucbottomedge.cpp:48-59 | before any custom range the list is the single default range, and the bookkeeping is consistent |
| BottomEdge.AppendRangeRule | src/Ubuntu/Components/plugin/ucbottomedge.cpp:87-98 | the first appendRange discards the default ranges and deletes them; later ones accumulate in order; the active range is kept |
| BottomEdge.ClearRangesRule | src/Ubuntu/Components/plugin/ucbottomedge.cpp:100-111 | clearRanges changes nothing until a custom range was appended, and then leaves one fresh default range, deleting the old ones when asked |
| BottomEdge.RangeOperationsValid | src/Ubuntu/Components/plugin/ucbottomedge.cpp:87-111 | appending and clearing keep the range bookkeeping consistent |
| BottomEdge.CountEnteredAppend | src/Ubuntu/Components/plugin/ucbottomedge.cpp:137-163 | entries counted over two logs add up |
| BottomEdge.ScanEntersAtMostOnce | src/Ubuntu/Components/plugin/ucbottomedge.cpp:137-163 | one walk over the ranges enters at most one range, and exits the active one before entering another |
| BottomEdge.ScanNewActiveContains | src/Ubuntu/Components/plugin/ucbottomedge.cpp:137-163 | a newly active range was entered and is a range of the list that contains the progress |
| BottomEdge.ScanEntersFirst | src/Ubuntu/Components/plugin/ucbottomedge.cpp:137-163 | with no active range the walk enters the first range that contains the progress and reports the change |
| BottomEdge.ScanExitsStale | src/Ubuntu/Components/plugin/ucbottomedge.cpp:137-163 | an active range that no copy in the list contains any more is exited |
| BottomEdge.ScanNeverEnters | src/Ubuntu/Components/plugin/ucbottomedge.cpp:137-163 | a range none of whose copies contains the progress never becomes active |
| BottomEdge.ScanStaleActiveBlocks | src/Ubuntu/Components/plugin/ucbottomedge.cpp:137-163 | an active range that is no longer in the list blocks every entry and logs nothing |
| BottomEdge.PositionRoundTrip | src/Ubuntu/Components/plugin/ucbottomedge.cpp:167-176 | positioning the panel at a progress and reading the drag progress back gives that progress |
| BottomEdge.LinkWrites | src/Ubuntu/Components/plugin/ucbottomedge.cpp:126-129 | each connected handler writes once, in connection order |
| BottomEdge.LiveLinks | src/Ubuntu/Components/plugin/ucbottomedge.cpp:126-129 | the handlers kept are those whose default range has not been deleted |
| BottomEdge.FollowCommitPoint | src/Ubuntu/Components/plugin/ucbottomedge.cpp:126-129 | only the default ranges a handler is connected to get the new top; identities and bottoms stay |
| BottomEdge.LinkWritesIn | src/Ubuntu/Components/plugin/ucbottomedge.cpp:126-129 | a range's top is written exactly when it is a default range with a connected handler |
| BottomEdge.LiveLinksKeep | src/Ubuntu/Components/plugin/ucbottomedge.cpp:126-129 | a handler whose range still exists is kept |
| BottomEdge.CommitPointGuard | src/Ubuntu/Components/plugin/ucbottomedge.cpp:671-679 | the current commit point and one outside [0, 1] are refused and change nothing; any other is stored |
| BottomEdge.CommitPointFollowed | src/Ubuntu/Components/plugin/ucbottomedge.cpp:671-679 | after an accepted commit point every default range in the list has it as its top, user ranges are untouched, and no deleted range is written |
| BottomEdge.AsWrittenWritesDeletedRange | src/Ubuntu/Components/plugin/ucbottomedge.cpp:115-133 | after a range is appended from QML the default range is deleted, yet the next commit point change still writes its top |
| BottomEdge.Without | src/Ubuntu/Components/plugin/ucbottomedge.cpp:563-605 | removing a completion leaves a shorter sequence without it, made of the completions there were |
| BottomEdge.CompletionStates | src/Ubuntu/Components/plugin/ucbottomedge.cpp:563-605 | commit completion sets Committed and collapse completion Hidden; both return the status to Idle and keep the rest |
| BottomEdge.CommitThenStop | src/Ubuntu/Components/plugin/ucbottomedge.cpp:551-574 | an animated commit, once its animation stops, leaves the content committed at the commit point and the status idle |
| BottomEdge.DoubleCommitCompletesOnce | src/Ubuntu/Components/plugin/ucbottomedge.cpp:551-574 | two commits before the animation stops connect twice but complete once |
| BottomEdge.UnanimatedCommitPending | src/Ubuntu/Components/plugin/ucbottomedge.cpp:551-561 | without a panel animation nothing is connected, so a commit never completes |
| BottomEdge.ProgressionRules | src/Ubuntu/Components/plugin/ucbottomedge.cpp:137-163 | updateProgressionStates does nothing when locked, reveals on a positive progress with no active range, and never changes the list |
| BottomEdge.HintAndStateGuards | src/Ubuntu/Components/plugin/ucbottomedge.cpp:408-490 | setHint is refused for the current hint and once the edge has left Hidden; setState to the current state changes nothing |
| BottomEdge.UCBottomEdge.constructor | src/Ubuntu/Components/plugin/ucbottomedge.cpp:35-59 | an edge starts Hidden and Idle with commit point 1.0, no hint and the default range |
| BottomEdge.UCBottomEdge.AppendRange | src/Ubuntu/Components/plugin/ucbottomedge.cpp:87-98 | the ranges become AfterAppendRange of the old ones |
| BottomEdge.UCBottomEdge.ClearRanges | src/Ubuntu/Components/plugin/ucbottomedge.cpp:100-111 | the ranges become AfterClearRanges of the old ones |
| BottomEdge.UCBottomEdge.RangesCount | src/Ubuntu/Components/plugin/ucbottomedge.cpp:631-635 | the number of ranges in the list |
| BottomEdge.UCBottomEdge.SetState | src/Ubuntu/Components/plugin/ucbottomedge.cpp:471-490 | the new model is AfterSetState: only a change is stored and announced, and the panel consumes the mouse in every state but Hidden |
| BottomEdge.UCBottomEdge.UpdateProgressionStates | src/Ubuntu/Components/plugin/ucbottomedge.cpp:137-163 | the new model is AfterUpdateProgressionStates, walking the ranges with its break |
| BottomEdge.UCBottomEdge.SetHint | src/Ubuntu/Components/plugin/ucbottomedge.cpp:408-430 | the new model is AfterSetHint: the same hint, or any hint once the content is revealed or committed, is refused; otherwise the old hint is deleted and the new one stored and announced |
| BottomEdge.UCBottomEdge.SetCommitPoint | src/Ubuntu/Components/plugin/ucbottomedge.cpp:671-679 | the new model is AfterSetCommitPoint, the corrected rule: an accepted point is stored and announced, and only the default ranges still in the list follow it (the as-written handler is SetCommitPointAsWritten) |
| BottomEdge.UCBottomEdge.Commit | src/Ubuntu/Components/plugin/ucbottomedge.cpp:551-561 | the new model is AfterCommit: status Committing, the panel moved to the commit point, and the completion connected to the animation's end when animated |
| BottomEdge.UCBottomEdge.Collapse | src/Ubuntu/Components/plugin/ucbottomedge.cpp:582-592 | the new model is AfterCollapse: status Collapsing, the panel moved to the bottom, and the completion connected to the animation's end when animated |
| BottomEdge.UCBottomEdge.AnimationStopped | src/Ubuntu/Components/plugin/ucbottomedge.cpp:563-605 | the new model is AfterAnimationStopped: the first pending completion runs |
| MathUtils.Clamp | modules/Ubuntu/Components/1.3/mathUtils.js:30-37 | the result lies between the bounds in either order, and a value already between them is returned unchanged |
| MathUtils.ClampSwap | modules/Ubuntu/Components/1.3/mathUtils.js:33-36 | with the bounds reversed, clamp is clamp with the bounds swapped, that is max(max, min(x, min)) |
| MathUtils.ClampOutside | modules/Ubuntu/Components/1.3/mathUtils.js:30-32 | below the range gives min, above it gives max |
| MathUtils.Lerp | modules/Ubuntu/Components/1.3/mathUtils.js:43-45 | (1 - delta) * from + delta * to is from moved by delta of the way to to |
| MathUtils.LerpEnds | modules/Ubuntu/Components/1.3/mathUtils.js:43-45 | delta 0 gives from and delta 1 gives to |
| MathUtils.ProjectValue | modules/Ubuntu/Components/1.3/mathUtils.js:51-53 | undefined exactly for an empty source interval; otherwise the straight-line map from [xmin, xmax] onto [ymin, ymax] |
| MathUtils.ProjectionForm | modules/Ubuntu/Components/1.3/mathUtils.js:52 | the source's formula equals ymin + (x - xmin) * (ymax - ymin) / (xmax - xmin) |
| MathUtils.ProjectEnds | modules/Ubuntu/Components/1.3/mathUtils.js:51-53 | xmin maps to ymin and xmax maps to ymax |
| MathUtils.ClampAndProject | modules/Ubuntu/Components/1.3/mathUtils.js:59-61 | undefined exactly for an empty source interval |
| MathUtils.ClampAndProjectBounded | modules/Ubuntu/Components/1.3/mathUtils.js:59-61 | for an increasing source interval and ordered targets the result always lies in [ymin, ymax] |
| MathUtils.ClampAndProjectInside | modules/Ubuntu/Components/1.3/mathUtils.js:59-61 | inside the source interval, clampAndProject is projectValue |
| SplitView.ResizeRule | src/Ubuntu/UbuntuToolkit/splitview.cpp:37-48 | resize always marks the column resized, moves preferredWidth by delta when the result stays within the limits, and changes nothing else |
| SplitView.ResizeUndo | src/Ubuntu/UbuntuToolkit/splitview.cpp:37-48 | an accepted resize of a column within its limits is undone by the opposite resize |
| SplitView.ColumnAppended | src/Ubuntu/UbuntuToolkit/splitview.cpp:58-64 | the column is appended after the others and gets the list size as its index |
| SplitView.ColumnAppendedNumbered | src/Ubuntu/UbuntuToolkit/splitview.cpp:58-64 | appending keeps the columns numbered 0, 1, 2, ... in order |
| SplitView.ConfigIndex | src/Ubuntu/UbuntuToolkit/splitview.cpp:134-147 | a child has a configuration exactly when it is attached and its column is within the active layout, and then it is that column |
| SplitView.ConfigRule | src/Ubuntu/UbuntuToolkit/splitview.cpp:109-147 | config() is null without an active layout, and otherwise exactly when the attached child's column is within the active layout |
| SplitView.FirstWhen | src/Ubuntu/UbuntuToolkit/splitview.cpp:243-249 | the chosen layout's when holds and no earlier one's does; none is chosen only when no when holds |
| SplitView.FirstWhenOfWhens | src/Ubuntu/UbuntuToolkit/splitview.cpp:243-249 | the choice depends on the when flags alone |
| SplitView.VisibleIffConfigured | src/Ubuntu/UbuntuToolkit/splitview.cpp:268-281 | a child is shown exactly when it is configured |
| SplitView.UpdateLayoutFrame | src/Ubuntu/UbuntuToolkit/splitview.cpp:265-282 | updateLayout sets each child's visibility to whether it is configured and changes nothing but visibility and dirty |
| SplitView.UpdateLayoutIdempotent | src/Ubuntu/UbuntuToolkit/splitview.cpp:265-282 | a second updateLayout changes nothing |
| SplitView.FirstPassAccumulates | src/Ubuntu/UbuntuToolkit/splitview.cpp:296-316 | with CalculateFillWidth the first loop stacks exactly the filling children and takes the other columns' preferred widths off fillWidth; without it nothing is stacked and fillWidth stays |
| SplitView.FirstPassFrame | src/Ubuntu/UbuntuToolkit/splitview.cpp:296-316 | the first loop changes implicit widths only |
| SplitView.FirstPassSizes | src/Ubuntu/UbuntuToolkit/splitview.cpp:296-316 | with SetPreferredSize every configured child that does not fill gets its column's preferred width, every other child keeps its width |
| SplitView.SecondPassFrame | src/Ubuntu/UbuntuToolkit/splitview.cpp:319-331 | the second loop changes the children's implicit widths and the columns' preferred widths only |
| SplitView.SecondPassShares | src/Ubuntu/UbuntuToolkit/splitview.cpp:319-331 | after the second loop each stacked child whose limits admit the share has it as width and preferred width, and every other one keeps its widths |
| SplitView.SharedStep | src/Ubuntu/UbuntuToolkit/splitview.cpp:321-330 | one more step of the second loop extends that property by one stacked child |
| SplitView.RecalculateGuard | src/Ubuntu/UbuntuToolkit/splitview.cpp:284-333 | nothing happens without an active layout, or before completion while nothing is dirty; otherwise dirty is cleared |
| SplitView.RecalculateFrame | src/Ubuntu/UbuntuToolkit/splitview.cpp:284-333 | recalculateWidths keeps the view valid and changes widths only |
| SplitView.RecalculateShares | src/Ubuntu/UbuntuToolkit/splitview.cpp:284-333 | with RecalculateAll every child ends with its share, its preferred width or its old width, as its column says |
| SplitView.SharesFillWidth | src/Ubuntu/UbuntuToolkit/splitview.cpp:292-320 | the shares of the filling columns, the fixed columns' preferred widths and the spacing add up to the view's width |
| SplitView.FillStackShape | src/Ubuntu/UbuntuToolkit/splitview.cpp:296-307 | the fill stack holds configured children in increasing order |
| SplitView.FillStackHas | src/Ubuntu/UbuntuToolkit/splitview.cpp:296-307 | a child is on the fill stack exactly when it is configured and its column fills without having been resized |
| SplitView.ChangeLayoutRule | src/Ubuntu/UbuntuToolkit/splitview.cpp:240-263 | changeLayout activates the first layout whose when holds, the same choice changes nothing, and a second call changes nothing |
| SplitView.ResizedColumnKeepsWidth | src/Ubuntu/UbuntuToolkit/splitview.cpp:125-132 | after an accepted attached resize the column is resized with the new preferred width, and a recalculation gives the child that width |
| SplitView.OffsetStep | src/Ubuntu/UbuntuToolkit/splitview.cpp:366-379 | each item starts where the previous one ends plus the spacing |
| SplitView.ContentEndsAtLastItem | src/Ubuntu/UbuntuToolkit/splitview.cpp:381-384 | the content width is the right edge of the last item |
| SplitView.PositionItems | src/Ubuntu/UbuntuToolkit/splitview.cpp:361-404 | items are placed left to right from 0, or mirrored from the end, which is the view width when set and the content width otherwise |
| SplitView.SplitView.constructor | src/Ubuntu/UbuntuToolkit/splitview.cpp:335-339 | a view starts with no children, no layouts, no active layout, incomplete and clean |
| SplitView.SplitView.DataAppend | src/Ubuntu/UbuntuToolkit/splitview.cpp:168-186 | an item is appended and configured with its position; other objects are not children |
| SplitView.SplitView.LayoutAppend | src/Ubuntu/UbuntuToolkit/splitview.cpp:197-204 | a layout with no columns joins the list |
| SplitView.SplitView.LayoutCount | src/Ubuntu/UbuntuToolkit/splitview.cpp:205-210 | the number of layouts |
| SplitView.SplitView.LayoutAt | src/Ubuntu/UbuntuToolkit/splitview.cpp:211-216 | the layout at the index |
| SplitView.SplitView.LayoutClear | src/Ubuntu/UbuntuToolkit/splitview.cpp:217-228 | the list empties and there is no active layout |
| SplitView.SplitView.ColumnAppend | src/Ubuntu/UbuntuToolkit/splitview.cpp:58-64 | the layout becomes ColumnAppended of itself; the others stay |
| SplitView.SplitView.ColumnCount | src/Ubuntu/UbuntuToolkit/splitview.cpp:65-70 | the number of columns of the layout |
| SplitView.SplitView.ColumnAt | src/Ubuntu/UbuntuToolkit/splitview.cpp:71-76 | the column at the index |
| SplitView.SplitView.ColumnClear | src/Ubuntu/UbuntuToolkit/splitview.cpp:77-83 | the layout's columns empty; the others stay |
| SplitView.SplitView.UpdateLayout | src/Ubuntu/UbuntuToolkit/splitview.cpp:265-282 | the new model is AfterUpdateLayout: every child is visible exactly when the active layout configures its column, and dirty records any change of visibility |
| SplitView.SplitView.ChangeLayout | src/Ubuntu/UbuntuToolkit/splitview.cpp:240-263 | the new model is AfterChangeLayout: the first layout whose when holds becomes active, visibility follows, and widths are recalculated only when a signal called it |
| SplitView.SplitView.SetWhen | src/Ubuntu/UbuntuToolkit/splitview.cpp:197-204 | changing a layout's when runs changeLayout as a signal |
| SplitView.SplitView.ComponentComplete | src/Ubuntu/UbuntuToolkit/splitview.cpp:432-437 | changeLayout outside any signal, then the view is complete |
| SplitView.SplitView.RecalculateWidths | src/Ubuntu/UbuntuToolkit/splitview.cpp:284-333 | the new model is AfterRecalculate: with no active layout, or an incomplete clean view, nothing changes; otherwise the fill-width columns that were not resized share the width left, in equal parts, a share applied only within a column's bounds, and dirty is cleared |
| SplitView.SplitView.StackFillColumns | src/Ubuntu/UbuntuToolkit/splitview.cpp:296-316 | the children, stack and fill width after the first loop are FirstPass of the old children |
| SplitView.SplitView.ShareFillWidth | src/Ubuntu/UbuntuToolkit/splitview.cpp:319-331 | the widths after the second loop are SecondPass of the old ones, and only the active layout changes |
| SplitView.SplitView.AttachedResize | src/Ubuntu/UbuntuToolkit/splitview.cpp:125-132 | the new model is AfterAttachedResize: the column resizes and the widths are recalculated |
| SplitView.SplitView.GeometryChanged | src/Ubuntu/UbuntuToolkit/splitview.cpp:439-448 | a change of width recalculates the fill widths only, no change changes nothing |
| SplitView.SplitView.DoPositioning | src/Ubuntu/UbuntuToolkit/splitview.cpp:353-404 | everything is recalculated, then the items are placed as PositionItems says |
| IconTheme.SizeTypeNames | modules/Ubuntu/Components/plugin/unitythemeiconprovider.cpp:112-122 | every size type reads back from its name, and any other name is Fixed |
| IconTheme.DirectoryFromIndex | modules/Ubuntu/Components/plugin/unitythemeiconprovider.cpp:93-100 | a directory takes its keys, with Type defaulting to Fixed, Size to 32, and MinSize, MaxSize and Threshold to 0 |
| IconTheme.DistanceByType | modules/Ubuntu/Components/plugin/unitythemeiconprovider.cpp:226-242 | a Fixed directory is as far as its size, a Scalable one as the distance to [MinSize, MaxSize], a Threshold one as the distance to Size ± Threshold |
| IconTheme.InvertedBand | modules/Ubuntu/Components/plugin/unitythemeiconprovider.cpp:234 | a Scalable directory whose MinSize exceeds its MaxSize is as far as MinSize |
| IconTheme.FileInBase | modules/Ubuntu/Components/plugin/unitythemeiconprovider.cpp:153-159 | the png when it exists, else the svg when that exists, else nothing |
| IconTheme.LookupIconFile | modules/Ubuntu/Components/plugin/unitythemeiconprovider.cpp:147-163 | a file found exists |
| IconTheme.LookupIconFileFinds | modules/Ubuntu/Components/plugin/unitythemeiconprovider.cpp:147-163 | nothing is found exactly when no base directory has the png or the svg |
| IconTheme.LookupIconFileIsFirst | modules/Ubuntu/Components/plugin/unitythemeiconprovider.cpp:147-163 | the file found is that of the first base directory that has one, the png preferred |
| IconTheme.BestMatchIndex | modules/Ubuntu/Components/plugin/unitythemeiconprovider.cpp:181-195 | a chosen directory is one of those scanned and holds the icon nearer than 10000 |
| IconTheme.BestMatchExists | modules/Ubuntu/Components/plugin/unitythemeiconprovider.cpp:181-195 | there is a best match exactly when some directory is a candidate |
| IconTheme.BestMatchIsNearest | modules/Ubuntu/Components/plugin/unitythemeiconprovider.cpp:181-195 | no candidate is nearer than the best match |
| IconTheme.BestMatchIsFirst | modules/Ubuntu/Components/plugin/unitythemeiconprovider.cpp:183-184 | every candidate before the best match is strictly farther: ties keep the first |
| IconTheme.BestMatchSettles | modules/Ubuntu/Components/plugin/unitythemeiconprovider.cpp:192-193 | a choice at distance 0 is never beaten, so stopping the loop there changes nothing |
| IconTheme.LargestIndex | modules/Ubuntu/Components/plugin/unitythemeiconprovider.cpp:208-218 | a chosen directory is one of those scanned, holds the icon and has a non-negative size |
| IconTheme.LargestExists | modules/Ubuntu/Components/plugin/unitythemeiconprovider.cpp:208-218 | there is a largest icon exactly when a directory of non-negative size holds it |
| IconTheme.LargestIsLargest | modules/Ubuntu/Components/plugin/unitythemeiconprovider.cpp:208-218 | no directory holding the icon is larger than the chosen one |
| IconTheme.LargestIsLast | modules/Ubuntu/Components/plugin/unitythemeiconprovider.cpp:210-211 | every holder after the chosen directory is strictly smaller: ties go to the later directory |
| IconTheme.LookupIconFound | modules/Ubuntu/Components/plugin/unitythemeiconprovider.cpp:165-224 | with a positive requested size an icon is found exactly when some directory is a candidate; at a size of 0 or less an icon needs a directory of non-negative size holding it, and one of positive size is enough |
| IconTheme.LargestAtZero | modules/Ubuntu/Components/plugin/unitythemeiconprovider.cpp:124-145 | when every holder has size 0, the icon is drawn at QSize(0, 0) from the last holder: a .png gives an icon, a .svg a null pixmap |
| IconTheme.IconOf | modules/Ubuntu/Components/plugin/unitythemeiconprovider.cpp:124-145 | the pixmap is null exactly when no file was found, or the file is a .svg and neither dimension asked for is positive; otherwise it is that file |
| IconTheme.LookupBestMatchingIcon | modules/Ubuntu/Components/plugin/unitythemeiconprovider.cpp:176-201 | the loop's pixmap is the best-matching icon as specified, loaded at the requested size |
| IconTheme.LookupLargestIcon | modules/Ubuntu/Components/plugin/unitythemeiconprovider.cpp:203-224 | the loop's pixmap is the largest icon as specified, loaded at its own size, so a .svg from a directory of size 0 is a null pixmap |
| IconTheme.FirstNamedFinds | modules/Ubuntu/Components/plugin/unitythemeiconprovider.cpp:53-57 | nothing is found exactly when the theme has none of the names |
| IconTheme.FirstNamedIsFirst | modules/Ubuntu/Components/plugin/unitythemeiconprovider.cpp:53-57 | the icon found is that of the first name the theme has |
| IconTheme.FirstParentFinds | modules/Ubuntu/Components/plugin/unitythemeiconprovider.cpp:59-63 | nothing is found in the parents exactly when the search fails in each of them |
| IconTheme.FirstParentIsFirst | modules/Ubuntu/Components/plugin/unitythemeiconprovider.cpp:59-63 | the first parent in which the search succeeds answers |
| IconTheme.OwnIconsFirst | modules/Ubuntu/Components/plugin/unitythemeiconprovider.cpp:51-66 | a theme that has any of the names answers itself, from the first such name, without consulting its parents |
| IconTheme.ParentsInOrder | modules/Ubuntu/Components/plugin/unitythemeiconprovider.cpp:51-66 | a theme with none of the names answers with the first parent in which the search succeeds, and with nothing when there is none |
| IconTheme.NoFuelNoParents | modules/Ubuntu/Components/plugin/unitythemeiconprovider.cpp:51-66 | at the fuel bound a theme with none of the names finds nothing |
| IconTheme.ThemeCache.constructor | modules/Ubuntu/Components/plugin/unitythemeiconprovider.cpp:37 | the cache starts empty |
| IconTheme.ThemeCache.Get | modules/Ubuntu/Components/plugin/unitythemeiconprovider.cpp:35-46 | a cached name returns its theme and changes nothing; a new name caches and returns the theme read from disk |
| IconTheme.CachedTwice | modules/Ubuntu/Components/plugin/unitythemeiconprovider.cpp:35-46 | asking twice for a theme returns the first theme built, whatever a second load would give |
| IconTheme.SplitNames | modules/Ubuntu/Components/plugin/unitythemeiconprovider.cpp:258 | every part is non-empty and holds no comma |
| IconTheme.SplitJoin | modules/Ubuntu/Components/plugin/unitythemeiconprovider.cpp:258 | splitting comma-joined names that are non-empty and hold no comma gives the names back |
| IconTheme.FirstCommaAfter | modules/Ubuntu/Components/plugin/unitythemeiconprovider.cpp:258 | the first comma after a comma-free head is at the head's length |
| IconTheme.SplitTrailingComma | modules/Ubuntu/Components/plugin/unitythemeiconprovider.cpp:258 | "b," splits into "b" alone: the empty part after the comma is dropped |
| IconTheme.SkipsEmptyParts | modules/Ubuntu/Components/plugin/unitythemeiconprovider.cpp:258 | "a,,b," splits into "a" and "b" |
| IconTheme.EmptyIdFindsNothing | modules/Ubuntu/Components/plugin/unitythemeiconprovider.cpp:256-261 | an id without any name finds nothing |
| IconTheme.EmptyNamesEverywhere | modules/Ubuntu/Components/plugin/unitythemeiconprovider.cpp:51-66 | no theme finds anything for an empty list of names |
| MenuBar.InsertAt | src/Ubuntu/Components/plugin/ucmenubar.cpp:48 | the list grows by one, x lands at the index, earlier elements stay and later ones move one place right |
| MenuBar.RemoveFirstAbsent | src/Ubuntu/Components/plugin/ucmenubar.cpp:73 | removing a menu that is not in the list leaves the list unchanged |
| MenuBar.RemoveFirstAt | src/Ubuntu/Components/plugin/ucmenubar.cpp:73 | with x first at position i, exactly that element goes and the others keep their order |
| MenuBar.RemoveFirstMultiset | src/Ubuntu/Components/plugin/ucmenubar.cpp:73 | one occurrence fewer of x, as many of everything else |
| MenuBar.RemoveInserted | src/Ubuntu/Components/plugin/ucmenubar.cpp:43-81 | inserting a menu that was not there and removing it gives the list back |
| MenuBar.UCMenuBar.constructor | src/Ubuntu/Components/plugin/ucmenubar.cpp:28-32 | a bar starts with no menus, no wrappers and no events |
| MenuBar.UCMenuBar.InsertMenuPrivate | src/Ubuntu/Components/plugin/ucmenubar.cpp:43-69 | the menu is inserted at the index; with a platform bar and a platform menu it gets a wrapper placed before the displaced menu's platform menu, otherwise the wrappers stay |
| MenuBar.UCMenuBar.RemoveMenuPrivate | src/Ubuntu/Components/plugin/ucmenubar.cpp:71-81 | the first occurrence goes, and so does the menu's wrapper |
| MenuBar.UCMenuBar.MenuAppend | src/Ubuntu/Components/plugin/ucmenubar.cpp:83-89 | the menu is appended through the private insert, with a wrapper at the end when it qualifies, and without menusChanged |
| MenuBar.UCMenuBar.MenuCount | src/Ubuntu/Components/plugin/ucmenubar.cpp:91-95 | the number of menus |
| MenuBar.UCMenuBar.MenuAt | src/Ubuntu/Components/plugin/ucmenubar.cpp:97-101 | the menu at the index, or null outside the list |
| MenuBar.UCMenuBar.MenuClear | src/Ubuntu/Components/plugin/ucmenubar.cpp:103-107 | the list empties and the wrappers stay |
| MenuBar.UCMenuBar.InsertMenu | src/Ubuntu/Components/plugin/ucmenubar.cpp:194-201 | a null menu is ignored; any other is inserted at the index and announced |
| MenuBar.UCMenuBar.AppendMenu | src/Ubuntu/Components/plugin/ucmenubar.cpp:184-188 | a null menu is ignored; any other is appended and announced |
| MenuBar.UCMenuBar.RemoveMenu | src/Ubuntu/Components/plugin/ucmenubar.cpp:207-214 | a null menu is ignored; any other loses its first occurrence and its wrapper, and the change is announced |
| MenuBar.UCMenuBar.MenuDestroyed | src/Ubuntu/Components/plugin/ucmenubar.cpp:62-67 | a destroyed menu's wrapper, if any, is removed; the list is left as it is |
| MenuBar.InsertThenRemove | src/Ubuntu/Components/plugin/ucmenubar.cpp:43-81 | inserting before the first of two wrapped menus places the wrapper before that menu's platform menu; removing it restores the list and drops the wrapper |
| ListViewExtensions.ListViewProxy.constructor | src/UbuntuToolkit/privates/listviewextensions.cpp:30-37 | the proxy records the view's orientation, count and current item, and takes the current item over at once: an enabled one receives the armed flag, which is then consumed |
| ListViewExtensions.ListViewProxy.SetKeyNavigationForListView | src/UbuntuToolkit/privates/listviewextensions.cpp:106-113 | only a current ListItem takes the flag; every other flag stays |
| ListViewExtensions.ListViewProxy.CurrentItemChanged | src/UbuntuToolkit/privates/listviewextensions.cpp:150-158 | the old current item loses key navigation, an enabled new one receives the armed flag, which is then consumed, and a disabled one leaves it armed |
| ListViewExtensions.ListViewProxy.OverrideItemNavigation | src/UbuntuToolkit/privates/listviewextensions.cpp:82-90 | the filter is installed or removed and the proxy records which |
| ListViewExtensions.ListViewProxy.Destroy | src/UbuntuToolkit/privates/listviewextensions.cpp:38-43 | the filter is removed only when the proxy recorded it as set |
| ListViewExtensions.ListViewProxy.KeyPressEvent | src/UbuntuToolkit/privates/listviewextensions.cpp:137-148 | up and down in a vertical view, left and right in a horizontal one, arm navigation; no key is consumed |
| ListViewExtensions.ListViewProxy.FocusInEvent | src/UbuntuToolkit/privates/listviewextensions.cpp:116-133 | a tab or backtab focus with no current item in a non-empty view makes index 0 current and gives its ListItem key navigation; otherwise nothing changes; the event is not consumed |
| ListViewExtensions.ListViewProxy.EventFilter | src/UbuntuToolkit/privates/listviewextensions.cpp:92-104 | focus-in and key-press go to their handlers, other events change nothing, and nothing is consumed |
| ListViewExtensions.SetItemNavigation | src/UbuntuToolkit/privates/listviewextensions.cpp:106-113 | a current ListItem gains an entry, and without one the flags stay |
| ListViewExtensions.NavigationHandedOver | src/UbuntuToolkit/privates/listviewextensions.cpp:150-158 | moving between ListItems, the old one loses key navigation; an enabled new one has it exactly when it was armed, a disabled one keeps what it had |
| ListViewExtensions.OtherItemsUntouched | src/UbuntuToolkit/privates/listviewextensions.cpp:150-158 | only the old and the new current item may change: every other ListItem keeps its flag |
| ListViewExtensions.DownThenTab | src/UbuntuToolkit/privates/listviewextensions.cpp:116-158 | a Down press in a vertical view arms navigation, and tabbing into the view then makes its first ListItem current with navigation on and the flag consumed, without consuming either event |
| ActionsProxy.ActionManagement.constructor | modules/Ubuntu/Components/plugin/adapters/actionsproxy_p.cpp:22-29 | the manager starts with its global context unpublished, no local context, nothing watched and no current context |
| ActionsProxy.ActionManagement.SetContextActive | modules/Ubuntu/Components/plugin/adapters/actionsproxy_p.cpp:86-132 | an unchanged value, or a context not watched, only sets the flag; a watched context that becomes active becomes current after the previous one is cleared and deactivated, and is published; a current one that becomes inactive is cleared |
| ActionsProxy.ActionManagement.HandleContextActivation | modules/Ubuntu/Components/plugin/adapters/actionsproxy_p.cpp:104-132 | an activation publishes the sender and makes it current, deactivating and clearing the previous one first; a deactivation while a context is current clears that context, whichever context sent it |
| ActionsProxy.ActionManagement.AddContext | modules/Ubuntu/Components/plugin/adapters/actionsproxy_p.cpp:61-72 | null and registered contexts are ignored; any other is registered and watched |
| ActionsProxy.ActionManagement.RemoveContext | modules/Ubuntu/Components/plugin/adapters/actionsproxy_p.cpp:74-83 | a null context is ignored; any other is deactivated, unwatched and unregistered; deactivating a watched active context clears the current context, whichever it is, and leaves none current; otherwise the current context and the trace are unchanged |
| ActionsProxy.RemoveActiveNonCurrent | modules/Ubuntu/Components/plugin/adapters/actionsproxy_p.cpp:74-132 | removing an active context that is not current clears the current one |
| ActionsProxy.ActionManagement.PublishGlobalContext | modules/Ubuntu/Components/plugin/adapters/actionsproxy_p.cpp:53-58 | the global context is published unless it is marked published |
| ActionsProxy.ActionManagement.Shutdown | modules/Ubuntu/Components/plugin/adapters/actionsproxy_p.cpp:30-39 | a current context is deactivated and cleared, then the global context is cleared; no context is current and no other context's activity changes |
| ActionsProxy.SwitchContexts | modules/Ubuntu/Components/plugin/adapters/actionsproxy_p.cpp:104-132 | activating one registered context and then another publishes the first, then clears and deactivates it before publishing the second |
| ActionsProxy.DeactivationFromAnotherContext | modules/Ubuntu/Components/plugin/adapters/actionsproxy_p.cpp:112-119 | a context already active when registered and deactivated later clears the current context, which itself stays active |
| ActionsProxy.PublishGlobalTwice | modules/Ubuntu/Components/plugin/adapters/actionsproxy_p.cpp:53-58 | since the published flag is never set, asking twice publishes the global context twice |
| Emulators.ToolbarDrags | tests/autopilot/ubuntuuitoolkit/emulators.py:234-256 | the closing drag is the opening drag reversed, both run down the toolbar's middle column, and a toolbar taller than one pixel is opened by dragging upwards |
| Emulators.Toolbar.constructor | tests/autopilot/ubuntuuitoolkit/emulators.py:217-218 | a toolbar starts with its opened state and rectangle and no gesture made |
| Emulators.Toolbar.Open | tests/autopilot/ubuntuuitoolkit/emulators.py:220-232 | the toolbar ends opened; it is dragged open only when it was closed |
| Emulators.Toolbar.Close | tests/autopilot/ubuntuuitoolkit/emulators.py:242-248 | the toolbar ends closed; it is dragged closed only when it was open |
| Emulators.Toolbar.ClickButton | tests/autopilot/ubuntuuitoolkit/emulators.py:258-284 | a missing button, and then a closed toolbar, raise their messages before any gesture; otherwise the pointer moves to the button, the toolbar is reopened if it closed meanwhile, and the button is clicked |
| Emulators.OpenTwiceCloseTwice | tests/autopilot/ubuntuuitoolkit/emulators.py:220-248 | opening twice and closing twice drags exactly once each way |
| Emulators.NextIndex | tests/autopilot/ubuntuuitoolkit/emulators.py:335-338 | the next tab button index stays in range, is one more than the current index, and wraps from the last index to the first |
| Emulators.StepsForward | tests/autopilot/ubuntuuitoolkit/emulators.py:134-146 | the number of next-tab steps from one index to another is below the tab count and reaches the target going round |
| Emulators.Advance | tests/autopilot/ubuntuuitoolkit/emulators.py:134-146 | advancing by fewer steps than the count stays in range and is the sum, less the count when it goes round |
| Emulators.AdvanceReaches | tests/autopilot/ubuntuuitoolkit/emulators.py:134-146 | advancing reaches the target exactly when the step count is the forward distance |
| Emulators.TabsView.constructor | tests/autopilot/ubuntuuitoolkit/emulators.py:294-315 | the tabs start with a valid selected index, not in selection mode and with no click made |
| Emulators.TabsView.SwitchToNextTab | tests/autopilot/ubuntuuitoolkit/emulators.py:321-333 | the tab bar is clicked into selection mode only when not already in it; then the next tab button is clicked and that tab becomes selected |
| Emulators.TabsView.SwitchToTabByIndex | tests/autopilot/ubuntuuitoolkit/emulators.py:121-146 | an index past the last tab raises "Tab index out of range." with no switch; a valid index ends selected after exactly the forward distance of switches, so none when already selected; a negative index, never reached, raises after count - 1 switches; the clicks are one on the tab bar when it was not in selection mode and a switch was made, then one tab button per switch, each the next tab |
| Emulators.TabsView.SwitchToPreviousTab | tests/autopilot/ubuntuuitoolkit/emulators.py:148-159 | the previous tab is selected, the last one when the first was selected, after count - 1 next-tab switches |
| Emulators.SelectedTabNoSwitch | tests/autopilot/ubuntuuitoolkit/emulators.py:134-146 | switching to the tab already selected makes no switch and no click |
| Emulators.CheckBox.constructor | tests/autopilot/ubuntuuitoolkit/emulators.py:391-392 | a check box starts in the given state with no click made |
| Emulators.CheckBox.ChangeState | tests/autopilot/ubuntuuitoolkit/emulators.py:414-426 | one click, and the state is negated |
| Emulators.CheckBox.Check | tests/autopilot/ubuntuuitoolkit/emulators.py:394-402 | the box ends checked; it is clicked only when it was unchecked |
| Emulators.CheckBox.Uncheck | tests/autopilot/ubuntuuitoolkit/emulators.py:404-412 | the box ends unchecked; it is clicked only when it was checked |
| Emulators.CheckTwiceUncheckTwice | tests/autopilot/ubuntuuitoolkit/emulators.py:394-412 | checking twice and unchecking twice clicks twice in all and leaves the box unchecked |
| Emulators.SwipesAsWrittenReversed | tests/autopilot/ubuntuuitoolkit/emulators.py:494-513 | for an item 80 wide at x = 100 the swipe as written goes left when asked for right, and right when asked for left |
| Emulators.SwipesGoTheirWay | tests/autopilot/ubuntuuitoolkit/emulators.py:494-513 | measured from the item's left edge, each swipe goes the way it names and both ends stay on the item, wherever the item is |
| Emulators.SwipesAgreeAtOrigin | tests/autopilot/ubuntuuitoolkit/emulators.py:494-513 | the swipes as written and as corrected agree for an item at the left edge of the screen |
| Emulators.ListItemEmpty.constructor | tests/autopilot/ubuntuuitoolkit/emulators.py:487-492 | an item starts with its name, removability, rectangle and height, not waiting for confirmation and with no gesture |
| Emulators.ListItemEmpty.SwipeToDelete | tests/autopilot/ubuntuuitoolkit/emulators.py:494-513 | an item that is not removable, and then an unknown direction, raise their messages without a gesture; a right or left swipe is made, with both ends measured from the item's edge as corrected (SwipeRight, SwipeLeft), and the item then waits for confirmation |
| Emulators.ListItemEmpty.ConfirmRemoval | tests/autopilot/ubuntuuitoolkit/emulators.py:515-524 | an item waiting for confirmation gets its confirm button clicked and collapses to height 0; any other raises its message and nothing changes |
| Emulators.SwipeThenConfirm | tests/autopilot/ubuntuuitoolkit/emulators.py:494-524 | confirming before swiping raises; confirming after a swipe removes the item |
| Pickers.ContainsAt | tests/autopilot/ubuntuuitoolkit/_custom_proxy_objects/pickers.py:62-67 | a mode holding a column name at any offset counts as naming that column |
| Pickers.ContainsNeedsFirst | tests/autopilot/ubuntuuitoolkit/_custom_proxy_objects/pickers.py:62-67 | a mode none of whose characters starts a column name does not name that column |
| Pickers.HoursPickerRefused | tests/autopilot/ubuntuuitoolkit/_custom_proxy_objects/pickers.py:47-49 | a picker in mode "Hours" is not a date picker, so picking a date with it raises |
| Pickers.ScrollFor | tests/autopilot/ubuntuuitoolkit/_custom_proxy_objects/pickers.py:94-104 | scrolling goes below exactly when the new value is larger, above exactly when it is smaller, and not at all exactly when they are equal |
| Pickers.ValueClicks | tests/autopilot/ubuntuuitoolkit/_custom_proxy_objects/pickers.py:94-104 | picking a value clicks at most once, and clicks nothing exactly when the value is already current |
| Pickers.DatePicker.constructor | tests/autopilot/ubuntuuitoolkit/_custom_proxy_objects/pickers.py:33-35 | a date picker starts with its mode and its columns' values and no click made |
| Pickers.DatePicker.PickDate | tests/autopilot/ubuntuuitoolkit/_custom_proxy_objects/pickers.py:37-104 | the new state and outcome are AfterPickDate: a mode that names no date column raises its message and nothing changes; otherwise the named columns are set in year, month, day order (the month as date.month - 1), and a column whose label is not found raises its not-found message |
| Pickers.PickDateFound | tests/autopilot/ubuntuuitoolkit/_custom_proxy_objects/pickers.py:37-104 | with every label found, picking succeeds and sets exactly the columns the mode names, each by the clicks that reach it, in year, month, day order |
| Pickers.PickDateRaises | tests/autopilot/ubuntuuitoolkit/_custom_proxy_objects/pickers.py:37-153 | picking raises exactly when a named month or day column needs a label that is not found; the message names the first such label and that column keeps its value |
| Pickers.DatePicker.GetDate | tests/autopilot/ubuntuuitoolkit/_custom_proxy_objects/pickers.py:106-115 | the date read back has the picker's 0-based month plus one |
| Pickers.PickThenGet | tests/autopilot/ubuntuuitoolkit/_custom_proxy_objects/pickers.py:37-115 | a picker of years, months and days gives back the date picked |
| Pickers.SwipesOpposite | tests/autopilot/ubuntuuitoolkit/_custom_proxy_objects/pickers.py:163-181 | the swipe towards one more element above retraces the one below, and with elements at least 2 high the swipe for below drags upwards |
| Pickers.DirectionOf | tests/autopilot/ubuntuuitoolkit/_custom_proxy_objects/pickers.py:124-153 | only "below" and "above" name a scroll direction |
| Pickers.PathView.constructor | tests/autopilot/ubuntuuitoolkit/_custom_proxy_objects/pickers.py:118-122 | a path view starts with its geometry, element count and the offset of the sought element, and no gesture |
| Pickers.PathView.SwipeToShowOneMore | tests/autopilot/ubuntuuitoolkit/_custom_proxy_objects/pickers.py:163-181 | one swipe is recorded and the sought element moves one place towards the view |
| Pickers.PathView.FindElement | tests/autopilot/ubuntuuitoolkit/_custom_proxy_objects/pickers.py:135-153 | an unknown direction raises before any swipe; otherwise the element found after k swipes ends the search after exactly k swipes in that direction, each moving the element one place, and an element never found raises its not-found message after count swipes |
| Pickers.PathView.SwipeChildIntoView | tests/autopilot/ubuntuuitoolkit/_custom_proxy_objects/pickers.py:184-205 | the element ends in view; a visible one causes no swipe, one below exactly its distance of swipes below, one above exactly its distance of swipes above |
| Pickers.PathView.ClickElement | tests/autopilot/ubuntuuitoolkit/_custom_proxy_objects/pickers.py:124-132 | an existing element is brought into view and clicked; an unknown direction raises with no gesture; a missing element found after k swipes is reached by those swipes, brought into view from where they left it and clicked; one never found raises its not-found message after count swipes, which leave it count places nearer, with no click |
| Pickers.ThreeAbove | tests/autopilot/ubuntuuitoolkit/_custom_proxy_objects/pickers.py:184-205 | an element three places above the view is brought in by three identical swipes above |
| TextField.Selected | tests/autopilot/ubuntuuitoolkit/_custom_proxy_objects/_textfield.py:103-104 | the selected text is part of the field's text, no longer than it |
| TextField.End | tests/autopilot/ubuntuuitoolkit/_custom_proxy_objects/_textfield.py:112-120 | after the End key the text is unchanged, the cursor is at its end and nothing is selected |
| TextField.Backspace | tests/autopilot/ubuntuuitoolkit/_custom_proxy_objects/_textfield.py:78-90 | backspace leaves no selection; it removes the selection when there is one, otherwise one character unless the cursor is at the start |
| TextField.TypeText | tests/autopilot/ubuntuuitoolkit/_custom_proxy_objects/_textfield.py:51-52 | typed text replaces the selection and the cursor ends just after it |
| TextField.SelectAllOf | tests/autopilot/ubuntuuitoolkit/_custom_proxy_objects/_textfield.py:93-101 | Select All leaves the text unchanged and selects all of it |
| TextField.AllSelected | tests/autopilot/ubuntuuitoolkit/_custom_proxy_objects/_textfield.py:103-104 | the whole text is selected exactly when the selection spans its length |
| TextField.TypeThenBackspace | tests/autopilot/ubuntuuitoolkit/_custom_proxy_objects/_textfield.py:122-129 | backspace right after typing one character gives back the field as it was |
| TextField.TypeAtEnd | tests/autopilot/ubuntuuitoolkit/_custom_proxy_objects/_textfield.py:46-52 | with the cursor at the end, typing appends the text |
| TextField.BackspaceAtEnd | tests/autopilot/ubuntuuitoolkit/_custom_proxy_objects/_textfield.py:78-85 | with the cursor at the end of a non-empty text, backspace drops the last character and leaves the cursor at the new end |
| TextField.BackspaceAll | tests/autopilot/ubuntuuitoolkit/_custom_proxy_objects/_textfield.py:86-90 | with all the text selected, backspace empties the field |
| TextField.TextField.constructor | tests/autopilot/ubuntuuitoolkit/_custom_proxy_objects/_textfield.py:32-34 | a field starts with its text, flags and keyboard kind and no gesture |
| TextField.TextField.PressBackspace | tests/autopilot/ubuntuuitoolkit/_custom_proxy_objects/_textfield.py:78-90 | one key press; an editable field answers it as backspace, a read-only one is unchanged |
| TextField.TextField.EnsureFocused | tests/autopilot/ubuntuuitoolkit/_custom_proxy_objects/_textfield.py:132-135 | the field ends focused and is clicked only when it was not focused |
| TextField.TextField.GoToEnd | tests/autopilot/ubuntuuitoolkit/_custom_proxy_objects/_textfield.py:112-120 | the End key is pressed and the cursor ends at the end of the unchanged text |
| TextField.TextField.DeleteOneCharacterUsingOsk | tests/autopilot/ubuntuuitoolkit/_custom_proxy_objects/_textfield.py:123-129 | one backspace is pressed; the call raises "Failed to delete one character." unless the text lost exactly one character |
| TextField.TextField.SelectAll | tests/autopilot/ubuntuuitoolkit/_custom_proxy_objects/_textfield.py:93-101 | the text ends all selected and unchanged; the context menu is used only when not all of it was selected, and otherwise nothing happens |
| TextField.TextField.ClearWithKeys | tests/autopilot/ubuntuuitoolkit/_custom_proxy_objects/_textfield.py:78-90 | an editable field ends empty; a read-only field keeps its text, and raises when that text is not empty, with the on-screen keyboard's message or the hardware one's; with the on-screen keyboard the field takes End and then one backspace per character, or a single one when read-only; with the hardware keyboard the text is selected with the context menu unless it already is, then BackSpace is pressed |
| TextField.TextField.ClickClearButton | tests/autopilot/ubuntuuitoolkit/_custom_proxy_objects/_textfield.py:70-75 | the field ends empty with its clear button shown; a hidden clear button is first brought up by clicking the field, which focuses it |
| TextField.TextField.Clear | tests/autopilot/ubuntuuitoolkit/_custom_proxy_objects/_textfield.py:55-63 | the field ends focused; the gestures are the focusing click, if needed, then ClearingTrace: none for an empty field, the clear button when the field has one, otherwise the keys; a non-empty field with a clear button, or editable, ends empty; a read-only one without a clear button raises with its text kept |
| TextField.ClearingChoice | tests/autopilot/ubuntuuitoolkit/_custom_proxy_objects/_textfield.py:58-63 | an empty field gets no clearing gesture; a non-empty one is cleared through its clear button exactly when it has one, and then that click comes last |
| TextField.TextField.Write | tests/autopilot/ubuntuuitoolkit/_custom_proxy_objects/_textfield.py:37-52 | the field is focused first; with clear the gestures are Clear's followed, unless Clear raised, by typing the text; without it, End is pressed only for a non-empty field and the text is typed; an editable field cleared first shows exactly the text, and appended to shows the old text followed by the new; a read-only field not cleared by its button keeps its text |
| TextField.AppendAfterGoingToEnd | tests/autopilot/ubuntuuitoolkit/_custom_proxy_objects/_textfield.py:46-52 | writing "c" without clearing into "ab" with the cursor at its start shows "abc" |
| Header.ShowDragAsWrittenMissesHeader | tests/autopilot/ubuntuuitoolkit/_custom_proxy_objects/_header.py:44-53 | for a header 50 wide at x = 100 the drag as written, at (x + width) // 2 = 75, lies outside the header's columns |
| Header.ShowDragWithinHeader | tests/autopilot/ubuntuuitoolkit/_custom_proxy_objects/_header.py:44-53 | the drag down the header's middle column stays within its columns, starts 5 below the top container's top and pulls down by the header's height |
| Header.ShowDragsAgreeAtOrigin | tests/autopilot/ubuntuuitoolkit/_custom_proxy_objects/_header.py:44-53 | the drag as written and as corrected agree for a header at the left edge |
| Header.NextTabIndex | tests/autopilot/ubuntuuitoolkit/_custom_proxy_objects/_header.py:147-152 | the next tab's index raises Python's modulo-by-zero error exactly when there are no tabs; otherwise it is in range, one more than the selected index, and the first after the last |
| Header.IterateNext | tests/autopilot/ubuntuuitoolkit/_custom_proxy_objects/_header.py:147-152 | any number of next-tab switches keeps the index in range |
| Header.IterateNextSplit | tests/autopilot/ubuntuuitoolkit/_custom_proxy_objects/_header.py:147-152 | switching a + b times is switching a times and then b times |
| Header.IterateNextClimbs | tests/autopilot/ubuntuuitoolkit/_custom_proxy_objects/_header.py:147-152 | below the last tab each switch moves exactly one tab on |
| Header.NextTabCycles | tests/autopilot/ubuntuuitoolkit/_custom_proxy_objects/_header.py:147-152 | switching to the next tab as many times as there are tabs comes back to the starting tab |
| Header.AppHeader.constructor | tests/autopilot/ubuntuuitoolkit/_custom_proxy_objects/_header.py:34-35 | a header starts with its geometry, flavour, buttons and selections and no gesture |
| Header.AppHeader.ShowIfNotVisible | tests/autopilot/ubuntuuitoolkit/_custom_proxy_objects/_header.py:37-53 | the header ends shown; it is dragged into view, once, exactly when y is not 0, at the corrected middle column of ShowDrag |
| Header.AppHeader.SwitchToSectionByIndex | tests/autopilot/ubuntuuitoolkit/_custom_proxy_objects/_header.py:56-77 | the header is shown; the deprecated header raises "Old header has no sections" and a missing section button its own message, with only the showing drag and no section change; otherwise the showing drag, if any, is followed by a click on the section button and that section is selected |
| Header.AppHeader.GetSelectedSectionIndex | tests/autopilot/ubuntuuitoolkit/_custom_proxy_objects/_header.py:80-85 | the deprecated header raises "Old header has no sections"; otherwise the selected section index |
| Header.AppHeader.ClickHeaderButton | tests/autopilot/ubuntuuitoolkit/_custom_proxy_objects/_header.py:87-99 | the header is shown; the deprecated header, a missing button and a hidden button each raise their own message after only the showing drag; the call succeeds exactly when the button exists and is visible, and then clicks it after the showing drag |
| Header.AppHeader.ClickBackButton | tests/autopilot/ubuntuuitoolkit/_custom_proxy_objects/_header.py:87-99 | the same as ClickHeaderButton, with the back button's three messages: only the showing drag on the raising paths, and then a click on the back button when it is present and visible |
| Header.AppHeader.ClickCustomBackButton | tests/autopilot/ubuntuuitoolkit/_custom_proxy_objects/_header.py:101-116 | the same as ClickHeaderButton, with the custom back button's three messages: only the showing drag on the raising paths, and then a click on the custom back button when it is present and visible |
| Header.AppHeader.SwitchToTabInDrawerByIndex | tests/autopilot/ubuntuuitoolkit/_custom_proxy_objects/_header.py:171-192 | without a drawer button it raises the no-tabs message with no gesture; otherwise the drawer button is clicked; an already selected index stops there, a missing tab button raises "Tab button i not found.", and a present one is clicked and selected |
| Header.AppHeader.SwitchToNextTab | tests/autopilot/ubuntuuitoolkit/_custom_proxy_objects/_header.py:126-152 | the header is shown; the deprecated header raises the no-tabs message without a TabBar and otherwise hands over to it, leaving the drawer selection alone; with no tabs the drawer path raises modulo by zero; without a tabs button it raises the no-tabs message; otherwise the drawer is opened for the tab (selectedIndex + 1) % count, which ends there when already selected, raises "Tab button i not found." when missing, and is otherwise clicked and selected; every path states its result and gestures |
| Header.AppHeader.SwitchToTabByIndex | tests/autopilot/ubuntuuitoolkit/_custom_proxy_objects/_header.py:155-169 | the header is shown; the deprecated header raises its message; without a tabs button the no-tabs message is raised; otherwise the drawer is opened, and an index already selected ends there, a missing tab button raises "Tab button i not found." and a present one is clicked and selected; every branch states its gestures |
| Header.AppHeader.GetActionButton | tests/autopilot/ubuntuuitoolkit/_custom_proxy_objects/_header.py:207-238 | the header's own action button is returned without a gesture; otherwise a missing overflow button and a hidden one raise their own messages without a gesture, and a visible one is clicked open and the overflow's button returned, or "Button not found in header or overflow" |
| Header.AppHeader.ClickActionButton | tests/autopilot/ubuntuuitoolkit/_custom_proxy_objects/_header.py:194-205 | the header is shown; a button in the header itself is clicked; a missing or hidden overflow raises its message; a visible overflow is clicked open, and its button is clicked or "Button not found in header or overflow" raised; every branch states its gestures |
| Header.NextTabWrapsAround | tests/autopilot/ubuntuuitoolkit/_custom_proxy_objects/_header.py:147-152 | in a drawer of three tabs with the last selected, switching to the next tab selects the first and clicks its button |

## Left out

General:
- Rendering, GPU and painting code (shaders, scene graph nodes, geometry, texture transforms, the divider's paint) is not modelled: it does not decide any of the state above.
- File reading, D-Bus, gettext, the QML engine and the platform menu bar are outside the model; what they report arrives as parameters (files that exist, directory listings, whether a platform menu exists).
- Qt signals and re-entrant slot calls are an appended event list; slots run at the point the signal is emitted, as with a direct connection.
- Timers, animations and synthesised input are events the caller delivers; an autopilot `wait_for` is taken to see the awaited value, so time-outs are not modelled.
- Floating point is `real`: no IEEE rounding, infinities or NaN. `qFuzzyCompare` is kept as Qt's relative tolerance, `|p1 - p2| * 100000 <= min(|p1|, |p2|)` (`Units.FuzzyEqual`, used by Units.UCUnits.SetGridUnit).
- QString::number formatting of non-integral values is not modelled; grid-unit suffixes are formatted from whole numbers.
- Log and debug output is not modelled.

UbuntuShape:
- `setSourceOpacity` packing and the source transform (texture coordinate arithmetic) are left out as floating-point rendering.

AbstractButton:
- AbstractButton.UCAbstractButton.AdjustSensingArea is run on completion, on a change of size and on a change of the sensing margins; the re-adjustment on a grid-unit change (the connect at ucabstractbutton.cpp:339) is not modelled as a connection; the minimum is read from the units object each time AdjustSensingArea runs, so a caller re-runs it after a grid-unit change.

ApiCheck:
- `main()` (engine start-up, qmldir and file reading, JSON output, the SIGSEGV handler) is left out as I/O.
- The meta-object data a dump reads (property and method lists) is given as sequences of records.

ListItem:
- The overshoot, tug threshold, snap positions and panel widths come from the style and the action panels, which are not part of this model; they are parameters.
- ListItem.UCListItem.constructor: the private constructor leaves `suppressClick` uninitialised, so its first value is a parameter.
- ListItem.UCListItem.GrabLeading and ListItem.UCListItem.GrabTrailing: `available` stands for both "the panel item could be created" and "no other item holds it" (uclistitemoptions.cpp:75-90), so a side with actions is marked as having a panel item even when its creation failed.
- The rebound and snap animations are recorded as a requested target; the animation itself is not modelled.
- ListItem.UCListItemDivider.SetVisible, SetLeftMargin and SetRightMargin require the divider to be attached, because they repaint through the list item without checking it (uclistitem.cpp:145-176).

MouseFilters:
- Mouse events carry only the information the handlers test (button, position flags, accepted); the button mask is a set of buttons because each event has one button.

BottomEdge:
- `isLocked()` and `setStatus` live in a private header that is not part of this model; the lock is a parameter of the progression update.
- UCBottomEdgeRange::dragInSection is not part of this model; a range is taken to hold the closed interval [from, to].
- The drag progress is a parameter of the progression update, and the panel's missing-style case (the code dereferences it unchecked) is not modelled.
- The hint's click-to-commit connection, the content setters and `itemChange` are not modelled.
- BottomEdge.UCBottomEdge.Commit and BottomEdge.UCBottomEdge.Collapse move the panel without re-running the progression update that the panel's yChanged triggers (ucbottomedge.cpp:196-201); the caller runs UpdateProgressionStates with the new drag progress.
- BottomEdge.UCBottomEdge.SetCommitPoint follows the corrected rule of the first finding below (AfterSetCommitPoint: only default ranges still in the list follow the point), not the program as written, whose handler writes into a range `qDeleteAll` freed; that use-after-free is stated by SetCommitPointAsWritten and BottomEdge.AsWrittenWritesDeletedRange.

BottomEdgeHint:
- The swipe gesture detector, the grid-unit listeners and the flickable event filter are not modelled; their outcomes arrive as the handler calls.
- Qt's delivery of the rest of a press after the press is ignored is not modelled.

SplitView:
- Layouts and their column lists are values held by the view; columns are appended through view methods on a layout index.
- The RelayoutOperation flags are two booleans, because their header is not part of this model.
- SplitView.SplitView.AttachedResize requires a column configuration, because the source dereferences it unchecked.
- The content height, and the base positioner that places items, are not modelled; only the width accumulation is.
- SplitView.SplitView.DoPositioning takes the widths of the items it positions as a parameter, not tied to the recalculated column widths, because the base positioner's item list is not modelled (splitview.cpp:353-400).

Units and LegacyUnits:
- `urlToLocalFileOrQrc` is not modelled: the local path is given with the URL.
- Resolving a relative path against the working directory is not modelled.
- The natural size and aspect scaling of the loaded image are not modelled.
- The window's "scale" property arrives already converted to a number, or none when it is not one.

IconTheme:
- Parent themes are followed to a depth bounded by `fuel`, because the source has no guard against inheritance cycles; a deeper inheritance chain is cut off.
- Parsing `index.theme` with QSettings, the search of the data directories for themes, and decoding or rendering the image are not modelled.
- IconTheme.IconOf: a file that exists always loads, so the null pixmap `loadIcon` returns for an unreadable file cannot arise. The .svg's default size is not modelled, so a scaled size that rounds to zero in one dimension only (a very thin drawing asked for a tiny size) is still taken to give an icon.

MenuBar:
- MenuBar.UCMenuBar.InsertMenu requires an index no larger than the menu count, as QList::insert does.
- The parent object given to appended menus, and the wrappers' own platform calls, are not modelled; a wrapper records the menu before which it was inserted.

ListViewExtensions:
- The initial values of `keyNavigation` and `isEventFilter` are set in a header that is not part of this model; they are constructor parameters.
- The ListItem repaint after a navigation change is not modelled.

ActionsProxy:
- ActionsProxy.ActionManagement.SetContextActive models UCActionContext::setActive, which is not part of this model: it is taken to announce only a change.
- The HUD's `publish` and `clear` are empty in the source; they are recorded in a trace, so what they would do is not modelled.
- ActionsProxy.ActionManagement.HandleContextActivation requires what the activation signal guarantees: the sender is watched, and an activation comes from a context that was not current.
- QPointer nulling on deletion and the manager's singleton instance are not modelled.

MathUtils:
- MathUtils.ProjectValue returns None for an empty interval (xmin == xmax), where JavaScript's division gives NaN or Infinity.

Emulators, Pickers, TextField, Header:
- Introspection lookups (`select_single`, `wait_select_single`) are sets of object names or flags; a missing object raises as in the source, and a path-view element that is not found within `count` swipes is given per column to Pickers.DatePicker.PickDate.
- Pickers: the year column is a list view in the application; its click is modelled as the same label click as the other columns and is taken to find its label, because the list view's `click_element` (_qquicklistview.py) is not part of this model.
- Pickers.PathView.SwipeChildIntoView and Pickers.PathView.FindElement take each swipe to move the sought element exactly one place; the source's loops (pickers.py:137-153, 199-205) have no such guarantee, and the model relies on it for the exact swipe count and for termination.
- Emulators.ListItemEmpty.SwipeToDelete follows the corrected rule of the second finding below (both ends of the drag measured from the item's edge, SwipeRight/SwipeLeft), not the drag to the absolute x = w the program makes; the as-written drags are SwipeRightAsWritten and SwipeLeftAsWritten.
- Header.AppHeader.ShowIfNotVisible, and through it Header.AppHeader.ClickHeaderButton, Header.AppHeader.ClickActionButton and the other helpers that show the header, follow the corrected rule of the third finding below (ShowDrag, the header's middle column x + width // 2), not `(x + width) // 2` as written, which is ShowDragAsWritten.
- Pickers: the validity of Python `datetime` values and the `_get_containers` walk are not modelled.
- TextField: where a click places the cursor is not modelled; End is sent as the same key by either keyboard.
- TextField.TextField.ClickClearButton empties the field even when it is read-only, as the button does in the application.
- Header: the top container and the flickable the header is linked to are taken to exist; the deprecated TabBar path is recorded as one gesture.
- Header: the modulo-by-zero message is Python 3's wording.
- Emulators.TabsView.Valid requires a selected tab, so a MainView without tabs, on which switch_to_tab_by_index raises "Tab index out of range." for every non-negative index (emulators.py:129-133), is not modelled.

## Findings

| source | as written | input that shows it | evidently intended | confidence | as-written member | corrected member |
|---|---|---|---|---|---|---|
| src/Ubuntu/Components/plugin/ucbottomedge.cpp:126-129 | the default range's commit-point handler captures the range, and the first appendRange deletes that range without disconnecting the handler | append one range from QML, then set the commit point to 0.5: the handler writes `m_to` of the deleted range | the handler follows only a default range that is still in the list | not executed | BottomEdge.AsWrittenWritesDeletedRange | BottomEdge.CommitPointFollowed |
| tests/autopilot/ubuntuuitoolkit/emulators.py:501-504 | swipe_to_delete drags to (or from) x = w, the item's width, as an absolute screen x | an item 80 wide at x = 100: the right swipe goes from 110 to 80, leftwards | both ends measured from the item's edge, x + w | not executed | Emulators.SwipesAsWrittenReversed | Emulators.SwipesGoTheirWay |
| tests/autopilot/ubuntuuitoolkit/_custom_proxy_objects/_header.py:49 | `_show` drags at x = (x + width) // 2 | a header 50 wide at x = 100: the drag is at x = 75, left of the header | the header's middle column, x + width // 2 | not executed | Header.ShowDragAsWrittenMissesHeader | Header.ShowDragWithinHeader |
