# Call-type icon strip (Dialer call log)

This project models `CallTypeIconsView`, the Android Dialer widget that draws a row of call-type
icons in a call-log entry: incoming, outgoing, missed, voicemail, video and IMS. The icons sit
side by side, left to right. The model covers three parts:

- **Classifiers.** `CallTypeIcon` maps a call-type code to its base (direction) icon. Unknown
  codes become the missed icon. `ImsIcon` maps the three IMS codes 5, 6 and 7 to the IMS icon and
  every other code to none.
- **Accumulated layout.** The view keeps four fields: the list of entries, the video flag and the
  running width and height. `CallLog.CallTypeIconsView` is a class with those fields. Its methods
  `Clear`, `Add`, `AddImsOrVideoIcon` and `SetShowVideo` update them in place. Each method
  promises that its new state equals a step function applied to the old state: `Cleared`,
  `Added`, `ImsOrVideoAdded` or `ShowVideoSet`. The lemmas about the layout are stated over those
  step functions. `AddedAll` describes a run of `add` calls.
- **Draw order.** `OnDraw` returns the list of draw commands `(icon, left, top, right, bottom)`
  instead of painting. Its two loops are the methods `DrawBaseIcons` and `DrawImsIcons`, with the
  optional video icon drawn between them. The result is proved equal to `DrawList`, which is the
  base pass plus the video pass plus the IMS pass.

Each icon image is reduced to its intrinsic width and height (`Drawable`). The resource bundle is
an immutable record (`Resources`) holding six images and the `iconMargin`. The carrier-mode flag
becomes a parameter of the constructor. The call-log codes `Calls.INCOMING_TYPE` to
`Calls.VOICEMAIL_TYPE` take their Android values 1 to 4. The IMS codes 5, 6 and 7 are the
constants declared in the view.

Behaviours of the code that the lemmas state exactly:

- `add` counts a margin after every base icon, but the video and IMS paths add none
  (`AddedFacts`, `ImsOrVideoAddedFacts`, `ShowVideoSetFacts`).
- Calling `setShowVideo(true)` twice counts the video width twice (`ShowVideoTwiceDoubleCounts`).
- The IMS pass never moves its cursor, so every IMS icon has the same bounds
  (`ImsPassSameLeft`).
- After clear, adds and then `setShowVideo(true)` outside carrier mode, the video icon ends
  exactly at the measured width and any IMS icon starts one margin past it
  (`VideoBindFitsMeasure`).
- After the same sequence in carrier mode, `setShowVideo(true)` adds no width
  (`CallTypeIconsView.java:118-120`), but the video icon is still drawn. It then ends one video
  width past the measured box (`CarrierVideoOverflowsMeasure`).

## Model

| member | source | states |
|---|---|---|
| `CallLog.CallTypeIcon` | src/com/android/dialer/calllog/CallTypeIconsView.java:148-167 | the base classifier is total and never yields the video or IMS icon |
| `CallLog.CallTypeIconCases` | src/com/android/dialer/calllog/CallTypeIconsView.java:148-167 | exactly 1 and 5 give incoming, 2 and 6 outgoing, 4 voicemail; every other code, including 3, 7 and unknown ones, gives missed |
| `CallLog.ImsVariantSharesBaseIcon` | src/com/android/dialer/calllog/CallTypeIconsView.java:150-158 | each IMS code uses the same image as its plain counterpart |
| `CallLog.ImsIcon` | src/com/android/dialer/calllog/CallTypeIconsView.java:100-109 | the IMS classifier yields either nothing or the IMS icon |
| `CallLog.ImsIconCases` | src/com/android/dialer/calllog/CallTypeIconsView.java:100-109 | the IMS icon comes exactly for codes 5, 6 and 7; every other code gives no icon |
| `CallLog.BaseExtentIsSum` | src/com/android/dialer/calllog/CallTypeIconsView.java:79 | the accumulated base advance equals the sum of the icon widths plus one margin per entry |
| `CallLog.MaxHeightIsMaximum` | src/com/android/dialer/calllog/CallTypeIconsView.java:80 | the running height is at least every entry's height and equal to one of them; it is 0 when there are no entries |
| `CallLog.ClearedFacts` | src/com/android/dialer/calllog/CallTypeIconsView.java:68-73 | clear empties the list and zeroes the size; it keeps the video flag, is idempotent and equals a fresh view apart from that flag |
| `CallLog.AddedFacts` | src/com/android/dialer/calllog/CallTypeIconsView.java:75-82 | add appends t as the last entry and keeps the earlier entries and the video flag; the width grows by exactly width(t) + margin, and the height becomes max(old height, height(t)) |
| `CallLog.AddedAllTracksEntries` | src/com/android/dialer/calllog/CallTypeIconsView.java:75-82 | a run of adds appends its codes, keeps the flag, adds their total advance to the width and raises the height to their tallest |
| `CallLog.AddedAllFromCleared` | src/com/android/dialer/calllog/CallTypeIconsView.java:68-82 | after clear and then adds only, the list equals the added codes, the width is the sum of the widths plus n margins, and the height is the tallest entry (0 if none) |
| `CallLog.ShowVideoSetFacts` | src/com/android/dialer/calllog/CallTypeIconsView.java:116-127 | setShowVideo always stores the flag and never touches the list; in carrier mode, or for false, the size is unchanged; otherwise it adds the video width with no margin and raises the height |
| `CallLog.ShowVideoTwiceDoubleCounts` | src/com/android/dialer/calllog/CallTypeIconsView.java:122-126 | two setShowVideo(true) calls outside carrier mode add the video width twice, so the call is not idempotent |
| `CallLog.ImsOrVideoAddedFacts` | src/com/android/dialer/calllog/CallTypeIconsView.java:84-98 | addImsOrVideoIcon stores the flag and never touches the list; true adds the video size, false adds the IMS size only for codes 5-7, and neither adds a margin |
| `CallLog.BasePassAt` | src/com/android/dialer/calllog/CallTypeIconsView.java:178-184 | the base pass draws one command per entry; command i is entry i's base icon at the advance of the entries before it |
| `CallLog.BasePassGeometry` | src/com/android/dialer/calllog/CallTypeIconsView.java:178-184 | base icon i has left = sum of (w_j + margin) over j < i, right = left + w_i, top 0 and bottom = its intrinsic height |
| `CallLog.ImsPassSameLeft` | src/com/android/dialer/calllog/CallTypeIconsView.java:195-202 | the IMS pass draws one IMS icon per IMS entry, and all of them have identical bounds at one cursor |
| `CallLog.DrawListShape` | src/com/android/dialer/calllog/CallTypeIconsView.java:176-203 | the draw list holds the base icons in entry order, then the video icon where the base pass ended (if shown), then the IMS icons all at the cursor after both passes |
| `CallLog.BaseIconFits` | src/com/android/dialer/calllog/CallTypeIconsView.java:178-184 | with a non-negative margin, each base icon lies between 0 and the end of the base pass and is no taller than the tallest entry |
| `CallLog.DrawWithVideoBounds` | src/com/android/dialer/calllog/CallTypeIconsView.java:176-203 | with the video icon shown, the base icons lie within the base pass, the video icon follows it, and the IMS icons start one margin after the video icon |
| `CallLog.VideoBindFitsMeasure` | src/com/android/dialer/calllog/CallTypeIconsView.java:116-127 | after clear, adds and then setShowVideo(true) outside carrier mode, every base icon and the video icon lies inside the measured box, the video icon ends exactly at the measured width, and the IMS icons start one margin past it |
| `CallLog.CarrierVideoOverflowsMeasure` | src/com/android/dialer/calllog/CallTypeIconsView.java:116-127 | after clear, adds and then setShowVideo(true) in carrier mode, the measured width is only the base advance; the video icon is drawn from there and ends one video width past the measured box |
| `CallLog.ImsBindFitsMeasure` | src/com/android/dialer/calllog/CallTypeIconsView.java:84-98 | after clear, adds and then addImsOrVideoIcon(t, false) with an IMS code t, every IMS icon starts at the end of the base pass, ends exactly at the measured width and fits the measured height |
| `CallLog.DrawBaseIcons` | src/com/android/dialer/calllog/CallTypeIconsView.java:177-184 | the first draw loop produces exactly the base pass and leaves the cursor at the total base advance |
| `CallLog.DrawImsIcons` | src/com/android/dialer/calllog/CallTypeIconsView.java:195-202 | the IMS draw loop produces exactly the IMS pass at the cursor it was given |
| `CallLog.CallTypeIconsView.constructor` | src/com/android/dialer/calllog/CallTypeIconsView.java:44-66 | a new view has no entries, the video flag off, a zero size, and the given resources and carrier mode |
| `CallLog.CallTypeIconsView.Clear` | src/com/android/dialer/calllog/CallTypeIconsView.java:68-73 | the new state is the old state cleared |
| `CallLog.CallTypeIconsView.Add` | src/com/android/dialer/calllog/CallTypeIconsView.java:75-82 | the new state is the old state with t added |
| `CallLog.CallTypeIconsView.AddImsOrVideoIcon` | src/com/android/dialer/calllog/CallTypeIconsView.java:84-98 | the new state is the old state after the video or IMS size step |
| `CallLog.CallTypeIconsView.SetShowVideo` | src/com/android/dialer/calllog/CallTypeIconsView.java:116-127 | the new state is the old state after the setShowVideo step for the view's carrier mode |
| `CallLog.CallTypeIconsView.IsVideoShown` | src/com/android/dialer/calllog/CallTypeIconsView.java:134-136 | returns the stored video flag |
| `CallLog.CallTypeIconsView.GetCount` | src/com/android/dialer/calllog/CallTypeIconsView.java:139-141 | returns the number of entries |
| `CallLog.CallTypeIconsView.GetCallType` | src/com/android/dialer/calllog/CallTypeIconsView.java:144-146 | returns the entry at an in-range index; for any other index it returns None, standing for the list's out-of-bounds failure |
| `CallLog.CallTypeIconsView.OnMeasure` | src/com/android/dialer/calllog/CallTypeIconsView.java:171-173 | reports the accumulated width and height verbatim |
| `CallLog.CallTypeIconsView.OnDraw` | src/com/android/dialer/calllog/CallTypeIconsView.java:176-203 | the commands drawn are exactly `DrawList` of the entries and the video flag |

## Left out

- Building the resource bundle is not modelled (`CallTypeIconsView.java:259-304`). It loads
  drawables, tints them with colour filters, rotates the arrow and scales the video bitmap with
  float arithmetic. These are Android framework calls and float numerics. The image sizes and the
  margin are given as parameters instead.
- The wifi-call image is loaded but never sized or drawn, so `Resources` has no field for it.
- `isCarrierOneEnabled` asks `CarrierAppUtils` for the carrier, which is a foreign call. It is
  replaced by the constructor's `carrierOneEnabled` parameter. The static flag is refreshed only
  after the bundle is built, and that affects only which video image is loaded. The model does not
  capture this ordering.
- `invalidate()`, the `Canvas`, and the side effects of `Drawable.setBounds` and `Drawable.draw`
  are not modelled. Painting becomes the returned list of draw commands.
- `OnDraw` builds its commands through the methods `DrawBaseIcons` and `DrawImsIcons`. The Java
  code runs both loops inline and paints as it goes. The order of the commands is the order of
  painting.
- `OnMeasure` ignores the measure specs and the `View` superclass, just as the source does not
  consult them. It returns the two values passed to `setMeasuredDimension`.
- All arithmetic uses unbounded integers. Java's 32-bit `int` overflow in the width and the cursor
  is not modelled, because real rows hold a handful of small icons.
- `Drawable` sizes are non-negative. Android's `-1` for "no intrinsic size" is not modelled,
  because every image in the bundle has a fixed size.
- `CallLog.BaseExtentMonotone`, `CallLog.BaseIconFits`, `CallLog.DrawWithVideoBounds` and
  `CallLog.VideoBindFitsMeasure` assume a non-negative `iconMargin`. The other members allow any
  integer margin.
