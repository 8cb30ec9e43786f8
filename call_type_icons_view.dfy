/** A model of the call-log row widget that draws a horizontal strip of
    call-type icons: the two call-type classifiers, the incrementally
    accumulated layout (entries, video flag, width, height) and the draw
    order computed when the strip is painted. Icon images are reduced to
    their intrinsic sizes and painting to a list of draw commands. */
module CallLog {

  // Call-type codes of the Android call log (CallLog.Calls).
  const INCOMING_TYPE := 1
  const OUTGOING_TYPE := 2
  const MISSED_TYPE := 3
  const VOICEMAIL_TYPE := 4
  // IMS variants, declared by the view itself.
  const INCOMING_IMS_TYPE := 5
  const OUTGOING_IMS_TYPE := 6
  const MISSED_IMS_TYPE := 7

  datatype Option<T> = None | Some(value: T)

  function Max(a: int, b: int): int { if a < b then b else a }

  /** An icon image, reduced to its intrinsic size in pixels. */
  datatype Drawable = Drawable(intrinsicWidth: nat, intrinsicHeight: nat)

  /** Which image of the resource bundle a draw command paints. */
  datatype Icon = Incoming | Outgoing | Missed | Voicemail | VideoCall | ImsCall

  /** The shared, read-only bundle of pre-styled images and the margin
      placed after each base icon. */
  datatype Resources = Resources(
    incoming: Drawable,
    outgoing: Drawable,
    missed: Drawable,
    voicemail: Drawable,
    videoCall: Drawable,
    imsCall: Drawable,
    iconMargin: int)
  {
    function Image(icon: Icon): Drawable {
      match icon
      case Incoming => incoming
      case Outgoing => outgoing
      case Missed => missed
      case Voicemail => voicemail
      case VideoCall => videoCall
      case ImsCall => imsCall
    }
  }

  predicate IsImsType(callType: int) {
    callType == INCOMING_IMS_TYPE || callType == OUTGOING_IMS_TYPE || callType == MISSED_IMS_TYPE
  }

  // ---------------------------------------------------------------------
  // Classifiers

  /** The base (call-direction) icon of a call type; unknown codes are
      shown as missed calls, so classification never fails. */
  function CallTypeIcon(callType: int): (icon: Icon)
    ensures icon != VideoCall && icon != ImsCall
  {
    if callType == INCOMING_TYPE || callType == INCOMING_IMS_TYPE then Incoming
    else if callType == OUTGOING_TYPE || callType == OUTGOING_IMS_TYPE then Outgoing
    else if callType == MISSED_TYPE || callType == MISSED_IMS_TYPE then Missed
    else if callType == VOICEMAIL_TYPE then Voicemail
    else Missed
  }

  /** The trailing IMS annotation of a call type, if it has one. */
  function ImsIcon(callType: int): (icon: Option<Icon>)
    ensures icon.Some? ==> icon.value == ImsCall
  {
    if IsImsType(callType) then Some(ImsCall) else None
  }

  function BaseDrawable(res: Resources, callType: int): Drawable {
    res.Image(CallTypeIcon(callType))
  }

  /** Each icon maps to exactly the codes listed for it, and every other
      code is classified as missed. */
  lemma CallTypeIconCases(callType: int)
    ensures CallTypeIcon(callType) == Incoming <==> callType == 1 || callType == 5
    ensures CallTypeIcon(callType) == Outgoing <==> callType == 2 || callType == 6
    ensures CallTypeIcon(callType) == Voicemail <==> callType == 4
    ensures CallTypeIcon(callType) == Missed <==> !(callType in {1, 2, 4, 5, 6})
    ensures !(1 <= callType <= 7) ==> CallTypeIcon(callType) == Missed
  {
  }

  /** An IMS variant sizes and draws exactly like its plain counterpart. */
  lemma ImsVariantSharesBaseIcon(res: Resources)
    ensures BaseDrawable(res, INCOMING_IMS_TYPE) == BaseDrawable(res, INCOMING_TYPE) == res.incoming
    ensures BaseDrawable(res, OUTGOING_IMS_TYPE) == BaseDrawable(res, OUTGOING_TYPE) == res.outgoing
    ensures BaseDrawable(res, MISSED_IMS_TYPE) == BaseDrawable(res, MISSED_TYPE) == res.missed
  {
  }

  /** Only the three IMS codes carry the IMS icon. */
  lemma ImsIconCases(callType: int)
    ensures ImsIcon(callType) == Some(ImsCall) <==> callType in {5, 6, 7}
    ensures ImsIcon(callType) == None <==> !(callType in {5, 6, 7})
  {
  }

  // ---------------------------------------------------------------------
  // Accumulated layout

  /** Amount one base entry adds to the measured width and to the drawing
      cursor: its width plus one margin. */
  function Advance(res: Resources, callType: int): int {
    BaseDrawable(res, callType).intrinsicWidth + res.iconMargin
  }

  /** Sum of the advances of the entries: where the cursor stands after
      the base pass. */
  function BaseExtent(res: Resources, ts: seq<int>): int
    decreases |ts|
  {
    if ts == [] then 0 else BaseExtent(res, ts[..|ts| - 1]) + Advance(res, ts[|ts| - 1])
  }

  /** Sum of the intrinsic widths of the entries' base icons. */
  function SumWidths(res: Resources, ts: seq<int>): nat
    decreases |ts|
  {
    if ts == [] then 0 else BaseDrawable(res, ts[0]).intrinsicWidth + SumWidths(res, ts[1..])
  }

  /** Running maximum of the entries' base icon heights, 0 for none. */
  function MaxHeight(res: Resources, ts: seq<int>): nat
    decreases |ts|
  {
    if ts == [] then 0 else Max(MaxHeight(res, ts[..|ts| - 1]), BaseDrawable(res, ts[|ts| - 1]).intrinsicHeight)
  }

  lemma {:induction false} SumWidthsSnoc(res: Resources, ts: seq<int>, t: int)
    ensures SumWidths(res, ts + [t]) == SumWidths(res, ts) + BaseDrawable(res, t).intrinsicWidth
    decreases |ts|
  {
    if ts != [] {
      assert (ts + [t])[1..] == ts[1..] + [t];
      SumWidthsSnoc(res, ts[1..], t);
    }
  }

  lemma MulSucc(n: int, m: int)
    ensures (n + 1) * m == n * m + m
  {
  }

  /** The cursor after the base pass is the sum of the widths plus one
      margin per entry. */
  lemma {:induction false} BaseExtentIsSum(res: Resources, ts: seq<int>)
    ensures BaseExtent(res, ts) == SumWidths(res, ts) + |ts| * res.iconMargin
    decreases |ts|
  {
    if ts != [] {
      var p, t := ts[..|ts| - 1], ts[|ts| - 1];
      assert ts == p + [t];
      BaseExtentIsSum(res, p);
      SumWidthsSnoc(res, p, t);
      MulSucc(|p|, res.iconMargin);
    }
  }

  /** MaxHeight bounds every entry's height and is attained by one of
      them; it is 0 exactly for the empty list of entries. */
  lemma {:induction false} MaxHeightIsMaximum(res: Resources, ts: seq<int>)
    ensures forall i :: 0 <= i < |ts| ==> BaseDrawable(res, ts[i]).intrinsicHeight <= MaxHeight(res, ts)
    ensures ts == [] ==> MaxHeight(res, ts) == 0
    ensures ts != [] ==> exists i :: 0 <= i < |ts| && MaxHeight(res, ts) == BaseDrawable(res, ts[i]).intrinsicHeight
    decreases |ts|
  {
    if ts != [] {
      var p, n := ts[..|ts| - 1], |ts| - 1;
      MaxHeightIsMaximum(res, p);
      assert forall i :: 0 <= i < n ==> ts[i] == p[i];
      if MaxHeight(res, ts) != BaseDrawable(res, ts[n]).intrinsicHeight {
        var j :| 0 <= j < |p| && MaxHeight(res, p) == BaseDrawable(res, p[j]).intrinsicHeight;
        assert ts[j] == p[j];
      }
    }
  }

  /** With a non-negative margin the cursor only moves right. */
  lemma {:induction false} BaseExtentMonotone(res: Resources, ts: seq<int>, k: nat)
    requires res.iconMargin >= 0
    requires k <= |ts|
    ensures 0 <= BaseExtent(res, ts[..k]) <= BaseExtent(res, ts)
    decreases |ts|
  {
    if k < |ts| {
      var p := ts[..|ts| - 1];
      assert ts[..k] == p[..k];
      BaseExtentMonotone(res, p, k);
    } else {
      assert ts[..k] == ts;
      if ts != [] {
        BaseExtentMonotone(res, ts[..|ts| - 1], |ts| - 1);
        assert ts[..|ts| - 1][..|ts| - 1] == ts[..|ts| - 1];
      }
    }
  }

  /** The view's layout state: the entries, the video flag and the
      running measured width and height. */
  datatype Layout = Layout(callTypes: seq<int>, showVideo: bool, width: int, height: int)

  /** State of a freshly constructed view. */
  function Initial(): Layout { Layout([], false, 0, 0) }

  /** clear(): drops the entries and the size; the video flag stays. */
  function Cleared(s: Layout): Layout {
    s.(callTypes := [], width := 0, height := 0)
  }

  /** add(t): appends t and grows the size by its base icon plus a margin. */
  function Added(res: Resources, s: Layout, t: int): Layout {
    s.(callTypes := s.callTypes + [t],
       width := s.width + Advance(res, t),
       height := Max(s.height, BaseDrawable(res, t).intrinsicHeight))
  }

  /** addImsOrVideoIcon(t, b): stores b; then grows the size by the video
      icon (b) or by the IMS icon of t if t has one (not b), never adding
      a margin. */
  function ImsOrVideoAdded(res: Resources, s: Layout, t: int, showVideo: bool): Layout {
    var s1 := s.(showVideo := showVideo);
    if showVideo then
      s1.(width := s1.width + res.videoCall.intrinsicWidth,
          height := Max(s1.height, res.videoCall.intrinsicHeight))
    else match ImsIcon(t)
      case Some(icon) =>
        s1.(width := s1.width + res.Image(icon).intrinsicWidth,
            height := Max(s1.height, res.Image(icon).intrinsicHeight))
      case None => s1
  }

  /** setShowVideo(b): stores b; outside carrier mode, b grows the size by
      the video icon without a margin. */
  function ShowVideoSet(res: Resources, carrierOneEnabled: bool, s: Layout, showVideo: bool): Layout {
    var s1 := s.(showVideo := showVideo);
    if carrierOneEnabled || !showVideo then s1
    else s1.(width := s1.width + res.videoCall.intrinsicWidth,
             height := Max(s1.height, res.videoCall.intrinsicHeight))
  }

  /** The state after add(t) for each t of ts in turn. */
  function AddedAll(res: Resources, s: Layout, ts: seq<int>): Layout
    decreases |ts|
  {
    if ts == [] then s else Added(res, AddedAll(res, s, ts[..|ts| - 1]), ts[|ts| - 1])
  }

  /** clear() is idempotent, leaves the video flag, and a cleared view
      equals a fresh one except for that flag. */
  lemma ClearedFacts(s: Layout)
    ensures Cleared(Cleared(s)) == Cleared(s)
    ensures Cleared(s).showVideo == s.showVideo
    ensures Cleared(s).callTypes == [] && Cleared(s).width == 0 && Cleared(s).height == 0
    ensures Cleared(s) == Initial().(showVideo := s.showVideo)
  {
  }

  /** add(t) appends t, keeps every earlier entry and the video flag, and
      grows the width by exactly Advance(t). */
  lemma AddedFacts(res: Resources, s: Layout, t: int)
    ensures |Added(res, s, t).callTypes| == |s.callTypes| + 1
    ensures Added(res, s, t).callTypes[|s.callTypes|] == t
    ensures forall i :: 0 <= i < |s.callTypes| ==> Added(res, s, t).callTypes[i] == s.callTypes[i]
    ensures Added(res, s, t).showVideo == s.showVideo
    ensures Added(res, s, t).width - s.width == BaseDrawable(res, t).intrinsicWidth + res.iconMargin
    ensures Added(res, s, t).height == Max(s.height, BaseDrawable(res, t).intrinsicHeight)
  {
  }

  /** After a run of add calls the entries grow by exactly those added,
      the width by their advances and the height to their tallest. */
  lemma {:induction false} AddedAllTracksEntries(res: Resources, s: Layout, ts: seq<int>)
    requires s.height >= 0
    ensures AddedAll(res, s, ts).callTypes == s.callTypes + ts
    ensures AddedAll(res, s, ts).showVideo == s.showVideo
    ensures AddedAll(res, s, ts).width == s.width + BaseExtent(res, ts)
    ensures AddedAll(res, s, ts).height == Max(s.height, MaxHeight(res, ts))
    decreases |ts|
  {
    if ts == [] {
      assert s.callTypes + ts == s.callTypes;
    } else {
      var p, t := ts[..|ts| - 1], ts[|ts| - 1];
      AddedAllTracksEntries(res, s, p);
      assert (s.callTypes + p) + [t] == s.callTypes + ts;
    }
  }

  /** Starting from a cleared view and applying only add: the entries are
      exactly those added, the width is the sum of the widths plus one
      margin per entry, and the height is the tallest entry (0 for none). */
  lemma AddedAllFromCleared(res: Resources, s: Layout, ts: seq<int>)
    ensures AddedAll(res, Cleared(s), ts).callTypes == ts
    ensures AddedAll(res, Cleared(s), ts).showVideo == s.showVideo
    ensures AddedAll(res, Cleared(s), ts).width == BaseExtent(res, ts) == SumWidths(res, ts) + |ts| * res.iconMargin
    ensures AddedAll(res, Cleared(s), ts).height == MaxHeight(res, ts)
  {
    AddedAllTracksEntries(res, Cleared(s), ts);
    BaseExtentIsSum(res, ts);
  }

  /** setShowVideo stores the flag; only outside carrier mode and only
      for true does it grow the size, and then by the bare video icon. */
  lemma ShowVideoSetFacts(res: Resources, carrierOneEnabled: bool, s: Layout, showVideo: bool)
    ensures ShowVideoSet(res, carrierOneEnabled, s, showVideo).showVideo == showVideo
    ensures ShowVideoSet(res, carrierOneEnabled, s, showVideo).callTypes == s.callTypes
    ensures carrierOneEnabled || !showVideo ==>
      ShowVideoSet(res, carrierOneEnabled, s, showVideo).width == s.width &&
      ShowVideoSet(res, carrierOneEnabled, s, showVideo).height == s.height
    ensures !carrierOneEnabled && showVideo ==>
      ShowVideoSet(res, carrierOneEnabled, s, showVideo).width == s.width + res.videoCall.intrinsicWidth &&
      ShowVideoSet(res, carrierOneEnabled, s, showVideo).height == Max(s.height, res.videoCall.intrinsicHeight)
  {
  }

  /** Two setShowVideo(true) calls outside carrier mode count the video
      icon twice: the operation is not idempotent. */
  lemma ShowVideoTwiceDoubleCounts(res: Resources, s: Layout)
    ensures ShowVideoSet(res, false, ShowVideoSet(res, false, s, true), true).width
         == s.width + 2 * res.videoCall.intrinsicWidth
    ensures res.videoCall.intrinsicWidth > 0 ==>
      ShowVideoSet(res, false, ShowVideoSet(res, false, s, true), true) != ShowVideoSet(res, false, s, true)
  {
  }

  /** addImsOrVideoIcon stores the flag, never touches the entries, and
      grows the width by the bare video icon, the bare IMS icon, or not at
      all. */
  lemma ImsOrVideoAddedFacts(res: Resources, s: Layout, t: int, showVideo: bool)
    ensures ImsOrVideoAdded(res, s, t, showVideo).showVideo == showVideo
    ensures ImsOrVideoAdded(res, s, t, showVideo).callTypes == s.callTypes
    ensures showVideo ==>
      ImsOrVideoAdded(res, s, t, showVideo).width == s.width + res.videoCall.intrinsicWidth &&
      ImsOrVideoAdded(res, s, t, showVideo).height == Max(s.height, res.videoCall.intrinsicHeight)
    ensures !showVideo && IsImsType(t) ==>
      ImsOrVideoAdded(res, s, t, showVideo).width == s.width + res.imsCall.intrinsicWidth &&
      ImsOrVideoAdded(res, s, t, showVideo).height == Max(s.height, res.imsCall.intrinsicHeight)
    ensures !showVideo && !IsImsType(t) ==>
      ImsOrVideoAdded(res, s, t, showVideo).width == s.width &&
      ImsOrVideoAdded(res, s, t, showVideo).height == s.height
  {
  }

  // ---------------------------------------------------------------------
  // Draw order

  /** One icon painted with bounds (left, top, right, bottom). */
  datatype DrawCommand = DrawCommand(icon: Icon, left: int, top: int, right: int, bottom: int)

  /** Bounds of an icon painted at cursor `left`: from the top edge, its
      own intrinsic width and height. */
  function Place(res: Resources, icon: Icon, left: int): DrawCommand {
    DrawCommand(icon, left, 0, left + res.Image(icon).intrinsicWidth, res.Image(icon).intrinsicHeight)
  }

  /** First pass: each entry's base icon, placed at the cursor left by
      the entries before it. */
  function BasePass(res: Resources, ts: seq<int>): seq<DrawCommand>
    decreases |ts|
  {
    if ts == [] then []
    else
      var p := ts[..|ts| - 1];
      BasePass(res, p) + [Place(res, CallTypeIcon(ts[|ts| - 1]), BaseExtent(res, p))]
  }

  /** Second pass: the video icon where the base pass ended, if shown. */
  function VideoPass(res: Resources, showVideo: bool, left: int): seq<DrawCommand> {
    if showVideo then [Place(res, VideoCall, left)] else []
  }

  /** Cursor at the start of the IMS pass: after the base icons and, when
      shown, after the video icon and one margin. */
  function ImsCursor(res: Resources, ts: seq<int>, showVideo: bool): int {
    BaseExtent(res, ts) + if showVideo then res.videoCall.intrinsicWidth + res.iconMargin else 0
  }

  /** Third pass: one IMS icon per IMS entry, in entry order, every one at
      the same cursor `left` (the pass never moves it). */
  function ImsPass(res: Resources, ts: seq<int>, left: int): seq<DrawCommand>
    decreases |ts|
  {
    if ts == [] then []
    else
      var icon := ImsIcon(ts[|ts| - 1]);
      ImsPass(res, ts[..|ts| - 1], left) + if icon.Some? then [Place(res, icon.value, left)] else []
  }

  /** Number of IMS entries. */
  function ImsCount(ts: seq<int>): nat
    decreases |ts|
  {
    if ts == [] then 0 else (if IsImsType(ts[0]) then 1 else 0) + ImsCount(ts[1..])
  }

  /** Everything painted, in order. */
  function DrawList(res: Resources, ts: seq<int>, showVideo: bool): seq<DrawCommand> {
    BasePass(res, ts)
      + VideoPass(res, showVideo, BaseExtent(res, ts))
      + ImsPass(res, ts, ImsCursor(res, ts, showVideo))
  }

  lemma BaseExtentSnoc(res: Resources, ts: seq<int>, t: int)
    ensures BaseExtent(res, ts + [t]) == BaseExtent(res, ts) + Advance(res, t)
  {
    assert (ts + [t])[..|ts|] == ts;
  }

  lemma BaseExtentPrefixStep(res: Resources, ts: seq<int>, k: nat)
    requires k < |ts|
    ensures BaseExtent(res, ts[..k + 1]) == BaseExtent(res, ts[..k]) + Advance(res, ts[k])
  {
    assert ts[..k + 1][..k] == ts[..k];
  }

  lemma BasePassSnoc(res: Resources, ts: seq<int>, t: int)
    ensures BasePass(res, ts + [t]) == BasePass(res, ts) + [Place(res, CallTypeIcon(t), BaseExtent(res, ts))]
  {
    assert (ts + [t])[..|ts|] == ts;
  }

  /** Entry i's base icon is command i of the base pass, at the cursor
      left by the entries before it. */
  lemma {:induction false} BasePassAt(res: Resources, ts: seq<int>, i: nat)
    requires i < |ts|
    ensures |BasePass(res, ts)| == |ts|
    ensures BasePass(res, ts)[i] == Place(res, CallTypeIcon(ts[i]), BaseExtent(res, ts[..i]))
    decreases |ts|
  {
    var p := ts[..|ts| - 1];
    if i < |p| {
      BasePassAt(res, p, i);
      assert p[..i] == ts[..i];
    } else if p != [] {
      BasePassAt(res, p, 0);
    }
  }

  lemma ImsPassSnoc(res: Resources, ts: seq<int>, t: int, left: int)
    ensures ImsPass(res, ts + [t], left)
         == ImsPass(res, ts, left) + if IsImsType(t) then [Place(res, ImsCall, left)] else []
  {
    assert (ts + [t])[..|ts|] == ts;
  }

  lemma {:induction false} ImsCountSnoc(ts: seq<int>, t: int)
    ensures ImsCount(ts + [t]) == ImsCount(ts) + if IsImsType(t) then 1 else 0
    decreases |ts|
  {
    if ts != [] {
      assert (ts + [t])[1..] == ts[1..] + [t];
      ImsCountSnoc(ts[1..], t);
    }
  }

  /** The i-th base icon starts at the sum of (width + margin) of the
      entries before it and spans its own intrinsic size. */
  lemma BasePassGeometry(res: Resources, ts: seq<int>, i: nat)
    requires i < |ts|
    ensures |BasePass(res, ts)| == |ts|
    ensures BasePass(res, ts)[i].icon == CallTypeIcon(ts[i])
    ensures BasePass(res, ts)[i].left == SumWidths(res, ts[..i]) + i * res.iconMargin
    ensures BasePass(res, ts)[i].right == BasePass(res, ts)[i].left + BaseDrawable(res, ts[i]).intrinsicWidth
    ensures BasePass(res, ts)[i].top == 0
    ensures BasePass(res, ts)[i].bottom == BaseDrawable(res, ts[i]).intrinsicHeight
  {
    BasePassAt(res, ts, i);
    BaseExtentIsSum(res, ts[..i]);
  }

  /** The IMS pass paints one IMS icon per IMS entry, all with identical
      bounds starting at the same cursor. */
  lemma {:induction false} ImsPassSameLeft(res: Resources, ts: seq<int>, left: int)
    ensures |ImsPass(res, ts, left)| == ImsCount(ts)
    ensures forall k :: 0 <= k < |ImsPass(res, ts, left)| ==> ImsPass(res, ts, left)[k] == Place(res, ImsCall, left)
    decreases |ts|
  {
    if ts != [] {
      var p, t := ts[..|ts| - 1], ts[|ts| - 1];
      assert ts == p + [t];
      ImsPassSameLeft(res, p, left);
      ImsCountSnoc(p, t);
    }
  }

  /** Shape of the whole draw list: the base icons in entry order, the
      video icon at the end of the base pass when shown, then the IMS icons
      all at the single cursor after the base and video passes. */
  lemma DrawListShape(res: Resources, ts: seq<int>, showVideo: bool)
    ensures var d := DrawList(res, ts, showVideo);
      var v := if showVideo then 1 else 0;
      && |d| == |ts| + v + ImsCount(ts)
      && (forall i :: 0 <= i < |ts| ==> d[i].icon == CallTypeIcon(ts[i]) && d[i].left == BaseExtent(res, ts[..i]))
      && (showVideo ==> d[|ts|] == Place(res, VideoCall, BaseExtent(res, ts)))
      && (forall k :: |ts| + v <= k < |d| ==> d[k] == Place(res, ImsCall, ImsCursor(res, ts, showVideo)))
  {
    ImsPassSameLeft(res, ts, ImsCursor(res, ts, showVideo));
    if ts != [] {
      BasePassAt(res, ts, 0);
    }
    forall i | 0 <= i < |ts|
      ensures BasePass(res, ts)[i].icon == CallTypeIcon(ts[i]) && BasePass(res, ts)[i].left == BaseExtent(res, ts[..i])
    {
      BasePassAt(res, ts, i);
    }
  }

  /** With a non-negative margin every base icon lies between 0 and the
      end of the base pass, and no taller than the tallest entry. */
  lemma BaseIconFits(res: Resources, ts: seq<int>, k: nat)
    requires res.iconMargin >= 0
    requires k < |ts|
    ensures |BasePass(res, ts)| == |ts|
    ensures 0 <= BasePass(res, ts)[k].left
    ensures BasePass(res, ts)[k].right <= BaseExtent(res, ts)
    ensures BasePass(res, ts)[k].top == 0
    ensures BasePass(res, ts)[k].bottom <= MaxHeight(res, ts)
  {
    BasePassAt(res, ts, k);
    MaxHeightIsMaximum(res, ts);
    BaseExtentMonotone(res, ts, k + 1);
    BaseExtentMonotone(res, ts, k);
    BaseExtentPrefixStep(res, ts, k);
  }

  /** With the video icon shown and a non-negative margin, the base icons
      lie within the base pass, the video icon follows it, and the IMS
      icons start one margin after the video icon. */
  lemma DrawWithVideoBounds(res: Resources, ts: seq<int>)
    requires res.iconMargin >= 0
    ensures |DrawList(res, ts, true)| > |ts|
    ensures DrawList(res, ts, true)[|ts|] == Place(res, VideoCall, BaseExtent(res, ts))
    ensures 0 <= BaseExtent(res, ts)
    ensures forall k :: 0 <= k < |ts| ==>
      var c := DrawList(res, ts, true)[k];
      0 <= c.left && c.right <= BaseExtent(res, ts) && c.top == 0 && c.bottom <= MaxHeight(res, ts)
    ensures forall k :: |ts| < k < |DrawList(res, ts, true)| ==>
      DrawList(res, ts, true)[k].left == BaseExtent(res, ts) + res.videoCall.intrinsicWidth + res.iconMargin
  {
    var base, video := BasePass(res, ts), VideoPass(res, true, BaseExtent(res, ts));
    var ims := ImsPass(res, ts, ImsCursor(res, ts, true));
    if ts != [] {
      BasePassAt(res, ts, 0);
    }
    assert |base| == |ts|;
    BaseExtentMonotone(res, ts, 0);
    ImsPassSameLeft(res, ts, ImsCursor(res, ts, true));
    var d := DrawList(res, ts, true);
    assert d == base + video + ims;
    forall k | 0 <= k < |ts|
      ensures 0 <= d[k].left && d[k].right <= BaseExtent(res, ts) && d[k].top == 0 && d[k].bottom <= MaxHeight(res, ts)
    {
      BaseIconFits(res, ts, k);
      assert d[k] == base[k];
    }
    forall k | |ts| < k < |d|
      ensures d[k].left == BaseExtent(res, ts) + res.videoCall.intrinsicWidth + res.iconMargin
    {
      assert d[k] == ims[k - |ts| - 1];
    }
  }

  /** A row bound as clear, add for each entry, setShowVideo(true) outside
      carrier mode: the base icons and the video icon all fit in the
      measured box and the video icon ends exactly at the measured width,
      while any IMS icon starts one margin beyond it. */
  lemma VideoBindFitsMeasure(res: Resources, s: Layout, ts: seq<int>)
    requires res.iconMargin >= 0
    ensures var m := ShowVideoSet(res, false, AddedAll(res, Cleared(s), ts), true);
      var d := DrawList(res, m.callTypes, m.showVideo);
      && |d| > |ts|
      && d[|ts|].icon == VideoCall && d[|ts|].right == m.width
      && (forall k :: 0 <= k <= |ts| ==>
            0 <= d[k].left && d[k].right <= m.width && d[k].top == 0 && d[k].bottom <= m.height)
      && (forall k :: |ts| < k < |d| ==> d[k].left == m.width + res.iconMargin)
  {
    var m := ShowVideoSet(res, false, AddedAll(res, Cleared(s), ts), true);
    AddedAllFromCleared(res, s, ts);
    assert m.callTypes == ts && m.showVideo;
    assert m.width == BaseExtent(res, ts) + res.videoCall.intrinsicWidth;
    assert m.height == Max(MaxHeight(res, ts), res.videoCall.intrinsicHeight);
    DrawWithVideoBounds(res, ts);
  }

  /** The same bind in carrier mode: setShowVideo(true) adds nothing to
      the measured width, yet the video icon is still drawn, so it ends
      one video width past the measured box. */
  lemma CarrierVideoOverflowsMeasure(res: Resources, s: Layout, ts: seq<int>)
    ensures var m := ShowVideoSet(res, true, AddedAll(res, Cleared(s), ts), true);
      var d := DrawList(res, m.callTypes, m.showVideo);
      && m.width == BaseExtent(res, ts)
      && |d| > |ts|
      && d[|ts|].icon == VideoCall && d[|ts|].left == m.width
      && d[|ts|].right == m.width + res.videoCall.intrinsicWidth
  {
    AddedAllFromCleared(res, s, ts);
    if ts != [] {
      BasePassAt(res, ts, 0);
    }
  }

  /** A row bound as clear, add for each entry, addImsOrVideoIcon(t, false)
      with an IMS code t: every IMS icon painted ends exactly at the
      measured width, however many IMS entries there are. */
  lemma ImsBindFitsMeasure(res: Resources, s: Layout, ts: seq<int>, t: int)
    requires IsImsType(t)
    ensures var m := ImsOrVideoAdded(res, AddedAll(res, Cleared(s), ts), t, false);
      var d := DrawList(res, m.callTypes, m.showVideo);
      && |d| == |ts| + ImsCount(ts)
      && forall k :: |ts| <= k < |d| ==>
           d[k].icon == ImsCall && d[k].left == BaseExtent(res, ts) && d[k].right == m.width
           && d[k].bottom <= m.height
  {
    AddedAllFromCleared(res, s, ts);
    DrawListShape(res, ts, false);
  }

  /** The first loop of the draw: each entry's base icon at the cursor,
      which then moves past the icon and one margin. */
  method DrawBaseIcons(res: Resources, ts: seq<int>) returns (commands: seq<DrawCommand>, left: int)
    ensures commands == BasePass(res, ts)
    ensures left == BaseExtent(res, ts)
  {
    left := 0;
    commands := [];
    var i := 0;
    while i < |ts|
      invariant 0 <= i <= |ts|
      invariant left == BaseExtent(res, ts[..i])
      invariant commands == BasePass(res, ts[..i])
    {
      var callType := ts[i];
      var drawable := BaseDrawable(res, callType);
      var right := left + drawable.intrinsicWidth;
      commands := commands + [DrawCommand(CallTypeIcon(callType), left, 0, right, drawable.intrinsicHeight)];
      left := right + res.iconMargin;
      BasePassSnoc(res, ts[..i], callType);
      BaseExtentSnoc(res, ts[..i], callType);
      assert ts[..i + 1] == ts[..i] + [callType];
      i := i + 1;
    }
    assert ts[..i] == ts;
  }

  /** The last loop of the draw: the IMS icon of each IMS entry at the
      cursor, which this loop never moves. */
  method DrawImsIcons(res: Resources, ts: seq<int>, left: int) returns (commands: seq<DrawCommand>)
    ensures commands == ImsPass(res, ts, left)
  {
    commands := [];
    var i := 0;
    while i < |ts|
      invariant 0 <= i <= |ts|
      invariant commands == ImsPass(res, ts[..i], left)
    {
      var ims := ImsIcon(ts[i]);
      if ims.Some? {
        var drawable := res.Image(ims.value);
        var right := left + drawable.intrinsicWidth;
        commands := commands + [DrawCommand(ims.value, left, 0, right, drawable.intrinsicHeight)];
      }
      ImsPassSnoc(res, ts[..i], ts[i], left);
      assert ts[..i + 1] == ts[..i] + [ts[i]];
      i := i + 1;
    }
    assert ts[..i] == ts;
  }

  // ---------------------------------------------------------------------
  // The view

  class CallTypeIconsView {
    const resources: Resources
    /** Whether the carrier-specific mode is active, fixed at construction. */
    const carrierOneEnabled: bool
    var callTypes: seq<int>
    var showVideo: bool
    var width: int
    var height: int

    function State(): Layout
      reads this
    {
      Layout(callTypes, showVideo, width, height)
    }

    constructor (resources: Resources, carrierOneEnabled: bool)
      ensures this.resources == resources && this.carrierOneEnabled == carrierOneEnabled
      ensures State() == Initial()
    {
      this.resources := resources;
      this.carrierOneEnabled := carrierOneEnabled;
      callTypes := [];
      showVideo := false;
      width := 0;
      height := 0;
    }

    method Clear()
      modifies this
      ensures State() == Cleared(old(State()))
    {
      callTypes := [];
      width := 0;
      height := 0;
    }

    method Add(callType: int)
      modifies this
      ensures State() == Added(resources, old(State()), callType)
    {
      callTypes := callTypes + [callType];
      var drawable := BaseDrawable(resources, callType);
      width := width + drawable.intrinsicWidth + resources.iconMargin;
      height := Max(height, drawable.intrinsicHeight);
    }

    method AddImsOrVideoIcon(callType: int, showVideo: bool)
      modifies this
      ensures State() == ImsOrVideoAdded(resources, old(State()), callType, showVideo)
    {
      this.showVideo := showVideo;
      if showVideo {
        width := width + resources.videoCall.intrinsicWidth;
        height := Max(height, resources.videoCall.intrinsicHeight);
      } else {
        var ims := ImsIcon(callType);
        if ims.Some? {
          var drawable := resources.Image(ims.value);
          width := width + drawable.intrinsicWidth;
          height := Max(height, drawable.intrinsicHeight);
        }
      }
    }

    method SetShowVideo(showVideo: bool)
      modifies this
      ensures State() == ShowVideoSet(resources, carrierOneEnabled, old(State()), showVideo)
    {
      this.showVideo := showVideo;
      if carrierOneEnabled {
        return;
      }
      if showVideo {
        width := width + resources.videoCall.intrinsicWidth;
        height := Max(height, resources.videoCall.intrinsicHeight);
      }
    }

    method IsVideoShown() returns (shown: bool)
      ensures shown == showVideo
    {
      shown := showVideo;
    }

    method GetCount() returns (count: int)
      ensures count == |callTypes|
    {
      count := |callTypes|;
    }

    /** The entry at `index`; None stands for the index-out-of-bounds
        failure of the underlying list. */
    method GetCallType(index: int) returns (callType: Option<int>)
      ensures 0 <= index < |callTypes| ==> callType == Some(callTypes[index])
      ensures !(0 <= index < |callTypes|) ==> callType == None
    {
      if 0 <= index < |callTypes| {
        callType := Some(callTypes[index]);
      } else {
        callType := None;
      }
    }

    /** The measured size is the accumulated width and height, verbatim. */
    method OnMeasure() returns (measuredWidth: int, measuredHeight: int)
      ensures measuredWidth == width && measuredHeight == height
    {
      measuredWidth, measuredHeight := width, height;
    }

    /** The icons painted, in order: the base pass, the video icon when
        shown, then the IMS pass from wherever the cursor stopped. */
    method OnDraw() returns (commands: seq<DrawCommand>)
      ensures commands == DrawList(resources, callTypes, showVideo)
    {
      var left;
      commands, left := DrawBaseIcons(resources, callTypes);
      if showVideo {
        var drawable := resources.videoCall;
        var right := left + drawable.intrinsicWidth;
        commands := commands + [DrawCommand(VideoCall, left, 0, right, drawable.intrinsicHeight)];
        left := right + resources.iconMargin;
      }
      var imsCommands := DrawImsIcons(resources, callTypes, left);
      commands := commands + imsCommands;
    }
  }
}
