/** What one recomputation publishes, common to the composable
    (src/composable.ts:63-82) and the directive (src/directive.ts:65-80): the
    per-axis overlap test, the four CSS custom properties and the callback. */
module Track {
  import opened Types
  import opened Decimal

  const VisibleYProperty := "--vue-track-visible-y"
  const VisibleXProperty := "--vue-track-visible-x"
  const YProperty := "--vue-track-y"
  const XProperty := "--vue-track-x"

  /** `offset || 0`: a missing offset counts as 0. */
  function OffsetValue(offset: Option<int>): (v: int)
    ensures offset.None? ==> v == 0
    ensures offset.Some? ==> v == offset.value
  {
    if offset.Some? then offset.value else 0
  }

  /** The overlap test along one axis: the element's extent starts at `start`
      and is `size` long, is shifted by `offset`, and is compared with
      `[0, extent)` using strict comparisons on both sides. */
  function AxisVisible(start: int, size: int, offset: int, extent: int): (visible: bool)
    ensures start + offset >= extent ==> !visible
    ensures start + size + offset <= 0 ==> !visible
  {
    start + size + offset > 0 && start + offset < extent
  }

  predicate InSpan(y: int, lo: int, hi: int)
  {
    lo <= y < hi
  }

  /** The reference meaning: some whole pixel of `[lo, hi)` lies in `[0, extent)`. */
  ghost predicate SharesPixel(lo: int, hi: int, extent: int)
  {
    exists y :: InSpan(y, lo, hi) && InSpan(y, 0, extent)
  }

  /** For an element and a viewport of positive size, the test holds exactly
      when the shifted element and the viewport share a pixel. */
  lemma AxisVisibleIsOverlap(start: int, size: int, offset: int, extent: int)
    requires size > 0 && extent > 0
    ensures AxisVisible(start, size, offset, extent) <==>
            SharesPixel(start + offset, start + size + offset, extent)
  {
    var lo, hi := start + offset, start + size + offset;
    if AxisVisible(start, size, offset, extent) {
      var y := if lo < 0 then 0 else lo;
      assert InSpan(y, lo, hi) && InSpan(y, 0, extent);
    }
    if SharesPixel(lo, hi, extent) {
      var y :| InSpan(y, lo, hi) && InSpan(y, 0, extent);
      assert hi > 0 && lo < extent;
    }
  }

  /** A zero-size element counts only when strictly inside the viewport, so
      one lying on either edge is not visible. */
  lemma ZeroSizeOnlyStrictlyInside(start: int, offset: int, extent: int)
    ensures AxisVisible(start, 0, offset, extent) <==> 0 < start + offset < extent
  {
  }

  /** With an empty viewport (`extent <= 0`, a container box of zero
      height or width) no pixel can be shared, yet the test still reports an
      element visible when it straddles the viewport's position. */
  lemma EmptyViewportCountsStraddling(start: int, size: int, offset: int, extent: int)
    requires extent <= 0
    ensures !SharesPixel(start + offset, start + size + offset, extent)
    ensures AxisVisible(start, size, offset, extent) <==> start + offset < extent && 0 < start + size + offset
    ensures AxisVisible(-10, 20, 0, 0)
  {
    forall y ensures !InSpan(y, 0, extent) {
    }
  }

  /** The offset acts as a shift of the element's extent. */
  lemma OffsetIsShift(start: int, size: int, offset: int, extent: int)
    ensures AxisVisible(start, size, offset, extent) == AxisVisible(start + offset, size, 0, extent)
  {
  }

  /** The published result of one recomputation. */
  datatype Snapshot = Snapshot(position: Position, visibility: Visibility)

  /** `String(Number(b))`. */
  function Flag(b: bool): (s: string)
    ensures s == "1" <==> b
    ensures s == "0" <==> !b
  {
    if b then "1" else "0"
  }

  /** The element's inline style after the four `setCssProperty` calls. */
  function TrackedStyle(style: map<string, string>, s: Snapshot): (r: map<string, string>)
    ensures r.Keys == style.Keys + {VisibleYProperty, VisibleXProperty, YProperty, XProperty}
    ensures r[VisibleYProperty] == Flag(s.visibility.vertical)
    ensures r[VisibleXProperty] == Flag(s.visibility.horizontal)
    ensures r[YProperty] == Px(s.position.top)
    ensures r[XProperty] == Px(s.position.left)
    ensures forall k :: k in style && k !in {VisibleYProperty, VisibleXProperty, YProperty, XProperty} ==>
      r[k] == style[k]
  {
    style[VisibleYProperty := Flag(s.visibility.vertical)]
         [VisibleXProperty := Flag(s.visibility.horizontal)]
         [YProperty := Px(s.position.top)]
         [XProperty := Px(s.position.left)]
  }

  /** Writing the same snapshot twice leaves the style as writing it once. */
  lemma TrackedStyleIdempotent(style: map<string, string>, s: Snapshot)
    ensures TrackedStyle(TrackedStyle(style, s), s) == TrackedStyle(style, s)
  {
    var once := TrackedStyle(style, s);
    var twice := TrackedStyle(once, s);
    assert twice.Keys == once.Keys;
  }

  /** The style determines the published snapshot: the position can be read
      back from the pixel values, the visibility from the flags. */
  lemma TrackedStyleDeterminesSnapshot(style1: map<string, string>, style2: map<string, string>, s1: Snapshot, s2: Snapshot)
    requires TrackedStyle(style1, s1)[VisibleYProperty] == TrackedStyle(style2, s2)[VisibleYProperty]
    requires TrackedStyle(style1, s1)[VisibleXProperty] == TrackedStyle(style2, s2)[VisibleXProperty]
    requires TrackedStyle(style1, s1)[YProperty] == TrackedStyle(style2, s2)[YProperty]
    requires TrackedStyle(style1, s1)[XProperty] == TrackedStyle(style2, s2)[XProperty]
    ensures s1 == s2
  {
    PxInjective(s1.position.top, s2.position.top);
    PxInjective(s1.position.left, s2.position.left);
  }

  /** `if (callback) callback(position, visibility)`. */
  function CallbackCall(callback: Option<Callback>, s: Snapshot): (call: Option<Invocation>)
    ensures call.Some? <==> callback.Some?
    ensures call.Some? ==> call.value.callback == callback.value
    ensures call.Some? ==> call.value.position == s.position && call.value.visibility == s.visibility
  {
    if callback.Some? then Some(Invocation(callback.value, s.position, s.visibility)) else None
  }
}
