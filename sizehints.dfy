/**
 * ICCCM size hints: turning a WM_NORMAL_HINTS record into the client's
 * bounds (updatesizehints) and constraining a proposed geometry with them
 * (applysizehints).
 */
module SizeHints {
  import opened Wrappers
  import opened Geometry
  import opened Config

  /** Flag bits of XSizeHints.flags (X11/Xutil.h). */
  const PSize: bv64 := 8
  const PMinSize: bv64 := 16
  const PMaxSize: bv64 := 32
  const PResizeInc: bv64 := 64
  const PAspect: bv64 := 128
  const PBaseSize: bv64 := 256

  /** The integer fields of an XSizeHints record (the aspect fields are left out). */
  datatype XSizeHints = XSizeHints(
    flags: bv64,
    minWidth: int, minHeight: int,
    maxWidth: int, maxHeight: int,
    widthInc: int, heightInc: int,
    baseWidth: int, baseHeight: int)

  /** The bounds a client keeps: basew, baseh, incw, inch, maxw, maxh, minw, minh, isfixed. */
  datatype Hints = Hints(
    basew: int, baseh: int,
    incw: int, inch: int,
    maxw: int, maxh: int,
    minw: int, minh: int,
    isfixed: bool)

  predicate Has(flags: bv64, bit: bv64)
  {
    flags & bit != 0
  }

  /**
   * updatesizehints. `size` is None when XGetWMNormalHints fails; the source
   * then behaves as if only PSize were set, so no other field is read.
   */
  function UpdateSizeHints(size: Option<XSizeHints>): (r: Hints)
    ensures r.isfixed <==> r.maxw != 0 && r.maxh != 0 && r.maxw == r.minw && r.maxh == r.minh
  {
    var s := if size.Some? then size.value else XSizeHints(PSize, 0, 0, 0, 0, 0, 0, 0, 0);
    var basew := if Has(s.flags, PBaseSize) then s.baseWidth
                 else if Has(s.flags, PMinSize) then s.minWidth else 0;
    var baseh := if Has(s.flags, PBaseSize) then s.baseHeight
                 else if Has(s.flags, PMinSize) then s.minHeight else 0;
    var incw := if Has(s.flags, PResizeInc) then s.widthInc else 0;
    var inch := if Has(s.flags, PResizeInc) then s.heightInc else 0;
    var maxw := if Has(s.flags, PMaxSize) then s.maxWidth else 0;
    var maxh := if Has(s.flags, PMaxSize) then s.maxHeight else 0;
    var minw := if Has(s.flags, PMinSize) then s.minWidth
                else if Has(s.flags, PBaseSize) then s.baseWidth else 0;
    var minh := if Has(s.flags, PMinSize) then s.minHeight
                else if Has(s.flags, PBaseSize) then s.baseHeight else 0;
    Hints(basew, baseh, incw, inch, maxw, maxh, minw, minh,
          maxw != 0 && maxh != 0 && maxw == minw && maxh == minh)
  }

  /** A window without a WM_NORMAL_HINTS property is unconstrained and not fixed. */
  lemma NoHintsNoBounds()
    ensures UpdateSizeHints(None) == Hints(0, 0, 0, 0, 0, 0, 0, 0, false)
  {
    assert !Has(PSize, PBaseSize) && !Has(PSize, PMinSize) && !Has(PSize, PMaxSize);
    assert !Has(PSize, PResizeInc);
  }

  /**
   * ICCCM 4.1.2.3: when only one of the base and minimum sizes is given, the
   * other defaults to it, so base and minimum agree.
   */
  lemma BaseDefaultsToMin(s: XSizeHints)
    requires Has(s.flags, PBaseSize) != Has(s.flags, PMinSize)
    ensures var r := UpdateSizeHints(Some(s)); r.basew == r.minw && r.baseh == r.minh
  {
  }

  /** A window whose minimum and maximum sizes coincide (and are non-zero) is fixed. */
  lemma EqualMinMaxIsFixed(s: XSizeHints)
    requires Has(s.flags, PMinSize) && Has(s.flags, PMaxSize)
    requires s.minWidth == s.maxWidth != 0 && s.minHeight == s.maxHeight != 0
    ensures UpdateSizeHints(Some(s)).isfixed
  {
  }

  /**
   * applysizehints(c, &x, &y, &w, &h, interact) for a client whose recorded
   * geometry is `cur`, on a monitor with work area `wa`, `hasLayout` telling
   * whether the monitor has an arrangement function, `sw` x `sh` the screen.
   * Returns the adjusted request and whether it differs from `cur`.
   * The aspect-ratio step (lines 275-280) works on floats and is left out.
   */
  function ApplySizeHints(cur: Rect, hints: Hints, floating: bool, wa: Rect, hasLayout: bool,
                          interact: bool, sw: int, sh: int, req: Rect): (r: (Rect, bool))
    ensures r.1 <==> r.0 != cur
    ensures !floating && hasLayout ==>
              r.0.w == Max(Max(1, req.w), BarHeight) && r.0.h == Max(Max(1, req.h), BarHeight)
  {
    // set minimum possible
    var w0 := Max(1, req.w);
    var h0 := Max(1, req.h);
    var x1 :=
      if interact then
        var x0 := if req.x > sw then sw - (cur.w + 2 * BorderPx) else req.x;
        if x0 + w0 + 2 * BorderPx < 0 then 0 else x0
      else
        var x0 := if req.x >= wa.x + wa.w then wa.x + wa.w - (cur.w + 2 * BorderPx) else req.x;
        if x0 + w0 + 2 * BorderPx <= wa.x then wa.x else x0;
    var y1 :=
      if interact then
        var y0 := if req.y > sh then sh - (cur.h + 2 * BorderPx) else req.y;
        if y0 + h0 + 2 * BorderPx < 0 then 0 else y0
      else
        var y0 := if req.y >= wa.y + wa.h then wa.y + wa.h - (cur.h + 2 * BorderPx) else req.y;
        if y0 + h0 + 2 * BorderPx <= wa.y then wa.y else y0;
    var h1 := if h0 < BarHeight then BarHeight else h0;
    var w1 := if w0 < BarHeight then BarHeight else w0;
    var constrained := floating || !hasLayout;
    // With the aspect step left out, the base size is subtracted once
    // whether or not it equals the minimum size.
    var wb := w1 - hints.basew;
    var hb := h1 - hints.baseh;
    var wi := if hints.incw != 0 then wb - CRem(wb, hints.incw) else wb;
    var hi := if hints.inch != 0 then hb - CRem(hb, hints.inch) else hb;
    var wm := Max(wi + hints.basew, hints.minw);
    var hm := Max(hi + hints.baseh, hints.minh);
    var w2 := if !constrained then w1 else if hints.maxw != 0 then Min(wm, hints.maxw) else wm;
    var h2 := if !constrained then h1 else if hints.maxh != 0 then Min(hm, hints.maxh) else hm;
    var out := Rect(x1, y1, w2, h2);
    (out, out.x != cur.x || out.y != cur.y || out.w != cur.w || out.h != cur.h)
  }

  /** Every tiled size is at least one pixel and at least the bar height. */
  lemma TiledSizeAtLeastOne(cur: Rect, hints: Hints, wa: Rect, interact: bool, sw: int, sh: int, req: Rect)
    ensures var r := ApplySizeHints(cur, hints, false, wa, true, interact, sw, sh, req).0;
            r.w >= 1 && r.h >= 1 && r.w >= BarHeight && r.h >= BarHeight
  {
  }

  /**
   * Floating (or unarranged) clients respect their maximum size when one is
   * set, and their minimum size unless the maximum is set below it.
   */
  lemma FloatingWithinBounds(cur: Rect, hints: Hints, floating: bool, wa: Rect, hasLayout: bool,
                             interact: bool, sw: int, sh: int, req: Rect)
    requires floating || !hasLayout
    ensures var r := ApplySizeHints(cur, hints, floating, wa, hasLayout, interact, sw, sh, req).0;
            && (hints.maxw != 0 ==> r.w <= hints.maxw)
            && (hints.maxh != 0 ==> r.h <= hints.maxh)
            && (hints.maxw == 0 || hints.maxw >= hints.minw ==> r.w >= hints.minw)
            && (hints.maxh == 0 || hints.maxh >= hints.minh ==> r.h >= hints.minh)
  {
  }

  /** A fixed-size floating client always keeps exactly its minimum (= maximum) size. */
  lemma FixedSizeIsKept(cur: Rect, size: Option<XSizeHints>, wa: Rect, hasLayout: bool,
                        interact: bool, sw: int, sh: int, req: Rect)
    requires UpdateSizeHints(size).isfixed
    ensures var hints := UpdateSizeHints(size);
            var r := ApplySizeHints(cur, hints, true, wa, hasLayout, interact, sw, sh, req).0;
            r.w == hints.minw && r.h == hints.minh
  {
  }

  /**
   * The increment step: when neither the minimum nor the maximum size cuts
   * in, the width above the base size is a whole number of increments.
   */
  lemma WidthIsWholeIncrements(cur: Rect, hints: Hints, wa: Rect, hasLayout: bool,
                               interact: bool, sw: int, sh: int, req: Rect)
    requires hints.incw > 0 && Max(Max(1, req.w), BarHeight) >= hints.basew
    ensures var r := ApplySizeHints(cur, hints, true, wa, hasLayout, interact, sw, sh, req).0;
            r.w > hints.minw && (hints.maxw == 0 || r.w < hints.maxw) ==>
              exists k: nat :: r.w - hints.basew == k * hints.incw
  {
    var wb := Max(Max(1, req.w), BarHeight) - hints.basew;
    RoundDownIsMultiple(wb, hints.incw);
    var k: nat := wb / hints.incw;
    var r := ApplySizeHints(cur, hints, true, wa, hasLayout, interact, sw, sh, req).0;
    if r.w > hints.minw && (hints.maxw == 0 || r.w < hints.maxw) {
      assert r.w - hints.basew == k * hints.incw;
    }
  }

  /** Taking away the remainder leaves a non-negative multiple of the divisor. */
  lemma RoundDownIsMultiple(a: int, d: int)
    requires a >= 0 && d > 0
    ensures a - CRem(a, d) == (a / d) * d && a / d >= 0
  {
    assert CRem(a, d) == a % d;
    DivFacts(a, d);
  }

  lemma DivFacts(a: int, d: int)
    requires a >= 0 && d > 0
    ensures a - a % d == (a / d) * d && a / d >= 0
  {
  }

  /**
   * Applying the tiled constraints to their own result, with that result
   * recorded as the client's geometry, reports no change: a tiled resize is
   * idempotent on a monitor with a non-empty work area (for a client whose
   * recorded size is not negative, as X sizes never are).
   */
  lemma TiledIdempotent(cur: Rect, hints: Hints, wa: Rect, sw: int, sh: int, req: Rect)
    requires wa.w > 0 && wa.h > 0 && cur.w >= 0 && cur.h >= 0
    ensures var g := ApplySizeHints(cur, hints, false, wa, true, false, sw, sh, req).0;
            ApplySizeHints(g, hints, false, wa, true, false, sw, sh, g) == (g, false)
  {
  }

  /**
   * The same is false for floating clients: a maximum size that is not base
   * plus whole increments is reached by the first application and rounded
   * down by the second, so `changed` comes back true.
   */
  lemma FloatingNotIdempotent()
    ensures var hints := Hints(0, 0, 5, 0, 8, 0, 0, 0, false);
            var wa := Rect(0, 0, 100, 100);
            var g := ApplySizeHints(Rect(0, 0, 1, 1), hints, true, wa, true, false, 100, 100, Rect(0, 0, 12, 10)).0;
            g.w == 8 && ApplySizeHints(g, hints, true, wa, true, false, 100, 100, g) == (Rect(0, 0, 5, 10), true)
  {
  }

  /**
   * The "minimum possible" of one pixel is not kept for floating clients: an
   * increment larger than the request rounds the width down to zero.
   */
  lemma FloatingWidthCanBeZero()
    ensures var hints := Hints(0, 0, 5, 0, 0, 0, 0, 0, false);
            ApplySizeHints(Rect(0, 0, 3, 3), hints, true, Rect(0, 0, 100, 100), true, false, 100, 100,
                           Rect(0, 0, 3, 3)).0.w == 0
  {
  }
}
