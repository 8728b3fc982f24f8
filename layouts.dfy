/**
 * The arrangement algorithms as functions: which rectangle each tiled
 * client of a monitor is asked to take (the arguments the layout passes to
 * resize), plus the master-fraction and layout-cycling arithmetic.
 */
module Layouts {
  import opened Wrappers
  import opened Geometry
  import opened Config

  /** The entries of `layouts[] = { tile, monocle }`. */
  datatype LayoutKind = Tile | Monocle

  const LayoutTable: seq<LayoutKind> := [Tile, Monocle]

  lemma LayoutTableDistinct()
    ensures forall i, j | 0 <= i < j < |LayoutTable| :: LayoutTable[i] != LayoutTable[j]
  {
  }

  // ---------------------------------------------------------------- mfact

  /** clamp(x, l, h). */
  function Clamp(x: int, l: int, h: int): (r: int)
    requires l <= h
    ensures l <= r <= h
    ensures l <= x <= h ==> r == x
  {
    if x < l then l else if x > h then h else x
  }

  /**
   * setmfact(d) on a monitor whose master fraction is `mfact` (percent):
   * nothing when d is 0 or there is no layout, else mfact + d clamped to
   * [10, 90].
   */
  function SetMfact(mfact: int, hasLayout: bool, d: int): (r: int)
    ensures d == 0 || !hasLayout ==> r == mfact
    ensures d != 0 && hasLayout ==> MinMfact <= r <= MaxMfact
    ensures d != 0 && hasLayout && MinMfact <= mfact + d <= MaxMfact ==> r == mfact + d
  {
    if d == 0 || !hasLayout then mfact else Clamp(d + mfact, MinMfact, MaxMfact)
  }

  /** The master fraction after a sequence of setmfact calls. */
  function SetMfactAll(mfact: int, hasLayout: bool, ds: seq<int>): int
    decreases |ds|
  {
    if ds == [] then mfact else SetMfactAll(SetMfact(mfact, hasLayout, ds[0]), hasLayout, ds[1..])
  }

  /**
   * Whatever the deltas, a master fraction that starts in [0.1, 0.9] stays
   * there, and one that does not is brought there by the first effective call.
   */
  lemma {:induction false} MfactStaysInRange(mfact: int, hasLayout: bool, ds: seq<int>)
    requires (MinMfact <= mfact <= MaxMfact) || (hasLayout && exists k | 0 <= k < |ds| :: ds[k] != 0)
    ensures MinMfact <= SetMfactAll(mfact, hasLayout, ds) <= MaxMfact
    decreases |ds|
  {
    if ds != [] {
      var next := SetMfact(mfact, hasLayout, ds[0]);
      if !(MinMfact <= next <= MaxMfact) {
        var k :| 0 <= k < |ds| && ds[k] != 0;
        assert k != 0;
        assert ds[1..][k - 1] != 0;
      }
      MfactStaysInRange(next, hasLayout, ds[1..]);
    }
  }

  // ----------------------------------------------------------- cyclelayout

  /** cyclelayout(x): the index of the next (x > 0) or previous layout, wrapping. */
  function CycleIndex(i: nat, x: int): (j: nat)
    requires i < |LayoutTable|
    ensures j < |LayoutTable|
  {
    if x > 0 then (if i < |LayoutTable| - 1 then i + 1 else 0)
    else (if i != 0 then i - 1 else |LayoutTable| - 1)
  }

  /** Going forward then back (or back then forward) returns to the same layout. */
  lemma CycleInverse(i: nat)
    requires i < |LayoutTable|
    ensures CycleIndex(CycleIndex(i, 1), -1) == i
    ensures CycleIndex(CycleIndex(i, -1), 1) == i
  {
  }

  /** The index of a layout in the table (the for loop at the top of cyclelayout). */
  function IndexOf(l: LayoutKind): (i: nat)
    ensures i < |LayoutTable| && LayoutTable[i] == l
  {
    assert LayoutTable[0] == Tile && LayoutTable[1] == Monocle;
    if l == Tile then 0 else 1
  }

  // ------------------------------------------------------ tiled geometry

  /** An unsigned int expression handed to an int parameter of resize. */
  function AsInt(a: int): (r: int)
    ensures -Two32 / 2 <= a < Two32 / 2 ==> r == a
  {
    if -Two32 / 2 <= a < Two32 / 2 then
      UnsignedRoundTrip(a);
      ToSigned(ToUnsigned(a))
    else ToSigned(ToUnsigned(a))
  }

  /** The height (or width) applysizehints gives a tiled client asked for `v`. */
  function TiledSize(v: int): (r: int)
    ensures r >= 1 && r >= BarHeight
    ensures v >= 1 && v >= BarHeight ==> r == v
  {
    Max(Max(1, v), BarHeight)
  }

  /** HEIGHT(c) after resizing c to height v: its size plus both borders. */
  function Outer(v: int): int
  {
    TiledSize(v) + 2 * BorderPx
  }

  /** The vertical space the resized clients take, one after another. */
  function Span(reqs: seq<Rect>): int
    decreases |reqs|
  {
    if reqs == [] then 0 else Outer(reqs[0].h) + Span(reqs[1..])
  }

  /** Each request starts at y, the next one where the previous one's outer height ends. */
  predicate Stacked(reqs: seq<Rect>, y: int)
    decreases |reqs|
  {
    reqs == [] || (reqs[0].y == y && Stacked(reqs[1..], y + Outer(reqs[0].h)))
  }

  /** X geometry: 16-bit coordinates and sizes, so none of the int arithmetic overflows. */
  predicate SmallArea(wa: Rect)
  {
    -0x8000 <= wa.x < 0x8000 && -0x8000 <= wa.y < 0x8000 && 0 <= wa.w < 0x10000 && 0 <= wa.h < 0x10000
  }

  /** monocle: every tiled client fills the work area inside its border. */
  function MonocleRect(wa: Rect): Rect
  {
    Rect(wa.x, wa.y, wa.w - BorderPx * 2, wa.h - BorderPx * 2)
  }

  function MonocleRequests(wa: Rect, n: nat): (reqs: seq<Rect>)
    ensures |reqs| == n && forall k | 0 <= k < n :: reqs[k] == MonocleRect(wa)
  {
    seq(n, _ => MonocleRect(wa))
  }

  /** mw = m->ww * m->mfact, truncated. */
  function MasterSize(ww: int, mfact: int): int
  {
    TruncDiv(ww * mfact, 100)
  }

  /**
   * The stack column of vstack, clients i .. n-1, `ty` (unsigned) the height
   * used so far: each takes the remaining height divided by the remaining
   * count, computed in unsigned arithmetic.
   */
  function VStackColumn(wa: Rect, mw: int, n: nat, i: nat, ty: int): (reqs: seq<Rect>)
    requires 1 <= i <= n
    ensures |reqs| == n - i
    decreases n - i
  {
    if i == n then []
    else
      var req := StackRequest(wa, mw, n, i, ty);
      [req] + VStackColumn(wa, mw, n, i + 1, ToUnsigned(ty + Outer(req.h)))
  }

  /** The master client of vstack (i = 0), `my` (unsigned) the height used so far. */
  function MasterRequest(wa: Rect, mw: int, n: nat, i: nat, my: int): Rect
    requires i < Min(n, 1)
  {
    var h := ToUnsigned(wa.h - my) / (Min(n, 1) - i);
    Rect(wa.x, AsInt(wa.y + my), AsInt(mw - 2 * BorderPx), AsInt(h - 2 * BorderPx))
  }

  /** Stack client i of vstack, beside the master column of width mw. */
  function StackRequest(wa: Rect, mw: int, n: nat, i: nat, ty: int): Rect
    requires i < n
  {
    var h := ToUnsigned(wa.h - ty) / (n - i);
    Rect(AsInt(wa.x + mw), AsInt(wa.y + ty), AsInt(wa.w - mw - 2 * BorderPx), AsInt(h - 2 * BorderPx))
  }

  /** vstack: the rectangles asked of the n tiled clients, in list order. */
  function VStack(wa: Rect, mfact: int, n: nat): (reqs: seq<Rect>)
    ensures |reqs| == n
  {
    if n == 0 then []
    else if n == 1 then MonocleRequests(wa, 1)
    else VStackTiles(wa, ToUnsigned(MasterSize(wa.w, mfact)), n)
  }

  /** vstack's loop for n > 1: the master at the top left, then the stack column beside it. */
  function VStackTiles(wa: Rect, mw: int, n: nat): (reqs: seq<Rect>)
    requires n > 1
    ensures |reqs| == n
  {
    [MasterRequest(wa, mw, n, 0, 0)] + VStackColumn(wa, mw, n, 1, 0)
  }

  /**
   * The stack row of bstackhoriz, clients i .. n-1: all at x = wx with the
   * full width and the same height th, moving down by their outer height
   * unless th is the whole work-area height.
   */
  function BStackRow(wa: Rect, th: int, n: nat, i: nat, ty: int): (reqs: seq<Rect>)
    requires 1 <= i <= n
    ensures |reqs| == n - i
    decreases n - i
  {
    if i == n then []
    else
      var req := RowRequest(wa, th, wa.x, ty);
      [req] + BStackRow(wa, th, n, i + 1, if th != wa.h then ty + Outer(req.h) else ty)
  }

  /** The master client of bstackhoriz (i = 0), `mx` the width used so far. */
  function BMasterRequest(wa: Rect, mh: int, n: nat, i: nat, mx: int): Rect
    requires i < Min(n, 1)
  {
    var w := AsInt(ToUnsigned(wa.w - mx) / (Min(n, 1) - i));
    Rect(wa.x + mx, wa.y, w - 2 * BorderPx, mh - 2 * BorderPx)
  }

  /** A client of bstackhoriz's stack row, at (tx, ty). */
  function RowRequest(wa: Rect, th: int, tx: int, ty: int): Rect
  {
    Rect(tx, ty, wa.w - 2 * BorderPx, th - 2 * BorderPx)
  }

  /** mh = m->mfact * m->wh, truncated toward zero. */
  function BStackMaster(wh: int, mfact: int): int
  {
    TruncDiv(mfact * wh, 100)
  }

  /** th = (m->wh - mh) / (n - 1), an int divided by an unsigned count. */
  function BStackShare(wh: int, mh: int, n: nat): int
    requires n > 1
  {
    ToSigned(ToUnsigned(wh - mh) / (n - 1))
  }

  /** bstackhoriz: the rectangles asked of the n tiled clients, in list order. */
  function BStack(wa: Rect, mfact: int, n: nat): (reqs: seq<Rect>)
    ensures |reqs| == n
  {
    if n == 0 then []
    else if n == 1 then MonocleRequests(wa, 1)
    else
      var mh := BStackMaster(wa.h, mfact);
      BStackTiles(wa, mh, BStackShare(wa.h, mh, n), n)
  }

  /** bstackhoriz's loop for n > 1: the master on top, then the stack row under it. */
  function BStackTiles(wa: Rect, mh: int, th: int, n: nat): (reqs: seq<Rect>)
    requires n > 1
    ensures |reqs| == n
  {
    [BMasterRequest(wa, mh, n, 0, 0)] + BStackRow(wa, th, n, 1, wa.y + mh)
  }

  /**
   * tile's requests with n = tile_count(m) as written: n is the number of
   * the `count` tiled clients modulo 256, while both loops still visit every
   * tiled client. n = 0 returns at once, n = 1 runs monocle over all of
   * them, bstackhoriz shares the height by n - 1, and vstack, once more than
   * n clients are tiled, reaches h = (wh - ty) / (n - i) with i == n, a
   * division by zero (None).
   */
  function TileRequestsAsWritten(mw: int, mh: int, wa: Rect, mfact: int, count: nat): (r: Option<seq<Rect>>)
    ensures r.Some? ==> |r.value| == (if count % 256 == 0 then 0 else count)
  {
    var n := count % 256;
    if n == 0 then Some([])
    else if n == 1 then Some(MonocleRequests(wa, count))
    else if mw > mh then
      if count == n then Some(VStackTiles(wa, ToUnsigned(MasterSize(wa.w, mfact)), n)) else None
    else
      var bh := BStackMaster(wa.h, mfact);
      Some(BStackTiles(wa, bh, BStackShare(wa.h, bh, n), count))
  }

  /** tile: vstack on a monitor wider than tall, bstackhoriz otherwise. */
  function TileRequests(mw: int, mh: int, wa: Rect, mfact: int, n: nat): (reqs: seq<Rect>)
    ensures mw > mh ==> reqs == VStack(wa, mfact, n)
    ensures mw <= mh ==> reqs == BStack(wa, mfact, n)
  {
    if mw > mh then VStack(wa, mfact, n) else BStack(wa, mfact, n)
  }
}
