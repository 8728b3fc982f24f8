/**
 * Integer rectangles and the C arithmetic the placement code relies on:
 * MAX/MIN, truncating division and remainder, the INTERSECT overlap area and
 * the Xinerama de-duplication of output rectangles.
 */
module Geometry {

  /** A rectangle: origin (x, y), width w and height h. */
  datatype Rect = Rect(x: int, y: int, w: int, h: int)

  /** One output reported by Xinerama (XineramaScreenInfo without its number). */
  datatype ScreenInfo = ScreenInfo(xOrg: int, yOrg: int, width: int, height: int)

  function Max(a: int, b: int): (r: int)
    ensures r >= a && r >= b && (r == a || r == b)
  {
    if a > b then a else b
  }

  function Min(a: int, b: int): (r: int)
    ensures r <= a && r <= b && (r == a || r == b)
  {
    if a < b then a else b
  }

  /** C's `/` on int: the quotient rounded toward zero. */
  function TruncDiv(a: int, d: int): (q: int)
    requires d != 0
    ensures a >= 0 && d > 0 ==> q == a / d
    ensures a >= 0 && d > 0 ==> q * d <= a < q * d + d
  {
    if d > 0 then (if a >= 0 then a / d else -((-a) / d))
    else (if a >= 0 then -(a / (-d)) else (-a) / (-d))
  }

  /** C's `%` on int: the remainder takes the sign of the dividend. */
  function CRem(a: int, d: int): (r: int)
    requires d != 0
    ensures a >= 0 ==> 0 <= r < (if d > 0 then d else -d)
    ensures a < 0 ==> -(if d > 0 then d else -d) < r <= 0
    ensures d > 0 && a >= 0 ==> r == a % d
  {
    var m := if d > 0 then d else -d;
    if a >= 0 then a % m else -((-a) % m)
  }

  const Two32: int := 0x1_0000_0000

  /**
   * An int value seen as `unsigned int`: a plus or minus a multiple of 2^32,
   * in range. UnsignedIsModulo shows this is a modulo 2^32.
   */
  function ToUnsigned(a: int): (u: int)
    ensures 0 <= u < Two32
    ensures 0 <= a < Two32 ==> u == a
    ensures -Two32 <= a < 0 ==> u == a + Two32
    decreases a < 0, if a < 0 then -a else a
  {
    if a < 0 then ToUnsigned(a + Two32)
    else if a < Two32 then a
    else ToUnsigned(a - Two32)
  }

  /** The wrap-around of an `unsigned int` is reduction modulo 2^32. */
  lemma {:induction false} UnsignedIsModulo(a: int)
    ensures ToUnsigned(a) == a % Two32
    decreases a < 0, if a < 0 then -a else a
  {
    if a < 0 {
      UnsignedIsModulo(a + Two32);
    } else if a >= Two32 {
      UnsignedIsModulo(a - Two32);
    }
  }

  /** An `unsigned int` value read back as a two's complement `int`. */
  function ToSigned(u: int): (a: int)
    requires 0 <= u < Two32
    ensures -Two32 / 2 <= a < Two32 / 2
    ensures ToUnsigned(a) == u
  {
    if u < Two32 / 2 then u else u - Two32
  }

  /**
   * Passing the unsigned expression `a` to an `int` parameter: the value
   * survives unchanged whenever it fits in 32 signed bits.
   */
  lemma UnsignedRoundTrip(a: int)
    requires -Two32 / 2 <= a < Two32 / 2
    ensures ToSigned(ToUnsigned(a)) == a
  {
    if a < 0 {
      assert ToUnsigned(a) == a + Two32;
    }
  }

  /** INTERSECT(x, y, w, h, m): the area of overlap with the work area `wa`. */
  function Intersect(x: int, y: int, w: int, h: int, wa: Rect): (a: int)
    ensures a >= 0
  {
    Max(0, Min(x + w, wa.x + wa.w) - Max(x, wa.x))
      * Max(0, Min(y + h, wa.y + wa.h) - Max(y, wa.y))
  }

  /** Does `wa` contain the point (px, py)? */
  predicate Contains(wa: Rect, px: int, py: int)
  {
    wa.x <= px < wa.x + wa.w && wa.y <= py < wa.y + wa.h
  }

  /**
   * The pointer query of wintomon(root): a 1x1 rectangle overlaps an area in
   * exactly one pixel when the area contains the point, and in none otherwise.
   */
  lemma PointIntersect(px: int, py: int, wa: Rect)
    ensures Intersect(px, py, 1, 1, wa) == (if Contains(wa, px, py) then 1 else 0)
  {
    var dx := Max(0, Min(px + 1, wa.x + wa.w) - Max(px, wa.x));
    var dy := Max(0, Min(py + 1, wa.y + wa.h) - Max(py, wa.y));
    assert dx == (if wa.x <= px < wa.x + wa.w then 1 else 0);
    assert dy == (if wa.y <= py < wa.y + wa.h then 1 else 0);
  }

  /** Two outputs with the same origin and size. */
  predicate SameGeom(a: ScreenInfo, b: ScreenInfo)
  {
    a.xOrg == b.xOrg && a.yOrg == b.yOrg && a.width == b.width && a.height == b.height
  }

  /** isuniquegeom: scans unique[n-1] down to unique[0] for the same geometry. */
  function IsUniqueGeom(unique: seq<ScreenInfo>, n: nat, info: ScreenInfo): (r: bool)
    requires n <= |unique|
    ensures r <==> forall k | 0 <= k < n :: !SameGeom(unique[k], info)
  {
    if n == 0 then true
    else if SameGeom(unique[n - 1], info) then false
    else IsUniqueGeom(unique, n - 1, info)
  }

  /** No two outputs of `s` share origin and size. */
  predicate AllDistinct(s: seq<ScreenInfo>)
  {
    forall i, j | 0 <= i < j < |s| :: !SameGeom(s[i], s[j])
  }

  /**
   * What the de-duplication loop of updategeom keeps: each output whose
   * geometry was not accepted before, in order.
   */
  function UniqueScreens(info: seq<ScreenInfo>): (unique: seq<ScreenInfo>)
    ensures |unique| <= |info|
    ensures forall u | u in unique :: u in info
    decreases |info|
  {
    if info == [] then []
    else
      var prev := UniqueScreens(info[..|info| - 1]);
      var last := info[|info| - 1];
      if IsUniqueGeom(prev, |prev|, last) then prev + [last] else prev
  }

  /** No two accepted outputs share origin and size. */
  lemma {:induction false} UniqueScreensDistinct(info: seq<ScreenInfo>)
    ensures AllDistinct(UniqueScreens(info))
    decreases |info|
  {
    if info != [] {
      UniqueScreensDistinct(info[..|info| - 1]);
    }
  }

  /** Some output of `s` has the geometry of `x`. */
  predicate Covered(s: seq<ScreenInfo>, x: ScreenInfo)
  {
    exists k | 0 <= k < |s| :: SameGeom(s[k], x)
  }

  /** Every output has the geometry of an accepted one, so no screen is lost. */
  lemma {:induction false} UniqueScreensCover(info: seq<ScreenInfo>)
    ensures forall i | 0 <= i < |info| :: Covered(UniqueScreens(info), info[i])
    decreases |info|
  {
    if info != [] {
      var init := info[..|info| - 1];
      var prev := UniqueScreens(init);
      var unique := UniqueScreens(info);
      UniqueScreensCover(init);
      forall i | 0 <= i < |info|
        ensures Covered(unique, info[i])
      {
        if i < |info| - 1 {
          assert info[i] == init[i];
          assert Covered(prev, init[i]);
          var k :| 0 <= k < |prev| && SameGeom(prev[k], init[i]);
          assert unique[k] == prev[k];
        } else if IsUniqueGeom(prev, |prev|, info[i]) {
          assert unique[|prev|] == info[i];
        } else {
          var k :| 0 <= k < |prev| && SameGeom(prev[k], info[i]);
          assert unique[k] == prev[k];
        }
      }
    }
  }

  /** The first output is always accepted, as the first screen. */
  lemma {:induction false} UniqueScreensHead(info: seq<ScreenInfo>)
    requires info != []
    ensures UniqueScreens(info) != [] && UniqueScreens(info)[0] == info[0]
    decreases |info|
  {
    if |info| > 1 {
      var init := info[..|info| - 1];
      UniqueScreensHead(init);
      assert init[0] == info[0];
    }
  }

  /** The de-duplication loop of updategeom. */
  method UniqueGeoms(info: seq<ScreenInfo>) returns (unique: seq<ScreenInfo>)
    ensures unique == UniqueScreens(info)
  {
    unique := [];
    var i := 0;
    while i < |info|
      invariant 0 <= i <= |info|
      invariant unique == UniqueScreens(info[..i])
    {
      assert info[..i + 1][..i] == info[..i];
      if IsUniqueGeom(unique, |unique|, info[i]) {
        unique := unique + [info[i]];
      }
      i := i + 1;
    }
    assert info[..i] == info;
  }
}
