/**
 * What the arrangement algorithms guarantee: the n == 0 and n == 1 cases,
 * where the master and the stack clients go, and how the stack shares the
 * work-area height.
 */
module LayoutFacts {
  import opened Wrappers
  import opened Geometry
  import opened Config
  import opened Layouts

  // ------------------------------------------------ arithmetic helpers

  lemma DivLowerBound(a: int, d: int, q: int)
    requires d > 0 && q * d <= a
    ensures q <= a / d
  {
    assert a == d * (a / d) + a % d;
    if a / d < q {
      MulMono(a / d, q - 1, d);
    }
  }

  lemma DivUpperBound(a: int, d: int, b: int)
    requires d > 0 && a <= b * d
    ensures a / d <= b
  {
    assert a == d * (a / d) + a % d;
    if a / d > b {
      MulMono(b + 1, a / d, d);
    }
  }

  lemma MulMono(x: int, y: int, d: int)
    requires x <= y && d > 0
    ensures x * d <= y * d
  {
    assert y * d - x * d == (y - x) * d;
  }

  /** The remainder-aware share never shrinks: (R - R/k) / (k - 1) >= R / k. */
  lemma ShareNonDecreasing(r: int, k: int)
    requires r >= 0 && k >= 2
    ensures (r - r / k) / (k - 1) >= r / k
  {
    var q := r / k;
    assert r == k * q + r % k;
    assert q >= 0;
    assert r - q == q * (k - 1) + r % k;
    DivLowerBound(r - q, k - 1, q);
  }

  /** A truncated percentage of a non-negative size lies between 0 and that size. */
  lemma PercentBounds(v: int, pct: int)
    requires 0 <= v && 0 <= pct <= 100
    ensures 0 <= TruncDiv(v * pct, 100) <= v
    ensures TruncDiv(v * pct, 100) == TruncDiv(pct * v, 100)
  {
    if v > 0 {
      assert 0 <= v * pct;
      MulMono(pct, 100, v);
      DivUpperBound(v * pct, 100, v);
    }
  }

  // ----------------------------------------------------------- spans

  /** n requests of the same height v take n times its outer height. */
  lemma {:induction false} SpanUniform(reqs: seq<Rect>, v: int)
    requires forall k | 0 <= k < |reqs| :: reqs[k].h == v
    ensures Span(reqs) == |reqs| * Outer(v)
    decreases |reqs|
  {
    if reqs != [] {
      SpanUniform(reqs[1..], v);
    }
  }

  // ----------------------------------------------------- edge cases

  /** No tiled client: no resize. One: the work area minus the border, as monocle. */
  lemma FewTiled(wa: Rect, mfact: int)
    ensures VStack(wa, mfact, 0) == [] && BStack(wa, mfact, 0) == []
    ensures VStack(wa, mfact, 1) == [MonocleRect(wa)] && BStack(wa, mfact, 1) == [MonocleRect(wa)]
    ensures MonocleRect(wa) == Rect(wa.x, wa.y, wa.w - 2 * BorderPx, wa.h - 2 * BorderPx)
  {
  }

  // ---------------------------------------------------------- vstack

  /**
   * The stack column from client i on, when every share is at least a
   * border's worth plus one pixel: all clients at x = wx + mw with the
   * remaining width, each starting where the previous one ended, together
   * exactly filling the height still free.
   */
  lemma ColumnFills(wa: Rect, mw: int, n: nat, i: nat, ty: int)
    requires SmallArea(wa) && 0 <= mw <= wa.w
    requires 1 <= i < n && 0 <= ty <= wa.h
    requires wa.h - ty >= (n - i) * (2 * BorderPx + 1)
    ensures var reqs := VStackColumn(wa, mw, n, i, ty);
            && Span(reqs) == wa.h - ty
            && Stacked(reqs, wa.y + ty)
            && forall r | r in reqs :: r.x == wa.x + mw && r.w == wa.w - mw - 2 * BorderPx
  {
    ColumnSpan(wa, mw, n, i, ty);
    ColumnStacked(wa, mw, n, i, ty);
    ColumnColumn(wa, mw, n, i, ty);
  }

  /** The column's outer heights add up to the height still free. */
  lemma {:induction false} ColumnSpan(wa: Rect, mw: int, n: nat, i: nat, ty: int)
    requires SmallArea(wa) && 0 <= mw <= wa.w
    requires 1 <= i < n && 0 <= ty <= wa.h
    requires wa.h - ty >= (n - i) * (2 * BorderPx + 1)
    ensures Span(VStackColumn(wa, mw, n, i, ty)) == wa.h - ty
    decreases n - i
  {
    var h := ColumnSpanHead(wa, mw, n, i, ty);
    if n - i > 1 {
      ColumnSpan(wa, mw, n, i + 1, ty + h);
      var rest := Span(VStackColumn(wa, mw, n, i + 1, ty + h));
      assert rest == wa.h - (ty + h);
      assert Span(VStackColumn(wa, mw, n, i, ty)) == h + rest;
    }
  }

  /** The first request of the column takes h of the span, the rest of the column the remainder. */
  lemma ColumnSpanHead(wa: Rect, mw: int, n: nat, i: nat, ty: int) returns (h: int)
    requires SmallArea(wa) && 0 <= mw <= wa.w
    requires 1 <= i < n && 0 <= ty <= wa.h
    requires wa.h - ty >= (n - i) * (2 * BorderPx + 1)
    ensures 0 <= ty + h <= wa.h
    ensures n - i == 1 ==> Span(VStackColumn(wa, mw, n, i, ty)) == wa.h - ty
    ensures n - i > 1 ==> wa.h - (ty + h) >= (n - (i + 1)) * (2 * BorderPx + 1)
    ensures n - i > 1 ==> Span(VStackColumn(wa, mw, n, i, ty)) == h + Span(VStackColumn(wa, mw, n, i + 1, ty + h))
  {
    var reqs := VStackColumn(wa, mw, n, i, ty);
    h := ColumnHead(wa, mw, n, i, ty);
    assert Span(reqs) == Outer(reqs[0].h) + Span(reqs[1..]);
    if n - i == 1 {
      assert reqs[1..] == [];
    }
  }

  /** Each request of the column starts where the previous one ended. */
  lemma {:induction false} ColumnStacked(wa: Rect, mw: int, n: nat, i: nat, ty: int)
    requires SmallArea(wa) && 0 <= mw <= wa.w
    requires 1 <= i < n && 0 <= ty <= wa.h
    requires wa.h - ty >= (n - i) * (2 * BorderPx + 1)
    ensures Stacked(VStackColumn(wa, mw, n, i, ty), wa.y + ty)
    decreases n - i
  {
    var reqs := VStackColumn(wa, mw, n, i, ty);
    var h := ColumnHead(wa, mw, n, i, ty);
    var rest := VStackColumn(wa, mw, n, i + 1, ty + h);
    if i + 1 < n {
      ColumnStacked(wa, mw, n, i + 1, ty + h);
    }
    assert Stacked(rest, wa.y + ty + h);
  }

  /** Every request of the column has the column's x and width. */
  lemma {:induction false} ColumnColumn(wa: Rect, mw: int, n: nat, i: nat, ty: int)
    requires SmallArea(wa) && 0 <= mw <= wa.w
    requires 1 <= i < n && 0 <= ty <= wa.h
    requires wa.h - ty >= (n - i) * (2 * BorderPx + 1)
    ensures forall r | r in VStackColumn(wa, mw, n, i, ty) :: r.x == wa.x + mw && r.w == wa.w - mw - 2 * BorderPx
    decreases n - i
  {
    var reqs := VStackColumn(wa, mw, n, i, ty);
    var h := ColumnHead(wa, mw, n, i, ty);
    var rest := VStackColumn(wa, mw, n, i + 1, ty + h);
    if i + 1 < n {
      ColumnColumn(wa, mw, n, i + 1, ty + h);
    }
    assert reqs == [reqs[0]] + rest;
  }

  /** One step of the column: the share h, the request, and where the next one starts. */
  lemma ColumnHead(wa: Rect, mw: int, n: nat, i: nat, ty: int) returns (h: int)
    requires SmallArea(wa) && 0 <= mw <= wa.w
    requires 1 <= i < n && 0 <= ty <= wa.h
    requires wa.h - ty >= (n - i) * (2 * BorderPx + 1)
    ensures 2 * BorderPx + 1 <= h <= wa.h - ty
    ensures n - i == 1 ==> h == wa.h - ty
    ensures n - i > 1 ==> wa.h - ty - h >= (n - i - 1) * (2 * BorderPx + 1)
    ensures var reqs := VStackColumn(wa, mw, n, i, ty);
            && reqs[0] == Rect(wa.x + mw, wa.y + ty, wa.w - mw - 2 * BorderPx, h - 2 * BorderPx)
            && reqs[1..] == VStackColumn(wa, mw, n, i + 1, ty + h)
            && Outer(reqs[0].h) == h
  {
    h := (wa.h - ty) / (n - i);
    ShareStep(wa.h - ty, n - i, 2 * BorderPx + 1);
    var req := StackRequest(wa, mw, n, i, ty);
    assert req == Rect(wa.x + mw, wa.y + ty, wa.w - mw - 2 * BorderPx, h - 2 * BorderPx) by {
      StackRequestSmall(wa, mw, n, i, ty, h);
    }
    assert Outer(req.h) == h;
    assert ToUnsigned(ty + h) == ty + h;
  }

  /** In a small work area the unsigned arithmetic of a stack request never wraps. */
  lemma StackRequestSmall(wa: Rect, mw: int, n: nat, i: nat, ty: int, h: int)
    requires SmallArea(wa) && 0 <= mw <= wa.w
    requires 1 <= i < n && 0 <= ty <= wa.h && h == (wa.h - ty) / (n - i) && 2 * BorderPx + 1 <= h <= wa.h - ty
    ensures StackRequest(wa, mw, n, i, ty) == Rect(wa.x + mw, wa.y + ty, wa.w - mw - 2 * BorderPx, h - 2 * BorderPx)
  {
    assert ToUnsigned(wa.h - ty) == wa.h - ty;
    assert AsInt(wa.x + mw) == wa.x + mw;
    assert AsInt(wa.y + ty) == wa.y + ty;
    assert AsInt(wa.w - mw - 2 * BorderPx) == wa.w - mw - 2 * BorderPx;
    assert AsInt(h - 2 * BorderPx) == h - 2 * BorderPx;
  }

  /** Taking r / q out of r when r leaves at least m for each of q shares. */
  lemma ShareStep(r: int, q: int, m: int)
    requires q >= 1 && m >= 0 && r >= q * m
    ensures m <= r / q <= r
    ensures q == 1 ==> r / q == r
    ensures q > 1 ==> r - r / q >= (q - 1) * m
  {
    DivLowerBound(r, q, m);
    assert r >= 0;
    DivUpperBound(r, q, r);
    if q > 1 {
      ShareNonDecreasing(r, q);
      var s := (r - r / q) / (q - 1);
      assert r - r / q == (q - 1) * s + (r - r / q) % (q - 1);
      MulMono(m, s, q - 1);
    }
  }

  /**
   * vstack with n > 1 tiled clients: the master at (wx, wy) with width
   * mw - 2*borderpx and the full height, mw = ww * mfact; the n - 1 stack
   * clients at x = wx + mw, one under the other, and — as long as each share
   * of (wh - ty) / (n - i) leaves room for the borders — their outer heights
   * add up to exactly wh.
   */
  lemma VStackPlacement(wa: Rect, mfact: int, n: nat)
    requires SmallArea(wa) && 0 <= mfact <= 100 && n > 1
    requires wa.h >= (n - 1) * (2 * BorderPx + 1)
    ensures var reqs := VStack(wa, mfact, n);
            var mw := MasterSize(wa.w, mfact);
            && 0 <= mw <= wa.w
            && reqs[0] == Rect(wa.x, wa.y, mw - 2 * BorderPx, wa.h - 2 * BorderPx)
            && Span(reqs[1..]) == wa.h
            && Stacked(reqs[1..], wa.y)
            && forall k | 1 <= k < n ::
                 reqs[k].x == wa.x + mw && reqs[k].w == wa.w - mw - 2 * BorderPx
  {
    var reqs := VStack(wa, mfact, n);
    var mw := MasterSize(wa.w, mfact);
    PercentBounds(wa.w, mfact);
    assert ToUnsigned(mw) == mw;
    assert reqs[0] == Rect(wa.x, wa.y, mw - 2 * BorderPx, wa.h - 2 * BorderPx) by {
      MasterFull(wa, mw, n);
    }
    var col := VStackColumn(wa, mw, n, 1, 0);
    assert reqs[1..] == col;
    ColumnFills(wa, mw, n, 1, 0);
    forall k | 1 <= k < n
      ensures reqs[k].x == wa.x + mw && reqs[k].w == wa.w - mw - 2 * BorderPx
    {
      assert reqs[k] == col[k - 1];
      assert col[k - 1] in col;
    }
  }

  /** vstack's master with nothing placed yet: the whole height, inside its border. */
  lemma MasterFull(wa: Rect, mw: int, n: nat)
    requires SmallArea(wa) && 0 <= mw <= wa.w && n > 0
    ensures MasterRequest(wa, mw, n, 0, 0) == Rect(wa.x, wa.y, mw - 2 * BorderPx, wa.h - 2 * BorderPx)
  {
    var h := ToUnsigned(wa.h - 0) / (Min(n, 1) - 0);
    assert h == wa.h by {
      assert Min(n, 1) - 0 == 1;
      assert ToUnsigned(wa.h - 0) == wa.h;
    }
    assert AsInt(wa.y + 0) == wa.y;
    assert AsInt(mw - 2 * BorderPx) == mw - 2 * BorderPx;
    assert AsInt(h - 2 * BorderPx) == wa.h - 2 * BorderPx;
  }

  /** bstackhoriz's master with nothing placed yet: the whole width, inside its border. */
  lemma BMasterFull(wa: Rect, mh: int, n: nat)
    requires SmallArea(wa) && n > 0
    ensures BMasterRequest(wa, mh, n, 0, 0) == Rect(wa.x, wa.y, wa.w - 2 * BorderPx, mh - 2 * BorderPx)
  {
    var w := ToUnsigned(wa.w - 0) / (Min(n, 1) - 0);
    assert w == wa.w by {
      assert Min(n, 1) - 0 == 1;
      assert ToUnsigned(wa.w - 0) == wa.w;
    }
    assert AsInt(w) == wa.w;
  }

  /**
   * The example of a 1280x800 work area, mfact 0.6 and three tiled clients:
   * the master takes x in [0, 768) at full height, the other two x in
   * [768, 1280) with 400 pixels each (before the borders are taken off).
   */
  lemma VStackExample()
    ensures VStack(Rect(0, 0, 1280, 800), 60, 3)
            == [Rect(0, 0, 748, 780), Rect(768, 0, 492, 380), Rect(768, 400, 492, 380)]
  {
    var wa := Rect(0, 0, 1280, 800);
    assert MasterSize(1280, 60) == 768;
    assert ToUnsigned(768) == 768 && ToUnsigned(800) == 800;
    assert AsInt(768 - 2 * BorderPx) == 748 && AsInt(800 - 2 * BorderPx) == 780;
    assert ToUnsigned(800 - 0) / 2 == 400;
    var c1 := Rect(768, 0, 492, 380);
    assert AsInt(0 + 768) == 768 && AsInt(0 + 0) == 0 && AsInt(1280 - 768 - 2 * BorderPx) == 492;
    assert AsInt(400 - 2 * BorderPx) == 380;
    assert Outer(380) == 400 && ToUnsigned(0 + 400) == 400;
    assert ToUnsigned(800 - 400) / 1 == 400;
    assert AsInt(0 + 400) == 400;
    assert ToUnsigned(400 + Outer(380)) == 800;
    assert VStackColumn(wa, 768, 3, 3, 800) == [];
    assert VStackColumn(wa, 768, 3, 2, 400) == [Rect(768, 400, 492, 380)];
    assert VStackColumn(wa, 768, 3, 1, 0) == [c1, Rect(768, 400, 492, 380)];
  }

  // ----------------------------------------------------- bstackhoriz

  /**
   * The stack row of bstackhoriz from client i on: every client at x = wx with
   * the full width less the border and the fixed height th - 2*borderpx; each
   * starting where the previous one ended unless th is the whole height, in
   * which case all of them start at ty.
   */
  lemma {:induction false} RowPlacement(wa: Rect, th: int, n: nat, i: nat, ty: int)
    requires 1 <= i <= n
    ensures var reqs := BStackRow(wa, th, n, i, ty);
            && (forall k | 0 <= k < |reqs| ::
                  && reqs[k].x == wa.x && reqs[k].w == wa.w - 2 * BorderPx
                  && reqs[k].h == th - 2 * BorderPx)
            && (th != wa.h ==> Stacked(reqs, ty))
            && (th == wa.h ==> forall k | 0 <= k < |reqs| :: reqs[k].y == ty)
    decreases n - i
  {
    if i < n {
      var reqs := BStackRow(wa, th, n, i, ty);
      var ty' := if th != wa.h then ty + Outer(th - 2 * BorderPx) else ty;
      RowPlacement(wa, th, n, i + 1, ty');
      var rest := BStackRow(wa, th, n, i + 1, ty');
      assert reqs[1..] == rest;
      forall k | 1 <= k < |reqs|
        ensures reqs[k] == rest[k - 1]
      {
      }
    }
  }

  /**
   * bstackhoriz with n > 1: the master on top at full width with height
   * mh = wh * mfact; the n - 1 others in a row below it, each
   * th = (wh - mh) / (n - 1) high, one under the other; when th leaves room
   * for the borders they take (n - 1) * th, less than n - 1 pixels short of
   * the height left under the master.
   */
  lemma BStackPlacement(wa: Rect, mfact: int, n: nat)
    requires SmallArea(wa) && 0 <= mfact <= 100 && n > 1
    ensures var reqs := BStack(wa, mfact, n);
            var mh := BStackMaster(wa.h, mfact);
            var th := (wa.h - mh) / (n - 1);
            && 0 <= mh <= wa.h
            && reqs[0] == Rect(wa.x, wa.y, wa.w - 2 * BorderPx, mh - 2 * BorderPx)
            && (n - 1) * th <= wa.h - mh < (n - 1) * th + (n - 1)
            && (forall k | 1 <= k < n ::
                  && reqs[k].x == wa.x && reqs[k].w == wa.w - 2 * BorderPx
                  && reqs[k].h == th - 2 * BorderPx)
            && (th != wa.h ==> Stacked(reqs[1..], wa.y + mh))
            && (th >= 2 * BorderPx + 1 ==> Span(reqs[1..]) == (n - 1) * th)
  {
    var reqs := BStack(wa, mfact, n);
    var mh := BStackMaster(wa.h, mfact);
    var th := (wa.h - mh) / (n - 1);
    BStackHead(wa, mfact, n);
    var row := BStackRow(wa, th, n, 1, wa.y + mh);
    assert reqs[1..] == row;
    RowPlacement(wa, th, n, 1, wa.y + mh);
    forall k | 1 <= k < n
      ensures reqs[k] == row[k - 1]
    {
    }
    if th >= 2 * BorderPx + 1 {
      SpanUniform(row, th - 2 * BorderPx);
    }
  }

  /** The master of bstackhoriz and the fixed share of the others. */
  lemma BStackHead(wa: Rect, mfact: int, n: nat)
    requires SmallArea(wa) && 0 <= mfact <= 100 && n > 1
    ensures var mh := BStackMaster(wa.h, mfact);
            var th := (wa.h - mh) / (n - 1);
            && 0 <= mh <= wa.h
            && (n - 1) * th <= wa.h - mh < (n - 1) * th + (n - 1)
            && BStack(wa, mfact, n)
               == [Rect(wa.x, wa.y, wa.w - 2 * BorderPx, mh - 2 * BorderPx)]
                  + BStackRow(wa, th, n, 1, wa.y + mh)
  {
    var mh := BStackMaster(wa.h, mfact);
    PercentBounds(wa.h, mfact);
    assert mh == TruncDiv(wa.h * mfact, 100);
    var th := (wa.h - mh) / (n - 1);
    assert BStackShare(wa.h, mh, n) == th by {
      assert ToUnsigned(wa.h - mh) == wa.h - mh;
    }
    BMasterFull(wa, mh, n);
    Quotient(wa.h - mh, n - 1);
  }

  /** What a quotient leaves: the divisor times it, plus less than the divisor. */
  lemma Quotient(r: int, q: int)
    requires r >= 0 && q >= 1
    ensures q * (r / q) <= r < q * (r / q) + q
  {
    assert r == q * (r / q) + r % q;
  }

  // ------------------------------------------- tile_count as written

  /** Below 256 tiled clients the layouts as written ask what tile asks. */
  lemma AsWrittenAgrees(mw: int, mh: int, wa: Rect, mfact: int, count: nat)
    requires count < 256
    ensures TileRequestsAsWritten(mw, mh, wa, mfact, count) == Some(TileRequests(mw, mh, wa, mfact, count))
  {
    if count <= 1 {
      FewTiled(wa, mfact);
    }
  }

  /**
   * A positive multiple of 256 tiled clients: as written, no client is
   * resized, while tile asks a rectangle of every one of them.
   */
  lemma AsWrittenSkips(mw: int, mh: int, wa: Rect, mfact: int, count: nat)
    requires count > 0 && count % 256 == 0
    ensures TileRequestsAsWritten(mw, mh, wa, mfact, count) == Some([])
    ensures |TileRequests(mw, mh, wa, mfact, count)| == count > 0
  {
  }

  /**
   * One more than a multiple of 256 (257, 513, ...): as written, every
   * tiled client fills the work area as under monocle.
   */
  lemma AsWrittenMonocle(mw: int, mh: int, wa: Rect, mfact: int, count: nat)
    requires count % 256 == 1
    ensures TileRequestsAsWritten(mw, mh, wa, mfact, count) == Some(MonocleRequests(wa, count))
  {
  }

  /**
   * vstack with more than 256 tiled clients and a count that is neither 0
   * nor 1 modulo 256 divides by zero.
   */
  lemma AsWrittenDividesByZero(mw: int, mh: int, wa: Rect, mfact: int, count: nat)
    requires mw > mh && count > 256 && count % 256 > 1
    ensures TileRequestsAsWritten(mw, mh, wa, mfact, count) == None
  {
  }
}
