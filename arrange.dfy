/**
 * arrange and the layouts as dwm runs them: walk a monitor's client list
 * with nexttiled and resize each tiled client in turn, the request of each
 * one computed from counters the loop keeps (the heights of the clients
 * resized before it). Each method is proved to ask for exactly the
 * rectangles of the matching function of Layouts.
 */
module Arrange {
  import opened Wrappers
  import opened Geometry
  import opened Config
  import opened Seqs
  import opened Layouts
  import opened Model
  import opened Registry

  // ------------------------------------------------------------- resizes

  /**
   * The client records after resize(ids[k], reqs[k]) for k = 0, 1, ..., in
   * that order (a handle that is not managed, or whose monitor is gone, is
   * passed over; the layouts never ask for one).
   */
  function Resizes(cs: map<ClientId, Client>, ms: map<MonId, Monitor>, sw: int, sh: int,
                   ids: seq<ClientId>, reqs: seq<Rect>): (r: map<ClientId, Client>)
    requires |ids| == |reqs|
    ensures SameRoles(cs, r)
    ensures forall c | c in cs :: r[c].isfullscreen == cs[c].isfullscreen
    decreases |ids|
  {
    if ids == [] then cs
    else
      var n := |ids| - 1;
      ResizedAt(Resizes(cs, ms, sw, sh, ids[..n], reqs[..n]), ms, sw, sh, ids[n], reqs[n])
  }

  /** One step of Resizes: resize c to req if it is managed and its monitor exists. */
  function ResizedAt(cs: map<ClientId, Client>, ms: map<MonId, Monitor>, sw: int, sh: int,
                     c: ClientId, req: Rect): map<ClientId, Client>
  {
    if c in cs && cs[c].mon in ms then cs[c := Resized(cs[c], ms[cs[c].mon], sw, sh, req, false)] else cs
  }

  /** Resizing the first client and then the rest is the whole walk. */
  lemma {:induction false} ResizesCons(cs: map<ClientId, Client>, ms: map<MonId, Monitor>, sw: int, sh: int,
                                       c: ClientId, req: Rect, ids: seq<ClientId>, reqs: seq<Rect>)
    requires |ids| == |reqs|
    ensures Resizes(cs, ms, sw, sh, [c] + ids, [req] + reqs)
         == Resizes(ResizedAt(cs, ms, sw, sh, c, req), ms, sw, sh, ids, reqs)
    decreases |ids|
  {
    var n := |ids|;
    if n == 0 {
      assert ([c] + ids)[..0] == [] && ([req] + reqs)[..0] == [];
    } else {
      assert ([c] + ids)[..n] == [c] + ids[..n - 1] && ([req] + reqs)[..n] == [req] + reqs[..n - 1];
      assert ([c] + ids)[n] == ids[n - 1] && ([req] + reqs)[n] == reqs[n - 1];
      ResizesCons(cs, ms, sw, sh, c, req, ids[..n - 1], reqs[..n - 1]);
    }
  }

  /** resize of a tiled client on a monitor with a layout: HEIGHT(c) is then Outer of the request. */
  lemma TiledHeight(cl: Client, mon: Monitor, sw: int, sh: int, req: Rect)
    requires !cl.isfloating && mon.layout.Some?
    ensures Resized(cl, mon, sw, sh, req, false).geom.h + 2 * BorderPx == Outer(req.h)
    ensures Resized(cl, mon, sw, sh, req, false).geom.w + 2 * BorderPx == Outer(req.w)
  {
  }

  /** A client the walk does not name keeps its record. */
  lemma {:induction false} ResizesUntouched(cs: map<ClientId, Client>, ms: map<MonId, Monitor>, sw: int, sh: int,
                                            ids: seq<ClientId>, reqs: seq<Rect>, c: ClientId)
    requires |ids| == |reqs| && c in cs && c !in ids
    ensures Resizes(cs, ms, sw, sh, ids, reqs)[c] == cs[c]
    decreases |ids|
  {
    if ids != [] {
      var n := |ids| - 1;
      assert c != ids[n];
      assert c !in ids[..n];
      ResizesUntouched(cs, ms, sw, sh, ids[..n], reqs[..n], c);
    }
  }

  /**
   * With no client twice in the walk, the k-th client is resized once, from
   * its own record, on its own monitor and to the k-th request.
   */
  lemma {:induction false} ResizesAt(cs: map<ClientId, Client>, ms: map<MonId, Monitor>, sw: int, sh: int,
                                     ids: seq<ClientId>, reqs: seq<Rect>, k: nat)
    requires |ids| == |reqs| && k < |ids| && NoDup(ids) && ids[k] in cs && cs[ids[k]].mon in ms
    ensures Resizes(cs, ms, sw, sh, ids, reqs)[ids[k]] == Resized(cs[ids[k]], ms[cs[ids[k]].mon], sw, sh, reqs[k], false)
    decreases |ids|
  {
    var n := |ids| - 1;
    NoDupInit(ids);
    if k == n {
      ResizesUntouched(cs, ms, sw, sh, ids[..n], reqs[..n], ids[n]);
    } else {
      assert ids[..n][k] == ids[k] && reqs[..n][k] == reqs[k] && ids[k] != ids[n];
      ResizesAt(cs, ms, sw, sh, ids[..n], reqs[..n], k);
    }
  }

  /** nexttiled looks only at tags, monitors and floating flags, which resizing leaves alone. */
  lemma {:induction false} NextTiledFramed(s: seq<ClientId>, cs: map<ClientId, Client>, ms: map<MonId, Monitor>,
                                           cs': map<ClientId, Client>, k: nat)
    requires k <= |s| && SameRoles(cs, cs')
    ensures NextTiled(s, cs, ms, k) == NextTiled(s, cs', ms, k)
    decreases |s| - k
  {
    VisibleFramed(cs, ms, cs', ms);
    if k < |s| {
      NextTiledFramed(s, cs, ms, cs', k + 1);
    }
  }

  /** The tiled clients of a list without repeats hold no repeats either. */
  lemma {:induction false} TiledNoDup(s: seq<ClientId>, cs: map<ClientId, Client>, ms: map<MonId, Monitor>)
    requires NoDup(s)
    ensures NoDup(TiledClients(s, cs, ms))
    decreases |s|
  {
    if s != [] {
      assert NoDup(s[1..]) by {
        forall i, j | 0 <= i < j < |s[1..]| ensures s[1..][i] != s[1..][j] {
          assert s[1..][i] == s[i + 1] && s[1..][j] == s[j + 1];
        }
      }
      TiledNoDup(s[1..], cs, ms);
      var rest := TiledClients(s[1..], cs, ms);
      if Tiled(cs, ms, s[0]) {
        assert s[0] !in s[1..] by {
          forall i | 0 <= i < |s[1..]| ensures s[1..][i] != s[0] {
            assert s[1..][i] == s[i + 1];
          }
        }
        PrependNoDup(s[0], rest);
      }
    }
  }

  // ------------------------------------------------------------- layouts

  /** What a layout needs of monitor m: it exists, and every client on its list points at it. */
  ghost predicate Arrangeable(cs: map<ClientId, Client>, ms: map<MonId, Monitor>, m: MonId)
  {
    m in ms && forall c | c in ms[m].clients :: c in cs && cs[c].mon == m
  }

  /** The tiled clients of monitor m, in the order of its client list. */
  function TiledOf(cs: map<ClientId, Client>, ms: map<MonId, Monitor>, m: MonId): (t: seq<ClientId>)
    requires m in ms
    ensures |t| == TileCount(ms[m].clients, cs, ms)
    ensures forall k | 0 <= k < |t| :: t[k] in cs && cs[t[k]].mon in ms && !cs[t[k]].isfloating
  {
    var t := TiledClients(ms[m].clients, cs, ms);
    assert forall k | 0 <= k < |t| :: t[k] in t;
    t
  }

  /** Every tiled client of an arrangeable monitor is managed and on that monitor. */
  lemma TiledOfOn(cs: map<ClientId, Client>, ms: map<MonId, Monitor>, m: MonId)
    requires Arrangeable(cs, ms, m)
    ensures var t := TiledOf(cs, ms, m);
            forall k | 0 <= k < |t| :: t[k] in cs && cs[t[k]].mon == m && !cs[t[k]].isfloating
  {
    var t := TiledOf(cs, ms, m);
    forall k | 0 <= k < |t| ensures t[k] in cs && cs[t[k]].mon == m && !cs[t[k]].isfloating {
      assert t[k] in t;
    }
  }

  /** A nexttiled walk starts at the first tiled client of the list. */
  lemma TiledStart(s: seq<ClientId>, cs: map<ClientId, Client>, ms: map<MonId, Monitor>)
    ensures TiledFrom(s, cs, ms, NextTiled(s, cs, ms, 0)) == TiledClients(s, cs, ms)
  {
    NextTiledWalk(s, cs, ms, 0);
    assert s[0..] == s;
  }

  // --------------------------------------------------------------- walks

  /**
   * Which of the three layout loops is walking the list, with what it fixes
   * before the walk: vstack's master width mw, bstackhoriz's master height
   * mh and the height th of each of its stack rows.
   */
  datatype Walk = MonocleWalk | VStackWalk(mw: int) | BStackWalk(mh: int, th: int)

  /** The loop counters: i, then my and ty of vstack or mx and ty of bstackhoriz. */
  datatype Counters = Counters(i: nat, a: int, b: int)

  /** The counters before the first client. */
  function Start(w: Walk, wa: Rect): Counters
  {
    match w
    case BStackWalk(mh, _) => Counters(0, 0, wa.y + mh)
    case _ => Counters(0, 0, 0)
  }

  /** The rectangle the loop asks of its i-th tiled client, from the counters. */
  function Request(w: Walk, wa: Rect, n: nat, ctr: Counters): Rect
    requires ctr.i < n
  {
    match w
    case MonocleWalk => MonocleRect(wa)
    case VStackWalk(mw) =>
      if ctr.i < 1 then MasterRequest(wa, mw, n, ctr.i, ctr.a) else StackRequest(wa, mw, n, ctr.i, ctr.b)
    case BStackWalk(mh, th) =>
      if ctr.i < 1 then BMasterRequest(wa, mh, n, ctr.i, ctr.a) else RowRequest(wa, th, wa.x, ctr.b)
  }

  /** The counters after a client, given the WIDTH and HEIGHT its resize left it. */
  function Advance(w: Walk, wa: Rect, ctr: Counters, width: int, height: int): Counters
  {
    match w
    case MonocleWalk => Counters(ctr.i + 1, ctr.a, ctr.b)
    case VStackWalk(_) =>
      if ctr.i < 1 then Counters(ctr.i + 1, ToUnsigned(ctr.a + height), ctr.b)
      else Counters(ctr.i + 1, ctr.a, ToUnsigned(ctr.b + height))
    case BStackWalk(_, th) =>
      if ctr.i < 1 then Counters(ctr.i + 1, ctr.a + width, ctr.b)
      else Counters(ctr.i + 1, ctr.a, if th != wa.h then ctr.b + height else ctr.b)
  }

  /** The requests still to come, as the layout functions of Layouts state them. */
  function Pending(w: Walk, wa: Rect, n: nat, ctr: Counters): seq<Rect>
    requires ctr.i <= n
  {
    match w
    case MonocleWalk => MonocleRequests(wa, n - ctr.i)
    case VStackWalk(mw) =>
      if n < 2 then [] else if ctr.i == 0 then VStackTiles(wa, mw, n) else VStackColumn(wa, mw, n, ctr.i, ctr.b)
    case BStackWalk(mh, th) =>
      if n < 2 then [] else if ctr.i == 0 then BStackTiles(wa, mh, th, n) else BStackRow(wa, th, n, ctr.i, ctr.b)
  }

  /** What one layout loop fixes before it starts: the list, the monitors, the work area, n. */
  datatype Loop = Loop(l: seq<ClientId>, ms: map<MonId, Monitor>, sw: int, sh: int, wa: Rect, n: nat, w: Walk)

  /** Where a layout loop is: the client records so far, the index of c in the list, the counters. */
  datatype Progress = Progress(cs: map<ClientId, Client>, k: nat, ctr: Counters)

  /** One iteration: resize the client at k to its request, move the counters on, go to nexttiled(c->next). */
  function Step(lp: Loop, p: Progress): (q: Progress)
    requires p.k < |lp.l| && p.ctr.i < lp.n && lp.l[p.k] in p.cs && p.cs[lp.l[p.k]].mon in lp.ms
    ensures p.k < q.k <= |lp.l|
  {
    var c := lp.l[p.k];
    var next := p.cs[c := Resized(p.cs[c], lp.ms[p.cs[c].mon], lp.sw, lp.sh, Request(lp.w, lp.wa, lp.n, p.ctr), false)];
    Progress(next, NextTiled(lp.l, next, lp.ms, p.k + 1),
             Advance(lp.w, lp.wa, p.ctr, next[c].geom.w + 2 * BorderPx, next[c].geom.h + 2 * BorderPx))
  }

  /** The client records the rest of a layout loop leaves. */
  ghost function Placed(lp: Loop, p: Progress): map<ClientId, Client>
    requires p.k <= |lp.l|
    decreases |lp.l| - p.k
  {
    if p.k == |lp.l| || lp.n <= p.ctr.i || lp.l[p.k] !in p.cs || p.cs[lp.l[p.k]].mon !in lp.ms then p.cs
    else Placed(lp, Step(lp, p))
  }

  /** A walk at the end of the list has nothing left to place. */
  lemma {:induction false} PlacedDone(lp: Loop, p: Progress)
    requires p.k == |lp.l|
    ensures Placed(lp, p) == p.cs
  {
  }

  /** An iteration that resized c and moved the counters on leaves the rest of the loop to do. */
  lemma {:induction false} PlacedStep(lp: Loop, p: Progress)
    requires p.k < |lp.l| && p.ctr.i < lp.n && lp.l[p.k] in p.cs && p.cs[lp.l[p.k]].mon in lp.ms
    ensures Placed(lp, p) == Placed(lp, Step(lp, p))
  {
  }

  /**
   * From a tiled client, the walk visits it and then, in an arena that
   * agrees on the roles, the clients from the next tiled one on.
   */
  lemma {:induction false} TiledFromNext(l: seq<ClientId>, cs: map<ClientId, Client>, ms: map<MonId, Monitor>,
                                         next: map<ClientId, Client>, k: nat)
    requires k < |l| && Tiled(cs, ms, l[k]) && SameRoles(cs, next)
    ensures TiledFrom(l, cs, ms, k) == [l[k]] + TiledFrom(l, next, ms, NextTiled(l, next, ms, k + 1))
  {
    var j := NextTiled(l, next, ms, k + 1);
    var rest := TiledClients(l[k + 1..], cs, ms);
    assert TiledFrom(l, cs, ms, k) == [l[k]] + rest;
    NextTiledWalk(l, cs, ms, k + 1);
    NextTiledFramed(l, cs, ms, next, k + 1);
    assert rest == TiledFrom(l, cs, ms, j);
    if j < |l| {
      TiledFramed(l[j + 1..], cs, ms, next, ms);
    }
  }

  /** Changing only the geometry of one client keeps every role. */
  lemma {:induction false} RolesKept(cs: map<ClientId, Client>, c: ClientId, cl: Client)
    requires c in cs && cl == cs[c].(geom := cl.geom, oldGeom := cl.oldGeom)
    ensures SameRoles(cs, cs[c := cl])
  {
  }

  /** One resize of a tiled client of the walk: the roles stay, and the walk moves on past it. */
  lemma {:induction false} Stepped(lp: Loop, p: Progress)
    requires p.k < |lp.l| && Tiled(p.cs, lp.ms, lp.l[p.k]) && p.ctr.i < lp.n
    ensures var q := Step(lp, p);
            && SameRoles(p.cs, q.cs)
            && TiledFrom(lp.l, p.cs, lp.ms, p.k) == [lp.l[p.k]] + TiledFrom(lp.l, q.cs, lp.ms, q.k)
  {
    var q := Step(lp, p);
    var c := lp.l[p.k];
    RolesKept(p.cs, c, q.cs[c]);
    TiledFromNext(lp.l, p.cs, lp.ms, q.cs, p.k);
  }

  /** Each counter step issues the head of the requests still to come. */
  lemma {:induction false} PendingStep(w: Walk, wa: Rect, n: nat, ctr: Counters, width: int, height: int)
    requires ctr.i < n && (ctr.i == 0 ==> ctr == Start(w, wa)) && (!w.MonocleWalk? ==> n > 1)
    requires width == Outer(Request(w, wa, n, ctr).w) && height == Outer(Request(w, wa, n, ctr).h)
    ensures Advance(w, wa, ctr, width, height).i == ctr.i + 1
    ensures Pending(w, wa, n, ctr) == [Request(w, wa, n, ctr)] + Pending(w, wa, n, Advance(w, wa, ctr, width, height))
  {
    if w.MonocleWalk? {
      assert MonocleRequests(wa, n - ctr.i) == [MonocleRect(wa)] + MonocleRequests(wa, n - ctr.i - 1);
    }
  }

  /** The number of tiled clients of l from index k on. */
  ghost function TiledLeft(l: seq<ClientId>, cs: map<ClientId, Client>, ms: map<MonId, Monitor>, k: nat): nat
    requires k <= |l|
    decreases |l| - k
  {
    if k == |l| then 0 else (if Tiled(cs, ms, l[k]) then 1 else 0) + TiledLeft(l, cs, ms, k + 1)
  }

  /** TiledLeft counts what TiledClients lists. */
  lemma {:induction false} TiledLeftCounts(l: seq<ClientId>, cs: map<ClientId, Client>, ms: map<MonId, Monitor>, k: nat)
    requires k <= |l|
    ensures TiledLeft(l, cs, ms, k) == |TiledClients(l[k..], cs, ms)|
    decreases |l| - k
  {
    if k < |l| {
      assert l[k..][0] == l[k] && l[k..][1..] == l[k + 1..];
      TiledLeftCounts(l, cs, ms, k + 1);
    }
  }

  /** From a tiled client, or the end, the count is the length of the rest of the walk. */
  lemma {:induction false} TiledLeftFrom(l: seq<ClientId>, cs: map<ClientId, Client>, ms: map<MonId, Monitor>, k: nat)
    requires k <= |l| && (k < |l| ==> Tiled(cs, ms, l[k]))
    ensures TiledLeft(l, cs, ms, k) == |TiledFrom(l, cs, ms, k)|
  {
    TiledLeftCounts(l, cs, ms, k);
    NextTiledWalk(l, cs, ms, k);
    assert NextTiled(l, cs, ms, k) == k;
  }

  /** The walk starts with all tile_count clients to visit. */
  lemma {:induction false} TiledLeftStart(l: seq<ClientId>, cs: map<ClientId, Client>, ms: map<MonId, Monitor>)
    ensures TiledLeft(l, cs, ms, NextTiled(l, cs, ms, 0)) == TileCount(l, cs, ms)
  {
    TiledLeftFrom(l, cs, ms, NextTiled(l, cs, ms, 0));
    TiledStart(l, cs, ms);
  }

  /** An iteration of a layout loop leaves one tiled client fewer to visit. */
  lemma {:induction false} Counted(lp: Loop, p: Progress)
    requires p.k < |lp.l| && Tiled(p.cs, lp.ms, lp.l[p.k]) && p.ctr.i < lp.n
    ensures var q := Step(lp, p);
            && TiledLeft(lp.l, p.cs, lp.ms, p.k) == 1 + TiledLeft(lp.l, q.cs, lp.ms, q.k)
            && Placed(lp, p) == Placed(lp, q)
  {
    var q := Step(lp, p);
    PlacedStep(lp, p);
    Stepped(lp, p);
    TiledLeftFrom(lp.l, p.cs, lp.ms, p.k);
    TiledLeftFrom(lp.l, q.cs, lp.ms, q.k);
  }

  /** Every client of list l is managed and on monitor m. */
  ghost predicate Homed(l: seq<ClientId>, cs: map<ClientId, Client>, m: MonId)
  {
    forall c | c in l :: c in cs && cs[c].mon == m
  }

  /** Resizing keeps every client where it was. */
  lemma {:induction false} HomedKept(l: seq<ClientId>, cs: map<ClientId, Client>, cs': map<ClientId, Client>, m: MonId)
    requires Homed(l, cs, m) && SameRoles(cs, cs')
    ensures Homed(l, cs', m)
  {
  }

  /** What a layout loop may start from: the clients of l on monitor m, which has a layout. */
  ghost predicate Walkable(lp: Loop, p: Progress, m: MonId)
  {
    && m in lp.ms && lp.ms[m].layout.Some? && Homed(lp.l, p.cs, m)
    && p.k <= |lp.l| && (p.k < |lp.l| ==> Tiled(p.cs, lp.ms, lp.l[p.k]))
    && p.ctr.i + |TiledFrom(lp.l, p.cs, lp.ms, p.k)| == lp.n
    && (p.ctr.i == 0 ==> p.ctr == Start(lp.w, lp.wa)) && (!lp.w.MonocleWalk? ==> lp.n > 1)
  }

  /**
   * The rest of a layout loop resizes the tiled clients from k on, in list
   * order, to exactly the requests the layout functions still list.
   */
  lemma {:induction false} PlacedResizes(lp: Loop, p: Progress, m: MonId)
    requires Walkable(lp, p, m)
    ensures Placed(lp, p) == Resizes(p.cs, lp.ms, lp.sw, lp.sh, TiledFrom(lp.l, p.cs, lp.ms, p.k), Pending(lp.w, lp.wa, lp.n, p.ctr))
    decreases |lp.l| - p.k
  {
    var l, ms, sw, sh, wa, n, w := lp.l, lp.ms, lp.sw, lp.sh, lp.wa, lp.n, lp.w;
    var cs, k, ctr := p.cs, p.k, p.ctr;
    if k < |l| {
      var c := l[k];
      assert c in cs && cs[c].mon == m by { assert c in l; }
      assert ctr.i < n by { assert |TiledFrom(l, cs, ms, k)| > 0; }
      var q := Step(lp, p);
      var req := Request(w, wa, n, ctr);
      var visit, rest := TiledFrom(l, q.cs, ms, q.k), Pending(w, wa, n, q.ctr);
      assert TiledFrom(l, cs, ms, k) == [c] + visit && SameRoles(cs, q.cs) by {
        Stepped(lp, p);
      }
      assert q.cs == cs[c := Resized(cs[c], ms[m], sw, sh, req, false)];
      assert Pending(w, wa, n, ctr) == [req] + rest && q.ctr.i == ctr.i + 1 by {
        TiledHeight(cs[c], ms[m], sw, sh, req);
        PendingStep(w, wa, n, ctr, q.cs[c].geom.w + 2 * BorderPx, q.cs[c].geom.h + 2 * BorderPx);
      }
      HomedKept(l, cs, q.cs, m);
      PlacedStep(lp, p);
      PlacedResizes(lp, q, m);
      assert ResizedAt(cs, ms, sw, sh, c, req) == q.cs;
      ResizesCons(cs, ms, sw, sh, c, req, visit, rest);
    } else {
      assert TiledFrom(l, cs, ms, k) == [] && Pending(w, wa, n, ctr) == [];
    }
  }

  /** What a walk from the first tiled client of monitor m's list leaves. */
  lemma {:induction false} PlacedFromStart(cs: map<ClientId, Client>, ms: map<MonId, Monitor>, sw: int, sh: int,
                                           m: MonId, n: nat, w: Walk)
    requires Arrangeable(cs, ms, m) && ms[m].layout.Some?
    requires n == TileCount(ms[m].clients, cs, ms) && (!w.MonocleWalk? ==> n > 1)
    ensures var l, wa := ms[m].clients, ms[m].wa;
            Placed(Loop(l, ms, sw, sh, wa, n, w), Progress(cs, NextTiled(l, cs, ms, 0), Start(w, wa))) ==
            Resizes(cs, ms, sw, sh, TiledOf(cs, ms, m), Pending(w, wa, n, Start(w, wa)))
  {
    var l := ms[m].clients;
    TiledStart(l, cs, ms);
    PlacedResizes(Loop(l, ms, sw, sh, ms[m].wa, n, w), Progress(cs, NextTiled(l, cs, ms, 0), Start(w, ms[m].wa)), m);
  }

  // ------------------------------------------------------------- layouts

  /** monocle: every tiled client takes the whole work area inside its border. */
  method ArrangeMonocle(wm: WindowManager, m: MonId)
    requires Arrangeable(wm.clients, wm.monitors, m) && wm.monitors[m].layout.Some?
    modifies wm
    ensures wm.monitors == old(wm.monitors) && wm.mons == old(wm.mons) && wm.selmon == old(wm.selmon)
    ensures var t := TiledOf(old(wm.clients), wm.monitors, m);
            wm.clients == Resizes(old(wm.clients), wm.monitors, wm.sw, wm.sh, t, MonocleRequests(wm.monitors[m].wa, |t|))
    ensures wm.sw == old(wm.sw) && wm.sh == old(wm.sh) && wm.nextClient == old(wm.nextClient) && wm.nextMon == old(wm.nextMon)
  {
    var wa := wm.monitors[m].wa;
    var l := wm.monitors[m].clients;
    var n := TileCount(l, wm.clients, wm.monitors);
    ghost var lp := Loop(l, wm.monitors, wm.sw, wm.sh, wa, n, MonocleWalk);
    PlacedFromStart(wm.clients, wm.monitors, wm.sw, wm.sh, m, n, MonocleWalk);
    TiledLeftStart(l, wm.clients, wm.monitors);
    MonocleLoop(wm, l, wa, n, lp);
  }

  /** The loop of monocle: each tiled client in turn is resized to the work area. */
  method MonocleLoop(wm: WindowManager, l: seq<ClientId>, wa: Rect, n: nat, ghost lp: Loop)
    requires lp == Loop(l, wm.monitors, wm.sw, wm.sh, wa, n, MonocleWalk)
    requires TiledLeft(l, wm.clients, wm.monitors, NextTiled(l, wm.clients, wm.monitors, 0)) == n
    modifies wm
    ensures wm.clients == Placed(lp, Progress(old(wm.clients), NextTiled(l, old(wm.clients), lp.ms, 0), Start(lp.w, wa)))
    ensures wm.monitors == old(wm.monitors) && wm.mons == old(wm.mons) && wm.selmon == old(wm.selmon)
    ensures wm.sw == old(wm.sw) && wm.sh == old(wm.sh) && wm.nextClient == old(wm.nextClient) && wm.nextMon == old(wm.nextMon)
  {
    ghost var final := Placed(lp, Progress(wm.clients, NextTiled(l, wm.clients, lp.ms, 0), Start(lp.w, wa)));
    ghost var i := 0;
    var k := NextTiled(l, wm.clients, wm.monitors, 0);
    while k < |l|
      invariant k <= |l| && (k < |l| ==> Tiled(wm.clients, lp.ms, l[k]))
      invariant i + TiledLeft(l, wm.clients, lp.ms, k) == n
      invariant Placed(lp, Progress(wm.clients, k, Counters(i, 0, 0))) == final
      invariant wm.monitors == lp.ms && wm.mons == old(wm.mons) && wm.selmon == old(wm.selmon)
      invariant wm.sw == lp.sw && wm.sh == lp.sh
      invariant wm.nextClient == old(wm.nextClient) && wm.nextMon == old(wm.nextMon)
      decreases |l| - k
    {
      ghost var p := Progress(wm.clients, k, Counters(i, 0, 0));
      Counted(lp, p);
      k := MonoclePlace(wm, l, k, wa, n, i, lp, p);
      i := i + 1;
    }
    PlacedDone(lp, Progress(wm.clients, k, Counters(i, 0, 0)));
  }

  /** One client of monocle's loop: the tiled client at k takes the work area. */
  method MonoclePlace(wm: WindowManager, l: seq<ClientId>, k: nat, wa: Rect, n: nat, ghost i: nat,
                      ghost lp: Loop, ghost p: Progress)
      returns (k': nat)
    requires lp == Loop(l, wm.monitors, wm.sw, wm.sh, wa, n, MonocleWalk)
    requires p == Progress(wm.clients, k, Counters(i, 0, 0))
    requires k < |l| && Tiled(wm.clients, wm.monitors, l[k]) && i < n
    modifies wm
    ensures Step(lp, p) == Progress(wm.clients, k', Counters(i + 1, 0, 0))
    ensures k' == NextTiled(l, wm.clients, wm.monitors, k + 1)
    ensures wm.monitors == old(wm.monitors) && wm.mons == old(wm.mons) && wm.selmon == old(wm.selmon)
    ensures wm.sw == old(wm.sw) && wm.sh == old(wm.sh) && wm.nextClient == old(wm.nextClient) && wm.nextMon == old(wm.nextMon)
  {
    wm.Resize(l[k], MonocleRect(wa), false);
    k' := NextTiled(l, wm.clients, wm.monitors, k + 1);
  }

  /**
   * vstack: n = tile_count(m); none, one (monocle) or a master column of
   * width mw = ww * mfact and a stack column sharing the height.
   */
  method ArrangeVStack(wm: WindowManager, m: MonId)
    requires Arrangeable(wm.clients, wm.monitors, m) && wm.monitors[m].layout.Some?
    modifies wm
    ensures wm.monitors == old(wm.monitors) && wm.mons == old(wm.mons) && wm.selmon == old(wm.selmon)
    ensures var t := TiledOf(old(wm.clients), wm.monitors, m);
            var mon := wm.monitors[m];
            wm.clients == Resizes(old(wm.clients), wm.monitors, wm.sw, wm.sh, t, VStack(mon.wa, mon.mfact, |t|))
    ensures wm.sw == old(wm.sw) && wm.sh == old(wm.sh) && wm.nextClient == old(wm.nextClient) && wm.nextMon == old(wm.nextMon)
  {
    var wa := wm.monitors[m].wa;
    var l := wm.monitors[m].clients;
    var n := TileCount(l, wm.clients, wm.monitors);
    if n == 0 {
      return;
    } else if n == 1 {
      ArrangeMonocle(wm, m);
      return;
    }
    var mw := ToUnsigned(MasterSize(wa.w, wm.monitors[m].mfact));
    ghost var lp := Loop(l, wm.monitors, wm.sw, wm.sh, wa, n, VStackWalk(mw));
    PlacedFromStart(wm.clients, wm.monitors, wm.sw, wm.sh, m, n, VStackWalk(mw));
    TiledLeftStart(l, wm.clients, wm.monitors);
    VStackLoop(wm, l, wa, n, mw, lp);
    assert Pending(lp.w, wa, n, Start(lp.w, wa)) == VStackTiles(wa, mw, n);
  }

  /**
   * The loop of vstack, for n > 1 tiled clients and a master column of
   * width mw.
   */
  method VStackLoop(wm: WindowManager, l: seq<ClientId>, wa: Rect, n: nat, mw: int, ghost lp: Loop)
    requires lp == Loop(l, wm.monitors, wm.sw, wm.sh, wa, n, VStackWalk(mw))
    requires TiledLeft(l, wm.clients, wm.monitors, NextTiled(l, wm.clients, wm.monitors, 0)) == n
    modifies wm
    ensures wm.clients == Placed(lp, Progress(old(wm.clients), NextTiled(l, old(wm.clients), lp.ms, 0), Start(lp.w, wa)))
    ensures wm.monitors == old(wm.monitors) && wm.mons == old(wm.mons) && wm.selmon == old(wm.selmon)
    ensures wm.sw == old(wm.sw) && wm.sh == old(wm.sh) && wm.nextClient == old(wm.nextClient) && wm.nextMon == old(wm.nextMon)
  {
    ghost var final := Placed(lp, Progress(wm.clients, NextTiled(l, wm.clients, lp.ms, 0), Start(lp.w, wa)));
    var i, my, ty := 0, 0, 0;
    var k := NextTiled(l, wm.clients, wm.monitors, 0);
    while k < |l|
      invariant k <= |l| && (k < |l| ==> Tiled(wm.clients, lp.ms, l[k]))
      invariant i + TiledLeft(l, wm.clients, lp.ms, k) == n
      invariant Placed(lp, Progress(wm.clients, k, Counters(i, my, ty))) == final
      invariant wm.monitors == lp.ms && wm.mons == old(wm.mons) && wm.selmon == old(wm.selmon)
      invariant wm.sw == lp.sw && wm.sh == lp.sh
      invariant wm.nextClient == old(wm.nextClient) && wm.nextMon == old(wm.nextMon)
      decreases |l| - k
    {
      ghost var p := Progress(wm.clients, k, Counters(i, my, ty));
      Counted(lp, p);
      k, my, ty := VStackPlace(wm, l, k, wa, mw, n, i, my, ty, lp, p);
      i := i + 1;
    }
    PlacedDone(lp, Progress(wm.clients, k, Counters(i, my, ty)));
  }

  /**
   * One client of vstack's loop: the i-th tiled client c goes in the master
   * column (i < nmaster, which is 1) or the stack column, and that column's
   * unsigned counter moves on by the HEIGHT the resize left.
   */
  method VStackPlace(wm: WindowManager, l: seq<ClientId>, k: nat, wa: Rect, mw: int, n: nat, i: nat, my: int, ty: int,
                     ghost lp: Loop, ghost p: Progress)
      returns (k': nat, my': int, ty': int)
    requires lp == Loop(l, wm.monitors, wm.sw, wm.sh, wa, n, VStackWalk(mw))
    requires p == Progress(wm.clients, k, Counters(i, my, ty))
    requires k < |l| && Tiled(wm.clients, wm.monitors, l[k]) && i < n
    modifies wm
    ensures Step(lp, p) == Progress(wm.clients, k', Counters(i + 1, my', ty'))
    ensures k' == NextTiled(l, wm.clients, wm.monitors, k + 1)
    ensures wm.monitors == old(wm.monitors) && wm.mons == old(wm.mons) && wm.selmon == old(wm.selmon)
    ensures wm.sw == old(wm.sw) && wm.sh == old(wm.sh) && wm.nextClient == old(wm.nextClient) && wm.nextMon == old(wm.nextMon)
  {
    var c := l[k];
    my', ty' := my, ty;
    if i < 1 {
      wm.Resize(c, MasterRequest(wa, mw, n, i, my), false);
      my' := ToUnsigned(my + wm.clients[c].geom.h + 2 * BorderPx);
    } else {
      wm.Resize(c, StackRequest(wa, mw, n, i, ty), false);
      ty' := ToUnsigned(ty + wm.clients[c].geom.h + 2 * BorderPx);
    }
    k' := NextTiled(l, wm.clients, wm.monitors, k + 1);
  }

  /**
   * bstackhoriz: n = tile_count(m); none, one (monocle) or a master row of
   * height mh = mfact * wh over stack rows of height th each.
   */
  method ArrangeBStack(wm: WindowManager, m: MonId)
    requires Arrangeable(wm.clients, wm.monitors, m) && wm.monitors[m].layout.Some?
    modifies wm
    ensures wm.monitors == old(wm.monitors) && wm.mons == old(wm.mons) && wm.selmon == old(wm.selmon)
    ensures var t := TiledOf(old(wm.clients), wm.monitors, m);
            var mon := wm.monitors[m];
            wm.clients == Resizes(old(wm.clients), wm.monitors, wm.sw, wm.sh, t, BStack(mon.wa, mon.mfact, |t|))
    ensures wm.sw == old(wm.sw) && wm.sh == old(wm.sh) && wm.nextClient == old(wm.nextClient) && wm.nextMon == old(wm.nextMon)
  {
    var wa := wm.monitors[m].wa;
    var l := wm.monitors[m].clients;
    var n := TileCount(l, wm.clients, wm.monitors);
    if n == 0 {
      return;
    } else if n == 1 {
      ArrangeMonocle(wm, m);
      return;
    }
    var mh := BStackMaster(wa.h, wm.monitors[m].mfact);
    var th := BStackShare(wa.h, mh, n);
    ghost var lp := Loop(l, wm.monitors, wm.sw, wm.sh, wa, n, BStackWalk(mh, th));
    PlacedFromStart(wm.clients, wm.monitors, wm.sw, wm.sh, m, n, BStackWalk(mh, th));
    TiledLeftStart(l, wm.clients, wm.monitors);
    BStackLoop(wm, l, wa, n, mh, th, lp);
    assert Pending(lp.w, wa, n, Start(lp.w, wa)) == BStackTiles(wa, mh, th, n);
  }

  /**
   * The loop of bstackhoriz, for n > 1 tiled clients, a master row of
   * height mh and stack rows of height th.
   */
  method BStackLoop(wm: WindowManager, l: seq<ClientId>, wa: Rect, n: nat, mh: int, th: int, ghost lp: Loop)
    requires lp == Loop(l, wm.monitors, wm.sw, wm.sh, wa, n, BStackWalk(mh, th))
    requires TiledLeft(l, wm.clients, wm.monitors, NextTiled(l, wm.clients, wm.monitors, 0)) == n
    modifies wm
    ensures wm.clients == Placed(lp, Progress(old(wm.clients), NextTiled(l, old(wm.clients), lp.ms, 0), Start(lp.w, wa)))
    ensures wm.monitors == old(wm.monitors) && wm.mons == old(wm.mons) && wm.selmon == old(wm.selmon)
    ensures wm.sw == old(wm.sw) && wm.sh == old(wm.sh) && wm.nextClient == old(wm.nextClient) && wm.nextMon == old(wm.nextMon)
  {
    ghost var final := Placed(lp, Progress(wm.clients, NextTiled(l, wm.clients, lp.ms, 0), Start(lp.w, wa)));
    var i, mx, tx, ty := 0, 0, wa.x, wa.y + mh;
    var k := NextTiled(l, wm.clients, wm.monitors, 0);
    while k < |l|
      invariant k <= |l| && (k < |l| ==> Tiled(wm.clients, lp.ms, l[k]))
      invariant i + TiledLeft(l, wm.clients, lp.ms, k) == n
      invariant Placed(lp, Progress(wm.clients, k, Counters(i, mx, ty))) == final
      invariant tx == wa.x
      invariant wm.monitors == lp.ms && wm.mons == old(wm.mons) && wm.selmon == old(wm.selmon)
      invariant wm.sw == lp.sw && wm.sh == lp.sh
      invariant wm.nextClient == old(wm.nextClient) && wm.nextMon == old(wm.nextMon)
      decreases |l| - k
    {
      ghost var p := Progress(wm.clients, k, Counters(i, mx, ty));
      Counted(lp, p);
      k, mx, ty := BStackPlace(wm, l, k, wa, mh, th, n, i, mx, tx, ty, lp, p);
      i := i + 1;
    }
    PlacedDone(lp, Progress(wm.clients, k, Counters(i, mx, ty)));
  }

  /**
   * One client of bstackhoriz's loop: the master shares the top row and
   * moves mx on by its WIDTH; a stack client takes a th-high row at (tx, ty)
   * and moves ty on by its HEIGHT unless th is the whole height.
   */
  method BStackPlace(wm: WindowManager, l: seq<ClientId>, k: nat, wa: Rect, mh: int, th: int, n: nat, i: nat,
                     mx: int, tx: int, ty: int, ghost lp: Loop, ghost p: Progress)
      returns (k': nat, mx': int, ty': int)
    requires lp == Loop(l, wm.monitors, wm.sw, wm.sh, wa, n, BStackWalk(mh, th))
    requires p == Progress(wm.clients, k, Counters(i, mx, ty))
    requires k < |l| && Tiled(wm.clients, wm.monitors, l[k]) && i < n && tx == wa.x
    modifies wm
    ensures Step(lp, p) == Progress(wm.clients, k', Counters(i + 1, mx', ty'))
    ensures k' == NextTiled(l, wm.clients, wm.monitors, k + 1)
    ensures wm.monitors == old(wm.monitors) && wm.mons == old(wm.mons) && wm.selmon == old(wm.selmon)
    ensures wm.sw == old(wm.sw) && wm.sh == old(wm.sh) && wm.nextClient == old(wm.nextClient) && wm.nextMon == old(wm.nextMon)
  {
    var c := l[k];
    mx', ty' := mx, ty;
    if i < 1 {
      wm.Resize(c, BMasterRequest(wa, mh, n, i, mx), false);
      mx' := mx + wm.clients[c].geom.w + 2 * BorderPx;
    } else {
      wm.Resize(c, RowRequest(wa, th, tx, ty), false);
      if th != wa.h {
        ty' := ty + wm.clients[c].geom.h + 2 * BorderPx;
      }
    }
    k' := NextTiled(l, wm.clients, wm.monitors, k + 1);
  }
}
