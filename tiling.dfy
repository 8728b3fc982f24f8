/**
 * arrange as a whole: showhide puts every visible client that no layout
 * places (floating, or on a monitor without a layout) back through resize
 * at its own geometry, then arrangemon runs the monitor's layout, tile
 * choosing vstack or bstackhoriz by the monitor's shape.
 */
module Tiling {
  import opened Wrappers
  import opened Geometry
  import opened Seqs
  import opened Layouts
  import opened LayoutFacts
  import opened Model
  import opened Registry
  import opened Arrange

  // ------------------------------------------------------------- showhide

  /** Whether showhide resizes c: visible, placed by no layout, and not fullscreen. */
  predicate Shows(cs: map<ClientId, Client>, ms: map<MonId, Monitor>, c: ClientId)
  {
    Visible(cs, ms, c) && (ms[cs[c].mon].layout.None? || cs[c].isfloating) && !cs[c].isfullscreen
  }

  /** What showhide does to one client of the stack. */
  function ShowOne(cs: map<ClientId, Client>, ms: map<MonId, Monitor>, sw: int, sh: int, c: ClientId): (r: map<ClientId, Client>)
    ensures SameRoles(cs, r)
    ensures forall x | x in cs :: r[x].isfullscreen == cs[x].isfullscreen
  {
    if Shows(cs, ms, c) then cs[c := Resized(cs[c], ms[cs[c].mon], sw, sh, cs[c].geom, false)] else cs
  }

  /** The client records after showhide walks the stack s from index k to its end. */
  function ShownFrom(cs: map<ClientId, Client>, ms: map<MonId, Monitor>, sw: int, sh: int,
                     s: seq<ClientId>, k: nat): (r: map<ClientId, Client>)
    requires k <= |s|
    ensures SameRoles(cs, r)
    ensures forall x | x in cs :: r[x].isfullscreen == cs[x].isfullscreen
    decreases |s| - k
  {
    if k == |s| then cs else ShownFrom(ShowOne(cs, ms, sw, sh, s[k]), ms, sw, sh, s, k + 1)
  }

  /**
   * On a stack without repeats, showhide resizes each client of s[k..] that
   * Shows once, to its own geometry, and leaves every other client alone.
   */
  lemma {:induction false} ShownEach(cs: map<ClientId, Client>, ms: map<MonId, Monitor>, sw: int, sh: int,
                                     s: seq<ClientId>, k: nat, c: ClientId)
    requires k <= |s| && NoDup(s) && c in cs
    ensures ShownFrom(cs, ms, sw, sh, s, k)[c] ==
            if c in s[k..] && Shows(cs, ms, c) then Resized(cs[c], ms[cs[c].mon], sw, sh, cs[c].geom, false) else cs[c]
    decreases |s| - k
  {
    if k < |s| {
      var cs1 := ShowOne(cs, ms, sw, sh, s[k]);
      ShownEach(cs1, ms, sw, sh, s, k + 1, c);
      assert s[k..] == [s[k]] + s[k + 1..];
      if c == s[k] {
        assert c !in s[k + 1..] by {
          forall i | k + 1 <= i < |s| ensures s[i] != c {
            assert s[i] != s[k];
          }
        }
      } else {
        assert cs1[c] == cs[c];
        VisibleFramed(cs, ms, cs1, ms);
      }
    }
  }

  /**
   * showhide(c), walking the focus stack s from index k: a visible client is
   * shown (and resized if Shows) before the rest of the stack, an invisible
   * one hidden after it; moving windows on or off screen is left out.
   */
  method ShowHide(wm: WindowManager, s: seq<ClientId>, k: nat)
    requires k <= |s|
    modifies wm
    ensures wm.monitors == old(wm.monitors) && wm.mons == old(wm.mons) && wm.selmon == old(wm.selmon)
    ensures wm.clients == ShownFrom(old(wm.clients), wm.monitors, wm.sw, wm.sh, s, k)
    ensures wm.sw == old(wm.sw) && wm.sh == old(wm.sh) && wm.nextClient == old(wm.nextClient) && wm.nextMon == old(wm.nextMon)
    decreases |s| - k
  {
    if k == |s| {
      return;
    }
    var c := s[k];
    if Visible(wm.clients, wm.monitors, c) {
      if (wm.monitors[wm.clients[c].mon].layout.None? || wm.clients[c].isfloating) && !wm.clients[c].isfullscreen {
        wm.Resize(c, wm.clients[c].geom, false);
      }
      ShowHide(wm, s, k + 1);
    } else {
      ShowHide(wm, s, k + 1);
    }
  }

  // ---------------------------------------------------------- arrangemon

  /** The client records after monitor m's layout has run (none: unchanged). */
  function LaidOut(cs: map<ClientId, Client>, ms: map<MonId, Monitor>, sw: int, sh: int, m: MonId): (r: map<ClientId, Client>)
    requires m in ms
    ensures SameRoles(cs, r)
  {
    var mon := ms[m];
    var t := TiledOf(cs, ms, m);
    match mon.layout
    case None => cs
    case Some(Tile) => Resizes(cs, ms, sw, sh, t, TileRequests(mon.scr.w, mon.scr.h, mon.wa, mon.mfact, |t|))
    case Some(Monocle) => Resizes(cs, ms, sw, sh, t, MonocleRequests(mon.wa, |t|))
  }

  /**
   * arrangemon with tile_count as written (see TileRequestsAsWritten); None
   * where vstack divides by zero. Monocle does not call tile_count.
   */
  function LaidOutAsWritten(cs: map<ClientId, Client>, ms: map<MonId, Monitor>, sw: int, sh: int, m: MonId)
      : (r: Option<map<ClientId, Client>>)
    requires m in ms
    ensures TileCount(ms[m].clients, cs, ms) < 256 ==> r == Some(LaidOut(cs, ms, sw, sh, m))
  {
    var mon := ms[m];
    var t := TiledOf(cs, ms, m);
    if mon.layout != Some(Tile) then Some(LaidOut(cs, ms, sw, sh, m))
    else
      match TileRequestsAsWritten(mon.scr.w, mon.scr.h, mon.wa, mon.mfact, |t|)
      case None => None
      case Some(reqs) =>
        if |t| % 256 == 0 then Some(cs)
        else if |t| < 256 then
          AsWrittenAgrees(mon.scr.w, mon.scr.h, mon.wa, mon.mfact, |t|);
          Some(Resizes(cs, ms, sw, sh, t, reqs))
        else Some(Resizes(cs, ms, sw, sh, t, reqs))
  }

  /**
   * Exactly 256 tiled clients under tile: as written the layout resizes
   * none of them, while LaidOut resizes each to its request.
   */
  lemma WrappedCountSkipsLayout(cs: map<ClientId, Client>, ms: map<MonId, Monitor>, sw: int, sh: int, m: MonId)
    requires m in ms && ms[m].layout == Some(Tile) && TileCount(ms[m].clients, cs, ms) == 256
    ensures TileCountAsWritten(ms[m].clients, cs, ms) == 0
    ensures LaidOutAsWritten(cs, ms, sw, sh, m) == Some(cs)
    ensures var mon := ms[m];
            var t := TiledOf(cs, ms, m);
            |t| == 256 && LaidOut(cs, ms, sw, sh, m) == Resizes(cs, ms, sw, sh, t, TileRequests(mon.scr.w, mon.scr.h, mon.wa, mon.mfact, 256))
  {
    var mon := ms[m];
    AsWrittenSkips(mon.scr.w, mon.scr.h, mon.wa, mon.mfact, 256);
  }

  /** The rectangles monitor m's layout asks of its tiled clients, in list order. */
  function Requests(ms: map<MonId, Monitor>, m: MonId, n: nat): (reqs: seq<Rect>)
    requires m in ms
    ensures |reqs| == n
  {
    var mon := ms[m];
    match mon.layout
    case None => seq(n, _ => mon.wa)
    case Some(Tile) => TileRequests(mon.scr.w, mon.scr.h, mon.wa, mon.mfact, n)
    case Some(Monocle) => MonocleRequests(mon.wa, n)
  }

  /**
   * After the layout of an arrangeable monitor m, its k-th tiled client
   * holds what resizing its own record to the k-th request gives, and every
   * client that is not tiled on m is unchanged.
   */
  lemma LaidOutEach(cs: map<ClientId, Client>, ms: map<MonId, Monitor>, sw: int, sh: int, m: MonId, c: ClientId)
    requires Arrangeable(cs, ms, m) && NoDup(ms[m].clients) && c in cs && ms[m].layout.Some?
    ensures var t := TiledOf(cs, ms, m);
            && (c !in t ==> LaidOut(cs, ms, sw, sh, m)[c] == cs[c])
            && (forall k | 0 <= k < |t| && t[k] == c ::
                  LaidOut(cs, ms, sw, sh, m)[c] == Resized(cs[c], ms[m], sw, sh, Requests(ms, m, |t|)[k], false))
  {
    var t := TiledOf(cs, ms, m);
    var reqs := Requests(ms, m, |t|);
    assert LaidOut(cs, ms, sw, sh, m) == Resizes(cs, ms, sw, sh, t, reqs);
    if c !in t {
      ResizesUntouched(cs, ms, sw, sh, t, reqs, c);
    }
    forall k | 0 <= k < |t| && t[k] == c
      ensures LaidOut(cs, ms, sw, sh, m)[c] == Resized(cs[c], ms[m], sw, sh, reqs[k], false)
    {
      TiledNoDup(ms[m].clients, cs, ms);
      TiledOfOn(cs, ms, m);
      ResizesAt(cs, ms, sw, sh, t, reqs, k);
    }
  }

  /** A monitor without a layout places nothing. */
  lemma LaidOutNone(cs: map<ClientId, Client>, ms: map<MonId, Monitor>, sw: int, sh: int, m: MonId)
    requires m in ms && ms[m].layout.None?
    ensures LaidOut(cs, ms, sw, sh, m) == cs
  {
  }

  /** Resizing keeps every list a layout walks pointing at its monitor. */
  lemma ArrangeableKept(cs: map<ClientId, Client>, cs': map<ClientId, Client>, ms: map<MonId, Monitor>, m: MonId)
    requires Arrangeable(cs, ms, m) && SameRoles(cs, cs')
    ensures Arrangeable(cs', ms, m)
  {
  }

  /** tile: vstack on a monitor wider than tall, bstackhoriz otherwise. */
  method ArrangeTile(wm: WindowManager, m: MonId)
    requires Arrangeable(wm.clients, wm.monitors, m) && wm.monitors[m].layout.Some?
    modifies wm
    ensures wm.monitors == old(wm.monitors) && wm.mons == old(wm.mons) && wm.selmon == old(wm.selmon)
    ensures var t := TiledOf(old(wm.clients), wm.monitors, m);
            var mon := wm.monitors[m];
            wm.clients == Resizes(old(wm.clients), wm.monitors, wm.sw, wm.sh, t,
                                  TileRequests(mon.scr.w, mon.scr.h, mon.wa, mon.mfact, |t|))
    ensures wm.sw == old(wm.sw) && wm.sh == old(wm.sh) && wm.nextClient == old(wm.nextClient) && wm.nextMon == old(wm.nextMon)
  {
    if wm.monitors[m].scr.w > wm.monitors[m].scr.h {
      ArrangeVStack(wm, m);
    } else {
      ArrangeBStack(wm, m);
    }
  }

  /** arrangemon: run the monitor's layout, if it has one. */
  method ArrangeMon(wm: WindowManager, m: MonId)
    requires Arrangeable(wm.clients, wm.monitors, m)
    modifies wm
    ensures wm.monitors == old(wm.monitors) && wm.mons == old(wm.mons) && wm.selmon == old(wm.selmon)
    ensures wm.clients == LaidOut(old(wm.clients), wm.monitors, wm.sw, wm.sh, m)
    ensures wm.sw == old(wm.sw) && wm.sh == old(wm.sh) && wm.nextClient == old(wm.nextClient) && wm.nextMon == old(wm.nextMon)
  {
    match wm.monitors[m].layout
    case None =>
    case Some(Tile) => ArrangeTile(wm, m);
    case Some(Monocle) => ArrangeMonocle(wm, m);
  }

  // -------------------------------------------------------------- arrange

  /** Every monitor of the list is arrangeable. */
  ghost predicate AllArrangeable(cs: map<ClientId, Client>, ms: map<MonId, Monitor>, mons: seq<MonId>)
  {
    Listed(ms, mons) && forall i | 0 <= i < |mons| :: Arrangeable(cs, ms, mons[i])
  }

  /** A consistent registry can be arranged on every monitor. */
  lemma ConsistentArrangeable(cs: map<ClientId, Client>, ms: map<MonId, Monitor>, mons: seq<MonId>, selmon: MonId)
    requires Consistent(cs, ms, mons, selmon)
    ensures AllArrangeable(cs, ms, mons)
    ensures forall m | m in ms :: Arrangeable(cs, ms, m) && NoDup(ms[m].clients)
  {
    forall m | m in ms ensures Arrangeable(cs, ms, m) && NoDup(ms[m].clients) {
      assert MonitorOk(cs, ms, m);
    }
    forall i | 0 <= i < |mons| ensures Arrangeable(cs, ms, mons[i]) {
      assert mons[i] in ms;
    }
  }

  /** Every monitor of the list is in the arena. */
  predicate Listed(ms: map<MonId, Monitor>, mons: seq<MonId>)
  {
    forall j | 0 <= j < |mons| :: mons[j] in ms
  }

  /** showhide of every monitor's stack, monitors i .. in list order. */
  function ShownMons(cs: map<ClientId, Client>, ms: map<MonId, Monitor>, sw: int, sh: int,
                     mons: seq<MonId>, i: nat): (r: map<ClientId, Client>)
    requires i <= |mons| && Listed(ms, mons)
    ensures SameRoles(cs, r)
    decreases |mons| - i
  {
    if i == |mons| then cs else ShownMons(ShownFrom(cs, ms, sw, sh, ms[mons[i]].stack, 0), ms, sw, sh, mons, i + 1)
  }

  /** arrangemon of every monitor, monitors i .. in list order. */
  function LaidOutMons(cs: map<ClientId, Client>, ms: map<MonId, Monitor>, sw: int, sh: int,
                       mons: seq<MonId>, i: nat): (r: map<ClientId, Client>)
    requires i <= |mons| && Listed(ms, mons)
    ensures SameRoles(cs, r)
    decreases |mons| - i
  {
    if i == |mons| then cs else LaidOutMons(LaidOut(cs, ms, sw, sh, mons[i]), ms, sw, sh, mons, i + 1)
  }

  /** The client records after arrange(m), or arrange(NULL) for every monitor. */
  function Arranged(cs: map<ClientId, Client>, ms: map<MonId, Monitor>, sw: int, sh: int,
                    mons: seq<MonId>, m: Option<MonId>): (r: map<ClientId, Client>)
    requires m.Some? ==> m.value in ms
    requires m.None? ==> Listed(ms, mons)
    ensures SameRoles(cs, r)
  {
    if m.Some? then LaidOut(ShownFrom(cs, ms, sw, sh, ms[m.value].stack, 0), ms, sw, sh, m.value)
    else LaidOutMons(ShownMons(cs, ms, sw, sh, mons, 0), ms, sw, sh, mons, 0)
  }

  /**
   * arrange(m): showhide and the layout of m (restack only reorders
   * windows), or, for NULL, showhide of every monitor and then the layout
   * of every monitor.
   */
  method DoArrange(wm: WindowManager, m: Option<MonId>)
    requires m.Some? ==> Arrangeable(wm.clients, wm.monitors, m.value)
    requires m.None? ==> AllArrangeable(wm.clients, wm.monitors, wm.mons)
    modifies wm
    ensures wm.monitors == old(wm.monitors) && wm.mons == old(wm.mons) && wm.selmon == old(wm.selmon)
    ensures wm.clients == Arranged(old(wm.clients), wm.monitors, wm.sw, wm.sh, wm.mons, m)
    ensures wm.sw == old(wm.sw) && wm.sh == old(wm.sh) && wm.nextClient == old(wm.nextClient) && wm.nextMon == old(wm.nextMon)
  {
    if m.Some? {
      ShowHide(wm, wm.monitors[m.value].stack, 0);
      ArrangeMon(wm, m.value);
    } else {
      ShowAll(wm);
      ArrangeAll(wm);
    }
  }

  /** `FOREACH(m, mons) { showhide(m->stack); }` */
  method ShowAll(wm: WindowManager)
    requires Listed(wm.monitors, wm.mons)
    modifies wm
    ensures wm.monitors == old(wm.monitors) && wm.mons == old(wm.mons) && wm.selmon == old(wm.selmon)
    ensures wm.clients == ShownMons(old(wm.clients), wm.monitors, wm.sw, wm.sh, wm.mons, 0)
    ensures wm.sw == old(wm.sw) && wm.sh == old(wm.sh) && wm.nextClient == old(wm.nextClient) && wm.nextMon == old(wm.nextMon)
  {
    ghost var final := ShownMons(wm.clients, wm.monitors, wm.sw, wm.sh, wm.mons, 0);
    var i := 0;
    while i < |wm.mons|
      invariant i <= |wm.mons| && Listed(wm.monitors, wm.mons)
      invariant ShownMons(wm.clients, wm.monitors, wm.sw, wm.sh, wm.mons, i) == final
      invariant wm.monitors == old(wm.monitors) && wm.mons == old(wm.mons) && wm.selmon == old(wm.selmon)
      invariant wm.sw == old(wm.sw) && wm.sh == old(wm.sh) && wm.nextClient == old(wm.nextClient) && wm.nextMon == old(wm.nextMon)
      decreases |wm.mons| - i
    {
      ShowHide(wm, wm.monitors[wm.mons[i]].stack, 0);
      i := i + 1;
    }
  }

  /** `FOREACH(m, mons) { arrangemon(m); }` */
  method ArrangeAll(wm: WindowManager)
    requires AllArrangeable(wm.clients, wm.monitors, wm.mons)
    modifies wm
    ensures wm.monitors == old(wm.monitors) && wm.mons == old(wm.mons) && wm.selmon == old(wm.selmon)
    ensures wm.clients == LaidOutMons(old(wm.clients), wm.monitors, wm.sw, wm.sh, wm.mons, 0)
    ensures wm.sw == old(wm.sw) && wm.sh == old(wm.sh) && wm.nextClient == old(wm.nextClient) && wm.nextMon == old(wm.nextMon)
  {
    ghost var cs0 := wm.clients;
    ghost var final := LaidOutMons(wm.clients, wm.monitors, wm.sw, wm.sh, wm.mons, 0);
    var i := 0;
    while i < |wm.mons|
      invariant i <= |wm.mons| && Listed(wm.monitors, wm.mons)
      invariant LaidOutMons(wm.clients, wm.monitors, wm.sw, wm.sh, wm.mons, i) == final
      invariant SameRoles(cs0, wm.clients) && AllArrangeable(cs0, wm.monitors, wm.mons)
      invariant wm.monitors == old(wm.monitors) && wm.mons == old(wm.mons) && wm.selmon == old(wm.selmon)
      invariant wm.sw == old(wm.sw) && wm.sh == old(wm.sh) && wm.nextClient == old(wm.nextClient) && wm.nextMon == old(wm.nextMon)
      decreases |wm.mons| - i
    {
      assert Arrangeable(cs0, wm.monitors, wm.mons[i]);
      ArrangeableKept(cs0, wm.clients, wm.monitors, wm.mons[i]);
      ArrangeMon(wm, wm.mons[i]);
      i := i + 1;
    }
  }
}
