/**
 * manage: the record dwm builds for a newly mapped window (its monitor,
 * workspace, position on the monitor and floating state) and the
 * registration that follows: attach, attachstack, selection of the new
 * client on its monitor, arrange and focus.
 *
 * What manage asks the X server (the window attributes, WM_TRANSIENT_FOR,
 * _NET_WM_STATE, _NET_WM_WINDOW_TYPE, WM_NORMAL_HINTS, WM_HINTS) arrives
 * as a WindowInfo value; which managed client the transient hint names is
 * the `parent` argument.
 */
module Manage {
  import opened Wrappers
  import opened Geometry
  import opened Config
  import opened Seqs
  import opened SizeHints
  import opened Model
  import opened Registry
  import opened Tiling
  import opened Focusing
  import opened Actions

  /** The window's properties as the X queries of manage return them. */
  datatype WindowInfo = WindowInfo(
    win: int,
    geom: Rect,                 // XWindowAttributes x, y, width, height
    hasTransient: bool,         // WM_TRANSIENT_FOR names some window
    fullscreen: bool,           // _NET_WM_STATE is _NET_WM_STATE_FULLSCREEN
    dialog: bool,               // _NET_WM_WINDOW_TYPE is _NET_WM_WINDOW_TYPE_DIALOG
    size: Option<XSizeHints>,   // WM_NORMAL_HINTS, None when absent
    neverfocus: bool)           // WM_HINTS input field, inverted

  /** WIDTH(c) and HEIGHT(c): the size with the border on both sides. */
  function Bordered(n: int): int
  {
    n + 2 * BorderPx
  }

  /**
   * The position manage gives a new window on its monitor: pulled left and
   * up so the bordered window does not cross the monitor's right or lower
   * edge, then pushed right and down onto the monitor. The bar test on
   * the lower bound compares against bh, which is always 0 here.
   */
  function Placed(g: Rect, mon: Monitor): (r: Rect)
    ensures r.w == g.w && r.h == g.h
    ensures r.x >= mon.scr.x && r.y >= mon.scr.y
    ensures Bordered(g.w) <= mon.scr.w ==> r.x + Bordered(g.w) <= mon.scr.x + mon.scr.w
    ensures Bordered(g.h) <= mon.scr.h ==> r.y + Bordered(g.h) <= mon.scr.y + mon.scr.h
    ensures mon.scr.x <= g.x && g.x + Bordered(g.w) <= mon.scr.x + mon.scr.w ==> r.x == g.x
    ensures mon.scr.y <= g.y && g.y + Bordered(g.h) <= mon.scr.y + mon.scr.h ==> r.y == g.y
  {
    var scr := mon.scr;
    var x1 := if g.x + Bordered(g.w) > scr.x + scr.w then scr.x + scr.w - Bordered(g.w) else g.x;
    var y1 := if g.y + Bordered(g.h) > scr.y + scr.h then scr.y + scr.h - Bordered(g.h) else g.y;
    var x := Max(x1, scr.x);
    var mid := x + TruncDiv(g.w, 2);
    var coversBar := BarHeight == scr.y && mid >= mon.wa.x && mid < mon.wa.x + mon.wa.w;
    var y := Max(y1, if coversBar then BarHeight else scr.y);
    Rect(x, y, g.w, g.h)
  }

  /** The monitor and workspace of a new client: its transient parent's, or the selected monitor's. */
  function Home(s: State, parent: Option<ClientId>): (r: (MonId, Tag))
    requires s.selmon in s.monitors
    requires parent.Some? ==> parent.value in s.clients && s.clients[parent.value].mon in s.monitors
    ensures r.0 in s.monitors
  {
    if parent.Some? then (s.clients[parent.value].mon, s.clients[parent.value].tag)
    else (s.selmon, s.monitors[s.selmon].tag)
  }

  /**
   * The record manage fills in before attaching the client: the parent's
   * monitor and workspace or the selected ones, the hints updatesizehints
   * computes, floating exactly when fullscreen, a dialog, transient or of
   * fixed size, and a windowed client placed on its monitor. In the source
   * a parent exists only when WM_TRANSIENT_FOR names a window, so
   * `parent.Some? && !info.hasTransient` does not arise; the model accepts
   * it, which is more general and harmless.
   */
  function Initial(s: State, info: WindowInfo, parent: Option<ClientId>): (cl: Client)
    requires s.selmon in s.monitors
    requires parent.Some? ==> parent.value in s.clients && s.clients[parent.value].mon in s.monitors
    ensures parent.Some? ==> cl.mon == s.clients[parent.value].mon && cl.tag == s.clients[parent.value].tag
    ensures parent.None? ==> cl.mon == s.selmon && cl.tag == s.monitors[s.selmon].tag
    ensures cl.win == info.win && cl.hints == UpdateSizeHints(info.size) && cl.neverfocus == info.neverfocus
    ensures cl.isfullscreen == info.fullscreen
    ensures cl.isfloating <==> info.fullscreen || info.dialog || info.hasTransient || cl.hints.isfixed
    ensures info.fullscreen ==> cl.geom == s.monitors[cl.mon].scr && cl.oldGeom == Placed(info.geom, s.monitors[cl.mon])
    ensures !info.fullscreen ==> cl.geom == Placed(info.geom, s.monitors[cl.mon]) && cl.oldGeom == info.geom
  {
    var home := Home(s, parent);
    var mon := s.monitors[home.0];
    var c0 := Client(info.win, Placed(info.geom, mon), info.geom, Hints(0, 0, 0, 0, 0, 0, 0, 0, false),
                     home.1, false, false, false, false, home.0);
    var c1 := if info.fullscreen then Fullscreened(c0, true, mon.scr) else c0;
    var c2 := if info.dialog then c1.(isfloating := true) else c1;
    var c3 := c2.(hints := UpdateSizeHints(info.size), neverfocus := info.neverfocus);
    if c3.isfloating then c3
    else c3.(isfloating := info.hasTransient || c3.hints.isfixed, oldstate := info.hasTransient || c3.hints.isfixed)
  }

  /**
   * attach, attachstack, `c->mon->sel = c`, arrange of the client's
   * monitor, then focus(NULL).
   */
  function Managed(s: State, mons: seq<MonId>, sw: int, sh: int, c: ClientId, cl: Client): State
    requires Ok(s, mons) && c !in s.clients && cl.mon in s.monitors
  {
    var m := cl.mon;
    var s1 := State(s.clients[c := cl], s.monitors[m := Linked(s.monitors[m], c).(sel := Some(c))], s.selmon);
    Focused(ArrangedIn(s1, mons, sw, sh, Some(m)), None)
  }

  /** A new client at the head of its monitor's lists and selected there keeps the registry consistent. */
  lemma AddedOk(s: State, mons: seq<MonId>, c: ClientId, cl: Client)
    requires Ok(s, mons) && c !in s.clients && cl.mon in s.monitors
    ensures var m := cl.mon;
            Ok(State(s.clients[c := cl], s.monitors[m := Linked(s.monitors[m], c).(sel := Some(c))], s.selmon), mons)
  {
    var m := cl.mon;
    var cs := s.clients[c := cl];
    var ms := s.monitors[m := Linked(s.monitors[m], c).(sel := Some(c))];
    assert MonitorOk(s.clients, s.monitors, m);
    PrependNoDup(c, s.monitors[m].clients);
    PrependNoDup(c, s.monitors[m].stack);
    forall k | k in ms ensures MonitorOk(cs, ms, k) {
      assert MonitorOk(s.clients, s.monitors, k);
    }
    forall x | x in cs ensures cs[x].mon in ms && x in ms[cs[x].mon].clients {
      if x != c {
        assert x in s.monitors[s.clients[x].mon].clients;
      }
    }
  }

  /** manage keeps the registry consistent and the selected monitor. */
  lemma ManagedOk(s: State, mons: seq<MonId>, sw: int, sh: int, c: ClientId, cl: Client)
    requires Ok(s, mons) && c !in s.clients && cl.mon in s.monitors
    ensures var r := Managed(s, mons, sw, sh, c, cl);
            Ok(r, mons) && r.selmon == s.selmon
  {
    var m := cl.mon;
    AddedOk(s, mons, c, cl);
    var s1 := State(s.clients[c := cl], s.monitors[m := Linked(s.monitors[m], c).(sel := Some(c))], s.selmon);
    ArrangedOk(s1, mons, sw, sh, Some(m));
    var a := ArrangedIn(s1, mons, sw, sh, Some(m));
    FocusedOk(a, mons, None);
    FocusStays(a, mons, None);
  }

  /**
   * After manage the client exists, heads its monitor's client list, and
   * is that monitor's selection unless focus(NULL) on the selected monitor
   * chose another; on the selected monitor a client showing its workspace
   * is chosen.
   */
  lemma ManageAdds(s: State, mons: seq<MonId>, sw: int, sh: int, c: ClientId, cl: Client)
    requires Ok(s, mons) && c !in s.clients && cl.mon in s.monitors
    ensures var r := Managed(s, mons, sw, sh, c, cl);
            var m := cl.mon;
            && r.clients.Keys == s.clients.Keys + {c}
            && r.clients[c].mon == m && r.clients[c].tag == cl.tag && r.clients[c].isfloating == cl.isfloating
            && r.monitors[m].clients == [c] + s.monitors[m].clients
            && (m != s.selmon ==> r.monitors[m].sel == Some(c))
            && (m == s.selmon && cl.tag == s.monitors[m].tag ==> r.monitors[m].sel == Some(c))
  {
    assert MonitorOk(s.clients, s.monitors, s.selmon);
    AddedLists(s, mons, sw, sh, c, cl);
    AddedSelects(s, mons, sw, sh, c, cl);
  }

  /** The lists and the new record after manage's steps, needing only that the handles exist. */
  lemma AddedLists(s: State, mons: seq<MonId>, sw: int, sh: int, c: ClientId, cl: Client)
    requires s.selmon in s.monitors && c !in s.clients && cl.mon in s.monitors
    ensures var m := cl.mon;
            var s1 := State(s.clients[c := cl], s.monitors[m := Linked(s.monitors[m], c).(sel := Some(c))], s.selmon);
            var r := Focused(ArrangedIn(s1, mons, sw, sh, Some(m)), None);
            && r.clients.Keys == s.clients.Keys + {c}
            && r.clients[c].mon == m && r.clients[c].tag == cl.tag && r.clients[c].isfloating == cl.isfloating
            && r.monitors[m].clients == [c] + s.monitors[m].clients
  {
    var m := cl.mon;
    var s1 := State(s.clients[c := cl], s.monitors[m := Linked(s.monitors[m], c).(sel := Some(c))], s.selmon);
    var a := ArrangedIn(s1, mons, sw, sh, Some(m));
    FocusedLists(a, None);
    assert SameRoles(s1.clients, a.clients);
  }

  /** The selections after manage's steps, given the selected monitor's own consistency. */
  lemma AddedSelects(s: State, mons: seq<MonId>, sw: int, sh: int, c: ClientId, cl: Client)
    requires s.selmon in s.monitors && c !in s.clients && cl.mon in s.monitors
    requires MonitorOk(s.clients, s.monitors, s.selmon)
    ensures var m := cl.mon;
            var s1 := State(s.clients[c := cl], s.monitors[m := Linked(s.monitors[m], c).(sel := Some(c))], s.selmon);
            var r := Focused(ArrangedIn(s1, mons, sw, sh, Some(m)), None);
            && (m != s.selmon ==> r.monitors[m].sel == Some(c))
            && (m == s.selmon && cl.tag == s.monitors[m].tag ==> r.monitors[m].sel == Some(c))
  {
    var m := cl.mon;
    var s1 := State(s.clients[c := cl], s.monitors[m := Linked(s.monitors[m], c).(sel := Some(c))], s.selmon);
    var a := ArrangedIn(s1, mons, sw, sh, Some(m));
    assert SameRoles(s1.clients, a.clients);
    assert a.monitors == s1.monitors;
    forall x | x in s1.monitors[s.selmon].stack ensures x in a.clients && a.clients[x].mon == s.selmon {
      if x != c {
        assert x in s.monitors[s.selmon].stack;
        assert x in s.monitors[s.selmon].clients;
      }
    }
    if m == s.selmon && cl.tag == s.monitors[m].tag {
      assert Visible(a.clients, a.monitors, c);
      assert a.monitors[m].stack[0] == c;
      assert FocusTarget(a, None) == Some(c);
    }
  }

  method Manage(wm: WindowManager, info: WindowInfo, parent: Option<ClientId>) returns (c: ClientId)
    requires wm.Valid() && (parent.Some? ==> parent.value in wm.clients)
    modifies wm
    ensures c == old(wm.nextClient) && c !in old(wm.clients)
    ensures wm.mons == old(wm.mons) && wm.sw == old(wm.sw) && wm.sh == old(wm.sh)
    ensures wm.nextClient == old(wm.nextClient) + 1 && wm.nextMon == old(wm.nextMon)
    ensures Snap(wm) == Managed(old(Snap(wm)), wm.mons, wm.sw, wm.sh, c, Initial(old(Snap(wm)), info, parent))
    ensures wm.Valid()
  {
    ghost var s0 := Snap(wm);
    assert parent.Some? ==> wm.clients[parent.value].mon in wm.monitors;
    var cl := Initial(Snap(wm), info, parent);
    c := wm.nextClient;
    AddedOk(s0, wm.mons, c, cl);
    Register(wm, cl);
    Rearrange(wm, Some(cl.mon));
    Focus(wm, None);
  }

  /** The new record under the next free handle, attach, attachstack, and `c->mon->sel = c`. */
  method Register(wm: WindowManager, cl: Client)
    requires cl.mon in wm.monitors && wm.nextClient !in wm.clients
    requires forall x | x in wm.clients :: x < wm.nextClient
    modifies wm
    ensures wm.mons == old(wm.mons) && wm.sw == old(wm.sw) && wm.sh == old(wm.sh)
    ensures wm.nextClient == old(wm.nextClient) + 1 && wm.nextMon == old(wm.nextMon)
    ensures forall x | x in wm.clients :: x < wm.nextClient
    ensures var c := old(wm.nextClient);
            var m := cl.mon;
            Snap(wm) == State(old(wm.clients)[c := cl], old(wm.monitors)[m := Linked(old(wm.monitors)[m], c).(sel := Some(c))], old(wm.selmon))
  {
    var c := wm.nextClient;
    wm.nextClient := c + 1;
    wm.clients := wm.clients[c := cl];
    Link(wm, c);
    var m := cl.mon;
    wm.monitors := wm.monitors[m := wm.monitors[m].(sel := Some(c))];
  }
}
