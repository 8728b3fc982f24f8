/**
 * dwm's global state (the monitor list, selmon, the screen size) as one
 * object, with the list operations attach, attachstack, detach and
 * detachstack and the geometry updates resize and resizeclient.
 */
module Registry {
  import opened Wrappers
  import opened Geometry
  import opened Config
  import opened Seqs
  import opened SizeHints
  import opened Layouts
  import opened Model

  /**
   * The client a resize leaves behind: applysizehints adjusts the request,
   * and only when that differs from the recorded geometry does resizeclient
   * record it, saving the previous geometry.
   */
  function Resized(cl: Client, mon: Monitor, sw: int, sh: int, req: Rect, interact: bool): (r: Client)
    ensures var out := ApplySizeHints(cl.geom, cl.hints, cl.isfloating, mon.wa, mon.layout.Some?, interact, sw, sh, req);
            && r.geom == out.0
            && (out.1 ==> r.oldGeom == cl.geom)
            && (r == cl <==> !out.1)
            && r == cl.(geom := r.geom, oldGeom := r.oldGeom)
  {
    var out := ApplySizeHints(cl.geom, cl.hints, cl.isfloating, mon.wa, mon.layout.Some?, interact, sw, sh, req);
    if out.1 then cl.(oldGeom := cl.geom, geom := out.0) else cl
  }

  /**
   * Resizing a tiled client to the geometry a previous resize gave it
   * changes nothing, on a monitor with a layout and a non-empty work area.
   */
  lemma ResizeSettles(cl: Client, mon: Monitor, sw: int, sh: int, req: Rect)
    requires !cl.isfloating && mon.layout.Some? && mon.wa.w > 0 && mon.wa.h > 0
    requires cl.geom.w >= 0 && cl.geom.h >= 0
    ensures var once := Resized(cl, mon, sw, sh, req, false);
            Resized(once, mon, sw, sh, once.geom, false) == once
  {
    TiledIdempotent(cl.geom, cl.hints, mon.wa, sw, sh, req);
  }

  class WindowManager {
    var clients: map<ClientId, Client>
    var monitors: map<MonId, Monitor>
    var mons: seq<MonId>
    var selmon: MonId
    var sw: int
    var sh: int
    /** The next handles to hand out, standing for fresh allocations. */
    var nextClient: ClientId
    var nextMon: MonId

    ghost predicate Valid()
      reads this
    {
      && Consistent(clients, monitors, mons, selmon)
      && (forall c | c in clients :: c < nextClient)
      && (forall m | m in monitors :: m < nextMon)
    }

    /**
     * setup without Xinerama: the screen size, and updategeom creating the
     * one monitor and giving it the whole screen.
     */
    constructor (width: int, height: int)
      ensures Valid()
      ensures sw == width && sh == height && clients == map[] && mons == [0] && selmon == 0
      ensures monitors == map[0 := NewMonitor().(scr := Rect(0, 0, width, height), wa := Rect(0, 0, width, height))]
    {
      sw, sh := width, height;
      var g := Rect(0, 0, width, height);
      clients := map[];
      monitors := map[0 := NewMonitor().(scr := g, wa := g)];
      mons := [0];
      selmon := 0;
      nextClient, nextMon := 0, 1;
    }

    /** attach: c goes to the head of its monitor's client list. */
    method Attach(c: ClientId)
      requires c in clients && clients[c].mon in monitors
      modifies this
      ensures var m := old(clients)[c].mon;
              monitors == old(monitors)[m := old(monitors)[m].(clients := [c] + old(monitors)[m].clients)]
      ensures clients == old(clients) && mons == old(mons) && selmon == old(selmon)
      ensures sw == old(sw) && sh == old(sh) && nextClient == old(nextClient) && nextMon == old(nextMon)
    {
      var m := clients[c].mon;
      monitors := monitors[m := monitors[m].(clients := [c] + monitors[m].clients)];
    }

    /** attachstack: c goes to the head of its monitor's focus stack. */
    method AttachStack(c: ClientId)
      requires c in clients && clients[c].mon in monitors
      modifies this
      ensures var m := old(clients)[c].mon;
              monitors == old(monitors)[m := old(monitors)[m].(stack := [c] + old(monitors)[m].stack)]
      ensures clients == old(clients) && mons == old(mons) && selmon == old(selmon)
      ensures sw == old(sw) && sh == old(sh) && nextClient == old(nextClient) && nextMon == old(nextMon)
    {
      var m := clients[c].mon;
      monitors := monitors[m := monitors[m].(stack := [c] + monitors[m].stack)];
    }

    /**
     * detach: walk the client list to c and unlink it. The list is a chain
     * of nodes, so it holds c at most once; c must be on it, or the walk
     * would run off the end and overwrite the terminating NULL.
     */
    method Detach(c: ClientId)
      requires c in clients && clients[c].mon in monitors
      requires c in monitors[clients[c].mon].clients && NoDup(monitors[clients[c].mon].clients)
      modifies this
      ensures var m := old(clients)[c].mon;
              monitors == old(monitors)[m := old(monitors)[m].(clients := Without(old(monitors)[m].clients, c))]
      ensures clients == old(clients) && mons == old(mons) && selmon == old(selmon)
      ensures sw == old(sw) && sh == old(sh) && nextClient == old(nextClient) && nextMon == old(nextMon)
    {
      var m := clients[c].mon;
      var l := monitors[m].clients;
      var k := 0;
      while l[k] != c
        invariant 0 <= k < |l| && c in l[k..]
        decreases |l| - k
      {
        k := k + 1;
      }
      WithoutAt(l, k);
      monitors := monitors[m := monitors[m].(clients := l[..k] + l[k + 1..])];
    }

    /**
     * detachstack: unlink c from its monitor's focus stack; if c was that
     * monitor's selection, the selection becomes the first client still on
     * the stack that is visible, or none.
     */
    method DetachStack(c: ClientId)
      requires c in clients && clients[c].mon in monitors
      requires c in monitors[clients[c].mon].stack && NoDup(monitors[clients[c].mon].stack)
      modifies this
      ensures var m := old(clients)[c].mon;
              var mon := old(monitors)[m];
              var s := Without(mon.stack, c);
              monitors == old(monitors)[m := mon.(stack := s,
                sel := if mon.sel == Some(c) then FirstVisible(s, clients, old(monitors)) else mon.sel)]
      ensures clients == old(clients) && mons == old(mons) && selmon == old(selmon)
      ensures sw == old(sw) && sh == old(sh) && nextClient == old(nextClient) && nextMon == old(nextMon)
    {
      var m := clients[c].mon;
      ghost var ms0 := monitors;
      var l := monitors[m].stack;
      var k := 0;
      while l[k] != c
        invariant 0 <= k < |l| && c in l[k..]
        decreases |l| - k
      {
        k := k + 1;
      }
      WithoutAt(l, k);
      var s := l[..k] + l[k + 1..];
      monitors := monitors[m := monitors[m].(stack := s)];
      ghost var ms1 := monitors;
      if monitors[m].sel == Some(c) {
        var t := 0;
        while t < |s| && !Visible(clients, monitors, s[t])
          invariant 0 <= t <= |s|
          invariant forall i | 0 <= i < t :: !Visible(clients, monitors, s[i])
          decreases |s| - t
        {
          t := t + 1;
        }
        FirstVisibleFramed(s, clients, monitors, clients, ms0, 0);
        assert t == FirstVisibleFrom(s, clients, monitors, 0) by {
          FirstVisibleIsFirst(s, clients, monitors, t);
        }
        monitors := monitors[m := monitors[m].(sel := if t < |s| then Some(s[t]) else None)];
        UpdateTwice(ms0, m, ms1[m], monitors[m]);
      }
    }

    /** resizeclient: record the new geometry, keeping the previous one. */
    method ResizeClient(c: ClientId, r: Rect)
      requires c in clients
      modifies this
      ensures clients == old(clients)[c := old(clients)[c].(oldGeom := old(clients)[c].geom, geom := r)]
      ensures monitors == old(monitors) && mons == old(mons) && selmon == old(selmon)
      ensures sw == old(sw) && sh == old(sh) && nextClient == old(nextClient) && nextMon == old(nextMon)
    {
      clients := clients[c := clients[c].(oldGeom := clients[c].geom, geom := r)];
    }

    /** resize: applysizehints, then resizeclient when something changed. */
    method Resize(c: ClientId, req: Rect, interact: bool)
      requires c in clients && clients[c].mon in monitors
      modifies this
      ensures clients == old(clients)[c := Resized(old(clients)[c], old(monitors)[old(clients)[c].mon], sw, sh, req, interact)]
      ensures monitors == old(monitors) && mons == old(mons) && selmon == old(selmon)
      ensures sw == old(sw) && sh == old(sh) && nextClient == old(nextClient) && nextMon == old(nextMon)
    {
      var cl := clients[c];
      var mon := monitors[cl.mon];
      var out := ApplySizeHints(cl.geom, cl.hints, cl.isfloating, mon.wa, mon.layout.Some?, interact, sw, sh, req);
      if out.1 {
        ResizeClient(c, out.0);
      }
    }
  }

  /** A scan that stopped at the first visible client, or ran off the end, found FirstVisibleFrom. */
  lemma FirstVisibleIsFirst(s: seq<ClientId>, cs: map<ClientId, Client>, ms: map<MonId, Monitor>, t: nat)
    requires t <= |s|
    requires forall i | 0 <= i < t :: !Visible(cs, ms, s[i])
    requires t < |s| ==> Visible(cs, ms, s[t])
    ensures t == FirstVisibleFrom(s, cs, ms, 0)
  {
  }
}
