/**
 * The monitor list: the next or previous monitor (dirtomon), the monitor a
 * rectangle overlaps most (recttomon), unlinking a monitor (cleanupmon),
 * and reconciling the monitors with the Xinerama outputs (updategeom).
 */
module Monitors {
  import opened Wrappers
  import opened Geometry
  import opened Seqs
  import opened Layouts
  import opened Model
  import opened Registry

  // ------------------------------------------------------------ dirtomon

  /**
   * dirtomon(dir): for dir > 0 the monitor after selmon, wrapping to the
   * first; otherwise the one before it, wrapping to the last.
   */
  function DirToMon(mons: seq<MonId>, selmon: MonId, dir: int): (m: MonId)
    requires selmon in mons
    ensures m in mons
  {
    var k := IndexIn(mons, selmon);
    if dir > 0 then (if k + 1 < |mons| then mons[k + 1] else mons[0])
    else if selmon == mons[0] then mons[|mons| - 1]
    else mons[k - 1]
  }

  /** From the monitor at index k, dirtomon(+1) goes to index k + 1, or from the last to the first. */
  lemma DirToMonNext(mons: seq<MonId>, k: nat)
    requires NoDup(mons) && k < |mons|
    ensures DirToMon(mons, mons[k], 1) == if k + 1 < |mons| then mons[k + 1] else mons[0]
  {
    IndexInUnique(mons, k);
  }

  /** From the monitor at index k, dirtomon(-1) goes to index k - 1, or from the first to the last. */
  lemma DirToMonPrev(mons: seq<MonId>, k: nat)
    requires NoDup(mons) && k < |mons|
    ensures DirToMon(mons, mons[k], -1) == if k > 0 then mons[k - 1] else mons[|mons| - 1]
  {
    IndexInUnique(mons, k);
    if k > 0 {
      assert mons[0] != mons[k];
    }
  }

  /** The monitor reached from m by j steps of dirtomon(dir). */
  function Orbit(mons: seq<MonId>, m: MonId, dir: int, j: nat): (r: MonId)
    requires m in mons
    ensures r in mons
  {
    if j == 0 then m else DirToMon(mons, Orbit(mons, m, dir, j - 1), dir)
  }

  /**
   * Stepping forward from the first monitor visits the monitors in list
   * order and wraps back to the first after |mons| steps.
   */
  lemma {:induction false} OrbitForward(mons: seq<MonId>, j: nat)
    requires NoDup(mons) && mons != [] && j <= |mons|
    ensures Orbit(mons, mons[0], 1, j) == if j < |mons| then mons[j] else mons[0]
  {
    if j > 0 {
      OrbitForward(mons, j - 1);
      DirToMonNext(mons, j - 1);
    }
  }

  /**
   * Stepping backward from the first monitor wraps straight to the last,
   * visits the monitors in reverse list order and is back at the first
   * after |mons| steps.
   */
  lemma {:induction false} OrbitBackward(mons: seq<MonId>, j: nat)
    requires NoDup(mons) && 0 < j <= |mons|
    ensures Orbit(mons, mons[0], -1, j) == mons[|mons| - j]
  {
    if j == 1 {
      DirToMonPrev(mons, 0);
    } else {
      OrbitBackward(mons, j - 1);
      DirToMonPrev(mons, |mons| - j + 1);
    }
  }

  /** Going to the next monitor and then the previous one comes back, and vice versa. */
  lemma DirToMonInverse(mons: seq<MonId>, selmon: MonId)
    requires NoDup(mons) && selmon in mons
    ensures DirToMon(mons, DirToMon(mons, selmon, 1), -1) == selmon
    ensures DirToMon(mons, DirToMon(mons, selmon, -1), 1) == selmon
  {
    var k := IndexIn(mons, selmon);
    var n := |mons|;
    DirToMonNext(mons, k);
    DirToMonPrev(mons, k);
    var next := if k + 1 < n then k + 1 else 0;
    var prev := if k > 0 then k - 1 else n - 1;
    DirToMonPrev(mons, next);
    DirToMonNext(mons, prev);
  }

  /** With more than one monitor, either direction leaves selmon. */
  lemma DirToMonMoves(mons: seq<MonId>, selmon: MonId, dir: int)
    requires NoDup(mons) && selmon in mons && |mons| > 1
    ensures DirToMon(mons, selmon, dir) != selmon
  {
    var k := IndexIn(mons, selmon);
    var n := |mons|;
    DirToMonNext(mons, k);
    DirToMonPrev(mons, k);
    var j := if dir > 0 then (if k + 1 < n then k + 1 else 0) else (if k > 0 then k - 1 else n - 1);
    assert j != k;
    assert mons[j] != mons[k];
  }

  // ----------------------------------------------------------- recttomon

  /** The scan of recttomon from monitor i on, with the best monitor and area so far. */
  function BestFrom(x: int, y: int, w: int, h: int, mons: seq<MonId>, ms: map<MonId, Monitor>,
                    i: nat, best: MonId, area: int): (r: (MonId, int))
    requires i <= |mons| && forall m | m in mons :: m in ms
    ensures r.1 >= area
    ensures r.0 == best || (r.0 in mons && r.1 == Intersect(x, y, w, h, ms[r.0].wa))
    ensures r.1 > area ==> r.0 in mons && r.1 == Intersect(x, y, w, h, ms[r.0].wa)
    ensures r.1 == area ==> r.0 == best
    ensures forall j | i <= j < |mons| :: Intersect(x, y, w, h, ms[mons[j]].wa) <= r.1
    decreases |mons| - i
  {
    if i == |mons| then (best, area)
    else
      var a := Intersect(x, y, w, h, ms[mons[i]].wa);
      if a > area then BestFrom(x, y, w, h, mons, ms, i + 1, mons[i], a)
      else BestFrom(x, y, w, h, mons, ms, i + 1, best, area)
  }

  /**
   * recttomon: the monitor whose work area the rectangle overlaps most (the
   * first of several equal ones), or selmon when it overlaps none.
   */
  function RectToMon(x: int, y: int, w: int, h: int, mons: seq<MonId>, ms: map<MonId, Monitor>, selmon: MonId): (r: MonId)
    requires forall m | m in mons :: m in ms
    ensures r in mons || r == selmon
    ensures (forall j | 0 <= j < |mons| :: Intersect(x, y, w, h, ms[mons[j]].wa) == 0) ==> r == selmon
    ensures (exists j | 0 <= j < |mons| :: Intersect(x, y, w, h, ms[mons[j]].wa) > 0) ==>
              r in mons && forall j | 0 <= j < |mons| :: Intersect(x, y, w, h, ms[mons[j]].wa) <= Intersect(x, y, w, h, ms[r].wa)
  {
    var b := BestFrom(x, y, w, h, mons, ms, 0, selmon, 0);
    assert (exists j | 0 <= j < |mons| :: Intersect(x, y, w, h, ms[mons[j]].wa) > 0) ==> b.1 > 0;
    b.0
  }

  /**
   * wintomon(root) with the pointer at p: the monitor whose work area holds
   * the pointer, when one does (recttomon(x, y, 1, 1)).
   */
  lemma PointerMonitor(px: int, py: int, mons: seq<MonId>, ms: map<MonId, Monitor>, selmon: MonId, j: nat)
    requires forall m | m in mons :: m in ms
    requires j < |mons| && Contains(ms[mons[j]].wa, px, py)
    ensures var r := RectToMon(px, py, 1, 1, mons, ms, selmon);
            r in mons && Contains(ms[r].wa, px, py)
  {
    var r := RectToMon(px, py, 1, 1, mons, ms, selmon);
    PointIntersect(px, py, ms[mons[j]].wa);
    assert Intersect(px, py, 1, 1, ms[mons[j]].wa) > 0;
    PointIntersect(px, py, ms[r].wa);
    assert Intersect(px, py, 1, 1, ms[r].wa) >= 1;
  }

  /**
   * wintomon(root): the monitor recttomon finds for the 1x1 rectangle under
   * the pointer when its position can be read, and selmon otherwise (no
   * client has the root window).
   */
  function RootMonitor(pointer: Option<(int, int)>, mons: seq<MonId>, ms: map<MonId, Monitor>, selmon: MonId): (r: MonId)
    requires forall m | m in mons :: m in ms
    ensures r in mons || r == selmon
    ensures pointer.None? ==> r == selmon
  {
    match pointer
    case None => selmon
    case Some(p) => RectToMon(p.0, p.1, 1, 1, mons, ms, selmon)
  }

  /**
   * With the pointer inside some monitor's work area, wintomon(root) picks a
   * monitor whose work area holds it; with the pointer outside all of them,
   * selmon.
   */
  lemma RootMonitorPointer(px: int, py: int, mons: seq<MonId>, ms: map<MonId, Monitor>, selmon: MonId)
    requires forall m | m in mons :: m in ms
    ensures var r := RootMonitor(Some((px, py)), mons, ms, selmon);
            && ((exists j | 0 <= j < |mons| :: Contains(ms[mons[j]].wa, px, py)) ==> r in mons && Contains(ms[r].wa, px, py))
            && ((forall j | 0 <= j < |mons| :: !Contains(ms[mons[j]].wa, px, py)) ==> r == selmon)
  {
    if j :| 0 <= j < |mons| && Contains(ms[mons[j]].wa, px, py) {
      PointerMonitor(px, py, mons, ms, selmon, j);
    } else {
      forall j | 0 <= j < |mons| ensures Intersect(px, py, 1, 1, ms[mons[j]].wa) == 0 {
        PointIntersect(px, py, ms[mons[j]].wa);
      }
    }
  }

  // ---------------------------------------------------------- cleanupmon

  /**
   * cleanupmon: unlink mon from the monitor list (the head directly, any
   * other by walking to its predecessor) and free it. mon must be on the
   * list, or the walk would run off its end.
   */
  method CleanupMon(wm: WindowManager, mon: MonId)
    requires mon in wm.mons && NoDup(wm.mons)
    modifies wm
    ensures wm.mons == Without(old(wm.mons), mon) && wm.monitors == old(wm.monitors) - {mon}
    ensures wm.clients == old(wm.clients) && wm.selmon == old(wm.selmon)
    ensures wm.sw == old(wm.sw) && wm.sh == old(wm.sh)
    ensures wm.nextClient == old(wm.nextClient) && wm.nextMon == old(wm.nextMon)
  {
    var l := wm.mons;
    if mon == l[0] {
      WithoutAt(l, 0);
      assert l[..0] + l[1..] == l[1..];
      wm.mons := l[1..];
    } else {
      var k := 0;
      while l[k + 1] != mon
        invariant 0 <= k < |l| - 1 && mon in l[k + 1..]
        decreases |l| - k
      {
        k := k + 1;
      }
      WithoutAt(l, k + 1);
      wm.mons := l[..k + 1] + l[k + 2..];
    }
    wm.monitors := wm.monitors - {mon};
  }

  // ----------------------------------------------------------- updategeom

  /**
   * The loop of updategeom that empties a monitor about to be removed: each
   * client, taken from the head of its list, is unlinked from its stack,
   * pointed at the first monitor and attached there. The clients arrive
   * in reverse order, each keeping its workspace number.
   */
  method MigrateClients(wm: WindowManager, m: MonId) returns (moved: bool)
    requires Consistent(wm.clients, wm.monitors, wm.mons, wm.selmon)
    requires m in wm.monitors && wm.mons != [] && m != wm.mons[0]
    modifies wm
    ensures Consistent(wm.clients, wm.monitors, wm.mons, wm.selmon)
    ensures wm.mons == old(wm.mons) && wm.selmon == old(wm.selmon)
    ensures wm.sw == old(wm.sw) && wm.sh == old(wm.sh)
    ensures wm.nextClient == old(wm.nextClient) && wm.nextMon == old(wm.nextMon)
    ensures var p := Migrated(old(wm.clients), old(wm.monitors), m, wm.mons[0], |old(wm.monitors)[m].clients|);
            wm.clients == p.0 && wm.monitors == p.1
    ensures moved <==> old(wm.monitors)[m].clients != []
  {
    var head := wm.mons[0];
    ghost var l := wm.monitors[m].clients;
    ghost var cs0 := wm.clients;
    ghost var ms0 := wm.monitors;
    MigrateStart(cs0, ms0, wm.mons, wm.selmon, m);
    ghost var t := 0;
    moved := false;
    while wm.monitors[m].clients != []
      invariant wm.mons == old(wm.mons) && wm.selmon == old(wm.selmon)
      invariant wm.sw == old(wm.sw) && wm.sh == old(wm.sh)
      invariant wm.nextClient == old(wm.nextClient) && wm.nextMon == old(wm.nextMon)
      invariant 0 <= t <= |l|
      invariant wm.clients == Migrated(cs0, ms0, m, head, t).0 && wm.monitors == Migrated(cs0, ms0, m, head, t).1
      invariant m in wm.monitors && wm.monitors[m].clients == l[t..]
      invariant moved <==> t > 0
      decreases |l| - t
    {
      MigrateStep(cs0, ms0, wm.mons, wm.selmon, m, head, t);
      MigrateNext(cs0, ms0, m, head, t);
      var c := MoveHeadClient(wm, m, head);
      moved := true;
      t := t + 1;
    }
    MigrateDone(cs0, ms0, wm.mons, wm.selmon, m, head, t);
  }

  /** The facts about the starting registry that the loop relies on. */
  lemma MigrateStart(cs: map<ClientId, Client>, ms: map<MonId, Monitor>, mons: seq<MonId>, selmon: MonId, m: MonId)
    requires Consistent(cs, ms, mons, selmon) && m in ms && mons != [] && m != mons[0]
    ensures mons[0] in ms && Movable(cs, ms, m, mons[0])
  {
    assert MonitorOk(cs, ms, m);
  }

  /** Before turn t + 1, m's head client meets what the turn needs. */
  lemma MigrateStep(cs: map<ClientId, Client>, ms: map<MonId, Monitor>, mons: seq<MonId>, selmon: MonId,
                    m: MonId, to: MonId, t: nat)
    requires Consistent(cs, ms, mons, selmon) && Movable(cs, ms, m, to) && t < |ms[m].clients|
    ensures var p := Migrated(cs, ms, m, to, t);
            && m in p.1 && to in p.1 && p.1[m].clients != []
            && var c := p.1[m].clients[0];
            && c in p.0 && p.0[c].mon == m && c in p.1[m].stack
            && NoDup(p.1[m].clients) && NoDup(p.1[m].stack)
  {
    MigratedShape(cs, ms, m, to, t);
    MigratedConsistent(cs, ms, mons, selmon, m, to, t);
    var p := Migrated(cs, ms, m, to, t);
    assert MonitorOk(p.0, p.1, m);
  }

  /** Turn t + 1 leaves m with the rest of its list. */
  lemma MigrateNext(cs: map<ClientId, Client>, ms: map<MonId, Monitor>, m: MonId, to: MonId, t: nat)
    requires Movable(cs, ms, m, to) && t < |ms[m].clients|
    ensures var q := Migrated(cs, ms, m, to, t + 1);
            && q == AfterMove(Migrated(cs, ms, m, to, t).0, Migrated(cs, ms, m, to, t).1, m, to)
            && m in q.1 && q.1[m].clients == ms[m].clients[t + 1..]
  {
    MigratedShape(cs, ms, m, to, t + 1);
  }

  /** After the last turn the registry is consistent over the same keys. */
  lemma MigrateDone(cs: map<ClientId, Client>, ms: map<MonId, Monitor>, mons: seq<MonId>, selmon: MonId,
                    m: MonId, to: MonId, t: nat)
    requires Consistent(cs, ms, mons, selmon) && Movable(cs, ms, m, to) && t <= |ms[m].clients|
    requires m in Migrated(cs, ms, m, to, t).1 && Migrated(cs, ms, m, to, t).1[m].clients == []
    ensures t == |ms[m].clients|
    ensures var p := Migrated(cs, ms, m, to, t);
            Consistent(p.0, p.1, mons, selmon) && p.0.Keys == cs.Keys && p.1.Keys == ms.Keys
  {
    MigratedShape(cs, ms, m, to, t);
    MigratedConsistent(cs, ms, mons, selmon, m, to, t);
  }

  /**
   * The registry after the first t turns of that loop, each turn moving the
   * head client of m to `to` (a turn whose preconditions fail changes nothing).
   */
  ghost function Migrated(cs: map<ClientId, Client>, ms: map<MonId, Monitor>, m: MonId, to: MonId, t: nat)
    : (r: (map<ClientId, Client>, map<MonId, Monitor>))
  {
    if t == 0 then (cs, ms)
    else
      var p := Migrated(cs, ms, m, to, t - 1);
      AfterMove(p.0, p.1, m, to)
  }

  /** What each turn of that loop needs of m: its list has no repeats and names known clients. */
  ghost predicate Movable(cs: map<ClientId, Client>, ms: map<MonId, Monitor>, m: MonId, to: MonId)
  {
    m in ms && to in ms && m != to && NoDup(ms[m].clients) && forall c | c in ms[m].clients :: c in cs
  }

  /** After t turns the arenas have the same keys and m keeps the rest of its list. */
  lemma {:induction false} MigratedShape(cs: map<ClientId, Client>, ms: map<MonId, Monitor>, m: MonId, to: MonId, t: nat)
    requires Movable(cs, ms, m, to) && t <= |ms[m].clients|
    ensures var p := Migrated(cs, ms, m, to, t);
            && p.0.Keys == cs.Keys && p.1.Keys == ms.Keys
            && p.1[m].clients == ms[m].clients[t..]
            && Movable(p.0, p.1, m, to)
  {
    if t > 0 {
      MigratedShape(cs, ms, m, to, t - 1);
      var p := Migrated(cs, ms, m, to, t - 1);
      AfterMoveShape(p.0, p.1, m, to);
      assert ms[m].clients[t - 1..][1..] == ms[m].clients[t..];
      var q := Migrated(cs, ms, m, to, t);
      assert q.1[m].clients == p.1[m].clients[1..];
      assert NoDup(q.1[m].clients);
    }
  }

  /** Every turn keeps the registry consistent. */
  lemma {:induction false} MigratedConsistent(cs: map<ClientId, Client>, ms: map<MonId, Monitor>, mons: seq<MonId>,
                                               selmon: MonId, m: MonId, to: MonId, t: nat)
    requires Consistent(cs, ms, mons, selmon) && m != to
    ensures var p := Migrated(cs, ms, m, to, t);
            Consistent(p.0, p.1, mons, selmon)
  {
    if t > 0 {
      MigratedConsistent(cs, ms, mons, selmon, m, to, t - 1);
      var p := Migrated(cs, ms, m, to, t - 1);
      AfterMoveConsistent(p.0, p.1, mons, selmon, m, to);
    }
  }

  /** After t turns the first t clients of m head `to`'s lists, last moved first. */
  lemma {:induction false} MigratedHead(cs: map<ClientId, Client>, ms: map<MonId, Monitor>, m: MonId, to: MonId, t: nat)
    requires Movable(cs, ms, m, to) && t <= |ms[m].clients|
    ensures var l := ms[m].clients;
            var p := Migrated(cs, ms, m, to, t);
            to in p.1 &&
            p.1[to] == ms[to].(clients := Reverse(l[..t]) + ms[to].clients, stack := Reverse(l[..t]) + ms[to].stack)
  {
    var l := ms[m].clients;
    if t == 0 {
      assert l[..0] == [];
      assert Reverse(l[..0]) == [];
    } else {
      MigratedHead(cs, ms, m, to, t - 1);
      MigratedShape(cs, ms, m, to, t - 1);
      var p := Migrated(cs, ms, m, to, t - 1);
      AfterMoveShape(p.0, p.1, m, to);
      assert p.1[m].clients[0] == l[t - 1];
      LinkedReversed(p.1[to], ms[to], l, t);
    }
  }

  /** Linking l[t - 1] in front of the reversed l[..t - 1] gives the reversed l[..t]. */
  lemma LinkedReversed(h: Monitor, base: Monitor, l: seq<ClientId>, t: nat)
    requires 0 < t <= |l|
    requires h == base.(clients := Reverse(l[..t - 1]) + base.clients, stack := Reverse(l[..t - 1]) + base.stack)
    ensures Linked(h, l[t - 1]) == base.(clients := Reverse(l[..t]) + base.clients, stack := Reverse(l[..t]) + base.stack)
  {
    var c := l[t - 1];
    var r := Reverse(l[..t - 1]);
    ReverseSnoc(l[..t - 1], c);
    assert l[..t] == l[..t - 1] + [c];
    assert [c] + (r + base.clients) == ([c] + r) + base.clients;
    assert [c] + (r + base.stack) == ([c] + r) + base.stack;
  }

  /** Monitors other than m and `to` are untouched. */
  lemma {:induction false} MigratedOthers(cs: map<ClientId, Client>, ms: map<MonId, Monitor>, m: MonId, to: MonId, t: nat)
    requires Movable(cs, ms, m, to) && t <= |ms[m].clients|
    ensures var p := Migrated(cs, ms, m, to, t);
            forall k | k in ms && k != m && k != to :: k in p.1 && p.1[k] == ms[k]
  {
    if t > 0 {
      MigratedOthers(cs, ms, m, to, t - 1);
      MigratedShape(cs, ms, m, to, t - 1);
      var p := Migrated(cs, ms, m, to, t - 1);
      AfterMoveShape(p.0, p.1, m, to);
    }
  }

  /** After t turns exactly the first t clients of m point at `to`; nothing else about any client changes. */
  lemma {:induction false} MigratedClients(cs: map<ClientId, Client>, ms: map<MonId, Monitor>, m: MonId, to: MonId, t: nat)
    requires Movable(cs, ms, m, to) && t <= |ms[m].clients|
    ensures var l := ms[m].clients;
            var p := Migrated(cs, ms, m, to, t);
            forall c | c in cs :: c in p.0 && p.0[c] == if c in l[..t] then cs[c].(mon := to) else cs[c]
  {
    var l := ms[m].clients;
    if t > 0 {
      MigratedClients(cs, ms, m, to, t - 1);
      MigratedShape(cs, ms, m, to, t - 1);
      var p := Migrated(cs, ms, m, to, t - 1);
      AfterMoveShape(p.0, p.1, m, to);
      assert p.1[m].clients[0] == l[t - 1];
      assert l[t - 1] !in l[..t - 1];
      RepointedStep(cs, p.0, l, t, to);
    }
  }

  /** Pointing l[t - 1] at `to` extends "the first t - 1 clients of l point at `to`" to t. */
  lemma RepointedStep(cs: map<ClientId, Client>, p: map<ClientId, Client>, l: seq<ClientId>, t: nat, to: MonId)
    requires 0 < t <= |l| && l[t - 1] in cs && l[t - 1] !in l[..t - 1]
    requires forall c | c in cs :: c in p && p[c] == if c in l[..t - 1] then cs[c].(mon := to) else cs[c]
    ensures var c := l[t - 1];
            var q := p[c := p[c].(mon := to)];
            forall x | x in cs :: x in q && q[x] == if x in l[..t] then cs[x].(mon := to) else cs[x]
  {
    var c := l[t - 1];
    assert l[..t] == l[..t - 1] + [c];
    forall x | x in cs ensures x in l[..t] <==> x in l[..t - 1] || x == c {
    }
  }

  /**
   * The registry after one turn of that loop: the head client c of m is off
   * m's lists (with m's selection repaired as detachstack does), points at
   * `to` and heads both of its lists.
   */
  ghost function AfterMove(cs: map<ClientId, Client>, ms: map<MonId, Monitor>, m: MonId, to: MonId)
    : (r: (map<ClientId, Client>, map<MonId, Monitor>))
  {
    if m in ms && to in ms && ms[m].clients != [] && ms[m].clients[0] in cs then
      var c := ms[m].clients[0];
      var ms1 := ms[m := Unlinked(ms[m], c, RemainingSel(ms[m], c, cs, ms))];
      (cs[c := cs[c].(mon := to)], ms1[to := Linked(ms1[to], c)])
    else (cs, ms)
  }

  /** One turn touches only c, m and `to`. */
  lemma AfterMoveShape(cs: map<ClientId, Client>, ms: map<MonId, Monitor>, m: MonId, to: MonId)
    requires Movable(cs, ms, m, to) && ms[m].clients != []
    ensures var c := ms[m].clients[0];
            var p := AfterMove(cs, ms, m, to);
            && c in cs
            && p.0 == cs[c := cs[c].(mon := to)]
            && p.1.Keys == ms.Keys
            && p.1[m].clients == ms[m].clients[1..]
            && p.1[to] == Linked(ms[to], c)
            && (forall k | k in ms && k != m && k != to :: p.1[k] == ms[k])
  {
    WithoutAt(ms[m].clients, 0);
    assert ms[m].clients[..0] + ms[m].clients[1..] == ms[m].clients[1..];
  }

  /** One turn keeps the registry consistent. */
  lemma AfterMoveConsistent(cs: map<ClientId, Client>, ms: map<MonId, Monitor>, mons: seq<MonId>, selmon: MonId,
                            m: MonId, to: MonId)
    requires Consistent(cs, ms, mons, selmon) && m != to
    ensures var p := AfterMove(cs, ms, m, to);
            Consistent(p.0, p.1, mons, selmon)
  {
    if m in ms && to in ms && ms[m].clients != [] && ms[m].clients[0] in cs {
      assert MonitorOk(cs, ms, m);
      var c := ms[m].clients[0];
      var sel := RemainingSel(ms[m], c, cs, ms);
      assert sel.Some? ==> sel.value in ms[m].clients && sel.value != c;
      MoveClient(cs, ms, mons, selmon, c, to, cs[c].(mon := to), sel);
    }
  }

  /** One turn of that loop: the head client of m moves to the head of `head`. */
  method MoveHeadClient(wm: WindowManager, m: MonId, head: MonId) returns (c: ClientId)
    requires m in wm.monitors && head in wm.monitors && m != head && wm.monitors[m].clients != []
    requires var c := wm.monitors[m].clients[0];
             c in wm.clients && wm.clients[c].mon == m && c in wm.monitors[m].stack
    requires NoDup(wm.monitors[m].clients) && NoDup(wm.monitors[m].stack)
    modifies wm
    ensures c == old(wm.monitors)[m].clients[0]
    ensures (wm.clients, wm.monitors) == AfterMove(old(wm.clients), old(wm.monitors), m, head)
    ensures wm.mons == old(wm.mons) && wm.selmon == old(wm.selmon)
    ensures wm.sw == old(wm.sw) && wm.sh == old(wm.sh)
    ensures wm.nextClient == old(wm.nextClient) && wm.nextMon == old(wm.nextMon)
  {
    c := UnlinkHead(wm, m);
    ghost var ms2 := wm.monitors;
    wm.clients := wm.clients[c := wm.clients[c].(mon := head)];
    wm.Attach(c);
    ghost var ms3 := wm.monitors;
    wm.AttachStack(c);
    UpdateTwice(ms2, head, ms3[head], wm.monitors[head]);
  }

  /** What detachstack leaves as the selection of mon once c is gone. */
  ghost function RemainingSel(mon: Monitor, c: ClientId, cs: map<ClientId, Client>, ms: map<MonId, Monitor>): (sel: Option<ClientId>)
    ensures sel.Some? ==> sel.value in Without(mon.stack, c) || sel == mon.sel
  {
    if mon.sel == Some(c) then FirstVisible(Without(mon.stack, c), cs, ms) else mon.sel
  }

  /** `m->clients = c->next; detachstack(c);` for the head client c of m. */
  method UnlinkHead(wm: WindowManager, m: MonId) returns (c: ClientId)
    requires m in wm.monitors && wm.monitors[m].clients != []
    requires var c := wm.monitors[m].clients[0];
             c in wm.clients && wm.clients[c].mon == m && c in wm.monitors[m].stack
    requires NoDup(wm.monitors[m].clients) && NoDup(wm.monitors[m].stack)
    modifies wm
    ensures c == old(wm.monitors)[m].clients[0]
    ensures var mon := old(wm.monitors)[m];
            wm.monitors == old(wm.monitors)[m := Unlinked(mon, c, RemainingSel(mon, c, old(wm.clients), old(wm.monitors)))]
    ensures wm.clients == old(wm.clients) && wm.mons == old(wm.mons) && wm.selmon == old(wm.selmon)
    ensures wm.sw == old(wm.sw) && wm.sh == old(wm.sh)
    ensures wm.nextClient == old(wm.nextClient) && wm.nextMon == old(wm.nextMon)
  {
    ghost var ms := wm.monitors;
    c := wm.monitors[m].clients[0];
    WithoutAt(ms[m].clients, 0);
    assert ms[m].clients[..0] + ms[m].clients[1..] == ms[m].clients[1..];
    wm.monitors := wm.monitors[m := wm.monitors[m].(clients := wm.monitors[m].clients[1..])];
    ghost var ms1 := wm.monitors;
    wm.DetachStack(c);
    FirstVisibleFramed(Without(ms[m].stack, c), wm.clients, ms1, wm.clients, ms, 0);
    UpdateTwice(ms, m, ms1[m], wm.monitors[m]);
  }
}
