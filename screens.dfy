/**
 * updategeom: reconcile the monitor list with the outputs Xinerama reports
 * (or, without Xinerama, with the screen size), then choose the selected
 * monitor afresh when anything changed.
 *
 * Removing surplus monitors is stated on whole-registry values: DropLast
 * is one turn of the removal loop and Shrunk(s, j) the registry after j
 * turns; the lemmas below say what Shrunk keeps and what it moves.
 */
module Screens {
  import opened Wrappers
  import opened Geometry
  import opened Seqs
  import opened Model
  import opened Registry
  import opened Monitors

  /** The monitor and client state of the window manager, as one value. */
  datatype Arena = Arena(clients: map<ClientId, Client>, monitors: map<MonId, Monitor>, mons: seq<MonId>, selmon: MonId)

  ghost function Snapshot(wm: WindowManager): Arena
    reads wm
  {
    Arena(wm.clients, wm.monitors, wm.mons, wm.selmon)
  }

  ghost predicate Sound(s: Arena)
  {
    Consistent(s.clients, s.monitors, s.mons, s.selmon)
  }

  /** An output's origin and size as a rectangle. */
  function ScreenRect(u: ScreenInfo): Rect
  {
    Rect(u.xOrg, u.yOrg, u.width, u.height)
  }

  // ------------------------------------------------- removing monitors

  /**
   * One turn of the removal loop: the last monitor's clients move to the
   * front of both lists of the first monitor, reversed, and point at it;
   * selmon leaves the last monitor, which is unlinked.
   */
  ghost function DropLast(s: Arena): Arena
  {
    if |s.mons| >= 2 && s.mons[|s.mons| - 1] in s.monitors && s.mons[0] in s.monitors then
      var m := s.mons[|s.mons| - 1];
      var head := s.mons[0];
      var l := s.monitors[m].clients;
      var h := s.monitors[head];
      Arena(map c | c in s.clients :: if c in l then s.clients[c].(mon := head) else s.clients[c],
            (s.monitors - {m})[head := h.(clients := Reverse(l) + h.clients, stack := Reverse(l) + h.stack)],
            s.mons[..|s.mons| - 1],
            if m == s.selmon then head else s.selmon)
    else s
  }

  /** The registry after j turns of the removal loop. */
  ghost function Shrunk(s: Arena, j: nat): Arena
  {
    if j == 0 then s else DropLast(Shrunk(s, j - 1))
  }

  /**
   * The clients the monitors `ids` hand to the first monitor when they are
   * removed last to first: each monitor's clients arrive reversed, and a
   * monitor removed later puts its clients in front.
   */
  function Gathered(ms: map<MonId, Monitor>, ids: seq<MonId>): seq<ClientId>
  {
    if ids == [] then []
    else (if ids[0] in ms then Reverse(ms[ids[0]].clients) else []) + Gathered(ms, ids[1..])
  }

  /** No client is handed over exactly when every one of those monitors is empty. */
  lemma {:induction false} GatheredEmpty(ms: map<MonId, Monitor>, ids: seq<MonId>)
    ensures Gathered(ms, ids) == [] <==> forall k | 0 <= k < |ids| :: ids[k] !in ms || ms[ids[k]].clients == []
  {
    if ids != [] {
      GatheredEmpty(ms, ids[1..]);
      assert forall k | 1 <= k < |ids| :: ids[k] == ids[1..][k - 1];
    }
  }

  /**
   * The migration loop followed by cleanupmon is that turn: the arenas
   * Migrated leaves, without the last monitor, are those of DropLast.
   */
  lemma DropLastMigrated(s: Arena)
    requires |s.mons| >= 2 && Movable(s.clients, s.monitors, s.mons[|s.mons| - 1], s.mons[0])
    ensures var n := |s.mons|;
            var m := s.mons[n - 1];
            var p := Migrated(s.clients, s.monitors, m, s.mons[0], |s.monitors[m].clients|);
            DropLast(s) == Arena(p.0, p.1 - {m}, s.mons[..n - 1], if m == s.selmon then s.mons[0] else s.selmon)
  {
    var n := |s.mons|;
    var m := s.mons[n - 1];
    var head := s.mons[0];
    var l := s.monitors[m].clients;
    var p := Migrated(s.clients, s.monitors, m, head, |l|);
    var r := DropLast(s);
    assert p.0 == r.clients by {
      assert l[..|l|] == l;
      MigratedShape(s.clients, s.monitors, m, head, |l|);
      MigratedClients(s.clients, s.monitors, m, head, |l|);
    }
    assert p.1 - {m} == r.monitors by {
      assert l[..|l|] == l;
      MigratedShape(s.clients, s.monitors, m, head, |l|);
      MigratedHead(s.clients, s.monitors, m, head, |l|);
      MigratedOthers(s.clients, s.monitors, m, head, |l|);
      forall k | k in r.monitors ensures k in p.1 - {m} && (p.1 - {m})[k] == r.monitors[k] {
        if k != head {
          assert k in s.monitors && k != m;
        }
      }
    }
  }

  /** One turn keeps the registry consistent. */
  lemma DropLastSound(s: Arena)
    requires Sound(s) && |s.mons| >= 2
    ensures Sound(DropLast(s))
  {
    DropLastConsistent(s);
    DropLastMigrated(s);
  }

  /** The migrated arena without the last monitor is consistent, and the migration could run. */
  lemma DropLastConsistent(s: Arena)
    requires Sound(s) && |s.mons| >= 2
    ensures var n := |s.mons|;
            var m := s.mons[n - 1];
            var p := Migrated(s.clients, s.monitors, m, s.mons[0], |s.monitors[m].clients|);
            && Movable(s.clients, s.monitors, m, s.mons[0])
            && Consistent(p.0, p.1 - {m}, s.mons[..n - 1], if m == s.selmon then s.mons[0] else s.selmon)
  {
    var m := s.mons[|s.mons| - 1];
    var p := Migrated(s.clients, s.monitors, m, s.mons[0], |s.monitors[m].clients|);
    DropLastEmptied(s);
    DropEmptyTail(p.0, p.1, s.mons, s.selmon);
  }

  /** The migration runs to the end, keeps the registry consistent and leaves the last monitor empty. */
  lemma DropLastEmptied(s: Arena)
    requires Sound(s) && |s.mons| >= 2
    ensures var m := s.mons[|s.mons| - 1];
            var p := Migrated(s.clients, s.monitors, m, s.mons[0], |s.monitors[m].clients|);
            && Movable(s.clients, s.monitors, m, s.mons[0])
            && Consistent(p.0, p.1, s.mons, s.selmon)
            && m in p.1 && p.1[m].clients == []
  {
    var m := s.mons[|s.mons| - 1];
    var head := s.mons[0];
    var l := |s.monitors[m].clients|;
    assert m in s.monitors && m != head;
    MigrateStart(s.clients, s.monitors, s.mons, s.selmon, m);
    MigratedConsistent(s.clients, s.monitors, s.mons, s.selmon, m, head, l);
    MigratedShape(s.clients, s.monitors, m, head, l);
  }

  /** Removing an empty last monitor keeps a registry consistent; the first monitor takes over the selection. */
  lemma DropEmptyTail(cs: map<ClientId, Client>, ms: map<MonId, Monitor>, mons: seq<MonId>, selmon: MonId)
    requires Consistent(cs, ms, mons, selmon) && |mons| >= 2
    requires mons[|mons| - 1] in ms && ms[mons[|mons| - 1]].clients == []
    ensures var n := |mons|;
            var m := mons[n - 1];
            Consistent(cs, ms - {m}, mons[..n - 1], if m == selmon then mons[0] else selmon)
  {
    var n := |mons|;
    var m := mons[n - 1];
    var sel := if m == selmon then mons[0] else selmon;
    assert mons[0] in ms && m != mons[0];
    Reselect(cs, ms, mons, selmon, sel);
    RemoveEmptyMonitor(cs, ms, mons, sel, m);
    assert Without(mons, m) == mons[..n - 1] by {
      WithoutAt(mons, n - 1);
      assert mons[n..] == [];
    }
  }

  /** The monitor list names each monitor once, and only monitors that exist. */
  ghost predicate Shaped(s: Arena)
  {
    NoDup(s.mons) && forall k | k in s.mons :: k in s.monitors
  }

  /** Each client is on the list of exactly the monitor it points at. */
  ghost predicate Owned(s: Arena)
  {
    forall c, k | c in s.clients && k in s.monitors :: c in s.monitors[k].clients <==> s.clients[c].mon == k
  }

  lemma SoundShaped(s: Arena)
    requires Sound(s)
    ensures Shaped(s) && Owned(s)
  {
    forall c, k | c in s.clients && k in s.monitors
      ensures c in s.monitors[k].clients <==> s.clients[c].mon == k
    {
      assert MonitorOk(s.clients, s.monitors, k);
    }
  }

  /** One turn puts the last monitor's clients, reversed, in front of the first monitor's lists. */
  lemma DropLastHead(s: Arena)
    requires |s.mons| >= 2 && s.mons[0] in s.monitors && s.mons[|s.mons| - 1] in s.monitors
    ensures var r := DropLast(s);
            var l := Reverse(s.monitors[s.mons[|s.mons| - 1]].clients);
            var h := s.monitors[s.mons[0]];
            s.mons[0] in r.monitors && r.monitors[s.mons[0]] == h.(clients := l + h.clients, stack := l + h.stack)
  {
  }

  /** One turn leaves every monitor but the first and the last as it was. */
  lemma DropLastOther(s: Arena, k: MonId)
    requires |s.mons| >= 2 && s.mons[0] in s.monitors && s.mons[|s.mons| - 1] in s.monitors
    requires k in s.monitors && k != s.mons[0] && k != s.mons[|s.mons| - 1]
    ensures k in DropLast(s).monitors && DropLast(s).monitors[k] == s.monitors[k]
  {
  }

  /** One turn points exactly the last monitor's clients at the first monitor. */
  lemma DropLastClient(s: Arena, c: ClientId)
    requires |s.mons| >= 2 && s.mons[0] in s.monitors && s.mons[|s.mons| - 1] in s.monitors
    requires c in s.clients
    ensures var l := s.monitors[s.mons[|s.mons| - 1]].clients;
            c in DropLast(s).clients &&
            DropLast(s).clients[c] == if c in l then s.clients[c].(mon := s.mons[0]) else s.clients[c]
  {
  }

  /** One turn moves selmon to the first monitor exactly when it was the last one. */
  lemma DropLastSelmon(s: Arena)
    requires |s.mons| >= 2 && s.mons[0] in s.monitors && s.mons[|s.mons| - 1] in s.monitors
    ensures DropLast(s).selmon == if s.mons[|s.mons| - 1] == s.selmon then s.mons[0] else s.selmon
  {
  }

  /** One turn drops the last monitor from the list and keeps every client. */
  lemma DropLastMons(s: Arena)
    requires |s.mons| >= 2 && s.mons[0] in s.monitors && s.mons[|s.mons| - 1] in s.monitors
    ensures DropLast(s).mons == s.mons[..|s.mons| - 1] && DropLast(s).clients.Keys == s.clients.Keys
  {
  }

  /** One turn keeps every monitor but the last in the arena. */
  lemma DropLastKeeps(s: Arena, k: MonId)
    requires |s.mons| >= 2 && s.mons[0] in s.monitors && s.mons[|s.mons| - 1] in s.monitors
    requires k in s.monitors && k != s.mons[|s.mons| - 1]
    ensures k in DropLast(s).monitors
  {
  }

  /** The monitors that survive the first j turns of the removal loop. */
  function Kept(s: Arena, j: nat): seq<MonId>
    requires j <= |s.mons|
  {
    s.mons[..|s.mons| - j]
  }

  /** The monitors removed in the first j turns, the last one removed first. */
  function Removed(s: Arena, j: nat): seq<MonId>
    requires j <= |s.mons|
  {
    s.mons[|s.mons| - j..]
  }

  /** The monitor turn j removes. */
  function Gone(s: Arena, j: nat): MonId
    requires 0 < j <= |s.mons|
  {
    s.mons[|s.mons| - j]
  }

  /** Turn j moves Gone(s, j) from the end of the survivors to the front of the removed. */
  lemma TurnSplit(s: Arena, j: nat)
    requires NoDup(s.mons) && 0 < j < |s.mons|
    ensures Kept(s, j - 1) == Kept(s, j) + [Gone(s, j)]
    ensures Removed(s, j) == [Gone(s, j)] + Removed(s, j - 1)
    ensures Gone(s, j) !in Kept(s, j) && Gone(s, j) != s.mons[0]
    ensures Kept(s, j)[0] == s.mons[0]
    ensures var k := Kept(s, j - 1); |k| >= 2 && k[0] == s.mons[0] && k[|k| - 1] == Gone(s, j)
  {
    var n := |s.mons|;
    assert s.mons[..n - j + 1] == s.mons[..n - j] + [s.mons[n - j]];
    assert s.mons[n - j..] == [s.mons[n - j]] + s.mons[n - j + 1..];
    SplitMembership(s.mons, n - j, s.mons[n - j]);
    assert s.mons[n - j..][0] == s.mons[n - j];
  }

  /** Gathered over the removed monitors grows at the front, turn by turn. */
  lemma GatheredStep(s: Arena, j: nat)
    requires NoDup(s.mons) && 0 < j < |s.mons| && Gone(s, j) in s.monitors
    ensures Gathered(s.monitors, Removed(s, j)) == Reverse(s.monitors[Gone(s, j)].clients) + Gathered(s.monitors, Removed(s, j - 1))
  {
    TurnSplit(s, j);
    assert Removed(s, j)[1..] == Removed(s, j - 1);
  }

  /** After j turns the survivors are the list, all still in the arena, and every client is still there. */
  lemma {:induction false} ShrunkMons(s: Arena, j: nat)
    requires Shaped(s) && j < |s.mons|
    ensures var r := Shrunk(s, j);
            && r.mons == Kept(s, j) && r.clients.Keys == s.clients.Keys
            && forall k | k in Kept(s, j) :: k in r.monitors
  {
    if j == 0 {
      assert s.mons[..|s.mons|] == s.mons;
    } else {
      var cur := Shrunk(s, j - 1);
      ShrunkMons(s, j - 1);
      TurnSplit(s, j);
      assert cur.mons[0] == s.mons[0] && cur.mons[|cur.mons| - 1] == Gone(s, j);
      DropLastMons(cur);
      assert cur.mons[..|cur.mons| - 1] == Kept(s, j);
      forall k | k in Kept(s, j) ensures k in Shrunk(s, j).monitors {
        assert k in Kept(s, j - 1) && k != Gone(s, j);
        DropLastKeeps(cur, k);
      }
    }
  }

  /** A survivor other than the first is untouched. */
  lemma {:induction false} ShrunkOther(s: Arena, j: nat, k: MonId)
    requires Shaped(s) && j < |s.mons| && k in Kept(s, j) && k != s.mons[0]
    ensures k in Shrunk(s, j).monitors && Shrunk(s, j).monitors[k] == s.monitors[k]
  {
    if j == 0 {
      assert s.mons[..|s.mons|] == s.mons;
    } else {
      var cur := Shrunk(s, j - 1);
      assert k in Kept(s, j - 1) && k != Gone(s, j) by {
        TurnSplit(s, j);
      }
      assert k in cur.monitors && cur.monitors[k] == s.monitors[k] by {
        ShrunkOther(s, j - 1, k);
      }
      assert |cur.mons| >= 2 && cur.mons[0] == s.mons[0] && cur.mons[|cur.mons| - 1] == Gone(s, j)
          && s.mons[0] in cur.monitors && Gone(s, j) in cur.monitors by {
        TurnSplit(s, j);
        ShrunkMons(s, j - 1);
      }
      DropLastOther(cur, k);
    }
  }

  /** What turn j starts from: at least two monitors, the first one first and Gone(s, j) last, as it was. */
  lemma ShrunkStep(s: Arena, j: nat)
    requires Shaped(s) && 0 < j < |s.mons|
    ensures var cur := Shrunk(s, j - 1);
            var m := Gone(s, j);
            && |cur.mons| >= 2 && cur.mons[0] == s.mons[0] && cur.mons[|cur.mons| - 1] == m
            && s.mons[0] in cur.monitors && m in cur.monitors && cur.monitors[m] == s.monitors[m]
  {
    TurnSplit(s, j);
    ShrunkMons(s, j - 1);
    ShrunkOther(s, j - 1, Gone(s, j));
  }

  /** Turn j + 1 applies DropLast to what the first j turns left. */
  lemma ShrunkUnfold(s: Arena, j: nat)
    ensures Shrunk(s, j + 1) == DropLast(Shrunk(s, j))
  {
  }

  /** ShrunkStep, stated for the turn after j turns. */
  lemma ShrunkNext(s: Arena, j: nat)
    requires Shaped(s) && j + 1 < |s.mons|
    ensures var cur := Shrunk(s, j);
            var m := Gone(s, j + 1);
            && |cur.mons| >= 2 && cur.mons[0] == s.mons[0] && cur.mons[|cur.mons| - 1] == m
            && s.mons[0] in cur.monitors && m in cur.monitors && cur.monitors[m] == s.monitors[m]
  {
    ShrunkStep(s, j + 1);
  }

  /** The first monitor holds every removed monitor's clients in front of its own, in both lists. */
  lemma {:induction false} ShrunkHead(s: Arena, j: nat)
    requires Shaped(s) && j < |s.mons|
    ensures var r := Shrunk(s, j);
            var h := s.monitors[s.mons[0]];
            var g := Gathered(s.monitors, Removed(s, j));
            s.mons[0] in r.monitors && r.monitors[s.mons[0]] == h.(clients := g + h.clients, stack := g + h.stack)
  {
    var head := s.mons[0];
    var h := s.monitors[head];
    if j == 0 {
      assert Removed(s, 0) == [];
    } else {
      var cur := Shrunk(s, j - 1);
      var m := Gone(s, j);
      ShrunkStep(s, j);
      var l := Reverse(s.monitors[m].clients);
      var g := Gathered(s.monitors, Removed(s, j - 1));
      var hc := cur.monitors[head];
      assert DropLast(cur).monitors[head] == hc.(clients := l + hc.clients, stack := l + hc.stack) by {
        DropLastHead(cur);
      }
      assert hc == h.(clients := g + h.clients, stack := g + h.stack) by {
        ShrunkHead(s, j - 1);
      }
      assert Gathered(s.monitors, Removed(s, j)) == l + g by {
        GatheredStep(s, j);
      }
      PrependedTwice(h, g, l);
    }
  }

  /** Putting l in front of lists that already start with g puts l + g in front of the originals. */
  lemma PrependedTwice(h: Monitor, g: seq<ClientId>, l: seq<ClientId>)
    ensures var hc := h.(clients := g + h.clients, stack := g + h.stack);
            hc.(clients := l + hc.clients, stack := l + hc.stack) == h.(clients := (l + g) + h.clients, stack := (l + g) + h.stack)
  {
    assert l + (g + h.clients) == (l + g) + h.clients;
    assert l + (g + h.stack) == (l + g) + h.stack;
  }

  /** Whether c is on the client list of a monitor one of the first j turns removes. */
  ghost predicate Taken(s: Arena, j: nat, c: ClientId)
    requires j <= |s.mons|
  {
    j > 0 && ((Gone(s, j) in s.monitors && c in s.monitors[Gone(s, j)].clients) || Taken(s, j - 1, c))
  }

  /** Exactly the clients handed over now point at the first monitor; nothing else about a client changes. */
  lemma {:induction false} ShrunkClient(s: Arena, j: nat, c: ClientId)
    requires Shaped(s) && j < |s.mons| && c in s.clients
    ensures var r := Shrunk(s, j);
            c in r.clients && r.clients[c] == if Taken(s, j, c) then s.clients[c].(mon := s.mons[0]) else s.clients[c]
  {
    if j > 0 {
      var head := s.mons[0];
      var cur := Shrunk(s, j - 1);
      var x := s.clients[c];
      assert c in cur.clients && cur.clients[c] == if Taken(s, j - 1, c) then x.(mon := head) else x by {
        ShrunkClient(s, j - 1, c);
      }
      assert |cur.mons| >= 2 && cur.mons[0] == head && cur.mons[|cur.mons| - 1] == Gone(s, j)
          && head in cur.monitors && Gone(s, j) in cur.monitors && cur.monitors[Gone(s, j)] == s.monitors[Gone(s, j)] by {
        ShrunkStep(s, j);
      }
      DropLastClient(cur, c);
    }
  }

  /** A client is handed over exactly when the monitor it pointed at is one of those removed. */
  lemma {:induction false} TakenOwners(s: Arena, j: nat, c: ClientId)
    requires Shaped(s) && Owned(s) && j < |s.mons| && c in s.clients
    ensures Taken(s, j, c) <==> s.clients[c].mon in Removed(s, j)
  {
    if j == 0 {
      assert Removed(s, 0) == [];
    } else {
      TakenOwners(s, j - 1, c);
      TurnSplit(s, j);
    }
  }

  /** selmon moves to the first monitor exactly when it was removed. */
  lemma {:induction false} ShrunkSelmon(s: Arena, j: nat)
    requires Shaped(s) && j < |s.mons|
    ensures Shrunk(s, j).selmon == if s.selmon in Removed(s, j) then s.mons[0] else s.selmon
  {
    if j == 0 {
      assert Removed(s, 0) == [];
    } else {
      var cur := Shrunk(s, j - 1);
      var m := Gone(s, j);
      ShrunkStep(s, j);
      assert cur.selmon == if s.selmon in Removed(s, j - 1) then s.mons[0] else s.selmon by {
        ShrunkSelmon(s, j - 1);
      }
      DropLastSelmon(cur);
      TurnSplit(s, j);
    }
  }

  /** Whether one of the first j turns of the removal loop finds clients on its monitor. */
  ghost predicate Moving(s: Arena, j: nat)
    requires j <= |s.mons|
  {
    j > 0 && ((Gone(s, j) in s.monitors && s.monitors[Gone(s, j)].clients != []) || Moving(s, j - 1))
  }

  /** Turn j + 1 finds clients, or an earlier turn did. */
  lemma MovingNext(s: Arena, j: nat)
    requires Shaped(s) && j + 1 <= |s.mons|
    ensures Moving(s, j + 1) <==> s.monitors[Gone(s, j + 1)].clients != [] || Moving(s, j)
  {
    assert Gone(s, j + 1) in s.mons;
  }

  /** Some turn finds clients exactly when the gathered list is not empty. */
  lemma {:induction false} MovingGathered(s: Arena, j: nat)
    requires Shaped(s) && j < |s.mons|
    ensures Moving(s, j) <==> Gathered(s.monitors, Removed(s, j)) != []
  {
    if j == 0 {
      assert Removed(s, 0) == [];
    } else {
      MovingGathered(s, j - 1);
      var l := s.monitors[Gone(s, j)].clients;
      assert l != [] <==> Reverse(l) != [];
      TurnSplit(s, j);
      GatheredStep(s, j);
    }
  }

  /** What Evacuate and cleanupmon leave of an arena whose last monitor can be emptied is DropLast of it. */
  lemma DropLastTurn(cs: map<ClientId, Client>, ms: map<MonId, Monitor>, mons: seq<MonId>, sel: MonId,
                     m: MonId, p: (map<ClientId, Client>, map<MonId, Monitor>))
    requires |mons| >= 2 && m == mons[|mons| - 1] && NoDup(mons) && Movable(cs, ms, m, mons[0])
    requires p == Migrated(cs, ms, m, mons[0], |ms[m].clients|)
    ensures Arena(p.0, p.1 - {m}, Without(mons, m), if m == sel then mons[0] else sel) == DropLast(Arena(cs, ms, mons, sel))
    ensures Without(mons, m) == mons[..|mons| - 1]
  {
    DropLastMigrated(Arena(cs, ms, mons, sel));
    WithoutAt(mons, |mons| - 1);
    assert mons[|mons|..] == [];
  }

  /** The first half of a turn: m's clients move to the first monitor, and selmon follows if it was m. */
  method Evacuate(wm: WindowManager, m: MonId) returns (moved: bool)
    requires Consistent(wm.clients, wm.monitors, wm.mons, wm.selmon) && m in wm.monitors && wm.mons != [] && m != wm.mons[0]
    modifies wm
    ensures wm.mons == old(wm.mons)
    ensures var p := Migrated(old(wm.clients), old(wm.monitors), m, wm.mons[0], |old(wm.monitors)[m].clients|);
            wm.clients == p.0 && wm.monitors == p.1
    ensures wm.selmon == if m == old(wm.selmon) then wm.mons[0] else old(wm.selmon)
    ensures moved <==> old(wm.monitors)[m].clients != []
    ensures wm.sw == old(wm.sw) && wm.sh == old(wm.sh)
    ensures wm.nextClient == old(wm.nextClient) && wm.nextMon == old(wm.nextMon)
  {
    moved := MigrateClients(wm, m);
    if m == wm.selmon {
      wm.selmon := wm.mons[0];
    }
  }

  /** The handles in use are below the next ones to hand out. */
  ghost predicate Counted(wm: WindowManager)
    reads wm
  {
    && (forall c | c in wm.clients :: c < wm.nextClient)
    && (forall m | m in wm.monitors :: m < wm.nextMon)
  }

  lemma SoundValid(wm: WindowManager)
    requires Sound(Snapshot(wm)) && Counted(wm)
    ensures wm.Valid()
  {
  }

  /** Every handle of the arena is below the next ones to hand out. */
  ghost predicate Below(a: Arena, nc: ClientId, nm: MonId)
  {
    && (forall c | c in a.clients :: c < nc)
    && (forall m | m in a.monitors :: m < nm)
  }

  /** Every stage of the removal loop on a sound arena is sound. */
  lemma {:induction false} ShrunkSound(s: Arena, j: nat)
    requires Sound(s) && j < |s.mons|
    ensures Sound(Shrunk(s, j))
  {
    if j > 0 {
      var cur := Shrunk(s, j - 1);
      assert Sound(DropLast(cur)) by {
        assert Sound(cur) by {
          ShrunkSound(s, j - 1);
        }
        assert |cur.mons| >= 2 by {
          assert Shaped(s);
          ShrunkNext(s, j - 1);
        }
        DropLastSound(cur);
      }
    }
  }

  /** A window manager whose state is a stage of the removal loop on a valid one is valid. */
  lemma ShrunkValid(wm: WindowManager, s: Arena, j: nat)
    requires Sound(s) && j < |s.mons| && Below(s, wm.nextClient, wm.nextMon)
    requires Snapshot(wm) == Shrunk(s, j)
    ensures wm.Valid()
  {
    assert Shaped(s);
    assert Sound(Snapshot(wm)) by {
      ShrunkSound(s, j);
    }
    assert wm.mons == Kept(s, j) && wm.clients.Keys == s.clients.Keys by {
      ShrunkMons(s, j);
    }
    forall k | k in wm.monitors
      ensures k < wm.nextMon
    {
      assert k in Kept(s, j);
      assert k in s.mons;
    }
    SoundValid(wm);
  }

  /**
   * What the turn after j turns of the removal loop needs: the arena is
   * sound, its last monitor can hand its clients to the first, and doing
   * so and unlinking it gives the next stage.
   */
  ghost predicate Ready(s: Arena, j: nat)
    requires j + 1 < |s.mons|
  {
    var cur := Shrunk(s, j);
    && |cur.mons| >= 2
    && var m := cur.mons[|cur.mons| - 1];
       var head := cur.mons[0];
       && Sound(cur) && m in cur.monitors && m != head
       && Movable(cur.clients, cur.monitors, m, head)
       && (Moving(s, j + 1) <==> cur.monitors[m].clients != [] || Moving(s, j))
       && var p := Migrated(cur.clients, cur.monitors, m, head, |cur.monitors[m].clients|);
          Arena(p.0, p.1 - {m}, Without(cur.mons, m), if m == cur.selmon then head else cur.selmon) == Shrunk(s, j + 1)
  }

  /** On a sound arena, the last monitor can hand its clients over and go, giving DropLast. */
  lemma LastReady(cur: Arena)
    requires Sound(cur) && |cur.mons| >= 2
    ensures var m := cur.mons[|cur.mons| - 1];
            var head := cur.mons[0];
            && m in cur.monitors && m != head
            && Movable(cur.clients, cur.monitors, m, head)
            && var p := Migrated(cur.clients, cur.monitors, m, head, |cur.monitors[m].clients|);
               Arena(p.0, p.1 - {m}, Without(cur.mons, m), if m == cur.selmon then head else cur.selmon) == DropLast(cur)
  {
    var m := cur.mons[|cur.mons| - 1];
    var head := cur.mons[0];
    assert m in cur.monitors && m != head && Movable(cur.clients, cur.monitors, m, head) by {
      MigrateStart(cur.clients, cur.monitors, cur.mons, cur.selmon, m);
    }
    var p := Migrated(cur.clients, cur.monitors, m, head, |cur.monitors[m].clients|);
    DropLastTurn(cur.clients, cur.monitors, cur.mons, cur.selmon, m, p);
  }

  /** Every turn of the removal loop but the last starts from a stage it can take. */
  lemma TurnReady(s: Arena, j: nat)
    requires Sound(s) && Shaped(s) && j + 1 < |s.mons|
    ensures Ready(s, j)
  {
    var cur := Shrunk(s, j);
    assert |cur.mons| >= 2 && (Moving(s, j + 1) <==> cur.monitors[cur.mons[|cur.mons| - 1]].clients != [] || Moving(s, j)) by {
      ShrunkNext(s, j);
      MovingNext(s, j);
    }
    assert Sound(cur) by {
      ShrunkSound(s, j);
    }
    LastReady(cur);
    ShrunkUnfold(s, j);
  }

  /**
   * The turn after j turns of the removal loop, starting from where those
   * left the arena; dirty becomes set once any removed monitor had clients.
   */
  method RemoveTurn(wm: WindowManager, ghost s: Arena, ghost j: nat, was: bool) returns (dirty: bool)
    requires j + 1 < |s.mons| && Ready(s, j)
    requires Snapshot(wm) == Shrunk(s, j)
    requires was <==> Moving(s, j)
    modifies wm
    ensures Snapshot(wm) == Shrunk(s, j + 1)
    ensures dirty <==> Moving(s, j + 1)
    ensures wm.sw == old(wm.sw) && wm.sh == old(wm.sh)
    ensures wm.nextClient == old(wm.nextClient) && wm.nextMon == old(wm.nextMon)
  {
    var m := wm.mons[|wm.mons| - 1];
    var moved := Evacuate(wm, m);
    CleanupMon(wm, m);
    dirty := was || moved;
  }

  /** The removal loop: k turns, each removing the last monitor. */
  method RemoveTail(wm: WindowManager, ghost s: Arena, k: nat) returns (dirty: bool)
    requires k < |s.mons| && forall j | 0 <= j < k :: Ready(s, j)
    requires Snapshot(wm) == s
    modifies wm
    ensures Snapshot(wm) == Shrunk(s, k)
    ensures dirty <==> Moving(s, k)
    ensures wm.sw == old(wm.sw) && wm.sh == old(wm.sh)
    ensures wm.nextClient == old(wm.nextClient) && wm.nextMon == old(wm.nextMon)
  {
    dirty := false;
    var j := 0;
    while j < k
      invariant j <= k
      invariant Snapshot(wm) == Shrunk(s, j)
      invariant dirty <==> Moving(s, j)
      invariant wm.sw == old(wm.sw) && wm.sh == old(wm.sh)
      invariant wm.nextClient == old(wm.nextClient) && wm.nextMon == old(wm.nextMon)
    {
      dirty := RemoveTurn(wm, s, j, dirty);
      j := j + 1;
    }
  }

  /**
   * The branch of updategeom for fewer outputs than monitors: remove
   * monitors from the end until nn remain, moving their clients to the
   * first monitor. It reports whether any client moved.
   */
  method ShrinkMonitors(wm: WindowManager, nn: nat) returns (dirty: bool)
    requires wm.Valid() && 0 < nn < |wm.mons|
    modifies wm
    ensures wm.Valid()
    ensures Snapshot(wm) == Shrunk(old(Snapshot(wm)), |old(wm.mons)| - nn)
    ensures dirty <==> Gathered(old(wm.monitors), old(wm.mons)[nn..]) != []
    ensures wm.sw == old(wm.sw) && wm.sh == old(wm.sh)
    ensures wm.nextClient == old(wm.nextClient) && wm.nextMon == old(wm.nextMon)
  {
    ghost var s := Snapshot(wm);
    assert Sound(s) && Shaped(s) && Below(s, wm.nextClient, wm.nextMon);
    var k := |wm.mons| - nn;
    forall j | 0 <= j < k
      ensures Ready(s, j)
    {
      TurnReady(s, j);
    }
    dirty := RemoveTail(wm, s, k);
    ShrunkValid(wm, s, k);
    assert dirty <==> Gathered(old(wm.monitors), old(wm.mons)[nn..]) != [] by {
      MovingGathered(s, k);
      assert Removed(s, k) == s.mons[nn..];
    }
  }

  // ------------------------------------------------- adding monitors

  /** The handles next, next + 1, ..., next + k - 1, in order. */
  function Fresh(next: MonId, k: nat): (r: seq<MonId>)
    ensures |r| == k && forall i | 0 <= i < k :: r[i] == next + i
  {
    if k == 0 then [] else Fresh(next, k - 1) + [next + k - 1]
  }

  /** The registry after k turns of the loop that links a new createmon() after the last monitor. */
  ghost function Appended(s: Arena, next: MonId, k: nat): (r: Arena)
    ensures |r.mons| == |s.mons| + k
  {
    if k == 0 then s else Push(Appended(s, next, k - 1), next + k - 1)
  }

  /** createmon() linked after the last monitor under handle id. */
  ghost function Push(a: Arena, id: MonId): Arena
  {
    Arena(a.clients, a.monitors[id := NewMonitor()], a.mons + [id], a.selmon)
  }

  /** The new monitors go to the end of the list; clients and selmon stay. */
  lemma {:induction false} AppendedMons(s: Arena, next: MonId, k: nat)
    ensures var a := Appended(s, next, k);
            a.mons == s.mons + Fresh(next, k) && a.clients == s.clients && a.selmon == s.selmon
  {
    if k > 0 {
      AppendedMons(s, next, k - 1);
      assert s.mons + Fresh(next, k) == (s.mons + Fresh(next, k - 1)) + [next + k - 1];
    }
  }

  /** A handle names a new, empty monitor if it is one of the new handles, and what it named before otherwise. */
  lemma {:induction false} AppendedMonitor(s: Arena, next: MonId, k: nat, m: MonId)
    ensures var a := Appended(s, next, k);
            && (m in a.monitors <==> m in s.monitors || next <= m < next + k)
            && (m in a.monitors ==> a.monitors[m] == if next <= m < next + k then NewMonitor() else s.monitors[m])
  {
    if k > 0 {
      AppendedMonitor(s, next, k - 1, m);
    }
  }

  /** After appending, the monitor list names exactly the monitors in the registry. */
  lemma AppendedKeys(s: Arena, next: MonId, k: nat)
    requires forall m :: m in s.monitors <==> m in s.mons
    ensures var a := Appended(s, next, k);
            forall m :: m in a.monitors <==> m in a.mons
  {
    var a := Appended(s, next, k);
    AppendedMons(s, next, k);
    forall m: MonId ensures m in a.monitors <==> m in a.mons {
      AppendedMonitor(s, next, k, m);
      assert m in Fresh(next, k) <==> next <= m < next + k by {
        if next <= m < next + k {
          assert Fresh(next, k)[m - next] == m;
        }
      }
    }
  }

  /** After appending, every monitor's lists are still consistent and every handle is below next + k. */
  lemma AppendedOk(s: Arena, next: MonId, k: nat)
    requires forall m | m in s.monitors :: MonitorOk(s.clients, s.monitors, m) && m < next
    ensures var a := Appended(s, next, k);
            forall m | m in a.monitors :: MonitorOk(a.clients, a.monitors, m) && m < next + k
  {
    var a := Appended(s, next, k);
    AppendedMons(s, next, k);
    forall m | m in a.monitors ensures MonitorOk(a.clients, a.monitors, m) && m < next + k {
      AppendedMonitor(s, next, k, m);
    }
  }

  /** After appending, every client is still on the list of the monitor it points at. */
  lemma AppendedOwners(s: Arena, next: MonId, k: nat)
    requires forall c | c in s.clients :: s.clients[c].mon in s.monitors && c in s.monitors[s.clients[c].mon].clients
    requires forall m | m in s.monitors :: m < next
    ensures var a := Appended(s, next, k);
            && (forall c | c in a.clients :: a.clients[c].mon in a.monitors && c in a.monitors[a.clients[c].mon].clients)
            && (s.selmon in s.monitors ==> a.selmon in a.monitors)
  {
    var a := Appended(s, next, k);
    AppendedMons(s, next, k);
    forall c | c in a.clients ensures a.clients[c].mon in a.monitors && c in a.monitors[a.clients[c].mon].clients {
      AppendedMonitor(s, next, k, s.clients[c].mon);
    }
    AppendedMonitor(s, next, k, s.selmon);
  }

  /** Appending empty monitors under handles not yet in use keeps the registry sound. */
  lemma AppendedSound(s: Arena, nc: ClientId, next: MonId, k: nat)
    requires Sound(s) && Below(s, nc, next)
    ensures Sound(Appended(s, next, k)) && Below(Appended(s, next, k), nc, next + k)
  {
    assert Shaped(s) by {
      SoundShaped(s);
    }
    AppendedShaped(s, next, k);
    AppendedMons(s, next, k);
    AppendedKeys(s, next, k);
    AppendedOk(s, next, k);
    AppendedOwners(s, next, k);
    SoundBelow(Appended(s, next, k), nc, next + k);
  }

  /** The conjuncts of Sound and Below, one by one. */
  lemma SoundBelow(a: Arena, nc: ClientId, nm: MonId)
    requires Shaped(a) && (forall m :: m in a.monitors <==> m in a.mons) && a.selmon in a.monitors
    requires forall m | m in a.monitors :: MonitorOk(a.clients, a.monitors, m) && m < nm
    requires forall c | c in a.clients :: a.clients[c].mon in a.monitors && c in a.monitors[a.clients[c].mon].clients
    requires forall c | c in a.clients :: c < nc
    ensures Sound(a) && Below(a, nc, nm)
  {
  }

  /** The loop of updategeom that adds monitors until there is one per output. */
  method AppendMonitors(wm: WindowManager, k: nat)
    modifies wm
    ensures Snapshot(wm) == Appended(old(Snapshot(wm)), old(wm.nextMon), k)
    ensures wm.nextMon == old(wm.nextMon) + k
    ensures wm.sw == old(wm.sw) && wm.sh == old(wm.sh) && wm.nextClient == old(wm.nextClient)
  {
    ghost var s := Snapshot(wm);
    var i := 0;
    while i < k
      invariant i <= k
      invariant Snapshot(wm) == Appended(s, old(wm.nextMon), i)
      invariant wm.nextMon == old(wm.nextMon) + i
      invariant wm.sw == old(wm.sw) && wm.sh == old(wm.sh) && wm.nextClient == old(wm.nextClient)
    {
      var id := wm.nextMon;
      wm.monitors := wm.monitors[id := NewMonitor()];
      wm.mons := wm.mons + [id];
      wm.nextMon := id + 1;
      i := i + 1;
    }
  }

  // ------------------------------------------------ refitting monitors

  /**
   * What the refit loop does to the monitor that is to show output u: a
   * monitor created in this call, or one whose screen differs, takes u as
   * its screen and its work area; any other is left alone.
   */
  function Fit(mon: Monitor, u: ScreenInfo, created: bool): (r: Monitor)
    ensures r.scr == ScreenRect(u)
    ensures r == mon.(scr := r.scr, wa := r.wa)
    ensures r == mon || r.wa == ScreenRect(u)
    ensures r == mon <==> (!created || mon.wa == ScreenRect(u)) && mon.scr == ScreenRect(u)
  {
    if created || mon.scr != ScreenRect(u) then mon.(scr := ScreenRect(u), wa := ScreenRect(u)) else mon
  }

  /** The registry after the first i turns of the refit loop, the first n monitors being the old ones. */
  ghost function Refitted(a: Arena, unique: seq<ScreenInfo>, n: nat, i: nat): Arena
    requires i <= |a.mons| && i <= |unique|
  {
    if i == 0 then a
    else
      var b := Refitted(a, unique, n, i - 1);
      var m := a.mons[i - 1];
      if m in b.monitors then Arena(b.clients, b.monitors[m := Fit(b.monitors[m], unique[i - 1], i - 1 >= n)], b.mons, b.selmon)
      else b
  }

  /** Whether one of the first i turns of the refit loop finds a monitor to set. */
  ghost predicate Changed(a: Arena, unique: seq<ScreenInfo>, n: nat, i: nat)
    requires i <= |a.mons| && i <= |unique|
  {
    i > 0 && (i - 1 >= n || (a.mons[i - 1] in a.monitors && a.monitors[a.mons[i - 1]].scr != ScreenRect(unique[i - 1]))
              || Changed(a, unique, n, i - 1))
  }

  /** Refitting changes no list, no client, no selection and no handle. */
  lemma {:induction false} RefittedShape(a: Arena, unique: seq<ScreenInfo>, n: nat, i: nat)
    requires i <= |a.mons| && i <= |unique|
    ensures var r := Refitted(a, unique, n, i);
            r.clients == a.clients && r.mons == a.mons && r.selmon == a.selmon && r.monitors.Keys == a.monitors.Keys
  {
    if i > 0 {
      RefittedShape(a, unique, n, i - 1);
    }
  }

  /** After i turns, the k-th monitor is fitted to the k-th output if k < i and untouched otherwise. */
  lemma {:induction false} RefittedMonitor(a: Arena, unique: seq<ScreenInfo>, n: nat, i: nat, k: nat)
    requires Shaped(a) && i <= |a.mons| && i <= |unique| && k < |a.mons|
    ensures var r := Refitted(a, unique, n, i);
            var m := a.mons[k];
            m in r.monitors && r.monitors[m] == if k < i then Fit(a.monitors[m], unique[k], k >= n) else a.monitors[m]
  {
    if i > 0 {
      RefittedMonitor(a, unique, n, i - 1, k);
      RefittedShape(a, unique, n, i - 1);
      if k != i - 1 {
        assert a.mons[k] != a.mons[i - 1];
      } else {
        RefittedMonitor(a, unique, n, i - 1, i - 1);
      }
    }
  }

  /** Some turn sets a monitor exactly when a monitor is new or an old one shows another geometry. */
  lemma {:induction false} ChangedSome(a: Arena, unique: seq<ScreenInfo>, n: nat, i: nat)
    requires Shaped(a) && i <= |a.mons| && i <= |unique|
    ensures Changed(a, unique, n, i) <==> n < i || exists k | 0 <= k < i :: a.monitors[a.mons[k]].scr != ScreenRect(unique[k])
  {
    if i > 0 {
      ChangedSome(a, unique, n, i - 1);
    }
  }

  /** Refitting keeps the registry sound: no list and no selection changes. */
  lemma {:induction false} RefittedSound(a: Arena, unique: seq<ScreenInfo>, n: nat, i: nat)
    requires Sound(a) && i <= |a.mons| && i <= |unique|
    ensures Sound(Refitted(a, unique, n, i))
  {
    if i > 0 {
      var b := Refitted(a, unique, n, i - 1);
      RefittedSound(a, unique, n, i - 1);
      RefittedShape(a, unique, n, i - 1);
      var m := a.mons[i - 1];
      if m in b.monitors {
        ReplaceMonitor(b.clients, b.monitors, b.mons, b.selmon, m, Fit(b.monitors[m], unique[i - 1], i - 1 >= n));
      }
    }
  }

  /** The loop of updategeom that gives monitor i the geometry of output i. */
  method RefitMonitors(wm: WindowManager, unique: seq<ScreenInfo>, n: nat) returns (dirty: bool)
    requires |wm.mons| == |unique| && Shaped(Snapshot(wm))
    modifies wm
    ensures Snapshot(wm) == Refitted(old(Snapshot(wm)), unique, n, |unique|)
    ensures dirty <==> Changed(old(Snapshot(wm)), unique, n, |unique|)
    ensures wm.sw == old(wm.sw) && wm.sh == old(wm.sh)
    ensures wm.nextClient == old(wm.nextClient) && wm.nextMon == old(wm.nextMon)
  {
    ghost var a := Snapshot(wm);
    dirty := false;
    var i := 0;
    while i < |unique|
      invariant i <= |unique|
      invariant Snapshot(wm) == Refitted(a, unique, n, i)
      invariant dirty <==> Changed(a, unique, n, i)
      invariant wm.sw == old(wm.sw) && wm.sh == old(wm.sh)
      invariant wm.nextClient == old(wm.nextClient) && wm.nextMon == old(wm.nextMon)
    {
      assert wm.mons == a.mons && a.mons[i] in wm.monitors && wm.monitors[a.mons[i]] == a.monitors[a.mons[i]] by {
        RefittedShape(a, unique, n, i);
        RefittedMonitor(a, unique, n, i, i);
      }
      var m := wm.mons[i];
      var mon := wm.monitors[m];
      var g := ScreenRect(unique[i]);
      if i >= n || mon.scr != g {
        dirty := true;
        wm.monitors := wm.monitors[m := mon.(scr := g, wa := g)];
      }
      i := i + 1;
    }
  }

  /** Every old handle is below next, so the new ones are fresh and the list stays well formed. */
  lemma {:induction false} AppendedShaped(s: Arena, next: MonId, k: nat)
    requires Shaped(s) && forall m | m in s.monitors :: m < next
    ensures Shaped(Appended(s, next, k))
  {
    if k > 0 {
      var a := Appended(s, next, k - 1);
      AppendedShaped(s, next, k - 1);
      AppendedMons(s, next, k - 1);
      assert next + k - 1 !in a.mons by {
        forall i | 0 <= i < |a.mons| ensures a.mons[i] != next + k - 1 {
          if i < |s.mons| {
            assert a.mons[i] == s.mons[i] && s.mons[i] in s.monitors;
          } else {
            assert a.mons[i] == Fresh(next, k - 1)[i - |s.mons|];
          }
        }
      }
      AppendNoDup(a.mons, next + k - 1);
    }
  }

  /** updategeom with at least as many outputs as monitors: append, then refit. */
  ghost function Grown(s: Arena, next: MonId, unique: seq<ScreenInfo>): Arena
    requires |s.mons| <= |unique|
  {
    Refitted(Appended(s, next, |unique| - |s.mons|), unique, |s.mons|, |unique|)
  }

  /**
   * One monitor per output: the k-th keeps its handle if it existed and is
   * the k-th new handle otherwise, and shows the k-th output.
   */
  lemma GrownMonitor(s: Arena, next: MonId, unique: seq<ScreenInfo>, k: nat)
    requires Shaped(s) && (forall m | m in s.monitors :: m < next) && |s.mons| <= |unique| && k < |unique|
    ensures var r := Grown(s, next, unique);
            var n := |s.mons|;
            && |r.mons| == |unique| && r.mons[k] == (if k < n then s.mons[k] else next + (k - n))
            && r.mons[k] in r.monitors
            && r.monitors[r.mons[k]] == Fit(if k < n then s.monitors[s.mons[k]] else NewMonitor(), unique[k], k >= n)
  {
    var n := |s.mons|;
    var a := Appended(s, next, |unique| - n);
    AppendedMons(s, next, |unique| - n);
    AppendedShaped(s, next, |unique| - n);
    RefittedShape(a, unique, n, |unique|);
    RefittedMonitor(a, unique, n, |unique|, k);
    AppendedMonitor(s, next, |unique| - n, a.mons[k]);
    if k < n {
      assert a.mons[k] == s.mons[k] && s.mons[k] in s.monitors;
    } else {
      assert a.mons[k] == Fresh(next, |unique| - n)[k - n];
    }
  }

  /** Growing keeps every client record and the selected monitor. */
  lemma GrownClients(s: Arena, next: MonId, unique: seq<ScreenInfo>)
    requires |s.mons| <= |unique|
    ensures var r := Grown(s, next, unique);
            |r.mons| == |unique| && r.clients == s.clients && r.selmon == s.selmon && r.mons[..|s.mons|] == s.mons
  {
    var a := Appended(s, next, |unique| - |s.mons|);
    AppendedMons(s, next, |unique| - |s.mons|);
    RefittedShape(a, unique, |s.mons|, |unique|);
  }

  /** Growing a sound registry gives a sound one, with fresh handles for the new monitors. */
  lemma GrownSound(s: Arena, nc: ClientId, next: MonId, unique: seq<ScreenInfo>)
    requires Sound(s) && Below(s, nc, next) && |s.mons| <= |unique|
    ensures Shaped(Appended(s, next, |unique| - |s.mons|))
    ensures Sound(Grown(s, next, unique)) && Below(Grown(s, next, unique), nc, next + (|unique| - |s.mons|))
  {
    var a := Appended(s, next, |unique| - |s.mons|);
    AppendedSound(s, nc, next, |unique| - |s.mons|);
    AppendedFit(a, nc, next + (|unique| - |s.mons|), unique, |s.mons|);
  }

  /** Refitting a sound registry leaves it sound, its lists well formed and its handles as they were. */
  lemma AppendedFit(a: Arena, nc: ClientId, nm: MonId, unique: seq<ScreenInfo>, n: nat)
    requires Sound(a) && Below(a, nc, nm) && |a.mons| == |unique|
    ensures Shaped(a) && Sound(Refitted(a, unique, n, |unique|)) && Below(Refitted(a, unique, n, |unique|), nc, nm)
  {
    SoundShaped(a);
    RefittedSound(a, unique, n, |unique|);
    RefittedShape(a, unique, n, |unique|);
  }

  /** The refit loop sets some monitor exactly when a monitor is added or an old one shows another geometry. */
  lemma GrownChanged(s: Arena, next: MonId, unique: seq<ScreenInfo>)
    requires Shaped(s) && (forall m | m in s.monitors :: m < next) && |s.mons| <= |unique|
    ensures var n := |s.mons|;
            Changed(Appended(s, next, |unique| - n), unique, n, |unique|) <==>
              (n < |unique| || exists k | 0 <= k < n :: s.monitors[s.mons[k]].scr != ScreenRect(unique[k]))
  {
    var n := |s.mons|;
    var a := Appended(s, next, |unique| - n);
    AppendedShaped(s, next, |unique| - n);
    ChangedSome(a, unique, n, |unique|);
    AppendedMons(s, next, |unique| - n);
    forall k | 0 <= k < n ensures a.mons[k] == s.mons[k] && a.monitors[a.mons[k]] == s.monitors[s.mons[k]] {
      assert a.mons[k] == s.mons[k] && s.mons[k] in s.monitors;
      AppendedMonitor(s, next, |unique| - n, s.mons[k]);
    }
  }

  /**
   * The branch of updategeom for at least as many outputs as monitors:
   * append new monitors, then give each monitor its output's geometry. It
   * reports whether a monitor was added or an old one changed geometry.
   */
  method GrowMonitors(wm: WindowManager, unique: seq<ScreenInfo>) returns (dirty: bool)
    requires wm.Valid() && |wm.mons| <= |unique|
    modifies wm
    ensures wm.Valid()
    ensures Snapshot(wm) == Grown(old(Snapshot(wm)), old(wm.nextMon), unique)
    ensures dirty <==> |old(wm.mons)| < |unique|
                       || exists k | 0 <= k < |old(wm.mons)| :: old(wm.monitors)[old(wm.mons)[k]].scr != ScreenRect(unique[k])
    ensures wm.nextMon == old(wm.nextMon) + (|unique| - |old(wm.mons)|)
    ensures wm.sw == old(wm.sw) && wm.sh == old(wm.sh) && wm.nextClient == old(wm.nextClient)
  {
    ghost var s := Snapshot(wm);
    ghost var next := wm.nextMon;
    var n := |wm.mons|;
    assert Sound(s) && Below(s, wm.nextClient, next);
    AppendMonitors(wm, |unique| - n);
    assert Shaped(Snapshot(wm)) && Sound(Grown(s, next, unique)) && Below(Grown(s, next, unique), wm.nextClient, wm.nextMon) by {
      GrownSound(s, wm.nextClient, next, unique);
    }
    dirty := RefitMonitors(wm, unique, n);
    assert Snapshot(wm) == Grown(s, next, unique);
    SoundValid(wm);
    assert s.mons == old(wm.mons) && s.monitors == old(wm.monitors) && Shaped(s) && forall m | m in s.monitors :: m < next;
    GrownChanged(s, next, unique);
  }

  // ------------------------------------------------- removing, summed up

  /**
   * The branch of updategeom for fewer outputs than monitors, nn of them:
   * the first nn monitors stay, in order; every client is still managed,
   * and those of a removed monitor now point at the first one, in front of
   * whose lists they stand; the other survivors are untouched; selmon falls
   * back to the first monitor if it was removed.
   */
  lemma Shrinking(s: Arena, nn: nat)
    requires Sound(s) && 0 < nn < |s.mons|
    ensures var r := Shrunk(s, |s.mons| - nn);
            var head := s.mons[0];
            var g := Gathered(s.monitors, s.mons[nn..]);
            && r.mons == s.mons[..nn]
            && r.clients.Keys == s.clients.Keys && |r.clients| == |s.clients|
            && (forall c | c in s.clients ::
                  r.clients[c] == if s.clients[c].mon in s.mons[nn..] then s.clients[c].(mon := head) else s.clients[c])
            && head in r.monitors
            && r.monitors[head] == s.monitors[head].(clients := g + s.monitors[head].clients, stack := g + s.monitors[head].stack)
            && (forall k | k in s.mons[1..nn] :: k in r.monitors && r.monitors[k] == s.monitors[k])
            && r.selmon == if s.selmon in s.mons[nn..] then head else s.selmon
  {
    var j := |s.mons| - nn;
    var r := Shrunk(s, j);
    SoundShaped(s);
    assert Removed(s, j) == s.mons[nn..] && Kept(s, j) == s.mons[..nn];
    ShrunkMons(s, j);
    assert |r.clients| == |r.clients.Keys| == |s.clients.Keys| == |s.clients|;
    forall c | c in s.clients
      ensures r.clients[c] == if s.clients[c].mon in s.mons[nn..] then s.clients[c].(mon := s.mons[0]) else s.clients[c]
    {
      ShrunkClient(s, j, c);
      TakenOwners(s, j, c);
    }
    ShrunkHead(s, j);
    forall k | k in s.mons[1..nn] ensures k in r.monitors && r.monitors[k] == s.monitors[k] {
      assert k in Kept(s, j) && k != s.mons[0];
      ShrunkOther(s, j, k);
    }
    ShrunkSelmon(s, j);
  }

  // ------------------------------------------------- without Xinerama

  /** The first monitor takes the screen's size for its screen and its work area, keeping both origins. */
  function ScreenFit(mon: Monitor, sw: int, sh: int): (r: Monitor)
    ensures r.scr == mon.scr.(w := sw, h := sh)
    ensures r == mon <==> mon.scr.w == sw && mon.scr.h == sh
    ensures r != mon ==> r.wa == mon.wa.(w := sw, h := sh)
    ensures r == mon.(scr := r.scr, wa := r.wa)
  {
    if mon.scr.w != sw || mon.scr.h != sh then mon.(scr := mon.scr.(w := sw, h := sh), wa := mon.wa.(w := sw, h := sh))
    else mon
  }

  /** The registry after the branch of updategeom without Xinerama. */
  ghost function ScreenFitted(s: Arena, sw: int, sh: int): Arena
    requires s.mons != [] && s.mons[0] in s.monitors
  {
    s.(monitors := s.monitors[s.mons[0] := ScreenFit(s.monitors[s.mons[0]], sw, sh)])
  }

  /**
   * The branch of updategeom without Xinerama: when the first monitor's size
   * is not the screen's, it takes the screen's size. The monitor list is
   * never empty here, so the createmon that guards against that is not needed.
   */
  method FitScreen(wm: WindowManager) returns (dirty: bool)
    requires wm.Valid()
    modifies wm
    ensures wm.Valid()
    ensures Snapshot(wm) == ScreenFitted(old(Snapshot(wm)), wm.sw, wm.sh)
    ensures dirty <==> old(wm.monitors)[old(wm.mons)[0]].scr.w != wm.sw || old(wm.monitors)[old(wm.mons)[0]].scr.h != wm.sh
    ensures wm.sw == old(wm.sw) && wm.sh == old(wm.sh)
    ensures wm.nextClient == old(wm.nextClient) && wm.nextMon == old(wm.nextMon)
  {
    assert wm.mons != [] && wm.mons[0] in wm.monitors;
    var m := wm.mons[0];
    var mon := wm.monitors[m];
    dirty := false;
    if mon.scr.w != wm.sw || mon.scr.h != wm.sh {
      dirty := true;
      var fitted := mon.(scr := mon.scr.(w := wm.sw, h := wm.sh), wa := mon.wa.(w := wm.sw, h := wm.sh));
      ReplaceMonitor(wm.clients, wm.monitors, wm.mons, wm.selmon, m, fitted);
      wm.monitors := wm.monitors[m := fitted];
    }
  }

  // ------------------------------------------------- updategeom

  /**
   * What updategeom does before it repoints selmon, and whether it reports
   * a change: with Xinerama, grow to or shrink to the de-duplicated outputs;
   * without, fit the first monitor to the screen.
   */
  ghost function Reconciled(s: Arena, next: MonId, sw: int, sh: int, screens: Option<seq<ScreenInfo>>): (Arena, bool)
    requires s.mons != [] && s.mons[0] in s.monitors
  {
    match screens
    case Some(info) =>
      var unique := UniqueScreens(info);
      if |s.mons| <= |unique| then
        (Grown(s, next, unique),
         |s.mons| < |unique|
         || exists k | 0 <= k < |s.mons| :: s.mons[k] in s.monitors && s.monitors[s.mons[k]].scr != ScreenRect(unique[k]))
      else
        (Shrunk(s, |s.mons| - |unique|), Gathered(s.monitors, s.mons[|unique|..]) != [])
    case None =>
      var mon := s.monitors[s.mons[0]];
      (ScreenFitted(s, sw, sh), mon.scr.w != sw || mon.scr.h != sh)
  }

  /** The end of updategeom when something changed: selmon = mons, then selmon = wintomon(root). */
  method PointSelmon(wm: WindowManager, pointer: Option<(int, int)>)
    requires wm.Valid()
    modifies wm
    ensures wm.Valid()
    ensures wm.mons != [] && wm.selmon == RootMonitor(pointer, wm.mons, wm.monitors, wm.mons[0])
    ensures wm.clients == old(wm.clients) && wm.monitors == old(wm.monitors) && wm.mons == old(wm.mons)
    ensures wm.sw == old(wm.sw) && wm.sh == old(wm.sh)
    ensures wm.nextClient == old(wm.nextClient) && wm.nextMon == old(wm.nextMon)
  {
    assert wm.mons != [] && forall m | m in wm.mons :: m in wm.monitors;
    wm.selmon := wm.mons[0];
    var r := RootMonitor(pointer, wm.mons, wm.monitors, wm.selmon);
    Reselect(wm.clients, wm.monitors, wm.mons, old(wm.selmon), r);
    wm.selmon := r;
  }

  /** The part of updategeom that reconciles the monitors with the outputs, or with the screen. */
  method Reconcile(wm: WindowManager, screens: Option<seq<ScreenInfo>>) returns (dirty: bool)
    requires wm.Valid() && (screens.Some? ==> screens.value != [])
    modifies wm
    ensures wm.Valid()
    ensures old(wm.mons) != [] && old(wm.mons)[0] in old(wm.monitors)
    ensures Snapshot(wm) == Reconciled(old(Snapshot(wm)), old(wm.nextMon), wm.sw, wm.sh, screens).0
    ensures dirty == Reconciled(old(Snapshot(wm)), old(wm.nextMon), wm.sw, wm.sh, screens).1
    ensures wm.sw == old(wm.sw) && wm.sh == old(wm.sh) && wm.nextClient == old(wm.nextClient)
  {
    if screens.Some? {
      var unique := UniqueGeoms(screens.value);
      if |wm.mons| <= |unique| {
        dirty := GrowMonitors(wm, unique);
      } else {
        UniqueScreensHead(screens.value);
        dirty := ShrinkMonitors(wm, |unique|);
      }
    } else {
      dirty := FitScreen(wm);
    }
  }

  /**
   * updategeom, with what XineramaQueryScreens reports (None when Xinerama
   * is not active) and the pointer position (None when it cannot be read)
   * as inputs. Xinerama reports at least one output.
   */
  method UpdateGeom(wm: WindowManager, screens: Option<seq<ScreenInfo>>, pointer: Option<(int, int)>) returns (dirty: bool)
    requires wm.Valid() && (screens.Some? ==> screens.value != [])
    modifies wm
    ensures wm.Valid()
    ensures old(wm.mons) != [] && old(wm.mons)[0] in old(wm.monitors)
    ensures var r := Reconciled(old(Snapshot(wm)), old(wm.nextMon), wm.sw, wm.sh, screens).0;
            wm.clients == r.clients && wm.monitors == r.monitors && wm.mons == r.mons
    ensures dirty == Reconciled(old(Snapshot(wm)), old(wm.nextMon), wm.sw, wm.sh, screens).1
    ensures wm.selmon == if dirty then RootMonitor(pointer, wm.mons, wm.monitors, wm.mons[0])
                         else Reconciled(old(Snapshot(wm)), old(wm.nextMon), wm.sw, wm.sh, screens).0.selmon
    ensures wm.sw == old(wm.sw) && wm.sh == old(wm.sh) && wm.nextClient == old(wm.nextClient)
  {
    dirty := Reconcile(wm, screens);
    if dirty {
      PointSelmon(wm, pointer);
    }
  }
}
