/**
 * The records dwm keeps for each managed window and each monitor, the
 * visibility test, the queries that walk a client list, and the invariant
 * that ties the two per-monitor lists (insertion order and focus stack) to
 * the client records.
 *
 * Clients and monitors live in two arenas (maps from a handle to a record);
 * the `next`, `snext` and `mon` pointers become sequences of handles and a
 * handle.
 */
module Model {
  import opened Wrappers
  import opened Geometry
  import opened Config
  import opened Seqs
  import opened SizeHints
  import opened Layouts

  type ClientId = Id
  type MonId = Id

  /** `unsigned char tag`: one workspace number per client and per monitor. */
  type Tag = t: int | 0 <= t < 256

  /** struct Client, without the aspect ratios and the window-list links. */
  datatype Client = Client(
    win: int,
    geom: Rect,        // x, y, w, h
    oldGeom: Rect,     // oldx, oldy, oldw, oldh
    hints: Hints,      // basew .. minh, isfixed
    tag: Tag,
    isfloating: bool,
    isfullscreen: bool,
    oldstate: bool,
    neverfocus: bool,
    mon: MonId)

  /** struct Monitor: screen rectangle, work area, and the two client lists. */
  datatype Monitor = Monitor(
    mfact: int,                   // percent
    scr: Rect,                    // mx, my, mw, mh
    wa: Rect,                     // wx, wy, ww, wh
    tag: Tag,
    clients: seq<ClientId>,       // the `next` chain
    stack: seq<ClientId>,         // the `snext` chain
    sel: Option<ClientId>,
    layout: Option<LayoutKind>)

  /** What createmon returns: tag 0, the default master fraction, the first layout. */
  function NewMonitor(): (m: Monitor)
    ensures m.clients == [] && m.stack == [] && m.sel.None? && m.tag == 0 && m.mfact == DefaultMfact
    ensures m.layout == Some(LayoutTable[0])
  {
    Monitor(DefaultMfact, Rect(0, 0, 0, 0), Rect(0, 0, 0, 0), 0, [], [], None, Some(Tile))
  }

  /** ISVISIBLE(c): the client shows the workspace its monitor shows. */
  predicate Visible(cs: map<ClientId, Client>, ms: map<MonId, Monitor>, c: ClientId)
  {
    c in cs && cs[c].mon in ms && cs[c].tag == ms[cs[c].mon].tag
  }

  /** What nexttiled stops at: a visible client that is not floating. */
  predicate Tiled(cs: map<ClientId, Client>, ms: map<MonId, Monitor>, c: ClientId)
  {
    Visible(cs, ms, c) && !cs[c].isfloating
  }

  // ------------------------------------------------------ list queries

  /** The index of the first visible client of s at or after k (|s| if none). */
  function FirstVisibleFrom(s: seq<ClientId>, cs: map<ClientId, Client>, ms: map<MonId, Monitor>, k: nat): (j: nat)
    requires k <= |s|
    ensures k <= j <= |s|
    ensures forall i | k <= i < j :: !Visible(cs, ms, s[i])
    ensures j < |s| ==> Visible(cs, ms, s[j])
    decreases |s| - k
  {
    if k == |s| then k
    else if Visible(cs, ms, s[k]) then k
    else FirstVisibleFrom(s, cs, ms, k + 1)
  }

  /** `for (t = stack; t && !ISVISIBLE(t); t = t->snext);` */
  function FirstVisible(s: seq<ClientId>, cs: map<ClientId, Client>, ms: map<MonId, Monitor>): (r: Option<ClientId>)
    ensures r.None? <==> forall i | 0 <= i < |s| :: !Visible(cs, ms, s[i])
    ensures r.Some? ==> r.value in s && Visible(cs, ms, r.value)
  {
    var j := FirstVisibleFrom(s, cs, ms, 0);
    if j < |s| then Some(s[j]) else None
  }

  /** The index of the last visible client of s in [lo, hi), if any. */
  function LastVisible(s: seq<ClientId>, cs: map<ClientId, Client>, ms: map<MonId, Monitor>, lo: nat, hi: nat): (r: Option<nat>)
    requires lo <= hi <= |s|
    ensures r.None? ==> forall i | lo <= i < hi :: !Visible(cs, ms, s[i])
    ensures r.Some? ==> lo <= r.value < hi && Visible(cs, ms, s[r.value])
    ensures r.Some? ==> forall i | r.value < i < hi :: !Visible(cs, ms, s[i])
    decreases hi - lo
  {
    if lo == hi then None
    else if Visible(cs, ms, s[hi - 1]) then Some(hi - 1)
    else LastVisible(s, cs, ms, lo, hi - 1)
  }

  /** The clients FOREACHTILE visits, in list order. */
  function TiledClients(s: seq<ClientId>, cs: map<ClientId, Client>, ms: map<MonId, Monitor>): (r: seq<ClientId>)
    ensures forall c :: c in r <==> c in s && Tiled(cs, ms, c)
    ensures |r| <= |s|
    decreases |s|
  {
    if s == [] then []
    else if Tiled(cs, ms, s[0]) then [s[0]] + TiledClients(s[1..], cs, ms)
    else TiledClients(s[1..], cs, ms)
  }

  /** nexttiled(c), with c the client at index k (|s| standing for NULL). */
  function NextTiled(s: seq<ClientId>, cs: map<ClientId, Client>, ms: map<MonId, Monitor>, k: nat): (j: nat)
    requires k <= |s|
    ensures k <= j <= |s|
    ensures j < |s| ==> Tiled(cs, ms, s[j])
    decreases |s| - k
  {
    if k == |s| then k
    else if Tiled(cs, ms, s[k]) then k
    else NextTiled(s, cs, ms, k + 1)
  }

  /** nexttiled passes over floating and invisible clients only. */
  lemma {:induction false} NextTiledSkips(s: seq<ClientId>, cs: map<ClientId, Client>, ms: map<MonId, Monitor>, k: nat)
    requires k <= |s|
    ensures forall i | k <= i < NextTiled(s, cs, ms, k) :: !Tiled(cs, ms, s[i])
    decreases |s| - k
  {
    if k < |s| && !Tiled(cs, ms, s[k]) {
      NextTiledSkips(s, cs, ms, k + 1);
    }
  }

  /** The tiled clients of s from index k on, for k a tiled client's index or |s|. */
  ghost function TiledFrom(s: seq<ClientId>, cs: map<ClientId, Client>, ms: map<MonId, Monitor>, k: nat): seq<ClientId>
    requires k <= |s|
  {
    if k == |s| then [] else [s[k]] + TiledClients(s[k + 1..], cs, ms)
  }

  /**
   * Walking the list with nexttiled visits exactly TiledClients: the first
   * stop is its head and the walk from just after it visits the rest.
   */
  lemma {:induction false} NextTiledWalk(s: seq<ClientId>, cs: map<ClientId, Client>, ms: map<MonId, Monitor>, k: nat)
    requires k <= |s|
    ensures TiledClients(s[k..], cs, ms) == TiledFrom(s, cs, ms, NextTiled(s, cs, ms, k))
    decreases |s| - k
  {
    if k < |s| {
      var t := s[k..];
      assert t[0] == s[k] && t[1..] == s[k + 1..];
      if Tiled(cs, ms, s[k]) {
        assert NextTiled(s, cs, ms, k) == k;
        assert TiledClients(t, cs, ms) == [s[k]] + TiledClients(s[k + 1..], cs, ms);
      } else {
        assert NextTiled(s, cs, ms, k) == NextTiled(s, cs, ms, k + 1);
        assert TiledClients(t, cs, ms) == TiledClients(s[k + 1..], cs, ms);
        NextTiledWalk(s, cs, ms, k + 1);
      }
    }
  }

  /** tile_count as it should be: the number of tiled clients. */
  function TileCount(s: seq<ClientId>, cs: map<ClientId, Client>, ms: map<MonId, Monitor>): (n: nat)
    ensures n <= |s|
    ensures n == 0 <==> forall c | c in s :: !Tiled(cs, ms, c)
  {
    var t := TiledClients(s, cs, ms);
    if t != [] then assert t[0] in t; |t| else |t|
  }

  /**
   * tile_count as written: it counts into an `unsigned char`, so the count
   * is taken modulo 256.
   */
  function TileCountAsWritten(s: seq<ClientId>, cs: map<ClientId, Client>, ms: map<MonId, Monitor>): (n: nat)
    ensures n < 256
    ensures n == TileCount(s, cs, ms) % 256
  {
    |TiledClients(s, cs, ms)| % 256
  }

  /** Below 256 tiled clients the counter does not wrap. */
  lemma TileCountAgrees(s: seq<ClientId>, cs: map<ClientId, Client>, ms: map<MonId, Monitor>)
    requires TileCount(s, cs, ms) < 256
    ensures TileCountAsWritten(s, cs, ms) == TileCount(s, cs, ms)
  {
  }

  /** Exactly 256 tiled clients: tile_count as written returns 0. */
  lemma TileCountWraps(s: seq<ClientId>, cs: map<ClientId, Client>, ms: map<MonId, Monitor>)
    requires |TiledClients(s, cs, ms)| == 256
    ensures TileCount(s, cs, ms) == 256 && TileCountAsWritten(s, cs, ms) == 0
  {
  }

  // --------------------------------------------------------- invariant

  /** One monitor's lists: the same clients in both, each once, all pointing back. */
  ghost predicate MonitorOk(cs: map<ClientId, Client>, ms: map<MonId, Monitor>, m: MonId)
    requires m in ms
  {
    var mon := ms[m];
    && NoDup(mon.clients) && NoDup(mon.stack)
    && (forall c :: c in mon.clients <==> c in mon.stack)
    && (forall c | c in mon.clients :: c in cs && cs[c].mon == m)
    && (mon.sel.Some? ==> mon.sel.value in mon.clients)
  }

  /**
   * The whole registry: the monitor list names every monitor once, selmon
   * is one of them, every client is on the lists of the monitor it points
   * to, and every monitor's lists are consistent.
   */
  ghost predicate Consistent(cs: map<ClientId, Client>, ms: map<MonId, Monitor>, mons: seq<MonId>, selmon: MonId)
  {
    && NoDup(mons)
    && (forall m :: m in ms <==> m in mons)
    && selmon in ms
    && (forall c | c in cs :: cs[c].mon in ms && c in ms[cs[c].mon].clients)
    && (forall m | m in ms :: MonitorOk(cs, ms, m))
  }

  /** Two monitor arenas with the same monitors showing the same workspaces. */
  predicate SameTags(ms: map<MonId, Monitor>, ms': map<MonId, Monitor>)
  {
    ms.Keys == ms'.Keys && forall m | m in ms :: ms[m].tag == ms'[m].tag
  }

  /**
   * Two client arenas that agree on everything visibility and tiling look
   * at, and on the fullscreen flag: they differ at most in geometry.
   */
  predicate SameRoles(cs: map<ClientId, Client>, cs': map<ClientId, Client>)
  {
    cs.Keys == cs'.Keys
    && forall c | c in cs ::
         cs[c].tag == cs'[c].tag && cs[c].mon == cs'[c].mon && cs[c].isfloating == cs'[c].isfloating
         && cs[c].isfullscreen == cs'[c].isfullscreen && cs[c].hints == cs'[c].hints
  }

  /** Visibility only depends on the tags and the monitor pointers. */
  lemma VisibleFramed(cs: map<ClientId, Client>, ms: map<MonId, Monitor>, cs': map<ClientId, Client>, ms': map<MonId, Monitor>)
    requires SameTags(ms, ms') && SameRoles(cs, cs')
    ensures forall c :: Visible(cs, ms, c) == Visible(cs', ms', c)
    ensures forall c :: Tiled(cs, ms, c) == Tiled(cs', ms', c)
  {
    forall c ensures Visible(cs, ms, c) == Visible(cs', ms', c) {
      if c in cs && cs[c].mon in ms {
        assert cs'[c].mon == cs[c].mon;
      }
    }
  }

  lemma {:induction false} FirstVisibleFramed(s: seq<ClientId>, cs: map<ClientId, Client>, ms: map<MonId, Monitor>,
                                              cs': map<ClientId, Client>, ms': map<MonId, Monitor>, k: nat)
    requires k <= |s| && SameTags(ms, ms') && SameRoles(cs, cs')
    ensures FirstVisibleFrom(s, cs, ms, k) == FirstVisibleFrom(s, cs', ms', k)
    decreases |s| - k
  {
    VisibleFramed(cs, ms, cs', ms');
    if k < |s| {
      FirstVisibleFramed(s, cs, ms, cs', ms', k + 1);
    }
  }

  lemma {:induction false} TiledFramed(s: seq<ClientId>, cs: map<ClientId, Client>, ms: map<MonId, Monitor>,
                                       cs': map<ClientId, Client>, ms': map<MonId, Monitor>)
    requires SameTags(ms, ms') && SameRoles(cs, cs')
    ensures TiledClients(s, cs, ms) == TiledClients(s, cs', ms')
    decreases |s|
  {
    VisibleFramed(cs, ms, cs', ms');
    if s != [] {
      TiledFramed(s[1..], cs, ms, cs', ms');
    }
  }

  /**
   * Replacing one monitor record by one whose lists hold the same clients,
   * each once, and whose selection is one of them keeps the registry
   * consistent.
   */
  lemma ReplaceMonitor(cs: map<ClientId, Client>, ms: map<MonId, Monitor>, mons: seq<MonId>, selmon: MonId,
                       m: MonId, mon: Monitor)
    requires Consistent(cs, ms, mons, selmon) && m in ms
    requires NoDup(mon.clients) && NoDup(mon.stack)
    requires forall c :: c in mon.clients <==> c in ms[m].clients
    requires forall c :: c in mon.stack <==> c in ms[m].clients
    requires mon.sel.Some? ==> mon.sel.value in ms[m].clients
    ensures Consistent(cs, ms[m := mon], mons, selmon)
  {
    var ms' := ms[m := mon];
    forall k | k in ms' ensures MonitorOk(cs, ms', k) {
      if k != m {
        assert ms'[k] == ms[k];
        assert MonitorOk(cs, ms, k);
      } else {
        assert MonitorOk(cs, ms, m);
      }
    }
  }

  /** Changing a client record without moving it to another monitor keeps the registry consistent. */
  lemma ReplaceClient(cs: map<ClientId, Client>, ms: map<MonId, Monitor>, mons: seq<MonId>, selmon: MonId,
                      c: ClientId, cl: Client)
    requires Consistent(cs, ms, mons, selmon) && c in cs && cl.mon == cs[c].mon
    ensures Consistent(cs[c := cl], ms, mons, selmon)
  {
    var cs' := cs[c := cl];
    forall k | k in ms ensures MonitorOk(cs', ms, k) {
      assert MonitorOk(cs, ms, k);
    }
  }

  /** Any monitor may become the selected one. */
  lemma Reselect(cs: map<ClientId, Client>, ms: map<MonId, Monitor>, mons: seq<MonId>, selmon: MonId, m: MonId)
    requires Consistent(cs, ms, mons, selmon) && m in ms
    ensures Consistent(cs, ms, mons, m)
  {
  }

  /** The monitor record after unlinking c from both of its lists and choosing `sel`. */
  function Unlinked(mon: Monitor, c: ClientId, sel: Option<ClientId>): Monitor
  {
    mon.(clients := Without(mon.clients, c), stack := Without(mon.stack, c), sel := sel)
  }

  /** The monitor record after attach and attachstack of c. */
  function Linked(mon: Monitor, c: ClientId): Monitor
  {
    mon.(clients := [c] + mon.clients, stack := [c] + mon.stack)
  }

  /**
   * Moving client c from monitor `from` to monitor `to` — detach and
   * detachstack, repoint c->mon, attach and attachstack — keeps the
   * registry consistent when the old monitor's new selection is still one
   * of its clients.
   */
  lemma MoveClient(cs: map<ClientId, Client>, ms: map<MonId, Monitor>, mons: seq<MonId>, selmon: MonId,
                   c: ClientId, to: MonId, cl: Client, sel: Option<ClientId>)
    requires Consistent(cs, ms, mons, selmon) && c in cs && to in ms && cs[c].mon != to && cl.mon == to
    requires sel.Some? ==> sel.value in ms[cs[c].mon].clients && sel.value != c
    ensures var from := cs[c].mon;
            var ms1 := ms[from := Unlinked(ms[from], c, sel)];
            Consistent(cs[c := cl], ms1[to := Linked(ms1[to], c)], mons, selmon)
  {
    var from := cs[c].mon;
    var cs' := cs[c := cl];
    var ms1 := ms[from := Unlinked(ms[from], c, sel)];
    var ms' := ms1[to := Linked(ms1[to], c)];
    assert MonitorOk(cs, ms, from) && MonitorOk(cs, ms, to);
    UnlinkedOk(cs, ms, from, c, cl, sel, ms');
    LinkedOk(cs, ms, to, c, cl, ms');
    OthersOk(cs, ms, mons, selmon, c, cl, to, Unlinked(ms[from], c, sel), Linked(ms1[to], c));
    ClientsListed(cs, ms, mons, selmon, c, cl, to, sel, cs');
    forall k | k in ms' ensures MonitorOk(cs', ms', k) {
      if k != from && k != to {
        assert k in ms' && k != from && k != to;
      }
    }
  }

  /** Monitors other than the two c moves between stay well formed. */
  lemma OthersOk(cs: map<ClientId, Client>, ms: map<MonId, Monitor>, mons: seq<MonId>, selmon: MonId,
                 c: ClientId, cl: Client, to: MonId, a: Monitor, b: Monitor)
    requires Consistent(cs, ms, mons, selmon) && c in cs && to in ms && cs[c].mon != to
    ensures var from := cs[c].mon;
            var ms' := ms[from := a][to := b];
            forall k | k in ms' && k != from && k != to :: MonitorOk(cs[c := cl], ms', k)
  {
    var from := cs[c].mon;
    var ms' := ms[from := a][to := b];
    forall k | k in ms' && k != from && k != to ensures MonitorOk(cs[c := cl], ms', k) {
      assert MonitorOk(cs, ms, k);
      assert ms'[k] == ms[k];
      assert c !in ms[k].clients;
    }
  }

  /** After the move every client is still on the lists of the monitor it points to. */
  lemma ClientsListed(cs: map<ClientId, Client>, ms: map<MonId, Monitor>, mons: seq<MonId>, selmon: MonId,
                      c: ClientId, cl: Client, to: MonId, sel: Option<ClientId>, cs': map<ClientId, Client>)
    requires Consistent(cs, ms, mons, selmon) && c in cs && to in ms && cs[c].mon != to && cl.mon == to
    requires cs' == cs[c := cl]
    ensures var from := cs[c].mon;
            var ms1 := ms[from := Unlinked(ms[from], c, sel)];
            var ms' := ms1[to := Linked(ms1[to], c)];
            forall x | x in cs' :: cs'[x].mon in ms' && x in ms'[cs'[x].mon].clients
  {
    var from := cs[c].mon;
    var ms1 := ms[from := Unlinked(ms[from], c, sel)];
    var ms' := ms1[to := Linked(ms1[to], c)];
    forall x | x in cs' ensures cs'[x].mon in ms' && x in ms'[cs'[x].mon].clients {
      if x != c {
        var k := cs[x].mon;
        assert k in ms && x in ms[k].clients;
        if k == from {
          assert x in Without(ms[from].clients, c);
        }
      }
    }
  }

  /** The monitor c leaves stays well formed without it. */
  lemma UnlinkedOk(cs: map<ClientId, Client>, ms: map<MonId, Monitor>, from: MonId, c: ClientId, cl: Client,
                   sel: Option<ClientId>, ms': map<MonId, Monitor>)
    requires from in ms && MonitorOk(cs, ms, from) && c in ms[from].clients && cl.mon != from
    requires sel.Some? ==> sel.value in ms[from].clients && sel.value != c
    requires from in ms' && ms'[from] == Unlinked(ms[from], c, sel)
    ensures MonitorOk(cs[c := cl], ms', from)
  {
    WithoutNoDup(ms[from].clients, c);
    WithoutNoDup(ms[from].stack, c);
  }

  /** The monitor c joins stays well formed with c at the head of both lists. */
  lemma LinkedOk(cs: map<ClientId, Client>, ms: map<MonId, Monitor>, to: MonId, c: ClientId, cl: Client,
                 ms': map<MonId, Monitor>)
    requires to in ms && MonitorOk(cs, ms, to) && c in cs && cs[c].mon != to && cl.mon == to
    requires to in ms' && ms'[to] == Linked(ms[to], c)
    ensures MonitorOk(cs[c := cl], ms', to)
  {
    assert c !in ms[to].clients && c !in ms[to].stack;
    PrependNoDup(c, ms[to].clients);
    PrependNoDup(c, ms[to].stack);
  }

  /** A new monitor with empty lists can be added under a fresh handle. */
  lemma AddMonitor(cs: map<ClientId, Client>, ms: map<MonId, Monitor>, mons: seq<MonId>, selmon: MonId,
                   m: MonId, mon: Monitor)
    requires Consistent(cs, ms, mons, selmon) && m !in ms
    requires mon.clients == [] && mon.stack == [] && mon.sel.None?
    ensures Consistent(cs, ms[m := mon], mons + [m], selmon)
  {
    var ms' := ms[m := mon];
    assert NoDup(mons + [m]) by {
      forall i, j | 0 <= i < j < |mons + [m]| ensures (mons + [m])[i] != (mons + [m])[j] {
        if j == |mons| {
          assert (mons + [m])[i] == mons[i];
        } else {
          assert (mons + [m])[i] == mons[i] && (mons + [m])[j] == mons[j];
        }
      }
    }
    forall k | k in ms' ensures MonitorOk(cs, ms', k) {
      if k != m {
        assert MonitorOk(cs, ms, k);
      }
    }
  }

  /** A monitor with no clients that is not the selected one can be unlinked and freed. */
  lemma RemoveEmptyMonitor(cs: map<ClientId, Client>, ms: map<MonId, Monitor>, mons: seq<MonId>, selmon: MonId,
                           m: MonId)
    requires Consistent(cs, ms, mons, selmon) && m in ms && m != selmon && ms[m].clients == []
    ensures Consistent(cs, ms - {m}, Without(mons, m), selmon)
  {
    var ms' := ms - {m};
    WithoutNoDup(mons, m);
    forall k | k in ms' ensures MonitorOk(cs, ms', k) {
      assert MonitorOk(cs, ms, k);
    }
    forall x | x in cs ensures cs[x].mon in ms' && x in ms'[cs[x].mon].clients {
      assert cs[x].mon != m;
    }
  }
}
