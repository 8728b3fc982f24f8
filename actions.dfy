/**
 * The commands the FIFO can trigger and the operations behind them: view,
 * tag, sendmon and tagmon, pop and zoom, togglefloating, setfullscreen,
 * setlayout, setmfact and cyclelayout. Each is a function from one State
 * to the next, and a method on the window manager proved to compute it.
 */
module Actions {
  import opened Wrappers
  import opened Geometry
  import opened Config
  import opened Seqs
  import opened Layouts
  import opened Model
  import opened Registry
  import opened Arrange
  import opened Tiling
  import opened Monitors
  import opened Focusing
  import Commands

  // --------------------------------------------------------------- arrange

  /** arrange(m) on a state: client geometry only. */
  function ArrangedIn(s: State, mons: seq<MonId>, sw: int, sh: int, m: Option<MonId>): (r: State)
    requires m.Some? ==> m.value in s.monitors
    requires m.None? ==> Listed(s.monitors, mons)
    ensures r.monitors == s.monitors && r.selmon == s.selmon && SameRoles(s.clients, r.clients)
  {
    s.(clients := Arranged(s.clients, s.monitors, sw, sh, mons, m))
  }

  /** Rearranging keeps the registry consistent: it moves windows, not list entries. */
  lemma ArrangedOk(s: State, mons: seq<MonId>, sw: int, sh: int, m: Option<MonId>)
    requires Ok(s, mons) && (m.Some? ==> m.value in s.monitors)
    ensures Listed(s.monitors, mons)
    ensures Ok(ArrangedIn(s, mons, sw, sh, m), mons)
  {
    ConsistentArrangeable(s.clients, s.monitors, mons, s.selmon);
    RolesOk(s, mons, ArrangedIn(s, mons, sw, sh, m).clients);
  }

  /** Consistency only looks at which clients exist and which monitor each points to. */
  lemma RolesOk(s: State, mons: seq<MonId>, cs: map<ClientId, Client>)
    requires Ok(s, mons) && SameRoles(s.clients, cs)
    ensures Ok(s.(clients := cs), mons)
  {
    forall k | k in s.monitors ensures MonitorOk(cs, s.monitors, k) {
      assert MonitorOk(s.clients, s.monitors, k);
    }
  }

  method Rearrange(wm: WindowManager, m: Option<MonId>)
    requires wm.Valid() && (m.Some? ==> m.value in wm.monitors)
    modifies wm
    ensures wm.mons == old(wm.mons) && wm.sw == old(wm.sw) && wm.sh == old(wm.sh)
    ensures wm.nextClient == old(wm.nextClient) && wm.nextMon == old(wm.nextMon)
    ensures Listed(old(wm.monitors), wm.mons)
    ensures Snap(wm) == ArrangedIn(old(Snap(wm)), wm.mons, wm.sw, wm.sh, m)
    ensures wm.Valid()
  {
    ConsistentArrangeable(wm.clients, wm.monitors, wm.mons, wm.selmon);
    ArrangedOk(Snap(wm), wm.mons, wm.sw, wm.sh, m);
    DoArrange(wm, m);
  }

  // ------------------------------------------------------------------ view

  /** view(x): show workspace x on the selected monitor, focus there, rearrange it. */
  function Viewed(s: State, mons: seq<MonId>, sw: int, sh: int, x: Tag): State
    requires s.selmon in s.monitors
  {
    if x == s.monitors[s.selmon].tag then s
    else
      var f := Focused(s.(monitors := s.monitors[s.selmon := s.monitors[s.selmon].(tag := x)]), None);
      ArrangedIn(f, mons, sw, sh, Some(f.selmon))
  }

  /** Changing the selected monitor's settings, not its lists, keeps the registry consistent. */
  lemma SelMonOk(s: State, mons: seq<MonId>, mon: Monitor)
    requires Ok(s, mons)
    requires var old_ := s.monitors[s.selmon];
             mon.clients == old_.clients && mon.stack == old_.stack && mon.sel == old_.sel
    ensures Ok(s.(monitors := s.monitors[s.selmon := mon]), mons)
  {
    assert MonitorOk(s.clients, s.monitors, s.selmon);
    ReplaceMonitor(s.clients, s.monitors, mons, s.selmon, s.selmon, mon);
  }

  /**
   * After view(x) the selected monitor shows x, and its selection is one of
   * its clients on workspace x; there is none exactly when none of its
   * clients is on x.
   */
  lemma ViewShows(s: State, mons: seq<MonId>, sw: int, sh: int, x: Tag)
    requires Ok(s, mons)
    ensures var r := Viewed(s, mons, sw, sh, x);
            && Ok(r, mons)
            && r.selmon == s.selmon && r.monitors[r.selmon].tag == x
            && r.monitors[r.selmon].clients == s.monitors[s.selmon].clients
            && (x != s.monitors[s.selmon].tag ==>
                  var sel := r.monitors[r.selmon].sel;
                  && (sel.Some? ==> sel.value in s.monitors[s.selmon].clients && s.clients[sel.value].tag == x)
                  && (sel.None? <==> forall c | c in s.monitors[s.selmon].clients :: s.clients[c].tag != x))
  {
    if x != s.monitors[s.selmon].tag {
      var s1 := s.(monitors := s.monitors[s.selmon := s.monitors[s.selmon].(tag := x)]);
      SelMonOk(s, mons, s.monitors[s.selmon].(tag := x));
      FocusedOk(s1, mons, None);
      FocusStays(s1, mons, None);
      var f := Focused(s1, None);
      ArrangedOk(f, mons, sw, sh, Some(f.selmon));
      var t := FocusTarget(s1, None);
      assert MonitorOk(s1.clients, s1.monitors, s.selmon);
      var stack := s1.monitors[s.selmon].stack;
      if t.None? {
        forall c | c in s.monitors[s.selmon].clients ensures s.clients[c].tag != x {
          assert !Visible(s1.clients, s1.monitors, stack[IndexIn(stack, c)]);
        }
      } else {
        assert t.value in s.monitors[s.selmon].clients;
      }
    }
  }

  method View(wm: WindowManager, x: Tag)
    requires wm.Valid()
    modifies wm
    ensures wm.mons == old(wm.mons) && wm.sw == old(wm.sw) && wm.sh == old(wm.sh)
    ensures wm.nextClient == old(wm.nextClient) && wm.nextMon == old(wm.nextMon)
    ensures Snap(wm) == Viewed(old(Snap(wm)), wm.mons, wm.sw, wm.sh, x)
    ensures wm.Valid()
  {
    if x == wm.monitors[wm.selmon].tag {
      return;
    }
    SelMonOk(Snap(wm), wm.mons, wm.monitors[wm.selmon].(tag := x));
    wm.monitors := wm.monitors[wm.selmon := wm.monitors[wm.selmon].(tag := x)];
    Focus(wm, None);
    Rearrange(wm, Some(wm.selmon));
  }

  // ------------------------------------------------------------------- tag

  /** tag(x): move the selection to workspace x, refocus, rearrange the selected monitor. */
  function Tagged(s: State, mons: seq<MonId>, sw: int, sh: int, x: Tag): State
    requires SelListed(s)
  {
    var sel := s.monitors[s.selmon].sel;
    if sel.None? then s
    else
      var f := Focused(s.(clients := s.clients[sel.value := s.clients[sel.value].(tag := x)]), None);
      ArrangedIn(f, mons, sw, sh, Some(f.selmon))
  }

  /**
   * tag(x) puts the selected client on workspace x on the same monitor;
   * when x is not the workspace shown, the client is hidden and no longer
   * the selection.
   */
  lemma TagMoves(s: State, mons: seq<MonId>, sw: int, sh: int, x: Tag)
    requires Ok(s, mons) && SelListed(s)
    ensures var r := Tagged(s, mons, sw, sh, x);
            && Ok(r, mons) && r.selmon == s.selmon
            && var sel := s.monitors[s.selmon].sel;
               sel.Some? ==>
                 && r.clients[sel.value].tag == x && r.clients[sel.value].mon == s.selmon
                 && (x != s.monitors[s.selmon].tag ==> r.monitors[r.selmon].sel != sel)
  {
    var sel := s.monitors[s.selmon].sel;
    if sel.Some? {
      var c := sel.value;
      assert MonitorOk(s.clients, s.monitors, s.selmon);
      var s1 := s.(clients := s.clients[c := s.clients[c].(tag := x)]);
      ReplaceClient(s.clients, s.monitors, mons, s.selmon, c, s1.clients[c]);
      FocusedOk(s1, mons, None);
      if Visible(s1.clients, s1.monitors, c) {
        assert x == s.monitors[s.selmon].tag;
      }
      FocusStays(s1, mons, None);
      var f := Focused(s1, None);
      ArrangedOk(f, mons, sw, sh, Some(f.selmon));
    }
  }

  method TagSel(wm: WindowManager, x: Tag)
    requires wm.Valid()
    modifies wm
    ensures wm.mons == old(wm.mons) && wm.sw == old(wm.sw) && wm.sh == old(wm.sh)
    ensures wm.nextClient == old(wm.nextClient) && wm.nextMon == old(wm.nextMon)
    ensures SelListed(old(Snap(wm)))
    ensures Snap(wm) == Tagged(old(Snap(wm)), wm.mons, wm.sw, wm.sh, x)
    ensures wm.Valid()
  {
    assert MonitorOk(wm.clients, wm.monitors, wm.selmon);
    var sel := wm.monitors[wm.selmon].sel;
    if sel.Some? {
      var c := sel.value;
      ReplaceClient(wm.clients, wm.monitors, wm.mons, wm.selmon, c, wm.clients[c].(tag := x));
      wm.clients := wm.clients[c := wm.clients[c].(tag := x)];
      Focus(wm, None);
      Rearrange(wm, Some(wm.selmon));
    }
  }

  // ------------------------------------------- setlayout, setmfact, cyclelayout

  /** setlayout(l): install l when given; rearrange when there is a selection. */
  function LayoutSet(s: State, mons: seq<MonId>, sw: int, sh: int, l: Option<LayoutKind>): State
    requires s.selmon in s.monitors
  {
    var s1 := if l.Some? then s.(monitors := s.monitors[s.selmon := s.monitors[s.selmon].(layout := l)]) else s;
    if s1.monitors[s1.selmon].sel.Some? then ArrangedIn(s1, mons, sw, sh, Some(s1.selmon)) else s1
  }

  /** setlayout replaces the layout of the selected monitor and touches no list. */
  lemma LayoutSetOk(s: State, mons: seq<MonId>, sw: int, sh: int, l: Option<LayoutKind>)
    requires Ok(s, mons)
    ensures var r := LayoutSet(s, mons, sw, sh, l);
            var mon := s.monitors[s.selmon];
            && Ok(r, mons) && r.selmon == s.selmon
            && r.monitors == s.monitors[s.selmon := mon.(layout := if l.Some? then l else mon.layout)]
  {
    var mon := s.monitors[s.selmon];
    var m1 := mon.(layout := if l.Some? then l else mon.layout);
    SelMonOk(s, mons, m1);
    var s1 := s.(monitors := s.monitors[s.selmon := m1]);
    if l.None? {
      assert s1 == s;
    }
    if m1.sel.Some? {
      ArrangedOk(s1, mons, sw, sh, Some(s.selmon));
    }
  }

  method SetLayout(wm: WindowManager, l: Option<LayoutKind>)
    requires wm.Valid()
    modifies wm
    ensures wm.mons == old(wm.mons) && wm.sw == old(wm.sw) && wm.sh == old(wm.sh)
    ensures wm.nextClient == old(wm.nextClient) && wm.nextMon == old(wm.nextMon)
    ensures Snap(wm) == LayoutSet(old(Snap(wm)), wm.mons, wm.sw, wm.sh, l)
    ensures wm.Valid()
  {
    if l.Some? {
      SelMonOk(Snap(wm), wm.mons, wm.monitors[wm.selmon].(layout := l));
      wm.monitors := wm.monitors[wm.selmon := wm.monitors[wm.selmon].(layout := l)];
    }
    if wm.monitors[wm.selmon].sel.Some? {
      Rearrange(wm, Some(wm.selmon));
    }
  }

  /** setmfact(d): no-op for d = 0 or no layout, else clamp mfact + d and rearrange. */
  function MfactSet(s: State, mons: seq<MonId>, sw: int, sh: int, d: int): State
    requires s.selmon in s.monitors
  {
    var mon := s.monitors[s.selmon];
    if d == 0 || mon.layout.None? then s
    else
      ArrangedIn(s.(monitors := s.monitors[s.selmon := mon.(mfact := Clamp(d + mon.mfact, MinMfact, MaxMfact))]),
                 mons, sw, sh, Some(s.selmon))
  }

  /**
   * setmfact changes only the selected monitor's master fraction, to what
   * the pure step computes, which an effective call keeps in [0.1, 0.9].
   */
  lemma MfactSetRange(s: State, mons: seq<MonId>, sw: int, sh: int, d: int)
    requires Ok(s, mons)
    ensures var r := MfactSet(s, mons, sw, sh, d);
            var mon := s.monitors[s.selmon];
            && Ok(r, mons) && r.selmon == s.selmon
            && r.monitors == s.monitors[s.selmon := mon.(mfact := SetMfact(mon.mfact, mon.layout.Some?, d))]
            && (d != 0 && mon.layout.Some? ==> MinMfact <= r.monitors[s.selmon].mfact <= MaxMfact)
  {
    var mon := s.monitors[s.selmon];
    var m1 := mon.(mfact := SetMfact(mon.mfact, mon.layout.Some?, d));
    SelMonOk(s, mons, m1);
    if d != 0 && mon.layout.Some? {
      var s1 := s.(monitors := s.monitors[s.selmon := m1]);
      ArrangedOk(s1, mons, sw, sh, Some(s.selmon));
      assert MfactSet(s, mons, sw, sh, d) == ArrangedIn(s1, mons, sw, sh, Some(s.selmon));
    } else {
      assert m1 == mon;
      assert s.monitors[s.selmon := m1] == s.monitors;
    }
  }

  method SetMfactCmd(wm: WindowManager, d: int)
    requires wm.Valid()
    modifies wm
    ensures wm.mons == old(wm.mons) && wm.sw == old(wm.sw) && wm.sh == old(wm.sh)
    ensures wm.nextClient == old(wm.nextClient) && wm.nextMon == old(wm.nextMon)
    ensures Snap(wm) == MfactSet(old(Snap(wm)), wm.mons, wm.sw, wm.sh, d)
    ensures wm.Valid()
  {
    var mon := wm.monitors[wm.selmon];
    if d == 0 || mon.layout.None? {
      return;
    }
    SelMonOk(Snap(wm), wm.mons, mon.(mfact := Clamp(d + mon.mfact, MinMfact, MaxMfact)));
    wm.monitors := wm.monitors[wm.selmon := mon.(mfact := Clamp(d + mon.mfact, MinMfact, MaxMfact))];
    Rearrange(wm, Some(wm.selmon));
  }

  /** cyclelayout(dir): setlayout of the next (dir > 0) or previous layout of the table, wrapping. */
  function Cycled(s: State, mons: seq<MonId>, sw: int, sh: int, dir: int): State
    requires s.selmon in s.monitors && s.monitors[s.selmon].layout.Some?
  {
    LayoutSet(s, mons, sw, sh, Some(LayoutTable[CycleIndex(IndexOf(s.monitors[s.selmon].layout.value), dir)]))
  }

  /** One cyclelayout step installs the neighbouring layout of the table and changes nothing else of the monitors. */
  lemma CycledOnce(s: State, mons: seq<MonId>, sw: int, sh: int, dir: int)
    requires Ok(s, mons) && s.monitors[s.selmon].layout.Some?
    ensures var r := Cycled(s, mons, sw, sh, dir);
            var mon := s.monitors[s.selmon];
            var j := CycleIndex(IndexOf(mon.layout.value), dir);
            && Ok(r, mons) && r.selmon == s.selmon
            && r.monitors == s.monitors[s.selmon := mon.(layout := Some(LayoutTable[j]))]
  {
    var j := CycleIndex(IndexOf(s.monitors[s.selmon].layout.value), dir);
    LayoutSetOk(s, mons, sw, sh, Some(LayoutTable[j]));
  }

  /** The monitors after one cyclelayout step, needing only a selected monitor with a layout. */
  lemma CycledStep(s: State, mons: seq<MonId>, sw: int, sh: int, dir: int)
    requires s.selmon in s.monitors && s.monitors[s.selmon].layout.Some?
    ensures var r := Cycled(s, mons, sw, sh, dir);
            var mon := s.monitors[s.selmon];
            var j := CycleIndex(IndexOf(mon.layout.value), dir);
            && r.selmon == s.selmon
            && r.monitors == s.monitors[s.selmon := mon.(layout := Some(LayoutTable[j]))]
  {
  }

  /** cyclelayout(+1) then cyclelayout(-1), or the other way round, restores the monitors. */
  lemma CycledBack(s: State, mons: seq<MonId>, sw: int, sh: int, dir: int)
    requires s.selmon in s.monitors && s.monitors[s.selmon].layout.Some?
    requires dir == 1 || dir == -1
    ensures var r := Cycled(s, mons, sw, sh, dir);
            && r.selmon in r.monitors && r.monitors[r.selmon].layout.Some?
            && Cycled(r, mons, sw, sh, -dir).monitors == s.monitors
  {
    var mon := s.monitors[s.selmon];
    var i := IndexOf(mon.layout.value);
    var j := CycleIndex(i, dir);
    CycledStep(s, mons, sw, sh, dir);
    var r := Cycled(s, mons, sw, sh, dir);
    var m1 := mon.(layout := Some(LayoutTable[j]));
    assert r.monitors[r.selmon] == m1;
    LayoutTableDistinct();
    assert IndexOf(LayoutTable[j]) == j;
    CycledStep(r, mons, sw, sh, -dir);
    CycleInverse(i);
    assert LayoutTable[CycleIndex(j, -dir)] == mon.layout.value;
    var r2 := Cycled(r, mons, sw, sh, -dir);
    assert r2.monitors == s.monitors[s.selmon := m1][s.selmon := m1.(layout := mon.layout)];
    UpdateTwice(s.monitors, s.selmon, m1, mon);
    assert s.monitors[s.selmon := mon] == s.monitors;
  }

  method CycleLayout(wm: WindowManager, dir: int)
    requires wm.Valid() && wm.monitors[wm.selmon].layout.Some?
    modifies wm
    ensures wm.mons == old(wm.mons) && wm.sw == old(wm.sw) && wm.sh == old(wm.sh)
    ensures wm.nextClient == old(wm.nextClient) && wm.nextMon == old(wm.nextMon)
    ensures Snap(wm) == Cycled(old(Snap(wm)), wm.mons, wm.sw, wm.sh, dir)
    ensures wm.Valid()
  {
    var l := wm.monitors[wm.selmon].layout.value;
    var i := 0;
    while LayoutTable[i] != l
      invariant 0 <= i <= IndexOf(l)
      decreases IndexOf(l) - i
    {
      i := i + 1;
    }
    LayoutTableDistinct();
    SetLayout(wm, Some(LayoutTable[CycleIndex(i, dir)]));
  }

  // --------------------------------------------------------- sendmon, tagmon

  /**
   * The relinking part of sendmon: c leaves both lists of its monitor
   * (detachstack choosing a new selection there if c was it), takes the
   * target monitor and its workspace, and joins the heads of its lists.
   */
  function Moved(s: State, c: ClientId, m: MonId): State
    requires c in s.clients && s.clients[c].mon in s.monitors && m in s.monitors
  {
    var from := s.clients[c].mon;
    var fm := s.monitors[from];
    var sel := if fm.sel == Some(c) then FirstVisible(Without(fm.stack, c), s.clients, s.monitors) else fm.sel;
    var ms1 := s.monitors[from := Unlinked(fm, c, sel)];
    State(s.clients[c := s.clients[c].(mon := m, tag := s.monitors[m].tag)], ms1[m := Linked(ms1[m], c)], s.selmon)
  }

  /** The move keeps the registry consistent. */
  lemma MovedOk(s: State, mons: seq<MonId>, c: ClientId, m: MonId)
    requires Ok(s, mons) && c in s.clients && m in s.monitors && s.clients[c].mon != m
    ensures Ok(Moved(s, c, m), mons)
  {
    var from := s.clients[c].mon;
    var fm := s.monitors[from];
    assert MonitorOk(s.clients, s.monitors, from);
    var sel := if fm.sel == Some(c) then FirstVisible(Without(fm.stack, c), s.clients, s.monitors) else fm.sel;
    MoveClient(s.clients, s.monitors, mons, s.selmon, c, m, s.clients[c].(mon := m, tag := s.monitors[m].tag), sel);
  }

  /** detach, detachstack, the new monitor and workspace, attach, attachstack. */
  method MoveOn(wm: WindowManager, c: ClientId, m: MonId)
    requires c in wm.clients && wm.clients[c].mon in wm.monitors && m in wm.monitors && wm.clients[c].mon != m
    requires var fm := wm.monitors[wm.clients[c].mon];
             c in fm.clients && NoDup(fm.clients) && c in fm.stack && NoDup(fm.stack)
    modifies wm
    ensures wm.mons == old(wm.mons) && wm.sw == old(wm.sw) && wm.sh == old(wm.sh)
    ensures wm.nextClient == old(wm.nextClient) && wm.nextMon == old(wm.nextMon)
    ensures Snap(wm) == Moved(old(Snap(wm)), c, m)
  {
    Unlink(wm, c);
    wm.clients := wm.clients[c := wm.clients[c].(mon := m, tag := wm.monitors[m].tag)];
    Link(wm, c);
  }

  /** detach(c) and detachstack(c): c leaves both lists of its monitor. */
  method Unlink(wm: WindowManager, c: ClientId)
    requires c in wm.clients && wm.clients[c].mon in wm.monitors
    requires var fm := wm.monitors[wm.clients[c].mon];
             c in fm.clients && NoDup(fm.clients) && c in fm.stack && NoDup(fm.stack)
    modifies wm
    ensures wm.mons == old(wm.mons) && wm.sw == old(wm.sw) && wm.sh == old(wm.sh)
    ensures wm.nextClient == old(wm.nextClient) && wm.nextMon == old(wm.nextMon)
    ensures wm.clients == old(wm.clients) && wm.selmon == old(wm.selmon)
    ensures var from := old(wm.clients)[c].mon;
            var fm := old(wm.monitors)[from];
            var sel := if fm.sel == Some(c) then FirstVisible(Without(fm.stack, c), old(wm.clients), old(wm.monitors)) else fm.sel;
            wm.monitors == old(wm.monitors)[from := Unlinked(fm, c, sel)]
  {
    ghost var cs0, ms0 := wm.clients, wm.monitors;
    ghost var from := wm.clients[c].mon;
    ghost var fm := wm.monitors[from];
    ghost var rest := Without(fm.stack, c);
    ghost var sel := if fm.sel == Some(c) then FirstVisible(rest, cs0, ms0) else fm.sel;
    wm.Detach(c);
    ghost var ms1 := wm.monitors;
    wm.DetachStack(c);
    FirstVisibleFramed(rest, cs0, ms1, cs0, ms0, 0);
    assert wm.monitors == ms1[from := ms1[from].(stack := rest, sel := sel)];
    UpdateTwice(ms0, from, ms1[from], Unlinked(fm, c, sel));
  }

  /** attach(c) and attachstack(c): c heads both lists of its monitor. */
  method Link(wm: WindowManager, c: ClientId)
    requires c in wm.clients && wm.clients[c].mon in wm.monitors
    modifies wm
    ensures wm.mons == old(wm.mons) && wm.sw == old(wm.sw) && wm.sh == old(wm.sh)
    ensures wm.nextClient == old(wm.nextClient) && wm.nextMon == old(wm.nextMon)
    ensures wm.clients == old(wm.clients) && wm.selmon == old(wm.selmon)
    ensures var m := old(wm.clients)[c].mon;
            wm.monitors == old(wm.monitors)[m := Linked(old(wm.monitors)[m], c)]
  {
    ghost var ms0 := wm.monitors;
    ghost var m := wm.clients[c].mon;
    wm.Attach(c);
    ghost var ms1 := wm.monitors;
    wm.AttachStack(c);
    UpdateTwice(ms0, m, ms1[m], Linked(ms0[m], c));
  }

  /** sendmon(c, m): move c to monitor m, refocus, rearrange every monitor. */
  function SentMon(s: State, mons: seq<MonId>, sw: int, sh: int, c: ClientId, m: MonId): State
    requires Ok(s, mons) && c in s.clients && m in s.monitors
  {
    if s.clients[c].mon == m then s
    else
      var f := Focused(Moved(s, c, m), None);
      ConsistentArrangeable(s.clients, s.monitors, mons, s.selmon);
      ArrangedIn(f, mons, sw, sh, None)
  }

  /**
   * After sendmon(c, m) client c belongs to m, shows m's workspace and heads
   * m's client list; its old monitor's list has lost just c; no other
   * client changes monitor and the selected monitor stays.
   */
  lemma SendMonMoves(s: State, mons: seq<MonId>, sw: int, sh: int, c: ClientId, m: MonId)
    requires Ok(s, mons) && c in s.clients && m in s.monitors && s.clients[c].mon != m
    ensures var r := SentMon(s, mons, sw, sh, c, m);
            var from := s.clients[c].mon;
            && r.clients.Keys == s.clients.Keys
            && r.clients[c].mon == m && r.clients[c].tag == s.monitors[m].tag
            && r.monitors[m].clients == [c] + s.monitors[m].clients
            && r.monitors[from].clients == Without(s.monitors[from].clients, c)
            && (forall x | x in s.clients && x != c :: r.clients[x].mon == s.clients[x].mon)
  {
    ConsistentArrangeable(s.clients, s.monitors, mons, s.selmon);
    MovedPlaces(s, mons, sw, sh, c, m);
  }

  /** The placement half of SendMonMoves, on sendmon's steps. */
  lemma MovedPlaces(s: State, mons: seq<MonId>, sw: int, sh: int, c: ClientId, m: MonId)
    requires c in s.clients && s.clients[c].mon in s.monitors && m in s.monitors && s.clients[c].mon != m
    requires s.selmon in s.monitors && Listed(s.monitors, mons)
    ensures Moved(s, c, m).monitors.Keys == s.monitors.Keys
    ensures var r := ArrangedIn(Focused(Moved(s, c, m), None), mons, sw, sh, None);
            var from := s.clients[c].mon;
            && r.clients.Keys == s.clients.Keys
            && r.clients[c].mon == m && r.clients[c].tag == s.monitors[m].tag
            && r.monitors[m].clients == [c] + s.monitors[m].clients
            && r.monitors[from].clients == Without(s.monitors[from].clients, c)
            && (forall x | x in s.clients && x != c :: r.clients[x].mon == s.clients[x].mon)
  {
    var from := s.clients[c].mon;
    var mv := Moved(s, c, m);
    assert mv.monitors[m].clients == [c] + s.monitors[m].clients;
    assert mv.monitors[from].clients == Without(s.monitors[from].clients, c);
    var f := Focused(mv, None);
    FocusedLists(mv, None);
    var r := ArrangedIn(f, mons, sw, sh, None);
    assert SameRoles(mv.clients, r.clients);
  }

  /** sendmon keeps the registry consistent and the selected monitor. */
  lemma SentMonOk(s: State, mons: seq<MonId>, sw: int, sh: int, c: ClientId, m: MonId)
    requires Ok(s, mons) && c in s.clients && m in s.monitors && s.clients[c].mon != m
    ensures var r := SentMon(s, mons, sw, sh, c, m);
            Ok(r, mons) && r.selmon == s.selmon
  {
    MovedOk(s, mons, c, m);
    var mv := Moved(s, c, m);
    FocusedOk(mv, mons, None);
    FocusStays(mv, mons, None);
    ArrangedOk(Focused(mv, None), mons, sw, sh, None);
  }

  /**
   * focus only reorders a focus stack and changes a selection: the client
   * lists and the workspaces stay as they were.
   */
  lemma FocusedLists(s: State, c: Option<ClientId>)
    requires s.selmon in s.monitors
    ensures var r := Focused(s, c);
            && SameTags(s.monitors, r.monitors)
            && forall k | k in s.monitors :: k in r.monitors && r.monitors[k].clients == s.monitors[k].clients
  {
    var r := Focused(s, c);
    forall k | k in s.monitors ensures k in r.monitors && r.monitors[k].clients == s.monitors[k].clients && r.monitors[k].tag == s.monitors[k].tag {
      if k == r.selmon {
        assert r.monitors[k] == s.monitors[k].(stack := r.monitors[k].stack, sel := r.monitors[k].sel);
      }
    }
  }

  method SendMon(wm: WindowManager, c: ClientId, m: MonId)
    requires wm.Valid() && c in wm.clients && m in wm.monitors
    modifies wm
    ensures wm.mons == old(wm.mons) && wm.sw == old(wm.sw) && wm.sh == old(wm.sh)
    ensures wm.nextClient == old(wm.nextClient) && wm.nextMon == old(wm.nextMon)
    ensures Snap(wm) == SentMon(old(Snap(wm)), wm.mons, wm.sw, wm.sh, c, m)
    ensures wm.Valid()
  {
    if wm.clients[c].mon == m {
      return;
    }
    assert MonitorOk(wm.clients, wm.monitors, wm.clients[c].mon);
    MovedOk(Snap(wm), wm.mons, c, m);
    MoveOn(wm, c, m);
    Focus(wm, None);
    Rearrange(wm, None);
  }

  /** tagmon(dir): with a selection and several monitors, sendmon it to the next or previous monitor. */
  function TaggedMon(s: State, mons: seq<MonId>, sw: int, sh: int, dir: int): State
    requires Ok(s, mons)
  {
    var sel := s.monitors[s.selmon].sel;
    assert MonitorOk(s.clients, s.monitors, s.selmon);
    if sel.Some? && |mons| > 1 then SentMon(s, mons, sw, sh, sel.value, DirToMon(mons, s.selmon, dir)) else s
  }

  /** tagmon always moves the selection to another monitor, the one dirtomon names. */
  lemma TagMonSends(s: State, mons: seq<MonId>, sw: int, sh: int, dir: int)
    requires Ok(s, mons) && s.monitors[s.selmon].sel.Some? && |mons| > 1
    ensures var c := s.monitors[s.selmon].sel.value;
            var m := DirToMon(mons, s.selmon, dir);
            var r := TaggedMon(s, mons, sw, sh, dir);
            && c in s.clients && m in s.monitors && m != s.selmon
            && Ok(r, mons) && r.selmon == s.selmon
            && r.clients[c].mon == m && r.clients[c].tag == s.monitors[m].tag
  {
    var c := s.monitors[s.selmon].sel.value;
    var m := DirToMon(mons, s.selmon, dir);
    assert MonitorOk(s.clients, s.monitors, s.selmon);
    DirToMonMoves(mons, s.selmon, dir);
    SentMonOk(s, mons, sw, sh, c, m);
    SendMonMoves(s, mons, sw, sh, c, m);
  }

  method TagMon(wm: WindowManager, dir: int)
    requires wm.Valid()
    modifies wm
    ensures wm.mons == old(wm.mons) && wm.sw == old(wm.sw) && wm.sh == old(wm.sh)
    ensures wm.nextClient == old(wm.nextClient) && wm.nextMon == old(wm.nextMon)
    ensures Snap(wm) == TaggedMon(old(Snap(wm)), wm.mons, wm.sw, wm.sh, dir)
    ensures wm.Valid()
  {
    assert MonitorOk(wm.clients, wm.monitors, wm.selmon);
    var sel := wm.monitors[wm.selmon].sel;
    if sel.Some? && |wm.mons| > 1 {
      SendMon(wm, sel.value, DirToMon(wm.mons, wm.selmon, dir));
    }
  }

  // ------------------------------------------------------------- pop, zoom

  /** pop(c): c to the head of its monitor's client list, focus it, rearrange its monitor. */
  function Popped(s: State, mons: seq<MonId>, sw: int, sh: int, c: ClientId): State
    requires s.selmon in s.monitors && c in s.clients && s.clients[c].mon in s.monitors
  {
    var m := s.clients[c].mon;
    var s1 := s.(monitors := s.monitors[m := s.monitors[m].(clients := [c] + Without(s.monitors[m].clients, c))]);
    ArrangedIn(Focused(s1, Some(c)), mons, sw, sh, Some(m))
  }

  /** Moving a client to the head of its own monitor's list keeps the registry consistent. */
  lemma ToHeadOk(s: State, mons: seq<MonId>, c: ClientId)
    requires Ok(s, mons) && c in s.clients
    ensures var m := s.clients[c].mon;
            Ok(s.(monitors := s.monitors[m := s.monitors[m].(clients := [c] + Without(s.monitors[m].clients, c))]), mons)
  {
    var m := s.clients[c].mon;
    assert MonitorOk(s.clients, s.monitors, m);
    ToFront(s.monitors[m].clients, c);
    ReplaceMonitor(s.clients, s.monitors, mons, s.selmon, m,
                   s.monitors[m].(clients := [c] + Without(s.monitors[m].clients, c)));
  }

  /**
   * pop(c) puts c first in its monitor's client list, which keeps the same
   * clients, and a visible c becomes the selection of the selected monitor.
   */
  lemma PopPromotes(s: State, mons: seq<MonId>, sw: int, sh: int, c: ClientId)
    requires Ok(s, mons) && c in s.clients
    ensures var r := Popped(s, mons, sw, sh, c);
            var m := s.clients[c].mon;
            && Ok(r, mons)
            && |r.monitors[m].clients| > 0 && r.monitors[m].clients[0] == c
            && multiset(r.monitors[m].clients) == multiset(s.monitors[m].clients)
            && (Visible(s.clients, s.monitors, c) ==> r.selmon == m && r.monitors[m].sel == Some(c))
            && SameTags(s.monitors, r.monitors) && SameRoles(s.clients, r.clients)
  {
    var m := s.clients[c].mon;
    assert MonitorOk(s.clients, s.monitors, m);
    ToFront(s.monitors[m].clients, c);
    ToHeadOk(s, mons, c);
    var s1 := s.(monitors := s.monitors[m := s.monitors[m].(clients := [c] + Without(s.monitors[m].clients, c))]);
    assert SameTags(s.monitors, s1.monitors);
    VisibleFramed(s.clients, s.monitors, s1.clients, s1.monitors);
    FocusedOk(s1, mons, Some(c));
    FocusedLists(s1, Some(c));
    var f := Focused(s1, Some(c));
    ArrangedOk(f, mons, sw, sh, Some(m));
    var r := ArrangedIn(f, mons, sw, sh, Some(m));
    assert r == Popped(s, mons, sw, sh, c);
    assert r.monitors[m].clients == [c] + Without(s.monitors[m].clients, c);
  }

  method Pop(wm: WindowManager, c: ClientId)
    requires wm.Valid() && c in wm.clients
    modifies wm
    ensures wm.mons == old(wm.mons) && wm.sw == old(wm.sw) && wm.sh == old(wm.sh)
    ensures wm.nextClient == old(wm.nextClient) && wm.nextMon == old(wm.nextMon)
    ensures Snap(wm) == Popped(old(Snap(wm)), wm.mons, wm.sw, wm.sh, c)
    ensures wm.Valid()
  {
    ghost var s0 := Snap(wm);
    var m := wm.clients[c].mon;
    assert MonitorOk(wm.clients, wm.monitors, m);
    ToHeadOk(s0, wm.mons, c);
    ToHead(wm, c);
    ghost var s1 := Snap(wm);
    assert wm.monitors.Keys == s0.monitors.Keys;
    Focus(wm, Some(c));
    ghost var f := Snap(wm);
    assert f == Focused(s1, Some(c));
    Rearrange(wm, Some(m));
  }

  /** detach(c) then attach(c): c moves to the head of its monitor's client list. */
  method ToHead(wm: WindowManager, c: ClientId)
    requires c in wm.clients && wm.clients[c].mon in wm.monitors
    requires var l := wm.monitors[wm.clients[c].mon].clients; c in l && NoDup(l)
    modifies wm
    ensures wm.mons == old(wm.mons) && wm.sw == old(wm.sw) && wm.sh == old(wm.sh)
    ensures wm.nextClient == old(wm.nextClient) && wm.nextMon == old(wm.nextMon)
    ensures wm.clients == old(wm.clients) && wm.selmon == old(wm.selmon)
    ensures var m := old(wm.clients)[c].mon;
            var mon := old(wm.monitors)[m];
            wm.monitors == old(wm.monitors)[m := mon.(clients := [c] + Without(mon.clients, c))]
  {
    ghost var ms0 := wm.monitors;
    ghost var m := wm.clients[c].mon;
    wm.Detach(c);
    ghost var ms1 := wm.monitors;
    wm.Attach(c);
    UpdateTwice(ms0, m, ms1[m], ms0[m].(clients := [c] + Without(ms0[m].clients, c)));
  }

  /** zoom dereferences a missing selection when a tiled client exists; callers rule that out. */
  predicate ZoomDefined(s: State)
    requires s.selmon in s.monitors
  {
    var mon := s.monitors[s.selmon];
    !(mon.layout.Some? && mon.sel.None? && NextTiled(mon.clients, s.clients, s.monitors, 0) < |mon.clients|)
  }

  /**
   * The client zoom pops, or None when it returns early: no layout, a
   * floating selection, or the selection already first among the tiled
   * clients with no second one.
   */
  function ZoomTarget(s: State): (z: Option<ClientId>)
    requires SelListed(s)
    ensures var mon := s.monitors[s.selmon];
            && (mon.layout.None? ==> z.None?)
            && (z.Some? ==> z.value in mon.clients && z.value in s.clients && !s.clients[z.value].isfloating)
            && (z.Some? && z != mon.sel ==> (
                  && Tiled(s.clients, s.monitors, z.value) && mon.sel.Some?
                  && var f := NextTiled(mon.clients, s.clients, s.monitors, 0);
                     f < |mon.clients| && mon.clients[f] == mon.sel.value))
  {
    var mon := s.monitors[s.selmon];
    var l := mon.clients;
    if mon.layout.None? || (mon.sel.Some? && s.clients[mon.sel.value].isfloating) then None
    else
      var f := NextTiled(l, s.clients, s.monitors, 0);
      if f < |l| && mon.sel == Some(l[f]) then
        var n := NextTiled(l, s.clients, s.monitors, f + 1);
        if n < |l| then Some(l[n]) else None
      else if f == |l| && mon.sel.None? then None
      else mon.sel
  }

  function Zoomed(s: State, mons: seq<MonId>, sw: int, sh: int): State
    requires Ok(s, mons) && SelListed(s) && ZoomDefined(s)
  {
    var z := ZoomTarget(s);
    assert MonitorOk(s.clients, s.monitors, s.selmon);
    if z.None? then s else Popped(s, mons, sw, sh, z.value)
  }

  /** A tiled client that zoom pops becomes the master: the first tiled client of the list, and the selection. */
  lemma ZoomPromotes(s: State, mons: seq<MonId>, sw: int, sh: int)
    requires Ok(s, mons) && SelListed(s) && ZoomDefined(s)
    ensures var r := Zoomed(s, mons, sw, sh);
            && Ok(r, mons)
            && var z := ZoomTarget(s);
               z.Some? && Tiled(s.clients, s.monitors, z.value) ==>
                 var l := r.monitors[s.selmon].clients;
                 && r.selmon == s.selmon && r.monitors[s.selmon].sel == z
                 && |l| > 0 && l[0] == z.value && NextTiled(l, r.clients, r.monitors, 0) == 0
  {
    var z := ZoomTarget(s);
    assert MonitorOk(s.clients, s.monitors, s.selmon);
    if z.Some? {
      var c := z.value;
      assert s.clients[c].mon == s.selmon;
      PopPromotes(s, mons, sw, sh, c);
      var r := Popped(s, mons, sw, sh, c);
      assert r == Zoomed(s, mons, sw, sh);
      if Tiled(s.clients, s.monitors, c) {
        VisibleFramed(s.clients, s.monitors, r.clients, r.monitors);
        var l := r.monitors[s.selmon].clients;
        assert Tiled(r.clients, r.monitors, l[0]);
      }
    }
  }

  method Zoom(wm: WindowManager)
    requires wm.Valid() && ZoomDefined(Snap(wm))
    modifies wm
    ensures wm.mons == old(wm.mons) && wm.sw == old(wm.sw) && wm.sh == old(wm.sh)
    ensures wm.nextClient == old(wm.nextClient) && wm.nextMon == old(wm.nextMon)
    ensures SelListed(old(Snap(wm)))
    ensures Snap(wm) == Zoomed(old(Snap(wm)), wm.mons, wm.sw, wm.sh)
    ensures wm.Valid()
  {
    assert MonitorOk(wm.clients, wm.monitors, wm.selmon);
    var z := ZoomTargetOf(Snap(wm));
    if z.Some? {
      Pop(wm, z.value);
    }
  }

  /** zoom's early returns and its choice of client, on the snapshot. */
  method ZoomTargetOf(s: State) returns (z: Option<ClientId>)
    requires SelListed(s)
    ensures z == ZoomTarget(s)
  {
    var mon := s.monitors[s.selmon];
    var c := mon.sel;
    if mon.layout.None? || (c.Some? && s.clients[c.value].isfloating) {
      return None;
    }
    var l := mon.clients;
    var f := NextTiledOf(l, s.clients, s.monitors, 0);
    if c == (if f < |l| then Some(l[f]) else None) {
      if c.None? {
        return None;
      }
      var n := NextTiledOf(l, s.clients, s.monitors, f + 1);
      if n == |l| {
        return None;
      }
      c := Some(l[n]);
    }
    z := c;
  }

  /** nexttiled(c) for the client at index k: `for (; c && (c->isfloating || !ISVISIBLE(c)); c = c->next);` */
  method NextTiledOf(l: seq<ClientId>, cs: map<ClientId, Client>, ms: map<MonId, Monitor>, k: nat) returns (j: nat)
    requires k <= |l|
    ensures j == NextTiled(l, cs, ms, k)
  {
    j := k;
    while j < |l| && !Tiled(cs, ms, l[j])
      invariant k <= j <= |l|
      invariant NextTiled(l, cs, ms, j) == NextTiled(l, cs, ms, k)
      decreases |l| - j
    {
      j := j + 1;
    }
  }

  // -------------------------------------------------------- togglefloating

  /**
   * The selection's record after togglefloating: floating flips, a fixed
   * size forces floating, and a client that ends up floating is resized to
   * its own geometry through the size hints.
   */
  function FloatFlipped(cl: Client, mon: Monitor, sw: int, sh: int): (r: Client)
    ensures r.isfloating == (!cl.isfloating || cl.hints.isfixed)
    ensures r.mon == cl.mon && r.tag == cl.tag && r.isfullscreen == cl.isfullscreen && r.hints == cl.hints
    ensures !r.isfloating ==> r.geom == cl.geom
  {
    var fl := cl.(isfloating := !cl.isfloating || cl.hints.isfixed);
    if fl.isfloating then Resized(fl, mon, sw, sh, cl.geom, false) else fl
  }

  /** togglefloating: nothing without a selection or for a fullscreen one; otherwise flip and rearrange. */
  function FloatToggled(s: State, mons: seq<MonId>, sw: int, sh: int): State
    requires Ok(s, mons)
  {
    var sel := s.monitors[s.selmon].sel;
    assert MonitorOk(s.clients, s.monitors, s.selmon);
    if sel.None? || s.clients[sel.value].isfullscreen then s
    else
      var cl := s.clients[sel.value];
      ArrangedIn(s.(clients := s.clients[sel.value := FloatFlipped(cl, s.monitors[cl.mon], sw, sh)]),
                 mons, sw, sh, Some(s.selmon))
  }

  /** togglefloating keeps the registry, the monitors and the selected monitor. */
  lemma FloatToggledOk(s: State, mons: seq<MonId>, sw: int, sh: int)
    requires Ok(s, mons)
    ensures var r := FloatToggled(s, mons, sw, sh);
            Ok(r, mons) && r.monitors == s.monitors && r.selmon == s.selmon
  {
    var sel := s.monitors[s.selmon].sel;
    assert MonitorOk(s.clients, s.monitors, s.selmon);
    if sel.Some? && !s.clients[sel.value].isfullscreen {
      var c := sel.value;
      var cl := s.clients[c];
      var s1 := s.(clients := s.clients[c := FloatFlipped(cl, s.monitors[cl.mon], sw, sh)]);
      ReplaceClient(s.clients, s.monitors, mons, s.selmon, c, s1.clients[c]);
      ArrangedOk(s1, mons, sw, sh, Some(s.selmon));
    }
  }

  /**
   * togglefloating flips the floating flag of a windowed selection, a
   * fixed size forcing it on, and keeps the client windowed with the same
   * size hints.
   */
  lemma ToggleFloatingFlips(s: State, mons: seq<MonId>, sw: int, sh: int)
    requires Ok(s, mons)
    ensures var sel := s.monitors[s.selmon].sel;
            sel.Some? && sel.value in s.clients && !s.clients[sel.value].isfullscreen ==> (
              var r := FloatToggled(s, mons, sw, sh);
              var cl := s.clients[sel.value];
              && sel.value in r.clients
              && r.clients[sel.value].isfloating == (!cl.isfloating || cl.hints.isfixed)
              && (cl.hints.isfixed ==> r.clients[sel.value].isfloating)
              && !r.clients[sel.value].isfullscreen && r.clients[sel.value].hints == cl.hints)
  {
    var sel := s.monitors[s.selmon].sel;
    assert MonitorOk(s.clients, s.monitors, s.selmon);
    if sel.Some? && !s.clients[sel.value].isfullscreen {
      var c := sel.value;
      var cl := s.clients[c];
      var s1 := s.(clients := s.clients[c := FloatFlipped(cl, s.monitors[cl.mon], sw, sh)]);
      assert SameRoles(s1.clients, ArrangedIn(s1, mons, sw, sh, Some(s.selmon)).clients);
    }
  }

  /** Toggling twice restores the floating flag of a selection without a fixed size. */
  lemma ToggledTwice(s: State, mons: seq<MonId>, sw: int, sh: int)
    requires Ok(s, mons)
    ensures var sel := s.monitors[s.selmon].sel;
            var r := FloatToggled(s, mons, sw, sh);
            && Ok(r, mons)
            && (sel.Some? && sel.value in s.clients && !s.clients[sel.value].isfullscreen && !s.clients[sel.value].hints.isfixed ==>
                  sel.value in FloatToggled(r, mons, sw, sh).clients &&
                  FloatToggled(r, mons, sw, sh).clients[sel.value].isfloating == s.clients[sel.value].isfloating)
  {
    FloatToggledOk(s, mons, sw, sh);
    ToggleFloatingFlips(s, mons, sw, sh);
    var r := FloatToggled(s, mons, sw, sh);
    assert r.monitors[r.selmon].sel == s.monitors[s.selmon].sel;
    ToggleFloatingFlips(r, mons, sw, sh);
  }

  method ToggleFloating(wm: WindowManager)
    requires wm.Valid()
    modifies wm
    ensures wm.mons == old(wm.mons) && wm.sw == old(wm.sw) && wm.sh == old(wm.sh)
    ensures wm.nextClient == old(wm.nextClient) && wm.nextMon == old(wm.nextMon)
    ensures Snap(wm) == FloatToggled(old(Snap(wm)), wm.mons, wm.sw, wm.sh)
    ensures wm.Valid()
  {
    assert MonitorOk(wm.clients, wm.monitors, wm.selmon);
    var sel := wm.monitors[wm.selmon].sel;
    if sel.None? || wm.clients[sel.value].isfullscreen {
      return;
    }
    var c := sel.value;
    var cl := wm.clients[c];
    ReplaceClient(wm.clients, wm.monitors, wm.mons, wm.selmon, c, FloatFlipped(cl, wm.monitors[cl.mon], wm.sw, wm.sh));
    Flip(wm, c);
    Rearrange(wm, Some(wm.selmon));
  }

  /** The flag update of togglefloating and its resize call. */
  method Flip(wm: WindowManager, c: ClientId)
    requires c in wm.clients && wm.clients[c].mon in wm.monitors
    modifies wm
    ensures wm.mons == old(wm.mons) && wm.sw == old(wm.sw) && wm.sh == old(wm.sh)
    ensures wm.nextClient == old(wm.nextClient) && wm.nextMon == old(wm.nextMon)
    ensures wm.monitors == old(wm.monitors) && wm.selmon == old(wm.selmon)
    ensures var cl := old(wm.clients)[c];
            wm.clients == old(wm.clients)[c := FloatFlipped(cl, wm.monitors[cl.mon], wm.sw, wm.sh)]
  {
    var cl := wm.clients[c];
    wm.clients := wm.clients[c := cl.(isfloating := !cl.isfloating || cl.hints.isfixed)];
    if wm.clients[c].isfloating {
      wm.Resize(c, cl.geom, false);
    }
  }

  // --------------------------------------------------------- setfullscreen

  /**
   * The record after setfullscreen(c, on). Going fullscreen remembers the
   * floating state and the geometry and covers the monitor's screen
   * rectangle; leaving it restores both.
   */
  function Fullscreened(cl: Client, on: bool, scr: Rect): (r: Client)
    ensures r.isfullscreen == on || (r == cl && on == cl.isfullscreen)
    ensures r.mon == cl.mon && r.tag == cl.tag && r.hints == cl.hints
    ensures on && !cl.isfullscreen ==> r.isfloating && r.geom == scr && r.oldstate == cl.isfloating && r.oldGeom == cl.geom
    ensures !on && cl.isfullscreen ==> r.isfloating == cl.oldstate && r.geom == cl.oldGeom
    ensures on == cl.isfullscreen ==> r == cl
  {
    if on && !cl.isfullscreen then
      cl.(isfullscreen := true, oldstate := cl.isfloating, isfloating := true, oldGeom := cl.geom, geom := scr)
    else if !on && cl.isfullscreen then
      cl.(isfullscreen := false, isfloating := cl.oldstate, geom := cl.oldGeom, oldGeom := cl.oldGeom)
    else cl
  }

  /** setfullscreen(c, on): only leaving fullscreen rearranges c's monitor. */
  function FullscreenSet(s: State, mons: seq<MonId>, sw: int, sh: int, c: ClientId, on: bool): State
    requires Ok(s, mons) && c in s.clients
  {
    var cl := s.clients[c];
    var s1 := s.(clients := s.clients[c := Fullscreened(cl, on, s.monitors[cl.mon].scr)]);
    if !on && cl.isfullscreen then ArrangedIn(s1, mons, sw, sh, Some(cl.mon)) else s1
  }

  /** setfullscreen keeps the registry and the monitors, and leaves c's fullscreen flag as asked. */
  lemma FullscreenSetOk(s: State, mons: seq<MonId>, sw: int, sh: int, c: ClientId, on: bool)
    requires Ok(s, mons) && c in s.clients
    ensures var r := FullscreenSet(s, mons, sw, sh, c, on);
            && Ok(r, mons) && r.monitors == s.monitors && r.selmon == s.selmon
            && c in r.clients && r.clients[c].isfullscreen == on
            && r.clients[c].mon == s.clients[c].mon && r.clients[c].tag == s.clients[c].tag
  {
    var cl := s.clients[c];
    var s1 := s.(clients := s.clients[c := Fullscreened(cl, on, s.monitors[cl.mon].scr)]);
    ReplaceClient(s.clients, s.monitors, mons, s.selmon, c, s1.clients[c]);
    if !on && cl.isfullscreen {
      ArrangedOk(s1, mons, sw, sh, Some(cl.mon));
      assert SameRoles(s1.clients, ArrangedIn(s1, mons, sw, sh, Some(cl.mon)).clients);
    }
  }

  /**
   * Going fullscreen and back restores the client's floating state and
   * geometry: the outcome is that of rearranging its monitor with the
   * record it had, except that the saved state now holds those values.
   */
  lemma FullscreenRoundTrip(s: State, mons: seq<MonId>, sw: int, sh: int, c: ClientId)
    requires Ok(s, mons) && c in s.clients && !s.clients[c].isfullscreen
    ensures var cl := s.clients[c];
            var r1 := FullscreenSet(s, mons, sw, sh, c, true);
            && Ok(r1, mons) && c in r1.clients
            && FullscreenSet(r1, mons, sw, sh, c, false)
               == ArrangedIn(s.(clients := s.clients[c := cl.(oldstate := cl.isfloating, oldGeom := cl.geom)]),
                             mons, sw, sh, Some(cl.mon))
  {
    FullscreenSetOk(s, mons, sw, sh, c, true);
    var cl := s.clients[c];
    var r1 := FullscreenSet(s, mons, sw, sh, c, true);
    var on := Fullscreened(cl, true, s.monitors[cl.mon].scr);
    assert r1.clients == s.clients[c := on];
    assert Fullscreened(on, false, s.monitors[cl.mon].scr) == cl.(oldstate := cl.isfloating, oldGeom := cl.geom);
    UpdateTwice(s.clients, c, on, cl.(oldstate := cl.isfloating, oldGeom := cl.geom));
  }

  method SetFullscreen(wm: WindowManager, c: ClientId, on: bool)
    requires wm.Valid() && c in wm.clients
    modifies wm
    ensures wm.mons == old(wm.mons) && wm.sw == old(wm.sw) && wm.sh == old(wm.sh)
    ensures wm.nextClient == old(wm.nextClient) && wm.nextMon == old(wm.nextMon)
    ensures Snap(wm) == FullscreenSet(old(Snap(wm)), wm.mons, wm.sw, wm.sh, c, on)
    ensures wm.Valid()
  {
    var cl := wm.clients[c];
    ReplaceClient(wm.clients, wm.monitors, wm.mons, wm.selmon, c, Fullscreened(cl, on, wm.monitors[cl.mon].scr));
    if on != cl.isfullscreen {
      Refill(wm, c, on);
      if !on {
        Rearrange(wm, Some(cl.mon));
      }
    } else {
      assert old(wm.clients)[c := Fullscreened(cl, on, wm.monitors[cl.mon].scr)] == wm.clients;
    }
  }

  /** The flag and state updates of setfullscreen and its resizeclient call. */
  method Refill(wm: WindowManager, c: ClientId, on: bool)
    requires c in wm.clients && wm.clients[c].mon in wm.monitors && on != wm.clients[c].isfullscreen
    modifies wm
    ensures wm.mons == old(wm.mons) && wm.sw == old(wm.sw) && wm.sh == old(wm.sh)
    ensures wm.nextClient == old(wm.nextClient) && wm.nextMon == old(wm.nextMon)
    ensures wm.monitors == old(wm.monitors) && wm.selmon == old(wm.selmon)
    ensures var cl := old(wm.clients)[c];
            wm.clients == old(wm.clients)[c := Fullscreened(cl, on, wm.monitors[cl.mon].scr)]
  {
    var cl := wm.clients[c];
    if on {
      wm.clients := wm.clients[c := cl.(isfullscreen := true, oldstate := cl.isfloating, isfloating := true)];
      wm.ResizeClient(c, wm.monitors[cl.mon].scr);
    } else {
      wm.clients := wm.clients[c := cl.(isfullscreen := false, isfloating := cl.oldstate, geom := cl.oldGeom)];
      wm.ResizeClient(c, cl.oldGeom);
    }
  }

  // ------------------------------------------------------------- dispatch

  /**
   * What the callers of a command must rule out: cyclelayout on a monitor
   * without a layout, and the zoom that would pop a missing selection.
   */
  predicate Runnable(s: State, cmd: Commands.Command)
    requires SelListed(s)
  {
    && (cmd.CycleLayout? ==> s.monitors[s.selmon].layout.Some?)
    && (cmd.Zoom? ==> ZoomDefined(s))
  }

  /** The command a FIFO byte names, applied to the state; killclient only talks to the X server. */
  function Executed(s: State, mons: seq<MonId>, sw: int, sh: int, cmd: Commands.Command): State
    requires Ok(s, mons) && SelListed(s) && Commands.WellFormed(cmd) && Runnable(s, cmd)
  {
    match cmd
    case View(x) => Viewed(s, mons, sw, sh, x)
    case Tag(x) => Tagged(s, mons, sw, sh, x)
    case FocusStack(d) =>
      var t := FocusStackTarget(s, d);
      if t.Some? then Focused(s, t) else s
    case CycleLayout(d) => Cycled(s, mons, sw, sh, d)
    case FocusMon(d) => MonFocused(s, mons, d)
    case TagMon(d) => TaggedMon(s, mons, sw, sh, d)
    case SetMfact(d) => MfactSet(s, mons, sw, sh, d)
    case Zoom => Zoomed(s, mons, sw, sh)
    case KillClient => s
    case ToggleFloating => FloatToggled(s, mons, sw, sh)
    case Ignore => s
  }

  /** Every command keeps the registry consistent. */
  lemma ExecutedOk(s: State, mons: seq<MonId>, sw: int, sh: int, cmd: Commands.Command)
    requires Ok(s, mons) && SelListed(s) && Commands.WellFormed(cmd) && Runnable(s, cmd)
    ensures Ok(Executed(s, mons, sw, sh, cmd), mons)
  {
    match cmd
    case View(x) => ViewShows(s, mons, sw, sh, x);
    case Tag(x) => TagMoves(s, mons, sw, sh, x);
    case FocusStack(d) =>
      var t := FocusStackTarget(s, d);
      if t.Some? {
        FocusedOk(s, mons, t);
      }
    case CycleLayout(d) => CycledOnce(s, mons, sw, sh, d);
    case FocusMon(d) => FocusMonLands(s, mons, d);
    case TagMon(d) =>
      if s.monitors[s.selmon].sel.Some? && |mons| > 1 {
        TagMonSends(s, mons, sw, sh, d);
      }
    case SetMfact(d) => MfactSetRange(s, mons, sw, sh, d);
    case Zoom => ZoomPromotes(s, mons, sw, sh);
    case KillClient =>
    case ToggleFloating => FloatToggledOk(s, mons, sw, sh);
    case Ignore =>
  }

  /** dispatchcmd: decode the byte read from the FIFO and run its command. */
  method Dispatch(wm: WindowManager, b: Commands.Byte)
    requires wm.Valid() && SelListed(Snap(wm)) && Runnable(Snap(wm), Commands.DispatchCmd(b))
    modifies wm
    ensures wm.mons == old(wm.mons) && wm.sw == old(wm.sw) && wm.sh == old(wm.sh)
    ensures wm.nextClient == old(wm.nextClient) && wm.nextMon == old(wm.nextMon)
    ensures Snap(wm) == Executed(old(Snap(wm)), wm.mons, wm.sw, wm.sh, Commands.DispatchCmd(b))
    ensures wm.Valid()
  {
    match Commands.DispatchCmd(b)
    case View(x) => View(wm, x);
    case Tag(x) => TagSel(wm, x);
    case FocusStack(d) => FocusStack(wm, d);
    case CycleLayout(d) => CycleLayout(wm, d);
    case FocusMon(d) => FocusMon(wm, d);
    case TagMon(d) => TagMon(wm, d);
    case SetMfact(d) => SetMfactCmd(wm, d);
    case Zoom => Zoom(wm);
    case KillClient =>
    case ToggleFloating => ToggleFloating(wm);
    case Ignore =>
  }
}
