/**
 * Input focus: focus, focusstack and focusmon. They change the focus
 * stacks, the selections and which monitor is selected, and nothing else.
 */
module Focusing {
  import opened Wrappers
  import opened Seqs
  import opened Model
  import opened Registry
  import opened Monitors

  /** The part of the window manager the commands change. */
  datatype State = State(clients: map<ClientId, Client>, monitors: map<MonId, Monitor>, selmon: MonId)

  function Snap(wm: WindowManager): State
    reads wm
  {
    State(wm.clients, wm.monitors, wm.selmon)
  }

  ghost predicate Ok(s: State, mons: seq<MonId>)
  {
    Consistent(s.clients, s.monitors, mons, s.selmon)
  }

  // ----------------------------------------------------------------- focus

  /**
   * The client focus(c) settles on: c itself when it is visible, else the
   * first visible client of the selected monitor's focus stack, if any.
   */
  function FocusTarget(s: State, c: Option<ClientId>): (t: Option<ClientId>)
    requires s.selmon in s.monitors
    ensures t.Some? ==> Visible(s.clients, s.monitors, t.value)
    ensures c.Some? && Visible(s.clients, s.monitors, c.value) ==> t == c
    ensures t.Some? && t != c ==> t.value in s.monitors[s.selmon].stack
    ensures t.None? <==> !(c.Some? && Visible(s.clients, s.monitors, c.value)) &&
                         forall i | 0 <= i < |s.monitors[s.selmon].stack| ::
                           !Visible(s.clients, s.monitors, s.monitors[s.selmon].stack[i])
  {
    if c.Some? && Visible(s.clients, s.monitors, c.value) then c
    else FirstVisible(s.monitors[s.selmon].stack, s.clients, s.monitors)
  }

  /**
   * focus(c): the target moves to the head of its monitor's focus stack
   * and becomes the selection of its monitor, which becomes the selected
   * monitor; without a target the selected monitor loses its selection.
   */
  function Focused(s: State, c: Option<ClientId>): (r: State)
    requires s.selmon in s.monitors
    ensures var t := FocusTarget(s, c);
            && r.clients == s.clients && r.monitors.Keys == s.monitors.Keys && r.selmon in r.monitors
            && r.monitors[r.selmon].sel == t
            && (t.Some? ==> r.selmon == s.clients[t.value].mon && |r.monitors[r.selmon].stack| > 0 && r.monitors[r.selmon].stack[0] == t.value)
            && (t.None? ==> r.selmon == s.selmon)
            && r.monitors[r.selmon] == s.monitors[r.selmon].(stack := r.monitors[r.selmon].stack, sel := t)
            && (forall m | m in s.monitors && m != r.selmon :: r.monitors[m] == s.monitors[m])
  {
    var t := FocusTarget(s, c);
    if t.None? then
      s.(monitors := s.monitors[s.selmon := s.monitors[s.selmon].(sel := None)])
    else
      var x := t.value;
      var m := s.clients[x].mon;
      var mon := s.monitors[m];
      State(s.clients, s.monitors[m := mon.(stack := [x] + Without(mon.stack, x), sel := t)], m)
  }

  /** Moving a member of a list without repeats to its head permutes the list. */
  lemma ToFront(l: seq<ClientId>, x: ClientId)
    requires NoDup(l) && x in l
    ensures NoDup([x] + Without(l, x))
    ensures multiset([x] + Without(l, x)) == multiset(l)
  {
    var k := IndexIn(l, x);
    WithoutAt(l, k);
    WithoutNoDup(l, x);
    PrependNoDup(x, Without(l, x));
    calc {
      multiset(l);
      { assert l == l[..k] + ([x] + l[k + 1..]); }
      multiset(l[..k]) + (multiset{x} + multiset(l[k + 1..]));
      multiset([x] + (l[..k] + l[k + 1..]));
    }
  }

  /** focus keeps the registry consistent and only reorders a focus stack. */
  lemma FocusedOk(s: State, mons: seq<MonId>, c: Option<ClientId>)
    requires Ok(s, mons)
    ensures Ok(Focused(s, c), mons)
    ensures var r := Focused(s, c);
            multiset(r.monitors[r.selmon].stack) == multiset(s.monitors[r.selmon].stack)
  {
    var t := FocusTarget(s, c);
    var r := Focused(s, c);
    if t.Some? {
      var x := t.value;
      var m := s.clients[x].mon;
      var mon := s.monitors[m];
      assert MonitorOk(s.clients, s.monitors, m);
      ToFront(mon.stack, x);
      ReplaceMonitor(s.clients, s.monitors, mons, s.selmon, m, r.monitors[m]);
      Reselect(s.clients, r.monitors, mons, s.selmon, m);
    } else {
      assert MonitorOk(s.clients, s.monitors, s.selmon);
      ReplaceMonitor(s.clients, s.monitors, mons, s.selmon, s.selmon, r.monitors[s.selmon]);
    }
  }

  /**
   * Unless it is handed a visible client, focus stays on the selected
   * monitor: the fallback is taken from that monitor's own stack.
   */
  lemma FocusStays(s: State, mons: seq<MonId>, c: Option<ClientId>)
    requires Ok(s, mons)
    requires !(c.Some? && Visible(s.clients, s.monitors, c.value))
    ensures Focused(s, c).selmon == s.selmon
  {
    assert MonitorOk(s.clients, s.monitors, s.selmon);
  }

  /** focus(c) of a visible client selects it and its monitor. */
  method Focus(wm: WindowManager, c: Option<ClientId>)
    requires wm.Valid()
    modifies wm
    ensures wm.mons == old(wm.mons) && wm.sw == old(wm.sw) && wm.sh == old(wm.sh)
    ensures wm.nextClient == old(wm.nextClient) && wm.nextMon == old(wm.nextMon)
    ensures Snap(wm) == Focused(old(Snap(wm)), c)
    ensures wm.Valid()
  {
    ghost var s0 := Snap(wm);
    var t := c;
    if t.None? || !Visible(wm.clients, wm.monitors, t.value) {
      t := FirstVisibleOf(wm.monitors[wm.selmon].stack, wm.clients, wm.monitors);
    }
    assert t == FocusTarget(s0, c);
    FocusedOk(s0, wm.mons, c);
    if t.Some? {
      assert MonitorOk(wm.clients, wm.monitors, wm.clients[t.value].mon);
    }
    FocusOn(wm, t);
  }

  /** The second half of focus, once the target is known: relink it and select it. */
  method FocusOn(wm: WindowManager, t: Option<ClientId>)
    requires wm.selmon in wm.monitors
    requires t.Some? ==> var x := t.value;
               x in wm.clients && wm.clients[x].mon in wm.monitors &&
               x in wm.monitors[wm.clients[x].mon].stack && NoDup(wm.monitors[wm.clients[x].mon].stack)
    modifies wm
    ensures wm.clients == old(wm.clients) && wm.mons == old(wm.mons) && wm.sw == old(wm.sw) && wm.sh == old(wm.sh)
    ensures wm.nextClient == old(wm.nextClient) && wm.nextMon == old(wm.nextMon)
    ensures t.None? ==> (wm.selmon == old(wm.selmon) &&
              wm.monitors == old(wm.monitors)[wm.selmon := old(wm.monitors)[wm.selmon].(sel := None)])
    ensures t.Some? ==> var x := t.value;
              var m := old(wm.clients)[x].mon;
              var mon := old(wm.monitors)[m];
              wm.selmon == m && wm.monitors == old(wm.monitors)[m := mon.(stack := [x] + Without(mon.stack, x), sel := t)]
  {
    if t.Some? {
      var x := t.value;
      var m := wm.clients[x].mon;
      if m != wm.selmon {
        wm.selmon := m;
      }
      wm.DetachStack(x);
      wm.AttachStack(x);
    }
    wm.monitors := wm.monitors[wm.selmon := wm.monitors[wm.selmon].(sel := t)];
  }

  /** `for (c = stack; c && !ISVISIBLE(c); c = c->snext);` */
  method FirstVisibleOf(s: seq<ClientId>, cs: map<ClientId, Client>, ms: map<MonId, Monitor>) returns (t: Option<ClientId>)
    ensures t == FirstVisible(s, cs, ms)
  {
    var k := 0;
    while k < |s| && !Visible(cs, ms, s[k])
      invariant 0 <= k <= |s|
      invariant forall i | 0 <= i < k :: !Visible(cs, ms, s[i])
      decreases |s| - k
    {
      k := k + 1;
    }
    FirstVisibleIsFirst(s, cs, ms, k);
    t := if k < |s| then Some(s[k]) else None;
  }

  // ------------------------------------------------------------ focusstack

  /**
   * The step of focusstack(dir) along the client list l from the selection
   * at index k. Forward: the next visible client after k, wrapping to the
   * first visible one. Backward: the last visible client before k, else the
   * last visible one from k to the end.
   */
  function StackStep(l: seq<ClientId>, cs: map<ClientId, Client>, ms: map<MonId, Monitor>, k: nat, dir: int): (r: Option<nat>)
    requires k < |l|
    ensures r.Some? ==> r.value < |l| && Visible(cs, ms, l[r.value])
    ensures r.None? <==> forall i | 0 <= i < |l| :: !Visible(cs, ms, l[i])
    ensures dir > 0 && r.Some? && r.value > k ==> forall i | k < i < r.value :: !Visible(cs, ms, l[i])
    ensures dir > 0 && r.Some? && r.value <= k ==>
              (forall i | k < i < |l| :: !Visible(cs, ms, l[i])) && (forall i | 0 <= i < r.value :: !Visible(cs, ms, l[i]))
    ensures dir <= 0 && r.Some? && r.value < k ==> forall i | r.value < i < k :: !Visible(cs, ms, l[i])
    ensures dir <= 0 && r.Some? && r.value >= k ==>
              (forall i | 0 <= i < k :: !Visible(cs, ms, l[i])) && (forall i | r.value < i < |l| :: !Visible(cs, ms, l[i]))
  {
    if dir > 0 then
      var j := FirstVisibleFrom(l, cs, ms, k + 1);
      if j < |l| then Some(j)
      else
        var w := FirstVisibleFrom(l, cs, ms, 0);
        if w < |l| then Some(w) else None
    else
      var b := LastVisible(l, cs, ms, 0, k);
      if b.Some? then b else LastVisible(l, cs, ms, k, |l|)
  }

  /** A visible client at index k with nothing visible in (k, hi) is the last visible one of [lo, hi). */
  lemma LastVisibleIs(l: seq<ClientId>, cs: map<ClientId, Client>, ms: map<MonId, Monitor>, lo: nat, hi: nat, k: nat)
    requires lo <= k < hi <= |l| && Visible(cs, ms, l[k])
    requires forall i | k < i < hi :: !Visible(cs, ms, l[i])
    ensures LastVisible(l, cs, ms, lo, hi) == Some(k)
  {
    var r := LastVisible(l, cs, ms, lo, hi);
    assert r.Some?;
  }

  /**
   * focusstack(+1) and focusstack(-1) undo each other: from a visible
   * selection one step either way and one step back returns to it.
   */
  lemma StackStepInverse(l: seq<ClientId>, cs: map<ClientId, Client>, ms: map<MonId, Monitor>, k: nat)
    requires k < |l| && Visible(cs, ms, l[k])
    ensures StackStep(l, cs, ms, k, 1).Some? && StackStep(l, cs, ms, StackStep(l, cs, ms, k, 1).value, -1) == Some(k)
    ensures StackStep(l, cs, ms, k, -1).Some? && StackStep(l, cs, ms, StackStep(l, cs, ms, k, -1).value, 1) == Some(k)
  {
    var j := StackStep(l, cs, ms, k, 1).value;
    if j > k {
      LastVisibleIs(l, cs, ms, 0, j, k);
    } else if j == k {
      assert LastVisible(l, cs, ms, 0, k).None?;
      LastVisibleIs(l, cs, ms, k, |l|, k);
    } else {
      assert LastVisible(l, cs, ms, 0, j).None?;
      LastVisibleIs(l, cs, ms, j, |l|, k);
    }
    var b := StackStep(l, cs, ms, k, -1).value;
    if b < k {
      assert FirstVisibleFrom(l, cs, ms, b + 1) == k;
    } else {
      assert FirstVisibleFrom(l, cs, ms, b + 1) == |l|;
      assert FirstVisibleFrom(l, cs, ms, 0) == k;
    }
  }

  /** The selection is one of the selected monitor's clients, as the registry guarantees. */
  predicate SelListed(s: State)
  {
    && s.selmon in s.monitors
    && var sel := s.monitors[s.selmon].sel;
       sel.Some? ==> sel.value in s.clients && sel.value in s.monitors[s.selmon].clients
  }

  /**
   * The client focusstack(dir) focuses, or None when it does nothing: no
   * selection, a fullscreen selection, or no visible client at all.
   */
  function FocusStackTarget(s: State, dir: int): (t: Option<ClientId>)
    requires SelListed(s)
    ensures var sel := s.monitors[s.selmon].sel;
            sel.None? || s.clients[sel.value].isfullscreen ==> t.None?
    ensures t.Some? ==> t.value in s.monitors[s.selmon].clients && Visible(s.clients, s.monitors, t.value)
  {
    var mon := s.monitors[s.selmon];
    if mon.sel.None? || s.clients[mon.sel.value].isfullscreen then None
    else
      var r := StackStep(mon.clients, s.clients, s.monitors, IndexIn(mon.clients, mon.sel.value), dir);
      if r.Some? then Some(mon.clients[r.value]) else None
  }

  /** With a visible, windowed selection, focusstack finds a client and focus selects it. */
  lemma FocusStackSelects(s: State, mons: seq<MonId>, dir: int)
    requires Ok(s, mons) && SelListed(s)
    requires var sel := s.monitors[s.selmon].sel;
             sel.Some? && !s.clients[sel.value].isfullscreen && Visible(s.clients, s.monitors, sel.value)
    ensures var t := FocusStackTarget(s, dir);
            t.Some? && Focused(s, t).monitors[s.selmon].sel == t && Focused(s, t).selmon == s.selmon
  {
    var mon := s.monitors[s.selmon];
    var k := IndexIn(mon.clients, mon.sel.value);
    assert Visible(s.clients, s.monitors, mon.clients[k]);
    var t := FocusStackTarget(s, dir);
    assert MonitorOk(s.clients, s.monitors, s.selmon);
    assert s.clients[t.value].mon == s.selmon;
  }

  /** The two walks of focusstack along the client list, from the selection at index k. */
  method StackStepOf(l: seq<ClientId>, cs: map<ClientId, Client>, ms: map<MonId, Monitor>, k: nat, dir: int)
    returns (c: Option<nat>)
    requires k < |l|
    ensures c == StackStep(l, cs, ms, k, dir)
  {
    if dir > 0 {
      var j := VisibleFrom(l, cs, ms, k + 1);
      if j == |l| {
        j := VisibleFrom(l, cs, ms, 0);
      }
      c := if j < |l| then Some(j) else None;
    } else {
      c := LastVisibleIn(l, cs, ms, 0, k);
      if c.None? {
        c := LastVisibleIn(l, cs, ms, k, |l|);
      }
    }
  }

  /** `for (c = first; c && !ISVISIBLE(c); c = c->next);` from index k. */
  method VisibleFrom(l: seq<ClientId>, cs: map<ClientId, Client>, ms: map<MonId, Monitor>, k: nat) returns (j: nat)
    requires k <= |l|
    ensures j == FirstVisibleFrom(l, cs, ms, k)
  {
    j := k;
    while j < |l| && !Visible(cs, ms, l[j])
      invariant k <= j <= |l|
      invariant forall i | k <= i < j :: !Visible(cs, ms, l[i])
      decreases |l| - j
    {
      j := j + 1;
    }
  }

  /** `for (i = first; i != last; i = i->next) if (ISVISIBLE(i)) c = i;` over [lo, hi). */
  method LastVisibleIn(l: seq<ClientId>, cs: map<ClientId, Client>, ms: map<MonId, Monitor>, lo: nat, hi: nat)
    returns (c: Option<nat>)
    requires lo <= hi <= |l|
    ensures c == LastVisible(l, cs, ms, lo, hi)
  {
    c := None;
    var i := lo;
    while i < hi
      invariant lo <= i <= hi
      invariant c == LastVisible(l, cs, ms, lo, i)
    {
      if Visible(cs, ms, l[i]) {
        c := Some(i);
      }
      i := i + 1;
    }
  }

  /** focusstack(dir): focus the next (dir > 0) or previous visible client of the list. */
  method FocusStack(wm: WindowManager, dir: int)
    requires wm.Valid()
    modifies wm
    ensures wm.mons == old(wm.mons) && wm.sw == old(wm.sw) && wm.sh == old(wm.sh)
    ensures wm.nextClient == old(wm.nextClient) && wm.nextMon == old(wm.nextMon)
    ensures SelListed(old(Snap(wm)))
    ensures var t := FocusStackTarget(old(Snap(wm)), dir);
            Snap(wm) == if t.Some? then Focused(old(Snap(wm)), t) else old(Snap(wm))
    ensures wm.Valid()
  {
    var mon := wm.monitors[wm.selmon];
    assert MonitorOk(wm.clients, wm.monitors, wm.selmon);
    if mon.sel.None? || wm.clients[mon.sel.value].isfullscreen {
      return;
    }
    var l := mon.clients;
    var k := IndexIn(l, mon.sel.value);
    var c := StackStepOf(l, wm.clients, wm.monitors, k, dir);
    if c.Some? {
      Focus(wm, Some(l[c.value]));
    }
  }

  // -------------------------------------------------------------- focusmon

  /**
   * focusmon(dir): with more than one monitor, select the monitor dirtomon
   * gives and focus its first visible client; otherwise nothing.
   */
  function MonFocused(s: State, mons: seq<MonId>, dir: int): State
    requires Ok(s, mons)
  {
    var m := DirToMon(mons, s.selmon, dir);
    if |mons| > 1 && m != s.selmon then Focused(s.(selmon := m), None) else s
  }

  method FocusMon(wm: WindowManager, dir: int)
    requires wm.Valid()
    modifies wm
    ensures wm.mons == old(wm.mons) && wm.sw == old(wm.sw) && wm.sh == old(wm.sh)
    ensures wm.nextClient == old(wm.nextClient) && wm.nextMon == old(wm.nextMon)
    ensures Snap(wm) == MonFocused(old(Snap(wm)), wm.mons, dir)
    ensures wm.Valid()
  {
    if |wm.mons| <= 1 {
      return;
    }
    var m := DirToMon(wm.mons, wm.selmon, dir);
    if m == wm.selmon {
      return;
    }
    Reselect(wm.clients, wm.monitors, wm.mons, wm.selmon, m);
    wm.selmon := m;
    Focus(wm, None);
  }

  /**
   * focusmon keeps the registry consistent and, with several monitors,
   * always ends on the monitor dirtomon names, another than before.
   */
  lemma FocusMonLands(s: State, mons: seq<MonId>, dir: int)
    requires Ok(s, mons)
    ensures var r := MonFocused(s, mons, dir);
            && Ok(r, mons)
            && (|mons| > 1 ==> r.selmon == DirToMon(mons, s.selmon, dir) && r.selmon != s.selmon)
  {
    var m := DirToMon(mons, s.selmon, dir);
    if |mons| > 1 {
      DirToMonMoves(mons, s.selmon, dir);
      Reselect(s.clients, s.monitors, mons, s.selmon, m);
      FocusStays(s.(selmon := m), mons, None);
      FocusedOk(s.(selmon := m), mons, None);
    }
  }
}
