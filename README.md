# A verified model of dwm's window-management core

This project models the core of a dwm variant (`src/dwm.c`): the dynamic
window manager's registry of managed windows ("clients") and screens
("monitors"), and the operations that keep that registry in shape:

- the per-monitor client list and focus stack (attach, attachstack, detach,
  detachstack) and the monitor list (cleanupmon);
- focus (focus, focusstack, focusmon);
- the commands a byte written to the command FIFO triggers: view, tag,
  focusstack, cyclelayout, focusmon, tagmon (through sendmon), setmfact,
  zoom (through pop), killclient and togglefloating;
- setfullscreen and setlayout;
- arrange: showhide, then the monitor's layout (tile, which picks vstack or
  bstackhoriz by the monitor's shape, or monocle) walking the client list
  with nexttiled and resizing each tiled client;
- the size-hint logic (updatesizehints, applysizehints) behind resize and
  resizeclient;
- updategeom: reconciling the monitors with the Xinerama outputs
  (isuniquegeom de-duplication, growing and shrinking the monitor list,
  moving the clients of removed monitors) and choosing selmon again
  (wintomon(root), recttomon, INTERSECT);
- the initialisation part of manage.

Pointers become handles. Clients and monitors live in two maps, and the
`next`, `snext` and `mon` pointers become sequences of handles and a
handle. The global state (`mons`, `selmon`, the screen size) is the class
`Registry.WindowManager`. Its methods and the module-level methods that
take it change it in place.

Every stateful operation is a method. Each is proved to leave the state that
a function of the old state describes. For a command that means
`Snap(wm) == Spec(old(Snap(wm)), ...)`, where `Focusing.State` is the
snapshot of clients, monitors and selmon. Lemmas then prove what the source
promises about that function: the registry stays consistent
(`Model.Consistent`: every client is on exactly the lists of the monitor it
points at, each list without repeats, selmon a listed monitor), plus
command-specific properties.

Integer arithmetic follows C:
- `/` and `%` truncate toward zero (`Geometry.TruncDiv`, `Geometry.CRem`);
- the `unsigned int` arithmetic in vstack and bstackhoriz wraps modulo 2^32;
- tile_count's `unsigned char` counter, which wraps modulo 256, is modelled only by `Model.TileCountAsWritten`, `Layouts.TileRequestsAsWritten` and `Tiling.LaidOutAsWritten`; the layouts the rest of the model runs count the tiled clients without wrapping (see "## Findings").

The master fraction `mfact` (a float in the source) is an integer
percentage; setmfact's steps of 0.1 are steps of 10.

Three behaviours of the code that are easy to miss:
- The clients that updategeom moves off a removed monitor arrive on the
  first monitor in reverse order, because each is attached at the head.
- bstackhoriz places every stack client at `x = wx`, each with the fixed
  share `th = (wh - mh) / (n - 1)`.
- The shrinking branch of updategeom does not give the surviving monitors
  new geometry.

## Model

| member | source | states |
|---|---|---|
| Geometry.Max | src/dwm.c:20 | MAX: the larger of its arguments, one of them |
| Geometry.Min | src/dwm.c:21 | MIN: the smaller of its arguments, one of them |
| Geometry.TruncDiv | src/dwm.c:1360 | C division: agrees with Euclidean division and its bounds for non-negative operands |
| Geometry.CRem | src/dwm.c:286-289 | C remainder: takes the dividend's sign and is smaller than the divisor in magnitude |
| Geometry.ToUnsigned | src/dwm.c:1365-1371 | an int seen as `unsigned int` lies in [0, 2^32) and equals the value, or the value plus 2^32, when that is in range |
| Geometry.UnsignedIsModulo | src/dwm.c:1365-1371 | the unsigned conversion is reduction modulo 2^32 |
| Geometry.ToSigned | src/dwm.c:1366-1370 | an unsigned value read back as an int is in the signed range and converts back to the same unsigned value |
| Geometry.UnsignedRoundTrip | src/dwm.c:1366-1370 | a value in the signed 32-bit range survives the unsigned round trip |
| Geometry.Intersect | src/dwm.c:22-23 | INTERSECT: the overlap area with a work area, never negative |
| Geometry.PointIntersect | src/dwm.c:22-23 | a 1x1 rectangle overlaps an area in one pixel exactly when the area contains the point, else in none |
| Geometry.IsUniqueGeom | src/dwm.c:652-657 | isuniquegeom is true exactly when none of the first n accepted outputs has the same origin and size |
| Geometry.UniqueScreens | src/dwm.c:1143-1148 | the de-duplicated outputs are no more than the outputs, and each is one of them |
| Geometry.UniqueScreensDistinct | src/dwm.c:1143-1148 | no two accepted outputs share origin and size |
| Geometry.UniqueScreensCover | src/dwm.c:1143-1148 | every reported output has the geometry of an accepted one |
| Geometry.UniqueScreensHead | src/dwm.c:1143-1148 | the first output is always accepted first |
| Geometry.UniqueGeoms | src/dwm.c:1143-1148 | the de-duplication loop computes UniqueScreens |
| Layouts.LayoutTableDistinct | src/dwm.c:217 | the layouts table holds tile and monocle, distinct |
| Layouts.Clamp | src/dwm.c:226-228 | clamp lands in [l, h] and leaves a value already there alone |
| Layouts.SetMfact | src/dwm.c:967-971 | setmfact does nothing for a zero step or no layout; otherwise the new mfact lies in [10, 90] and is mfact + d when that is in range |
| Layouts.MfactStaysInRange | src/dwm.c:967-971 | over any sequence of setmfact calls an mfact in [10, 90] stays there, and one outside is brought there by the first effective call |
| Layouts.CycleIndex | src/dwm.c:477-491 | cyclelayout's next or previous index stays inside the table |
| Layouts.CycleInverse | src/dwm.c:477-491 | cycling forward then back, or back then forward, returns to the same layout |
| Layouts.IndexOf | src/dwm.c:479 | the search loop of cyclelayout finds the index holding the layout |
| Layouts.AsInt | src/dwm.c:1394-1395 | an unsigned expression passed to an int parameter keeps its value in the signed range |
| Layouts.TiledSize | src/dwm.c:242-266 | applysizehints' size for a tiled client: at least 1 and at least bh, the request itself when it already is |
| Layouts.MonocleRequests | src/dwm.c:1337-1341 | monocle asks each of the n tiled clients for the work area less the border |
| Layouts.VStack | src/dwm.c:1348-1373 | vstack makes one request per tiled client |
| Layouts.TileRequests | src/dwm.c:1343-1346 | tile runs vstack on a monitor wider than tall and bstackhoriz otherwise |
| Layouts.TileRequestsAsWritten | src/dwm.c:1348-1403 | tile with the wrapped count: as many requests as tiled clients, or none when the count is a multiple of 256, or a division by zero |
| LayoutFacts.AsWrittenAgrees | src/dwm.c:1348-1403 | below 256 tiled clients the layouts as written ask exactly what tile asks |
| LayoutFacts.AsWrittenSkips | src/dwm.c:1348-1403 | with a positive multiple of 256 tiled clients the layouts as written resize none, while tile asks one rectangle of each |
| LayoutFacts.AsWrittenMonocle | src/dwm.c:1348-1403 | with 257, 513, ... tiled clients the layouts as written run monocle |
| LayoutFacts.AsWrittenDividesByZero | src/dwm.c:1348-1373 | vstack with more than 256 tiled clients, a count not 0 or 1 modulo 256, divides by zero |
| LayoutFacts.FewTiled | src/dwm.c:1348-1403 | with no tiled client neither layout resizes; with one, both give it the work area less the border |
| LayoutFacts.VStackPlacement | src/dwm.c:1348-1373 | vstack with n > 1: master at (wx, wy), width mw - 2*borderpx, full height; the stack column at wx + mw, one under the other, filling exactly wh |
| LayoutFacts.ColumnFills | src/dwm.c:1368-1371 | the stack column from any client on sits at wx + mw with the remaining width, stacked, filling exactly the height left |
| LayoutFacts.ColumnSpan | src/dwm.c:1368-1371 | the outer heights of the stack column add up to the height still free |
| LayoutFacts.ColumnStacked | src/dwm.c:1368-1371 | each stack request starts where the previous one's outer height ended |
| LayoutFacts.ColumnColumn | src/dwm.c:1368-1371 | every stack request has the column's x and width |
| LayoutFacts.MasterFull | src/dwm.c:1364-1367 | vstack's master with nothing placed takes the whole height inside its border |
| LayoutFacts.BMasterFull | src/dwm.c:1393-1396 | bstackhoriz's master with nothing placed takes the whole width inside its border |
| LayoutFacts.VStackExample | src/dwm.c:1348-1373 | on 1280x800 with mfact 0.6 and three clients: master 768 wide at full height, two stack clients of 400 each |
| LayoutFacts.RowPlacement | src/dwm.c:1397-1400 | bstackhoriz's stack row: every client at x = wx, full width and height th less the border, stacked unless th is the whole height |
| LayoutFacts.BStackPlacement | src/dwm.c:1375-1403 | bstackhoriz with n > 1: master on top at full width and height mh; the others below, each th high, stacked, and short of the height left by less than n - 1 pixels |
| LayoutFacts.BStackHead | src/dwm.c:1388-1389 | the master height and the fixed stack share of bstackhoriz |
| LayoutFacts.ShareNonDecreasing | src/dwm.c:1369-1371 | the remainder-based share of vstack never shrinks from one stack client to the next |
| SizeHints.UpdateSizeHints | src/dwm.c:1199-1238 | updatesizehints: a client is fixed exactly when its maximum size is set, non-zero and equal to its minimum |
| SizeHints.NoHintsNoBounds | src/dwm.c:1203-1237 | a window without WM_NORMAL_HINTS gets no bounds and is not fixed |
| SizeHints.BaseDefaultsToMin | src/dwm.c:1206-1231 | when only one of base and minimum size is given, the other defaults to it |
| SizeHints.EqualMinMaxIsFixed | src/dwm.c:1219-1237 | equal non-zero minimum and maximum sizes make the client fixed |
| SizeHints.ApplySizeHints | src/dwm.c:237-299 | applysizehints reports a change exactly when the result differs from the current geometry; a tiled client on a laid-out monitor gets size max(1, request, bh) |
| SizeHints.TiledSizeAtLeastOne | src/dwm.c:242-266 | every tiled size is at least one pixel and at least bh |
| SizeHints.FloatingWithinBounds | src/dwm.c:291-296 | a floating client respects its maximum size, and its minimum unless the maximum lies below it |
| SizeHints.FixedSizeIsKept | src/dwm.c:281-297 | a fixed-size floating client always gets exactly its fixed size |
| SizeHints.WidthIsWholeIncrements | src/dwm.c:281-292 | when neither bound cuts in, the width above the base is a whole number of increments |
| SizeHints.TiledIdempotent | src/dwm.c:237-299 | applying the tiled constraints to their own result reports no change |
| SizeHints.FloatingNotIdempotent | src/dwm.c:281-297 | for a floating client a second application can still change the size |
| SizeHints.FloatingWidthCanBeZero | src/dwm.c:241-297 | the one-pixel minimum is lost for a floating client whose increment exceeds the request |
| Seqs.Without | src/dwm.c:501-506 | unlinking keeps exactly the other elements, and shortens a list that held the value |
| Seqs.WithoutAt | src/dwm.c:501-506 | unlinking the node at index k of a list without repeats removes that value |
| Seqs.Reverse | src/dwm.c:1169-1176 | reversal keeps length and membership |
| Seqs.IndexIn | src/dwm.c:504 | the pointer walk of detach stops at the first occurrence of the client |
| Model.NewMonitor | src/dwm.c:468-475 | createmon: empty lists, no selection, tag 0, mfact 0.6, the first layout |
| Model.FirstVisibleFrom | src/dwm.c:596-598 | the first visible client at or after k: nothing visible before it, and it is visible |
| Model.FirstVisible | src/dwm.c:515 | the stack walk of detachstack finds a visible client of the stack, and none exactly when no client there is visible |
| Model.LastVisible | src/dwm.c:600-606 | the last visible client in a range: visible, and nothing visible after it in the range |
| Model.TiledClients | src/dwm.c:31 | FOREACHTILE visits exactly the visible, non-floating clients, in list order |
| Model.NextTiled | src/dwm.c:747-750 | nexttiled returns a tiled client or NULL, never one before its start |
| Model.NextTiledSkips | src/dwm.c:747-750 | nexttiled passes over only clients that are not tiled |
| Model.NextTiledWalk | src/dwm.c:31 | walking with nexttiled visits exactly TiledClients |
| Model.TileCount | src/dwm.c:230-235 | the number of tiled clients; zero exactly when no client is tiled |
| Model.TileCountAsWritten | src/dwm.c:230-235 | tile_count as written: the tiled count modulo 256 |
| Model.TileCountAgrees | src/dwm.c:230-235 | below 256 tiled clients the counter does not wrap |
| Model.TileCountWraps | src/dwm.c:230-235 | with exactly 256 tiled clients tile_count as written returns 0 |
| Model.VisibleFramed | src/dwm.c:24 | visibility and tiling depend only on tags, monitors and floating flags |
| Model.ReplaceMonitor | src/dwm.c:315-323 | relisting a monitor's own clients, each once, keeps the registry consistent |
| Model.ReplaceClient | src/dwm.c:1065-1075 | changing a client record without moving it keeps the registry consistent |
| Model.MoveClient | src/dwm.c:885-897 | detach, detachstack, repoint, attach, attachstack keeps the registry consistent |
| Model.UnlinkedOk | src/dwm.c:501-518 | the monitor a client leaves stays well formed |
| Model.LinkedOk | src/dwm.c:315-323 | the monitor a client joins stays well formed with it at both heads |
| Model.AddMonitor | src/dwm.c:1150-1156 | linking a fresh createmon() keeps the registry consistent |
| Model.RemoveEmptyMonitor | src/dwm.c:353-363 | unlinking an empty, unselected monitor keeps the registry consistent |
| Registry.Resized | src/dwm.c:799-802 | resize records applysizehints' result, saving the old geometry, exactly when it differs; nothing else changes |
| Registry.ResizeSettles | src/dwm.c:799-802 | resizing a tiled client to what a resize gave it changes nothing |
| Registry.WindowManager.constructor | src/dwm.c:1183-1190 | setup without Xinerama: one monitor covering the screen |
| Registry.WindowManager.Attach | src/dwm.c:315-318 | attach: c heads its monitor's client list; nothing else changes |
| Registry.WindowManager.AttachStack | src/dwm.c:320-323 | attachstack: c heads its monitor's focus stack; nothing else changes |
| Registry.WindowManager.Detach | src/dwm.c:501-506 | detach: c leaves its monitor's client list, the others keep their order |
| Registry.WindowManager.DetachStack | src/dwm.c:508-518 | detachstack: c leaves the stack; a selected c is replaced by the first visible client left on the stack, or none |
| Registry.WindowManager.ResizeClient | src/dwm.c:804-815 | resizeclient records the new geometry and keeps the previous one |
| Registry.WindowManager.Resize | src/dwm.c:799-802 | resize leaves the client as Resized describes |
| Registry.FirstVisibleIsFirst | src/dwm.c:515 | a scan that stops at the first visible client finds FirstVisibleFrom |
| Monitors.DirToMon | src/dwm.c:520-532 | dirtomon returns a monitor of the list |
| Monitors.DirToMonNext | src/dwm.c:522-523 | dirtomon(+1) goes to the next monitor, from the last to the first |
| Monitors.DirToMonPrev | src/dwm.c:524-530 | dirtomon(-1) goes to the previous monitor, from the first to the last |
| Monitors.OrbitForward | src/dwm.c:522-523 | stepping forward from the first monitor visits all in list order and wraps after \|mons\| steps |
| Monitors.OrbitBackward | src/dwm.c:524-530 | stepping backward from the first visits all in reverse order |
| Monitors.DirToMonInverse | src/dwm.c:520-532 | next then previous, or previous then next, returns to the same monitor |
| Monitors.DirToMonMoves | src/dwm.c:520-532 | with more than one monitor either direction leaves selmon |
| Monitors.BestFrom | src/dwm.c:787-797 | recttomon's scan keeps the first monitor of largest overlap |
| Monitors.RectToMon | src/dwm.c:787-797 | recttomon: selmon when nothing overlaps, else a monitor of maximal overlap |
| Monitors.PointerMonitor | src/dwm.c:1286-1296 | the 1x1 query at the pointer picks a monitor containing the pointer when one does |
| Monitors.RootMonitor | src/dwm.c:1286-1296 | wintomon(root): a listed monitor or selmon, selmon when the pointer cannot be read |
| Monitors.RootMonitorPointer | src/dwm.c:1286-1296 | the pointer inside a work area selects a monitor holding it; outside all of them, selmon |
| Monitors.CleanupMon | src/dwm.c:353-363 | cleanupmon unlinks the monitor from the list and frees it; nothing else changes |
| Monitors.MigrateClients | src/dwm.c:1169-1176 | the loop emptying a removed monitor: consistent afterwards, equal to Migrated, dirty exactly when it had clients |
| Monitors.MigratedShape | src/dwm.c:1169-1176 | after t turns the monitor keeps the rest of its list and the arenas their keys |
| Monitors.MigratedConsistent | src/dwm.c:1169-1176 | every turn keeps the registry consistent |
| Monitors.MigratedHead | src/dwm.c:1169-1176 | the moved clients head the first monitor's lists, last moved first |
| Monitors.MigratedOthers | src/dwm.c:1169-1176 | monitors other than the two involved are untouched |
| Monitors.MigratedClients | src/dwm.c:1169-1176 | exactly the moved clients point at the first monitor, otherwise unchanged |
| Monitors.AfterMoveConsistent | src/dwm.c:1171-1175 | one turn keeps the registry consistent |
| Monitors.MoveHeadClient | src/dwm.c:1171-1175 | one turn: the head client moves to the head of the first monitor's lists |
| Monitors.UnlinkHead | src/dwm.c:1171-1172 | `m->clients = c->next; detachstack(c)` for the head client |
| Tiling.ShowOne | src/dwm.c:1033-1037 | showhide of one client changes geometry only |
| Tiling.ShownEach | src/dwm.c:1030-1044 | showhide resizes each shown client once, to its own geometry, and leaves the others alone |
| Tiling.ShowHide | src/dwm.c:1030-1044 | showhide walks the stack as ShownFrom describes |
| Tiling.LaidOutEach | src/dwm.c:310-313 | after the layout each tiled client holds its own record resized to its request; other clients are unchanged |
| Tiling.LaidOutAsWritten | src/dwm.c:310-313 | arrangemon with tile_count as written agrees with the corrected layout below 256 tiled clients |
| Tiling.WrappedCountSkipsLayout | src/dwm.c:310-313 | with exactly 256 tiled clients under tile, the program as written leaves every client unchanged, while the corrected layout resizes all 256 |
| Tiling.LaidOutNone | src/dwm.c:310-313 | a monitor without a layout places nothing |
| Tiling.ArrangeTile | src/dwm.c:1343-1346 | tile resizes the tiled clients to vstack's or bstackhoriz's requests |
| Tiling.ArrangeMon | src/dwm.c:310-313 | arrangemon runs the monitor's layout, if it has one |
| Tiling.ConsistentArrangeable | src/dwm.c:301-308 | a consistent registry can be arranged on every monitor |
| Tiling.Arranged | src/dwm.c:301-308 | arrangement changes geometry only |
| Tiling.DoArrange | src/dwm.c:301-308 | arrange(m) is showhide and the layout of m; arrange(NULL) does every monitor |
| Tiling.ShowAll | src/dwm.c:303 | showhide of every monitor's stack in list order |
| Tiling.ArrangeAll | src/dwm.c:307 | arrangemon of every monitor in list order |
| Arrange.Resizes | src/dwm.c:799-802 | a sequence of resizes changes geometry only |
| Arrange.TiledHeight | src/dwm.c:26-27 | after resizing a tiled client, HEIGHT and WIDTH are the request's plus the borders |
| Arrange.ResizesAt | src/dwm.c:31 | in a walk without repeats the k-th client is resized once, to the k-th request |
| Arrange.ResizesUntouched | src/dwm.c:31 | a client outside the walk keeps its record |
| Arrange.TiledNoDup | src/dwm.c:31 | the tiled clients of a list without repeats hold no repeats |
| Arrange.TiledOf | src/dwm.c:230-235 | the tiled clients of a monitor number tile_count, all managed and not floating |
| Arrange.PendingStep | src/dwm.c:1363-1402 | each counter step of a layout loop issues the next request that the layout function lists |
| Arrange.PlacedResizes | src/dwm.c:1337-1403 | a layout loop resizes the tiled clients, in list order, to exactly the layout function's requests |
| Arrange.PlacedFromStart | src/dwm.c:1337-1403 | the walk from the first tiled client resizes TiledOf to the layout's requests |
| Arrange.ArrangeMonocle | src/dwm.c:1337-1341 | monocle resizes every tiled client to the work area less the border |
| Arrange.MonocleLoop | src/dwm.c:1339-1340 | monocle's loop computes Placed |
| Arrange.ArrangeVStack | src/dwm.c:1348-1373 | vstack resizes the tiled clients to VStack's requests |
| Arrange.VStackLoop | src/dwm.c:1363-1372 | vstack's loop computes Placed |
| Arrange.VStackPlace | src/dwm.c:1364-1371 | one iteration of vstack is one Step of the walk |
| Arrange.ArrangeBStack | src/dwm.c:1375-1403 | bstackhoriz resizes the tiled clients to BStack's requests |
| Arrange.BStackLoop | src/dwm.c:1392-1402 | bstackhoriz's loop computes Placed |
| Arrange.BStackPlace | src/dwm.c:1393-1401 | one iteration of bstackhoriz is one Step of the walk |
| Commands.DispatchCmd | src/dwm.c:1449-1485 | dispatchcmd maps each byte to a command with keybinding-range arguments |
| Commands.CommandByte | src/dwm.c:1449-1485 | every well-formed command other than Ignore has a byte |
| Commands.DecodeEncode | src/dwm.c:1449-1485 | decoding a command's byte gives the command back |
| Commands.EncodeDecode | src/dwm.c:1449-1485 | a byte naming a command is that command's byte: the decoding is injective |
| Commands.CommandBytes | src/dwm.c:1449-1485 | exactly the 21 bytes of the switch name a command; every other byte is ignored |
| Focusing.FocusTarget | src/dwm.c:552-553 | focus settles on c when visible, else the first visible client of selmon's stack, none exactly when there is neither |
| Focusing.Focused | src/dwm.c:551-568 | focus: the target heads its stack and becomes its monitor's selection, that monitor selmon; without one selmon loses its selection; nothing else changes |
| Focusing.FocusedOk | src/dwm.c:551-568 | focus keeps the registry consistent and only permutes a focus stack |
| Focusing.FocusStays | src/dwm.c:551-558 | without a visible argument focus stays on the selected monitor |
| Focusing.Focus | src/dwm.c:551-568 | the method computes Focused and keeps the registry valid |
| Focusing.FocusOn | src/dwm.c:556-567 | relinking and selecting the target |
| Focusing.FirstVisibleOf | src/dwm.c:553 | the stack walk of focus computes FirstVisible |
| Focusing.StackStep | src/dwm.c:590-612 | focusstack's step: the next visible client after the selection (wrapping), or the last visible one before it (wrapping), none exactly when nothing is visible |
| Focusing.StackStepInverse | src/dwm.c:590-612 | focusstack(+1) and focusstack(-1) undo each other from a visible selection |
| Focusing.FocusStackTarget | src/dwm.c:590-612 | focusstack does nothing without a selection or for a fullscreen one; its target is a visible client of the monitor |
| Focusing.FocusStackSelects | src/dwm.c:590-612 | with a visible windowed selection, focusstack finds a client and selects it on the same monitor |
| Focusing.StackStepOf | src/dwm.c:595-607 | the two walks of focusstack compute StackStep |
| Focusing.VisibleFrom | src/dwm.c:596-598 | the forward walk finds FirstVisibleFrom |
| Focusing.LastVisibleIn | src/dwm.c:600-606 | the backward walk finds LastVisible |
| Focusing.FocusStack | src/dwm.c:590-612 | the method focuses FocusStackTarget, or changes nothing |
| Focusing.FocusMon | src/dwm.c:578-588 | the method computes MonFocused and keeps the registry valid |
| Focusing.FocusMonLands | src/dwm.c:578-588 | focusmon keeps the registry consistent and with several monitors lands on the other monitor dirtomon names |
| Actions.ArrangedIn | src/dwm.c:301-308 | arrange on a state changes client geometry only |
| Actions.ArrangedOk | src/dwm.c:301-308 | rearranging keeps the registry consistent |
| Actions.Rearrange | src/dwm.c:301-308 | the method computes ArrangedIn |
| Actions.SelMonOk | src/dwm.c:1266-1271 | changing the selected monitor's settings, not its lists, keeps the registry consistent |
| Actions.ViewShows | src/dwm.c:1266-1271 | after view(x) selmon shows x, keeps its clients, and its selection is a client on x, none exactly when it has none |
| Actions.View | src/dwm.c:1266-1271 | the method computes Viewed |
| Actions.TagMoves | src/dwm.c:1052-1058 | tag(x) puts the selection on x on the same monitor; off the shown workspace it is no longer selected |
| Actions.TagSel | src/dwm.c:1052-1058 | the method computes Tagged |
| Actions.LayoutSetOk | src/dwm.c:962-965 | setlayout installs the layout on selmon only and keeps the registry consistent |
| Actions.SetLayout | src/dwm.c:962-965 | the method computes LayoutSet |
| Actions.MfactSetRange | src/dwm.c:967-971 | setmfact changes only selmon's mfact, to SetMfact's value |
| Actions.SetMfactCmd | src/dwm.c:967-971 | the method computes MfactSet |
| Actions.CycledOnce | src/dwm.c:477-491 | one cyclelayout installs the neighbouring layout and changes nothing else of the monitors |
| Actions.CycledBack | src/dwm.c:477-491 | cyclelayout(+1) then cyclelayout(-1), or the reverse, restores the monitors |
| Actions.CycleLayout | src/dwm.c:477-491 | the method computes Cycled |
| Actions.MovedOk | src/dwm.c:885-897 | sendmon's relinking keeps the registry consistent |
| Actions.MoveOn | src/dwm.c:889-894 | detach, detachstack, new monitor and tag, attach, attachstack compute Moved |
| Actions.Unlink | src/dwm.c:889-890 | detach and detachstack take c off both lists |
| Actions.Link | src/dwm.c:893-894 | attach and attachstack put c at both heads |
| Actions.SendMonMoves | src/dwm.c:885-897 | after sendmon c is on m with m's tag, heads m's list, its old monitor lost just c, no other client moved, selmon stays |
| Actions.SentMonOk | src/dwm.c:885-897 | sendmon keeps the registry consistent and the selected monitor |
| Actions.FocusedLists | src/dwm.c:551-568 | focus changes no client list and no workspace |
| Actions.SendMon | src/dwm.c:885-897 | the method computes SentMon |
| Actions.TagMonSends | src/dwm.c:1060-1063 | tagmon moves the selection to the other monitor dirtomon names, keeping the registry consistent |
| Actions.TagMon | src/dwm.c:1060-1063 | the method computes TaggedMon |
| Actions.ToHeadOk | src/dwm.c:752-757 | moving a client to the head of its own list keeps the registry consistent |
| Actions.PopPromotes | src/dwm.c:752-757 | pop(c) puts c first in its monitor's list, with the same clients, and a visible c becomes the selection of selmon |
| Actions.Pop | src/dwm.c:752-757 | the method computes Popped |
| Actions.ToHead | src/dwm.c:753-754 | detach then attach moves c to the head of its list |
| Actions.ZoomTarget | src/dwm.c:1325-1334 | zoom returns early without a layout or for a floating selection; it pops a non-floating client of the list, a different one only when the selection is the first tiled client |
| Actions.ZoomPromotes | src/dwm.c:1325-1334 | a tiled client that zoom pops becomes the first tiled client and the selection |
| Actions.Zoom | src/dwm.c:1325-1334 | the method computes Zoomed |
| Actions.ZoomTargetOf | src/dwm.c:1325-1333 | zoom's early returns and choice computed on the snapshot |
| Actions.NextTiledOf | src/dwm.c:747-750 | nexttiled's loop computes NextTiled |
| Actions.FloatFlipped | src/dwm.c:1070-1073 | the flag becomes !isfloating \|\| isfixed; monitor, tag, fullscreen flag and hints stay; a tiled result keeps its geometry |
| Actions.FloatToggledOk | src/dwm.c:1065-1075 | togglefloating keeps the registry, the monitors and selmon |
| Actions.ToggleFloatingFlips | src/dwm.c:1065-1075 | a windowed selection's flag is flipped, forced on by a fixed size, and the client stays windowed with the same hints |
| Actions.ToggledTwice | src/dwm.c:1065-1075 | toggling twice restores the flag of a selection without a fixed size |
| Actions.ToggleFloating | src/dwm.c:1065-1075 | the method computes FloatToggled |
| Actions.Flip | src/dwm.c:1070-1073 | the flag update and its resize |
| Actions.Fullscreened | src/dwm.c:939-960 | entering fullscreen saves the floating state and geometry and covers its monitor; leaving restores both; a no-op request changes nothing |
| Actions.FullscreenSetOk | src/dwm.c:939-960 | setfullscreen keeps the registry and the monitors and leaves the flag as asked |
| Actions.FullscreenRoundTrip | src/dwm.c:939-960 | entering then leaving fullscreen restores the client's floating state and geometry |
| Actions.SetFullscreen | src/dwm.c:939-960 | the method computes FullscreenSet |
| Actions.Refill | src/dwm.c:943-957 | the flag and state updates and the resizeclient call |
| Actions.ExecutedOk | src/dwm.c:1449-1485 | every command keeps the registry consistent |
| Actions.Dispatch | src/dwm.c:1449-1485 | dispatchcmd runs the decoded byte's command, as Executed describes |
| Screens.DropLastSound | src/dwm.c:1166-1181 | one turn of the removal loop keeps the registry consistent |
| Screens.DropLastMigrated | src/dwm.c:1166-1181 | the migration loop then cleanupmon is DropLast |
| Screens.DropLastHead | src/dwm.c:1169-1176 | one turn puts the last monitor's clients, reversed, in front of the first monitor's lists |
| Screens.DropLastClient | src/dwm.c:1169-1176 | one turn points exactly the last monitor's clients at the first monitor |
| Screens.DropLastSelmon | src/dwm.c:1177-1178 | selmon moves to the first monitor exactly when it was the removed one |
| Screens.GatheredEmpty | src/dwm.c:1169-1176 | no client is handed over exactly when every removed monitor is empty |
| Screens.ShrunkSound | src/dwm.c:1166-1181 | every stage of the removal loop is consistent |
| Screens.ShrunkHead | src/dwm.c:1166-1181 | the first monitor holds the removed monitors' clients in front of its own |
| Screens.ShrunkClient | src/dwm.c:1166-1181 | exactly the handed-over clients point at the first monitor |
| Screens.TakenOwners | src/dwm.c:1166-1181 | a client is handed over exactly when its monitor is removed |
| Screens.ShrunkSelmon | src/dwm.c:1177-1178 | selmon falls back to the first monitor exactly when it was removed |
| Screens.MovingGathered | src/dwm.c:1169-1170 | dirty is set exactly when some removed monitor had clients |
| Screens.RemoveTurn | src/dwm.c:1167-1180 | one turn of the removal loop gives the next stage |
| Screens.RemoveTail | src/dwm.c:1166-1181 | the removal loop gives Shrunk |
| Screens.ShrinkMonitors | src/dwm.c:1166-1181 | the shrinking branch keeps the registry valid, gives Shrunk, and is dirty exactly when a removed monitor had clients |
| Screens.Shrinking | src/dwm.c:1166-1181 | after shrinking: the first nn monitors stay in order, every client is kept, removed monitors' clients head the first monitor's lists, survivors are untouched, selmon falls back |
| Screens.AppendedMons | src/dwm.c:1150-1156 | new monitors go to the end of the list; clients and selmon stay |
| Screens.AppendedMonitor | src/dwm.c:1150-1156 | a new handle names a new empty monitor; old handles keep their monitors |
| Screens.AppendedSound | src/dwm.c:1150-1156 | appending empty monitors under fresh handles keeps the registry consistent |
| Screens.AppendMonitors | src/dwm.c:1150-1156 | the createmon loop computes Appended |
| Screens.Fit | src/dwm.c:1157-1165 | a new monitor, or one showing another geometry, takes the output's geometry; any other is left alone |
| Screens.RefittedMonitor | src/dwm.c:1157-1165 | the k-th monitor fits the k-th output once visited |
| Screens.ChangedSome | src/dwm.c:1157-1165 | some monitor is set exactly when one is new or shows another geometry |
| Screens.RefittedSound | src/dwm.c:1157-1165 | refitting keeps the registry consistent |
| Screens.RefitMonitors | src/dwm.c:1157-1165 | the refit loop computes Refitted and its dirty flag |
| Screens.GrownMonitor | src/dwm.c:1149-1165 | one monitor per output, old handles kept, each showing its output |
| Screens.GrownSound | src/dwm.c:1149-1165 | growing keeps the registry consistent with fresh handles |
| Screens.GrownChanged | src/dwm.c:1149-1165 | the growing branch is dirty exactly when a monitor is added or an old one changes geometry |
| Screens.GrowMonitors | src/dwm.c:1149-1165 | the growing branch keeps the registry valid and computes Grown |
| Screens.ScreenFit | src/dwm.c:1186-1190 | without Xinerama the first monitor takes the screen size, changed exactly when it differed |
| Screens.FitScreen | src/dwm.c:1183-1191 | the branch without Xinerama keeps the registry valid and reports a change exactly when the size differed |
| Screens.PointSelmon | src/dwm.c:1192-1195 | selmon becomes wintomon(root), falling back to the first monitor |
| Screens.Reconcile | src/dwm.c:1134-1191 | the reconciliation keeps the registry valid and computes Reconciled |
| Screens.UpdateGeom | src/dwm.c:1131-1197 | updategeom: the monitors reconciled with the outputs, selmon re-chosen when dirty, the registry valid |
| Manage.Placed | src/dwm.c:695-701 | a new window keeps its size, is moved inside its monitor's right and bottom edges when it fits, never left of or above the monitor, and unchanged when already inside |
| Manage.Home | src/dwm.c:686-693 | a transient window joins its parent's monitor and tag, any other selmon and its tag |
| Manage.Initial | src/dwm.c:673-712 | the new record: window, hints, monitor and tag as Home says, fullscreen as the window asks, floating exactly when fullscreen, a dialog, transient or fixed |
| Manage.AddedOk | src/dwm.c:715-723 | registering the new client keeps the registry consistent |
| Manage.ManagedOk | src/dwm.c:673-727 | manage keeps the registry consistent |
| Manage.ManageAdds | src/dwm.c:673-727 | manage adds exactly the new client, at the head of its monitor's list, with the monitor, tag and floating flag of its record; it is its monitor's selection when that is not selmon, and on selmon when it shows selmon's workspace |
| Manage.AddedLists | src/dwm.c:715-716 | the new client heads its monitor's client list; no other client changes |
| Manage.AddedSelects | src/dwm.c:721-726 | the new client is its monitor's selection as focus(NULL) leaves it |
| Manage.Manage | src/dwm.c:673-727 | the method hands out a fresh handle and computes Managed |

## Left out

- X11 calls are left out: XConfigureWindow, XMoveResizeWindow, XRaiseWindow, XMapWindow, restack, configure, setclientstate, sendevent, setfocus, unfocus, and the window properties setfullscreen and manage write. The model keeps the geometry these calls would be given, not the calls themselves.
- updatewmhints' urgency handling and updatewindowtype's atom queries are left out. manage receives what they find (fullscreen, dialog, never-focus) as a `Manage.WindowInfo`.
- manage's X queries (XGetTransientForHint with wintoclient, XGetWMNormalHints) are left out. The transient parent and the size hints are parameters.
- killclient only talks to the X server, so `Actions.Executed` leaves the state unchanged for it.
- The aspect-ratio step of applysizehints (src/dwm.c:275-280) is left out, because it works on floats.
- The master fraction is an integer percentage, not a float.
- Overflow of C `int` is not modelled. The layout lemmas assume X's 16-bit coordinates (`Layouts.SmallArea`), where none of the arithmetic overflows.
- The read of the command byte from the FIFO is left out: `Actions.Dispatch` takes the byte as its argument.
- Configuration loading from Xresources (load_xresources, resource_load) is left out. The compiled-in borderpx 10, bh 0 and mfact 0.6 are constants.
- The event loop, scan, setup's X initialisation, cleanup and unmanage are left out. They are outside the modelled core.
- Actions.CycleLayout: requires that the selected monitor has a layout. With a NULL layout, cyclelayout's search loop reads past the end of `layouts`.
- Actions.Zoom: requires `Actions.ZoomDefined`. zoom calls pop(NULL), and crashes, when there is no selection but a tiled client exists.
- Actions.Dispatch: requires `Actions.Runnable` for the two commands above.
- Screens.UpdateGeom: requires that Xinerama reports at least one output when it is active. With none, the shrinking loop reaches the first monitor: it hands that monitor's clients to the monitor itself without end, or frees it and then follows the freed list.
- Actions.CycledBack: states only that the monitors are restored. The registry's consistency after a cycle is `Actions.CycledOnce`.
- Actions.SendMonMoves: states where the client lands. The registry's consistency and the selected monitor are `Actions.SentMonOk`.
- Registry.WindowManager.constructor: models only setup's updategeom call without Xinerama.
- Tiling.ArrangeTile: runs the layouts with the unwrapped count of tiled clients, the corrected program. From 256 tiled clients on, the source instead resizes none (256), runs monocle (257), divides by zero in vstack or shares bstackhoriz's height by the wrapped count (258 and more). `Tiling.LaidOutAsWritten` models that behaviour.
- Arrange.ArrangeVStack: uses the unwrapped count, so it does not model vstack from 256 tiled clients on.
- Arrange.ArrangeBStack: uses the unwrapped count, so it does not model bstackhoriz from 256 tiled clients on.
- Arrange.TiledOf: its length is the unwrapped count `Model.TileCount`, not what tile_count returns from 256 tiled clients on.
- Tiling.LaidOut: lays out with the unwrapped count, as `Tiling.ArrangeTile` does.

## Findings

| source | as written | input that shows it | evidently intended | confidence | as-written member | corrected member |
|---|---|---|---|---|---|---|
| src/dwm.c:230-235 | tile_count counts into an `unsigned char`, so the count wraps modulo 256 | a monitor under tile with 256 tiled clients: tile_count returns 0 and the layouts resize none of them (`Tiling.WrappedCountSkipsLayout`); with 258, vstack divides by zero (`LayoutFacts.AsWrittenDividesByZero`) | the number of tiled clients | not executed | Tiling.LaidOutAsWritten | Model.TileCount |
