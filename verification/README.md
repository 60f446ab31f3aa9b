# dswm window layout, modelled in Dafny

This project models the layout core of dswm, a small tiling window manager for X11 written in Rust. It covers three parts:

- **Client** (`src/client.rs`): one managed window. It holds an X window id, a monitor-local position (`i16`), a size (`u16`) and a `reconfigure` flag. The setters overwrite the fields and raise the flag. Nothing in the code ever lowers the flag.
- **Layout** (`src/layout.rs`): a master-stack layout over one viewport. The clients are held oldest first. After every insertion or removal the layout is recomputed:
  - a sole client fills the viewport;
  - otherwise the newest client is the master, in the left half at full height;
  - the other clients are stacked in the right half, oldest at the top, each `height / (n - 1)` rows tall.
  
  The newest client is also the one to focus.
- **Monitor** (`src/monitor.rs`): one monitor per RandR CRTC. Each has an absolute origin, a size and its own layout. Monitors are created from the CRTC list and updated in place by CRTC-change notifications. Windows are mapped and unmapped on a monitor, and configure requests are sent in absolute screen coordinates.

Everything is a pure function over immutable datatypes. The requests the Rust code sends to the X server become an ordered trace of abstract commands (`Gateway.Command`):

- `Map(w)`
- `Focus(w)`
- `Configure(w, x, y, width, height)`

A Rust panic on the modelled paths is either a precondition or, for unmapping, a `Panic` outcome.

Files:

- `basics.dfy`: fixed-width ranges, the truncating `as i16` cast, `Option`, rectangles.
- `gateway.dfy`: window and CRTC ids, the command trace.
- `client.dfy`: `Clients`.
- `layout.dfy`: `Layouts`, the master-stack geometry and its proofs.
- `monitor.dfy`: `Monitors`.

## Behaviours worth knowing

Three behaviours of the code shape the model:

- **Dirty flag.** The flag is never cleared after configuring. `reconfigure_clients` therefore re-sends a `Configure` for every client that was ever laid out.
- **Bad remove index.** A remove index out of range panics in `Vec::remove`. The model states it as a precondition.
- **Empty layout on unmap.** `unmap_window` does not skip the focus request when the layout is empty. See Findings.

## Model

| member | source | states |
|---|---|---|
| Basics.CastI16 | src/layout.rs:48 | the `as i16` cast is the identity on values in `i16` range and otherwise agrees with the value modulo 2^16 |
| Clients.New | src/client.rs:14-23 | a new client has the given window and the rectangle (posX, posY, width, height), even though the size arguments come height first; its flag starts lowered |
| Clients.SetPos | src/client.rs:25-29 | the position becomes exactly the arguments and the flag is raised; size and window are unchanged |
| Clients.SetSize | src/client.rs:31-35 | the size becomes exactly the arguments and the flag is raised; position and window are unchanged |
| Clients.SetPosSetSizeCommute | src/client.rs:25-35 | moving then resizing equals resizing then moving, and the resulting rectangle is exactly the requested one, with no validation |
| Clients.FlagMonotone | src/client.rs:14-35 | no sequence of setter calls lowers the flag, any non-empty one raises it, and none changes the window |
| Layouts.New | src/layout.rs:14-20 | a new layout has no clients and stores the viewport (width, height) |
| Layouts.Reorder | src/layout.rs:38-57 | relayout keeps the viewport, the number of clients and each position's window, and puts every client in its slot with the flag raised; with n = 1 the slot is (0,0,W,H), with n > 1 the last client's slot is (0,0,W/2,H) and client i's is (W/2, i*(H/(n-1)) cast to i16, W/2, H/(n-1)) |
| Layouts.ReorderEmptyNoop | src/layout.rs:38-57 | relayout of an empty layout changes nothing |
| Layouts.ArrangedIsFixedPoint | src/layout.rs:38-57 | relayout of a layout whose clients are already in their slots with raised flags returns it unchanged |
| Layouts.ReorderIdempotent | src/layout.rs:38-57 | relayout twice equals relayout once |
| Layouts.PositionNewClient | src/layout.rs:22-26 | insertion appends the new window last and keeps the earlier windows in order; the result is relaid out |
| Layouts.RemoveClient | src/layout.rs:28-32 | for an index in range, removal deletes exactly that position's window and keeps the survivors in order; the result is relaid out |
| Layouts.InsertRemoveRoundTrip | src/layout.rs:22-32 | removing the client just inserted restores the window list, and restores a laid-out layout exactly |
| Layouts.ClientToFocus | src/layout.rs:34-36 | on a non-empty layout the focus candidate is the last client |
| Layouts.InsertedIsFocus | src/layout.rs:22-36 | after an insertion the focus candidate is the inserted window |
| Layouts.RemoveFocus | src/layout.rs:28-36 | removing a non-last client keeps the focus candidate; removing the last one hands it to the previous-newest client |
| Layouts.MasterIsFocus | src/layout.rs:34-43 | in a laid-out layout the focus candidate occupies the master rectangle (0,0,W/2,H), or (0,0,W,H) when it is alone |
| Layouts.StackCoverage | src/layout.rs:45-50 | in a laid-out layout of n > 1 clients with H <= 32767, the lowest stack client's bottom edge is at row (n-1)*floor(H/(n-1)), never below H, and the rows left uncovered under it number H mod (n-1), fewer than n-1 |
| Layouts.SlotRectExact | src/layout.rs:41-56 | with H <= 32767 no cast wraps, and the slots are exactly the integer rectangles of the master-stack rule |
| Layouts.SlotInViewport | src/layout.rs:41-56 | with H <= 32767 every slot lies inside the viewport |
| Layouts.SlotsDisjoint | src/layout.rs:41-56 | with H <= 32767 any two distinct slots share no pixel |
| Layouts.ArrangedTiles | src/layout.rs:38-57 | after any relayout with H <= 32767 the clients' rectangles are pairwise non-overlapping and inside the viewport |
| Layouts.ScenarioInsertThree | src/layout.rs:22-57 | on 1920x1080, inserting A, B, C gives C = (0,0,960,1080), A = (960,0,960,540), B = (960,540,960,540); removing C then makes B the focus candidate |
| Layouts.ScenarioRemoveMiddle | src/layout.rs:28-57 | from A, B, C removing B leaves C at (0,0,960,1080), A at (960,0,960,1080), and C as the focus candidate |
| Monitors.MonitorFor | src/monitor.rs:35-42 | the monitor for a CRTC has its id, origin and size, and an empty layout over its size |
| Monitors.CreateMonitors | src/monitor.rs:18-46 | one monitor per CRTC, in reply order, each with that CRTC's id, origin and size and an empty layout sized to the CRTC |
| Monitors.CreateMonitorsAppend | src/monitor.rs:27-43 | each CRTC is enumerated independently: enumerating a concatenation equals concatenating the enumerations |
| Monitors.HandleCrtcChange | src/monitor.rs:48-57 | every monitor on the changed CRTC takes the new origin and size; all other monitors are unchanged; the count, the CRTC ids and every layout, viewport included, are kept |
| Monitors.CrtcChangeUnknown | src/monitor.rs:48-57 | a change for a CRTC with no monitor leaves the whole registry unchanged |
| Monitors.CrtcChangeLastWins | src/monitor.rs:48-57 | of two changes to one CRTC, the later one wins |
| Monitors.CrtcChangesCommute | src/monitor.rs:48-57 | changes to different CRTCs commute |
| Monitors.CrtcChangeKeepsStaleViewport | src/monitor.rs:48-57 | after a 1920x1080 CRTC grows to 2560x1440 its layout still lays windows out in 1920x1080 |
| Monitors.ConfigureTrace | src/monitor.rs:85-94 | the trace is no longer than the client list; when every flag is raised it holds one configure per client, in list order, at absolute coordinates; when none is raised it is empty |
| Monitors.ConfigureTraceSound | src/monitor.rs:85-94 | every request in the trace configures some client whose flag is raised |
| Monitors.ConfigureTraceComplete | src/monitor.rs:85-94 | every client whose flag is raised is configured by a request in the trace |
| Monitors.ConfigureTraceAppend | src/monitor.rs:85-94 | the trace of a concatenation is the concatenation of the traces, so requests follow list order |
| Monitors.ReconfigureClients | src/monitor.rs:85-94 | when origin plus position fits in i16 for every client with a raised flag, it sends at most one request per client, and for a laid-out layout exactly one configure per client in list order, translated by the monitor origin; it changes no state |
| Monitors.MapClient | src/monitor.rs:59-69 | mapping sends Map(w) then Focus(w) and then one configure per client in list order; it changes only the layout, into which w is appended as the last client and focus candidate |
| Monitors.MapClientGeometry | src/monitor.rs:59-69 | the k-th configure of a mapping places the k-th window at its master-stack slot shifted by the monitor origin |
| Monitors.ScenarioSecondMonitor | src/monitor.rs:85-94 | a window mapped on an empty 1920x1080 monitor at origin (1920,0) is configured at absolute (1920,0), size 1920x1080 |
| Monitors.FindClient | src/monitor.rs:72-77 | the search returns the first index whose client shows w, and nothing exactly when no client shows w |
| Monitors.Unmapped | src/monitor.rs:72-77 | unmapping removes the first client showing w and keeps the rest in order; without a match the monitor is unchanged; nothing but the layout changes |
| Monitors.MapUnmapRoundTrip | src/monitor.rs:59-77 | unmapping a window just mapped on a monitor that did not show it restores the window list, and restores a laid-out monitor exactly |
| Monitors.UnmappedEmpty | src/monitor.rs:72-77 | the search-and-remove leaves no client exactly when the monitor had none, or had one client and it showed w |
| Monitors.UnmapWindow | src/monitor.rs:70-83 | as written: the operation panics exactly when the monitor had no client, or had one client and it showed w; otherwise the monitor becomes the unmapped one, the trace starts with Focus of the newest survivor and, for a laid-out layout, continues with exactly one configure per survivor in list order at absolute coordinates |
| Monitors.UnmapOnlyWindowPanics | src/monitor.rs:79-81 | unmapping the only window of a monitor panics |
| Monitors.UnmapWindowChecked | src/monitor.rs:79-81 | corrected: never panics, sends nothing once the layout is empty, and otherwise sends Focus of the newest survivor followed by one configure per client |
| Monitors.UnmapWindowCheckedAgrees | src/monitor.rs:70-83 | wherever the code as written does not panic, the corrected unmapping behaves identically |

## Left out

- `src/xmanager.rs` is not part of this model. It holds the XCB plumbing: connection setup, atom interning, the EWMH check window, event masks and the Xkb query. `map_window`, `focus_window` and `set_window_configuration` appear only as the trace entries `Map`, `Focus` and `Configure`.
- `Map(w)` stands for both requests that `map_window` sends: the event-mask change and `MapWindow`.
- `Focus(w)` stands for all three steps of `focus_window`: `SetInputFocus`, `_NET_ACTIVE_WINDOW` and the `WM_TAKE_FOCUS` message.
- X protocol errors and the process exit on them are not modelled.
- `src/main.rs` is not part of this model: the blocking event loop, process spawning, the Xinerama query and logging. Its map-request handler does not go through `Monitor` or `Layout` at all.
- `src/config.rs` is not part of this model. It reads a TOML file through an external crate.
- `creat_monitors` performs its RandR queries over the connection. `Monitors.CreateMonitors` takes the replies as a list of `CrtcInfo`. The query failures that `unwrap` turns into panics are not modelled.
- Layouts.Reorder: the client count is limited to 65536, because the relayout casts `n - 1` to `u16`. More clients would make the cast truncate, or divide by zero.
- Layouts.PositionNewClient: has the same 65536-client limit as `Reorder`.
- Layouts.RemoveClient: has the same 65536-client limit as `Reorder`. An index out of range, which panics in the source, is excluded by a precondition.
- Layouts.ClientToFocus: an empty layout, which panics in the source, is excluded by a precondition.
- Layouts.ArrangedTiles: proved only for viewports at most 32767 rows tall. Taller viewports make `(i * stack) as i16` wrap. The model computes that wrap but proves nothing about its geometry.
- Layouts.SlotsDisjoint: same 32767-row restriction as `ArrangedTiles`.
- Layouts.SlotInViewport: same 32767-row restriction as `ArrangedTiles`.
- Layouts.SlotRectExact: same 32767-row restriction as `ArrangedTiles`.
- Monitors.ReconfigureClients: requires position plus monitor origin to fit in `i16` for every client whose flag is raised, since only those are configured. The Rust addition panics on overflow in a debug build and wraps in a release build, and neither is modelled. Its own contract bounds the trace. Its exact content is stated by `ConfigureTrace` and its three lemmas.
- Monitors.MapClient: has the same `i16` precondition as `ReconfigureClients`.
- Monitors.UnmapWindow: has the same `i16` precondition as `ReconfigureClients`.
- Monitors.UnmapWindowChecked: has the same `i16` precondition as `ReconfigureClients`.

## Findings

| source | as written | input that shows it | evidently intended | confidence | as-written member | corrected member |
|---|---|---|---|---|---|---|
| src/monitor.rs:79 | after removing the client, `unmap_window` focuses `get_client_to_focus()` unconditionally; that call unwraps the last client of the layout | a monitor whose only client shows window 5; unmap window 5: the layout becomes empty and `unwrap` panics, ending the window manager | skip the focus request when no client is left | high; not executed | Monitors.UnmapWindow, Monitors.UnmapOnlyWindowPanics | Monitors.UnmapWindowChecked |
