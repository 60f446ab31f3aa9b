/** The monitor registry: one monitor per RandR CRTC, each with an absolute
    origin, a size and its own master-stack layout. Mapping and unmapping a
    window are modelled as pure functions that return the updated monitor
    together with the requests sent to the X server, in order. */
module Monitors {
  import opened Basics
  import opened Gateway
  import opened Clients
  import opened Layouts

  datatype Monitor = Monitor(
    crtc: CrtcId,
    posX: i16,
    posY: i16,
    height: u16,
    width: u16,
    layout: Layout)

  /** A CRTC and its geometry, as a `GetCrtcInfo` reply or a RandR
      `CrtcChange` notification reports it. */
  datatype CrtcInfo = CrtcInfo(crtc: CrtcId, x: i16, y: i16, width: u16, height: u16)

  /** A monitor after an operation, and the requests that operation sent. */
  datatype Effect = Effect(monitor: Monitor, trace: seq<Command>)

  /** The outcome of an operation that may abort the process. */
  datatype Outcome = Done(effect: Effect) | Panic

  // ---------------------------------------------------------------------
  // Registry

  /** The monitor for one CRTC: its geometry and an empty layout over its size. */
  function MonitorFor(info: CrtcInfo): (m: Monitor)
    ensures m.crtc == info.crtc && m.posX == info.x && m.posY == info.y
    ensures m.width == info.width && m.height == info.height
    ensures m.layout == Layouts.New(info.width, info.height)
  {
    Monitor(info.crtc, info.x, info.y, info.height, info.width, Layouts.New(info.width, info.height))
  }

  /** `creat_monitors`, given the CRTC replies in order: one monitor per
      CRTC, in reply order, each with an empty layout sized to its CRTC. */
  function CreateMonitors(infos: seq<CrtcInfo>): (ms: seq<Monitor>)
    ensures |ms| == |infos|
    ensures forall i :: 0 <= i < |infos| ==>
      && ms[i].crtc == infos[i].crtc
      && ms[i].posX == infos[i].x && ms[i].posY == infos[i].y
      && ms[i].width == infos[i].width && ms[i].height == infos[i].height
      && ms[i].layout.clients == []
      && ms[i].layout.width == infos[i].width && ms[i].layout.height == infos[i].height
    decreases |infos|
  {
    if infos == [] then []
    else CreateMonitors(infos[..|infos| - 1]) + [MonitorFor(infos[|infos| - 1])]
  }

  /** Enumeration treats each CRTC on its own: enumerating two lists one
      after the other is enumerating their concatenation. */
  lemma {:induction false} CreateMonitorsAppend(a: seq<CrtcInfo>, b: seq<CrtcInfo>)
    ensures CreateMonitors(a + b) == CreateMonitors(a) + CreateMonitors(b)
    decreases |b|
  {
    if b == [] {
      assert a + b == a;
    } else {
      var b' := b[..|b| - 1];
      assert (a + b)[..|a + b| - 1] == a + b';
      assert (a + b)[|a + b| - 1] == b[|b| - 1];
      CreateMonitorsAppend(a, b');
    }
  }

  /** `handle_crtc_change`: every monitor on the changed CRTC takes the new
      origin and size; all others are untouched. CRTC ids, the number of
      monitors and every layout (including its stored viewport) stay as
      they were. */
  function HandleCrtcChange(ms: seq<Monitor>, change: CrtcInfo): (r: seq<Monitor>)
    ensures |r| == |ms|
    ensures forall i :: 0 <= i < |ms| ==> r[i].crtc == ms[i].crtc && r[i].layout == ms[i].layout
    ensures forall i :: 0 <= i < |ms| && ms[i].crtc == change.crtc ==>
      && r[i].posX == change.x && r[i].posY == change.y
      && r[i].width == change.width && r[i].height == change.height
    ensures forall i :: 0 <= i < |ms| && ms[i].crtc != change.crtc ==> r[i] == ms[i]
  {
    seq(|ms|, i requires 0 <= i < |ms| =>
      if ms[i].crtc == change.crtc
      then ms[i].(posX := change.x, posY := change.y, height := change.height, width := change.width)
      else ms[i])
  }

  /** A change for a CRTC no monitor was created for changes nothing. */
  lemma CrtcChangeUnknown(ms: seq<Monitor>, change: CrtcInfo)
    requires forall i :: 0 <= i < |ms| ==> ms[i].crtc != change.crtc
    ensures HandleCrtcChange(ms, change) == ms
  {
  }

  /** Two changes to the same CRTC: the later one wins. */
  lemma CrtcChangeLastWins(ms: seq<Monitor>, c1: CrtcInfo, c2: CrtcInfo)
    requires c1.crtc == c2.crtc
    ensures HandleCrtcChange(HandleCrtcChange(ms, c1), c2) == HandleCrtcChange(ms, c2)
  {
  }

  /** Changes to different CRTCs commute. */
  lemma CrtcChangesCommute(ms: seq<Monitor>, c1: CrtcInfo, c2: CrtcInfo)
    requires c1.crtc != c2.crtc
    ensures HandleCrtcChange(HandleCrtcChange(ms, c1), c2) == HandleCrtcChange(HandleCrtcChange(ms, c2), c1)
  {
  }

  /** Resizing a CRTC does not resize its layout: after a 1920x1080 output
      becomes 2560x1440 the layout still arranges windows in 1920x1080. */
  lemma CrtcChangeKeepsStaleViewport()
    ensures
      var ms := HandleCrtcChange(CreateMonitors([CrtcInfo(7, 0, 0, 1920, 1080)]), CrtcInfo(7, 0, 0, 2560, 1440));
      && ms[0].width == 2560 && ms[0].height == 1440
      && ms[0].layout.width == 1920 && ms[0].layout.height == 1080
  {
  }

  // ---------------------------------------------------------------------
  // Configure requests

  /** The configure request for `c` on a monitor at (ox, oy): the client's
      monitor-local position translated to absolute screen coordinates. */
  function ConfigureAt(c: Client, ox: int, oy: int): Command {
    Configure(c.window, c.posX + ox, c.posY + oy, c.width, c.height)
  }

  /** The source adds the client position to the monitor origin in `i16`;
      the sums for the clients it configures must not overflow. */
  predicate OnScreen(m: Monitor) {
    forall j :: 0 <= j < |m.layout.clients| && m.layout.clients[j].reconfigure ==>
      IsI16(m.layout.clients[j].posX + m.posX) && IsI16(m.layout.clients[j].posY + m.posY)
  }

  /** One configure request per client whose flag is raised, in list order;
      clients with the flag lowered produce nothing. */
  function ConfigureTrace(cs: seq<Client>, ox: int, oy: int): (t: seq<Command>)
    ensures |t| <= |cs|
    ensures (forall j :: 0 <= j < |cs| ==> cs[j].reconfigure) ==>
      |t| == |cs| && forall k :: 0 <= k < |cs| ==> t[k] == ConfigureAt(cs[k], ox, oy)
    ensures (forall j :: 0 <= j < |cs| ==> !cs[j].reconfigure) ==> t == []
    decreases |cs|
  {
    if cs == [] then []
    else (if cs[0].reconfigure then [ConfigureAt(cs[0], ox, oy)] else []) + ConfigureTrace(cs[1..], ox, oy)
  }

  /** Every request in the trace configures some raised-flag client. */
  lemma {:induction false} ConfigureTraceSound(cs: seq<Client>, ox: int, oy: int, k: nat)
    requires k < |ConfigureTrace(cs, ox, oy)|
    ensures exists j :: 0 <= j < |cs| && cs[j].reconfigure && ConfigureTrace(cs, ox, oy)[k] == ConfigureAt(cs[j], ox, oy)
    decreases |cs|
  {
    var head := if cs[0].reconfigure then [ConfigureAt(cs[0], ox, oy)] else [];
    if k < |head| {
      assert ConfigureTrace(cs, ox, oy)[k] == ConfigureAt(cs[0], ox, oy);
    } else {
      ConfigureTraceSound(cs[1..], ox, oy, k - |head|);
      var j :| 0 <= j < |cs[1..]| && cs[1..][j].reconfigure
        && ConfigureTrace(cs[1..], ox, oy)[k - |head|] == ConfigureAt(cs[1..][j], ox, oy);
      assert cs[j + 1] == cs[1..][j];
    }
  }

  /** Every raised-flag client is configured by some request in the trace. */
  lemma {:induction false} ConfigureTraceComplete(cs: seq<Client>, ox: int, oy: int, j: nat)
    requires j < |cs| && cs[j].reconfigure
    ensures ConfigureAt(cs[j], ox, oy) in ConfigureTrace(cs, ox, oy)
    decreases |cs|
  {
    if j > 0 {
      ConfigureTraceComplete(cs[1..], ox, oy, j - 1);
      assert cs[1..][j - 1] == cs[j];
    }
  }

  /** The trace of a concatenation is the concatenation of the traces, so
      requests follow list order. */
  lemma {:induction false} ConfigureTraceAppend(a: seq<Client>, b: seq<Client>, ox: int, oy: int)
    ensures ConfigureTrace(a + b, ox, oy) == ConfigureTrace(a, ox, oy) + ConfigureTrace(b, ox, oy)
    decreases |a|
  {
    if a == [] {
      assert a + b == b;
    } else {
      assert (a + b)[1..] == a[1..] + b;
      ConfigureTraceAppend(a[1..], b, ox, oy);
    }
  }

  /** `reconfigure_clients`: the configure requests for the monitor's
      raised-flag clients, in absolute coordinates. It reads the monitor and
      changes nothing, flags included. */
  function ReconfigureClients(m: Monitor): (t: seq<Command>)
    requires OnScreen(m)
    ensures |t| <= |m.layout.clients|
    ensures Arranged(m.layout) ==>
      |t| == |m.layout.clients| &&
      forall k :: 0 <= k < |t| ==> t[k] == ConfigureAt(m.layout.clients[k], m.posX, m.posY)
  {
    ConfigureTrace(m.layout.clients, m.posX, m.posY)
  }

  // ---------------------------------------------------------------------
  // Mapping

  /** The monitor once `c` is in its layout. */
  function WithClient(m: Monitor, c: Client): Monitor
    requires |m.layout.clients| < MaxClients
  {
    m.(layout := PositionNewClient(m.layout, c))
  }

  /** `map_client`: map the window and focus it, insert it into the layout,
      then configure every raised-flag client. The first two requests are
      `Map` and `Focus` of the new window, the rest are one `Configure` per
      client in list order, and the new window becomes the focus candidate. */
  function MapClient(m: Monitor, c: Client): (s: Effect)
    requires |m.layout.clients| < MaxClients
    requires OnScreen(WithClient(m, c))
    ensures s.monitor == m.(layout := s.monitor.layout)
    ensures Windows(s.monitor.layout.clients) == Windows(m.layout.clients) + [c.window]
    ensures |s.trace| == |m.layout.clients| + 3
    ensures s.trace[0] == Map(c.window) && s.trace[1] == Focus(c.window)
    ensures forall k :: 2 <= k < |s.trace| ==>
      s.trace[k] == ConfigureAt(s.monitor.layout.clients[k - 2], m.posX, m.posY)
    ensures ClientToFocus(s.monitor.layout).window == c.window
  {
    var m' := WithClient(m, c);
    InsertedIsFocus(m.layout, c);
    var t := ReconfigureClients(m');
    assert |m'.layout.clients| == |m.layout.clients| + 1 by {
      assert |Windows(m'.layout.clients)| == |Windows(m.layout.clients) + [c.window]|;
    }
    assert |t| == |m'.layout.clients|;
    var trace := [Map(c.window), Focus(c.window)] + t;
    assert forall k :: 2 <= k < |trace| ==> trace[k] == t[k - 2];
    Effect(m', trace)
  }

  /** The configure requests of a mapping place every client in its
      master-stack slot, shifted by the monitor origin. */
  lemma MapClientGeometry(m: Monitor, c: Client, k: nat)
    requires |m.layout.clients| < MaxClients
    requires OnScreen(WithClient(m, c))
    requires k <= |m.layout.clients|
    ensures
      var n := |m.layout.clients| + 1;
      var slot := SlotRect(m.layout.width, m.layout.height, n, k);
      var cmd := MapClient(m, c).trace[k + 2];
      && cmd.Configure?
      && cmd.window == (Windows(m.layout.clients) + [c.window])[k]
      && cmd.x == slot.x + m.posX && cmd.y == slot.y + m.posY
      && cmd.width == slot.w && cmd.height == slot.h
  {
    var s := MapClient(m, c);
    var l := s.monitor.layout;
    assert Geometry(l.clients[k]) == SlotRect(l.width, l.height, |l.clients|, k);
    assert Windows(l.clients)[k] == l.clients[k].window;
    if k < |m.layout.clients| {
      assert (Windows(m.layout.clients) + [c.window])[k] == m.layout.clients[k].window;
    }
  }

  /** A window mapped on an empty monitor at origin (1920, 0) is configured
      at absolute (1920, 0), full size. */
  lemma ScenarioSecondMonitor()
    ensures
      var m := MonitorFor(CrtcInfo(2, 1920, 0, 1920, 1080));
      MapClient(m, Clients.New(9, 0, 0, 0, 0)).trace
        == [Map(9), Focus(9), Configure(9, 1920, 0, 1920, 1080)]
  {
    var m := MonitorFor(CrtcInfo(2, 1920, 0, 1920, 1080));
    var c := Clients.New(9, 0, 0, 0, 0);
    var s := MapClient(m, c);
    MapClientGeometry(m, c, 0);
    assert SlotRect(1920, 1080, 1, 0) == Rect(0, 0, 1920, 1080);
    assert |s.trace| == 3;
    assert s.trace[2] == Configure(9, 1920, 0, 1920, 1080);
    assert s.trace == [s.trace[0], s.trace[1], s.trace[2]];
  }

  // ---------------------------------------------------------------------
  // Unmapping

  /** The linear search of `unmap_window`: the index of the first client
      showing window `w`, if any. */
  function FindClient(cs: seq<Client>, w: WindowId): (r: Option<nat>)
    ensures r.Some? ==> r.value < |cs| && cs[r.value].window == w
    ensures r.Some? ==> forall j :: 0 <= j < r.value ==> cs[j].window != w
    ensures r.None? <==> forall j :: 0 <= j < |cs| ==> cs[j].window != w
    decreases |cs|
  {
    if cs == [] then None
    else if cs[0].window == w then Some(0)
    else
      match FindClient(cs[1..], w)
      case None => None
      case Some(k) => Some(k + 1)
  }

  /** The monitor once the first client showing `w` is removed from its
      layout (with a relayout); unchanged, without relayout, when no client
      shows `w`. */
  function Unmapped(m: Monitor, w: WindowId): (r: Monitor)
    requires |m.layout.clients| <= MaxClients + 1
    ensures r == m.(layout := r.layout)
    ensures w !in Windows(m.layout.clients) ==> r == m
    ensures Arranged(m.layout) ==> Arranged(r.layout)
    ensures w in Windows(m.layout.clients) ==>
      var k := FindClient(m.layout.clients, w).value;
      && Windows(r.layout.clients) == Windows(m.layout.clients)[..k] + Windows(m.layout.clients)[k + 1..]
      && w !in Windows(m.layout.clients)[..k]
      && Arranged(r.layout)
  {
    match FindClient(m.layout.clients, w)
    case Some(k) => m.(layout := RemoveClient(m.layout, k))
    case None =>
      assert w !in Windows(m.layout.clients);
      m
  }

  /** Unmapping a window just mapped on a monitor that did not show it
      restores the monitor's window list, and restores an arranged monitor
      exactly. */
  lemma MapUnmapRoundTrip(m: Monitor, c: Client)
    requires |m.layout.clients| < MaxClients
    requires OnScreen(WithClient(m, c))
    requires c.window !in Windows(m.layout.clients)
    ensures Windows(Unmapped(MapClient(m, c).monitor, c.window).layout.clients) == Windows(m.layout.clients)
    ensures Arranged(m.layout) ==> Unmapped(MapClient(m, c).monitor, c.window) == m
  {
    var m1 := MapClient(m, c).monitor;
    var n := |m.layout.clients|;
    assert Windows(m1.layout.clients) == Windows(m.layout.clients) + [c.window];
    assert Windows(m1.layout.clients)[n] == c.window;
    assert c.window in Windows(m1.layout.clients);
    assert FindClient(m1.layout.clients, c.window).value == n;
    InsertRemoveRoundTrip(m.layout, c);
  }

  /** Unmapping empties the layout exactly when it was empty or held only
      a client showing `w`. */
  lemma UnmappedEmpty(m: Monitor, w: WindowId)
    requires |m.layout.clients| <= MaxClients + 1
    ensures Unmapped(m, w).layout.clients == [] <==>
      m.layout.clients == [] || (|m.layout.clients| == 1 && m.layout.clients[0].window == w)
  {
    var ws := Windows(m.layout.clients);
    if w in ws {
      assert |Windows(Unmapped(m, w).layout.clients)| == |ws| - 1;
    } else if |m.layout.clients| == 1 {
      assert ws[0] == m.layout.clients[0].window;
    }
  }

  /** `unmap_window` as written: remove the window, then focus the last
      client unconditionally and configure the raised-flag clients. Focusing
      the last client of an empty layout aborts the process. */
  function UnmapWindow(m: Monitor, w: WindowId): (r: Outcome)
    requires |m.layout.clients| <= MaxClients + 1
    requires OnScreen(Unmapped(m, w))
    ensures r.Panic? <==> m.layout.clients == [] || (|m.layout.clients| == 1 && m.layout.clients[0].window == w)
    ensures r.Done? ==> r.effect.monitor == Unmapped(m, w)
    ensures r.Done? ==>
      var survivors := r.effect.monitor.layout.clients;
      |survivors| > 0 && |r.effect.trace| > 0 && r.effect.trace[0] == Focus(survivors[|survivors| - 1].window)
    ensures r.Done? && Arranged(m.layout) ==>
      var survivors := r.effect.monitor.layout.clients;
      && |r.effect.trace| == |survivors| + 1
      && forall k :: 1 <= k < |r.effect.trace| ==> r.effect.trace[k] == ConfigureAt(survivors[k - 1], m.posX, m.posY)
  {
    var m' := Unmapped(m, w);
    UnmappedEmpty(m, w);
    if m'.layout.clients == [] then Panic
    else
      var t := ReconfigureClients(m');
      var trace := [Focus(ClientToFocus(m'.layout).window)] + t;
      assert forall k :: 1 <= k < |trace| ==> trace[k] == t[k - 1];
      Done(Effect(m', trace))
  }

  /** Unmapping the only window of a monitor aborts the process. */
  lemma UnmapOnlyWindowPanics()
    ensures
      var m := MapClient(MonitorFor(CrtcInfo(1, 0, 0, 1920, 1080)), Clients.New(5, 0, 0, 0, 0)).monitor;
      UnmapWindow(m, 5) == Panic
  {
    var m := MapClient(MonitorFor(CrtcInfo(1, 0, 0, 1920, 1080)), Clients.New(5, 0, 0, 0, 0)).monitor;
    assert Windows(m.layout.clients) == [5];
    assert FindClient(m.layout.clients, 5) == Some(0);
  }

  /** `unmap_window` with the focus request skipped when no client is left:
      it never aborts, sends nothing at all once the layout is empty, and
      otherwise focuses the newest survivor before configuring. */
  function UnmapWindowChecked(m: Monitor, w: WindowId): (s: Effect)
    requires |m.layout.clients| <= MaxClients + 1
    requires OnScreen(Unmapped(m, w))
    ensures s.monitor == Unmapped(m, w)
    ensures s.monitor.layout.clients == [] ==> s.trace == []
    ensures s.monitor.layout.clients != [] ==>
      |s.trace| > 0 && s.trace[0] == Focus(ClientToFocus(s.monitor.layout).window)
    ensures s.monitor.layout.clients != [] && Arranged(m.layout) ==>
      && |s.trace| == |s.monitor.layout.clients| + 1
      && forall k :: 1 <= k < |s.trace| ==>
           s.trace[k] == ConfigureAt(s.monitor.layout.clients[k - 1], m.posX, m.posY)
  {
    var m' := Unmapped(m, w);
    var t := ReconfigureClients(m');
    if m'.layout.clients == [] then
      Effect(m', t)
    else
      var trace := [Focus(ClientToFocus(m'.layout).window)] + t;
      assert forall k :: 1 <= k < |trace| ==> trace[k] == t[k - 1];
      Effect(m', trace)
  }

  /** Where the code as written does not abort, the corrected unmapping
      does exactly the same. */
  lemma UnmapWindowCheckedAgrees(m: Monitor, w: WindowId)
    requires |m.layout.clients| <= MaxClients + 1
    requires OnScreen(Unmapped(m, w))
    ensures UnmapWindow(m, w).Done? ==> UnmapWindow(m, w).effect == UnmapWindowChecked(m, w)
    ensures UnmapWindow(m, w).Panic? ==> UnmapWindowChecked(m, w).trace == []
  {
  }
}
