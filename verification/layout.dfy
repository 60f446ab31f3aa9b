/** The master-stack layout of one monitor: a viewport and an ordered list
    of clients, oldest first. Every insertion and removal is followed by a
    full relayout: the newest client is the master and takes the left half
    at full height; the others are stacked in the right half, oldest at the
    top, each `height / (n - 1)` rows tall. The newest client is also the
    one to focus. */
module Layouts {
  import opened Basics
  import opened Gateway
  import opened Clients

  datatype Layout = Layout(width: u16, height: u16, clients: seq<Client>)

  /** The relayout casts `n - 1` to `u16`; with more clients than this the
      cast truncates and the stack height is computed from a wrong count. */
  const MaxClients: nat := 0x1_0000

  /** The window identities of `cs`, in order. */
  function Windows(cs: seq<Client>): (ws: seq<WindowId>)
    ensures |ws| == |cs|
    ensures forall i :: 0 <= i < |cs| ==> ws[i] == cs[i].window
  {
    seq(|cs|, i requires 0 <= i < |cs| => cs[i].window)
  }

  /** `Layout::new`: an empty client list over the given viewport. */
  function New(width: u16, height: u16): (l: Layout)
    ensures l.clients == []
    ensures l.width == width && l.height == height
  {
    Layout(width, height, [])
  }

  /** The height of each of `k` stack rows sharing `height` rows: the
      source's `u16` division. */
  function StackHeight(height: u16, k: nat): (s: u16)
    requires k > 0
    ensures s <= height
  {
    DivBound(height, k);
    height / k
  }

  /** Reference geometry: the rectangle of position `i` among `n` clients
      over a `width` by `height` viewport, as the relayout assigns it
      (stack offsets pass through the source's `as i16` cast). */
  function SlotRect(width: u16, height: u16, n: nat, i: nat): Rect
    requires i < n <= MaxClients
  {
    if n == 1 then Rect(0, 0, width, height)
    else if i == n - 1 then Rect(0, 0, width / 2, height)
    else
      var stack := StackHeight(height, n - 1);
      Rect(CastI16(width / 2), CastI16(i * stack), width / 2, stack)
  }

  /** Every client sits in its slot and is marked for reconfiguration. */
  predicate Arranged(l: Layout) {
    && |l.clients| <= MaxClients
    && forall i :: 0 <= i < |l.clients| ==>
         Geometry(l.clients[i]) == SlotRect(l.width, l.height, |l.clients|, i) && l.clients[i].reconfigure
  }

  /** One client moved into slot `i` of `n`, with the setter calls the
      relayout makes for that position. */
  function Place(c: Client, width: u16, height: u16, n: nat, i: nat): (r: Client)
    requires i < n <= MaxClients
    ensures Geometry(r) == SlotRect(width, height, n, i)
    ensures r.reconfigure && r.window == c.window
  {
    if n == 1 then SetPos(SetSize(c, width, height), 0, 0)
    else if i == n - 1 then SetPos(SetSize(c, width / 2, height), 0, 0)
    else
      var stack := StackHeight(height, n - 1);
      SetSize(SetPos(c, CastI16(width / 2), CastI16(i * stack)), width / 2, stack)
  }

  /** `reorder_clients`: the master-stack relayout. It keeps the viewport,
      the number of clients and each position's window, and puts every
      client in its slot. */
  function Reorder(l: Layout): (r: Layout)
    requires |l.clients| <= MaxClients
    ensures r.width == l.width && r.height == l.height
    ensures Windows(r.clients) == Windows(l.clients)
    ensures Arranged(r)
  {
    var n := |l.clients|;
    l.(clients := seq(n, i requires 0 <= i < n => Place(l.clients[i], l.width, l.height, n, i)))
  }

  /** `position_new_client`: append the client and relayout. The new client
      is last; the earlier ones keep their identities and order. */
  function PositionNewClient(l: Layout, c: Client): (r: Layout)
    requires |l.clients| < MaxClients
    ensures r.width == l.width && r.height == l.height
    ensures Windows(r.clients) == Windows(l.clients) + [c.window]
    ensures Arranged(r)
  {
    Reorder(l.(clients := l.clients + [c]))
  }

  /** `remove_client`: delete the client at `index` (the source panics on
      an index out of range) and relayout. The survivors keep their
      identities and relative order. */
  function RemoveClient(l: Layout, index: nat): (r: Layout)
    requires index < |l.clients| <= MaxClients + 1
    ensures r.width == l.width && r.height == l.height
    ensures Windows(r.clients) == Windows(l.clients)[..index] + Windows(l.clients)[index + 1..]
    ensures Arranged(r)
  {
    var cs := l.clients[..index] + l.clients[index + 1..];
    assert Windows(cs) == Windows(l.clients)[..index] + Windows(l.clients)[index + 1..];
    Reorder(l.(clients := cs))
  }

  /** `get_client_to_focus`: the last client (the source panics when the
      list is empty). */
  function ClientToFocus(l: Layout): (c: Client)
    requires |l.clients| > 0
    ensures c in l.clients
    ensures Windows(l.clients)[|l.clients| - 1] == c.window
  {
    l.clients[|l.clients| - 1]
  }

  // ---------------------------------------------------------------------
  // Arithmetic of the stack

  lemma MulMonotone(a: nat, b: nat, q: nat)
    requires a <= b
    ensures a * q <= b * q
  {
  }

  lemma DivBound(h: nat, k: nat)
    requires k > 0
    ensures h / k <= h
  {
    assert h == k * (h / k) + h % k;
    MulMonotone(1, k, h / k);
  }

  /** Row `i` of a stack of rows `s` tall ends at or above row `j > i`. */
  lemma RowsOrdered(i: nat, j: nat, s: nat)
    requires i < j
    ensures i * s + s <= j * s
  {
    assert i * s + s == (i + 1) * s;
    MulMonotone(i + 1, j, s);
  }

  /** Stack row `i` of `k` rows of height `height / k` ends inside the viewport. */
  lemma StackRowFits(height: nat, k: nat, i: nat)
    requires i < k
    ensures 0 <= i * (height / k) && i * (height / k) + height / k <= height
  {
    var s := height / k;
    assert i * s + s == (i + 1) * s;
    MulMonotone(i + 1, k, s);
    assert k * s <= height;
  }

  /** Floor division leaves a remainder below the divisor. */
  lemma FloorDivisionGap(height: u16, k: nat)
    requires 0 < k
    ensures k * (height / k) <= height
    ensures height - k * (height / k) == height % k < k
  {
    assert height == k * (height / k) + height % k;
  }

  // ---------------------------------------------------------------------
  // Geometry of the slots

  /** With a viewport at most 32767 rows tall no cast wraps: the slots are
      exactly the integer rectangles of the master-stack rule. */
  lemma SlotRectExact(width: u16, height: u16, n: nat, i: nat)
    requires i < n <= MaxClients && height < 0x8000
    ensures n == 1 ==> SlotRect(width, height, n, i) == Rect(0, 0, width, height)
    ensures n > 1 && i == n - 1 ==> SlotRect(width, height, n, i) == Rect(0, 0, width / 2, height)
    ensures n > 1 && i < n - 1 ==>
      SlotRect(width, height, n, i) == Rect(width / 2, i * (height / (n - 1)), width / 2, height / (n - 1))
  {
    if n > 1 && i < n - 1 {
      StackRowFits(height, n - 1, i);
    }
  }

  /** Every slot lies inside the viewport. */
  lemma SlotInViewport(width: u16, height: u16, n: nat, i: nat)
    requires i < n <= MaxClients && height < 0x8000
    ensures InViewport(SlotRect(width, height, n, i), width, height)
  {
    SlotRectExact(width, height, n, i);
    if n > 1 && i < n - 1 {
      StackRowFits(height, n - 1, i);
    }
  }

  /** Distinct slots share no pixel. */
  lemma SlotsDisjoint(width: u16, height: u16, n: nat, i: nat, j: nat)
    requires i < j < n <= MaxClients && height < 0x8000
    ensures !Overlap(SlotRect(width, height, n, i), SlotRect(width, height, n, j))
  {
    SlotRectExact(width, height, n, i);
    SlotRectExact(width, height, n, j);
    var s := StackHeight(height, n - 1);
    if j < n - 1 {
      RowsOrdered(i, j, s);
      StackRowsDisjoint(width / 2, i * s, j * s, s);
    }
  }

  /** Two stack rows, the first ending at or above the start of the second,
      are disjoint. */
  lemma StackRowsDisjoint(x: int, yi: int, yj: int, s: int)
    requires yi + s <= yj
    ensures !Overlap(Rect(x, yi, x, s), Rect(x, yj, x, s))
  {
  }

  /** In a laid-out layout with n > 1 clients the stack ends at the bottom
      edge of its lowest row, client n - 2: at (n - 1) * (height / (n - 1)),
      which is at most `height`; the rows left uncovered below it number
      `height % (n - 1)`, fewer than n - 1. */
  lemma StackCoverage(l: Layout)
    requires Arranged(l) && |l.clients| > 1 && l.height < 0x8000
    ensures
      var n := |l.clients|;
      var bottom := Geometry(l.clients[n - 2]);
      && bottom.y + bottom.h == (n - 1) * (l.height / (n - 1)) <= l.height
      && l.height - (bottom.y + bottom.h) == l.height % (n - 1) < n - 1
  {
    var n := |l.clients|;
    var s := l.height / (n - 1);
    SlotRectExact(l.width, l.height, n, n - 2);
    assert Geometry(l.clients[n - 2]) == SlotRect(l.width, l.height, n, n - 2);
    assert (n - 2) * s + s == (n - 1) * s;
    FloorDivisionGap(l.height, n - 1);
  }

  /** An arranged layout's clients are pairwise non-overlapping and inside
      the viewport. */
  lemma ArrangedTiles(l: Layout)
    requires Arranged(l) && l.height < 0x8000
    ensures forall i, j :: 0 <= i < j < |l.clients| ==>
      !Overlap(Geometry(l.clients[i]), Geometry(l.clients[j]))
    ensures forall i :: 0 <= i < |l.clients| ==> InViewport(Geometry(l.clients[i]), l.width, l.height)
  {
    var n := |l.clients|;
    forall i, j | 0 <= i < j < n
      ensures !Overlap(Geometry(l.clients[i]), Geometry(l.clients[j]))
    {
      SlotsDisjoint(l.width, l.height, n, i, j);
    }
    forall i | 0 <= i < n
      ensures InViewport(Geometry(l.clients[i]), l.width, l.height)
    {
      SlotInViewport(l.width, l.height, n, i);
    }
  }

  /** The master (and focus candidate) covers the left half at full height,
      or the whole viewport when it is alone. */
  lemma MasterIsFocus(l: Layout)
    requires Arranged(l) && |l.clients| > 0
    ensures |l.clients| == 1 ==> Geometry(ClientToFocus(l)) == Rect(0, 0, l.width, l.height)
    ensures |l.clients| > 1 ==> Geometry(ClientToFocus(l)) == Rect(0, 0, l.width / 2, l.height)
  {
    assert Geometry(l.clients[|l.clients| - 1]) == SlotRect(l.width, l.height, |l.clients|, |l.clients| - 1);
  }

  // ---------------------------------------------------------------------
  // Relayout as a whole

  /** Relayout ignores the geometry and flags it finds: an arranged layout
      is a fixed point. */
  lemma ArrangedIsFixedPoint(l: Layout)
    requires Arranged(l)
    ensures Reorder(l) == l
  {
    var r := Reorder(l);
    assert |r.clients| == |l.clients| by {
      assert |Windows(r.clients)| == |Windows(l.clients)|;
    }
    forall i | 0 <= i < |l.clients|
      ensures r.clients[i] == l.clients[i]
    {
      assert Windows(r.clients)[i] == Windows(l.clients)[i];
    }
  }

  /** Relayout is idempotent. */
  lemma ReorderIdempotent(l: Layout)
    requires |l.clients| <= MaxClients
    ensures Reorder(Reorder(l)) == Reorder(l)
  {
    ArrangedIsFixedPoint(Reorder(l));
  }

  /** With no clients the relayout changes nothing. */
  lemma ReorderEmptyNoop(l: Layout)
    requires l.clients == []
    ensures Reorder(l) == l
  {
  }

  /** Removing the client just inserted undoes the insertion: the window
      list is restored, and an arranged layout is restored exactly. */
  lemma InsertRemoveRoundTrip(l: Layout, c: Client)
    requires |l.clients| < MaxClients
    ensures Windows(RemoveClient(PositionNewClient(l, c), |l.clients|).clients) == Windows(l.clients)
    ensures Arranged(l) ==> RemoveClient(PositionNewClient(l, c), |l.clients|) == l
  {
    var l1 := PositionNewClient(l, c);
    var ws := Windows(l1.clients);
    assert ws == Windows(l.clients) + [c.window];
    assert ws[..|l.clients|] + ws[|l.clients| + 1..] == Windows(l.clients);
    var r := RemoveClient(l1, |l.clients|);
    if Arranged(l) {
      assert |r.clients| == |l.clients| by {
        assert |Windows(r.clients)| == |Windows(l.clients)|;
      }
      forall i | 0 <= i < |l.clients|
        ensures r.clients[i] == l.clients[i]
      {
        assert Windows(r.clients)[i] == Windows(l.clients)[i];
      }
    }
  }

  // ---------------------------------------------------------------------
  // Focus candidate

  /** The client just inserted is the one to focus. */
  lemma InsertedIsFocus(l: Layout, c: Client)
    requires |l.clients| < MaxClients
    ensures ClientToFocus(PositionNewClient(l, c)).window == c.window
  {
    var r := PositionNewClient(l, c);
    assert Windows(r.clients)[|r.clients| - 1] == c.window;
  }

  /** Removing anything but the last client keeps the focus candidate;
      removing the last one hands focus to the previous-newest survivor. */
  lemma RemoveFocus(l: Layout, index: nat)
    requires index < |l.clients| <= MaxClients + 1 && |l.clients| > 1
    ensures index < |l.clients| - 1 ==>
      ClientToFocus(RemoveClient(l, index)).window == ClientToFocus(l).window
    ensures index == |l.clients| - 1 ==>
      ClientToFocus(RemoveClient(l, index)).window == l.clients[|l.clients| - 2].window
  {
    var r := RemoveClient(l, index);
    var ws := Windows(l.clients);
    assert Windows(r.clients) == ws[..index] + ws[index + 1..];
    assert Windows(r.clients)[|r.clients| - 1] == ws[|ws| - 1] || index == |l.clients| - 1;
  }

  // ---------------------------------------------------------------------
  // Worked scenarios on a 1920x1080 viewport

  /** Inserting A, B, C: C is master, A (oldest) tops the stack, B below it;
      removing C afterwards makes B the focus candidate. */
  lemma ScenarioInsertThree()
    ensures
      var a := Clients.New(1, 0, 0, 0, 0);
      var b := Clients.New(2, 0, 0, 0, 0);
      var c := Clients.New(3, 0, 0, 0, 0);
      var l1 := PositionNewClient(New(1920, 1080), a);
      var l2 := PositionNewClient(l1, b);
      var l3 := PositionNewClient(l2, c);
      && Geometry(l1.clients[0]) == Rect(0, 0, 1920, 1080)
      && Geometry(l2.clients[1]) == Rect(0, 0, 960, 1080)
      && Geometry(l2.clients[0]) == Rect(960, 0, 960, 1080)
      && Windows(l3.clients) == [1, 2, 3]
      && Geometry(l3.clients[2]) == Rect(0, 0, 960, 1080)
      && Geometry(l3.clients[0]) == Rect(960, 0, 960, 540)
      && Geometry(l3.clients[1]) == Rect(960, 540, 960, 540)
      && ClientToFocus(RemoveClient(l3, 2)).window == 2
  {
    var a := Clients.New(1, 0, 0, 0, 0);
    var b := Clients.New(2, 0, 0, 0, 0);
    var c := Clients.New(3, 0, 0, 0, 0);
    var l1 := PositionNewClient(New(1920, 1080), a);
    var l2 := PositionNewClient(l1, b);
    var l3 := PositionNewClient(l2, c);
    assert Windows(l3.clients) == [1, 2, 3];
    assert Geometry(l3.clients[0]) == SlotRect(1920, 1080, 3, 0);
    assert Geometry(l3.clients[1]) == SlotRect(1920, 1080, 3, 1);
    assert Geometry(l3.clients[2]) == SlotRect(1920, 1080, 3, 2);
    assert Geometry(l2.clients[0]) == SlotRect(1920, 1080, 2, 0);
    assert Geometry(l2.clients[1]) == SlotRect(1920, 1080, 2, 1);
    RemoveFocus(l3, 2);
  }

  /** From A, B, C removing B: C stays master and A takes the whole stack. */
  lemma ScenarioRemoveMiddle()
    ensures
      var a := Clients.New(1, 0, 0, 0, 0);
      var b := Clients.New(2, 0, 0, 0, 0);
      var c := Clients.New(3, 0, 0, 0, 0);
      var l3 := PositionNewClient(PositionNewClient(PositionNewClient(New(1920, 1080), a), b), c);
      var r := RemoveClient(l3, 1);
      && Windows(r.clients) == [1, 3]
      && Geometry(r.clients[1]) == Rect(0, 0, 960, 1080)
      && Geometry(r.clients[0]) == Rect(960, 0, 960, 1080)
      && ClientToFocus(r).window == 3
  {
    var a := Clients.New(1, 0, 0, 0, 0);
    var b := Clients.New(2, 0, 0, 0, 0);
    var c := Clients.New(3, 0, 0, 0, 0);
    var l3 := PositionNewClient(PositionNewClient(PositionNewClient(New(1920, 1080), a), b), c);
    assert Windows(l3.clients) == [1, 2, 3];
    var r := RemoveClient(l3, 1);
    assert Windows(r.clients) == [1, 3];
    assert Geometry(r.clients[0]) == SlotRect(1920, 1080, 2, 0);
    assert Geometry(r.clients[1]) == SlotRect(1920, 1080, 2, 1);
  }
}
