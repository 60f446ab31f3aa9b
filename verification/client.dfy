/** One managed window: its identity, its geometry relative to the owning
    monitor, and the `reconfigure` flag that marks it as needing a
    configure request. The setters never validate and never clear the flag. */
module Clients {
  import opened Basics
  import opened Gateway

  datatype Client = Client(
    posX: i16,
    posY: i16,
    height: u16,
    width: u16,
    window: WindowId,
    reconfigure: bool)

  /** The rectangle the client occupies, in monitor-local coordinates. */
  function Geometry(c: Client): Rect {
    Rect(c.posX, c.posY, c.width, c.height)
  }

  /** `Client::new`; note the size arguments come height first. A fresh
      client is not yet marked for reconfiguration. */
  function New(window: WindowId, posX: i16, posY: i16, height: u16, width: u16): (c: Client)
    ensures c.window == window
    ensures Geometry(c) == Rect(posX, posY, width, height)
    ensures !c.reconfigure
  {
    Client(posX, posY, height, width, window, false)
  }

  /** `set_pos`: overwrite the position and raise the flag. */
  function SetPos(c: Client, x: i16, y: i16): (r: Client)
    ensures r.posX == x && r.posY == y
    ensures r.width == c.width && r.height == c.height && r.window == c.window
    ensures r.reconfigure
  {
    c.(posX := x, posY := y, reconfigure := true)
  }

  /** `set_size`: overwrite the size and raise the flag. */
  function SetSize(c: Client, width: u16, height: u16): (r: Client)
    ensures r.width == width && r.height == height
    ensures r.posX == c.posX && r.posY == c.posY && r.window == c.window
    ensures r.reconfigure
  {
    c.(width := width, height := height, reconfigure := true)
  }

  /** Setting position and size in either order gives the same client, whose
      geometry is exactly the requested rectangle, whatever it held before. */
  lemma SetPosSetSizeCommute(c: Client, x: i16, y: i16, width: u16, height: u16)
    ensures SetSize(SetPos(c, x, y), width, height) == SetPos(SetSize(c, width, height), x, y)
    ensures Geometry(SetPos(SetSize(c, width, height), x, y)) == Rect(x, y, width, height)
  {
  }

  /** A client mutation, as issued by the layout engine. */
  datatype ClientOp = MovePos(x: i16, y: i16) | Resize(width: u16, height: u16)

  function Step(c: Client, op: ClientOp): Client {
    match op
    case MovePos(x, y) => SetPos(c, x, y)
    case Resize(width, height) => SetSize(c, width, height)
  }

  /** Apply a sequence of mutations, first to last. */
  function Apply(c: Client, ops: seq<ClientOp>): Client
    decreases |ops|
  {
    if ops == [] then c else Apply(Step(c, ops[0]), ops[1..])
  }

  /** The flag is monotone: no sequence of client operations lowers it, any
      non-empty one raises it, and none changes the window identity. */
  lemma {:induction false} FlagMonotone(c: Client, ops: seq<ClientOp>)
    ensures c.reconfigure ==> Apply(c, ops).reconfigure
    ensures ops != [] ==> Apply(c, ops).reconfigure
    ensures Apply(c, ops).window == c.window
    decreases |ops|
  {
    if ops != [] {
      FlagMonotone(Step(c, ops[0]), ops[1..]);
    }
  }
}
