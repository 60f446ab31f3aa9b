/** The requests the monitor code sends to the X server, recorded as an
    abstract trace instead of being performed. */
module Gateway {
  import opened Basics

  /** An X window identifier. */
  type WindowId = u32

  /** A RandR CRTC identifier. */
  type CrtcId = u32

  /** One request to the display server:
      - `Map(w)`: select input events on `w` and map it;
      - `Focus(w)`: give `w` the input focus, publish it as the active
        window and send it the take-focus message;
      - `Configure(w, x, y, width, height)`: move and resize `w`, in
        absolute screen coordinates. */
  datatype Command =
    | Map(window: WindowId)
    | Focus(window: WindowId)
    | Configure(window: WindowId, x: int, y: int, width: int, height: int)
}
