/** Fixed-width integer ranges, an optional value, and screen rectangles:
    the vocabulary shared by the client, layout and monitor models. */
module Basics {

  /** Rust's `i16`: window and monitor positions. */
  type i16 = x: int | IsI16(x)

  /** Rust's `u16`: window and monitor sizes, and the layout's client-count cast. */
  type u16 = x: int | 0 <= x < 0x1_0000

  /** Rust's `u32`: X resource identifiers (windows and RandR CRTCs). */
  type u32 = x: int | 0 <= x < 0x1_0000_0000

  /** The range of Rust's `i16`. */
  predicate IsI16(x: int) {
    -0x8000 <= x < 0x8000
  }

  /** The truncating cast `v as i16`: keep the low 16 bits and read them as
      two's complement. */
  function CastI16(v: int): (r: i16)
    ensures IsI16(v) ==> r == v
    ensures (r - v) % 0x1_0000 == 0
  {
    var low := v % 0x1_0000;
    if low < 0x8000 then low else low - 0x1_0000
  }

  lemma CastI16Wraps()
    ensures CastI16(0x8000) == -0x8000
    ensures CastI16(0xFFFF) == -1
  {
  }

  datatype Option<T> = None | Some(value: T)

  /** A screen rectangle: origin (x, y), extent w columns by h rows. */
  datatype Rect = Rect(x: int, y: int, w: int, h: int)

  /** Two rectangles share at least one pixel. */
  predicate Overlap(a: Rect, b: Rect) {
    a.x < b.x + b.w && b.x < a.x + a.w && a.y < b.y + b.h && b.y < a.y + a.h
  }

  /** `a` lies inside the viewport of width `width` and height `height` anchored at (0, 0). */
  predicate InViewport(a: Rect, width: int, height: int) {
    0 <= a.x && 0 <= a.y && 0 <= a.w && 0 <= a.h && a.x + a.w <= width && a.y + a.h <= height
  }
}
