/** The browser objects the renderers and loops touch: a canvas element, the
    `ImageData` constructor's size rule, `Uint8ClampedArray` conversion and the
    animation-frame scheduler. */
module Dom {
  import Arith

  /** Conversion of one integer element into a `Uint8ClampedArray`. */
  function ClampByte(v: int): (b: int)
    ensures 0 <= b <= 255
    ensures 0 <= v <= 255 ==> b == v
    ensures v < 0 ==> b == 0
    ensures v > 255 ==> b == 255
  {
    if v < 0 then 0 else if v > 255 then 255 else v
  }

  /** `new Uint8ClampedArray(int32Data)`. */
  function Clamped(d: seq<int>): (p: seq<int>)
    ensures |p| == |d|
    ensures forall i :: 0 <= i < |d| ==> 0 <= p[i] <= 255
    ensures forall i :: 0 <= i < |d| && 0 <= d[i] <= 255 ==> p[i] == d[i]
    ensures forall i :: 0 <= i < |d| && d[i] < 0 ==> p[i] == 0
    ensures forall i :: 0 <= i < |d| && 255 < d[i] ==> p[i] == 255
  {
    seq(|d|, i requires 0 <= i < |d| => ClampByte(d[i]))
  }

  /** `new ImageData(data, width, height)` accepts a buffer of exactly four bytes
      per pixel and a non-zero width and height; otherwise it throws. */
  predicate ImageDataAccepts(length: nat, width: nat, height: nat)
  {
    width > 0 && height > 0 && length == 4 * width * height
  }

  /** Offset of channel ch of pixel (y, x) in an RGBA buffer of the given width. */
  function PixelOffset(width: nat, y: nat, x: nat, ch: nat): nat
  {
    (y * width + x) * 4 + ch
  }

  /** The offset of (y, x, ch) lies in the buffer and decodes back into (y, x, ch). */
  lemma PixelOffsetDecode(height: nat, width: nat, y: nat, x: nat, ch: nat)
    requires y < height && x < width && ch < 4
    ensures PixelOffset(width, y, x, ch) < height * width * 4
    ensures PixelOffset(width, y, x, ch) / 4 / width == y
    ensures PixelOffset(width, y, x, ch) / 4 % width == x
    ensures PixelOffset(width, y, x, ch) % 4 == ch
  {
    Arith.IndexBound(y, x, height, width);
    Arith.IndexBound(y * width + x, ch, height * width, 4);
    Arith.IndexDecode(y * width + x, ch, 4);
    Arith.IndexDecode(y, x, width);
  }

  /** What a draw call did: painted the canvas, raised inside its tensor
      pipeline, or raised when the pixel buffer was wrapped as `ImageData`. */
  datatype DrawOutcome = Painted | TidyFailed | ImageRejected

  /** An HTML canvas: its size, the pixels last put on it and its CSS background. */
  class Canvas {
    var width: nat
    var height: nat
    var image: seq<int>
    var background: string

    /** `canvas.width = w; canvas.height = h; ctx.putImageData(data, 0, 0)`:
        an image of the canvas's own size put at the origin covers the canvas. */
    method Paint(w: nat, h: nat, pixels: seq<int>)
      modifies this
      ensures width == w && height == h && image == pixels
      ensures background == old(background)
    {
      width := w;
      height := h;
      image := pixels;
    }

    /** `canvas.style.background = b`. */
    method SetBackground(b: string)
      modifies this
      ensures background == b
      ensures width == old(width) && height == old(height) && image == old(image)
    {
      background := b;
    }
  }

  /** `requestAnimationFrame` / `cancelAnimationFrame`: the ids requested and cancelled. */
  class Frames {
    var requested: seq<nat>
    var cancelled: seq<nat>

    constructor ()
      ensures requested == [] && cancelled == []
    {
      requested, cancelled := [], [];
    }

    method Request(id: nat)
      modifies this
      ensures requested == old(requested) + [id] && cancelled == old(cancelled)
    {
      requested := requested + [id];
    }

    method Cancel(id: nat)
      modifies this
      ensures cancelled == old(cancelled) + [id] && requested == old(requested)
    {
      cancelled := cancelled + [id];
    }
  }
}
