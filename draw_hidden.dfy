/** `drawHidden`: the grey mosaic of one recurrent state.

    For a state of shape [1, H, W, C] the pipeline unstacks the C channels,
    stacks them vertically into a [1, C*H, W] column (stacked row k holds row
    k % H of channel k / H), splits that column into four bands of R = H*C/4
    rows and places the bands side by side, giving an R x 4W image. Each element
    becomes a grey level repeated on R, G and B, with alpha 255. */
module DrawHidden {
  import opened Tensors
  import Arith
  import Dom

  /** The tensor pipeline runs without raising: a rank-4 tensor with batch 1,
      at least one channel to unstack, and H*C divisible by the 4-way split. */
  predicate MosaicDefined(t: Tensor)
  {
    Batch1(t) && t.shape[3] > 0 && (t.shape[1] * t.shape[3]) % 4 == 0
  }

  /** Rows of one band, which is the height of the mosaic. */
  function BandHeight(t: Tensor): nat
    requires MosaicDefined(t)
  {
    t.shape[1] * t.shape[3] / 4
  }

  function MosaicWidth(t: Tensor): nat
    requires MosaicDefined(t)
  {
    4 * t.shape[2]
  }

  /** An element of the state: channel, row and column of [0, row, col, channel]. */
  datatype Source = Source(channel: nat, row: nat, col: nat)

  /** A pixel of the mosaic: row y, column x. */
  datatype Pixel = Pixel(y: nat, x: nat)

  predicate InMosaic(t: Tensor, p: Pixel)
    requires MosaicDefined(t)
  {
    p.y < BandHeight(t) && p.x < MosaicWidth(t)
  }

  predicate InTensor(t: Tensor, s: Source)
    requires Batch1(t)
  {
    s.channel < t.shape[3] && s.row < t.shape[1] && s.col < t.shape[2]
  }

  /** Pixel (y, x) lies in band b = x / W and shows stacked row k = b*R + y,
      that is row k % H of channel k / H, at column x % W. */
  function SourceOf(t: Tensor, p: Pixel): (s: Source)
    requires MosaicDefined(t) && InMosaic(t, p)
    ensures InTensor(t, s)
    ensures s.channel * t.shape[1] + s.row == (p.x / t.shape[2]) * BandHeight(t) + p.y
    ensures s.col == p.x % t.shape[2]
  {
    var H, W, R := t.shape[1], t.shape[2], BandHeight(t);
    SourceOfBounds(t, p);
    var k := (p.x / W) * R + p.y;
    Source(k / H, k % H, p.x % W)
  }

  /** The arithmetic behind `SourceOf`: stacked row k of pixel p has a channel
      and a row inside the state. */
  lemma SourceOfBounds(t: Tensor, p: Pixel)
    requires MosaicDefined(t) && InMosaic(t, p)
    ensures var H, W := t.shape[1], t.shape[2];
            var k := (p.x / W) * BandHeight(t) + p.y;
            && H > 0 && W > 0
            && k / H < t.shape[3] && k % H < H && p.x % W < W
            && (k / H) * H + k % H == k
  {
    Arith.FourBands(t.shape[1], t.shape[3]);
    Arith.BandSource(p.x, p.y, t.shape[2], BandHeight(t), t.shape[1], t.shape[3]);
  }

  /** Where an element lands: stacked row k = c*H + h sits in band k / R at row k % R. */
  function PixelOf(t: Tensor, s: Source): (p: Pixel)
    requires MosaicDefined(t) && InTensor(t, s)
    ensures InMosaic(t, p)
    ensures (p.x / t.shape[2]) * BandHeight(t) + p.y == s.channel * t.shape[1] + s.row
    ensures p.x % t.shape[2] == s.col
  {
    var H, W, C, R := t.shape[1], t.shape[2], t.shape[3], BandHeight(t);
    Arith.FourBands(H, C);
    Arith.BandPixel(s.channel, s.row, s.col, C, H, W, R);
    var k := s.channel * H + s.row;
    Pixel(k % R, (k / R) * W + s.col)
  }

  /** Following an element to its pixel and back returns the element. */
  lemma SourceOfPixelOf(t: Tensor, s: Source)
    requires MosaicDefined(t) && InTensor(t, s)
    ensures InMosaic(t, PixelOf(t, s)) && SourceOf(t, PixelOf(t, s)) == s
  {
    var H, W, C := t.shape[1], t.shape[2], t.shape[3];
    var R := BandHeight(t);
    var k := s.channel * H + s.row;
    Arith.IndexBound(s.channel, s.row, C, H);
    assert k < 4 * R;
    Arith.IndexSplit(k, 4, R);
    var b, y := k / R, k % R;
    var x := b * W + s.col;
    assert PixelOf(t, s) == Pixel(y, x);
    Arith.IndexDecode(b, s.col, W);
    assert b * R + y == k;
    Arith.IndexDecode(s.channel, s.row, H);
  }

  /** Following a pixel to its element and back returns the pixel. */
  lemma PixelOfSourceOf(t: Tensor, p: Pixel)
    requires MosaicDefined(t) && InMosaic(t, p)
    ensures InTensor(t, SourceOf(t, p)) && PixelOf(t, SourceOf(t, p)) == p
  {
    var H, W, C, R := t.shape[1], t.shape[2], t.shape[3], BandHeight(t);
    var b := p.x / W;
    Arith.IndexSplit(p.x, 4, W);
    var k := b * R + p.y;
    var s := SourceOf(t, p);
    Arith.IndexBound(b, p.y, 4, R);
    Arith.IndexSplit(k, C, H);
    assert s.channel * H + s.row == k;
    Arith.IndexDecode(b, p.y, R);
  }

  /** The mosaic shows every element of the state at exactly one pixel. */
  lemma MosaicBijection(t: Tensor, s: Source, p: Pixel)
    requires MosaicDefined(t) && InTensor(t, s) && InMosaic(t, p)
    ensures InMosaic(t, PixelOf(t, s)) && SourceOf(t, PixelOf(t, s)) == s
    ensures SourceOf(t, p) == s <==> p == PixelOf(t, s)
  {
    SourceOfPixelOf(t, s);
    PixelOfSourceOf(t, p);
  }

  /** With C divisible by 4, band b shows channels b*(C/4) .. b*(C/4) + C/4 - 1,
      one below the other, H rows each. */
  lemma SourceChannel(t: Tensor, p: Pixel)
    requires MosaicDefined(t) && InMosaic(t, p) && t.shape[3] % 4 == 0
    ensures SourceOf(t, p).channel == (p.x / t.shape[2]) * (t.shape[3] / 4) + p.y / t.shape[1]
    ensures SourceOf(t, p).row == p.y % t.shape[1]
  {
    Arith.QuarterProduct(t.shape[1], t.shape[3]);
    Arith.StackedRow(p.x / t.shape[2], t.shape[3] / 4, t.shape[1], p.y);
  }

  /** A [1, 8, 8, 4] state gives an 8 x 32 mosaic of four 8 x 8 cells, cell b
      showing channel b: the four bands of H*C/4 = 8 rows sit side by side. */
  lemma FourChannelMosaic(t: Tensor, p: Pixel)
    requires Batch1(t) && t.shape == [1, 8, 8, 4]
    ensures MosaicDefined(t) && BandHeight(t) == 8 && MosaicWidth(t) == 32
    ensures InMosaic(t, p) ==> SourceOf(t, p) == Source(p.x / 8, p.y, p.x % 8)
  {
    if InMosaic(t, p) {
      SourceChannel(t, p);
    }
  }

  /** One byte of the mosaic buffer: grey on channels 0-2 and 255 on channel 3. */
  function MosaicByte(t: Tensor, gray: real -> int, i: nat): int
    requires MosaicDefined(t) && i < BandHeight(t) * MosaicWidth(t) * 4
  {
    var R, Wm := BandHeight(t), MosaicWidth(t);
    Arith.IndexSplit(i, R * Wm, 4);
    Arith.IndexSplit(i / 4, R, Wm);
    var p := Pixel(i / 4 / Wm, i / 4 % Wm);
    var s := SourceOf(t, p);
    if i % 4 < 3 then gray(At(t, s.row, s.col, s.channel)) else 255
  }

  /** The int32 [R, 4W, 4] tensor the pipeline returns: one four-byte pixel
      per element of the state. */
  function Mosaic(t: Tensor, gray: real -> int): (m: Rgba)
    requires MosaicDefined(t)
    ensures m.height == BandHeight(t) && m.width == MosaicWidth(t)
    ensures RgbaWellFormed(m)
    ensures |m.data| == 4 * |t.data|
  {
    assert t.shape == [1, t.shape[1], t.shape[2], t.shape[3]];
    Size4(1, t.shape[1], t.shape[2], t.shape[3]);
    Arith.BandArea(t.shape[1], t.shape[2], t.shape[3]);
    var n := BandHeight(t) * MosaicWidth(t) * 4;
    assert n == 4 * |t.data|;
    Rgba(BandHeight(t), MosaicWidth(t), seq(n, i requires 0 <= i < n => MosaicByte(t, gray, i)))
  }

  lemma MosaicByteAt(t: Tensor, gray: real -> int, p: Pixel, ch: nat)
    requires MosaicDefined(t) && InMosaic(t, p) && ch < 4
    ensures InTensor(t, SourceOf(t, p))
    ensures Dom.PixelOffset(MosaicWidth(t), p.y, p.x, ch) < BandHeight(t) * MosaicWidth(t) * 4
    ensures var s := SourceOf(t, p);
            MosaicByte(t, gray, Dom.PixelOffset(MosaicWidth(t), p.y, p.x, ch))
              == if ch < 3 then gray(At(t, s.row, s.col, s.channel)) else 255
  {
    Dom.PixelOffsetDecode(BandHeight(t), MosaicWidth(t), p.y, p.x, ch);
  }

  /** Pixel (y, x) of the mosaic is the grey level of the element SourceOf names,
      equal on R, G and B, with alpha 255. */
  lemma MosaicPixel(t: Tensor, gray: real -> int, p: Pixel)
    requires MosaicDefined(t) && InMosaic(t, p)
    ensures InTensor(t, SourceOf(t, p))
    ensures var m := Mosaic(t, gray);
            var o := Dom.PixelOffset(m.width, p.y, p.x, 0);
            var s := SourceOf(t, p);
            && o + 3 < |m.data|
            && m.data[o] == gray(At(t, s.row, s.col, s.channel))
            && m.data[o + 1] == m.data[o] && m.data[o + 2] == m.data[o]
            && m.data[o + 3] == 255
  {
    var m := Mosaic(t, gray);
    var Wm := MosaicWidth(t);
    var o := Dom.PixelOffset(Wm, p.y, p.x, 0);
    MosaicByteAt(t, gray, p, 0);
    MosaicByteAt(t, gray, p, 1);
    MosaicByteAt(t, gray, p, 2);
    MosaicByteAt(t, gray, p, 3);
    assert Dom.PixelOffset(Wm, p.y, p.x, 1) == o + 1;
    assert Dom.PixelOffset(Wm, p.y, p.x, 2) == o + 2;
    assert Dom.PixelOffset(Wm, p.y, p.x, 3) == o + 3;
  }

  /** `drawHidden(r, canvas)`. The pipeline runs inside `tf.tidy`, so when it
      raises nothing is allocated; otherwise the returned RGBA tensor is
      allocated, its clamped bytes are wrapped as `ImageData` (which raises, and
      leaves the RGBA tensor live, when the mosaic is empty), the canvas is
      sized to the mosaic and painted, and the RGBA tensor is disposed. The
      state tensor itself is never disposed. */
  method Draw(engine: Engine, r: Handle, canvas: Dom.Canvas, gray: real -> int)
    returns (outcome: Dom.DrawOutcome)
    requires engine.Valid() && r < |engine.tensors|
    modifies engine, canvas
    ensures engine.Valid()
    ensures engine.modelDisposals == old(engine.modelDisposals)
    ensures engine.executions == old(engine.executions)
    ensures var t := old(engine.tensors)[r];
            var n := |old(engine.tensors)|;
            if !MosaicDefined(t) then
              && outcome == Dom.TidyFailed
              && engine.tensors == old(engine.tensors) && engine.disposals == old(engine.disposals)
              && unchanged(canvas)
            else
              var m := Mosaic(t, gray);
              && engine.tensors == old(engine.tensors) + [RgbaTensor(m)]
              && (if Dom.ImageDataAccepts(|m.data|, m.width, m.height) then
                    && outcome == Dom.Painted
                    && engine.disposals == old(engine.disposals) + [n]
                    && canvas.width == m.width && canvas.height == m.height
                    && canvas.image == Dom.Clamped(m.data)
                    && canvas.background == old(canvas.background)
                  else
                    && outcome == Dom.ImageRejected
                    && engine.disposals == old(engine.disposals)
                    && unchanged(canvas))
  {
    var t := engine.tensors[r];
    if !MosaicDefined(t) {
      return Dom.TidyFailed;
    }
    var m := Mosaic(t, gray);
    RgbaTensorWellFormed(m);
    var rgba := engine.Alloc(RgbaTensor(m));
    var height, width := m.height, m.width;
    var pixelData := Dom.Clamped(m.data);
    if !Dom.ImageDataAccepts(|pixelData|, width, height) {
      return Dom.ImageRejected;
    }
    canvas.Paint(width, height, pixelData);
    engine.Dispose(rgba);
    outcome := Dom.Painted;
  }
}
