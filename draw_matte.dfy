/** `drawMatte`: the RGBA image assembled from an optional foreground and an
    optional alpha matte. RGB comes from the foreground, or white when there is
    none; alpha comes from the matte, or 255 when there is none. */
module DrawMatte {
  import opened Types
  import opened Tensors
  import Arith
  import Dom

  /** The shapes the model gives its outputs: fgr is [1, H, W, 3], pha is [1, H, W, 1]. */
  predicate Shaped(fgr: Option<Tensor>, pha: Option<Tensor>)
  {
    && (fgr.Some? ==> Batch1(fgr.value) && fgr.value.shape[3] == 3)
    && (pha.Some? ==> Batch1(pha.value) && pha.value.shape[3] == 1)
  }

  /** The tensor pipeline runs without raising: when one input is null the other
      one's shape is read through a non-null assertion, so at least one must be
      given, and the final concat needs equal height and width when both are. */
  predicate MatteDefined(fgr: Option<Tensor>, pha: Option<Tensor>)
  {
    && Shaped(fgr, pha)
    && (fgr.Some? || pha.Some?)
    && (fgr.Some? && pha.Some? ==>
          fgr.value.shape[1] == pha.value.shape[1] && fgr.value.shape[2] == pha.value.shape[2])
  }

  /** Height and width of the image: those of the foreground when given, else of the matte. */
  function MatteHeight(fgr: Option<Tensor>, pha: Option<Tensor>): nat
    requires MatteDefined(fgr, pha)
  {
    if fgr.Some? then fgr.value.shape[1] else pha.value.shape[1]
  }

  function MatteWidth(fgr: Option<Tensor>, pha: Option<Tensor>): nat
    requires MatteDefined(fgr, pha)
  {
    if fgr.Some? then fgr.value.shape[2] else pha.value.shape[2]
  }

  /** One byte of the [H, W, 4] buffer: the concat puts the three colour
      channels first and alpha last. */
  function MatteByte(fgr: Option<Tensor>, pha: Option<Tensor>, scale: real -> int, i: nat): int
    requires MatteDefined(fgr, pha)
    requires i < MatteHeight(fgr, pha) * MatteWidth(fgr, pha) * 4
  {
    var H, W := MatteHeight(fgr, pha), MatteWidth(fgr, pha);
    Arith.IndexSplit(i, H * W, 4);
    Arith.IndexSplit(i / 4, H, W);
    var y, x, ch := i / 4 / W, i / 4 % W, i % 4;
    if ch < 3 then
      (if fgr.Some? then scale(At(fgr.value, y, x, ch)) else 255)
    else
      (if pha.Some? then scale(At(pha.value, y, x, 0)) else 255)
  }

  /** The int32 [H, W, 4] tensor the pipeline returns. */
  function Matte(fgr: Option<Tensor>, pha: Option<Tensor>, scale: real -> int): (m: Rgba)
    requires MatteDefined(fgr, pha)
    ensures m.height == MatteHeight(fgr, pha) && m.width == MatteWidth(fgr, pha)
    ensures RgbaWellFormed(m)
  {
    var n := MatteHeight(fgr, pha) * MatteWidth(fgr, pha) * 4;
    Rgba(MatteHeight(fgr, pha), MatteWidth(fgr, pha),
         seq(n, i requires 0 <= i < n => MatteByte(fgr, pha, scale, i)))
  }

  lemma MatteByteAt(fgr: Option<Tensor>, pha: Option<Tensor>, scale: real -> int, y: nat, x: nat, ch: nat)
    requires MatteDefined(fgr, pha)
    requires y < MatteHeight(fgr, pha) && x < MatteWidth(fgr, pha) && ch < 4
    ensures var H, W := MatteHeight(fgr, pha), MatteWidth(fgr, pha);
            var o := Dom.PixelOffset(W, y, x, ch);
            && o < H * W * 4
            && MatteByte(fgr, pha, scale, o) ==
                 if ch < 3 then (if fgr.Some? then scale(At(fgr.value, y, x, ch)) else 255)
                 else (if pha.Some? then scale(At(pha.value, y, x, 0)) else 255)
  {
    Dom.PixelOffsetDecode(MatteHeight(fgr, pha), MatteWidth(fgr, pha), y, x, ch);
  }

  /** Pixel (y, x): R, G, B are the scaled foreground at (y, x) or 255, 255, 255
      without a foreground; A is the scaled matte at (y, x) or 255 without a matte. */
  lemma MattePixel(fgr: Option<Tensor>, pha: Option<Tensor>, scale: real -> int, y: nat, x: nat)
    requires MatteDefined(fgr, pha)
    requires y < MatteHeight(fgr, pha) && x < MatteWidth(fgr, pha)
    ensures var m := Matte(fgr, pha, scale);
            var o := Dom.PixelOffset(m.width, y, x, 0);
            && o + 3 < |m.data|
            && (fgr.Some? ==>
                  && m.data[o] == scale(At(fgr.value, y, x, 0))
                  && m.data[o + 1] == scale(At(fgr.value, y, x, 1))
                  && m.data[o + 2] == scale(At(fgr.value, y, x, 2)))
            && (fgr.None? ==> m.data[o] == 255 && m.data[o + 1] == 255 && m.data[o + 2] == 255)
            && (pha.Some? ==> m.data[o + 3] == scale(At(pha.value, y, x, 0)))
            && (pha.None? ==> m.data[o + 3] == 255)
  {
    var W := MatteWidth(fgr, pha);
    var o := Dom.PixelOffset(W, y, x, 0);
    MatteByteAt(fgr, pha, scale, y, x, 0);
    MatteByteAt(fgr, pha, scale, y, x, 1);
    MatteByteAt(fgr, pha, scale, y, x, 2);
    MatteByteAt(fgr, pha, scale, y, x, 3);
    assert Dom.PixelOffset(W, y, x, 1) == o + 1;
    assert Dom.PixelOffset(W, y, x, 2) == o + 2;
    assert Dom.PixelOffset(W, y, x, 3) == o + 3;
  }

  /** `drawMatte(fgr, pha, canvas)`. The pipeline runs inside `tf.tidy`, so when it
      raises nothing is allocated and nothing disposed. Otherwise the RGBA tensor
      is allocated, each non-null input is disposed once, the clamped bytes are
      wrapped as `ImageData` (which raises, leaving the RGBA tensor live, when the
      image is empty), the canvas is sized and painted, and the RGBA tensor is
      disposed. */
  method Draw(engine: Engine, fgr: Option<Handle>, pha: Option<Handle>, canvas: Dom.Canvas,
              scale: real -> int)
    returns (outcome: Dom.DrawOutcome)
    requires engine.Valid()
    requires fgr.Some? ==> fgr.value < |engine.tensors|
    requires pha.Some? ==> pha.value < |engine.tensors|
    requires Shaped(Lookup(engine.tensors, fgr), Lookup(engine.tensors, pha))
    modifies engine, canvas
    ensures engine.Valid()
    ensures engine.modelDisposals == old(engine.modelDisposals)
    ensures engine.executions == old(engine.executions)
    ensures var f, a := Lookup(old(engine.tensors), fgr), Lookup(old(engine.tensors), pha);
            var n := |old(engine.tensors)|;
            if !MatteDefined(f, a) then
              && outcome == Dom.TidyFailed
              && engine.tensors == old(engine.tensors) && engine.disposals == old(engine.disposals)
              && unchanged(canvas)
            else
              var m := Matte(f, a, scale);
              && engine.tensors == old(engine.tensors) + [RgbaTensor(m)]
              && (if Dom.ImageDataAccepts(|m.data|, m.width, m.height) then
                    && outcome == Dom.Painted
                    && engine.disposals == old(engine.disposals) + Present(fgr) + Present(pha) + [n]
                    && canvas.width == m.width && canvas.height == m.height
                    && canvas.image == Dom.Clamped(m.data)
                    && canvas.background == old(canvas.background)
                  else
                    && outcome == Dom.ImageRejected
                    && engine.disposals == old(engine.disposals) + Present(fgr) + Present(pha)
                    && unchanged(canvas))
  {
    var f, a := Lookup(engine.tensors, fgr), Lookup(engine.tensors, pha);
    if !MatteDefined(f, a) {
      return Dom.TidyFailed;
    }
    var m := Matte(f, a, scale);
    RgbaTensorWellFormed(m);
    var rgba := engine.Alloc(RgbaTensor(m));
    if fgr.Some? {
      engine.Dispose(fgr.value);
    }
    if pha.Some? {
      engine.Dispose(pha.value);
    }
    var height, width := m.height, m.width;
    var pixelData := Dom.Clamped(m.data);
    if !Dom.ImageDataAccepts(|pixelData|, width, height) {
      return Dom.ImageRejected;
    }
    canvas.Paint(width, height, pixelData);
    engine.Dispose(rgba);
    outcome := Dom.Painted;
  }
}
