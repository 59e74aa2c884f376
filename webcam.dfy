/** `captureFrame`: one webcam frame as a normalised [1, H, W, 3] tensor. */
module Webcam {
  import opened Types
  import opened Tensors

  /** Identity of a `tf.data.webcam` iterator. */
  type WebcamId = nat

  /** `img.expandDims(0).div(255)`: a leading batch axis and every element divided by 255. */
  function Normalised(img: Tensor): (t: Tensor)
    ensures t.shape == [1] + img.shape && |t.data| == |img.data|
    ensures forall i :: 0 <= i < |img.data| ==> t.data[i] * 255.0 == img.data[i]
    ensures WellFormed(img) ==> WellFormed(t)
  {
    assert ([1] + img.shape)[1..] == img.shape;
    Tensor([1] + img.shape, seq(|img.data|, i requires 0 <= i < |img.data| => img.data[i] / 255.0))
  }

  /** `captureFrame(webcam)` with the frame the iterator yields given (or what
      `capture` throws). The raw frame `img` is allocated and never disposed; the
      normalised tensor built from it inside `tf.tidy` is allocated after it and
      returned. */
  method CaptureFrame(engine: Engine, frame: Result<Tensor, Thrown>) returns (r: Result<Handle, Thrown>)
    requires engine.Valid()
    requires frame.Ok? ==> WellFormed(frame.value)
    modifies engine
    ensures engine.Valid()
    ensures engine.disposals == old(engine.disposals)
    ensures engine.modelDisposals == old(engine.modelDisposals) && engine.executions == old(engine.executions)
    ensures frame.Err? ==> r == Err(frame.error) && engine.tensors == old(engine.tensors)
    ensures frame.Ok? ==>
      && r == Ok(|old(engine.tensors)| + 1)
      && engine.tensors == old(engine.tensors) + [frame.value, Normalised(frame.value)]
  {
    if frame.Err? {
      return Err(frame.error);
    }
    var img := engine.Alloc(frame.value);
    var src := engine.Alloc(Normalised(frame.value));
    r := Ok(src);
  }
}
