/** One pass of an inference loop up to the point where the two loops differ:
    capture a frame, run the graph on it and the current recurrent states, and
    render the selected view. What the browser, the webcam and the graph
    return during the pass is given as a `Tick`. */
module Cycle {
  import opened Types
  import opened Tensors
  import Dom
  import Constants
  import Inference
  import Webcam
  import Render

  /** The results of the foreign calls one pass makes: the webcam frame (or
      what `capture` throws), the graph's outputs (or what it throws), what a
      failing draw throws, the three metrics the pass reports and the id
      `requestAnimationFrame` returns. */
  datatype Tick = Tick(
    frame: Result<Tensor, Thrown>,
    produce: Result<map<string, Tensor>, Thrown>,
    renderError: Thrown,
    inferenceTime: real,
    fps: real,
    now: real,
    frameId: nat)

  /** The webcam yields a well-formed frame and the graph keeps its output contract. */
  predicate TickValid(t: Tick)
  {
    && (t.frame.Ok? ==> WellFormed(t.frame.value))
    && (t.produce.Ok? ==> Inference.ModelContract(t.produce.value))
  }

  /** Where a pass stops: at the step that throws, or after a successful render. */
  datatype CycleEnd =
    | CaptureThrew(error: Thrown)
    | InferenceThrew(error: Thrown)
    | RenderThrew(outcome: Dom.DrawOutcome)
    | Completed

  function EndOf(t: Tick, selected: string, cast: Cast): CycleEnd
    requires TickValid(t)
  {
    if t.frame.Err? then CaptureThrew(t.frame.error)
    else if t.produce.Err? then InferenceThrew(t.produce.error)
    else RenderEnd(Inference.Produced(t.produce.value), Render.Dispatch(selected), cast)
  }

  /** Where a pass that reached the render stops: completed when the image was painted. */
  function RenderEnd(vals: Outputs<Tensor>, c: Render.DrawCall, cast: Cast): CycleEnd
    requires Inference.OutputsShaped(vals)
  {
    EndOfDraw(Render.OutcomeOf(Render.Picture(vals, c, cast)))
  }

  /** Where a pass ends once its render returned the outcome o. */
  function EndOfDraw(o: Dom.DrawOutcome): CycleEnd
  {
    if o == Dom.Painted then Completed else RenderThrew(o)
  }

  /** The message the `catch` clause stores: the thrown error's message, or
      'Inference failed' for a value that is not an `Error`. */
  function ErrorOf(e: CycleEnd, t: Tick): string
  {
    match e
    case CaptureThrew(x) => Message(x, "Inference failed")
    case InferenceThrew(x) => Message(x, "Inference failed")
    case _ => Message(t.renderError, "Inference failed")
  }

  /** Tensors a pass starting at n allocates: the raw frame n, the input n + 1,
      the ratio scalar n + 2, the six outputs n + 3 .. n + 8 and the render's
      clones and RGBA buffer from n + 9 on. */
  function StepsAllocs(c: Render.DrawCall, e: CycleEnd): nat
  {
    match e
    case CaptureThrew(_) => 0
    case InferenceThrew(_) => 3
    case RenderThrew(o) => 9 + Render.Clones(c) + (if o == Dom.TidyFailed then 0 else 1)
    case Completed => 10 + Render.Clones(c)
  }

  /** Dispose calls of a pass starting at n: nothing when capture or the graph
      throws (the ratio scalar then stays live); otherwise the ratio scalar,
      then the render's own log. */
  function StepsLog(n: nat, c: Render.DrawCall, e: CycleEnd): seq<Handle>
  {
    match e
    case CaptureThrew(_) => []
    case InferenceThrew(_) => []
    case RenderThrew(o) => [n + 2] + Render.RenderLog(n + 9, Inference.OutputsAt(n + 3), c, o)
    case Completed => [n + 2] + Render.RenderLog(n + 9, Inference.OutputsAt(n + 3), c, Dom.Painted)
  }

  /** Capture and inference of one pass: the raw frame n and the input frame
      n + 1 are allocated, the graph runs on n + 1 and the given states with the
      ratio scalar n + 2, and on success its six outputs are n + 3 .. n + 8.
      `stopped` is where the pass ends when one of the two steps throws. */
  method Prepare(engine: Engine, model: ModelId, states: States<Handle>, tick: Tick)
    returns (stopped: Option<CycleEnd>)
    requires engine.Valid() && TickValid(tick)
    modifies engine
    ensures engine.Valid()
    ensures engine.modelDisposals == old(engine.modelDisposals)
    ensures var n := |old(engine.tensors)|;
            engine.executions == old(engine.executions) +
              if tick.frame.Ok? then
                [Execution(model, Inputs(n + 1, states.r1, states.r2, states.r3, states.r4, n + 2), Inference.OUTPUT_NAMES)]
              else []
    ensures tick.frame.Err? ==>
              && stopped == Some(CaptureThrew(tick.frame.error))
              && engine.tensors == old(engine.tensors) && engine.disposals == old(engine.disposals)
    ensures tick.frame.Ok? && tick.produce.Err? ==>
              && stopped == Some(InferenceThrew(tick.produce.error))
              && |engine.tensors| == |old(engine.tensors)| + 3
              && engine.tensors[..|old(engine.tensors)|] == old(engine.tensors)
              && engine.disposals == old(engine.disposals)
    ensures tick.frame.Ok? && tick.produce.Ok? ==>
              var n := |old(engine.tensors)|;
              && stopped == None
              && |engine.tensors| == n + 9
              && engine.tensors[..n] == old(engine.tensors)
              && engine.disposals == old(engine.disposals) + [n + 2]
              && Inference.Allocated(Inference.OutputsAt(n + 3), |engine.tensors|)
              && Inference.OutputValues(engine.tensors, Inference.OutputsAt(n + 3)) ==
                   Inference.Produced(tick.produce.value)
  {
    var n := |engine.tensors|;
    var frame := Webcam.CaptureFrame(engine, tick.frame);
    if frame.Err? {
      return Some(CaptureThrew(frame.error));
    }
    var result := Inference.PerformInference(engine, model, frame.value, states, tick.produce);
    if result.Err? {
      return Some(InferenceThrew(result.error));
    }
    PassTensors(old(engine.tensors), [tick.frame.value, Webcam.Normalised(tick.frame.value)],
                [Scalar(Constants.SEGMENTATION_CONFIG.downsampleRatio)], Inference.Produced(tick.produce.value).Values());
    Inference.OutputValuesAt(engine.tensors, n + 3, Inference.Produced(tick.produce.value));
    stopped := None;
  }

  /** The store after a pass's allocations: the earlier tensors, then two
      frames, the ratio scalar and the six outputs. */
  lemma PassTensors(ts: seq<Tensor>, frames: seq<Tensor>, ratio: seq<Tensor>, outs: seq<Tensor>)
    requires |frames| == 2 && |ratio| == 1 && |outs| == 6
    ensures var s := ts + frames + ratio + outs;
            && |s| == |ts| + 9
            && s[..|ts|] == ts
            && s[|ts| + 3..|ts| + 9] == outs
  {
    var s := ts + frames + ratio + outs;
    assert s == ts + (frames + ratio + outs);
  }

  /** The canvas after a pass: sized and painted with the clamped picture of
      the graph's outputs, and given the selected entry's background, when the
      pass completed; untouched otherwise. */
  twostate predicate CanvasAfter(canvas: Dom.Canvas, tick: Tick, selected: string, cast: Cast, end: CycleEnd)
    requires TickValid(tick)
    reads canvas
  {
    && (end.Completed? && tick.produce.Ok? ==>
          var p := Render.Picture(Inference.Produced(tick.produce.value), Render.Dispatch(selected), cast);
          && p.Some?
          && canvas.width == p.value.width && canvas.height == p.value.height
          && canvas.image == Dom.Clamped(p.value.data)
          && canvas.background == Render.BackgroundAfter(selected, old(canvas.background)))
    && (!end.Completed? ==>
          && canvas.width == old(canvas.width) && canvas.height == old(canvas.height)
          && canvas.image == old(canvas.image) && canvas.background == old(canvas.background))
  }

  /** The render step of a pass that started at n, once the six outputs
      n + 3 .. n + 8 hold vals and the ratio scalar n + 2 is disposed. */
  method Finish(engine: Engine, canvas: Dom.Canvas, selected: string, cast: Cast,
                n: nat, ghost vals: Outputs<Tensor>, ghost d0: seq<Handle>)
    returns (end: CycleEnd)
    requires engine.Valid() && |engine.tensors| == n + 9
    requires Inference.Allocated(Inference.OutputsAt(n + 3), |engine.tensors|)
    requires Inference.OutputValues(engine.tensors, Inference.OutputsAt(n + 3)) == vals
    requires Inference.OutputsShaped(vals)
    requires engine.disposals == d0 + [n + 2]
    modifies engine, canvas
    ensures engine.Valid()
    ensures end == RenderEnd(vals, Render.Dispatch(selected), cast)
    ensures |engine.tensors| == n + StepsAllocs(Render.Dispatch(selected), end)
    ensures engine.tensors[..n] == old(engine.tensors)[..n]
    ensures engine.disposals == d0 + StepsLog(n, Render.Dispatch(selected), end)
    ensures engine.modelDisposals == old(engine.modelDisposals) && engine.executions == old(engine.executions)
    ensures Render.CanvasRendered(canvas, Render.Picture(vals, Render.Dispatch(selected), cast), end.Completed?,
                                  Render.BackgroundAfter(selected, old(canvas.background)))
  {
    ghost var ts1 := engine.tensors;
    ghost var c := Render.Dispatch(selected);
    var outs := Inference.OutputsAt(n + 3);
    var drawn := Render.RenderOutput(engine, outs, canvas, selected, cast);
    PrefixOfPrefix(engine.tensors, ts1, n);
    end := EndOfDraw(drawn);
    StepsLogOfDraw(n, c, drawn, d0);
  }

  /** A prefix of a prefix is a prefix. */
  lemma PrefixOfPrefix<T>(s: seq<T>, t: seq<T>, n: nat)
    requires n <= |t| <= |s| && s[..|t|] == t
    ensures s[..n] == t[..n]
  {
    assert forall i :: 0 <= i < n ==> s[i] == s[..|t|][i];
  }

  /** The log and the allocations of a pass that reached its render, in terms
      of the render's outcome. */
  lemma StepsLogOfDraw(n: nat, c: Render.DrawCall, o: Dom.DrawOutcome, d0: seq<Handle>)
    ensures d0 + StepsLog(n, c, EndOfDraw(o)) == d0 + [n + 2] + Render.RenderLog(n + 9, Inference.OutputsAt(n + 3), c, o)
    ensures StepsAllocs(c, EndOfDraw(o)) == 9 + Render.Clones(c) + (if o == Dom.TidyFailed then 0 else 1)
  {
  }

  /** Capture, inference and render of one pass (the shared middle of both
      loops). The raw frame is never disposed, the input frame and the states
      are handed to the graph unchanged, and a throwing step ends the pass. */
  method RunSteps(engine: Engine, model: ModelId, states: States<Handle>, canvas: Dom.Canvas,
                  selected: string, tick: Tick, cast: Cast)
    returns (end: CycleEnd, src: Handle, outs: Outputs<Handle>)
    requires engine.Valid() && TickValid(tick)
    modifies engine, canvas
    ensures engine.Valid()
    ensures end == EndOf(tick, selected, cast)
    ensures src == |old(engine.tensors)| + 1 && outs == Inference.OutputsAt(|old(engine.tensors)| + 3)
    ensures |engine.tensors| == |old(engine.tensors)| + StepsAllocs(Render.Dispatch(selected), end)
    ensures engine.tensors[..|old(engine.tensors)|] == old(engine.tensors)
    ensures engine.disposals == old(engine.disposals) + StepsLog(|old(engine.tensors)|, Render.Dispatch(selected), end)
    ensures engine.modelDisposals == old(engine.modelDisposals)
    ensures var n := |old(engine.tensors)|;
            engine.executions == old(engine.executions) +
              if tick.frame.Ok? then
                [Execution(model, Inputs(n + 1, states.r1, states.r2, states.r3, states.r4, n + 2), Inference.OUTPUT_NAMES)]
              else []
    ensures CanvasAfter(canvas, tick, selected, cast, end)
  {
    var n := |engine.tensors|;
    src, outs := n + 1, Inference.OutputsAt(n + 3);
    var stopped := Prepare(engine, model, states, tick);
    if stopped.Some? {
      return stopped.value, src, outs;
    }
    end := Finish(engine, canvas, selected, cast, n, Inference.Produced(tick.produce.value), old(engine.disposals));
  }

  lemma StepsLogShape(n: nat, c: Render.DrawCall)
    ensures StepsLog(n, c, Completed) == [n + 2] + Range(n + 9, n + 10 + Render.Clones(c)) + Range(n + 3, n + 9)
  {
    assert Inference.OutputsAt(n + 3).Values() == Range(n + 3, n + 9);
  }

  /** The count of a handle in the log [n + 2] + a + b, from its counts in a and b. */
  lemma CountsOfShape(n: nat, k: nat, h: Handle, a: seq<Handle>, b: seq<Handle>)
    requires Count(a, h) == if n + 9 <= h < n + 10 + k then 1 else 0
    requires Count(b, h) == if n + 3 <= h < n + 9 then 1 else 0
    ensures Count([n + 2] + a + b, h) == if h == n + 2 || n + 3 <= h < n + 10 + k then 1 else 0
  {
    CountConcat([n + 2], a, h);
    CountConcat([n + 2] + a, b, h);
  }

  lemma ShapeCounts(n: nat, k: nat, h: Handle)
    ensures Count([n + 2] + Range(n + 9, n + 10 + k) + Range(n + 3, n + 9), h) ==
              if h == n + 2 || n + 3 <= h < n + 10 + k then 1 else 0
  {
    RangeCount(n + 9, n + 10 + k, h);
    RangeCount(n + 3, n + 9, h);
    CountsOfShape(n, k, h, Range(n + 9, n + 10 + k), Range(n + 3, n + 9));
  }

  /** How often a completed pass starting at n disposes each handle: the ratio
      scalar, each of the six outputs (the recurrent ones included) and each
      clone and RGBA buffer of the render once; the raw frame, the input frame
      and every older handle not at all. */
  lemma {:induction false} StepsCounts(n: nat, c: Render.DrawCall, h: Handle)
    ensures Count(StepsLog(n, c, Completed), h) ==
              if h == n + 2 || n + 3 <= h < n + 10 + Render.Clones(c) then 1 else 0
  {
    StepsLogShape(n, c);
    ShapeCounts(n, Render.Clones(c), h);
  }
}
