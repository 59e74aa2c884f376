/** `VideoSegmentationWidget`: the component that keeps the model, the webcam,
    the recurrent states and the pending frame in refs, the selected view and
    the flags in component state, and runs its own copy of the inference loop.

    Refs are read when used, so the loop sees the current model, webcam,
    canvas and recurrent states; component state is read through the values
    captured when the closure was created (`Captured`), so the loop keeps
    testing the running flag and the view of the render that started it. */
module Widget {
  import opened Types
  import opened Tensors
  import Dom
  import Inference
  import Webcam
  import Render
  import Cycle
  import LoadModel

  /** The component state the closures read, as captured at render time. */
  datatype Captured = Captured(isRunning: bool, selectedBackground: ViewOption)

  /** Every field of the component that the model tracks, as one record. */
  datatype WidgetState = WidgetState(
    selectedBackground: ViewOption,
    isLoading: bool,
    error: Option<string>,
    isRunning: bool,
    model: Option<ModelId>,
    webcam: Option<Webcam.WebcamId>,
    recurrentStates: States<Handle>,
    animationFrame: Option<nat>)

  /** Dispose calls of a completed pass starting at n when the ref held the
      states `current`: the pass's own, then `tf.dispose([src, ...current])`. */
  function WidgetCycleLog(n: nat, current: States<Handle>, c: Render.DrawCall): seq<Handle>
  {
    Cycle.StepsLog(n, c, Cycle.Completed) + ([n + 1] + current.Values())
  }

  /** How often a completed pass starting at n disposes each handle when the
      ref held `current`: the input frame, the ratio scalar, each output and
      each render buffer once, every handle of `current` as often as it occurs
      there, and the raw frame n never. */
  lemma {:induction false} WidgetCycleCounts(n: nat, current: States<Handle>, c: Render.DrawCall, h: Handle)
    ensures Count(WidgetCycleLog(n, current, c), h) ==
              (if h == n + 1 || h == n + 2 || n + 3 <= h < n + 10 + Render.Clones(c) then 1 else 0)
              + Count(current.Values(), h)
  {
    var steps := Cycle.StepsLog(n, c, Cycle.Completed);
    Cycle.StepsCounts(n, c, h);
    CountExtend(steps, n + 1, current.Values(), h);
  }

  /** The states a completed pass stores in the ref, r1o .. r4o, are handles
      the same pass has already disposed (in the render). */
  lemma WidgetInstalledDisposed(n: nat, s: States<Handle>, c: Render.DrawCall, h: Handle)
    requires n + 5 <= h < n + 9
    requires forall j :: 0 <= j < 4 ==> s.Values()[j] < n
    ensures Count(WidgetCycleLog(n, s, c), h) == 1
  {
    WidgetCycleCounts(n, s, c, h);
    CountIn(s.Values(), h);
  }

  /** A completed pass disposes an older handle exactly as often as the ref's
      states name it. */
  lemma WidgetOlderCounts(n: nat, current: States<Handle>, c: Render.DrawCall, h: Handle)
    requires h < n
    ensures Count(WidgetCycleLog(n, current, c), h) == Count(current.Values(), h)
  {
    WidgetCycleCounts(n, current, c, h);
  }

  /** Two passes, the second one started from handle m by the frame the first
      requested: the second hands the graph the states the first stored in the
      ref, which the first had already disposed, and disposes each of them a
      second time. */
  lemma WidgetTwoPasses(n: nat, m: nat, s: States<Handle>, c: Render.DrawCall, h: Handle)
    requires n + 5 <= h < n + 9
    requires m == n + 10 + Render.Clones(c)
    requires forall j :: 0 <= j < 4 ==> s.Values()[j] < n
    ensures Count(WidgetCycleLog(n, s, c), h) == 1
    ensures Count(WidgetCycleLog(n, s, c) + WidgetCycleLog(m, Inference.OutputsAt(n + 3).NextStates(), c), h) == 2
  {
    WidgetInstalledDisposed(n, s, c, h);
    WidgetOlderCounts(m, Inference.OutputsAt(n + 3).NextStates(), c, h);
    Inference.NextStatesOnce(n + 3, h);
    CountConcat(WidgetCycleLog(n, s, c), WidgetCycleLog(m, Inference.OutputsAt(n + 3).NextStates(), c), h);
  }

  /** What a completed widget pass leaves live: the handles live before it,
      less the ref's states it disposed, plus the raw frame n, the one
      allocation of the pass that is never disposed. */
  lemma WidgetCycleLive(n: nat, d: seq<Handle>, current: States<Handle>, c: Render.DrawCall)
    requires forall k :: 0 <= k < |d| ==> d[k] < n
    requires forall k :: 0 <= k < 4 ==> current.Values()[k] < n
    ensures LiveOf(n + 10 + Render.Clones(c), d + WidgetCycleLog(n, current, c)) ==
              LiveOf(n, d) - (set h | h in current.Values()) + {n}
  {
    var log := WidgetCycleLog(n, current, c);
    var N := n + 10 + Render.Clones(c);
    forall h | 0 <= h < N
      ensures h in d + log <==> (h in d || h in current.Values() || n < h)
    {
      WidgetCycleCounts(n, current, c, h);
      CountIn(log, h);
      CountIn(current.Values(), h);
    }
    forall h
      ensures h in LiveOf(N, d + log) <==> h in LiveOf(n, d) - (set h | h in current.Values()) + {n}
    {
    }
  }

  class VideoSegmentationWidget {
    /** The tensor runtime and the browser's frame scheduler. */
    const engine: Engine
    const frames: Dom.Frames

    var selectedBackground: ViewOption
    var isLoading: bool
    var error: Option<string>
    var isRunning: bool
    var model: Option<ModelId>
    var webcam: Option<Webcam.WebcamId>
    var recurrentStates: States<Handle>
    var animationFrame: Option<nat>
    /** `canvasRef.current`, null until the canvas element is mounted. */
    var canvas: Dom.Canvas?

    function State(): WidgetState
      reads this
    {
      WidgetState(selectedBackground, isLoading, error, isRunning, model, webcam, recurrentStates, animationFrame)
    }

    /** The runtime is consistent and the ref's state handles were allocated by it. */
    ghost predicate Valid()
      reads this, engine
    {
      && engine.Valid()
      && forall k :: 0 <= k < 4 ==> recurrentStates.Values()[k] < |engine.tensors|
    }

    /** The first render: the view is 'white', loading is set, no error, not
        running, all refs empty and the state ref holds four fresh zero scalars. */
    constructor (engine: Engine, frames: Dom.Frames)
      requires engine.Valid()
      modifies engine
      ensures this.engine == engine && this.frames == frames && Valid()
      ensures State() == WidgetState(White, true, None, false, None, None,
                                     LoadModel.FreshStates(|old(engine.tensors)|), None)
      ensures canvas == null
      ensures engine.tensors == old(engine.tensors) + LoadModel.ZERO_STATES
      ensures engine.disposals == old(engine.disposals)
      ensures engine.modelDisposals == old(engine.modelDisposals) && engine.executions == old(engine.executions)
    {
      var states := LoadModel.InitializeRecurrentStates(engine);
      this.engine, this.frames := engine, frames;
      selectedBackground, isLoading, error, isRunning := White, true, None, false;
      model, webcam, recurrentStates, animationFrame := None, None, states, None;
      canvas := null;
    }

    /** A later render: `useRef(initializeRecurrentStates())` evaluates its
        argument again and drops it, so four fresh zero scalars are allocated,
        never stored and never disposed. */
    method Rerender()
      requires Valid()
      modifies engine
      ensures Valid()
      ensures engine.tensors == old(engine.tensors) + LoadModel.ZERO_STATES
      ensures engine.disposals == old(engine.disposals)
      ensures engine.modelDisposals == old(engine.modelDisposals) && engine.executions == old(engine.executions)
      ensures engine.Live() == old(engine.Live()) + (set h | h in LoadModel.FreshStates(|old(engine.tensors)|).Values())
    {
      var dropped := LoadModel.InitializeRecurrentStates(engine);
    }

    /** `setSelectedBackground(option)`. */
    method SetSelectedBackground(o: ViewOption)
      modifies this
      ensures State() == old(State()).(selectedBackground := o) && canvas == old(canvas)
    {
      selectedBackground := o;
    }

    /** React mounting or unmounting the canvas element into `canvasRef`. */
    method AttachCanvas(c: Dom.Canvas?)
      modifies this
      ensures State() == old(State()) && canvas == c
    {
      canvas := c;
    }

    /** `initializeApp()` with the outcome of `loadSegmentationModel` given.
        `steps` lists the component after each update, in order: loading set
        and error cleared, then the model ref set and loading cleared, or the
        message stored ('Failed to initialize' for a value that is not an
        `Error`) and loading cleared. */
    method InitializeApp(load: Result<ModelId, Thrown>) returns (ghost steps: seq<WidgetState>)
      modifies this
      ensures var s0 := old(State()).(isLoading := true);
              var s1 := s0.(error := None);
              if load.Ok? then
                var s2 := s1.(model := Some(load.value));
                steps == [s0, s1, s2, s2.(isLoading := false)]
              else
                var s2 := s1.(error := Some(Message(load.error, "Failed to initialize")));
                steps == [s0, s1, s2, s2.(isLoading := false)]
      ensures State() == steps[|steps| - 1] && canvas == old(canvas)
    {
      isLoading := true;
      steps := [State()];
      error := None;
      steps := steps + [State()];
      if load.Ok? {
        model := Some(load.value);
        steps := steps + [State()];
      } else {
        error := Some(Message(load.error, "Failed to initialize"));
        steps := steps + [State()];
      }
      isLoading := false;
      steps := steps + [State()];
    }

    /** The loop test: model, webcam and canvas refs set and the captured running flag set. */
    predicate Proceeds(cap: Captured)
      reads this
    {
      model.Some? && webcam.Some? && canvas != null && cap.isRunning
    }

    /** The start test: model, webcam and canvas refs set and the captured running flag clear. */
    predicate Starts(cap: Captured)
      reads this
    {
      model.Some? && webcam.Some? && canvas != null && !cap.isRunning
    }

    /** The effect of one pass from the call's pre-state: the pass's own
        allocations and dispose calls, the graph called once with the ref's
        states when a frame was captured; then on completion `src` and the old
        ref states disposed, r1o .. r4o stored in the ref and the next frame
        requested, and on a throwing step the message stored and the running
        flag cleared with nothing more disposed or scheduled. */
    twostate predicate Passed(cap: Captured, tick: Cycle.Tick, end: Cycle.CycleEnd)
      requires old(model).Some?
      reads this, engine, frames
    {
      var n := |old(engine.tensors)|;
      var c := Render.Dispatch(Value(cap.selectedBackground));
      var s := old(recurrentStates);
      && canvas == old(canvas)
      && |engine.tensors| == n + Cycle.StepsAllocs(c, end)
      && engine.tensors[..n] == old(engine.tensors)
      && engine.modelDisposals == old(engine.modelDisposals)
      && engine.executions == old(engine.executions) +
           (if tick.frame.Ok? then
              [Execution(old(model).value, Inputs(n + 1, s.r1, s.r2, s.r3, s.r4, n + 2), Inference.OUTPUT_NAMES)]
            else [])
      && (end.Completed? ==>
            && State() == old(State()).(recurrentStates := Inference.OutputsAt(n + 3).NextStates(),
                                        animationFrame := Some(tick.frameId))
            && engine.disposals == old(engine.disposals) + WidgetCycleLog(n, s, c)
            && frames.requested == old(frames.requested) + [tick.frameId]
            && frames.cancelled == old(frames.cancelled))
      && (!end.Completed? ==>
            && State() == old(State()).(error := Some(Cycle.ErrorOf(end, tick)), isRunning := false)
            && engine.disposals == old(engine.disposals) + Cycle.StepsLog(n, c, end)
            && frames.requested == old(frames.requested) && frames.cancelled == old(frames.cancelled))
    }

    /** After the render: `tf.dispose([src, ...old states])`, r1o .. r4o into
        the ref and the next frame requested; or, after a throwing step, the
        `catch` clause. */
    method Settle(end: Cycle.CycleEnd, src: Handle, outs: Outputs<Handle>, tick: Cycle.Tick,
                  ghost n: nat, ghost c: Render.DrawCall, ghost d0: seq<Handle>)
      requires Valid() && src == n + 1 && outs == Inference.OutputsAt(n + 3)
      requires end.Completed? ==> n + 9 <= |engine.tensors|
      requires engine.disposals == d0 + Cycle.StepsLog(n, c, end)
      modifies this, engine, frames
      ensures Valid() && canvas == old(canvas)
      ensures engine.tensors == old(engine.tensors)
      ensures engine.modelDisposals == old(engine.modelDisposals) && engine.executions == old(engine.executions)
      ensures end.Completed? ==>
                && State() == old(State()).(recurrentStates := outs.NextStates(), animationFrame := Some(tick.frameId))
                && engine.disposals == d0 + WidgetCycleLog(n, old(recurrentStates), c)
                && frames.requested == old(frames.requested) + [tick.frameId]
                && frames.cancelled == old(frames.cancelled)
      ensures !end.Completed? ==>
                && State() == old(State()).(error := Some(Cycle.ErrorOf(end, tick)), isRunning := false)
                && engine.disposals == old(engine.disposals)
                && frames.requested == old(frames.requested) && frames.cancelled == old(frames.cancelled)
    {
      if end.Completed? {
        engine.DisposeAll([src] + recurrentStates.Values());
        recurrentStates := outs.NextStates();
        frames.Request(tick.frameId);
        animationFrame := Some(tick.frameId);
      } else {
        error := Some(Cycle.ErrorOf(end, tick));
        isRunning := false;
      }
    }

    /** One pass of the loop body past its guard. */
    method RunCycle(cap: Captured, tick: Cycle.Tick, cast: Cast) returns (end: Cycle.CycleEnd)
      requires Valid() && Cycle.TickValid(tick) && Proceeds(cap)
      modifies this, engine, frames, canvas
      ensures Valid()
      ensures end == Cycle.EndOf(tick, Value(cap.selectedBackground), cast)
      ensures Passed(cap, tick, end)
      ensures Cycle.CanvasAfter(canvas, tick, Value(cap.selectedBackground), cast, end)
    {
      var n := |engine.tensors|;
      var selected := Value(cap.selectedBackground);
      var src, outs;
      end, src, outs := Cycle.RunSteps(engine, model.value, recurrentStates, canvas, selected, tick, cast);
      Settle(end, src, outs, tick, n, Render.Dispatch(selected), old(engine.disposals));
    }

    /** `inferenceLoop()`: returns at once unless the refs are set and the
        captured running flag is set; otherwise one pass. */
    method InferenceLoop(cap: Captured, tick: Cycle.Tick, cast: Cast) returns (end: Option<Cycle.CycleEnd>)
      requires Valid() && Cycle.TickValid(tick)
      modifies this, engine, frames, canvas
      ensures Valid()
      ensures !old(Proceeds(cap)) ==>
                && end == None
                && unchanged(this, engine, frames)
                && (canvas != null ==> unchanged(canvas))
      ensures old(Proceeds(cap)) ==>
                && end == Some(Cycle.EndOf(tick, Value(cap.selectedBackground), cast))
                && Passed(cap, tick, end.value)
                && Cycle.CanvasAfter(canvas, tick, Value(cap.selectedBackground), cast, end.value)
    {
      if model.None? || webcam.None? || canvas == null || !cap.isRunning {
        return None;
      }
      var e := RunCycle(cap, tick, cast);
      end := Some(e);
    }

    /** `startInference()`: a no-op when a ref is empty or the captured running
        flag is set; otherwise the running flag is set and the loop entered
        once. That call tests the same captured flag, which was clear, so it
        returns before capturing a frame. */
    method StartInference(cap: Captured, tick: Cycle.Tick, cast: Cast)
      requires Valid() && Cycle.TickValid(tick)
      modifies this, engine, frames, canvas
      ensures Valid() && canvas == old(canvas)
      ensures old(Starts(cap)) ==> State() == old(State()).(isRunning := true)
      ensures !old(Starts(cap)) ==> State() == old(State())
      ensures unchanged(engine, frames)
      ensures canvas != null ==> unchanged(canvas)
    {
      if model.None? || webcam.None? || canvas == null || cap.isRunning {
        return;
      }
      isRunning := true;
      var end := InferenceLoop(cap, tick, cast);
    }

    /** The webcam effect, once the video element is mounted: the webcam ref is
        set from `setupWebcam` and `startInference` called. When `setupWebcam`
        rejects, the effect's promise rejects and nothing changes. */
    method SetupWebcam(videoPresent: bool, setup: Result<Webcam.WebcamId, Thrown>,
                       cap: Captured, tick: Cycle.Tick, cast: Cast)
      requires Valid() && Cycle.TickValid(tick)
      modifies this, engine, frames, canvas
      ensures Valid() && canvas == old(canvas)
      ensures !(videoPresent && setup.Ok?) ==> State() == old(State())
      ensures videoPresent && setup.Ok? ==>
                var s := old(State()).(webcam := Some(setup.value));
                State() == if old(model).Some? && old(canvas) != null && !cap.isRunning then s.(isRunning := true) else s
      ensures unchanged(engine, frames)
      ensures canvas != null ==> unchanged(canvas)
    {
      if !videoPresent || setup.Err? {
        return;
      }
      webcam := Some(setup.value);
      StartInference(cap, tick, cast);
    }

    /** `stopInference()`: the running flag is cleared; a pending frame id is
        cancelled and cleared when it is truthy, that is, present and not 0. */
    method StopInference()
      modifies this, frames
      ensures canvas == old(canvas)
      ensures var pending := old(animationFrame).Some? && old(animationFrame).value != 0;
              && State() == old(State()).(isRunning := false, animationFrame := if pending then None else old(animationFrame))
              && frames.cancelled == old(frames.cancelled) + (if pending then [old(animationFrame).value] else [])
              && frames.requested == old(frames.requested)
    {
      isRunning := false;
      if animationFrame.Some? && animationFrame.value != 0 {
        frames.Cancel(animationFrame.value);
        animationFrame := None;
      }
    }

    /** The unmount cleanup: `stopInference()`, the model disposed when its ref
        is set, and the four handles currently in the state ref disposed. */
    method Unmount()
      requires Valid()
      modifies this, engine, frames
      ensures Valid() && canvas == old(canvas)
      ensures var pending := old(animationFrame).Some? && old(animationFrame).value != 0;
              && State() == old(State()).(isRunning := false, animationFrame := if pending then None else old(animationFrame))
              && frames.cancelled == old(frames.cancelled) + (if pending then [old(animationFrame).value] else [])
              && frames.requested == old(frames.requested)
      ensures engine.modelDisposals == old(engine.modelDisposals) + Present(old(model))
      ensures engine.disposals == old(engine.disposals) + old(recurrentStates).Values()
      ensures engine.tensors == old(engine.tensors) && engine.executions == old(engine.executions)
    {
      StopInference();
      if model.Some? {
        engine.DisposeModel(model.value);
      }
      engine.DisposeAll(recurrentStates.Values());
    }
  }
}
