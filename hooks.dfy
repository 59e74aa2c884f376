/** `useSegmentationInit` and `useSegmentationInference`: the hooks that load
    the model into the store and drive the store-backed inference loop.

    The loop closure is created by `startInference` from the values the store
    held at the last render (a `Snapshot`); every later frame the browser
    schedules runs the same closure, so it keeps testing the captured running
    flag and feeding the graph the captured recurrent states. */
module Hooks {
  import opened Types
  import opened Tensors
  import Dom
  import Inference
  import Webcam
  import Render
  import Cycle
  import Store

  /** The store fields the hook reads when it renders, as the loop closure captures them. */
  datatype Snapshot = Snapshot(
    model: Option<ModelId>,
    webcam: Option<Webcam.WebcamId>,
    recurrentStates: States<Handle>,
    isRunning: bool,
    selectedBackground: ViewOption)

  /** The test at the head of `inferenceLoop`: model, webcam and canvas present
      and the captured running flag set. */
  predicate Proceeds(snap: Snapshot, canvasPresent: bool)
  {
    snap.model.Some? && snap.webcam.Some? && canvasPresent && snap.isRunning
  }

  /** The test at the head of `startInference`: it goes on only when model,
      webcam and canvas are present and the captured running flag is clear. */
  predicate Starts(snap: Snapshot, canvasPresent: bool)
  {
    snap.model.Some? && snap.webcam.Some? && canvasPresent && !snap.isRunning
  }

  /** Dispose calls of a completed pass starting at n when the store held the
      states `current`: the pass's own, then `updateRecurrentStates` disposing
      `current`, then `tf.dispose([src])`. */
  function HooksCycleLog(n: nat, current: States<Handle>, c: Render.DrawCall): seq<Handle>
  {
    Cycle.StepsLog(n, c, Cycle.Completed) + current.Values() + [n + 1]
  }

  /** How often a completed pass starting at n disposes each handle when the
      store held `current`: the input frame, the ratio scalar, each output and
      each render buffer once, every handle of `current` as often as it occurs
      there, and the raw frame n never. */
  lemma {:induction false} HooksCycleCounts(n: nat, current: States<Handle>, c: Render.DrawCall, h: Handle)
    ensures Count(HooksCycleLog(n, current, c), h) ==
              (if h == n + 1 || h == n + 2 || n + 3 <= h < n + 10 + Render.Clones(c) then 1 else 0)
              + Count(current.Values(), h)
  {
    var steps := Cycle.StepsLog(n, c, Cycle.Completed);
    Cycle.StepsCounts(n, c, h);
    CountAppend(steps, current.Values(), n + 1, h);
  }

  /** A completed pass disposes an older handle exactly as often as the
      store's states name it. */
  lemma OlderCounts(n: nat, current: States<Handle>, c: Render.DrawCall, h: Handle)
    requires h < n
    ensures Count(HooksCycleLog(n, current, c), h) == Count(current.Values(), h)
  {
    HooksCycleCounts(n, current, c, h);
  }

  /** The states a completed pass installs, r1o .. r4o, are the handles
      n + 5 .. n + 8, and the same pass has already disposed each of them
      once, so the store is left holding disposed handles. */
  lemma InstalledDisposed(n: nat, s: States<Handle>, c: Render.DrawCall, h: Handle)
    requires n + 5 <= h < n + 9
    requires forall j :: 0 <= j < 4 ==> s.Values()[j] < n
    ensures Count(HooksCycleLog(n, s, c), h) == 1
  {
    HooksCycleCounts(n, s, c, h);
    CountIn(s.Values(), h);
  }

  /** The states the closure captured are disposed by a completed pass when
      the store still holds them, so the next pass of the same closure hands
      the graph disposed handles. */
  lemma CapturedDisposed(n: nat, s: States<Handle>, c: Render.DrawCall, h: Handle)
    requires h in s.Values()
    ensures Count(HooksCycleLog(n, s, c), h) >= 1
  {
    HooksCycleCounts(n, s, c, h);
    CountIn(s.Values(), h);
  }

  /** Two passes of the same closure, the second one started from handle m by
      the frame the first requested, from a store that held older states s:
      each state the first pass installs is disposed twice, once by the first
      render and once by the second `updateRecurrentStates`. */
  lemma HooksTwoPasses(n: nat, m: nat, s: States<Handle>, c: Render.DrawCall, h: Handle)
    requires n + 5 <= h < n + 9
    requires m == n + 10 + Render.Clones(c)
    requires forall j :: 0 <= j < 4 ==> s.Values()[j] < n
    ensures Count(HooksCycleLog(n, s, c) + HooksCycleLog(m, Inference.OutputsAt(n + 3).NextStates(), c), h) == 2
  {
    InstalledDisposed(n, s, c, h);
    OlderCounts(m, Inference.OutputsAt(n + 3).NextStates(), c, h);
    Inference.NextStatesOnce(n + 3, h);
    CountConcat(HooksCycleLog(n, s, c), HooksCycleLog(m, Inference.OutputsAt(n + 3).NextStates(), c), h);
  }

  /** What a completed pass leaves live: the handles live before it, less the
      store's states it disposed, plus the raw frame n, the one allocation of
      the pass that is never disposed. */
  lemma HooksCycleLive(n: nat, d: seq<Handle>, current: States<Handle>, c: Render.DrawCall)
    requires forall k :: 0 <= k < |d| ==> d[k] < n
    requires forall k :: 0 <= k < 4 ==> current.Values()[k] < n
    ensures LiveOf(n + 10 + Render.Clones(c), d + HooksCycleLog(n, current, c)) ==
              LiveOf(n, d) - (set h | h in current.Values()) + {n}
  {
    var log := HooksCycleLog(n, current, c);
    var N := n + 10 + Render.Clones(c);
    forall h | 0 <= h < N
      ensures h in d + log <==> (h in d || h in current.Values() || n < h)
    {
      HooksCycleCounts(n, current, c, h);
      CountIn(log, h);
      CountIn(current.Values(), h);
    }
    forall h
      ensures h in LiveOf(N, d + log) <==> h in LiveOf(n, d) - (set h | h in current.Values()) + {n}
    {
    }
  }

  /** `useSegmentationInference`: the store it drives, the browser's frame
      scheduler and `animationFrameRef`. */
  class SegmentationInference {
    const store: Store.SegmentationStore
    const frames: Dom.Frames
    var animationFrame: Option<nat>

    ghost predicate Valid()
      reads this, store, store.engine
    {
      store.Valid()
    }

    constructor (store: Store.SegmentationStore, frames: Dom.Frames)
      requires store.Valid()
      ensures Valid()
      ensures this.store == store && this.frames == frames && animationFrame == None
    {
      this.store, this.frames := store, frames;
      animationFrame := None;
    }

    /** The `try` block after a completed render: the three metrics, the
        recurrent outputs installed through `updateRecurrentStates` (which
        disposes the store's current states), `tf.dispose([src])`, and the next
        frame requested since the captured running flag is set. */
    method Complete(src: Handle, outs: Outputs<Handle>, tick: Cycle.Tick)
      requires Valid() && src < |store.engine.tensors|
      requires Inference.Allocated(outs, |store.engine.tensors|)
      modifies this, store, store.engine, frames
      ensures Valid()
      ensures store.State() == old(store.State()).(inferenceTime := tick.inferenceTime, fps := tick.fps,
                                                  lastFrameTime := tick.now, recurrentStates := outs.NextStates())
      ensures store.engine.disposals == old(store.engine.disposals) + old(store.recurrentStates).Values() + [src]
      ensures store.engine.tensors == old(store.engine.tensors)
      ensures store.engine.modelDisposals == old(store.engine.modelDisposals)
      ensures store.engine.executions == old(store.engine.executions)
      ensures frames.requested == old(frames.requested) + [tick.frameId] && frames.cancelled == old(frames.cancelled)
      ensures animationFrame == Some(tick.frameId)
    {
      store.UpdateInferenceTime(tick.inferenceTime);
      store.UpdateFPS(tick.fps);
      store.UpdateLastFrameTime(tick.now);
      store.UpdateRecurrentStates(outs.NextStates());
      store.engine.DisposeAll([src]);
      frames.Request(tick.frameId);
      animationFrame := Some(tick.frameId);
    }

    /** The `catch` clause: the message is stored and the running flag cleared. */
    method Fail(message: string)
      modifies store
      ensures store.State() == old(store.State()).(error := Some(message), isRunning := false)
    {
      store.SetError(Some(message));
      store.SetRunning(false);
    }

    /** The effect of one pass on the ledger, the store and the scheduler, from
        the call's pre-state: the pass's own allocations and dispose calls, the
        graph called once with the captured states when a frame was captured;
        then on completion the metrics and the recurrent outputs installed, the
        store's states and `src` disposed and the next frame requested, and on a
        throwing step the message stored, the running flag cleared and nothing
        more disposed or scheduled. */
    twostate predicate Passed(snap: Snapshot, tick: Cycle.Tick, end: Cycle.CycleEnd)
      requires snap.model.Some?
      reads this, store, store.engine, frames
    {
      var n := |old(store.engine.tensors)|;
      var c := Render.Dispatch(Value(snap.selectedBackground));
      && |store.engine.tensors| == n + Cycle.StepsAllocs(c, end)
      && store.engine.tensors[..n] == old(store.engine.tensors)
      && store.engine.modelDisposals == old(store.engine.modelDisposals)
      && store.engine.executions == old(store.engine.executions) +
           (if tick.frame.Ok? then
              [Execution(snap.model.value, Inputs(n + 1, snap.recurrentStates.r1, snap.recurrentStates.r2,
                         snap.recurrentStates.r3, snap.recurrentStates.r4, n + 2), Inference.OUTPUT_NAMES)]
            else [])
      && (end.Completed? ==>
            && store.State() == old(store.State()).(inferenceTime := tick.inferenceTime, fps := tick.fps,
                 lastFrameTime := tick.now, recurrentStates := Inference.OutputsAt(n + 3).NextStates())
            && store.engine.disposals == old(store.engine.disposals) + HooksCycleLog(n, old(store.recurrentStates), c)
            && frames.requested == old(frames.requested) + [tick.frameId]
            && frames.cancelled == old(frames.cancelled)
            && animationFrame == Some(tick.frameId))
      && (!end.Completed? ==>
            && store.State() == old(store.State()).(error := Some(Cycle.ErrorOf(end, tick)), isRunning := false)
            && store.engine.disposals == old(store.engine.disposals) + Cycle.StepsLog(n, c, end)
            && frames.requested == old(frames.requested) && frames.cancelled == old(frames.cancelled)
            && animationFrame == old(animationFrame))
    }

    /** One pass of the loop body past its guard. */
    method RunCycle(snap: Snapshot, canvas: Dom.Canvas, tick: Cycle.Tick, cast: Cast)
      returns (end: Cycle.CycleEnd)
      requires Valid() && Cycle.TickValid(tick) && Proceeds(snap, true)
      modifies this, store, store.engine, frames, canvas
      ensures Valid()
      ensures end == Cycle.EndOf(tick, Value(snap.selectedBackground), cast)
      ensures Passed(snap, tick, end)
      ensures Cycle.CanvasAfter(canvas, tick, Value(snap.selectedBackground), cast, end)
    {
      var n := |store.engine.tensors|;
      var selected := Value(snap.selectedBackground);
      var src, outs;
      end, src, outs := Cycle.RunSteps(store.engine, snap.model.value, snap.recurrentStates, canvas, selected, tick, cast);
      Settle(end, src, outs, tick, n, Render.Dispatch(selected), old(store.engine.disposals));
    }

    /** What the `try` block does after the render, or the `catch` clause does
        after a throwing step, once a pass starting at n has left the dispose
        calls d0 + StepsLog(n, c, end). */
    method Settle(end: Cycle.CycleEnd, src: Handle, outs: Outputs<Handle>, tick: Cycle.Tick,
                  ghost n: nat, ghost c: Render.DrawCall, ghost d0: seq<Handle>)
      requires Valid() && src == n + 1 && outs == Inference.OutputsAt(n + 3)
      requires end.Completed? ==> n + 9 <= |store.engine.tensors|
      requires store.engine.disposals == d0 + Cycle.StepsLog(n, c, end)
      modifies this, store, store.engine, frames
      ensures Valid()
      ensures store.engine.tensors == old(store.engine.tensors)
      ensures store.engine.modelDisposals == old(store.engine.modelDisposals)
      ensures store.engine.executions == old(store.engine.executions)
      ensures end.Completed? ==>
                && store.State() == old(store.State()).(inferenceTime := tick.inferenceTime, fps := tick.fps,
                     lastFrameTime := tick.now, recurrentStates := Inference.OutputsAt(n + 3).NextStates())
                && store.engine.disposals == d0 + HooksCycleLog(n, old(store.recurrentStates), c)
                && frames.requested == old(frames.requested) + [tick.frameId]
                && frames.cancelled == old(frames.cancelled)
                && animationFrame == Some(tick.frameId)
      ensures !end.Completed? ==>
                && store.State() == old(store.State()).(error := Some(Cycle.ErrorOf(end, tick)), isRunning := false)
                && store.engine.disposals == old(store.engine.disposals)
                && frames.requested == old(frames.requested) && frames.cancelled == old(frames.cancelled)
                && animationFrame == old(animationFrame)
    {
      if end.Completed? {
        Complete(src, outs, tick);
      } else {
        Fail(Cycle.ErrorOf(end, tick));
      }
    }

    /** `inferenceLoop()`: returns at once unless model, webcam and canvas are
        present and the captured running flag is set; otherwise one pass. */
    method InferenceLoop(snap: Snapshot, canvas: Dom.Canvas?, tick: Cycle.Tick, cast: Cast)
      returns (end: Option<Cycle.CycleEnd>)
      requires Valid() && Cycle.TickValid(tick)
      modifies this, store, store.engine, frames, canvas
      ensures Valid()
      ensures !Proceeds(snap, canvas != null) ==>
                && end == None
                && store.State() == old(store.State())
                && unchanged(store.engine, frames, this)
                && (canvas != null ==> unchanged(canvas))
      ensures Proceeds(snap, canvas != null) ==>
                && end == Some(Cycle.EndOf(tick, Value(snap.selectedBackground), cast))
                && Passed(snap, tick, end.value)
                && Cycle.CanvasAfter(canvas, tick, Value(snap.selectedBackground), cast, end.value)
    {
      if snap.model.None? || snap.webcam.None? || canvas == null || !snap.isRunning {
        return None;
      }
      var e := RunCycle(snap, canvas, tick, cast);
      end := Some(e);
    }

    /** `startInference(canvas)`: a no-op when model, webcam or canvas is missing
        or the captured running flag is set; otherwise the running flag is set,
        the error cleared, and the loop entered once. That call tests the same
        captured flag, which was clear, so it returns before capturing a frame:
        nothing is allocated, disposed, executed or scheduled. */
    method StartInference(snap: Snapshot, canvas: Dom.Canvas?, tick: Cycle.Tick, cast: Cast)
      requires Valid() && Cycle.TickValid(tick)
      modifies this, store, store.engine, frames, canvas
      ensures Valid()
      ensures Starts(snap, canvas != null) ==>
                store.State() == old(store.State()).(isRunning := true, error := None)
      ensures !Starts(snap, canvas != null) ==> store.State() == old(store.State())
      ensures unchanged(store.engine, frames, this)
      ensures canvas != null ==> unchanged(canvas)
    {
      if snap.model.None? || snap.webcam.None? || canvas == null || snap.isRunning {
        return;
      }
      store.SetRunning(true);
      store.SetError(None);
      var end := InferenceLoop(snap, canvas, tick, cast);
    }

    /** `stopInference()`: the running flag is cleared; a pending frame id is
        cancelled and cleared when it is truthy, that is, present and not 0. */
    method StopInference()
      modifies this, store, frames
      ensures store.State() == old(store.State()).(isRunning := false)
      ensures old(animationFrame).Some? && old(animationFrame).value != 0 ==>
                && frames.cancelled == old(frames.cancelled) + [old(animationFrame).value]
                && animationFrame == None
      ensures !(old(animationFrame).Some? && old(animationFrame).value != 0) ==>
                frames.cancelled == old(frames.cancelled) && animationFrame == old(animationFrame)
      ensures frames.requested == old(frames.requested)
    {
      store.SetRunning(false);
      if animationFrame.Some? && animationFrame.value != 0 {
        frames.Cancel(animationFrame.value);
        animationFrame := None;
      }
    }

    /** The unmount cleanup: a truthy pending frame id is cancelled but left in place. */
    method Unmount()
      modifies frames
      ensures animationFrame.Some? && animationFrame.value != 0 ==>
                frames.cancelled == old(frames.cancelled) + [animationFrame.value]
      ensures !(animationFrame.Some? && animationFrame.value != 0) ==> frames.cancelled == old(frames.cancelled)
      ensures frames.requested == old(frames.requested)
    {
      if animationFrame.Some? && animationFrame.value != 0 {
        frames.Cancel(animationFrame.value);
      }
    }
  }

  /** `initializeModel()` with the outcome of `loadSegmentationModel` given.
      `steps` lists the store after each action, in order: loading set and
      error cleared first, then the model stored and loading cleared, or the
      message stored ('Failed to load model' for a value that is not an
      `Error`) and loading cleared. */
  method InitializeModel(store: Store.SegmentationStore, load: Result<ModelId, Thrown>)
    returns (ghost steps: seq<Store.StoreState>)
    modifies store
    ensures var s0 := old(store.State()).(isLoading := true);
            var s1 := s0.(error := None);
            if load.Ok? then
              var s2 := s1.(model := Some(load.value));
              steps == [s0, s1, s2, s2.(isLoading := false)]
            else
              var s2 := s1.(error := Some(Message(load.error, "Failed to load model")));
              steps == [s0, s1, s2, s2.(isLoading := false)]
    ensures store.State() == steps[|steps| - 1]
  {
    store.SetLoading(true);
    steps := [store.State()];
    store.SetError(None);
    steps := steps + [store.State()];
    if load.Ok? {
      store.SetModel(Some(load.value));
      steps := steps + [store.State()];
      store.SetLoading(false);
    } else {
      store.SetError(Some(Message(load.error, "Failed to load model")));
      steps := steps + [store.State()];
      store.SetLoading(false);
    }
    steps := steps + [store.State()];
  }

  /** `initializeWebcam(video)` with the outcome of `setupWebcam` given: nothing
      without a video element; otherwise the webcam is stored, or the message
      ('Failed to setup webcam' for a value that is not an `Error`). */
  method InitializeWebcam(store: Store.SegmentationStore, videoPresent: bool,
                          setup: Result<Webcam.WebcamId, Thrown>)
    modifies store
    ensures !videoPresent ==> store.State() == old(store.State())
    ensures videoPresent && setup.Ok? ==> store.State() == old(store.State()).(webcam := Some(setup.value))
    ensures videoPresent && setup.Err? ==>
              store.State() == old(store.State()).(error := Some(Message(setup.error, "Failed to setup webcam")))
  {
    if !videoPresent {
      return;
    }
    if setup.Ok? {
      store.SetWebcam(Some(setup.value));
    } else {
      store.SetError(Some(Message(setup.error, "Failed to setup webcam")));
    }
  }
}
