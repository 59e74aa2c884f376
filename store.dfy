/** The zustand segmentation store: the loaded model and webcam, the recurrent
    state handles, the loading/running/error flags, the selected view and the
    three performance metrics, with the actions that update them. */
module Store {
  import opened Types
  import opened Tensors
  import LoadModel
  import Webcam

  /** Every field the store holds, as one record. */
  datatype StoreState = StoreState(
    model: Option<ModelId>,
    webcam: Option<Webcam.WebcamId>,
    recurrentStates: States<Handle>,
    isLoading: bool,
    isRunning: bool,
    error: Option<string>,
    selectedBackground: ViewOption,
    fps: real,
    inferenceTime: real,
    lastFrameTime: real)

  /** The state the store is created with, and `reset` returns to, around a
      given record of recurrent state handles. */
  function Initial(states: States<Handle>): StoreState
  {
    StoreState(None, None, states, true, false, None, White, 0.0, 0.0, 0.0)
  }

  class SegmentationStore {
    /** The tensor runtime whose handles the store holds. */
    const engine: Engine

    var model: Option<ModelId>
    var webcam: Option<Webcam.WebcamId>
    var recurrentStates: States<Handle>
    var isLoading: bool
    var isRunning: bool
    var error: Option<string>
    var selectedBackground: ViewOption
    var fps: real
    var inferenceTime: real
    var lastFrameTime: real

    function State(): StoreState
      reads this
    {
      StoreState(model, webcam, recurrentStates, isLoading, isRunning, error,
                 selectedBackground, fps, inferenceTime, lastFrameTime)
    }

    /** The runtime is consistent and the state handles were allocated by it. */
    ghost predicate Valid()
      reads this, engine
    {
      && engine.Valid()
      && forall k :: 0 <= k < 4 ==> recurrentStates.Values()[k] < |engine.tensors|
    }

    /** The store's creation: the recurrent states are four fresh zero scalars,
        everything else takes its initial value. */
    constructor (engine: Engine)
      requires engine.Valid()
      modifies engine
      ensures this.engine == engine && Valid()
      ensures State() == Initial(LoadModel.FreshStates(|old(engine.tensors)|))
      ensures engine.tensors == old(engine.tensors) + LoadModel.ZERO_STATES
      ensures engine.disposals == old(engine.disposals)
      ensures engine.modelDisposals == old(engine.modelDisposals) && engine.executions == old(engine.executions)
    {
      var states := LoadModel.InitializeRecurrentStates(engine);
      this.engine := engine;
      model, webcam, recurrentStates := None, None, states;
      isLoading, isRunning, error := true, false, None;
      selectedBackground, fps, inferenceTime, lastFrameTime := White, 0.0, 0.0, 0.0;
    }

    method SetModel(m: Option<ModelId>)
      modifies this
      ensures State() == old(State()).(model := m)
    {
      model := m;
    }

    method SetWebcam(w: Option<Webcam.WebcamId>)
      modifies this
      ensures State() == old(State()).(webcam := w)
    {
      webcam := w;
    }

    method SetLoading(b: bool)
      modifies this
      ensures State() == old(State()).(isLoading := b)
    {
      isLoading := b;
    }

    method SetRunning(b: bool)
      modifies this
      ensures State() == old(State()).(isRunning := b)
    {
      isRunning := b;
    }

    method SetError(e: Option<string>)
      modifies this
      ensures State() == old(State()).(error := e)
    {
      error := e;
    }

    method SetSelectedBackground(o: ViewOption)
      modifies this
      ensures State() == old(State()).(selectedBackground := o)
    {
      selectedBackground := o;
    }

    method UpdateFPS(v: real)
      modifies this
      ensures State() == old(State()).(fps := v)
    {
      fps := v;
    }

    method UpdateInferenceTime(v: real)
      modifies this
      ensures State() == old(State()).(inferenceTime := v)
    {
      inferenceTime := v;
    }

    method UpdateLastFrameTime(v: real)
      modifies this
      ensures State() == old(State()).(lastFrameTime := v)
    {
      lastFrameTime := v;
    }

    /** `updateRecurrentStates(states)`: each of the four current handles is
        disposed once, in field order, whether or not it was disposed before,
        and exactly the given record is stored. */
    method UpdateRecurrentStates(states: States<Handle>)
      requires Valid()
      requires forall k :: 0 <= k < 4 ==> states.Values()[k] < |engine.tensors|
      modifies this, engine
      ensures Valid()
      ensures State() == old(State()).(recurrentStates := states)
      ensures engine.disposals == old(engine.disposals) + old(recurrentStates).Values()
      ensures engine.tensors == old(engine.tensors)
      ensures engine.modelDisposals == old(engine.modelDisposals) && engine.executions == old(engine.executions)
    {
      engine.DisposeAll(recurrentStates.Values());
      recurrentStates := states;
    }

    /** `cleanup()`: the model is disposed when there is one, the four state
        handles are disposed, the webcam is dropped, and model, running flag and
        error are cleared. The state record still names the disposed handles;
        the loading flag, the selected view and the metrics are kept. */
    method Cleanup()
      requires Valid()
      modifies this, engine
      ensures Valid()
      ensures State() == old(State()).(model := None, webcam := None, isRunning := false, error := None)
      ensures engine.modelDisposals == old(engine.modelDisposals) + Present(old(model))
      ensures engine.disposals == old(engine.disposals) + old(recurrentStates).Values()
      ensures engine.tensors == old(engine.tensors) && engine.executions == old(engine.executions)
    {
      if model.Some? {
        engine.DisposeModel(model.value);
      }
      engine.DisposeAll(recurrentStates.Values());
      if webcam.Some? {
        webcam := None;
      }
      model, isRunning, error := None, false, None;
    }

    /** `reset()`: `cleanup()`, then every field back to its initial value, with
        four fresh live zero scalars as the recurrent states. */
    method Reset()
      requires Valid()
      modifies this, engine
      ensures Valid()
      ensures State() == Initial(LoadModel.FreshStates(|old(engine.tensors)|))
      ensures engine.tensors == old(engine.tensors) + LoadModel.ZERO_STATES
      ensures engine.modelDisposals == old(engine.modelDisposals) + Present(old(model))
      ensures engine.disposals == old(engine.disposals) + old(recurrentStates).Values()
      ensures engine.executions == old(engine.executions)
      ensures forall k :: 0 <= k < 4 ==> recurrentStates.Values()[k] in engine.Live()
    {
      Cleanup();
      Reinitialise();
    }

    /** The `set` call of `reset()`: every field takes its initial value and
        the recurrent states are four fresh zero scalars. */
    method Reinitialise()
      requires engine.Valid()
      modifies this, engine
      ensures Valid()
      ensures State() == Initial(LoadModel.FreshStates(|old(engine.tensors)|))
      ensures engine.tensors == old(engine.tensors) + LoadModel.ZERO_STATES
      ensures engine.disposals == old(engine.disposals)
      ensures engine.modelDisposals == old(engine.modelDisposals) && engine.executions == old(engine.executions)
      ensures forall k :: 0 <= k < 4 ==> recurrentStates.Values()[k] in engine.Live()
    {
      var states := LoadModel.InitializeRecurrentStates(engine);
      model, webcam, recurrentStates := None, None, states;
      isLoading, isRunning, error := true, false, None;
      selectedBackground, fps, inferenceTime, lastFrameTime := White, 0.0, 0.0, 0.0;
    }
  }
}
