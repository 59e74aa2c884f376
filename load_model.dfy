/** `initializeRecurrentStates`: the four zero scalars the recurrent network
    starts from. */
module LoadModel {
  import opened Types
  import opened Tensors

  /** The state record of four consecutive handles allocated from n on. */
  function FreshStates(n: nat): States<Handle>
  {
    States(n, n + 1, n + 2, n + 3)
  }

  /** The fresh record names the four handles n .. n + 3 in order. */
  lemma FreshStatesRange(n: nat)
    ensures FreshStates(n).Values() == Range(n, n + 4)
  {
    RangeIndex(n, n + 4, 0);
    RangeIndex(n, n + 4, 1);
    RangeIndex(n, n + 4, 2);
    RangeIndex(n, n + 4, 3);
  }

  /** The four values a fresh state record holds: `tf.tensor(0.)`, a rank-0 zero. */
  const ZERO_STATES: seq<Tensor> := [Scalar(0.0), Scalar(0.0), Scalar(0.0), Scalar(0.0)]

  /** `initializeRecurrentStates()`: four fresh rank-0 zero tensors as r1..r4;
      no existing handle is touched and the live set grows by exactly the four. */
  method InitializeRecurrentStates(engine: Engine) returns (states: States<Handle>)
    requires engine.Valid()
    modifies engine
    ensures engine.Valid()
    ensures states == FreshStates(|old(engine.tensors)|)
    ensures engine.tensors == old(engine.tensors) + ZERO_STATES
    ensures engine.disposals == old(engine.disposals)
    ensures engine.modelDisposals == old(engine.modelDisposals) && engine.executions == old(engine.executions)
    ensures engine.Live() == old(engine.Live()) + (set h | h in states.Values())
  {
    ScalarWellFormed(0.0);
    var r1 := engine.Alloc(Scalar(0.0));
    var r2 := engine.Alloc(Scalar(0.0));
    var r3 := engine.Alloc(Scalar(0.0));
    var r4 := engine.Alloc(Scalar(0.0));
    states := States(r1, r2, r3, r4);
    assert states.Values() == [r1, r2, r3, r4];
  }

  /** The four fresh handles are distinct, lie above every existing handle, and
      each holds a rank-0 zero. */
  lemma FreshStatesDistinct(n: nat)
    ensures forall i, j :: 0 <= i < j < 4 ==> FreshStates(n).Values()[i] != FreshStates(n).Values()[j]
    ensures forall i :: 0 <= i < 4 ==> FreshStates(n).Values()[i] >= n
    ensures forall i :: 0 <= i < 4 ==> ZERO_STATES[i].shape == [] && ZERO_STATES[i].data == [0.0]
  {
  }
}
