/** `performInference`: one call of the matting graph. The source frame and the
    four recurrent states are wired into the input record unchanged, a fresh
    downsample-ratio scalar is added, the six outputs come back in a fixed
    order, and the ratio scalar is disposed once the call has returned. */
module Inference {
  import opened Types
  import opened Tensors
  import Constants
  import DrawMatte

  /** The output names requested from the graph, in the order they are returned. */
  const OUTPUT_NAMES: seq<string> := ["fgr", "pha", "r1o", "r2o", "r3o", "r4o"]

  /** The graph produced a well-formed tensor under every requested name. */
  predicate Produces(p: map<string, Tensor>)
  {
    forall nm :: nm in OUTPUT_NAMES ==> nm in p && WellFormed(p[nm])
  }

  /** The six produced tensors as the output record. */
  function Produced(p: map<string, Tensor>): (o: Outputs<Tensor>)
    requires Produces(p)
    ensures |o.Values()| == |OUTPUT_NAMES|
    ensures forall i :: 0 <= i < |OUTPUT_NAMES| ==> o.Values()[i] == p[OUTPUT_NAMES[i]]
  {
    Outputs(p["fgr"], p["pha"], p["r1o"], p["r2o"], p["r3o"], p["r4o"])
  }

  /** The shapes the matting graph gives its image outputs: the foreground is
      [1, H, W, 3] and the alpha matte is [1, H, W, 1], of the same H and W. */
  predicate OutputsShaped(o: Outputs<Tensor>)
  {
    && DrawMatte.Shaped(Some(o.fgr), Some(o.pha))
    && o.fgr.shape[1] == o.pha.shape[1] && o.fgr.shape[2] == o.pha.shape[2]
  }

  /** What the graph is relied on to return: all six outputs, image outputs shaped. */
  predicate ModelContract(p: map<string, Tensor>)
  {
    Produces(p) && OutputsShaped(Produced(p))
  }

  /** The record of six consecutive handles allocated from b on, in output order. */
  function OutputsAt(b: nat): (o: Outputs<Handle>)
    ensures o.Values() == Range(b, b + 6)
  {
    RangeIndex(b, b + 6, 0);
    RangeIndex(b, b + 6, 1);
    RangeIndex(b, b + 6, 2);
    RangeIndex(b, b + 6, 3);
    RangeIndex(b, b + 6, 4);
    RangeIndex(b, b + 6, 5);
    Outputs(b, b + 1, b + 2, b + 3, b + 4, b + 5)
  }

  /** All six handles of the record are among the first n allocations. */
  predicate Allocated(o: Outputs<Handle>, n: nat)
  {
    o.fgr < n && o.pha < n && o.r1o < n && o.r2o < n && o.r3o < n && o.r4o < n
  }

  /** The values behind a record of output handles. */
  function OutputValues(ts: seq<Tensor>, o: Outputs<Handle>): (v: Outputs<Tensor>)
    requires Allocated(o, |ts|)
  {
    Outputs(ts[o.fgr], ts[o.pha], ts[o.r1o], ts[o.r2o], ts[o.r3o], ts[o.r4o])
  }

  /** Six consecutive stored values starting at b are the values behind `OutputsAt(b)`. */
  lemma OutputValuesAt(ts: seq<Tensor>, b: nat, v: Outputs<Tensor>)
    requires b + 6 <= |ts| && ts[b..b + 6] == v.Values()
    ensures Allocated(OutputsAt(b), |ts|) && OutputValues(ts, OutputsAt(b)) == v
  {
    assert ts[b] == ts[b..b + 6][0] && ts[b + 1] == ts[b..b + 6][1] && ts[b + 2] == ts[b..b + 6][2];
    assert ts[b + 3] == ts[b..b + 6][3] && ts[b + 4] == ts[b..b + 6][4] && ts[b + 5] == ts[b..b + 6][5];
  }

  /** Each recurrent output of the record at b, the handles b + 2 .. b + 5,
      is named once among the states the record hands on. */
  lemma NextStatesOnce(b: nat, h: Handle)
    requires b + 2 <= h < b + 6
    ensures Count(OutputsAt(b).NextStates().Values(), h) == 1
  {
    assert OutputsAt(b).NextStates().Values() == [b + 2, b + 3, b + 4, b + 5];
  }

  /** `performInference(model, src, recurrentStates)` with the graph's result given.
      The ratio scalar is allocated first; the graph runs on `src` and the four
      states unchanged; on success the six outputs are allocated in output order
      and the ratio scalar is disposed. When the graph throws there is no
      `finally`, so the ratio scalar stays live. Neither `src` nor a state handle
      is ever disposed here. */
  method PerformInference(engine: Engine, model: ModelId, src: Handle, states: States<Handle>,
                          result: Result<map<string, Tensor>, Thrown>)
    returns (r: Result<Outputs<Handle>, Thrown>)
    requires engine.Valid()
    requires result.Ok? ==> Produces(result.value)
    modifies engine
    ensures engine.Valid()
    ensures var n := |old(engine.tensors)|;
            && engine.executions == old(engine.executions) +
                 [Execution(model, Inputs(src, states.r1, states.r2, states.r3, states.r4, n), OUTPUT_NAMES)]
            && engine.modelDisposals == old(engine.modelDisposals)
            && (result.Err? ==>
                  && r == Err(result.error)
                  && engine.tensors == old(engine.tensors) + [Scalar(Constants.SEGMENTATION_CONFIG.downsampleRatio)]
                  && engine.disposals == old(engine.disposals))
            && (result.Ok? ==>
                  && r == Ok(OutputsAt(n + 1))
                  && engine.tensors == old(engine.tensors) + [Scalar(Constants.SEGMENTATION_CONFIG.downsampleRatio)]
                                       + Produced(result.value).Values()
                  && engine.disposals == old(engine.disposals) + [n]
                  && engine.Live() == old(engine.Live()) + (set h | h in r.value.Values()))
    ensures result.Err? ==> engine.Live() == old(engine.Live()) + {|old(engine.tensors)|}
  {
    var n := |engine.tensors|;
    ScalarWellFormed(Constants.SEGMENTATION_CONFIG.downsampleRatio);
    var ratio := engine.Alloc(Scalar(Constants.SEGMENTATION_CONFIG.downsampleRatio));
    var inputs := Inputs(src, states.r1, states.r2, states.r3, states.r4, ratio);
    var out := engine.Execute(model, inputs, OUTPUT_NAMES, result);
    if out.Err? {
      return Err(out.error);
    }
    var handles := out.value;
    RangeIndex(n + 1, n + 7, 0);
    RangeIndex(n + 1, n + 7, 1);
    RangeIndex(n + 1, n + 7, 2);
    RangeIndex(n + 1, n + 7, 3);
    RangeIndex(n + 1, n + 7, 4);
    RangeIndex(n + 1, n + 7, 5);
    engine.Dispose(ratio);
    r := Ok(Outputs(handles[0], handles[1], handles[2], handles[3], handles[4], handles[5]));
    assert r.value == OutputsAt(n + 1);
    AppendedOutputs(engine.tensors, old(engine.tensors) + [Scalar(Constants.SEGMENTATION_CONFIG.downsampleRatio)],
                    Produced(result.value).Values());
    LiveAfterCall(n, old(engine.disposals), r.value.Values());
  }

  /** A store that extends t and holds v's values after it is t + v. */
  lemma AppendedOutputs(s: seq<Tensor>, t: seq<Tensor>, v: seq<Tensor>)
    requires |s| == |t| + |v| && s[..|t|] == t
    requires forall i :: 0 <= i < |v| ==> s[|t| + i] == v[i]
    ensures s == t + v && s[|t|..] == v
  {
    assert forall i :: 0 <= i < |s| ==> s[i] == (t + v)[i] by {
      forall i | 0 <= i < |s| ensures s[i] == (t + v)[i] {
        if i < |t| {
          assert s[i] == s[..|t|][i];
        } else {
          assert s[i] == s[|t| + (i - |t|)];
        }
      }
    }
  }

  /** Seven allocations from n on and the disposal of the first leave the other
      six as the only new live handles. */
  lemma LiveAfterCall(n: nat, d: seq<Handle>, outs: seq<Handle>)
    requires outs == Range(n + 1, n + 7)
    requires forall k :: 0 <= k < |d| ==> d[k] < n
    ensures LiveOf(n + 7, d + [n]) == LiveOf(n, d) + (set h | h in outs)
  {
    forall h: Handle ensures h in outs <==> n + 1 <= h < n + 7 {
      RangeCount(n + 1, n + 7, h);
    }
  }
}
