/** Tensor values and the handle ledger of the tensor runtime.

    A handle is the position of an allocation in the runtime's allocation log;
    the runtime remembers the value each handle was created with, every
    `dispose` call in order (a second call on the same handle is recorded too,
    even though the runtime ignores it), every model disposal and every model
    execution. A handle is live while it has been allocated and never disposed. */
module Tensors {
  import opened Types
  import Arith

  type Handle = nat
  type ModelId = nat

  /** A dense tensor: its shape and its elements in row-major order. */
  datatype Tensor = Tensor(shape: seq<nat>, data: seq<real>)

  /** Number of elements of a tensor of the given shape. */
  function Size(shape: seq<nat>): nat
  {
    if shape == [] then 1 else shape[0] * Size(shape[1..])
  }

  predicate WellFormed(t: Tensor)
  {
    |t.data| == Size(t.shape)
  }

  lemma Size3(a: nat, b: nat, c: nat)
    ensures Size([a, b, c]) == a * b * c
  {
    assert [a, b, c][1..] == [b, c];
    assert [b, c][1..] == [c];
    assert [c][1..] == [];
    assert Size([c]) == c;
    assert Size([b, c]) == b * c;
  }

  lemma Size4(a: nat, b: nat, c: nat, d: nat)
    ensures Size([a, b, c, d]) == a * b * c * d
  {
    assert [a, b, c, d][1..] == [b, c, d];
    Size3(b, c, d);
  }

  /** A well-formed tensor of shape [1, H, W, C], the layout of every image-like
      and recurrent tensor the model exchanges. */
  predicate Batch1(t: Tensor)
  {
    WellFormed(t) && |t.shape| == 4 && t.shape[0] == 1
  }

  /** Element [0, h, w, c] of a [1, H, W, C] tensor. */
  function At(t: Tensor, h: nat, w: nat, c: nat): real
    requires Batch1(t) && h < t.shape[1] && w < t.shape[2] && c < t.shape[3]
  {
    var H, W, C := t.shape[1], t.shape[2], t.shape[3];
    Arith.IndexBound(h, w, H, W);
    Arith.IndexBound(h * W + w, c, H * W, C);
    assert t.shape == [1, H, W, C];
    Size4(1, H, W, C);
    t.data[(h * W + w) * C + c]
  }

  /** An int32 tensor of shape [height, width, 4]: the RGBA buffer a renderer builds. */
  datatype Rgba = Rgba(height: nat, width: nat, data: seq<int>)

  predicate RgbaWellFormed(m: Rgba)
  {
    |m.data| == m.height * m.width * 4
  }

  /** The tensor value of an RGBA buffer. */
  function RgbaTensor(m: Rgba): Tensor
  {
    IntTensor([m.height, m.width, 4], m.data)
  }

  lemma RgbaTensorWellFormed(m: Rgba)
    requires RgbaWellFormed(m)
    ensures WellFormed(RgbaTensor(m)) && RgbaTensor(m).shape == [m.height, m.width, 4]
  {
    Size3(m.height, m.width, 4);
  }

  /** `tf.tensor(v)`: a rank-0 tensor holding v. */
  function Scalar(v: real): Tensor
  {
    Tensor([], [v])
  }

  lemma ScalarWellFormed(v: real)
    ensures WellFormed(Scalar(v)) && Scalar(v).shape == [] && Scalar(v).data == [v]
  {
  }

  /** An int32 tensor, its integer elements stored as reals. */
  function IntTensor(shape: seq<nat>, ints: seq<int>): Tensor
  {
    Tensor(shape, seq(|ints|, i requires 0 <= i < |ints| => ints[i] as real))
  }

  /** The float-to-int32 conversions the renderers apply: `(v + 1) * 127.5`
      cast to int32 for hidden states and `v * 255` cast to int32 for mattes.
      Their floating-point arithmetic is left abstract. */
  datatype Cast = Cast(gray: real -> int, scale: real -> int)

  /** The handles a, a+1, ..., b-1, in allocation order. */
  function Range(a: nat, b: nat): seq<Handle>
    decreases b - a
  {
    if a >= b then [] else [a] + Range(a + 1, b)
  }

  lemma {:induction false} RangeCount(a: nat, b: nat, x: Handle)
    ensures multiset(Range(a, b))[x] == if a <= x < b then 1 else 0
    decreases b - a
  {
    if a < b {
      RangeCount(a + 1, b, x);
      assert Range(a, b) == [a] + Range(a + 1, b);
      assert multiset(Range(a, b)) == multiset([a]) + multiset(Range(a + 1, b));
    } else {
      assert Range(a, b) == [];
    }
  }

  lemma {:induction false} RangeIndex(a: nat, b: nat, i: nat)
    requires a + i < b
    ensures |Range(a, b)| == b - a && Range(a, b)[i] == a + i
    decreases b - a
  {
    if i > 0 {
      RangeIndex(a + 1, b, i - 1);
    } else if a + 1 < b {
      RangeIndex(a + 1, b, 0);
    }
  }

  /** Extending a range by its end handle. */
  lemma {:induction false} RangeSnoc(a: nat, b: nat)
    requires a <= b
    ensures Range(a, b) + [b] == Range(a, b + 1)
    decreases b - a
  {
    if a < b {
      RangeSnoc(a + 1, b);
      assert Range(a, b) + [b] == [a] + (Range(a + 1, b) + [b]);
    }
  }

  /** The handle an optional argument holds, as a sequence of zero or one handles. */
  function Present(o: Option<Handle>): seq<Handle>
  {
    if o.Some? then [o.value] else []
  }

  /** The value behind an optional handle. */
  function Lookup(ts: seq<Tensor>, o: Option<Handle>): Option<Tensor>
  {
    if o.Some? && o.value < |ts| then Some(ts[o.value]) else None
  }

  /** How many times h was disposed in the log d. */
  function Count(d: seq<Handle>, h: Handle): nat
  {
    multiset(d)[h]
  }

  lemma CountConcat(a: seq<Handle>, b: seq<Handle>, h: Handle)
    ensures Count(a + b, h) == Count(a, h) + Count(b, h)
  {
    assert multiset(a + b) == multiset(a) + multiset(b);
  }

  lemma CountSingle(x: Handle, h: Handle)
    ensures Count([x], h) == if h == x then 1 else 0
  {
  }

  lemma CountAppend(a: seq<Handle>, b: seq<Handle>, x: Handle, h: Handle)
    ensures Count(a + b + [x], h) == Count(a, h) + Count(b, h) + if h == x then 1 else 0
  {
    CountConcat(a, b, h);
    CountConcat(a + b, [x], h);
    CountSingle(x, h);
  }

  lemma CountExtend(a: seq<Handle>, x: Handle, b: seq<Handle>, h: Handle)
    ensures Count(a + ([x] + b), h) == Count(a, h) + Count(b, h) + if h == x then 1 else 0
  {
    CountConcat(a, [x] + b, h);
    CountConcat([x], b, h);
    CountSingle(x, h);
  }

  /** A handle is in a log exactly when the log counts it. */
  lemma CountIn(d: seq<Handle>, h: Handle)
    ensures h in d <==> Count(d, h) > 0
  {
  }

  /** The live handles of a runtime that has made n allocations and the dispose calls d. */
  function LiveOf(n: nat, d: seq<Handle>): set<Handle>
  {
    set h | 0 <= h < n && h !in d
  }

  /** Disposing the handles e removes exactly them from the live set. */
  lemma LiveAfterDispose(n: nat, d: seq<Handle>, e: seq<Handle>)
    ensures LiveOf(n, d + e) == LiveOf(n, d) - (set h | h in e)
  {
  }

  /** One call of `model.executeAsync`: which model, with which input record,
      asking for which outputs. */
  datatype Execution = Execution(model: ModelId, inputs: Inputs<Handle>, outputNames: seq<string>)

  class Engine {
    var tensors: seq<Tensor>
    var disposals: seq<Handle>
    var modelDisposals: seq<ModelId>
    var executions: seq<Execution>

    ghost predicate Valid()
      reads this
    {
      && (forall i :: 0 <= i < |tensors| ==> WellFormed(tensors[i]))
      && (forall k :: 0 <= k < |disposals| ==> disposals[k] < |tensors|)
    }

    function Live(): set<Handle>
      reads this
    {
      LiveOf(|tensors|, disposals)
    }

    constructor ()
      ensures Valid()
      ensures tensors == [] && disposals == [] && modelDisposals == [] && executions == []
    {
      tensors, disposals, modelDisposals, executions := [], [], [], [];
    }

    /** Creates a tensor holding t; its handle is fresh. */
    method Alloc(t: Tensor) returns (h: Handle)
      requires Valid() && WellFormed(t)
      modifies this
      ensures Valid()
      ensures h == |old(tensors)| && tensors == old(tensors) + [t]
      ensures disposals == old(disposals) && modelDisposals == old(modelDisposals)
      ensures executions == old(executions)
      ensures Live() == old(Live()) + {h}
    {
      h := |tensors|;
      tensors := tensors + [t];
    }

    /** `tensor.dispose()`. */
    method Dispose(h: Handle)
      requires Valid() && h < |tensors|
      modifies this
      ensures Valid()
      ensures disposals == old(disposals) + [h] && tensors == old(tensors)
      ensures modelDisposals == old(modelDisposals) && executions == old(executions)
      ensures Live() == old(Live()) - {h}
    {
      disposals := disposals + [h];
    }

    /** Disposes every handle of hs in order, as a `forEach` over `Object.values`
        and `tf.dispose([...])` do. `tf.dispose` skips a tensor it has already
        seen in the same array, while this log counts a repeated handle each
        time; the arrays the loops dispose never repeat a handle (the ref's
        states are four distinct outputs of one graph call, or four distinct
        fresh zeros), so the two agree wherever the model calls it. */
    method DisposeAll(hs: seq<Handle>)
      requires Valid() && forall k :: 0 <= k < |hs| ==> hs[k] < |tensors|
      modifies this
      ensures Valid()
      ensures disposals == old(disposals) + hs && tensors == old(tensors)
      ensures modelDisposals == old(modelDisposals) && executions == old(executions)
      ensures Live() == old(Live()) - (set h | h in hs)
    {
      var i := 0;
      while i < |hs|
        invariant 0 <= i <= |hs|
        invariant Valid() && tensors == old(tensors)
        invariant disposals == old(disposals) + hs[..i]
        invariant modelDisposals == old(modelDisposals) && executions == old(executions)
      {
        Dispose(hs[i]);
        i := i + 1;
      }
      assert hs[..i] == hs;
      LiveAfterDispose(|tensors|, old(disposals), hs);
    }

    /** `tensor.clone()`: a fresh handle with the same value. */
    method Clone(h: Handle) returns (c: Handle)
      requires Valid() && h < |tensors|
      modifies this
      ensures Valid()
      ensures c == |old(tensors)| && tensors == old(tensors) + [old(tensors)[h]]
      ensures disposals == old(disposals) && modelDisposals == old(modelDisposals)
      ensures executions == old(executions)
      ensures Live() == old(Live()) + {c}
    {
      c := Alloc(tensors[h]);
    }

    /** `model.dispose()`. */
    method DisposeModel(m: ModelId)
      modifies this
      ensures modelDisposals == old(modelDisposals) + [m]
      ensures tensors == old(tensors) && disposals == old(disposals) && executions == old(executions)
    {
      modelDisposals := modelDisposals + [m];
    }

    /** `model.executeAsync(inputs, names)`, a call into the model whose result
        is given: either the value it produces under each output name, or what
        it throws. The call is recorded; on success one fresh tensor per
        requested name is created, in the order of the names. */
    method Execute(m: ModelId, inputs: Inputs<Handle>, names: seq<string>,
                   result: Result<map<string, Tensor>, Thrown>)
      returns (r: Result<seq<Handle>, Thrown>)
      requires Valid()
      requires result.Ok? ==> forall nm :: nm in names ==> nm in result.value && WellFormed(result.value[nm])
      modifies this
      ensures Valid()
      ensures executions == old(executions) + [Execution(m, inputs, names)]
      ensures disposals == old(disposals) && modelDisposals == old(modelDisposals)
      ensures result.Err? ==> r == Err(result.error) && tensors == old(tensors)
      ensures result.Ok? ==>
        && r == Ok(Range(|old(tensors)|, |old(tensors)| + |names|))
        && |tensors| == |old(tensors)| + |names|
        && tensors[..|old(tensors)|] == old(tensors)
        && forall i :: 0 <= i < |names| ==> tensors[|old(tensors)| + i] == result.value[names[i]]
    {
      executions := executions + [Execution(m, inputs, names)];
      if result.Err? {
        r := Err(result.error);
      } else {
        var n := |tensors|;
        var produced := seq(|names|, i requires 0 <= i < |names| => result.value[names[i]]);
        tensors := tensors + produced;
        r := Ok(Range(n, n + |names|));
      }
    }
  }
}
