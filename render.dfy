/** `renderOutput`: the view-mode dispatch shared, as two identical copies, by
    the inference hook and the widget. The selected view picks one draw call and
    the tensor it is given; after a successful draw the canvas gets the
    option's CSS background and all six outputs are disposed. */
module Render {
  import opened Types
  import opened Tensors
  import Constants
  import Dom
  import DrawHidden
  import DrawMatte
  import Inference

  /** The draw call a view makes: `drawHidden` on one recurrent output, or
      `drawMatte` on clones of the foreground and/or the alpha matte. */
  datatype DrawCall = Hidden(slot: Slot) | MatteCall(withFgr: bool, withPha: bool)

  /** The `switch (selectedBackground)`: the four recurrent views draw their
      state, alpha draws the matte alone, foreground the foreground alone, and
      every other string both. */
  function Dispatch(selected: string): (c: DrawCall)
    ensures c == Hidden(R1) <==> selected == "recurrent1"
    ensures c == Hidden(R2) <==> selected == "recurrent2"
    ensures c == Hidden(R3) <==> selected == "recurrent3"
    ensures c == Hidden(R4) <==> selected == "recurrent4"
    ensures c == MatteCall(false, true) <==> selected == "alpha"
    ensures c == MatteCall(true, false) <==> selected == "foreground"
    ensures c.MatteCall? ==> c.withFgr || c.withPha
  {
    if selected == "recurrent1" then Hidden(R1)
    else if selected == "recurrent2" then Hidden(R2)
    else if selected == "recurrent3" then Hidden(R3)
    else if selected == "recurrent4" then Hidden(R4)
    else if selected == "alpha" then MatteCall(false, true)
    else if selected == "foreground" then MatteCall(true, false)
    else MatteCall(true, true)
  }

  /** The dispatch over the eight options: each recurrent view shows its own
      state, white and green composite both outputs. */
  lemma DispatchByOption(o: ViewOption)
    ensures o == Recurrent1 ==> Dispatch(Value(o)) == Hidden(R1)
    ensures o == Recurrent2 ==> Dispatch(Value(o)) == Hidden(R2)
    ensures o == Recurrent3 ==> Dispatch(Value(o)) == Hidden(R3)
    ensures o == Recurrent4 ==> Dispatch(Value(o)) == Hidden(R4)
    ensures o == Alpha ==> Dispatch(Value(o)) == MatteCall(false, true)
    ensures o == Foreground ==> Dispatch(Value(o)) == MatteCall(true, false)
    ensures o == White || o == Green ==> Dispatch(Value(o)) == MatteCall(true, true)
  {
  }

  /** How many outputs a draw call clones before drawing. */
  function Clones(c: DrawCall): nat
  {
    match c
    case Hidden(_) => 0
    case MatteCall(f, a) => (if f then 1 else 0) + (if a then 1 else 0)
  }

  /** The optional `drawMatte` argument: the tensor when the call passes one, else null. */
  function MatteArg(t: Tensor, given: bool): Option<Tensor>
  {
    if given then Some(t) else None
  }

  /** The RGBA image a draw call builds from the output values, or nothing when
      its tensor pipeline raises. */
  function Picture(vals: Outputs<Tensor>, c: DrawCall, cast: Cast): (p: Option<Rgba>)
    requires Inference.OutputsShaped(vals)
    ensures c.MatteCall? && (c.withFgr || c.withPha) ==> p.Some?
    ensures p.Some? ==> RgbaWellFormed(p.value)
    ensures c.Hidden? ==> (p.Some? <==> DrawHidden.MosaicDefined(vals.Recurrent(c.slot)))
  {
    match c
    case Hidden(k) =>
      if DrawHidden.MosaicDefined(vals.Recurrent(k)) then Some(DrawHidden.Mosaic(vals.Recurrent(k), cast.gray))
      else None
    case MatteCall(f, a) =>
      var F, A := MatteArg(vals.fgr, f), MatteArg(vals.pha, a);
      if DrawMatte.MatteDefined(F, A) then Some(DrawMatte.Matte(F, A, cast.scale)) else None
  }

  /** How a draw ends for the image it builds. */
  function OutcomeOf(p: Option<Rgba>): Dom.DrawOutcome
  {
    if p.None? then Dom.TidyFailed
    else if Dom.ImageDataAccepts(|p.value.data|, p.value.width, p.value.height) then Dom.Painted
    else Dom.ImageRejected
  }

  /** The dispose calls of one draw call whose fresh allocations start at n:
      after a painted draw the clones and then the RGBA buffer; when `ImageData`
      rejects the buffer only the clones, which `drawMatte` disposes before
      wrapping the buffer; when the tensor pipeline raises nothing. */
  function DrawLog(n: nat, c: DrawCall, o: Dom.DrawOutcome): seq<Handle>
  {
    match o
    case Painted => Range(n, n + Clones(c) + 1)
    case ImageRejected => Range(n, n + Clones(c))
    case TidyFailed => []
  }

  /** The dispose calls of one `renderOutput`: those of its draw call, followed
      by the six outputs when the draw succeeded. */
  function RenderLog(n: nat, outs: Outputs<Handle>, c: DrawCall, o: Dom.DrawOutcome): seq<Handle>
  {
    DrawLog(n, c, o) + (if o == Dom.Painted then outs.Values() else [])
  }

  /** The canvas background after a successful render: the table entry's
      background when the string names an option, else the current one. */
  function BackgroundAfter(selected: string, current: string): string
  {
    match OptionNamed(selected)
    case Some(o) => Constants.BackgroundOf(o)
    case None => current
  }

  /** The lookup `renderOutput` does, `BACKGROUND_OPTIONS.find`, gives the
      background `BackgroundAfter` names. */
  lemma BackgroundLookup(selected: string, current: string)
    ensures var entry := Constants.FindByValue(Constants.BACKGROUND_OPTIONS, selected);
            (if entry.Some? then entry.value.background else current) == BackgroundAfter(selected, current)
  {
    OptionNamedValue(selected);
    match OptionNamed(selected)
    case Some(o) => Constants.FindOption(o);
    case None => Constants.FindUnknown(selected);
  }

  /** A string that names an option gives the canvas that option's backdrop. */
  lemma BackgroundAfterOption(o: ViewOption, current: string)
    ensures BackgroundAfter(Value(o), current) == Constants.BackgroundOf(o)
  {
    NamedOption(o);
  }

  /** A string that names no option leaves the background as it was. */
  lemma BackgroundAfterUnknown(selected: string, current: string)
    requires forall o: ViewOption :: Value(o) != selected
    ensures BackgroundAfter(selected, current) == current
  {
    OptionNamedValue(selected);
  }

  lemma RangeSmall(n: nat)
    ensures Range(n, n) == []
    ensures Range(n, n + 1) == [n]
    ensures Range(n, n + 2) == [n, n + 1]
    ensures Range(n, n + 3) == [n, n + 1, n + 2]
  {
    assert Range(n + 1, n + 2) == [n + 1];
    assert Range(n + 2, n + 3) == [n + 2];
    assert Range(n + 1, n + 3) == [n + 1, n + 2];
  }

  /** The outcome, ledger and canvas effect of a draw call whose fresh
      allocations start at n: the clones, then the RGBA buffer; after a painted
      draw exactly those are disposed, after a rejected image only the clones. */
  ghost predicate Drawn(engine: Engine, canvas: Dom.Canvas, ts0: seq<Tensor>, d0: seq<Handle>,
                        w0: nat, h0: nat, image0: seq<int>, bg0: string,
                        p: Option<Rgba>, c: DrawCall, outcome: Dom.DrawOutcome)
    reads engine, canvas
  {
    var n := |ts0|;
    && outcome == OutcomeOf(p)
    && |engine.tensors| == n + Clones(c) + (if p.Some? then 1 else 0)
    && engine.tensors[..n] == ts0
    && engine.disposals == d0 + DrawLog(n, c, outcome)
    && (outcome == Dom.Painted ==>
          && canvas.width == p.value.width && canvas.height == p.value.height
          && canvas.image == Dom.Clamped(p.value.data)
          && canvas.background == bg0)
    && (outcome != Dom.Painted ==>
          canvas.width == w0 && canvas.height == h0 && canvas.image == image0 && canvas.background == bg0)
  }

  /** `drawHidden(outputs.rKo, canvas)`. */
  method DrawRecurrent(engine: Engine, outs: Outputs<Handle>, canvas: Dom.Canvas, k: Slot, cast: Cast)
    returns (outcome: Dom.DrawOutcome)
    requires engine.Valid()
    requires Inference.Allocated(outs, |engine.tensors|)
    requires Inference.OutputsShaped(Inference.OutputValues(engine.tensors, outs))
    modifies engine, canvas
    ensures engine.Valid()
    ensures engine.modelDisposals == old(engine.modelDisposals) && engine.executions == old(engine.executions)
    ensures Drawn(engine, canvas, old(engine.tensors), old(engine.disposals),
                  old(canvas.width), old(canvas.height), old(canvas.image), old(canvas.background),
                  Picture(Inference.OutputValues(old(engine.tensors), outs), Hidden(k), cast), Hidden(k), outcome)
  {
    ghost var vals := Inference.OutputValues(engine.tensors, outs);
    RangeSmall(|engine.tensors|);
    outcome := DrawHidden.Draw(engine, outs.Recurrent(k), canvas, cast.gray);
  }

  /** The arguments of a `drawMatte` call: `outputs.fgr.clone()` when the call
      passes the foreground, then `outputs.pha.clone()` when it passes the matte. */
  method CloneArgs(engine: Engine, outs: Outputs<Handle>, f: bool, a: bool)
    returns (fgr: Option<Handle>, pha: Option<Handle>)
    requires engine.Valid()
    requires outs.fgr < |engine.tensors| && outs.pha < |engine.tensors|
    modifies engine
    ensures engine.Valid()
    ensures engine.disposals == old(engine.disposals)
    ensures engine.modelDisposals == old(engine.modelDisposals) && engine.executions == old(engine.executions)
    ensures var n := |old(engine.tensors)|;
            && |engine.tensors| == n + Clones(MatteCall(f, a))
            && engine.tensors[..n] == old(engine.tensors)
            && Present(fgr) + Present(pha) == Range(n, n + Clones(MatteCall(f, a)))
            && Lookup(engine.tensors, fgr) == MatteArg(old(engine.tensors)[outs.fgr], f)
            && Lookup(engine.tensors, pha) == MatteArg(old(engine.tensors)[outs.pha], a)
  {
    var n := |engine.tensors|;
    RangeSmall(n);
    fgr := None;
    if f {
      var h := engine.Clone(outs.fgr);
      fgr := Some(h);
    }
    pha := None;
    if a {
      var h := engine.Clone(outs.pha);
      pha := Some(h);
    }
  }

  /** `drawMatte(fgr?.clone(), pha?.clone(), canvas)`. */
  method DrawComposite(engine: Engine, outs: Outputs<Handle>, canvas: Dom.Canvas, f: bool, a: bool, cast: Cast)
    returns (outcome: Dom.DrawOutcome)
    requires engine.Valid()
    requires Inference.Allocated(outs, |engine.tensors|)
    requires Inference.OutputsShaped(Inference.OutputValues(engine.tensors, outs))
    modifies engine, canvas
    ensures engine.Valid()
    ensures engine.modelDisposals == old(engine.modelDisposals) && engine.executions == old(engine.executions)
    ensures Drawn(engine, canvas, old(engine.tensors), old(engine.disposals),
                  old(canvas.width), old(canvas.height), old(canvas.image), old(canvas.background),
                  Picture(Inference.OutputValues(old(engine.tensors), outs), MatteCall(f, a), cast),
                  MatteCall(f, a), outcome)
  {
    var n := |engine.tensors|;
    ghost var vals := Inference.OutputValues(engine.tensors, outs);
    ghost var c := MatteCall(f, a);
    var fgr, pha := CloneArgs(engine, outs, f, a);
    RangeSnoc(n, n + Clones(c));
    ghost var ts1 := engine.tensors;
    outcome := DrawMatte.Draw(engine, fgr, pha, canvas, cast.scale);
    assert engine.tensors[..n] == ts1[..n];
  }

  /** The `switch` of `renderOutput`: the draw call c on the outputs. */
  method Draw(engine: Engine, outs: Outputs<Handle>, canvas: Dom.Canvas, c: DrawCall, cast: Cast)
    returns (outcome: Dom.DrawOutcome)
    requires engine.Valid()
    requires Inference.Allocated(outs, |engine.tensors|)
    requires Inference.OutputsShaped(Inference.OutputValues(engine.tensors, outs))
    modifies engine, canvas
    ensures engine.Valid()
    ensures engine.modelDisposals == old(engine.modelDisposals) && engine.executions == old(engine.executions)
    ensures Drawn(engine, canvas, old(engine.tensors), old(engine.disposals),
                  old(canvas.width), old(canvas.height), old(canvas.image), old(canvas.background),
                  Picture(Inference.OutputValues(old(engine.tensors), outs), c, cast), c, outcome)
  {
    match c {
      case Hidden(k) =>
        outcome := DrawRecurrent(engine, outs, canvas, k, cast);
      case MatteCall(f, a) =>
        outcome := DrawComposite(engine, outs, canvas, f, a, cast);
    }
  }

  /** The body of `renderOutput` once the view's draw call c and its table
      background are known: the draw call runs; an exception from it leaves the
      rest undone; after a successful draw the canvas background is set when
      the table has one and all six outputs, the recurrent ones included, are
      disposed. */
  method RenderWith(engine: Engine, outs: Outputs<Handle>, canvas: Dom.Canvas, c: DrawCall,
                    background: Option<string>, cast: Cast)
    returns (outcome: Dom.DrawOutcome)
    requires engine.Valid()
    requires Inference.Allocated(outs, |engine.tensors|)
    requires Inference.OutputsShaped(Inference.OutputValues(engine.tensors, outs))
    modifies engine, canvas
    ensures engine.Valid()
    ensures engine.modelDisposals == old(engine.modelDisposals) && engine.executions == old(engine.executions)
    ensures var n := |old(engine.tensors)|;
            var p := Picture(Inference.OutputValues(old(engine.tensors), outs), c, cast);
            && outcome == OutcomeOf(p)
            && |engine.tensors| == n + Clones(c) + (if p.Some? then 1 else 0)
            && engine.tensors[..n] == old(engine.tensors)
            && engine.disposals == old(engine.disposals) + RenderLog(n, outs, c, outcome)
            && (outcome == Dom.Painted ==>
                  && canvas.width == p.value.width && canvas.height == p.value.height
                  && canvas.image == Dom.Clamped(p.value.data)
                  && canvas.background == (if background.Some? then background.value else old(canvas.background)))
            && (outcome != Dom.Painted ==>
                  && canvas.width == old(canvas.width) && canvas.height == old(canvas.height)
                  && canvas.image == old(canvas.image) && canvas.background == old(canvas.background))
  {
    ghost var n := |engine.tensors|;
    outcome := Draw(engine, outs, canvas, c, cast);
    if outcome != Dom.Painted {
      return;
    }
    if background.Some? {
      canvas.SetBackground(background.value);
    }
    engine.DisposeAll(outs.Values());
    RenderLogPainted(old(engine.disposals), n, outs, c);
  }

  /** The log of a painted render, appended to an earlier log. */
  lemma RenderLogPainted(d0: seq<Handle>, n: nat, outs: Outputs<Handle>, c: DrawCall)
    ensures d0 + RenderLog(n, outs, c, Dom.Painted) == d0 + DrawLog(n, c, Dom.Painted) + outs.Values()
  {
  }

  /** The canvas after a render that painted the image p: its size and pixels
      are p's and its background is bg; after a render that did not paint,
      the canvas is as it was. */
  twostate predicate CanvasRendered(canvas: Dom.Canvas, p: Option<Rgba>, painted: bool, bg: string)
    reads canvas
  {
    && (painted ==>
          && p.Some?
          && canvas.width == p.value.width && canvas.height == p.value.height
          && canvas.image == Dom.Clamped(p.value.data)
          && canvas.background == bg)
    && (!painted ==>
          && canvas.width == old(canvas.width) && canvas.height == old(canvas.height)
          && canvas.image == old(canvas.image) && canvas.background == old(canvas.background))
  }

  /** `renderOutput(outputs, canvas, selectedBackground)`: the table entry is
      looked up, the view's draw call runs, and after a successful draw the
      canvas gets the entry's background and all six outputs, the recurrent
      ones included, are disposed. */
  method RenderOutput(engine: Engine, outs: Outputs<Handle>, canvas: Dom.Canvas, selected: string, cast: Cast)
    returns (outcome: Dom.DrawOutcome)
    requires engine.Valid()
    requires Inference.Allocated(outs, |engine.tensors|)
    requires Inference.OutputsShaped(Inference.OutputValues(engine.tensors, outs))
    modifies engine, canvas
    ensures engine.Valid()
    ensures engine.modelDisposals == old(engine.modelDisposals) && engine.executions == old(engine.executions)
    ensures var n := |old(engine.tensors)|;
            var c := Dispatch(selected);
            var p := Picture(Inference.OutputValues(old(engine.tensors), outs), c, cast);
            && outcome == OutcomeOf(p)
            && |engine.tensors| == n + Clones(c) + (if p.Some? then 1 else 0)
            && engine.tensors[..n] == old(engine.tensors)
            && engine.disposals == old(engine.disposals) + RenderLog(n, outs, c, outcome)
            && CanvasRendered(canvas, p, outcome == Dom.Painted, BackgroundAfter(selected, old(canvas.background)))
  {
    var entry := Constants.FindByValue(Constants.BACKGROUND_OPTIONS, selected);
    var background := if entry.Some? then Some(entry.value.background) else None;
    BackgroundLookup(selected, canvas.background);
    outcome := RenderWith(engine, outs, canvas, Dispatch(selected), background, cast);
  }

  /** Every matte view builds its image: both outputs come from the same graph
      call, so their sizes agree and the pipeline cannot raise. */
  lemma MatteViewsDraw(vals: Outputs<Tensor>, o: ViewOption, cast: Cast)
    requires Inference.OutputsShaped(vals)
    requires Dispatch(Value(o)).MatteCall?
    ensures Picture(vals, Dispatch(Value(o)), cast).Some?
    ensures Picture(vals, Dispatch(Value(o)), cast).value.height == vals.fgr.shape[1]
    ensures Picture(vals, Dispatch(Value(o)), cast).value.width == vals.fgr.shape[2]
  {
  }
}
