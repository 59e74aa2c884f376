# Robust video matting in the browser: a Dafny model

The application runs the Robust Video Matting network on webcam frames using
TensorFlow.js. Each frame is captured and normalised, then passed to the graph
together with four recurrent state tensors and a downsample-ratio scalar. The
graph returns a foreground `fgr`, an alpha matte `pha` and four new recurrent
states `r1o .. r4o`. The selected view is drawn on a canvas:

- a composite of foreground and matte;
- the foreground alone;
- the matte alone;
- a grey mosaic of one recurrent state.

The returned states feed the next frame.

Two copies of the loop exist:

- the `useSegmentationInference` hook, which keeps its state in a zustand store;
- the `VideoSegmentationWidget` component, which keeps its state in React refs.

The model covers these parts:

- **Renderers** (`DrawHidden`, `DrawMatte`): the exact pixel layout.
  - `drawHidden` unstacks the C channels of a `[1, H, W, C]` state and stacks them into a column of C·H rows. It cuts the column into four bands of R = H·C/4 rows and sets the bands side by side, which gives an R × 4W grey image with alpha 255. The index map from state elements to pixels is a bijection.
  - `drawMatte` takes RGB from the foreground (white without one) and alpha from the matte (255 without one).
  - Element values go through abstract casts (`Tensors.Cast`). The `Uint8ClampedArray` clamp of the cast integers is exact and is modelled.
- **Tensor ledger** (`Tensors.Engine`):
  - Every allocation appends a value, and its handle is its index.
  - Every `dispose` call is appended to a log, repeated calls included.
  - Calls to the model and its disposal are logged too.
  - Each operation states exactly which handles it allocates and which it disposes. The model states what the code does, not what its comments intend:
    - `renderOutput` disposes all six outputs, `r1o .. r4o` included, and both loops then install those handles as the next recurrent state;
    - the raw webcam frame is never disposed;
    - `performInference` leaks its ratio scalar when the graph throws.
- **View dispatch and the option table** (`Render`, `Constants`, `Types`): the eight options, the draw call and tensor each selects, and the CSS background each gives the canvas.
- **Store and loop control** (`Store`, `Hooks`, `Widget`):
  - the store's field transitions;
  - the start and stop guards;
  - one pass of each loop. The hook runs capture → infer → render → install the states through `updateRecurrentStates` (which disposes the old ones) → `tf.dispose([src])` → schedule. The widget runs capture → infer → render → `tf.dispose([src, ...old ref states])` → install the states in the ref → schedule.

  Each loop reads the `isRunning` that was captured when its closure was created. It is passed as a parameter (`Hooks.Snapshot`, `Widget.Captured`). This shows that the loop call made by `startInference` always returns before capturing a frame.

Results that come from outside are given as parameters:

- webcam frames and graph outputs;
- what a failing draw throws;
- timings and animation-frame ids.

These are bundled per frame in a `Cycle.Tick`.

A `[1, 8, 8, 4]` state is drawn as 8 rows by 32 columns: the 32 stacked rows are cut into four bands of 8 set side by side (`DrawHidden.FourChannelMosaic`).

The menu label of an option is `label` in the source. In the model it is the field `caption` of `Constants.BackgroundConfig`.

## Model

| member | source | states |
|---|---|---|
| Types.ValueInjective | src/entities/segmentation/model/types.ts:29-37 | distinct view options are distinct strings, in both directions |
| Types.OptionNamedValue | src/features/background-selector/model/types.ts:2-10 | reading a string as an option inverts `Value`, and finds nothing exactly for the strings that name no option |
| Types.NamedOption | src/features/background-selector/model/types.ts:2-10 | every option's string reads back as that option |
| Types.Message | src/widgets/video-segmentation/ui/VideoSegmentationWidget.tsx:117 | the stored error is the thrown `Error`'s message, or the fallback text for any other thrown value |
| Constants.FindIndex | src/shared/config/constants.ts:8-17 | the index found is that of the first entry whose value is the string, or the table's length when no entry has it |
| Constants.FindByValue | src/shared/config/constants.ts:8-17 | `find` by value returns an entry of the table with that value, and returns nothing exactly when no entry has it |
| Constants.OptionsDistinct | src/shared/config/constants.ts:8-17 | the table has eight entries with pairwise distinct values |
| Constants.FindOption | src/shared/config/constants.ts:8-17 | every option has its entry; the lookup returns that option, and white, green and alpha get their rgb backgrounds while every other option gets 'transparent' |
| Constants.FindUnknown | src/shared/config/constants.ts:8-17 | a string that names no option finds no entry |
| Constants.BackgroundOf | src/shared/config/constants.ts:9-16 | the backdrop column of the table: white, green and alpha get their rgb backdrops; every other option, Foreground included, gets 'transparent' |
| Dom.ClampByte | src/entities/segmentation/lib/drawHidden.ts:18 | a converted element lies in 0..255; values in range are kept, negatives become 0 and values above 255 become 255 |
| Dom.Clamped | src/entities/segmentation/lib/drawMatte.ts:22 | the clamped buffer has the source's length, every byte lies in 0..255, elements in range are kept, negatives become 0 and values above 255 become 255 |
| Dom.ImageDataAccepts | src/entities/segmentation/lib/drawHidden.ts:19 | `new ImageData` accepts a buffer of exactly 4·width·height bytes with non-zero width and height, and throws otherwise |
| Dom.PixelOffsetDecode | src/entities/segmentation/lib/drawHidden.ts:19-23 | the RGBA offset of (y, x, ch) lies inside a 4·H·W buffer and decodes back to y, x and ch |
| Dom.Canvas.Paint | src/entities/segmentation/lib/drawHidden.ts:21-23 | the canvas takes the image's width, height and pixels, and its background is kept |
| Dom.Canvas.SetBackground | src/entities/segmentation/model/hooks.ts:201-203 | only the background changes |
| Dom.Frames.constructor | src/entities/segmentation/model/hooks.ts:130-145 | no frame has been requested or cancelled yet |
| Dom.Frames.Request | src/entities/segmentation/model/hooks.ts:129-131 | the id is appended to the requested frames and nothing is cancelled |
| Dom.Frames.Cancel | src/entities/segmentation/model/hooks.ts:144-147 | the id is appended to the cancelled frames and nothing is requested |
| Tensors.RangeCount | src/entities/segmentation/lib/inference.ts:21-24 | a run of consecutive fresh handles holds each handle of its range exactly once and every other handle never |
| Tensors.RangeIndex | src/entities/segmentation/lib/inference.ts:21-24 | the i-th handle of a fresh run is its first handle plus i |
| Tensors.LiveAfterDispose | src/shared/store/segmentationStore.ts:29-33 | disposing a list of handles removes exactly those handles from the live set |
| Tensors.Engine.constructor | src/entities/segmentation/lib/inference.ts:10 | a new runtime has no tensors, no dispose calls, no model disposals and no graph calls |
| Tensors.Engine.Alloc | src/entities/segmentation/lib/inference.ts:10 | the value is stored under the next fresh handle, which becomes live, and nothing else changes |
| Tensors.Engine.Dispose | src/entities/segmentation/lib/inference.ts:26 | the handle is appended to the dispose log and leaves the live set; the stored values are kept |
| Tensors.Engine.DisposeAll | src/shared/store/segmentationStore.ts:29-33 | the handles are disposed in order, one call each, and exactly they leave the live set |
| Tensors.Engine.Clone | src/entities/segmentation/model/hooks.ts:190-196 | a fresh live handle with the same value as the cloned one |
| Tensors.Engine.DisposeModel | src/shared/store/segmentationStore.ts:58-60 | the model is appended to the model-dispose log and no tensor is touched |
| Tensors.Engine.Execute | src/entities/segmentation/lib/inference.ts:21-24 | the call is logged; when the graph throws, nothing is allocated; otherwise one fresh handle per requested name is created, in name order, holding the value produced under that name |
| DrawHidden.MosaicDefined | src/entities/segmentation/lib/drawHidden.ts:4-15 | the tidy runs exactly for a rank-4 batch-1 state with at least one channel whose H·C divides by 4; otherwise `unstack`, `split(4)` or `squeeze(0)` throws |
| DrawHidden.SourceOf | src/entities/segmentation/lib/drawHidden.ts:5-8 | mosaic pixel (y, x) shows an element of the state: its stacked row channel·H + row is (x div W)·R + y, in band x div W, and its column is x mod W |
| DrawHidden.PixelOf | src/entities/segmentation/lib/drawHidden.ts:5-8 | every state element lands on a pixel inside the R × 4W mosaic, in band (channel·H + row) div R at row (channel·H + row) mod R and column band·W + col |
| DrawHidden.SourceOfPixelOf | src/entities/segmentation/lib/drawHidden.ts:5-8 | following an element to its pixel and back returns the element |
| DrawHidden.PixelOfSourceOf | src/entities/segmentation/lib/drawHidden.ts:5-8 | following a pixel to its element and back returns the pixel |
| DrawHidden.MosaicBijection | src/entities/segmentation/lib/drawHidden.ts:5-8 | every element of the state appears at exactly one mosaic pixel |
| DrawHidden.SourceChannel | src/entities/segmentation/lib/drawHidden.ts:5-8 | when 4 divides C, pixel (y, x) shows channel (x div W)·(C/4) + y div H at row y mod H |
| DrawHidden.FourChannelMosaic | src/entities/segmentation/lib/drawHidden.ts:5-13 | a [1, 8, 8, 4] state gives an 8 × 32 mosaic whose b-th 8 × 8 cell shows channel b |
| DrawHidden.Mosaic | src/entities/segmentation/lib/drawHidden.ts:4-15 | the mosaic is H·C/4 rows by 4·W columns, its buffer holds 4 bytes per pixel, and it holds one pixel per element of the state |
| DrawHidden.MosaicByte | src/entities/segmentation/lib/drawHidden.ts:11-13 | byte i of the buffer: the grey level of the element shown at pixel i div 4 on channels 0-2, and 255 on channel 3 |
| DrawHidden.MosaicByteAt | src/entities/segmentation/lib/drawHidden.ts:11-13 | byte ch of pixel (y, x) is the grey level of the element the index map names for ch < 3, and 255 for ch = 3 |
| DrawHidden.MosaicPixel | src/entities/segmentation/lib/drawHidden.ts:11-13 | at every pixel R = G = B = the grey level of its element, and A = 255 |
| DrawHidden.Draw | src/entities/segmentation/lib/drawHidden.ts:3-26 | when the pipeline cannot run, nothing is allocated or painted; otherwise the RGBA buffer is allocated, and when `ImageData` accepts it the canvas is sized to the mosaic and painted with its clamped bytes and only the buffer is disposed; an empty mosaic leaves the buffer live and the canvas untouched; the state tensor is never disposed |
| DrawMatte.MatteDefined | src/entities/segmentation/lib/drawMatte.ts:8-16 | the tidy runs exactly when at least one of foreground and matte is given and, when both are, their H and W agree; otherwise the fill from a null input or the `concat` throws |
| DrawMatte.MatteByte | src/entities/segmentation/lib/drawMatte.ts:9-15 | byte i of the buffer: the scaled foreground (or 255) on channels 0-2 and the scaled matte (or 255) on channel 3 at pixel i div 4 |
| DrawMatte.Matte | src/entities/segmentation/lib/drawMatte.ts:8-16 | the image has the height and width of the given foreground (else of the matte) and four bytes per pixel |
| DrawMatte.MatteByteAt | src/entities/segmentation/lib/drawMatte.ts:9-15 | byte ch of pixel (y, x) is the scaled foreground or 255 for ch < 3, and the scaled matte or 255 for ch = 3 |
| DrawMatte.MattePixel | src/entities/segmentation/lib/drawMatte.ts:9-15 | RGB is the scaled foreground at (y, x), or 255, 255, 255 without one; A is the scaled matte at (y, x), or 255 without one |
| DrawMatte.Draw | src/entities/segmentation/lib/drawMatte.ts:3-30 | with both inputs null or their sizes unequal, nothing is allocated, disposed or painted; otherwise the RGBA buffer is allocated and each non-null input is disposed once; when `ImageData` accepts the buffer the canvas takes its size and clamped bytes and the buffer is disposed; an empty image leaves the buffer live |
| Inference.Produced | src/entities/segmentation/lib/inference.ts:21-28 | the i-th output of the record is the tensor produced under the i-th requested name: fgr, pha, r1o, r2o, r3o, r4o |
| Inference.OutputsAt | src/entities/segmentation/lib/inference.ts:28 | the output record of handles from b on names the six consecutive handles b .. b + 5 in output order |
| Inference.OutputValuesAt | src/entities/segmentation/lib/inference.ts:21-28 | six consecutive stored values are the values behind the record of their handles |
| Inference.NextStatesOnce | src/entities/segmentation/model/hooks.ts:118-123 | each recurrent output handle appears exactly once in the state record built from the outputs |
| Inference.PerformInference | src/entities/segmentation/lib/inference.ts:5-29 | the ratio scalar 0.5 is allocated first; the graph is called once with `src` and r1 .. r4 unchanged as src, r1i .. r4i and the scalar as downsample_ratio; on success six fresh outputs follow in order, the scalar is disposed and the six are the only new live handles; when the graph throws, the scalar stays live and nothing is disposed; `src` and the states are never disposed |
| Inference.LiveAfterCall | src/entities/segmentation/lib/inference.ts:10-26 | after seven allocations with the first one disposed, the six outputs are the only new live handles |
| LoadModel.FreshStatesRange | src/shared/lib/tensorflow/loadModel.ts:17-22 | the fresh record names the four handles n .. n + 3 in field order |
| LoadModel.FreshStatesDistinct | src/shared/lib/tensorflow/loadModel.ts:18-21 | the four fresh handles are distinct and above every existing handle, and each holds a rank-0 zero |
| LoadModel.InitializeRecurrentStates | src/shared/lib/tensorflow/loadModel.ts:16-23 | four rank-0 zero tensors are allocated as r1 .. r4, no existing handle is disposed, and the live set grows by exactly the four |
| Webcam.Normalised | src/shared/lib/tensorflow/setupWebcam.ts:21 | a leading batch axis is added and every element is divided by 255 |
| Webcam.CaptureFrame | src/shared/lib/tensorflow/setupWebcam.ts:19-22 | when capture throws, nothing is allocated; otherwise the raw frame and then its normalised copy are allocated, the copy is returned, and nothing is disposed |
| Render.Dispatch | src/entities/segmentation/model/hooks.ts:176-198 | recurrentK draws state K, alpha draws the matte alone, foreground draws the foreground alone, each in both directions; every other string draws both |
| Render.DrawLog | src/entities/segmentation/model/hooks.ts:177-198 | what the draw call disposes: its clones and then the RGBA buffer after a paint, only the clones when `ImageData` rejects the buffer, nothing when the pipeline throws |
| Render.RenderLog | src/entities/segmentation/model/hooks.ts:169-210 | what `renderOutput` disposes: the draw call's log, then the six outputs when the draw painted |
| Render.BackgroundAfter | src/entities/segmentation/model/hooks.ts:201-203 | the canvas backdrop after a painted render: the option's backdrop when the string names one, else the backdrop it had |
| Render.DispatchByOption | src/widgets/video-segmentation/ui/VideoSegmentationWidget.tsx:136-158 | the eight options map to their draw calls, and white and green composite both outputs |
| Render.Picture | src/entities/segmentation/model/hooks.ts:176-198 | a matte view with at least one input always builds an image, and a recurrent view builds one exactly when its state is mosaic-shaped |
| Render.BackgroundLookup | src/entities/segmentation/model/hooks.ts:174-203 | the background the table lookup sets is the option's backdrop when the string names an option, and the current background otherwise |
| Render.BackgroundAfterOption | src/shared/config/constants.ts:8-17 | a selected option gives the canvas that option's backdrop |
| Render.BackgroundAfterUnknown | src/entities/segmentation/model/hooks.ts:201-203 | a string that names no option leaves the background unchanged |
| Render.DrawRecurrent | src/entities/segmentation/model/hooks.ts:177-188 | `drawHidden(rKo)`: its outcome, the RGBA buffer as the only allocation, and its dispose calls and canvas effect |
| Render.CloneArgs | src/entities/segmentation/model/hooks.ts:190-196 | the passed outputs are cloned into fresh consecutive handles holding their values, and null is passed for the others |
| Render.DrawComposite | src/entities/segmentation/model/hooks.ts:189-197 | `drawMatte` on the clones: the clones and then the buffer are allocated; a painted draw disposes the clones and the buffer, a rejected image only the clones |
| Render.Draw | src/entities/segmentation/model/hooks.ts:176-198 | the view's draw call has the outcome, allocations, dispose calls and canvas effect of its picture |
| Render.RenderWith | src/entities/segmentation/model/hooks.ts:176-210 | a throwing draw stops the render; after a painted draw the table background is set when there is one, and all six outputs are disposed after the draw's own log |
| Render.RenderOutput | src/entities/segmentation/model/hooks.ts:169-211 | `renderOutput`: the dispatched draw runs; when it paints, the canvas gets the picture and the option's background and all six outputs, `r1o .. r4o` included, are disposed; otherwise the canvas is unchanged and no output is disposed |
| Render.MatteViewsDraw | src/widgets/video-segmentation/ui/VideoSegmentationWidget.tsx:149-157 | on outputs shaped as the graph returns them, every matte view builds an image of the foreground's size |
| Cycle.Prepare | src/entities/segmentation/model/hooks.ts:100-104 | capture and inference: when capture throws, nothing changes; when the graph throws, three tensors are allocated and none disposed; otherwise nine are allocated, only the ratio scalar is disposed, and the six outputs hold the graph's values |
| Cycle.Finish | src/entities/segmentation/model/hooks.ts:108 | the render step of a pass ends where the render's outcome says, with the pass's allocation count and dispose log |
| Cycle.StepsLogOfDraw | src/entities/segmentation/model/hooks.ts:104-108 | the pass's dispose log is the ratio scalar followed by the render's log, and its allocation count follows from the render's outcome |
| Cycle.RunSteps | src/entities/segmentation/model/hooks.ts:100-108 | capture, inference and render of one pass: where it ends, what it allocates, what it disposes, the one graph call with the input frame and the given states, and the canvas afterwards |
| Cycle.StepsCounts | src/entities/segmentation/model/hooks.ts:100-108 | a completed pass disposes the ratio scalar, each output and each render buffer once, and never disposes the raw frame, the input frame or any older handle |
| Cycle.StepsAllocs | src/entities/segmentation/model/hooks.ts:96-108 | how many tensors a pass allocates up to the step where it ends: none when capture throws, three when the graph throws, and the raw frame, the input, the ratio scalar, the six outputs and the render's clones and buffer otherwise |
| Cycle.StepsLog | src/entities/segmentation/model/hooks.ts:100-108 | the dispose calls of a pass up to its render: none when capture or the graph throws, else the ratio scalar followed by the render's log |
| Cycle.ErrorOf | src/entities/segmentation/model/hooks.ts:132-135 | a pass that throws stores the message of whatever the capture, the graph or the render threw, with 'Inference failed' for a non-`Error` value |
| Store.Initial | src/shared/store/segmentationStore.ts:10-19 | the store's initial record: the given states, no model or webcam, loading, not running, no error, 'white' and all metrics 0 |
| Store.SegmentationStore.constructor | src/shared/store/segmentationStore.ts:10-19 | the initial state: four fresh zero scalars as states, no model or webcam, loading, not running, no error, 'white' and all metrics 0 |
| Store.SegmentationStore.SetModel | src/shared/store/segmentationStore.ts:22 | only the model changes |
| Store.SegmentationStore.SetWebcam | src/shared/store/segmentationStore.ts:24 | only the webcam changes |
| Store.SegmentationStore.SetLoading | src/shared/store/segmentationStore.ts:38 | only the loading flag changes |
| Store.SegmentationStore.SetRunning | src/shared/store/segmentationStore.ts:40 | only the running flag changes |
| Store.SegmentationStore.SetError | src/shared/store/segmentationStore.ts:42 | only the error changes |
| Store.SegmentationStore.SetSelectedBackground | src/shared/store/segmentationStore.ts:44 | only the selected view changes |
| Store.SegmentationStore.UpdateFPS | src/shared/store/segmentationStore.ts:47 | only fps changes |
| Store.SegmentationStore.UpdateInferenceTime | src/shared/store/segmentationStore.ts:49 | only the inference time changes |
| Store.SegmentationStore.UpdateLastFrameTime | src/shared/store/segmentationStore.ts:51 | only the last frame time changes |
| Store.SegmentationStore.UpdateRecurrentStates | src/shared/store/segmentationStore.ts:26-35 | each current state handle is disposed once, in field order, whether or not it was disposed before; exactly the given record is stored and nothing else changes |
| Store.SegmentationStore.Cleanup | src/shared/store/segmentationStore.ts:54-81 | the model is disposed if present and the four state handles are disposed; model, webcam and error are cleared and running is false; the states still name the disposed handles, and loading, the view and the metrics are kept |
| Store.SegmentationStore.Reset | src/shared/store/segmentationStore.ts:83-97 | `cleanup`, then the initial state with four fresh live zero scalars as states |
| Store.SegmentationStore.Reinitialise | src/shared/store/segmentationStore.ts:85-96 | every field takes its initial value, and the states are four fresh live zero scalars |
| Hooks.HooksCycleCounts | src/entities/segmentation/model/hooks.ts:100-126 | a completed hook pass disposes the input frame, the ratio scalar, each output and each render buffer once, each handle of the store's states as often as they name it, and the raw frame never |
| Hooks.Proceeds | src/entities/segmentation/model/hooks.ts:91 | the loop goes on only with model, webcam and canvas present and the captured running flag set |
| Hooks.Starts | src/entities/segmentation/model/hooks.ts:83 | `startInference` goes on only with model, webcam and canvas present and the captured running flag clear |
| Hooks.HooksCycleLog | src/entities/segmentation/model/hooks.ts:104-126 | the dispose order of a completed hook pass: the pass's own log, then the store's old states, then `src` |
| Hooks.OlderCounts | src/entities/segmentation/model/hooks.ts:118-126 | a completed pass disposes an older handle exactly as often as the store's states name it |
| Hooks.InstalledDisposed | src/entities/segmentation/model/hooks.ts:118-123 | the states a completed pass installs have already been disposed once by that pass |
| Hooks.CapturedDisposed | src/entities/segmentation/model/hooks.ts:118-123 | a completed pass disposes the states the store holds, which the closure captured for its next pass |
| Hooks.HooksTwoPasses | src/entities/segmentation/model/hooks.ts:104-123 | over two consecutive passes each installed state is disposed twice |
| Hooks.HooksCycleLive | src/entities/segmentation/model/hooks.ts:100-126 | a completed pass leaves live the handles live before it, less the store's states, plus the raw frame |
| Hooks.SegmentationInference.constructor | src/entities/segmentation/model/hooks.ts:80 | no frame is pending at first, and the hook starts from a consistent store |
| Hooks.SegmentationInference.Complete | src/entities/segmentation/model/hooks.ts:113-131 | the three metrics are set, r1o .. r4o are installed through `updateRecurrentStates`, the old states and then `src` are disposed, and the next frame is requested |
| Hooks.SegmentationInference.Passed | src/entities/segmentation/model/hooks.ts:95-136 | the effect of one hook pass on the ledger, the store and the scheduler, by where the pass ends |
| Hooks.SegmentationInference.Fail | src/entities/segmentation/model/hooks.ts:132-136 | the message is stored and running is false |
| Hooks.SegmentationInference.RunCycle | src/entities/segmentation/model/hooks.ts:95-136 | one pass: on completion the metrics and states are set, the store's states and `src` are disposed, and a frame is requested; on a throwing step the error is set, running is false, and nothing more is disposed or scheduled |
| Hooks.SegmentationInference.Settle | src/entities/segmentation/model/hooks.ts:113-136 | after the render, the `try` tail of a completed pass, or the `catch` clause after a throwing step |
| Hooks.SegmentationInference.InferenceLoop | src/entities/segmentation/model/hooks.ts:90-137 | returns without any effect unless model, webcam and canvas are present and the captured flag is set; otherwise one pass |
| Hooks.SegmentationInference.StartInference | src/entities/segmentation/model/hooks.ts:82-140 | a no-op when model, webcam or canvas is missing or the captured flag is set; otherwise running is set and the error cleared, and the loop call allocates, disposes, executes and schedules nothing |
| Hooks.SegmentationInference.StopInference | src/entities/segmentation/model/hooks.ts:142-148 | running is cleared; a pending non-zero frame id is cancelled and cleared |
| Hooks.SegmentationInference.Unmount | src/entities/segmentation/model/hooks.ts:151-157 | a pending non-zero frame id is cancelled and left in place |
| Hooks.InitializeModel | src/entities/segmentation/model/hooks.ts:22-37 | the store states in order: loading set, error cleared, then the model stored or the message stored ('Failed to load model' by default), and loading cleared |
| Hooks.InitializeWebcam | src/entities/segmentation/model/hooks.ts:39-50 | nothing without a video element; otherwise the webcam is stored, or the message ('Failed to setup webcam' by default) |
| Widget.WidgetCycleCounts | src/widgets/video-segmentation/ui/VideoSegmentationWidget.tsx:96-111 | a completed widget pass disposes the input frame, the ratio scalar, each output and each render buffer once, each handle of the ref's states as often as they name it, and the raw frame never |
| Widget.WidgetCycleLog | src/widgets/video-segmentation/ui/VideoSegmentationWidget.tsx:96-111 | the dispose order of a completed widget pass: the pass's own log, then `src`, then the ref's old states |
| Widget.WidgetInstalledDisposed | src/widgets/video-segmentation/ui/VideoSegmentationWidget.tsx:106-111 | the states a completed pass stores in the ref have already been disposed once by that pass |
| Widget.WidgetOlderCounts | src/widgets/video-segmentation/ui/VideoSegmentationWidget.tsx:105 | a completed pass disposes an older handle exactly as often as the ref's states name it |
| Widget.WidgetTwoPasses | src/widgets/video-segmentation/ui/VideoSegmentationWidget.tsx:105-111 | each state installed by one pass is disposed by its render and again by the next pass's `tf.dispose` |
| Widget.WidgetCycleLive | src/widgets/video-segmentation/ui/VideoSegmentationWidget.tsx:96-111 | a completed widget pass leaves live the handles live before it, less the ref's states, plus the raw frame |
| Widget.VideoSegmentationWidget.constructor | src/widgets/video-segmentation/ui/VideoSegmentationWidget.tsx:19-28 | the first render: 'white', loading, no error, not running, empty refs, and four fresh zero scalars in the state ref |
| Widget.VideoSegmentationWidget.Rerender | src/widgets/video-segmentation/ui/VideoSegmentationWidget.tsx:27 | each later render allocates four zero scalars that are never stored or disposed |
| Widget.VideoSegmentationWidget.SetSelectedBackground | src/widgets/video-segmentation/ui/VideoSegmentationWidget.tsx:19 | only the selected view changes |
| Widget.VideoSegmentationWidget.AttachCanvas | src/widgets/video-segmentation/ui/VideoSegmentationWidget.tsx:18 | only the canvas ref changes |
| Widget.VideoSegmentationWidget.InitializeApp | src/widgets/video-segmentation/ui/VideoSegmentationWidget.tsx:31-53 | the component states in order: loading set, error cleared, then the model ref set or the message stored ('Failed to initialize' by default), and loading cleared |
| Widget.VideoSegmentationWidget.Settle | src/widgets/video-segmentation/ui/VideoSegmentationWidget.tsx:105-119 | after a completed render `src` and the old ref states are disposed, r1o .. r4o are stored and the next frame is requested; after a throwing step the error is set and running is false |
| Widget.VideoSegmentationWidget.Proceeds | src/widgets/video-segmentation/ui/VideoSegmentationWidget.tsx:88 | the loop goes on only with the model, webcam and canvas refs set and the captured running flag set |
| Widget.VideoSegmentationWidget.Starts | src/widgets/video-segmentation/ui/VideoSegmentationWidget.tsx:81 | `startInference` goes on only with the model, webcam and canvas refs set and the captured running flag clear |
| Widget.VideoSegmentationWidget.Passed | src/widgets/video-segmentation/ui/VideoSegmentationWidget.tsx:92-119 | the effect of one widget pass on the ledger, the ref and the scheduler, by where the pass ends |
| Widget.VideoSegmentationWidget.RunCycle | src/widgets/video-segmentation/ui/VideoSegmentationWidget.tsx:92-119 | one pass with the current refs and the captured view: allocations, dispose calls, the graph call and the state of the component and scheduler afterwards |
| Widget.VideoSegmentationWidget.InferenceLoop | src/widgets/video-segmentation/ui/VideoSegmentationWidget.tsx:87-120 | returns without any effect unless the refs are set and the captured flag is set; otherwise one pass |
| Widget.VideoSegmentationWidget.StartInference | src/widgets/video-segmentation/ui/VideoSegmentationWidget.tsx:80-123 | a no-op when a ref is empty or the captured flag is set; otherwise running is set, and the loop call touches neither the runtime nor the scheduler |
| Widget.VideoSegmentationWidget.SetupWebcam | src/widgets/video-segmentation/ui/VideoSegmentationWidget.tsx:69-78 | with a video element and a webcam, the webcam ref is set and `startInference` runs; otherwise nothing changes |
| Widget.VideoSegmentationWidget.StopInference | src/widgets/video-segmentation/ui/VideoSegmentationWidget.tsx:125-131 | running is cleared; a pending non-zero frame id is cancelled and cleared |
| Widget.VideoSegmentationWidget.Unmount | src/widgets/video-segmentation/ui/VideoSegmentationWidget.tsx:58-66 | `stopInference`, then the model is disposed if present and the four handles in the state ref are disposed |

## Left out

- `loadSegmentationModel` and `setupWebcam` are device and network I/O. Their outcome is a parameter (`load`, `setup`), which may be the value or what they throw.
- `webcam.capture()` and `model.executeAsync` are foreign calls:
  - their results come in the `Cycle.Tick` of each pass;
  - the graph is assumed to return all six outputs, with the image outputs shaped `[1, H, W, 3]` and `[1, H, W, 1]` (`Inference.ModelContract`);
  - a graph called on disposed input handles is not modelled as throwing.
- Floating point: tensor elements are reals, and the two int32 casts, `(v + 1)·127.5` and `v·255`, are abstract functions (`Tensors.Cast`).
- The `performance.now`/`Date.now` timings and the `1000 / totalTime` fps are given in the `Tick` and only stored.
- Scheduling is not modelled:
  - `await`, `tf.nextFrame` and `requestAnimationFrame` are treated as sequential calls;
  - each frame handed to the browser is one later call of `InferenceLoop` with the same captured values;
  - the id `requestAnimationFrame` returns is given.
- React state updates take effect when they are made; batching is not modelled; a re-render appears only through the widget's `useRef` argument (`Rerender`) and through the values each closure captures.
- The `useEffect` wiring and the JSX of the widget and of the pages, canvas, video and selector components.
- The zustand middleware and selector hooks, and the background-selector hooks, which only pass values through.
- What a failing draw throws is given per pass (`Tick.renderError`), since it is the message of an error raised inside TensorFlow.js or the DOM.
- The intermediate tensors inside `tf.tidy` are not entered in the ledger, because `tidy` frees them before returning.
- CSS background strings are opaque strings.
- The logging calls (`console.log`, `console.error`).
