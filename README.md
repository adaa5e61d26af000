# Hailo detection pipelines: a verified model

Two scripts run a Hailo object detector over a video with GStreamer and keep
the original resolution:

- `detection_tiling_pipeline.py` splits every frame into tiles with
  `hailotilecropper`, runs the detector per tile and stitches the results
  together with `hailotileaggregator`;
- `detection_preserve_resolution_pipeline.py` sends each frame through a `tee` both
  straight to a `hailomuxer` and, scaled to the network's size, through
  inference to the same muxer.

Both scripts then draw the detections, encode the video and write it to a file.

This project models what the scripts themselves do. GStreamer is an oracle in
the model.

- **Argument checks.** The tiling parameter validator and the path check
  shared by both scripts. The path check also creates the output directory.
- **Pipeline descriptions.** Each description is a typed list of chains of
  elements, caps and pad references (module `Graph`). Each script's
  multi-line literal is the words of that description with a gap of
  whitespace before each word and after the last. Each gap may differ: a
  single space within a line, a line break with a 12- or 16-space indent,
  or a whitespace-only line. The model then applies the scripts' clean-up
  `" ".join(s.split())` (module `Text`). It proves that the result is the
  same for every choice of non-empty whitespace gaps, so it covers the
  literal exactly as written (`LiteralCleansToPipeline`).
- **Event handling.** The bus-message handler and the buffer probe form a
  small state machine over the loop, the frame count and the lines printed.
- **Lifecycle.** `run` goes parse, probe, bus watch, main loop, PLAYING,
  loop, and then `finally` to NULL. `main` turns the constructor's
  exceptions into exit code 1.

Modules and files:

| file | module | what it holds |
|---|---|---|
| `wrappers.dfy` | `Wrappers` | `Option` and `Result` |
| `text.dfy` | `Text` | whitespace splitting and joining, the normalisation, decimal rendering of integers |
| `graph.dfy` | `Graph` | descriptions, their rendering and assembly, predicates for cleanliness, declarations and routes |
| `catalog.dfy` | `Catalog` | the arguments and elements both descriptions share: decode head, queues, hailonet, hailofilter, encoder, sink; `Build`, the layout and clean-up both `build_pipeline`s apply |
| `tiling.dfy` | `Tiling` | `_validate_parameters` and the tile/aggregate description |
| `splitmerge.dfy` | `SplitMerge` | the tee/mux description |
| `paths.dfy` | `Paths` | `_validate_paths` over a file system given as the set of existing paths |
| `runtime.dfy` | `Runtime` | `on_message`, `on_buffer_probe`, the main loop, `run`, and the class `PipelineRunner` holding `frame_count`, `loop` and `pipeline` |
| `entry.dfy` | `Entry` | `main` of both scripts |

The two scripts share most of their logic almost word for word. It is
modelled once, parameterised by the following:

| parameter | tiling | split/merge |
|---|---|---|
| progress interval | 50 | 100 |
| probed element | `aggregator` | `mux` |
| tiles-per-frame line | printed | absent |

Where a member models code both scripts share, its row cites one script and names the other's lines.

### Behaviour worth knowing

- **An ERROR on the bus only quits the loop.** `run` then returns 0
  (`Runtime.RunErrorReturnsZero`).
- **A failed change to PLAYING returns 1 at once.** `set_state(NULL)` sits
  only in the `finally` of the loop, so that path does not reach it
  (`Runtime.RunPlayingFailure`).
- **The validator raises at the first failed check.** Later checks are not
  evaluated (`Tiling.ValidateParameters`).
- **The tiling constructor checks paths before parameters.** With bad tiling
  parameters, the output directory already exists by the time the error is
  raised (`Entry.RejectedParametersAfterMkdir`).

## Model

| member | source | states |
|---|---|---|
| Text.Normalize | detection_tiling_pipeline.py:211 | `" ".join(s.split())` is single-spaced (no whitespace at either end, no whitespace but plain spaces, no two spaces in a row) and keeps the same tokens, in order, as its input (split/merge: line 144) |
| Text.NormalizeIdempotent | detection_tiling_pipeline.py:211 | cleaning a cleaned string again changes nothing (split/merge: line 144) |
| Text.NormalizeSingleSpaced | detection_preserve_resolution_pipeline.py:144 | a string that is already single-spaced is left unchanged by the clean-up (tiling: line 211) |
| Text.Split | detection_tiling_pipeline.py:211 | `str.split()`: every piece is a non-empty run without whitespace (split/merge: line 144) |
| Text.Join | detection_tiling_pipeline.py:211 | `" ".join`: no contract of its own; `SplitJoin` and `JoinSingleSpaced` state what it gives (split/merge: line 144) |
| Text.SplitJoin | detection_tiling_pipeline.py:211 | splitting the space-join of whitespace-free words gives back exactly those words (split/merge: line 144) |
| Text.JoinSingleSpaced | detection_preserve_resolution_pipeline.py:144 | joining whitespace-free words with single spaces gives a single-spaced string (tiling: line 211) |
| Text.SplitLayout | detection_tiling_pipeline.py:164-211 | the tokens of words laid out with a non-empty whitespace gap of its own before each word and after the last are the tokens of those words, in order (split/merge: lines 109-144) |
| Text.NormalizeLayout | detection_tiling_pipeline.py:164-211 | cleaning whitespace-free words laid out with any such gaps, each one different if need be, gives their single-space join (split/merge: lines 109-144) |
| Text.NormalizeLayoutGapIrrelevant | detection_preserve_resolution_pipeline.py:109-144 | the literal's layout does not matter: any two sequences of non-empty whitespace gaps around the same words clean to the same string, so single spaces, 12- and 16-space indents and whitespace-only lines may be mixed freely (tiling: lines 164-211) |
| Text.IntToString | detection_tiling_pipeline.py:172-204 | an integer renders as one whitespace-free word: the tile counts at lines 172-173, the tiling mode at 176, the tile sizes at 191 and the bitrate at 204 (split/merge: the sizes and bitrate at lines 125 and 137) |
| Text.IntToStringRoundTrip | detection_tiling_pipeline.py:176 | the decimal text of any integer, sign included, reads back as that integer |
| Graph.AssembleClean | detection_tiling_pipeline.py:164-211 | for a description whose texts hold no whitespace, the cleaned literal is exactly its one-line rendering, whatever non-empty whitespace gaps separate its words (split/merge: lines 109-144) |
| Graph.AssembleWords | detection_preserve_resolution_pipeline.py:109-144 | whatever the arguments hold and whatever gaps separate the words, the tokens of the cleaned literal are the tokens of the description's words, in order (tiling: lines 164-211) |
| Graph.LeavingMembers | detection_tiling_pipeline.py:184-199 | the chains listed as leaving a pad are exactly the description's chains written `pad ! ...` (split/merge: lines 119-132) |
| Graph.WordsAreWords | detection_tiling_pipeline.py:164-208 | every word of a clean description is a single token (split/merge: lines 109-141) |
| Graph.FactoriesOfElements | detection_tiling_pipeline.py:188-197 | without pad references, the factory list of a chain lists each item's factory, one for one (split/merge: lines 123-130) |
| Catalog.Build | detection_tiling_pipeline.py:164-211 | the description's words laid out and cleaned: single-spaced, with the tokens of the description's words, in order (split/merge: lines 109-144) |
| Catalog.LayoutCleansToBuild | detection_preserve_resolution_pipeline.py:109-144 | any whitespace layout of a description's words cleans to `Build` of that description (tiling: lines 164-211) |
| Catalog.BuildClean | detection_tiling_pipeline.py:164-211 | a clean description builds to its one-line rendering, and the clean-up leaves that alone (split/merge: lines 109-144) |
| Catalog.EncodeStagesFactories | detection_tiling_pipeline.py:200-206 | after the aggregator or muxer come queue, hailooverlay, queue, videoconvert, x264enc, h264parse, mp4mux, in that order (split/merge: lines 133-139) |
| Catalog.EncodeClean | detection_preserve_resolution_pipeline.py:133-140 | the encoder stages and the file sink are clean whenever the output path has no whitespace, whatever the bitrate (tiling: lines 200-207) |
| Tiling.ValidateParameters | detection_tiling_pipeline.py:126-147 | accepted exactly when all seven checks pass; a rejection names the first failed check and the value it rejected, and every earlier check passed |
| Tiling.ErrorOf | detection_tiling_pipeline.py:128-147 | the error of check k has rank k, so errors and checks correspond one to one in source order |
| Tiling.ValidateParametersRanges | detection_tiling_pipeline.py:128-147 | the accepted region written out: tiles in [1, 20], overlaps and thresholds finite and in [0.0, 1.0], tiling mode 0 or 1, all bounds inclusive, in both directions |
| Tiling.TilesXBoundary | detection_tiling_pipeline.py:128-129 | otherwise valid parameters with 20 tiles along x are accepted; 21 and 0 are rejected as tiles-x |
| Tiling.NonFiniteRejected | detection_tiling_pipeline.py:134-135 | NaN and the infinities fail the interval check, so they are rejected as overlap-x |
| Tiling.BuildPipeline | detection_tiling_pipeline.py:149-221 | `build_pipeline`: whatever the arguments hold, the string is single-spaced and its tokens are those of the description's words, in order |
| Tiling.LiteralCleansToPipeline | detection_tiling_pipeline.py:164-211 | the literal as written cleans to `build_pipeline`'s string: the statement holds for every sequence of non-empty whitespace gaps around the description's words, the literal's own mix of spaces, indents and whitespace-only lines included |
| Tiling.Description | detection_tiling_pipeline.py:164-208 | the literal as five chains; its shape is stated by `TilingChainHeads`, the route lemmas and `TilingWellFormed` |
| Tiling.FloatText | detection_tiling_pipeline.py:174-181 | `str(float)`: finite values as `show` writes them; NaN and the infinities as one of `nan`, `inf`, `-inf`, each a single word |
| Tiling.BuildPipelineRendersDescription | detection_tiling_pipeline.py:164-211 | for whitespace-free arguments the pipeline string is the one-line rendering of the tile/aggregate description; it is single-spaced and a fixed point of the clean-up |
| Tiling.DescriptionClean | detection_tiling_pipeline.py:164-208 | with whitespace-free paths and number texts, every item of the tiling description is clean |
| Tiling.TilingDeclarations | detection_tiling_pipeline.py:171-182 | the description declares `cropper` and `aggregator` |
| Tiling.TilingChainShapes | detection_tiling_pipeline.py:164-208 | no chain is empty, and pad references occur only at the ends of chains |
| Tiling.TilingChainEnds | detection_tiling_pipeline.py:184-207 | both ends of each chain are an element or a pad of a declared element |
| Tiling.TilingWellFormed | detection_tiling_pipeline.py:164-208 | the tiling description is well formed: non-empty chains, pad references only at chain ends and only to declared elements |
| Tiling.TilingChainHeads | detection_tiling_pipeline.py:164-199 | the first chain is the decode head, the RGB caps and the cropper; the second is the aggregator on its own; the other three begin at `cropper.src_0`, `cropper.src_1` and `aggregator.src` |
| Tiling.FullFrameRoute | detection_tiling_pipeline.py:184-186 | exactly one chain of the description leaves `cropper.src_0`, listed once, and it reaches `aggregator.sink_0` through exactly one queue |
| Tiling.TilesRoute | detection_tiling_pipeline.py:188-197 | exactly one chain of the description leaves `cropper.src_1`, listed once, and it reaches `aggregator.sink_1` through the tiles branch and nothing else |
| Tiling.AggregatedRoute | detection_tiling_pipeline.py:199-207 | exactly one chain of the description leaves `aggregator.src`, listed once, and it goes through the encode stages into the file sink |
| Tiling.TileBranchStages | detection_tiling_pipeline.py:189-196 | the tiles branch is queue, videoscale, the caps filter, queue, hailonet, queue, hailofilter, queue; the caps filter holds tile_width and tile_height |
| Tiling.TilingBoundedQueues | detection_tiling_pipeline.py:185-202 | every queue of the tiling description is `leaky=no max-size-buffers=30 max-size-bytes=0 max-size-time=0` |
| Tiling.TilingElementConfig | detection_tiling_pipeline.py:171-182 | the aggregator always gets `flatten-detections=true` and `remove-large-landscape` as lower-case true/false; the cropper gets the numeric tiling mode, which reads back as the argument, and the grid sizes |
| SplitMerge.NmsPropsClean | detection_preserve_resolution_pipeline.py:103-107 | the fixed NMS settings are clean properties |
| SplitMerge.BuildPipeline | detection_preserve_resolution_pipeline.py:91-155 | `build_pipeline`: whatever the arguments hold, the string is single-spaced and its tokens are those of the description's words, in order |
| SplitMerge.LiteralCleansToPipeline | detection_preserve_resolution_pipeline.py:109-144 | the literal as written cleans to `build_pipeline`'s string: the statement holds for every sequence of non-empty whitespace gaps around the description's words, including the literal's blank lines and the trailing space after `t. !` at line 119 |
| SplitMerge.Description | detection_preserve_resolution_pipeline.py:109-141 | the literal as five chains; its shape is stated by `TeeRoutes`, `MuxRoute` and `SplitMergeWellFormed` |
| SplitMerge.BuildPipelineRendersDescription | detection_preserve_resolution_pipeline.py:109-144 | for whitespace-free arguments the pipeline string is the one-line rendering of the tee/mux description; it is single-spaced and a fixed point of the clean-up |
| SplitMerge.DescriptionClean | detection_preserve_resolution_pipeline.py:109-141 | with whitespace-free paths, every item of the split/merge description is clean |
| SplitMerge.SplitMergeDeclarations | detection_preserve_resolution_pipeline.py:115-117 | the description declares `t` and `mux` |
| SplitMerge.SplitMergeChainShapes | detection_preserve_resolution_pipeline.py:109-141 | no chain is empty, and pad references occur only at the ends of chains |
| SplitMerge.SplitMergeChainEnds | detection_preserve_resolution_pipeline.py:119-132 | both ends of each chain are an element or a pad of a declared element |
| SplitMerge.SplitMergeWellFormed | detection_preserve_resolution_pipeline.py:109-141 | the split/merge description is well formed: non-empty chains, pad references only at chain ends and only to declared elements |
| SplitMerge.TeeRoutes | detection_preserve_resolution_pipeline.py:119-130 | the chains of the description that leave `t.` are exactly two, in this order and each listed once, both ending at `mux.`: the passthrough with one queue and nothing else, and the inference branch |
| SplitMerge.InferenceBranchStages | detection_preserve_resolution_pipeline.py:124-129 | the inference branch is videoscale, caps of inference_width × inference_height, queue, hailonet with the fixed NMS settings, queue, hailofilter; so the scaling comes before hailonet |
| SplitMerge.MuxRoute | detection_preserve_resolution_pipeline.py:132-140 | exactly one chain of the description leaves `mux.`, listed once, and it goes through the encode stages into the file sink |
| SplitMerge.SplitMergeBoundedQueues | detection_preserve_resolution_pipeline.py:120-135 | every queue of the split/merge description is the bounded, non-leaky queue |
| Paths.Parent | detection_tiling_pipeline.py:122 | the parent is `.` for a name without `/`, `/` only for a path starting with `/`, and otherwise the prefix before the last `/` (split/merge: line 87) |
| Paths.ValidatePaths | detection_tiling_pipeline.py:110-124 | success exactly when input, HEF and library exist and the directory can be made; the first missing file, in the order input, HEF, library, is the error; nothing is created when the parent is `.`; otherwise the parent and its ancestors exist afterwards and nothing else is added; the split/merge script has the identical check at its lines 75-89 |
| Paths.Ancestors | detection_tiling_pipeline.py:124 | the directories `mkdir(parents=True)` makes exist include the directory itself (split/merge: line 89); `AncestorsArePrefixes` and `AncestorsClosed` state the rest |
| Paths.AncestorsArePrefixes | detection_tiling_pipeline.py:124 | every directory `mkdir(parents=True)` makes is the output's directory or a prefix of it (split/merge: line 89) |
| Paths.AncestorsClosed | detection_preserve_resolution_pipeline.py:89 | whatever `mkdir(parents=True)` makes, it also makes that directory's parent, up to `.` or the root (tiling: line 124) |
| Paths.ValidatePathsIdempotent | detection_tiling_pipeline.py:124 | `exist_ok=True`: validating again against the resulting file system succeeds and changes nothing (split/merge: line 89) |
| Paths.OutputDirectoryReady | detection_preserve_resolution_pipeline.py:86-89 | after a successful check every ancestor of the output's directory exists, together with its own parent (tiling: lines 121-124) |
| Paths.BareOutputName | detection_tiling_pipeline.py:122-123 | a bare output file name writes into `.`, so nothing is created (split/merge: lines 87-88) |
| Paths.NestedOutputExample | detection_preserve_resolution_pipeline.py:87-89 | `videos/out/clip.mp4` creates `videos/out` and `videos` (tiling: lines 122-124) |
| Runtime.MessageStep | detection_tiling_pipeline.py:223-256 | ERROR and EOS quit the loop when one exists; no other message changes the loop; no message changes the frame count; the earlier output stays; the split/merge handler at its lines 157-190 is identical |
| Runtime.Dispatch | detection_tiling_pipeline.py:320-323 | `loop.run()` delivering the events in order: the frame count never goes down, a quit leaves the loop marked as quitting, and Ctrl-C leaves the loop as it was (split/merge: lines 247-250); characterised fully by `DispatchStopsAtFirstStop` |
| Runtime.MessageReportsDebug | detection_tiling_pipeline.py:227-254 | errors and warnings are always reported, EOS with the frame count; their detail exactly under `--debug` with a non-empty detail; without `--debug`, state changes and stream status are silent (split/merge: lines 161-188) |
| Runtime.ForeignStateChangesSilent | detection_preserve_resolution_pipeline.py:180-184 | a state change of another element prints nothing; one of the pipeline prints under `--debug` (tiling: lines 246-250) |
| Runtime.PipelineRunner.OnMessage | detection_tiling_pipeline.py:223-256 | the handler always returns True and updates the object's loop, count and output as `MessageStep` says, touching nothing else (split/merge: lines 157-190) |
| Runtime.ProbeStep | detection_tiling_pipeline.py:258-265 | the frame count goes up by exactly one and a progress line for the new count is printed exactly when it is a multiple of the interval; the loop is untouched (split/merge: lines 192-199, interval 100) |
| Runtime.PipelineRunner.OnBufferProbe | detection_preserve_resolution_pipeline.py:192-199 | the probe always returns OK and updates the object as `ProbeStep` says (tiling: lines 258-265, interval 50) |
| Runtime.ProgressLinesExact | detection_tiling_pipeline.py:262-263 | a progress line for frame m is printed between counts lo and hi exactly when lo < m ≤ hi and m is a multiple of the interval (split/merge: lines 196-197) |
| Runtime.ProbesProgress | detection_preserve_resolution_pipeline.py:194-197 | after k buffers from count c, the count is c + k and the lines printed are exactly the progress lines for (c, c + k] (tiling: lines 260-263) |
| Runtime.FirstStop | detection_tiling_pipeline.py:320-323 | the position of the first ERROR, EOS or Ctrl-C, with none before it (split/merge: lines 247-250) |
| Runtime.DispatchStopsAtFirstStop | detection_tiling_pipeline.py:320-323 | the loop returns at the first ERROR, EOS or Ctrl-C and at nothing else, and stays blocked without one; the frame count grows by the buffers before that point exactly when the probe is attached; earlier output stays (split/merge: lines 247-250) |
| Runtime.PipelineRunner.RunLoop | detection_preserve_resolution_pipeline.py:247-250 | delivering the events one by one to the two handlers leaves the object in the state `Dispatch` gives, and stops for the reason it gives (tiling: lines 320-323) |
| Runtime.PipelineRunner.Start | detection_tiling_pipeline.py:297-314 | looks up the probed element and, if found, its `src` pad; attaches the probe exactly when both exist; then watches the bus, makes the loop and asks for PLAYING, in that order (split/merge: lines 225-241) |
| Runtime.PipelineRunner.constructor | detection_tiling_pipeline.py:100-104 | a new runner has no pipeline, no loop and no frames (split/merge: lines 66-70) |
| Runtime.RunSpec | detection_tiling_pipeline.py:267-331 | `run` as a function of the engine's answers: `parse_launch` is the first new call and earlier calls stay, the frame count never goes down, and the exit code is 1 exactly when parsing or PLAYING failed (split/merge: lines 201-256) |
| Runtime.PipelineRunner.Run | detection_tiling_pipeline.py:290-331 | the object's final state and the outcome are those of `RunSpec` from its initial state; the split/merge `run` at its lines 216-256 is the same with the muxer probed and no tiles line |
| Runtime.SetupCallsNoLoop | detection_preserve_resolution_pipeline.py:225-241 | setup neither runs the loop nor tears down, and it adds the probe exactly when the element and its pad exist (tiling: lines 297-314) |
| Runtime.RunParseFailure | detection_tiling_pipeline.py:290-295 | a description that fails to parse gives exit 1, and no probe, bus, loop or state call follows `parse_launch` (split/merge: lines 216-221) |
| Runtime.RunPlayingFailure | detection_preserve_resolution_pipeline.py:241-244 | a refused PLAYING gives exit 1; the loop never runs and the pipeline is not set to NULL (tiling: lines 314-317) |
| Runtime.RunTeardown | detection_tiling_pipeline.py:319-331 | with PLAYING accepted the loop runs; once ERROR, EOS or Ctrl-C ends it, `set_state(NULL)` happens exactly once, as the last call, and `run` returns 0; without such an event `run` does not return and nothing is torn down (split/merge: lines 246-256) |
| Runtime.RunExitCode | detection_preserve_resolution_pipeline.py:201-256 | whenever `run` returns, it returns 0 or 1 (tiling: lines 267-331) |
| Runtime.RunFrameCount | detection_tiling_pipeline.py:297-302 | the final frame count is the number of buffers before the loop stopped when the probe is attached, and unchanged otherwise; the probe is attached exactly then (split/merge: lines 225-229) |
| Runtime.DispatchReportsError | detection_tiling_pipeline.py:227-233 | when an ERROR is the first event that stops the loop, its error line is among the lines the loop printed (split/merge: lines 161-167) |
| Runtime.RunErrorReturnsZero | detection_tiling_pipeline.py:227-233 | whenever an ERROR is the event that stops the loop, its error line is printed and `run` still returns 0 at line 331 (split/merge: lines 161-167 and 256) |
| Entry.TilingMainSpec | detection_tiling_pipeline.py:334-350 | `main` of the tiling script, constructor included: a constructor exception and only that leaves no runner, and it means exit 1 |
| Entry.SplitMergeMainSpec | detection_preserve_resolution_pipeline.py:259-275 | `main` of the split/merge script: a failure can only be a path failure, and it means exit 1 with no runner |
| Entry.TilingMain | detection_tiling_pipeline.py:334-350 | `main` of the tiling script: a path failure or a rejected parameter gives exit 1 with that error; otherwise the outcome and final state are those of `run` on the built description |
| Entry.SplitMergeMain | detection_preserve_resolution_pipeline.py:259-275 | `main` of the split/merge script: a path failure gives exit 1; otherwise the outcome and final state are those of `run` |
| Entry.TilingMainExitCode | detection_tiling_pipeline.py:334-350 | the tiling `main` returns 0 or 1 whenever it returns |
| Entry.SplitMergeMainExitCode | detection_preserve_resolution_pipeline.py:259-275 | the split/merge `main` returns 0 or 1 whenever it returns |
| Entry.TilingMissingFileExitsOne | detection_tiling_pipeline.py:334-343 | a missing input, HEF or library, each with the earlier files present, gives exit 1 naming that file, with the file system unchanged and `run` never reached; so does an output directory that cannot be made |
| Entry.SplitMergeMissingFileExitsOne | detection_preserve_resolution_pipeline.py:259-275 | the same four cases for the split/merge `main`: exit 1 naming the first missing file, or the directory that cannot be made, with the file system unchanged |
| Entry.RejectedParametersAfterMkdir | detection_tiling_pipeline.py:106-108 | bad tiling parameters give exit 1 without running, after the output directory has been created |
| Entry.TilingMainRuns | detection_tiling_pipeline.py:298-302 | once validated, `main` returns `run`'s outcome, and the probe sits on `aggregator`, a declared element, with a progress line every 50 frames |
| Entry.SplitMergeMainRuns | detection_preserve_resolution_pipeline.py:72-73 | no size is validated: existing files always lead to `run`, probing `mux`, a declared element, with a progress line every 100 frames |

## Left out

- **GStreamer and GLib.** `parse_launch`, `get_by_name`, `get_static_pad`,
  `add_probe`, the bus watch, `MainLoop` and `set_state` are foreign calls.
  Their outcomes are the `Engine` input: parse error, element found, pad
  found, the PLAYING result, and the sequence of events. The calls are
  recorded in order, not performed.
- **Event order.** The probe runs on streaming threads and bus messages arrive
  asynchronously. The model delivers them as one sequential event sequence,
  and only while `loop.run()` is running.
- **Runtime.RunFrameCount**, and the `[DONE]` total: in the source a buffer
  may pass the probe after PLAYING but before `loop.run()` starts, or after
  the loop has quit but before `set_state(NULL)`. Such buffers are counted
  in the total. The model never counts them, so its total covers only the
  buffers seen inside the loop.
- **Ctrl-C.** It counts only while `loop.run()` is running, as one `Interrupt` event.
  A KeyboardInterrupt elsewhere is not modelled.
- **A loop that never returns.** `StillRunning` stands for it. The `finally`
  block is then never reached.
- **Printing.**
  - The output is modelled as a sequence of abstract reports: which line,
    with which values.
  - Their formatting is not modelled: the banner, `:.1%`, the `[DEBUG]`
    re-formatting of the description with `replace(" ! ", ...)`, and
    `value_nick`.
  - The banner lines before `build_pipeline` are omitted.
  - The debug print of the description inside `build_pipeline` is omitted.
  - The `[START] Starting ... pipeline...` line before PLAYING is omitted
    (tiling line 313, split/merge line 240).
  - `main`'s `[ERROR] {e}` line and its follow-up (tiling lines 341-342:
    `Please check the parameters and try again.`; split/merge lines 266-267:
    `Please check the file paths and try again.`) are omitted. The model
    keeps the exception as the failure and the exit code 1.
  - The `[ERROR] Unexpected error: {e}` line and the `traceback.print_exc()`
    under `--debug` are omitted (tiling lines 346-349, split/merge lines
    271-274).
- **Other exceptions from `parse_launch`.** Only `GLib.Error` is modelled.
  `main`'s generic `except Exception` branch has no separate cause in the
  model.
- **argparse.** Its parsing is left out; the parsed arguments are inputs.
  `--remove-large-landscape` is a `store_true` flag whose default is True,
  so from the command line it is always True. The model takes it as a free
  boolean.
- **Float rendering.** Python's `repr` of a float is the parameter
  `show: real -> string`. Finite values are reals. NaN and the infinities
  render as `nan`, `inf` and `-inf`, and they fail every interval check.
  A real has no sign of zero, so `-0.0` and `0.0` are one value. The
  validator accepts `--overlap-x -0.0` and Python writes it as
  `overlap-x-axis=-0.0` (tiling line 174); the model renders it as `show(0.0)`.
- **The file system.** It is the set of paths that exist. There are no files,
  directories, permissions or races.
  - `mkdir(parents=True, exist_ok=True)` either succeeds or fails as a whole
    (`mkdirOk`). A partial failure is not modelled.
  - A path that exists as a file where a directory is needed is not
    distinguished.
- **pathlib normalisation.** `Parent` works on the path as written. `pathlib`
  drops trailing and repeated slashes and `.` components, so `a/b/` and
  `a//b` differ from `pathlib`.
- **Tile work.** Tile partitioning, coordinate translation, border filtering
  and IOU de-duplication happen inside `hailotilecropper` and
  `hailotileaggregator`. These scripts only configure them.
- **`tiling_mode_str`.** It is computed in `build_pipeline` and never used.
- **Where `run` gets its description.** `Runtime.PipelineRunner.Run` takes
  the already-built description string: `build_pipeline` is the pure
  function of the script's module, and `main` passes its result in.
