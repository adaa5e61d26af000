/**
 * `main` of both scripts: construct the pipeline object (which validates),
 * run it, and turn every failure on the way into exit code 1. The parsed
 * command line is given as the scripts' argument records; the file system
 * and GStreamer are oracles.
 */
module Entry {
  import opened Wrappers
  import Paths
  import Graph
  import Catalog
  import Tiling
  import SplitMerge
  import opened Runtime

  /** Why `main` printed an error instead of running: the exception the constructor raised. */
  datatype MainFailure =
    | PathFailure(pathError: Paths.PathError)
    | ParameterFailure(paramError: Tiling.ParamError)

  /**
   * What `main` leaves behind: its outcome, the file system afterwards, the
   * failure that stopped it early, and the runner's final state when it
   * got as far as `run`.
   */
  datatype MainResult = MainResult(
    outcome: RunOutcome,
    fs: set<string>,
    failure: Option<MainFailure>,
    runner: Option<RunnerState>)

  /** The file system and GStreamer as `main` meets them. */
  datatype Host = Host(fs: set<string>, mkdirOk: bool, engine: Engine)

  const TILING_PROGRESS_INTERVAL: nat := 50
  const SPLIT_MERGE_PROGRESS_INTERVAL: nat := 100

  const INITIAL_RUNNER: RunnerState := RunnerState(0, NoLoop, None, [], [])

  function TilingSettings(a: Tiling.TilingArgs): Settings {
    Settings(a.common.debug, TILING_PROGRESS_INTERVAL, "aggregator", Some(a.tilesX * a.tilesY))
  }

  function SplitMergeSettings(a: SplitMerge.SplitMergeArgs): Settings {
    Settings(a.common.debug, SPLIT_MERGE_PROGRESS_INTERVAL, "mux", None)
  }

  function PathCheck(c: Catalog.Common, h: Host): Result<set<string>, Paths.PathError> {
    Paths.ValidatePaths(c.input, c.hef, c.postprocessSo, c.output, h.fs, h.mkdirOk)
  }

  /**
   * The tiling script's `main`: paths first (which may already create the
   * output directory), then the parameters, then `run` on the built
   * description with the probe on the aggregator's `src` pad. Either
   * constructor exception means exit 1, and then `run` is never reached.
   */
  function TilingMainSpec(a: Tiling.TilingArgs, show: real -> string, h: Host): (r: MainResult)
    ensures r.failure.Some? <==> r.runner.None?
    ensures r.failure.Some? ==> r.outcome == Returned(1)
  {
    var paths := PathCheck(a.common, h);
    if paths.Failure? then MainResult(Returned(1), h.fs, Some(PathFailure(paths.error)), None)
    else
      var verdict := Tiling.ValidateParameters(a);
      if verdict.Rejected? then MainResult(Returned(1), paths.value, Some(ParameterFailure(verdict.error)), None)
      else
        var r := RunSpec(INITIAL_RUNNER, Tiling.BuildPipeline(a, show), h.engine, TilingSettings(a));
        MainResult(r.outcome, paths.value, None, Some(r.state))
  }

  /**
   * The split/merge script's `main`: paths, then `run` with the probe on the
   * muxer's `src` pad. Only the path check can stop it before `run`.
   */
  function SplitMergeMainSpec(a: SplitMerge.SplitMergeArgs, h: Host): (r: MainResult)
    ensures r.failure.Some? <==> r.runner.None?
    ensures r.failure.Some? ==> r.outcome == Returned(1)
    ensures r.failure.Some? ==> r.failure.value.PathFailure?
  {
    var paths := PathCheck(a.common, h);
    if paths.Failure? then MainResult(Returned(1), h.fs, Some(PathFailure(paths.error)), None)
    else
      var r := RunSpec(INITIAL_RUNNER, SplitMerge.BuildPipeline(a), h.engine, SplitMergeSettings(a));
      MainResult(r.outcome, paths.value, None, Some(r.state))
  }

  /** `main` of the tiling script, constructing the runner and running it. */
  method TilingMain(a: Tiling.TilingArgs, show: real -> string, h: Host) returns (result: MainResult)
    ensures result == TilingMainSpec(a, show, h)
  {
    var paths := PathCheck(a.common, h);
    if paths.Failure? {
      return MainResult(Returned(1), h.fs, Some(PathFailure(paths.error)), None);
    }
    var verdict := Tiling.ValidateParameters(a);
    if verdict.Rejected? {
      return MainResult(Returned(1), paths.value, Some(ParameterFailure(verdict.error)), None);
    }
    var runner := new PipelineRunner(a.common.debug, TILING_PROGRESS_INTERVAL, "aggregator", Some(a.tilesX * a.tilesY));
    var outcome := runner.Run(Tiling.BuildPipeline(a, show), h.engine);
    result := MainResult(outcome, paths.value, None, Some(runner.State()));
  }

  /** `main` of the split/merge script, constructing the runner and running it. */
  method SplitMergeMain(a: SplitMerge.SplitMergeArgs, h: Host) returns (result: MainResult)
    ensures result == SplitMergeMainSpec(a, h)
  {
    var paths := PathCheck(a.common, h);
    if paths.Failure? {
      return MainResult(Returned(1), h.fs, Some(PathFailure(paths.error)), None);
    }
    var runner := new PipelineRunner(a.common.debug, SPLIT_MERGE_PROGRESS_INTERVAL, "mux", None);
    var outcome := runner.Run(SplitMerge.BuildPipeline(a), h.engine);
    result := MainResult(outcome, paths.value, None, Some(runner.State()));
  }

  // ---------------------------------------------------------------------------
  // Properties of main

  /** The tiling script's `main` exits with 0 or 1 whenever it exits. */
  lemma TilingMainExitCode(a: Tiling.TilingArgs, show: real -> string, h: Host)
    ensures TilingMainSpec(a, show, h).outcome.Returned? ==> TilingMainSpec(a, show, h).outcome.code in {0, 1}
  {
    if PathCheck(a.common, h).Success? && Tiling.ValidateParameters(a).Accepted? {
      RunExitCode(INITIAL_RUNNER, Tiling.BuildPipeline(a, show), h.engine, TilingSettings(a));
    }
  }

  /** The split/merge script's `main` exits with 0 or 1 whenever it exits. */
  lemma SplitMergeMainExitCode(a: SplitMerge.SplitMergeArgs, h: Host)
    ensures SplitMergeMainSpec(a, h).outcome.Returned? ==> SplitMergeMainSpec(a, h).outcome.code in {0, 1}
  {
    if PathCheck(a.common, h).Success? {
      RunExitCode(INITIAL_RUNNER, SplitMerge.BuildPipeline(a), h.engine, SplitMergeSettings(a));
    }
  }

  /**
   * Tiling `main` with a missing input, HEF or library: exit 1, naming the
   * first missing one in that order, before GStreamer is touched and without
   * creating anything; an output directory that cannot be made is exit 1 too.
   */
  lemma TilingMissingFileExitsOne(a: Tiling.TilingArgs, show: real -> string, h: Host)
    ensures a.common.input !in h.fs ==>
      (TilingMainSpec(a, show, h) == MainResult(Returned(1), h.fs, Some(PathFailure(Paths.NotFound(Paths.InputFile, a.common.input))), None))
    ensures a.common.input in h.fs && a.common.hef !in h.fs ==>
      (TilingMainSpec(a, show, h) == MainResult(Returned(1), h.fs, Some(PathFailure(Paths.NotFound(Paths.HefFile, a.common.hef))), None))
    ensures a.common.input in h.fs && a.common.hef in h.fs && a.common.postprocessSo !in h.fs ==>
      (TilingMainSpec(a, show, h) == MainResult(Returned(1), h.fs, Some(PathFailure(Paths.NotFound(Paths.PostprocessSo, a.common.postprocessSo))), None))
    ensures PathCheck(a.common, h) == Failure(Paths.CannotCreate(Paths.Parent(a.common.output))) ==>
      (TilingMainSpec(a, show, h) == MainResult(Returned(1), h.fs, Some(PathFailure(Paths.CannotCreate(Paths.Parent(a.common.output)))), None))
  {
  }

  /** The same for the split/merge `main`. */
  lemma SplitMergeMissingFileExitsOne(a: SplitMerge.SplitMergeArgs, h: Host)
    ensures a.common.input !in h.fs ==>
      (SplitMergeMainSpec(a, h) == MainResult(Returned(1), h.fs, Some(PathFailure(Paths.NotFound(Paths.InputFile, a.common.input))), None))
    ensures a.common.input in h.fs && a.common.hef !in h.fs ==>
      (SplitMergeMainSpec(a, h) == MainResult(Returned(1), h.fs, Some(PathFailure(Paths.NotFound(Paths.HefFile, a.common.hef))), None))
    ensures a.common.input in h.fs && a.common.hef in h.fs && a.common.postprocessSo !in h.fs ==>
      (SplitMergeMainSpec(a, h) == MainResult(Returned(1), h.fs, Some(PathFailure(Paths.NotFound(Paths.PostprocessSo, a.common.postprocessSo))), None))
    ensures PathCheck(a.common, h) == Failure(Paths.CannotCreate(Paths.Parent(a.common.output))) ==>
      (SplitMergeMainSpec(a, h) == MainResult(Returned(1), h.fs, Some(PathFailure(Paths.CannotCreate(Paths.Parent(a.common.output)))), None))
  {
  }

  /**
   * The tiling constructor checks paths before parameters: with bad
   * parameters `main` exits 1 without running, but the output directory has
   * already been created.
   */
  lemma RejectedParametersAfterMkdir(a: Tiling.TilingArgs, show: real -> string, h: Host)
    requires PathCheck(a.common, h).Success?
    requires Tiling.ValidateParameters(a).Rejected?
    requires Paths.Parent(a.common.output) != "."
    ensures TilingMainSpec(a, show, h).outcome == Returned(1)
    ensures TilingMainSpec(a, show, h).runner.None?
    ensures Paths.Parent(a.common.output) in TilingMainSpec(a, show, h).fs
  {
  }

  /**
   * Once constructed, the tiling runner counts frames at the aggregator's
   * `src` pad, an element the description declares, and prints progress
   * every 50 frames; `main`'s outcome is that of `run`.
   */
  lemma TilingMainRuns(a: Tiling.TilingArgs, show: real -> string, h: Host)
    requires PathCheck(a.common, h).Success?
    requires Tiling.ValidateParameters(a) == Tiling.Accepted
    ensures TilingMainSpec(a, show, h).failure.None?
    ensures TilingMainSpec(a, show, h).outcome ==
      RunSpec(INITIAL_RUNNER, Tiling.BuildPipeline(a, show), h.engine, TilingSettings(a)).outcome
    ensures TilingSettings(a).interval == 50
    ensures Graph.Declares(Tiling.Description(a, show), TilingSettings(a).probeElement)
  {
    Tiling.TilingDeclarations(a, show);
  }

  /**
   * The split/merge script validates no size: whatever the inference width
   * and height, existing files lead to `run`, whose probe sits on the muxer
   * (declared in the description) and reports every 100 frames.
   */
  lemma SplitMergeMainRuns(a: SplitMerge.SplitMergeArgs, h: Host)
    requires PathCheck(a.common, h).Success?
    ensures SplitMergeMainSpec(a, h).failure.None?
    ensures SplitMergeMainSpec(a, h).outcome ==
      RunSpec(INITIAL_RUNNER, SplitMerge.BuildPipeline(a), h.engine, SplitMergeSettings(a)).outcome
    ensures SplitMergeSettings(a).interval == 100
    ensures Graph.Declares(SplitMerge.Description(a), SplitMergeSettings(a).probeElement)
  {
    SplitMerge.SplitMergeDeclarations(a);
  }
}
