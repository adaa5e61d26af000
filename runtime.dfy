/**
 * The run-time half both scripts share: the bus-message handler
 * (`on_message`), the buffer probe that counts frames (`on_buffer_probe`),
 * the GLib main loop that delivers both, and the lifecycle of `run`.
 *
 * GStreamer itself is an oracle: an `Engine` value says what `parse_launch`,
 * `get_by_name`, `get_static_pad` and `set_state` answer and which events
 * the main loop delivers, in order. What the scripts print is kept as a log
 * of `Report`s, and what they ask of GStreamer as a log of `Call`s.
 */
module Runtime {
  import opened Wrappers

  datatype GstState = VoidPending | NullState | Ready | Paused | Playing

  /** What `set_state` answers. */
  datatype StateChangeReturn = ChangeFailure | ChangeSuccess | ChangeAsync | ChangeNoPreroll

  /** The bus messages the handler tells apart; every other type is `OtherMsg`. */
  datatype BusMessage =
    | ErrorMsg(err: string, debug: Option<string>)
    | EosMsg
    | WarningMsg(warning: string, debug: Option<string>)
    | StateChangedMsg(fromPipeline: bool, oldState: GstState, newState: GstState)
    | StreamStatusMsg(status: string)
    | OtherMsg

  /** The lines the scripts print, without their formatting. */
  datatype Report =
    | ErrorReport(err: string)
    | DebugReport(detail: string)
    | EosReport(frames: nat)
    | WarningReport(warning: string)
    | StateReport(oldState: GstState, newState: GstState)
    | StreamStatusReport(status: string)
    | ProgressReport(frames: nat)
    | ParseFailedReport(err: string)
    | PlayingFailedReport
    | InterruptedReport
    | DoneReport(frames: nat, tilesPerFrame: Option<int>)

  /** `self.loop`: not created yet, or a main loop that may have been asked to quit. */
  datatype LoopState = NoLoop | Loop(quitRequested: bool)

  /** What the main loop delivers: a bus message, a buffer at the probed pad, or Ctrl-C. */
  datatype Event = Bus(msg: BusMessage) | BufferAtProbe | Interrupt

  /** The requests `run` makes of GStreamer and GLib, in order. */
  datatype Call =
    | ParseLaunch(description: string)
    | GetByName(name: string)
    | GetStaticPad(pad: string)
    | AddProbe
    | WatchBus
    | NewMainLoop
    | SetState(target: GstState)
    | LoopRun

  datatype ProbeReturn = ProbeOk

  /** GStreamer's answers to `run`, fixed in advance. */
  datatype Engine = Engine(
    parseError: Option<string>,
    hasProbeElement: bool,
    hasSrcPad: bool,
    playResult: StateChangeReturn,
    events: seq<Event>)

  /** `run` returns an exit code, or never returns because the loop is still waiting for events. */
  datatype RunOutcome = Returned(code: int) | StillRunning

  /** What differs between the two scripts' runners. */
  datatype Settings = Settings(
    debug: bool,
    interval: nat,
    probeElement: string,
    tilesPerFrame: Option<int>)

  predicate ValidSettings(cfg: Settings) {
    cfg.interval > 0
  }

  /** The handlers' view of the runner: the loop, the frame counter and what has been printed. */
  datatype Monitor = Monitor(loop: LoopState, frameCount: nat, reports: seq<Report>)

  // ---------------------------------------------------------------------------
  // on_message

  /** Python's truth value of the optional debug string: present and non-empty. */
  predicate Truthy(d: Option<string>) {
    d.Some? && |d.value| > 0
  }

  predicate Quits(m: BusMessage) {
    m.ErrorMsg? || m.EosMsg?
  }

  /** The debug detail of an error or warning, printed only under `--debug`. */
  function DetailReports(d: Option<string>, debug: bool): seq<Report> {
    if Truthy(d) && debug then [DebugReport(d.value)] else []
  }

  /** What `on_message` prints for m, with `frames` the current frame count. */
  function MessageReports(m: BusMessage, frames: nat, debug: bool): seq<Report> {
    match m
    case ErrorMsg(err, d) => [ErrorReport(err)] + DetailReports(d, debug)
    case EosMsg => [EosReport(frames)]
    case WarningMsg(w, d) => [WarningReport(w)] + DetailReports(d, debug)
    case StateChangedMsg(fromPipeline, o, n) => if fromPipeline && debug then [StateReport(o, n)] else []
    case StreamStatusMsg(st) => if debug then [StreamStatusReport(st)] else []
    case OtherMsg => []
  }

  /**
   * `on_message` on the handlers' state: only ERROR and EOS quit the loop,
   * and only when a loop exists; the frame count never changes; what was
   * printed before stays.
   */
  function MessageStep(s: Monitor, m: BusMessage, debug: bool): (t: Monitor)
    ensures t.frameCount == s.frameCount
    ensures t.reports == s.reports + MessageReports(m, s.frameCount, debug)
    ensures Quits(m) && s.loop.Loop? ==> t.loop == Loop(true)
    ensures !Quits(m) || s.loop == NoLoop ==> t.loop == s.loop
  {
    var reports := s.reports + MessageReports(m, s.frameCount, debug);
    if Quits(m) && s.loop.Loop? then Monitor(Loop(true), s.frameCount, reports)
    else Monitor(s.loop, s.frameCount, reports)
  }

  /**
   * Errors and warnings are always reported; their detail only under
   * `--debug` and when it is non-empty; without `--debug`, state changes and
   * stream status are silent.
   */
  lemma MessageReportsDebug(m: BusMessage, frames: nat, debug: bool)
    ensures m.ErrorMsg? ==> MessageReports(m, frames, debug)[0] == ErrorReport(m.err)
    ensures m.WarningMsg? ==> MessageReports(m, frames, debug)[0] == WarningReport(m.warning)
    ensures m.EosMsg? ==> MessageReports(m, frames, debug) == [EosReport(frames)]
    ensures (exists r :: r in MessageReports(m, frames, debug) && r.DebugReport?) <==>
              (m.ErrorMsg? || m.WarningMsg?) && debug && Truthy(m.debug)
    ensures !debug ==> forall r :: r in MessageReports(m, frames, debug) ==>
              !r.DebugReport? && !r.StateReport? && !r.StreamStatusReport?
  {
    var rs := MessageReports(m, frames, debug);
    if (m.ErrorMsg? || m.WarningMsg?) && debug && Truthy(m.debug) {
      assert rs[1] in rs;
    }
  }

  /** A state change is reported only when the pipeline itself changed state. */
  lemma ForeignStateChangesSilent(o: GstState, n: GstState, frames: nat, debug: bool)
    ensures MessageReports(StateChangedMsg(false, o, n), frames, debug) == []
    ensures debug ==> MessageReports(StateChangedMsg(true, o, n), frames, debug) == [StateReport(o, n)]
  {
  }

  // ---------------------------------------------------------------------------
  // on_buffer_probe

  predicate IsProgress(r: Report) {
    r.ProgressReport?
  }

  /**
   * `on_buffer_probe`: the frame count goes up by exactly one and a
   * progress line is printed exactly when the new count is a multiple of the
   * interval (50 for tiling, 100 for split/merge); the loop is untouched.
   */
  function ProbeStep(s: Monitor, interval: nat): (t: Monitor)
    requires interval > 0
    ensures t.frameCount == s.frameCount + 1
    ensures t.loop == s.loop
    ensures t.frameCount % interval == 0 ==> t.reports == s.reports + [ProgressReport(t.frameCount)]
    ensures t.frameCount % interval != 0 ==> t.reports == s.reports
  {
    var n := s.frameCount + 1;
    Monitor(s.loop, n, s.reports + if n % interval == 0 then [ProgressReport(n)] else [])
  }

  /** k buffers through the probe, one after the other. */
  function Probes(s: Monitor, k: nat, interval: nat): Monitor
    requires interval > 0
  {
    if k == 0 then s else ProbeStep(Probes(s, k - 1, interval), interval)
  }

  /** The progress lines for the frames after lo up to hi: one for each multiple of the interval, in order. */
  function ProgressLines(lo: nat, hi: nat, interval: nat): seq<Report>
    requires interval > 0
    decreases hi
  {
    if hi <= lo then [] else ProgressLines(lo, hi - 1, interval) + if hi % interval == 0 then [ProgressReport(hi)] else []
  }

  /** ProgressLines holds a line for frame m exactly when lo < m <= hi and m is a multiple of the interval. */
  lemma {:induction false} ProgressLinesExact(lo: nat, hi: nat, interval: nat, m: nat)
    requires interval > 0
    ensures ProgressReport(m) in ProgressLines(lo, hi, interval) <==> lo < m <= hi && m % interval == 0
    ensures forall r :: r in ProgressLines(lo, hi, interval) ==> IsProgress(r)
    decreases hi
  {
    if hi > lo {
      ProgressLinesExact(lo, hi - 1, interval, m);
    }
  }

  /**
   * After k more buffers starting from count c, the frame count is c + k and
   * the lines printed meanwhile are exactly the progress lines for the
   * multiples of the interval in (c, c + k].
   */
  lemma {:induction false} ProbesProgress(s: Monitor, k: nat, interval: nat)
    requires interval > 0
    ensures Probes(s, k, interval).frameCount == s.frameCount + k
    ensures Probes(s, k, interval).loop == s.loop
    ensures Probes(s, k, interval).reports == s.reports + ProgressLines(s.frameCount, s.frameCount + k, interval)
  {
    if k > 0 {
      ProbesProgress(s, k - 1, interval);
    }
  }

  // ---------------------------------------------------------------------------
  // The main loop

  /** Why `loop.run()` came back, or that it is still waiting. */
  datatype Stop = QuitStop | InterruptStop | Exhausted

  datatype Dispatched = Dispatched(monitor: Monitor, stop: Stop)

  /**
   * `loop.run()`: events are delivered in order; a buffer runs the probe
   * when one is attached; a message runs `on_message`, and the loop returns
   * once the handler has asked it to quit; Ctrl-C raises out of the loop.
   * Frames are never uncounted, and only a quit request ends it with the
   * loop marked as quitting.
   */
  function Dispatch(s: Monitor, events: seq<Event>, probe: bool, cfg: Settings): (r: Dispatched)
    requires ValidSettings(cfg)
    ensures r.monitor.frameCount >= s.frameCount
    ensures r.stop == QuitStop ==> r.monitor.loop == Loop(true)
    ensures r.stop == InterruptStop ==> r.monitor.loop == s.loop
    decreases |events|
  {
    if events == [] then Dispatched(s, Exhausted)
    else match events[0]
      case Interrupt => Dispatched(s, InterruptStop)
      case BufferAtProbe => Dispatch(if probe then ProbeStep(s, cfg.interval) else s, events[1..], probe, cfg)
      case Bus(m) =>
        var t := MessageStep(s, m, cfg.debug);
        if t.loop == Loop(true) then Dispatched(t, QuitStop) else Dispatch(t, events[1..], probe, cfg)
  }

  /** The event that ends `loop.run()` when a loop exists: Ctrl-C, an ERROR or an EOS. */
  predicate StopsLoop(e: Event) {
    e.Interrupt? || (e.Bus? && Quits(e.msg))
  }

  /** The position of the first event that ends the loop, or the number of events. */
  function FirstStop(events: seq<Event>): (n: nat)
    ensures n <= |events|
    ensures forall j :: 0 <= j < n ==> !StopsLoop(events[j])
    ensures n < |events| ==> StopsLoop(events[n])
  {
    if events == [] then 0
    else if StopsLoop(events[0]) then 0
    else
      var n := FirstStop(events[1..]);
      assert forall j :: 1 <= j < n + 1 ==> events[j] == events[1..][j - 1];
      n + 1
  }

  function BufferCount(events: seq<Event>): nat {
    if events == [] then 0 else (if events[0].BufferAtProbe? then 1 else 0) + BufferCount(events[1..])
  }

  /**
   * From a running loop that has not been asked to quit, `loop.run()` stops
   * at the first ERROR, EOS or Ctrl-C and at nothing else; it stays blocked
   * when there is none; the frame count grows by the buffers seen before
   * that point when the probe is attached and not at all otherwise; and
   * what was printed before stays.
   */
  lemma {:induction false} DispatchStopsAtFirstStop(s: Monitor, events: seq<Event>, probe: bool, cfg: Settings)
    requires ValidSettings(cfg)
    requires s.loop == Loop(false)
    ensures var r := Dispatch(s, events, probe, cfg); var n := FirstStop(events);
      && (r.stop == Exhausted <==> n == |events|)
      && (r.stop == InterruptStop <==> n < |events| && events[n].Interrupt?)
      && (r.stop == QuitStop <==> n < |events| && events[n].Bus?)
      && r.monitor.loop == (if r.stop == QuitStop then Loop(true) else Loop(false))
      && r.monitor.frameCount == s.frameCount + (if probe then BufferCount(events[..n]) else 0)
      && |s.reports| <= |r.monitor.reports| && r.monitor.reports[..|s.reports|] == s.reports
    decreases |events|
  {
    if events != [] {
      var n := FirstStop(events);
      if !StopsLoop(events[0]) {
        var t := if events[0].BufferAtProbe? then (if probe then ProbeStep(s, cfg.interval) else s)
                 else MessageStep(s, events[0].msg, cfg.debug);
        assert Dispatch(s, events, probe, cfg) == Dispatch(t, events[1..], probe, cfg);
        DispatchStopsAtFirstStop(t, events[1..], probe, cfg);
        assert FirstStop(events[1..]) == n - 1;
        assert events[..n][1..] == events[1..][..n - 1];
        var r := Dispatch(t, events[1..], probe, cfg);
        assert r.monitor.reports[..|s.reports|] == r.monitor.reports[..|t.reports|][..|s.reports|];
      } else {
        assert n == 0;
        assert events[..0] == [];
      }
    }
  }

  // ---------------------------------------------------------------------------
  // run

  /** Everything of the runner that `run` changes. */
  datatype RunnerState = RunnerState(
    frameCount: nat,
    loop: LoopState,
    pipeline: Option<string>,
    reports: seq<Report>,
    calls: seq<Call>)

  datatype RunResult = RunResult(state: RunnerState, outcome: RunOutcome)

  /** The probe is attached when the named element and its `src` pad are both found. */
  predicate ProbeAttached(e: Engine) {
    e.hasProbeElement && e.hasSrcPad
  }

  /** The calls from `get_by_name` to `set_state(PLAYING)`, once the description has parsed. */
  function SetupCalls(e: Engine, cfg: Settings): seq<Call> {
    [GetByName(cfg.probeElement)]
    + (if e.hasProbeElement then [GetStaticPad("src")] else [])
    + (if ProbeAttached(e) then [AddProbe] else [])
    + [WatchBus, NewMainLoop, SetState(Playing)]
  }

  /**
   * `run` from state st on the description desc: parse, attach the probe
   * when possible, watch the bus, make the loop, go to PLAYING, run the
   * loop, and in the `finally` go to NULL. `parse_launch` always comes
   * first, the frame count never goes down, and the exit code is 1 exactly
   * when parsing or PLAYING failed.
   */
  function RunSpec(st: RunnerState, desc: string, e: Engine, cfg: Settings): (r: RunResult)
    requires ValidSettings(cfg)
    ensures |r.state.calls| > |st.calls| && r.state.calls[..|st.calls|] == st.calls
    ensures r.state.calls[|st.calls|] == ParseLaunch(desc)
    ensures r.state.frameCount >= st.frameCount
    ensures r.outcome == Returned(1) <==> e.parseError.Some? || e.playResult == ChangeFailure
  {
    var parsed := st.calls + [ParseLaunch(desc)];
    if e.parseError.Some? then
      RunResult(st.(calls := parsed, reports := st.reports + [ParseFailedReport(e.parseError.value)]), Returned(1))
    else
      var started := parsed + SetupCalls(e, cfg);
      if e.playResult == ChangeFailure then
        RunResult(RunnerState(st.frameCount, Loop(false), Some(desc), st.reports + [PlayingFailedReport], started),
                  Returned(1))
      else
        var d := Dispatch(Monitor(Loop(false), st.frameCount, st.reports), e.events, ProbeAttached(e), cfg);
        var running := RunnerState(d.monitor.frameCount, d.monitor.loop, Some(desc), d.monitor.reports, started + [LoopRun]);
        if d.stop == Exhausted then RunResult(running, StillRunning)
        else
          var reports := d.monitor.reports + (if d.stop == InterruptStop then [InterruptedReport] else [])
                         + [DoneReport(d.monitor.frameCount, cfg.tilesPerFrame)];
          RunResult(running.(calls := running.calls + [SetState(NullState)], reports := reports), Returned(0))
  }

  function Occurrences(calls: seq<Call>, c: Call): nat {
    if calls == [] then 0 else (if calls[0] == c then 1 else 0) + Occurrences(calls[1..], c)
  }

  lemma {:induction false} OccurrencesAppend(x: seq<Call>, y: seq<Call>, c: Call)
    ensures Occurrences(x + y, c) == Occurrences(x, c) + Occurrences(y, c)
  {
    if x != [] {
      assert (x + y)[0] == x[0];
      assert (x + y)[1..] == x[1..] + y;
      OccurrencesAppend(x[1..], y, c);
    } else {
      assert x + y == y;
    }
  }

  lemma OccurrencesAbsent(calls: seq<Call>, c: Call)
    requires c !in calls
    ensures Occurrences(calls, c) == 0
  {
    if calls != [] {
      assert calls[0] != c;
      assert forall x :: x in calls[1..] ==> x in calls;
      OccurrencesAbsent(calls[1..], c);
    }
  }

  lemma SetupCallsNoLoop(e: Engine, cfg: Settings)
    ensures LoopRun !in SetupCalls(e, cfg) && SetState(NullState) !in SetupCalls(e, cfg)
    ensures AddProbe in SetupCalls(e, cfg) <==> ProbeAttached(e)
  {
  }

  /** A description that does not parse: exit 1, and nothing is asked of GStreamer after `parse_launch`. */
  lemma RunParseFailure(st: RunnerState, desc: string, e: Engine, cfg: Settings)
    requires ValidSettings(cfg)
    requires e.parseError.Some?
    ensures RunSpec(st, desc, e, cfg).outcome == Returned(1)
    ensures RunSpec(st, desc, e, cfg).state.calls == st.calls + [ParseLaunch(desc)]
    ensures RunSpec(st, desc, e, cfg).state.loop == st.loop
    ensures RunSpec(st, desc, e, cfg).state.frameCount == st.frameCount
  {
  }

  /**
   * PLAYING refused: exit 1; the loop is made but never run, and the
   * pipeline is not set back to NULL.
   */
  lemma RunPlayingFailure(st: RunnerState, desc: string, e: Engine, cfg: Settings)
    requires ValidSettings(cfg)
    requires e.parseError.None? && e.playResult == ChangeFailure
    requires LoopRun !in st.calls && SetState(NullState) !in st.calls
    ensures RunSpec(st, desc, e, cfg).outcome == Returned(1)
    ensures LoopRun !in RunSpec(st, desc, e, cfg).state.calls
    ensures SetState(NullState) !in RunSpec(st, desc, e, cfg).state.calls
    ensures RunSpec(st, desc, e, cfg).state.frameCount == st.frameCount
  {
    SetupCallsNoLoop(e, cfg);
  }

  /**
   * Once PLAYING is accepted the loop runs; when it comes back, by an
   * ERROR, an EOS or Ctrl-C, the pipeline is set to NULL exactly once, as
   * the very last call, and `run` returns 0; while no such event arrives it
   * does not return at all.
   */
  lemma RunTeardown(st: RunnerState, desc: string, e: Engine, cfg: Settings)
    requires ValidSettings(cfg)
    requires e.parseError.None? && e.playResult != ChangeFailure
    requires SetState(NullState) !in st.calls
    ensures var r := RunSpec(st, desc, e, cfg);
      && LoopRun in r.state.calls
      && (r.outcome == StillRunning <==> FirstStop(e.events) == |e.events|)
      && (r.outcome != StillRunning ==>
            && r.outcome == Returned(0)
            && Occurrences(r.state.calls, SetState(NullState)) == 1
            && r.state.calls[|r.state.calls| - 1] == SetState(NullState))
      && (r.outcome == StillRunning ==> SetState(NullState) !in r.state.calls)
  {
    var m := Monitor(Loop(false), st.frameCount, st.reports);
    DispatchStopsAtFirstStop(m, e.events, ProbeAttached(e), cfg);
    SetupCallsNoLoop(e, cfg);
    var started := st.calls + [ParseLaunch(desc)] + SetupCalls(e, cfg) + [LoopRun];
    assert SetState(NullState) !in started;
    OccurrencesAbsent(started, SetState(NullState));
    OccurrencesAppend(started, [SetState(NullState)], SetState(NullState));
  }

  /** `run` only ever returns 0 or 1. */
  lemma RunExitCode(st: RunnerState, desc: string, e: Engine, cfg: Settings)
    requires ValidSettings(cfg)
    ensures RunSpec(st, desc, e, cfg).outcome.Returned? ==> RunSpec(st, desc, e, cfg).outcome.code in {0, 1}
  {
  }

  /**
   * Frames are counted only through the probe: with it attached, the final
   * count is the number of buffers delivered before the loop stopped;
   * without it the count stays where it was.
   */
  lemma RunFrameCount(st: RunnerState, desc: string, e: Engine, cfg: Settings)
    requires ValidSettings(cfg)
    requires e.parseError.None? && e.playResult != ChangeFailure
    ensures RunSpec(st, desc, e, cfg).state.frameCount ==
      st.frameCount + (if ProbeAttached(e) then BufferCount(e.events[..FirstStop(e.events)]) else 0)
    ensures (AddProbe in RunSpec(st, desc, e, cfg).state.calls[|st.calls|..]) <==> ProbeAttached(e)
  {
    DispatchStopsAtFirstStop(Monitor(Loop(false), st.frameCount, st.reports), e.events, ProbeAttached(e), cfg);
    SetupCallsNoLoop(e, cfg);
    var r := RunSpec(st, desc, e, cfg);
    var tail := [ParseLaunch(desc)] + SetupCalls(e, cfg) + [LoopRun]
                + (if r.outcome == StillRunning then [] else [SetState(NullState)]);
    assert r.state.calls == st.calls + tail;
    assert r.state.calls[|st.calls|..] == tail;
  }

  /** When an ERROR is what stops the loop, its error line is among what was printed. */
  lemma {:induction false} DispatchReportsError(s: Monitor, events: seq<Event>, probe: bool, cfg: Settings)
    requires ValidSettings(cfg)
    requires s.loop == Loop(false)
    requires FirstStop(events) < |events|
    requires events[FirstStop(events)].Bus? && events[FirstStop(events)].msg.ErrorMsg?
    ensures ErrorReport(events[FirstStop(events)].msg.err) in Dispatch(s, events, probe, cfg).monitor.reports
    decreases |events|
  {
    var n := FirstStop(events);
    if n == 0 {
      var t := MessageStep(s, events[0].msg, cfg.debug);
      assert t.reports[|s.reports|] == ErrorReport(events[0].msg.err);
    } else {
      assert !StopsLoop(events[0]);
      var t := if events[0].BufferAtProbe? then (if probe then ProbeStep(s, cfg.interval) else s)
               else MessageStep(s, events[0].msg, cfg.debug);
      assert Dispatch(s, events, probe, cfg) == Dispatch(t, events[1..], probe, cfg);
      assert FirstStop(events[1..]) == n - 1;
      assert events[1..][n - 1] == events[n];
      DispatchReportsError(t, events[1..], probe, cfg);
    }
  }

  /**
   * An ERROR from a stage ends the loop like EOS does, and `run` still
   * returns 0: the error is printed, not turned into an exit code.
   */
  lemma RunErrorReturnsZero(st: RunnerState, desc: string, e: Engine, cfg: Settings)
    requires ValidSettings(cfg)
    requires e.parseError.None? && e.playResult != ChangeFailure
    requires FirstStop(e.events) < |e.events|
    requires e.events[FirstStop(e.events)].Bus? && e.events[FirstStop(e.events)].msg.ErrorMsg?
    ensures RunSpec(st, desc, e, cfg).outcome == Returned(0)
    ensures ErrorReport(e.events[FirstStop(e.events)].msg.err) in RunSpec(st, desc, e, cfg).state.reports
  {
    var m := Monitor(Loop(false), st.frameCount, st.reports);
    DispatchStopsAtFirstStop(m, e.events, ProbeAttached(e), cfg);
    DispatchReportsError(m, e.events, ProbeAttached(e), cfg);
    var d := Dispatch(m, e.events, ProbeAttached(e), cfg);
    var x := ErrorReport(e.events[FirstStop(e.events)].msg.err);
    var r := RunSpec(st, desc, e, cfg);
    assert r.state.reports[..|d.monitor.reports|] == d.monitor.reports;
    assert x in r.state.reports[..|d.monitor.reports|];
  }

  // ---------------------------------------------------------------------------
  // The runner object

  /**
   * The pipeline object of either script: `frame_count`, `loop` and
   * `pipeline` are its fields, the handlers and `run` update them in place.
   */
  class PipelineRunner {
    const debug: bool
    const interval: nat
    const probeElement: string
    const tilesPerFrame: Option<int>

    var frameCount: nat
    var loop: LoopState
    var pipeline: Option<string>
    var reports: seq<Report>
    var calls: seq<Call>

    function Config(): Settings {
      Settings(debug, interval, probeElement, tilesPerFrame)
    }

    function View(): Monitor
      reads this
    {
      Monitor(loop, frameCount, reports)
    }

    function State(): RunnerState
      reads this
    {
      RunnerState(frameCount, loop, pipeline, reports, calls)
    }

    /** `__init__` after the validations: no pipeline, no loop, no frames. */
    constructor(debug: bool, interval: nat, probeElement: string, tilesPerFrame: Option<int>)
      requires interval > 0
      ensures Config() == Settings(debug, interval, probeElement, tilesPerFrame)
      ensures State() == RunnerState(0, NoLoop, None, [], [])
    {
      this.debug := debug;
      this.interval := interval;
      this.probeElement := probeElement;
      this.tilesPerFrame := tilesPerFrame;
      frameCount := 0;
      loop := NoLoop;
      pipeline := None;
      reports := [];
      calls := [];
    }

    /** `on_message`: always keeps the watch. */
    method OnMessage(m: BusMessage) returns (keep: bool)
      modifies this
      ensures keep
      ensures View() == MessageStep(old(View()), m, debug)
      ensures pipeline == old(pipeline) && calls == old(calls)
    {
      match m {
      case ErrorMsg(err, d) =>
        reports := reports + [ErrorReport(err)];
        if Truthy(d) && debug {
          reports := reports + [DebugReport(d.value)];
        }
        if loop.Loop? {
          loop := Loop(true);
        }
      case EosMsg =>
        reports := reports + [EosReport(frameCount)];
        if loop.Loop? {
          loop := Loop(true);
        }
      case WarningMsg(w, d) =>
        reports := reports + [WarningReport(w)];
        if Truthy(d) && debug {
          reports := reports + [DebugReport(d.value)];
        }
      case StateChangedMsg(fromPipeline, o, n) =>
        if fromPipeline && debug {
          reports := reports + [StateReport(o, n)];
        }
      case StreamStatusMsg(st) =>
        if debug {
          reports := reports + [StreamStatusReport(st)];
        }
      case OtherMsg =>
      }
      keep := true;
    }

    /** `on_buffer_probe`: always lets the buffer through. */
    method OnBufferProbe() returns (ret: ProbeReturn)
      requires interval > 0
      modifies this
      ensures ret == ProbeOk
      ensures View() == ProbeStep(old(View()), interval)
      ensures pipeline == old(pipeline) && calls == old(calls)
    {
      frameCount := frameCount + 1;
      if frameCount % interval == 0 {
        reports := reports + [ProgressReport(frameCount)];
      }
      ret := ProbeOk;
    }

    /**
     * Once the description has parsed: look up the probed element and its
     * `src` pad and attach the probe when both are there, watch the bus,
     * make the main loop and ask for PLAYING.
     */
    method Start(desc: string, engine: Engine) returns (attached: bool)
      modifies this
      ensures attached == ProbeAttached(engine)
      ensures calls == old(calls) + SetupCalls(engine, Config())
      ensures pipeline == Some(desc) && loop == Loop(false)
      ensures frameCount == old(frameCount) && reports == old(reports)
    {
      pipeline := Some(desc);
      calls := calls + [GetByName(probeElement)];
      attached := false;
      if engine.hasProbeElement {
        calls := calls + [GetStaticPad("src")];
        if engine.hasSrcPad {
          calls := calls + [AddProbe];
          attached := true;
        }
      }
      calls := calls + [WatchBus];
      loop := Loop(false);
      calls := calls + [NewMainLoop];
      calls := calls + [SetState(Playing)];
    }

    /**
     * `loop.run()`: the events are delivered one at a time to the two
     * handlers until one of them has asked the loop to quit or Ctrl-C
     * arrives; `Exhausted` means the loop is still waiting.
     */
    method RunLoop(events: seq<Event>, attached: bool) returns (stop: Stop)
      requires interval > 0
      requires loop == Loop(false)
      modifies this
      ensures Dispatched(View(), stop) == Dispatch(old(View()), events, attached, Config())
      ensures pipeline == old(pipeline) && calls == old(calls)
    {
      ghost var whole := Dispatch(View(), events, attached, Config());
      var i := 0;
      stop := Exhausted;
      while i < |events| && stop == Exhausted
        invariant 0 <= i <= |events|
        invariant pipeline == old(pipeline) && calls == old(calls)
        invariant stop == Exhausted ==> loop == Loop(false) && whole == Dispatch(View(), events[i..], attached, Config())
        invariant stop != Exhausted ==> whole == Dispatched(View(), stop)
        decreases |events| - i
      {
        match events[i] {
        case Interrupt =>
          stop := InterruptStop;
        case BufferAtProbe =>
          if attached {
            var _ := OnBufferProbe();
          }
        case Bus(m) =>
          var _ := OnMessage(m);
          if loop == Loop(true) {
            stop := QuitStop;
          }
        }
        i := i + 1;
      }
    }

    /**
     * `run` on an already built description: each step in the source's
     * order, the main loop delivering the engine's events one at a time to
     * the two handlers.
     */
    method Run(desc: string, engine: Engine) returns (outcome: RunOutcome)
      requires interval > 0
      modifies this
      ensures RunResult(State(), outcome) == RunSpec(old(State()), desc, engine, Config())
    {
      calls := calls + [ParseLaunch(desc)];
      if engine.parseError.Some? {
        reports := reports + [ParseFailedReport(engine.parseError.value)];
        return Returned(1);
      }
      var attached := Start(desc, engine);
      if engine.playResult == ChangeFailure {
        reports := reports + [PlayingFailedReport];
        return Returned(1);
      }
      calls := calls + [LoopRun];
      var stop := RunLoop(engine.events, attached);
      if stop == Exhausted {
        return StillRunning;
      }
      if stop == InterruptStop {
        reports := reports + [InterruptedReport];
      }
      calls := calls + [SetState(NullState)];
      reports := reports + [DoneReport(frameCount, tilesPerFrame)];
      return Returned(0);
    }
  }
}
