/**
 * The tile/aggregate script (detection_tiling_pipeline.py): its tiling and
 * aggregator parameters, the validation of those parameters, and the
 * description it assembles around hailotilecropper and hailotileaggregator.
 */
module Tiling {
  import opened Text
  import opened Graph
  import opened Catalog

  /**
   * A Python float as argparse's `type=float` can produce it. Only range
   * comparisons are made on these, so finite values are reals; NaN and the
   * infinities compare as Python compares them.
   */
  datatype Float = Num(value: real) | NaN | Inf(negative: bool)

  /** Python's `0.0 <= f <= 1.0`: false for NaN and for both infinities. */
  predicate InUnitInterval(f: Float) {
    f.Num? && 0.0 <= f.value <= 1.0
  }

  /**
   * Python's `str(f)`. Finite floats are written in Python's shortest
   * round-trip form, which `show` supplies.
   */
  function FloatText(f: Float, show: real -> string): (r: string)
    ensures f.Num? ==> r == show(f.value)
    ensures !f.Num? ==> IsWord(r) && r in {"nan", "inf", "-inf"}
  {
    match f
    case Num(r) => show(r)
    case NaN => "nan"
    case Inf(neg) => if neg then "-inf" else "inf"
  }

  datatype TilingArgs = TilingArgs(
    common: Common,
    tilesX: int,
    tilesY: int,
    overlapX: Float,
    overlapY: Float,
    tilingMode: int,
    tileWidth: int,
    tileHeight: int,
    iouThreshold: Float,
    borderThreshold: Float,
    removeLargeLandscape: bool)

  // ---------------------------------------------------------------------------
  // _validate_parameters

  /** The ValueError each check raises, carrying the rejected value. */
  datatype ParamError =
    | TilesXOutOfRange(tilesX: int)
    | TilesYOutOfRange(tilesY: int)
    | OverlapXOutOfRange(overlapX: Float)
    | OverlapYOutOfRange(overlapY: Float)
    | TilingModeInvalid(tilingMode: int)
    | IouThresholdOutOfRange(iou: Float)
    | BorderThresholdOutOfRange(border: Float)

  datatype Verdict = Accepted | Rejected(error: ParamError)

  const CHECKS: nat := 7

  /** Check number k, in the order the validator makes them. */
  predicate Passes(a: TilingArgs, k: nat) {
    if k == 0 then 1 <= a.tilesX <= 20
    else if k == 1 then 1 <= a.tilesY <= 20
    else if k == 2 then InUnitInterval(a.overlapX)
    else if k == 3 then InUnitInterval(a.overlapY)
    else if k == 4 then a.tilingMode in {0, 1}
    else if k == 5 then InUnitInterval(a.iouThreshold)
    else InUnitInterval(a.borderThreshold)
  }

  /** The position of the check that raises e. */
  function Rank(e: ParamError): nat {
    match e
    case TilesXOutOfRange(_) => 0
    case TilesYOutOfRange(_) => 1
    case OverlapXOutOfRange(_) => 2
    case OverlapYOutOfRange(_) => 3
    case TilingModeInvalid(_) => 4
    case IouThresholdOutOfRange(_) => 5
    case BorderThresholdOutOfRange(_) => 6
  }

  /** The error check k raises for a, naming the value it rejected. */
  function ErrorOf(a: TilingArgs, k: nat): (e: ParamError)
    requires k < CHECKS
    ensures Rank(e) == k
  {
    if k == 0 then TilesXOutOfRange(a.tilesX)
    else if k == 1 then TilesYOutOfRange(a.tilesY)
    else if k == 2 then OverlapXOutOfRange(a.overlapX)
    else if k == 3 then OverlapYOutOfRange(a.overlapY)
    else if k == 4 then TilingModeInvalid(a.tilingMode)
    else if k == 5 then IouThresholdOutOfRange(a.iouThreshold)
    else BorderThresholdOutOfRange(a.borderThreshold)
  }

  /**
   * `_validate_parameters`: the guards in source order, stopping at the first
   * that fails. Accepted exactly when every check passes; otherwise the error
   * is that of the first failing check, and every earlier check passed.
   */
  function ValidateParameters(a: TilingArgs): (v: Verdict)
    ensures v == Accepted <==> forall k :: 0 <= k < CHECKS ==> Passes(a, k)
    ensures v.Rejected? ==>
      && Rank(v.error) < CHECKS
      && !Passes(a, Rank(v.error))
      && v.error == ErrorOf(a, Rank(v.error))
      && forall k :: 0 <= k < Rank(v.error) ==> Passes(a, k)
  {
    if !(1 <= a.tilesX <= 20) then
      assert !Passes(a, 0); Rejected(TilesXOutOfRange(a.tilesX))
    else if !(1 <= a.tilesY <= 20) then
      assert !Passes(a, 1); Rejected(TilesYOutOfRange(a.tilesY))
    else if !InUnitInterval(a.overlapX) then
      assert !Passes(a, 2); Rejected(OverlapXOutOfRange(a.overlapX))
    else if !InUnitInterval(a.overlapY) then
      assert !Passes(a, 3); Rejected(OverlapYOutOfRange(a.overlapY))
    else if a.tilingMode !in {0, 1} then
      assert !Passes(a, 4); Rejected(TilingModeInvalid(a.tilingMode))
    else if !InUnitInterval(a.iouThreshold) then
      assert !Passes(a, 5); Rejected(IouThresholdOutOfRange(a.iouThreshold))
    else if !InUnitInterval(a.borderThreshold) then
      assert !Passes(a, 6); Rejected(BorderThresholdOutOfRange(a.borderThreshold))
    else
      Accepted
  }

  /** The acceptance region written out: every bound inclusive. */
  lemma ValidateParametersRanges(a: TilingArgs)
    ensures ValidateParameters(a) == Accepted <==>
      && 1 <= a.tilesX <= 20 && 1 <= a.tilesY <= 20
      && a.overlapX.Num? && 0.0 <= a.overlapX.value <= 1.0
      && a.overlapY.Num? && 0.0 <= a.overlapY.value <= 1.0
      && (a.tilingMode == 0 || a.tilingMode == 1)
      && a.iouThreshold.Num? && 0.0 <= a.iouThreshold.value <= 1.0
      && a.borderThreshold.Num? && 0.0 <= a.borderThreshold.value <= 1.0
  {
    if ValidateParameters(a) == Accepted {
      assert Passes(a, 0) && Passes(a, 1) && Passes(a, 2) && Passes(a, 3);
      assert Passes(a, 4) && Passes(a, 5) && Passes(a, 6);
    }
  }

  /** With every other parameter valid, 20 tiles along x is accepted and 21 or 0 is rejected as tiles-x. */
  lemma TilesXBoundary(a: TilingArgs)
    requires forall k :: 1 <= k < CHECKS ==> Passes(a, k)
    ensures ValidateParameters(a.(tilesX := 20)) == Accepted
    ensures ValidateParameters(a.(tilesX := 21)) == Rejected(TilesXOutOfRange(21))
    ensures ValidateParameters(a.(tilesX := 0)) == Rejected(TilesXOutOfRange(0))
  {
    var b := a.(tilesX := 20);
    forall k | 0 <= k < CHECKS ensures Passes(b, k) {
      if k > 0 { assert Passes(a, k); }
    }
  }

  /** NaN and the infinities are rejected wherever a value in [0.0, 1.0] is required. */
  lemma NonFiniteRejected(a: TilingArgs, f: Float)
    requires !f.Num?
    requires 1 <= a.tilesX <= 20 && 1 <= a.tilesY <= 20
    ensures ValidateParameters(a.(overlapX := f)) == Rejected(OverlapXOutOfRange(f))
  {
  }

  // ---------------------------------------------------------------------------
  // build_pipeline

  /** `hailotilecropper name=cropper tiles-along-x-axis=... tiling-mode=...` */
  function Cropper(a: TilingArgs, show: real -> string): Item {
    Element("hailotilecropper", [
      Prop("name", Bare("cropper")),
      Prop("tiles-along-x-axis", Bare(IntToString(a.tilesX))),
      Prop("tiles-along-y-axis", Bare(IntToString(a.tilesY))),
      Prop("overlap-x-axis", Bare(FloatText(a.overlapX, show))),
      Prop("overlap-y-axis", Bare(FloatText(a.overlapY, show))),
      Prop("tiling-mode", Bare(IntToString(a.tilingMode)))])
  }

  /** `hailotileaggregator name=aggregator flatten-detections=true ...` */
  function Aggregator(a: TilingArgs, show: real -> string): Item {
    Element("hailotileaggregator", [
      Prop("name", Bare("aggregator")),
      Prop("flatten-detections", Bare("true")),
      Prop("iou-threshold", Bare(FloatText(a.iouThreshold, show))),
      Prop("border-threshold", Bare(FloatText(a.borderThreshold, show))),
      Prop("remove-large-landscape", Bare(BoolText(a.removeLargeLandscape)))])
  }

  /** The tiles branch between `cropper.src_1` and `aggregator.sink_1`. */
  function TileBranch(a: TilingArgs): seq<Item> {
    [Queue()] + ScaleTo(a.tileWidth, a.tileHeight)
    + [Queue(), HailoNet(a.common.hef, []), Queue(), HailoFilter(a.common.postprocessSo), Queue()]
  }

  /** The chains of the tiling description, in the order the literal writes them. */
  function Description(a: TilingArgs, show: real -> string): (d: Graph.Description)
    ensures |d| == 5
  {
    [DecodeHead(a.common.input) + [Caps("video/x-raw", [Prop("format", Bare("RGB"))]), Cropper(a, show)],
     [Aggregator(a, show)],
     [PadRef("cropper", "src_0"), Queue(), PadRef("aggregator", "sink_0")],
     [PadRef("cropper", "src_1")] + TileBranch(a) + [PadRef("aggregator", "sink_1")],
     [PadRef("aggregator", "src")] + EncodeStages(a.common.bitrate) + [FileSink(a.common.output)]]
  }

  /**
   * `build_pipeline`: the description literal after `" ".join(s.split())`.
   * Whatever the arguments hold, the result is single-spaced and its tokens
   * are those of the description's words, in order.
   */
  function BuildPipeline(a: TilingArgs, show: real -> string): (r: string)
    ensures SingleSpaced(r)
    ensures Split(r) == SplitEach(Words(Description(a, show)))
  {
    Build(Description(a, show))
  }

  /**
   * The description literal as written cleans to the pipeline string: here
   * gaps is any whitespace between its words, in particular the literal's
   * own mix of single spaces, line breaks, indents and whitespace-only lines.
   */
  lemma LiteralCleansToPipeline(a: TilingArgs, show: real -> string, gaps: seq<string>)
    requires |gaps| == |Words(Description(a, show))| + 1 && Gaps(gaps)
    ensures Normalize(Layout(Words(Description(a, show)), gaps)) == BuildPipeline(a, show)
  {
    LayoutCleansToBuild(Description(a, show), gaps);
  }

  /** The tiling parameters that land in the description are single words. */
  predicate CleanArgs(a: TilingArgs, show: real -> string) {
    && CleanCommon(a.common)
    && NoSpace(FloatText(a.overlapX, show)) && NoSpace(FloatText(a.overlapY, show))
    && NoSpace(FloatText(a.iouThreshold, show)) && NoSpace(FloatText(a.borderThreshold, show))
  }

  // ---------------------------------------------------------------------------
  // Properties of the description

  lemma CropperWords()
    ensures IsWord("hailotilecropper") && IsWord("name") && NoSpace("cropper")
    ensures IsWord("tiles-along-x-axis") && IsWord("tiles-along-y-axis")
  {
  }

  lemma CropperOverlapWords()
    ensures IsWord("overlap-x-axis") && IsWord("overlap-y-axis") && IsWord("tiling-mode")
  {
  }

  lemma AggregatorWords()
    ensures IsWord("hailotileaggregator") && NoSpace("aggregator") && IsWord("flatten-detections")
  {
  }

  lemma AggregatorThresholdWords()
    ensures IsWord("iou-threshold") && IsWord("border-threshold") && IsWord("remove-large-landscape")
  {
  }

  lemma PadWords()
    ensures NoSpace("cropper") && NoSpace("aggregator") && NoSpace("src_0") && NoSpace("src_1")
    ensures NoSpace("sink_0") && NoSpace("sink_1") && NoSpace("src")
  {
  }

  lemma CropperClean(a: TilingArgs, show: real -> string)
    requires CleanArgs(a, show)
    ensures CleanItem(Cropper(a, show))
  {
    CropperWords();
    CropperOverlapWords();
    HailoNetWords();
  }

  lemma AggregatorClean(a: TilingArgs, show: real -> string)
    requires CleanArgs(a, show)
    ensures CleanItem(Aggregator(a, show))
  {
    AggregatorWords();
    AggregatorThresholdWords();
    CropperWords();
    HailoNetWords();
    BoolTextNoSpace(a.removeLargeLandscape);
  }

  lemma TileBranchClean(a: TilingArgs)
    requires CleanCommon(a.common)
    ensures CleanChain(TileBranch(a))
  {
    QueueClean();
    ScaleToClean(a.tileWidth, a.tileHeight);
    HailoClean(a.common.hef, a.common.postprocessSo, []);
    var tail := [Queue(), HailoNet(a.common.hef, []), Queue(), HailoFilter(a.common.postprocessSo), Queue()];
    assert CleanChain(tail);
    CleanChainAppend([Queue()], ScaleTo(a.tileWidth, a.tileHeight));
    CleanChainAppend([Queue()] + ScaleTo(a.tileWidth, a.tileHeight), tail);
  }

  lemma RgbCapsClean()
    ensures CleanItem(Caps("video/x-raw", [Prop("format", Bare("RGB"))]))
  {
    ConvertWords();
    assert IsWord("format") && NoSpace("RGB");
  }

  lemma DescriptionClean(a: TilingArgs, show: real -> string)
    requires CleanArgs(a, show)
    ensures Clean(Description(a, show))
  {
    var d := Description(a, show);
    CropperClean(a, show);
    AggregatorClean(a, show);
    DecodeHeadClean(a.common.input);
    RgbCapsClean();
    PadWords();
    CleanChainAppend(DecodeHead(a.common.input), [Caps("video/x-raw", [Prop("format", Bare("RGB"))]), Cropper(a, show)]);
    QueueClean();
    assert CleanChain(d[2]);
    TileBranchClean(a);
    CleanChainAppend([PadRef("cropper", "src_1")], TileBranch(a));
    CleanChainAppend([PadRef("cropper", "src_1")] + TileBranch(a), [PadRef("aggregator", "sink_1")]);
    EncodeClean(a.common.bitrate, a.common.output);
    CleanChainAppend([PadRef("aggregator", "src")], EncodeStages(a.common.bitrate));
    CleanChainAppend([PadRef("aggregator", "src")] + EncodeStages(a.common.bitrate), [FileSink(a.common.output)]);
  }

  /**
   * For whitespace-free arguments the pipeline string is the one-line
   * rendering of the typed description; it is always single-spaced and
   * cleaning it again changes nothing.
   */
  lemma BuildPipelineRendersDescription(a: TilingArgs, show: real -> string)
    requires CleanArgs(a, show)
    ensures BuildPipeline(a, show) == Render(Description(a, show))
    ensures SingleSpaced(BuildPipeline(a, show))
    ensures Normalize(BuildPipeline(a, show)) == BuildPipeline(a, show)
  {
    DescriptionClean(a, show);
    BuildClean(Description(a, show));
  }

  /** The cropper is element 6 of the first chain and the aggregator the whole second chain. */
  lemma TilingDeclarations(a: TilingArgs, show: real -> string)
    ensures Declares(Description(a, show), "cropper")
    ensures Declares(Description(a, show), "aggregator")
  {
    var d := Description(a, show);
    assert d[0][6] == Cropper(a, show) && Names(d[0][6], "cropper");
    assert d[1][0] == Aggregator(a, show) && Names(d[1][0], "aggregator");
  }

  /** No chain is empty, and pad references sit only at the ends of chains. */
  lemma TilingChainShapes(a: TilingArgs, show: real -> string)
    ensures forall k :: 0 <= k < |Description(a, show)| ==>
      |Description(a, show)[k]| > 0 && NoPadRefs(Inner(Description(a, show)[k]))
  {
    var d := Description(a, show);
    SharedPiecesNoPadRefs(a.common.input, a.tileWidth, a.tileHeight, a.common.bitrate);
    NoPadRefsAppend(DecodeHead(a.common.input), [Caps("video/x-raw", [Prop("format", Bare("RGB"))]), Cropper(a, show)]);
    InnerNoPadRefs(d[0]);
    TileBranchNoPadRefs(a);
    InnerRoute(PadRef("cropper", "src_0"), [Queue()], PadRef("aggregator", "sink_0"));
    InnerRoute(PadRef("cropper", "src_1"), TileBranch(a), PadRef("aggregator", "sink_1"));
    InnerRoute(PadRef("aggregator", "src"), EncodeStages(a.common.bitrate), FileSink(a.common.output));
    assert d[2] == [PadRef("cropper", "src_0")] + [Queue()] + [PadRef("aggregator", "sink_0")];
  }

  /** Chain k of the tiling description ends, on both sides, in an element or in a pad of a declared element. */
  lemma TilingChainEnds(a: TilingArgs, show: real -> string, k: nat)
    requires k < 5
    ensures |Description(a, show)[k]| > 0 && EndsDeclared(Description(a, show), Description(a, show)[k])
  {
    var d := Description(a, show);
    TilingDeclarations(a, show);
    if k == 2 {
      assert d[2][0] == PadRef("cropper", "src_0") && d[2][|d[2]| - 1] == PadRef("aggregator", "sink_0");
    } else if k == 3 {
      assert d[3][0] == PadRef("cropper", "src_1") && d[3][|d[3]| - 1] == PadRef("aggregator", "sink_1");
    } else if k == 4 {
      assert d[4][0] == PadRef("aggregator", "src") && d[4][|d[4]| - 1] == FileSink(a.common.output);
    } else if k == 0 {
      assert d[0][0].Element? && d[0][|d[0]| - 1] == Cropper(a, show);
    }
  }

  /** Every pad reference of the tiling description names the cropper or the aggregator, both declared. */
  lemma TilingWellFormed(a: TilingArgs, show: real -> string)
    ensures WellFormed(Description(a, show))
  {
    var d := Description(a, show);
    TilingChainShapes(a, show);
    forall k | 0 <= k < |d| ensures EndsDeclared(d, d[k]) {
      TilingChainEnds(a, show, k);
    }
  }

  lemma TileBranchNoPadRefs(a: TilingArgs)
    ensures NoPadRefs(TileBranch(a))
  {
    SharedPiecesNoPadRefs(a.common.input, a.tileWidth, a.tileHeight, a.common.bitrate);
    NoPadRefsAppend([Queue()], ScaleTo(a.tileWidth, a.tileHeight));
    NoPadRefsAppend([Queue()] + ScaleTo(a.tileWidth, a.tileHeight),
                    [Queue(), HailoNet(a.common.hef, []), Queue(), HailoFilter(a.common.postprocessSo), Queue()]);
  }

  /**
   * The chains of the tiling description: the decode head into the RGB caps
   * and the cropper; the aggregator on its own; then the three chains that
   * leave `cropper.src_0`, `cropper.src_1` and `aggregator.src`.
   */
  lemma TilingChainHeads(a: TilingArgs, show: real -> string)
    ensures |Description(a, show)| == 5
    ensures Description(a, show)[0] == DecodeHead(a.common.input) + [Caps("video/x-raw", [Prop("format", Bare("RGB"))]), Cropper(a, show)]
    ensures Description(a, show)[0][..5] == DecodeHead(a.common.input)
    ensures Description(a, show)[1] == [Aggregator(a, show)]
    ensures Description(a, show)[2][0] == PadRef("cropper", "src_0")
    ensures Description(a, show)[3][0] == PadRef("cropper", "src_1")
    ensures Description(a, show)[4][0] == PadRef("aggregator", "src")
  {
  }

  /** The whole frame goes from `cropper.src_0` to `aggregator.sink_0` through exactly one queue. */
  lemma FullFrameRoute(a: TilingArgs, show: real -> string)
    ensures OnlyRoute(Description(a, show), PadRef("cropper", "src_0"), [Queue()], PadRef("aggregator", "sink_0"))
  {
    var d := Description(a, show);
    TilingChainHeads(a, show);
    PadWords();
    assert d[2] == [PadRef("cropper", "src_0")] + [Queue()] + [PadRef("aggregator", "sink_0")];
    LeavingFive(d, PadRef("cropper", "src_0"));
  }

  /** The tiles go from `cropper.src_1` to `aggregator.sink_1` through the tiles branch only. */
  lemma TilesRoute(a: TilingArgs, show: real -> string)
    ensures OnlyRoute(Description(a, show), PadRef("cropper", "src_1"), TileBranch(a), PadRef("aggregator", "sink_1"))
  {
    var d := Description(a, show);
    TilingChainHeads(a, show);
    PadWords();
    assert d[3] == [PadRef("cropper", "src_1")] + TileBranch(a) + [PadRef("aggregator", "sink_1")];
    LeavingFive(d, PadRef("cropper", "src_1"));
  }

  /** `aggregator.src` is the only way to the overlay, the encoder, the muxer and the file sink. */
  lemma AggregatedRoute(a: TilingArgs, show: real -> string)
    ensures OnlyRoute(Description(a, show), PadRef("aggregator", "src"), EncodeStages(a.common.bitrate), FileSink(a.common.output))
  {
    var d := Description(a, show);
    TilingChainHeads(a, show);
    PadWords();
    assert d[4] == [PadRef("aggregator", "src")] + EncodeStages(a.common.bitrate) + [FileSink(a.common.output)];
    LeavingFive(d, PadRef("aggregator", "src"));
  }

  /**
   * The tiles branch: queue, videoscale, caps of the tile size, queue,
   * hailonet, queue, hailofilter, queue.
   */
  lemma TileBranchStages(a: TilingArgs)
    ensures Factories(TileBranch(a)) == ["queue", "videoscale", "capsfilter", "queue", "hailonet", "queue", "hailofilter", "queue"]
    ensures TileBranch(a)[2] == Caps("video/x-raw", [Prop("width", Bare(IntToString(a.tileWidth))), Prop("height", Bare(IntToString(a.tileHeight)))])
  {
    TileBranchNoPadRefs(a);
    FactoriesOfElements(TileBranch(a));
  }

  /** Every queue of the tiling description is bounded and non-leaky. */
  lemma TilingBoundedQueues(a: TilingArgs, show: real -> string)
    ensures BoundedQueues(Description(a, show))
  {
    var d := Description(a, show);
    SharedPiecesBounded(a.common.input, a.tileWidth, a.tileHeight, a.common.bitrate, a.common.output);
    NotQueue(Caps("video/x-raw", [Prop("format", Bare("RGB"))]));
    NotQueue(Cropper(a, show));
    NotQueue(Aggregator(a, show));
    ChainBoundedAppend(DecodeHead(a.common.input), [Caps("video/x-raw", [Prop("format", Bare("RGB"))]), Cropper(a, show)]);
    var tiles := [Queue(), HailoNet(a.common.hef, []), Queue(), HailoFilter(a.common.postprocessSo), Queue()];
    NotQueue(HailoNet(a.common.hef, []));
    NotQueue(HailoFilter(a.common.postprocessSo));
    assert ChainBounded(tiles);
    ChainBoundedAppend([PadRef("cropper", "src_1"), Queue()], ScaleTo(a.tileWidth, a.tileHeight));
    ChainBoundedAppend([PadRef("cropper", "src_1"), Queue()] + ScaleTo(a.tileWidth, a.tileHeight), tiles + [PadRef("aggregator", "sink_1")]);
    assert d[3] == [PadRef("cropper", "src_1"), Queue()] + ScaleTo(a.tileWidth, a.tileHeight) + (tiles + [PadRef("aggregator", "sink_1")]);
    ChainBoundedAppend([PadRef("aggregator", "src")], EncodeStages(a.common.bitrate));
    ChainBoundedAppend([PadRef("aggregator", "src")] + EncodeStages(a.common.bitrate), [FileSink(a.common.output)]);
  }

  /**
   * How the cropper and aggregator are configured: flattened detections
   * always, `remove-large-landscape` as lower-case true/false, the numeric
   * tiling mode (which reads back as the argument), and the grid sizes.
   */
  lemma TilingElementConfig(a: TilingArgs, show: real -> string)
    ensures Configures(Description(a, show), "aggregator", "flatten-detections", Bare("true"))
    ensures Configures(Description(a, show), "aggregator", "remove-large-landscape",
                       Bare(if a.removeLargeLandscape then "true" else "false"))
    ensures Configures(Description(a, show), "cropper", "tiling-mode", Bare(IntToString(a.tilingMode)))
    ensures ParseInt(IntToString(a.tilingMode)) == a.tilingMode
    ensures Configures(Description(a, show), "cropper", "tiles-along-x-axis", Bare(IntToString(a.tilesX)))
    ensures Configures(Description(a, show), "cropper", "tiles-along-y-axis", Bare(IntToString(a.tilesY)))
  {
    var d := Description(a, show);
    assert d[0][6] == Cropper(a, show) && Names(d[0][6], "cropper");
    assert d[1][0] == Aggregator(a, show) && Names(d[1][0], "aggregator");
    IntToStringRoundTrip(a.tilingMode);
  }
}
