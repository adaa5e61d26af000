/**
 * The split/merge script (detection_preserve_resolution_pipeline.py): a tee
 * sends every decoded frame both straight to a hailomuxer and, scaled to
 * the network's input size, through inference to the same muxer.
 */
module SplitMerge {
  import opened Text
  import opened Graph
  import opened Catalog

  datatype SplitMergeArgs = SplitMergeArgs(
    common: Common,
    inferenceWidth: int,
    inferenceHeight: int)

  /**
   * The NMS settings handed to hailonet: Python writes the constants 0.3 and
   * 0.45 as `0.3` and `0.45`.
   */
  const NMS_PROPS: seq<Prop> := [
    Prop("nms-score-threshold", Bare("0.3")),
    Prop("nms-iou-threshold", Bare("0.45")),
    Prop("output-format-type", Bare("HAILO_FORMAT_TYPE_FLOAT32"))]

  /** The tee and the muxer are referred to by bare pad references `t.` and `mux.`. */
  const TEE_PAD: Item := PadRef("t", "")
  const MUX_PAD: Item := PadRef("mux", "")

  /** The inference branch between `t.` and `mux.`. */
  function InferenceBranch(a: SplitMergeArgs): seq<Item> {
    ScaleTo(a.inferenceWidth, a.inferenceHeight)
    + [Queue(), HailoNet(a.common.hef, NMS_PROPS), Queue(), HailoFilter(a.common.postprocessSo)]
  }

  /** The chains of the split/merge description, in the order the literal writes them. */
  function Description(a: SplitMergeArgs): (d: Graph.Description)
    ensures |d| == 5
  {
    [DecodeHead(a.common.input) + [Element("tee", [Prop("name", Bare("t"))])],
     [Element("hailomuxer", [Prop("name", Bare("mux"))])],
     [TEE_PAD, Queue(), MUX_PAD],
     [TEE_PAD] + InferenceBranch(a) + [MUX_PAD],
     [MUX_PAD] + EncodeStages(a.common.bitrate) + [FileSink(a.common.output)]]
  }

  /**
   * `build_pipeline`: the description literal after `" ".join(s.split())`.
   * Whatever the arguments hold, the result is single-spaced and its tokens
   * are those of the description's words, in order.
   */
  function BuildPipeline(a: SplitMergeArgs): (r: string)
    ensures SingleSpaced(r)
    ensures Split(r) == SplitEach(Words(Description(a)))
  {
    Build(Description(a))
  }

  /**
   * The description literal as written cleans to the pipeline string: here
   * gaps is any whitespace between its words, in particular the literal's
   * own mix of single spaces, line breaks, indents and whitespace-only lines.
   */
  lemma LiteralCleansToPipeline(a: SplitMergeArgs, gaps: seq<string>)
    requires |gaps| == |Words(Description(a))| + 1 && Gaps(gaps)
    ensures Normalize(Layout(Words(Description(a)), gaps)) == BuildPipeline(a)
  {
    LayoutCleansToBuild(Description(a), gaps);
  }

  // ---------------------------------------------------------------------------
  // Properties of the description

  lemma TeeMuxWords()
    ensures IsWord("tee") && IsWord("name") && NoSpace("t") && IsWord("hailomuxer") && NoSpace("mux")
  {
  }

  lemma NmsWords()
    ensures IsWord("nms-score-threshold") && NoSpace("0.3") && IsWord("nms-iou-threshold") && NoSpace("0.45")
  {
  }

  lemma NmsFormatWords()
    ensures IsWord("output-format-type") && NoSpace("HAILO_FORMAT_TYPE_FLOAT32")
  {
  }

  lemma NmsPropsClean()
    ensures CleanProps(NMS_PROPS)
  {
    NmsWords();
    NmsFormatWords();
  }

  lemma InferenceBranchClean(a: SplitMergeArgs)
    requires CleanCommon(a.common)
    ensures CleanChain(InferenceBranch(a))
  {
    QueueClean();
    ScaleToClean(a.inferenceWidth, a.inferenceHeight);
    NmsPropsClean();
    HailoClean(a.common.hef, a.common.postprocessSo, NMS_PROPS);
    CleanChainAppend(ScaleTo(a.inferenceWidth, a.inferenceHeight),
                     [Queue(), HailoNet(a.common.hef, NMS_PROPS), Queue(), HailoFilter(a.common.postprocessSo)]);
  }

  lemma DescriptionClean(a: SplitMergeArgs)
    requires CleanCommon(a.common)
    ensures Clean(Description(a))
  {
    var d: Graph.Description := Description(a);
    TeeMuxWords();
    DecodeHeadClean(a.common.input);
    CleanChainAppend(DecodeHead(a.common.input), [Element("tee", [Prop("name", Bare("t"))])]);
    QueueClean();
    InferenceBranchClean(a);
    CleanChainAppend([TEE_PAD], InferenceBranch(a));
    CleanChainAppend([TEE_PAD] + InferenceBranch(a), [MUX_PAD]);
    EncodeClean(a.common.bitrate, a.common.output);
    CleanChainAppend([MUX_PAD], EncodeStages(a.common.bitrate));
    CleanChainAppend([MUX_PAD] + EncodeStages(a.common.bitrate), [FileSink(a.common.output)]);
  }

  /**
   * For whitespace-free arguments the pipeline string is the one-line
   * rendering of the typed description; it is always single-spaced and
   * cleaning it again changes nothing.
   */
  lemma BuildPipelineRendersDescription(a: SplitMergeArgs)
    requires CleanCommon(a.common)
    ensures BuildPipeline(a) == Render(Description(a))
    ensures SingleSpaced(BuildPipeline(a))
    ensures Normalize(BuildPipeline(a)) == BuildPipeline(a)
  {
    DescriptionClean(a);
    BuildClean(Description(a));
  }

  lemma InferenceBranchNoPadRefs(a: SplitMergeArgs)
    ensures NoPadRefs(InferenceBranch(a))
  {
    SharedPiecesNoPadRefs(a.common.input, a.inferenceWidth, a.inferenceHeight, a.common.bitrate);
    NoPadRefsAppend(ScaleTo(a.inferenceWidth, a.inferenceHeight),
                    [Queue(), HailoNet(a.common.hef, NMS_PROPS), Queue(), HailoFilter(a.common.postprocessSo)]);
  }

  /** The tee is the last element of the first chain and the muxer the whole second chain. */
  lemma SplitMergeDeclarations(a: SplitMergeArgs)
    ensures Declares(Description(a), "t")
    ensures Declares(Description(a), "mux")
  {
    var d: Graph.Description := Description(a);
    assert Names(d[0][5], "t");
    assert Names(d[1][0], "mux");
  }

  /** No chain is empty, and pad references sit only at the ends of chains. */
  lemma SplitMergeChainShapes(a: SplitMergeArgs)
    ensures forall k :: 0 <= k < |Description(a)| ==>
      |Description(a)[k]| > 0 && NoPadRefs(Inner(Description(a)[k]))
  {
    var d: Graph.Description := Description(a);
    SharedPiecesNoPadRefs(a.common.input, a.inferenceWidth, a.inferenceHeight, a.common.bitrate);
    NoPadRefsAppend(DecodeHead(a.common.input), [Element("tee", [Prop("name", Bare("t"))])]);
    InnerNoPadRefs(d[0]);
    InferenceBranchNoPadRefs(a);
    InnerRoute(TEE_PAD, [Queue()], MUX_PAD);
    InnerRoute(TEE_PAD, InferenceBranch(a), MUX_PAD);
    InnerRoute(MUX_PAD, EncodeStages(a.common.bitrate), FileSink(a.common.output));
    assert d[2] == [TEE_PAD] + [Queue()] + [MUX_PAD];
  }

  /** Chain k of the split/merge description ends, on both sides, in an element or in a pad of a declared element. */
  lemma SplitMergeChainEnds(a: SplitMergeArgs, k: nat)
    requires k < 5
    ensures |Description(a)[k]| > 0 && EndsDeclared(Description(a), Description(a)[k])
  {
    var d: Graph.Description := Description(a);
    SplitMergeDeclarations(a);
    if k == 2 {
      assert d[2][0] == TEE_PAD && d[2][|d[2]| - 1] == MUX_PAD;
    } else if k == 3 {
      assert d[3][0] == TEE_PAD && d[3][|d[3]| - 1] == MUX_PAD;
    } else if k == 4 {
      assert d[4][0] == MUX_PAD && d[4][|d[4]| - 1] == FileSink(a.common.output);
    } else if k == 0 {
      assert d[0][0].Element? && d[0][|d[0]| - 1].Element?;
    }
  }

  /** Every pad reference of the split/merge description names the tee or the muxer, both declared. */
  lemma SplitMergeWellFormed(a: SplitMergeArgs)
    ensures WellFormed(Description(a))
  {
    var d: Graph.Description := Description(a);
    SplitMergeChainShapes(a);
    forall k | 0 <= k < |d| ensures EndsDeclared(d, d[k]) {
      SplitMergeChainEnds(a, k);
    }
  }

  /**
   * The tee feeds exactly two branches, both ending at the muxer: the
   * full-resolution passthrough through a single queue (nothing rescales
   * it), and the inference branch.
   */
  lemma TeeRoutes(a: SplitMergeArgs)
    ensures RoutesFrom(Description(a), TEE_PAD, [[TEE_PAD, Queue(), MUX_PAD], [TEE_PAD] + InferenceBranch(a) + [MUX_PAD]])
  {
    var d: Graph.Description := Description(a);
    assert d[0][0].Element? && d[1][0].Element?;
    assert d[2][0] == TEE_PAD && d[3][0] == TEE_PAD && d[4][0] == MUX_PAD;
    LeavingFive(d, TEE_PAD);
  }

  /** `mux.` is the only way to the overlay, the encoder and the file sink. */
  lemma MuxRoute(a: SplitMergeArgs)
    ensures OnlyRoute(Description(a), MUX_PAD, EncodeStages(a.common.bitrate), FileSink(a.common.output))
  {
    var d: Graph.Description := Description(a);
    assert d[4] == [MUX_PAD] + EncodeStages(a.common.bitrate) + [FileSink(a.common.output)];
    assert d[2][0] == TEE_PAD && d[3][0] == TEE_PAD;
    assert d[0][0].Element? && d[1][0].Element?;
    LeavingFive(d, MUX_PAD);
  }

  /**
   * The inference branch: videoscale, caps of the network's input size,
   * queue, hailonet with the NMS settings, queue, hailofilter.
   */
  lemma InferenceBranchStages(a: SplitMergeArgs)
    ensures Factories(InferenceBranch(a)) == ["videoscale", "capsfilter", "queue", "hailonet", "queue", "hailofilter"]
    ensures InferenceBranch(a)[1] == Caps("video/x-raw", [Prop("width", Bare(IntToString(a.inferenceWidth))), Prop("height", Bare(IntToString(a.inferenceHeight)))])
    ensures InferenceBranch(a)[3] == HailoNet(a.common.hef, NMS_PROPS)
  {
    InferenceBranchNoPadRefs(a);
    FactoriesOfElements(InferenceBranch(a));
  }

  /** Every queue of the split/merge description is bounded and non-leaky. */
  lemma SplitMergeBoundedQueues(a: SplitMergeArgs)
    ensures BoundedQueues(Description(a))
  {
    var d: Graph.Description := Description(a);
    SharedPiecesBounded(a.common.input, a.inferenceWidth, a.inferenceHeight, a.common.bitrate, a.common.output);
    NotQueue(Element("tee", [Prop("name", Bare("t"))]));
    NotQueue(Element("hailomuxer", [Prop("name", Bare("mux"))]));
    ChainBoundedAppend(DecodeHead(a.common.input), [Element("tee", [Prop("name", Bare("t"))])]);
    var tail := [Queue(), HailoNet(a.common.hef, NMS_PROPS), Queue(), HailoFilter(a.common.postprocessSo), MUX_PAD];
    NotQueue(HailoNet(a.common.hef, NMS_PROPS));
    NotQueue(HailoFilter(a.common.postprocessSo));
    assert ChainBounded(tail);
    ChainBoundedAppend([TEE_PAD], ScaleTo(a.inferenceWidth, a.inferenceHeight));
    ChainBoundedAppend([TEE_PAD] + ScaleTo(a.inferenceWidth, a.inferenceHeight), tail);
    assert d[3] == [TEE_PAD] + ScaleTo(a.inferenceWidth, a.inferenceHeight) + tail;
    ChainBoundedAppend([MUX_PAD], EncodeStages(a.common.bitrate));
    ChainBoundedAppend([MUX_PAD] + EncodeStages(a.common.bitrate), [FileSink(a.common.output)]);
  }
}
