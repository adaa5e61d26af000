/**
 * The elements and chain pieces the two scripts' descriptions share, and the
 * command-line arguments common to both scripts.
 */
module Catalog {
  import opened Text
  import opened Graph

  /** Arguments both scripts accept (`--input`, `--output`, `--hef`, `--postprocess-so`, `--bitrate`, `--debug`). */
  datatype Common = Common(
    input: string,
    output: string,
    hef: string,
    postprocessSo: string,
    bitrate: int,
    debug: bool)

  /** The source's arguments contain no whitespace, so each lands in one word of the description. */
  predicate CleanCommon(c: Common) {
    NoSpace(c.input) && NoSpace(c.output) && NoSpace(c.hef) && NoSpace(c.postprocessSo)
  }

  const ENCODING_PRESET: string := "ultrafast"

  /** A line break and the 12-space indentation of the scripts' description literals. */
  const LINE_BREAK: string := "\n            "

  /**
   * A layout of n gaps, each a line break with the literals' indentation.
   * The literals as written mix these with single spaces, 16-space indents
   * and whitespace-only lines; the clean-up discards the difference
   * (Text.NormalizeLayoutGapIrrelevant).
   */
  function LineLayout(n: nat): (gaps: seq<string>)
    ensures |gaps| == n && Gaps(gaps)
  {
    assert |LINE_BREAK| > 0 && AllSpace(LINE_BREAK);
    seq(n, _ => LINE_BREAK)
  }

  /**
   * A description assembled as both scripts' `build_pipeline` does: its words
   * laid out in a literal, then `" ".join(s.split())`. The result is
   * single-spaced and has the words of the description's pieces, in order.
   */
  function Build(d: Description): (r: string)
    ensures SingleSpaced(r)
    ensures Split(r) == SplitEach(Words(d))
  {
    AssembleWords(d, LineLayout(|Words(d)| + 1));
    Assemble(d, LineLayout(|Words(d)| + 1))
  }

  /** Every queue of both scripts: never drops buffers and holds at most 30 of them. */
  const QUEUE_PROPS: seq<Prop> := [
    Prop("leaky", Bare("no")),
    Prop("max-size-buffers", Bare("30")),
    Prop("max-size-bytes", Bare("0")),
    Prop("max-size-time", Bare("0"))]

  function Plain(factory: string): Item {
    Element(factory, [])
  }

  function Queue(): Item {
    Element("queue", QUEUE_PROPS)
  }

  function BoolText(b: bool): string {
    if b then "true" else "false"
  }

  /** `filesrc location="..." ! qtdemux ! h264parse ! avdec_h264 ! videoconvert` */
  function DecodeHead(input: string): Chain {
    [Element("filesrc", [Prop("location", Quoted(input))]),
     Plain("qtdemux"), Plain("h264parse"), Plain("avdec_h264"), Plain("videoconvert")]
  }

  /** `videoscale ! video/x-raw,width=W,height=H` */
  function ScaleTo(width: int, height: int): seq<Item> {
    [Plain("videoscale"),
     Caps("video/x-raw", [Prop("width", Bare(IntToString(width))), Prop("height", Bare(IntToString(height)))])]
  }

  function HailoNet(hef: string, extra: seq<Prop>): Item {
    Element("hailonet", [Prop("hef-path", Bare(hef)), Prop("is-active", Bare("true"))] + extra)
  }

  function HailoFilter(so: string): Item {
    Element("hailofilter", [Prop("so-path", Bare(so)), Prop("qos", Bare("false"))])
  }

  function FileSink(output: string): Item {
    Element("filesink", [Prop("location", Quoted(output)), Prop("sync", Bare("false"))])
  }

  /** `queue ! hailooverlay ! queue ! videoconvert ! x264enc ... ! h264parse ! mp4mux`, before the file sink */
  function EncodeStages(bitrate: int): seq<Item> {
    [Queue(), Plain("hailooverlay"), Queue(), Plain("videoconvert"),
     X264(bitrate), Plain("h264parse"), Plain("mp4mux")]
  }

  /** `x264enc bitrate=... speed-preset=ultrafast tune=zerolatency key-int-max=60` */
  function X264(bitrate: int): Item {
    Element("x264enc", [
      Prop("bitrate", Bare(IntToString(bitrate))),
      Prop("speed-preset", Bare(ENCODING_PRESET)),
      Prop("tune", Bare("zerolatency")),
      Prop("key-int-max", Bare("60"))])
  }

  /** A queue element is the bounded, non-leaky queue. */
  predicate ItemBounded(i: Item) {
    i.Element? && i.factory == "queue" ==> i.props == QUEUE_PROPS
  }

  predicate ChainBounded(c: seq<Item>) {
    forall j :: 0 <= j < |c| ==> ItemBounded(c[j])
  }

  /** Every queue element of d is the bounded, non-leaky queue. */
  predicate BoundedQueues(d: Description) {
    forall k :: 0 <= k < |d| ==> ChainBounded(d[k])
  }

  /** The element named n in d carries `key=v`. */
  predicate Configures(d: Description, n: string, key: string, v: Value) {
    exists k, j :: 0 <= k < |d| && 0 <= j < |d[k]| && Names(d[k][j], n) && Prop(key, v) in d[k][j].props
  }

  // ---------------------------------------------------------------------------
  // The literal words of the descriptions. Each batch is kept small: facts
  // about many string literals in one proof are expensive for the solver.

  lemma DecodeWords()
    ensures IsWord("filesrc") && IsWord("location") && IsWord("qtdemux")
    ensures IsWord("h264parse") && IsWord("avdec_h264")
  {
  }

  lemma ConvertWords()
    ensures IsWord("videoconvert") && IsWord("videoscale") && IsWord("video/x-raw")
  {
  }

  lemma SizeWords()
    ensures IsWord("width") && IsWord("height")
  {
  }

  lemma QueueWords()
    ensures IsWord("queue") && IsWord("leaky") && NoSpace("no") && IsWord("max-size-buffers")
  {
  }

  lemma QueueLimitWords()
    ensures NoSpace("30") && IsWord("max-size-bytes") && NoSpace("0") && IsWord("max-size-time")
  {
  }

  lemma HailoNetWords()
    ensures IsWord("hailonet") && IsWord("hef-path") && IsWord("is-active") && NoSpace("true")
  {
  }

  lemma HailoFilterWords()
    ensures IsWord("hailofilter") && IsWord("so-path") && IsWord("qos") && NoSpace("false")
  {
  }

  lemma EncoderWords()
    ensures IsWord("x264enc") && IsWord("bitrate") && IsWord("speed-preset") && NoSpace(ENCODING_PRESET)
  {
  }

  lemma EncoderTuneWords()
    ensures IsWord("tune") && NoSpace("zerolatency") && IsWord("key-int-max") && NoSpace("60")
  {
  }

  lemma SinkWords()
    ensures IsWord("hailooverlay") && IsWord("mp4mux") && IsWord("filesink") && IsWord("sync")
  {
  }

  // ---------------------------------------------------------------------------
  // Cleanliness of the shared pieces

  lemma CleanChainAppend(x: Chain, y: Chain)
    requires CleanChain(x) && CleanChain(y)
    ensures CleanChain(x + y)
  {
    forall k | 0 <= k < |x + y| ensures CleanItem((x + y)[k]) {
      if k >= |x| { assert (x + y)[k] == y[k - |x|]; }
    }
  }

  lemma CleanPropsAppend(x: seq<Prop>, y: seq<Prop>)
    requires CleanProps(x) && CleanProps(y)
    ensures CleanProps(x + y)
  {
  }

  lemma BoolTextNoSpace(b: bool)
    ensures NoSpace(BoolText(b))
  {
    HailoNetWords();
    HailoFilterWords();
  }

  lemma QueueClean()
    ensures CleanItem(Queue())
  {
    QueueWords();
    QueueLimitWords();
  }

  lemma DecodeHeadClean(input: string)
    requires NoSpace(input)
    ensures CleanChain(DecodeHead(input))
  {
    DecodeWords();
    ConvertWords();
  }

  lemma ScaleToClean(width: int, height: int)
    ensures CleanChain(ScaleTo(width, height))
  {
    ConvertWords();
    SizeWords();
  }

  lemma HailoClean(hef: string, so: string, extra: seq<Prop>)
    requires NoSpace(hef) && NoSpace(so)
    requires CleanProps(extra)
    ensures CleanItem(HailoNet(hef, extra)) && CleanItem(HailoFilter(so))
  {
    HailoNetWords();
    HailoFilterWords();
    CleanPropsAppend([Prop("hef-path", Bare(hef)), Prop("is-active", Bare("true"))], extra);
  }

  lemma X264Clean(bitrate: int)
    ensures CleanItem(X264(bitrate))
  {
    EncoderWords();
    EncoderTuneWords();
  }

  lemma FileSinkClean(output: string)
    requires NoSpace(output)
    ensures CleanItem(FileSink(output))
  {
    SinkWords();
    DecodeWords();
    HailoFilterWords();
  }

  lemma EncodeClean(bitrate: int, output: string)
    requires NoSpace(output)
    ensures CleanChain(EncodeStages(bitrate)) && CleanItem(FileSink(output))
  {
    QueueClean();
    X264Clean(bitrate);
    ConvertWords();
    SinkWords();
    DecodeWords();
    FileSinkClean(output);
  }

  // ---------------------------------------------------------------------------
  // Shape of the shared pieces

  lemma ChainBoundedAppend(x: seq<Item>, y: seq<Item>)
    requires ChainBounded(x) && ChainBounded(y)
    ensures ChainBounded(x + y)
  {
    forall j | 0 <= j < |x + y| ensures ItemBounded((x + y)[j]) {
      if j >= |x| { assert (x + y)[j] == y[j - |x|]; }
    }
  }

  /** Only a five-letter factory can be a queue. */
  lemma NotQueue(i: Item)
    requires !i.Element? || |i.factory| != 5
    ensures ItemBounded(i)
  {
  }

  lemma SharedPiecesBounded(input: string, width: int, height: int, bitrate: int, output: string)
    ensures ChainBounded(DecodeHead(input)) && ChainBounded(ScaleTo(width, height))
    ensures ChainBounded(EncodeStages(bitrate)) && ItemBounded(FileSink(output))
  {
  }

  lemma SharedPiecesNoPadRefs(input: string, width: int, height: int, bitrate: int)
    ensures NoPadRefs(DecodeHead(input)) && NoPadRefs(ScaleTo(width, height))
    ensures NoPadRefs(EncodeStages(bitrate))
  {
  }

  /** The encoding tail: queue, overlay, queue, convert, H.264 encoder, parser, MP4 muxer. */
  lemma EncodeStagesFactories(bitrate: int)
    ensures Factories(EncodeStages(bitrate)) == ["queue", "hailooverlay", "queue", "videoconvert", "x264enc", "h264parse", "mp4mux"]
  {
    FactoriesOfElements(EncodeStages(bitrate));
  }

  // ---------------------------------------------------------------------------
  // Build does not depend on the layout

  /** Any whitespace between the words of d cleans to Build(d). */
  lemma LayoutCleansToBuild(d: Description, gaps: seq<string>)
    requires |gaps| == |Words(d)| + 1 && Gaps(gaps)
    ensures Normalize(Layout(Words(d), gaps)) == Build(d)
  {
    NormalizeLayoutGapIrrelevant(Words(d), gaps, LineLayout(|Words(d)| + 1));
  }

  /** A clean description builds to its one-line rendering, which the clean-up leaves alone. */
  lemma BuildClean(d: Description)
    requires Clean(d)
    ensures Build(d) == Render(d)
    ensures Normalize(Build(d)) == Build(d)
  {
    AssembleClean(d, LineLayout(|Words(d)| + 1));
    NormalizeIdempotent(Layout(Words(d), LineLayout(|Words(d)| + 1)));
  }
}
