/**
 * A typed form of the gst-launch pipeline descriptions both scripts assemble.
 * A description is a list of chains; a chain is a list of items joined by
 * `!` (each item linked to the next); an item is an element with its
 * properties, a caps filter, or a reference to a pad of a named element
 * (`cropper.src_0`, or `t.` for "some pad of t").
 */
module Graph {
  import opened Text

  /** A property value: written bare (`sync=false`) or in double quotes (`location="..."`). */
  datatype Value = Bare(text: string) | Quoted(text: string)

  datatype Prop = Prop(key: string, value: Value)

  datatype Item =
    | Element(factory: string, props: seq<Prop>)
    | Caps(mediaType: string, fields: seq<Prop>)
    | PadRef(element: string, pad: string)

  type Chain = seq<Item>

  type Description = seq<Chain>

  // ---------------------------------------------------------------------------
  // Rendering in gst-launch syntax

  function ValueText(v: Value): string {
    match v
    case Bare(t) => t
    case Quoted(t) => "\"" + t + "\""
  }

  function PropText(p: Prop): string {
    p.key + "=" + ValueText(p.value)
  }

  function PropWords(props: seq<Prop>): seq<string> {
    if props == [] then [] else [PropText(props[0])] + PropWords(props[1..])
  }

  function CapsFieldsText(fields: seq<Prop>): string {
    if fields == [] then "" else "," + PropText(fields[0]) + CapsFieldsText(fields[1..])
  }

  /** The words an item is written as: `factory key=value ...`, `media,key=value,...` or `element.pad`. */
  function ItemWords(i: Item): seq<string> {
    match i
    case Element(f, ps) => [f] + PropWords(ps)
    case Caps(m, fs) => [m + CapsFieldsText(fs)]
    case PadRef(e, p) => [e + "." + p]
  }

  /** The words of a chain: its items' words with a `!` word between consecutive items. */
  function ChainWords(c: Chain): seq<string> {
    if c == [] then []
    else if |c| == 1 then ItemWords(c[0])
    else ItemWords(c[0]) + ["!"] + ChainWords(c[1..])
  }

  function Words(d: Description): seq<string> {
    if d == [] then [] else ChainWords(d[0]) + Words(d[1..])
  }

  /** The description as one single-spaced line of gst-launch syntax. */
  function Render(d: Description): string {
    Join(" ", Words(d))
  }

  /**
   * The scripts' assembly of a description: the description's words written
   * into a multi-line literal, gaps[k] being the whitespace before the k-th
   * word, followed by the clean-up `" ".join(s.split())`.
   */
  function Assemble(d: Description, gaps: seq<string>): string
    requires |gaps| == |Words(d)| + 1
  {
    Normalize(Layout(Words(d), gaps))
  }

  // ---------------------------------------------------------------------------
  // Well-formedness

  /** No property or name text contains whitespace, so that every word of the rendering is one token. */
  predicate CleanProp(p: Prop) {
    |p.key| > 0 && NoSpace(p.key) && NoSpace(p.value.text)
  }

  predicate CleanProps(ps: seq<Prop>) {
    forall p :: p in ps ==> CleanProp(p)
  }

  predicate CleanItem(i: Item) {
    match i
    case Element(f, ps) => IsWord(f) && CleanProps(ps)
    case Caps(m, fs) => IsWord(m) && CleanProps(fs)
    case PadRef(e, p) => NoSpace(e) && NoSpace(p)
  }

  predicate CleanChain(c: Chain) {
    forall k :: 0 <= k < |c| ==> CleanItem(c[k])
  }

  predicate Clean(d: Description) {
    forall k :: 0 <= k < |d| ==> CleanChain(d[k])
  }

  /** The item is an element that carries `name=n`. */
  predicate Names(i: Item, n: string) {
    i.Element? && Prop("name", Bare(n)) in i.props
  }

  /** Some element of d is named n. */
  predicate Declares(d: Description, n: string) {
    exists k, j :: 0 <= k < |d| && 0 <= j < |d[k]| && Names(d[k][j], n)
  }

  /** The items of a chain strictly between its first and its last. */
  function Inner(c: Chain): seq<Item> {
    if |c| <= 2 then [] else c[1..|c| - 1]
  }

  /** A pad reference at either end of c names an element declared in d. */
  predicate EndsDeclared(d: Description, c: Chain)
    requires |c| > 0
  {
    && (c[0].PadRef? ==> Declares(d, c[0].element))
    && (c[|c| - 1].PadRef? ==> Declares(d, c[|c| - 1].element))
  }

  /**
   * What gst-launch needs of a description: no empty chain, pad references
   * only at the two ends of a chain, and every pad reference naming an
   * element declared somewhere in the description.
   */
  predicate WellFormed(d: Description) {
    forall k :: 0 <= k < |d| ==> |d[k]| > 0 && NoPadRefs(Inner(d[k])) && EndsDeclared(d, d[k])
  }

  /** Chain c leaves `src`: it is written `src ! ...`. */
  predicate Leaves(c: Chain, src: Item) {
    |c| > 0 && c[0] == src
  }

  /** The chains of d that leave `src`, in the order d lists them, each as often as d lists it. */
  function Leaving(d: Description, src: Item): (r: seq<Chain>)
    ensures |r| <= |d|
  {
    if d == [] then []
    else LeavingPart(d[0], src) + Leaving(d[1..], src)
  }

  /** The only chain of d that leaves `src` is `src ! middle ! dst`, and d lists it once. */
  predicate OnlyRoute(d: Description, src: Item, middle: seq<Item>, dst: Item) {
    Leaving(d, src) == [[src] + middle + [dst]]
  }

  /** The chains of d that leave `src` are exactly `routes`, in this order, each listed once per entry. */
  predicate RoutesFrom(d: Description, src: Item, routes: seq<Chain>) {
    Leaving(d, src) == routes
  }

  /** The factory an element or caps item stands for; caps are a capsfilter. */
  function FactoryOf(i: Item): string
    requires !i.PadRef?
  {
    if i.Element? then i.factory else "capsfilter"
  }

  /** The factories of the elements and caps filters of a chain, in order; pad references are skipped. */
  function Factories(items: seq<Item>): seq<string> {
    if items == [] then []
    else (if items[0].PadRef? then [] else [FactoryOf(items[0])]) + Factories(items[1..])
  }

  /** No pad reference among the items. */
  predicate NoPadRefs(items: seq<Item>) {
    forall k :: 0 <= k < |items| ==> !items[k].PadRef?
  }

  // ---------------------------------------------------------------------------
  // Lemmas

  lemma {:induction false} PropWordsAreWords(props: seq<Prop>)
    requires CleanProps(props)
    ensures AllWords(PropWords(props))
  {
    if props != [] {
      assert props[0] in props;
      PropTextNoSpace(props[0]);
      PropWordsAreWords(props[1..]);
    }
  }

  lemma NoSpaceConcat(a: string, b: string)
    requires NoSpace(a) && NoSpace(b)
    ensures NoSpace(a + b)
  {
    assert forall k :: 0 <= k < |a + b| ==> (a + b)[k] == if k < |a| then a[k] else b[k - |a|];
  }

  lemma PropTextNoSpace(p: Prop)
    requires CleanProp(p)
    ensures NoSpace(PropText(p))
  {
    var v := ValueText(p.value);
    assert NoSpace(v) by {
      if p.value.Quoted? {
        NoSpaceConcat("\"", p.value.text);
        NoSpaceConcat("\"" + p.value.text, "\"");
      }
    }
    NoSpaceConcat(p.key, "=");
    NoSpaceConcat(p.key + "=", v);
  }

  lemma {:induction false} CapsFieldsNoSpace(fields: seq<Prop>)
    requires CleanProps(fields)
    ensures NoSpace(CapsFieldsText(fields))
  {
    if fields != [] {
      assert fields[0] in fields;
      PropTextNoSpace(fields[0]);
      CapsFieldsNoSpace(fields[1..]);
      NoSpaceConcat(",", PropText(fields[0]));
      NoSpaceConcat("," + PropText(fields[0]), CapsFieldsText(fields[1..]));
    }
  }

  lemma ItemWordsAreWords(i: Item)
    requires CleanItem(i)
    ensures AllWords(ItemWords(i))
  {
    match i
    case Element(f, ps) =>
      PropWordsAreWords(ps);
    case Caps(m, fs) =>
      CapsFieldsNoSpace(fs);
      NoSpaceConcat(m, CapsFieldsText(fs));
    case PadRef(e, p) =>
      NoSpaceConcat(e, ".");
      NoSpaceConcat(e + ".", p);
  }

  lemma {:induction false} ChainWordsAreWords(c: Chain)
    requires CleanChain(c)
    ensures AllWords(ChainWords(c))
  {
    if c != [] {
      ItemWordsAreWords(c[0]);
      if |c| > 1 {
        ChainWordsAreWords(c[1..]);
      }
    }
  }

  /** Every word of a clean description is a single token. */
  lemma {:induction false} WordsAreWords(d: Description)
    requires Clean(d)
    ensures AllWords(Words(d))
  {
    if d != [] {
      ChainWordsAreWords(d[0]);
      WordsAreWords(d[1..]);
    }
  }

  /**
   * For a clean description the scripts' assembly is exactly its one-line
   * rendering, whatever whitespace separates the words in the literal.
   */
  lemma AssembleClean(d: Description, gaps: seq<string>)
    requires |gaps| == |Words(d)| + 1 && Gaps(gaps)
    requires Clean(d)
    ensures Assemble(d, gaps) == Render(d)
  {
    WordsAreWords(d);
    NormalizeLayout(Words(d), gaps);
  }

  /** Whatever the description holds, its assembly keeps the words of its pieces, in order. */
  lemma AssembleWords(d: Description, gaps: seq<string>)
    requires |gaps| == |Words(d)| + 1 && Gaps(gaps)
    ensures Split(Assemble(d, gaps)) == SplitEach(Words(d))
  {
    SplitLayout(Words(d), gaps);
  }

  /** Without pad references, the factories are those of the items, one for one. */
  lemma {:induction false} FactoriesOfElements(items: seq<Item>)
    requires NoPadRefs(items)
    ensures |Factories(items)| == |items|
    ensures forall k :: 0 <= k < |items| ==> Factories(items)[k] == FactoryOf(items[k])
  {
    if items != [] {
      FactoriesOfElements(items[1..]);
      forall k | 0 < k < |items| ensures Factories(items)[k] == FactoryOf(items[k]) {
        assert items[1..][k - 1] == items[k];
      }
    }
  }

  /** Leaving keeps exactly the chains of d that leave `src`. */
  lemma {:induction false} LeavingMembers(d: Description, src: Item)
    ensures forall c :: c in Leaving(d, src) <==> c in d && Leaves(c, src)
  {
    if d != [] {
      LeavingMembers(d[1..], src);
      assert forall c :: c in d <==> c == d[0] || c in d[1..];
    }
  }

  /** One step of Leaving at position k of d. */
  lemma LeavingAt(d: Description, src: Item, k: nat)
    requires k < |d|
    ensures Leaving(d[k..], src) == LeavingPart(d[k], src) + Leaving(d[k + 1..], src)
  {
    assert d[k..][1..] == d[k + 1..];
  }

  /** The chain c as Leaving lists it: once if it leaves `src`, otherwise not at all. */
  function LeavingPart(c: Chain, src: Item): seq<Chain> {
    if Leaves(c, src) then [c] else []
  }

  /** Leaving over a description of five chains, one chain at a time. */
  lemma LeavingFive(d: Description, src: Item)
    requires |d| == 5
    ensures Leaving(d, src) == LeavingPart(d[0], src) + (LeavingPart(d[1], src) + (LeavingPart(d[2], src)
      + (LeavingPart(d[3], src) + LeavingPart(d[4], src))))
  {
    assert |d[5..]| == 0;
    LeavingAt(d, src, 4);
    LeavingAt(d, src, 3);
    LeavingAt(d, src, 2);
    LeavingAt(d, src, 1);
    LeavingAt(d, src, 0);
    assert d[0..] == d;
  }

  lemma InnerRoute(src: Item, middle: seq<Item>, dst: Item)
    ensures Inner([src] + middle + [dst]) == middle
  {
  }

  lemma NoPadRefsAppend(x: seq<Item>, y: seq<Item>)
    requires NoPadRefs(x) && NoPadRefs(y)
    ensures NoPadRefs(x + y)
  {
    forall k | 0 <= k < |x + y| ensures !(x + y)[k].PadRef? {
      if k >= |x| { assert (x + y)[k] == y[k - |x|]; }
    }
  }

  lemma InnerNoPadRefs(c: Chain)
    requires NoPadRefs(c)
    ensures NoPadRefs(Inner(c))
  {
    if |c| > 2 {
      forall k | 0 <= k < |Inner(c)| ensures !Inner(c)[k].PadRef? {
        assert Inner(c)[k] == c[k + 1];
      }
    }
  }
}
