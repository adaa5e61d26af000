/**
 * Text helpers shared by both pipeline scripts: Python's whitespace test,
 * `str.split()` without a separator, `str.join`, the whitespace clean-up
 * `" ".join(s.split())` applied to every assembled pipeline description,
 * and `str(int)`.
 */
module Text {

  /** Python's `str.isspace()` for one character; `str.split()` splits on exactly these. */
  predicate IsSpace(c: char) {
    var n := c as int;
    (0x09 <= n <= 0x0D) || (0x1C <= n <= 0x20) || n == 0x85 || n == 0xA0 || n == 0x1680
    || (0x2000 <= n <= 0x200A) || n == 0x2028 || n == 0x2029 || n == 0x202F
    || n == 0x205F || n == 0x3000
  }

  predicate NoSpace(s: string) {
    forall i :: 0 <= i < |s| ==> !IsSpace(s[i])
  }

  predicate AllSpace(s: string) {
    forall i :: 0 <= i < |s| ==> IsSpace(s[i])
  }

  /** A word as `str.split()` yields it: non-empty, without whitespace. */
  predicate IsWord(s: string) {
    |s| > 0 && NoSpace(s)
  }

  predicate AllWords(words: seq<string>) {
    forall k :: 0 <= k < |words| ==> IsWord(words[k])
  }

  /**
   * A string as `" ".join(...)` of words leaves it: no whitespace at either
   * end, no whitespace other than a plain space, never two spaces in a row.
   */
  predicate SingleSpaced(s: string) {
    && (|s| > 0 ==> !IsSpace(s[0]) && !IsSpace(s[|s| - 1]))
    && (forall i :: 0 <= i < |s| && IsSpace(s[i]) ==> s[i] == ' ')
    && (forall i :: 0 <= i < |s| - 1 ==> s[i] != ' ' || s[i + 1] != ' ')
  }

  /** Length of the leading run of non-whitespace characters of s. */
  function WordEnd(s: string): (n: nat)
    ensures n <= |s|
    ensures NoSpace(s[..n])
    ensures n < |s| ==> IsSpace(s[n])
  {
    if s == [] || IsSpace(s[0]) then 0
    else
      var m := WordEnd(s[1..]);
      assert s[..m + 1] == [s[0]] + s[1..][..m];
      m + 1
  }

  /** Python's `s.split()`: the maximal runs of non-whitespace, in order. */
  function Split(s: string): (words: seq<string>)
    ensures AllWords(words)
    decreases |s|
  {
    if s == [] then []
    else if IsSpace(s[0]) then Split(s[1..])
    else
      var n := WordEnd(s);
      [s[..n]] + Split(s[n..])
  }

  /** Python's `sep.join(words)`. */
  function Join(sep: string, words: seq<string>): string {
    if words == [] then ""
    else if |words| == 1 then words[0]
    else words[0] + sep + Join(sep, words[1..])
  }

  /**
   * `" ".join(s.split())`: the clean-up both scripts apply to the assembled
   * pipeline description. The result is single-spaced and has exactly the
   * words of s, in the same order.
   */
  function Normalize(s: string): (r: string)
    ensures SingleSpaced(r)
    ensures Split(r) == Split(s)
  {
    JoinSingleSpaced(Split(s));
    SplitJoin(Split(s));
    Join(" ", Split(s))
  }

  /** The concatenation of the words of each string, as repeated `split()` gives them. */
  function SplitEach(strings: seq<string>): seq<string> {
    if strings == [] then [] else Split(strings[0]) + SplitEach(strings[1..])
  }

  /** Whitespace that may separate words: every gap is non-empty and all whitespace. */
  predicate Gaps(gaps: seq<string>) {
    forall k :: 0 <= k < |gaps| ==> |gaps[k]| > 0 && AllSpace(gaps[k])
  }

  /**
   * Words laid out as in a multi-line string literal: gaps[k] is the
   * whitespace before words[k], and the last gap follows the last word.
   * Each gap may differ: a single space within a line, a line break and
   * indentation, a whitespace-only line.
   */
  function Layout(words: seq<string>, gaps: seq<string>): string
    requires |gaps| == |words| + 1
  {
    if words == [] then gaps[0] else gaps[0] + words[0] + Layout(words[1..], gaps[1..])
  }

  function Digit(d: nat): (c: char)
    requires d < 10
    ensures '0' <= c <= '9'
  {
    (('0' as int) + d) as char
  }

  /** Decimal digits of n, most significant first. */
  function Digits(n: nat): (s: string)
    ensures |s| > 0
    ensures forall i :: 0 <= i < |s| ==> '0' <= s[i] <= '9'
  {
    if n < 10 then [Digit(n)] else Digits(n / 10) + [Digit(n % 10)]
  }

  /** Python's `str(n)` for an int. */
  function IntToString(n: int): (s: string)
    ensures IsWord(s)
  {
    var s := if n < 0 then "-" + Digits(-n) else Digits(n);
    assert forall i :: 0 <= i < |s| ==> s[i] == '-' || '0' <= s[i] <= '9';
    s
  }

  /** The number a string of decimal digits denotes; the inverse of Digits. */
  function DigitsValue(s: string): int {
    if s == [] then 0 else 10 * DigitsValue(s[..|s| - 1]) + ((s[|s| - 1] as int) - ('0' as int))
  }

  /** Reads back what IntToString writes. */
  function ParseInt(s: string): int {
    if |s| > 0 && s[0] == '-' then -DigitsValue(s[1..]) else DigitsValue(s)
  }

  // ---------------------------------------------------------------------------
  // Lemmas about Split

  /** WordEnd is determined by its contract: it is the index of the first whitespace. */
  lemma {:induction false} WordEndUnique(s: string, n: nat)
    requires n <= |s| && NoSpace(s[..n]) && (n < |s| ==> IsSpace(s[n]))
    ensures WordEnd(s) == n
    decreases n
  {
    if n > 0 {
      assert s[..n][0] == s[0];
      assert s[1..][..n - 1] == s[..n][1..];
      WordEndUnique(s[1..], n - 1);
    }
  }

  /** Splitting is compositional at a whitespace boundary. */
  lemma {:induction false} SplitAppend(x: string, y: string)
    requires x == [] || y == [] || IsSpace(x[|x| - 1]) || IsSpace(y[0])
    ensures Split(x + y) == Split(x) + Split(y)
    decreases |x|
  {
    if x == [] {
      assert x + y == y;
    } else if IsSpace(x[0]) {
      assert (x + y)[1..] == x[1..] + y;
      SplitAppend(x[1..], y);
    } else {
      var n := WordEnd(x);
      if n < |x| {
        assert (x + y)[..n] == x[..n];
        WordEndUnique(x + y, n);
      } else {
        assert x[|x| - 1] == x[..n][|x| - 1];
        assert (x + y)[..n] == x;
        WordEndUnique(x + y, n);
      }
      assert (x + y)[..n] == x[..n];
      assert (x + y)[n..] == x[n..] + y;
      SplitAppend(x[n..], y);
    }
  }

  lemma {:induction false} SplitAllSpace(s: string)
    requires AllSpace(s)
    ensures Split(s) == []
    decreases |s|
  {
    if s != [] {
      SplitAllSpace(s[1..]);
    }
  }

  lemma SplitWord(w: string)
    requires IsWord(w)
    ensures Split(w) == [w]
  {
    WordEndUnique(w, |w|);
    assert w[..|w|] == w;
    assert w[|w|..] == [];
  }

  /** Splitting a single-space join of words gives the words back. */
  lemma {:induction false} SplitJoin(words: seq<string>)
    requires AllWords(words)
    ensures Split(Join(" ", words)) == words
  {
    if words == [] {
    } else if |words| == 1 {
      SplitWord(words[0]);
    } else {
      var rest := Join(" ", words[1..]);
      SplitJoin(words[1..]);
      SplitWord(words[0]);
      assert words[0] + " " + rest == words[0] + (" " + rest);
      SplitAppend(words[0], " " + rest);
      assert (" " + rest)[1..] == rest;
      assert words == [words[0]] + words[1..];
    }
  }

  lemma {:induction false} JoinNonEmpty(words: seq<string>)
    requires AllWords(words) && words != []
    ensures |Join(" ", words)| > 0
  {
    if |words| > 1 {
      assert |words[0]| > 0;
    }
  }

  /** A single-space join of words is single-spaced. */
  lemma {:induction false} JoinSingleSpaced(words: seq<string>)
    requires AllWords(words)
    ensures SingleSpaced(Join(" ", words))
  {
    if words == [] {
    } else if |words| == 1 {
      assert IsWord(words[0]);
    } else {
      var w := words[0];
      var rest := Join(" ", words[1..]);
      JoinSingleSpaced(words[1..]);
      JoinNonEmpty(words[1..]);
      assert IsWord(w);
      var s := w + " " + rest;
      assert s == Join(" ", words);
      forall i | 0 <= i < |s| && IsSpace(s[i]) ensures s[i] == ' ' {
        if i > |w| {
          assert s[i] == rest[i - |w| - 1];
        }
      }
      forall i | 0 <= i < |s| - 1 ensures s[i] != ' ' || s[i + 1] != ' ' {
        if i < |w| - 1 {
          assert s[i] == w[i];
        } else if i == |w| - 1 {
          assert s[i] == w[i];
        } else if i == |w| {
          assert s[i + 1] == rest[0];
        } else {
          assert s[i] == rest[i - |w| - 1] && s[i + 1] == rest[i - |w|];
        }
      }
      assert s[0] == w[0];
      assert s[|s| - 1] == rest[|rest| - 1];
    }
  }

  /** Cleaning up an already clean string changes nothing. */
  lemma NormalizeIdempotent(s: string)
    ensures Normalize(Normalize(s)) == Normalize(s)
  {
  }

  /** A single-spaced string is its own clean-up. */
  lemma {:induction false} NormalizeSingleSpaced(s: string)
    requires SingleSpaced(s)
    ensures Normalize(s) == s
    decreases |s|
  {
    if s != [] {
      var n := WordEnd(s);
      var w := s[..n];
      assert s[0] == s[..n][0] || n == 0;
      if n == |s| {
        assert w == s;
        SplitWord(s);
      } else {
        assert s[n] == ' ';
        assert n > 0;
        var tail := s[n + 1..];
        assert s == w + " " + tail;
        assert |tail| > 0 && !IsSpace(tail[0]) by {
          assert s[n + 1] == tail[0];
        }
        assert SingleSpaced(tail) by {
          forall i | 0 <= i < |tail| && IsSpace(tail[i]) ensures tail[i] == ' ' {
            assert tail[i] == s[n + 1 + i];
          }
          forall i | 0 <= i < |tail| - 1 ensures tail[i] != ' ' || tail[i + 1] != ' ' {
            assert tail[i] == s[n + 1 + i] && tail[i + 1] == s[n + 2 + i];
          }
          assert tail[|tail| - 1] == s[|s| - 1];
        }
        NormalizeSingleSpaced(tail);
        assert (s[n..])[1..] == tail;
        assert Split(s) == [w] + Split(tail);
        var ts := Split(tail);
        assert ts != [];
        assert Join(" ", [w] + ts) == w + " " + Join(" ", ts) by {
          assert ([w] + ts)[1..] == ts;
        }
      }
    }
  }

  /** Quantified form of SplitWord over a list of words. */
  lemma {:induction false} SplitEachWords(words: seq<string>)
    requires AllWords(words)
    ensures SplitEach(words) == words
  {
    if words != [] {
      SplitWord(words[0]);
      SplitEachWords(words[1..]);
    }
  }

  /**
   * Splitting a laid-out literal gives the words of its pieces, whatever
   * whitespace each gap holds.
   */
  lemma {:induction false} SplitLayout(words: seq<string>, gaps: seq<string>)
    requires |gaps| == |words| + 1 && Gaps(gaps)
    ensures Split(Layout(words, gaps)) == SplitEach(words)
  {
    SplitAllSpace(gaps[0]);
    if words != [] {
      var rest := Layout(words[1..], gaps[1..]);
      assert |rest| > 0 && rest[0] == gaps[1][0];
      SplitAppend(words[0], rest);
      SplitAppend(gaps[0], words[0] + rest);
      assert gaps[0] + words[0] + rest == gaps[0] + (words[0] + rest);
      SplitLayout(words[1..], gaps[1..]);
    }
  }

  /** The clean-up of a laid-out list of words is their single-space join. */
  lemma NormalizeLayout(words: seq<string>, gaps: seq<string>)
    requires |gaps| == |words| + 1 && Gaps(gaps)
    requires AllWords(words)
    ensures Normalize(Layout(words, gaps)) == Join(" ", words)
  {
    SplitLayout(words, gaps);
    SplitEachWords(words);
  }

  /**
   * The layout of the literal does not matter after the clean-up: any two
   * ways of separating the same words by whitespace clean to the same string.
   */
  lemma NormalizeLayoutGapIrrelevant(words: seq<string>, gaps1: seq<string>, gaps2: seq<string>)
    requires |gaps1| == |words| + 1 && Gaps(gaps1)
    requires |gaps2| == |words| + 1 && Gaps(gaps2)
    ensures Normalize(Layout(words, gaps1)) == Normalize(Layout(words, gaps2))
  {
    SplitLayout(words, gaps1);
    SplitLayout(words, gaps2);
  }

  // ---------------------------------------------------------------------------
  // Lemmas about IntToString

  lemma {:induction false} DigitsRoundTrip(n: nat)
    ensures DigitsValue(Digits(n)) == n
  {
    var s := Digits(n);
    if n >= 10 {
      DigitsRoundTrip(n / 10);
      assert s[..|s| - 1] == Digits(n / 10);
    }
  }

  /** `int(str(n)) == n`. */
  lemma IntToStringRoundTrip(n: int)
    ensures ParseInt(IntToString(n)) == n
  {
    if n < 0 {
      DigitsRoundTrip(-n);
      assert ("-" + Digits(-n))[1..] == Digits(-n);
    } else {
      DigitsRoundTrip(n);
    }
  }
}
