/**
 * `_validate_paths`, identical in both scripts: the three input files must
 * exist, checked in order, and the output's parent directory is created
 * with its missing ancestors unless it is the current directory. The file
 * system is the set of paths that exist.
 */
module Paths {
  import opened Wrappers

  /** Which of the three required files a check is about. */
  datatype PathRole = InputFile | HefFile | PostprocessSo

  /**
   * The FileNotFoundError raised, naming the missing file, or the OSError
   * `mkdir` raises when the output directory cannot be made.
   */
  datatype PathError = NotFound(role: PathRole, path: string) | CannotCreate(dir: string)

  /** The position of the last `/` of p, or -1 when there is none. */
  function LastSlash(p: string): (i: int)
    ensures -1 <= i < |p|
    ensures i >= 0 ==> p[i] == '/'
    ensures forall j :: i < j < |p| ==> p[j] != '/'
  {
    if p == [] then -1
    else if p[|p| - 1] == '/' then |p| - 1
    else
      var i := LastSlash(p[..|p| - 1]);
      assert forall j :: i < j < |p| - 1 ==> p[j] == p[..|p| - 1][j];
      i
  }

  /**
   * `Path(p).parent`: everything before the last `/`; `/` when that slash
   * is the first character; `.` when there is no slash.
   */
  function Parent(p: string): (r: string)
    ensures (forall j :: 0 <= j < |p| ==> p[j] != '/') ==> r == "."
    ensures LastSlash(p) == 0 ==> r == "/"
    ensures LastSlash(p) > 0 ==> r == p[..LastSlash(p)]
    ensures r == "/" ==> |p| > 0 && p[0] == '/'
    ensures r != "." && r != "/" ==>
      && 0 < |r| < |p| && r == p[..|r|] && p[|r|] == '/'
      && forall j :: |r| < j < |p| ==> p[j] != '/'
  {
    var i := LastSlash(p);
    if i < 0 then "."
    else if i == 0 then "/"
    else p[..i]
  }

  /** The directories `mkdir(parents=True)` makes exist: d and each of its ancestors but `.`. */
  function Ancestors(d: string): (s: set<string>)
    ensures d in s
    decreases |d|
  {
    var q := Parent(d);
    if q == "." || |q| >= |d| then {d} else {d} + Ancestors(q)
  }

  /** Every directory mkdir makes for d is d or a proper prefix of it ending before a `/`. */
  lemma {:induction false} AncestorsArePrefixes(d: string, x: string)
    requires x in Ancestors(d)
    ensures |x| <= |d| && x == d[..|x|]
    decreases |d|
  {
    var q := Parent(d);
    if x != d {
      AncestorsArePrefixes(q, x);
    }
  }

  /** mkdir with parents: whatever it makes, it also makes that directory's parent, up to `.` or the root. */
  lemma {:induction false} AncestorsClosed(d: string, x: string)
    requires x in Ancestors(d)
    ensures Parent(x) == "." || |Parent(x)| >= |x| || Parent(x) in Ancestors(d)
    decreases |d|
  {
    var q := Parent(d);
    if x != d {
      AncestorsClosed(q, x);
    }
  }

  /**
   * `_validate_paths`: the input, the HEF and the postprocess library are
   * checked in that order and the first missing one is reported; once all
   * three exist, the output's parent is created (with its ancestors) unless
   * it is `.`. `mkdirOk` says whether the file system lets `mkdir` succeed.
   * The result is the file system afterwards.
   */
  function ValidatePaths(input: string, hef: string, so: string, output: string, fs: set<string>, mkdirOk: bool)
    : (r: Result<set<string>, PathError>)
    ensures r.Success? <==> input in fs && hef in fs && so in fs && (Parent(output) == "." || mkdirOk)
    ensures input !in fs ==> r == Failure(NotFound(InputFile, input))
    ensures input in fs && hef !in fs ==> r == Failure(NotFound(HefFile, hef))
    ensures input in fs && hef in fs && so !in fs ==> r == Failure(NotFound(PostprocessSo, so))
    ensures input in fs && hef in fs && so in fs && Parent(output) != "." && !mkdirOk ==>
      r == Failure(CannotCreate(Parent(output)))
    ensures r.Success? ==> fs <= r.value
    ensures r.Success? && Parent(output) == "." ==> r.value == fs
    ensures r.Success? && Parent(output) != "." ==> Ancestors(Parent(output)) <= r.value
    ensures r.Success? ==> r.value - fs <= Ancestors(Parent(output))
  {
    if input !in fs then Failure(NotFound(InputFile, input))
    else if hef !in fs then Failure(NotFound(HefFile, hef))
    else if so !in fs then Failure(NotFound(PostprocessSo, so))
    else
      var dir := Parent(output);
      if dir == "." then Success(fs)
      else if !mkdirOk then Failure(CannotCreate(dir))
      else Success(fs + Ancestors(dir))
  }

  /** `exist_ok=True`: validating again against the resulting file system changes nothing. */
  lemma ValidatePathsIdempotent(input: string, hef: string, so: string, output: string, fs: set<string>, mkdirOk: bool)
    requires ValidatePaths(input, hef, so, output, fs, mkdirOk).Success?
    ensures ValidatePaths(input, hef, so, output, ValidatePaths(input, hef, so, output, fs, mkdirOk).value, mkdirOk)
         == ValidatePaths(input, hef, so, output, fs, mkdirOk)
  {
  }

  /**
   * After a successful validation the output's directory exists and so does
   * each of its ancestors, up to `.` or the root.
   */
  lemma OutputDirectoryReady(input: string, hef: string, so: string, output: string, fs: set<string>, mkdirOk: bool, x: string)
    requires ValidatePaths(input, hef, so, output, fs, mkdirOk).Success?
    requires Parent(output) != "."
    requires x in Ancestors(Parent(output))
    ensures x in ValidatePaths(input, hef, so, output, fs, mkdirOk).value
    ensures Parent(x) == "." || |Parent(x)| >= |x| || Parent(x) in ValidatePaths(input, hef, so, output, fs, mkdirOk).value
  {
    AncestorsClosed(Parent(output), x);
  }

  /** A bare file name or `./`-less relative name writes into `.`, which is never created. */
  lemma BareOutputName(output: string)
    requires forall j :: 0 <= j < |output| ==> output[j] != '/'
    ensures Parent(output) == "."
  {
  }

  /** `Path("videos/out/clip.mp4").parent` is `videos/out`, whose ancestors are `videos/out` and `videos`. */
  lemma NestedOutputExample()
    ensures Parent("videos/out/clip.mp4") == "videos/out"
    ensures Ancestors("videos/out") == {"videos/out", "videos"}
  {
    assert LastSlash("videos/out/clip.mp4") == 10 by {
      assert "videos/out/clip.mp4"[10] == '/';
    }
    assert Parent("videos/out") == "videos" by {
      assert LastSlash("videos/out") == 6 by {
        assert "videos/out"[6] == '/';
      }
    }
    assert Parent("videos") == ".";
  }
}
