/**
 * File operations and file-name rules of the pipeline (`internal/fileops`).
 *
 * The file system is a value: a map from file path to content, plus the
 * destinations that cannot be written and the sources that cannot be
 * deleted. Link, rename and copy all end in the same contents, so each
 * operation is stated by the files it leaves behind.
 */
module FileOps {
  import opened Wrappers
  import opened Text
  import opened Paths

  /** Files at or below this size (200 MiB) are taken for samples or adverts. */
  const MinVideoSize: int := 200 * 1024 * 1024

  // ---------------------------------------------------------------------
  // The video-code pattern `[A-Z]{2,5}-\d{3,5}`
  // ---------------------------------------------------------------------

  predicate IsUpper(c: char) {
    'A' <= c <= 'Z'
  }

  /** `m` is `k` capital letters, a dash, then three to five digits. */
  predicate CodeSplit(m: string, k: int) {
    0 <= k < |m| && (forall j :: 0 <= j < k ==> IsUpper(m[j])) && m[k] == '-'
    && 3 <= |m| - k - 1 <= 5 && (forall j :: k < j < |m| ==> IsDigit(m[j]))
  }

  /** `m` is one whole match of the code pattern. */
  predicate IsCode(m: string) {
    exists k :: 2 <= k <= 5 && CodeSplit(m, k)
  }

  /** Some substring of `s` matches the code pattern. */
  predicate ContainsCode(s: string) {
    exists j, k :: 0 <= j <= k <= |s| && IsCode(s[j..k])
  }

  /** Number of capital letters in a row from `i`. */
  function UpperRun(s: string, i: nat): (n: nat)
    requires i <= |s|
    ensures i + n <= |s|
    ensures forall j :: i <= j < i + n ==> IsUpper(s[j])
    ensures i + n == |s| || !IsUpper(s[i + n])
    decreases |s| - i
  {
    if i < |s| && IsUpper(s[i]) then 1 + UpperRun(s, i + 1) else 0
  }

  /** Number of digits in a row from `i`. */
  function DigitRun(s: string, i: nat): (n: nat)
    requires i <= |s|
    ensures i + n <= |s|
    ensures forall j :: i <= j < i + n ==> IsDigit(s[j])
    ensures i + n == |s| || !IsDigit(s[i + n])
    decreases |s| - i
  {
    if i < |s| && IsDigit(s[i]) then 1 + DigitRun(s, i + 1) else 0
  }

  /**
   * Length of the match that starts at `i`, or 0 when none does. The letter
   * run must reach the dash, so it is the whole run from `i`; the digit
   * quantifier is greedy and stops at five.
   */
  function CodeAt(s: string, i: nat): (n: nat)
    requires i <= |s|
    ensures i + n <= |s|
    ensures n > 0 ==> IsCode(s[i..i + n])
  {
    var l := UpperRun(s, i);
    if 2 <= l <= 5 && i + l < |s| && s[i + l] == '-' then
      var d := DigitRun(s, i + l + 1);
      if d < 3 then 0
      else
        var n := l + 1 + (if d < 5 then d else 5);
        assert CodeSplit(s[i..i + n], l);
        n
    else 0
  }

  /** A run of capitals that ends where the capitals end is the one `UpperRun` measures. */
  lemma {:induction false} UpperRunIs(s: string, i: nat, c: nat)
    requires i + c <= |s|
    requires forall j :: i <= j < i + c ==> IsUpper(s[j])
    requires i + c == |s| || !IsUpper(s[i + c])
    ensures UpperRun(s, i) == c
    decreases c
  {
    if c > 0 {
      UpperRunIs(s, i + 1, c - 1);
    }
  }

  /** A digit run ending where the digits end is the one `DigitRun` measures. */
  lemma {:induction false} DigitRunIs(s: string, i: nat, c: nat)
    requires i + c <= |s|
    requires forall j :: i <= j < i + c ==> IsDigit(s[j])
    requires i + c == |s| || !IsDigit(s[i + c])
    ensures DigitRun(s, i) == c
    decreases c
  {
    if c > 0 {
      DigitRunIs(s, i + 1, c - 1);
    }
  }

  /** `c` digits in a row from `i` make a digit run at least that long. */
  lemma {:induction false} DigitRunAtLeast(s: string, i: nat, c: nat)
    requires i + c <= |s|
    requires forall j :: i <= j < i + c ==> IsDigit(s[j])
    ensures DigitRun(s, i) >= c
    decreases c
  {
    if c > 0 {
      DigitRunAtLeast(s, i + 1, c - 1);
    }
  }

  /** Every match starting at `i` is found by `CodeAt`, and none is longer. */
  lemma CodeAtLongest(s: string, i: nat, k: nat)
    requires i <= k <= |s| && IsCode(s[i..k])
    ensures CodeAt(s, i) > 0 && k <= i + CodeAt(s, i)
  {
    var m := s[i..k];
    var c :| 2 <= c <= 5 && CodeSplit(m, c);
    assert forall j :: i <= j < i + c ==> IsUpper(s[j]) by {
      forall j | i <= j < i + c ensures IsUpper(s[j]) {
        assert s[j] == m[j - i];
      }
    }
    assert s[i + c] == m[c];
    UpperRunIs(s, i, c);
    assert forall j :: i + c + 1 <= j < k ==> IsDigit(s[j]) by {
      forall j | i + c + 1 <= j < k ensures IsDigit(s[j]) {
        assert s[j] == m[j - i];
      }
    }
    DigitRunAtLeast(s, i + c + 1, k - i - c - 1);
  }

  /** First position at or after `i` where a match starts. */
  function FindFrom(s: string, i: nat): (r: Option<nat>)
    requires i <= |s|
    ensures r.Some? ==> i <= r.value <= |s| && CodeAt(s, r.value) > 0
    ensures forall j :: i <= j <= |s| && (r.None? || j < r.value) ==> CodeAt(s, j) == 0
    decreases |s| - i
  {
    if CodeAt(s, i) > 0 then Some(i) else if i == |s| then None else FindFrom(s, i + 1)
  }

  /** `regexp.FindString` for the code pattern; `None` stands for Go's "". */
  function FindCode(s: string): Option<string> {
    match FindFrom(s, 0)
    case None => None
    case Some(i) => Some(s[i..i + CodeAt(s, i)])
  }

  /** `m` is the leftmost match in `s`, at `i`, and the longest one starting there. */
  predicate LeftmostMatch(s: string, m: string, i: int) {
    OccursAt(s, m, i) && IsCode(m)
    && (forall j, k :: 0 <= j < i && j <= k <= |s| ==> !IsCode(s[j..k]))
    && (forall k :: i <= k <= |s| && IsCode(s[i..k]) ==> k - i <= |m|)
  }

  /** Where `CodeAt` finds nothing, no substring starting there is a code. */
  lemma NoCodeBefore(s: string, i: nat)
    requires i <= |s|
    requires forall j :: 0 <= j < i ==> CodeAt(s, j) == 0
    ensures forall j, k :: 0 <= j < i && j <= k <= |s| ==> !IsCode(s[j..k])
  {
    forall j, k | 0 <= j < i && j <= k <= |s| ensures !IsCode(s[j..k]) {
      if IsCode(s[j..k]) {
        CodeAtLongest(s, j, k);
      }
    }
  }

  /** The match `CodeAt` measures is the longest one starting there. */
  lemma NoLongerCode(s: string, i: nat)
    requires i <= |s|
    ensures forall k :: i <= k <= |s| && IsCode(s[i..k]) ==> k - i <= CodeAt(s, i)
  {
    forall k | i <= k <= |s| && IsCode(s[i..k]) ensures k - i <= CodeAt(s, i) {
      CodeAtLongest(s, i, k);
    }
  }

  /** `FindCode` finds nothing exactly when no substring is a code. */
  lemma FindCodeNone(s: string)
    ensures FindCode(s).None? <==> !ContainsCode(s)
  {
    if FindFrom(s, 0).None? {
      NoCodeBefore(s, |s|);
      assert forall k :: |s| <= k <= |s| ==> s[|s|..k] == [];
    } else {
      var i := FindFrom(s, 0).value;
      assert IsCode(s[i..i + CodeAt(s, i)]);
    }
  }

  /** What `FindCode` finds is the leftmost match, and the longest one starting there. */
  lemma FindCodeLeftmost(s: string)
    requires FindCode(s).Some?
    ensures exists i :: LeftmostMatch(s, FindCode(s).value, i)
  {
    var i := FindFrom(s, 0).value;
    NoCodeBefore(s, i);
    NoLongerCode(s, i);
    assert LeftmostMatch(s, s[i..i + CodeAt(s, i)], i);
  }

  /** `FindCode` follows the regular-expression semantics. */
  lemma FindCodeMeaning(s: string)
    ensures FindCode(s).None? <==> !ContainsCode(s)
    ensures FindCode(s).Some? ==> exists i :: LeftmostMatch(s, FindCode(s).value, i)
  {
    FindCodeNone(s);
    if FindCode(s).Some? {
      FindCodeLeftmost(s);
    }
  }

  /** `HasVideoCode`: the upper-cased name contains a code. */
  function HasVideoCode(fileName: string): bool {
    FindCode(ToUpper(fileName)).Some?
  }

  /** `MatchString` on the upper-cased name: some substring of it is a code. */
  lemma HasVideoCodeMeaning(fileName: string)
    ensures HasVideoCode(fileName) <==> ContainsCode(ToUpper(fileName))
  {
    FindCodeMeaning(ToUpper(fileName));
  }

  /**
   * `CleanVideoFilename`: the leftmost code of the upper-cased name followed
   * by the lower-cased extension, or the name itself when it has no code.
   */
  function CleanVideoFilename(fileName: string): string {
    match FindCode(ToUpper(fileName))
    case None => fileName
    case Some(m) => m + ToLower(Ext(fileName))
  }

  /** A name without a code is left as it is. */
  lemma CleanKeepsCodeless(fileName: string)
    requires !HasVideoCode(fileName)
    ensures CleanVideoFilename(fileName) == fileName
  {
    FindCodeMeaning(ToUpper(fileName));
  }

  /** A code has no dot, so anything after it supplies the extension. */
  lemma ExtAfterCode(m: string, e: string)
    requires IsCode(m)
    requires e == [] || IsExt(e)
    ensures Ext(m + e) == e
  {
    var c :| 2 <= c <= 5 && CodeSplit(m, c);
    if e == [] {
      assert m + e == m;
    } else {
      ExtOfSuffix(m + e, e);
    }
  }

  /** A code is all capitals, a dash and digits, so upper-casing leaves it, and its shape, as it is. */
  lemma {:induction false} UpperKeepsCode(m: string, e: string, c: int)
    requires 2 <= c <= 5 && CodeSplit(m, c)
    requires e == [] || !IsDigit(e[0])
    ensures |ToUpper(m + e)| == |m| + |e|
    ensures ToUpper(m + e)[..|m|] == m
    ensures forall j :: 0 <= j < c ==> IsUpper(ToUpper(m + e)[j])
    ensures ToUpper(m + e)[c] == '-'
    ensures forall j :: c < j < |m| ==> IsDigit(ToUpper(m + e)[j])
    ensures |m| == |m + e| || !IsDigit(ToUpper(m + e)[|m|])
  {
    var u := ToUpper(m + e);
    forall j | 0 <= j < |m| ensures u[j] == m[j] {
      assert (m + e)[j] == m[j];
    }
    if e != [] {
      assert (m + e)[|m|] == e[0];
    }
  }

  /** A code followed by anything but a digit is the match `FindCode` finds first. */
  lemma CodeAtHead(m: string, e: string)
    requires IsCode(m)
    requires e == [] || !IsDigit(e[0])
    ensures FindCode(ToUpper(m + e)) == Some(m)
  {
    var u := ToUpper(m + e);
    var c :| 2 <= c <= 5 && CodeSplit(m, c);
    UpperKeepsCode(m, e, c);
    UpperRunIs(u, 0, c);
    DigitRunIs(u, c + 1, |m| - c - 1);
    assert CodeAt(u, 0) == |m|;
  }

  /** Lower-casing keeps a string's extension shape. */
  lemma LowerExt(e: string)
    ensures e == [] ==> ToLower(e) == []
    ensures IsExt(e) ==> IsExt(ToLower(e))
    ensures ToLower(ToLower(e)) == ToLower(e)
  {
  }

  /**
   * A name with a code is cleaned to the leftmost, longest code in its
   * upper-cased form, then its lower-cased extension: the code survives
   * and the extension is kept up to case.
   */
  lemma CleanWithCode(fileName: string)
    requires HasVideoCode(fileName)
    ensures exists m, i :: LeftmostMatch(ToUpper(fileName), m, i)
                        && CleanVideoFilename(fileName) == m + ToLower(Ext(fileName))
    ensures Ext(CleanVideoFilename(fileName)) == ToLower(Ext(fileName))
    ensures HasVideoCode(CleanVideoFilename(fileName))
  {
    var u := ToUpper(fileName);
    FindCodeMeaning(u);
    var m := FindCode(u).value;
    var i :| LeftmostMatch(u, m, i);
    var e := ToLower(Ext(fileName));
    LowerExt(Ext(fileName));
    ExtAfterCode(m, e);
    CodeAtHead(m, e);
  }

  /** Cleaning is idempotent: a cleaned name is a fixed point. */
  lemma CleanIdempotent(fileName: string)
    ensures CleanVideoFilename(CleanVideoFilename(fileName)) == CleanVideoFilename(fileName)
  {
    if HasVideoCode(fileName) {
      var m := FindCode(ToUpper(fileName)).value;
      var e := ToLower(Ext(fileName));
      FindCodeMeaning(ToUpper(fileName));
      LowerExt(Ext(fileName));
      ExtAfterCode(m, e);
      CodeAtHead(m, e);
      LowerExt(e);
    }
  }

  /** A name that starts with a code, not followed by a digit, is cleaned to that code. */
  lemma CleanCodeHead(m: string, rest: string)
    requires IsCode(m)
    requires rest == [] || !IsDigit(rest[0])
    ensures CleanVideoFilename(m + rest) == m + ToLower(Ext(m + rest))
  {
    CodeAtHead(m, rest);
  }

  /**
   * The documented example "xxxSONE-269.mp4" gives "XSONE-269.mp4", not
   * "SONE-269.mp4": no match starts before index 2, and the five-letter run
   * "XSONE" is the longest the pattern accepts.
   */
  lemma CleanExamplePrefix(name: string)
    requires name == "xxxSONE-269.mp4"
    ensures CleanVideoFilename(name) == "XSONE-269" + ".mp4"
  {
    ExtOfSuffix(name, ".mp4");
    UpperExample(name);
    ExampleMatch(ToUpper(name));
    LowerExample(Ext(name));
  }

  lemma UpperExample(name: string)
    requires name == "xxxSONE-269.mp4"
    ensures ToUpper(name) == "XXXSONE-269.MP4"
  {
  }

  lemma LowerExample(e: string)
    requires e == ".mp4"
    ensures ToLower(e) == ".mp4"
  {
  }

  /** In "XXXSONE-269.MP4" the runs from 0 and 1 are too long, and the one from 2 is five capitals. */
  lemma ExampleMatch(u: string)
    requires u == "XXXSONE-269.MP4"
    ensures FindCode(u) == Some("XSONE-269")
  {
    UpperRunIs(u, 0, 7);
    UpperRunIs(u, 1, 6);
    UpperRunIs(u, 2, 5);
    DigitRunIs(u, 8, 3);
    assert CodeAt(u, 0) == 0 && CodeAt(u, 1) == 0;
    assert CodeAt(u, 2) == 9;
    assert FindFrom(u, 0) == FindFrom(u, 1) == FindFrom(u, 2) == Some(2);
    assert u[2..11] == "XSONE-269";
  }

  // ---------------------------------------------------------------------
  // Extension tests
  // ---------------------------------------------------------------------

  /** The extensions `IsVideoFile` accepts, compared case-sensitively. */
  const VideoExts: seq<string> := [".mkv", ".mp4", ".avi", ".mov", ".wmv", ".flv", ".webm", ".m4v", ".ts"]

  function IsVideoFile(path: Path): bool {
    Ext(path) in VideoExts
  }

  lemma VideoExtsAreExts()
    ensures forall i :: 0 <= i < |VideoExts| ==> IsExt(VideoExts[i])
  {
    assert IsExt(".mkv") && IsExt(".mp4") && IsExt(".avi");
    assert IsExt(".mov") && IsExt(".wmv") && IsExt(".flv");
    assert IsExt(".webm") && IsExt(".m4v") && IsExt(".ts");
  }

  /** A path is a video file exactly when it ends with one of the listed extensions. */
  lemma VideoFileBySuffix(path: Path)
    ensures IsVideoFile(path) <==> exists i :: 0 <= i < |VideoExts| && HasSuffix(path, VideoExts[i])
  {
    if exists i :: 0 <= i < |VideoExts| && HasSuffix(path, VideoExts[i]) {
      var i :| 0 <= i < |VideoExts| && HasSuffix(path, VideoExts[i]);
      VideoExtsAreExts();
      ExtOfSuffix(path, VideoExts[i]);
    }
    if IsVideoFile(path) {
      var i :| 0 <= i < |VideoExts| && VideoExts[i] == Ext(path);
      assert HasSuffix(path, VideoExts[i]);
    }
  }

  /** The subtitle-suffix pattern `(?i)-c\.[^.]+$` matches at `j`. */
  predicate SubtitleSuffixAt(s: string, j: int) {
    0 <= j && j + 4 <= |s| && s[j] == '-' && (s[j + 1] == 'c' || s[j + 1] == 'C')
    && s[j + 2] == '.' && forall k :: j + 3 <= k < |s| ==> s[k] != '.'
  }

  /** Index of the last dot, or -1. */
  function LastDot(s: string): (i: int)
    ensures -1 <= i < |s|
    ensures i >= 0 ==> s[i] == '.'
    ensures forall j :: i < j < |s| ==> s[j] != '.'
    decreases |s|
  {
    if s == [] then -1 else if s[|s| - 1] == '.' then |s| - 1 else LastDot(s[..|s| - 1])
  }

  lemma LastDotIs(s: string, k: int)
    requires 0 <= k < |s| && s[k] == '.'
    requires forall j :: k < j < |s| ==> s[j] != '.'
    ensures LastDot(s) == k
    decreases |s|
  {
    if k < |s| - 1 {
      LastDotIs(s[..|s| - 1], k);
    }
  }

  /** `HasSubtitleSuffix`: the final dot follows "-c" or "-C" and is followed by something. */
  function HasSubtitleSuffix(fileName: string): bool {
    var d := LastDot(fileName);
    2 <= d < |fileName| - 1 && fileName[d - 2] == '-' && LowerChar(fileName[d - 1]) == 'c'
  }

  /** `HasSubtitleSuffix` is exactly a match of the pattern somewhere in the name. */
  lemma SubtitleSuffixMatches(fileName: string)
    ensures HasSubtitleSuffix(fileName) <==> exists j :: SubtitleSuffixAt(fileName, j)
  {
    if exists j :: SubtitleSuffixAt(fileName, j) {
      var j :| SubtitleSuffixAt(fileName, j);
      LastDotIs(fileName, j + 2);
    }
    if HasSubtitleSuffix(fileName) {
      assert SubtitleSuffixAt(fileName, LastDot(fileName) - 2);
    }
  }

  lemma SubtitleSuffixExamples()
    ensures HasSubtitleSuffix("SONE-269-C.mp4")
    ensures !HasSubtitleSuffix("SONE-269.mp4")
  {
    LastDotIs("SONE-269-C.mp4", 10);
    LastDotIs("SONE-269.mp4", 8);
  }

  /** `ChangeExtension`: the path up to its final extension, then `newExt`. */
  function ChangeExtension(path: Path, newExt: string): Path {
    path[..|path| - |Ext(path)|] + newExt
  }

  /** Changing to a well-formed extension gives exactly that extension and keeps the stem. */
  lemma ChangeExtensionReplaces(path: Path, newExt: string)
    requires IsExt(newExt)
    ensures Ext(ChangeExtension(path, newExt)) == newExt
    ensures ChangeExtension(path, newExt)[..|path| - |Ext(path)|] == path[..|path| - |Ext(path)|]
    ensures ChangeExtension(ChangeExtension(path, newExt), Ext(path)) == path
  {
    var r := ChangeExtension(path, newExt);
    ExtOfSuffix(r, newExt);
    assert r[..|r| - |newExt|] == path[..|path| - |Ext(path)|];
  }

  // ---------------------------------------------------------------------
  // The file system
  // ---------------------------------------------------------------------

  type Content = string

  /**
   * Files by path; destinations whose directory or file cannot be created;
   * sources that cannot be deleted after a copy.
   */
  datatype Disk = Disk(files: map<Path, Content>, unwritable: set<Path>, sticky: set<Path>)

  function Exists(d: Disk, path: Path): bool {
    path in d.files
  }

  /**
   * `HardlinkOrCopy`: the destination gets the source's content. Linking a
   * file onto itself fails, and the copy then truncates the file before
   * reading it, so it ends up empty.
   */
  function HardlinkOrCopy(d: Disk, src: Path, dst: Path): (r: Result<Disk>)
    ensures r.Failure? <==> dst in d.unwritable || src !in d.files
    ensures r.Success? ==> r.value.files.Keys == d.files.Keys + {dst}
    ensures r.Success? && src != dst ==> r.value.files[dst] == d.files[src] && r.value.files[src] == d.files[src]
    ensures r.Success? ==> forall p :: p in d.files && p != dst ==> r.value.files[p] == d.files[p]
    ensures r.Success? ==> r.value.unwritable == d.unwritable && r.value.sticky == d.sticky
  {
    if dst in d.unwritable then Failure("create dir")
    else if src !in d.files then Failure("copy")
    else if src == dst then Success(d.(files := d.files[dst := []]))
    else Success(d.(files := d.files[dst := d.files[src]]))
  }

  /**
   * `Move`: rename, or copy then delete. The destination holds the source's
   * content; the source is gone unless deleting it failed, which is only
   * logged.
   */
  function Move(d: Disk, src: Path, dst: Path): (r: Result<Disk>)
    ensures r.Failure? <==> dst in d.unwritable || src !in d.files
    ensures r.Success? ==> dst in r.value.files && r.value.files[dst] == d.files[src]
    ensures r.Success? && src != dst ==> (src in r.value.files <==> src in d.sticky)
    ensures r.Success? ==> forall p :: p != src && p != dst ==> (p in r.value.files <==> p in d.files)
    ensures r.Success? ==> forall p :: p in d.files && p != src && p != dst ==> r.value.files[p] == d.files[p]
    ensures r.Success? ==> r.value.unwritable == d.unwritable && r.value.sticky == d.sticky
  {
    if dst in d.unwritable then Failure("create dir")
    else if src !in d.files then Failure("copy for move")
    else if src == dst then Success(d)
    else
      var copied := d.files[dst := d.files[src]];
      Success(d.(files := if src in d.sticky then copied else copied - {src}))
  }

  /** Moving a file away and back restores the file system, when nothing blocks either move. */
  lemma MoveRoundTrip(d: Disk, src: Path, dst: Path)
    requires src in d.files && dst !in d.files && src != dst
    requires src !in d.unwritable && dst !in d.unwritable && dst !in d.sticky && src !in d.sticky
    ensures Move(d, src, dst).Success?
    ensures Move(Move(d, src, dst).value, dst, src) == Success(d)
  {
    var d1 := Move(d, src, dst).value;
    var d2 := Move(d1, dst, src).value;
    assert d2.files == d.files;
  }

  /** `Remove`: deletes one file; fails when it is missing or cannot be deleted. */
  function Remove(d: Disk, path: Path): (r: Result<Disk>)
    ensures r.Failure? <==> path !in d.files || path in d.sticky
    ensures r.Success? ==> r.value.files == d.files - {path}
    ensures r.Success? ==> r.value.unwritable == d.unwritable && r.value.sticky == d.sticky
  {
    if path !in d.files || path in d.sticky then Failure("remove")
    else Success(d.(files := d.files - {path}))
  }

  /** The two cues `WriteDummySubtitle` writes. */
  const DummySubtitle: Content :=
    "1\n00:00:00,000 --> 00:00:05,000\n[Dry run test subtitle]\n\n2\n00:00:05,000 --> 00:00:10,000\nThis is a dummy subtitle for testing the workflow.\n"

  function WriteDummySubtitle(d: Disk, path: Path): (r: Result<Disk>)
    ensures r.Failure? <==> path in d.unwritable
    ensures r.Success? ==> r.value.files == d.files[path := DummySubtitle]
    ensures r.Success? ==> r.value.unwritable == d.unwritable && r.value.sticky == d.sticky
  {
    if path in d.unwritable then Failure("write") else Success(d.(files := d.files[path := DummySubtitle]))
  }

  // ---------------------------------------------------------------------
  // Walking a folder and choosing its video
  // ---------------------------------------------------------------------

  /** One step of `filepath.Walk`: a file, a folder, or an error reported for a path. */
  datatype Visit = File(path: Path) | Folder(path: Path) | Broken(cause: string)

  /** The video files a walk reports before its first error, in walk order. */
  function WalkVideos(vs: seq<Visit>): seq<Path>
    decreases |vs|
  {
    if vs == [] then []
    else match vs[0]
      case Broken(_) => []
      case Folder(_) => WalkVideos(vs[1..])
      case File(p) => (if IsVideoFile(p) then [p] else []) + WalkVideos(vs[1..])
  }

  /** The first error of a walk, which ends it. */
  function WalkError(vs: seq<Visit>): Option<string>
    decreases |vs|
  {
    if vs == [] then None
    else if vs[0].Broken? then Some(vs[0].cause)
    else WalkError(vs[1..])
  }

  /** Index of the first error, or the walk's length. */
  function FirstBroken(vs: seq<Visit>): (n: nat)
    ensures n <= |vs|
    ensures forall i :: 0 <= i < n ==> !vs[i].Broken?
    ensures n < |vs| ==> vs[n].Broken?
    decreases |vs|
  {
    if vs == [] || vs[0].Broken? then 0 else 1 + FirstBroken(vs[1..])
  }

  /** A path is reported exactly when it is a video file visited before the first error. */
  lemma {:induction false} WalkVideosMembers(vs: seq<Visit>, p: Path)
    ensures p in WalkVideos(vs) <==> exists i :: 0 <= i < FirstBroken(vs) && vs[i] == File(p) && IsVideoFile(p)
    ensures WalkError(vs).Some? <==> FirstBroken(vs) < |vs|
    decreases |vs|
  {
    if vs != [] && !vs[0].Broken? {
      WalkVideosMembers(vs[1..], p);
      if exists i :: 0 <= i < FirstBroken(vs) && vs[i] == File(p) && IsVideoFile(p) {
        var i :| 0 <= i < FirstBroken(vs) && vs[i] == File(p) && IsVideoFile(p);
        if i > 0 {
          assert vs[1..][i - 1] == File(p);
        }
      }
      if p in WalkVideos(vs[1..]) {
        var i :| 0 <= i < FirstBroken(vs[1..]) && vs[1..][i] == File(p) && IsVideoFile(p);
        assert vs[i + 1] == File(p);
      }
    }
  }

  /** Every reported path is a video file. */
  lemma {:induction false} WalkVideosAreVideos(vs: seq<Visit>)
    ensures forall i :: 0 <= i < |WalkVideos(vs)| ==> IsVideoFile(WalkVideos(vs)[i])
    decreases |vs|
  {
    if vs != [] && !vs[0].Broken? {
      WalkVideosAreVideos(vs[1..]);
    }
  }

  /** `FindVideoFiles`: the callback appends every non-folder with a video extension. */
  method FindVideoFiles(vs: seq<Visit>) returns (videos: seq<Path>, err: Option<string>)
    ensures videos == WalkVideos(vs)
    ensures err == WalkError(vs)
  {
    videos := [];
    var i := 0;
    while i < |vs|
      invariant 0 <= i <= |vs|
      invariant videos + WalkVideos(vs[i..]) == WalkVideos(vs)
      invariant WalkError(vs[i..]) == WalkError(vs)
    {
      assert vs[i..][1..] == vs[i + 1..];
      match vs[i] {
        case Broken(cause) =>
          err := Some(cause);
          assert WalkVideos(vs[i..]) == [];
          return;
        case Folder(_) =>
        case File(p) =>
          if IsVideoFile(p) {
            videos := videos + [p];
          }
      }
      i := i + 1;
    }
    assert vs[i..] == [];
    err := None;
  }

  /** The name test `FindValidVideoFile` applies: a code in the file's base name. */
  function CodeNamed(path: Path): bool {
    HasVideoCode(Base(path))
  }

  /** A candidate the selection accepts: it passes the name test and has a known size above the minimum. */
  predicate Qualifies(path: Path, sizes: map<Path, int>, named: Path -> bool) {
    named(path) && path in sizes && sizes[path] > MinVideoSize
  }

  /** Candidate `i` qualifies, is the largest that does, and no earlier one is as large. */
  predicate LargestFirst(videos: seq<Path>, sizes: map<Path, int>, named: Path -> bool, i: int) {
    0 <= i < |videos| && Qualifies(videos[i], sizes, named)
    && (forall j :: 0 <= j < |videos| && Qualifies(videos[j], sizes, named) ==> sizes[videos[j]] <= sizes[videos[i]])
    && (forall j :: 0 <= j < i && Qualifies(videos[j], sizes, named) ==> sizes[videos[j]] < sizes[videos[i]])
  }

  const NoValidVideo := "no valid video file found (need code pattern + size > 200MB)"

  /**
   * The selection loop of `FindValidVideoFile`: keep the first candidate of
   * strictly largest size among those that qualify; the empty path marks
   * "none yet". `sizes` is what `os.Stat` reports; a path missing from it
   * could not be examined and is skipped.
   */
  method SelectLargest(videos: seq<Path>, sizes: map<Path, int>, named: Path -> bool) returns (r: Result<Path>)
    requires forall j :: 0 <= j < |videos| ==> videos[j] != []
    ensures r.Failure? <==> forall j :: 0 <= j < |videos| ==> !Qualifies(videos[j], sizes, named)
    ensures r.Failure? ==> r.error == NoValidVideo
    ensures r.Success? ==> exists i :: LargestFirst(videos, sizes, named, i) && videos[i] == r.value
  {
    var bestPath: Path := "";
    var bestSize := 0;
    ghost var best := -1;
    var i := 0;
    while i < |videos|
      invariant 0 <= i <= |videos|
      invariant -1 <= best < i
      invariant best < 0 <==> forall j :: 0 <= j < i ==> !Qualifies(videos[j], sizes, named)
      invariant best < 0 ==> bestPath == [] && bestSize == 0
      invariant best >= 0 ==> bestPath == videos[best] && Qualifies(bestPath, sizes, named) && bestSize == sizes[bestPath]
      invariant forall j :: 0 <= j < i && Qualifies(videos[j], sizes, named) ==> sizes[videos[j]] <= bestSize
      invariant forall j :: 0 <= j < best && Qualifies(videos[j], sizes, named) ==> sizes[videos[j]] < bestSize
    {
      var path := videos[i];
      if named(path) && path in sizes {
        var size := sizes[path];
        if size > MinVideoSize && size > bestSize {
          bestPath := path;
          bestSize := size;
          best := i;
        }
      }
      i := i + 1;
    }
    if bestPath == "" {
      return Failure(NoValidVideo);
    }
    assert LargestFirst(videos, sizes, named, best);
    r := Success(bestPath);
  }

  /**
   * `FindValidVideoFile`: walk the folder, then select among its video files
   * those whose name holds a code.
   */
  method FindValidVideoFile(vs: seq<Visit>, sizes: map<Path, int>) returns (r: Result<Path>)
    ensures r.Failure? <==> WalkError(vs).Some? || forall j :: 0 <= j < |WalkVideos(vs)| ==> !Qualifies(WalkVideos(vs)[j], sizes, CodeNamed)
    ensures r.Success? ==> exists i :: LargestFirst(WalkVideos(vs), sizes, CodeNamed, i) && WalkVideos(vs)[i] == r.value
  {
    var videos, err := FindVideoFiles(vs);
    if err.Some? {
      return Failure(err.value);
    }
    WalkVideosAreVideos(vs);
    r := SelectLargest(videos, sizes, CodeNamed);
  }
}
