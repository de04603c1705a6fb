/** `IntegerOverflowDetector` of src/detectors/reentrancy.py: the first
    `pragma solidity` line decides between one redundant-SafeMath note and
    a line-by-line scan for unprotected arithmetic. */
module IntegerOverflowDetector {
  import opened Wrappers
  import opened Text
  import opened Patterns
  import opened Findings

  const Name := "Integer Overflow Detector"

  /** The first capture of the version pattern among `lines[k..]`. */
  function FirstPragmaFrom(lines: seq<string>, k: nat): Option<string>
    requires k <= |lines|
    decreases |lines| - k
  {
    if k == |lines| then None
    else if PragmaCapture(lines[k]).Some? then PragmaCapture(lines[k])
    else FirstPragmaFrom(lines, k + 1)
  }

  /** The version the first loop of `_analyze_file` settles on: the capture
      on the first line that matches, or None. */
  function FirstPragma(lines: seq<string>): Option<string> {
    FirstPragmaFrom(lines, 0)
  }

  /** The search settles on the capture of the first matching line at or
      after k, and finds nothing exactly when no line there matches. */
  lemma {:induction false} FirstPragmaFromSpec(lines: seq<string>, k: nat)
    requires k <= |lines|
    ensures var r := FirstPragmaFrom(lines, k);
      (r.None? <==> forall j | k <= j < |lines| :: PragmaCapture(lines[j]).None?) &&
      (r.Some? ==> exists j | k <= j < |lines| ::
         PragmaCapture(lines[j]) == r && forall j' | k <= j' < j :: PragmaCapture(lines[j']).None?)
    decreases |lines| - k
  {
    if k < |lines| && PragmaCapture(lines[k]).None? {
      FirstPragmaFromSpec(lines, k + 1);
      var r := FirstPragmaFrom(lines, k);
      if r.Some? {
        var j :| k + 1 <= j < |lines| && PragmaCapture(lines[j]) == r &&
          forall j' | k + 1 <= j' < j :: PragmaCapture(lines[j']).None?;
        assert forall j' | k <= j' < j :: PragmaCapture(lines[j']).None?;
      }
    }
  }

  /** Only the first matching line counts, and the version found is a
      non-empty run of digits and dots. */
  lemma FirstPragmaSpec(lines: seq<string>)
    ensures var r := FirstPragma(lines);
      (r.None? <==> forall j | 0 <= j < |lines| :: PragmaCapture(lines[j]).None?) &&
      (r.Some? ==> exists j | 0 <= j < |lines| ::
         PragmaCapture(lines[j]) == r && forall j' | 0 <= j' < j :: PragmaCapture(lines[j']).None?) &&
      (r.Some? ==> |r.value| > 0 && forall i | 0 <= i < |r.value| :: IsVersionChar(r.value[i]))
  {
    FirstPragmaFromSpec(lines, 0);
    var r := FirstPragma(lines);
    if r.Some? {
      var j :| 0 <= j < |lines| && PragmaCapture(lines[j]) == r;
      PragmaCaptureChars(lines[j]);
    }
  }

  /** The version loop, which stops at the first matching line. */
  method FindVersion(lines: seq<string>) returns (version: Option<string>)
    ensures version == FirstPragma(lines)
  {
    version := None;
    var i := 0;
    while i < |lines|
      invariant 0 <= i <= |lines|
      invariant FirstPragma(lines) == FirstPragmaFrom(lines, i)
      invariant version == None
    {
      var m := PragmaCapture(lines[i]);
      if m.Some? {
        version := m;
        break;
      }
      i := i + 1;
    }
  }

  /** `int(solidity_version.split('.')[0])`: the digits before the first dot,
      or the `ValueError` `int` raises for any other text. */
  function Major(version: string): Result<nat, string> {
    var head := Split(version, '.')[0];
    if head != [] && AllDigits(head) then Success(ParseDigits(head))
    else Failure("invalid literal for int() with base 10: '" + head + "'")
  }

  /** On a version capture, `int` fails exactly when the capture starts with
      a dot, raising for the empty string; otherwise the major version is the
      number written before the first dot. */
  lemma MajorSpec(version: string)
    requires forall i | 0 <= i < |version| :: IsVersionChar(version[i])
    ensures Major(version).Failure? <==> version == [] || version[0] == '.'
    ensures Major(version).Failure? ==> Major(version).error == IntError
    ensures var head := version[..IndexFrom(version, 0, '.')];
      AllDigits(head) && (Major(version).Success? ==> Major(version).value == ParseDigits(head))
  {
    SplitHead(version, '.');
    var j := IndexFrom(version, 0, '.');
    assert AllDigits(version[..j]) by {
      forall i | 0 <= i < j ensures IsDigit(version[..j][i]) {
        assert version[..j][i] == version[i];
      }
    }
    if version != [] && version[0] == '.' {
      assert j == 0;
    }
  }

  /** The message of the `ValueError` that `int('')` raises. */
  const IntError := "invalid literal for int() with base 10: ''"

  /** The note emitted when a 0.8-or-later pragma meets a SafeMath import. */
  function SafeMathFinding(path: string, version: string): Finding {
    Finding(Some(path), Some(1), Some("integer_overflow"), Some("Low"),
      Some("可能不需要SafeMath"),
      Some("Solidity " + version + "+ 已内置溢出检查，SafeMath可能是多余的"),
      None,
      Some("考虑移除SafeMath以节省gas，或保留以保持代码清晰"))
  }

  function ArithFinding(path: string, i: nat, line: string): Finding {
    Finding(Some(path), Some(i), Some("integer_overflow"), Some("High"),
      Some("潜在的整数溢出/下溢"),
      Some("检测到算术操作，未使用SafeMath保护"),
      Some(Strip(line)),
      Some("使用SafeMath库或升级到Solidity 0.8.0+"))
  }

  /** Line i of the arithmetic scan: not a comment, some arithmetic
      pattern matches, and no SafeMath call. */
  function ArithAtLine(path: string, lines: seq<string>, i: nat): Option<Finding> {
    if 1 <= i <= |lines| && !IsCommentLine(lines[i - 1]) && AnyArith(lines[i - 1]) &&
       !SafeMathCall(lines[i - 1])
    then Some(ArithFinding(path, i, lines[i - 1]))
    else None
  }

  function ArithCheck(path: string, lines: seq<string>): nat -> Option<Finding> {
    (i: nat) => ArithAtLine(path, lines, i)
  }

  function ArithFindings(path: string, lines: seq<string>): seq<Finding> {
    Scan(|lines|, ArithCheck(path, lines))
  }

  /** What `_analyze_file` returns for the given lines, with a failure for
      the `ValueError` of a capture that starts with a dot. The SafeMath
      import is searched in the whole text, which is the lines joined by
      line feeds. */
  function Analysis(path: string, lines: seq<string>): Result<seq<Finding>, string> {
    var version := FirstPragma(lines);
    if version.None? then Success(ArithFindings(path, lines))
    else
      var major := Major(version.value);
      if major.Failure? then Failure(major.error)
      else if major.value >= 8 then
        Success(if ImportsSafeMath(Join(lines, '\n')) then [SafeMathFinding(path, version.value)] else [])
      else Success(ArithFindings(path, lines))
  }

  /** The body of the arithmetic loop for line i: a comment line is skipped;
      otherwise the eight patterns are tried in order and the first that
      matches decides, reporting the line unless it calls SafeMath. */
  method ArithLine(path: string, lines: seq<string>, i: nat) returns (finding: Option<Finding>)
    requires 1 <= i <= |lines|
    ensures finding == ArithAtLine(path, lines, i)
  {
    var line := lines[i - 1];
    finding := None;
    if IsCommentLine(line) {
      return;
    }
    var k := 0;
    while k < 8
      invariant 0 <= k <= 8
      invariant forall j | 0 <= j < k :: !ArithMatch(j, line)
      invariant finding == None
    {
      if ArithMatch(k, line) {
        if !SafeMathCall(line) {
          finding := Some(ArithFinding(path, i, line));
        }
        break;
      }
      k := k + 1;
    }
  }

  /** The arithmetic loop of `_analyze_file`. */
  method ArithPass(path: string, lines: seq<string>) returns (findings: seq<Finding>)
    ensures findings == ArithFindings(path, lines)
  {
    findings := [];
    for i := 1 to |lines| + 1
      invariant findings == Scan(i - 1, ArithCheck(path, lines))
    {
      var finding := ArithLine(path, lines, i);
      if finding.Some? {
        findings := findings + [finding.value];
      }
    }
  }

  /** `_analyze_file(file_path, content)`; `int('')` raising becomes a failure. */
  method AnalyzeFile(path: string, content: string) returns (r: Result<seq<Finding>, string>)
    ensures r == Analysis(path, Split(content, '\n'))
  {
    var lines := Split(content, '\n');
    var version := FindVersion(lines);
    if version.Some? {
      var major := Major(version.value);
      if major.Failure? {
        return Failure(major.error);
      }
      if major.value >= 8 {
        JoinSplit(content, '\n');
        var findings := [];
        if ImportsSafeMath(content) {
          findings := [SafeMathFinding(path, version.value)];
        }
        return Success(findings);
      }
    }
    var scan := ArithPass(path, lines);
    return Success(scan);
  }

  /** The failure happens exactly when the first capture starts with a dot,
      and it is the `ValueError` of `int('')`. */
  lemma VersionError(path: string, lines: seq<string>)
    ensures Analysis(path, lines).Failure? <==>
      FirstPragma(lines).Some? && StartsWith(FirstPragma(lines).value, ".")
    ensures Analysis(path, lines).Failure? ==> Analysis(path, lines).error == IntError
  {
    FirstPragmaSpec(lines);
    if FirstPragma(lines).Some? {
      MajorSpec(FirstPragma(lines).value);
    }
  }

  /** A modern pragma gives no scan: nothing, or one `Low` note at line 1
      without a snippet, exactly when some line imports SafeMath. */
  lemma ModernVersion(path: string, lines: seq<string>, version: string, major: nat)
    requires FirstPragma(lines) == Some(version)
    requires Major(version) == Success(major) && major >= 8
    ensures Analysis(path, lines).Success?
    ensures var fs := Analysis(path, lines).value;
      |fs| <= 1 &&
      (fs != [] <==> exists k | 0 <= k < |lines| :: ImportsSafeMath(lines[k])) &&
      forall f | f in fs ::
        f == SafeMathFinding(path, version) && f.line == Some(1) &&
        f.severity == Some("Low") && f.codeSnippet.None?
  {
    ContainsThenJoin(lines, "import", "SafeMath");
  }

  /** No pragma, or a major version below 8, leads to the arithmetic scan. */
  lemma LegacyScan(path: string, lines: seq<string>)
    requires FirstPragma(lines).None? ||
      (Major(FirstPragma(lines).value).Success? && Major(FirstPragma(lines).value).value < 8)
    ensures Analysis(path, lines) == Success(ArithFindings(path, lines))
  {
  }

  /** A dotted `0.x` capture, such as `0.8.19`, has major version 0 and so
      goes to the arithmetic scan. */
  lemma ZeroMajorScans(path: string, lines: seq<string>)
    requires FirstPragma(lines).Some?
    requires var v := FirstPragma(lines).value; |v| >= 2 && v[0] == '0' && v[1] == '.'
    ensures Analysis(path, lines) == Success(ArithFindings(path, lines))
  {
    var v := FirstPragma(lines).value;
    SplitHead(v, '.');
    assert IndexFrom(v, 0, '.') == 1;
    assert Split(v, '.')[0] == "0";
    assert ParseDigits("0") == 0;
    assert Major(v) == Success(0);
  }

  /** The major version is the number written before the first dot. */
  lemma MajorOfNumber(n: nat, rest: string)
    requires rest == [] || rest[0] == '.'
    requires forall i | 0 <= i < |rest| :: IsVersionChar(rest[i])
    ensures forall i | 0 <= i < |NatToString(n) + rest| :: IsVersionChar((NatToString(n) + rest)[i])
    ensures Major(NatToString(n) + rest) == Success(n)
  {
    var v := NatToString(n) + rest;
    var d := NatToString(n);
    SplitHead(v, '.');
    assert v[..|d|] == d;
    assert forall i | 0 <= i < |d| :: v[i] == d[i] && IsDigit(d[i]);
    if rest != [] {
      assert v[|d|] == '.';
    }
    assert IndexFrom(v, 0, '.') == |d|;
    ParseNatToString(n);
  }

  /** Line i of the scan has a finding exactly when it is not a comment,
      matches an arithmetic pattern and has no SafeMath call; never two. */
  lemma ArithFindingsAtLine(path: string, lines: seq<string>, i: int)
    ensures AtLine(ArithFindings(path, lines), i) ==
      if 1 <= i <= |lines| && !IsCommentLine(lines[i - 1]) && AnyArith(lines[i - 1]) &&
         !SafeMathCall(lines[i - 1])
      then [ArithFinding(path, i, lines[i - 1])]
      else []
  {
    var check := ArithCheck(path, lines);
    assert Tagged(|lines|, check);
    ScanAtLine(|lines|, check, i);
  }

  /** The scan reports `integer_overflow`/`High` findings in ascending line
      order, each at a line within 1..|lines|. */
  lemma ArithOrder(path: string, lines: seq<string>)
    ensures LinesAscending(ArithFindings(path, lines))
    ensures forall f | f in ArithFindings(path, lines) ::
      f.kind == Some("integer_overflow") && f.severity == Some("High") &&
      1 <= f.line.value <= |lines|
  {
    var c := ArithCheck(path, lines);
    assert Tagged(|lines|, c);
    ScanAscending(|lines|, c);
    forall f | f in ArithFindings(path, lines)
      ensures f.kind == Some("integer_overflow") && f.severity == Some("High") &&
        1 <= f.line.value <= |lines|
    {
      ScanMembers(|lines|, c, f);
    }
  }
}
