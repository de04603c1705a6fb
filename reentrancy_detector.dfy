/** `ReentrancyDetector` of src/detectors/reentrancy.py: value-carrying
    external calls with no guard marker up to the call line, and
    `tx.origin ==` comparisons. */
module ReentrancyDetector {
  import opened Wrappers
  import opened Text
  import opened Patterns
  import opened Findings

  const Name := "Reentrancy Detector"

  /** `_check_reentrancy_guard`: searches the given lines joined by line
      feeds; since neither marker spans a line, that is a search line by line. */
  function CheckReentrancyGuard(linesBeforeCall: seq<string>): (r: bool)
    ensures r <==> exists k | 0 <= k < |linesBeforeCall| :: GuardLine(linesBeforeCall[k])
  {
    ContainsJoin(linesBeforeCall, "nonReentrant");
    ContainsThenJoin(linesBeforeCall, "import", "ReentrancyGuard");
    var before := Join(linesBeforeCall, '\n');
    Contains(before, "nonReentrant") || ContainsThen(before, "import", "ReentrancyGuard")
  }

  function ReentrancyFinding(path: string, i: nat, line: string): Finding {
    Finding(Some(path), Some(i), Some("reentrancy"), Some("High"),
      Some("潜在重入漏洞"),
      Some("检测到外部调用，未明确使用重入保护"),
      Some(Strip(line)),
      Some("使用Checks-Effects-Interactions模式或ReentrancyGuard修饰器"))
  }

  function TxOriginFinding(path: string, i: nat, line: string): Finding {
    Finding(Some(path), Some(i), Some("access_control"), Some("High"),
      Some("使用tx.origin进行授权"),
      Some("使用tx.origin进行身份验证容易受到钓鱼攻击"),
      Some(Strip(line)),
      Some("使用msg.sender代替tx.origin"))
  }

  /** Line i of the first pass: a call with no guard in lines 1..i. */
  function CallAtLine(path: string, lines: seq<string>, i: nat): Option<Finding> {
    if 1 <= i <= |lines| && CallPattern(lines[i - 1]) && !CheckReentrancyGuard(lines[..i])
    then Some(ReentrancyFinding(path, i, lines[i - 1]))
    else None
  }

  /** Line i of the second pass. */
  function TxOriginAtLine(path: string, lines: seq<string>, i: nat): Option<Finding> {
    if 1 <= i <= |lines| && TxOriginPattern(lines[i - 1])
    then Some(TxOriginFinding(path, i, lines[i - 1]))
    else None
  }

  function CallCheck(path: string, lines: seq<string>): nat -> Option<Finding> {
    (i: nat) => CallAtLine(path, lines, i)
  }

  function TxOriginCheck(path: string, lines: seq<string>): nat -> Option<Finding> {
    (i: nat) => TxOriginAtLine(path, lines, i)
  }

  function CallFindings(path: string, lines: seq<string>): seq<Finding> {
    Scan(|lines|, CallCheck(path, lines))
  }

  function TxOriginFindings(path: string, lines: seq<string>): seq<Finding> {
    Scan(|lines|, TxOriginCheck(path, lines))
  }

  /** What `_analyze_file` returns for the given lines: every call finding,
      then every `tx.origin` finding. */
  function Analysis(path: string, lines: seq<string>): seq<Finding> {
    CallFindings(path, lines) + TxOriginFindings(path, lines)
  }

  /** `_analyze_file(file_path, content)`: splits the content into lines
      and runs the two passes one after the other. */
  method AnalyzeFile(path: string, content: string) returns (findings: seq<Finding>)
    ensures findings == Analysis(path, Split(content, '\n'))
  {
    var lines := Split(content, '\n');
    var calls := CallPass(path, lines);
    var origins := TxOriginPass(path, lines);
    findings := calls + origins;
  }

  /** The first loop of `_analyze_file`: line by line, a call with no guard
      marker in the lines up to and including it. */
  method CallPass(path: string, lines: seq<string>) returns (findings: seq<Finding>)
    ensures findings == CallFindings(path, lines)
  {
    findings := [];
    for i := 1 to |lines| + 1
      invariant findings == Scan(i - 1, CallCheck(path, lines))
    {
      var finding := CallAtLine(path, lines, i);
      if finding.Some? {
        findings := findings + [finding.value];
      }
    }
  }

  /** The second loop of `_analyze_file`: every `tx.origin` comparison. */
  method TxOriginPass(path: string, lines: seq<string>) returns (findings: seq<Finding>)
    ensures findings == TxOriginFindings(path, lines)
  {
    findings := [];
    for i := 1 to |lines| + 1
      invariant findings == Scan(i - 1, TxOriginCheck(path, lines))
    {
      var finding := TxOriginAtLine(path, lines, i);
      if finding.Some? {
        findings := findings + [finding.value];
      }
    }
  }

  /** A guard marker somewhere in lines 1..i. */
  ghost predicate GuardUpTo(lines: seq<string>, i: int) {
    exists k | 0 <= k < i && k < |lines| :: GuardLine(lines[k])
  }

  /** Line i has a `reentrancy`/`High` finding exactly when it holds a
      brace-form value call and no line among 1..i (the call line included)
      holds a guard marker; it never has two. */
  lemma CallFindingsAtLine(path: string, lines: seq<string>, i: int)
    ensures AtLine(CallFindings(path, lines), i) ==
      if 1 <= i <= |lines| && CallPattern(lines[i - 1]) && !GuardUpTo(lines, i)
      then [ReentrancyFinding(path, i, lines[i - 1])]
      else []
  {
    var check := CallCheck(path, lines);
    CallsTagged(path, lines);
    ScanAtLine(|lines|, check, i);
    if 1 <= i <= |lines| {
      GuardPrefix(lines, i);
    }
  }

  /** The guard check of line i looks at lines 1..i. */
  lemma GuardPrefix(lines: seq<string>, i: int)
    requires 1 <= i <= |lines|
    ensures CheckReentrancyGuard(lines[..i]) <==> GuardUpTo(lines, i)
  {
    var before := lines[..i];
    assert forall k | 0 <= k < i :: before[k] == lines[k];
  }

  lemma CallsTagged(path: string, lines: seq<string>)
    ensures Tagged(|lines|, CallCheck(path, lines))
  {
  }

  /** Guard monotonicity: a guard marker on line k silences every call on
      line k or after. */
  lemma GuardSilencesLaterCalls(path: string, lines: seq<string>, k: int, i: int)
    requires 1 <= k <= i && k <= |lines|
    requires GuardLine(lines[k - 1])
    ensures AtLine(CallFindings(path, lines), i) == []
  {
    CallFindingsAtLine(path, lines, i);
    assert GuardUpTo(lines, i);
  }

  /** A file without a brace-form value call has no `reentrancy` finding. */
  lemma NoCallNoFinding(path: string, lines: seq<string>)
    requires forall k | 0 <= k < |lines| :: !CallPattern(lines[k])
    ensures CallFindings(path, lines) == []
  {
    var check := CallCheck(path, lines);
    if CallFindings(path, lines) != [] {
      var f := CallFindings(path, lines)[0];
      ScanMembers(|lines|, check, f);
      assert false;
    }
  }

  /** Every line matching `tx\.origin\s*==\s*\w+` has an `access_control`/
      `High` finding, whatever guards the file holds, and no other line has one. */
  lemma TxOriginFindingsAtLine(path: string, lines: seq<string>, i: int)
    ensures AtLine(TxOriginFindings(path, lines), i) ==
      if 1 <= i <= |lines| && TxOriginPattern(lines[i - 1])
      then [TxOriginFinding(path, i, lines[i - 1])]
      else []
  {
    var check := TxOriginCheck(path, lines);
    assert Tagged(|lines|, check);
    ScanAtLine(|lines|, check, i);
  }

  /** Both passes report in ascending line order within 1..|lines|; the
      first pass holds only `reentrancy`/`High` findings, the second only
      `access_control`/`High` ones. */
  lemma AnalysisOrder(path: string, lines: seq<string>)
    ensures LinesAscending(CallFindings(path, lines))
    ensures LinesAscending(TxOriginFindings(path, lines))
    ensures forall f | f in CallFindings(path, lines) ::
      f.kind == Some("reentrancy") && f.severity == Some("High") && 1 <= f.line.value <= |lines|
    ensures forall f | f in TxOriginFindings(path, lines) ::
      f.kind == Some("access_control") && f.severity == Some("High") && 1 <= f.line.value <= |lines|
  {
    var c, t := CallCheck(path, lines), TxOriginCheck(path, lines);
    assert Tagged(|lines|, c);
    assert Tagged(|lines|, t);
    ScanAscending(|lines|, c);
    ScanAscending(|lines|, t);
    forall f | f in CallFindings(path, lines)
      ensures f.kind == Some("reentrancy") && f.severity == Some("High") && 1 <= f.line.value <= |lines|
    {
      ScanMembers(|lines|, c, f);
    }
    forall f | f in TxOriginFindings(path, lines)
      ensures f.kind == Some("access_control") && f.severity == Some("High") && 1 <= f.line.value <= |lines|
    {
      ScanMembers(|lines|, t, f);
    }
  }
}
