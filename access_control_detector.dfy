/** `AccessControlDetector` of src/detectors/reentrancy.py: public or
    external functions with a sensitive name and no permission modifier,
    then constructors whose parameters are never checked. */
module AccessControlDetector {
  import opened Wrappers
  import opened Text
  import opened Patterns
  import opened Findings

  const Name := "Access Control Detector"

  function FunctionFinding(path: string, i: nat, line: string, name: string): Finding {
    Finding(Some(path), Some(i), Some("access_control"), Some("High"),
      Some("缺失权限检查"),
      Some("函数 " + name + " 看起来需要权限保护但没有修饰器"),
      Some(Strip(line)),
      Some("添加onlyOwner或适当的访问控制修饰器"))
  }

  function ConstructorFinding(path: string, i: nat, line: string): Finding {
    Finding(Some(path), Some(i), Some("access_control"), Some("Medium"),
      Some("构造函数参数未验证"),
      Some("构造函数参数可能需要验证"),
      Some(Strip(line)),
      Some("添加参数验证逻辑"))
  }

  /** Line i of the function pass: a function pattern matches, the line is
      public or external and has no modifier, and the lower-cased first name
      after `function` holds a sensitive keyword. */
  function FunctionAtLine(path: string, lines: seq<string>, i: nat): Option<Finding> {
    if 1 <= i <= |lines| && AnyFunction(lines[i - 1]) && IsPublic(lines[i - 1]) &&
       !HasModifier(lines[i - 1]) && FunctionName(lines[i - 1]).Some? &&
       IsSensitive(Lower(FunctionName(lines[i - 1]).value))
    then Some(FunctionFinding(path, i, lines[i - 1], Lower(FunctionName(lines[i - 1]).value)))
    else None
  }

  /** The lines the constructor check looks at after line i:
      `lines[i:min(i+5, len(lines))]`, that is lines i+1..i+5. */
  function Window(lines: seq<string>, i: nat): seq<string>
    requires i <= |lines|
  {
    lines[i..if i + 5 < |lines| then i + 5 else |lines|]
  }

  /** Line i of the constructor pass: a constructor with non-empty parameter
      text, where neither that text nor the following lines joined by line
      feeds contain `require` or `if`. */
  function ConstructorAtLine(path: string, lines: seq<string>, i: nat): Option<Finding> {
    if 1 <= i <= |lines| && ConstructorParams(lines[i - 1]).Some? then
      var params := ConstructorParams(lines[i - 1]).value;
      var next := Join(Window(lines, i), '\n');
      if params != [] && !Contains(params, "require") && !Contains(params, "if") &&
         !Contains(next, "require") && !Contains(next, "if")
      then Some(ConstructorFinding(path, i, lines[i - 1]))
      else None
    else None
  }

  function FunctionCheck(path: string, lines: seq<string>): nat -> Option<Finding> {
    (i: nat) => FunctionAtLine(path, lines, i)
  }

  function ConstructorCheck(path: string, lines: seq<string>): nat -> Option<Finding> {
    (i: nat) => ConstructorAtLine(path, lines, i)
  }

  function FunctionFindings(path: string, lines: seq<string>): seq<Finding> {
    Scan(|lines|, FunctionCheck(path, lines))
  }

  function ConstructorFindings(path: string, lines: seq<string>): seq<Finding> {
    Scan(|lines|, ConstructorCheck(path, lines))
  }

  /** What `_analyze_file` returns for the given lines: the function
      findings, then the constructor findings. */
  function Analysis(path: string, lines: seq<string>): seq<Finding> {
    FunctionFindings(path, lines) + ConstructorFindings(path, lines)
  }

  /** The body of the function loop for line i: the six patterns are tried
      in order, and the first that matches decides. */
  method FunctionLine(path: string, lines: seq<string>, i: nat) returns (finding: Option<Finding>)
    requires 1 <= i <= |lines|
    ensures finding == FunctionAtLine(path, lines, i)
    ensures finding == FunctionCheck(path, lines)(i)
  {
    var line := lines[i - 1];
    finding := None;
    var k := 0;
    while k < 6
      invariant 0 <= k <= 6
      invariant forall j | 0 <= j < k :: !FunctionMatch(j, line)
      invariant finding == None
    {
      if FunctionMatch(k, line) {
        var hasModifier := HasModifier(line);
        var isPublic := IsPublic(line);
        if isPublic && !hasModifier {
          var nameMatch := FunctionName(line);
          if nameMatch.Some? {
            var name := Lower(nameMatch.value);
            if IsSensitive(name) {
              finding := Some(FunctionFinding(path, i, line, name));
            }
          }
        }
        break;
      }
      k := k + 1;
    }
  }

  /** The first loop of `_analyze_file`. */
  method FunctionPass(path: string, lines: seq<string>) returns (findings: seq<Finding>)
    ensures findings == FunctionFindings(path, lines)
  {
    findings := [];
    ghost var check := FunctionCheck(path, lines);
    for i := 1 to |lines| + 1
      invariant findings == Scan(i - 1, check)
    {
      var finding := FunctionLine(path, lines, i);
      ScanNext(i, check, finding);
      if finding.Some? {
        findings := findings + [finding.value];
      }
    }
  }

  /** The second loop of `_analyze_file`. */
  method ConstructorPass(path: string, lines: seq<string>) returns (findings: seq<Finding>)
    ensures findings == ConstructorFindings(path, lines)
  {
    findings := [];
    for i := 1 to |lines| + 1
      invariant findings == Scan(i - 1, ConstructorCheck(path, lines))
    {
      var finding := ConstructorAtLine(path, lines, i);
      if finding.Some? {
        findings := findings + [finding.value];
      }
    }
  }

  /** `_analyze_file(file_path, content)` */
  method AnalyzeFile(path: string, content: string) returns (findings: seq<Finding>)
    ensures findings == Analysis(path, Split(content, '\n'))
  {
    var lines := Split(content, '\n');
    var functions := FunctionPass(path, lines);
    var constructors := ConstructorPass(path, lines);
    findings := functions + constructors;
  }

  lemma GenericFunctionHasName(line: string, p: nat)
    requires GenericFunctionAt(line, p)
    ensures FunctionNameAt(line, p).Some?
  {
  }

  lemma NamedFunctionHasName(line: string, p: nat, name: string)
    requires name in NamedFunctions && NamedFunctionAt(line, p, name)
    ensures FunctionNameAt(line, p).Some?
  {
    var j := SkipSpace(line, p + 8);
    assert IsWordChar(name[0]);
    assert line[j] == name[0];
  }

  /** Some match of `function\s+\w+` starts at an index of the line. */
  lemma FunctionMatchHasName(line: string, k: nat) returns (p: nat)
    requires k < 6 && FunctionMatch(k, line)
    ensures p <= |line| && FunctionNameAt(line, p).Some?
  {
    if k == 0 {
      p :| 0 <= p < |line| && GenericFunctionAt(line, p);
      GenericFunctionHasName(line, p);
    } else {
      var name := NamedFunctions[k - 1];
      p :| 0 <= p < |line| && NamedFunctionAt(line, p, name);
      NamedFunctionHasName(line, p, name);
    }
  }

  /** A line that matches a function pattern always has a name after
      `function`, so the source's check of the name match never fails. */
  lemma AnyFunctionHasName(line: string)
    requires AnyFunction(line)
    ensures FunctionName(line).Some?
  {
    var k :| 0 <= k < 6 && FunctionMatch(k, line);
    var p := FunctionMatchHasName(line, k);
    LeftmostFound(line, 0, p, (p: nat) => FunctionNameAt(line, p));
  }

  /** Line i has a `High` finding exactly when it matches a function
      pattern, names `public` or `external` as a word, has none of the
      modifier texts, and its lower-cased function name holds a sensitive
      keyword; it never has two. */
  lemma FunctionFindingsAtLine(path: string, lines: seq<string>, i: int)
    ensures AtLine(FunctionFindings(path, lines), i) ==
      if 1 <= i <= |lines| && AnyFunction(lines[i - 1]) && IsPublic(lines[i - 1]) &&
         !HasModifier(lines[i - 1]) && IsSensitive(Lower(FunctionName(lines[i - 1]).GetOr("")))
      then [FunctionFinding(path, i, lines[i - 1], Lower(FunctionName(lines[i - 1]).GetOr("")))]
      else []
  {
    var check := FunctionCheck(path, lines);
    assert Tagged(|lines|, check);
    ScanAtLine(|lines|, check, i);
    if 1 <= i <= |lines| && AnyFunction(lines[i - 1]) {
      AnyFunctionHasName(lines[i - 1]);
    }
  }

  /** Line i has a `Medium` finding exactly when it holds a constructor with
      non-empty parameter text, and neither that text nor any of lines
      i+1..min(i+5, |lines|) contains `require` or `if`; never two. */
  lemma ConstructorFindingsAtLine(path: string, lines: seq<string>, i: int)
    ensures AtLine(ConstructorFindings(path, lines), i) ==
      if 1 <= i <= |lines| && ConstructorParams(lines[i - 1]).Some? &&
         var params := ConstructorParams(lines[i - 1]).value;
         params != [] && !Contains(params, "require") && !Contains(params, "if") &&
         forall k | i <= k < |lines| && k < i + 5 :: !Contains(lines[k], "require") && !Contains(lines[k], "if")
      then [ConstructorFinding(path, i, lines[i - 1])]
      else []
  {
    var check := ConstructorCheck(path, lines);
    assert Tagged(|lines|, check);
    ScanAtLine(|lines|, check, i);
    if 1 <= i <= |lines| {
      var w := Window(lines, i);
      ContainsJoin(w, "require");
      ContainsJoin(w, "if");
      assert forall k | 0 <= k < |w| :: w[k] == lines[i + k];
      assert forall k | i <= k < |lines| && k < i + 5 :: lines[k] == w[k - i];
    }
  }

  /** Both passes report in ascending line order within 1..|lines|; the
      function pass holds only `access_control`/`High` findings and the
      constructor pass only `access_control`/`Medium` ones. */
  lemma AnalysisOrder(path: string, lines: seq<string>)
    ensures LinesAscending(FunctionFindings(path, lines))
    ensures LinesAscending(ConstructorFindings(path, lines))
    ensures forall f | f in FunctionFindings(path, lines) ::
      f.kind == Some("access_control") && f.severity == Some("High") && 1 <= f.line.value <= |lines|
    ensures forall f | f in ConstructorFindings(path, lines) ::
      f.kind == Some("access_control") && f.severity == Some("Medium") && 1 <= f.line.value <= |lines|
  {
    var c, t := FunctionCheck(path, lines), ConstructorCheck(path, lines);
    assert Tagged(|lines|, c);
    assert Tagged(|lines|, t);
    ScanAscending(|lines|, c);
    ScanAscending(|lines|, t);
    forall f | f in FunctionFindings(path, lines)
      ensures f.kind == Some("access_control") && f.severity == Some("High") && 1 <= f.line.value <= |lines|
    {
      ScanMembers(|lines|, c, f);
    }
    forall f | f in ConstructorFindings(path, lines)
      ensures f.kind == Some("access_control") && f.severity == Some("Medium") && 1 <= f.line.value <= |lines|
    {
      ScanMembers(|lines|, t, f);
    }
  }
}
