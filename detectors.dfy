/** The three detectors of src/detectors/reentrancy.py behind one `detect`:
    each file's findings in turn, concatenated. An exception raised while
    analysing a file ends `detect` with that exception. */
module Detectors {
  import opened Wrappers
  import opened Text
  import opened Findings
  import ReentrancyDetector
  import IntegerOverflowDetector
  import AccessControlDetector

  datatype Detector = Reentrancy | IntegerOverflow | AccessControl

  /** The detectors an auditor runs, in order. */
  const Registry: seq<Detector> := [Reentrancy, IntegerOverflow, AccessControl]

  /** `detector.name` */
  function Name(d: Detector): string {
    match d
    case Reentrancy => ReentrancyDetector.Name
    case IntegerOverflow => IntegerOverflowDetector.Name
    case AccessControl => AccessControlDetector.Name
  }

  /** What `_analyze_file` of the detector returns for one file. */
  function FileFindings(d: Detector, file: SourceFile): Result<seq<Finding>, string> {
    var lines := Split(file.content, '\n');
    match d
    case Reentrancy => Success(ReentrancyDetector.Analysis(file.path, lines))
    case IntegerOverflow => IntegerOverflowDetector.Analysis(file.path, lines)
    case AccessControl => Success(AccessControlDetector.Analysis(file.path, lines))
  }

  /** Analysing the given files one after the other: their findings
      concatenated in order, or the first failure. */
  function RunOver(files: seq<SourceFile>, analyze: SourceFile -> Result<seq<Finding>, string>):
    Result<seq<Finding>, string>
  {
    if files == [] then Success([])
    else
      var before := RunOver(files[..|files| - 1], analyze);
      if before.Failure? then before
      else
        var last := analyze(files[|files| - 1]);
        if last.Failure? then last else Success(before.value + last.value)
  }

  function Analyzer(d: Detector): SourceFile -> Result<seq<Finding>, string> {
    (file: SourceFile) => FileFindings(d, file)
  }

  /** `detect` over the given files. */
  function Detect(d: Detector, files: seq<SourceFile>): Result<seq<Finding>, string> {
    RunOver(files, Analyzer(d))
  }

  method AnalyzeFile(d: Detector, file: SourceFile) returns (r: Result<seq<Finding>, string>)
    ensures r == FileFindings(d, file)
  {
    match d
    case Reentrancy =>
      var findings := ReentrancyDetector.AnalyzeFile(file.path, file.content);
      r := Success(findings);
    case IntegerOverflow =>
      r := IntegerOverflowDetector.AnalyzeFile(file.path, file.content);
    case AccessControl =>
      var findings := AccessControlDetector.AnalyzeFile(file.path, file.content);
      r := Success(findings);
  }

  /** The loop of `detect`, extending the findings file by file and giving
      up at the first exception. */
  method DetectFiles(d: Detector, files: seq<SourceFile>) returns (r: Result<seq<Finding>, string>)
    ensures r == Detect(d, files)
  {
    var findings := [];
    for i := 0 to |files|
      invariant Detect(d, files[..i]) == Success(findings)
    {
      assert files[..i + 1][..i] == files[..i];
      var fileFindings := AnalyzeFile(d, files[i]);
      if fileFindings.Failure? {
        RunStopsAtFailure(files, Analyzer(d), i + 1);
        return fileFindings;
      }
      findings := findings + fileFindings.value;
    }
    assert files[..|files|] == files;
    r := Success(findings);
  }

  /** The three detectors have different names. */
  lemma NamesDistinct()
    ensures forall a, b | a in Registry && b in Registry && a != b :: Name(a) != Name(b)
  {
  }

  /** Once a prefix of the files has failed, so has every longer one. */
  lemma {:induction false} RunStopsAtFailure(files: seq<SourceFile>, analyze: SourceFile -> Result<seq<Finding>, string>, n: nat)
    requires n <= |files| && RunOver(files[..n], analyze).Failure?
    ensures RunOver(files, analyze) == RunOver(files[..n], analyze)
    decreases |files| - n
  {
    if n < |files| {
      assert files[..n + 1][..n] == files[..n];
      RunStopsAtFailure(files, analyze, n + 1);
    } else {
      assert files[..n] == files;
    }
  }

  /** The run fails exactly when the analysis of some file fails. */
  lemma {:induction false} RunFails(files: seq<SourceFile>, analyze: SourceFile -> Result<seq<Finding>, string>)
    ensures RunOver(files, analyze).Failure? <==> exists k | 0 <= k < |files| :: analyze(files[k]).Failure?
  {
    if files != [] {
      var init := files[..|files| - 1];
      RunFails(init, analyze);
      assert forall k | 0 <= k < |init| :: init[k] == files[k];
    }
  }

  /** Running over two groups of files one after the other is running over
      all of them. */
  lemma {:induction false} RunAppend(a: seq<SourceFile>, b: seq<SourceFile>, analyze: SourceFile -> Result<seq<Finding>, string>)
    requires RunOver(a, analyze).Success? && RunOver(b, analyze).Success?
    ensures RunOver(a + b, analyze) == Success(RunOver(a, analyze).value + RunOver(b, analyze).value)
    decreases |b|
  {
    if b == [] {
      assert a + b == a;
      assert RunOver(a, analyze).value + RunOver(b, analyze).value == RunOver(a, analyze).value + [];
      assert RunOver(a, analyze).value + [] == RunOver(a, analyze).value;
    } else {
      var b' := b[..|b| - 1];
      assert (a + b)[..|a + b| - 1] == a + b';
      assert (a + b)[|a + b| - 1] == b[|b| - 1];
      assert RunOver(b', analyze).Success?;
      RunAppend(a, b', analyze);
      var prefix, last := RunOver(b', analyze).value, analyze(b[|b| - 1]);
      assert last.Success?;
      assert RunOver(b, analyze).value == prefix + last.value;
      assert RunOver(a + b', analyze) == Success(RunOver(a, analyze).value + prefix);
      assert RunOver(a + b, analyze) == Success((RunOver(a, analyze).value + prefix) + last.value);
      assert (RunOver(a, analyze).value + prefix) + last.value == RunOver(a, analyze).value + (prefix + last.value);
    }
  }

  /** `detect` fails exactly when the analysis of some file fails. */
  lemma DetectFails(d: Detector, files: seq<SourceFile>)
    ensures Detect(d, files).Failure? <==> exists k | 0 <= k < |files| :: FileFindings(d, files[k]).Failure?
  {
    RunFails(files, Analyzer(d));
  }

  /** Over given file contents, only the integer overflow detector can
      fail (its `int()` of the major version); reading a file is outside
      the model. */
  lemma OnlyOverflowFails(d: Detector, files: seq<SourceFile>)
    requires d != IntegerOverflow
    ensures Detect(d, files).Success?
  {
    DetectFails(d, files);
  }

  /** `detect` on two groups of files is the concatenation of their results. */
  lemma DetectAppend(d: Detector, a: seq<SourceFile>, b: seq<SourceFile>)
    requires Detect(d, a).Success? && Detect(d, b).Success?
    ensures Detect(d, a + b) == Success(Detect(d, a).value + Detect(d, b).value)
  {
    RunAppend(a, b, Analyzer(d));
  }
}
