/** `SmartContractAuditor` of src/auditor.py: the external analyser's
    results, the custom detectors' results and the advice for them, in one
    results dictionary. The auditor reads files from a path and calls an
    external library; here both arrive as values. */
module Auditor {
  import opened Wrappers
  import opened Text
  import opened Findings
  import opened Dicts
  import opened Results
  import opened Detectors
  import opened Remediation

  /** One detector of the external analyser: its class name and the text
      `str(result)` of each result its `detect()` gave. */
  datatype SlitherDetector = SlitherDetector(name: string, results: seq<string>)

  /** The severity given to an external result: `High` when its lower-cased
      text contains `high`, otherwise `Medium`. */
  function SlitherSeverity(description: string): string {
    if Contains(Lower(description), "high") then "High" else "Medium"
  }

  /** The finding recorded for one external result: only its description,
      severity and type. */
  function SlitherFinding(description: string): Finding {
    Finding(None, None, Some("slither"), Some(SlitherSeverity(description)), None,
      Some(description), None, None)
  }

  function SlitherFindings(results: seq<string>): (r: seq<Finding>)
    ensures |r| == |results|
    ensures forall j | 0 <= j < |results| :: r[j] == SlitherFinding(results[j])
  {
    seq(|results|, j requires 0 <= j < |results| => SlitherFinding(results[j]))
  }

  /** The results dictionary after the given external detectors: a detector
      with results stores them under its name. */
  function SlitherEntries(detectors: seq<SlitherDetector>): Bucket {
    if detectors == [] then []
    else
      var before := SlitherEntries(detectors[..|detectors| - 1]);
      var last := detectors[|detectors| - 1];
      if |last.results| > 0 then Set(before, last.name, SlitherFindings(last.results)) else before
  }

  /** What `run_slither_analysis` returns. `None` is a run that raised,
      including a missing library: the result is then empty. */
  function SlitherResults(run: Option<seq<SlitherDetector>>): Bucket {
    if run.Some? then SlitherEntries(run.value) else []
  }

  /** The inner loop of `run_slither_analysis`, over one detector's results. */
  method CollectSlither(results: seq<string>) returns (findings: seq<Finding>)
    ensures findings == SlitherFindings(results)
  {
    findings := [];
    for j := 0 to |results|
      invariant findings == SlitherFindings(results[..j])
    {
      findings := findings + [SlitherFinding(results[j])];
    }
    assert results[..|results|] == results;
  }

  /** `run_slither_analysis()` */
  method RunSlitherAnalysis(run: Option<seq<SlitherDetector>>) returns (results: Bucket)
    ensures results == SlitherResults(run)
  {
    results := [];
    if run.None? {
      return;
    }
    var detectors := run.value;
    for i := 0 to |detectors|
      invariant results == SlitherEntries(detectors[..i])
    {
      assert detectors[..i + 1][..i] == detectors[..i];
      var findings := CollectSlither(detectors[i].results);
      if |findings| > 0 {
        results := Set(results, detectors[i].name, findings);
      }
    }
    assert detectors[..|detectors|] == detectors;
  }

  /** The external results hold a detector's name exactly when some
      detector of that name gave results; keys are unique; every stored list
      is non-empty and is the findings for one such detector, each of type
      `slither` with its severity by the `high` rule. */
  lemma {:induction false} SlitherKeys(detectors: seq<SlitherDetector>)
    ensures UniqueKeys(SlitherEntries(detectors))
    ensures forall n :: HasKey(SlitherEntries(detectors), n) <==>
      exists i | 0 <= i < |detectors| :: detectors[i].name == n && |detectors[i].results| > 0
    ensures forall e | e in SlitherEntries(detectors) ::
      exists i | 0 <= i < |detectors| :: e == (detectors[i].name, SlitherFindings(detectors[i].results)) &&
        |detectors[i].results| > 0
  {
    if detectors != [] {
      var init := detectors[..|detectors| - 1];
      var last := detectors[|detectors| - 1];
      SlitherKeys(init);
      var before := SlitherEntries(init);
      assert forall i | 0 <= i < |init| :: init[i] == detectors[i];
      if |last.results| > 0 {
        var v := SlitherFindings(last.results);
        SetKeys(before, last.name, v);
        SetMembers(before, last.name, v);
        forall n ensures HasKey(Set(before, last.name, v), n) <==> HasKey(before, n) || n == last.name {
          SetGet(before, last.name, v);
          if n != last.name {
            assert Get(Set(before, last.name, v), n) == Get(before, n);
          }
        }
      }
    }
  }

  /** Each finding of the external results has type `slither`, and
      severity `High` exactly when its lower-cased description contains
      `high`. */
  lemma SlitherSeverities(run: Option<seq<SlitherDetector>>)
    ensures forall e, f | e in SlitherResults(run) && f in e.1 ::
      f.kind == Some("slither") && f.description.Some? &&
      (f.severity == Some("High") <==> Contains(Lower(f.description.value), "high")) &&
      (f.severity == Some("Medium") <==> !Contains(Lower(f.description.value), "high"))
  {
    if run.Some? {
      SlitherKeys(run.value);
    }
  }

  /** The entry `run_custom_detectors` makes for a detector whose `detect`
      gave r: its findings under its name when r is a non-empty list,
      nothing when it is empty or an exception. */
  function EntryFor(name: string, r: Result<seq<Finding>, string>): Bucket {
    if r.Success? && |r.value| > 0 then [(name, r.value)] else []
  }

  /** The entries of the given detectors, in order, when detector d's
      `detect` gives `outcome(d)`. */
  function CustomEntries(detectors: seq<Detector>, outcome: Detector -> Result<seq<Finding>, string>): Bucket {
    if detectors == [] then []
    else
      var d := detectors[|detectors| - 1];
      CustomEntries(detectors[..|detectors| - 1], outcome) + EntryFor(Name(d), outcome(d))
  }

  /** What `detect` of each detector gives for the files. */
  function Outcomes(files: seq<SourceFile>): Detector -> Result<seq<Finding>, string> {
    (d: Detector) => Detect(d, files)
  }

  /** What `run_custom_detectors()` returns. */
  function CustomResults(files: seq<SourceFile>): Bucket {
    CustomEntries(Registry, Outcomes(files))
  }

  /** No two of the detectors share a name. */
  predicate DistinctNames(detectors: seq<Detector>) {
    forall i, j | 0 <= i < j < |detectors| :: Name(detectors[i]) != Name(detectors[j])
  }

  /** Every key of the entries is the name of one of the given detectors. */
  lemma {:induction false} CustomEntryNames(detectors: seq<Detector>, outcome: Detector -> Result<seq<Finding>, string>)
    ensures forall e | e in CustomEntries(detectors, outcome) ::
      exists i | 0 <= i < |detectors| :: e.0 == Name(detectors[i])
  {
    if detectors != [] {
      var init := detectors[..|detectors| - 1];
      CustomEntryNames(init, outcome);
      assert forall i | 0 <= i < |init| :: init[i] == detectors[i];
    }
  }

  /** One pass of the loop of `run_custom_detectors`: the next detector's
      entry goes at the end, as a key not yet present. */
  lemma CustomStep(detectors: seq<Detector>, i: nat, outcome: Detector -> Result<seq<Finding>, string>)
    requires i < |detectors| && DistinctNames(detectors)
    ensures !HasKey(CustomEntries(detectors[..i], outcome), Name(detectors[i]))
    ensures CustomEntries(detectors[..i + 1], outcome) ==
      CustomEntries(detectors[..i], outcome) + EntryFor(Name(detectors[i]), outcome(detectors[i]))
  {
    assert detectors[..i + 1][..i] == detectors[..i];
    CustomEntryNames(detectors[..i], outcome);
  }

  /** `run_custom_detectors()`: every detector in turn; a detector that
      raises is skipped. */
  method RunCustomDetectors(files: seq<SourceFile>) returns (allFindings: Bucket)
    ensures allFindings == CustomResults(files)
  {
    NamesDistinct();
    assert DistinctNames(Registry);
    allFindings := [];
    for i := 0 to |Registry|
      invariant allFindings == CustomEntries(Registry[..i], Outcomes(files))
    {
      var d := Registry[i];
      var findings := DetectFiles(d, files);
      CustomStep(Registry, i, Outcomes(files));
      assert Outcomes(files)(d) == findings;
      if findings.Success? && |findings.value| > 0 {
        SetNew(allFindings, Name(d), findings.value);
        allFindings := Set(allFindings, Name(d), findings.value);
      }
    }
    assert Registry[..|Registry|] == Registry;
  }

  /** The entries of two runs of detectors, one after the other. */
  lemma {:induction false} CustomEntriesAppend(a: seq<Detector>, b: seq<Detector>, outcome: Detector -> Result<seq<Finding>, string>)
    ensures CustomEntries(a + b, outcome) == CustomEntries(a, outcome) + CustomEntries(b, outcome)
    decreases |b|
  {
    if b == [] {
      assert a + b == a;
    } else {
      var b' := b[..|b| - 1];
      assert (a + b)[..|a + b| - 1] == a + b';
      assert (a + b)[|a + b| - 1] == b[|b| - 1];
      CustomEntriesAppend(a, b', outcome);
    }
  }

  /** In entries of detectors with distinct names, a detector's name maps
      to its findings when `detect` gave a non-empty list, and is missing
      otherwise. */
  lemma {:induction false} CustomGet(detectors: seq<Detector>, outcome: Detector -> Result<seq<Finding>, string>, i: nat)
    requires DistinctNames(detectors) && i < |detectors|
    ensures Get(CustomEntries(detectors, outcome), Name(detectors[i])) ==
      var r := outcome(detectors[i]);
      if r.Success? && |r.value| > 0 then Some(r.value) else None
  {
    var n := |detectors| - 1;
    var init := detectors[..n];
    var name := Name(detectors[i]);
    var entry := EntryFor(Name(detectors[n]), outcome(detectors[n]));
    assert DistinctNames(init);
    CustomEntryNames(init, outcome);
    GetAppend(CustomEntries(init, outcome), entry, name);
    if i == n {
      assert !HasKey(CustomEntries(init, outcome), name);
    } else {
      CustomGet(init, outcome, i);
      assert init[i] == detectors[i];
      assert name != Name(detectors[n]);
    }
  }

  /** The entry of a detector is there exactly when its `detect` returned a
      non-empty list without raising, and holds that list; no other key
      is there. */
  lemma CustomKeys(files: seq<SourceFile>)
    ensures forall d | d in Registry ::
      Get(CustomResults(files), Name(d)) ==
      if Detect(d, files).Success? && |Detect(d, files).value| > 0 then Some(Detect(d, files).value) else None
    ensures forall n | HasKey(CustomResults(files), n) :: exists d | d in Registry :: Name(d) == n
  {
    NamesDistinct();
    forall d | d in Registry
      ensures Get(CustomResults(files), Name(d)) ==
        if Detect(d, files).Success? && |Detect(d, files).value| > 0 then Some(Detect(d, files).value) else None
    {
      var i :| 0 <= i < |Registry| && Registry[i] == d;
      CustomGet(Registry, Outcomes(files), i);
    }
    CustomEntryNames(Registry, Outcomes(files));
  }

  /** Each detector contributes its own entry, whatever the others do: a
      detector that raises removes only its own entry. */
  lemma CustomIndependent(files: seq<SourceFile>)
    ensures CustomResults(files) ==
      EntryFor(Name(Reentrancy), Detect(Reentrancy, files)) +
      EntryFor(Name(IntegerOverflow), Detect(IntegerOverflow, files)) +
      EntryFor(Name(AccessControl), Detect(AccessControl, files))
  {
    var o := Outcomes(files);
    assert Registry == [Reentrancy] + [IntegerOverflow] + [AccessControl];
    CustomEntriesAppend([Reentrancy] + [IntegerOverflow], [AccessControl], o);
    CustomEntriesAppend([Reentrancy], [IntegerOverflow], o);
    assert [Reentrancy][..0] == [];
    assert [IntegerOverflow][..0] == [];
    assert [AccessControl][..0] == [];
  }

  /** What `analyze()` returns: the external results, the custom results,
      and the advice generated from the dictionary holding those two. */
  function AnalysisOf(run: Option<seq<SlitherDetector>>, files: seq<SourceFile>): AuditResult {
    var partial := AuditResult(Some(SlitherResults(run)), Some(CustomResults(files)), None);
    partial.(remediation := Some(RemediationOf(partial)))
  }

  /** `analyze()`: the three keys are always present. */
  method Analyze(run: Option<seq<SlitherDetector>>, files: seq<SourceFile>) returns (results: AuditResult)
    ensures results.slither.Some? && results.custom.Some? && results.remediation.Some?
    ensures results == AnalysisOf(run, files)
  {
    var slitherResults := RunSlitherAnalysis(run);
    var customResults := RunCustomDetectors(files);
    results := AuditResult(Some(slitherResults), Some(customResults), None);
    var remediation := GenerateRemediation(results);
    results := results.(remediation := Some(remediation));
  }

  /** The advice in the result of `analyze` is keyed by exactly the
      non-empty types of the custom findings, once each, each with the
      table's advice, in order of first appearance; the external results
      play no part. */
  lemma AnalysisRemediation(run: Option<seq<SlitherDetector>>, files: seq<SourceFile>)
    ensures var rem := AnalysisOf(run, files).remediation.value;
      var custom := CustomResults(files);
      UniqueKeys(rem) &&
      (forall k :: HasKey(rem, k) <==>
        k != "" && exists i, f | 0 <= i < |custom| && f in custom[i].1 :: f.kind == Some(k)) &&
      (forall i | 0 <= i < |rem| :: rem[i].1 == AdviceFor(rem[i].0)) &&
      (forall i, j | 0 <= i < j < |rem| ::
        Position(FindingKinds(FindingsOf(Some(custom))), rem[i].0) <
        Position(FindingKinds(FindingsOf(Some(custom))), rem[j].0)) &&
      (forall other: Option<seq<SlitherDetector>> :: AnalysisOf(other, files).remediation.value == rem)
  {
    var partial := AuditResult(Some(SlitherResults(run)), Some(CustomResults(files)), None);
    RemediationKeys(partial);
    RemediationOrder(partial);
  }

  lemma SetMembers<V>(d: Dict<V>, k: string, v: V)
    ensures forall e | e in Set(d, k, v) :: e in d || e == (k, v)
  {
  }

  lemma SetNew<V>(d: Dict<V>, k: string, v: V)
    requires !HasKey(d, k)
    ensures Set(d, k, v) == d + [(k, v)]
  {
  }
}
