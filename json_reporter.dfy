/** `JSONReporter` of src/reporters/json_reporter.py: the report object
    before it is serialised, that is its metadata, its summary, the buckets
    it copies and the advice it copies. */
module JsonReporter {
  import opened Wrappers
  import opened Findings
  import opened Dicts
  import opened Results
  import opened Tally

  const Tool := "Smart Contract Auditor"
  const Version := "1.0.0"

  /** The `metadata` object; the time of generation is given by the caller. */
  datatype Metadata = Metadata(generatedAt: string, tool: string, version: string)

  /** The `summary` object. */
  datatype Summary = Summary(
    totalFindings: nat,
    slitherFindings: nat,
    customFindings: nat,
    severityBreakdown: Breakdown)

  /** The whole report object. */
  datatype Report = Report(
    metadata: Metadata,
    summary: Summary,
    findings: Dict<Bucket>,
    remediation: Dict<Advice>)

  /** The summary the loop of `_generate_summary` should arrive at: the
      counts and the breakdown the other two reporters compute. */
  function SummaryOf(results: AuditResult): Summary {
    var counts := CountsOf(results);
    Summary(counts.total, counts.slither, counts.custom, BreakdownOf(results))
  }

  /** The summary s after visiting the entries of one bucket of category c:
      each entry adds its length to the category and to the total, and
      each of its findings bumps its severity. */
  function Visit(s: Summary, c: Category, bucket: Bucket): Summary {
    var n := Size(bucket);
    Summary(
      s.totalFindings + n,
      if c == Slither then s.slitherFindings + n else s.slitherFindings,
      if c == Custom then s.customFindings + n else s.customFindings,
      TallyAll(s.severityBreakdown, Flatten(bucket)))
  }

  /** `organized` after visiting the given categories: each present bucket
      stored under its key. */
  function OrganizedIn(results: AuditResult, cats: seq<Category>): Dict<Bucket> {
    if cats == [] then []
    else
      var c := cats[|cats| - 1];
      var before := OrganizedIn(results, cats[..|cats| - 1]);
      var bucket := BucketOf(results, c);
      if bucket.Some? then Set(before, CategoryKey(c), bucket.value) else before
  }

  /** What `_organize_findings(results)` returns. */
  function OrganizedOf(results: AuditResult): Dict<Bucket> {
    OrganizedIn(results, Categories)
  }

  /** The report object `generate` serialises. */
  function ReportOf(results: AuditResult, generatedAt: string): Report {
    Report(
      Metadata(generatedAt, Tool, Version),
      SummaryOf(results),
      OrganizedOf(results),
      results.remediation.GetOr([]))
  }

  /** The loop of `_generate_summary` over the entries of one bucket. */
  method SummarizeBucket(s: Summary, c: Category, bucket: Bucket) returns (r: Summary)
    ensures r == Visit(s, c, bucket)
  {
    r := s;
    for i := 0 to |bucket|
      invariant r == Visit(s, c, bucket[..i])
    {
      var findings := bucket[i].1;
      var count := |findings|;
      assert bucket[..i + 1][..i] == bucket[..i];
      FlattenNext(bucket, i);
      TallyAppend(s.severityBreakdown, Flatten(bucket[..i]), findings);
      r := r.(totalFindings := r.totalFindings + count);
      if c == Slither {
        r := r.(slitherFindings := r.slitherFindings + count);
      } else {
        r := r.(customFindings := r.customFindings + count);
      }
      var breakdown := TallyFindings(r.severityBreakdown, findings);
      r := r.(severityBreakdown := breakdown);
    }
    assert bucket[..|bucket|] == bucket;
  }

  /** `_generate_summary(results)`: one pass over both buckets arrives at
      the counts and the breakdown of the other reporters. */
  method GenerateSummary(results: AuditResult) returns (summary: Summary)
    ensures summary == SummaryOf(results)
  {
    summary := Summary(0, 0, 0, NoFindings);
    for i := 0 to |Categories|
      invariant summary == Summary(
        CountsIn(results, Categories[..i]).total,
        CountsIn(results, Categories[..i]).slither,
        CountsIn(results, Categories[..i]).custom,
        BreakdownIn(results, Categories[..i]))
    {
      var c := Categories[i];
      assert Categories[..i + 1][..i] == Categories[..i];
      var bucket := BucketOf(results, c);
      if bucket.Some? {
        summary := SummarizeBucket(summary, c, bucket.value);
      }
    }
    assert Categories[..|Categories|] == Categories;
  }

  /** `_organize_findings(results)` */
  method OrganizeFindings(results: AuditResult) returns (organized: Dict<Bucket>)
    ensures organized == OrganizedOf(results)
  {
    organized := [];
    for i := 0 to |Categories|
      invariant organized == OrganizedIn(results, Categories[..i])
    {
      var c := Categories[i];
      assert Categories[..i + 1][..i] == Categories[..i];
      var bucket := BucketOf(results, c);
      if bucket.Some? {
        organized := Set(organized, CategoryKey(c), bucket.value);
      }
    }
    assert Categories[..|Categories|] == Categories;
  }

  /** `generate(results, output_path)`, up to the serialisation. */
  method Generate(results: AuditResult, generatedAt: string) returns (report: Report)
    ensures report == ReportOf(results, generatedAt)
  {
    var summary := GenerateSummary(results);
    var organized := OrganizeFindings(results);
    var remediation := if results.remediation.Some? then results.remediation.value else [];
    report := Report(Metadata(generatedAt, Tool, Version), summary, organized, remediation);
  }

  /** The summary counts every finding of both buckets: the total is the
      number of all findings, each category its own bucket's, and each
      severity entry the number of findings with that severity. */
  lemma SummaryValues(results: AuditResult)
    ensures var s := SummaryOf(results);
      s.slitherFindings == |FindingsOf(results.slither)| &&
      s.customFindings == |FindingsOf(results.custom)| &&
      s.totalFindings == s.slitherFindings + s.customFindings &&
      s.totalFindings == |AllFindings(results)|
    ensures var b := SummaryOf(results).severityBreakdown;
      b.critical == CountSeverity(AllFindings(results), "critical") &&
      b.high == CountSeverity(AllFindings(results), "high") &&
      b.medium == CountSeverity(AllFindings(results), "medium") &&
      b.low == CountSeverity(AllFindings(results), "low")
  {
    CountsValues(results);
    BreakdownValues(results);
    if results.slither.Some? {
      SizeIsLength(results.slither.value);
    }
    if results.custom.Some? {
      SizeIsLength(results.custom.value);
    }
  }

  /** The findings object holds exactly the buckets present in the
      results, `slither` before `custom`, each unchanged. */
  lemma OrganizedShape(results: AuditResult)
    ensures OrganizedOf(results) ==
      (if results.slither.Some? then [("slither", results.slither.value)] else []) +
      (if results.custom.Some? then [("custom", results.custom.value)] else [])
  {
    assert Categories[..1] == [Slither];
    assert Categories[..1][..0] == [];
    var first: Dict<Bucket> := if results.slither.Some? then [("slither", results.slither.value)] else [];
    assert OrganizedIn(results, [Slither]) == first;
    if results.custom.Some? {
      assert IndexOf(first, "custom") == |first|;
      assert OrganizedOf(results) == first + [("custom", results.custom.value)];
    } else {
      assert OrganizedOf(results) == first;
    }
  }

  /** Looking a category up in the findings object gives its bucket, and
      no other key is present. */
  lemma OrganizedGet(results: AuditResult)
    ensures Get(OrganizedOf(results), "slither") == results.slither
    ensures Get(OrganizedOf(results), "custom") == results.custom
    ensures forall k | k != "slither" && k != "custom" :: !HasKey(OrganizedOf(results), k)
  {
    OrganizedShape(results);
    var org := OrganizedOf(results);
    assert forall i | 0 <= i < |org| :: org[i].0 in {"slither", "custom"};
    if results.slither.Some? {
      GetAt(org, 0);
    }
    if results.custom.Some? {
      GetAt(org, |org| - 1);
    }
  }
}
