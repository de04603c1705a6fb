/** The counting shared by the report generators: `_count_findings` and
    `_get_severity_breakdown`, written identically in
    src/reporters/html_reporter.py and src/reporters/markdown_reporter.py,
    and the same tallies `_generate_summary` of
    src/reporters/json_reporter.py makes in one pass. */
module Tally {
  import opened Wrappers
  import opened Text
  import opened Findings
  import opened Dicts
  import opened Results

  /** The `counts` dictionary: findings per bucket and in all. */
  datatype Counts = Counts(slither: nat, custom: nat, total: nat)

  /** The `breakdown` dictionary: findings per known severity. */
  datatype Breakdown = Breakdown(critical: nat, high: nat, medium: nat, low: nat)

  const NoFindings := Breakdown(0, 0, 0, 0)

  /** The four severities a breakdown counts. */
  const KnownSeverities: seq<string> := ["critical", "high", "medium", "low"]

  /** `finding.get('severity', 'Medium').lower()` */
  function SeverityOf(f: Finding): string {
    Lower(f.severity.GetOr("Medium"))
  }

  /** The number of findings in a bucket: the lengths of its lists added. */
  function Size(bucket: Bucket): nat {
    if bucket == [] then 0
    else Size(bucket[..|bucket| - 1]) + |bucket[|bucket| - 1].1|
  }

  /** A missing bucket has no findings. */
  function SizeOf(bucket: Option<Bucket>): nat {
    if bucket.Some? then Size(bucket.value) else 0
  }

  /** Adding a bucket of n findings to the counts. */
  function AddCount(counts: Counts, c: Category, n: nat): Counts {
    match c
    case Slither => counts.(slither := counts.slither + n, total := counts.total + n)
    case Custom => counts.(custom := counts.custom + n, total := counts.total + n)
  }

  /** The counts after visiting the given buckets. */
  function CountsIn(results: AuditResult, cats: seq<Category>): Counts {
    if cats == [] then Counts(0, 0, 0)
    else
      var c := cats[|cats| - 1];
      AddCount(CountsIn(results, cats[..|cats| - 1]), c, SizeOf(BucketOf(results, c)))
  }

  /** What `_count_findings(results)` returns. */
  function CountsOf(results: AuditResult): Counts {
    CountsIn(results, Categories)
  }

  /** The number of the given findings whose severity is `sev`. */
  function CountSeverity(fs: seq<Finding>, sev: string): nat {
    if fs == [] then 0
    else CountSeverity(fs[..|fs| - 1], sev) + (if SeverityOf(fs[|fs| - 1]) == sev then 1 else 0)
  }

  /** One finding counted under its severity, when that is one of the
      four. */
  function Bump(b: Breakdown, severity: string): Breakdown {
    if severity == "critical" then b.(critical := b.critical + 1)
    else if severity == "high" then b.(high := b.high + 1)
    else if severity == "medium" then b.(medium := b.medium + 1)
    else if severity == "low" then b.(low := b.low + 1)
    else b
  }

  /** The breakdown b after counting the given findings in order. */
  function TallyAll(b: Breakdown, fs: seq<Finding>): Breakdown {
    if fs == [] then b
    else Bump(TallyAll(b, fs[..|fs| - 1]), SeverityOf(fs[|fs| - 1]))
  }

  /** The breakdown after visiting the given buckets. */
  function BreakdownIn(results: AuditResult, cats: seq<Category>): Breakdown {
    if cats == [] then NoFindings
    else
      var c := cats[|cats| - 1];
      TallyAll(BreakdownIn(results, cats[..|cats| - 1]), FindingsOf(BucketOf(results, c)))
  }

  /** What `_get_severity_breakdown(results)` returns. */
  function BreakdownOf(results: AuditResult): Breakdown {
    BreakdownIn(results, Categories)
  }

  /** All the findings the reporters count: the slither bucket's, then the
      custom bucket's. */
  function AllFindings(results: AuditResult): seq<Finding> {
    FindingsOf(results.slither) + FindingsOf(results.custom)
  }

  function Sum(b: Breakdown): nat {
    b.critical + b.high + b.medium + b.low
  }

  lemma {:induction false} TallyNext(b: Breakdown, fs: seq<Finding>, j: nat)
    requires j < |fs|
    ensures TallyAll(b, fs[..j + 1]) == Bump(TallyAll(b, fs[..j]), SeverityOf(fs[j]))
  {
    assert fs[..j + 1][..j] == fs[..j];
  }

  /** Counting two runs of findings one after the other. */
  lemma {:induction false} TallyAppend(b0: Breakdown, a: seq<Finding>, b: seq<Finding>)
    ensures TallyAll(b0, a + b) == TallyAll(TallyAll(b0, a), b)
    decreases |b|
  {
    if b != [] {
      var b' := b[..|b| - 1];
      assert (a + b)[..|a + b| - 1] == a + b';
      assert (a + b)[|a + b| - 1] == b[|b| - 1];
      TallyAppend(b0, a, b');
    } else {
      assert a + b == a;
    }
  }

  /** Each entry of the breakdown is the number of findings with that
      severity. */
  lemma {:induction false} TallyCounts(fs: seq<Finding>)
    ensures var t := TallyAll(NoFindings, fs);
      t.critical == CountSeverity(fs, "critical") && t.high == CountSeverity(fs, "high") &&
      t.medium == CountSeverity(fs, "medium") && t.low == CountSeverity(fs, "low")
  {
    if fs != [] {
      TallyCounts(fs[..|fs| - 1]);
    }
  }

  /** A bucket's size is the number of its findings. */
  lemma {:induction false} SizeIsLength(bucket: Bucket)
    ensures Size(bucket) == |Flatten(bucket)|
  {
    if bucket != [] {
      SizeIsLength(bucket[..|bucket| - 1]);
    }
  }

  /** The counts are the sizes of the two buckets, a missing one counting
      zero, and the total is their sum: the number of all findings. */
  lemma {:induction false} CountsValues(results: AuditResult)
    ensures CountsOf(results) == Counts(SizeOf(results.slither), SizeOf(results.custom),
      SizeOf(results.slither) + SizeOf(results.custom))
    ensures CountsOf(results).total == |AllFindings(results)|
  {
    assert Categories[..1] == [Slither];
    assert Categories[..1][..0] == [];
    var first := Counts(SizeOf(results.slither), 0, SizeOf(results.slither));
    assert CountsIn(results, [Slither]) == first;
    assert CountsOf(results) == AddCount(first, Custom, SizeOf(results.custom));
    if results.slither.Some? {
      SizeIsLength(results.slither.value);
    }
    if results.custom.Some? {
      SizeIsLength(results.custom.value);
    }
  }

  /** The breakdown counts all the findings of both buckets, each entry
      the number of findings with that severity. */
  lemma {:induction false} BreakdownValues(results: AuditResult)
    ensures BreakdownOf(results) == TallyAll(NoFindings, AllFindings(results))
    ensures var b := BreakdownOf(results);
      b.critical == CountSeverity(AllFindings(results), "critical") &&
      b.high == CountSeverity(AllFindings(results), "high") &&
      b.medium == CountSeverity(AllFindings(results), "medium") &&
      b.low == CountSeverity(AllFindings(results), "low")
  {
    assert Categories[..1] == [Slither];
    assert Categories[..1][..0] == [];
    var first := TallyAll(NoFindings, FindingsOf(results.slither));
    assert BreakdownIn(results, [Slither]) == first;
    assert BreakdownOf(results) == TallyAll(first, FindingsOf(results.custom));
    TallyAppend(NoFindings, FindingsOf(results.slither), FindingsOf(results.custom));
    TallyCounts(AllFindings(results));
  }

  /** The number of the given findings whose severity is none of the four. */
  function CountUnknown(fs: seq<Finding>): nat {
    if fs == [] then 0
    else CountUnknown(fs[..|fs| - 1]) + (if SeverityOf(fs[|fs| - 1]) in KnownSeverities then 0 else 1)
  }

  /** Every finding is counted under its severity or as unknown. */
  lemma {:induction false} SeveritiesPartition(fs: seq<Finding>)
    ensures Sum(TallyAll(NoFindings, fs)) + CountUnknown(fs) == |fs|
    ensures CountUnknown(fs) == 0 <==> forall f | f in fs :: SeverityOf(f) in KnownSeverities
  {
    if fs != [] {
      var init := fs[..|fs| - 1];
      SeveritiesPartition(init);
      assert fs == init + [fs[|fs| - 1]];
      assert forall f | f in fs :: f in init || f == fs[|fs| - 1];
    }
  }

  /** A finding whose severity is none of the four is counted nowhere, so
      the breakdown adds up to at most the total, and to exactly the total
      when every severity is one of the four, in any letter case. */
  lemma {:induction false} BreakdownBound(results: AuditResult)
    ensures Sum(BreakdownOf(results)) <= CountsOf(results).total
    ensures Sum(BreakdownOf(results)) == CountsOf(results).total <==>
      forall f | f in AllFindings(results) :: SeverityOf(f) in KnownSeverities
  {
    CountsValues(results);
    BreakdownValues(results);
    SeveritiesPartition(AllFindings(results));
  }

  /** The inner loop of `_count_findings` over one bucket. */
  method CountBucket(bucket: Bucket) returns (n: nat)
    ensures n == Size(bucket)
  {
    n := 0;
    for i := 0 to |bucket|
      invariant n == Size(bucket[..i])
    {
      assert bucket[..i + 1][..i] == bucket[..i];
      n := n + |bucket[i].1|;
    }
    assert bucket[..|bucket|] == bucket;
  }

  /** `_count_findings(results)` */
  method CountFindings(results: AuditResult) returns (counts: Counts)
    ensures counts == CountsOf(results)
  {
    counts := Counts(0, 0, 0);
    for i := 0 to |Categories|
      invariant counts == CountsIn(results, Categories[..i])
    {
      var c := Categories[i];
      assert Categories[..i + 1][..i] == Categories[..i];
      var bucket := BucketOf(results, c);
      if bucket.Some? {
        var n := CountBucket(bucket.value);
        counts := AddCount(counts, c, n);
      } else {
        assert AddCount(counts, c, 0) == counts;
      }
    }
    assert Categories[..|Categories|] == Categories;
  }

  /** The innermost loop: one list of findings into the breakdown. */
  method TallyFindings(b: Breakdown, findings: seq<Finding>) returns (r: Breakdown)
    ensures r == TallyAll(b, findings)
  {
    r := b;
    for j := 0 to |findings|
      invariant r == TallyAll(b, findings[..j])
    {
      var severity := Lower(findings[j].severity.GetOr("Medium"));
      TallyNext(b, findings, j);
      if severity == "critical" {
        r := r.(critical := r.critical + 1);
      } else if severity == "high" {
        r := r.(high := r.high + 1);
      } else if severity == "medium" {
        r := r.(medium := r.medium + 1);
      } else if severity == "low" {
        r := r.(low := r.low + 1);
      }
    }
    assert findings[..|findings|] == findings;
  }

  /** The breakdown loop over the entries of one bucket. */
  method TallyBucket(b: Breakdown, bucket: Bucket) returns (r: Breakdown)
    ensures r == TallyAll(b, Flatten(bucket))
  {
    r := b;
    for i := 0 to |bucket|
      invariant r == TallyAll(b, Flatten(bucket[..i]))
    {
      FlattenNext(bucket, i);
      TallyAppend(b, Flatten(bucket[..i]), bucket[i].1);
      r := TallyFindings(r, bucket[i].1);
    }
    assert bucket[..|bucket|] == bucket;
  }

  /** `_get_severity_breakdown(results)` */
  method GetSeverityBreakdown(results: AuditResult) returns (breakdown: Breakdown)
    ensures breakdown == BreakdownOf(results)
  {
    breakdown := NoFindings;
    for i := 0 to |Categories|
      invariant breakdown == BreakdownIn(results, Categories[..i])
    {
      var c := Categories[i];
      assert Categories[..i + 1][..i] == Categories[..i];
      var bucket := BucketOf(results, c);
      if bucket.Some? {
        breakdown := TallyBucket(breakdown, bucket.value);
      }
    }
    assert Categories[..|Categories|] == Categories;
  }
}
