/** The results dictionary `analyze` returns and the reporters read:
    buckets of findings keyed by detector name, and advice keyed by
    finding type. */
module Results {
  import opened Wrappers
  import opened Findings
  import opened Dicts

  /** A bucket: detector name to that detector's findings, in insertion
      order. */
  type Bucket = Dict<seq<Finding>>

  /** One advice dictionary. The reporters read it with `get(key, default)`,
      so every key may be absent. */
  datatype Advice = Advice(
    severity: Option<string>,
    title: Option<string>,
    description: Option<string>,
    examples: Option<seq<string>>,
    solutions: Option<seq<string>>,
    codeExample: Option<string>)

  /** The results dictionary, one field per key; `None` is a missing key. */
  datatype AuditResult = AuditResult(
    slither: Option<Bucket>,
    custom: Option<Bucket>,
    remediation: Option<Dict<Advice>>)

  /** The two buckets of findings, in the order every reporter visits
      them: `for category in ['slither', 'custom']`. */
  datatype Category = Slither | Custom

  const Categories: seq<Category> := [Slither, Custom]

  /** The key of a bucket in the results dictionary. */
  function CategoryKey(c: Category): string {
    match c
    case Slither => "slither"
    case Custom => "custom"
  }

  /** `results[category]`, `None` when the key is missing. */
  function BucketOf(results: AuditResult, c: Category): Option<Bucket> {
    match c
    case Slither => results.slither
    case Custom => results.custom
  }

  /** Every finding of a bucket, entry by entry. */
  function Flatten(bucket: Bucket): seq<Finding> {
    if bucket == [] then []
    else Flatten(bucket[..|bucket| - 1]) + bucket[|bucket| - 1].1
  }

  /** The findings of a bucket that may be missing. */
  function FindingsOf(bucket: Option<Bucket>): seq<Finding> {
    if bucket.Some? then Flatten(bucket.value) else []
  }

  /** One more entry adds its findings at the end. */
  lemma FlattenNext(bucket: Bucket, i: nat)
    requires i < |bucket|
    ensures Flatten(bucket[..i + 1]) == Flatten(bucket[..i]) + bucket[i].1
  {
    assert bucket[..i + 1][..i] == bucket[..i];
  }

  /** A finding is in the flattened bucket exactly when some entry holds it. */
  lemma {:induction false} FlattenMembers(bucket: Bucket, f: Finding)
    ensures f in Flatten(bucket) <==> exists i | 0 <= i < |bucket| :: f in bucket[i].1
  {
    if bucket != [] {
      var init := bucket[..|bucket| - 1];
      FlattenMembers(init, f);
      assert forall i | 0 <= i < |init| :: init[i] == bucket[i];
    }
  }
}
