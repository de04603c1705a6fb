/** The sections of the report `MarkdownReporter` in
    src/reporters/markdown_reporter.py writes: the custom findings, the
    slither findings and the remediation advice, each replaced by a fixed
    line when there is nothing to show. The counts in its summary table are
    those of the Tally module. */
module MarkdownReporter {
  import opened Wrappers
  import opened Text
  import opened Findings
  import opened Dicts
  import opened Results
  import opened Tally
  import opened Pieces

  /** One appended template of the three sections. */
  datatype Piece =
    | NoCustom
    | NoSlither
    | NoRemediation
    | Heading(name: string)
    | IssueHead(emoji: string, title: string, severity: string, file: string, line: string, description: string)
    | Snippet(code: string)
    | Recommendation(text: string)
    | Rule
    | SlitherIssue(emoji: string, severity: string, description: string)
    | AdviceHead(title: string, severity: string, description: string)
    | Bullet(text: string)
    | CodeExample(code: string)

  /** The text of each template, its fields filled in. */
  function Md(p: Piece): string {
    match p
    case NoCustom => "✅ 未发现自定义检测安全问题"
    case NoSlither => "✅ Slither未发现问题"
    case NoRemediation => "无特定修复建议"
    case Heading(name) => "\n### " + name + "\n\n"
    case IssueHead(emoji, title, severity, file, line, description) =>
      "#### " + emoji + " " + title + "\n\n" +
      "**严重程度:** " + Upper(severity) + "\n\n" +
      "**文件:** `" + file + "` (行号: " + line + ")\n\n" +
      "**描述:** " + description + "\n\n"
    case Snippet(code) => "**代码片段:**\n\n```solidity\n" + code + "\n```\n\n"
    case Recommendation(text) => "**建议:** " + text + "\n\n"
    case Rule => "---\n\n"
    case SlitherIssue(emoji, severity, description) =>
      "- " + emoji + " **" + Upper(severity) + "**: " + description + "\n\n"
    case AdviceHead(title, severity, description) =>
      "\n### " + title + "\n\n" +
      "**严重程度:** " + severity + "\n\n" +
      "**描述:** " + description + "\n\n" +
      "**解决方案:**\n\n"
    case Bullet(text) => "- " + text + "\n"
    case CodeExample(code) => "\n**代码示例:**\n\n```solidity\n" + Strip(code) + "\n```\n\n"
  }

  /** The emoji of a lower-cased severity: one per severity the summary
      counts, and a neutral one for every other text. */
  function Emoji(severity: string): (r: string)
    ensures r == "⚪" <==> severity !in KnownSeverities
  {
    if severity == "critical" then "🔴"
    else if severity == "high" then "🟠"
    else if severity == "medium" then "🟡"
    else if severity == "low" then "🟢"
    else "⚪"
  }

  /** The head of a custom finding: the emoji and upper-cased form of its
      lower-cased severity, which defaults to `Medium`, and the defaults of
      `issue.get`. */
  function IssueHeadOf(f: Finding): Piece {
    IssueHead(Emoji(SeverityOf(f)), f.title.GetOr("安全"), SeverityOf(f), f.file.GetOr("N/A"),
      LineText(f.line), f.description.GetOr("N/A"))
  }

  function SnippetPieces(f: Finding): seq<Piece> {
    if f.codeSnippet.Some? then [Snippet(f.codeSnippet.value)] else []
  }

  function RecommendationPieces(f: Finding): seq<Piece> {
    if f.recommendation.Some? then [Recommendation(f.recommendation.value)] else []
  }

  /** The templates one custom finding appends, closed by a rule. */
  function IssuePieces(f: Finding): seq<Piece> {
    [IssueHeadOf(f)] + SnippetPieces(f) + RecommendationPieces(f) + [Rule]
  }

  /** One custom entry: the detector name as a heading, then its findings. */
  function EntryPieces(entry: (string, seq<Finding>)): seq<Piece> {
    [Heading(entry.0)] + Each(entry.1, IssuePieces)
  }

  /** `_generate_custom_findings(results)` */
  function CustomPieces(results: AuditResult): seq<Piece> {
    if !Shown(results.custom) then [NoCustom] else Each(results.custom.value, EntryPieces)
  }

  function SlitherIssueOf(f: Finding): Piece {
    SlitherIssue(Emoji(SeverityOf(f)), SeverityOf(f), f.description.GetOr("N/A"))
  }

  function SlitherIssuePieces(f: Finding): seq<Piece> {
    [SlitherIssueOf(f)]
  }

  /** One slither entry: the detector name as a heading, then one list item
      per finding. */
  function SlitherEntryPieces(entry: (string, seq<Finding>)): seq<Piece> {
    [Heading(entry.0)] + Each(entry.1, SlitherIssuePieces)
  }

  /** `_generate_slither_findings(results)` */
  function SlitherPieces(results: AuditResult): seq<Piece> {
    if !Shown(results.slither) then [NoSlither] else Each(results.slither.value, SlitherEntryPieces)
  }

  /** The head of one advice entry: the title defaults to the finding type,
      the severity to `Medium` and the description to the empty text. */
  function AdviceHeadOf(entry: (string, Advice)): Piece {
    AdviceHead(entry.1.title.GetOr(entry.0), entry.1.severity.GetOr("Medium"), entry.1.description.GetOr(""))
  }

  function BulletPieces(s: string): seq<Piece> {
    [Bullet(s)]
  }

  function CodePieces(advice: Advice): seq<Piece> {
    if advice.codeExample.Some? then [CodeExample(advice.codeExample.value)] else []
  }

  /** The templates one advice entry appends, closed by a rule. */
  function AdvicePieces(entry: (string, Advice)): seq<Piece> {
    [AdviceHeadOf(entry)] + Each(entry.1.solutions.GetOr([]), BulletPieces) + CodePieces(entry.1) + [Rule]
  }

  /** `_generate_remediation_section(results)` */
  function RemediationPieces(results: AuditResult): seq<Piece> {
    if !Shown(results.remediation) then [NoRemediation] else Each(results.remediation.value, AdvicePieces)
  }

  predicate IsPlaceholder(p: Piece) { p.NoCustom? || p.NoSlither? || p.NoRemediation? }
  predicate IsHeading(p: Piece) { p.Heading? }
  predicate IsIssueHead(p: Piece) { p.IssueHead? }
  predicate IsSnippet(p: Piece) { p.Snippet? }
  predicate IsRecommendation(p: Piece) { p.Recommendation? }
  predicate IsRule(p: Piece) { p.Rule? }
  predicate IsSlitherIssue(p: Piece) { p.SlitherIssue? }
  predicate IsAdviceHead(p: Piece) { p.AdviceHead? }
  predicate IsBullet(p: Piece) { p.Bullet? }
  predicate IsCodeExample(p: Piece) { p.CodeExample? }

  /** Named per-finding piece maps (one head, one rule, nothing): the
      generic `Each` and `Keep` lemmas of `Pieces` are instantiated with
      these, so that the same function value appears in every statement. */
  function HeadPieces(f: Finding): seq<Piece> {
    [IssueHeadOf(f)]
  }

  function RulePieces(f: Finding): seq<Piece> {
    [Rule]
  }

  function NoPieces(f: Finding): seq<Piece> {
    []
  }

  /** The loop over the issues of one custom entry. */
  method AppendIssues(ps0: seq<Piece>, issues: seq<Finding>) returns (ps: seq<Piece>)
    ensures ps == ps0 + Each(issues, IssuePieces)
  {
    ps := ps0;
    for j := 0 to |issues|
      invariant ps == ps0 + Each(issues[..j], IssuePieces)
    {
      var issue := issues[j];
      var severity := Lower(issue.severity.GetOr("Medium"));
      var emoji := Emoji(severity);
      var item := [IssueHead(emoji, issue.title.GetOr("安全"), severity, issue.file.GetOr("N/A"),
        LineText(issue.line), issue.description.GetOr("N/A"))];
      if issue.codeSnippet.Some? {
        item := item + [Snippet(issue.codeSnippet.value)];
      }
      if issue.recommendation.Some? {
        item := item + [Recommendation(issue.recommendation.value)];
      }
      item := item + [Rule];
      EachStep(ps0, issues, IssuePieces, j);
      ps := ps + item;
    }
    assert issues[..|issues|] == issues;
  }

  /** The loop over the entries of a shown custom bucket. */
  method AppendCustomEntries(custom: Bucket) returns (ps: seq<Piece>)
    ensures ps == Each(custom, EntryPieces)
  {
    ps := [];
    for i := 0 to |custom|
      invariant ps == Each(custom[..i], EntryPieces)
    {
      var (name, issues) := custom[i];
      EachNext(custom, EntryPieces, i);
      var entry := AppendIssues([Heading(name)], issues);
      ps := ps + entry;
    }
    assert custom[..|custom|] == custom;
  }

  /** The templates `_generate_custom_findings(results)` appends. */
  method CustomFindings(results: AuditResult) returns (ps: seq<Piece>)
    ensures ps == CustomPieces(results)
  {
    if results.custom.None? || results.custom.value == [] {
      return [NoCustom];
    }
    ps := AppendCustomEntries(results.custom.value);
  }

  /** `_generate_custom_findings(results)` */
  method GenerateCustomFindings(results: AuditResult) returns (md: string)
    ensures md == Render(CustomPieces(results), Md)
  {
    var ps := CustomFindings(results);
    md := Render(ps, Md);
  }

  /** The loop over the issues of one slither entry. */
  method AppendSlitherIssues(ps0: seq<Piece>, issues: seq<Finding>) returns (ps: seq<Piece>)
    ensures ps == ps0 + Each(issues, SlitherIssuePieces)
  {
    ps := ps0;
    for j := 0 to |issues|
      invariant ps == ps0 + Each(issues[..j], SlitherIssuePieces)
    {
      var issue := issues[j];
      var severity := Lower(issue.severity.GetOr("Medium"));
      var emoji := Emoji(severity);
      EachStep(ps0, issues, SlitherIssuePieces, j);
      ps := ps + [SlitherIssue(emoji, severity, issue.description.GetOr("N/A"))];
    }
    assert issues[..|issues|] == issues;
  }

  /** The loop over the entries of a shown slither bucket. */
  method AppendSlitherEntries(slither: Bucket) returns (ps: seq<Piece>)
    ensures ps == Each(slither, SlitherEntryPieces)
  {
    ps := [];
    for i := 0 to |slither|
      invariant ps == Each(slither[..i], SlitherEntryPieces)
    {
      var (name, issues) := slither[i];
      EachNext(slither, SlitherEntryPieces, i);
      var entry := AppendSlitherIssues([Heading(name)], issues);
      ps := ps + entry;
    }
    assert slither[..|slither|] == slither;
  }

  /** The templates `_generate_slither_findings(results)` appends. */
  method SlitherFindings(results: AuditResult) returns (ps: seq<Piece>)
    ensures ps == SlitherPieces(results)
  {
    if results.slither.None? || results.slither.value == [] {
      return [NoSlither];
    }
    ps := AppendSlitherEntries(results.slither.value);
  }

  /** `_generate_slither_findings(results)` */
  method GenerateSlitherFindings(results: AuditResult) returns (md: string)
    ensures md == Render(SlitherPieces(results), Md)
  {
    var ps := SlitherFindings(results);
    md := Render(ps, Md);
  }

  /** The loop over the solutions of one advice entry. */
  method AppendBullets(ps0: seq<Piece>, solutions: seq<string>) returns (ps: seq<Piece>)
    ensures ps == ps0 + Each(solutions, BulletPieces)
  {
    ps := ps0;
    for j := 0 to |solutions|
      invariant ps == ps0 + Each(solutions[..j], BulletPieces)
    {
      EachStep(ps0, solutions, BulletPieces, j);
      ps := ps + [Bullet(solutions[j])];
    }
    assert solutions[..|solutions|] == solutions;
  }

  /** The body of the loop over the advice entries. */
  method AppendAdvice(ps0: seq<Piece>, entry: (string, Advice)) returns (ps: seq<Piece>)
    ensures ps == ps0 + AdvicePieces(entry)
  {
    var (issueType, advice) := entry;
    ps := ps0 + [AdviceHead(advice.title.GetOr(issueType), advice.severity.GetOr("Medium"),
      advice.description.GetOr(""))];
    ps := AppendBullets(ps, advice.solutions.GetOr([]));
    if advice.codeExample.Some? {
      ps := ps + [CodeExample(advice.codeExample.value)];
    }
    ps := ps + [Rule];
  }

  /** The templates `_generate_remediation_section(results)` appends. */
  method RemediationSection(results: AuditResult) returns (ps: seq<Piece>)
    ensures ps == RemediationPieces(results)
  {
    if results.remediation.None? || results.remediation.value == [] {
      return [NoRemediation];
    }
    var remediation := results.remediation.value;
    ps := [];
    for i := 0 to |remediation|
      invariant ps == Each(remediation[..i], AdvicePieces)
    {
      EachNext(remediation, AdvicePieces, i);
      ps := AppendAdvice(ps, remediation[i]);
    }
    assert remediation[..|remediation|] == remediation;
  }

  /** `_generate_remediation_section(results)` */
  method GenerateRemediationSection(results: AuditResult) returns (md: string)
    ensures md == Render(RemediationPieces(results), Md)
  {
    var ps := RemediationSection(results);
    md := Render(ps, Md);
  }

  /** Per-entry piece maps for the `Keep` lemmas below, named for the
      same reason as `HeadPieces`. */
  function HeadingOf(name: string): Piece {
    Heading(name)
  }

  function RuleFor(f: Finding): Piece {
    Rule
  }

  function RuleForAdvice(entry: (string, Advice)): Piece {
    Rule
  }

  /** The emoji is the neutral one exactly when the summary's breakdown
      does not count the severity. */
  lemma EmojiCounted(b: Breakdown, severity: string)
    ensures Emoji(severity) == "⚪" <==> Bump(b, severity) == b
  {
  }

  /** The four counted severities have four different emoji. */
  lemma EmojiDistinct()
    ensures forall a, b | a in KnownSeverities && b in KnownSeverities && a != b :: Emoji(a) != Emoji(b)
  {
  }

  /** The pieces of one custom finding that a filter keeps: its head, its
      snippet and its recommendation, each if present and wanted, then the
      closing rule if wanted. The same lemma family exists in `HtmlReporter`;
      it is restated here because each report has its own `Piece` type. */
  lemma IssueKept(f: Finding, wanted: Piece -> bool)
    ensures Keep(IssuePieces(f), wanted) ==
      (if wanted(IssueHeadOf(f)) then [IssueHeadOf(f)] else []) +
      (if SnippetPieces(f) != [] && wanted(SnippetPieces(f)[0]) then SnippetPieces(f) else []) +
      (if RecommendationPieces(f) != [] && wanted(RecommendationPieces(f)[0]) then RecommendationPieces(f) else []) +
      (if wanted(Rule) then [Rule] else [])
  {
    KeepFour(IssueHeadOf(f), SnippetPieces(f), RecommendationPieces(f), Rule, wanted);
  }

  /** A custom finding shows a snippet exactly when it has one. */
  lemma IssueSnippetKept(f: Finding)
    ensures Keep(IssuePieces(f), IsSnippet) == SnippetPieces(f)
  {
    IssueKept(f, IsSnippet);
  }

  /** A custom finding shows a recommendation exactly when it has one. */
  lemma IssueRecommendationKept(f: Finding)
    ensures Keep(IssuePieces(f), IsRecommendation) == RecommendationPieces(f)
  {
    IssueKept(f, IsRecommendation);
  }

  /** A custom finding is closed by exactly one rule. */
  lemma IssueRuleKept(f: Finding)
    ensures Keep(IssuePieces(f), IsRule) == [Rule]
  {
    IssueKept(f, IsRule);
  }

  /** One custom finding: its head first and a rule last, a snippet exactly
      when it has one and a recommendation exactly when it has one. */
  lemma IssueShape(f: Finding)
    ensures IssuePieces(f)[0] == IssueHeadOf(f) && IssuePieces(f)[|IssuePieces(f)| - 1] == Rule
    ensures Keep(IssuePieces(f), IsSnippet) == SnippetPieces(f)
    ensures Keep(IssuePieces(f), IsRecommendation) == RecommendationPieces(f)
    ensures Keep(IssuePieces(f), IsRule) == [Rule]
  {
    IssueSnippetKept(f);
    IssueRecommendationKept(f);
    IssueRuleKept(f);
  }

  lemma EntryShape()
    ensures forall e :: EntryPieces(e) == [HeadingOf(e.0)] + Each(e.1, IssuePieces)
    ensures forall e :: SlitherEntryPieces(e) == [HeadingOf(e.0)] + Each(e.1, SlitherIssuePieces)
  {
  }

  /** A custom finding holds no placeholder. */
  lemma IssueNoPlaceholder(f: Finding)
    ensures Keep(IssuePieces(f), IsPlaceholder) == NoPieces(f)
  {
    IssueKept(f, IsPlaceholder);
  }

  /** The entries of a shown custom bucket hold no placeholder. */
  lemma CustomEntriesNoPlaceholder(custom: Bucket)
    ensures Keep(Each(custom, EntryPieces), IsPlaceholder) == []
  {
    forall f | f in Flatten(custom)
      ensures Keep(IssuePieces(f), IsPlaceholder) == NoPieces(f)
    {
      IssueNoPlaceholder(f);
    }
    EntryShape();
    KeepHeaded(custom, EntryPieces, HeadingOf, IssuePieces, IsPlaceholder, NoPieces);
    EachNone(Flatten(custom), NoPieces);
  }

  /** The custom section is the fixed line exactly when the custom bucket is
      missing or empty; otherwise that line does not occur in it. */
  lemma CustomPlaceholder(results: AuditResult)
    ensures Keep(CustomPieces(results), IsPlaceholder) == if Shown(results.custom) then [] else [NoCustom]
  {
    if Shown(results.custom) {
      CustomEntriesNoPlaceholder(results.custom.value);
    } else {
      KeepOne(NoCustom, IsPlaceholder);
    }
  }

  /** A shown custom section has one heading per detector, in the order of
      the bucket's keys. */
  lemma CustomHeadings(results: AuditResult)
    requires Shown(results.custom)
    ensures Keep(CustomPieces(results), IsHeading) == MapAll(Keys(results.custom.value), HeadingOf)
  {
    var custom := results.custom.value;
    forall f | f in Flatten(custom)
      ensures Keep(IssuePieces(f), IsHeading) == []
    {
      IssueKept(f, IsHeading);
    }
    EntryShape();
    KeepHeadings(custom, EntryPieces, HeadingOf, IssuePieces, IsHeading);
  }

  /** A shown custom section has one head per finding, in order of detector
      and of finding. */
  lemma CustomHeads(results: AuditResult)
    requires Shown(results.custom)
    ensures Keep(CustomPieces(results), IsIssueHead) == MapAll(Flatten(results.custom.value), IssueHeadOf)
  {
    var custom := results.custom.value;
    forall f | f in Flatten(custom)
      ensures Keep(IssuePieces(f), IsIssueHead) == HeadPieces(f)
    {
      IssueKept(f, IsIssueHead);
    }
    EntryShape();
    KeepHeaded(custom, EntryPieces, HeadingOf, IssuePieces, IsIssueHead, HeadPieces);
    EachSingle(Flatten(custom), HeadPieces, IssueHeadOf);
  }

  /** The code snippets of a shown custom section are those of the findings
      that have one, in order. */
  lemma CustomSnippets(results: AuditResult)
    requires Shown(results.custom)
    ensures Keep(CustomPieces(results), IsSnippet) == Each(Flatten(results.custom.value), SnippetPieces)
  {
    var custom := results.custom.value;
    forall f | f in Flatten(custom)
      ensures Keep(IssuePieces(f), IsSnippet) == SnippetPieces(f)
    {
      IssueKept(f, IsSnippet);
    }
    EntryShape();
    KeepHeaded(custom, EntryPieces, HeadingOf, IssuePieces, IsSnippet, SnippetPieces);
  }

  /** The recommendations of a shown custom section are those of the
      findings that have one, in order. */
  lemma CustomRecommendations(results: AuditResult)
    requires Shown(results.custom)
    ensures Keep(CustomPieces(results), IsRecommendation) == Each(Flatten(results.custom.value), RecommendationPieces)
  {
    var custom := results.custom.value;
    forall f | f in Flatten(custom)
      ensures Keep(IssuePieces(f), IsRecommendation) == RecommendationPieces(f)
    {
      IssueKept(f, IsRecommendation);
    }
    EntryShape();
    KeepHeaded(custom, EntryPieces, HeadingOf, IssuePieces, IsRecommendation, RecommendationPieces);
  }

  /** A shown custom section has one rule per finding, as many as the
      summary counts for the custom category. */
  lemma CustomRules(results: AuditResult)
    requires Shown(results.custom)
    ensures Keep(CustomPieces(results), IsRule) == MapAll(Flatten(results.custom.value), RuleFor)
    ensures |Keep(CustomPieces(results), IsRule)| == CountsOf(results).custom
  {
    var custom := results.custom.value;
    forall f | f in Flatten(custom)
      ensures Keep(IssuePieces(f), IsRule) == RulePieces(f)
    {
      IssueKept(f, IsRule);
    }
    EntryShape();
    KeepHeaded(custom, EntryPieces, HeadingOf, IssuePieces, IsRule, RulePieces);
    EachSingle(Flatten(custom), RulePieces, RuleFor);
    CountsValues(results);
    SizeIsLength(custom);
  }

  /** The slither section is the fixed line exactly when the slither bucket
      is missing or empty; otherwise that line does not occur in it. */
  lemma SlitherPlaceholder(results: AuditResult)
    ensures Keep(SlitherPieces(results), IsPlaceholder) == if Shown(results.slither) then [] else [NoSlither]
  {
    if Shown(results.slither) {
      var slither := results.slither.value;
      forall f | f in Flatten(slither)
        ensures Keep(SlitherIssuePieces(f), IsPlaceholder) == NoPieces(f)
      {
        KeepOne(SlitherIssueOf(f), IsPlaceholder);
      }
      EntryShape();
      KeepHeaded(slither, SlitherEntryPieces, HeadingOf, SlitherIssuePieces, IsPlaceholder, NoPieces);
      EachNone(Flatten(slither), NoPieces);
    } else {
      KeepOne(NoSlither, IsPlaceholder);
    }
  }

  /** A shown slither section has one heading per detector, in the order of
      the bucket's keys. */
  lemma SlitherHeadings(results: AuditResult)
    requires Shown(results.slither)
    ensures Keep(SlitherPieces(results), IsHeading) == MapAll(Keys(results.slither.value), HeadingOf)
  {
    var slither := results.slither.value;
    forall f | f in Flatten(slither)
      ensures Keep(SlitherIssuePieces(f), IsHeading) == []
    {
      KeepOne(SlitherIssueOf(f), IsHeading);
    }
    EntryShape();
    KeepHeadings(slither, SlitherEntryPieces, HeadingOf, SlitherIssuePieces, IsHeading);
  }

  /** A shown slither section has one list item per finding, in order, as
      many as the summary counts for the slither category. */
  lemma SlitherIssues(results: AuditResult)
    requires Shown(results.slither)
    ensures Keep(SlitherPieces(results), IsSlitherIssue) == MapAll(Flatten(results.slither.value), SlitherIssueOf)
    ensures |Keep(SlitherPieces(results), IsSlitherIssue)| == CountsOf(results).slither
  {
    var slither := results.slither.value;
    forall f | f in Flatten(slither)
      ensures Keep(SlitherIssuePieces(f), IsSlitherIssue) == SlitherIssuePieces(f)
    {
      KeepOne(SlitherIssueOf(f), IsSlitherIssue);
    }
    EntryShape();
    KeepHeaded(slither, SlitherEntryPieces, HeadingOf, SlitherIssuePieces, IsSlitherIssue, SlitherIssuePieces);
    EachSingle(Flatten(slither), SlitherIssuePieces, SlitherIssueOf);
    CountsValues(results);
    SizeIsLength(slither);
  }

  /** The pieces of one advice entry that a filter keeps: its head if
      wanted, the kept bullets, its code example if present and wanted, and
      the closing rule if wanted. */
  lemma AdviceKept(entry: (string, Advice), wanted: Piece -> bool)
    ensures Keep(AdvicePieces(entry), wanted) ==
      (if wanted(AdviceHeadOf(entry)) then [AdviceHeadOf(entry)] else []) +
      Keep(Each(entry.1.solutions.GetOr([]), BulletPieces), wanted) +
      (if CodePieces(entry.1) != [] && wanted(CodePieces(entry.1)[0]) then CodePieces(entry.1) else []) +
      (if wanted(Rule) then [Rule] else [])
  {
    KeepAround(AdviceHeadOf(entry), Each(entry.1.solutions.GetOr([]), BulletPieces), CodePieces(entry.1), Rule, wanted);
  }

  /** The bullet of one solution, as a named map for the `Keep` lemmas. */
  function BulletOf(s: string): Piece {
    Bullet(s)
  }

  /** An advice entry has one bullet per solution, in order. */
  lemma AdviceBullets(entry: (string, Advice))
    ensures Keep(AdvicePieces(entry), IsBullet) == MapAll(entry.1.solutions.GetOr([]), BulletOf)
  {
    var solutions := entry.1.solutions.GetOr([]);
    forall s | s in solutions
      ensures Keep(BulletPieces(s), IsBullet) == [BulletOf(s)]
    {
      KeepOne(Bullet(s), IsBullet);
    }
    KeepEachOne(solutions, BulletPieces, IsBullet, BulletOf);
    AdviceKept(entry, IsBullet);
  }

  /** An advice entry shows a code example exactly when it has one. */
  lemma AdviceCode(entry: (string, Advice))
    ensures Keep(AdvicePieces(entry), IsCodeExample) == CodePieces(entry.1)
  {
    var solutions := entry.1.solutions.GetOr([]);
    forall s | s in solutions
      ensures Keep(BulletPieces(s), IsCodeExample) == []
    {
      KeepOne(Bullet(s), IsCodeExample);
    }
    KeepEachNone(solutions, BulletPieces, IsCodeExample);
    AdviceKept(entry, IsCodeExample);
  }

  /** An advice entry holds no placeholder. */
  lemma AdviceNoPlaceholder(entry: (string, Advice))
    ensures Keep(AdvicePieces(entry), IsPlaceholder) == []
  {
    var solutions := entry.1.solutions.GetOr([]);
    forall s | s in solutions
      ensures Keep(BulletPieces(s), IsPlaceholder) == []
    {
      KeepOne(Bullet(s), IsPlaceholder);
    }
    KeepEachNone(solutions, BulletPieces, IsPlaceholder);
    AdviceKept(entry, IsPlaceholder);
  }

  /** An advice entry has exactly one head. */
  lemma AdviceHeadKept(entry: (string, Advice))
    ensures Keep(AdvicePieces(entry), IsAdviceHead) == [AdviceHeadOf(entry)]
  {
    var solutions := entry.1.solutions.GetOr([]);
    forall s | s in solutions
      ensures Keep(BulletPieces(s), IsAdviceHead) == []
    {
      KeepOne(Bullet(s), IsAdviceHead);
    }
    KeepEachNone(solutions, BulletPieces, IsAdviceHead);
    AdviceKept(entry, IsAdviceHead);
  }

  /** An advice entry is closed by exactly one rule. */
  lemma AdviceRuleKept(entry: (string, Advice))
    ensures Keep(AdvicePieces(entry), IsRule) == [Rule]
  {
    var solutions := entry.1.solutions.GetOr([]);
    forall s | s in solutions
      ensures Keep(BulletPieces(s), IsRule) == []
    {
      KeepOne(Bullet(s), IsRule);
    }
    KeepEachNone(solutions, BulletPieces, IsRule);
    AdviceKept(entry, IsRule);
  }

  /** One advice entry: its head first and a rule last, one bullet per
      solution in order, and the code example exactly when it has one. */
  lemma AdviceShape(entry: (string, Advice))
    ensures AdvicePieces(entry)[0] == AdviceHeadOf(entry)
    ensures AdvicePieces(entry)[|AdvicePieces(entry)| - 1] == Rule
    ensures Keep(AdvicePieces(entry), IsBullet) == MapAll(entry.1.solutions.GetOr([]), BulletOf)
    ensures Keep(AdvicePieces(entry), IsCodeExample) == CodePieces(entry.1)
  {
    AdviceBullets(entry);
    AdviceCode(entry);
  }

  /** The remediation section is the fixed line exactly when the advice is
      missing or empty; otherwise it has one head and one rule per advice
      entry, in the order of the advice dictionary. */
  lemma RemediationShape(results: AuditResult)
    ensures Keep(RemediationPieces(results), IsPlaceholder) ==
      if Shown(results.remediation) then [] else [NoRemediation]
    ensures Shown(results.remediation) ==>
      Keep(RemediationPieces(results), IsAdviceHead) == MapAll(results.remediation.value, AdviceHeadOf)
    ensures Shown(results.remediation) ==>
      Keep(RemediationPieces(results), IsRule) == MapAll(results.remediation.value, RuleForAdvice)
  {
    if Shown(results.remediation) {
      var remediation := results.remediation.value;
      forall e | e in remediation
        ensures Keep(AdvicePieces(e), IsPlaceholder) == []
        ensures Keep(AdvicePieces(e), IsAdviceHead) == [AdviceHeadOf(e)]
        ensures Keep(AdvicePieces(e), IsRule) == [RuleForAdvice(e)]
      {
        AdviceNoPlaceholder(e);
        AdviceHeadKept(e);
        AdviceRuleKept(e);
      }
      KeepEachNone(remediation, AdvicePieces, IsPlaceholder);
      KeepEachOne(remediation, AdvicePieces, IsAdviceHead, AdviceHeadOf);
      KeepEachOne(remediation, AdvicePieces, IsRule, RuleForAdvice);
    } else {
      KeepOne(NoRemediation, IsPlaceholder);
    }
  }

  /** Text that begins with a piece whose text begins with a line feed
      cannot be a placeholder line. */
  lemma StartsWithLineFeed(ps: seq<Piece>, placeholder: Piece)
    requires ps != [] && |Md(ps[0])| > 0 && Md(ps[0])[0] == '\n'
    requires |Md(placeholder)| > 0 && Md(placeholder)[0] != '\n'
    ensures Render(ps, Md) != Md(placeholder)
  {
    RenderFirst(ps, Md);
  }

  /** The custom section is the text `✅ 未发现自定义检测安全问题` exactly
      when the custom bucket is missing or empty. */
  lemma CustomText(results: AuditResult)
    ensures Render(CustomPieces(results), Md) == Md(NoCustom) <==> !Shown(results.custom)
  {
    if Shown(results.custom) {
      var custom := results.custom.value;
      EachFirst(custom, EntryPieces);
      StartsWithLineFeed(CustomPieces(results), NoCustom);
    } else {
      RenderOne(NoCustom, Md);
    }
  }

  /** The slither section is the text `✅ Slither未发现问题` exactly when the
      slither bucket is missing or empty. */
  lemma SlitherText(results: AuditResult)
    ensures Render(SlitherPieces(results), Md) == Md(NoSlither) <==> !Shown(results.slither)
  {
    if Shown(results.slither) {
      var slither := results.slither.value;
      EachFirst(slither, SlitherEntryPieces);
      StartsWithLineFeed(SlitherPieces(results), NoSlither);
    } else {
      RenderOne(NoSlither, Md);
    }
  }

  /** The remediation section is the text `无特定修复建议` exactly when the
      advice is missing or empty. */
  lemma RemediationText(results: AuditResult)
    ensures Render(RemediationPieces(results), Md) == Md(NoRemediation) <==> !Shown(results.remediation)
  {
    if Shown(results.remediation) {
      var remediation := results.remediation.value;
      EachFirst(remediation, AdvicePieces);
      StartsWithLineFeed(RemediationPieces(results), NoRemediation);
    } else {
      RenderOne(NoRemediation, Md);
    }
  }
}
