/** The sections of the report `HTMLReporter` in
    src/reporters/html_reporter.py writes: the findings section, custom
    before slither or a fixed block when there is nothing to show, and the
    remediation section. The counts in its summary are those of the Tally
    module. */
module HtmlReporter {
  import opened Wrappers
  import opened Text
  import opened Findings
  import opened Dicts
  import opened Results
  import opened Tally
  import opened Pieces

  /** One appended template of the findings or remediation sections. */
  datatype Piece =
    | CustomOpen
    | IssueHead(severity: string, title: string, file: string, line: string, description: string)
    | CodeBlock(snippet: string)
    | Recommendation(text: string)
    | IssueClose
    | SlitherOpen
    | DetectorHeading(name: string)
    | SlitherIssue(severity: string, description: string)
    | NoIssues
    | RemediationOpen
    | AdviceHead(title: string, severity: string, description: string)
    | Solution(text: string)
    | CodeExample(code: string)
    | AdviceClose
    | SectionClose

  /** The text of each template, its fields filled in. */
  function Html(p: Piece): string {
    match p
    case CustomOpen => "<div class=\"section\"><h2>🔍 自定义安全检查</h2>"
    case IssueHead(severity, title, file, line, description) =>
      "\n" +
      Indent(16) + "<div class=\"finding " + severity + "\">" + "\n" +
      Indent(20) + "<div class=\"finding-header\">" + "\n" +
      Indent(24) + "<div class=\"finding-title\">" + title + "</div>" + "\n" +
      Indent(24) + "<span class=\"severity-badge badge-" + severity + "\">" + Upper(severity) + "</span>" + "\n" +
      Indent(20) + "</div>" + "\n" +
      Indent(20) + "<div class=\"finding-meta\">" + "\n" +
      Indent(24) + "📁 " + file + " | 行号: " + line + "\n" +
      Indent(20) + "</div>" + "\n" +
      Indent(20) + "<p><strong>描述:</strong> " + description + "</p>" + "\n"
    case CodeBlock(snippet) =>
      "\n" + Indent(20) + "<div class=\"code-block\">" + snippet + "</div>" + "\n"
    case Recommendation(text) =>
      "\n" +
      Indent(20) + "<div class=\"recommendation\">" + "\n" +
      Indent(24) + "<strong>💡 建议:</strong> " + text + "\n" +
      Indent(20) + "</div>" + "\n"
    case IssueClose => "</div>"
    case SlitherOpen => "<div class=\"section\"><h2>🔬 Slither 静态分析</h2>"
    case DetectorHeading(name) => "<h3>" + name + "</h3>"
    case SlitherIssue(severity, description) =>
      "\n" +
      Indent(16) + "<div class=\"finding " + severity + "\">" + "\n" +
      Indent(20) + "<div class=\"finding-header\">" + "\n" +
      Indent(24) + "<div class=\"finding-title\">检测到问题</div>" + "\n" +
      Indent(24) + "<span class=\"severity-badge badge-" + severity + "\">" + Upper(severity) + "</span>" + "\n" +
      Indent(20) + "</div>" + "\n" +
      Indent(20) + "<p>" + description + "</p>" + "\n" +
      Indent(16) + "</div>"
    case NoIssues => "<div class=\"section\"><h2>✅ 未发现问题</h2><p>恭喜！未发现明显的安全问题。</p></div>"
    case RemediationOpen => "<div class=\"section\"><h2>🔧 修复建议</h2>"
    case AdviceHead(title, severity, description) =>
      "\n" +
      Indent(12) + "<div class=\"remediation-item\">" + "\n" +
      Indent(16) + "<h3>📌 " + title + "</h3>" + "\n" +
      Indent(16) + "<p><strong>严重程度:</strong> <span class=\"severity-" + Lower(severity) + "\">" +
      severity + "</span></p>" + "\n" +
      Indent(16) + "<p><strong>描述:</strong> " + description + "</p>" + "\n" +
      "\n" +
      Indent(16) + "<h4>解决方案:</h4>" + "\n" +
      Indent(16) + "<ul class=\"solution-list\">" + "\n"
    case Solution(text) => Indent(20) + "<li>" + text + "</li>" + "\n"
    case CodeExample(code) =>
      "\n" +
      Indent(16) + "</ul>" + "\n" +
      Indent(16) + "<h4>代码示例:</h4>" + "\n" +
      Indent(16) + "<div class=\"code-block\">" + Strip(code) + "</div>" + "\n"
    case AdviceClose => Indent(12) + "</div>" + "\n"
    case SectionClose => "</div>"
  }

  /** The head of a custom finding: lower-cased severity defaulting to
      `Medium`, and the defaults of `issue.get`. */
  function Head(f: Finding): Piece {
    IssueHead(SeverityOf(f), f.title.GetOr("安全"), f.file.GetOr("N/A"), LineText(f.line),
      f.description.GetOr("N/A"))
  }

  /** The templates one custom finding appends. */
  function IssuePieces(f: Finding): seq<Piece> {
    [Head(f)] + SnippetPieces(f) + RecommendationPieces(f) + [IssueClose]
  }

  /** The custom section does not show detector names. */
  function EntryPieces(entry: (string, seq<Finding>)): seq<Piece> {
    Each(entry.1, IssuePieces)
  }

  /** `_generate_custom_findings(findings)` */
  function CustomPieces(findings: Bucket): seq<Piece> {
    [CustomOpen] + Each(findings, EntryPieces) + [SectionClose]
  }

  function SlitherIssuePieces(f: Finding): seq<Piece> {
    [SlitherIssue(SeverityOf(f), f.description.GetOr("N/A"))]
  }

  function SlitherEntryPieces(entry: (string, seq<Finding>)): seq<Piece> {
    [DetectorHeading(entry.0)] + Each(entry.1, SlitherIssuePieces)
  }

  /** `_generate_slither_findings(findings)` */
  function SlitherPieces(findings: Bucket): seq<Piece> {
    [SlitherOpen] + Each(findings, SlitherEntryPieces) + [SectionClose]
  }

  /** `_generate_findings_section(results)` */
  function FindingsSectionPieces(results: AuditResult): seq<Piece> {
    if !Shown(results.custom) && !Shown(results.slither) then [NoIssues]
    else
      (if Shown(results.custom) then CustomPieces(results.custom.value) else []) +
      (if Shown(results.slither) then SlitherPieces(results.slither.value) else [])
  }

  /** The head of one advice item: the title defaults to the finding type,
      the severity to `Medium` and the description to the empty text. */
  function AdviceHeadOf(entry: (string, Advice)): Piece {
    AdviceHead(entry.1.title.GetOr(entry.0), entry.1.severity.GetOr("Medium"), entry.1.description.GetOr(""))
  }

  /** The `<li>` of one solution as a single piece; `SolutionPieces` is
      the same as a one-element sequence, the form `Each` appends. */
  function SolutionOf(s: string): Piece {
    Solution(s)
  }

  function SolutionPieces(s: string): seq<Piece> {
    [Solution(s)]
  }

  function CodePieces(advice: Advice): seq<Piece> {
    if advice.codeExample.Some? then [CodeExample(advice.codeExample.value)] else []
  }

  /** The templates one advice entry appends; the list of solutions is
      closed only by the code example. */
  function AdvicePieces(entry: (string, Advice)): seq<Piece> {
    [AdviceHeadOf(entry)] +
    Each(entry.1.solutions.GetOr([]), SolutionPieces) +
    CodePieces(entry.1) +
    [AdviceClose]
  }

  /** `_generate_remediation_section(results)` */
  function RemediationPieces(results: AuditResult): seq<Piece> {
    if !Shown(results.remediation) then []
    else [RemediationOpen] + Each(results.remediation.value, AdvicePieces) + [SectionClose]
  }

  predicate IsIssueHead(p: Piece) { p.IssueHead? }
  predicate IsCodeBlock(p: Piece) { p.CodeBlock? }
  predicate IsRecommendation(p: Piece) { p.Recommendation? }
  predicate IsSectionHead(p: Piece) { p.CustomOpen? || p.SlitherOpen? || p.NoIssues? }
  predicate IsAdviceHead(p: Piece) { p.AdviceHead? }
  predicate IsSolution(p: Piece) { p.Solution? }

  /** The code blocks the custom findings should produce, in order. */
  function SnippetPieces(f: Finding): seq<Piece> {
    if f.codeSnippet.Some? then [CodeBlock(f.codeSnippet.value)] else []
  }

  /** The recommendations the custom findings should produce, in order. */
  function RecommendationPieces(f: Finding): seq<Piece> {
    if f.recommendation.Some? then [Recommendation(f.recommendation.value)] else []
  }

  predicate IsCodeExample(p: Piece) { p.CodeExample? }

  /** The loop over the issues of one custom entry: the templates of each
      issue in turn. */
  method AppendIssues(ps0: seq<Piece>, issues: seq<Finding>) returns (ps: seq<Piece>)
    ensures ps == ps0 + Each(issues, IssuePieces)
  {
    ps := ps0;
    for j := 0 to |issues|
      invariant ps == ps0 + Each(issues[..j], IssuePieces)
    {
      var issue := issues[j];
      var severity := Lower(issue.severity.GetOr("Medium"));
      var item := [IssueHead(severity, issue.title.GetOr("安全"), issue.file.GetOr("N/A"),
        LineText(issue.line), issue.description.GetOr("N/A"))];
      if issue.codeSnippet.Some? {
        item := item + [CodeBlock(issue.codeSnippet.value)];
      }
      if issue.recommendation.Some? {
        item := item + [Recommendation(issue.recommendation.value)];
      }
      item := item + [IssueClose];
      EachStep(ps0, issues, IssuePieces, j);
      ps := ps + item;
    }
    assert issues[..|issues|] == issues;
  }

  /** The templates `_generate_custom_findings(findings)` appends. */
  method CustomFindings(findings: Bucket) returns (ps: seq<Piece>)
    ensures ps == CustomPieces(findings)
  {
    ps := [CustomOpen];
    for i := 0 to |findings|
      invariant ps == [CustomOpen] + Each(findings[..i], EntryPieces)
    {
      EachStep([CustomOpen], findings, EntryPieces, i);
      ps := AppendIssues(ps, findings[i].1);
    }
    assert findings[..|findings|] == findings;
    ps := ps + [SectionClose];
  }

  /** `_generate_custom_findings(findings)` */
  method GenerateCustomFindings(findings: Bucket) returns (html: string)
    ensures html == Render(CustomPieces(findings), Html)
  {
    var ps := CustomFindings(findings);
    html := Render(ps, Html);
  }

  /** The loop over the issues of one slither entry. */
  method AppendSlitherIssues(ps0: seq<Piece>, issues: seq<Finding>) returns (ps: seq<Piece>)
    ensures ps == ps0 + Each(issues, SlitherIssuePieces)
  {
    ps := ps0;
    for j := 0 to |issues|
      invariant ps == ps0 + Each(issues[..j], SlitherIssuePieces)
    {
      var issue := issues[j];
      var severity := Lower(issue.severity.GetOr("Medium"));
      EachStep(ps0, issues, SlitherIssuePieces, j);
      ps := ps + [SlitherIssue(severity, issue.description.GetOr("N/A"))];
    }
    assert issues[..|issues|] == issues;
  }

  /** The templates `_generate_slither_findings(findings)` appends. */
  method SlitherFindings(findings: Bucket) returns (ps: seq<Piece>)
    ensures ps == SlitherPieces(findings)
  {
    ps := [SlitherOpen];
    for i := 0 to |findings|
      invariant ps == [SlitherOpen] + Each(findings[..i], SlitherEntryPieces)
    {
      var (name, issues) := findings[i];
      EachStep([SlitherOpen], findings, SlitherEntryPieces, i);
      ghost var before := ps;
      ps := ps + [DetectorHeading(name)];
      ps := AppendSlitherIssues(ps, issues);
      assert ps == before + SlitherEntryPieces(findings[i]);
    }
    assert findings[..|findings|] == findings;
    ps := ps + [SectionClose];
  }

  /** `_generate_slither_findings(findings)` */
  method GenerateSlitherFindings(findings: Bucket) returns (html: string)
    ensures html == Render(SlitherPieces(findings), Html)
  {
    var ps := SlitherFindings(findings);
    html := Render(ps, Html);
  }

  /** The templates of `_generate_findings_section(results)`: the sections
      in order, or the fixed block when there is none. Joining the rendered
      sections is rendering their templates one after the other, and as no
      section is empty, there is no section exactly when there are no
      templates. */
  method FindingsSection(results: AuditResult) returns (ps: seq<Piece>)
    ensures ps == FindingsSectionPieces(results)
  {
    var sections: seq<Piece> := [];
    if results.custom.Some? && results.custom.value != [] {
      var section := CustomFindings(results.custom.value);
      sections := sections + section;
    }
    if results.slither.Some? && results.slither.value != [] {
      var section := SlitherFindings(results.slither.value);
      sections := sections + section;
    }
    if sections == [] {
      return [NoIssues];
    }
    ps := sections;
  }

  /** `_generate_findings_section(results)` */
  method GenerateFindingsSection(results: AuditResult) returns (html: string)
    ensures html == Render(FindingsSectionPieces(results), Html)
  {
    var ps := FindingsSection(results);
    html := Render(ps, Html);
  }

  /** The loop over the solutions of one advice entry. */
  method AppendSolutions(ps0: seq<Piece>, solutions: seq<string>) returns (ps: seq<Piece>)
    ensures ps == ps0 + Each(solutions, SolutionPieces)
  {
    ps := ps0;
    for j := 0 to |solutions|
      invariant ps == ps0 + Each(solutions[..j], SolutionPieces)
    {
      EachStep(ps0, solutions, SolutionPieces, j);
      ps := ps + [Solution(solutions[j])];
    }
    assert solutions[..|solutions|] == solutions;
  }

  /** The body of the loop over the advice entries. */
  method AppendAdvice(ps0: seq<Piece>, entry: (string, Advice)) returns (ps: seq<Piece>)
    ensures ps == ps0 + AdvicePieces(entry)
  {
    var (issueType, advice) := entry;
    ps := ps0 + [AdviceHead(advice.title.GetOr(issueType), advice.severity.GetOr("Medium"),
      advice.description.GetOr(""))];
    ps := AppendSolutions(ps, advice.solutions.GetOr([]));
    if advice.codeExample.Some? {
      ps := ps + [CodeExample(advice.codeExample.value)];
    }
    ps := ps + [AdviceClose];
    assert ps == ps0 + AdvicePieces(entry);
  }

  /** `_generate_remediation_section(results)` */
  method GenerateRemediationSection(results: AuditResult) returns (html: string)
    ensures html == Render(RemediationPieces(results), Html)
  {
    if results.remediation.None? || results.remediation.value == [] {
      return "";
    }
    var remediation := results.remediation.value;
    var ps := [RemediationOpen];
    for i := 0 to |remediation|
      invariant ps == [RemediationOpen] + Each(remediation[..i], AdvicePieces)
    {
      EachStep([RemediationOpen], remediation, AdvicePieces, i);
      ps := AppendAdvice(ps, remediation[i]);
    }
    assert remediation[..|remediation|] == remediation;
    ps := ps + [SectionClose];
    html := Render(ps, Html);
  }

  /** The pieces of one custom finding that a filter keeps: its head, its
      code block and its recommendation, each if present and wanted, then
      the closing tag if wanted. */
  lemma IssueKept(f: Finding, wanted: Piece -> bool)
    ensures Keep(IssuePieces(f), wanted) ==
      (if wanted(Head(f)) then [Head(f)] else []) +
      (if SnippetPieces(f) != [] && wanted(SnippetPieces(f)[0]) then SnippetPieces(f) else []) +
      (if RecommendationPieces(f) != [] && wanted(RecommendationPieces(f)[0]) then RecommendationPieces(f) else []) +
      (if wanted(IssueClose) then [IssueClose] else [])
  {
    KeepFour(Head(f), SnippetPieces(f), RecommendationPieces(f), IssueClose, wanted);
  }

  /** A custom finding has exactly one head. */
  lemma IssueHeadKept(f: Finding)
    ensures Keep(IssuePieces(f), IsIssueHead) == [Head(f)]
  {
    IssueKept(f, IsIssueHead);
  }

  /** A custom finding has a code block exactly when it has a snippet. */
  lemma IssueBlockKept(f: Finding)
    ensures Keep(IssuePieces(f), IsCodeBlock) == SnippetPieces(f)
  {
    IssueKept(f, IsCodeBlock);
  }

  /** A custom finding has a recommendation block exactly when it has a
      recommendation. */
  lemma IssueRecommendationKept(f: Finding)
    ensures Keep(IssuePieces(f), IsRecommendation) == RecommendationPieces(f)
  {
    IssueKept(f, IsRecommendation);
  }

  /** A custom finding opens no section. */
  lemma IssueSectionKept(f: Finding)
    ensures Keep(IssuePieces(f), IsSectionHead) == []
  {
    IssueKept(f, IsSectionHead);
  }

  /** One custom finding: its head first and the closing tag last, a code
      block exactly when it has a snippet and a recommendation exactly when
      it has one. */
  lemma IssueShape(f: Finding)
    ensures IssuePieces(f)[0] == Head(f) && IssuePieces(f)[|IssuePieces(f)| - 1] == IssueClose
    ensures Keep(IssuePieces(f), IsIssueHead) == [Head(f)]
    ensures Keep(IssuePieces(f), IsCodeBlock) == SnippetPieces(f)
    ensures Keep(IssuePieces(f), IsRecommendation) == RecommendationPieces(f)
    ensures Keep(IssuePieces(f), IsSectionHead) == []
  {
    IssueHeadKept(f);
    IssueBlockKept(f);
    IssueRecommendationKept(f);
    IssueSectionKept(f);
  }

  /** The CSS class of a custom finding is its severity lower-cased, which
      defaults to `Medium`, and its badge is the severity upper-cased. */
  lemma HeadSeverity(f: Finding)
    ensures Head(f).severity == Lower(f.severity.GetOr("Medium"))
    ensures Lower(Head(f).severity) == Head(f).severity
    ensures Upper(Head(f).severity) == Upper(f.severity.GetOr("Medium"))
  {
    LowerLower(f.severity.GetOr("Medium"));
    UpperLower(f.severity.GetOr("Medium"));
  }

  /** The custom section has one head per finding of the bucket, in order
      of entry and of finding, and no detector names. */
  lemma CustomHeads(findings: Bucket)
    ensures Keep(CustomPieces(findings), IsIssueHead) == MapAll(Flatten(findings), Head)
  {
    EachFlatten(findings, EntryPieces, IssuePieces);
    KeepWrap(CustomOpen, Each(findings, EntryPieces), SectionClose, IsIssueHead);
    forall f | f in Flatten(findings)
      ensures Keep(IssuePieces(f), IsIssueHead) == [Head(f)]
    {
      IssueHeadKept(f);
    }
    KeepEachOne(Flatten(findings), IssuePieces, IsIssueHead, Head);
  }

  /** The code blocks of the custom section are the snippets of the
      findings that have one, in order, and its recommendations those of
      the findings that have one. */
  lemma CustomBlocks(findings: Bucket)
    ensures Keep(CustomPieces(findings), IsCodeBlock) == Each(Flatten(findings), SnippetPieces)
    ensures Keep(CustomPieces(findings), IsRecommendation) == Each(Flatten(findings), RecommendationPieces)
  {
    EachFlatten(findings, EntryPieces, IssuePieces);
    KeepWrap(CustomOpen, Each(findings, EntryPieces), SectionClose, IsCodeBlock);
    KeepWrap(CustomOpen, Each(findings, EntryPieces), SectionClose, IsRecommendation);
    forall f | f in Flatten(findings)
      ensures Keep(IssuePieces(f), IsCodeBlock) == SnippetPieces(f)
      ensures Keep(IssuePieces(f), IsRecommendation) == RecommendationPieces(f)
    {
      IssueShape(f);
    }
    KeepEach(Flatten(findings), IssuePieces, IsCodeBlock, SnippetPieces);
    KeepEach(Flatten(findings), IssuePieces, IsRecommendation, RecommendationPieces);
  }

  lemma CustomSectionHead(findings: Bucket)
    ensures Keep(CustomPieces(findings), IsSectionHead) == [CustomOpen]
  {
    var inner := Each(findings, EntryPieces);
    EachFlatten(findings, EntryPieces, IssuePieces);
    forall f | f in Flatten(findings)
      ensures Keep(IssuePieces(f), IsSectionHead) == []
    {
      IssueSectionKept(f);
    }
    KeepEachNone(Flatten(findings), IssuePieces, IsSectionHead);
    KeepAppend([CustomOpen] + inner, [SectionClose], IsSectionHead);
    KeepAppend([CustomOpen], inner, IsSectionHead);
    KeepOne(CustomOpen, IsSectionHead);
    KeepOne(SectionClose, IsSectionHead);
  }

  lemma SlitherSectionHead(findings: Bucket)
    ensures Keep(SlitherPieces(findings), IsSectionHead) == [SlitherOpen]
  {
    var inner := Each(findings, SlitherEntryPieces);
    forall e | e in findings
      ensures Keep(SlitherEntryPieces(e), IsSectionHead) == []
    {
      forall f | f in e.1
        ensures Keep(SlitherIssuePieces(f), IsSectionHead) == []
      {
        KeepOne(SlitherIssue(SeverityOf(f), f.description.GetOr("N/A")), IsSectionHead);
      }
      KeepEachNone(e.1, SlitherIssuePieces, IsSectionHead);
      KeepAppend([DetectorHeading(e.0)], Each(e.1, SlitherIssuePieces), IsSectionHead);
      KeepOne(DetectorHeading(e.0), IsSectionHead);
    }
    KeepEachNone(findings, SlitherEntryPieces, IsSectionHead);
    KeepAppend([SlitherOpen] + inner, [SectionClose], IsSectionHead);
    KeepAppend([SlitherOpen], inner, IsSectionHead);
    KeepOne(SlitherOpen, IsSectionHead);
    KeepOne(SectionClose, IsSectionHead);
  }

  predicate IsDetectorHeading(p: Piece) { p.DetectorHeading? }
  predicate IsSlitherIssue(p: Piece) { p.SlitherIssue? }

  /** Named maps for the `Keep` lemmas: the `<h3>` of one detector and the
      issue block of one slither finding. */
  function DetectorHeadingOf(name: string): Piece {
    DetectorHeading(name)
  }

  function SlitherIssueOf(f: Finding): Piece {
    SlitherIssue(SeverityOf(f), f.description.GetOr("N/A"))
  }

  /** The slither section has one `<h3>` per detector, in the order of the
      keys. */
  lemma SlitherHeadings(findings: Bucket)
    ensures Keep(SlitherPieces(findings), IsDetectorHeading) == MapAll(Keys(findings), DetectorHeadingOf)
  {
    forall f | f in Flatten(findings)
      ensures Keep(SlitherIssuePieces(f), IsDetectorHeading) == []
    {
      KeepOne(SlitherIssueOf(f), IsDetectorHeading);
    }
    assert forall e :: SlitherEntryPieces(e) == [DetectorHeadingOf(e.0)] + Each(e.1, SlitherIssuePieces);
    KeepHeadings(findings, SlitherEntryPieces, DetectorHeadingOf, SlitherIssuePieces, IsDetectorHeading);
    KeepWrap(SlitherOpen, Each(findings, SlitherEntryPieces), SectionClose, IsDetectorHeading);
  }

  /** The slither section has one issue block per finding, in order, as
      many as the summary counts for the slither category. */
  lemma SlitherIssues(results: AuditResult)
    requires results.slither.Some?
    ensures Keep(SlitherPieces(results.slither.value), IsSlitherIssue) == MapAll(Flatten(results.slither.value), SlitherIssueOf)
    ensures |Keep(SlitherPieces(results.slither.value), IsSlitherIssue)| == CountsOf(results).slither
  {
    var findings := results.slither.value;
    forall f | f in Flatten(findings)
      ensures Keep(SlitherIssuePieces(f), IsSlitherIssue) == SlitherIssuePieces(f)
    {
      KeepOne(SlitherIssueOf(f), IsSlitherIssue);
    }
    assert forall e :: SlitherEntryPieces(e) == [DetectorHeadingOf(e.0)] + Each(e.1, SlitherIssuePieces);
    KeepHeaded(findings, SlitherEntryPieces, DetectorHeadingOf, SlitherIssuePieces, IsSlitherIssue, SlitherIssuePieces);
    KeepWrap(SlitherOpen, Each(findings, SlitherEntryPieces), SectionClose, IsSlitherIssue);
    EachSingle(Flatten(findings), SlitherIssuePieces, SlitherIssueOf);
    CountsValues(results);
    SizeIsLength(findings);
  }

  /** The findings section opens the custom section exactly when the custom
      bucket is present and not empty, then the slither section exactly
      when the slither bucket is, and shows the fixed no-issues block
      exactly when neither is. */
  lemma SectionOrder(results: AuditResult)
    ensures Keep(FindingsSectionPieces(results), IsSectionHead) ==
      (if Shown(results.custom) then [CustomOpen] else []) +
      (if Shown(results.slither) then [SlitherOpen] else []) +
      (if !Shown(results.custom) && !Shown(results.slither) then [NoIssues] else [])
  {
    if !Shown(results.custom) && !Shown(results.slither) {
      KeepOne(NoIssues, IsSectionHead);
    } else {
      var c := if Shown(results.custom) then CustomPieces(results.custom.value) else [];
      var t := if Shown(results.slither) then SlitherPieces(results.slither.value) else [];
      KeepAppend(c, t, IsSectionHead);
      if Shown(results.custom) {
        CustomSectionHead(results.custom.value);
      }
      if Shown(results.slither) {
        SlitherSectionHead(results.slither.value);
      }
    }
  }

  /** The remediation section is the empty text exactly when the advice is
      missing or empty. */
  lemma RemediationEmpty(results: AuditResult)
    ensures Render(RemediationPieces(results), Html) == "" <==> !Shown(results.remediation)
  {
    if Shown(results.remediation) {
      var ps := RemediationPieces(results);
      RenderFirst(ps, Html);
      assert |Html(RemediationOpen)| > 0;
    }
  }

  /** The pieces of one advice item that a filter keeps: its head if
      wanted, the kept solutions, its code example if present and wanted,
      and the closing tag if wanted. */
  lemma AdviceKept(entry: (string, Advice), wanted: Piece -> bool)
    ensures Keep(AdvicePieces(entry), wanted) ==
      (if wanted(AdviceHeadOf(entry)) then [AdviceHeadOf(entry)] else []) +
      Keep(Each(entry.1.solutions.GetOr([]), SolutionPieces), wanted) +
      (if CodePieces(entry.1) != [] && wanted(CodePieces(entry.1)[0]) then CodePieces(entry.1) else []) +
      (if wanted(AdviceClose) then [AdviceClose] else [])
  {
    KeepAround(AdviceHeadOf(entry), Each(entry.1.solutions.GetOr([]), SolutionPieces), CodePieces(entry.1),
      AdviceClose, wanted);
  }

  /** An advice item has exactly one head. */
  lemma AdviceHeadKept(entry: (string, Advice))
    ensures Keep(AdvicePieces(entry), IsAdviceHead) == [AdviceHeadOf(entry)]
  {
    var solutions := entry.1.solutions.GetOr([]);
    forall s | s in solutions
      ensures Keep(SolutionPieces(s), IsAdviceHead) == []
    {
      KeepOne(Solution(s), IsAdviceHead);
    }
    KeepEachNone(solutions, SolutionPieces, IsAdviceHead);
    AdviceKept(entry, IsAdviceHead);
  }

  /** An advice item lists its solutions, one entry each, in order. */
  lemma AdviceSolutionsKept(entry: (string, Advice))
    ensures Keep(AdvicePieces(entry), IsSolution) == MapAll(entry.1.solutions.GetOr([]), SolutionOf)
  {
    var solutions := entry.1.solutions.GetOr([]);
    forall s | s in solutions
      ensures Keep(SolutionPieces(s), IsSolution) == [SolutionOf(s)]
    {
      KeepOne(Solution(s), IsSolution);
    }
    KeepEachOne(solutions, SolutionPieces, IsSolution, SolutionOf);
    AdviceKept(entry, IsSolution);
  }

  /** An advice item shows a code example exactly when it has one. */
  lemma AdviceCodeKept(entry: (string, Advice))
    ensures Keep(AdvicePieces(entry), IsCodeExample) == CodePieces(entry.1)
  {
    var solutions := entry.1.solutions.GetOr([]);
    forall s | s in solutions
      ensures Keep(SolutionPieces(s), IsCodeExample) == []
    {
      KeepOne(Solution(s), IsCodeExample);
    }
    KeepEachNone(solutions, SolutionPieces, IsCodeExample);
    AdviceKept(entry, IsCodeExample);
  }

  /** One advice item: its head first and the closing tag last, one list
      entry per solution in order, and the code example, which alone closes
      the list of solutions, exactly when the advice has one. */
  lemma AdviceShape(entry: (string, Advice))
    ensures AdvicePieces(entry)[0] == AdviceHeadOf(entry)
    ensures AdvicePieces(entry)[|AdvicePieces(entry)| - 1] == AdviceClose
    ensures Keep(AdvicePieces(entry), IsAdviceHead) == [AdviceHeadOf(entry)]
    ensures Keep(AdvicePieces(entry), IsSolution) == MapAll(entry.1.solutions.GetOr([]), SolutionOf)
    ensures Keep(AdvicePieces(entry), IsCodeExample) == CodePieces(entry.1)
  {
    AdviceHeadKept(entry);
    AdviceSolutionsKept(entry);
    AdviceCodeKept(entry);
  }

  /** A shown remediation section has one advice item per entry of the
      advice dictionary, in its order. */
  lemma RemediationHeads(results: AuditResult)
    requires Shown(results.remediation)
    ensures Keep(RemediationPieces(results), IsAdviceHead) == MapAll(results.remediation.value, AdviceHeadOf)
  {
    var remediation := results.remediation.value;
    forall e | e in remediation
      ensures Keep(AdvicePieces(e), IsAdviceHead) == [AdviceHeadOf(e)]
    {
      AdviceHeadKept(e);
    }
    KeepEachOne(remediation, AdvicePieces, IsAdviceHead, AdviceHeadOf);
    KeepWrap(RemediationOpen, Each(remediation, AdvicePieces), SectionClose, IsAdviceHead);
  }
}
