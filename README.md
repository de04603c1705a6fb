# Smart Contract Auditor, modelled in Dafny

This project models the core of the Python tool *smart-contract-auditor*. The tool scans Solidity
source files for common vulnerabilities and writes its findings as JSON, HTML and Markdown reports.
The model covers three parts:

- **The three line-based detectors** of `src/detectors/reentrancy.py`:
  - `ReentrancyDetector` flags value-carrying external calls that no re-entrancy guard precedes, and every `tx.origin ==` comparison.
  - `IntegerOverflowDetector` reads the first `pragma solidity` line. If the major version is 8 or more, it only reports a redundant SafeMath import. Otherwise it scans for arithmetic not done through SafeMath.
  - `AccessControlDetector` flags sensitive public or external functions that have no permission modifier, and constructors whose parameters are never checked.
- **The orchestration of `SmartContractAuditor`** in `src/auditor.py`:
  - the external analyser's results and their severity rule;
  - the custom detectors, where a detector that raises is skipped and only detectors with findings are stored;
  - the dictionary `analyze` returns;
  - the remediation advice: one entry per non-empty custom finding type, in order of first appearance, taken from a fixed table with a fallback.
- **The three report generators** in `src/reporters/`:
  - the JSON report object (metadata, summary, findings and advice) before serialisation;
  - the counting shared by all three (`_count_findings`, `_get_severity_breakdown`, `_generate_summary`);
  - the findings and remediation sections of the HTML and Markdown reports: which templates are appended, in which order, under which conditions, with which defaults, and the placeholders shown when a section is empty.

Modules, in dependency order:

| file | models |
|---|---|
| `wrappers.dfy` | `Option` and `Result` (a raised exception is a `Failure`) |
| `text.dfy` | the string operations the core uses: `strip`, `lower`, `upper`, `split('\n')`, `'\n'.join`, substring search, `int` of a digit string |
| `patterns.dfy` | each regular expression, as a predicate or capture function over one line |
| `findings.dfy` | the finding dictionary as a datatype whose `Option` fields stand for keys that may be missing; the generic `for i, line in enumerate(lines, 1)` pass (`Scan`) |
| `dicts.dfy` | Python dictionaries with insertion order, as sequences of key/value pairs |
| `results.dfy` | the results dictionary (`slither`, `custom`, `remediation`), buckets and advice |
| `reentrancy_detector.dfy`, `integer_overflow_detector.dfy`, `access_control_detector.dfy` | `_analyze_file` and `_check_reentrancy_guard` of each detector |
| `detectors.dfy` | `detect`: every file in turn, stopping at the first exception |
| `remediation.dfy` | `_generate_remediation` and `_get_remediation_advice` |
| `auditor.dfy` | `run_slither_analysis`, `run_custom_detectors`, `analyze` |
| `tally.dfy` | `_count_findings`, `_get_severity_breakdown` |
| `json_reporter.dfy` | `JSONReporter.generate`, `_generate_summary`, `_organize_findings` |
| `pieces.dfy` | report text as a sequence of appended templates, and lemmas about filtering it |
| `html_reporter.dfy`, `markdown_reporter.dfy` | the section generators of the two text reports |

**Loops.** Each loop of the source is a `method` with a `while` or `for` loop. It is proved equal to a
specification function of its inputs, and the properties are lemmas about that function.

**Report sections.** A report section is built as a sequence of `Piece`s, one per template the source
appends, with the template's fields filled in exactly as the source fills them. A single `Render`
turns the sequence into the text; each piece renders to the source's template text. The properties
of a section are stated over `Keep(pieces, kind)`: the templates of one kind, in order. Examples:
one issue head per finding, a code block exactly for findings with a snippet, the custom section
before the slither section.

**Where the code and its stated intent differ, the model follows the code.**
- The overflow detector compares `int(version.split('.')[0])` with 8. For `pragma solidity ^0.8.19` the major number is `0`, so the file goes to the legacy arithmetic scan. It is not treated as a 0.8 file with built-in overflow checks. `IntegerOverflowDetector.ZeroMajorScans` states this behaviour.
- `src/auditor.py` imports the detectors from `detectors.integer_overflow` and `detectors.access_control`. Those modules are not part of this model; the classes of the same names in `src/detectors/reentrancy.py` are modelled.

## Model

| member | source | states |
|---|---|---|
| ReentrancyDetector.CheckReentrancyGuard | src/detectors/reentrancy.py:96-108 | the guard check holds exactly when some line before the call contains `nonReentrant` or an `import` followed later on the line by `ReentrancyGuard` (searching the joined text is searching line by line) |
| ReentrancyDetector.CallPass | src/detectors/reentrancy.py:60-76 | the first loop yields exactly the call findings of the specification function, line by line |
| ReentrancyDetector.TxOriginPass | src/detectors/reentrancy.py:79-92 | the second loop yields exactly the `tx.origin` findings of the specification function |
| ReentrancyDetector.AnalyzeFile | src/detectors/reentrancy.py:49-94 | `_analyze_file` splits on line feeds and returns the call findings followed by the `tx.origin` findings |
| ReentrancyDetector.CallFindingsAtLine | src/detectors/reentrancy.py:60-76 | line i has a `High` reentrancy finding exactly when it matches the value-call pattern and no line among 1..i (the call line included) holds a guard marker; never two at one line |
| ReentrancyDetector.GuardPrefix | src/detectors/reentrancy.py:64 | `lines[:i]` passed to the guard check is lines 1..i, the current line included |
| ReentrancyDetector.GuardSilencesLaterCalls | src/detectors/reentrancy.py:64-66 | a guard marker on line k silences every call at line k or later |
| ReentrancyDetector.NoCallNoFinding | src/detectors/reentrancy.py:62 | a file with no matching call has no reentrancy findings |
| ReentrancyDetector.TxOriginFindingsAtLine | src/detectors/reentrancy.py:79-92 | line i has an `access_control`/`High` finding exactly when it matches `tx\.origin\s*==\s*\w+`, whatever guards the file holds; never two at one line |
| ReentrancyDetector.AnalysisOrder | src/detectors/reentrancy.py:60-92 | both passes report in strictly ascending line order within 1..len(lines), with the types and severities fixed by the source |
| IntegerOverflowDetector.FirstPragmaSpec | src/detectors/reentrancy.py:141-148 | the version is the capture of the first matching line, `None` exactly when no line matches, and always a non-empty run of digits and dots |
| IntegerOverflowDetector.FindVersion | src/detectors/reentrancy.py:143-148 | the loop stops at the first pragma match and returns its capture |
| IntegerOverflowDetector.MajorSpec | src/detectors/reentrancy.py:152 | `int(version.split('.')[0])` raises exactly when the version is empty or starts with a dot, and otherwise is the number written before the first dot |
| IntegerOverflowDetector.MajorOfNumber | src/detectors/reentrancy.py:152 | a version written as a number followed by dotted parts has that number as its major version |
| IntegerOverflowDetector.ArithLine | src/detectors/reentrancy.py:182-200 | the per-line body skips comment lines, tries the eight patterns in order, and reports the first match unless the line calls SafeMath |
| IntegerOverflowDetector.ArithPass | src/detectors/reentrancy.py:181-200 | the loop yields exactly the arithmetic findings of the specification function |
| IntegerOverflowDetector.AnalyzeFile | src/detectors/reentrancy.py:135-202 | `_analyze_file` is the specification: a `ValueError` from `int`, the SafeMath check for major version 8 or more, or the arithmetic scan |
| IntegerOverflowDetector.VersionError | src/detectors/reentrancy.py:151-152 | the analysis raises exactly when the first pragma's capture starts with a dot, and the error is that of `int('')` |
| IntegerOverflowDetector.ModernVersion | src/detectors/reentrancy.py:153-166 | for major version 8 or more the result is at most one `Low` finding at line 1 with no snippet, present exactly when some line imports SafeMath |
| IntegerOverflowDetector.LegacyScan | src/detectors/reentrancy.py:150-202 | with no pragma, or a major version below 8, the result is the arithmetic scan |
| IntegerOverflowDetector.ZeroMajorScans | src/detectors/reentrancy.py:151-153 | a `0.x` version has major version 0 and goes to the arithmetic scan |
| IntegerOverflowDetector.ArithFindingsAtLine | src/detectors/reentrancy.py:181-200 | line i has a `High` finding exactly when it is not a comment line, matches an arithmetic pattern and has no SafeMath call; never two at one line |
| IntegerOverflowDetector.ArithOrder | src/detectors/reentrancy.py:181-200 | the scan reports `integer_overflow`/`High` findings in ascending line order within 1..len(lines) |
| AccessControlDetector.FunctionLine | src/detectors/reentrancy.py:250-283 | the per-line body tries the six function patterns in order; the first that matches decides, and the line is reported only when public or external, unmodified and sensitively named |
| AccessControlDetector.FunctionPass | src/detectors/reentrancy.py:248-283 | the first loop yields exactly the function findings of the specification function |
| AccessControlDetector.ConstructorPass | src/detectors/reentrancy.py:286-305 | the second loop yields exactly the constructor findings of the specification function |
| AccessControlDetector.AnalyzeFile | src/detectors/reentrancy.py:229-307 | `_analyze_file` returns the function findings followed by the constructor findings |
| AccessControlDetector.AnyFunctionHasName | src/detectors/reentrancy.py:264-265 | a line matching any function pattern always has a name after `function`, so the name match never fails |
| AccessControlDetector.FunctionFindingsAtLine | src/detectors/reentrancy.py:248-283 | line i has a `High` finding exactly when it matches a function pattern, has `public` or `external` as a word, none of the modifier names, and a lower-cased function name containing a sensitive keyword; the description names that lower-cased name |
| AccessControlDetector.ConstructorFindingsAtLine | src/detectors/reentrancy.py:286-305 | line i has a `Medium` finding exactly when its constructor has non-empty parameter text and neither that text nor any of lines i+1..min(i+5, len(lines)) contains `require` or `if` |
| AccessControlDetector.AnalysisOrder | src/detectors/reentrancy.py:248-305 | both passes report in strictly ascending line order within 1..len(lines), with the types and severities fixed by the source |
| Detectors.AnalyzeFile | src/detectors/reentrancy.py:49-52 | running a detector on one file is that detector's `_analyze_file` of the file's lines |
| Detectors.DetectFiles | src/detectors/reentrancy.py:32-47 | `detect` concatenates the findings of the files in order, and an exception in any file ends it with that exception |
| Detectors.NamesDistinct | src/detectors/reentrancy.py:30 | the three detectors have distinct names |
| Detectors.DetectFails | src/detectors/reentrancy.py:43-45 | `detect` raises exactly when the analysis of some file raises |
| Detectors.OnlyOverflowFails | src/detectors/reentrancy.py:152 | over given file contents, only the overflow analysis (`int()` at :152) can raise; the other two detectors always succeed |
| Detectors.DetectAppend | src/detectors/reentrancy.py:43-47 | `detect` over two groups of files is the concatenation of the two results |
| Auditor.SlitherFindings | src/auditor.py:57-62 | one finding per external result, in order, holding only its text, its severity and the type `slither` |
| Auditor.CollectSlither | src/auditor.py:56-62 | the inner loop collects exactly those findings |
| Auditor.RunSlitherAnalysis | src/auditor.py:43-76 | the result is empty when the run raises (the library missing included), and otherwise holds each detector that gave results, under its class name |
| Auditor.SlitherKeys | src/auditor.py:54-65 | a detector name is a key exactly when a detector of that name gave results; keys are unique; every stored list is non-empty and belongs to one such detector |
| Auditor.SlitherSeverities | src/auditor.py:60-61 | every external finding has type `slither`, and its severity is `High` exactly when its lower-cased text contains `high`, and `Medium` otherwise |
| Auditor.RunCustomDetectors | src/auditor.py:78-94 | each detector in turn; its findings are stored under its name when `detect` returned a non-empty list, and a detector that raises is skipped |
| Auditor.CustomGet | src/auditor.py:84-91 | with distinct names, a detector's name maps to its findings exactly when its `detect` succeeded with a non-empty list |
| Auditor.CustomKeys | src/auditor.py:84-94 | a detector's entry is there exactly when its `detect` returned a non-empty list without raising, holding that list; no other key is there |
| Auditor.CustomIndependent | src/auditor.py:84-91 | each detector contributes its own entry whatever the others do, so an exception removes only the raising detector's entry |
| Auditor.Analyze | src/auditor.py:96-117 | `analyze` always returns all three keys: the external results, the custom results and the advice generated from them |
| Auditor.AnalysisRemediation | src/auditor.py:109-115 | the advice in `analyze`'s result is keyed by exactly the non-empty custom finding types, once each, in order of their first appearance, each with the table's advice, and does not depend on the external results |
| Remediation.AdviceFor | src/auditor.py:133-258 | `Critical` advice with a code example for reentrancy and `High` advice with one for the other two known types; any other type gets `Medium` advice titled with the type, with one solution and no examples or code |
| Remediation.AdviceComplete | src/auditor.py:135-258 | every advice has a severity, a title, a description and at least one solution |
| Remediation.AdviseFindings | src/auditor.py:126-129 | the inner loop adds, for each finding in turn, its non-empty type when not yet present |
| Remediation.GenerateRemediation | src/auditor.py:119-131 | `_generate_remediation` visits the custom findings entry by entry and never consults the slither bucket |
| Remediation.AdviseKeys | src/auditor.py:126-129 | after visiting a run of types, the keys are unique, and are exactly the visited non-empty types, each mapped to its advice |
| Remediation.AdviseOrder | src/auditor.py:128-129 | advice entries appear in the order their types first occur |
| Remediation.RemediationKeys | src/auditor.py:119-131 | a type is advised exactly when it is non-empty and some custom finding has it; keys are unique, each with the table's advice |
| Remediation.CustomKindsMember | src/auditor.py:124-127 | the visited types are exactly the types of the findings of the custom entries |
| Remediation.RemediationOrder | src/auditor.py:119-131 | the advice is ordered by first appearance among the custom findings |
| Tally.CountBucket | src/reporters/markdown_reporter.py:93-95 | the inner loop adds the length of every list of a bucket |
| Tally.CountFindings | src/reporters/markdown_reporter.py:83-97 | `_count_findings` visits slither then custom, a missing bucket counting nothing |
| Tally.CountsValues | src/reporters/html_reporter.py:278-292 | the counts are the number of findings of each bucket, and the total is their sum, the number of all findings |
| Tally.TallyFindings | src/reporters/markdown_reporter.py:106-109 | the innermost loop bumps the entry of each finding's lower-cased severity, defaulting to `medium`, when it is one of the four |
| Tally.TallyBucket | src/reporters/markdown_reporter.py:105-109 | the breakdown loop over one bucket counts its flattened findings in order |
| Tally.GetSeverityBreakdown | src/reporters/markdown_reporter.py:99-111 | `_get_severity_breakdown` counts the findings of both buckets |
| Tally.TallyAppend | src/reporters/html_reporter.py:298-304 | counting two runs of findings one after the other is counting both |
| Tally.TallyCounts | src/reporters/html_reporter.py:301-304 | each breakdown entry is the number of findings with that severity (a reference count independent of the loop) |
| Tally.BreakdownValues | src/reporters/html_reporter.py:294-306 | each entry of the breakdown is the number of findings in both buckets with that severity |
| Tally.SeveritiesPartition | src/reporters/html_reporter.py:302-304 | every finding is counted under its severity or as unknown, and none are unknown exactly when every severity is one of the four |
| Tally.BreakdownBound | src/reporters/html_reporter.py:278-306 | the breakdown sums to at most the total, with equality exactly when every finding has one of the four severities |
| Tally.SizeIsLength | src/reporters/markdown_reporter.py:93-95 | adding the list lengths of a bucket gives the number of its findings |
| JsonReporter.SummarizeBucket | src/reporters/json_reporter.py:48-56 | one bucket adds its size to its category and to the total, and counts its findings' severities |
| JsonReporter.GenerateSummary | src/reporters/json_reporter.py:32-58 | `_generate_summary` arrives at the same counts and breakdown as the other two reporters |
| JsonReporter.SummaryValues | src/reporters/json_reporter.py:46-56 | the summary's category counts are the numbers of findings of each bucket, the total is their sum, and each severity entry counts the findings with that severity |
| JsonReporter.OrganizeFindings | src/reporters/json_reporter.py:60-68 | `_organize_findings` is the findings object of the specification |
| JsonReporter.OrganizedShape | src/reporters/json_reporter.py:64-66 | the findings object holds exactly the present buckets, unchanged, `slither` before `custom` |
| JsonReporter.OrganizedGet | src/reporters/json_reporter.py:60-68 | looking up a category gives its bucket and no other key is present |
| JsonReporter.Generate | src/reporters/json_reporter.py:14-25 | the report object holds the fixed tool name and version, the given timestamp, the summary, the findings object, and the advice or an empty dictionary when it is missing |
| HtmlReporter.AppendIssues | src/reporters/html_reporter.py:330-356 | the issue loop appends, per finding, its head, a code block when it has a snippet, a recommendation when it has one, and the closing tag |
| HtmlReporter.CustomFindings | src/reporters/html_reporter.py:325-359 | the custom section is its opening, the issues of every entry in order without detector names, and the closing tag |
| HtmlReporter.GenerateCustomFindings | src/reporters/html_reporter.py:325-359 | the text is the rendering of those templates |
| HtmlReporter.AppendSlitherIssues | src/reporters/html_reporter.py:368-377 | one issue block per external finding, with default description `N/A` |
| HtmlReporter.SlitherFindings | src/reporters/html_reporter.py:361-380 | the slither section is its opening, then per entry the detector heading and its issues, then the closing tag |
| HtmlReporter.GenerateSlitherFindings | src/reporters/html_reporter.py:361-380 | the text is the rendering of those templates |
| HtmlReporter.FindingsSection | src/reporters/html_reporter.py:308-323 | the custom section when that bucket is shown, then the slither section when that one is, or the fixed no-issues block when neither is |
| HtmlReporter.GenerateFindingsSection | src/reporters/html_reporter.py:308-323 | joining the rendered sections is rendering their templates in order |
| HtmlReporter.AppendSolutions | src/reporters/html_reporter.py:400-401 | one list entry per solution, in order |
| HtmlReporter.AppendAdvice | src/reporters/html_reporter.py:390-410 | one advice item: its head, its solutions, the code example block when present, and the closing tag |
| HtmlReporter.GenerateRemediationSection | src/reporters/html_reporter.py:382-413 | the empty text when the advice is missing or empty, otherwise the section opening, one item per entry and the closing tag |
| HtmlReporter.IssueShape | src/reporters/html_reporter.py:332-356 | a custom finding starts with its head and ends with the closing tag, has a code block exactly when it has a snippet and a recommendation exactly when it has one, and opens no section |
| HtmlReporter.HeadSeverity | src/reporters/html_reporter.py:331-336 | the CSS class is the severity lower-cased (default `Medium`), already lower case, and the badge is the severity upper-cased |
| HtmlReporter.CustomHeads | src/reporters/html_reporter.py:329-342 | the custom section has one head per finding of the bucket, in order of entry and of finding |
| HtmlReporter.CustomBlocks | src/reporters/html_reporter.py:344-354 | the section's code blocks are the snippets of the findings that have one, in order, and its recommendations likewise |
| HtmlReporter.CustomSectionHead | src/reporters/html_reporter.py:327 | the custom section opens exactly one section |
| HtmlReporter.SlitherSectionHead | src/reporters/html_reporter.py:363 | the slither section opens exactly one section |
| HtmlReporter.SlitherHeadings | src/reporters/html_reporter.py:365-366 | the slither section has one detector heading per key of the bucket, in dictionary order |
| HtmlReporter.SlitherIssues | src/reporters/html_reporter.py:368-377 | the slither section has one issue block per finding, in order, with the finding's severity and its description defaulting to `N/A`; their number is the summary's slither count |
| HtmlReporter.SectionOrder | src/reporters/html_reporter.py:312-321 | the custom section opens exactly when its bucket is present and non-empty, then the slither section likewise, and the no-issues block exactly when neither does |
| HtmlReporter.RemediationEmpty | src/reporters/html_reporter.py:384-385 | the remediation text is empty exactly when the advice is missing or empty |
| HtmlReporter.AdviceShape | src/reporters/html_reporter.py:390-410 | an advice item starts with its head and ends with its closing tag, lists its solutions in order, and has a code example, which alone closes the list, exactly when the advice has one |
| HtmlReporter.RemediationHeads | src/reporters/html_reporter.py:389-392 | a shown remediation section has one advice head per entry, in dictionary order, with the title defaulting to the type |
| MarkdownReporter.Emoji | src/reporters/markdown_reporter.py:124-130 | the white circle is shown exactly for a severity that is none of the four known ones |
| MarkdownReporter.EmojiCounted | src/reporters/markdown_reporter.py:124-130 | a finding gets the white circle exactly when the severity breakdown does not count it |
| MarkdownReporter.EmojiDistinct | src/reporters/markdown_reporter.py:125-130 | the four known severities have four different emoji |
| MarkdownReporter.AppendIssues | src/reporters/markdown_reporter.py:123-145 | the issue loop appends, per finding, its head, a snippet when present, a recommendation when present, and a rule |
| MarkdownReporter.AppendCustomEntries | src/reporters/markdown_reporter.py:120-145 | per entry, the detector heading and then its issues |
| MarkdownReporter.CustomFindings | src/reporters/markdown_reporter.py:113-147 | the fixed line when the custom bucket is missing or empty, otherwise the entries |
| MarkdownReporter.GenerateCustomFindings | src/reporters/markdown_reporter.py:113-147 | the text is the rendering of those templates |
| MarkdownReporter.AppendSlitherIssues | src/reporters/markdown_reporter.py:159-168 | one list item per external finding |
| MarkdownReporter.AppendSlitherEntries | src/reporters/markdown_reporter.py:156-168 | per entry, the detector heading and then its items |
| MarkdownReporter.SlitherFindings | src/reporters/markdown_reporter.py:149-170 | the fixed line when the slither bucket is missing or empty, otherwise the entries |
| MarkdownReporter.GenerateSlitherFindings | src/reporters/markdown_reporter.py:149-170 | the text is the rendering of those templates |
| MarkdownReporter.AppendBullets | src/reporters/markdown_reporter.py:185-186 | one bullet per solution, in order |
| MarkdownReporter.AppendAdvice | src/reporters/markdown_reporter.py:180-193 | one advice entry: its head, its bullets, the stripped code example when present, and a rule |
| MarkdownReporter.RemediationSection | src/reporters/markdown_reporter.py:172-195 | the fixed line when the advice is missing or empty, otherwise one entry per advice |
| MarkdownReporter.GenerateRemediationSection | src/reporters/markdown_reporter.py:172-195 | the text is the rendering of those templates |
| MarkdownReporter.IssueShape | src/reporters/markdown_reporter.py:132-145 | a custom finding starts with its head and ends with a rule, and has a snippet exactly when it has one and a recommendation exactly when it has one |
| MarkdownReporter.CustomPlaceholder | src/reporters/markdown_reporter.py:115-116 | the custom section shows its fixed line exactly when the bucket is missing or empty |
| MarkdownReporter.CustomHeadings | src/reporters/markdown_reporter.py:120-121 | a shown custom section has one heading per detector, in dictionary order |
| MarkdownReporter.CustomHeads | src/reporters/markdown_reporter.py:123-135 | one issue head per custom finding in order, with the emoji, upper-cased severity and defaults of the source |
| MarkdownReporter.CustomSnippets | src/reporters/markdown_reporter.py:137-140 | the snippets are those of the findings that have one, in order |
| MarkdownReporter.CustomRecommendations | src/reporters/markdown_reporter.py:142-143 | the recommendations are those of the findings that have one, in order |
| MarkdownReporter.CustomRules | src/reporters/markdown_reporter.py:145 | one rule per custom finding, that is as many as the custom count of the summary |
| MarkdownReporter.SlitherPlaceholder | src/reporters/markdown_reporter.py:151-152 | the slither section shows its fixed line exactly when the bucket is missing or empty |
| MarkdownReporter.SlitherHeadings | src/reporters/markdown_reporter.py:156-157 | a shown slither section has one heading per detector, in dictionary order |
| MarkdownReporter.SlitherIssues | src/reporters/markdown_reporter.py:159-168 | one item per external finding in order, as many as the slither count of the summary |
| MarkdownReporter.AdviceShape | src/reporters/markdown_reporter.py:180-193 | an advice entry starts with its head and ends with a rule, lists its solutions in order, and shows a code example exactly when the advice has one |
| MarkdownReporter.RemediationShape | src/reporters/markdown_reporter.py:172-195 | the fixed line exactly when the advice is missing or empty; otherwise one head and one rule per advice entry, in order |
| MarkdownReporter.CustomText | src/reporters/markdown_reporter.py:113-147 | the custom text is the fixed line exactly when the bucket is missing or empty |
| MarkdownReporter.SlitherText | src/reporters/markdown_reporter.py:149-170 | the slither text is the fixed line exactly when the bucket is missing or empty |
| MarkdownReporter.RemediationText | src/reporters/markdown_reporter.py:172-195 | the remediation text is the fixed line exactly when the advice is missing or empty |
| Findings.ScanAtLine | src/detectors/reentrancy.py:60-76 | a pass over `enumerate(lines, 1)` holds at line i exactly the finding the per-line check gives there |
| Findings.ScanAscending | src/detectors/reentrancy.py:81-92 | a pass reports in strictly ascending line order within 1..n |
| Findings.ScanMembers | src/detectors/reentrancy.py:81-92 | a finding is in the pass exactly when some line's check gives it |
| Text.StripShape | src/detectors/reentrancy.py:74 | `strip()` removes the leading and trailing whitespace and nothing else |
| Text.JoinSplit | src/detectors/reentrancy.py:138-155 | joining the parts of `split('\n')` gives the text back, so searching the content is searching its lines joined by line feeds; no part holds a line feed |
| Text.ContainsJoin | src/detectors/reentrancy.py:294-295 | text without line feeds occurs in lines joined by line feeds exactly when it occurs in one of them |
| Text.ContainsThenJoin | src/detectors/reentrancy.py:98-105 | a two-part pattern that cannot cross a line occurs in the joined text exactly when it occurs in one line |
| Text.ParseNatToString | src/detectors/reentrancy.py:152 | `int` of a number's decimal digits is that number |
| Patterns.PragmaCaptureChars | src/detectors/reentrancy.py:141 | the capture of `pragma\s+solidity\s+\^?([\d.]+)` is a non-empty run of digits and dots |
| Patterns.LeftmostFromSpec | src/detectors/reentrancy.py:264 | a search returns the capture at the leftmost position that has one, and nothing exactly when no position has one |
| Dicts.SetGet | src/auditor.py:89 | after `d[k] = v` the key maps to v and every other key keeps its value |
| Dicts.SetKeys | src/auditor.py:129 | an existing key keeps its place, a new one goes at the end, and keys stay unique |

## Left out

- File discovery and reading: `is_file`, `rglob("*.sol")` and `read_text`. `detect` takes the files as path/content pairs in the order discovery would give them. A read failure (for example a file that is not valid UTF-8) would make any of the three detectors raise and be skipped by `run_custom_detectors`; that failure is not modelled.
- The external analyser (the Slither library) is not modelled. Its detectors and their results are a parameter of `run_slither_analysis`, and a run that raises, including a missing library, is modelled as no run at all.
- The `print` calls, the command line (`main`, `cli.py`), `generate_reports`, and writing the report files.
- Timestamps: `datetime.now()` is a parameter of the JSON report. The HTML and Markdown timestamps are not modelled.
- `json.dumps`: the JSON report is modelled as the object before serialisation.
- The fixed halves of the HTML and Markdown documents are not modelled: the style sheet, the header, the summary table, the footer and the appendix (`src/reporters/html_reporter.py:25-275`, `src/reporters/markdown_reporter.py:23-80`). Their counts are the ones `Tally` computes. `_generate_html` and `_generate_markdown`, which only place the sections into those templates, are not modelled either.
- Regular expressions are predicates and capture functions written for each pattern: `\s`, `\w` and `\d` hold for ASCII characters only. Whitespace, for `\s` and `strip`, is space, tab, line feed, carriage return, vertical tab, form feed and U+001C to U+001F, the ASCII characters Python treats as whitespace. `lower` and `upper` act on ASCII letters only. Unicode case mapping and non-ASCII whitespace (such as U+0085 or U+00A0) are not modelled.
- `int()` is modelled on strings of ASCII digits. These are the only strings the version capture can produce, so the model does not need `int`'s acceptance of signs, underscores or whitespace.
- The report generators take a finding's `line` as an integer or missing, and render it in decimal. Other Python values under that key are not modelled.
- Dictionary order is modelled by key/value sequences with Python's insertion semantics.
- Report methods build the sequence of appended templates and render it once at the end. The text is the same as appending each rendered template to a string, but the step-by-step string building is not modelled.
