/** The regular expressions of src/detectors/reentrancy.py, each written
    out as a predicate (or a capture function) on one line of text.  A
    `re.search` succeeds when the pattern matches starting at some index;
    a capture is taken from the leftmost index where it matches. */
module Patterns {
  import opened Wrappers
  import opened Text

  /** The leftmost index in p..|line| where `at` matches, and its capture. */
  function LeftmostFrom(line: string, p: nat, at: nat -> Option<string>): Option<string>
    decreases |line| + 1 - p
  {
    if p > |line| then None
    else if at(p).Some? then at(p)
    else LeftmostFrom(line, p + 1, at)
  }

  /** The search returns the capture at the first index that has one. */
  lemma {:induction false} LeftmostFromSpec(line: string, p: nat, at: nat -> Option<string>)
    ensures var r := LeftmostFrom(line, p, at);
      (r.Some? ==> exists k | p <= k <= |line| ::
         at(k) == r && forall j | p <= j < k :: at(j).None?) &&
      (r.None? <==> forall k | p <= k <= |line| :: at(k).None?)
    decreases |line| + 1 - p
  {
    if p <= |line| && at(p).None? {
      LeftmostFromSpec(line, p + 1, at);
      var r := LeftmostFrom(line, p, at);
      if r.Some? {
        var k :| p + 1 <= k <= |line| && at(k) == r && forall j | p + 1 <= j < k :: at(j).None?;
        assert forall j | p <= j < k :: at(j).None?;
      }
    }
  }

  /** A capture at some index means the search finds one. */
  lemma {:induction false} LeftmostFound(line: string, p: nat, k: nat, at: nat -> Option<string>)
    requires p <= k <= |line| && at(k).Some?
    ensures LeftmostFrom(line, p, at).Some?
    decreases k - p
  {
    if at(p).None? {
      LeftmostFound(line, p + 1, k, at);
    }
  }

  // ---------------------------------------------------------------------
  // Reentrancy detector

  const CallNames: seq<string> := ["call", "delegatecall", "staticcall", "transfer", "send"]

  /** `\s*\(` from index k. */
  predicate ParenFrom(line: string, k: nat)
    requires k <= |line|
  {
    var u := SkipSpace(line, k);
    u < |line| && line[u] == '('
  }

  /** `.*\}\s*\(` from index k. */
  predicate CloseBraceFrom(line: string, k: nat)
    requires k <= |line|
  {
    exists t | k <= t < |line| :: line[t] == '}' && ParenFrom(line, t + 1)
  }

  /** `\s*\{.*value:.*\}\s*\(` from index k. */
  predicate BraceValueFrom(line: string, k: nat)
    requires k <= |line|
  {
    var j := SkipSpace(line, k);
    j < |line| && line[j] == '{' &&
    exists r | j < r <= |line| :: SubAt(line, r, "value:") && CloseBraceFrom(line, r + 6)
  }

  /** `\.(call|delegatecall|staticcall|transfer|send)\s*\{.*value:.*\}\s*\(`
      matching from index p. */
  predicate CallAt(line: string, p: int) {
    0 <= p < |line| && line[p] == '.' &&
    exists name | name in CallNames ::
      SubAt(line, p + 1, name) && BraceValueFrom(line, p + 1 + |name|)
  }

  /** The external-call pattern: only the brace form `{ ... value: ... } (`. */
  predicate CallPattern(line: string) {
    exists p | 0 <= p < |line| :: CallAt(line, p)
  }

  /** A guard marker on one line: `nonReentrant`, or `import.*ReentrancyGuard`. */
  predicate GuardLine(line: string) {
    Contains(line, "nonReentrant") || ContainsThen(line, "import", "ReentrancyGuard")
  }

  /** `tx\.origin\s*==\s*\w+` matching from index p. */
  predicate TxOriginAt(line: string, p: int) {
    SubAt(line, p, "tx.origin") &&
    var j := SkipSpace(line, p + 9);
    SubAt(line, j, "==") &&
    var k := SkipSpace(line, j + 2);
    k < |line| && IsWordChar(line[k])
  }

  predicate TxOriginPattern(line: string) {
    exists p | 0 <= p < |line| :: TxOriginAt(line, p)
  }

  // ---------------------------------------------------------------------
  // Integer overflow detector

  /** `[\d.]` */
  predicate IsVersionChar(c: char) { IsDigit(c) || c == '.' }

  /** The first index at or after `k` that does not hold `[\d.]`. */
  function SkipVersion(s: string, k: nat): (r: nat)
    requires k <= |s|
    ensures k <= r <= |s|
    ensures forall i | k <= i < r :: IsVersionChar(s[i])
    decreases |s| - k
  {
    if k < |s| && IsVersionChar(s[k]) then SkipVersion(s, k + 1) else k
  }

  /** The group of `pragma\s+solidity\s+\^?([\d.]+)` when the match starts
      at p: a non-empty run of digits and dots. */
  function PragmaAt(line: string, p: nat): (r: Option<string>)
    ensures r.Some? ==> |r.value| > 0 && forall i | 0 <= i < |r.value| :: IsVersionChar(r.value[i])
  {
    if !SubAt(line, p, "pragma") then None
    else
      var j := SkipSpace(line, p + 6);
      if j == p + 6 || !SubAt(line, j, "solidity") then None
      else
        var k := SkipSpace(line, j + 8);
        if k == j + 8 then None
        else
          var m := if k < |line| && line[k] == '^' then k + 1 else k;
          var e := SkipVersion(line, m);
          if e == m then None else Some(line[m..e])
  }

  /** `re.search(version_pattern, line).group(1)`, or None without a match. */
  function PragmaCapture(line: string): Option<string> {
    LeftmostFrom(line, 0, (p: nat) => PragmaAt(line, p))
  }

  /** A version capture is a non-empty run of digits and dots. */
  lemma PragmaCaptureChars(line: string)
    ensures var r := PragmaCapture(line);
      r.Some? ==> |r.value| > 0 && forall i | 0 <= i < |r.value| :: IsVersionChar(r.value[i])
  {
    LeftmostFromSpec(line, 0, (p: nat) => PragmaAt(line, p));
  }

  /** `import.*SafeMath` */
  predicate ImportsSafeMath(s: string) {
    ContainsThen(s, "import", "SafeMath")
  }

  const CompoundOps: seq<char> := ['+', '-', '*', '/', '%']
  const BinaryOps: seq<char> := ['+', '-', '*']

  /** `X\s*=` for the operator X at index p. */
  predicate CompoundAt(line: string, p: int, op: char) {
    0 <= p < |line| && line[p] == op &&
    var j := SkipSpace(line, p + 1);
    j < |line| && line[j] == '='
  }

  /** `[a-zA-Z_]\w*\s*X\s*[a-zA-Z_]\w*` for the operator X, matching from p. */
  predicate BinaryAt(line: string, p: int, op: char) {
    0 <= p < |line| && IsIdentStart(line[p]) &&
    var j := SkipSpace(line, SkipWord(line, p + 1));
    j < |line| && line[j] == op &&
    var k := SkipSpace(line, j + 1);
    k < |line| && IsIdentStart(line[k])
  }

  /** The k-th of the eight arithmetic patterns, in the order they are tried:
      `+=`, `-=`, `*=`, `/=`, `%=`, then binary `+`, `-`, `*`. */
  predicate ArithMatch(k: nat, line: string)
    requires k < 8
  {
    if k < 5 then CompoundMatch(line, CompoundOps[k]) else BinaryMatch(line, BinaryOps[k - 5])
  }

  predicate CompoundMatch(line: string, op: char) {
    exists p | 0 <= p < |line| :: CompoundAt(line, p, op)
  }

  predicate BinaryMatch(line: string, op: char) {
    exists p | 0 <= p < |line| :: BinaryAt(line, p, op)
  }

  predicate AnyArith(line: string) {
    exists k | 0 <= k < 8 :: ArithMatch(k, line)
  }

  /** `SafeMath\.(add|sub|mul|div|mod)` */
  predicate SafeMathCall(line: string) {
    Contains(line, "SafeMath.add") || Contains(line, "SafeMath.sub") ||
    Contains(line, "SafeMath.mul") || Contains(line, "SafeMath.div") ||
    Contains(line, "SafeMath.mod")
  }

  /** The trimmed line starts with `//` or `*`. */
  predicate IsCommentLine(line: string) {
    StartsWith(Strip(line), "//") || StartsWith(Strip(line), "*")
  }

  // ---------------------------------------------------------------------
  // Access control detector

  const NamedFunctions: seq<string> := ["mint", "burn", "withdraw", "setOwner", "transferOwnership"]

  /** `function\s+\w+.*\{` matching from p. */
  predicate GenericFunctionAt(line: string, p: int) {
    SubAt(line, p, "function") &&
    var j := SkipSpace(line, p + 8);
    j > p + 8 && j < |line| && IsWordChar(line[j]) &&
    exists t | j < t < |line| :: line[t] == '{'
  }

  /** `function\s+NAME\s*\(` matching from p. */
  predicate NamedFunctionAt(line: string, p: int, name: string) {
    SubAt(line, p, "function") &&
    var j := SkipSpace(line, p + 8);
    j > p + 8 && SubAt(line, j, name) &&
    ParenFrom(line, j + |name|)
  }

  /** The k-th of the six function patterns, in the order they are tried. */
  predicate FunctionMatch(k: nat, line: string)
    requires k < 6
  {
    if k == 0 then exists p | 0 <= p < |line| :: GenericFunctionAt(line, p)
    else NamedFunctionMatch(line, NamedFunctions[k - 1])
  }

  predicate NamedFunctionMatch(line: string, name: string) {
    exists p | 0 <= p < |line| :: NamedFunctionAt(line, p, name)
  }

  predicate AnyFunction(line: string) {
    exists k | 0 <= k < 6 :: FunctionMatch(k, line)
  }

  /** `(onlyOwner|adminOnly|restricted)` */
  predicate HasModifier(line: string) {
    Contains(line, "onlyOwner") || Contains(line, "adminOnly") || Contains(line, "restricted")
  }

  /** `\bWORD\b` at index p, for a word made of word characters. */
  predicate WordAt(line: string, p: int, word: string) {
    SubAt(line, p, word) &&
    (p == 0 || !IsWordChar(line[p - 1])) &&
    (p + |word| == |line| || !IsWordChar(line[p + |word|]))
  }

  /** `\b(public|external)\b` */
  predicate IsPublic(line: string) {
    exists p | 0 <= p < |line| :: WordAt(line, p, "public") || WordAt(line, p, "external")
  }

  /** The group of `function\s+(\w+)` when the match starts at p. */
  function FunctionNameAt(line: string, p: nat): Option<string> {
    if !SubAt(line, p, "function") then None
    else
      var j := SkipSpace(line, p + 8);
      if j > p + 8 && j < |line| && IsWordChar(line[j]) then Some(line[j..SkipWord(line, j)])
      else None
  }

  /** `re.search(r'function\s+(\w+)', line).group(1)` */
  function FunctionName(line: string): Option<string> {
    LeftmostFrom(line, 0, (p: nat) => FunctionNameAt(line, p))
  }

  const SensitiveKeywords: seq<string> :=
    ["mint", "burn", "withdraw", "set", "add", "remove", "owner", "admin", "transfer", "emergency"]

  predicate IsSensitive(name: string) {
    exists kw | kw in SensitiveKeywords :: Contains(name, kw)
  }

  /** The group of `constructor\s*\(([^)]*)\)` when the match starts at p:
      the text up to the first `)`. */
  function ConstructorAt(line: string, p: nat): (r: Option<string>)
    ensures r.Some? ==> ')' !in r.value
  {
    if !SubAt(line, p, "constructor") then None
    else
      var j := SkipSpace(line, p + 11);
      if j < |line| && line[j] == '(' then
        var t := IndexFrom(line, j + 1, ')');
        if t < |line| then Some(line[j + 1..t]) else None
      else None
  }

  /** `constructor_pattern.search(line).group(1)` */
  function ConstructorParams(line: string): Option<string> {
    LeftmostFrom(line, 0, (p: nat) => ConstructorAt(line, p))
  }
}
