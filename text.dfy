/** Character classes, substring search, line splitting and the few
    string conversions the analysers and reporters rely on.  Character
    classes are the ASCII ones: `\s` is space, tab, line feed, carriage
    return, vertical tab, form feed and the separators U+001C to U+001F
    (the ASCII characters Python's `str.isspace` accepts); `\w` is
    `[A-Za-z0-9_]`; `\d` is `[0-9]`. */
module Text {

  predicate IsSpace(c: char) {
    c == ' ' || c == '\t' || c == '\n' || c == '\r' || c == '\U{000B}' || c == '\U{000C}' ||
    '\U{001C}' <= c <= '\U{001F}'
  }

  predicate IsDigit(c: char) { '0' <= c <= '9' }

  predicate IsAlpha(c: char) { 'a' <= c <= 'z' || 'A' <= c <= 'Z' }

  /** `[a-zA-Z_]` */
  predicate IsIdentStart(c: char) { IsAlpha(c) || c == '_' }

  /** `\w` */
  predicate IsWordChar(c: char) { IsIdentStart(c) || IsDigit(c) }

  /** `pat` occurs in `s` starting at index `p`. */
  predicate SubAt(s: string, p: int, pat: string) {
    0 <= p && p + |pat| <= |s| && s[p..p + |pat|] == pat
  }

  /** Python's `pat in s` (and `re.search` of a literal pattern). */
  predicate Contains(s: string, pat: string) {
    exists p | 0 <= p <= |s| - |pat| :: SubAt(s, p, pat)
  }

  predicate StartsWith(s: string, pat: string) { SubAt(s, 0, pat) }

  /** No line feed in `s[i..j]`. */
  predicate NoNewline(s: string, i: int, j: int)
    requires 0 <= i <= j <= |s|
  {
    '\n' !in s[i..j]
  }

  /** `re.search(a + '.*' + b, s)` for literal `a` and `b`: an occurrence of
      `a` followed, on the same line, by an occurrence of `b`. */
  predicate ContainsThen(s: string, a: string, b: string) {
    exists p, q | 0 <= p <= q <= |s| :: ThenAt(s, p, q, a, b)
  }

  /** `a` at `p`, `b` at `q`, and no line feed between them. */
  predicate ThenAt(s: string, p: int, q: int, a: string, b: string) {
    SubAt(s, p, a) && p + |a| <= q && SubAt(s, q, b) && NoNewline(s, p + |a|, q)
  }

  /** The first index at or after `k` that does not hold whitespace (`\s*`). */
  function SkipSpace(s: string, k: nat): (r: nat)
    requires k <= |s|
    ensures k <= r <= |s|
    ensures r == |s| || !IsSpace(s[r])
    ensures forall i | k <= i < r :: IsSpace(s[i])
    decreases |s| - k
  {
    if k < |s| && IsSpace(s[k]) then SkipSpace(s, k + 1) else k
  }

  /** The first index at or after `k` that does not hold a word character (`\w*`). */
  function SkipWord(s: string, k: nat): (r: nat)
    requires k <= |s|
    ensures k <= r <= |s|
    ensures r == |s| || !IsWordChar(s[r])
    ensures forall i | k <= i < r :: IsWordChar(s[i])
    decreases |s| - k
  {
    if k < |s| && IsWordChar(s[k]) then SkipWord(s, k + 1) else k
  }

  /** The first index at or after `k` holding `c`, or `|s|`. */
  function IndexFrom(s: string, k: nat, c: char): (r: nat)
    requires k <= |s|
    ensures k <= r <= |s|
    ensures r < |s| ==> s[r] == c
    ensures forall i | k <= i < r :: s[i] != c
    decreases |s| - k
  {
    if k == |s| || s[k] == c then k else IndexFrom(s, k + 1, c)
  }

  function StripLeft(s: string): string {
    if |s| > 0 && IsSpace(s[0]) then StripLeft(s[1..]) else s
  }

  function StripRight(s: string): string {
    if |s| > 0 && IsSpace(s[|s| - 1]) then StripRight(s[..|s| - 1]) else s
  }

  /** Python's `str.strip()`. */
  function Strip(s: string): string {
    StripRight(StripLeft(s))
  }

  /** Stripping on the left drops a run of leading whitespace. */
  lemma {:induction false} StripLeftShape(s: string)
    ensures |StripLeft(s)| <= |s| && StripLeft(s) == s[|s| - |StripLeft(s)|..]
    ensures forall i | 0 <= i < |s| - |StripLeft(s)| :: IsSpace(s[i])
    ensures StripLeft(s) == [] || !IsSpace(StripLeft(s)[0])
  {
    if |s| > 0 && IsSpace(s[0]) {
      StripLeftShape(s[1..]);
    }
  }

  /** Stripping on the right drops a run of trailing whitespace. */
  lemma {:induction false} StripRightShape(s: string)
    ensures |StripRight(s)| <= |s| && StripRight(s) == s[..|StripRight(s)|]
    ensures forall i | |StripRight(s)| <= i < |s| :: IsSpace(s[i])
    ensures StripRight(s) == [] || !IsSpace(StripRight(s)[|StripRight(s)| - 1])
  {
    if |s| > 0 && IsSpace(s[|s| - 1]) {
      StripRightShape(s[..|s| - 1]);
    }
  }

  /** `strip()` leaves the slice `s[a..b]` that neither starts nor ends
      with whitespace, and removes only whitespace. */
  lemma StripShape(s: string) returns (a: nat, b: nat)
    ensures a <= b <= |s| && Strip(s) == s[a..b]
    ensures forall i | 0 <= i < a :: IsSpace(s[i])
    ensures forall i | b <= i < |s| :: IsSpace(s[i])
    ensures a < b ==> !IsSpace(s[a]) && !IsSpace(s[b - 1])
  {
    var l := StripLeft(s);
    StripLeftShape(s);
    StripRightShape(l);
    a := |s| - |l|;
    b := a + |StripRight(l)|;
    assert forall i | a <= i < |s| :: s[i] == l[i - a];
    assert Strip(s) == l[..b - a];
    assert l[..b - a] == s[a..b];
  }

  function LowerChar(c: char): char {
    if 'A' <= c <= 'Z' then (c as int + 32) as char else c
  }

  function UpperChar(c: char): char {
    if 'a' <= c <= 'z' then (c as int - 32) as char else c
  }

  /** Python's `str.lower()` on ASCII letters. */
  function Lower(s: string): (r: string)
    ensures |r| == |s|
  {
    seq(|s|, i requires 0 <= i < |s| => LowerChar(s[i]))
  }

  /** Python's `str.upper()` on ASCII letters. */
  function Upper(s: string): (r: string)
    ensures |r| == |s|
  {
    seq(|s|, i requires 0 <= i < |s| => UpperChar(s[i]))
  }

  /** Lower-casing twice is lower-casing once. */
  lemma LowerLower(s: string)
    ensures Lower(Lower(s)) == Lower(s)
  {
    assert forall i | 0 <= i < |s| :: Lower(Lower(s))[i] == Lower(s)[i];
  }

  /** Upper-casing a lower-cased text is upper-casing the text. */
  lemma UpperLower(s: string)
    ensures Upper(Lower(s)) == Upper(s)
  {
    assert forall i | 0 <= i < |s| :: Upper(Lower(s))[i] == Upper(s)[i];
  }

  /** Python's `sep.join(ls)`. */
  function Join(ls: seq<string>, sep: char): string {
    if |ls| == 0 then ""
    else if |ls| == 1 then ls[0]
    else ls[0] + [sep] + Join(ls[1..], sep)
  }

  /** Python's `s.split(sep)` for a one-character separator: never empty;
      an empty `s` gives `[""]`. */
  function Split(s: string, sep: char): (r: seq<string>)
    ensures |r| >= 1
  {
    if |s| == 0 then [""]
    else
      var rest := Split(s[1..], sep);
      if s[0] == sep then [""] + rest else [[s[0]] + rest[0]] + rest[1..]
  }

  /** Joining the pieces of a split gives back the text, and no piece holds
      the separator. */
  lemma {:induction false} JoinSplit(s: string, sep: char)
    ensures Join(Split(s, sep), sep) == s
    ensures forall k | 0 <= k < |Split(s, sep)| :: sep !in Split(s, sep)[k]
  {
    if |s| > 0 {
      var rest := Split(s[1..], sep);
      JoinSplit(s[1..], sep);
      if s[0] == sep {
        assert ([""] + rest)[1..] == rest;
      } else {
        var r := [[s[0]] + rest[0]] + rest[1..];
        assert r[1..] == rest[1..];
        if |rest| > 1 {
          assert Join(rest, sep) == rest[0] + [sep] + Join(rest[1..], sep);
        }
        assert s == [s[0]] + s[1..];
        forall k | 0 <= k < |r| ensures sep !in r[k] {
          if k > 0 { assert r[k] == rest[k]; }
          else { assert sep !in rest[0]; }
        }
      }
    }
  }

  /** Splitting a text that begins with a separator-free `a`. */
  lemma {:induction false} SplitPrefix(a: string, t: string, sep: char)
    requires sep !in a
    ensures Split(a + t, sep) == [a + Split(t, sep)[0]] + Split(t, sep)[1..]
    decreases |a|
  {
    if |a| > 0 {
      SplitPrefix(a[1..], t, sep);
      assert (a + t)[1..] == a[1..] + t;
      assert [a[0]] + (a[1..] + Split(t, sep)[0]) == a + Split(t, sep)[0];
    } else {
      assert a + t == t;
      assert a + Split(t, sep)[0] == Split(t, sep)[0];
      assert Split(t, sep) == [Split(t, sep)[0]] + Split(t, sep)[1..];
    }
  }

  /** The first piece of a split is the text before the first separator. */
  lemma SplitHead(s: string, sep: char)
    ensures Split(s, sep)[0] == s[..IndexFrom(s, 0, sep)]
  {
    var j := IndexFrom(s, 0, sep);
    var a, t := s[..j], s[j..];
    assert sep !in a by {
      forall i | 0 <= i < |a| ensures a[i] != sep { assert a[i] == s[i]; }
    }
    SplitPrefix(a, t, sep);
    assert a + t == s;
    assert Split(t, sep)[0] == "";
    assert a + "" == a;
  }

  /** Splitting a join of separator-free pieces gives back the pieces. */
  lemma {:induction false} SplitJoin(ls: seq<string>, sep: char)
    requires |ls| >= 1
    requires forall k | 0 <= k < |ls| :: sep !in ls[k]
    ensures Split(Join(ls, sep), sep) == ls
  {
    if |ls| == 1 {
      SplitPrefix(ls[0], "", sep);
      assert ls[0] + "" == ls[0];
      assert Split("", sep) == [""];
      assert ls[0] + Split("", sep)[0] == ls[0];
      assert ls == [ls[0]];
    } else {
      SplitJoin(ls[1..], sep);
      var t := [sep] + Join(ls[1..], sep);
      assert ls[0] + [sep] + Join(ls[1..], sep) == ls[0] + t;
      SplitPrefix(ls[0], t, sep);
      assert t[1..] == Join(ls[1..], sep);
      assert Split(t, sep) == [""] + ls[1..];
      assert Join(ls, sep) == ls[0] + t;
      assert Split(t, sep)[0] == "" && Split(t, sep)[1..] == ls[1..];
      assert ls[0] + "" == ls[0];
      assert ls == [ls[0]] + ls[1..];
    }
  }

  lemma SubAtChar(s: string, p: int, pat: string, i: int)
    requires SubAt(s, p, pat)
    ensures p <= i < p + |pat| ==> pat[i - p] == s[i]
  {
    if p <= i < p + |pat| {
      assert s[p..p + |pat|][i - p] == s[i];
    }
  }

  lemma NoNewlineAt(s: string, i: int, j: int, k: int)
    requires 0 <= i <= j <= |s| && NoNewline(s, i, j)
    ensures i <= k < j ==> s[k] != '\n'
  {
    if i <= k < j { assert s[i..j][k - i] == s[k]; }
  }

  lemma SliceLeft(x: string, sep: char, y: string, i: int, j: int)
    requires 0 <= i <= j <= |x|
    ensures (x + [sep] + y)[i..j] == x[i..j]
  {
  }

  lemma SliceRight(x: string, sep: char, y: string, i: int, j: int)
    requires 0 <= i <= j <= |y|
    ensures (x + [sep] + y)[i + |x| + 1..j + |x| + 1] == y[i..j]
  {
  }

  /** An occurrence of a separator-free pattern in `x + [sep] + y` lies in
      `x` or in `y`. */
  lemma SubAtSplits(x: string, sep: char, y: string, pat: string, p: int)
    requires sep !in pat && SubAt(x + [sep] + y, p, pat)
    ensures Contains(x, pat) || Contains(y, pat)
  {
    var s := x + [sep] + y;
    var n := |pat|;
    assert s[|x|] == sep;
    SubAtChar(s, p, pat, |x|);
    if p + n <= |x| {
      SliceLeft(x, sep, y, p, p + n);
      assert SubAt(x, p, pat);
    } else {
      var p' := p - |x| - 1;
      SliceRight(x, sep, y, p', p' + n);
      assert SubAt(y, p', pat);
    }
  }

  /** An occurrence in `x` is one in `x + [sep] + y`. */
  lemma ContainsFromLeft(x: string, sep: char, y: string, pat: string)
    requires Contains(x, pat)
    ensures Contains(x + [sep] + y, pat)
  {
    var p :| 0 <= p <= |x| - |pat| && SubAt(x, p, pat);
    SliceLeft(x, sep, y, p, p + |pat|);
    assert SubAt(x + [sep] + y, p, pat);
  }

  /** An occurrence in `y` is one in `x + [sep] + y`, shifted. */
  lemma ContainsFromRight(x: string, sep: char, y: string, pat: string)
    requires Contains(y, pat)
    ensures Contains(x + [sep] + y, pat)
  {
    var p :| 0 <= p <= |y| - |pat| && SubAt(y, p, pat);
    SliceRight(x, sep, y, p, p + |pat|);
    assert SubAt(x + [sep] + y, p + |x| + 1, pat);
  }

  /** A separator-free pattern occurs in `x + [sep] + y` exactly when it
      occurs in `x` or in `y`. */
  lemma ContainsAround(x: string, sep: char, y: string, pat: string)
    requires sep !in pat
    ensures Contains(x + [sep] + y, pat) <==> Contains(x, pat) || Contains(y, pat)
  {
    if Contains(x + [sep] + y, pat) {
      var p :| 0 <= p <= |x + [sep] + y| - |pat| && SubAt(x + [sep] + y, p, pat);
      SubAtSplits(x, sep, y, pat, p);
    }
    if Contains(x, pat) {
      ContainsFromLeft(x, sep, y, pat);
    }
    if Contains(y, pat) {
      ContainsFromRight(x, sep, y, pat);
    }
  }

  /** The same for "`a`, then `b` later on the same line". */
  lemma ContainsThenAround(x: string, y: string, a: string, b: string)
    requires '\n' !in a && '\n' !in b
    ensures ContainsThen(x + ['\n'] + y, a, b) <==> ContainsThen(x, a, b) || ContainsThen(y, a, b)
  {
    if ContainsThen(x + ['\n'] + y, a, b) { ThenSplits(x, y, a, b); }
    if ContainsThen(x, a, b) { ThenFromLeft(x, y, a, b); }
    if ContainsThen(y, a, b) { ThenFromRight(x, y, a, b); }
  }

  lemma ThenSplits(x: string, y: string, a: string, b: string)
    requires '\n' !in a && '\n' !in b
    requires ContainsThen(x + ['\n'] + y, a, b)
    ensures ContainsThen(x, a, b) || ContainsThen(y, a, b)
  {
    var s := x + ['\n'] + y;
    var p, q :| 0 <= p <= q <= |s| && ThenAt(s, p, q, a, b);
    if q + |b| <= |x| {
      ThenAtLeft(x, y, a, b, p, q);
    } else if p > |x| {
      ThenAtRight(x, y, a, b, p - |x| - 1, q - |x| - 1);
    } else {
      assert s[|x|] == '\n';
      SubAtChar(s, p, a, |x|);
      SubAtChar(s, q, b, |x|);
      NoNewlineAt(s, p + |a|, q, |x|);
      assert false;
    }
  }

  /** An occurrence that lies wholly in `x`. */
  lemma ThenAtLeft(x: string, y: string, a: string, b: string, p: int, q: int)
    requires 0 <= p && q + |b| <= |x|
    ensures ThenAt(x + ['\n'] + y, p, q, a, b) <==> ThenAt(x, p, q, a, b)
    ensures ThenAt(x, p, q, a, b) ==> ContainsThen(x, a, b) && ContainsThen(x + ['\n'] + y, a, b)
  {
    if p + |a| <= q {
      SliceLeft(x, '\n', y, p, p + |a|);
      SliceLeft(x, '\n', y, q, q + |b|);
      SliceLeft(x, '\n', y, p + |a|, q);
    }
  }

  /** Shifting an occurrence in `y` past `x` and the line feed. */
  lemma ThenAtShift(x: string, y: string, a: string, b: string, p: int, q: int)
    requires 0 <= p && q + |b| <= |y| && p + |a| <= q
    ensures ThenAt(x + ['\n'] + y, p + |x| + 1, q + |x| + 1, a, b) <==> ThenAt(y, p, q, a, b)
  {
    var s := x + ['\n'] + y;
    var P, Q := p + |x| + 1, q + |x| + 1;
    SliceRight(x, '\n', y, p, p + |a|);
    SliceRight(x, '\n', y, q, q + |b|);
    SliceRight(x, '\n', y, p + |a|, q);
    assert s[P..P + |a|] == y[p..p + |a|];
    assert s[Q..Q + |b|] == y[q..q + |b|];
    assert s[P + |a|..Q] == y[p + |a|..q];
    assert SubAt(s, P, a) == SubAt(y, p, a);
    assert SubAt(s, Q, b) == SubAt(y, q, b);
    assert NoNewline(s, P + |a|, Q) == NoNewline(y, p + |a|, q);
  }

  /** An occurrence that lies wholly in `y`, at `p`, `q` of `y`. */
  lemma ThenAtRight(x: string, y: string, a: string, b: string, p: int, q: int)
    requires 0 <= p && q + |b| <= |y|
    ensures ThenAt(x + ['\n'] + y, p + |x| + 1, q + |x| + 1, a, b) <==> ThenAt(y, p, q, a, b)
    ensures ThenAt(y, p, q, a, b) ==> ContainsThen(y, a, b) && ContainsThen(x + ['\n'] + y, a, b)
  {
    if p + |a| <= q {
      ThenAtShift(x, y, a, b, p, q);
      if ThenAt(y, p, q, a, b) {
        var s := x + ['\n'] + y;
        var d := |x| + 1;
        assert ThenAt(s, p + d, q + d, a, b);
        assert 0 <= p + d <= q + d <= |s|;
      }
    }
  }

  lemma ThenFromLeft(x: string, y: string, a: string, b: string)
    requires ContainsThen(x, a, b)
    ensures ContainsThen(x + ['\n'] + y, a, b)
  {
    var p, q :| 0 <= p <= q <= |x| && ThenAt(x, p, q, a, b);
    ThenAtLeft(x, y, a, b, p, q);
  }

  lemma ThenFromRight(x: string, y: string, a: string, b: string)
    requires ContainsThen(y, a, b)
    ensures ContainsThen(x + ['\n'] + y, a, b)
  {
    var p, q :| 0 <= p <= q <= |y| && ThenAt(y, p, q, a, b);
    ThenAtRight(x, y, a, b, p, q);
  }

  /** A non-empty, line-free pattern occurs in lines joined by line feeds
      exactly when it occurs in one of the lines. */
  lemma {:induction false} ContainsJoin(ls: seq<string>, pat: string)
    requires |pat| > 0 && '\n' !in pat
    ensures Contains(Join(ls, '\n'), pat) <==> exists k | 0 <= k < |ls| :: Contains(ls[k], pat)
  {
    if |ls| == 0 {
      assert !Contains("", pat);
    } else if |ls| > 1 {
      ContainsJoin(ls[1..], pat);
      ContainsAround(ls[0], '\n', Join(ls[1..], '\n'), pat);
      if exists k | 0 <= k < |ls| :: Contains(ls[k], pat) {
        var k :| 0 <= k < |ls| && Contains(ls[k], pat);
        if k > 0 { assert ls[1..][k - 1] == ls[k]; }
      }
    }
  }

  /** The same for "`a`, then `b` later on the same line". */
  lemma {:induction false} ContainsThenJoin(ls: seq<string>, a: string, b: string)
    requires |a| > 0 && '\n' !in a && '\n' !in b
    ensures ContainsThen(Join(ls, '\n'), a, b) <==> exists k | 0 <= k < |ls| :: ContainsThen(ls[k], a, b)
  {
    if |ls| == 0 {
      assert !ContainsThen("", a, b);
    } else if |ls| > 1 {
      ContainsThenJoin(ls[1..], a, b);
      ContainsThenAround(ls[0], Join(ls[1..], '\n'), a, b);
      if exists k | 0 <= k < |ls| :: ContainsThen(ls[k], a, b) {
        var k :| 0 <= k < |ls| && ContainsThen(ls[k], a, b);
        if k > 0 { assert ls[1..][k - 1] == ls[k]; }
      }
    }
  }

  function DigitChar(d: nat): char
    requires d < 10
  {
    ('0' as int + d) as char
  }

  /** Python's `str(n)` for a natural number. */
  function NatToString(n: nat): (r: string)
    ensures |r| > 0
    ensures forall i | 0 <= i < |r| :: IsDigit(r[i])
  {
    if n < 10 then [DigitChar(n)] else NatToString(n / 10) + [DigitChar(n % 10)]
  }

  /** Python's `str(i)` for an integer. */
  function IntToString(i: int): string {
    if i < 0 then "-" + NatToString(-i) else NatToString(i)
  }

  /** Python's `int(s)` for a non-empty string of ASCII digits. */
  predicate AllDigits(s: string) {
    forall i | 0 <= i < |s| :: IsDigit(s[i])
  }

  function ParseDigits(s: string): nat
    requires AllDigits(s)
  {
    if |s| == 0 then 0
    else
      assert IsDigit(s[|s| - 1]);
      ParseDigits(s[..|s| - 1]) * 10 + (s[|s| - 1] as int - '0' as int)
  }

  /** Parsing what `str` printed gives back the number. */
  lemma {:induction false} ParseNatToString(n: nat)
    ensures ParseDigits(NatToString(n)) == n
  {
    if n >= 10 {
      var r := NatToString(n);
      ParseNatToString(n / 10);
      assert r[..|r| - 1] == NatToString(n / 10);
    }
  }
}
