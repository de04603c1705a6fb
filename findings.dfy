/** The finding record every analyser emits, the source files they read,
    and the shape shared by every line-by-line pass: visit lines 1..n in
    order and append at most one finding per line. */
module Findings {
  import opened Wrappers

  /** One finding.  The analysers and the external analyser build it as a
      dictionary, and consumers read it with `get(key, default)`, so every
      key may be absent. */
  datatype Finding = Finding(
    file: Option<string>,
    line: Option<int>,
    kind: Option<string>,
    severity: Option<string>,
    title: Option<string>,
    description: Option<string>,
    codeSnippet: Option<string>,
    recommendation: Option<string>)

  /** A source file handed to the analysers: its path and its text. */
  datatype SourceFile = SourceFile(path: string, content: string)

  /** The findings of one pass over lines 1..n: line i contributes
      `check(i)` when it is present. */
  function Scan(n: nat, check: nat -> Option<Finding>): (r: seq<Finding>)
    ensures |r| <= n
  {
    if n == 0 then []
    else Scan(n - 1, check) + (if check(n).Some? then [check(n).value] else [])
  }

  /** The findings of `fs` reported at line `i`, in their order. */
  function AtLine(fs: seq<Finding>, i: int): seq<Finding> {
    if fs == [] then []
    else AtLine(fs[..|fs| - 1], i) + (if fs[|fs| - 1].line == Some(i) then [fs[|fs| - 1]] else [])
  }

  /** Every finding `check` produces for line i is reported at line i. */
  ghost predicate Tagged(n: nat, check: nat -> Option<Finding>) {
    forall i | 1 <= i <= n :: check(i).Some? ==> check(i).value.line == Some(i)
  }

  /** Every finding carries a line, and lines strictly increase. */
  predicate LinesAscending(fs: seq<Finding>) {
    && (forall k | 0 <= k < |fs| :: fs[k].line.Some?)
    && (forall a, b | 0 <= a < b < |fs| ::
          fs[a].line.Some? && fs[b].line.Some? && fs[a].line.value < fs[b].line.value)
  }

  /** One more line scanned: its finding, if any, goes at the end. */
  lemma ScanNext(n: nat, check: nat -> Option<Finding>, x: Option<Finding>)
    requires 1 <= n && check(n) == x
    ensures Scan(n, check) == Scan(n - 1, check) + (if x.Some? then [x.value] else [])
  {
  }

  lemma {:induction false} AtLineAppend(a: seq<Finding>, b: seq<Finding>, i: int)
    ensures AtLine(a + b, i) == AtLine(a, i) + AtLine(b, i)
    decreases |b|
  {
    if b == [] {
      assert a + b == a;
    } else {
      var b' := b[..|b| - 1];
      assert (a + b)[..|a + b| - 1] == a + b';
      AtLineAppend(a, b', i);
    }
  }

  /** At line i a pass holds exactly the finding `check(i)`, if any: no
      other line's finding, and never two. */
  lemma {:induction false} ScanAtLine(n: nat, check: nat -> Option<Finding>, i: int)
    requires Tagged(n, check)
    ensures AtLine(Scan(n, check), i) == if 1 <= i <= n && check(i).Some? then [check(i).value] else []
  {
    if n > 0 {
      assert Tagged(n - 1, check);
      ScanAtLine(n - 1, check, i);
      var last := if check(n).Some? then [check(n).value] else [];
      AtLineAppend(Scan(n - 1, check), last, i);
      if check(n).Some? {
        assert AtLine(last, i) == AtLine([], i) + (if check(n).value.line == Some(i) then last else []);
      }
    }
  }

  /** What a pass holds is exactly the findings `check` produces. */
  lemma {:induction false} ScanMembers(n: nat, check: nat -> Option<Finding>, f: Finding)
    ensures f in Scan(n, check) <==> exists i | 1 <= i <= n :: check(i) == Some(f)
  {
    if n > 0 {
      ScanMembers(n - 1, check, f);
      if exists i | 1 <= i <= n :: check(i) == Some(f) {
        var i :| 1 <= i <= n && check(i) == Some(f);
        if i < n { assert f in Scan(n - 1, check); }
      }
    }
  }

  /** A pass reports its findings in strictly increasing line order, every
      one within lines 1..n. */
  lemma {:induction false} ScanAscending(n: nat, check: nat -> Option<Finding>)
    requires Tagged(n, check)
    ensures LinesAscending(Scan(n, check))
    ensures forall k | 0 <= k < |Scan(n, check)| :: 1 <= Scan(n, check)[k].line.value <= n
  {
    if n > 0 {
      assert Tagged(n - 1, check);
      ScanAscending(n - 1, check);
    }
  }
}
