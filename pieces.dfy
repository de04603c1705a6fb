/** The report generators build their text by appending one template after
    another. Their output is modelled as a sequence of pieces, one per
    appended template, and the text as the pieces written out in order. */
module Pieces {
  import opened Wrappers
  import opened Text
  import opened Findings
  import opened Dicts
  import opened Results

  /** The pieces written out one after the other. */
  function Render<P>(ps: seq<P>, text: P -> string): string {
    if ps == [] then ""
    else Render(ps[..|ps| - 1], text) + text(ps[|ps| - 1])
  }

  /** The pieces each element contributes, laid end to end. */
  function Each<A, P>(xs: seq<A>, pieces: A -> seq<P>): seq<P> {
    if xs == [] then []
    else Each(xs[..|xs| - 1], pieces) + pieces(xs[|xs| - 1])
  }

  /** The pieces of the wanted kind, in order. */
  function Keep<P>(ps: seq<P>, wanted: P -> bool): (r: seq<P>)
    ensures |r| <= |ps|
    ensures forall p | p in r :: p in ps && wanted(p)
  {
    if ps == [] then []
    else
      var init := Keep(ps[..|ps| - 1], wanted);
      if wanted(ps[|ps| - 1]) then init + [ps[|ps| - 1]] else init
  }

  /** One piece per element. */
  function MapAll<A, P>(xs: seq<A>, f: A -> P): (r: seq<P>)
    ensures |r| == |xs|
    ensures forall i | 0 <= i < |xs| :: r[i] == f(xs[i])
  {
    if xs == [] then []
    else MapAll(xs[..|xs| - 1], f) + [f(xs[|xs| - 1])]
  }

  /** Python's `''.join(ss)`. */
  function Concat(ss: seq<string>): string {
    if ss == [] then "" else Concat(ss[..|ss| - 1]) + ss[|ss| - 1]
  }

  /** n spaces. */
  function Indent(n: nat): (r: string)
    ensures |r| == n
    ensures forall i | 0 <= i < n :: r[i] == ' '
  {
    if n == 0 then "" else Indent(n - 1) + " "
  }

  /** `str(issue.get('line', 'N/A'))` */
  function LineText(line: Option<int>): string {
    if line.Some? then IntToString(line.value) else "N/A"
  }

  /** A dictionary the reports show: present and not empty. */
  predicate Shown<V>(d: Option<Dict<V>>) {
    d.Some? && d.value != []
  }

  /** Appending to a text, one piece of text at a time. */
  lemma AppendAssoc(a: string, b: string, c: string)
    ensures (a + b) + c == a + (b + c)
  {
  }

  lemma {:induction false} RenderAppend<P>(a: seq<P>, b: seq<P>, text: P -> string)
    ensures Render(a + b, text) == Render(a, text) + Render(b, text)
    decreases |b|
  {
    if b == [] {
      assert a + b == a;
    } else {
      var b' := b[..|b| - 1];
      assert (a + b)[..|a + b| - 1] == a + b';
      assert (a + b)[|a + b| - 1] == b[|b| - 1];
      RenderAppend(a, b', text);
    }
  }

  lemma RenderOne<P>(p: P, text: P -> string)
    ensures Render([p], text) == text(p)
  {
    assert [p][..0] == [];
  }

  lemma RenderSnoc<P>(ps: seq<P>, p: P, text: P -> string)
    ensures Render(ps + [p], text) == Render(ps, text) + text(p)
  {
    assert (ps + [p])[..|ps|] == ps;
  }

  /** The text of a non-empty sequence of pieces begins with its first piece. */
  lemma RenderFirst<P>(ps: seq<P>, text: P -> string)
    requires ps != []
    ensures Render(ps, text) == text(ps[0]) + Render(ps[1..], text)
  {
    assert ps == [ps[0]] + ps[1..];
    RenderAppend([ps[0]], ps[1..], text);
    RenderOne(ps[0], text);
  }

  lemma EachNext<A, P>(xs: seq<A>, pieces: A -> seq<P>, j: nat)
    requires j < |xs|
    ensures Each(xs[..j + 1], pieces) == Each(xs[..j], pieces) + pieces(xs[j])
  {
    assert xs[..j + 1][..j] == xs[..j];
  }

  /** One more element's pieces appended to a text that already holds the
      earlier elements' pieces. */
  lemma RenderStep<A, P>(start: string, xs: seq<A>, pieces: A -> seq<P>, text: P -> string, j: nat)
    requires j < |xs|
    ensures start + Render(Each(xs[..j + 1], pieces), text) ==
      (start + Render(Each(xs[..j], pieces), text)) + Render(pieces(xs[j]), text)
  {
    EachNext(xs, pieces, j);
    RenderAppend(Each(xs[..j], pieces), pieces(xs[j]), text);
    AppendAssoc(start, Render(Each(xs[..j], pieces), text), Render(pieces(xs[j]), text));
  }

  /** One more element's pieces appended after the earlier elements'. */
  lemma EachStep<A, P>(ps0: seq<P>, xs: seq<A>, pieces: A -> seq<P>, j: nat)
    requires j < |xs|
    ensures ps0 + Each(xs[..j + 1], pieces) == (ps0 + Each(xs[..j], pieces)) + pieces(xs[j])
  {
    EachNext(xs, pieces, j);
  }

  lemma KeepOne<P>(p: P, wanted: P -> bool)
    ensures Keep([p], wanted) == if wanted(p) then [p] else []
  {
    assert [p][..0] == [];
  }

  /** The wanted pieces between an opening and a closing piece that are not
      wanted. */
  lemma KeepWrap<P>(open: P, ps: seq<P>, close: P, wanted: P -> bool)
    requires !wanted(open) && !wanted(close)
    ensures Keep([open] + ps + [close], wanted) == Keep(ps, wanted)
  {
    KeepAppend([open] + ps, [close], wanted);
    KeepAppend([open], ps, wanted);
    KeepOne(open, wanted);
    KeepOne(close, wanted);
  }

  /** Keeping the wanted pieces of a sequence of at most one piece. */
  lemma KeepAtMostOne<P>(ps: seq<P>, wanted: P -> bool)
    requires |ps| <= 1
    ensures Keep(ps, wanted) == if ps != [] && wanted(ps[0]) then ps else []
  {
    if ps != [] {
      assert ps == [ps[0]];
      KeepOne(ps[0], wanted);
    }
  }

  /** Keeping the wanted pieces of an opening piece, up to two optional
      pieces and a closing piece. */
  lemma KeepFour<P>(open: P, b: seq<P>, c: seq<P>, close: P, wanted: P -> bool)
    requires |b| <= 1 && |c| <= 1
    ensures Keep([open] + b + c + [close], wanted) ==
      (if wanted(open) then [open] else []) +
      (if b != [] && wanted(b[0]) then b else []) +
      (if c != [] && wanted(c[0]) then c else []) +
      (if wanted(close) then [close] else [])
  {
    KeepAppend([open] + b + c, [close], wanted);
    KeepAppend([open] + b, c, wanted);
    KeepAppend([open], b, wanted);
    KeepOne(open, wanted);
    KeepOne(close, wanted);
    KeepAtMostOne(b, wanted);
    KeepAtMostOne(c, wanted);
  }

  /** Keeping the wanted pieces of an opening piece, a middle part, at most
      one optional piece and a closing piece. */
  lemma KeepAround<P>(open: P, b: seq<P>, c: seq<P>, close: P, wanted: P -> bool)
    requires |c| <= 1
    ensures Keep([open] + b + c + [close], wanted) ==
      (if wanted(open) then [open] else []) + Keep(b, wanted) +
      (if c != [] && wanted(c[0]) then c else []) +
      (if wanted(close) then [close] else [])
  {
    KeepAppend([open] + b + c, [close], wanted);
    KeepAppend([open] + b, c, wanted);
    KeepAppend([open], b, wanted);
    KeepOne(open, wanted);
    KeepOne(close, wanted);
    KeepAtMostOne(c, wanted);
  }

  /** `''.join` of one more text. */
  lemma ConcatSnoc(ss: seq<string>, s: string)
    ensures Concat(ss + [s]) == Concat(ss) + s
  {
    assert (ss + [s])[..|ss|] == ss;
  }

  lemma {:induction false} EachAppend<A, P>(a: seq<A>, b: seq<A>, pieces: A -> seq<P>)
    ensures Each(a + b, pieces) == Each(a, pieces) + Each(b, pieces)
    decreases |b|
  {
    if b == [] {
      assert a + b == a;
    } else {
      var b' := b[..|b| - 1];
      assert (a + b)[..|a + b| - 1] == a + b';
      assert (a + b)[|a + b| - 1] == b[|b| - 1];
      EachAppend(a, b', pieces);
    }
  }

  lemma {:induction false} KeepAppend<P>(a: seq<P>, b: seq<P>, wanted: P -> bool)
    ensures Keep(a + b, wanted) == Keep(a, wanted) + Keep(b, wanted)
    decreases |b|
  {
    if b == [] {
      assert a + b == a;
    } else {
      var b' := b[..|b| - 1];
      assert (a + b)[..|a + b| - 1] == a + b';
      assert (a + b)[|a + b| - 1] == b[|b| - 1];
      KeepAppend(a, b', wanted);
    }
  }

  /** Keeping the wanted pieces of every element's contribution, when
      those are g of the element. */
  lemma {:induction false} KeepEach<A, P>(xs: seq<A>, pieces: A -> seq<P>, wanted: P -> bool, g: A -> seq<P>)
    requires forall x | x in xs :: Keep(pieces(x), wanted) == g(x)
    ensures Keep(Each(xs, pieces), wanted) == Each(xs, g)
  {
    if xs != [] {
      var init := xs[..|xs| - 1];
      assert forall x | x in init :: x in xs;
      KeepEach(init, pieces, wanted, g);
      KeepAppend(Each(init, pieces), pieces(xs[|xs| - 1]), wanted);
    }
  }

  /** When every element contributes exactly one wanted piece, the wanted
      pieces are one per element, in order. */
  lemma {:induction false} KeepEachOne<A, P>(xs: seq<A>, pieces: A -> seq<P>, wanted: P -> bool, f: A -> P)
    requires forall x | x in xs :: Keep(pieces(x), wanted) == [f(x)]
    ensures Keep(Each(xs, pieces), wanted) == MapAll(xs, f)
  {
    if xs != [] {
      var init := xs[..|xs| - 1];
      assert forall x | x in init :: x in xs;
      KeepEachOne(init, pieces, wanted, f);
      KeepAppend(Each(init, pieces), pieces(xs[|xs| - 1]), wanted);
    }
  }

  /** When no element contributes a wanted piece, there is none. */
  lemma {:induction false} KeepEachNone<A, P>(xs: seq<A>, pieces: A -> seq<P>, wanted: P -> bool)
    requires forall x | x in xs :: Keep(pieces(x), wanted) == []
    ensures Keep(Each(xs, pieces), wanted) == []
  {
    if xs != [] {
      var init := xs[..|xs| - 1];
      assert forall x | x in init :: x in xs;
      KeepEachNone(init, pieces, wanted);
      KeepAppend(Each(init, pieces), pieces(xs[|xs| - 1]), wanted);
    }
  }

  /** Visiting the entries of a bucket and then each entry's findings is
      visiting the bucket's findings. */
  lemma {:induction false} EachFlatten<P>(bucket: Bucket, entry: ((string, seq<Finding>)) -> seq<P>, pieces: Finding -> seq<P>)
    requires forall e :: entry(e) == Each(e.1, pieces)
    ensures Each(bucket, entry) == Each(Flatten(bucket), pieces)
  {
    if bucket != [] {
      EachFlatten(bucket[..|bucket| - 1], entry, pieces);
      EachAppend(Flatten(bucket[..|bucket| - 1]), bucket[|bucket| - 1].1, pieces);
    }
  }

  /** A piece, the pieces inside it and a closing piece. */
  lemma RenderWrap<P>(open: P, ps: seq<P>, close: P, text: P -> string)
    ensures Render([open] + ps + [close], text) == text(open) + Render(ps, text) + text(close)
  {
    RenderAppend([open] + ps, [close], text);
    RenderAppend([open], ps, text);
    RenderOne(open, text);
    RenderOne(close, text);
  }

  /** Elements that contribute nothing contribute nothing together. */
  lemma {:induction false} EachNone<A, P>(xs: seq<A>, pieces: A -> seq<P>)
    requires forall x | x in xs :: pieces(x) == []
    ensures Each(xs, pieces) == []
  {
    if xs != [] {
      var init := xs[..|xs| - 1];
      assert forall x | x in init :: x in xs;
      EachNone(init, pieces);
    }
  }

  /** Elements that contribute one piece each contribute one piece per
      element, in order. */
  lemma {:induction false} EachSingle<A, P>(xs: seq<A>, pieces: A -> seq<P>, f: A -> P)
    requires forall x | x in xs :: pieces(x) == [f(x)]
    ensures Each(xs, pieces) == MapAll(xs, f)
  {
    if xs != [] {
      var init := xs[..|xs| - 1];
      assert forall x | x in init :: x in xs;
      EachSingle(init, pieces, f);
    }
  }

  /** The first piece of all contributions is the first piece of the first
      element's, when that one contributes something. */
  lemma {:induction false} EachFirst<A, P>(xs: seq<A>, pieces: A -> seq<P>)
    requires xs != [] && pieces(xs[0]) != []
    ensures Each(xs, pieces) != [] && Each(xs, pieces)[0] == pieces(xs[0])[0]
  {
    if |xs| > 1 {
      var init := xs[..|xs| - 1];
      assert init[0] == xs[0];
      EachFirst(init, pieces);
    } else {
      assert xs[..0] == [];
    }
  }

  lemma KeysSnoc<V>(d: Dict<V>)
    requires d != []
    ensures Keys(d) == Keys(d[..|d| - 1]) + [d[|d| - 1].0]
  {
  }

  lemma MapAllSnoc<A, P>(xs: seq<A>, x: A, f: A -> P)
    ensures MapAll(xs + [x], f) == MapAll(xs, f) + [f(x)]
  {
    assert (xs + [x])[..|xs|] == xs;
  }

  /** One entry: a heading that is not wanted followed by the pieces of its
      findings. */
  lemma KeepEntry<P>(e: (string, seq<Finding>), own: seq<P>, head: P, pieces: Finding -> seq<P>,
      wanted: P -> bool, g: Finding -> seq<P>)
    requires own == [head] + Each(e.1, pieces) && !wanted(head)
    requires forall f | f in e.1 :: Keep(pieces(f), wanted) == g(f)
    ensures Keep(own, wanted) == Each(e.1, g)
  {
    KeepAppend([head], Each(e.1, pieces), wanted);
    KeepOne(head, wanted);
    KeepEach(e.1, pieces, wanted, g);
  }

  /** One entry: a wanted heading followed by the pieces of its findings,
      none of them wanted. */
  lemma KeepEntryHeading<P>(e: (string, seq<Finding>), own: seq<P>, head: P, pieces: Finding -> seq<P>,
      wanted: P -> bool)
    requires own == [head] + Each(e.1, pieces) && wanted(head)
    requires forall f | f in e.1 :: Keep(pieces(f), wanted) == []
    ensures Keep(own, wanted) == [head]
  {
    KeepAppend([head], Each(e.1, pieces), wanted);
    KeepOne(head, wanted);
    KeepEachNone(e.1, pieces, wanted);
  }

  /** Keeping the wanted pieces of the entries of a bucket, each a heading
      that is not wanted followed by the pieces of its findings: the wanted
      pieces of the findings, in order. */
  lemma {:induction false} KeepHeaded<P>(bucket: Bucket, entry: ((string, seq<Finding>)) -> seq<P>,
      head: string -> P, pieces: Finding -> seq<P>, wanted: P -> bool, g: Finding -> seq<P>)
    requires forall e :: entry(e) == [head(e.0)] + Each(e.1, pieces)
    requires forall name :: !wanted(head(name))
    requires forall f | f in Flatten(bucket) :: Keep(pieces(f), wanted) == g(f)
    ensures Keep(Each(bucket, entry), wanted) == Each(Flatten(bucket), g)
  {
    if bucket != [] {
      var init, last := bucket[..|bucket| - 1], bucket[|bucket| - 1];
      assert Flatten(bucket) == Flatten(init) + last.1;
      assert forall f | f in Flatten(init) :: f in Flatten(bucket);
      assert forall f | f in last.1 :: f in Flatten(bucket);
      KeepHeaded(init, entry, head, pieces, wanted, g);
      var before, own := Each(init, entry), entry(last);
      KeepEntry(last, own, head(last.0), pieces, wanted, g);
      KeepAppend(before, own, wanted);
      EachAppend(Flatten(init), last.1, g);
    }
  }

  /** The headings of the entries of a bucket, when its findings contribute
      no heading: one per entry, in the order of the keys. */
  lemma {:induction false} KeepHeadings<P>(bucket: Bucket, entry: ((string, seq<Finding>)) -> seq<P>,
      head: string -> P, pieces: Finding -> seq<P>, wanted: P -> bool)
    requires forall e :: entry(e) == [head(e.0)] + Each(e.1, pieces)
    requires forall name :: wanted(head(name))
    requires forall f | f in Flatten(bucket) :: Keep(pieces(f), wanted) == []
    ensures Keep(Each(bucket, entry), wanted) == MapAll(Keys(bucket), head)
  {
    if bucket != [] {
      var init, last := bucket[..|bucket| - 1], bucket[|bucket| - 1];
      assert Flatten(bucket) == Flatten(init) + last.1;
      assert forall f | f in Flatten(init) :: f in Flatten(bucket);
      assert forall f | f in last.1 :: f in Flatten(bucket);
      KeepHeadings(init, entry, head, pieces, wanted);
      var before, own := Each(init, entry), entry(last);
      KeepEntryHeading(last, own, head(last.0), pieces, wanted);
      KeepAppend(before, own, wanted);
      KeysSnoc(bucket);
      MapAllSnoc(Keys(init), last.0, head);
    }
  }
}
