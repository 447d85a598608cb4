/** The parts of Go's `strings` package that the core uses. */
module GoStrings {

  /** strings.Join: the elements in order, with `sep` between neighbours only. */
  function Join(elems: seq<string>, sep: string): string
  {
    if |elems| == 0 then ""
    else if |elems| == 1 then elems[0]
    else elems[0] + sep + Join(elems[1..], sep)
  }

  /** strings.Split on a one-character separator: always at least one part. */
  function Split(s: string, c: char): (parts: seq<string>)
    ensures |parts| >= 1
    ensures forall k :: 0 <= k < |parts| ==> c !in parts[k]
    decreases |s|
  {
    if |s| == 0 then [""]
    else
      var rest := Split(s[1..], c);
      if s[0] == c then [""] + rest
      else [[s[0]] + rest[0]] + rest[1..]
  }

  lemma {:induction false} SplitWithoutSeparator(a: string, c: char)
    requires c !in a
    ensures Split(a, c) == [a]
  {
    if |a| > 0 {
      assert c !in a[1..];
      SplitWithoutSeparator(a[1..], c);
      assert [a[0]] + a[1..] == a;
    }
  }

  lemma {:induction false} SplitAfterFirst(a: string, c: char, b: string)
    requires c !in a
    ensures Split(a + [c] + b, c) == [a] + Split(b, c)
  {
    var s := a + [c] + b;
    if |a| == 0 {
      assert s[0] == c && s[1..] == b;
    } else {
      assert s[0] == a[0] && a[0] != c;
      assert s[1..] == a[1..] + [c] + b;
      assert c !in a[1..];
      SplitAfterFirst(a[1..], c, b);
      assert [a[0]] + a[1..] == a;
    }
  }

  /** Splitting a join recovers the parts, if no part contains the separator. */
  lemma {:induction false} SplitJoin(elems: seq<string>, c: char)
    requires |elems| > 0
    requires forall k :: 0 <= k < |elems| ==> c !in elems[k]
    ensures Split(Join(elems, [c]), c) == elems
  {
    if |elems| == 1 {
      SplitWithoutSeparator(elems[0], c);
    } else {
      SplitJoin(elems[1..], c);
      SplitAfterFirst(elems[0], c, Join(elems[1..], [c]));
      assert [elems[0]] + elems[1..] == elems;
    }
  }

  /** Joining with a one-character separator loses nothing: different label lists give different strings. */
  lemma JoinInjective(a: seq<string>, b: seq<string>, c: char)
    requires |a| > 0 && |b| > 0
    requires forall k :: 0 <= k < |a| ==> c !in a[k]
    requires forall k :: 0 <= k < |b| ==> c !in b[k]
    requires Join(a, [c]) == Join(b, [c])
    ensures a == b
  {
    SplitJoin(a, c);
    SplitJoin(b, c);
  }
}
