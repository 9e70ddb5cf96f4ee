/** Sequence notions shared by the filters and the renderers. */
module Seqs {

  /** `xs` occurs in `ys` in order, possibly with gaps. */
  predicate IsSubsequence<T(==)>(xs: seq<T>, ys: seq<T>)
    decreases |ys|
  {
    if ys == [] then xs == []
    else
      IsSubsequence(xs, ys[..|ys| - 1])
      || (xs != [] && xs[|xs| - 1] == ys[|ys| - 1]
          && IsSubsequence(xs[..|xs| - 1], ys[..|ys| - 1]))
  }

  lemma SubsequenceExtend<T>(xs: seq<T>, ys: seq<T>, y: T)
    requires IsSubsequence(xs, ys)
    ensures IsSubsequence(xs, ys + [y])
    ensures IsSubsequence(xs + [y], ys + [y])
  {
    assert (ys + [y])[..|ys|] == ys;
    assert (xs + [y])[..|xs|] == xs;
  }

  lemma {:induction false} SubsequenceOfEmpty<T>(ys: seq<T>)
    ensures IsSubsequence([], ys)
    decreases |ys|
  {
    if ys != [] {
      SubsequenceOfEmpty(ys[..|ys| - 1]);
    }
  }

  lemma {:induction false} SubsequenceMembers<T>(xs: seq<T>, ys: seq<T>)
    requires IsSubsequence(xs, ys)
    ensures forall x | x in xs :: x in ys
    decreases |ys|
  {
    if ys != [] {
      var p := ys[..|ys| - 1];
      if IsSubsequence(xs, p) {
        SubsequenceMembers(xs, p);
      } else {
        SubsequenceMembers(xs[..|xs| - 1], p);
        assert xs == xs[..|xs| - 1] + [xs[|xs| - 1]];
      }
    }
  }

  lemma {:induction false} SubsequenceReflexive<T>(xs: seq<T>)
    ensures IsSubsequence(xs, xs)
    decreases |xs|
  {
    if xs != [] {
      SubsequenceReflexive(xs[..|xs| - 1]);
    }
  }

  lemma SubsequenceLength<T>(xs: seq<T>, ys: seq<T>)
    requires IsSubsequence(xs, ys)
    ensures |xs| <= |ys|
    decreases |ys|
  {
  }

  /** The concatenation of a list of strings, `''.join(ss)`. */
  function Concat(ss: seq<string>): string {
    if ss == [] then "" else Concat(ss[..|ss| - 1]) + ss[|ss| - 1]
  }

  lemma ConcatSnoc(ss: seq<string>, i: nat)
    requires i < |ss|
    ensures Concat(ss[..i + 1]) == Concat(ss[..i]) + ss[i]
  {
    assert ss[..i + 1][..i] == ss[..i];
  }

  lemma AppendAssociative<T>(a: seq<T>, b: seq<T>, c: seq<T>)
    ensures (a + b) + c == a + (b + c)
  {
  }

  /** Concatenation distributes over appending lists. */
  lemma {:induction false} ConcatAppend(a: seq<string>, b: seq<string>)
    ensures Concat(a + b) == Concat(a) + Concat(b)
    decreases |b|
  {
    if b == [] {
      assert a + b == a;
    } else {
      var b', last := b[..|b| - 1], b[|b| - 1];
      assert (a + b)[..|a + b| - 1] == a + b';
      assert (a + b)[|a + b| - 1] == last;
      ConcatAppend(a, b');
      assert Concat(b) == Concat(b') + last;
      assert Concat(a) + Concat(b') + last == Concat(a) + (Concat(b') + last);
    }
  }

  /** Extending element `k` by `extra` inserts `extra` right after it. */
  lemma ConcatExtendAt(cs: seq<string>, k: nat, extra: string)
    requires k < |cs|
    ensures Concat(cs[..k] + [cs[k] + extra] + cs[k + 1..]) == Concat(cs[..k + 1]) + extra + Concat(cs[k + 1..])
  {
    var single := [cs[k] + extra];
    ConcatAppend(cs[..k] + single, cs[k + 1..]);
    ConcatAppend(cs[..k], single);
    assert single[..0] == [];
    assert Concat(single) == cs[k] + extra;
    ConcatSnoc(cs, k);
    AppendAssociative(Concat(cs[..k]), cs[k], extra);
  }

  /** Python's `s[:limit]`: a negative limit drops that many elements from the end. */
  function PyTake<T>(s: seq<T>, limit: int): (r: seq<T>)
    ensures r <= s
    ensures 0 <= limit ==> |r| == if limit < |s| then limit else |s|
    ensures limit < 0 ==> |r| == if |s| + limit < 0 then 0 else |s| + limit
  {
    if 0 <= limit then (if limit < |s| then s[..limit] else s)
    else if |s| + limit < 0 then []
    else s[..|s| + limit]
  }
}
