/** The Python `str` operations the curator relies on, restricted to ASCII:
    whitespace, case folding, `strip`, `split`/`join`, `in`, `startswith`,
    `split(c)[0]`, `replace` and decimal rendering of integers. */
module Text {

  /** `str.isspace` on ASCII: tab, line feed, vertical tab, form feed, carriage
      return, the four separators 0x1C-0x1F, and space. */
  predicate IsSpace(c: char) {
    (9 <= c as int <= 13) || (28 <= c as int <= 32)
  }

  predicate IsUpper(c: char) { 'A' <= c <= 'Z' }

  predicate IsLowerLetter(c: char) { 'a' <= c <= 'z' }

  predicate IsDigit(c: char) { '0' <= c <= '9' }

  /** `str.isalnum` on ASCII. */
  predicate IsAlnum(c: char) { IsUpper(c) || IsLowerLetter(c) || IsDigit(c) }

  /** Every character of `s` is whitespace. */
  predicate AllSpace(s: string) {
    forall k | 0 <= k < |s| :: IsSpace(s[k])
  }

  /** `s` neither starts nor ends with whitespace. */
  predicate NoOuterSpace(s: string) {
    s == [] || (!IsSpace(s[0]) && !IsSpace(s[|s| - 1]))
  }

  function LowerChar(c: char): (d: char)
    ensures !IsUpper(d)
    ensures IsAlnum(d) <==> IsAlnum(c)
    ensures !IsUpper(c) ==> d == c
  {
    if IsUpper(c) then (c as int + 32) as char else c
  }

  /** `str.lower` on ASCII. */
  function Lower(s: string): (r: string)
    ensures |r| == |s|
    ensures forall k | 0 <= k < |s| :: r[k] == LowerChar(s[k])
  {
    seq(|s|, k requires 0 <= k < |s| => LowerChar(s[k]))
  }

  /** `s.replace(a, b)` for single characters. */
  function ReplaceChar(s: string, a: char, b: char): (r: string)
    ensures |r| == |s|
    ensures forall k | 0 <= k < |s| :: r[k] == (if s[k] == a then b else s[k])
  {
    seq(|s|, k requires 0 <= k < |s| => if s[k] == a then b else s[k])
  }

  /** `s.strip()`: leading and trailing whitespace removed. */
  function Strip(s: string): (r: string)
    ensures NoOuterSpace(r)
    ensures |r| <= |s|
    decreases |s|
  {
    if s != [] && IsSpace(s[0]) then Strip(s[1..])
    else if s != [] && IsSpace(s[|s| - 1]) then Strip(s[..|s| - 1])
    else s
  }

  lemma AllSpaceConcat(a: string, b: string)
    requires AllSpace(a) && AllSpace(b)
    ensures AllSpace(a + b)
  {
    assert forall k | 0 <= k < |a + b| :: (a + b)[k] == if k < |a| then a[k] else b[k - |a|];
  }

  /** Where `strip` cuts: `Strip(s)` is `s[i..j]`, with only whitespace
      before `i` and from `j` on. */
  lemma {:induction false} StripBounds(s: string) returns (i: nat, j: nat)
    ensures i <= j <= |s| && Strip(s) == s[i..j]
    ensures forall k | 0 <= k < i :: IsSpace(s[k])
    ensures forall k | j <= k < |s| :: IsSpace(s[k])
    decreases |s|
  {
    if s != [] && IsSpace(s[0]) {
      var i', j' := StripBounds(s[1..]);
      i, j := i' + 1, j' + 1;
      assert s[1..][i'..j'] == s[i..j];
      assert forall k | 1 <= k < i :: s[k] == s[1..][k - 1];
      assert forall k | j <= k < |s| :: s[k] == s[1..][k - 1];
    } else if s != [] && IsSpace(s[|s| - 1]) {
      var t := s[..|s| - 1];
      i, j := StripBounds(t);
      assert t[i..j] == s[i..j];
      assert forall k | j <= k < |t| :: s[k] == t[k];
    } else {
      i, j := 0, |s|;
    }
  }

  /** `strip` removes whitespace from the two ends and nothing else. */
  lemma StripRemovesOnlyOuterSpace(s: string)
    ensures exists lead, trail ::
              AllSpace(lead) && AllSpace(trail) && s == lead + Strip(s) + trail
  {
    var i, j := StripBounds(s);
    assert s == s[..i] + s[i..j] + s[j..];
    assert AllSpace(s[..i]) && AllSpace(s[j..]);
  }

  lemma StripNoOuterSpace(s: string)
    requires NoOuterSpace(s)
    ensures Strip(s) == s
  {
  }

  /** Stripping twice is stripping once. */
  lemma StripIdempotent(s: string)
    ensures Strip(Strip(s)) == Strip(s)
  {
    StripNoOuterSpace(Strip(s));
  }

  /** Python's `needle in hay` on strings. */
  predicate Contains(hay: string, needle: string) {
    exists i | 0 <= i <= |hay| - |needle| :: needle <= hay[i..]
  }

  /** A string that starts the second piece is found in the whole. */
  lemma ContainsAfter(a: string, b: string, needle: string)
    requires needle <= b
    ensures Contains(a + b, needle)
  {
    assert (a + b)[|a|..] == b;
  }

  /** A string found in a prefix is found in the whole. */
  lemma ContainsExtend(a: string, b: string, needle: string)
    requires Contains(a, needle)
    ensures Contains(a + b, needle)
  {
    var i :| 0 <= i <= |a| - |needle| && needle <= a[i..];
    assert (a + b)[i..] == a[i..] + b;
  }

  /** `s.startswith(p)`. */
  predicate StartsWith(s: string, p: string) { p <= s }

  /** `s.split(c)[0]`: the part of `s` before the first `c`, or all of `s`. */
  function BeforeFirst(s: string, c: char): (r: string)
    ensures r <= s
    ensures c !in r
    ensures |r| < |s| ==> s[|r|] == c
  {
    if s == [] || s[0] == c then [] else [s[0]] + BeforeFirst(s[1..], c)
  }

  /** A word as `str.split()` yields it: non-empty, no whitespace. */
  predicate IsWord(w: string) {
    w != [] && forall k | 0 <= k < |w| :: !IsSpace(w[k])
  }

  /** The longest prefix of `s` without whitespace. */
  function TakeWord(s: string): (w: string)
    ensures |w| <= |s|
  {
    if s == [] || IsSpace(s[0]) then [] else [s[0]] + TakeWord(s[1..])
  }

  /** `TakeWord` stops at the first whitespace. */
  lemma {:induction false} TakeWordShape(s: string)
    ensures TakeWord(s) == s[..|TakeWord(s)|]
    ensures forall k | 0 <= k < |TakeWord(s)| :: !IsSpace(s[k])
    ensures |TakeWord(s)| < |s| ==> IsSpace(s[|TakeWord(s)|])
  {
    if s != [] && !IsSpace(s[0]) {
      TakeWordShape(s[1..]);
      assert forall k | 1 <= k < |TakeWord(s)| :: s[k] == s[1..][k - 1];
    }
  }

  /** `s.split()` with no separator: the maximal runs of non-whitespace, in order. */
  function Words(s: string): seq<string>
    decreases |s|
  {
    if s == [] then []
    else if IsSpace(s[0]) then Words(s[1..])
    else
      var w := TakeWord(s);
      [w] + Words(s[|w|..])
  }

  /** Every piece `split` yields is a word. */
  lemma {:induction false} WordsAreWords(s: string)
    ensures forall k | 0 <= k < |Words(s)| :: IsWord(Words(s)[k])
    decreases |s|
  {
    if s == [] {
    } else if IsSpace(s[0]) {
      WordsAreWords(s[1..]);
    } else {
      var w := TakeWord(s);
      TakeWordShape(s);
      assert IsWord(w) by {
        assert forall k | 0 <= k < |w| :: w[k] == s[k];
      }
      WordsAreWords(s[|w|..]);
      assert Words(s) == [w] + Words(s[|w|..]);
    }
  }

  /** `' '.join(ws)`. */
  function JoinWords(ws: seq<string>): string {
    if ws == [] then ""
    else if |ws| == 1 then ws[0]
    else ws[0] + " " + JoinWords(ws[1..])
  }

  /** Every whitespace character of `s` is a single space with a non-space on
      each side: no leading or trailing whitespace, no runs, no tabs or
      newlines. */
  predicate SingleSpaced(s: string) {
    forall k | 0 <= k < |s| && IsSpace(s[k]) ::
      s[k] == ' ' && 0 < k < |s| - 1 && !IsSpace(s[k - 1]) && !IsSpace(s[k + 1])
  }

  lemma {:induction false} TakeWordOfJoin(w: string, rest: string)
    requires IsWord(w)
    requires rest == [] || IsSpace(rest[0])
    ensures TakeWord(w + rest) == w
    decreases |w|
  {
    if |w| > 1 {
      assert (w + rest)[1..] == w[1..] + rest;
      TakeWordOfJoin(w[1..], rest);
    } else {
      assert (w + rest)[1..] == rest;
    }
  }

  lemma {:induction false} JoinWordsShape(ws: seq<string>)
    requires ws != []
    requires forall k | 0 <= k < |ws| :: IsWord(ws[k])
    ensures JoinWords(ws) != [] && !IsSpace(JoinWords(ws)[0])
    ensures !IsSpace(JoinWords(ws)[|JoinWords(ws)| - 1])
    ensures ws[0] <= JoinWords(ws)
    decreases |ws|
  {
    if |ws| > 1 {
      JoinWordsShape(ws[1..]);
    }
  }

  /** A word followed by whitespace (or nothing) splits off as the first word. */
  lemma WordsCons(w: string, rest: string)
    requires IsWord(w)
    requires rest == [] || IsSpace(rest[0])
    ensures Words(w + rest) == [w] + Words(rest)
  {
    var s := w + rest;
    assert s[0] == w[0];
    TakeWordOfJoin(w, rest);
    assert s[|w|..] == rest;
  }

  lemma WordsSkipSpace(r: string)
    ensures Words(" " + r) == Words(r)
  {
    assert (" " + r)[1..] == r;
  }

  /** A word, a space and the rest split into the word and the rest's words. */
  lemma WordsOfJoinStep(w: string, rest: string)
    requires IsWord(w)
    ensures Words(w + " " + rest) == [w] + Words(rest)
  {
    WordsCons(w, " " + rest);
    assert w + " " + rest == w + (" " + rest);
    WordsSkipSpace(rest);
  }

  /** `split` undoes `' '.join` on a list of words. */
  lemma {:induction false} WordsOfJoin(ws: seq<string>)
    requires forall k | 0 <= k < |ws| :: IsWord(ws[k])
    ensures Words(JoinWords(ws)) == ws
    decreases |ws|
  {
    if ws == [] {
      assert Words("") == [];
    } else if |ws| == 1 {
      WordsCons(ws[0], "");
      assert ws[0] + "" == ws[0];
      assert [ws[0]] == ws;
    } else {
      assert JoinWords(ws) == ws[0] + " " + JoinWords(ws[1..]);
      WordsOfJoinStep(ws[0], JoinWords(ws[1..]));
      WordsOfJoin(ws[1..]);
      assert [ws[0]] + ws[1..] == ws;
    }
  }

  /** Joining words with single spaces gives a single-spaced string. */
  lemma {:induction false} JoinWordsSingleSpaced(ws: seq<string>)
    requires forall k | 0 <= k < |ws| :: IsWord(ws[k])
    ensures SingleSpaced(JoinWords(ws))
    decreases |ws|
  {
    if |ws| > 1 {
      var w, rest := ws[0], JoinWords(ws[1..]);
      JoinWordsSingleSpaced(ws[1..]);
      JoinWordsShape(ws[1..]);
      var s := w + " " + rest;
      forall k | 0 <= k < |s|
        ensures IsSpace(s[k]) ==> s[k] == ' ' && 0 < k < |s| - 1 && !IsSpace(s[k - 1]) && !IsSpace(s[k + 1])
      {
        if k < |w| {
          assert s[k] == w[k];
        } else if k == |w| {
          assert s[k + 1] == rest[0];
          assert s[k - 1] == w[|w| - 1];
        } else {
          var j := k - |w| - 1;
          assert s[k] == rest[j];
          if IsSpace(rest[j]) {
            assert 0 < j < |rest| - 1;
            assert s[k - 1] == rest[j - 1] && s[k + 1] == rest[j + 1];
          }
        }
      }
    }
  }

  /** `' '.join(s.split())`. */
  function CollapseSpaces(s: string): (r: string)
    ensures SingleSpaced(r)
  {
    WordsAreWords(s);
    JoinWordsSingleSpaced(Words(s));
    JoinWords(Words(s))
  }

  lemma SingleSpacedNoOuterSpace(s: string)
    requires SingleSpaced(s)
    ensures NoOuterSpace(s)
  {
  }

  /** Collapsing whitespace twice is collapsing it once. */
  lemma CollapseSpacesIdempotent(s: string)
    ensures CollapseSpaces(CollapseSpaces(s)) == CollapseSpaces(s)
  {
    WordsAreWords(s);
    WordsOfJoin(Words(s));
  }

  /** Collapsing keeps the words. */
  lemma WordsOfCollapse(s: string)
    ensures Words(CollapseSpaces(s)) == Words(s)
  {
    WordsAreWords(s);
    WordsOfJoin(Words(s));
  }

  function DigitChar(d: nat): (c: char)
    requires d < 10
    ensures IsDigit(c) && c as int - '0' as int == d
  {
    (d + '0' as int) as char
  }

  /** `str(n)` for a natural number. */
  function NatToString(n: nat): (s: string)
    ensures s != [] && forall k | 0 <= k < |s| :: IsDigit(s[k])
    decreases n
  {
    if n < 10 then [DigitChar(n)] else NatToString(n / 10) + [DigitChar(n % 10)]
  }

  /** `str(i)` for an integer. */
  function IntToString(i: int): string {
    if i < 0 then "-" + NatToString(-i) else NatToString(i)
  }

  /** The number a string of decimal digits denotes. */
  function DecimalValue(s: string): nat
    requires forall k | 0 <= k < |s| :: IsDigit(s[k])
  {
    if s == [] then 0 else DecimalValue(s[..|s| - 1]) * 10 + DigitValue(s[|s| - 1])
  }

  function DigitValue(c: char): nat
    requires IsDigit(c)
  {
    c as int - '0' as int
  }

  /** Reading back the decimal digits gives the number: distinct numbers get
      distinct labels. */
  lemma {:induction false} DecimalRoundTrip(n: nat)
    ensures DecimalValue(NatToString(n)) == n
    decreases n
  {
    if n >= 10 {
      var s := NatToString(n);
      assert s[..|s| - 1] == NatToString(n / 10);
      DecimalRoundTrip(n / 10);
    }
  }
}
