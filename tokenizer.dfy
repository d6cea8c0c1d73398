/** What strtok with a one-character delimiter yields: the maximal runs of
    the string that contain no delimiter, left to right. Runs of adjacent
    delimiters separate two tokens and never produce an empty token. The shell
    uses it with '|' (loop.c:161, 171), with ' ' (loop.c:248, 252) and once
    with ' ' to find the first word of a line (loop.c:77). */
module Tokenizer {
  import opened StageRecord

  /** The first index at or after i that does not hold d, or |s|. */
  function SkipDelims(s: string, i: nat, d: char): (k: nat)
    requires i <= |s|
    ensures i <= k <= |s|
    ensures k < |s| ==> s[k] != d
    decreases |s| - i
  {
    if i == |s| || s[i] != d then i else SkipDelims(s, i + 1, d)
  }

  /** The first index at or after i that holds d, or |s|. */
  function FindDelim(s: string, i: nat, d: char): (k: nat)
    requires i <= |s|
    ensures i <= k <= |s|
    ensures k < |s| ==> s[k] == d
    decreases |s| - i
  {
    if i == |s| || s[i] == d then i else FindDelim(s, i + 1, d)
  }

  /** SkipDelims passes over delimiters only. */
  lemma {:induction false} SkipDelimsRun(s: string, i: nat, d: char)
    requires i <= |s|
    ensures forall j :: i <= j < SkipDelims(s, i, d) ==> s[j] == d
    decreases |s| - i
  {
    if i < |s| && s[i] == d {
      SkipDelimsRun(s, i + 1, d);
    }
  }

  /** FindDelim passes over non-delimiters only. */
  lemma {:induction false} FindDelimRun(s: string, i: nat, d: char)
    requires i <= |s|
    ensures forall j :: i <= j < FindDelim(s, i, d) ==> s[j] != d
    decreases |s| - i
  {
    if i < |s| && s[i] != d {
      FindDelimRun(s, i + 1, d);
    }
  }

  /** SkipDelims is the only index with its three properties. */
  lemma SkipDelimsUnique(s: string, i: nat, d: char, k: nat)
    requires i <= k <= |s|
    requires forall j :: i <= j < k ==> s[j] == d
    requires k < |s| ==> s[k] != d
    ensures SkipDelims(s, i, d) == k
    decreases k - i
  {
    if i < k {
      SkipDelimsUnique(s, i + 1, d, k);
    }
  }

  /** FindDelim is the only index with its three properties. */
  lemma FindDelimUnique(s: string, i: nat, d: char, k: nat)
    requires i <= k <= |s|
    requires forall j :: i <= j < k ==> s[j] != d
    requires k < |s| ==> s[k] == d
    ensures FindDelim(s, i, d) == k
    decreases k - i
  {
    if i < k {
      FindDelimUnique(s, i + 1, d, k);
    }
  }

  /** The tokens strtok returns when it resumes at position i of s, in
      order. */
  function TokensFrom(s: string, i: nat, d: char): (ts: seq<string>)
    requires i <= |s|
    decreases |s| - i
  {
    var k := SkipDelims(s, i, d);
    if k == |s| then []
    else
      var e := FindDelim(s, k, d);
      [s[k..e]] + TokensFrom(s, e, d)
  }

  /** The tokens strtok returns for s, in order. */
  function Tokens(s: string, d: char): (ts: seq<string>)
  {
    TokensFrom(s, 0, d)
  }

  /** Delimiters from i up to a, then the token up to b. */
  lemma TokenAt(s: string, d: char, i: nat, a: nat, b: nat)
    requires i <= a < b <= |s|
    requires forall j :: i <= j < a ==> s[j] == d
    requires forall j :: a <= j < b ==> s[j] != d
    requires b < |s| ==> s[b] == d
    ensures TokensFrom(s, i, d) == [s[a..b]] + TokensFrom(s, b, d)
  {
    SkipDelimsUnique(s, i, d, a);
    FindDelimUnique(s, a, d, b);
  }

  /** Nothing but delimiters from i on. */
  lemma NoTokenFrom(s: string, d: char, i: nat)
    requires i <= |s|
    requires forall j :: i <= j < |s| ==> s[j] == d
    ensures TokensFrom(s, i, d) == []
  {
    SkipDelimsUnique(s, i, d, |s|);
  }

  /** Delimiters between i and j are skipped. */
  lemma SkipRun(s: string, d: char, i: nat, j: nat)
    requires i <= j <= |s|
    requires forall m :: i <= m < j ==> s[m] == d
    ensures TokensFrom(s, i, d) == TokensFrom(s, j, d)
  {
    SkipDelimsRun(s, j, d);
    SkipDelimsUnique(s, i, d, SkipDelims(s, j, d));
  }

  /** Skipping delimiters in s or in p + s finds the same place. */
  lemma SkipShift(p: string, s: string, d: char, i: nat)
    requires i <= |s|
    ensures SkipDelims(p + s, |p| + i, d) == |p| + SkipDelims(s, i, d)
  {
    var t := p + s;
    var k := SkipDelims(s, i, d);
    SkipDelimsRun(s, i, d);
    forall j | |p| + i <= j < |p| + k ensures t[j] == d {
      assert t[j] == s[j - |p|];
    }
    if k < |s| {
      assert t[|p| + k] == s[k];
    }
    SkipDelimsUnique(t, |p| + i, d, |p| + k);
  }

  /** Looking for the next delimiter in s or in p + s finds the same place. */
  lemma FindShift(p: string, s: string, d: char, i: nat)
    requires i <= |s|
    ensures FindDelim(p + s, |p| + i, d) == |p| + FindDelim(s, i, d)
  {
    var t := p + s;
    var k := FindDelim(s, i, d);
    FindDelimRun(s, i, d);
    forall j | |p| + i <= j < |p| + k ensures t[j] != d {
      assert t[j] == s[j - |p|];
    }
    if k < |s| {
      assert t[|p| + k] == s[k];
    }
    FindDelimUnique(t, |p| + i, d, |p| + k);
  }

  /** A slice of s is the same slice of p + s, moved by |p|. */
  lemma SliceShift(p: string, s: string, k: nat, e: nat)
    requires k <= e <= |s|
    ensures (p + s)[|p| + k..|p| + e] == s[k..e]
  {
    var t := p + s;
    forall m | 0 <= m < e - k ensures t[|p| + k..|p| + e][m] == s[k..e][m] {
      assert t[|p| + k + m] == s[k + m];
    }
  }

  /** One unfolding of TokensFrom, at the token that starts at k. */
  lemma TokensStep(s: string, d: char, i: nat, k: nat, e: nat)
    requires i <= |s|
    requires k == SkipDelims(s, i, d) < |s| && e == FindDelim(s, k, d)
    ensures TokensFrom(s, i, d) == [s[k..e]] + TokensFrom(s, e, d)
  {
  }

  /** What comes before position |p| does not matter. */
  lemma {:induction false} TokensShift(p: string, s: string, d: char, i: nat)
    requires i <= |s|
    ensures TokensFrom(p + s, |p| + i, d) == TokensFrom(s, i, d)
    decreases |s| - i
  {
    var t := p + s;
    var k := SkipDelims(s, i, d);
    SkipShift(p, s, d, i);
    if k < |s| {
      var e := FindDelim(s, k, d);
      FindShift(p, s, d, k);
      SliceShift(p, s, k, e);
      TokensShift(p, s, d, e);
      TokensStep(t, d, |p| + i, |p| + k, |p| + e);
      TokensStep(s, d, i, k, e);
    }
  }

  /** strtok never returns an empty token or one holding the delimiter, and
      finds none exactly when only delimiters are left. */
  lemma {:induction false} TokensShape(s: string, d: char, i: nat)
    requires i <= |s|
    ensures forall k :: 0 <= k < |TokensFrom(s, i, d)| ==>
      |TokensFrom(s, i, d)[k]| > 0 && d !in TokensFrom(s, i, d)[k]
    ensures TokensFrom(s, i, d) == [] <==> forall j :: i <= j < |s| ==> s[j] == d
    decreases |s| - i
  {
    var k := SkipDelims(s, i, d);
    SkipDelimsRun(s, i, d);
    if k < |s| {
      var e := FindDelim(s, k, d);
      FindDelimRun(s, k, d);
      TokensShape(s, d, e);
      assert d !in s[k..e];
    }
  }

  /** Inside a, the string a + d + b reads like a, and a ends where the
      delimiter stands. */
  lemma PrefixScan(a: string, b: string, d: char, i: nat)
    requires i <= |a|
    ensures SkipDelims(a, i, d) < |a| ==> SkipDelims(a + [d] + b, i, d) == SkipDelims(a, i, d)
    ensures SkipDelims(a, i, d) < |a| ==>
      FindDelim(a + [d] + b, SkipDelims(a, i, d), d) == FindDelim(a, SkipDelims(a, i, d), d)
    ensures SkipDelims(a, i, d) == |a| ==> TokensFrom(a + [d] + b, i, d) == TokensFrom(a + [d] + b, |a| + 1, d)
  {
    var s := a + [d] + b;
    forall j | 0 <= j < |a| ensures s[j] == a[j] {
    }
    assert s[|a|] == d;
    var k := SkipDelims(a, i, d);
    SkipDelimsRun(a, i, d);
    if k < |a| {
      SkipDelimsUnique(s, i, d, k);
      FindDelimRun(a, k, d);
      FindDelimUnique(s, k, d, FindDelim(a, k, d));
    } else {
      SkipRun(s, d, i, |a| + 1);
    }
  }

  /** Splitting at one delimiter splits the token list: from any position i
      inside a, the tokens of a + d + b are those of a followed by those of
      b. */
  lemma {:induction false} TokensSplitFrom(a: string, b: string, d: char, i: nat)
    requires i <= |a|
    ensures TokensFrom(a + [d] + b, i, d) == TokensFrom(a, i, d) + Tokens(b, d)
    decreases |a| - i
  {
    var s := a + [d] + b;
    var k := SkipDelims(a, i, d);
    PrefixScan(a, b, d, i);
    if k == |a| {
      assert s == (a + [d]) + b;
      TokensShift(a + [d], b, d, 0);
    } else {
      var e := FindDelim(a, k, d);
      assert s[k..e] == a[k..e];
      TokensSplitFrom(a, b, d, e);
      TokensStep(a, d, i, k, e);
      TokensStep(s, d, i, k, e);
      assert [a[k..e]] + (TokensFrom(a, e, d) + Tokens(b, d)) == ([a[k..e]] + TokensFrom(a, e, d)) + Tokens(b, d);
    }
  }

  lemma TokensSplit(a: string, b: string, d: char)
    ensures Tokens(a + [d] + b, d) == Tokens(a, d) + Tokens(b, d)
  {
    TokensSplitFrom(a, b, d, 0);
  }

  /** A leading delimiter is skipped. */
  lemma TokensSkip(s: string, d: char)
    requires s != [] && s[0] == d
    ensures Tokens(s, d) == Tokens(s[1..], d)
  {
    SkipRun(s, d, 0, 1);
    assert s == [s[0]] + s[1..];
    TokensShift([s[0]], s[1..], d, 0);
  }

  /** A token followed by a delimiter or by the end of the string. */
  lemma TokensWord(w: string, rest: string, d: char)
    requires |w| > 0 && d !in w
    requires rest == [] || rest[0] == d
    ensures Tokens(w + rest, d) == [w] + Tokens(rest, d)
  {
    var s := w + rest;
    forall j | 0 <= j < |w| ensures s[j] != d {
      assert s[j] == w[j];
    }
    TokenAt(s, d, 0, 0, |w|);
    assert s[0..|w|] == w;
    TokensShift(w, rest, d, 0);
  }

  /** A word alone is its only token. */
  lemma TokensOfWord(w: string, d: char)
    requires |w| > 0 && d !in w
    ensures Tokens(w, d) == [w]
  {
    TokensWord(w, [], d);
    assert w + [] == w;
  }

  /** From position i on, a string holds at most (|s| - i + 1) / 2 tokens:
      every token but the last is followed by a delimiter. */
  lemma {:induction false} TokenCountBound(s: string, d: char, i: nat)
    requires i <= |s|
    ensures 2 * |TokensFrom(s, i, d)| <= |s| - i + 1
    decreases |s| - i
  {
    var k := SkipDelims(s, i, d);
    if k < |s| {
      var e := FindDelim(s, k, d);
      TokensStep(s, d, i, k, e);
      if e < |s| {
        SkipRun(s, d, e, e + 1);
        TokenCountBound(s, d, e + 1);
      } else {
        NoTokenFrom(s, d, e);
      }
    }
  }

  /** A token is never longer than what is left of the string. */
  lemma {:induction false} TokenLengthBound(s: string, d: char, i: nat)
    requires i <= |s|
    ensures forall k :: 0 <= k < |TokensFrom(s, i, d)| ==> |TokensFrom(s, i, d)[k]| <= |s| - i
    decreases |s| - i
  {
    var k := SkipDelims(s, i, d);
    if k < |s| {
      var e := FindDelim(s, k, d);
      TokenLengthBound(s, d, e);
    }
  }

  /** "a", d, "a", d, ..., "a": n one-letter tokens separated by d. */
  function Alternating(n: nat, d: char): (s: string)
    requires n >= 1
    ensures |s| == 2 * n - 1 && s[0] == 'a' && s[|s| - 1] == 'a'
    ensures forall j :: 0 <= j < |s| ==> s[j] == 'a' || s[j] == d
  {
    if n == 1 then "a" else Alternating(n - 1, d) + [d] + "a"
  }

  lemma {:induction false} TokensOfAlternating(n: nat, d: char)
    requires n >= 1 && d != 'a'
    ensures Tokens(Alternating(n, d), d) == seq(n, _ => "a")
  {
    TokensOfWord("a", d);
    if n > 1 {
      TokensOfAlternating(n - 1, d);
      TokensSplit(Alternating(n - 1, d), "a", d);
      assert seq(n, _ => "a") == seq(n - 1, _ => "a") + ["a"];
    }
  }

  /** The words ws, each followed by one d. */
  function Spaced(ws: seq<string>, d: char): (s: string)
    ensures |s| >= |ws|
  {
    if ws == [] then [] else ws[0] + [d] + Spaced(ws[1..], d)
  }

  /** Splitting Spaced(ws, d) on d gives back ws when no word is empty or
      holds d. */
  lemma {:induction false} TokensOfSpaced(ws: seq<string>, d: char)
    requires forall k :: 0 <= k < |ws| ==> |ws[k]| > 0 && d !in ws[k]
    ensures Tokens(Spaced(ws, d), d) == ws
  {
    if ws == [] {
      NoTokenFrom([], d, 0);
    } else {
      var rest := Spaced(ws[1..], d);
      assert Spaced(ws, d) == ws[0] + ([d] + rest);
      TokensWord(ws[0], [d] + rest, d);
      TokensSkip([d] + rest, d);
      assert ([d] + rest)[1..] == rest;
      TokensOfSpaced(ws[1..], d);
    }
  }

  /** One call of strtok on the string s, resuming at position pos: the next
      token, if any, and the position strtok resumes from next time. */
  method NextToken(s: string, pos: nat, d: char) returns (tok: Option<string>, next: nat)
    requires pos <= |s|
    ensures pos <= next <= |s|
    ensures tok.None? ==> TokensFrom(s, pos, d) == [] && next == |s|
    ensures tok.Some? ==> next > pos && TokensFrom(s, pos, d) == [tok.value] + TokensFrom(s, next, d)
  {
    var i := pos;
    while i < |s| && s[i] == d
      invariant pos <= i <= |s|
      invariant forall j :: pos <= j < i ==> s[j] == d
    {
      i := i + 1;
    }
    if i == |s| {
      NoTokenFrom(s, d, pos);
      return None, |s|;
    }
    var start := i;
    while i < |s| && s[i] != d
      invariant start <= i <= |s|
      invariant forall j :: start <= j < i ==> s[j] != d
    {
      i := i + 1;
    }
    TokenAt(s, d, pos, start, i);
    tok, next := Some(s[start..i]), i;
  }
}
