/** Optional values: JavaScript's `null`/`undefined` against a present value. */
module Wrappers {
  datatype Option<+T> = None | Some(value: T)
}

/** The string operations of the core, as JavaScript defines them. */
module Text {
  import opened Wrappers

  /** `toLowerCase` on one character; only the ASCII letters are mapped. */
  function LowerChar(c: char): char {
    if 'A' <= c <= 'Z' then (c as int + 32) as char else c
  }

  function ToLower(s: string): string {
    seq(|s|, i requires 0 <= i < |s| => LowerChar(s[i]))
  }

  /** The characters matched by the regular-expression class `\s` (and removed by `trim`). */
  predicate IsSpace(c: char) {
    || c == ' ' || c == '\t' || c == '\n' || c == '\r' || c == '\U{B}' || c == '\U{C}'
    || c == '\U{A0}' || c == '\U{1680}' || ('\U{2000}' <= c <= '\U{200A}')
    || c == '\U{2028}' || c == '\U{2029}' || c == '\U{202F}' || c == '\U{205F}'
    || c == '\U{3000}' || c == '\U{FEFF}'
  }

  /** `s.replace(/-/g, '_')` */
  function HyphensToUnderscores(s: string): string {
    seq(|s|, i requires 0 <= i < |s| => if s[i] == '-' then '_' else s[i])
  }

  /** A string without capitals is its own lower case. */
  lemma ToLowerFixed(s: string)
    requires forall i :: 0 <= i < |s| ==> !('A' <= s[i] <= 'Z')
    ensures ToLower(s) == s
  {
  }

  /** A string without hyphens is unchanged by the replacement. */
  lemma NoHyphensFixed(s: string)
    requires '-' !in s
    ensures HyphensToUnderscores(s) == s
  {
  }

  /** The replacement acts on each side of a hyphen separately. */
  lemma HyphenJoined(a: string, b: string)
    requires '-' !in a && '-' !in b
    ensures HyphensToUnderscores(a + "-" + b) == a + "_" + b
  {
    var s := a + "-" + b;
    assert forall i :: 0 <= i < |a| ==> s[i] == a[i];
    assert s[|a|] == '-';
    assert forall i :: |a| < i < |s| ==> s[i] == b[i - |a| - 1];
  }

  /** `s.includes(needle)` */
  predicate Contains(s: string, needle: string)
    decreases |s|
  {
    needle <= s || (|s| > 0 && Contains(s[1..], needle))
  }

  lemma {:induction false} ContainsAt(s: string, needle: string, k: nat)
    requires k + |needle| <= |s| && s[k..k + |needle|] == needle
    ensures Contains(s, needle)
  {
    if k > 0 {
      assert s[1..][k - 1..k - 1 + |needle|] == s[k..k + |needle|];
      ContainsAt(s[1..], needle, k - 1);
    }
  }

  /** `Contains` is exactly "occurs at some position". */
  lemma {:induction false} ContainsWitness(s: string, needle: string) returns (k: nat)
    requires Contains(s, needle)
    ensures k + |needle| <= |s| && s[k..k + |needle|] == needle
    decreases |s|
  {
    if needle <= s {
      k := 0;
    } else {
      var k' := ContainsWitness(s[1..], needle);
      k := k' + 1;
      assert s[k..k + |needle|] == s[1..][k'..k' + |needle|];
    }
  }

  /** A needle holding a character the text lacks never occurs in it. */
  lemma MissingChar(s: string, needle: string, c: char)
    requires c in needle && c !in s
    ensures !Contains(s, needle)
  {
    if Contains(s, needle) {
      var k := ContainsWitness(s, needle);
    }
  }

  /** `s.split(c)[0]`: everything before the first `c`. */
  function BeforeFirst(s: string, c: char): (r: string)
    ensures r <= s && c !in r
    ensures |r| < |s| ==> s[|r|] == c
  {
    if |s| == 0 || s[0] == c then "" else [s[0]] + BeforeFirst(s[1..], c)
  }

  /** The first run of non-space characters of `s`, which must not start with a space. */
  function RunLength(s: string): (n: nat)
    ensures n <= |s|
    ensures forall i :: 0 <= i < n ==> !IsSpace(s[i])
    ensures n < |s| ==> IsSpace(s[n])
  {
    if |s| == 0 || IsSpace(s[0]) then 0 else 1 + RunLength(s[1..])
  }

  /** The maximal runs of non-space characters of `s`, in order: `s.trim().split(/\s+/)` without
      the single empty string that JavaScript yields for a blank `s`. */
  function Words(s: string): (ws: seq<string>)
    ensures forall w :: w in ws ==> IsWord(w)
    decreases |s|
  {
    if |s| == 0 then []
    else if IsSpace(s[0]) then Words(s[1..])
    else
      var n := RunLength(s);
      [s[..n]] + Words(s[n..])
  }

  predicate IsWord(w: string) {
    |w| > 0 && forall i :: 0 <= i < |w| ==> !IsSpace(w[i])
  }

  /** `ws.join(' ')` */
  function JoinSpaces(ws: seq<string>): string {
    if |ws| == 0 then "" else if |ws| == 1 then ws[0] else ws[0] + " " + JoinSpaces(ws[1..])
  }

  lemma WordsSkipsSpaces(s: string, k: nat)
    requires k <= |s| && forall i :: 0 <= i < k ==> IsSpace(s[i])
    ensures Words(s) == Words(s[k..])
    decreases k
  {
    if k > 0 {
      assert s[1..][k - 1..] == s[k..];
      WordsSkipsSpaces(s[1..], k - 1);
    }
  }

  lemma WordsOfWordThen(w: string, rest: string)
    requires IsWord(w)
    requires |rest| == 0 || IsSpace(rest[0])
    ensures Words(w + rest) == [w] + Words(rest)
  {
    var s := w + rest;
    RunLengthOfWord(w, rest);
    assert s[..|w|] == w && s[|w|..] == rest;
  }

  lemma {:induction false} RunLengthOfWord(w: string, rest: string)
    requires IsWord(w)
    requires |rest| == 0 || IsSpace(rest[0])
    ensures RunLength(w + rest) == |w|
    decreases |w|
  {
    if |w| > 1 {
      assert (w + rest)[1..] == w[1..] + rest;
      RunLengthOfWord(w[1..], rest);
    } else {
      assert (w + rest)[1..] == rest;
    }
  }

  /** Joining words with single spaces and splitting again gives the same words back. */
  lemma {:induction false} WordsOfJoin(ws: seq<string>)
    requires forall w :: w in ws ==> IsWord(w)
    ensures Words(JoinSpaces(ws)) == ws
  {
    if |ws| == 1 {
      WordsOfWordThen(ws[0], "");
      assert ws[0] + "" == ws[0];
    } else if |ws| > 1 {
      var tail := JoinSpaces(ws[1..]);
      assert JoinSpaces(ws) == ws[0] + (" " + tail);
      WordsOfWordThen(ws[0], " " + tail);
      WordsSkipsSpaces(" " + tail, 1);
      assert (" " + tail)[1..] == tail;
      WordsOfJoin(ws[1..]);
      assert ws == [ws[0]] + ws[1..];
    }
  }
}
