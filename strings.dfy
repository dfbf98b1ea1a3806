/**
 * The few functions of Go's `strings` package the core relies on:
 * `HasPrefix`, `Contains`, `Split` (with a one-character separator) and
 * `Join`, plus the text a writer produces when every line it is given is
 * terminated by a newline.
 */
module Strings {

  /** strings.HasPrefix */
  predicate HasPrefix(s: string, prefix: string) {
    prefix <= s
  }

  /** strings.Contains: `sub` occurs in `s` at some offset (the empty string occurs everywhere). */
  predicate Contains(s: string, sub: string) {
    exists i :: 0 <= i <= |s| && sub <= s[i..]
  }

  /** `line` starts a line of `text` other than its first. */
  predicate ContainsLine(text: string, line: string) {
    Contains(text, "\n" + line)
  }

  lemma ContainsEmpty(s: string)
    ensures Contains(s, "")
  {
    assert "" <= s[0..];
  }

  /** Whatever stands between two strings is contained in their concatenation. */
  lemma ContainsAt(before: string, sub: string, after: string)
    ensures Contains(before + sub + after, sub)
  {
    var s := before + sub + after;
    assert s[|before|..] == sub + after;
  }

  /** Text containing `sub` still contains it once something is put in front. */
  lemma ContainsAfter(before: string, s: string, sub: string)
    requires Contains(s, sub)
    ensures Contains(before + s, sub)
  {
    var i :| 0 <= i <= |s| && sub <= s[i..];
    assert (before + s)[|before| + i..] == s[i..];
  }

  lemma JoinStartsWithFirst(parts: seq<string>, sep: string)
    requires |parts| > 0
    ensures parts[0] <= Join(parts, sep)
  {
  }

  /** Every part after the first follows a separator in the joined text. */
  lemma {:induction false} JoinContainsLine(parts: seq<string>, sep: string, k: nat, line: string)
    requires 1 <= k < |parts| && parts[k] == line
    ensures Contains(Join(parts, sep), sep + line)
  {
    var rest := Join(parts[1..], sep);
    assert Join(parts, sep) == parts[0] + sep + rest;
    if k == 1 {
      JoinStartsWithFirst(parts[1..], sep);
      assert (parts[0] + sep + rest)[|parts[0]|..] == sep + rest;
    } else {
      JoinContainsLine(parts[1..], sep, k - 1, line);
      ContainsAfter(parts[0] + sep, rest, sep + parts[k]);
    }
  }

  /** Position of the first `c` in `s`, or `|s|` when there is none. */
  function IndexOf(s: string, c: char): (i: nat)
    ensures i <= |s|
    ensures forall j :: 0 <= j < i ==> s[j] != c
    ensures i < |s| ==> s[i] == c
  {
    if s == [] then 0
    else if s[0] == c then 0
    else 1 + IndexOf(s[1..], c)
  }

  /** strings.Split(s, string(sep)): the pieces between the separators, always at least one. */
  function Split(s: string, sep: char): (parts: seq<string>)
    ensures |parts| >= 1
    decreases |s|
  {
    var i := IndexOf(s, sep);
    if i == |s| then [s] else [s[..i]] + Split(s[i + 1..], sep)
  }

  /** The decimal digits of `n`, most significant first. */
  function NatText(n: nat): string
    decreases n
  {
    if n < 10 then ["0123456789"[n]] else NatText(n / 10) + ["0123456789"[n % 10]]
  }

  /** An integer as fmt prints it with %d: a minus sign, then the digits. */
  function IntText(n: int): string {
    if n < 0 then "-" + NatText(-n) else NatText(n)
  }

  /** strings.Join(parts, sep) */
  function Join(parts: seq<string>, sep: string): string {
    if |parts| == 0 then ""
    else if |parts| == 1 then parts[0]
    else parts[0] + sep + Join(parts[1..], sep)
  }

  /** The text of `lines`, each followed by `sep` (what a writer holds after one Fprintln per line). */
  function Terminated(lines: seq<string>, sep: char): string {
    if lines == [] then "" else lines[0] + [sep] + Terminated(lines[1..], sep)
  }

  /** Splitting at the first separator of `head + [sep] + tail`, when `head` holds none. */
  lemma SplitAtFirst(head: string, sep: char, tail: string)
    requires sep !in head
    ensures Split(head + [sep] + tail, sep) == [head] + Split(tail, sep)
  {
    var s := head + [sep] + tail;
    var i := IndexOf(s, sep);
    assert s[|head|] == sep;
    assert i == |head|;
    assert s[..i] == head;
    assert s[i + 1..] == tail;
  }

  /** A string without the separator is not split at all. */
  lemma SplitNone(s: string, sep: char)
    requires sep !in s
    ensures Split(s, sep) == [s]
  {
    assert IndexOf(s, sep) == |s|;
  }

  /**
   * Splitting newline-terminated text gives back its lines followed by one
   * empty string: n lines of text split into n + 1 pieces.
   */
  lemma {:induction false} SplitTerminated(lines: seq<string>, sep: char)
    requires forall k :: 0 <= k < |lines| ==> sep !in lines[k]
    ensures Split(Terminated(lines, sep), sep) == lines + [""]
  {
    if lines == [] {
      SplitNone("", sep);
    } else {
      var rest := Terminated(lines[1..], sep);
      assert Terminated(lines, sep) == lines[0] + [sep] + rest;
      SplitAtFirst(lines[0], sep, rest);
      SplitTerminated(lines[1..], sep);
      assert lines + [""] == [lines[0]] + (lines[1..] + [""]);
    }
  }
}
