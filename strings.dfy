/**
 * The parts of Go's `strings` package that the client relies on, for
 * one-character separators and replacements (the only ones it uses):
 * `ContainsAny`, `ReplaceAll`, `Split` and `Join`.
 */
module Strings {

  /** Number of occurrences of `c` in `s`. */
  function Occurrences(s: string, c: char): (n: nat)
    ensures n <= |s|
    ensures n == 0 <==> c !in s
  {
    if s == [] then 0 else (if s[0] == c then 1 else 0) + Occurrences(s[1..], c)
  }

  lemma {:induction false} OccurrencesConcat(a: string, b: string, c: char)
    ensures Occurrences(a + b, c) == Occurrences(a, c) + Occurrences(b, c)
    decreases |a|
  {
    if a != [] {
      assert (a + b)[1..] == a[1..] + b;
      OccurrencesConcat(a[1..], b, c);
    } else {
      assert a + b == b;
    }
  }

  /** Position of the first `c` in `s`. */
  function FirstIndex(s: string, c: char): (i: nat)
    requires c in s
    ensures i < |s| && s[i] == c && c !in s[..i]
  {
    if s[0] == c then 0
    else
      var j := FirstIndex(s[1..], c);
      assert s[..j + 1] == [s[0]] + s[1..][..j];
      1 + j
  }

  /** strings.ContainsAny(s, chars): some character of `s` is one of `chars`. */
  function ContainsAny(s: string, chars: string): (b: bool)
    ensures b <==> exists i :: 0 <= i < |s| && s[i] in chars
  {
    if s == [] then false
    else if s[0] in chars then true
    else
      var rest := ContainsAny(s[1..], chars);
      assert rest <==> exists i :: 1 <= i < |s| && s[i] in chars by {
        if rest {
          var j :| 0 <= j < |s[1..]| && s[1..][j] in chars;
          assert s[j + 1] in chars;
        }
        if exists i :: 1 <= i < |s| && s[i] in chars {
          var i :| 1 <= i < |s| && s[i] in chars;
          assert s[1..][i - 1] in chars;
        }
      }
      rest
  }

  /** strings.ReplaceAll(s, from, to) for one-character `from` and `to`. */
  function ReplaceAll(s: string, from: char, to: char): (r: string)
    ensures |r| == |s|
    ensures forall i :: 0 <= i < |s| ==> r[i] == (if s[i] == from then to else s[i])
  {
    if s == [] then [] else [if s[0] == from then to else s[0]] + ReplaceAll(s[1..], from, to)
  }

  /**
   * strings.Split(s, sep) for a one-character separator: the pieces between
   * the separators, one more piece than there are separators, none of them
   * holding the separator.
   */
  function Split(s: string, sep: char): (parts: seq<string>)
    ensures |parts| == Occurrences(s, sep) + 1
    ensures forall k :: 0 <= k < |parts| ==> sep !in parts[k]
    decreases |s|
  {
    if sep !in s then [s]
    else
      var i := FirstIndex(s, sep);
      assert s == s[..i] + [sep] + s[i + 1..];
      OccurrencesConcat(s[..i] + [sep], s[i + 1..], sep);
      OccurrencesConcat(s[..i], [sep], sep);
      [s[..i]] + Split(s[i + 1..], sep)
  }

  /** strings.Join(xs, sep). */
  function Join(xs: seq<string>, sep: string): string
  {
    if |xs| == 0 then "" else if |xs| == 1 then xs[0] else xs[0] + sep + Join(xs[1..], sep)
  }

  /** Splitting and joining back with the same separator gives the input again. */
  lemma {:induction false} JoinSplit(s: string, sep: char)
    ensures Join(Split(s, sep), [sep]) == s
    decreases |s|
  {
    if sep in s {
      var i := FirstIndex(s, sep);
      var rest := Split(s[i + 1..], sep);
      JoinSplit(s[i + 1..], sep);
      assert Split(s, sep) == [s[..i]] + rest;
      assert ([s[..i]] + rest)[1..] == rest;
      assert s == s[..i] + [sep] + s[i + 1..];
    }
  }

  lemma {:induction false} FirstIndexAfter(a: string, c: char, b: string)
    requires c !in a
    ensures c in a + [c] + b && FirstIndex(a + [c] + b, c) == |a|
  {
    var s := a + [c] + b;
    assert s[|a|] == c;
    assert s[..|a|] == a;
  }

  /**
   * Joining pieces that do not contain the separator and splitting again
   * recovers the pieces (a non-empty list: Go's Split of "" is [""]).
   */
  lemma {:induction false} SplitJoin(xs: seq<string>, sep: char)
    requires |xs| > 0
    requires forall k :: 0 <= k < |xs| ==> sep !in xs[k]
    ensures Split(Join(xs, [sep]), sep) == xs
    decreases |xs|
  {
    if |xs| > 1 {
      var tail := Join(xs[1..], [sep]);
      SplitJoin(xs[1..], sep);
      var s := xs[0] + [sep] + tail;
      assert Join(xs, [sep]) == s;
      FirstIndexAfter(xs[0], sep, tail);
      assert s[..|xs[0]|] == xs[0];
      assert s[|xs[0]| + 1..] == tail;
    }
  }

  /**
   * A string with exactly one separator splits into the text before it and
   * the text after it.
   */
  lemma {:induction false} SplitAtSingleSeparator(s: string, sep: char)
    requires Occurrences(s, sep) == 1
    ensures sep in s
    ensures Split(s, sep) == [s[..FirstIndex(s, sep)], s[FirstIndex(s, sep) + 1..]]
  {
    var i := FirstIndex(s, sep);
    assert s == s[..i] + [sep] + s[i + 1..];
    OccurrencesConcat(s[..i] + [sep], s[i + 1..], sep);
    OccurrencesConcat(s[..i], [sep], sep);
    assert sep !in s[i + 1..];
  }
}
