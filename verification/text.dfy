/** The string operations the pages use: `split`, `join`, `includes` and `toLowerCase`. */
module Text {

  /** `s.split(sep)` for a one-character separator: the pieces between separators, empty ones included. */
  function Split(s: string, sep: char): (parts: seq<string>)
    ensures |parts| >= 1
    ensures forall i :: 0 <= i < |parts| ==> sep !in parts[i]
    ensures sep !in s ==> parts == [s]
    ensures sep in s ==> |parts| >= 2
    decreases |s|
  {
    if |s| == 0 then [""]
    else if s[0] == sep then [""] + Split(s[1..], sep)
    else
      var rest := Split(s[1..], sep);
      assert s == [s[0]] + s[1..];
      [[s[0]] + rest[0]] + rest[1..]
  }

  /** `parts.join(sep)` for a one-character separator. */
  function Join(parts: seq<string>, sep: char): string
    decreases |parts|
  {
    if |parts| == 0 then ""
    else if |parts| == 1 then parts[0]
    else parts[0] + [sep] + Join(parts[1..], sep)
  }

  /** Joining the pieces of a split gives the original string back. */
  lemma {:induction false} JoinSplit(s: string, sep: char)
    ensures Join(Split(s, sep), sep) == s
    decreases |s|
  {
    if |s| == 0 {
    } else if s[0] == sep {
      var rest := Split(s[1..], sep);
      JoinSplit(s[1..], sep);
      assert Split(s, sep) == [""] + rest;
      assert ([""] + rest)[1..] == rest;
      assert s == [sep] + s[1..];
    } else {
      var rest := Split(s[1..], sep);
      JoinSplit(s[1..], sep);
      var parts := [[s[0]] + rest[0]] + rest[1..];
      assert Split(s, sep) == parts;
      assert s == [s[0]] + s[1..];
      if |rest| == 1 {
        assert parts == [[s[0]] + rest[0]];
      } else {
        assert parts[1..] == rest[1..];
        assert Join(rest, sep) == rest[0] + [sep] + Join(rest[1..], sep);
      }
    }
  }

  /** Joining all but the last piece and appending the separator and the last piece is joining all. */
  lemma {:induction false} JoinInitLast(parts: seq<string>, sep: char)
    requires |parts| >= 2
    ensures Join(parts[..|parts| - 1], sep) + [sep] + parts[|parts| - 1] == Join(parts, sep)
    decreases |parts|
  {
    if |parts| == 2 {
      assert parts[..1] == [parts[0]];
    } else {
      var tail := parts[1..];
      JoinInitLast(tail, sep);
      assert tail[..|tail| - 1] == parts[1..|parts| - 1];
      assert parts[..|parts| - 1][1..] == tail[..|tail| - 1];
      assert tail[|tail| - 1] == parts[|parts| - 1];
    }
  }

  /** A string that starts with `w`. */
  predicate StartsWith(s: string, w: string) {
    |w| <= |s| && s[..|w|] == w
  }

  /** `s.includes(w)`: `w` occurs somewhere in `s`. */
  predicate Contains(s: string, w: string)
    decreases |s|
  {
    StartsWith(s, w) || (|s| > 0 && Contains(s[1..], w))
  }

  /** A string that has `w` between a prefix and a suffix contains `w`. */
  lemma {:induction false} ContainsInfix(a: string, w: string, b: string)
    ensures Contains(a + w + b, w)
    decreases |a|
  {
    if a == [] {
      assert a + w + b == w + b;
      assert (w + b)[..|w|] == w;
    } else {
      ContainsInfix(a[1..], w, b);
      assert (a + w + b)[1..] == a[1..] + w + b;
    }
  }

  /** `w` occurs in `s` at index `i`. */
  predicate MatchesAt(s: string, w: string, i: nat) {
    i + |w| <= |s| && s[i..i + |w|] == w
  }

  /** A string with an occurrence of `w` at no index does not contain `w`. */
  lemma {:induction false} NotContains(s: string, w: string)
    requires forall i: nat :: !MatchesAt(s, w, i)
    ensures !Contains(s, w)
    decreases |s|
  {
    assert !MatchesAt(s, w, 0);
    if |s| > 0 {
      forall i: nat
        ensures !MatchesAt(s[1..], w, i)
      {
        assert !MatchesAt(s, w, i + 1);
        if i + |w| <= |s[1..]| {
          assert s[1..][i..i + |w|] == s[i + 1..i + 1 + |w|];
        }
      }
      NotContains(s[1..], w);
    }
  }

  /**
   * JavaScript's `length`: the number of UTF-16 code units, where a character above U+FFFF
   * takes a surrogate pair.
   */
  function Utf16Length(s: string): (n: nat)
    ensures |s| <= n <= 2 * |s|
    ensures (forall i :: 0 <= i < |s| ==> s[i] as int <= 0xFFFF) ==> n == |s|
  {
    if s == [] then 0
    else (if s[0] as int > 0xFFFF then 2 else 1) + Utf16Length(s[1..])
  }

  /** ASCII lower-casing of one character, as `toLowerCase` does for A-Z. */
  function LowerChar(c: char): char {
    if 'A' <= c <= 'Z' then (c as int + 32) as char else c
  }

  /** `s.toLowerCase()` restricted to ASCII letters. */
  function ToLower(s: string): (r: string)
    ensures |r| == |s|
    ensures forall i :: 0 <= i < |s| ==> r[i] == LowerChar(s[i])
  {
    seq(|s|, i requires 0 <= i < |s| => LowerChar(s[i]))
  }
}
