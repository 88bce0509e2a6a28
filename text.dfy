/**
 * The handful of Python `str` operations the agents use on reply text:
 * `split(sep)`, `strip()`, `lstrip(chars)`, `startswith`, `in`, `lower()`.
 */
module Text {

  /** The characters `str.isspace()` accepts, which `strip()` removes. */
  const Whitespace: set<char> := {
    '\t', '\n', '\U{B}', '\U{C}', '\r', '\U{1C}', '\U{1D}', '\U{1E}', '\U{1F}', ' ',
    '\U{85}', '\U{A0}', '\U{1680}', '\U{2000}', '\U{2001}', '\U{2002}', '\U{2003}',
    '\U{2004}', '\U{2005}', '\U{2006}', '\U{2007}', '\U{2008}', '\U{2009}', '\U{200A}',
    '\U{2028}', '\U{2029}', '\U{202F}', '\U{205F}', '\U{3000}'}

  /** The length of the longest prefix of `s` made of `chars`. */
  function Leading(s: string, chars: set<char>): (n: nat)
    ensures n <= |s|
  {
    if s != [] && s[0] in chars then 1 + Leading(s[1..], chars) else 0
  }

  /** The length of the longest suffix of `s` made of `chars`. */
  function Trailing(s: string, chars: set<char>): (n: nat)
    ensures n <= |s|
  {
    if s != [] && s[|s| - 1] in chars then 1 + Trailing(s[..|s| - 1], chars) else 0
  }

  /** Every character of `s` is one of `chars`. */
  predicate AllIn(s: string, chars: set<char>)
  {
    forall k :: 0 <= k < |s| ==> s[k] in chars
  }

  /** `Leading` measures a prefix of `chars` that cannot be extended. */
  lemma {:induction false} LeadingIsLongest(s: string, chars: set<char>)
    ensures AllIn(s[..Leading(s, chars)], chars)
    ensures Leading(s, chars) == |s| || s[Leading(s, chars)] !in chars
  {
    if s != [] && s[0] in chars {
      LeadingIsLongest(s[1..], chars);
      var n := Leading(s, chars);
      assert forall k :: 1 <= k < n ==> s[..n][k] == s[1..][..n - 1][k - 1];
    }
  }

  /** `Trailing` measures a suffix of `chars` that cannot be extended. */
  lemma {:induction false} TrailingIsLongest(s: string, chars: set<char>)
    ensures AllIn(s[|s| - Trailing(s, chars)..], chars)
    ensures Trailing(s, chars) == |s| || s[|s| - Trailing(s, chars) - 1] !in chars
  {
    if s != [] && s[|s| - 1] in chars {
      var init := s[..|s| - 1];
      TrailingIsLongest(init, chars);
      var n := Trailing(s, chars);
      assert s[|s| - n..] == init[|init| - (n - 1)..] + [s[|s| - 1]];
    }
  }

  /** `s.lstrip(chars)`: drop the longest prefix made of `chars`. */
  function LStrip(s: string, chars: set<char>): (r: string)
    ensures |r| <= |s|
  {
    s[Leading(s, chars)..]
  }

  /** `lstrip` keeps a suffix, removes only characters of `chars`, and stops at the first other one. */
  lemma LStripRemovesLongestPrefix(s: string, chars: set<char>)
    ensures LStrip(s, chars) == s[|s| - |LStrip(s, chars)|..]
    ensures AllIn(s[..|s| - |LStrip(s, chars)|], chars)
    ensures LStrip(s, chars) == [] || LStrip(s, chars)[0] !in chars
  {
    LeadingIsLongest(s, chars);
  }

  /** `s.rstrip(chars)`: drop the longest suffix made of `chars`. */
  function RStrip(s: string, chars: set<char>): (r: string)
    ensures |r| <= |s|
  {
    s[..|s| - Trailing(s, chars)]
  }

  /** `rstrip` keeps a prefix, removes only characters of `chars`, and stops at the last other one. */
  lemma RStripRemovesLongestSuffix(s: string, chars: set<char>)
    ensures RStrip(s, chars) == s[..|RStrip(s, chars)|]
    ensures AllIn(s[|RStrip(s, chars)|..], chars)
    ensures RStrip(s, chars) == [] || RStrip(s, chars)[|RStrip(s, chars)| - 1] !in chars
  {
    TrailingIsLongest(s, chars);
  }

  /** `s.strip()`. */
  function Strip(s: string): (r: string)
  {
    RStrip(LStrip(s, Whitespace), Whitespace)
  }

  /** Neither the first nor the last character is whitespace. */
  predicate Trimmed(s: string)
  {
    s == [] || (s[0] !in Whitespace && s[|s| - 1] !in Whitespace)
  }

  /**
   * `strip()` cuts `s` into whitespace, a middle part and whitespace; the
   * middle part, which it returns, neither starts nor ends with whitespace.
   */
  lemma StripSlice(s: string) returns (i: nat, j: nat)
    ensures i <= j <= |s| && Strip(s) == s[i..j]
    ensures AllIn(s[..i], Whitespace) && AllIn(s[j..], Whitespace)
    ensures Trimmed(Strip(s))
  {
    var l := LStrip(s, Whitespace);
    var r := RStrip(l, Whitespace);
    LStripRemovesLongestPrefix(s, Whitespace);
    RStripRemovesLongestSuffix(l, Whitespace);
    i, j := |s| - |l|, |s| - |l| + |r|;
    assert l == s[i..];
    assert r == l[..|r|];
    assert forall k :: 0 <= k < |s| - j ==> s[j..][k] == l[|r|..][k];
    if r != [] {
      assert r[0] == l[0];
    }
  }

  /** Stripping twice is stripping once. */
  lemma StripIdempotent(s: string)
    ensures Strip(Strip(s)) == Strip(s)
  {
    var i, j := StripSlice(s);
    var t := Strip(s);
    if t != [] {
      assert LStrip(t, Whitespace) == t;
      assert RStrip(t, Whitespace) == t;
    }
  }

  /** `s.startswith(p)`. */
  predicate StartsWith(s: string, p: string)
  {
    |p| <= |s| && s[..|p|] == p
  }

  /** `sub in s`. */
  predicate Contains(s: string, sub: string)
  {
    exists i :: 0 <= i <= |s| && OccursAt(s, sub, i)
  }

  /** `sub` occurs in `s` starting at index `i`. */
  predicate OccursAt(s: string, sub: string, i: nat)
  {
    i + |sub| <= |s| && s[i..i + |sub|] == sub
  }

  /** A text contains whatever was spliced into it. */
  lemma ContainsMiddle(p: string, t: string, q: string)
    ensures Contains(p + t + q, t)
  {
    assert OccursAt(p + t + q, t, |p|);
  }

  /** `c.lower()` for the ASCII letters; every other character is kept. */
  function LowerChar(c: char): (lower: char)
  {
    if 'A' <= c <= 'Z' then (c as int + 32) as char else c
  }

  /**
   * `s.lower()` restricted to ASCII: a search for an all-ASCII lower-case
   * word gives the same answer, because no other character lowers to an
   * ASCII letter that could complete such a word.
   */
  function Lower(s: string): (r: string)
    ensures |r| == |s|
    ensures forall k :: 0 <= k < |s| ==> r[k] == LowerChar(s[k])
  {
    if s == [] then [] else [LowerChar(s[0])] + Lower(s[1..])
  }

  /** `s.split(sep)`: the pieces between separators, always at least one. */
  function Split(s: string, sep: char): (parts: seq<string>)
    ensures |parts| >= 1
    decreases |s|
  {
    if s == [] then [""]
    else
      var rest := Split(s[1..], sep);
      if s[0] == sep then [""] + rest else [[s[0]] + rest[0]] + rest[1..]
  }

  /** `sep.join(parts)`. */
  function Join(parts: seq<string>, sep: char): (s: string)
    requires |parts| >= 1
  {
    if |parts| == 1 then parts[0] else parts[0] + [sep] + Join(parts[1..], sep)
  }

  /** Splitting loses nothing: joining the pieces back gives the text. */
  lemma {:induction false} JoinSplit(s: string, sep: char)
    ensures Join(Split(s, sep), sep) == s
    decreases |s|
  {
    if s != [] {
      var rest := Split(s[1..], sep);
      JoinSplit(s[1..], sep);
      if s[0] == sep {
        assert Split(s, sep)[1..] == rest;
      } else {
        var parts := Split(s, sep);
        if |rest| == 1 {
          assert parts == [[s[0]] + rest[0]];
        } else {
          assert parts[1..] == rest[1..];
          assert Join(rest, sep) == rest[0] + [sep] + Join(rest[1..], sep);
        }
      }
    }
  }

  /** No piece contains the separator. */
  lemma {:induction false} SplitPiecesHaveNoSeparator(s: string, sep: char)
    ensures forall p :: p in Split(s, sep) ==> sep !in p
    decreases |s|
  {
    if s != [] {
      SplitPiecesHaveNoSeparator(s[1..], sep);
      var rest := Split(s[1..], sep);
      if s[0] != sep {
        var parts := Split(s, sep);
        forall p | p in parts ensures sep !in p {
          if p != parts[0] {
            assert p in rest[1..];
            assert p in rest;
          } else {
            assert rest[0] in rest;
          }
        }
      }
    }
  }
}
