/**
 * The string primitives the normaliser relies on, as ASCII approximations of
 * Python's `str.strip()`, `str.lower()`, the `in` substring test and slicing.
 */
module Text {

  /** Python's `str.isspace()` restricted to ASCII: TAB..CR, the four
      information separators 0x1C..0x1F, and SPACE. Blanks, tabs and line
      breaks are whitespace; no printable character other than SPACE is. */
  predicate IsSpace(c: char)
    ensures c == ' ' || c == '\t' || c == '\n' || c == '\r' ==> IsSpace(c)
    ensures IsSpace(c) ==> c as int <= 32
  {
    9 <= c as int <= 13 || 28 <= c as int <= 32
  }

  /** Drops leading whitespace. */
  function TrimStart(s: string): (r: string)
    ensures |r| <= |s| && r == s[|s| - |r|..]
    ensures forall k :: 0 <= k < |s| - |r| ==> IsSpace(s[k])
    ensures r == [] || !IsSpace(r[0])
  {
    if s != [] && IsSpace(s[0]) then TrimStart(s[1..]) else s
  }

  /** Drops trailing whitespace. */
  function TrimEnd(s: string): (r: string)
    ensures |r| <= |s| && r == s[..|r|]
    ensures forall k :: |r| <= k < |s| ==> IsSpace(s[k])
    ensures r == [] || !IsSpace(r[|r| - 1])
  {
    if s != [] && IsSpace(s[|s| - 1]) then TrimEnd(s[..|s| - 1]) else s
  }

  /** `r` is `s` with the whitespace `s[..i]` in front and the whitespace
      after `r` removed. */
  ghost predicate TrimmedAt(s: string, r: string, i: nat)
  {
    i + |r| <= |s| && r == s[i..i + |r|]
    && (forall k :: 0 <= k < i ==> IsSpace(s[k]))
    && (forall k :: i + |r| <= k < |s| ==> IsSpace(s[k]))
  }

  /** `s.strip()`: the slice of `s` left after removing whitespace at both
      ends; it neither starts nor ends with whitespace. */
  function Strip(s: string): (r: string)
    ensures exists i :: TrimmedAt(s, r, i)
    ensures r == [] || (!IsSpace(r[0]) && !IsSpace(r[|r| - 1]))
  {
    var t := TrimStart(s);
    var r := TrimEnd(t);
    assert t == s[|s| - |t|..];
    assert r == s[|s| - |t|..|s| - |t| + |r|];
    assert TrimmedAt(s, r, |s| - |t|);
    r
  }

  /** ASCII lower-casing of one character. */
  function LowerChar(c: char): char
  {
    if 'A' <= c <= 'Z' then (c as int + 32) as char else c
  }

  /** `s.lower()`, character by character; it keeps the length. */
  function Lower(s: string): (r: string)
    ensures |r| == |s|
  {
    seq(|s|, k requires 0 <= k < |s| => LowerChar(s[k]))
  }

  /** What lower-casing does to each character: no upper-case ASCII letter
      is left, each one becomes its lower-case partner, and every other
      character is kept. */
  lemma {:induction false} LowerCharacters(s: string)
    ensures forall k :: 0 <= k < |s| ==> !('A' <= Lower(s)[k] <= 'Z')
    ensures forall k :: 0 <= k < |s| && 'A' <= s[k] <= 'Z' ==> Lower(s)[k] as int == s[k] as int + 32
    ensures forall k :: 0 <= k < |s| && !('A' <= s[k] <= 'Z') ==> Lower(s)[k] == s[k]
  {
  }

  /** Lower-casing twice is lower-casing once. */
  lemma {:induction false} LowerIdempotent(s: string)
    ensures Lower(Lower(s)) == Lower(s)
  {
    LowerCharacters(s);
    LowerCharacters(Lower(s));
    assert forall k :: 0 <= k < |s| ==> Lower(Lower(s))[k] == Lower(s)[k];
  }

  /** Lower-casing a concatenation lower-cases each part. */
  lemma {:induction false} LowerAppend(a: string, b: string)
    ensures Lower(a + b) == Lower(a) + Lower(b)
  {
    assert forall k :: 0 <= k < |a + b| ==> Lower(a + b)[k] == (Lower(a) + Lower(b))[k] by {
      forall k | 0 <= k < |a + b|
        ensures Lower(a + b)[k] == (Lower(a) + Lower(b))[k]
      {
        if k < |a| {
          assert (a + b)[k] == a[k];
        } else {
          assert (a + b)[k] == b[k - |a|];
        }
      }
    }
  }

  /** Python's `pat in text` on strings: `pat` occurs at some offset. A
      pattern longer than the text never occurs, and a prefix of the text
      (the empty pattern included) always does. */
  predicate Contains(text: string, pat: string)
    ensures Contains(text, pat) ==> |pat| <= |text|
    ensures pat <= text ==> Contains(text, pat)
  {
    assert pat <= text ==> pat <= text[0..];
    exists i :: 0 <= i <= |text| - |pat| && pat <= text[i..]
  }

  /** Wherever a string occurs, each of its prefixes occurs too. */
  lemma {:induction false} ContainsPrefixOfMatch(text: string, pat: string, p: string)
    requires Contains(text, pat)
    requires p <= pat
    ensures Contains(text, p)
  {
    var i :| 0 <= i <= |text| - |pat| && pat <= text[i..];
    assert p <= text[i..];
  }

  /** `s[:n]`: at most the first `n` characters of `s`. */
  function Take(s: string, n: nat): (r: string)
    ensures |r| == if |s| < n then |s| else n
    ensures r <= s
  {
    if |s| < n then s else s[..n]
  }
}
