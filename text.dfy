/** The string operations the routing core relies on: `str.lower()` (ASCII
    letters only), the substring test `needle in hay`, and the number of
    words `len(s.split())` produced by Python's whitespace split. */
module Text {

  predicate IsUpper(c: char) {
    'A' <= c <= 'Z'
  }

  /** Lowercases one character; only the ASCII letters A-Z change. */
  function LowerChar(c: char): (d: char)
    ensures !IsUpper(d)
    ensures IsUpper(c) ==> d as int == c as int + 32
    ensures !IsUpper(c) ==> d == c
  {
    if IsUpper(c) then (c as int + 32) as char else c
  }

  /** `s.lower()`: a character-by-character map that keeps the length, so
      whitespace and every other non-letter survive unchanged. */
  function Lower(s: string): (t: string)
    ensures |t| == |s|
    ensures forall i :: 0 <= i < |s| ==> t[i] == LowerChar(s[i])
  {
    seq(|s|, i requires 0 <= i < |s| => LowerChar(s[i]))
  }

  /** `needle in hay` for strings: `needle` occurs as a contiguous block. */
  predicate Contains(hay: string, needle: string)
    decreases |hay|
  {
    needle <= hay || (|hay| > 0 && Contains(hay[1..], needle))
  }

  /** `any(kw in hay for kw in needles)` */
  predicate ContainsAny(hay: string, needles: seq<string>) {
    exists i :: 0 <= i < |needles| && Contains(hay, needles[i])
  }

  /** The characters for which Python's `str.isspace()` holds, i.e. the
      separators of `str.split()` with no argument. */
  predicate IsSpace(c: char) {
    '\t' <= c <= '\r' || '\U{1c}' <= c <= ' ' || c == '\U{85}' || c == '\U{a0}'
    || c == '\U{1680}' || '\U{2000}' <= c <= '\U{200a}' || c == '\U{2028}' || c == '\U{2029}'
    || c == '\U{202f}' || c == '\U{205f}' || c == '\U{3000}'
  }

  /** Number of maximal runs of non-space characters in `s`, given whether
      the character before `s` was part of a word. */
  function WordsFrom(s: string, inWord: bool): nat
    decreases |s|
  {
    if s == [] then 0
    else if IsSpace(s[0]) then WordsFrom(s[1..], false)
    else (if inWord then 0 else 1) + WordsFrom(s[1..], true)
  }

  /** `len(s.split())` */
  function WordCount(s: string): nat {
    WordsFrom(s, false)
  }

  /** `needle` sits in `hay` at offset `i`. */
  predicate OccursAt(hay: string, needle: string, i: int) {
    0 <= i <= |hay| - |needle| && hay[i..i + |needle|] == needle
  }

  /** The recursive substring test agrees with the offset-based one. */
  lemma {:induction false} ContainsAt(hay: string, needle: string)
    ensures Contains(hay, needle) <==> exists i :: OccursAt(hay, needle, i)
    decreases |hay|
  {
    if |hay| > 0 {
      ContainsAt(hay[1..], needle);
    }
    if Contains(hay, needle) {
      if needle <= hay {
        assert OccursAt(hay, needle, 0);
      } else {
        var i :| OccursAt(hay[1..], needle, i);
        assert OccursAt(hay, needle, i + 1);
      }
    }
    if exists i :: OccursAt(hay, needle, i) {
      var i :| OccursAt(hay, needle, i);
      if i > 0 {
        assert OccursAt(hay[1..], needle, i - 1);
      } else {
        assert hay[..|needle|] == needle;
      }
    }
  }

  /** Every character of a contained needle occurs in the haystack. */
  lemma {:induction false} ContainedCharOccurs(hay: string, needle: string, j: nat)
    requires Contains(hay, needle) && j < |needle|
    ensures needle[j] in hay
    decreases |hay|
  {
    if needle <= hay {
      assert hay[j] == needle[j];
    } else {
      ContainedCharOccurs(hay[1..], needle, j);
      assert needle[j] in hay[1..];
    }
  }

  /** A needle holding an upper-case letter never occurs in lowercased
      text: lowering the haystack alone does not make matching
      case-insensitive. */
  lemma UpperNeedleNeverInLowered(s: string, needle: string)
    requires exists j :: 0 <= j < |needle| && IsUpper(needle[j])
    ensures !Contains(Lower(s), needle)
  {
    if Contains(Lower(s), needle) {
      var j :| 0 <= j < |needle| && IsUpper(needle[j]);
      ContainedCharOccurs(Lower(s), needle, j);
      assert false;
    }
  }

  /** Lowercasing is idempotent, so every casing variant of a text and the
      text itself lower to one string. */
  lemma LowerIdempotent(s: string)
    ensures Lower(Lower(s)) == Lower(s)
  {
  }

  /** `s.split()` is empty exactly when every character of `s` is whitespace. */
  lemma {:induction false} NoWordsIffAllSpace(s: string)
    ensures WordCount(s) == 0 <==> forall i :: 0 <= i < |s| ==> IsSpace(s[i])
    decreases |s|
  {
    if s != [] && IsSpace(s[0]) {
      NoWordsIffAllSpace(s[1..]);
      assert forall i :: 1 <= i < |s| ==> s[1..][i - 1] == s[i];
    }
  }
}
