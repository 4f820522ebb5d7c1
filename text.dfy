/**
 * The string operations the moderation code relies on: ordinal `Contains`,
 * `StartsWith` (compared ordinally here; .NET compares it by the current
 * culture), lower-casing, character removal (`Replace(x, "")`), the
 * letters-only filter `[^a-z]` and the removal of `§x` formatting codes.
 */
module Text {

  /** `sub` occurs in `s` starting at index `i`. */
  predicate OccursAt(s: string, sub: string, i: int) {
    0 <= i <= |s| - |sub| && s[i..i + |sub|] == sub
  }

  /** Ordinal `string.Contains`: `sub` occurs somewhere in `s`. */
  predicate Contains(s: string, sub: string) {
    exists i :: 0 <= i <= |s| - |sub| && OccursAt(s, sub, i)
  }

  /** `string.StartsWith`, compared character by character. */
  predicate StartsWith(s: string, prefix: string) {
    |prefix| <= |s| && s[..|prefix|] == prefix
  }

  /** Every character of a pattern that occurs in `s` occurs in `s` itself. */
  lemma ContainsCharOf(s: string, sub: string, k: int)
    requires Contains(s, sub) && 0 <= k < |sub|
    ensures sub[k] in s
  {
    var i :| 0 <= i <= |s| - |sub| && OccursAt(s, sub, i);
    assert s[i..i + |sub|] == sub;
    assert s[i + k] == s[i..i + |sub|][k];
  }

  /**
   * Lower-casing of one character: ASCII A-Z and the basic Cyrillic capitals
   * U+0410..U+042F (the range the filter's Cyrillic entries live in).
   */
  function LowerChar(c: char): char {
    if 'A' <= c <= 'Z' then (c as int + 32) as char
    else if '\U{0410}' <= c <= '\U{042F}' then (c as int + 32) as char
    else c
  }

  /** `ToLower()` on a whole string, character by character. */
  function Lower(s: string): string {
    seq(|s|, i requires 0 <= i < |s| => LowerChar(s[i]))
  }

  /** `s.Replace(c.ToString(), "")`: every occurrence of `c` removed, order kept. */
  function RemoveAll(s: string, c: char): (r: string)
    ensures c !in r
    ensures forall x :: x in r <==> x in s && x != c
    ensures |r| <= |s|
  {
    if s == [] then []
    else (if s[0] == c then [] else [s[0]]) + RemoveAll(s[1..], c)
  }

  /** Removing a character commutes with concatenation. */
  lemma {:induction false} RemoveAllConcat(a: string, b: string, c: char)
    ensures RemoveAll(a + b, c) == RemoveAll(a, c) + RemoveAll(b, c)
  {
    if a != [] {
      assert (a + b)[1..] == a[1..] + b;
      RemoveAllConcat(a[1..], b, c);
    } else {
      assert a + b == b;
    }
  }

  /** Lower-casing commutes with concatenation. */
  lemma LowerConcat(a: string, b: string)
    ensures Lower(a + b) == Lower(a) + Lower(b)
  {
  }

  /** `Regex.Replace(s, "[^a-z]", "")`: only the letters a-z survive, order kept. */
  function LettersOnly(s: string): (r: string)
    ensures forall x :: x in r <==> x in s && 'a' <= x <= 'z'
  {
    if s == [] then []
    else (if 'a' <= s[0] <= 'z' then [s[0]] else []) + LettersOnly(s[1..])
  }

  const SectionSign: char := '\U{00A7}'

  /**
   * `Regex.Replace(s, "§.", "")`: scanning left to right, a `§` is removed together
   * with the character after it. The regex `.` does not match a line feed, so a `§`
   * in front of `\n`, or at the very end, stays.
   */
  function StripFormatting(s: string): (r: string)
    ensures |r| <= |s|
    decreases |s|
  {
    if s == [] then []
    else if s[0] == SectionSign && |s| >= 2 && s[1] != '\n' then StripFormatting(s[2..])
    else [s[0]] + StripFormatting(s[1..])
  }

  /** No `§` that the pattern `§.` could match: each `§` is last or followed by `\n`. */
  predicate NoFormattingCode(s: string) {
    forall i :: 0 <= i < |s| - 1 && s[i] == SectionSign ==> s[i + 1] == '\n'
  }

  /** After stripping, no formatting code is left. */
  lemma {:induction false} StripLeavesNoCode(s: string)
    ensures NoFormattingCode(StripFormatting(s))
    decreases |s|
  {
    if s == [] {
    } else if s[0] == SectionSign && |s| >= 2 && s[1] != '\n' {
      StripLeavesNoCode(s[2..]);
    } else {
      var rest := StripFormatting(s[1..]);
      StripLeavesNoCode(s[1..]);
      assert StripFormatting(s) == [s[0]] + rest;
      if s[0] == SectionSign && |s| >= 2 {
        // s[1] is a line feed, which the stripping of s[1..] keeps in front
        assert s[1..][0] != SectionSign;
        assert rest == [s[1]] + StripFormatting(s[2..]) by {
          assert s[1..][1..] == s[2..];
        }
      }
      forall i | 0 <= i < |[s[0]] + rest| - 1 && ([s[0]] + rest)[i] == SectionSign
        ensures ([s[0]] + rest)[i + 1] == '\n'
      {
        if i > 0 {
          assert ([s[0]] + rest)[i] == rest[i - 1];
        }
      }
    }
  }

  /** Stripping a string that holds no formatting code changes nothing. */
  lemma {:induction false} StripIdentity(s: string)
    requires NoFormattingCode(s)
    ensures StripFormatting(s) == s
    decreases |s|
  {
    if s != [] {
      assert !(s[0] == SectionSign && |s| >= 2 && s[1] != '\n');
      assert NoFormattingCode(s[1..]) by {
        forall i | 0 <= i < |s[1..]| - 1 && s[1..][i] == SectionSign
          ensures s[1..][i + 1] == '\n'
        {
          assert s[i + 1] == SectionSign;
        }
      }
      StripIdentity(s[1..]);
      assert s == [s[0]] + s[1..];
    }
  }

  /** Stripping twice is stripping once. */
  lemma StripIdempotent(s: string)
    ensures StripFormatting(StripFormatting(s)) == StripFormatting(s)
  {
    StripLeavesNoCode(s);
    StripIdentity(StripFormatting(s));
  }
}
