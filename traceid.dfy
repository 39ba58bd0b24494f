/**
 * `isValidTraceId`: the test of a string against the regular expression
 * `/^[0-9a-f]{32}$/i`, an anchored run of exactly 32 characters of the
 * class [0-9a-f] under case-insensitive matching.
 *
 * The predicate is defined the way a regular-expression engine decides the
 * match (one class atom per character, a counted repetition, both anchors);
 * the lemmas below give its closed form and its properties.
 */
module TraceIds {

  /**
   * Case-insensitive matching compares canonicalised characters; for the
   * non-Unicode flag the canonical form of a character is its upper case.
   * Only ASCII letters are canonicalised here (no other character
   * upper-cases to a hex digit).
   */
  function Canonicalize(c: char): char {
    if 'a' <= c <= 'z' then (c as int - 32) as char else c
  }

  /** The class [0-9a-f] after canonicalisation: [0-9A-F]. */
  predicate InCanonicalClass(c: char) {
    '0' <= c <= '9' || 'A' <= c <= 'F'
  }

  /** The atom `[0-9a-f]` under the `i` flag matches `c`. */
  predicate ClassMatches(c: char) {
    InCanonicalClass(Canonicalize(c))
  }

  /** `s` in its entirety matches `[0-9a-f]{n}` (the anchors `^` and `$` around it). */
  predicate MatchesRepetition(s: string, n: nat)
    decreases n
  {
    if n == 0 then s == []
    else |s| > 0 && ClassMatches(s[0]) && MatchesRepetition(s[1..], n - 1)
  }

  /** `isValidTraceId(traceId)` for a string argument. */
  predicate IsValidTraceId(s: string) {
    MatchesRepetition(s, 32)
  }

  /** A hexadecimal digit in either case. */
  predicate IsHexDigit(c: char) {
    '0' <= c <= '9' || 'a' <= c <= 'f' || 'A' <= c <= 'F'
  }

  lemma ClassMatchesHex(c: char)
    ensures ClassMatches(c) <==> IsHexDigit(c)
  {
  }

  lemma {:induction false} RepetitionClosedForm(s: string, n: nat)
    ensures MatchesRepetition(s, n) <==> |s| == n && forall i :: 0 <= i < |s| ==> IsHexDigit(s[i])
    decreases n
  {
    if n > 0 && |s| > 0 {
      RepetitionClosedForm(s[1..], n - 1);
      ClassMatchesHex(s[0]);
      if |s| == n && (forall i :: 0 <= i < |s| ==> IsHexDigit(s[i])) {
        assert forall i :: 0 <= i < |s[1..]| ==> IsHexDigit(s[1..][i]) by {
          forall i | 0 <= i < |s[1..]| ensures IsHexDigit(s[1..][i]) {
            assert s[1..][i] == s[i + 1];
          }
        }
      }
      if MatchesRepetition(s, n) {
        forall i | 0 <= i < |s| ensures IsHexDigit(s[i]) {
          if i > 0 {
            assert s[i] == s[1..][i - 1];
          }
        }
      }
    }
  }

  /** A trace id is exactly 32 hexadecimal digits, of either case, and nothing else. */
  lemma TraceIdCharacterization(s: string)
    ensures IsValidTraceId(s) <==> |s| == 32 && forall i :: 0 <= i < |s| ==> IsHexDigit(s[i])
  {
    RepetitionClosedForm(s, 32);
  }

  /** Only strings of length exactly 32 are accepted. */
  lemma TraceIdLength(s: string)
    requires |s| != 32
    ensures !IsValidTraceId(s)
  {
    TraceIdCharacterization(s);
  }

  /** A character outside 0-9, a-f and A-F anywhere makes the string invalid. */
  lemma TraceIdRejectsNonHex(s: string, i: nat)
    requires i < |s| && !IsHexDigit(s[i])
    ensures !IsValidTraceId(s)
  {
    TraceIdCharacterization(s);
  }

  /** The empty string is rejected. */
  lemma TraceIdRejectsEmpty()
    ensures !IsValidTraceId("")
  {
    TraceIdLength("");
  }

  /** ASCII upper-casing of any one character does not change the verdict. */
  lemma TraceIdCaseInsensitive(s: string, i: nat)
    requires i < |s|
    ensures IsValidTraceId(s[i := Canonicalize(s[i])]) == IsValidTraceId(s)
  {
    var t := s[i := Canonicalize(s[i])];
    TraceIdCharacterization(s);
    TraceIdCharacterization(t);
    assert IsHexDigit(t[i]) <==> IsHexDigit(s[i]);
    assert forall k :: 0 <= k < |s| && k != i ==> t[k] == s[k];
  }

  /** ASCII upper-casing of the whole string does not change the verdict. */
  lemma TraceIdUpperCase(s: string)
    ensures IsValidTraceId(seq(|s|, k requires 0 <= k < |s| => Canonicalize(s[k]))) == IsValidTraceId(s)
  {
    var t := seq(|s|, k requires 0 <= k < |s| => Canonicalize(s[k]));
    TraceIdCharacterization(s);
    TraceIdCharacterization(t);
    assert forall k :: 0 <= k < |s| ==> (IsHexDigit(t[k]) <==> IsHexDigit(s[k]));
  }

  /** The match is anchored: a valid id with any character before or after it is rejected. */
  lemma TraceIdAnchored(s: string, c: char)
    requires IsValidTraceId(s)
    ensures !IsValidTraceId([c] + s)
    ensures !IsValidTraceId(s + [c])
  {
    TraceIdCharacterization(s);
    TraceIdLength([c] + s);
    TraceIdLength(s + [c]);
  }

  /** A 32-digit lower-case trace id is accepted. */
  lemma TraceIdAcceptsLowerExample()
    ensures IsValidTraceId("4bf92f3577b34da6a3ce929d0e0e4736")
  {
    var s := "4bf92f3577b34da6a3ce929d0e0e4736";
    TraceIdCharacterization(s);
    forall i | 0 <= i < |s| ensures IsHexDigit(s[i]) {
      assert s[i] in "0123456789abcdef";
    }
  }

  /** The same id in upper case is accepted. */
  lemma TraceIdAcceptsUpperExample()
    ensures IsValidTraceId("4BF92F3577B34DA6A3CE929D0E0E4736")
  {
    var a, b, c, d := "4BF92F35", "77B34DA6", "A3CE929D", "0E0E4736";
    HexChunk(a);
    HexChunk(b);
    HexChunk(c);
    HexChunk(d);
    var s := a + b + c + d;
    assert s == "4BF92F3577B34DA6A3CE929D0E0E4736";
    forall i | 0 <= i < |s| ensures IsHexDigit(s[i]) {
      if i < 8 { assert s[i] == a[i]; }
      else if i < 16 { assert s[i] == b[i - 8]; }
      else if i < 24 { assert s[i] == c[i - 16]; }
      else { assert s[i] == d[i - 24]; }
    }
    TraceIdCharacterization(s);
  }

  lemma HexChunk(s: string)
    requires |s| == 8
    requires IsHexDigit(s[0]) && IsHexDigit(s[1]) && IsHexDigit(s[2]) && IsHexDigit(s[3])
    requires IsHexDigit(s[4]) && IsHexDigit(s[5]) && IsHexDigit(s[6]) && IsHexDigit(s[7])
    ensures forall i :: 0 <= i < |s| ==> IsHexDigit(s[i])
  {
  }

  /** A 33-character string and a string holding a non-hex character are rejected. */
  lemma TraceIdRejectsExamples()
    ensures !IsValidTraceId("4bf92f3577b34da6a3ce929d0e0e4736X")
    ensures !IsValidTraceId("4bf92f3577b34da6a3ce929d0e0e473g")
  {
    TraceIdLength("4bf92f3577b34da6a3ce929d0e0e4736X");
    TraceIdRejectsNonHex("4bf92f3577b34da6a3ce929d0e0e473g", 31);
  }
}
