/**
 * `String.prototype.length`, which counts UTF-16 code units, not characters:
 * a character outside the Basic Multilingual Plane is stored as a surrogate
 * pair and counts twice.
 */
module Utf16 {

  /** The code units of one character in UTF-16. */
  function CodeUnits(c: char): (n: nat)
    ensures 1 <= n <= 2
    ensures n == 2 <==> c >= '\U{10000}'
  {
    if c < '\U{10000}' then 1 else 2
  }

  /** The code units of `s[..end]`. */
  function UnitsBefore(s: string, end: nat): (n: nat)
    requires end <= |s|
    ensures end <= n <= 2 * end
    decreases end
  {
    if end == 0 then 0 else UnitsBefore(s, end - 1) + CodeUnits(s[end - 1])
  }

  /** `s.length`. */
  function Utf16Length(s: string): (n: nat)
    ensures |s| <= n <= 2 * |s|
  {
    UnitsBefore(s, |s|)
  }

  /** A prefix of characters inside the Basic Multilingual Plane has one code
      unit per character. */
  lemma {:induction false} UnitsBeforeBmp(s: string, end: nat)
    requires end <= |s|
    requires forall k :: 0 <= k < end ==> s[k] < '\U{10000}'
    ensures UnitsBefore(s, end) == end
    decreases end
  {
    if end > 0 {
      UnitsBeforeBmp(s, end - 1);
    }
  }

  /** For text inside the Basic Multilingual Plane, `length` is the number of
      characters. */
  lemma BmpLength(s: string)
    requires forall k :: 0 <= k < |s| ==> s[k] < '\U{10000}'
    ensures Utf16Length(s) == |s|
  {
    UnitsBeforeBmp(s, |s|);
  }

  /** Each character outside the Basic Multilingual Plane adds one code unit
      beyond the character count. */
  lemma {:induction false} UnitsBeforeAstral(s: string, end: nat)
    requires end <= |s|
    ensures UnitsBefore(s, end) == end + |set k | 0 <= k < end && s[k] >= '\U{10000}'|
    decreases end
  {
    if end > 0 {
      UnitsBeforeAstral(s, end - 1);
      var before := set k | 0 <= k < end - 1 && s[k] >= '\U{10000}';
      var upto := set k | 0 <= k < end && s[k] >= '\U{10000}';
      if s[end - 1] >= '\U{10000}' {
        assert upto == before + {end - 1};
      } else {
        assert upto == before;
      }
    }
  }

  /** `length` is the number of characters plus one for every character
      outside the Basic Multilingual Plane. */
  lemma LengthCountsSurrogatePairs(s: string)
    ensures Utf16Length(s) == |s| + |set k | 0 <= k < |s| && s[k] >= '\U{10000}'|
  {
    UnitsBeforeAstral(s, |s|);
  }

  /** A single character outside the Basic Multilingual Plane has length 2. */
  lemma AstralLength(c: char)
    requires c >= '\U{10000}'
    ensures Utf16Length([c]) == 2
  {
    assert UnitsBefore([c], 0) == 0;
  }
}
