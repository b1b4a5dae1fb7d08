/**
 * The string operations the scheduler relies on: `toLowerCase`, `includes`,
 * capitalising the first letter, and the 150-character preview of a reminder.
 * Letters are folded only in the ASCII range.
 */
module Text {

  function LowerChar(c: char): char {
    if 'A' <= c <= 'Z' then (c as int + 32) as char else c
  }

  function UpperChar(c: char): char {
    if 'a' <= c <= 'z' then (c as int - 32) as char else c
  }

  predicate IsUpper(c: char) {
    'A' <= c <= 'Z'
  }

  /** `s.toLowerCase()` */
  function ToLower(s: string): (r: string)
    ensures |r| == |s|
    ensures forall i :: 0 <= i < |s| ==> !IsUpper(r[i])
    ensures forall i :: 0 <= i < |s| && !IsUpper(s[i]) ==> r[i] == s[i]
    ensures forall i :: 0 <= i < |s| && IsUpper(s[i]) ==> r[i] as int == s[i] as int + 32
  {
    seq(|s|, i requires 0 <= i < |s| => LowerChar(s[i]))
  }

  predicate StartsWith(s: string, prefix: string) {
    |prefix| <= |s| && s[..|prefix|] == prefix
  }

  /** `s.includes(k)`: `k` occurs in `s` starting at some position. */
  predicate Contains(s: string, k: string)
    decreases |s|
  {
    StartsWith(s, k) || (|s| > 0 && Contains(s[1..], k))
  }

  ghost predicate OccursAt(s: string, k: string, i: int) {
    0 <= i && i + |k| <= |s| && s[i..i + |k|] == k
  }

  /** Contains agrees with the positional definition of an occurrence. */
  lemma ContainsIffOccurs(s: string, k: string)
    ensures Contains(s, k) <==> exists i :: OccursAt(s, k, i)
  {
    if Contains(s, k) {
      var i := ContainsGivesOccurrence(s, k);
    }
    if exists i :: OccursAt(s, k, i) {
      var i :| OccursAt(s, k, i);
      OccurrenceGivesContains(s, k, i);
    }
  }

  /** A match found by Contains is an occurrence at some position. */
  lemma {:induction false} ContainsGivesOccurrence(s: string, k: string) returns (i: nat)
    requires Contains(s, k)
    ensures OccursAt(s, k, i)
    decreases |s|
  {
    if StartsWith(s, k) {
      i := 0;
    } else {
      var j := ContainsGivesOccurrence(s[1..], k);
      assert s[1..][j..j + |k|] == s[j + 1..j + 1 + |k|];
      i := j + 1;
    }
  }

  /** An occurrence at any position is found by Contains. */
  lemma {:induction false} OccurrenceGivesContains(s: string, k: string, i: int)
    requires OccursAt(s, k, i)
    ensures Contains(s, k)
    decreases i
  {
    if i > 0 {
      assert s[1..][i - 1..i - 1 + |k|] == s[i..i + |k|];
      OccurrenceGivesContains(s[1..], k, i - 1);
    } else {
      assert StartsWith(s, k);
    }
  }

  /** `s.charAt(0).toUpperCase() + s.slice(1)` */
  function CapitalizeFirst(s: string): (r: string)
    ensures |r| == |s|
    ensures |s| > 0 ==> r[1..] == s[1..] && r[0] == UpperChar(s[0])
  {
    if |s| == 0 then "" else [UpperChar(s[0])] + s[1..]
  }

  const PreviewLength: nat := 150

  /** `text.substring(0, 150) + (text.length > 150 ? '...' : '')` */
  function Preview(text: string): (r: string)
    ensures |text| <= PreviewLength ==> r == text
    ensures |text| > PreviewLength ==> |r| == PreviewLength + 3 && r == text[..PreviewLength] + "..."
    ensures |r| <= PreviewLength + 3
    ensures StartsWith(r, text[..if |text| < PreviewLength then |text| else PreviewLength])
  {
    if |text| <= PreviewLength then text else text[..PreviewLength] + "..."
  }
}
