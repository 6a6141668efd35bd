/** ASCII case mapping and the substring test that the collector's tag
    classification and the notifier's message formatting are built on.
    Python's `str.lower()`/`str.upper()` are modelled on the ASCII letters
    only; every other character is left as it is. */
module Text {

  function LowerChar(c: char): char {
    if 'A' <= c <= 'Z' then (c as int + 32) as char else c
  }

  function UpperChar(c: char): char {
    if 'a' <= c <= 'z' then (c as int - 32) as char else c
  }

  /** `s.lower()` for ASCII text: maps every character independently. */
  function Lower(s: string): string {
    seq(|s|, i requires 0 <= i < |s| => LowerChar(s[i]))
  }

  /** `s.upper()` for ASCII text: maps every character independently. */
  function Upper(s: string): string {
    seq(|s|, i requires 0 <= i < |s| => UpperChar(s[i]))
  }

  /** `pat` occurs in `text` starting at position `i`. */
  predicate OccursAt(text: string, pat: string, i: int) {
    0 <= i && i + |pat| <= |text| && text[i..i + |pat|] == pat
  }

  /** Python's `pat in text`, scanning the start positions from the left. */
  function Contains(text: string, pat: string): bool
    decreases |text|
  {
    if |text| < |pat| then false
    else text[..|pat|] == pat || Contains(text[1..], pat)
  }

  /** The scan finds `pat` exactly when some window of `text` equals `pat`. */
  lemma {:induction false} ContainsIff(text: string, pat: string)
    ensures Contains(text, pat) <==> exists i :: OccursAt(text, pat, i)
    decreases |text|
  {
    if |text| < |pat| {
    } else if text[..|pat|] == pat {
      assert OccursAt(text, pat, 0);
    } else {
      ContainsIff(text[1..], pat);
      forall i | 1 <= i
        ensures OccursAt(text, pat, i) <==> OccursAt(text[1..], pat, i - 1)
      {
        if i + |pat| <= |text| {
          assert text[1..][i - 1..i - 1 + |pat|] == text[i..i + |pat|];
        }
      }
      if Contains(text, pat) {
        var j :| OccursAt(text[1..], pat, j);
        assert OccursAt(text, pat, j + 1);
      }
    }
  }

  /** Lower-casing commutes with taking a slice. */
  lemma LowerSlice(s: string, i: int, j: int)
    requires 0 <= i <= j <= |s|
    ensures Lower(s)[i..j] == Lower(s[i..j])
  {
  }

  /** `pat` occurs in `text` at `i` when letter case is ignored. */
  predicate OccursAtIgnoringCase(text: string, pat: string, i: int) {
    0 <= i && i + |pat| <= |text| && Lower(text[i..i + |pat|]) == Lower(pat)
  }

  /** At one position, an exact match in the lower-cased title is a match of
      a lower-case tag ignoring case, and back. */
  lemma OccursAtLowerIgnoresCase(title: string, tag: string, i: int)
    requires Lower(tag) == tag
    ensures OccursAt(Lower(title), tag, i) <==> OccursAtIgnoringCase(title, tag, i)
  {
    if 0 <= i && i + |tag| <= |title| {
      LowerSlice(title, i, i + |tag|);
    }
  }

  /** The collector's test `tag in title.lower()`, for a lower-case tag, is a
      case-insensitive search for the tag in the title. */
  lemma ContainsLowerIgnoresCase(title: string, tag: string)
    requires Lower(tag) == tag
    ensures Contains(Lower(title), tag) <==> exists i :: OccursAtIgnoringCase(title, tag, i)
  {
    ContainsIff(Lower(title), tag);
    forall i ensures OccursAt(Lower(title), tag, i) <==> OccursAtIgnoringCase(title, tag, i) {
      OccursAtLowerIgnoresCase(title, tag, i);
    }
  }

  /** Text without upper-case ASCII letters is its own lower case. */
  lemma LowerOfLowerCase(s: string)
    requires forall i :: 0 <= i < |s| ==> !('A' <= s[i] <= 'Z')
    ensures Lower(s) == s
  {
  }
}
