/**
 * String operations the agents rely on: ASCII lower-casing, Python's
 * substring test `needle in hay`, single-character replacement, `str.title`,
 * `", ".join` and the decimal rendering of a natural number.
 */
module Text {

  function LowerChar(c: char): char
  {
    if 'A' <= c <= 'Z' then (c as int + 32) as char else c
  }

  function UpperChar(c: char): char
  {
    if 'a' <= c <= 'z' then (c as int - 32) as char else c
  }

  predicate IsLetter(c: char)
  {
    'a' <= c <= 'z' || 'A' <= c <= 'Z'
  }

  /** `s.lower()`, restricted to ASCII letters. */
  function Lower(s: string): (r: string)
    ensures |r| == |s|
    ensures forall i :: 0 <= i < |s| ==> r[i] == LowerChar(s[i])
  {
    seq(|s|, i requires 0 <= i < |s| => LowerChar(s[i]))
  }

  predicate StartsWith(s: string, prefix: string)
  {
    |prefix| <= |s| && s[..|prefix|] == prefix
  }

  /** The needle occurs in the haystack starting at index i. */
  predicate OccursAt(hay: string, needle: string, i: nat)
  {
    i <= |hay| && StartsWith(hay[i..], needle)
  }

  /** Python's `needle in hay` on strings (true for the empty needle). */
  predicate Contains(hay: string, needle: string)
  {
    exists i: nat | i <= |hay| :: OccursAt(hay, needle, i)
  }

  /** Python's `any(term in hay for term in terms)`. */
  predicate AnyIn(terms: seq<string>, hay: string)
  {
    exists t | t in terms :: Contains(hay, t)
  }

  /** `s.replace(from, to)` for one-character arguments. */
  function Replace(s: string, from: char, to: char): (r: string)
    ensures |r| == |s|
    ensures forall i :: 0 <= i < |s| ==> r[i] == (if s[i] == from then to else s[i])
  {
    seq(|s|, i requires 0 <= i < |s| => if s[i] == from then to else s[i])
  }

  /** `s.title()` on ASCII text: a letter is upper-cased when it starts a word, lower-cased otherwise. */
  function Title(s: string): (r: string)
    ensures |r| == |s|
  {
    seq(|s|, i requires 0 <= i < |s| =>
      if i == 0 || !IsLetter(s[i - 1]) then UpperChar(s[i]) else LowerChar(s[i]))
  }

  /** `sep.join(items)`. */
  function Join(sep: string, items: seq<string>): string
  {
    if |items| == 0 then ""
    else if |items| == 1 then items[0]
    else items[0] + sep + Join(sep, items[1..])
  }

  function DigitChar(d: nat): char
    requires d < 10
  {
    ('0' as int + d) as char
  }

  /** `str(n)` for a natural number. */
  function NatToString(n: nat): (r: string)
    ensures |r| >= 1
    ensures forall i :: 0 <= i < |r| ==> '0' <= r[i] <= '9'
  {
    if n < 10 then [DigitChar(n)] else NatToString(n / 10) + [DigitChar(n % 10)]
  }

  /** `str(n)` for an integer. */
  function IntToString(n: int): string
  {
    if n < 0 then "-" + NatToString(-n) else NatToString(n)
  }

  // Facts used to settle substring questions about concrete strings.

  lemma ContainsWitness(hay: string, needle: string, i: nat)
    requires OccursAt(hay, needle, i)
    ensures Contains(hay, needle)
  {
  }

  /** A needle with a character that the haystack lacks cannot occur in it. */
  lemma {:induction false} MissingCharNotContained(hay: string, needle: string, k: nat)
    requires k < |needle|
    requires needle[k] !in hay
    ensures !Contains(hay, needle)
  {
    forall i: nat | i <= |hay| ensures !OccursAt(hay, needle, i) {
      if i + |needle| <= |hay| {
        assert hay[i..][..|needle|][k] == hay[i + k];
      }
    }
  }

  /** No term occurs when each term has a character (at the given position) that the haystack lacks. */
  lemma NoneContained(hay: string, terms: seq<string>, missing: seq<nat>)
    requires |missing| == |terms|
    requires forall i :: 0 <= i < |terms| ==> missing[i] < |terms[i]| && terms[i][missing[i]] !in hay
    ensures !AnyIn(terms, hay)
  {
    forall i | 0 <= i < |terms| ensures !Contains(hay, terms[i]) {
      MissingCharNotContained(hay, terms[i], missing[i]);
    }
  }

  lemma LongerNotContained(hay: string, needle: string)
    requires |needle| > |hay|
    ensures !Contains(hay, needle)
  {
  }

  /** Lower-casing distributes over concatenation. */
  lemma LowerAppend(a: string, b: string)
    ensures Lower(a + b) == Lower(a) + Lower(b)
  {
  }

  /** Text without upper-case ASCII letters is its own lower-case form. */
  lemma LowerIdentity(s: string)
    requires forall i :: 0 <= i < |s| ==> !('A' <= s[i] <= 'Z')
    ensures Lower(s) == s
  {
  }

  /** A substring of a substring is a substring. */
  lemma {:induction false} ContainsTransitive(hay: string, mid: string, needle: string)
    requires Contains(hay, mid) && Contains(mid, needle)
    ensures Contains(hay, needle)
  {
    var i: nat :| i <= |hay| && OccursAt(hay, mid, i);
    var j: nat :| j <= |mid| && OccursAt(mid, needle, j);
    assert i + j + |needle| <= |hay|;
    forall k | 0 <= k < |needle| ensures hay[i + j..][..|needle|][k] == needle[k] {
      assert needle[k] == mid[j..][..|needle|][k] == mid[j + k];
      assert mid[j + k] == hay[i..][..|mid|][j + k] == hay[i + j + k];
    }
    assert hay[i + j..][..|needle|] == needle;
    assert OccursAt(hay, needle, i + j);
  }
}
