/** The two string primitives every rule of the lead-evaluation engine is
    built from: `String.prototype.toLowerCase` (modelled on ASCII letters)
    and `String.prototype.includes` (contiguous substring search), together
    with `Array.prototype.some` over a list of patterns. */
module Text {

  /** ASCII lower-casing of one character; every other character is kept. */
  function LowerChar(c: char): char {
    if 'A' <= c <= 'Z' then (c as int + 32) as char else c
  }

  /** ASCII upper-casing of one character; every other character is kept. */
  function UpperChar(c: char): char {
    if 'a' <= c <= 'z' then (c as int - 32) as char else c
  }

  /** `s.toLowerCase()` on ASCII letters: the same length, each character
      lower-cased. */
  function ToLower(s: string): string {
    seq(|s|, i requires 0 <= i < |s| => LowerChar(s[i]))
  }

  /** ASCII upper-casing: each letter a-z becomes A-Z, every other
      character is kept. This is `s.toUpperCase()` only on ASCII text;
      JavaScript also maps non-ASCII letters, some of them to ASCII ones
      or to several characters. */
  function ToUpper(s: string): string {
    seq(|s|, i requires 0 <= i < |s| => UpperChar(s[i]))
  }

  /** Two strings that differ at most in the case of their letters. */
  predicate SameIgnoringCase(a: string, b: string) {
    |a| == |b| && forall i :: 0 <= i < |a| ==> LowerChar(a[i]) == LowerChar(b[i])
  }

  /** `pat` occurs in `text` starting at position `i`. */
  predicate OccursAt(text: string, pat: string, i: int) {
    0 <= i && i + |pat| <= |text| && text[i..i + |pat|] == pat
  }

  /** `text.includes(pat)`: scans the start positions of `text` from the
      left. As in JavaScript, the empty pattern is found in every text. */
  function Contains(text: string, pat: string): bool
    decreases |text|
  {
    if |text| < |pat| then false
    else text[..|pat|] == pat || Contains(text[1..], pat)
  }

  /** `pats.some(p => text.includes(p))`. */
  function ContainsAny(text: string, pats: seq<string>): bool
    decreases |pats|
  {
    |pats| > 0 && (Contains(text, pats[0]) || ContainsAny(text, pats[1..]))
  }

  /** The scan finds `pat` exactly when it occurs at some position. */
  lemma {:induction false} ContainsIffOccurs(text: string, pat: string)
    ensures Contains(text, pat) <==> exists i :: OccursAt(text, pat, i)
    decreases |text|
  {
    if |text| < |pat| {
      forall i ensures !OccursAt(text, pat, i) {}
    } else if text[..|pat|] == pat {
      assert OccursAt(text, pat, 0);
    } else {
      var rest := text[1..];
      ContainsIffOccurs(rest, pat);
      forall i | OccursAt(text, pat, i) ensures OccursAt(rest, pat, i - 1) {
        assert i != 0;
        assert rest[i - 1..i - 1 + |pat|] == text[i..i + |pat|];
      }
      forall j | OccursAt(rest, pat, j) ensures OccursAt(text, pat, j + 1) {
        assert text[j + 1..j + 1 + |pat|] == rest[j..j + |pat|];
      }
    }
  }

  /** `some` over the pattern list holds exactly when one of the patterns
      occurs in the text. */
  lemma {:induction false} ContainsAnyIffSome(text: string, pats: seq<string>)
    ensures ContainsAny(text, pats) <==> exists k :: 0 <= k < |pats| && Contains(text, pats[k])
    decreases |pats|
  {
    if |pats| > 0 {
      ContainsAnyIffSome(text, pats[1..]);
      if ContainsAny(text, pats[1..]) {
        var k :| 0 <= k < |pats[1..]| && Contains(text, pats[1..][k]);
        assert Contains(text, pats[k + 1]);
      }
      forall k | 1 <= k < |pats| && Contains(text, pats[k])
        ensures ContainsAny(text, pats[1..])
      {
        assert pats[1..][k - 1] == pats[k];
      }
    }
  }

  /** `some` over a two-element list is the disjunction of two scans. */
  lemma ContainsAnyPair(text: string, a: string, b: string)
    ensures ContainsAny(text, [a, b]) <==> Contains(text, a) || Contains(text, b)
  {
    assert [a, b][1..] == [b];
    assert [b][1..] == [];
    assert !ContainsAny(text, []);
    assert ContainsAny(text, [b]) == Contains(text, b);
  }

  /** Some pattern of `pats` occurs, at some position, in `text`: the
      meaning of `ContainsAny`, stated without the scan. */
  ghost predicate Mentions(text: string, pats: seq<string>) {
    exists k, i :: 0 <= k < |pats| && OccursAt(text, pats[k], i)
  }

  /** The scan over a pattern list agrees with its meaning. */
  lemma ContainsAnyIffMentions(text: string, pats: seq<string>)
    ensures ContainsAny(text, pats) <==> Mentions(text, pats)
  {
    ContainsAnyIffSome(text, pats);
    if ContainsAny(text, pats) {
      var k :| 0 <= k < |pats| && Contains(text, pats[k]);
      ContainsIffOccurs(text, pats[k]);
      var i :| OccursAt(text, pats[k], i);
    }
    if Mentions(text, pats) {
      var k, i :| 0 <= k < |pats| && OccursAt(text, pats[k], i);
      ContainsIffOccurs(text, pats[k]);
      assert Contains(text, pats[k]);
    }
  }

  /** A pattern found in a text is still found after anything is written
      before or after that text. */
  lemma ContainsExtend(a: string, b: string, pat: string)
    requires Contains(a, pat)
    ensures Contains(a + b, pat)
    ensures Contains(b + a, pat)
  {
    ContainsIffOccurs(a, pat);
    var i :| OccursAt(a, pat, i);
    assert (a + b)[i..i + |pat|] == a[i..i + |pat|];
    assert OccursAt(a + b, pat, i);
    assert (b + a)[|b| + i..|b| + i + |pat|] == a[i..i + |pat|];
    assert OccursAt(b + a, pat, |b| + i);
    ContainsIffOccurs(a + b, pat);
    ContainsIffOccurs(b + a, pat);
  }

  /** The same for a list of patterns. */
  lemma ContainsAnyExtend(a: string, b: string, pats: seq<string>)
    requires ContainsAny(a, pats)
    ensures ContainsAny(a + b, pats)
    ensures ContainsAny(b + a, pats)
  {
    ContainsAnyIffSome(a, pats);
    var k :| 0 <= k < |pats| && Contains(a, pats[k]);
    ContainsExtend(a, b, pats[k]);
    ContainsAnyIffSome(a + b, pats);
    ContainsAnyIffSome(b + a, pats);
  }

  /** A pattern holding a character the text lacks is never found. */
  lemma ContainsMissingChar(text: string, pat: string, j: int)
    requires 0 <= j < |pat| && pat[j] !in text
    ensures !Contains(text, pat)
  {
    ContainsIffOccurs(text, pat);
  }

  /** Lower-casing distributes over concatenation. */
  lemma ToLowerConcat(a: string, b: string)
    ensures ToLower(a + b) == ToLower(a) + ToLower(b)
  {
  }

  /** Strings that differ only in letter case lower-case to the same text,
      and an upper-cased string is such a variant of the original. */
  lemma LowerOfCaseVariant(a: string, b: string)
    requires SameIgnoringCase(a, b)
    ensures ToLower(a) == ToLower(b)
  {
  }

  /** Upper-casing changes a string only in letter case. */
  lemma UpperIsCaseVariant(s: string)
    ensures SameIgnoringCase(ToUpper(s), s)
  {
  }
}
