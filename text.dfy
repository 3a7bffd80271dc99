/** Substring search on strings, as Python's `pat in text` does it. */
module Text {

  /** Does `pat` occur in `text` starting at index `i`? */
  ghost predicate OccursAt(text: string, pat: string, i: int)
  {
    0 <= i && i + |pat| <= |text| && text[i..i + |pat|] == pat
  }

  /** The meaning of `pat in text`: some position of `text` starts a copy of `pat`. */
  ghost predicate Occurs(text: string, pat: string)
  {
    exists i :: OccursAt(text, pat, i)
  }

  /** Executable substring test: `pat` is a prefix of `text` or of one of its suffixes. */
  predicate Contains(text: string, pat: string)
    ensures pat <= text ==> Contains(text, pat)
    ensures Contains(text, pat) ==> |pat| <= |text|
    decreases |text|
  {
    if pat <= text then true
    else if |text| == 0 then false
    else Contains(text[1..], pat)
  }

  lemma {:induction false} ContainsImpliesOccurs(text: string, pat: string)
    requires Contains(text, pat)
    ensures Occurs(text, pat)
    decreases |text|
  {
    if pat <= text {
      assert text[0..|pat|] == pat;
      assert OccursAt(text, pat, 0);
    } else {
      ContainsImpliesOccurs(text[1..], pat);
      var j :| OccursAt(text[1..], pat, j);
      assert text[j + 1..j + 1 + |pat|] == text[1..][j..j + |pat|];
      assert OccursAt(text, pat, j + 1);
    }
  }

  lemma {:induction false} OccursAtImpliesContains(text: string, pat: string, i: int)
    requires OccursAt(text, pat, i)
    ensures Contains(text, pat)
    decreases i
  {
    if i == 0 {
      assert text[..|pat|] == pat;
    } else if !(pat <= text) {
      assert text[1..][i - 1..i - 1 + |pat|] == text[i..i + |pat|];
      OccursAtImpliesContains(text[1..], pat, i - 1);
    }
  }

  /** The executable test decides exactly the existential meaning. */
  lemma ContainsIff(text: string, pat: string)
    ensures Contains(text, pat) <==> Occurs(text, pat)
  {
    if Contains(text, pat) {
      ContainsImpliesOccurs(text, pat);
    }
    if Occurs(text, pat) {
      var i :| OccursAt(text, pat, i);
      OccursAtImpliesContains(text, pat, i);
    }
  }
}
