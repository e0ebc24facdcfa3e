/** Python's `str.replace(old, new)`. */
module PyStr {

  /** `s.replace(pat, rep)`: scanning left to right, each occurrence of `pat`
      that does not overlap an earlier replaced one becomes `rep`. An empty
      `pat` matches before every character and at the end. */
  function Replace(s: string, pat: string, rep: string): (r: string)
    ensures pat != [] && |rep| == |pat| ==> |r| == |s|
    ensures pat != [] && |rep| <= |pat| ==> |r| <= |s|
    decreases |s|
  {
    if pat == [] then InsertAround(s, rep)
    else if |s| < |pat| then s
    else if s[..|pat|] == pat then rep + Replace(s[|pat|..], pat, rep)
    else [s[0]] + Replace(s[1..], pat, rep)
  }

  /** `s.replace('', rep)`: `rep` before each character and once more at the end. */
  function InsertAround(s: string, rep: string): (r: string)
    ensures |r| == |s| + (|s| + 1) * |rep|
  {
    if s == [] then rep else rep + [s[0]] + InsertAround(s[1..], rep)
  }

  predicate OccursAt(s: string, pat: string, i: nat)
  {
    i + |pat| <= |s| && s[i..i + |pat|] == pat
  }

  /** Without an occurrence of a non-empty `pat`, `replace` changes nothing. */
  lemma {:induction false} ReplaceAbsent(s: string, pat: string, rep: string)
    requires pat != []
    requires forall i :: 0 <= i <= |s| ==> !OccursAt(s, pat, i)
    ensures Replace(s, pat, rep) == s
    decreases |s|
  {
    if |s| >= |pat| {
      assert !OccursAt(s, pat, 0);
      assert s[0..|pat|] == s[..|pat|];
      forall i | 0 <= i <= |s[1..]|
        ensures !OccursAt(s[1..], pat, i)
      {
        assert !OccursAt(s, pat, i + 1);
        if i + |pat| <= |s[1..]| {
          assert s[1..][i..i + |pat|] == s[i + 1..i + 1 + |pat|];
        }
      }
      ReplaceAbsent(s[1..], pat, rep);
      assert s == [s[0]] + s[1..];
    }
  }

  /** A text that does not contain the first character of `pat` passes
      through `replace` unchanged, and the scan resumes right after it. */
  lemma {:induction false} ReplaceSkipsText(a: string, b: string, pat: string, rep: string)
    requires pat != [] && pat[0] !in a
    ensures Replace(a + b, pat, rep) == a + Replace(b, pat, rep)
    decreases |a|
  {
    if a == [] {
      assert a + b == b;
    } else if |a + b| < |pat| {
      ReplaceShort(a + b, pat, rep);
      ReplaceShort(b, pat, rep);
    } else {
      assert (a + b)[..|pat|] != pat by {
        assert (a + b)[..|pat|][0] == a[0];
      }
      ReplaceStepsOver(a, b, pat, rep);
      ReplaceSkipsText(a[1..], b, pat, rep);
      ConsAppend(a, Replace(b, pat, rep));
    }
  }

  /** A word that does not start an occurrence, and contains the first
      character of `pat` at most at its front, passes through unchanged. */
  lemma ReplaceSkipsWord(w: string, b: string, pat: string, rep: string)
    requires pat != [] && w != [] && pat[0] !in w[1..]
    requires |w + b| >= |pat| ==> (w + b)[..|pat|] != pat
    ensures Replace(w + b, pat, rep) == w + Replace(b, pat, rep)
  {
    if |w + b| < |pat| {
      ReplaceShort(w + b, pat, rep);
      ReplaceShort(b, pat, rep);
    } else {
      ReplaceSkipsLongWord(w, b, pat, rep);
    }
  }

  /** A text shorter than `pat` holds no occurrence. */
  lemma ReplaceShort(s: string, pat: string, rep: string)
    requires pat != [] && |s| < |pat|
    ensures Replace(s, pat, rep) == s
  {
  }

  lemma ReplaceSkipsLongWord(w: string, b: string, pat: string, rep: string)
    requires pat != [] && w != [] && pat[0] !in w[1..]
    requires |w + b| >= |pat| && (w + b)[..|pat|] != pat
    ensures Replace(w + b, pat, rep) == w + Replace(b, pat, rep)
  {
    ReplaceStepsOver(w, b, pat, rep);
    ReplaceSkipsText(w[1..], b, pat, rep);
    ConsAppend(w, Replace(b, pat, rep));
  }

  lemma ReplaceStepsOver(w: string, b: string, pat: string, rep: string)
    requires pat != [] && w != []
    requires |w + b| >= |pat| && (w + b)[..|pat|] != pat
    ensures Replace(w + b, pat, rep) == [w[0]] + Replace(w[1..] + b, pat, rep)
  {
    assert (w + b)[1..] == w[1..] + b;
  }

  lemma ConsAppend(w: string, x: string)
    requires w != []
    ensures [w[0]] + (w[1..] + x) == w + x
  {
    assert [w[0]] + w[1..] == w;
  }

  /** An occurrence at the front is replaced, and the scan resumes after it. */
  lemma ReplaceAtFront(b: string, pat: string, rep: string)
    requires pat != []
    ensures Replace(pat + b, pat, rep) == rep + Replace(b, pat, rep)
  {
    var s := pat + b;
    assert s[..|pat|] == pat;
    assert s[|pat|..] == b;
  }
}
