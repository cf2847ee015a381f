/** The Python string operations the pipeline relies on, `s.replace(pat, "")`
    and `s.lower()`, over `string` (a `seq<char>`), with `Occurs` (`pat in s`)
    as the predicate their properties are stated with. */
module PyStr {

  /** `pat` occurs in `s` starting at index `i`. */
  predicate OccursAt(s: string, pat: string, i: int)
  {
    0 <= i && i + |pat| <= |s| && s[i..i + |pat|] == pat
  }

  /** `pat in s`, scanning from the left. The empty pattern occurs in every string. */
  predicate Occurs(s: string, pat: string)
    decreases |s|
  {
    |pat| <= |s| && (s[..|pat|] == pat || Occurs(s[1..], pat))
  }

  /** The scanning `Occurs` agrees with the index-based reading of `pat in s`. */
  lemma {:induction false} OccursIffSomeIndex(s: string, pat: string)
    ensures Occurs(s, pat) <==> exists i :: OccursAt(s, pat, i)
    decreases |s|
  {
    if |pat| <= |s| && s[..|pat|] != pat {
      OccursIffSomeIndex(s[1..], pat);
      if Occurs(s, pat) {
        var j :| OccursAt(s[1..], pat, j);
        assert s[j + 1..j + 1 + |pat|] == s[1..][j..j + |pat|];
        assert OccursAt(s, pat, j + 1);
      }
      if exists i :: OccursAt(s, pat, i) {
        var i :| OccursAt(s, pat, i);
        assert i != 0 by { assert s[0..0 + |pat|] == s[..|pat|]; }
        assert s[1..][i - 1..i - 1 + |pat|] == s[i..i + |pat|];
        assert OccursAt(s[1..], pat, i - 1);
      }
    } else if |pat| <= |s| {
      assert s[0..0 + |pat|] == s[..|pat|];
      assert OccursAt(s, pat, 0);
    }
  }

  /** Where `s` and `pat` differ at some position `k`, `pat` does not start `s`:
      it occurs in `s` exactly when it occurs in `s[1..]`. */
  lemma SkipMismatch(s: string, pat: string, k: nat)
    requires k < |pat| && k < |s| && s[k] != pat[k]
    ensures Occurs(s, pat) <==> Occurs(s[1..], pat)
  {
    if |pat| <= |s| {
      assert s[..|pat|][k] != pat[k];
    }
  }

  /** Python's `s.replace(pat, "")`: scanning from the left, every non-overlapping
      occurrence of `pat` is deleted; an empty pattern leaves `s` as it is. */
  function Remove(s: string, pat: string): (r: string)
    ensures |r| <= |s|
    decreases |s|
  {
    if pat == [] || |s| < |pat| then s
    else if s[..|pat|] == pat then Remove(s[|pat|..], pat)
    else [s[0]] + Remove(s[1..], pat)
  }

  /** A string in which `pat` does not occur is returned unchanged. */
  lemma {:induction false} RemoveAbsent(s: string, pat: string)
    requires !Occurs(s, pat)
    ensures Remove(s, pat) == s
    decreases |s|
  {
    if pat != [] && |s| >= |pat| {
      RemoveAbsent(s[1..], pat);
      assert [s[0]] + s[1..] == s;
    }
  }

  /** The first occurrence of `pat` is deleted wherever it stands, and the scan
      goes on after it: nothing in `x` is touched. */
  lemma {:induction false} RemoveFirstOccurrence(x: string, pat: string, y: string)
    requires pat != []
    requires !Occurs(x + pat[..|pat| - 1], pat)
    ensures Remove(x + pat + y, pat) == x + Remove(y, pat)
    decreases |x|
  {
    if x == [] {
      assert x + pat + y == pat + y;
      assert (pat + y)[..|pat|] == pat;
      assert (pat + y)[|pat|..] == y;
    } else {
      var u := x + pat[..|pat| - 1];
      SplitAfterFirst(x, pat, y);
      assert !Occurs(u[1..], pat);
      RemoveFirstOccurrence(x[1..], pat, y);
      RemoveAfterMismatch(x[0], x[1..] + pat + y, pat);
      SplitAfterFirst(x, pat, Remove(y, pat));
    }
  }

  /** Where `pat` does not start `[c] + t`, removal keeps `c` and goes on with `t`. */
  lemma RemoveAfterMismatch(c: char, t: string, pat: string)
    requires pat != [] && |pat| <= |t| + 1 && ([c] + t)[..|pat|] != pat
    ensures Remove([c] + t, pat) == [c] + Remove(t, pat)
  {
    assert ([c] + t)[1..] == t;
  }

  /** How `x + pat + y` splits after its first character, and agrees with
      `x + pat[..|pat| - 1]` on its first `|pat|` characters. */
  lemma SplitAfterFirst(x: string, pat: string, y: string)
    requires x != []
    ensures x + pat + y == [x[0]] + (x[1..] + pat + y)
    ensures x + y == [x[0]] + (x[1..] + y)
    ensures pat != [] ==> (x + pat[..|pat| - 1])[1..] == x[1..] + pat[..|pat| - 1]
    ensures pat != [] ==> |pat| <= |x + pat[..|pat| - 1]|
    ensures pat != [] ==> (x + pat + y)[..|pat|] == (x + pat[..|pat| - 1])[..|pat|]
  {
    assert x == [x[0]] + x[1..];
  }

  /** ASCII case folding: 'A'..'Z' become 'a'..'z', every other character is kept. */
  function LowerChar(c: char): char
  {
    if 'A' <= c <= 'Z' then (c as int + 32) as char else c
  }

  /** The inverse direction, used only to state what "any capitalisation" means. */
  function UpperChar(c: char): char
  {
    if 'a' <= c <= 'z' then (c as int - 32) as char else c
  }

  /** Python's `s.lower()` on ASCII text. */
  function Lower(s: string): string
  {
    seq(|s|, i requires 0 <= i < |s| => LowerChar(s[i]))
  }

  /** `s` spells `word` with each letter in either case. */
  predicate SpellsIgnoringCase(s: string, word: string)
  {
    |s| == |word| && forall i :: 0 <= i < |s| ==> s[i] == word[i] || s[i] == UpperChar(word[i])
  }

  /** No upper-case ASCII letter in `word`. */
  predicate IsLowerCase(word: string)
  {
    forall i :: 0 <= i < |word| ==> !('A' <= word[i] <= 'Z')
  }

  /** Lower-casing `s` gives a lower-case `word` exactly when `s` spells it in some
      capitalisation: the two readings of "case-insensitive" agree. */
  lemma LowerIffSpells(s: string, word: string)
    requires IsLowerCase(word)
    ensures Lower(s) == word <==> SpellsIgnoringCase(s, word)
  {
    if |s| == |word| {
      forall i | 0 <= i < |s|
        ensures LowerChar(s[i]) == word[i] <==> s[i] == word[i] || s[i] == UpperChar(word[i])
      {
      }
      if SpellsIgnoringCase(s, word) {
        assert forall i :: 0 <= i < |s| ==> Lower(s)[i] == word[i];
      }
    }
  }
}
