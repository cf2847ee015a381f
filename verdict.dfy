/** `bool(strtobool(reply))`: how a language-model reply becomes a pass/fail
    verdict, following the documented contract of `distutils.util.strtobool`. */
module Verdict {
  import opened PyStr
  import opened Effects

  const TrueWords: set<string> := {"y", "yes", "t", "true", "on", "1"}
  const FalseWords: set<string> := {"n", "no", "f", "false", "off", "0"}

  /** The reply is lower-cased (nothing is trimmed) and looked up in the two word
      lists; anything else raises ValueError carrying the lower-cased reply. */
  function StrToBool(reply: string): (r: Result<bool>)
    ensures r.Ok? ==> 1 <= |reply| <= 5
    ensures r.Err? ==> r.error.ValueError? && |r.error.value| == |reply|
  {
    var val := Lower(reply);
    if val in TrueWords then Ok(true)
    else if val in FalseWords then Ok(false)
    else Err(ValueError(val))
  }

  /** For a list of lower-case words, lower-casing the reply lands in the list
      exactly when the reply spells one of the words in some capitalisation. */
  lemma LowerInWords(reply: string, words: set<string>)
    requires forall w :: w in words ==> IsLowerCase(w)
    ensures Lower(reply) in words <==> exists w :: w in words && SpellsIgnoringCase(reply, w)
  {
    if Lower(reply) in words {
      LowerIffSpells(reply, Lower(reply));
    }
    if exists w :: w in words && SpellsIgnoringCase(reply, w) {
      var w :| w in words && SpellsIgnoringCase(reply, w);
      LowerIffSpells(reply, w);
    }
  }

  /** The verdict is true exactly when the reply spells a true-word in some
      capitalisation, false exactly when it spells a false-word, and an error otherwise. */
  lemma VerdictIgnoresCase(reply: string)
    ensures StrToBool(reply) == Ok(true) <==> exists w :: w in TrueWords && SpellsIgnoringCase(reply, w)
    ensures StrToBool(reply) == Ok(false) <==> exists w :: w in FalseWords && SpellsIgnoringCase(reply, w)
    ensures StrToBool(reply).Err? <==> forall w :: w in TrueWords + FalseWords ==> !SpellsIgnoringCase(reply, w)
  {
    assert forall w :: w in TrueWords ==> IsLowerCase(w);
    assert forall w :: w in FalseWords ==> IsLowerCase(w);
    LowerInWords(reply, TrueWords);
    LowerInWords(reply, FalseWords);
  }

  /** Nothing is trimmed: a reply holding a space, tab or line break anywhere
      (" true", "true\n") raises instead of parsing. */
  lemma WhitespaceIsRejected(reply: string, i: nat)
    requires i < |reply| && reply[i] in {' ', '\t', '\n', '\r'}
    ensures StrToBool(reply).Err?
  {
    var val := Lower(reply);
    assert val[i] == reply[i];
    assert forall w :: w in TrueWords + FalseWords ==> forall j :: 0 <= j < |w| ==> w[j] !in {' ', '\t', '\n', '\r'};
  }

  /** Sample replies: "True" passes, "false"
      fails, "maybe" raises; and the two padded forms of "true" raise. */
  lemma VerdictExamples()
    ensures StrToBool("True") == Ok(true)
    ensures StrToBool("false") == Ok(false)
    ensures StrToBool("maybe").Err?
    ensures StrToBool(" true").Err? && StrToBool("true\n").Err?
  {
    assert Lower("True") == "true";
    assert Lower("false") == "false";
    assert Lower("maybe") == "maybe";
    WhitespaceIsRejected(" true", 0);
    WhitespaceIsRejected("true\n", 4);
  }
}
