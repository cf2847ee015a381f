/** The cleaning applied to every model reply before it is used as code or as a
    shell command: `reply.replace("```", "").replace(tag, "")`, with tag "python"
    for code and "bash" for commands. */
module Fences {
  import opened PyStr

  /** The markdown code-fence delimiter. */
  const Fence := "```"

  /** The first stage alone: `reply.replace("```", "")`; that no fence is left
      is `FenceFreeAfterRemoval`. */
  function StripFenceMarks(reply: string): string
  {
    Remove(reply, Fence)
  }

  /** Both stages: delete the fence marks, then every occurrence of the language tag. */
  function StripFences(reply: string, tag: string): (r: string)
    ensures |r| <= |reply|
  {
    Remove(StripFenceMarks(reply), tag)
  }

  /** A reply holding neither a fence nor the tag comes through unchanged. */
  lemma CleanReplyUnchanged(reply: string, tag: string)
    requires !Occurs(reply, Fence) && !Occurs(reply, tag)
    ensures StripFences(reply, tag) == reply
  {
    RemoveAbsent(reply, Fence);
    RemoveAbsent(reply, tag);
  }

  /** Removing fence marks from a string that does not start with a backtick keeps
      its first character in front. */
  lemma KeepsFirstChar(s: string)
    requires s != [] && s[0] != '`'
    ensures Remove(s, Fence) != [] && Remove(s, Fence)[0] == s[0]
  {
    if |s| >= 3 {
      assert s[..3][0] == s[0];
    }
  }

  /** After `replace("```", "")` no "```" is left: the deleted marks never glue
      surviving backticks together, because a run of backticks loses whole
      triples and keeps at most two. */
  lemma {:induction false} FenceFreeAfterRemoval(s: string)
    ensures !Occurs(Remove(s, Fence), Fence)
    decreases |s|
  {
    if |s| < 3 {
      assert Remove(s, Fence) == s;
    } else if s[..3] == Fence {
      FenceFreeAfterRemoval(s[3..]);
    } else {
      var tail := Remove(s[1..], Fence);
      var r := [s[0]] + tail;
      assert Remove(s, Fence) == r;
      FenceFreeAfterRemoval(s[1..]);
      assert r[1..] == tail;
      if |r| >= 3 {
        // r does not start with "```": one of its first three characters is not a backtick.
        if s[0] != '`' {
          assert r[..3][0] != '`';
        } else if s[1] != '`' {
          KeepsFirstChar(s[1..]);
          assert r[..3][1] != '`';
        } else {
          assert s[2] != '`' by { assert s[..3] == [s[0], s[1], s[2]]; }
          var t := s[1..];
          assert |t| >= 2 && t[0] == '`' && t[1] != '`';
          if |t| >= 3 {
            assert t[..3] != Fence by { assert t[..3][1] == t[1]; }
            KeepsFirstChar(t[1..]);
            assert tail == [t[0]] + Remove(t[1..], Fence);
          } else {
            assert tail == t;
          }
          assert r[..3][2] != '`';
        }
      }
    }
  }

  /** The first stage is idempotent: a second `replace("```", "")` changes nothing. */
  lemma FenceStageIdempotent(s: string)
    ensures StripFenceMarks(StripFenceMarks(s)) == StripFenceMarks(s)
  {
    FenceFreeAfterRemoval(s);
    RemoveAbsent(StripFenceMarks(s), Fence);
  }

  /** The cleaned text is not fence-free: "``python`" loses its tag and the three
      surviving backticks close up into a fence. */
  lemma CleanedTextMayKeepFence()
    ensures StripFences("``python`", "python") == Fence
  {
    NoFenceInSplitTag();
    RemoveAbsent("``python`", Fence);
    NoTagBeforeSplitTag();
    SplitTagPieces();
    RemoveFirstOccurrence("``", "python", "`");
    assert Remove("`", "python") == "`";
  }

  lemma NoFenceInSplitTag()
    ensures !Occurs("``python`", Fence)
  {
    var s := "``python`";
    assert !Occurs(s[7..], Fence);
    SkipMismatch(s[6..], Fence, 0);
    assert s[6..][1..] == s[7..];
    SkipMismatch(s[5..], Fence, 0);
    assert s[5..][1..] == s[6..];
    SkipMismatch(s[4..], Fence, 0);
    assert s[4..][1..] == s[5..];
    SkipMismatch(s[3..], Fence, 0);
    assert s[3..][1..] == s[4..];
    SkipMismatch(s[2..], Fence, 0);
    assert s[2..][1..] == s[3..];
    SkipMismatch(s[1..], Fence, 1);
    assert s[1..][1..] == s[2..];
    SkipMismatch(s, Fence, 2);
  }

  lemma NoTagBeforeSplitTag()
    ensures !Occurs("``pytho", "python")
  {
    var u := "``pytho";
    assert !Occurs(u[2..], "python");
    SkipMismatch(u[1..], "python", 0);
    assert u[1..][1..] == u[2..];
    SkipMismatch(u, "python", 0);
  }

  lemma SplitTagPieces()
    ensures "``" + "python"[..5] == "``pytho"
    ensures "``" + "python" + "`" == "``python`"
    ensures "``" + "`" == Fence
  {
  }

  /** A text with no backtick at all holds no fence. */
  lemma {:induction false} NoBacktickNoFence(s: string)
    requires forall i :: 0 <= i < |s| ==> s[i] != '`'
    ensures !Occurs(s, Fence)
    decreases |s|
  {
    if |s| >= 3 {
      assert s[..3][0] == s[0];
      NoBacktickNoFence(s[1..]);
    }
  }

  /** Nor is the tag stage idempotent: deleting "python" from "pypythonthon"
      joins the halves around it into a new "python". */
  lemma TagStageMayLeaveTag()
    ensures Remove("pypythonthon", "python") == "python"
  {
    NoTagBeforeNestedTag();
    NestedTagPieces();
    RemoveFirstOccurrence("py", "python", "thon");
    assert Remove("thon", "python") == "thon";
  }

  lemma NoTagBeforeNestedTag()
    ensures !Occurs("pypytho", "python")
  {
    var u := "pypytho";
    assert !Occurs(u[2..], "python");
    SkipMismatch(u[1..], "python", 0);
    assert u[1..][1..] == u[2..];
    SkipMismatch(u, "python", 2);
  }

  lemma NestedTagPieces()
    ensures "py" + "python"[..5] == "pypytho"
    ensures "py" + "python" + "thon" == "pypythonthon"
    ensures "py" + "thon" == "python"
  {
  }
}
