/** The cleanup that client/src/App.js applies to the displayed result before
    `JSON.parse`, in both the Download and the Copy handler:
    `.replace(/```json\n?/, '')` then `.replace(/```$/, '')`.
    Neither regular expression carries the `g` or `m` flag, so the first removes only
    the leftmost match, anywhere in the string, and `$` matches only at the very end. */
module Cleanup {
  import opened Common

  const OpenFence := "```json"
  const CloseFence := "```"

  /** Leftmost occurrence of `pat` in `s` at or after `from`: the search a regular
      expression without the `g` flag performs. */
  function FindFirst(s: string, pat: string, from: nat): (r: Option<nat>)
    decreases |s| - from
    ensures r.Some? ==> from <= r.value && OccursAt(s, pat, r.value)
    ensures r.Some? ==> forall j: nat :: from <= j < r.value ==> !OccursAt(s, pat, j)
    ensures r.None? ==> forall j: nat :: from <= j ==> !OccursAt(s, pat, j)
  {
    if |s| < from + |pat| then None
    else if s[from..from + |pat|] == pat then Some(from)
    else FindFirst(s, pat, from + 1)
  }

  /** `.replace(/```json\n?/, '')`: the leftmost "```json" is cut out together with one
      newline right after it, if there is one. */
  function StripOpenFence(s: string): (r: string)
    ensures |r| <= |s|
    ensures r == s <==> !Contains(s, OpenFence)
    ensures Contains(s, OpenFence) ==> |r| == |s| - |OpenFence| || |r| == |s| - |OpenFence| - 1
    ensures FindFirst(s, OpenFence, 0).Some? ==>
              var i := FindFirst(s, OpenFence, 0).value;
              r == s[..i] + DropNewline(s[i + |OpenFence|..])
  {
    match FindFirst(s, OpenFence, 0)
    case None => s
    case Some(i) => s[..i] + DropNewline(s[i + |OpenFence|..])
  }

  /** `.replace(/```$/, '')`: "```" is removed only when it ends the string. */
  function StripCloseFence(s: string): (r: string)
    ensures r == s <==> !EndsWith(s, CloseFence)
    ensures EndsWith(s, CloseFence) ==> r + CloseFence == s
  {
    if |CloseFence| <= |s| && s[|s| - |CloseFence|..] == CloseFence then s[..|s| - |CloseFence|] else s
  }

  /** The whole cleanup, shared by Download JSON and Copy to Clipboard. */
  function Clean(s: string): (r: string)
    ensures |r| <= |s|
    ensures !Contains(s, OpenFence) && !EndsWith(s, CloseFence) ==> r == s
  {
    StripCloseFence(StripOpenFence(s))
  }

  /** A body wrapped in a ```json code block, the shape the prompt forbids but a model
      may still answer with. */
  function Fenced(body: string): (r: string)
    ensures |r| == |body| + |OpenFence| + 1 + |CloseFence|
    ensures OccursAt(r, OpenFence, 0) && EndsWith(r, CloseFence)
  {
    OpenFence + "\n" + body + CloseFence
  }

  /** Drops one leading newline, as the optional `\n?` of the first expression does. */
  function DropNewline(s: string): (r: string)
    ensures s != [] && s[0] == '\n' ==> r == s[1..]
    ensures s == [] || s[0] != '\n' ==> r == s
  {
    if s != [] && s[0] == '\n' then s[1..] else s
  }

  /** The first expression is not anchored: when no "```json" starts inside `prefix`,
      the one right after it is the leftmost, and it is cut out with its newline;
      only that occurrence is removed, even when `rest` holds further fences. */
  lemma OpenFenceFoundAnywhere(prefix: string, rest: string)
    requires forall j: nat :: j < |prefix| ==> !OccursAt(prefix + OpenFence + rest, OpenFence, j)
    ensures StripOpenFence(prefix + OpenFence + rest) == prefix + DropNewline(rest)
  {
    var s := prefix + OpenFence + rest;
    OccursInMiddle(prefix, OpenFence, rest);
    var i := |prefix|;
    assert FindFirst(s, OpenFence, 0) == Some(i);
    assert s[..i] == prefix;
    assert s[i + |OpenFence|..] == rest;
  }

  /** Cleaning a fenced body gives the body back, whatever the body holds. */
  lemma CleanFenced(body: string)
    ensures Clean(Fenced(body)) == body
  {
    var t := body + CloseFence;
    var rest := "\n" + t;
    assert Fenced(body) == "" + OpenFence + rest;
    OpenFenceFoundAnywhere("", rest);
    assert rest[0] == '\n' && rest[1..] == t;
    assert StripOpenFence(Fenced(body)) == t;
    assert t[|t| - |CloseFence|..] == CloseFence && t[..|t| - |CloseFence|] == body;
  }

  /** The cleanup is not idempotent: a second "```json" survives the first pass and is
      removed by a second one. */
  lemma CleanNotIdempotent()
    ensures Clean(OpenFence + OpenFence) == OpenFence
    ensures Clean(Clean(OpenFence + OpenFence)) == ""
  {
    OpenFenceFoundAnywhere("", OpenFence);
    assert OpenFence + OpenFence == "" + OpenFence + OpenFence;
    OpenFenceFoundAnywhere("", "");
    assert OpenFence == "" + OpenFence + "";
  }

  /** Text free of backticks never holds the start of a "```json", so the fence right
      after such text is the one removed. */
  lemma NoFenceInPlainText(prefix: string, rest: string)
    requires '`' !in prefix
    ensures forall j: nat :: j < |prefix| ==> !OccursAt(prefix + OpenFence + rest, OpenFence, j)
    ensures StripOpenFence(prefix + OpenFence + rest) == prefix + DropNewline(rest)
  {
    var s := prefix + OpenFence + rest;
    forall j: nat | j < |prefix|
      ensures !OccursAt(s, OpenFence, j)
    {
      assert s[j] == prefix[j] != '`';
      if j + |OpenFence| <= |s| {
        assert s[j..j + |OpenFence|][0] == s[j];
      }
    }
    OpenFenceFoundAnywhere(prefix, rest);
  }

  /** Inline code before the fence does not stop the search: the fence after it is
      still the one removed. */
  lemma InlineCodeBeforeFence()
    ensures StripOpenFence("see `x`:" + OpenFence + "\n{}") == "see `x`:{}"
  {
    var prefix := "see `x`:";
    var s := prefix + OpenFence + "\n{}";
    forall j: nat | j < |prefix|
      ensures !OccursAt(s, OpenFence, j)
    {
      if j + |OpenFence| <= |s| {
        assert s[j..j + |OpenFence|][1] == s[j + 1];
        assert s[j..j + |OpenFence|][0] == s[j];
      }
    }
    OpenFenceFoundAnywhere(prefix, "\n{}");
  }
}
