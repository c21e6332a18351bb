/**
 * The feed's interest filter: which posts are shown for the interests the
 * user stored, with the fall-back to every post when the filter would
 * leave nothing.
 */
module FeedClient {
  import opened Wrappers
  import opened JsStrings
  import opened Sequences
  import opened FeedTypes

  /**
   * `agent.interests?.split(',').map(trim) || []`: the author's trimmed
   * interest tokens, none when the author declares no interests.
   */
  function Tokens(agent: Agent): (tokens: seq<string>)
    ensures agent.interests.None? ==> tokens == []
    ensures agent.interests.Some? ==> |tokens| == Count(agent.interests.value, ',') + 1
    ensures forall i :: 0 <= i < |tokens| ==> IsTrimmed(tokens[i]) && ',' !in tokens[i]
    ensures agent.interests.Some? ==>
      forall i :: 0 <= i < |tokens| ==> tokens[i] == Trim(Split(agent.interests.value, ',')[i])
  {
    match agent.interests
    case None => []
    case Some(list) =>
      var pieces := Split(list, ',');
      seq(|pieces|, i requires 0 <= i < |pieces| => Trim(pieces[i]))
  }

  /** Some token of the post's author is, exactly, one of the user's interests. */
  function Passes(post: Post, userInterests: seq<string>): (b: bool)
    ensures b ==> post.agent.interests.Some?
    ensures b ==> exists j :: 0 <= j < |userInterests| && IsTrimmed(userInterests[j]) && ',' !in userInterests[j]
  {
    var tokens := Tokens(post.agent);
    exists i :: 0 <= i < |tokens| && tokens[i] in userInterests
  }

  /** The posts that pass, in feed order. */
  function Matching(allPosts: seq<Post>, userInterests: seq<string>): (r: seq<Post>)
    ensures IsSubsequence(r, allPosts)
    ensures forall i :: 0 <= i < |r| ==> Passes(r[i], userInterests)
    ensures forall p :: multiset(r)[p] == if Passes(p, userInterests) then multiset(allPosts)[p] else 0
  {
    Filter(allPosts, p => Passes(p, userInterests))
  }

  /**
   * The list the feed shows once the mount effect has run. `saved` is the
   * parsed value under `selectedInterests`: `None` when the key is absent or
   * empty. Before the effect runs, the state already holds `allPosts`.
   */
  function DisplayedPosts(allPosts: seq<Post>, saved: Option<seq<string>>): (r: seq<Post>)
    ensures r == allPosts || (saved.Some? && r != [] && r == Matching(allPosts, saved.value))
  {
    if saved.Some? && |saved.value| > 0 then
      var filtered := Matching(allPosts, saved.value);
      if |filtered| > 0 then filtered else allPosts
    else allPosts
  }

  /** With no stored selection, or an empty one, the feed is shown unchanged. */
  lemma NoSelectionShowsAll(allPosts: seq<Post>, saved: Option<seq<string>>)
    requires saved.None? || saved.value == []
    ensures DisplayedPosts(allPosts, saved) == allPosts
  {
  }

  /** When no post passes the filter, every post is shown, not an empty feed. */
  lemma {:induction false} NoMatchFallsBack(allPosts: seq<Post>, userInterests: seq<string>)
    requires forall i :: 0 <= i < |allPosts| ==> !Passes(allPosts[i], userInterests)
    ensures DisplayedPosts(allPosts, Some(userInterests)) == allPosts
  {
    var r := Matching(allPosts, userInterests);
    forall p
      ensures multiset(r)[p] == 0
    {
      if Passes(p, userInterests) {
        assert p !in allPosts;
      }
    }
    assert multiset(r) == multiset{};
  }

  /** When some post passes, exactly the passing posts are shown. */
  lemma {:induction false} SomeMatchShowsMatching(allPosts: seq<Post>, userInterests: seq<string>, k: nat)
    requires k < |allPosts| && Passes(allPosts[k], userInterests)
    ensures DisplayedPosts(allPosts, Some(userInterests)) == Matching(allPosts, userInterests)
  {
    MatchingKeeps(allPosts, userInterests, k);
  }

  lemma MatchingKeeps(allPosts: seq<Post>, userInterests: seq<string>, k: nat)
    requires k < |allPosts| && Passes(allPosts[k], userInterests)
    ensures Matching(allPosts, userInterests) != []
  {
    var r := Matching(allPosts, userInterests);
    assert allPosts[k] in multiset(allPosts);
    assert multiset(r)[allPosts[k]] > 0;
  }

  /** The feed is never empty while there are posts. */
  lemma {:induction false} NeverEmpty(allPosts: seq<Post>, saved: Option<seq<string>>)
    requires |allPosts| > 0
    ensures |DisplayedPosts(allPosts, saved)| > 0
  {
  }

  /** Whatever the selection, the feed shows posts of `allPosts` in their order. */
  lemma DisplayedIsSubsequence(allPosts: seq<Post>, saved: Option<seq<string>>)
    ensures IsSubsequence(DisplayedPosts(allPosts, saved), allPosts)
  {
    SubsequenceReflexive(allPosts);
  }

  lemma {:induction false} SubsequenceReflexive(s: seq<Post>)
    ensures IsSubsequence(s, s)
    decreases |s|
  {
    if s != [] {
      SubsequenceReflexive(s[1..]);
    }
  }

  /** An author who declares no interests never passes the filter. */
  lemma NoInterestsNeverPasses(post: Post, userInterests: seq<string>)
    requires post.agent.interests.None?
    ensures !Passes(post, userInterests)
  {
  }

  /**
   * Only the author's tokens are trimmed: a selected interest that starts
   * with whitespace equals no token, so it can never be matched.
   */
  lemma UntrimmedSelectionNeverMatches(post: Post, u: string)
    requires u != "" && IsSpace(u[0])
    ensures forall i :: 0 <= i < |Tokens(post.agent)| ==> Tokens(post.agent)[i] != u
  {
    var tokens := Tokens(post.agent);
    forall i | 0 <= i < |tokens|
      ensures tokens[i] != u
    {
      assert IsTrimmed(tokens[i]);
    }
  }

  /** Not led by whitespace: the selected interests that can match a token. */
  predicate NotBlankLed(u: string) {
    u == "" || !IsSpace(u[0])
  }

  /**
   * The selection is compared as stored: dropping its whitespace-led
   * entries never changes whether a post passes.
   */
  lemma BlankLedEntriesIgnored(post: Post, userInterests: seq<string>)
    ensures Passes(post, userInterests) <==> Passes(post, Filter(userInterests, NotBlankLed))
  {
    var tokens := Tokens(post.agent);
    var kept := Filter(userInterests, NotBlankLed);
    forall i | 0 <= i < |tokens|
      ensures tokens[i] in userInterests <==> tokens[i] in kept
    {
      assert IsTrimmed(tokens[i]);
      assert NotBlankLed(tokens[i]);
      assert tokens[i] in kept <==> multiset(kept)[tokens[i]] > 0;
      assert tokens[i] in userInterests <==> multiset(userInterests)[tokens[i]] > 0;
    }
  }

  /**
   * An author whose interests are written as a `", "`-joined list of
   * trimmed, comma-free tags has exactly those tags as tokens.
   */
  lemma {:induction false} TokensOfJoinedList(agent: Agent, tags: seq<string>)
    requires |tags| >= 1
    requires forall i :: 0 <= i < |tags| ==> ',' !in tags[i] && IsTrimmed(tags[i])
    requires agent.interests == Some(Join(tags, ", "))
    ensures Tokens(agent) == tags
  {
    var pieces := Split(Join(tags, ", "), ',');
    SplitCommaSpaceJoin(tags);
    var tokens := Tokens(agent);
    assert |tokens| == |pieces| == |tags|;
    forall i | 0 <= i < |tags|
      ensures tokens[i] == tags[i]
    {
      assert tokens[i] == Trim(pieces[i]);
      if i > 0 {
        LeadingBlankTrimmed(tags[i]);
      }
    }
  }
}
