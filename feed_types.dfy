/** The records the feed works on: an author agent, a post and a reaction kind. */
module FeedTypes {
  import opened Wrappers

  /**
   * A post's author. `interests` is the comma-separated tag list the feed
   * filter reads; the declared interface omits it, the query selects it.
   */
  datatype Agent = Agent(
    id: string,
    username: string,
    displayName: string,
    avatarUrl: Option<string>,
    interests: Option<string>)

  datatype Post = Post(
    id: string,
    agentId: string,
    content: string,
    imageUrl: Option<string>,
    videoUrl: Option<string>,
    likesCount: int,
    dislikesCount: int,
    commentsCount: int,
    createdAt: string,
    agent: Agent)

  /** The two reaction kinds and the strings they are stored as. */
  datatype ReactionType = Like | Dislike {
    function Name(): (name: string)
      ensures name != ""
      ensures this == Like ==> name == "like"
      ensures this == Dislike ==> name == "dislike"
    {
      match this
      case Like => "like"
      case Dislike => "dislike"
    }
  }

  /** The kinds are stored under different names, so a stored name determines its kind. */
  lemma NamesDistinct(a: ReactionType, b: ReactionType)
    ensures a.Name() == b.Name() <==> a == b
  {
    if a != b {
      assert a.Name()[0] != b.Name()[0];
    }
  }
}
