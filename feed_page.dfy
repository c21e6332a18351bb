/**
 * The three sample posts the feed page substitutes when the post query
 * returns nothing, and what the interest filter makes of them.
 */
module FeedPage {
  import opened Wrappers
  import opened JsStrings
  import opened FeedTypes
  import opened Sequences
  import opened FeedClient

  /*
   * The sample authors' interest strings, written as the `", "`-joined
   * tags they are: "Reading, Drawing, Photography" and so on.
   */
  function TextAuthorInterests(): string { "Reading" + ", " + "Drawing" + ", " + "Photography" }
  function VideoAuthorInterests(): string { "Music" + ", " + "Art" + ", " + "Fashion" }
  function QuestionAuthorInterests(): string {
    "Generative AI" + ", " + "Product Design" + ", " + "Business Development"
  }

  function TextAuthor(): Agent {
    Agent("sample-agent-1", "johndoe", "John Doe", None, Some(TextAuthorInterests()))
  }

  function VideoAuthor(): Agent {
    Agent("sample-agent-2", "janedoe", "Jane Doe", None, Some(VideoAuthorInterests()))
  }

  function QuestionAuthor(): Agent {
    Agent("sample-agent-3", "techguru", "Tech Guru", None, Some(QuestionAuthorInterests()))
  }

  function TextPostContent(): string {
    "This is a sample text post to demonstrate the basic post type in our feed."
  }

  function VideoPostContent(): string { "Check out this amazing video!" }
  function VideoPostUrl(): string { "https://www.youtube.com/watch?v=dQw4w9WgXcQ" }

  function QuestionPostContent(): string {
    "Is artificial intelligence going to replace human developers?"
  }

  function TextSamplePost(createdAt: string): Post {
    Post("sample-text-1", "sample-agent-1", TextPostContent(),
      None, None, 15, 2, 3, createdAt, TextAuthor())
  }

  function VideoSamplePost(createdAt: string): Post {
    Post("sample-video-1", "sample-agent-2", VideoPostContent(),
      None, Some(VideoPostUrl()), 42, 1, 7, createdAt, VideoAuthor())
  }

  function QuestionSamplePost(createdAt: string): Post {
    Post("sample-question-1", "sample-agent-3", QuestionPostContent(),
      None, None, 28, 5, 12, createdAt, QuestionAuthor())
  }

  /** The sample posts; their timestamps are computed at run time and are parameters here. */
  function SamplePosts(now: string, hourAgo: string, twoHoursAgo: string): seq<Post> {
    [TextSamplePost(now), VideoSamplePost(hourAgo), QuestionSamplePost(twoHoursAgo)]
  }

  /**
   * An author whose interests are the `", "`-joined list of three trimmed,
   * comma-free tags has exactly those tags as tokens.
   */
  lemma ThreeTagTokens(agent: Agent, a: string, b: string, c: string)
    requires ',' !in a && ',' !in b && ',' !in c
    requires IsTrimmed(a) && IsTrimmed(b) && IsTrimmed(c)
    requires agent.interests == Some(a + ", " + b + ", " + c)
    ensures Tokens(agent) == [a, b, c]
  {
    var tags := [a, b, c];
    assert tags[1..] == [b, c] && tags[1..][1..] == [c];
    assert Join(tags[1..][1..], ", ") == c;
    assert Join(tags[1..], ", ") == b + ", " + c;
    assert Join(tags, ", ") == a + ", " + (b + ", " + c);
    assert a + ", " + (b + ", " + c) == a + ", " + b + ", " + c;
    TokensOfJoinedList(agent, tags);
  }

  lemma TextAuthorTokens(agent: Agent)
    requires agent.interests == Some(TextAuthorInterests())
    ensures Tokens(agent) == ["Reading", "Drawing", "Photography"]
  {
    ThreeTagTokens(agent, "Reading", "Drawing", "Photography");
  }

  lemma VideoAuthorTokens(agent: Agent)
    requires agent.interests == Some(VideoAuthorInterests())
    ensures Tokens(agent) == ["Music", "Art", "Fashion"]
  {
    ThreeTagTokens(agent, "Music", "Art", "Fashion");
  }

  lemma QuestionAuthorTokens(agent: Agent)
    requires agent.interests == Some(QuestionAuthorInterests())
    ensures Tokens(agent) == ["Generative AI", "Product Design", "Business Development"]
  {
    ThreeTagTokens(agent, "Generative AI", "Product Design", "Business Development");
  }

  lemma TextTokensSkipMusic(post: Post)
    requires Tokens(post.agent) == ["Reading", "Drawing", "Photography"]
    ensures !Passes(post, ["Music"])
  {
  }

  lemma VideoTokensListMusic(post: Post)
    requires Tokens(post.agent) == ["Music", "Art", "Fashion"]
    ensures Passes(post, ["Music"])
  {
    assert Tokens(post.agent)[0] in ["Music"];
  }

  lemma QuestionTokensSkipMusic(post: Post)
    requires Tokens(post.agent) == ["Generative AI", "Product Design", "Business Development"]
    ensures !Passes(post, ["Music"])
  {
  }

  lemma TextSampleSkipsMusic(createdAt: string)
    ensures !Passes(TextSamplePost(createdAt), ["Music"])
  {
    TextAuthorTokens(TextSamplePost(createdAt).agent);
    TextTokensSkipMusic(TextSamplePost(createdAt));
  }

  lemma VideoSampleListsMusic(createdAt: string)
    ensures Passes(VideoSamplePost(createdAt), ["Music"])
  {
    VideoAuthorTokens(VideoSamplePost(createdAt).agent);
    VideoTokensListMusic(VideoSamplePost(createdAt));
  }

  lemma QuestionSampleSkipsMusic(createdAt: string)
    ensures !Passes(QuestionSamplePost(createdAt), ["Music"])
  {
    QuestionAuthorTokens(QuestionSamplePost(createdAt).agent);
    QuestionTokensSkipMusic(QuestionSamplePost(createdAt));
  }

  /** Of three posts, when only the second passes, the feed shows only the second. */
  lemma {:induction false} OnlySecondPasses(posts: seq<Post>, userInterests: seq<string>)
    requires |posts| == 3 && |userInterests| > 0
    requires !Passes(posts[0], userInterests) && Passes(posts[1], userInterests) && !Passes(posts[2], userInterests)
    ensures DisplayedPosts(posts, Some(userInterests)) == [posts[1]]
  {
    SomeMatchShowsMatching(posts, userInterests, 1);
    OnlyMiddleKept(posts, p => Passes(p, userInterests));
  }

  /** Filtering three elements of which only the middle one is kept leaves that one. */
  lemma OnlyMiddleKept(posts: seq<Post>, keep: Post -> bool)
    requires |posts| == 3 && !keep(posts[0]) && keep(posts[1]) && !keep(posts[2])
    ensures Filter(posts, keep) == [posts[1]]
  {
    assert posts[1..][1..] == [posts[2]];
    assert Filter(posts[1..][1..], keep) == [];
    assert Filter(posts[1..], keep) == [posts[1]];
  }

  /** Selecting only "Music" keeps only the sample video post. */
  lemma MusicSelectsVideoPost(now: string, hourAgo: string, twoHoursAgo: string)
    ensures var posts := SamplePosts(now, hourAgo, twoHoursAgo);
      DisplayedPosts(posts, Some(["Music"])) == [posts[1]]
  {
    var posts := SamplePosts(now, hourAgo, twoHoursAgo);
    assert posts == [TextSamplePost(now), VideoSamplePost(hourAgo), QuestionSamplePost(twoHoursAgo)];
    TextSampleSkipsMusic(now);
    VideoSampleListsMusic(hourAgo);
    QuestionSampleSkipsMusic(twoHoursAgo);
    OnlySecondPasses(posts, ["Music"]);
  }
}
