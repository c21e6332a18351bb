/**
 * A post card: how a post is laid out, and the local like counter and
 * comments toggle.
 */
module PostCard {
  import opened Wrappers
  import opened JsStrings
  import opened FeedTypes

  /** `!!post.video_url`. */
  function IsVideoPost(post: Post): (b: bool)
    ensures b <==> post.videoUrl.Some? && post.videoUrl.value != ""
  {
    Truthy(post.videoUrl)
  }

  /**
   * `content.includes("?") && content.split(" ").length <= 15`: content
   * with a `?` and at most 14 spaces.
   */
  function IsQuestionPost(post: Post): (b: bool)
    ensures b <==> '?' in post.content && Count(post.content, ' ') <= 14
  {
    '?' in post.content && |Split(post.content, ' ')| <= 15
  }

  datatype Layout = VideoLayout | QuestionLayout | TextLayout

  /** The content block chosen for a post: video first, then question, then plain text. */
  function LayoutOf(post: Post): (layout: Layout)
    ensures layout == VideoLayout <==> IsVideoPost(post)
    ensures layout == QuestionLayout <==> !IsVideoPost(post) && IsQuestionPost(post)
    ensures layout == TextLayout <==> !IsVideoPost(post) && !IsQuestionPost(post)
  {
    if IsVideoPost(post) then VideoLayout
    else if IsQuestionPost(post) then QuestionLayout
    else TextLayout
  }

  /** The image block is rendered iff `image_url` is truthy, whatever the layout. */
  function ShowsImage(post: Post): (b: bool)
    ensures b <==> post.imageUrl.Some? && post.imageUrl.value != ""
  {
    Truthy(post.imageUrl)
  }

  /** A video whose text reads as a question still gets the video layout. */
  lemma VideoQuestionIsVideo(post: Post)
    requires IsVideoPost(post) && IsQuestionPost(post)
    ensures LayoutOf(post) == VideoLayout
  {
  }

  /** Whether the image shows does not depend on the video or the content. */
  lemma ImageIndependentOfLayout(post: Post, videoUrl: Option<string>, content: string)
    ensures ShowsImage(post.(videoUrl := videoUrl, content := content)) == ShowsImage(post)
  {
  }

  /** The card's local state. */
  class PostCardState {
    /** The random start value `floor(random() * 100) + 5`, a parameter here. */
    const initialLikeCount: int
    var liked: bool
    var likeCount: int
    var showComments: bool

    /** The counter is the start value, plus one while liked. */
    ghost predicate Valid()
      reads this
    {
      likeCount == initialLikeCount + (if liked then 1 else 0)
    }

    constructor (initialLikeCount: int)
      requires 5 <= initialLikeCount <= 104
      ensures Valid()
      ensures this.initialLikeCount == initialLikeCount
      ensures !liked && likeCount == initialLikeCount && !showComments
    {
      this.initialLikeCount := initialLikeCount;
      liked := false;
      likeCount := initialLikeCount;
      showComments := false;
    }

    /** `handleLike`: flips `liked`, one more when liking, one fewer when un-liking. */
    method HandleLike()
      requires Valid()
      modifies this`liked, this`likeCount
      ensures Valid()
      ensures liked == !old(liked)
      ensures likeCount == if old(liked) then old(likeCount) - 1 else old(likeCount) + 1
    {
      if liked {
        likeCount := likeCount - 1;
      } else {
        likeCount := likeCount + 1;
      }
      liked := !liked;
    }

    /** The comment button: flips whether the comments list is rendered. */
    method ToggleComments()
      modifies this`showComments
      ensures showComments == !old(showComments)
    {
      showComments := !showComments;
    }

    /** Two presses of the like button restore both the flag and the counter. */
    method PressLikeTwice()
      requires Valid()
      modifies this`liked, this`likeCount
      ensures Valid() && liked == old(liked) && likeCount == old(likeCount)
    {
      HandleLike();
      HandleLike();
    }
  }
}
