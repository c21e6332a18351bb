/**
 * The comments under a post: loading them with their authors' names, and
 * submitting a new one. The submit handler is split at its first `await`:
 * `BeginSubmit` is the synchronous guard, `CompleteSubmit` the rest, run
 * with the replies of the remote calls.
 */
module CommentsList {
  import opened Wrappers
  import opened JsStrings

  datatype AuthorType = AgentAuthor | ClientAuthor

  /** A comment row as selected from, or inserted into, the comments table. */
  datatype CommentRow = CommentRow(
    id: string,
    content: string,
    createdAt: string,
    authorType: AuthorType,
    authorId: Option<string>)

  /** A comment as shown: the row with its author's name and avatar. */
  datatype Comment = Comment(
    row: CommentRow,
    authorName: string,
    authorAvatar: Option<string>)

  /** The author record found for a row: `display_name, avatar_url` of an agent, `nickname` of a client. */
  datatype AuthorRecord = AuthorRecord(name: Option<string>, avatarUrl: Option<string>)

  /** A fetched row with the reply of its author lookup (`None` when nothing was found). */
  datatype FetchedRow = FetchedRow(row: CommentRow, author: Option<AuthorRecord>)

  /** How loading ends: a query error, a thrown exception, or the rows with their authors. */
  datatype FetchOutcome = FetchError | FetchThrew | Fetched(rows: seq<FetchedRow>)

  datatype User = User(id: string)

  /** The `clients` row of a signed-in user (`id, nickname`). */
  datatype ClientRecord = ClientRecord(id: Option<string>, nickname: Option<string>)

  /** The insert's reply: an error, or the inserted row. */
  datatype InsertOutcome = InsertError | Inserted(row: CommentRow)

  /** The row a submit asks the comments table to insert. */
  datatype InsertRequest = InsertRequest(postId: string, authorType: AuthorType, authorId: Option<string>, content: string)

  /** Who a new comment is written as. */
  datatype Identity = Identity(authorId: Option<string>, authorName: string)

  /**
   * An agent's comment is named after its `display_name`, or "Unknown Agent";
   * a client's after its `nickname`, or "Unknown User". Only agents bring an avatar.
   */
  function ResolveComment(f: FetchedRow): (c: Comment)
    ensures c.row == f.row
    ensures c.authorName != ""
    ensures f.row.authorType == ClientAuthor ==> c.authorAvatar == None
    ensures f.row.authorType == AgentAuthor ==>
      && (f.author.Some? && Truthy(f.author.value.name) ==> c.authorName == f.author.value.name.value)
      && (!(f.author.Some? && Truthy(f.author.value.name)) ==> c.authorName == "Unknown Agent")
      && c.authorAvatar == (if f.author.Some? then f.author.value.avatarUrl else None)
    ensures f.row.authorType == ClientAuthor ==>
      && (f.author.Some? && Truthy(f.author.value.name) ==> c.authorName == f.author.value.name.value)
      && (!(f.author.Some? && Truthy(f.author.value.name)) ==> c.authorName == "Unknown User")
  {
    var name := if f.author.Some? then f.author.value.name else None;
    match f.row.authorType
    case AgentAuthor =>
      Comment(f.row, OrElse(name, "Unknown Agent"),
              if f.author.Some? then f.author.value.avatarUrl else None)
    case ClientAuthor =>
      Comment(f.row, OrElse(name, "Unknown User"), None)
  }

  /** One shown comment per fetched row, in fetched order. */
  function ResolveComments(rows: seq<FetchedRow>): (cs: seq<Comment>)
    ensures |cs| == |rows|
    ensures forall i :: 0 <= i < |rows| ==> cs[i] == ResolveComment(rows[i])
  {
    seq(|rows|, i requires 0 <= i < |rows| => ResolveComment(rows[i]))
  }

  /**
   * The author of a new comment: anonymous without a signed-in user;
   * otherwise the client record's id or else the user's id, and the
   * client's nickname or else "You".
   */
  function AuthorIdentity(user: Option<User>, client: Option<ClientRecord>): (who: Identity)
    ensures user.None? ==> who == Identity(None, "Anonymous")
    ensures user.Some? ==> who.authorId.Some?
    ensures user.Some? && client.Some? && Truthy(client.value.id) ==> who.authorId == client.value.id
    ensures user.Some? && !(client.Some? && Truthy(client.value.id)) ==> who.authorId == Some(user.value.id)
    ensures user.Some? && client.Some? && Truthy(client.value.nickname) ==> who.authorName == client.value.nickname.value
    ensures user.Some? && !(client.Some? && Truthy(client.value.nickname)) ==> who.authorName == "You"
    ensures who.authorName != ""
  {
    match user
    case None => Identity(None, "Anonymous")
    case Some(u) =>
      var id := if client.Some? then client.value.id else None;
      var nickname := if client.Some? then client.value.nickname else None;
      Identity(Some(OrElse(id, u.id)), OrElse(nickname, "You"))
  }

  /** The submit button is disabled, and submitting is ignored, under the same condition. */
  function SubmitDisabled(newComment: string, isSubmitting: bool): (b: bool)
    ensures b <==> isSubmitting || forall k :: 0 <= k < |newComment| ==> IsSpace(newComment[k])
  {
    Trim(newComment) == "" || isSubmitting
  }

  /** Every comment on show has a name with a first letter for its placeholder avatar. */
  ghost predicate AllNamed(comments: seq<Comment>) {
    forall i :: 0 <= i < |comments| ==> comments[i].authorName != ""
  }

  class CommentsListState {
    const postId: string
    var comments: seq<Comment>
    var isLoading: bool
    var newComment: string
    var isSubmitting: bool

    ghost predicate Valid()
      reads this
    {
      AllNamed(comments)
    }

    constructor (postId: string)
      ensures Valid()
      ensures this.postId == postId
      ensures comments == [] && isLoading && newComment == "" && !isSubmitting
    {
      this.postId := postId;
      comments := [];
      isLoading := true;
      newComment := "";
      isSubmitting := false;
    }

    /**
     * `fetchComments`: on success the list becomes one resolved comment per
     * row; on a query error or an exception it is left as it was. Loading
     * ends on every path inside the `try`.
     */
    method FetchComments(outcome: FetchOutcome)
      requires Valid()
      modifies this`comments, this`isLoading
      ensures Valid()
      ensures !isLoading
      ensures outcome.Fetched? ==> comments == ResolveComments(outcome.rows)
      ensures !outcome.Fetched? ==> comments == old(comments)
    {
      match outcome {
        case FetchError =>
        case FetchThrew =>
        case Fetched(rows) =>
          comments := ResolveComments(rows);
      }
      isLoading := false;
    }

    /** The input's `onChange`. */
    method SetNewComment(text: string)
      modifies this`newComment
      ensures newComment == text
    {
      newComment := text;
    }

    /** The synchronous part of `handleSubmitComment`: the guard, then `isSubmitting` is set. */
    method BeginSubmit() returns (started: bool, content: string)
      modifies this`isSubmitting
      ensures started == !SubmitDisabled(newComment, old(isSubmitting))
      ensures started ==> isSubmitting && content == newComment
      ensures !started ==> isSubmitting == old(isSubmitting)
    {
      content := newComment;
      if Trim(newComment) == "" || isSubmitting {
        return false, content;
      }
      isSubmitting := true;
      started := true;
    }

    /**
     * The rest of `handleSubmitComment`, given the text captured when it
     * started, the signed-in user, their client record and the insert's
     * reply; `request` is the row it asks to insert. On an insert error the list and
     * the input are kept; on success the new comment goes after all the
     * others and the input is cleared. `isSubmitting` ends false either way.
     */
    method CompleteSubmit(content: string, user: Option<User>, client: Option<ClientRecord>, insert: InsertOutcome)
      returns (request: InsertRequest)
      requires Valid()
      modifies this`comments, this`newComment, this`isSubmitting
      ensures Valid()
      ensures !isSubmitting
      ensures request == InsertRequest(postId, ClientAuthor, AuthorIdentity(user, client).authorId, content)
      ensures insert.InsertError? ==> comments == old(comments) && newComment == old(newComment)
      ensures insert.Inserted? ==>
        && comments == old(comments) + [Comment(insert.row, AuthorIdentity(user, client).authorName, None)]
        && newComment == ""
    {
      var who := AuthorIdentity(user, client);
      request := InsertRequest(postId, ClientAuthor, who.authorId, content);
      match insert {
        case InsertError =>
          isSubmitting := false;
        case Inserted(row) =>
          comments := comments + [Comment(row, who.authorName, None)];
          newComment := "";
          isSubmitting := false;
      }
    }
  }
}
