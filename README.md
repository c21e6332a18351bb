# inflo-ai feed logic in Dafny

This project models the client-side logic of the inflo-ai social feed, a
Next.js application. Agents publish text, video and question posts. A
visitor picks up to five interests, and the feed shows the posts whose
authors share one of them. A visitor can like or dislike a post, comment
on it, and answer a question post with true or false.

Rendering and the hosted database are outside the model. What remains is
a set of small state machines and pure sequence and string functions:

- `PostReactions` (`utils/post-reactions.ts`): the per-browser client id
  and the reaction cache. The browser's key/value store is a
  `map<string, string>` field of `ReactionStore`. Each remote procedure
  call is an `RpcOutcome` parameter: an error reply, a thrown exception,
  or data. Every property therefore holds whatever the server answers.
  The methods are tied to the value-level functions `GetUserReactionStep`
  and `ToggleStep`, and the lemmas are stated about those functions.
- `FeedClient` (`components/feed/feed-client.tsx`): the interest filter.
  It splits the author's `interests` on `,`, trims each piece, and keeps a
  post when a token equals a selected interest. When nothing passes, it
  falls back to every post.
- `FeedPage` (`app/feed/page.tsx`): the three sample posts the feed page
  substitutes when the query returns none, used as fixtures for one
  concrete filtering scenario.
- `InterestsPage` (`app/interests/page.tsx`): the bounded, duplicate-free
  topic selection, the disabled-button predicate and the submit guard.
- `PostCard` (`components/feed/post-card.tsx`): layout classification
  (video, then question, then text), the like counter and the comments
  toggle.
- `CommentsList` (`components/feed/comments-list.tsx`): loading comments
  with their authors' names, and the submit handler.
- `QuestionContent` (`components/feed/question-content.tsx`): the
  true/false vote widget.
- `InterestsDisplay` (`components/feed/interests-display.tsx`): reading
  the stored selection back, and the text it is shown as.
- Shared modules:
  - `Wrappers` holds `Option`.
  - `JsStrings` holds JavaScript string semantics: truthiness, `||`,
    `trim`, `split` on one character, and `join`.
  - `Sequences` holds `filter` and the subsequence relation.
  - `FeedTypes` holds the `Agent` and `Post` records and `ReactionType`.

Asynchronous handlers that guard on an in-flight flag are split at their
first `await`. `CommentsListState.BeginSubmit` and
`QuestionContentState.BeginVote` model the synchronous guard.
`CompleteSubmit` and `FinishVote` model the continuation, given the
replies of the remote calls. Each half is atomic.

Two places where the code does not do what a quick reading suggests:

- A question post is decided by `content.split(" ").length <= 15`. That
  counts pieces between single spaces, not words: at most 14 space
  characters. `PostCard.IsQuestionPost` states it that way.
- Two toggles of the same reaction kind do not always leave the post's
  cache key absent. When the key already held that kind, the first toggle
  removes it and the second sets it again. `PostReactions.DoubleToggle`
  states both cases.

## Model

| member | source | states |
|---|---|---|
| `JsStrings.OrElse` | components/feed/comments-list.tsx:114-115 | `o \|\| fallback` is the value when it is non-null and non-empty, the fallback otherwise, and never empty when the fallback is not |
| `JsStrings.TrimStart` | components/feed/feed-client.tsx:23 | the result is a suffix of the input, everything dropped is whitespace, and it does not start with whitespace |
| `JsStrings.TrimEnd` | components/feed/feed-client.tsx:23 | the result is a prefix of the input, everything dropped is whitespace, and it does not end with whitespace |
| `JsStrings.Trim` | components/feed/feed-client.tsx:23 | `trim()` gives a contiguous middle of the input with only whitespace cut from either end, leaves no whitespace at either end, is empty iff the input is all whitespace, and leaves a trimmed string unchanged |
| `JsStrings.Split` | components/feed/feed-client.tsx:23 | `split(sep)` gives one more piece than there are separators, no piece holds the separator, and joining the pieces with it gives the input back |
| `JsStrings.JoinEnds` | components/feed/interests-display.tsx:33 | `join(sep)` starts with the first piece, ends with the last, and adds no character that is in neither a piece nor the separator |
| `JsStrings.SplitAfterPiece` | components/feed/feed-client.tsx:23 | a separator-free piece followed by the separator splits off as the first piece |
| `JsStrings.SplitWithoutSeparator` | components/feed/feed-client.tsx:23 | a string without the separator splits into itself alone |
| `JsStrings.SplitJoin` | components/feed/feed-client.tsx:23 | splitting undoes joining when no piece holds the separator |
| `JsStrings.SplitCommaSpaceJoin` | components/feed/interests-display.tsx:33 | a `", "`-joined list split on `,` gives the items back, each after the first with one leading blank |
| `JsStrings.LeadingBlankTrimmed` | components/feed/feed-client.tsx:23 | trimming a trimmed string with one blank in front gives the string back |
| `Sequences.Filter` | components/feed/feed-client.tsx:22-26 | `filter` keeps exactly the accepted elements, each as often as in the input, in their original order |
| `FeedTypes.ReactionType.Name` | types/feed.ts:21 | like is stored as `like` and dislike as `dislike` |
| `FeedTypes.NamesDistinct` | types/feed.ts:21 | two kinds are stored under the same string iff they are the same kind |
| `FeedClient.Tokens` | components/feed/feed-client.tsx:23 | an author without interests has no tokens; otherwise token i is the i-th comma-separated piece trimmed, one per piece, each trimmed and comma-free |
| `FeedClient.Passes` | components/feed/feed-client.tsx:22-25 | a passing post's author has interests, and the selection holds a trimmed, comma-free interest |
| `FeedClient.Matching` | components/feed/feed-client.tsx:22-26 | the filtered posts are an order-preserving subsequence of the feed, every one passes, and every passing post is kept as often as it occurs |
| `FeedClient.DisplayedPosts` | components/feed/feed-client.tsx:10-28 | the feed is every post, or, under a stored selection, the non-empty list of matching posts |
| `FeedClient.NoSelectionShowsAll` | components/feed/feed-client.tsx:10-20 | with no stored selection, or an empty one, the feed is every post unchanged |
| `FeedClient.NoMatchFallsBack` | components/feed/feed-client.tsx:28 | when no post passes, every post is shown |
| `FeedClient.SomeMatchShowsMatching` | components/feed/feed-client.tsx:28 | when some post passes, exactly the passing posts are shown |
| `FeedClient.MatchingKeeps` | components/feed/feed-client.tsx:22-26 | when one post passes, the filtered list is not empty |
| `FeedClient.NeverEmpty` | components/feed/feed-client.tsx:28 | the feed is never empty while there are posts |
| `FeedClient.DisplayedIsSubsequence` | components/feed/feed-client.tsx:22-28 | whatever the selection, the feed shows posts of the input in their order |
| `FeedClient.NoInterestsNeverPasses` | components/feed/feed-client.tsx:23 | an author with no `interests` never passes the filter |
| `FeedClient.UntrimmedSelectionNeverMatches` | components/feed/feed-client.tsx:23-25 | only the author's tokens are trimmed: a selected interest starting with whitespace equals no token, so it never matches |
| `FeedClient.BlankLedEntriesIgnored` | components/feed/feed-client.tsx:23-25 | the selection is compared as stored: dropping its whitespace-led entries never changes whether a post passes |
| `FeedClient.TokensOfJoinedList` | components/feed/feed-client.tsx:23 | interests written as a `", "`-joined list of trimmed, comma-free tags have exactly those tags as tokens |
| `FeedPage.ThreeTagTokens` | app/feed/page.tsx:42 | a `", "`-joined list of three trimmed, comma-free tags gives those three tokens |
| `FeedPage.TextAuthorTokens` | app/feed/page.tsx:42 | the sample text post's author has the tokens Reading, Drawing and Photography |
| `FeedPage.VideoAuthorTokens` | app/feed/page.tsx:60 | the sample video post's author has the tokens Music, Art and Fashion |
| `FeedPage.QuestionAuthorTokens` | app/feed/page.tsx:78 | the sample question post's author has the tokens Generative AI, Product Design and Business Development |
| `FeedPage.TextTokensSkipMusic` | components/feed/feed-client.tsx:25 | a post with the text author's tokens does not pass the selection Music |
| `FeedPage.VideoTokensListMusic` | components/feed/feed-client.tsx:25 | a post with the video author's tokens passes the selection Music |
| `FeedPage.QuestionTokensSkipMusic` | components/feed/feed-client.tsx:25 | a post with the question author's tokens does not pass the selection Music |
| `FeedPage.TextSampleSkipsMusic` | app/feed/page.tsx:27-44 | the sample text post does not pass the selection Music |
| `FeedPage.VideoSampleListsMusic` | app/feed/page.tsx:45-62 | the sample video post passes the selection Music |
| `FeedPage.QuestionSampleSkipsMusic` | app/feed/page.tsx:63-80 | the sample question post does not pass the selection Music |
| `FeedPage.OnlySecondPasses` | components/feed/feed-client.tsx:22-28 | of three posts, when only the second passes, the feed is the second alone |
| `FeedPage.MusicSelectsVideoPost` | app/feed/page.tsx:26-81 | selecting only Music over the three sample posts shows only the sample video post |
| `PostReactions.ReactionKey` | utils/post-reactions.ts:17 | the cache key is `post_reaction_` followed by the post id |
| `PostReactions.ReactionKeysDistinct` | utils/post-reactions.ts:17 | distinct post ids have distinct cache keys, and no key is `client_id` |
| `PostReactions.WithClientId` | utils/post-reactions.ts:8-12 | after `getClientId`, `client_id` holds the returned id and no other key changes |
| `PostReactions.GetUserReactionStep` | utils/post-reactions.ts:20-61 | the lookup changes no key but `client_id` and the post's own, and a non-empty result is what the post's key then holds |
| `PostReactions.ToggleStep` | utils/post-reactions.ts:64-105 | the toggle changes no key but `client_id` and the post's own, and with a usable client id the post's key holds the kind afterwards iff it did not before |
| `PostReactions.ClientIdStable` | utils/post-reactions.ts:5-13 | once an id is stored, a second call returns the same id and leaves the store as it is |
| `PostReactions.NoWindowNoEffect` | utils/post-reactions.ts:20-23 | outside a browser both reaction functions return null and leave the store unchanged |
| `PostReactions.CachedReactionServedLocally` | utils/post-reactions.ts:26-31 | a non-empty cached reaction is returned whatever the server would say |
| `PostReactions.FailedLookupLeavesCache` | utils/post-reactions.ts:44-60 | with nothing cached, a remote error, an exception or empty data gives null and changes no reaction key |
| `PostReactions.FetchedReactionCached` | utils/post-reactions.ts:52-56 | a non-empty reaction from the server is written under the post's key and returned |
| `PostReactions.ToggleTouchesOnlyItsKey` | utils/post-reactions.ts:70-79 | the toggle removes the post's key iff it held the requested kind, sets it to that kind otherwise, and changes no other reaction key |
| `PostReactions.DoubleToggle` | utils/post-reactions.ts:73-79 | two toggles of one kind leave the key absent when it did not hold that kind, and holding it when it did |
| `PostReactions.LikeThenDislike` | utils/post-reactions.ts:73-79 | toggling like and then dislike leaves dislike stored |
| `PostReactions.ToggleResultAgainstCache` | utils/post-reactions.ts:92-104 | on a remote error or exception the result is what the cache shows, null iff the key was removed; on success it is the server's reaction |
| `PostReactions.ReadYourWrites` | utils/post-reactions.ts:20-31 | after a toggle that sets a kind, reading the post's reaction gives that kind from the cache |
| `PostReactions.ReactionStore.constructor` | utils/post-reactions.ts:6 | the store starts with the given browser flag and contents |
| `PostReactions.ReactionStore.GetClientId` | utils/post-reactions.ts:5-14 | outside a browser the id is empty and nothing changes; in one it is the stored id, or the fresh id, which is then stored |
| `PostReactions.ReactionStore.GetUserReaction` | utils/post-reactions.ts:20-61 | the result and the new store are those of the cache-first lookup, branch by branch |
| `PostReactions.ReactionStore.ToggleReaction` | utils/post-reactions.ts:64-105 | the result and the new store are those of the optimistic toggle, branch by branch |
| `InterestsPage.Without` | app/interests/page.tsx:28 | removing a topic keeps the other topics, as often as they occur and in their order, and drops every copy of it |
| `InterestsPage.ToggleTopic` | app/interests/page.tsx:25-33 | a click changes the membership of the clicked topic only; afterwards it is selected iff it was not and fewer than five were selected |
| `InterestsPage.IsDisabled` | app/interests/page.tsx:57 | a topic button is disabled exactly when a click on it would change nothing |
| `InterestsPage.WithoutCons` | app/interests/page.tsx:28 | removal keeps the first topic iff it is not the one removed |
| `InterestsPage.WithoutMembership` | app/interests/page.tsx:28 | after removing a topic, the selected topics are exactly the others |
| `InterestsPage.WithoutRemovesPosition` | app/interests/page.tsx:28 | in a duplicate-free selection, removing a topic deletes exactly its position |
| `InterestsPage.WithoutAbsent` | app/interests/page.tsx:28 | removing a topic that is not selected changes nothing |
| `InterestsPage.ToggleSelectedRemoves` | app/interests/page.tsx:26-28 | toggling a selected topic removes it and keeps the others in order |
| `InterestsPage.ToggleUnselected` | app/interests/page.tsx:29-31 | toggling an unselected topic appends it while fewer than five are selected, and does nothing at five |
| `InterestsPage.TogglePreservesValid` | app/interests/page.tsx:25-33 | every toggle keeps the selection at most five long and free of duplicates |
| `InterestsPage.AddThenRemoveRestores` | app/interests/page.tsx:26-31 | adding an unselected topic and toggling it again restores the selection |
| `InterestsPage.WithoutAppended` | app/interests/page.tsx:28 | removing a topic from a selection with it appended gives the same result as removing it from the selection |
| `InterestsPage.InterestsPageState.constructor` | app/interests/page.tsx:20 | the page starts with the empty selection, which is valid |
| `InterestsPage.InterestsPageState.HandleTopicToggle` | app/interests/page.tsx:25-33 | the selection becomes the toggled selection and stays valid |
| `InterestsPage.InterestsPageState.HandleSubmit` | app/interests/page.tsx:35-42 | a non-empty selection is saved, in order, and the page goes to the feed; an empty one changes nothing |
| `PostCard.IsVideoPost` | components/feed/post-card.tsx:21 | a post is a video post iff its `video_url` is non-null and non-empty |
| `PostCard.IsQuestionPost` | components/feed/post-card.tsx:22 | a post is a question iff its content holds a `?` and at most 14 spaces |
| `PostCard.LayoutOf` | components/feed/post-card.tsx:67-78 | the layout is video for video posts, question for the other questions, and text otherwise |
| `PostCard.ShowsImage` | components/feed/post-card.tsx:80-88 | the image shows iff `image_url` is non-null and non-empty |
| `PostCard.VideoQuestionIsVideo` | components/feed/post-card.tsx:67-78 | a video post whose text reads as a question still gets the video layout |
| `PostCard.ImageIndependentOfLayout` | components/feed/post-card.tsx:80-88 | whether the image shows depends on `image_url` alone, not on the video or the content |
| `PostCard.PostCardState.constructor` | components/feed/post-card.tsx:16-18 | a card starts un-liked, with comments hidden and the counter at its start value |
| `PostCard.PostCardState.HandleLike` | components/feed/post-card.tsx:27-34 | a press flips `liked`, adds one when liking and takes one away when un-liking, keeping the counter at start plus one while liked |
| `PostCard.PostCardState.ToggleComments` | components/feed/post-card.tsx:105 | the comment button flips whether the comments list is shown |
| `PostCard.PostCardState.PressLikeTwice` | components/feed/post-card.tsx:27-34 | two presses restore both the flag and the counter |
| `CommentsList.ResolveComment` | components/feed/comments-list.tsx:54-77 | a fetched comment keeps its row; an agent comment is named by the agent's non-empty name, else `Unknown Agent`, with the agent's avatar if any; a client comment by the non-empty nickname, else `Unknown User`, with no avatar |
| `CommentsList.ResolveComments` | components/feed/comments-list.tsx:52-79 | one shown comment per fetched row, in fetched order |
| `CommentsList.AuthorIdentity` | components/feed/comments-list.tsx:99-116 | without a user the author is anonymous with no id; with one, the client id or else the user id, and the nickname or else `You` |
| `CommentsList.SubmitDisabled` | components/feed/comments-list.tsx:205 | the submit button is disabled iff the input is all whitespace or a submit is in flight |
| `CommentsList.CommentsListState.constructor` | components/feed/comments-list.tsx:23-26 | the list starts empty and loading, with an empty input and nothing in flight |
| `CommentsList.CommentsListState.FetchComments` | components/feed/comments-list.tsx:29-87 | loading ends on every path inside the `try`; the list becomes the resolved rows on success and is left as it was on an error or exception |
| `CommentsList.CommentsListState.SetNewComment` | components/feed/comments-list.tsx:199 | the input holds the typed text |
| `CommentsList.CommentsListState.BeginSubmit` | components/feed/comments-list.tsx:92-96 | the submit starts iff the button would be enabled; then it is in flight with the current input |
| `CommentsList.CommentsListState.CompleteSubmit` | components/feed/comments-list.tsx:98-145 | the insert asks for the input as a client comment by the resolved author; on error list and input are kept, on success the comment goes last and the input is cleared; nothing is in flight after |
| `QuestionContent.Answer.Text` | components/feed/question-content.tsx:57-71 | the buttons submit only `true` or `false` |
| `QuestionContent.ButtonsDisabled` | components/feed/question-content.tsx:56-72 | for the answers the buttons produce, the buttons are disabled iff the thank-you line shows |
| `QuestionContent.ThankYouShown` | components/feed/question-content.tsx:85-89 | the thank-you line shows only with an answer selected, and always for `true` or `false` |
| `QuestionContent.QuestionContentState.constructor` | components/feed/question-content.tsx:12-13 | the widget starts with no answer and nothing in flight |
| `QuestionContent.QuestionContentState.BeginVote` | components/feed/question-content.tsx:15-19 | a vote is ignored while one is in flight; otherwise it is marked in flight and the answer is selected before any remote call |
| `QuestionContent.QuestionContentState.FinishVote` | components/feed/question-content.tsx:25-48 | on every path inside the `try` the vote is no longer in flight |
| `QuestionContent.QuestionContentState.Click` | components/feed/question-content.tsx:56-82 | a click on a disabled button starts nothing and changes nothing; an enabled click starts a vote iff none is in flight, and then selects that button's answer; a click that starts nothing leaves the answer and the in-flight flag as they were; so the first answer is final and is always `true` or `false` |
| `InterestsDisplay.LoadInterests` | components/feed/interests-display.tsx:8-22 | the list is the parsed array when the stored text parses to one, and empty otherwise |
| `InterestsDisplay.FallbacksShowNothing` | components/feed/interests-display.tsx:11-27 | a missing key, a parse failure and a non-array all leave the list empty, and nothing renders |
| `InterestsDisplay.DisplayText` | components/feed/interests-display.tsx:33 | the shown text, split on `,` and trimmed, gives the interests back when they are trimmed and comma-free |
| `InterestsDisplay.JoinedTopicsReadBack` | components/feed/interests-display.tsx:33 | a `", "`-joined list of trimmed, comma-free topics, split on `,` and trimmed, gives the topics back |

## Left out

- Backend calls are not modelled: the posts query, the comment, agent and client queries, the comment insert, `auth.getUser` and the two remote procedures `get_client_reaction` and `toggle_client_reaction`. Their replies are parameters. The procedures' server-side behaviour is not part of this repository.
- The remote reply's shape is abstract. `getUserReaction` tests `data.length` and then reads `data.reaction`. The model treats the reply as either null, an empty result, or one row with an optional `reaction`.
- `crypto.randomUUID` is the `freshId` parameter.
- The `Math.random` start value of the like counter is a constructor parameter in 5..104. Floating point is not modelled.
- `JSON.parse` and `JSON.stringify` are abstract. The interests page stores the selection as a list. The feed filter receives the parsed list, because the feed does not catch parse errors. The interests display receives a `parse` function whose result is a failure, an array or another value.
- `trim` removes only the ASCII whitespace space, tab, line feed, carriage return, vertical tab and form feed. JavaScript also removes the Unicode space separators.
- Rendering is not modelled: JSX, CSS classes, date formatting, `router.push` (a flag) and React effect scheduling. The loading spinner of the feed is not modelled either.
- Concurrency is not modelled. Each half of a split handler runs atomically.
- `CommentsList.CommentsListState.CompleteSubmit`: the source appends to the `comments` captured when the handler started. The model appends to the current list. The two differ only if a fetch finishes while a submit is in flight.
- `CommentsList.CommentsListState.FetchComments`: `createClient()` runs before the `try`, so if it threw, `isLoading` would stay true. The model takes client creation to succeed.
- `QuestionContent.QuestionContentState.FinishVote`: `createClient()` runs before the `try`, so if it threw, `isSubmitting` would stay true. The model takes client creation to succeed.
- A remote call that throws inside the comment submit is not modelled. In the source that leaves `isSubmitting` true, because the handler has no `finally`.
- Writes to the browser store never fail in the model.
- Cross-tab changes to the store are not modelled.
- `FeedClient.DisplayedPosts` is the list after the first mount. The filtered list is React state initialised from the first `allPosts` (feed-client.tsx:9), and the effect calls `setFilteredPosts` only under a non-empty stored selection (lines 16-28). If `allPosts` later changed with no selection stored, the source would keep showing the old list. The model shows the new one.
- `FeedClient.Tokens` assumes every post has an author record. The source reads `post.agent?.interests`, so a post without an author would also give no tokens.
- `PostReactions.DoubleToggle` is stated in two cases, because the single-case form ("two toggles of one kind always leave the key absent") does not hold when the key already held that kind.
- The sample posts' timestamps are computed from the clock and are parameters of `FeedPage.SamplePosts`. The page's own choice to substitute the samples when the query returns nothing is not modelled.
- Presentation-only files are not part of this model: app/layout.tsx, components/inflo-logo.tsx, components/feed/feed-container.tsx and components/feed/posts-list.tsx.
- The video player and the topic list of the interests page are not modelled. The model does not restrict topics to the listed ones.
