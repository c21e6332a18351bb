/**
 * The reaction store: a per-browser client id and one like/dislike per post,
 * cached in the browser's string key/value store and mirrored by two remote
 * procedures. The store is a map; each remote call's outcome is a parameter,
 * so every property below holds whatever the server does.
 */
module PostReactions {
  import opened Wrappers
  import opened FeedTypes

  const ClientIdKey: string := "client_id"
  const ReactionKeyPrefix: string := "post_reaction_"

  /** The cache key of a post's reaction. */
  function ReactionKey(postId: string): (key: string)
    ensures |key| == |ReactionKeyPrefix| + |postId|
    ensures key[..|ReactionKeyPrefix|] == ReactionKeyPrefix && key[|ReactionKeyPrefix|..] == postId
  {
    ReactionKeyPrefix + postId
  }

  /** Distinct posts have distinct cache keys, and none is the client-id key. */
  lemma ReactionKeysDistinct(p: string, q: string)
    ensures ReactionKey(p) == ReactionKey(q) <==> p == q
    ensures ReactionKey(p) != ClientIdKey
  {
    if ReactionKey(p) == ReactionKey(q) {
      assert p == ReactionKey(p)[|ReactionKeyPrefix|..];
    }
    assert ReactionKey(p)[0] != ClientIdKey[0];
  }

  /** The `data` of a successful remote call. */
  datatype RpcData =
    | NoData                            // null
    | EmptyRows                         // a result whose `length` is 0
    | Row(reaction: Option<string>)     // an object; `reaction` may be missing

  /** How a remote call ends: an `error` in the reply, a thrown exception, or data. */
  datatype RpcOutcome = RpcError | RpcException | RpcOk(data: RpcData)

  /** The result of an operation together with the store it leaves behind. */
  datatype Step = Step(result: Option<string>, storage: map<string, string>)

  /** The stored client id is usable iff it is present and non-empty. */
  predicate HasClientId(s: map<string, string>) {
    ClientIdKey in s && s[ClientIdKey] != ""
  }

  /** The id `getClientId` returns in a browser; `freshId` is the newly generated one. */
  function ClientIdOf(s: map<string, string>, freshId: string): string {
    if HasClientId(s) then s[ClientIdKey] else freshId
  }

  /** The store after `getClientId` in a browser. */
  function WithClientId(s: map<string, string>, freshId: string): (s': map<string, string>)
    ensures ClientIdKey in s' && s'[ClientIdKey] == ClientIdOf(s, freshId)
    ensures forall k :: k != ClientIdKey ==> (k in s' <==> k in s) && (k in s ==> s'[k] == s[k])
  {
    if HasClientId(s) then s else s[ClientIdKey := freshId]
  }

  /**
   * `getUserReaction(postId)`: the cached value when there is a non-empty
   * one; otherwise the server's answer, cached when it is a non-empty string.
   */
  function GetUserReactionStep(inBrowser: bool, s: map<string, string>, postId: string,
                               freshId: string, remote: RpcOutcome): (r: Step)
    ensures forall k :: k != ClientIdKey && k != ReactionKey(postId) ==>
      (k in r.storage <==> k in s) && (k in s ==> r.storage[k] == s[k])
    ensures r.result.Some? && r.result.value != "" ==>
      ReactionKey(postId) in r.storage && r.storage[ReactionKey(postId)] == r.result.value
  {
    if !inBrowser then Step(None, s)
    else
      var s1 := WithClientId(s, freshId);
      if ClientIdOf(s, freshId) == "" then Step(None, s1)
      else
        var key := ReactionKey(postId);
        if key in s1 && s1[key] != "" then Step(Some(s1[key]), s1)
        else
          match remote
          case RpcError => Step(None, s1)
          case RpcException => Step(None, s1)
          case RpcOk(NoData) => Step(None, s1)
          case RpcOk(EmptyRows) => Step(None, s1)
          case RpcOk(Row(reaction)) =>
            if reaction.Some? && reaction.value != "" then Step(reaction, s1[key := reaction.value])
            else Step(reaction, s1)
  }

  /** The local toggle: clear the post's key if it holds `kind`, otherwise set it to `kind`. */
  function ToggledCache(s: map<string, string>, key: string, kind: ReactionType): map<string, string> {
    if key in s && s[key] == kind.Name() then s - {key} else s[key := kind.Name()]
  }

  /** What the cache shows for the post after the local toggle. */
  function OptimisticReaction(s: map<string, string>, key: string, kind: ReactionType): Option<string> {
    if key in s && s[key] == kind.Name() then None else Some(kind.Name())
  }

  /** `data ? data.reaction : null` for the toggle procedure's reply. */
  function ServerReaction(data: RpcData): Option<string> {
    match data
    case Row(reaction) => reaction
    case _ => None
  }

  /**
   * `toggleReaction(postId, kind)`: the local toggle is written first; the
   * result is the optimistic value when the remote call fails, the server's
   * value when it succeeds.
   */
  function ToggleStep(inBrowser: bool, s: map<string, string>, postId: string, kind: ReactionType,
                      freshId: string, remote: RpcOutcome): (r: Step)
    ensures forall k :: k != ClientIdKey && k != ReactionKey(postId) ==>
      (k in r.storage <==> k in s) && (k in s ==> r.storage[k] == s[k])
    ensures inBrowser && ClientIdOf(s, freshId) != "" ==>
      (ReactionKey(postId) in r.storage && r.storage[ReactionKey(postId)] == kind.Name()
       <==> !(ReactionKey(postId) in s && s[ReactionKey(postId)] == kind.Name()))
  {
    if !inBrowser then Step(None, s)
    else
      var s1 := WithClientId(s, freshId);
      if ClientIdOf(s, freshId) == "" then Step(None, s1)
      else
        var key := ReactionKey(postId);
        var s2 := ToggledCache(s1, key, kind);
        match remote
        case RpcError => Step(OptimisticReaction(s1, key, kind), s2)
        case RpcException => Step(OptimisticReaction(s1, key, kind), s2)
        case RpcOk(data) => Step(ServerReaction(data), s2)
  }

  /**
   * Once an id is stored, later calls return it and leave the store alone,
   * whatever id they would have generated.
   */
  lemma ClientIdStable(s: map<string, string>, freshId: string, laterId: string)
    requires freshId != ""
    ensures ClientIdOf(WithClientId(s, freshId), laterId) == ClientIdOf(s, freshId)
    ensures WithClientId(WithClientId(s, freshId), laterId) == WithClientId(s, freshId)
  {
  }

  /** Outside a browser both operations return null and touch nothing. */
  lemma NoWindowNoEffect(s: map<string, string>, postId: string, kind: ReactionType,
                         freshId: string, remote: RpcOutcome)
    ensures GetUserReactionStep(false, s, postId, freshId, remote) == Step(None, s)
    ensures ToggleStep(false, s, postId, kind, freshId, remote) == Step(None, s)
  {
  }

  /** A non-empty cached reaction is returned as it is, whatever the server would say. */
  lemma CachedReactionServedLocally(s: map<string, string>, postId: string, freshId: string, remote: RpcOutcome)
    requires ClientIdOf(s, freshId) != ""
    requires ReactionKey(postId) in s && s[ReactionKey(postId)] != ""
    ensures GetUserReactionStep(true, s, postId, freshId, remote)
         == Step(Some(s[ReactionKey(postId)]), WithClientId(s, freshId))
  {
    ReactionKeysDistinct(postId, postId);
  }

  /**
   * Without a usable cached value, a remote error, an exception or an empty
   * reply gives null and leaves every reaction key as it was.
   */
  lemma FailedLookupLeavesCache(s: map<string, string>, postId: string, freshId: string, remote: RpcOutcome)
    requires remote.RpcError? || remote.RpcException? || remote == RpcOk(NoData) || remote == RpcOk(EmptyRows)
    requires !(ReactionKey(postId) in s && s[ReactionKey(postId)] != "")
    ensures GetUserReactionStep(true, s, postId, freshId, remote) == Step(None, WithClientId(s, freshId))
  {
  }

  /** A non-empty reaction from the server is cached under the post's key and returned. */
  lemma FetchedReactionCached(s: map<string, string>, postId: string, freshId: string, reaction: string)
    requires ClientIdOf(s, freshId) != "" && reaction != ""
    requires !(ReactionKey(postId) in s && s[ReactionKey(postId)] != "")
    ensures GetUserReactionStep(true, s, postId, freshId, RpcOk(Row(Some(reaction))))
         == Step(Some(reaction), WithClientId(s, freshId)[ReactionKey(postId) := reaction])
  {
    ReactionKeysDistinct(postId, postId);
  }

  /**
   * The toggle writes only the post's key (and the client id): the key is
   * removed iff it held the requested kind, and holds that kind otherwise.
   */
  lemma ToggleTouchesOnlyItsKey(s: map<string, string>, postId: string, kind: ReactionType,
                                freshId: string, remote: RpcOutcome)
    requires ClientIdOf(s, freshId) != ""
    ensures var s' := ToggleStep(true, s, postId, kind, freshId, remote).storage;
      var key := ReactionKey(postId);
      && (key in s' <==> !(key in s && s[key] == kind.Name()))
      && (key in s' ==> s'[key] == kind.Name())
      && ClientIdKey in s' && s'[ClientIdKey] == ClientIdOf(s, freshId)
      && forall k :: k != key && k != ClientIdKey ==> (k in s' <==> k in s) && (k in s ==> s'[k] == s[k])
  {
    ReactionKeysDistinct(postId, postId);
  }

  /**
   * Two toggles of the same kind: when the post did not hold that kind, its
   * key ends up absent; when it did, the key ends up holding it again.
   */
  lemma DoubleToggle(s: map<string, string>, postId: string, kind: ReactionType,
                     freshId1: string, remote1: RpcOutcome, freshId2: string, remote2: RpcOutcome)
    requires ClientIdOf(s, freshId1) != ""
    ensures var key := ReactionKey(postId);
      var s1 := ToggleStep(true, s, postId, kind, freshId1, remote1).storage;
      var s2 := ToggleStep(true, s1, postId, kind, freshId2, remote2).storage;
      && (!(key in s && s[key] == kind.Name()) ==> key !in s2)
      && (key in s && s[key] == kind.Name() ==> key in s2 && s2[key] == s[key])
  {
    ToggleTouchesOnlyItsKey(s, postId, kind, freshId1, remote1);
    var s1 := ToggleStep(true, s, postId, kind, freshId1, remote1).storage;
    assert ClientIdOf(s1, freshId2) != "";
    ToggleTouchesOnlyItsKey(s1, postId, kind, freshId2, remote2);
  }

  /** Toggling like and then dislike leaves dislike: the kinds replace each other. */
  lemma LikeThenDislike(s: map<string, string>, postId: string,
                        freshId1: string, remote1: RpcOutcome, freshId2: string, remote2: RpcOutcome)
    requires ClientIdOf(s, freshId1) != ""
    ensures var s1 := ToggleStep(true, s, postId, Like, freshId1, remote1).storage;
      var s2 := ToggleStep(true, s1, postId, Dislike, freshId2, remote2).storage;
      ReactionKey(postId) in s2 && s2[ReactionKey(postId)] == "dislike"
  {
    ToggleTouchesOnlyItsKey(s, postId, Like, freshId1, remote1);
    var s1 := ToggleStep(true, s, postId, Like, freshId1, remote1).storage;
    ToggleTouchesOnlyItsKey(s1, postId, Dislike, freshId2, remote2);
  }

  /**
   * When the remote call fails, the result is what the cache now shows:
   * null iff the key was removed. When it succeeds, the result is the
   * server's, which need not agree with the cache.
   */
  lemma ToggleResultAgainstCache(s: map<string, string>, postId: string, kind: ReactionType,
                                 freshId: string, remote: RpcOutcome)
    requires ClientIdOf(s, freshId) != ""
    ensures var step := ToggleStep(true, s, postId, kind, freshId, remote);
      var key := ReactionKey(postId);
      && ((remote.RpcError? || remote.RpcException?) ==>
            (step.result.None? <==> key !in step.storage)
            && (key in step.storage ==> step.result == Some(step.storage[key])))
      && (remote.RpcOk? ==> step.result == ServerReaction(remote.data))
  {
    ToggleTouchesOnlyItsKey(s, postId, kind, freshId, remote);
  }

  /** After a toggle that sets a kind, reading the post's reaction gives that kind from the cache. */
  lemma ReadYourWrites(s: map<string, string>, postId: string, kind: ReactionType,
                       freshId: string, remote: RpcOutcome, laterId: string, laterRemote: RpcOutcome)
    requires ClientIdOf(s, freshId) != ""
    requires !(ReactionKey(postId) in s && s[ReactionKey(postId)] == kind.Name())
    ensures var s1 := ToggleStep(true, s, postId, kind, freshId, remote).storage;
      GetUserReactionStep(true, s1, postId, laterId, laterRemote) == Step(Some(kind.Name()), s1)
  {
    ToggleTouchesOnlyItsKey(s, postId, kind, freshId, remote);
    var s1 := ToggleStep(true, s, postId, kind, freshId, remote).storage;
    assert HasClientId(s1);
  }

  /** The browser's storage as seen by the reaction functions. */
  class ReactionStore {
    /** Whether a `window` (and so a storage) exists: false during server rendering. */
    const inBrowser: bool
    var storage: map<string, string>

    constructor (inBrowser: bool, storage: map<string, string>)
      ensures this.inBrowser == inBrowser && this.storage == storage
    {
      this.inBrowser := inBrowser;
      this.storage := storage;
    }

    /**
     * `getClientId`: outside a browser, the empty id; otherwise the stored id,
     * after storing `freshId` (the generated UUID) when none is stored.
     */
    method GetClientId(freshId: string) returns (id: string)
      modifies this`storage
      ensures !inBrowser ==> id == "" && storage == old(storage)
      ensures inBrowser ==> id == ClientIdOf(old(storage), freshId)
      ensures inBrowser ==> storage == WithClientId(old(storage), freshId)
    {
      if !inBrowser {
        return "";
      }
      var stored := if ClientIdKey in storage then Some(storage[ClientIdKey]) else None;
      if stored.None? || stored.value == "" {
        id := freshId;
        storage := storage[ClientIdKey := id];
      } else {
        id := stored.value;
      }
    }

    method GetUserReaction(postId: string, freshId: string, remote: RpcOutcome) returns (r: Option<string>)
      modifies this`storage
      ensures Step(r, storage) == GetUserReactionStep(inBrowser, old(storage), postId, freshId, remote)
    {
      var clientId := GetClientId(freshId);
      if clientId == "" {
        return None;
      }
      var key := ReactionKey(postId);
      if key in storage && storage[key] != "" {
        return Some(storage[key]);
      }
      match remote {
        case RpcError =>
          return None;
        case RpcException =>
          return None;
        case RpcOk(data) =>
          if data.NoData? || data.EmptyRows? {
            return None;
          }
          if data.reaction.Some? && data.reaction.value != "" {
            storage := storage[key := data.reaction.value];
          }
          return data.reaction;
      }
    }

    method ToggleReaction(postId: string, kind: ReactionType, freshId: string, remote: RpcOutcome)
      returns (r: Option<string>)
      modifies this`storage
      ensures Step(r, storage) == ToggleStep(inBrowser, old(storage), postId, kind, freshId, remote)
    {
      var clientId := GetClientId(freshId);
      if clientId == "" {
        return None;
      }
      var key := ReactionKey(postId);
      var current := if key in storage then Some(storage[key]) else None;
      if current == Some(kind.Name()) {
        storage := storage - {key};
      } else {
        storage := storage[key := kind.Name()];
      }
      match remote {
        case RpcError =>
          r := if current == Some(kind.Name()) then None else Some(kind.Name());
        case RpcException =>
          r := if current == Some(kind.Name()) then None else Some(kind.Name());
        case RpcOk(data) =>
          r := if data.Row? then data.reaction else None;
      }
    }
  }
}
