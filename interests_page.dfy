/**
 * The interests page: the user picks at most five topics, in the order
 * clicked, and submits them to storage before going to the feed.
 */
module InterestsPage {
  import opened Wrappers
  import opened Sequences

  const MaxSelections: nat := 5

  /** `selected.filter(t => t !== topic)`. */
  function Without(selected: seq<string>, topic: string): (r: seq<string>)
    ensures IsSubsequence(r, selected)
    ensures forall x :: multiset(r)[x] == if x == topic then 0 else multiset(selected)[x]
  {
    Filter(selected, t => t != topic)
  }

  /** The selection after a click on `topic`. */
  function ToggleTopic(selected: seq<string>, topic: string): (r: seq<string>)
    ensures forall t :: t != topic ==> (t in r <==> t in selected)
    ensures topic in r <==> topic !in selected && |selected| < MaxSelections
  {
    WithoutMembership(selected, topic);
    if topic in selected then Without(selected, topic)
    else if |selected| < MaxSelections then selected + [topic]
    else selected
  }

  /** A topic's button is disabled exactly when a click on it would change nothing. */
  function IsDisabled(selected: seq<string>, topic: string): (b: bool)
    ensures b <==> ToggleTopic(selected, topic) == selected
  {
    topic !in selected && |selected| >= MaxSelections
  }

  /** What every reachable selection satisfies: at most five topics, none twice. */
  predicate ValidSelection(selected: seq<string>) {
    |selected| <= MaxSelections && NoDuplicates(selected)
  }

  /** The topics left after removing one are the other selected topics. */
  lemma WithoutMembership(selected: seq<string>, topic: string)
    ensures forall t :: t in Without(selected, topic) <==> t != topic && t in selected
  {
    forall t
      ensures t in Without(selected, topic) <==> t != topic && t in selected
    {
      assert t in Without(selected, topic) <==> multiset(Without(selected, topic))[t] > 0;
      assert t in selected <==> multiset(selected)[t] > 0;
    }
  }

  /** One step of the filter: the head is kept iff it is not the topic. */
  lemma WithoutCons(selected: seq<string>, topic: string)
    requires selected != []
    ensures Without(selected, topic)
         == (if selected[0] == topic then [] else [selected[0]]) + Without(selected[1..], topic)
  {
  }

  /** Removing a topic that occurs once deletes exactly that position. */
  lemma {:induction false} WithoutRemovesPosition(selected: seq<string>, i: nat)
    requires i < |selected| && NoDuplicates(selected)
    ensures Without(selected, selected[i]) == selected[..i] + selected[i + 1..]
    decreases |selected|
  {
    if i == 0 {
      HeadNotInTail(selected);
      WithoutCons(selected, selected[0]);
      WithoutAbsent(selected[1..], selected[0]);
    } else {
      NoDuplicatesTail(selected);
      assert selected[1..][i - 1] == selected[i];
      WithoutRemovesPosition(selected[1..], i - 1);
      RemovalStep(selected, i);
    }
  }

  /** The inductive step of `WithoutRemovesPosition`: a kept head goes back in front. */
  lemma RemovalStep(selected: seq<string>, i: nat)
    requires 0 < i < |selected| && selected[0] != selected[i]
    requires Without(selected[1..], selected[i]) == selected[1..][..i - 1] + selected[1..][i..]
    ensures Without(selected, selected[i]) == selected[..i] + selected[i + 1..]
  {
    var topic, tail := selected[i], selected[1..];
    WithoutCons(selected, topic);
    assert Without(selected, topic) == [selected[0]] + Without(tail, topic);
    SliceAfterHead(selected, i);
    ConsConcat(selected[0], tail[..i - 1], tail[i..]);
  }

  lemma ConsConcat(head: string, x: seq<string>, y: seq<string>)
    ensures [head] + (x + y) == ([head] + x) + y
  {
  }

  lemma HeadNotInTail(s: seq<string>)
    requires s != [] && NoDuplicates(s)
    ensures s[0] !in s[1..]
  {
    forall k | 0 <= k < |s[1..]|
      ensures s[1..][k] != s[0]
    {
      assert s[1..][k] == s[k + 1];
    }
  }

  lemma SliceAfterHead(s: seq<string>, i: nat)
    requires 0 < i < |s|
    ensures s[..i] == [s[0]] + s[1..][..i - 1]
    ensures s[i + 1..] == s[1..][i..]
  {
  }

  lemma NoDuplicatesTail(s: seq<string>)
    requires s != [] && NoDuplicates(s)
    ensures NoDuplicates(s[1..])
  {
    var tail := s[1..];
    forall a, b | 0 <= a < b < |tail|
      ensures tail[a] != tail[b]
    {
      assert tail[a] == s[a + 1] && tail[b] == s[b + 1];
    }
  }

  /** Removing a topic that is not there changes nothing. */
  lemma {:induction false} WithoutAbsent(selected: seq<string>, topic: string)
    requires topic !in selected
    ensures Without(selected, topic) == selected
    decreases |selected|
  {
    if selected != [] {
      WithoutCons(selected, topic);
      WithoutAbsent(selected[1..], topic);
      assert selected == [selected[0]] + selected[1..];
    }
  }

  /** Toggling a selected topic removes it and keeps the others in their order. */
  lemma ToggleSelectedRemoves(selected: seq<string>, i: nat)
    requires i < |selected| && NoDuplicates(selected)
    ensures ToggleTopic(selected, selected[i]) == selected[..i] + selected[i + 1..]
  {
    WithoutRemovesPosition(selected, i);
  }

  /** Toggling an unselected topic appends it while there is room, and does nothing when full. */
  lemma ToggleUnselected(selected: seq<string>, topic: string)
    requires topic !in selected
    ensures |selected| < MaxSelections ==> ToggleTopic(selected, topic) == selected + [topic]
    ensures |selected| >= MaxSelections ==> ToggleTopic(selected, topic) == selected
  {
  }

  /** Deleting one position keeps the rest distinct. */
  lemma DeletionKeepsDistinct(s: seq<string>, i: nat)
    requires i < |s| && NoDuplicates(s)
    ensures NoDuplicates(s[..i] + s[i + 1..])
  {
    var r := s[..i] + s[i + 1..];
    forall a, b | 0 <= a < b < |r|
      ensures r[a] != r[b]
    {
      var a' := if a < i then a else a + 1;
      var b' := if b < i then b else b + 1;
      assert r[a] == s[a'] && r[b] == s[b'];
    }
  }

  /** Appending a new element keeps a sequence distinct. */
  lemma AppendKeepsDistinct(s: seq<string>, t: string)
    requires t !in s && NoDuplicates(s)
    ensures NoDuplicates(s + [t])
  {
  }

  /** Every toggle keeps the selection within five topics and free of duplicates. */
  lemma TogglePreservesValid(selected: seq<string>, topic: string)
    requires ValidSelection(selected)
    ensures ValidSelection(ToggleTopic(selected, topic))
  {
    if topic in selected {
      var i :| 0 <= i < |selected| && selected[i] == topic;
      WithoutRemovesPosition(selected, i);
      DeletionKeepsDistinct(selected, i);
    } else if |selected| < MaxSelections {
      AppendKeepsDistinct(selected, topic);
    }
  }

  /** Adding an unselected topic and then toggling it again restores the selection. */
  lemma AddThenRemoveRestores(selected: seq<string>, topic: string)
    requires topic !in selected && |selected| < MaxSelections
    ensures ToggleTopic(ToggleTopic(selected, topic), topic) == selected
  {
    WithoutAppended(selected, topic);
    WithoutAbsent(selected, topic);
  }

  /** Removing a topic from a list with it appended is removing it from the list. */
  lemma {:induction false} WithoutAppended(selected: seq<string>, topic: string)
    ensures Without(selected + [topic], topic) == Without(selected, topic)
    decreases |selected|
  {
    var added := selected + [topic];
    WithoutCons(added, topic);
    if selected == [] {
      assert added[1..] == [];
    } else {
      assert added[1..] == selected[1..] + [topic];
      WithoutAppended(selected[1..], topic);
      WithoutCons(selected, topic);
    }
  }

  /** The page's state and the storage it writes on submit. */
  class InterestsPageState {
    var selectedTopics: seq<string>
    /** The list stored under `selectedInterests`; the JSON encoding is not modelled. */
    var savedInterests: Option<seq<string>>
    var navigatedToFeed: bool

    ghost predicate Valid()
      reads this
    {
      ValidSelection(selectedTopics)
    }

    constructor (savedInterests: Option<seq<string>>)
      ensures Valid()
      ensures selectedTopics == [] && this.savedInterests == savedInterests && !navigatedToFeed
    {
      selectedTopics := [];
      this.savedInterests := savedInterests;
      navigatedToFeed := false;
    }

    method HandleTopicToggle(topic: string)
      requires Valid()
      modifies this`selectedTopics
      ensures Valid()
      ensures selectedTopics == ToggleTopic(old(selectedTopics), topic)
    {
      TogglePreservesValid(selectedTopics, topic);
      if topic in selectedTopics {
        selectedTopics := Without(selectedTopics, topic);
      } else if |selectedTopics| < MaxSelections {
        selectedTopics := selectedTopics + [topic];
      }
    }

    /** Saves the selection, in order, and goes to the feed; with nothing selected, does nothing. */
    method HandleSubmit()
      modifies this`savedInterests, this`navigatedToFeed
      ensures |selectedTopics| > 0 ==> savedInterests == Some(selectedTopics) && navigatedToFeed
      ensures |selectedTopics| == 0 ==> savedInterests == old(savedInterests) && navigatedToFeed == old(navigatedToFeed)
    {
      if |selectedTopics| > 0 {
        savedInterests := Some(selectedTopics);
        navigatedToFeed := true;
      }
    }
  }
}
