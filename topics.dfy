/**
 * The topic list: stored topic items, the shared current-topic holder,
 * adding, deleting, renaming and tap-selection.
 */
module Topics {
  import opened Common
  import opened Lists

  /** Compared field by field (synthesised `Equatable`): identity and title. */
  datatype Item = Item(id: Uuid, title: string)

  function IdOf(item: Item): Uuid {
    item.id
  }

  /** No two topics share an identity. */
  ghost predicate UniqueIds(topics: seq<Item>) {
    Distinct(Map(topics, IdOf))
  }

  /** Deleting rows keeps identities unique. */
  lemma DeletePreservesUniqueIds(topics: seq<Item>, offsets: set<nat>)
    requires UniqueIds(topics)
    ensures UniqueIds(RemoveAtOffsets(topics, offsets))
  {
    RemoveCommutesWithMap(topics, offsets, IdOf);
    RemovePreservesDistinct(Map(topics, IdOf), offsets);
  }

  /**
   * Because containment compares titles too, a selected topic that was
   * renamed in the list is no longer "contained": the next deletion of
   * any rows clears the selection, even though its row is still there.
   */
  lemma {:induction false} RenamedSelectionIsDropped(topics: seq<Item>, i: nat, newTitle: string, offsets: set<nat>)
    requires UniqueIds(topics) && i < |topics| && newTitle != topics[i].title
    ensures topics[i] !in RemoveAtOffsets(topics[i := topics[i].(title := newTitle)], offsets)
  {
    var renamed := topics[i := topics[i].(title := newTitle)];
    InRemoveAtOffsets(renamed, offsets, topics[i]);
    forall j | 0 <= j < |renamed| ensures renamed[j] != topics[i] {
      if j != i {
        assert Map(topics, IdOf)[j] != Map(topics, IdOf)[i];
      }
    }
  }

  /** `CurrentItem`: the observable holder of the selected topic. */
  class CurrentItem {
    var topic: Option<Item>

    constructor()
      ensures topic == None
    {
      topic := None;
    }

    /** `topicString`: the selected topic's title, or empty when none is selected. */
    function TopicString(): (r: string)
      reads this
      ensures topic.None? ==> r == ""
      ensures topic.Some? ==> r == topic.value.title
    {
      match topic
      case None => ""
      case Some(t) => t.title
    }
  }

  /** The topic list screen. */
  class TopicSelectorContent {
    var topics: seq<Item>
    const currentTopic: CurrentItem
    var editing: bool
    /** The next identity the UUID generator hands out. */
    var nextUuid: nat

    ghost predicate Valid()
      reads this
    {
      UniqueIds(topics) && forall k :: 0 <= k < |topics| ==> topics[k].id < nextUuid
    }

    /** `stored` is the persisted list; its identities came from the generator earlier. */
    constructor(stored: seq<Item>, current: CurrentItem, firstUuid: nat)
      requires UniqueIds(stored) && forall k :: 0 <= k < |stored| ==> stored[k].id < firstUuid
      ensures Valid() && topics == stored && currentTopic == current && !editing
      ensures nextUuid == firstUuid
    {
      topics := stored;
      currentTopic := current;
      editing := false;
      nextUuid := firstUuid;
    }

    /** The Edit/Done button. */
    method ToggleEditMode()
      modifies this`editing
      ensures editing == !old(editing)
    {
      editing := !editing;
    }

    /** `onAdd`, behind the + button shown only in edit mode: one untitled topic with a fresh identity at the end. */
    method OnAdd()
      requires Valid() && editing
      modifies this`topics, this`nextUuid
      ensures Valid()
      ensures topics == old(topics) + [Item(old(nextUuid), "")]
    {
      ghost var ids := Map(topics, IdOf);
      topics := topics + [Item(nextUuid, "")];
      assert Map(topics, IdOf) == ids + [old(nextUuid)];
      nextUuid := nextUuid + 1;
    }

    /** In edit mode a row's text field edits the topic's title. */
    method EditTitle(i: nat, title: string)
      requires Valid() && editing && i < |topics|
      modifies this`topics
      ensures Valid()
      ensures topics == old(topics)[i := old(topics)[i].(title := title)]
    {
      ghost var ids := Map(topics, IdOf);
      topics := topics[i := topics[i].(title := title)];
      assert Map(topics, IdOf) == ids;
    }

    /** A tap selects the topic, but only outside edit mode. */
    method TapTopic(i: nat)
      requires i < |topics|
      modifies currentTopic
      ensures !editing ==> currentTopic.topic == Some(topics[i])
      ensures editing ==> currentTopic.topic == old(currentTopic.topic)
    {
      if !editing {
        currentTopic.topic := Some(topics[i]);
      }
    }

    /**
     * Swipe-to-delete: the rows at `offsets` go; a selected topic that is
     * no longer contained (same identity and title) is deselected.
     */
    method OnDelete(offsets: set<nat>)
      requires Valid()
      requires forall i :: i in offsets ==> i < |topics|
      modifies this`topics, currentTopic
      ensures Valid()
      ensures topics == RemoveAtOffsets(old(topics), offsets)
      ensures |topics| == |old(topics)| - |offsets|
      ensures old(currentTopic.topic).Some? && old(currentTopic.topic).value !in topics ==>
        currentTopic.topic == None
      ensures old(currentTopic.topic).None? || old(currentTopic.topic).value in topics ==>
        currentTopic.topic == old(currentTopic.topic)
    {
      DeletePreservesUniqueIds(topics, offsets);
      RemoveAtOffsetsLength(topics, offsets);
      ghost var before := topics;
      topics := RemoveAtOffsets(topics, offsets);
      forall k | 0 <= k < |topics| ensures topics[k].id < nextUuid {
        assert topics[k] == before[Kept(|before|, offsets)[k]];
      }
      if currentTopic.topic.Some? && currentTopic.topic.value !in topics {
        currentTopic.topic := None;
      }
    }
  }
}
