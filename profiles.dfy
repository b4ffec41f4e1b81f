/**
 * Connection profiles: the stored list of login/password/label/client-id
 * records, the "forward" pseudo-profile (credentials typed on the settings
 * page instead), and the selector's editing, adding and deleting.
 */
module Profiles {
  import opened Common
  import opened Lists

  /** `labelText` is the Swift field `label` (a reserved word in Dafny). */
  datatype Item = Item(id: Uuid, login: string, password: string, labelText: string, clientId: string, isForward: bool)

  /** `Item.init`: every field defaults to empty, `isForward` to false. */
  function Init(id: Uuid, login: string := "", password: string := "", clientId: string := "",
                labelText: string := "", isForward: bool := false): (r: Item)
    ensures r.id == id && r.login == login && r.password == password
    ensures r.clientId == clientId && r.labelText == labelText && r.isForward == isForward
  {
    Item(id, login, password, labelText, clientId, isForward)
  }

  /** `.forward`: a fresh item that stands for the credentials of the settings page. */
  function Forward(id: Uuid): (r: Item)
    ensures r.isForward && r.id == id
    ensures r.login == "" && r.password == "" && r.labelText == "" && r.clientId == ""
  {
    Init(id, isForward := true)
  }

  /** `updateTo`: take the editable fields of `item`, keep identity and kind. */
  function UpdateTo(self: Item, item: Item): (r: Item)
    ensures r.id == self.id && r.isForward == self.isForward
    ensures r.login == item.login && r.password == item.password
    ensures r.labelText == item.labelText && r.clientId == item.clientId
  {
    self.(login := item.login, password := item.password, labelText := item.labelText, clientId := item.clientId)
  }

  /** `title`: the label, or the login when there is no label. */
  function Title(item: Item): (r: string)
    ensures item.labelText != "" ==> r == item.labelText
    ensures item.labelText == "" ==> r == item.login
    ensures r == "" <==> item.labelText == "" && item.login == ""
  {
    if item.labelText == "" then item.login else item.labelText
  }

  /** The Add button is enabled unless both labelText and login are empty. */
  predicate CanAdd(item: Item)
    ensures CanAdd(item) ==> item.labelText != "" || item.login != ""
    ensures !CanAdd(item) ==> Title(item) == ""
  {
    !(item.labelText == "" && item.login == "")
  }

  /** What Add admits is exactly what will show a non-empty title. */
  lemma AddableIffTitled(item: Item)
    ensures CanAdd(item) <==> Title(item) != ""
  {
  }

  /** Updating twice from the same item is updating once, and the title follows the item. */
  lemma UpdateToIdempotent(self: Item, item: Item)
    ensures UpdateTo(UpdateTo(self, item), item) == UpdateTo(self, item)
    ensures Title(UpdateTo(self, item)) == Title(item)
  {
  }

  function IdOf(item: Item): Uuid {
    item.id
  }

  function Ids(profiles: seq<Item>): seq<Uuid> {
    Map(profiles, IdOf)
  }

  /** `firstIndex(where: { $0.id == id })`. */
  function FirstIndexOfId(profiles: seq<Item>, id: Uuid): (r: Option<nat>)
    ensures r.Some? ==> r.value < |profiles| && profiles[r.value].id == id
    ensures r.Some? ==> forall j :: 0 <= j < r.value ==> profiles[j].id != id
    ensures r.None? <==> id !in Ids(profiles)
  {
    if profiles == [] then None
    else if profiles[0].id == id then Some(0)
    else
      assert Ids(profiles) == [profiles[0].id] + Ids(profiles[1..]);
      match FirstIndexOfId(profiles[1..], id)
      case None => None
      case Some(k) => Some(k + 1)
  }

  /**
   * What Save does to the list: the first profile with identity `id` takes
   * the edited fields; every other profile and the order stay as they were.
   */
  function Saved(profiles: seq<Item>, id: Uuid, edited: Item): (r: seq<Item>)
    requires id in Ids(profiles)
    ensures |r| == |profiles| && Ids(r) == Ids(profiles)
    ensures exists k ::
      && 0 <= k < |profiles| && profiles[k].id == id
      && (forall j :: 0 <= j < k ==> profiles[j].id != id)
      && r[k] == UpdateTo(profiles[k], edited)
      && (forall j :: 0 <= j < |profiles| && j != k ==> r[j] == profiles[j])
  {
    var k := FirstIndexOfId(profiles, id).value;
    var r := profiles[k := UpdateTo(profiles[k], edited)];
    assert forall j :: 0 <= j < |r| ==> Ids(r)[j] == Ids(profiles)[j];
    r
  }

  /** After a deletion the current profile is kept exactly when its identity survives. */
  lemma {:induction false} SelectionSurvivesDelete(profiles: seq<Item>, offsets: set<nat>, id: Uuid)
    ensures id in Ids(RemoveAtOffsets(profiles, offsets)) <==>
      exists i :: 0 <= i < |profiles| && i !in offsets && profiles[i].id == id
  {
    RemoveCommutesWithMap(profiles, offsets, IdOf);
    InRemoveAtOffsets(Ids(profiles), offsets, id);
  }

  /** The profile list screen and the current profile it is bound to. */
  class ProfileSelector {
    var profiles: seq<Item>
    var currentProfile: Item
    var editing: bool
    var isEdit: bool
    var isAdd: bool
    var editingProfile: Item
    var editingProfileId: Uuid
    /** The next identity the UUID generator hands out. */
    var nextUuid: nat

    /**
     * The UUID generator never repeats: every identity handed out so far,
     * listed, selected or being edited, is below `nextUuid`.
     */
    ghost predicate Valid()
      reads this
    {
      && (forall i :: 0 <= i < |profiles| ==> profiles[i].id < nextUuid)
      && currentProfile.id < nextUuid
      && editingProfile.id < nextUuid
      && editingProfileId < nextUuid
    }

    /** `stored` is the persisted list and `current` the bound selection. */
    constructor(stored: seq<Item>, current: Item, firstUuid: nat)
      requires forall i :: 0 <= i < |stored| ==> stored[i].id < firstUuid
      requires current.id < firstUuid
      ensures Valid()
      ensures profiles == stored && currentProfile == current
      ensures !editing && !isEdit && !isAdd
      ensures editingProfile == Init(firstUuid) && editingProfileId == firstUuid + 1
      ensures nextUuid == firstUuid + 2
    {
      profiles := stored;
      currentProfile := current;
      editing, isEdit, isAdd := false, false, false;
      editingProfile := Init(firstUuid, login := "", password := "", labelText := "");
      editingProfileId := firstUuid + 1;
      nextUuid := firstUuid + 2;
    }

    /** The Edit/Done button. */
    method ToggleEditMode()
      requires Valid()
      modifies this`editing
      ensures Valid()
      ensures editing == !old(editing)
    {
      editing := !editing;
    }

    /** "Enter forward": only outside edit mode does it select a fresh forward item. */
    method ChooseForward()
      requires Valid()
      modifies this`currentProfile, this`nextUuid
      ensures Valid()
      ensures old(editing) ==> currentProfile == old(currentProfile) && nextUuid == old(nextUuid)
      ensures !old(editing) ==> currentProfile == Forward(old(nextUuid)) && nextUuid == old(nextUuid) + 1
      ensures !old(editing) ==> currentProfile.id !in Ids(profiles)
    {
      if !editing {
        currentProfile := Forward(nextUuid);
        nextUuid := nextUuid + 1;
      }
    }

    /** A tap on row `i`: select it, or in edit mode open it in the edit sheet. */
    method TapProfile(i: nat)
      requires Valid()
      requires i < |profiles|
      modifies this`currentProfile, this`editingProfile, this`editingProfileId, this`isEdit
      ensures Valid()
      ensures !old(editing) ==> currentProfile == profiles[i] && unchanged(this`editingProfile, this`editingProfileId, this`isEdit)
      ensures old(editing) ==>
        && currentProfile == old(currentProfile)
        && editingProfile == profiles[i] && editingProfileId == profiles[i].id && isEdit == !old(isEdit)
    {
      if !editing {
        currentProfile := profiles[i];
      } else {
        editingProfile := profiles[i];
        editingProfileId := profiles[i].id;
        isEdit := !isEdit;
      }
    }

    /** The text fields of the edit and add sheets. */
    method EditForm(login: string, password: string, labelText: string, clientId: string)
      requires Valid()
      modifies this`editingProfile
      ensures Valid()
      ensures editingProfile == old(editingProfile).(login := login, password := password, labelText := labelText, clientId := clientId)
    {
      editingProfile := editingProfile.(login := login, password := password, labelText := labelText, clientId := clientId);
    }

    /** Save: the force-unwrapped search traps unless some profile has `editingProfileId`. */
    method Save()
      requires Valid()
      requires editingProfileId in Ids(profiles)
      modifies this`profiles, this`isEdit
      ensures Valid()
      ensures !isEdit
      ensures profiles == Saved(old(profiles), editingProfileId, editingProfile)
    {
      isEdit := false;
      var k := FirstIndexOfId(profiles, editingProfileId).value;
      profiles := profiles[k := UpdateTo(profiles[k], editingProfile)];
    }

    /** Cancel in the edit sheet. */
    method CancelEdit()
      requires Valid()
      modifies this`isEdit
      ensures Valid()
      ensures !isEdit
    {
      isEdit := false;
    }

    /** `onAdd`, behind the + button shown only in edit mode: a blank item with a fresh identity, and the add sheet toggled. */
    method OnAdd()
      requires Valid() && editing
      modifies this`editingProfile, this`isAdd, this`nextUuid
      ensures Valid()
      ensures editingProfile == Init(old(nextUuid)) && nextUuid == old(nextUuid) + 1
      ensures isAdd == !old(isAdd)
      ensures editingProfile.id !in Ids(profiles) && editingProfile.id != currentProfile.id
    {
      editingProfile := Init(nextUuid);
      nextUuid := nextUuid + 1;
      isAdd := !isAdd;
    }

    /** Add: enabled only for a labelled or named item, which goes at the end. */
    method Add()
      requires Valid()
      requires CanAdd(editingProfile)
      modifies this`profiles, this`isAdd
      ensures Valid()
      ensures !isAdd
      ensures profiles == old(profiles) + [editingProfile]
    {
      isAdd := false;
      profiles := profiles + [editingProfile];
    }

    /** Cancel in the add sheet. */
    method CancelAdd()
      requires Valid()
      modifies this`isAdd
      ensures Valid()
      ensures !isAdd
    {
      isAdd := false;
    }

    /**
     * Swipe-to-delete: the rows at `offsets` go; if the current profile's
     * identity is no longer in the list, the selection falls back to a
     * fresh forward item.
     */
    method OnDelete(offsets: set<nat>)
      requires Valid()
      requires forall i :: i in offsets ==> i < |profiles|
      modifies this`profiles, this`currentProfile, this`nextUuid
      ensures Valid()
      ensures profiles == RemoveAtOffsets(old(profiles), offsets)
      ensures old(currentProfile).id in Ids(profiles) ==>
        currentProfile == old(currentProfile) && nextUuid == old(nextUuid)
      ensures old(currentProfile).id !in Ids(profiles) ==>
        currentProfile == Forward(old(nextUuid)) && nextUuid == old(nextUuid) + 1
      ensures old(currentProfile).id !in Ids(profiles) ==> currentProfile.id !in Ids(profiles)
    {
      profiles := RemoveAtOffsets(profiles, offsets);
      if currentProfile.id !in Ids(profiles) {
        currentProfile := Forward(nextUuid);
        nextUuid := nextUuid + 1;
      }
    }
  }
}
