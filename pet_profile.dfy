/**
 * The pet profile panel of the diary screen: which pet is shown, selecting a profile,
 * and adding, saving and deleting profiles through the pet store.
 */
module PetProfile {
  import opened Outcomes
  import opened Entities
  import Pets
  import JsText
  import SeqOps
  import SecureStorage

  /** `pets.findIndex(pet => String(pet.petId) === String(selectedPetId))` */
  function FindSelectedIndex(pets: seq<Pet>, selectedPetId: string): (r: int)
    ensures -1 <= r < |pets|
    ensures r >= 0 ==> PetIdText(pets[r]) == selectedPetId
    ensures forall j :: 0 <= j < |pets| && (r == -1 || j < r) ==> PetIdText(pets[j]) != selectedPetId
  {
    if pets == [] then -1
    else if PetIdText(pets[0]) == selectedPetId then 0
    else
      var rest := FindSelectedIndex(pets[1..], selectedPetId);
      if rest == -1 then -1 else rest + 1
  }

  /** The index the profile list highlights: the selected pet, or the first one. */
  function SafeIndex(pets: seq<Pet>, selectedPetId: string): (r: nat)
    ensures pets != [] ==> r < |pets|
    ensures FindSelectedIndex(pets, selectedPetId) == -1 ==> r == 0
    ensures FindSelectedIndex(pets, selectedPetId) >= 0 ==> r == FindSelectedIndex(pets, selectedPetId)
  {
    var i := FindSelectedIndex(pets, selectedPetId);
    if i >= 0 then i else 0
  }

  /** `pets[safeIndex]`, which is `undefined` exactly when there are no pets. */
  function CurrentPet(pets: seq<Pet>, selectedPetId: string): (r: Option<Pet>)
    ensures r.Some? <==> pets != []
    ensures r.Some? ==> r.value in pets
    ensures pets != [] ==> r == Some(pets[SafeIndex(pets, selectedPetId)])
  {
    var i := SafeIndex(pets, selectedPetId);
    if i < |pets| then Some(pets[i]) else None
  }

  /** A `petId` JavaScript treats as true: present and not `0`. */
  predicate Truthy(id: Option<int>) {
    id.Some? && id.value != 0
  }

  /** What `handleSelectProfile(index)` selects: `String(petId)` when `pets[index]?.petId` is truthy. */
  function SelectionAt(pets: seq<Pet>, index: int): (r: Option<string>)
    ensures r.Some? <==> 0 <= index < |pets| && Truthy(pets[index].petId)
    ensures r.Some? ==> r.value == PetIdText(pets[index])
  {
    if 0 <= index < |pets| && Truthy(pets[index].petId) then Some(PetIdText(pets[index])) else None
  }

  /** Pets whose ids are pairwise different. */
  predicate DistinctIds(pets: seq<Pet>) {
    forall i, j :: 0 <= i < j < |pets| ==> pets[i].petId != pets[j].petId
  }

  /** Selecting the profile at `i` makes it the one highlighted and shown. */
  lemma SelectedIsShown(pets: seq<Pet>, i: int)
    requires DistinctIds(pets) && SelectionAt(pets, i).Some?
    ensures FindSelectedIndex(pets, SelectionAt(pets, i).value) == i
    ensures CurrentPet(pets, SelectionAt(pets, i).value) == Some(pets[i])
  {
    var id := SelectionAt(pets, i).value;
    var k := FindSelectedIndex(pets, id);
    if k != i {
      JsText.OptionalIntTextInjective(pets[k].petId, pets[i].petId);
    }
  }

  /** The blank profile `handleAddProfile` posts. */
  function NewProfileDraft(): (p: Pet)
    ensures p.petId == None && p.isNew == Some(true) && p.records == Some([])
    ensures p.petName == "" && p.species == "" && p.registrationNumber == "" && p.dateOfBirth == ""
    ensures p.gender == "M" && p.breed == "???" && p.neutering == "N" && p.imageUrl == Some(DefaultAsset)
  {
    Pet(None, "", "", "", "", "M", "???", "N", Some(DefaultAsset), Some([]), Some(true))
  }

  /**
   * The selection made after an add, as written: the index is the pre-add length, looked up
   * in the pre-add list the handler closed over, so it is always one past its end.
   */
  lemma StaleSelectionSelectsNothing(snapshot: seq<Pet>, id: int)
    requires id != 0
    ensures SelectionAt(snapshot, |snapshot|) == None
    ensures SelectionAt(snapshot + [NewProfileDraft().(petId := Some(id))], |snapshot|) == Some(JsText.IntToString(id))
  {
  }

  class PetProfileView {
    const store: Pets.PetStore
    var isEditing: bool
    /** The ids handed to the `onSelectPet` callback, oldest first. */
    var notified: seq<string>

    constructor (store: Pets.PetStore)
      ensures this.store == store && !isEditing && notified == []
    {
      this.store := store;
      isEditing, notified := false, [];
    }

    /** Select and report the pet shown at `index` of `pets`, when it has a truthy id. */
    method Select(pets: seq<Pet>, index: int)
      modifies this, store
      ensures store.pets == old(store.pets) && store.requests == old(store.requests)
      ensures isEditing == old(isEditing)
      ensures match SelectionAt(pets, index)
        case Some(id) => store.selectedPetId == id && notified == old(notified) + [id]
        case None => store.selectedPetId == old(store.selectedPetId) && notified == old(notified)
    {
      var selection := SelectionAt(pets, index);
      if selection.Some? {
        store.SetSelectedPetId(selection.value);
        notified := notified + [selection.value];
      }
    }

    /** `handleSelectProfile(index)` on the list the panel shows. */
    method HandleSelectProfile(index: int)
      modifies this, store
      ensures store.pets == old(store.pets) && store.requests == old(store.requests)
      ensures isEditing == old(isEditing)
      ensures match SelectionAt(old(store.pets), index)
        case Some(id) => store.selectedPetId == id && notified == old(notified) + [id]
        case None => store.selectedPetId == old(store.selectedPetId) && notified == old(notified)
    {
      Select(store.pets, index);
    }

    /**
     * `handleAddProfile` as written: after the add it selects index `pets.length` of the
     * list it captured before the add, which never exists; the editor opens regardless,
     * since `addPet` reports its own failures and never throws.
     */
    method HandleAddProfileAsWritten(reply: Reply<int>, fault: StorageFault)
      modifies this, store
      ensures var sent := !fault.Fails(0) && SecureStorage.HasToken(store.storage.entries);
        store.pets == if sent && reply.Ok? then old(store.pets) + [NewProfileDraft().(petId := Some(reply.value))]
                      else old(store.pets)
      ensures store.selectedPetId == old(store.selectedPetId) && notified == old(notified)
      ensures isEditing
    {
      var snapshot := store.pets;
      store.AddPet(NewProfileDraft(), reply, fault);
      Select(snapshot, |snapshot|);
      isEditing := true;
    }

    /**
     * `handleAddProfile` as intended: the new profile, which `addPet` appends at index
     * `pets.length`, is selected once the server has given it an id, and the editor opens.
     */
    method HandleAddProfile(reply: Reply<int>, fault: StorageFault)
      modifies this, store
      ensures var added := !fault.Fails(0) && SecureStorage.HasToken(store.storage.entries) && reply.Ok?;
        && store.pets == (if added then old(store.pets) + [NewProfileDraft().(petId := Some(reply.value))]
                          else old(store.pets))
        && (if added && reply.value != 0
            then store.selectedPetId == JsText.IntToString(reply.value)
                 && notified == old(notified) + [JsText.IntToString(reply.value)]
            else store.selectedPetId == old(store.selectedPetId) && notified == old(notified))
      ensures isEditing
    {
      var before := |store.pets|;
      store.AddPet(NewProfileDraft(), reply, fault);
      Select(store.pets, before);
      isEditing := true;
    }

    /** `toggleEditModal` */
    method ToggleEditModal()
      modifies this
      ensures isEditing == !old(isEditing) && notified == old(notified)
    {
      isEditing := !isEditing;
    }

    /** `handleSave`: update the pet, then toggle the editor (a failed update is reported by the store). */
    method HandleSave(updatedPet: Pet, reply: Reply<()>, fault: StorageFault)
      modifies this, store
      ensures var sent := !fault.Fails(0) && SecureStorage.HasToken(store.storage.entries);
        store.pets == if sent && reply.Ok?
                      then SeqOps.ReplaceByKey(old(store.pets), PetIdOf, updatedPet.petId, updatedPet)
                      else old(store.pets)
      ensures store.selectedPetId == old(store.selectedPetId)
      ensures isEditing == !old(isEditing) && notified == old(notified)
    {
      store.UpdatePet(updatedPet, reply, fault);
      isEditing := !isEditing;
    }

    /** `handleDeletePet`: delete the pet, then close the editor. */
    method HandleDeletePet(petId: int, reply: Reply<()>, fault: StorageFault)
      modifies this, store
      ensures var sent := !fault.Fails(0) && SecureStorage.HasToken(store.storage.entries);
        store.pets == if sent && reply.Ok?
                      then SeqOps.RemoveByKey(old(store.pets), PetIdOf, Some(petId))
                      else old(store.pets)
      ensures store.selectedPetId == old(store.selectedPetId)
      ensures !isEditing && notified == old(notified)
    {
      store.DeletePet(petId, reply, fault);
      isEditing := false;
    }
  }
}
