/**
 * The pet store: the in-memory list of the user's pets, the selected pet id, and the
 * record-category edits that are also applied to the profile persisted under `userInfo`.
 */
module Pets {
  import opened Outcomes
  import opened Entities
  import opened SecureStorage
  import SeqOps
  import JsText

  datatype Verb = Post | Patch | Delete

  /** An outbound API call: its verb and path (its body and headers are not modelled). */
  datatype Request = Request(verb: Verb, path: string)

  /** Why `addRecord` or `removeRecord` threw. */
  datatype Cause = LoginRequired | StorageFailed | Api(error: ApiError) | MissingPets

  /** How `addRecord` or `removeRecord` ended: returned, or rethrew. */
  datatype Completion = Normal | Threw(cause: Cause)

  /** The path of `PATCH`/`DELETE /users/pets/:id`, with the id printed by `String`. */
  function PetPath(id: Option<int>): (r: string)
    ensures |r| > 12 && r[..12] == "/users/pets/"
    ensures forall i :: 12 <= i < |r| ==> r[i] != '/'
  {
    var text := JsText.OptionalIntText(id);
    assert id.Some? && id.value < 0 ==> text[1..] == JsText.NatToString(-id.value);
    assert id.Some? && id.value >= 0 ==> text == JsText.NatToString(id.value);
    "/users/pets/" + text
  }

  lemma PetPathInjective(a: Option<int>, b: Option<int>)
    ensures PetPath(a) == PetPath(b) <==> a == b
  {
    JsText.OptionalIntTextInjective(a, b);
    if PetPath(a) == PetPath(b) {
      assert PetPath(a)[12..] == JsText.OptionalIntText(a);
      assert PetPath(b)[12..] == JsText.OptionalIntText(b);
    }
  }

  /**
   * The paths `updatePet` and `deletePet` actually send: the templates are written in single
   * quotes, so `${...}` is not interpolated and the id never reaches the server.
   */
  function UpdatePetPathAsWritten(updatedPet: Pet): (r: string)
    ensures |r| > 12 && r[..12] == "/users/pets/"
    ensures forall i :: 0 <= i < |r| ==> !JsText.IsDigit(r[i])
  {
    "/users/pets/${updatedPet.petId}"
  }

  function DeletePetPathAsWritten(petId: int): (r: string)
    ensures |r| > 12 && r[..12] == "/users/pets/"
    ensures forall i :: 0 <= i < |r| ==> !JsText.IsDigit(r[i])
  {
    "/users/pets/${petId}"
  }

  /** Every pet gets the same literal path, and it is never the path naming that pet. */
  lemma PetPathsAsWrittenIgnoreId(a: Pet, b: Pet, x: int, y: int)
    ensures UpdatePetPathAsWritten(a) == UpdatePetPathAsWritten(b) && UpdatePetPathAsWritten(a) != PetPath(a.petId)
    ensures DeletePetPathAsWritten(x) == DeletePetPathAsWritten(y) && DeletePetPathAsWritten(x) != PetPath(Some(x))
  {
    assert PetPath(a.petId)[12..] == JsText.OptionalIntText(a.petId);
    JsText.PrintedTextStart(a.petId);
    assert UpdatePetPathAsWritten(a)[12] == '$';
    assert PetPath(Some(x))[12..] == JsText.OptionalIntText(Some(x));
    JsText.PrintedTextStart(Some(x));
    assert DeletePetPathAsWritten(x)[12] == '$';
  }

  /** Two different pets, one request path: the counterexample for the uninterpolated templates. */
  lemma PetPathAsWrittenCollides(a: Pet, b: Pet)
    requires a.petId == Some(1) && b.petId == Some(2)
    ensures PetPath(a.petId) != PetPath(b.petId)
    ensures UpdatePetPathAsWritten(a) == UpdatePetPathAsWritten(b)
    ensures DeletePetPathAsWritten(1) == DeletePetPathAsWritten(2)
  {
    PetPathInjective(a.petId, b.petId);
  }

  /** `{...pet, records: [...(pet.records ?? []), created]}` */
  function WithRecordAdded(p: Pet, created: RecordItem): (r: Pet)
    ensures r.(records := p.records) == p
    ensures var old_ := p.records.GetOr([]);
      r.records.Some? && |r.records.value| == |old_| + 1
      && r.records.value[..|old_|] == old_ && r.records.value[|old_|] == created
  {
    p.(records := Some(p.records.GetOr([]) + [created]))
  }

  /** `{...pet, records: pet.records?.filter(rec => rec.recordId !== recordId)}` */
  function WithRecordRemoved(p: Pet, recordId: int): (r: Pet)
    ensures r.(records := p.records) == p
    ensures r.records.Some? <==> p.records.Some?
    ensures r.records.Some? ==>
      && (forall i :: 0 <= i < |r.records.value| ==> r.records.value[i].recordId != recordId && r.records.value[i] in p.records.value)
      && (forall i :: 0 <= i < |p.records.value| && p.records.value[i].recordId != recordId ==> p.records.value[i] in r.records.value)
  {
    match p.records
    case None => p
    case Some(rs) => p.(records := Some(SeqOps.RemoveByKey(rs, RecordIdOf, recordId)))
  }

  /** The nested edit `addRecord` or `removeRecord` applies to every pet whose `String(petId)` matches. */
  datatype RecordEdit = AddRecordTo(petId: string, created: RecordItem) | RemoveRecordFrom(petId: string, recordId: int)

  function EditPet(edit: RecordEdit): Pet -> Pet {
    match edit
    case AddRecordTo(_, created) => (p: Pet) => WithRecordAdded(p, created)
    case RemoveRecordFrom(_, recordId) => (p: Pet) => WithRecordRemoved(p, recordId)
  }

  /** The `pets.map(...)` of steps 3 and 4 of `addRecord`/`removeRecord`. */
  function ApplyEdit(edit: RecordEdit, pets: seq<Pet>): (r: seq<Pet>)
    ensures |r| == |pets|
    ensures forall i :: 0 <= i < |pets| ==>
      r[i] == if PetIdText(pets[i]) == edit.petId then EditPet(edit)(pets[i]) else pets[i]
  {
    SeqOps.UpdateByKey(pets, PetIdText, edit.petId, EditPet(edit))
  }

  /** The result of step 4: the completion so far and the new storage. */
  datatype Mirror = Mirror(status: Completion, entries: map<string, Value>)

  /**
   * Step 4 of `addRecord`/`removeRecord`: read `userInfo` (storage call 1); when it is
   * there, apply the same edit to its `pets` and write it back (storage call 2).
   * `parsedUserInfo.pets.map` throws when the stored profile has no `pets`.
   */
  function MirrorEdit(e: map<string, Value>, fault: StorageFault, edit: RecordEdit): (r: Mirror)
    requires WellFormed(e)
    ensures WellFormed(r.entries) && r.entries.Keys == e.Keys
    ensures r.status.Threw? ==> r.entries == e && r.status.cause in {StorageFailed, MissingPets}
    ensures r.entries != e ==> r.status == Normal && UserInfoKey in e
  {
    if fault.Fails(1) then Mirror(Threw(StorageFailed), e)
    else if UserInfoKey !in e then Mirror(Normal, e)
    else
      var u := e[UserInfoKey].user;
      if u.pets.None? then Mirror(Threw(MissingPets), e)
      else if fault.Fails(2) then Mirror(Threw(StorageFailed), e)
      else Mirror(Normal, e[UserInfoKey := UserJson(u.(pets := Some(ApplyEdit(edit, u.pets.value))))])
  }

  class PetStore {
    var pets: seq<Pet>
    var selectedPetId: string
    /** The API calls issued so far, oldest first. */
    var requests: seq<Request>
    const storage: Storage

    constructor (storage: Storage)
      ensures pets == [] && selectedPetId == "" && requests == [] && this.storage == storage
    {
      pets := [];
      selectedPetId := "";
      requests := [];
      this.storage := storage;
    }

    method SetPets(ps: seq<Pet>)
      modifies this
      ensures pets == ps
      ensures selectedPetId == old(selectedPetId) && requests == old(requests)
    {
      pets := ps;
    }

    method SetSelectedPetId(id: string)
      modifies this
      ensures selectedPetId == id
      ensures pets == old(pets) && requests == old(requests)
    {
      selectedPetId := id;
    }

    /** `pets` becomes the persisted profile's pets (none counts as empty); a failed read is swallowed. */
    method LoadPetsFromStorage(fault: StorageFault)
      requires storage.Valid()
      modifies this
      ensures pets == if !fault.Fails(0) && UserInfoKey in storage.entries
                      then storage.entries[UserInfoKey].user.pets.GetOr([])
                      else old(pets)
      ensures selectedPetId == old(selectedPetId) && requests == old(requests)
    {
      if fault.Fails(0) {
        return;
      }
      if UserInfoKey in storage.entries {
        var parsed := storage.entries[UserInfoKey].user;
        pets := parsed.pets.GetOr([]);
      }
    }

    /**
     * `POST /users/pets`; on success the draft is appended with the server's `petId`.
     * A missing token or a failed call is reported to the user and swallowed.
     */
    method AddPet(petInfo: Pet, reply: Reply<int>, fault: StorageFault)
      modifies this
      ensures var sent := !fault.Fails(0) && HasToken(storage.entries);
        && requests == old(requests) + (if sent then [Request(Post, "/users/pets")] else [])
        && pets == if sent && reply.Ok? then old(pets) + [petInfo.(petId := Some(reply.value))] else old(pets)
      ensures selectedPetId == old(selectedPetId)
    {
      if fault.Fails(0) || !HasToken(storage.entries) {
        return;
      }
      requests := requests + [Request(Post, "/users/pets")];
      if reply.Err? {
        return;
      }
      var newPet := petInfo.(petId := Some(reply.value));
      pets := pets + [newPet];
    }

    /** `PATCH /users/pets/:id`; on success every pet with the same `petId` becomes `updatedPet`. */
    method UpdatePet(updatedPet: Pet, reply: Reply<()>, fault: StorageFault)
      modifies this
      ensures var sent := !fault.Fails(0) && HasToken(storage.entries);
        && requests == old(requests) + (if sent then [Request(Patch, PetPath(updatedPet.petId))] else [])
        && pets == if sent && reply.Ok?
                   then SeqOps.ReplaceByKey(old(pets), PetIdOf, updatedPet.petId, updatedPet)
                   else old(pets)
      ensures selectedPetId == old(selectedPetId)
    {
      if fault.Fails(0) || !HasToken(storage.entries) {
        return;
      }
      requests := requests + [Request(Patch, PetPath(updatedPet.petId))];
      if reply.Err? {
        return;
      }
      pets := SeqOps.ReplaceByKey(pets, PetIdOf, updatedPet.petId, updatedPet);
    }

    /** `DELETE /users/pets/:id`; on success the pets with that `petId` are dropped. */
    method DeletePet(petId: int, reply: Reply<()>, fault: StorageFault)
      modifies this
      ensures var sent := !fault.Fails(0) && HasToken(storage.entries);
        && requests == old(requests) + (if sent then [Request(Delete, PetPath(Some(petId)))] else [])
        && pets == if sent && reply.Ok?
                   then SeqOps.RemoveByKey(old(pets), PetIdOf, Some(petId))
                   else old(pets)
      ensures selectedPetId == old(selectedPetId)
    {
      if fault.Fails(0) || !HasToken(storage.entries) {
        return;
      }
      requests := requests + [Request(Delete, PetPath(Some(petId)))];
      if reply.Err? {
        return;
      }
      pets := SeqOps.RemoveByKey(pets, PetIdOf, Some(petId));
    }

    /**
     * Steps 1-4 shared by `addRecord` and `removeRecord`: the token check (storage call 0),
     * the server call, whose success determines the edit, the in-memory edit, then the
     * persisted edit. Errors are rethrown.
     */
    method EditRecords(request: Request, reply: Reply<RecordEdit>, fault: StorageFault)
      returns (status: Completion)
      requires storage.Valid()
      modifies this, storage
      ensures storage.Valid() && selectedPetId == old(selectedPetId)
      ensures fault.Fails(0) ==> status == Threw(StorageFailed)
      ensures !fault.Fails(0) && !HasToken(old(storage.entries)) ==> status == Threw(LoginRequired)
      ensures var sent := !fault.Fails(0) && HasToken(old(storage.entries));
        && requests == old(requests) + (if sent then [request] else [])
        && (sent && reply.Err? ==> status == Threw(Api(reply.error)))
        && (if sent && reply.Ok?
            then pets == ApplyEdit(reply.value, old(pets))
              && Mirror(status, storage.entries) == MirrorEdit(old(storage.entries), fault, reply.value)
            else pets == old(pets) && storage.entries == old(storage.entries))
    {
      if fault.Fails(0) {
        return Threw(StorageFailed);
      }
      if !HasToken(storage.entries) {
        return Threw(LoginRequired);
      }
      requests := requests + [request];
      if reply.Err? {
        return Threw(Api(reply.error));
      }
      var edit := reply.value;
      pets := ApplyEdit(edit, pets);
      if fault.Fails(1) {
        return Threw(StorageFailed);
      }
      if UserInfoKey !in storage.entries {
        return Normal;
      }
      var parsed := storage.entries[UserInfoKey].user;
      if parsed.pets.None? {
        return Threw(MissingPets);
      }
      parsed := parsed.(pets := Some(ApplyEdit(edit, parsed.pets.value)));
      if fault.Fails(2) {
        return Threw(StorageFailed);
      }
      storage.entries := storage.entries[UserInfoKey := UserJson(parsed)];
      status := Normal;
    }

    /** `POST /records/category?pet_id=...`; the created record is appended to the matching pets. */
    method AddRecord(petId: string, reply: Reply<RecordItem>, fault: StorageFault) returns (status: Completion)
      requires storage.Valid()
      modifies this, storage
      ensures storage.Valid() && selectedPetId == old(selectedPetId)
      ensures fault.Fails(0) ==> status == Threw(StorageFailed)
      ensures !fault.Fails(0) && !HasToken(old(storage.entries)) ==> status == Threw(LoginRequired)
      ensures var sent := !fault.Fails(0) && HasToken(old(storage.entries));
        && requests == old(requests) + (if sent then [Request(Post, "/records/category?pet_id=" + petId)] else [])
        && (sent && reply.Err? ==> status == Threw(Api(reply.error)))
        && (if sent && reply.Ok?
            then pets == ApplyEdit(AddRecordTo(petId, reply.value), old(pets))
              && Mirror(status, storage.entries) == MirrorEdit(old(storage.entries), fault, AddRecordTo(petId, reply.value))
            else pets == old(pets) && storage.entries == old(storage.entries))
    {
      var edit: Reply<RecordEdit> := match reply
        case Ok(created) => Ok(AddRecordTo(petId, created))
        case Err(e) => Err(e);
      status := EditRecords(Request(Post, "/records/category?pet_id=" + petId), edit, fault);
    }

    /** `DELETE /records/:id`; the record is dropped from the matching pets. */
    method RemoveRecord(petId: string, recordId: int, reply: Reply<()>, fault: StorageFault) returns (status: Completion)
      requires storage.Valid()
      modifies this, storage
      ensures storage.Valid() && selectedPetId == old(selectedPetId)
      ensures fault.Fails(0) ==> status == Threw(StorageFailed)
      ensures !fault.Fails(0) && !HasToken(old(storage.entries)) ==> status == Threw(LoginRequired)
      ensures var sent := !fault.Fails(0) && HasToken(old(storage.entries));
        && requests == old(requests) + (if sent then [Request(Delete, "/records/" + JsText.IntToString(recordId))] else [])
        && (sent && reply.Err? ==> status == Threw(Api(reply.error)))
        && (if sent && reply.Ok?
            then pets == ApplyEdit(RemoveRecordFrom(petId, recordId), old(pets))
              && Mirror(status, storage.entries) == MirrorEdit(old(storage.entries), fault, RemoveRecordFrom(petId, recordId))
            else pets == old(pets) && storage.entries == old(storage.entries))
    {
      var edit: Reply<RecordEdit> := match reply
        case Ok(_) => Ok(RemoveRecordFrom(petId, recordId))
        case Err(e) => Err(e);
      status := EditRecords(Request(Delete, "/records/" + JsText.IntToString(recordId)), edit, fault);
    }
  }

  // Properties of the nested record edits.

  /** Matching on `String(petId)` with a printed id edits exactly the pets that carry that id. */
  lemma EditTargetsId(edit: RecordEdit, id: int, pets: seq<Pet>)
    requires edit.petId == JsText.IntToString(id)
    ensures forall i :: 0 <= i < |pets| ==>
      ApplyEdit(edit, pets)[i] == if pets[i].petId == Some(id) then EditPet(edit)(pets[i]) else pets[i]
  {
    forall i | 0 <= i < |pets|
      ensures ApplyEdit(edit, pets)[i] == if pets[i].petId == Some(id) then EditPet(edit)(pets[i]) else pets[i]
    {
      JsText.OptionalIntTextInjective(pets[i].petId, Some(id));
    }
  }

  /** Removing from a pet without a `records` list leaves it undefined; otherwise only equal ids go. */
  lemma RemoveKeepsMissingRecords(p: Pet, recordId: int)
    ensures p.records.None? ==> WithRecordRemoved(p, recordId) == p
    ensures p.records.Some? ==>
      WithRecordRemoved(p, recordId).records == Some(SeqOps.RemoveByKey(p.records.value, RecordIdOf, recordId))
  {
  }

  /** No record of `p` carries `recordId` (a missing list counts as empty). */
  predicate FreshRecordId(p: Pet, recordId: int) {
    SeqOps.KeyAbsent(p.records.GetOr([]), RecordIdOf, recordId)
  }

  /**
   * Adding a record with a fresh id and removing it again restores the pet, except that a
   * missing `records` list comes back as the empty list.
   */
  lemma RecordRoundTrip(p: Pet, created: RecordItem)
    requires FreshRecordId(p, created.recordId)
    ensures WithRecordRemoved(WithRecordAdded(p, created), created.recordId)
      == p.(records := Some(p.records.GetOr([])))
  {
    SeqOps.AppendThenRemove(p.records.GetOr([]), RecordIdOf, created);
  }

  /** The same round trip over the whole list: only the matching pets are touched, and they are restored. */
  lemma {:induction false} ListRecordRoundTrip(pets: seq<Pet>, petId: string, created: RecordItem)
    requires forall i :: 0 <= i < |pets| && PetIdText(pets[i]) == petId ==>
      FreshRecordId(pets[i], created.recordId) && pets[i].records.Some?
    ensures ApplyEdit(RemoveRecordFrom(petId, created.recordId), ApplyEdit(AddRecordTo(petId, created), pets)) == pets
  {
    var added := ApplyEdit(AddRecordTo(petId, created), pets);
    var back := ApplyEdit(RemoveRecordFrom(petId, created.recordId), added);
    forall i | 0 <= i < |pets| ensures back[i] == pets[i] {
      if PetIdText(pets[i]) == petId {
        RecordRoundTrip(pets[i], created);
      }
    }
  }

  /** When the persisted key is absent and readable, storage is left as it was. */
  lemma MirrorAbsent(e: map<string, Value>, fault: StorageFault, edit: RecordEdit)
    requires WellFormed(e) && UserInfoKey !in e && !fault.Fails(1)
    ensures MirrorEdit(e, fault, edit) == Mirror(Normal, e)
  {
  }

  /** The persisted step writes at most the `userInfo` key, and only its `pets`. */
  lemma MirrorFrame(e: map<string, Value>, fault: StorageFault, edit: RecordEdit)
    requires WellFormed(e)
    ensures var m := MirrorEdit(e, fault, edit);
      && WellFormed(m.entries)
      && m.entries.Keys == e.Keys
      && (forall k :: k in e && k != UserInfoKey ==> m.entries[k] == e[k])
      && (UserInfoKey in e ==> m.entries[UserInfoKey].user == e[UserInfoKey].user.(pets := m.entries[UserInfoKey].user.pets))
      && (m.status == Normal <==> !fault.Fails(1) && (UserInfoKey in e ==> e[UserInfoKey].user.pets.Some? && !fault.Fails(2)))
  {
  }

  /**
   * A persisted copy that agreed with the in-memory list still agrees after a completed
   * edit: both sides receive the same transformation.
   */
  lemma MirrorKeepsInSync(e: map<string, Value>, fault: StorageFault, edit: RecordEdit, pets: seq<Pet>)
    requires WellFormed(e) && UserInfoKey in e && e[UserInfoKey].user.pets == Some(pets)
    requires MirrorEdit(e, fault, edit).status == Normal
    ensures MirrorEdit(e, fault, edit).entries[UserInfoKey].user.pets == Some(ApplyEdit(edit, pets))
  {
  }
}
