/** The records the stores hold: pets with their diary record categories, and the signed-in user. */
module Entities {
  import opened Outcomes
  import JsText

  /** A pet's picture: a remote URI, or the bundled default image (a module reference, not a string). */
  datatype Image = Uri(uri: string) | DefaultAsset

  /** One diary record category of a pet (`RecordItem`). */
  datatype RecordItem = RecordItem(
    recordId: int,
    emoticon: Option<string>,
    title: string,
    recordType: string,
    value: Option<string>,
    unit: Option<string>,
    categoryColor: Option<string>,
    date: Option<string>)

  /** A pet profile; `petId` is absent until the server has assigned one. */
  datatype Pet = Pet(
    petId: Option<int>,
    petName: string,
    species: string,
    registrationNumber: string,
    dateOfBirth: string,
    gender: string,
    breed: string,
    neutering: string,
    imageUrl: Option<Image>,
    records: Option<seq<RecordItem>>,
    isNew: Option<bool>)

  /** The profile kept under the `userInfo` key; every field may be missing. */
  datatype User = User(
    username: Option<string>,
    email: Option<string>,
    phoneNumber: Option<string>,
    phoneCountry: Option<string>,
    gender: Option<string>,
    userId: Option<int>,
    bio: Option<string>,
    profileImageUrl: Option<string>,
    pets: Option<seq<Pet>>,
    dateOfBirth: Option<string>)

  function PetIdOf(p: Pet): Option<int> { p.petId }

  /** `String(pet.petId)`, the form in which pets are matched against a string id. */
  function PetIdText(p: Pet): string { JsText.OptionalIntText(p.petId) }

  function RecordIdOf(r: RecordItem): int { r.recordId }
}
