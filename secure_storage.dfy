/**
 * The device's secure key-value store, shared by the auth store and the pet store.
 * A profile is kept as its JSON text; here it is kept as the structured value itself,
 * so that `JSON.parse(JSON.stringify(u))` is `u`.
 */
module SecureStorage {
  import opened Entities

  const AuthTokenKey: string := "authToken"
  const UserInfoKey: string := "userInfo"

  datatype Value = Str(text: string) | UserJson(user: User)

  /** What the two stores ever write: a token string under `authToken`, a profile under `userInfo`. */
  predicate WellFormed(e: map<string, Value>) {
    && (AuthTokenKey in e ==> e[AuthTokenKey].Str?)
    && (UserInfoKey in e ==> e[UserInfoKey].UserJson?)
  }

  /** `if (!token)` fails: the key is missing or holds the empty string. */
  predicate HasToken(e: map<string, Value>) {
    AuthTokenKey in e && e[AuthTokenKey] != Str("")
  }

  class Storage {
    var entries: map<string, Value>

    constructor (initial: map<string, Value>)
      ensures entries == initial
    {
      entries := initial;
    }

    predicate Valid()
      reads this
    {
      WellFormed(entries)
    }
  }
}
