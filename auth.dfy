/** The authentication hook: a user signs in with an access code, which is kept in a
    simple users table; the signed-in user is remembered in browser storage under one
    key and restored from there when the application starts. */
module Auth {
  import opened Wrappers
  import opened Text

  const UserStorageKey: string := "knowledge_universe_user"
  const CodeTooShort: string := "Access code must be at least 3 characters"
  const CheckFailed: string := "Failed to check access code"
  const CreateFailed: string := "Failed to create universe"

  /** A notification shown by the sign-in screens. */
  datatype Toast = ErrorToast(message: string) | SuccessToast(message: string)

  /** A row of the users table. */
  datatype User = User(id: string, accessCode: string)

  /** `accessCode.trim().toLowerCase()`. */
  function NormalizeCode(accessCode: string): string {
    ToLower(Trim(accessCode))
  }

  /** A normalised code carries no surrounding whitespace and no capital letter, and
      normalising it again changes nothing; so a code typed with different
      capitalisation or with leading blanks normalises to the same code. */
  lemma NormalizeCodeSpec(accessCode: string, blank: string)
    requires AllWhitespace(blank)
    ensures var code := NormalizeCode(accessCode);
      && IsTrimmed(code)
      && (forall i :: 0 <= i < |code| ==> !('A' <= code[i] <= 'Z'))
      && NormalizeCode(code) == code
      && NormalizeCode(ToLower(accessCode)) == code
      && NormalizeCode(blank + accessCode) == code
  {
    var t := Trim(accessCode);
    TrimIdempotent(accessCode);
    TrimToLower(t);
    ToLowerIdempotent(t);
    TrimToLower(accessCode);
    TrimWhitespacePrefix(blank, accessCode);
  }

  /** What `loginWithCode` answers: the user found, `isNew` for a code nobody has, or
      an error message. */
  datatype Login = Found(user: User) | IsNew | Failed(error: string)

  /** The hook's state: the user, whether the stored session is still being restored,
      and browser storage. `stringify` and `parse` stand for `JSON.stringify` and
      `JSON.parse`, the latter None where it throws. */
  class AuthHook {
    var user: Option<User>
    var loading: bool
    var storage: map<string, string>

    constructor(storage: map<string, string>)
      ensures user.None? && loading && this.storage == storage
    {
      user := None;
      loading := true;
      this.storage := storage;
    }

    /** The mount effect: a stored session that parses becomes the user; one that does
        not is removed from storage and the user stays as it was. Loading ends either
        way. */
    method Restore(parse: string -> Option<User>)
      modifies this
      ensures var stored := if UserStorageKey in old(storage) then old(storage)[UserStorageKey] else "";
        && (stored != "" && parse(stored).Some? ==> user == parse(stored) && storage == old(storage))
        && (stored != "" && parse(stored).None? ==> user == old(user) && storage == old(storage) - {UserStorageKey})
        && (stored == "" ==> user == old(user) && storage == old(storage))
      ensures !loading
    {
      if UserStorageKey in storage && storage[UserStorageKey] != "" {
        var parsed := parse(storage[UserStorageKey]);
        if parsed.Some? {
          user := parsed;
        } else {
          storage := storage - {UserStorageKey};
        }
      }
      loading := false;
    }

    /** `loginWithCode`: the code is normalised; one shorter than 3 characters is
        refused with no lookup. Otherwise the users table is searched for it (`lookup`
        is the answer): a found user is signed in and remembered, an unknown code is
        reported as new with nothing changed, and a failed lookup is an error that
        changes nothing. `query` is the code searched for. */
    method LoginWithCode(accessCode: string, lookup: Result<Option<User>>, stringify: User -> string)
      returns (r: Login, query: Option<string>)
      modifies this
      ensures var code := NormalizeCode(accessCode);
        && (|code| < 3 ==> r == Failed(CodeTooShort) && query.None?)
        && (|code| >= 3 ==> query == Some(code))
        && (|code| >= 3 && lookup.Err? ==> r == Failed(CheckFailed))
        && (|code| >= 3 && lookup.Ok? && lookup.value.None? ==> r == IsNew)
        && (|code| >= 3 && lookup.Ok? && lookup.value.Some? ==> r == Found(lookup.value.value))
      ensures r.Found? ==> user == Some(r.user) && storage == old(storage)[UserStorageKey := stringify(r.user)]
      ensures !r.Found? ==> user == old(user) && storage == old(storage)
      ensures loading == old(loading)
    {
      var code := NormalizeCode(accessCode);
      if code == [] || |code| < 3 {
        return Failed(CodeTooShort), None;
      }
      query := Some(code);
      if lookup.Err? {
        return Failed(CheckFailed), query;
      }
      if lookup.value.Some? {
        user := lookup.value;
        storage := storage[UserStorageKey := stringify(lookup.value.value)];
        return Found(lookup.value.value), query;
      }
      r := IsNew;
    }

    /** `createUniverse`: a users row with the normalised code is inserted; the created
        user is signed in and remembered, and a failed insert is an error that changes
        nothing. `inserted` is the code stored. */
    method CreateUniverse(accessCode: string, created: Result<User>, stringify: User -> string)
      returns (r: Result<User>, inserted: string)
      modifies this
      ensures inserted == NormalizeCode(accessCode)
      ensures r == if created.Ok? then created else Err(CreateFailed)
      ensures r.Ok? ==> user == Some(r.value) && storage == old(storage)[UserStorageKey := stringify(r.value)]
      ensures r.Err? ==> user == old(user) && storage == old(storage)
      ensures loading == old(loading)
    {
      inserted := NormalizeCode(accessCode);
      if created.Err? {
        return Err(CreateFailed), inserted;
      }
      user := Some(created.value);
      storage := storage[UserStorageKey := stringify(created.value)];
      r := created;
    }

    /** `signOut`: no user, and nothing remembered. */
    method SignOut()
      modifies this
      ensures user.None? && storage == old(storage) - {UserStorageKey}
      ensures loading == old(loading)
    {
      user := None;
      storage := storage - {UserStorageKey};
    }
  }
}
