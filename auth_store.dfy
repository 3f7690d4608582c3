/** The auth store as the source has it: an object whose actions assign its
    four fields and write the persisted key-value store key by key. Each
    action is proved to end in the state the matching function of AuthState
    gives. */
module AuthStore {
  import opened AuthState

  /** A write the key-value store received, in the order received. */
  datatype StorageOp = Wrote(key: string, value: string) | Removed(key: string)

  /** The persisted key-value store; it outlives an `AuthStore` object, so a
      restart of the app is a new `AuthStore` over the same storage. */
  class PersistentStorage {
    var entries: Storage
    /** Every write so far, oldest first. */
    ghost var log: seq<StorageOp>

    constructor (persisted: Storage)
      ensures entries == persisted && log == []
    {
      entries := persisted;
      log := [];
    }

    method GetItem(key: string) returns (v: Option<string>)
      ensures v.Some? <==> key in entries
      ensures v.Some? ==> v.value == entries[key]
    {
      v := if key in entries then Some(entries[key]) else None;
    }

    method SetItem(key: string, value: string)
      modifies this
      ensures entries == old(entries)[key := value]
      ensures log == old(log) + [Wrote(key, value)]
    {
      entries := entries[key := value];
      log := log + [Wrote(key, value)];
    }

    method RemoveItem(key: string)
      modifies this
      ensures entries == old(entries) - {key}
      ensures log == old(log) + [Removed(key)]
    {
      entries := entries - {key};
      log := log + [Removed(key)];
    }
  }

  class AuthStore {
    var user: JsValue
    var token: Option<string>
    var isLoading: bool
    var isCheckingAuth: bool
    const storage: PersistentStorage

    /** The in-memory fields as a value. */
    function Fields(): Session
      reads this
    {
      Session(user, token, isLoading, isCheckingAuth)
    }

    /** The fields together with what is persisted. */
    function Snapshot(): State
      reads this, storage
    {
      State(Fields(), storage.entries)
    }

    /** The store as created: no user, no token, not loading, and the
        initial check still to run. */
    constructor (storage: PersistentStorage)
      ensures this.storage == storage
      ensures user == Null && token == None && !isLoading && isCheckingAuth
      ensures Fields() == InitialSession
    {
      this.storage := storage;
      user := Null;
      token := None;
      isLoading := false;
      isCheckingAuth := true;
    }

    /** The shared body of `register` and `login`: raise the loading flag,
        await the service (its reply is `reply`), decode the token (the
        decoder's outcome is `decoded`), then either fail or persist the user
        and then the token and set both fields. `loadingWhilePending` is the
        loading flag as it stood at every await: the service call and, on
        success, both storage writes. */
    method Authenticate(reply: AuthReply, decoded: Decoded) returns (outcome: Outcome, ghost loadingWhilePending: bool)
      modifies this, storage
      ensures Snapshot() == AuthState.Authenticate(old(Snapshot()), reply, decoded).state
      ensures outcome == AuthState.Authenticate(old(Snapshot()), reply, decoded).outcome
      ensures loadingWhilePending
      ensures outcome.Success? ==> storage.log == old(storage.log) + [Wrote(UserKey, Stringify(user)), Wrote(TokenKey, reply.token)]
      ensures outcome.Failure? ==> storage.log == old(storage.log)
    {
      isLoading := true;
      loadingWhilePending := isLoading;
      if reply.Error? {
        isLoading := false;
        return Failure(reply.msg), loadingWhilePending;
      }
      match decoded
      case Undecodable(error) =>
        isLoading := false;
        outcome := Failure(error);
      case Decoded(payload) =>
        loadingWhilePending := loadingWhilePending && isLoading;
        storage.SetItem(UserKey, Stringify(payload.user));
        loadingWhilePending := loadingWhilePending && isLoading;
        storage.SetItem(TokenKey, reply.token);
        user, token, isLoading := payload.user, Some(reply.token), false;
        outcome := Success;
    }

    /** `register(username, email, password)`; the credentials only reach
        the service, whose reply is `reply`. */
    method Register(reply: AuthReply, decoded: Decoded) returns (outcome: Outcome, ghost loadingWhilePending: bool)
      modifies this, storage
      ensures Snapshot() == AuthState.Authenticate(old(Snapshot()), reply, decoded).state
      ensures outcome == AuthState.Authenticate(old(Snapshot()), reply, decoded).outcome
      ensures loadingWhilePending
      ensures outcome.Success? ==> storage.log == old(storage.log) + [Wrote(UserKey, Stringify(user)), Wrote(TokenKey, reply.token)]
      ensures outcome.Failure? ==> storage.log == old(storage.log)
    {
      outcome, loadingWhilePending := Authenticate(reply, decoded);
    }

    /** `login(email, password)`; the credentials only reach the service,
        whose reply is `reply`. */
    method Login(reply: AuthReply, decoded: Decoded) returns (outcome: Outcome, ghost loadingWhilePending: bool)
      modifies this, storage
      ensures Snapshot() == AuthState.Authenticate(old(Snapshot()), reply, decoded).state
      ensures outcome == AuthState.Authenticate(old(Snapshot()), reply, decoded).outcome
      ensures loadingWhilePending
      ensures outcome.Success? ==> storage.log == old(storage.log) + [Wrote(UserKey, Stringify(user)), Wrote(TokenKey, reply.token)]
      ensures outcome.Failure? ==> storage.log == old(storage.log)
    {
      outcome, loadingWhilePending := Authenticate(reply, decoded);
    }

    /** `checkAuth`: read the token, then the user; restore both when both
        are truthy; a parse that throws skips the restore; in every case the
        initial check ends. */
    method CheckAuth(parse: Parser)
      modifies this
      ensures Snapshot() == AuthState.CheckAuth(old(Snapshot()), parse)
      ensures unchanged(storage)
    {
      var storedToken := storage.GetItem(TokenKey);
      var userJson := storage.GetItem(UserKey);
      var parsed: Option<JsValue> :=
        if userJson.Some? && userJson.value != "" then parse(userJson.value) else Some(Null);
      if parsed.Some? && TokenTruthy(storedToken) && Truthy(parsed.value) {
        token, user := storedToken, parsed.value;
      }
      isCheckingAuth := false;
    }

    /** `logout`: remove the user key, then the token key, then clear both
        fields. */
    method Logout()
      modifies this, storage
      ensures Snapshot() == AuthState.Logout(old(Snapshot()))
      ensures storage.log == old(storage.log) + [Removed(UserKey), Removed(TokenKey)]
    {
      storage.RemoveItem(UserKey);
      storage.RemoveItem(TokenKey);
      user, token := Null, None;
    }
  }
}
