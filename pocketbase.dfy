/** The PocketBase client as the components see it: one process-wide object
    holding the `authStore` and a log of the requests sent to the backend.
    The backend's answers are parameters; the client records the request and,
    for a successful password auth, saves the session into the store as the
    SDK does. */
module PocketBase {
  import opened Common

  class AuthStore {
    var isValid: bool
    var model: Option<UserRecord>
    var readFails: bool

    constructor (isValid: bool, model: Option<UserRecord>, readFails: bool)
      ensures State() == StoreState(isValid, model, readFails)
    {
      this.isValid := isValid;
      this.model := model;
      this.readFails := readFails;
    }

    function State(): StoreState
      reads this
    {
      StoreState(isValid, model, readFails)
    }

    /** `authStore.save(token, record)` with a token that has not expired. */
    method Save(record: UserRecord)
      modifies this
      ensures State() == Saved(old(State()), record)
    {
      isValid := true;
      model := Some(record);
    }

    /** `authStore.clear()`. */
    method Clear()
      modifies this
      ensures State() == Cleared(old(State()))
    {
      isValid := false;
      model := None;
    }
  }

  class Client {
    const authStore: AuthStore
    var calls: seq<RemoteCall>

    constructor (store: AuthStore)
      ensures authStore == store && calls == []
    {
      authStore := store;
      calls := [];
    }

    /** `collection(name).create(data)`: one request; the store is untouched. */
    method CreateRecord(collection: string, data: map<string, string>)
      modifies this
      ensures calls == old(calls) + [Create(collection, data)]
    {
      calls := calls + [Create(collection, data)];
    }

    /** `collection("users").authWithPassword(email, password)` answered by
        `response`; on success the SDK stores the returned record. */
    method AuthenticateWithPassword(email: string, password: string, response: AuthResponse)
      modifies this, authStore
      ensures calls == old(calls) + [AuthWithPassword(email, password)]
      ensures authStore.State() ==
        (if response.AuthOk? then Saved(old(authStore.State()), response.record)
         else old(authStore.State()))
    {
      calls := calls + [AuthWithPassword(email, password)];
      if response.AuthOk? {
        authStore.Save(response.record);
      }
    }
  }
}
