/** Values shared by every component of the front end: the user record held
    in the session, the opaque effects (toasts, router navigation) and the
    outcomes of the remote PocketBase calls, which the model receives as
    parameters instead of performing network I/O. */
module Common {

  datatype Option<+T> = None | Some(value: T)

  /** The cached copy of a `users` record; only `id` is read by the core. */
  datatype UserRecord = UserRecord(id: string, email: string)

  /** A toast notification, recorded as an effect. */
  datatype Toast = Toast(destructive: bool, title: string, description: string)

  /** A router effect: `router.push(path)` or `router.refresh()`. */
  datatype Navigation = Push(path: string) | Refresh

  /** Outcome of `authWithPassword`: the auth record, or an error whose
      `message` is the empty string when the error carries none. */
  datatype AuthResponse = AuthOk(record: UserRecord) | AuthFail(message: string)

  /** Outcome of `collection(name).create(data)`. */
  datatype CreateResponse = Created | CreateFail(message: string)

  /** A request sent to the backend, kept in the client's call log. */
  datatype RemoteCall =
    | Create(collection: string, data: map<string, string>)
    | AuthWithPassword(email: string, password: string)

  /** JavaScript's `error?.message || fallback`: an absent or empty message
      is falsy and gives way to the fallback text. */
  function ErrorText(message: string, fallback: string): (r: string)
    ensures message != "" ==> r == message
    ensures message == "" ==> r == fallback
  {
    if message != "" then message else fallback
  }

  /** The observable state of the SDK's `authStore`. `readFails` stands for a
      store whose `isValid`/`model` getters throw. */
  datatype StoreState = StoreState(isValid: bool, model: Option<UserRecord>, readFails: bool)

  /** The store after the SDK saves a fresh token with `record`. */
  function Saved(s: StoreState, record: UserRecord): (t: StoreState)
    ensures t.isValid && t.model == Some(record) && t.readFails == s.readFails
  {
    s.(isValid := true, model := Some(record))
  }

  /** The store after `authStore.clear()`: no token, no model. */
  function Cleared(s: StoreState): (t: StoreState)
    ensures !t.isValid && t.model == None && t.readFails == s.readFails
  {
    s.(isValid := false, model := None)
  }
}
