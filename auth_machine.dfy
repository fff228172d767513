/** The authentication session of `AuthProvider` as a pure state machine:
    the `user` and `loading` cells, whether the store listener has been
    registered, and the store they read. `AuthContext.AuthProvider` is proved
    to move along these transitions. */
module AuthMachine {
  import opened Common

  datatype Machine = Machine(user: Option<UserRecord>, loading: bool, subscribed: bool, store: StoreState)

  /** What the provider shows before its mount effect has run. */
  function Initial(store: StoreState): (m: Machine)
    ensures m.loading && !m.subscribed && m.user == None
  {
    Machine(None, true, false, store)
  }

  /** `isAuthenticated: !!user`. */
  predicate IsAuthenticated(m: Machine) {
    m.user.Some?
  }

  /** The user `checkUser` reads from a store: the model when the token is
      valid, nothing when it is not or when reading throws. */
  function StoreUser(s: StoreState): (u: Option<UserRecord>)
    ensures u.Some? <==> !s.readFails && s.isValid && s.model.Some?
    ensures u.Some? ==> s.model == u
  {
    if s.readFails then None else if s.isValid then s.model else None
  }

  function CheckUser(m: Machine): (m': Machine)
    ensures m'.user == StoreUser(m.store) && !m'.loading
    ensures m'.subscribed == m.subscribed && m'.store == m.store
  {
    m.(user := StoreUser(m.store), loading := false)
  }

  /** A store change notification: `checkUser` once the listener exists. */
  function Notify(m: Machine): (m': Machine)
    ensures m'.store == m.store && m'.subscribed == m.subscribed
    ensures m.subscribed ==> m' == CheckUser(m)
    ensures !m.subscribed ==> m' == m
  {
    if m.subscribed then CheckUser(m) else m
  }

  /** The mount effect: one `checkUser`, then the `onChange` registration. */
  function Mount(m: Machine): (m': Machine)
    ensures !m'.loading && m'.subscribed && m'.user == StoreUser(m.store) && m'.store == m.store
  {
    CheckUser(m).(subscribed := true)
  }

  /** `login`: a success saves the session (its notification runs first) and
      then sets `user` to the returned record; a failure changes nothing. */
  function Login(m: Machine, response: AuthResponse): (m': Machine)
  {
    match response
    case AuthOk(record) => Notify(m.(store := Saved(m.store, record))).(user := Some(record))
    case AuthFail(_) => m
  }

  /** `register`: the account creation, then the same password auth as
      `login`. A failed creation stops before the auth call. */
  function Register(m: Machine, created: CreateResponse, auth: AuthResponse): (m': Machine)
  {
    if created.CreateFail? then m else Login(m, auth)
  }

  /** `logout`: clear the store (its notification runs), then `user := null`. */
  function Logout(m: Machine): (m': Machine)
  {
    Notify(m.(store := Cleared(m.store))).(user := None)
  }

  /** The value the provider hands to `useAuth()` consumers. */
  datatype ContextValue = ContextValue(user: Option<UserRecord>, loading: bool, isAuthenticated: bool)

  /** The render gate: only the spinner while loading, the context with its
      children otherwise. */
  datatype ProviderView = Spinner | Provide(value: ContextValue)

  function Render(m: Machine): (v: ProviderView)
    ensures v.Spinner? <==> m.loading
    ensures v.Provide? ==> v.value.user == m.user && v.value.isAuthenticated == IsAuthenticated(m) && !v.value.loading
  {
    if m.loading then Spinner else Provide(ContextValue(m.user, m.loading, IsAuthenticated(m)))
  }

  /** The operations the application performs on the session. */
  datatype Op =
    | LoginOp(response: AuthResponse)
    | RegisterOp(created: CreateResponse, auth: AuthResponse)
    | LogoutOp
    | StoreChanged
    | ExternalWrite(written: StoreState)

  /** Whether `op` is a write to the store by someone other than the provider:
      the OAuth flow's save, a token refresh, another tab. */
  predicate IsExternalWrite(op: Op) {
    op.ExternalWrite?
  }

  /** No write in `ops` by another writer leaves the store unreadable. */
  predicate ReadableWrites(ops: seq<Op>) {
    forall i :: 0 <= i < |ops| && IsExternalWrite(ops[i]) ==> !ops[i].written.readFails
  }

  /** The provider observes every write by another writer: either its
      listener is registered or nobody else writes the store. */
  predicate Observed(m: Machine, ops: seq<Op>) {
    m.subscribed || forall i :: 0 <= i < |ops| ==> !IsExternalWrite(ops[i])
  }

  function Step(m: Machine, op: Op): Machine {
    match op
    case LoginOp(r) => Login(m, r)
    case RegisterOp(c, a) => Register(m, c, a)
    case LogoutOp => Logout(m)
    case StoreChanged => Notify(m)
    case ExternalWrite(s) => Notify(m.(store := s))
  }

  /** The machine after the operations `ops`, applied first to last. */
  function Run(m: Machine, ops: seq<Op>): Machine
    decreases |ops|
  {
    if ops == [] then m else Step(Run(m, ops[..|ops| - 1]), ops[|ops| - 1])
  }

  /** Whether an operation decides the session by itself: a successful login
      or registration authenticates, a logout signs out, anything else
      (a failure, a notification) decides nothing; a write by another writer
      decides by the user the new store holds. */
  function Terminal(op: Op): (t: Option<bool>)
    ensures op.LogoutOp? ==> t == Some(false)
    ensures op.StoreChanged? ==> t == None
    ensures op.ExternalWrite? ==> t == Some(StoreUser(op.written).Some?)
  {
    match op
    case LoginOp(r) => if r.AuthOk? then Some(true) else None
    case RegisterOp(c, a) => if c.Created? && a.AuthOk? then Some(true) else None
    case LogoutOp => Some(false)
    case StoreChanged => None
    case ExternalWrite(s) => Some(StoreUser(s).Some?)
  }

  /** The verdict of the last terminal operation of `ops`, if there is one. */
  function LastTerminal(ops: seq<Op>): Option<bool>
    decreases |ops|
  {
    if ops == [] then None
    else if Terminal(ops[|ops| - 1]).Some? then Terminal(ops[|ops| - 1])
    else LastTerminal(ops[..|ops| - 1])
  }

  /** The user cell agrees with the store whenever the store can be read. */
  predicate Synced(m: Machine) {
    !m.store.readFails ==> m.user == StoreUser(m.store)
  }

  /** A successful login stores and publishes the returned record; a failed
      one leaves user, loading and store as they were. */
  lemma LoginOutcome(m: Machine, response: AuthResponse)
    ensures response.AuthOk? ==>
      Login(m, response).user == Some(response.record) && IsAuthenticated(Login(m, response)) &&
      Login(m, response).store == Saved(m.store, response.record)
    ensures response.AuthFail? ==> Login(m, response) == m
  {
  }

  /** Registration authenticates only when both remote steps succeed, and
      then ends exactly where a login with the same answer would; in every
      other case, including a created account whose auth failed, nothing
      changes. */
  lemma RegisterOutcome(m: Machine, created: CreateResponse, auth: AuthResponse)
    ensures IsAuthenticated(Register(m, created, auth)) && !IsAuthenticated(m) ==> created.Created? && auth.AuthOk?
    ensures created.Created? && auth.AuthOk? ==> Register(m, created, auth) == Login(m, auth)
    ensures created.CreateFail? || auth.AuthFail? ==> Register(m, created, auth) == m
  {
  }

  /** Logout signs out and invalidates the store from any state. */
  lemma LogoutOutcome(m: Machine)
    ensures !IsAuthenticated(Logout(m))
    ensures !Logout(m).store.isValid && Logout(m).store.model == None
    ensures Logout(m).subscribed == m.subscribed && (Logout(m).loading ==> m.loading)
  {
  }

  /** Prefixes inherit the conditions on the operations. */
  lemma PrefixConditions(m: Machine, ops: seq<Op>, k: nat)
    requires k <= |ops|
    ensures ReadableWrites(ops) ==> ReadableWrites(ops[..k])
    ensures Observed(m, ops) ==> Observed(m, ops[..k])
  {
    assert forall i :: 0 <= i < k ==> ops[..k][i] == ops[i];
  }

  /** After any sequence of operations, `isAuthenticated` is the verdict of
      the last successful login/registration, logout or write by another
      writer; with none of them it is whatever held initially. This needs a
      session that started in agreement with a readable store, outside
      writes that the provider observes and that leave the store readable. */
  lemma {:induction false} LastTerminalDecides(m: Machine, ops: seq<Op>)
    requires Synced(m) && !m.store.readFails
    requires Observed(m, ops) && ReadableWrites(ops)
    ensures Synced(Run(m, ops)) && !Run(m, ops).store.readFails
    ensures Run(m, ops).subscribed == m.subscribed
    ensures IsAuthenticated(Run(m, ops)) ==
      (match LastTerminal(ops) case Some(b) => b case None => IsAuthenticated(m))
    decreases |ops|
  {
    if ops != [] {
      var prefix := ops[..|ops| - 1];
      PrefixConditions(m, ops, |ops| - 1);
      LastTerminalDecides(m, prefix);
      var before := Run(m, prefix);
      var op := ops[|ops| - 1];
      match op
      case LoginOp(r) => LoginOutcome(before, r);
      case RegisterOp(c, a) => RegisterOutcome(before, c, a); LoginOutcome(before, a);
      case LogoutOp => LogoutOutcome(before);
      case StoreChanged =>
      case ExternalWrite(s) => assert IsExternalWrite(ops[|ops| - 1]);
    }
  }

  /** Every operation keeps the user cell in agreement with the store, as
      long as the provider observes the writes of other writers. Only those
      writes can make the store unreadable. */
  lemma {:induction false} RunKeepsSynced(m: Machine, ops: seq<Op>)
    requires Synced(m) && Observed(m, ops)
    ensures Synced(Run(m, ops)) && Run(m, ops).subscribed == m.subscribed
    ensures (forall i :: 0 <= i < |ops| ==> !IsExternalWrite(ops[i])) ==>
      Run(m, ops).store.readFails == m.store.readFails
    decreases |ops|
  {
    if ops != [] {
      PrefixConditions(m, ops, |ops| - 1);
      RunKeepsSynced(m, ops[..|ops| - 1]);
      if ops[|ops| - 1].ExternalWrite? {
        assert IsExternalWrite(ops[|ops| - 1]);
      }
    }
  }

  /** After the mount effect nothing sets `loading` again, and the listener
      stays registered, so every later store change is observed. */
  lemma {:induction false} MountedStaysLoaded(m: Machine, ops: seq<Op>)
    ensures !Run(Mount(m), ops).loading && Run(Mount(m), ops).subscribed
    decreases |ops|
  {
    if ops != [] {
      MountedStaysLoaded(m, ops[..|ops| - 1]);
    }
  }

  /** After mounting, the user cell agrees with the store. */
  lemma MountSyncs(m: Machine)
    ensures Synced(Mount(m))
  {
  }
}
