/** `AuthProvider`: the `user` and `loading` state cells, updated step by step
    by `checkUser`, `login`, `register` and `logout`, with the toasts and
    router pushes they emit recorded as effect logs. Each method is proved to
    follow the matching transition of `AuthMachine`. */
module AuthContext {
  import opened Common
  import opened PocketBase
  import AuthMachine

  const WelcomeBack := Toast(false, "Welcome Back", "you have login in successfully")
  const Welcome := Toast(false, "Welcome!", "Your account has been created successfully")
  const LoggedOut := Toast(false, "Success", "you have logout successfully")

  function LoginError(message: string): Toast {
    Toast(true, "Error", ErrorText(message, "Failed to login"))
  }

  function RegistrationError(message: string): Toast {
    Toast(true, "Registration Error", ErrorText(message, "Failed to create account"))
  }

  /** The record `register` sends to `collection("users").create`. */
  function SignUpData(email: string, password: string, passwordConfirm: string): (d: map<string, string>)
    ensures d.Keys == {"email", "password", "passwordConfirm"}
    ensures d["email"] == email && d["password"] == password && d["passwordConfirm"] == passwordConfirm
  {
    map["email" := email, "password" := password, "passwordConfirm" := passwordConfirm]
  }

  class AuthProvider {
    var user: Option<UserRecord>
    var loading: bool
    var subscribed: bool
    var navigations: seq<Navigation>
    var toasts: seq<Toast>
    const client: Client

    /** The session together with the store it reads. */
    function Session(): AuthMachine.Machine
      reads this, client, client.authStore
    {
      AuthMachine.Machine(user, loading, subscribed, client.authStore.State())
    }

    /** `useState(null)`, `useState(true)`; the mount effect has not run. */
    constructor (client: Client)
      ensures this.client == client
      ensures Session() == AuthMachine.Initial(client.authStore.State())
      ensures navigations == [] && toasts == []
    {
      this.client := client;
      user := None;
      loading := true;
      subscribed := false;
      navigations := [];
      toasts := [];
    }

    /** `checkUser`: publish the store's model when valid, `null` when not
        or when reading throws; loading ends on every path. */
    method CheckUser()
      modifies this
      ensures Session() == AuthMachine.CheckUser(old(Session()))
      ensures user == (if client.authStore.readFails || !client.authStore.isValid then None else client.authStore.model)
      ensures !loading
      ensures navigations == old(navigations) && toasts == old(toasts)
    {
      if client.authStore.readFails {
        user := None;
      } else {
        var isValid := client.authStore.isValid;
        var model := client.authStore.model;
        user := if isValid then model else None;
      }
      loading := false;
    }

    /** The `useEffect` on mount: one `checkUser`, then the `onChange`
        listener is registered. */
    method Mount()
      modifies this
      ensures Session() == AuthMachine.Mount(old(Session()))
      ensures navigations == old(navigations) && toasts == old(toasts)
    {
      CheckUser();
      subscribed := true;
    }

    /** The `onChange` listener firing: `checkUser` once it is registered. */
    method OnStoreChange()
      modifies this
      ensures Session() == AuthMachine.Notify(old(Session()))
      ensures navigations == old(navigations) && toasts == old(toasts)
    {
      if subscribed {
        CheckUser();
      }
    }

    /** `login(email, password)` answered by `response`. */
    method Login(email: string, password: string, response: AuthResponse) returns (ok: bool)
      modifies this, client, client.authStore
      ensures ok == response.AuthOk?
      ensures Session() == AuthMachine.Login(old(Session()), response)
      ensures ok ==> user == Some(response.record)
      ensures !ok ==> user == old(user) && loading == old(loading)
      ensures client.calls == old(client.calls) + [AuthWithPassword(email, password)]
      ensures navigations == old(navigations) + (if ok then [Push("/dashboard")] else [])
      ensures toasts == old(toasts) + [if ok then WelcomeBack else LoginError(response.message)]
    {
      client.AuthenticateWithPassword(email, password, response);
      match response
      case AuthOk(record) =>
        OnStoreChange();
        user := Some(record);
        toasts := toasts + [WelcomeBack];
        navigations := navigations + [Push("/dashboard")];
        ok := true;
      case AuthFail(message) =>
        toasts := toasts + [LoginError(message)];
        ok := false;
    }

    /** `register(email, password, passwordConfirm)`: the account creation
        answered by `created`, then, only if it succeeded, the password auth
        answered by `auth`. */
    method Register(email: string, password: string, passwordConfirm: string,
                    created: CreateResponse, auth: AuthResponse) returns (ok: bool)
      modifies this, client, client.authStore
      ensures ok == (created.Created? && auth.AuthOk?)
      ensures Session() == AuthMachine.Register(old(Session()), created, auth)
      ensures ok ==> user == Some(auth.record)
      ensures !ok ==> user == old(user) && loading == old(loading) &&
                      client.authStore.State() == old(client.authStore.State())
      ensures client.calls == old(client.calls) + [Create("users", SignUpData(email, password, passwordConfirm))] +
                              (if created.Created? then [AuthWithPassword(email, password)] else [])
      ensures navigations == old(navigations) + (if ok then [Push("/dashboard")] else [])
      ensures toasts == old(toasts) +
        [if ok then Welcome
         else if created.CreateFail? then RegistrationError(created.message)
         else RegistrationError(auth.message)]
    {
      client.CreateRecord("users", SignUpData(email, password, passwordConfirm));
      if created.CreateFail? {
        toasts := toasts + [RegistrationError(created.message)];
        return false;
      }
      client.AuthenticateWithPassword(email, password, auth);
      match auth
      case AuthOk(record) =>
        OnStoreChange();
        user := Some(record);
        toasts := toasts + [Welcome];
        navigations := navigations + [Push("/dashboard")];
        ok := true;
      case AuthFail(message) =>
        toasts := toasts + [RegistrationError(message)];
        ok := false;
    }

    /** `logout()`: clear the store, `user := null`, go to the home page,
        whatever the prior state. */
    method Logout()
      modifies this, client.authStore
      ensures Session() == AuthMachine.Logout(old(Session()))
      ensures user == None && !client.authStore.isValid && client.authStore.model == None
      ensures navigations == old(navigations) + [Push("/")]
      ensures toasts == old(toasts) + [LoggedOut]
    {
      client.authStore.Clear();
      OnStoreChange();
      user := None;
      toasts := toasts + [LoggedOut];
      navigations := navigations + [Push("/")];
    }

    /** What `AuthProvider` renders now. */
    function View(): (v: AuthMachine.ProviderView)
      reads this, client, client.authStore
      ensures v.Spinner? <==> loading
      ensures v.Provide? ==> v.value.user == user && v.value.isAuthenticated == user.Some?
    {
      AuthMachine.Render(Session())
    }
  }
}
