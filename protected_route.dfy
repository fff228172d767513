/** `ProtectedRoute`: a client-side guard that checks the store once and then
    shows its children, nothing, or (before the check) a spinner. */
module ProtectedRoute {
  import opened Common
  import opened PocketBase

  const AuthRequired := Toast(true, "Authentication Required", "Please login to access this page")

  datatype GuardView = Spinner | Nothing | Children

  /** The render selection on the two state cells. */
  function Select(isLoading: bool, isAuthenticated: bool): (v: GuardView)
    ensures v == Spinner <==> isLoading
    ensures v == Children <==> !isLoading && isAuthenticated
  {
    if isLoading then Spinner
    else if !isAuthenticated then Nothing
    else Children
  }

  class ProtectedRoute {
    var isAuthenticated: bool
    var isLoading: bool
    var navigations: seq<Navigation>
    var toasts: seq<Toast>
    const client: Client

    /** `useState(false)` for the verdict, `useState(true)` for loading. */
    constructor (client: Client)
      ensures this.client == client
      ensures isLoading && !isAuthenticated && View() == Spinner
      ensures navigations == [] && toasts == []
    {
      this.client := client;
      isAuthenticated := false;
      isLoading := true;
      navigations := [];
      toasts := [];
    }

    function View(): GuardView
      reads this
    {
      Select(isLoading, isAuthenticated)
    }

    /** `checkAuth()`, run by the mount effect. An invalid store sends the
        visitor to the login page and keeps the children hidden; a valid one
        grants access without navigating; loading ends either way. A store
        whose getter throws aborts the check before any state is set. */
    method CheckAuth() returns (threw: bool)
      modifies this
      ensures threw == client.authStore.readFails
      ensures threw ==> isAuthenticated == old(isAuthenticated) && isLoading == old(isLoading) &&
                        navigations == old(navigations) && toasts == old(toasts)
      ensures !threw ==> !isLoading
      ensures !threw && !client.authStore.isValid ==>
        isAuthenticated == old(isAuthenticated) &&
        navigations == old(navigations) + [Push("/login")] && toasts == old(toasts) + [AuthRequired]
      ensures !threw && client.authStore.isValid ==>
        isAuthenticated && navigations == old(navigations) && toasts == old(toasts)
    {
      if client.authStore.readFails {
        return true;
      }
      threw := false;
      var isValid := client.authStore.isValid;
      if !isValid {
        toasts := toasts + [AuthRequired];
        navigations := navigations + [Push("/login")];
      } else {
        isAuthenticated := true;
      }
      isLoading := false;
    }
  }

  /** On a freshly mounted guard, once the check has run the children are
      shown exactly when the store was valid at check time, and the only
      navigation is the redirect of a denied visit. */
  method MountGuard(client: Client) returns (guard: ProtectedRoute, threw: bool)
    ensures fresh(guard) && guard.client == client
    ensures threw == client.authStore.readFails
    ensures threw ==> guard.View() == Spinner
    ensures !threw ==> guard.View() == (if client.authStore.isValid then Children else Nothing)
    ensures !threw ==> guard.navigations == (if client.authStore.isValid then [] else [Push("/login")])
  {
    guard := new ProtectedRoute(client);
    threw := guard.CheckAuth();
  }
}
