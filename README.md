# Pandora front end: route gate, session, guard and blog submission

A Dafny model of the decision and state logic of a Next.js front end that
keeps its data in PocketBase:

- **Middleware**: the edge route gate. It is a pure decision over the request path and
  whether the `pb_auth` cookie is present. It runs only for the matcher's paths.
- **PocketBase**: the shared client object. It holds the `authStore` (`isValid`, `model`,
  `save`, `clear`) and a log of the requests sent to the backend. The backend's
  answers are parameters of the model.
- **AuthMachine** and **AuthContext**: `AuthProvider`'s `user` and `loading` cells.
  - `AuthMachine` is a pure two-state (signed in / signed out) machine with lemmas
    over arbitrary sequences of operations.
  - `AuthContext.AuthProvider` is the imperative component. Each of its methods is
    proved to take the matching `AuthMachine` transition and to emit the toasts and
    router pushes the source emits.
- **ProtectedRoute**: the client guard. It checks the store once, then shows a spinner,
  nothing, or its children.
- **BlogSubmission**, **HooksBlogCreate** and **DashboardBlogCreate**: `handleSubmit` of the two
  near-identical `CreateBlogForm` components.
  - `BlogSubmission` holds the shared parts: the required-field guard and the record sent
    to `collection('Blogs').create`.
  - Each form class splits `handleSubmit` at its `await`. `Submit` runs the guard, sets
    loading and issues the create call. `Settle` handles the answer and the `finally`.

Toasts and `router.push`/`router.refresh` are recorded as effect logs (`toasts`, `navigations`).
Remote calls are recorded in `Client.calls`.

Model assumptions about the PocketBase SDK, whose code is not part of this model:
- A successful `authWithPassword` saves the returned record into the `authStore`. The store
  is then valid, with that record as its model.
- `clear()` leaves the store invalid and without a model.
- Both `save` and `clear` fire the `onChange` listeners synchronously.

## Model

| member | source | states |
|---|---|---|
| Common.ErrorText | src/contexts/AuthContext.jsx:59 | `error?.message \|\| fallback`: a non-empty message is shown, an absent or empty one gives the fallback |
| PocketBase.AuthStore.Clear | src/contexts/AuthContext.jsx:159 | after `clear()` the store is invalid and has no model |
| PocketBase.Client.CreateRecord | src/contexts/AuthContext.jsx:43 | a create appends exactly one request to the call log and leaves the store alone |
| PocketBase.Client.AuthenticateWithPassword | src/contexts/AuthContext.jsx:67-69 | one auth request is logged; on success the store holds the returned record, on failure it is unchanged |
| Middleware.IsPublicPath | middleware.js:8 | a path is public exactly when it equals `/login` or `/register`; every public path is a matched path |
| Middleware.HasAuthCookie | middleware.js:11 | only the presence of `pb_auth` in the cookie jar is read, never its value |
| Middleware.Matches | middleware.js:26-34 | the matcher set: `/dashboard`, every path under `/dashboard/`, `/login`, `/register`; every matched path is `/login`, `/register` or begins with `/dashboard` |
| Middleware.Gate | middleware.js:4-24 | redirects exactly when path public-ness equals cookie presence; with the cookie the target is `/dashboard`, without it `/login` |
| Middleware.GateCases | middleware.js:13-23 | the four cases: public with cookie goes to `/dashboard`; non-public without cookie goes to `/login`; the other two pass through |
| Middleware.Route | middleware.js:26-34 | a path outside the matcher (`/dashboard`, its sub-paths, `/login`, `/register`) is never redirected; a matched path gets the gate's answer |
| Middleware.PublicPathsAreExact | middleware.js:8 | no extension of `/login` or `/register` is public: the match is exact, not by prefix |
| Middleware.CookieValueIrrelevant | middleware.js:11 | requests with the same path that agree on whether `pb_auth` is present get the same answer, whatever the cookie values |
| Middleware.NoRedirectLoop | middleware.js:8-23 | following any redirect with the same cookies passes through |
| Middleware.RedirectTargetsAreMatched | middleware.js:26-34 | both redirect targets are matched paths, so the follow-up request reaches the gate |
| AuthMachine.IsAuthenticated | src/contexts/AuthContext.jsx:175 | `isAuthenticated = !!user`: true exactly when the user cell holds a record |
| AuthMachine.Login | src/contexts/AuthContext.jsx:65-86 | a success saves the record (its notification runs first) and then sets `user` to it; a failure is no transition; `LoginOutcome` states the consequences |
| AuthMachine.Register | src/contexts/AuthContext.jsx:35-62 | a failed creation is no transition (and no auth call); a successful one continues as a login with the auth answer; `RegisterOutcome` states the consequences |
| AuthMachine.Logout | src/contexts/AuthContext.jsx:158-166 | clear the store (its notification runs), then `user := null`; `LogoutOutcome` states the consequences |
| AuthMachine.Initial | src/contexts/AuthContext.jsx:11-12 | before mounting: no user, loading, no listener |
| AuthMachine.StoreUser | src/contexts/AuthContext.jsx:25-31 | `checkUser` yields a user exactly when the store is readable, valid and has a model, and then it is that model |
| AuthMachine.CheckUser | src/contexts/AuthContext.jsx:24-33 | the user becomes the store's user and loading ends; listener state and store are untouched |
| AuthMachine.Notify | src/contexts/AuthContext.jsx:19-21 | a store change reruns `checkUser` once the listener is registered, and does nothing before that |
| AuthMachine.Mount | src/contexts/AuthContext.jsx:16-22 | after the mount effect: not loading, subscribed, and the user reflects the store |
| AuthMachine.Render | src/contexts/AuthContext.jsx:168-186 | only the spinner while loading; otherwise the context with `user` and `isAuthenticated == (user != null)` |
| AuthMachine.Terminal | src/contexts/AuthContext.jsx:16-166 | a logout always decides the session (signed out); a bare store notification never does; an outside write decides by the user the new store holds |
| AuthMachine.LoginOutcome | src/contexts/AuthContext.jsx:65-86 | a successful login stores and publishes the returned record; a failed one changes nothing |
| AuthMachine.RegisterOutcome | src/contexts/AuthContext.jsx:35-62 | registration authenticates only if account creation and password auth both succeed, and then equals that login; any failure changes nothing, including a created account whose auth failed |
| AuthMachine.LogoutOutcome | src/contexts/AuthContext.jsx:158-166 | from any state: signed out, store invalid and empty, listener kept, loading never switched on |
| AuthMachine.LastTerminalDecides | src/contexts/AuthContext.jsx:16-166 | for any sequence of logins, registrations, logouts, notifications and observed readable outside writes, from a state in agreement with the store, `isAuthenticated` is the verdict of the last successful login/registration, logout or outside write; the agreement is kept |
| AuthMachine.RunKeepsSynced | src/contexts/AuthContext.jsx:16-166 | every operation sequence whose outside writes the listener observes keeps `user` equal to the store's user whenever the store is readable; without outside writes the store's readability never changes |
| AuthMachine.MountedStaysLoaded | src/contexts/AuthContext.jsx:12-33 | once mounted, no sequence of operations makes `loading` true again or drops the listener |
| AuthMachine.MountSyncs | src/contexts/AuthContext.jsx:16-28 | right after mounting the user agrees with the store |
| AuthContext.SignUpData | src/contexts/AuthContext.jsx:37-41 | the sign-up record has exactly `email`, `password` and `passwordConfirm` |
| AuthContext.AuthProvider.constructor | src/contexts/AuthContext.jsx:11-12 | initial `user = null`, `loading = true`, no effects yet |
| AuthContext.AuthProvider.CheckUser | src/contexts/AuthContext.jsx:24-33 | user is the model when the store is valid, null when it is invalid or its read throws; `loading` ends false |
| AuthContext.AuthProvider.Mount | src/contexts/AuthContext.jsx:16-22 | one `checkUser`, then the listener is registered |
| AuthContext.AuthProvider.OnStoreChange | src/contexts/AuthContext.jsx:19-21 | a change notification reruns `checkUser` |
| AuthContext.AuthProvider.Login | src/contexts/AuthContext.jsx:65-86 | returns true exactly on success and then sets the user and pushes `/dashboard`; on failure it returns false, leaves the user alone, does not navigate, and toasts the message or "Failed to login" |
| AuthContext.AuthProvider.Register | src/contexts/AuthContext.jsx:35-62 | creation, then auth only if creation succeeded; true exactly when both succeed; on any failure user and store are unchanged, nothing navigates, and the failing step's message or "Failed to create account" is toasted |
| AuthContext.AuthProvider.Logout | src/contexts/AuthContext.jsx:158-166 | clears the store, sets user to null whatever the prior state, pushes `/` |
| AuthContext.AuthProvider.View | src/contexts/AuthContext.jsx:178-186 | the spinner exactly while loading, and children get the context otherwise |
| ProtectedRoute.Select | src/components/ProtectedRoute.jsx:35-47 | the spinner exactly while loading; the children exactly when loaded and authenticated; nothing otherwise |
| ProtectedRoute.ProtectedRoute.constructor | src/components/ProtectedRoute.jsx:12-13 | starts loading and not authenticated, so it shows the spinner |
| ProtectedRoute.ProtectedRoute.CheckAuth | src/components/ProtectedRoute.jsx:19-33 | invalid store: toast and push `/login`, still not authenticated; valid store: authenticated, no navigation; loading ends in both branches; a throwing read aborts with no state change |
| ProtectedRoute.MountGuard | src/components/ProtectedRoute.jsx:12-47 | after the mount check the children are shown exactly when the store was valid; the only navigation is `/login` for a denied visit |
| BlogSubmission.Accepts | src/hooks/BlogCreate.js:165 | the negated guard: title, description and editor HTML all present and non-empty; `RejectsExactlyMissingFields` states it both ways |
| BlogSubmission.BlogRecord | src/hooks/BlogCreate.js:177-183 | the record has exactly `title`, `description`, `img` (the image URL), `content` (the editor HTML) and `author` (the user's id) |
| BlogSubmission.RejectsExactlyMissingFields | src/hooks/BlogCreate.js:165-172 | a submit is rejected exactly when the title is empty, the description is empty, or the editor HTML is empty or absent |
| BlogSubmission.ImageUrlIsOptional | src/hooks/BlogCreate.js:165 | the image URL plays no part in acceptance; an empty one is accepted |
| BlogSubmission.BlogRecordIsFaithful | src/app/dashboard/create-blog/components/BlogCreate.js:75-81 | with one author, distinct accepted forms give distinct records: every typed field reaches the record |
| HooksBlogCreate.CreateBlogForm.constructor | src/hooks/BlogCreate.js:71-74 | empty inputs, `loading` false |
| HooksBlogCreate.CreateBlogForm.Edit | src/hooks/BlogCreate.js:213-243 | the input handlers set the fields and touch nothing else |
| HooksBlogCreate.CreateBlogForm.Submit | src/hooks/BlogCreate.js:162-185 | rejection: toast, no call, loading untouched; no signed-in user: error toast, no call, loading back to false; otherwise loading is true and exactly one `Blogs` create carrying `BlogRecord` is pending |
| HooksBlogCreate.CreateBlogForm.Settle | src/hooks/BlogCreate.js:185-203 | success: toast and push `/dashboard` then refresh; failure: the message or "Failed to create blog post", no navigation; loading false in both |
| HooksBlogCreate.CreateBlogForm.HandleSubmit | src/hooks/BlogCreate.js:162-204 | loading ends false on every path; exactly one create call exactly when accepted with a user; navigation only after a successful create |
| DashboardBlogCreate.CreateBlogForm.constructor | src/app/dashboard/create-blog/components/BlogCreate.js:24-27 | empty inputs, `loading` false |
| DashboardBlogCreate.CreateBlogForm.Edit | src/app/dashboard/create-blog/components/BlogCreate.js:111-144 | the input handlers and the editor set the fields and touch nothing else |
| DashboardBlogCreate.CreateBlogForm.Submit | src/app/dashboard/create-blog/components/BlogCreate.js:60-83 | same guard, record and single create call as the hooks form; rejection leaves loading untouched |
| DashboardBlogCreate.CreateBlogForm.Settle | src/app/dashboard/create-blog/components/BlogCreate.js:83-101 | success toasts and navigates to `/dashboard`; failure toasts the error and does not navigate; loading false afterwards |
| DashboardBlogCreate.CreateBlogForm.HandleSubmit | src/app/dashboard/create-blog/components/BlogCreate.js:60-102 | loading reset on every outcome; exactly one create call for an accepted submit with a user |

## Left out

- OAuth sign-in (`authWithOAuth`, src/contexts/AuthContext.jsx:88-156). It is a race between a 500 ms close-poll, the SDK's `onResponse` callback and promise settlement, i.e. event-loop coordination. The code has no hard timeout and no single-flight guard, so neither is modelled. Its save into the store is represented only as an outside write (`AuthMachine.ExternalWrite`), which the provider sees through its listener.
- The Tiptap editor and its toolbar commands (src/hooks/BlogCreate.js:111-160, src/app/dashboard/create-blog/components/RichTextEditor.js). The editor is reduced to the value of `getHTML()`, or `None` while `useEditor` has produced no editor.
- Data-fetching pages, presentation components, animation, layout and the image-host configuration (next.config.mjs). None of them carries a decision.
- Network I/O: every backend answer is a parameter. Toasts and router calls are recorded effects and never act on the model; a pushed path is not fed back into `Middleware.Route`.
- Token expiry. The SDK's `isValid` becomes false when the token expires, without any change notification. Writes by other writers that do notify (the OAuth save, a token refresh, another tab) are the `AuthMachine.ExternalWrite` operation; a silent expiry has no counterpart.
- AuthMachine.LastTerminalDecides: holds only when every outside write leaves the store readable and the listener is registered before any outside write. An unreadable store makes a later notification sign the visitor out whatever the last verdict was.
- The redirect URL is built from `request.url`. The model keeps only its path; the origin is the request's own.
- Middleware.Matches: `/dashboard/:path*` is read as `/dashboard` plus every path beginning with `/dashboard/`. Next.js's own path normalisation is not modelled.
- HooksBlogCreate.CreateBlogForm.Submit: requires `!loading`, because the submit button is `disabled={loading}` (src/hooks/BlogCreate.js:399). Overlapping submissions therefore are not modelled. The same holds for DashboardBlogCreate.CreateBlogForm.Submit (src/app/dashboard/create-blog/components/BlogCreate.js:147).
- HooksBlogCreate.CreateBlogForm.Submit: with no signed-in user, `user.id` throws a `TypeError` inside the `try`. The toast then shows the JavaScript engine's message; the model fixes it to V8's text (`BlogSubmission.NullUserMessage`).
- A store whose getters throw is a flag on the store (`readFails`). `checkUser` catches the throw. `checkAuth` does not, so the model aborts `CheckAuth` with no state change; what React does with the escaped error is not modelled.
- The listener registration is modelled once. React's development double effect, which registers two listeners, is not modelled; both would run the same `checkUser`.
- The session's initial state is computed in the mount effect, with a spinner until then (`loading` starts true).
- A failed registration leaves the session unchanged: a visitor who was signed in stays signed in (`AuthMachine.RegisterOutcome`).
