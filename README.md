# Bookworm session store and root-layout redirect, in Dafny

This project models the session core of the Bookworm mobile client. That core has two parts.

The first is the auth store (`store/authStore.ts`). It holds four in-memory fields: `user`, `token`, `isLoading` and `isCheckingAuth`. It persists the user and the token in a key-value store under the keys `"user"` and `"token"`. Its four actions are `register`, `login`, `checkAuth` and `logout`.

The second is the root layout's gate and redirect rule (`app/_layout.tsx`). Nothing is routed until the initial auth check has finished and the fonts are loaded. After that, a signed-out user outside the `(auth)` group is sent to `/(auth)`, and a signed-in user inside it is sent to `/(tabs)`.

Files:

- `auth_state.dfy`, module `AuthState`: the session as values. There is one function per action giving the state and result after it, and lemmas over any run of actions.
- `auth_store.dfy`, module `AuthStore`: the store as the source has it. `register` and `login` repeat the same body in the source. Here that body is written once, as the method `AuthStore.Authenticate`, and `Register` and `Login` call it. `AuthStore` is a class whose methods assign its fields one `set` at a time. `PersistentStorage` is a class for the key-value store, with a ghost log of the writes it received. Each method is proved to end in the state that the matching `AuthState` function gives.
- `layout.dfy`, module `Layout`: the redirect decision, the placeholder rule, and a `RootLayout` class holding the `isReady` flag.

Inputs taken as parameters:

- The auth service's reply (`AuthReply`: `Error(msg)` or `Ok(token)`).
- The outcome of `jwtDecode` on the reply's token (`Decoded`). `jwtDecode` only decodes the payload and does not validate the signature, unlike the validation in section 7.2 of RFC 7519.
- `JSON.parse` (`Parser`). `None` stands for a parse that throws.
- Whether the fonts are loaded, and the current route segments.
- Where `router.replace` lands (`Layout.Landing`): the first route segment becomes `(auth)` after `/(auth)` and `(tabs)` after `/(tabs)`. The router itself is not part of this model, and `Layout.RedirectSettles` rests on this.

Each `await` is one sequential step. The key-value store never fails.

Three behaviours of the code worth noting:

- `checkAuth` restores the session only when the stored token and the parsed user are both *truthy*, not merely present.
- When they are not, `checkAuth` leaves `user` and `token` as they were. It does not clear them to "not logged in".
- A successful `register`/`login` does not guarantee a signed-in session. If the token's `user` claim is `null` (or another falsy value), a token is set without a truthy user (`Layout.SuccessWithNullUserIsSignedOut`).

## Model

| member | source | states |
|---|---|---|
| AuthState.Authenticate | store/authStore.ts:67-86 | Fails exactly when the service or the decoder fails, with its message. On failure, user, token and storage are unchanged. On success, user and token are the decoded user and the raw token, `"user"` holds the stringified user and `"token"` the token, and all other keys are unchanged. `isLoading` is false afterwards on both paths. `isCheckingAuth` is untouched. |
| AuthState.BeginAuth | store/authStore.ts:68 | The first step of `register`/`login` raises `isLoading` and changes nothing else. |
| AuthState.CheckAuth | store/authStore.ts:52-65 | Storage and `isLoading` are unchanged. `isCheckingAuth` is false afterwards. Token and user are taken from storage when the stored token is non-empty and the stored user text is non-empty, parses and is truthy. Otherwise both are left as they were, including when the parse throws. |
| AuthState.Logout | store/authStore.ts:88-92 | Removes exactly the keys `"user"` and `"token"` and keeps every other entry. Sets user to null and token to null. Leaves both flags untouched. |
| AuthState.Stringify | store/authStore.ts:41 | `JSON.stringify` of the user keeps truthiness: the text is one of the falsy JSON texts exactly when the value is falsy. |
| AuthState.CheckingAuthNeverResumes | store/authStore.ts:24-94 | Once `isCheckingAuth` is false, no sequence of actions makes it true again. |
| AuthState.CheckAuthEndsTheCheck | store/authStore.ts:60-64 | Any run that contains a `checkAuth` ends with `isCheckingAuth` false. |
| AuthState.FailedAuthsKeepSession | store/authStore.ts:31-50 | Any sequence of failing `register`/`login` calls leaves user, token, storage and `isCheckingAuth` as they were. A non-empty one leaves `isLoading` false. |
| AuthState.LogoutIdempotent | store/authStore.ts:88-92 | Logging out twice gives the same state as logging out once. |
| AuthState.LogoutThenCheckAuthSignedOut | store/authStore.ts:52-92 | `logout` followed by `checkAuth` leaves no user and no token, whatever the state before and whatever the parser. |
| AuthState.SessionSurvivesRestart | store/authStore.ts:39-59 | After a successful `register`/`login` whose user is truthy and whose token is non-empty, a fresh store runs `checkAuth` over the same storage. If `JSON.parse` inverts `JSON.stringify` on that user, it restores the same user and token. |
| AuthStore.PersistentStorage.GetItem | store/authStore.ts:54-55 | Returns the stored value when the key is present and nothing when it is absent. |
| AuthStore.PersistentStorage.SetItem | store/authStore.ts:41-42 | Writes exactly the given key and logs the write. |
| AuthStore.PersistentStorage.RemoveItem | store/authStore.ts:89-90 | Removes exactly the given key and logs the removal. |
| AuthStore.AuthStore.constructor | store/authStore.ts:24-29 | The initial store has no user, no token and `isLoading` false. `isCheckingAuth` is true. |
| AuthStore.AuthStore.Register | store/authStore.ts:31-50 | Ends in the state and result given by `AuthState.Authenticate`. `isLoading` is true at every await: the service call and, on success, both storage writes. On success, storage receives exactly two writes, the user and then the token. On failure, storage receives none. |
| AuthStore.AuthStore.Login | store/authStore.ts:67-86 | Same contract as `Register`, for the `login` action. |
| AuthStore.AuthStore.CheckAuth | store/authStore.ts:52-65 | Ends in the state given by `AuthState.CheckAuth`. Storage is not touched. |
| AuthStore.AuthStore.Logout | store/authStore.ts:88-92 | Ends in the state given by `AuthState.Logout`. Storage receives exactly two removals, `"user"` and then `"token"`. |
| Layout.Redirect | app/_layout.tsx:59-69 | There is no redirect unless both `isReady` and `fontsLoaded` hold. Redirects to `/(auth)` exactly when signed out and not on an `(auth)` route. Redirects to `/(tabs)` exactly when signed in and on an `(auth)` route. There is no other target. |
| Layout.Landing | app/_layout.tsx:65-67 | The route reached by a redirect is an `(auth)` route exactly when the target is `/(auth)`. |
| Layout.RedirectSettles | app/_layout.tsx:61-68 | Evaluating the rule again on the route a redirect leads to gives no further redirect. |
| Layout.AlreadyWhereItBelongs | app/_layout.tsx:64-68 | Signed in outside `(auth)`, or signed out inside it: no redirect. |
| Layout.Render | app/_layout.tsx:77-90 | The navigator is rendered exactly when both the fonts and `isReady` are in, and the placeholder otherwise. |
| Layout.RedirectOnlyUnderNavigator | app/_layout.tsx:60-77 | Whenever a redirect is issued, the navigator, not the placeholder, is on screen. |
| Layout.SuccessWithNullUserIsSignedOut | app/_layout.tsx:62-65 | A successful `register`/`login` whose payload user is null sets the token, yet the session is not signed in and the layout redirects to `/(auth)`. |
| Layout.RootLayout.constructor | app/_layout.tsx:47 | `isReady` starts false. |
| Layout.RootLayout.Init | app/_layout.tsx:50-56 | After `await checkAuth()`, `isReady` is true and the auth check is over. The store ends in the state given by `AuthState.CheckAuth`. |
| Layout.RootLayout.Navigate | app/_layout.tsx:59-69 | The effect's decision is `Redirect` applied to the current flags, session and route. Any redirect happens only after the auth check has completed and while the navigator is shown. |

## Left out

- The auth service's HTTP calls, in `services/auth.service.ts`, are not part of this model. Their reply is an input. The `login` wrapper turns every failure into `"Invalid Credentials !!"`, and the `register` wrapper passes the message through. Both are just an `Error(msg)` here.
- `AuthState.Authenticate`: a reply whose `error` is the empty string is falsy in JavaScript. The source then decodes the absent token, which fails as well. The model reports the reply's own (empty) message instead of the decoder's.
- `AuthState.Authenticate`: the model's token payload always carries a `user` value, possibly null. For a payload without a `user` claim, `JSON.stringify` yields `undefined`, which is not a string the key-value store can hold. That case is not modelled.
- `AuthState.Authenticate`: the decoder's outcome is an input that does not depend on the token. So the model admits a success with an empty token, which `jwtDecode` would reject. `AuthState.SessionSurvivesRestart` therefore asks for a non-empty token explicitly.
- `JSON.parse(JSON.stringify(decodedData))` is taken to return the payload unchanged. `JSON.parse` on stored text is an abstract parameter. User values are carried as their JSON text.
- The key-value store never fails in the model. The source does not guard the window between the user write and the token write, so the two writes are not atomic there. In the source, a removal that throws in `logout` (which has no `catch`) leaves the in-memory fields uncleared. In `checkAuth`, a read that throws is not modelled. A parse that throws is modelled.
- Overlapping asynchronous actions, such as two logins in flight at once, are not modelled. Each action completes before the next starts. `console.error` logging is not modelled either.
- Rendering, font loading and the splash screen are not modelled. Fonts only enter as the `fontsLoaded` flag. `lib/utils.ts` is not part of this model, because it depends on clocks and locale formatting.
- Feed pagination and merging are not part of this model.
