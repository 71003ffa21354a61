# fleettrack client logic, modelled in Dafny

fleettrack is a single-page front end for managing a fleet of drivers. This
project models the pieces of logic inside its views and states what they
guarantee:

- **the driver-registration sheet**: a three-step wizard. It holds a form
  record and an error map. A per-step validator checks required fields and an
  unanchored e-mail pattern `\S+@\S+\.\S+`, a Brazilian phone formatter
  shapes the phone field, and a submit resets the whole wizard
  (`DriverRegister`, class `DriverRegisterForm`);
- **the trips page**: the case-insensitive search and status filter, the
  status→label and status→colour mappings, and the hint shown when nothing
  is listed (`Trips`);
- **the session store** (`AuthProvider`): user, token, loading flag, error,
  optimistic user and the two `localStorage` keys, with `login`, `logout`,
  `register`, `clearError` and the restore on mount. Each operation is a
  method of the class `AuthContext.AuthProvider`. Each method is proved equal
  to a pure transition on a `Session` snapshot (`AfterLogin`,
  `AfterLogout`, …), and the lemmas state properties of those transitions;
- **the route guards** of `/dashboard` and `/`: use the cached user, else
  ask `refetchMe()`, else redirect to `/sign-in` (`RouteGuards`);
- **the driver badge variant** (`Drivers`) and **the map-token gate** of the
  live-map page (`Maps`, class `MapsView`).

`JsText` models the JavaScript string built-ins these rely on: `trim`, the
classes `\s`/`\S`/`\d`/`\D`, ASCII `toLowerCase`, and `includes`.
`Wrappers` holds `Option`, which stands for `null`.

The backend is not modelled. What a request leads to is an input of the
operation: `LoginOk(user, token)` or `LoginFailed(message)`, `Registered` or
`RegisterFailed(message)`, and `LogoutDelivered` or
`LogoutUnreachable(message)`. What `JSON.parse` gives for the stored user is
an input too: a user object, a falsy value, or a thrown error. What
`refetchMe()` would return is also an input, which may be any user or none.
The requests sent and the routes navigated to are recorded in the session
(`requests`, `navigations`).

Where the design notes and the code differ, the model follows the code:
- the guard of `/` does not send signed-in visitors to the dashboard; it
  renders nothing (`IndexWithUserRendersBlank`);
- `refetchMe` clears nothing in the store, because it is not part of the
  store at all;
- `isLoading` starts out `false`;
- a failed login leaves `user` and `token` as they were and clears only the
  optimistic user;
- a logout whose request cannot be delivered is not swallowed: after the
  cleanup the error is re-thrown to the caller, since `logout` has no
  `catch` (`AfterLogout`'s `thrown`).

## Model

| member | source | states |
|---|---|---|
| JsText.Trim | src/pages/_app/maps.tsx:52 | `trim()` is empty exactly when every character is JavaScript white space; otherwise it starts and ends with a non-space character, and a string without white space at either end is returned unchanged |
| JsText.BlankIsTrimmedEmpty | src/components/driverRegister.tsx:82 | the required-field test `!s.trim()` holds exactly when `s` is empty or all white space |
| JsText.Digits | src/components/driverRegister.tsx:120 | `replace(/\D/g, '')` leaves only ASCII digits, is no longer than its input, and changes nothing in an all-digit string; a single character is kept exactly when it is a digit |
| JsText.DigitsAppend | src/components/driverRegister.tsx:120 | removing the non-digits distributes over concatenation, so with the single-character case it fixes the result as the input's digits in order |
| JsText.LowerChar | src/pages/_app/trips.tsx:121 | an ASCII capital becomes the small letter at the same place in the alphabet; every other character is unchanged |
| JsText.UpperChar | src/pages/_app/trips.tsx:121 | an ASCII small letter becomes the capital at the same place in the alphabet, every other character is unchanged, and lowering undoes it |
| JsText.ToLower | src/pages/_app/trips.tsx:121-123 | `toLowerCase` (ASCII) keeps the length and lowers each letter in place |
| JsText.CaseChangesIgnored | src/pages/_app/trips.tsx:121-123 | upper-casing or lower-casing a string does not change its lowered form |
| JsText.IncludesEmpty | src/pages/_app/trips.tsx:121 | every string includes the empty string |
| DriverRegister.FormData.With | src/components/driverRegister.tsx:113 | `{ ...prev, [field]: value }` sets that field and keeps every other field |
| DriverRegister.EmailShapedIsRegexTest | src/components/driverRegister.tsx:84 | a "shortest match" check holds exactly when some substring is in the language `\S+@\S+\.\S+`, which is what an unanchored `test` means |
| DriverRegister.StepErrors | src/components/driverRegister.tsx:78-97 | step 1 reports a blank name, and a blank e-mail as "obrigatório" or a non-blank one that fails the pattern as "inválido" (never both); step 2 reports a blank phone or vehicle; step 3 a blank location; no other field or step is ever reported |
| DriverRegister.StepErrorsNonEmpty | src/components/driverRegister.tsx:82-95 | every stored error message is non-empty, so it is truthy |
| DriverRegister.StepPassesIff | src/components/driverRegister.tsx:98-99 | the error object is empty exactly when no field of that step is invalid |
| DriverRegister.StepErrorsLocal | src/components/driverRegister.tsx:78-97 | what a step reports depends only on the fields it checks |
| DriverRegister.InitialFormFailsEveryStep | src/components/driverRegister.tsx:44-51 | the initial form fails every step on all of that step's fields, with "E-mail é obrigatório" for the e-mail |
| DriverRegister.PhoneMask | src/components/driverRegister.tsx:122 | the replacement `($1) $2-$3` is 15 characters: the first two digits in parentheses, a space, the next five, a hyphen and the last four |
| DriverRegister.ReplacePhonePattern | src/components/driverRegister.tsx:122 | on a digit string, fewer than 11 digits leave it unchanged; otherwise the first 11 are masked and the rest follow unchanged |
| DriverRegister.FormatPhone | src/components/driverRegister.tsx:119-125 | exactly 11 digits give `(DD) DDDDD-DDDD`; fewer give the digits alone; more give the input unchanged |
| DriverRegister.FormatPhoneKeepsDigits | src/components/driverRegister.tsx:119-125 | the digits of the result are the digits of the input, in every case |
| DriverRegister.FormatPhoneIdempotent | src/components/driverRegister.tsx:119-125 | formatting a formatted value changes nothing |
| DriverRegister.FormatPhoneLayout | src/components/driverRegister.tsx:122 | with 11 digits, the punctuation sits at positions 0, 3, 4 and 10, with the digit groups 2, 5 and 4 between them |
| DriverRegister.DriverRegisterForm.constructor | src/components/driverRegister.tsx:43-52 | the wizard opens at step 1 with the initial form (all fields empty, status "Ativo") and no errors |
| DriverRegister.DriverRegisterForm.ValidateStep | src/components/driverRegister.tsx:78-100 | `errors` is replaced wholesale by that step's errors, and the result is true exactly when there are none; step and form are unchanged |
| DriverRegister.DriverRegisterForm.NextStep | src/components/driverRegister.tsx:102-106 | the current step is validated; the step advances by exactly one iff it passed and the step was below 3, and otherwise stays; it stays within 1..3 |
| DriverRegister.DriverRegisterForm.PrevStep | src/components/driverRegister.tsx:108-110 | the step goes back by one iff it was above 1; it stays within 1..3 |
| DriverRegister.DriverRegisterForm.HandleInputChange | src/components/driverRegister.tsx:112-117 | only the given field takes the new value, and only that field's error is dropped; every other field and error is unchanged |
| DriverRegister.DriverRegisterForm.HandlePhoneChange | src/components/driverRegister.tsx:127-130 | the phone field takes the formatted value and its error is dropped |
| DriverRegister.DriverRegisterForm.HandleSubmit | src/components/driverRegister.tsx:132-149 | only step 3 is validated; on success the sheet is closed and step, form and errors are reset to their initial values; on failure only `errors` changes |
| Trips.MatchesSearch | src/pages/_app/trips.tsx:120-123 | the empty search matches every trip, and a term longer than the driver, the vehicle and the id matches none |
| Trips.MatchesStatus | src/pages/_app/trips.tsx:124-125 | 'all' lets every trip through; any other filter lets through exactly the trips with that status |
| Trips.Keep | src/pages/_app/trips.tsx:126 | with no search and the filter at 'all', every trip is kept |
| Trips.FilteredTrips | src/pages/_app/trips.tsx:119-127 | the filtered list is no longer than the trip list and every trip in it passes the filter |
| Trips.FilteredIsSubsequence | src/pages/_app/trips.tsx:119-127 | the filtered list is the trip list with rows deleted, in the original order |
| Trips.FilteredMembership | src/pages/_app/trips.tsx:120-126 | a trip is listed iff it is in the list, the lowered search term occurs in its lowered driver, vehicle or id, and the status filter is 'all' or its status |
| Trips.FilteredCount | src/pages/_app/trips.tsx:119-127 | a trip that passes is listed as many times as it occurs in the trip list, and one that fails is not listed at all |
| Trips.NoFilterKeepsAll | src/pages/_app/trips.tsx:120-126 | an empty search with the filter at 'all' lists every trip |
| Trips.SearchIgnoresCase | src/pages/_app/trips.tsx:121-123 | two search terms that differ only in ASCII case list the same trips |
| Trips.UpperCaseSearch | src/pages/_app/trips.tsx:121-123 | typing the search in capitals lists the same trips |
| Trips.StatusFilterSelects | src/pages/_app/trips.tsx:124-125 | a filter other than 'all' lists only trips with exactly that status |
| Trips.StatusText | src/pages/_app/trips.tsx:106-117 | completed, in_progress and pending become Concluída, Em Andamento and Pendente; any other status is shown as itself |
| Trips.StatusTextTranslatesKnown | src/pages/_app/trips.tsx:106-117 | a status is shown unchanged exactly when it is not one of the three known ones |
| Trips.StatusColor | src/pages/_app/trips.tsx:93-104 | the colour is one of four class strings, and it is the gray one exactly for the statuses that are not known |
| Trips.StatusColorDistinguishesKnown | src/pages/_app/trips.tsx:93-100 | the three known statuses get three different colours |
| Trips.EmptyState | src/pages/_app/trips.tsx:276-286 | the empty-state card appears exactly when nothing is listed; it says "Tente ajustar os filtros de busca" exactly when a search or status filter is active, and "Comece criando uma nova viagem" exactly when none is |
| Trips.StartCreatingOnlyWhenNoTrips | src/pages/_app/trips.tsx:283-285 | the "Comece criando" hint appears only when there are no trips at all |
| AuthContext.UserJson | src/context/authContext.tsx:106 | the text stored for the user is never empty, so a stored user always passes the truthiness test on the next mount |
| AuthContext.TempUser | src/context/authContext.tsx:88 | the placeholder user has id `temp`, the given name and e-mail, and no role |
| AuthContext.Authenticated | src/context/authContext.tsx:178 | `isAuthenticated` is `!!user`; when user and token are paired it is the same as holding a token |
| AuthContext.InitialSession | src/context/authContext.tsx:49-54 | on mount no user or token is held, and the session is paired and not authenticated |
| AuthContext.AfterLogout | src/context/authContext.tsx:123-135 | whatever the backend does, user, token and optimistic user end up null, both store keys are removed and every other key is kept; a logout request is recorded; error, loading flag and navigation are untouched; the error is re-thrown, with its message, only when the request could not be delivered |
| AuthContext.AfterRestore | src/context/authContext.tsx:58-80 | loading ends, and error and navigation never change. With a key missing or empty, only the loading flag changes. With both keys present: a parsed user becomes user and optimistic user, with the stored token; a falsy parse sets the stored token with no user; a parse that throws ends with no user or token, both keys removed and a logout request sent. The session is paired afterwards exactly when it was before (no restore) or the parse was not falsy |
| AuthContext.AfterLogin | src/context/authContext.tsx:82-121 | on success user and optimistic user are the reply's user, the token is the reply's token, both keys are written, the app goes to /dashboard and the error stays cleared; on failure the error is the backend message and is re-thrown, the optimistic user is null, and user, token, store and navigation are unchanged; loading always ends and the session stays paired |
| AuthContext.AfterRegister | src/context/authContext.tsx:137-169 | a failed registration sets and re-throws the error, sends no login and leaves user, token, store and navigation unchanged; a successful one sends a login with the same e-mail and password, and re-throws exactly when that login fails, with the login's message, which also becomes the error; loading always ends and the session stays paired |
| AuthContext.AfterClearError | src/context/authContext.tsx:171-173 | the error is null and nothing else changes |
| AuthContext.RegisterIsLogin | src/context/authContext.tsx:155-159 | a successful registration ends exactly as `login(email, password)` from the pending state, so a successful login after it leaves the session authenticated |
| AuthContext.LoginSurvivesReload | src/context/authContext.tsx:104-107 | what a successful login stores restores the same user, token and optimistic user on the next mount, unless the token is empty, which is falsy and restores nothing |
| AuthContext.LogoutLeavesNothingToRestore | src/context/authContext.tsx:130-133 | after a logout, the next mount restores no user and no token, whatever the parse gives |
| AuthContext.RunKeepsPaired | src/context/authContext.tsx:66-70 | from any store, every sequence of restore, login, logout, register and clearError keeps user and token set or cleared together, as long as no restore meets a stored user that parses to a falsy value |
| AuthContext.NullStoredUserLeavesTokenWithoutUser | src/context/authContext.tsx:66-69 | with the stored user `null`, the mount restores the token and no user and sends no logout, so the provider is not authenticated while it holds a token |
| AuthContext.LoginScenario | src/context/authContext.tsx:104-107 | a login of a@b.com accepted with token t1 leaves the session authenticated with t1 stored |
| AuthContext.AuthProvider.constructor | src/context/authContext.tsx:48-54 | the provider starts with the initial session over the existing store |
| AuthContext.AuthProvider.IsAuthenticated | src/context/authContext.tsx:178 | in a valid provider, authenticated exactly when a token is held |
| AuthContext.AuthProvider.Logout | src/context/authContext.tsx:123-135 | the provider's new state and the re-thrown error are those of `AfterLogout` |
| AuthContext.AuthProvider.LoadAuthData | src/context/authContext.tsx:58-80 | the new state is that of `AfterRestore` (a token set before `JSON.parse` throws is cleared again by the logout in the catch block); user and token stay paired unless the parse is falsy |
| AuthContext.AuthProvider.Login | src/context/authContext.tsx:82-121 | the new state and the re-thrown error are those of `AfterLogin` |
| AuthContext.AuthProvider.Register | src/context/authContext.tsx:137-169 | the new state and the re-thrown error are those of `AfterRegister` |
| AuthContext.AuthProvider.ClearError | src/context/authContext.tsx:171-173 | the new state is that of `AfterClearError` |
| RouteGuards.BeforeLoad | src/pages/_app/dashboard.tsx:7-12 | `refetchMe` is called iff there is no cached user; the navigation is redirected iff neither the cache nor `refetchMe` yields a user, always to /sign-in; otherwise the route's component renders |
| RouteGuards.DashboardGuard | src/pages/_app/dashboard.tsx:7-13 | the dashboard renders when a user is cached or fetched and the visitor is otherwise redirected to /sign-in; `refetchMe` is called exactly when nothing is cached |
| RouteGuards.IndexGuard | src/pages/index.tsx:3-10 | the blank page renders when a user is cached or fetched and the visitor is otherwise redirected to /sign-in; `refetchMe` is called exactly when nothing is cached |
| RouteGuards.CachedUserSkipsRefetch | src/pages/_app/dashboard.tsx:8-9 | with a cached user nothing `refetchMe` could return changes the outcome, and the dashboard renders |
| RouteGuards.UncachedDecidedByRefetch | src/pages/_app/dashboard.tsx:9-11 | without a cached user the outcome is decided by what `refetchMe` returns alone |
| RouteGuards.IndexWithUserRendersBlank | src/pages/index.tsx:5-10 | `/` with a cached user renders its empty component without calling `refetchMe`, and never redirects a signed-in visitor |
| RouteGuards.IndexSameRuleAsDashboard | src/pages/index.tsx:4-9 | `/` redirects in the same situations as `/dashboard`, to the same place, and calls `refetchMe` in the same situations |
| RouteGuards.GuardAfterSessionChange | src/pages/_app/dashboard.tsx:8-11 | after a logout the dashboard is reached only if `refetchMe` yields a user; after a successful login it is reached without calling it |
| Drivers.StatusVariant | src/pages/_app/drivers.tsx:76-87 | Ativo gives default, Fora de serviço gives outline, every other status (Em pausa included) gives secondary; the result is always one of the three |
| Drivers.FormStatusesVariants | src/components/driverRegister.tsx:370 | of the statuses the registration sheet offers, Ativo gets default, and Em pausa and Indisponível get secondary; none gets outline |
| Maps.MapsView.constructor | src/pages/_app/maps.tsx:21-22 | the page starts with an empty token and the token card shown |
| Maps.MapsView.SetMapboxToken | src/pages/_app/maps.tsx:103 | typing stores the text and leaves the card flag unchanged |
| Maps.MapsView.HandleTokenSubmit | src/pages/_app/maps.tsx:51-56 | after the submit the card is shown iff it was shown before and the token trims to empty; once hidden it stays hidden |
| Maps.MapsView.SubmitDisabled | src/pages/_app/maps.tsx:108 | the "Inicializar Mapa" button is disabled exactly when the token is empty or only white space |

## Left out

- Rendering is not modelled: JSX, class composition, icons, Sheet, Card and Badge components, layouts, the sidebar and header. Neither are the sign-in and sign-up pages, which have no handlers.
- HTTP is not modelled. `fetch`, the axios instance and its interceptor, the mutation wrappers and the react-query hook are replaced by the reply values described above. `fetch` failures, unreadable bodies and non-ok statuses all become one failure carrying the thrown message.
- `JSON.parse` is an input. `JSON.stringify` of a user is written out without escaping quotes inside field values. A parse that yields a truthy value other than a user object (such as `1` or `[]`) is not represented. Every falsy parse result (`null`, `false`, `0`, `""`) is treated as `null`; a cached `false`, `0` or `""` would not be nullish for the guards' `??`, so there the source would redirect without calling `refetchMe`, which the model does not capture.
- RunKeepsPaired: user and token are set and cleared together only when no restore meets a stored user that parses to a falsy value such as `null`. In that case the source restores the token without a user (`NullStoredUserLeavesTokenWithoutUser`). So `Valid()` on `AuthProvider` is kept by every method except `LoadAuthData` in that case, and it is not a class invariant.
- An ok login reply always carries a user and a token string. A reply without a `token` field would reach `setToken(undefined)` with the user already set, and would store the text `undefined`. That case is not modelled.
- The fields `token`, `createdAt` and `updatedAt` of `IUser` are not modelled; the client never reads them.
- React scheduling is not modelled. Each operation runs atomically: the loading flag and temporary optimistic user that are visible while a request is in flight are written by the methods but do not appear in any final state. `useOptimistic` reverting to `user`, batched updates, races between concurrent `login` and `logout`, and `Promise.all` over `localStorage` are not modelled.
- When `JSON.parse` fails during the restore, the logout it triggers may reject; that rejection escapes `loadAuthData` unhandled and has no effect on the state, so it is not reported.
- The mount-time restore runs once in the source; the model can apply it at any point.
- Navigation is recorded as a list of target paths. The router, `useNavigate`, route generation and provider wiring are not modelled.
- The session store's value (src/context/authContext.tsx:175-186) has no `refetchMe` member. In the program as written, a guard with no cached user therefore fails with a `TypeError` at dashboard.tsx:9 and index.tsx:6 instead of redirecting. The guards here are those of a store that provides `refetchMe`, and what it returns is an input. The public-only redirect of the sign-in routes is not part of this model either.
- `progressValue` (floating point, `Math.round`) and the `toFixed` coordinates on the map page are not modelled.
- `toLowerCase` is restricted to ASCII letters. Unicode case folding is not modelled, so accented capitals in a search are not lowered.
- `console.log` and `console.error` are dropped. The mock arrays of trips, drivers and map pins are data, not logic.
- `errors[field] = undefined` is modelled as removing the key. Nothing counts the keys of the stored error object, so this is indistinguishable.
- `onOpenChange(false)` is modelled as the sheet's `open` flag becoming false; the parent's handling of it is not modelled.
