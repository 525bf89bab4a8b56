# A verified model of the rsnew site's client logic

This project models the logic of a small React single-page site. The site has
a product catalogue, a sortable specification table, a contact form, and
sign-in and registration with a verification code. The model has four parts.

- **The request pipeline** (`src/services/api.ts`). `request` merges the
  request headers and calls the network once. It then checks the reply in a
  fixed order: HTTP status, then a JSON body, then the envelope
  `{ code, message?, data? }`, then `code == 200`, then the caller's payload
  schema. Only a payload that passed every check is returned. The network is an
  input: `Env.fetch` maps a URL and request init to a rejected promise or to a
  response. A response is an ok flag, a status, and a body that is either JSON
  or not. The payload schema is a function parameter (`Validation.Schema`).
- **The services** (`src/services/authService.ts`, `src/services/productService.ts`).
  They turn every request failure into `false` plus an error toast, or into the
  five-entry fallback catalogue. They write the session token to `localStorage`
  only when the request succeeded. `localStorage` is the class
  `Browser.Storage` over a `map<string, string>`. Toasts are returned values.
- **The pages' event handlers** (`Specs.tsx`, `Contact.tsx`, `Register.tsx`,
  `Login.tsx`). Each page's state is a class whose methods are the handlers.
  The specification table is sorted in place on a fresh array copy, by an
  insertion sort proved sorted and a permutation. The contact form's error map
  is built by a loop proved against its specification function. The send-code
  countdown is a counter that each interval firing decrements. As written, the
  registration page's submit handler never reaches the service's `register`,
  because the form library's `register` shadows it (see "## Findings").
- **The auth context, the navigation bar and the shell** (`AuthContext.ts`,
  `Navbar.tsx`, `App.tsx`). The `useAuth` hook serves a guest stub until its
  mount effect has run. After that it serves App's state. The effect signs the
  user in from any non-empty stored token. The model also covers the nav
  links' visibility and the route table.

`Json` and `Validation` are shared foundations. They hold the JSON value type
and the zod-style checks the schemas are built from. Every object schema
reports the issues of all its fields.

`request` falls back to '请求处理失败' whenever the envelope's `message` is
falsy, because it uses `||`. So an empty message is replaced as well as a
missing one (`Api.AppMessage`).

## Model

| member | source | states |
|---|---|---|
| Api.BaseUrl | src/services/api.ts:4 | the base URL is the environment value when it is a non-empty string, otherwise `http://localhost:3001`; never empty |
| Api.Url | src/services/api.ts:34 | the requested URL is the base URL followed by the endpoint, with nothing between |
| Api.AuthorizationHeader | src/services/api.ts:30 | an `Authorization: Bearer <token>` entry exists iff the token is present and non-empty, and nothing else is added |
| Api.MergeHeaders | src/services/api.ts:28-32 | the merged keys are Content-Type, Authorization (when a token is given) and the caller's keys; the caller's value wins on every key it names; Content-Type is `application/json` unless the caller overrides it; no other key appears |
| Api.FetchInitAsWritten | src/services/api.ts:34-37 | as written, a config with its own `headers` field replaces the merged headers entirely; without one the merged headers are sent |
| Api.CallerHeadersDropAuthorization | src/services/api.ts:34-37 | counterexample: a config with a caller header and token `abc` sends neither Authorization nor Content-Type as written, and both under the corrected definition |
| Api.FetchInitFor | src/services/api.ts:28-37 | corrected request init: the headers are exactly `MergeHeaders(config)` (so Content-Type present, caller headers kept, Authorization for a non-empty token), with the caller's method and body |
| Api.AsWrittenAgreesWithoutCallerHeaders | src/services/api.ts:34-37 | the as-written and corrected inits are equal for every config without a `headers` field, which is every config in the repository |
| Api.ParseEnvelope | src/services/api.ts:7-11 | the envelope parses iff the value is an object with a numeric `code` and a `message` that is absent or a string; `data` is passed through as is |
| Api.EnvelopeRoundTrip | src/services/api.ts:7-11 | every envelope survives serialisation and parsing unchanged |
| Api.AppMessage | src/services/api.ts:46-48 | the application error's text is the envelope message when non-empty, otherwise '请求处理失败'; never empty |
| Api.HandleResponse | src/services/api.ts:39-50 | the checks run in order, each stage reached only when the previous passed: a non-ok status fails with that status whatever the body; a non-JSON body; a malformed envelope, with its issues; a code other than 200, with the message; a payload the schema rejects, with its issues; success holds exactly the schema's value for `data` |
| Api.NonOkIgnoresBody | src/services/api.ts:39-41 | a non-ok reply fails identically whatever its body, so the body is never read |
| Api.SuccessEnvelopeYieldsPayload | src/services/api.ts:46-50 | a well-formed reply with code 200 yields exactly what the schema makes of its payload, or the schema's issues |
| Api.ErrorEnvelopeFails | src/services/api.ts:46-48 | a well-formed reply with any other code fails with its message, whatever its payload |
| Api.Request | src/services/api.ts:22-55 | one fetch at `Url(endpoint)` with the corrected init; a rejected fetch fails, a response goes through HandleResponse; every failure reaches the caller unchanged |
| Api.RequestAsWritten | src/services/api.ts:22-55 | the same with the init as written: one fetch at `Url(endpoint)` with `{ headers, ...config }`; a rejected fetch fails, a response goes through HandleResponse |
| Api.RequestAgreesWithoutCallerHeaders | src/services/api.ts:34-37 | for every config without its own `headers`, the request as written and the corrected request give the same result |
| Api.HttpErrorMessageNamesStatus | src/services/api.ts:40 | the HTTP error text is '请求失败: ' followed by the decimal status, from which the status reads back |
| Validation.ParseArray | src/services/productService.ts:13 | an array validates iff every element validates at its index path, giving the elements' values in order |
| Validation.ParseItemsAll | src/services/productService.ts:61 | an array whose every element validates to the matching entry of a list validates to that list |
| AuthService.UserSchemaIssues | src/services/authService.ts:6-11 | `UserSchema` passes iff the email passes the email check, the password has at least 6 characters, the code exactly 6, and the name is absent or at least 2 characters long |
| AuthService.ParseUserInfo | src/services/authService.ts:18-21 | the user object parses iff it has a string email and a name that is absent or a string; the fields are taken over |
| AuthService.ParseAuthResponse | src/services/authService.ts:16-22 | an auth payload is accepted iff it has a string `token` and a `user` with a string `email` and optional string `name`; the token and email are taken over |
| AuthService.AuthResponseRoundTrip | src/services/authService.ts:16-22 | every auth payload survives serialisation and validation unchanged |
| AuthService.ParseSendCodeReply | src/services/authService.ts:27 | the send-code reply is accepted iff it is an object with a boolean `success` |
| AuthService.SendVerificationCode | src/services/authService.ts:25-38 | returns true exactly when the request succeeds; a failure of any kind is false, never an exception |
| AuthService.SendCodeNotice | src/services/authService.ts:31-35 | a success toast exactly when the code was sent, an error toast otherwise |
| AuthService.SendCodeIgnoresSuccessFlag | src/services/authService.ts:27-32 | a reply `{ success: false }` still counts as success: only the payload's shape is checked |
| AuthService.AuthRequestsAsWritten | src/services/authService.ts:25-73 | the send-code, login and register calls pass no `headers`, so each gives the same result as the code is written |
| AuthService.Login | src/services/authService.ts:41-55 | true iff the request succeeds; on success the token is stored under 'authToken' and nothing else changes; on any failure the store is untouched and the same '邮箱或密码错误' toast is shown |
| AuthService.Register | src/services/authService.ts:58-73 | the same contract as Login, with '注册成功' on success and '注册失败' on failure |
| AuthService.LoginAcceptsWellFormedReply | src/services/authService.ts:41-49 | a well-formed auth payload from the backend is exactly the login outcome |
| AuthService.RegisterAcceptsWellFormedReply | src/services/authService.ts:58-66 | a well-formed auth payload from the backend is exactly the registration outcome |
| AuthService.RegisterDoesNotApplyUserSchema | src/services/authService.ts:58-63 | a user that `UserSchema` rejects is still sent and registered when the backend accepts it |
| ProductService.DefaultProductsShape | src/services/productService.ts:19-55 | the fallback catalogue has 5 entries with ids '1' to '5', pairwise distinct, each with a non-empty specs list |
| ProductService.DefaultProductsValidate | src/services/productService.ts:8-55 | the fallback catalogue satisfies the product schema |
| ProductService.ParseProduct | src/services/productService.ts:8-14 | a product parses only from an object with string id, title, image and description and an array of strings `specs`, whose values it takes over, element by element |
| ProductService.ParseProductList | src/services/productService.ts:61 | the catalogue parses iff it is an array whose every element parses as a product at its index path; the products are those elements' values, in order |
| ProductService.ProductRoundTrip | src/services/productService.ts:8-14 | every product survives serialisation and validation unchanged, at any path |
| ProductService.ProductListRoundTrip | src/services/productService.ts:61 | every list of products survives serialisation and validation unchanged |
| ProductService.TokenToSend | src/services/productService.ts:60-63 | a token is passed iff the stored token is present and non-empty, and it is the stored one |
| ProductService.ProductsRequestAsWritten | src/services/productService.ts:58-70 | the catalogue call passes no `headers`, so it gives the same result as the code is written |
| ProductService.GetProducts | src/services/productService.ts:58-70 | the validated catalogue when the request succeeds, the fallback catalogue on every failure; it only reads the store |
| ProductService.ProductsNotice | src/services/productService.ts:66-69 | an error toast exactly when the fallback is served |
| ProductService.ProductsRequestAuthorization | src/services/productService.ts:60-64 | the catalogue request carries `Authorization: Bearer <token>` exactly when the store holds a non-empty token, and always Content-Type |
| ProductService.NetworkFailureServesDefaults | src/services/productService.ts:66-70 | a failed fetch serves the fallback catalogue |
| ProductService.ServedCatalogueIsShown | src/services/productService.ts:61-65 | a well-formed catalogue from the backend is returned exactly |
| Specs.StrLess | src/pages/Specs.tsx:64 | string `<` is irreflexive, and a proper prefix comes before the longer string |
| Specs.StrLessAsymmetric | src/pages/Specs.tsx:64-67 | string `<` is asymmetric |
| Specs.ValuesCompareAsText | src/pages/Specs.tsx:14-50 | values compare as text: '1.2' < '128' < '800' < '95' |
| Specs.Compare | src/pages/Specs.tsx:63-71 | the comparator is -1, 0 or 1; 0 iff neither key is below the other; negative iff the first row's key is below the second's in ascending order, above it in descending order |
| Specs.CompareAntisymmetric | src/pages/Specs.tsx:64-70 | `cmp(a, b) == -cmp(b, a)` |
| Specs.SortedByKeyOrder | src/pages/Specs.tsx:63-71 | in a sorted table, ascending order never puts a row's key below its predecessor's, and descending order never above |
| Specs.SortInPlace | src/pages/Specs.tsx:63 | the array ends sorted by the comparator and is a permutation of what it held |
| Specs.SortedSpecs | src/pages/Specs.tsx:63 | the shown rows are sorted and a permutation of `techSpecs`, which is a constant and is not changed |
| Specs.NextSortConfig | src/pages/Specs.tsx:73-79 | the new key is the clicked one; the direction is descending iff the click was on the current key while ascending |
| Specs.RequestSortTwiceRestores | src/pages/Specs.tsx:73-79 | two clicks on the current key's header restore an ascending configuration |
| Specs.AfterClicksKey | src/pages/Specs.tsx:73-79 | after any clicks the key is the last one clicked |
| Specs.HeaderClicksLeaveIdForGood | src/pages/Specs.tsx:58-61 | no header sorts by id, so after any header click the key is never `id` again and the initial configuration never comes back |
| Specs.SortIndicator | src/pages/Specs.tsx:81-88 | no indicator iff the header's key is not the current key; otherwise the current direction |
| Specs.SpecsPage.constructor | src/pages/Specs.tsx:58-61 | starts sorted by id, ascending |
| Specs.SpecsPage.RequestSort | src/pages/Specs.tsx:73-79 | the configuration becomes `NextSortConfig` of the old one |
| Contact.WithField | src/pages/Contact.tsx:26 | the edited field gets the value and every other field is unchanged |
| Contact.FieldKeyInjective | src/pages/Contact.tsx:25-28 | distinct fields have distinct keys, so clearing one field's error never touches another's |
| Contact.ContactIssues | src/pages/Contact.tsx:8-12 | the form is valid iff the name has at least 2 characters, the email passes the email check and the message has at least 10 characters |
| Contact.InvalidFieldsAreExactlyTheErrorKeys | src/pages/Contact.tsx:8-12 | exactly the failing fields get an error entry |
| Contact.ErrorMapOf | src/pages/Contact.tsx:48-51 | every entry of the error map is the message of some issue filed under that key |
| Contact.ErrorMapKeys | src/pages/Contact.tsx:48-51 | the error map has an entry for exactly the keys of the issues |
| Contact.ErrorMapLastWins | src/pages/Contact.tsx:48-51 | a later issue for the same key overwrites an earlier one: each key holds the message of its last issue |
| Contact.BuildErrorMap | src/pages/Contact.tsx:48-51 | the loop builds `ErrorMapOf` of the issues: exactly the keys of the issues, each with the message of the last issue for it |
| Contact.ContactPage.constructor | src/pages/Contact.tsx:15-22 | starts with three empty fields, no errors, not submitting, no particles |
| Contact.ContactPage.HandleChange | src/pages/Contact.tsx:24-30 | only the named field changes; that field's error is blanked only when it was non-empty; no other error changes |
| Contact.ContactPage.HandleSubmit | src/pages/Contact.tsx:32-58 | a valid form sets `isSubmitting` and waits; an invalid one never sets `isSubmitting`, keeps the form, and replaces the error map with `ErrorMapOf` its issues: keyed by exactly the failing fields, each holding the message of its last issue, with an error toast |
| Contact.ContactPage.FinishSubmit | src/pages/Contact.tsx:39-45 | after the wait the particles show, the form resets to three empty strings, a success toast appears and `isSubmitting` is false |
| Contact.ContactPage.ParticlesTimeout | src/pages/Contact.tsx:45 | the particle timer only turns the particles off |
| Register.RegisterIssues | src/pages/Register.tsx:13-18 | the form passes iff the name has at least 2 characters, the email passes, the password has at least 6 characters and the code exactly 6 |
| Register.CodeNeedNotBeDigits | src/pages/Register.tsx:17 | a six-letter code passes: only the length is checked |
| Register.RegisterFormSatisfiesUserSchema | src/pages/Register.tsx:13-18 | whatever passes the page's schema also passes `UserSchema` |
| Register.TickValue | src/pages/Register.tsx:46-52 | a firing reaches 0 iff the countdown was at most 1 and otherwise decreases it; never negative |
| Register.TicksCount | src/pages/Register.tsx:46-52 | after n firings from s the countdown is `s - n`, or 0 once n reaches s |
| Register.SixtyTicksEndTheCountdown | src/pages/Register.tsx:43-53 | from 60, the countdown is 0 after exactly 60 firings and not before |
| Register.SendButtonEnabled | src/pages/Register.tsx:158 | the button is enabled iff no code was sent or the countdown is 0 |
| Register.ButtonDisabledDuringCountdown | src/pages/Register.tsx:158-165 | after a code is sent the button stays disabled for exactly 60 firings |
| Register.RegisterPage.constructor | src/pages/Register.tsx:23-25 | starts not loading, with no code sent, the countdown at 0 and no interval running |
| Register.RegisterPage.HandleSendCode | src/pages/Register.tsx:35-60 | an empty or missing email only shows a toast: no state change and no request; otherwise `codeSent` is true, the countdown restarts at 60 with a new interval, and the code is requested; `codeSent` stays true when sending fails |
| Register.RegisterPage.Tick | src/pages/Register.tsx:46-52 | the countdown becomes `TickValue` of the old one, and the firing interval stops exactly when it reaches 0 |
| Register.RegisterPage.CanSendCode | src/pages/Register.tsx:158 | the send button on the page's state is enabled exactly as `SendButtonEnabled` says |
| Register.RegisterPage.Submit | src/pages/Register.tsx:62-76 | corrected handler, calling the service `register` imported at line 8: an invalid form sends nothing; a valid one is registered, and only on success is the token stored, the user marked authenticated and sent to '/'; `isLoading` is false afterwards |
| Register.RegisterPage.SubmitAsWritten | src/pages/Register.tsx:62-76 | as written, `register` is react-hook-form's: no request and no store write; if it throws only `isLoading` moves; if it returns, the user is marked authenticated, gets one '注册成功' toast and is sent to '/'; `isLoading` is false afterwards |
| Register.AcceptedRegistrationAsWrittenAndCorrected | src/pages/Register.tsx:65 | for a valid form and a backend that accepts it, the handler as written leaves the store without a token, while the corrected handler stores the backend's token |
| Register.SendAndWait | src/pages/Register.tsx:42-53 | sending a code and letting its interval fire 60 times ends the countdown, stops the interval and enables the button again |
| Login.LoginIssues | src/pages/Login.tsx:13-16 | the form passes iff the email passes the email check and the password has at least 6 characters |
| Login.ShortPasswordReported | src/pages/Login.tsx:15 | a short password is reported under 'password', as the only issue when the email is valid |
| Login.LoginPage.constructor | src/pages/Login.tsx:21 | starts not loading |
| Login.LoginPage.Submit | src/pages/Login.tsx:31-45 | an invalid form sends nothing; a valid one calls `login`; only on success is the user marked authenticated, told '登录成功' and sent to '/'; a failure leaves the auth state unchanged; `isLoading` is false afterwards |
| AuthContext.EffectOutcome | src/context/AuthContext.ts:17-29 | with a non-empty token and a signed-out context, the effect signs in as `user@example.com` / 'QQ用户'; otherwise it changes nothing |
| AuthContext.EffectAuthenticatesAnyToken | src/context/AuthContext.ts:19-21 | any non-empty token signs the user in, unchecked |
| AuthContext.EffectIdempotent | src/context/AuthContext.ts:17-29 | running the effect twice is the same as running it once |
| AuthContext.LogoutUndoneByNextMount | src/App.tsx:18-21 | App's `logout` keeps the token, so the next mount of the hook signs the user straight back in |
| AuthContext.DefaultLogout | src/context/AuthContext.ts:8-10 | the default context's `logout` removes 'authToken' and nothing else |
| AuthContext.AuthHook.constructor | src/context/AuthContext.ts:15 | a new hook is not initialised and sits over the given provider state |
| AuthContext.AuthHook.View | src/context/AuthContext.ts:31-41 | the guest stub (signed out, no user) before initialisation, the provider's state after |
| AuthContext.AuthHook.RunEffect | src/context/AuthContext.ts:17-29 | the provider's state becomes `EffectOutcome` of the stored token and the old state, and the hook is initialised; the store is only read |
| AuthContext.AuthHook.SetIsAuthenticated | src/context/AuthContext.ts:31-41 | a no-op before initialisation, App's setter after |
| AuthContext.AuthHook.SetUser | src/context/AuthContext.ts:31-41 | a no-op before initialisation, App's setter after |
| AuthContext.AuthHook.Logout | src/context/AuthContext.ts:31-41 | a no-op before initialisation, App's `logout` after; the store is untouched either way |
| AuthContext.LogoutThenRemount | src/App.tsx:18-21 | signing out through App and mounting a fresh hook with a token stored leaves the user signed in again |
| Navbar.Visible | src/components/Navbar.tsx:43 | the filter never lengthens the list; VisibleMembers and VisibleKeepsOrder state which items it keeps and in what order |
| Navbar.VisibleMembers | src/components/Navbar.tsx:43 | the filter keeps exactly the visible items |
| Navbar.VisibleKeepsOrder | src/components/Navbar.tsx:43 | the filter keeps the declared order |
| Navbar.VisibleItemsByAuthState | src/components/Navbar.tsx:12-18 | signed in: '/', '/products', '/about'; signed out: those plus '/login' and '/register', in that order |
| Navbar.NavLinksAreRouted | src/components/Navbar.tsx:43-46 | every listed link leads to a routed page |
| Navbar.UserLabel | src/components/Navbar.tsx:69 | '游客' when signed out; the user's name when signed in with a non-empty name; 'QQ用户' otherwise |
| Navbar.LabelTellsSignedInFromGuest | src/components/Navbar.tsx:69 | a signed-in user is labelled as a guest only if that is their name |
| Navbar.DropdownEntries | src/components/Navbar.tsx:81-99 | the dropdown has entries only when open and signed in, and then exactly the avatar change and the '/logout' link |
| Navbar.LogoutEntryIsUnrouted | src/components/Navbar.tsx:93 | the logout entry links to a path no route serves |
| Navbar.NavbarState.constructor | src/components/Navbar.tsx:9-10 | starts closed with an empty avatar |
| Navbar.NavbarState.ToggleDropdown | src/components/Navbar.tsx:59 | a click negates `showDropdown` and changes nothing else |
| Navbar.ToggleTwice | src/components/Navbar.tsx:59 | two clicks restore the dropdown |
| Browser.Storage.GetItem | src/services/productService.ts:60 | `getItem` gives the stored value for a present key and null (None) for a missing one |
| Browser.Storage.SetItem | src/services/authService.ts:48 | `setItem` sets that one key to the value; every other entry is unchanged |
| Browser.Storage.RemoveItem | src/context/AuthContext.ts:9 | `removeItem` removes that one key and nothing else; a missing key changes nothing |
| App.Route | src/App.tsx:34-42 | a path is routed iff the table lists it, to the page listed with it |
| App.RoutesDistinct | src/App.tsx:34-42 | seven routes, pairwise distinct in path and in page |
| App.LogoutIsNotRouted | src/App.tsx:34-42 | no route serves '/logout' |
| App.AppState.constructor | src/App.tsx:14-16 | starts signed out, with no user and not loading |
| App.AppState.SetIsAuthenticated | src/App.tsx:14 | sets the flag and nothing else; the not-loading invariant holds |
| App.AppState.SetUser | src/App.tsx:16 | sets the user and nothing else; the not-loading invariant holds |
| App.AppState.Logout | src/App.tsx:18-21 | signs out and clears the user and nothing else; it has no access to the store |
| App.AppState.ShowsLoading | src/App.tsx:15 | the loading overlay is never shown, because nothing sets `isLoading` |

## Left out

- Network I/O, `response.json()` and the environment variable are inputs of the model (`Api.Env`, `Api.Response`), not calls. `simulateDelay` and the one-second wait in the contact form are timers with no logic. The contact form's wait is the split between `HandleSubmit` and `FinishSubmit`.
- Api.Request: it sends the corrected init (`Api.FetchInitFor`), not `{ headers, ...config }` as written. The two differ only for a config with its own `headers`, and no call in the repository passes one. `Api.RequestAsWritten` is the code as written. `Api.RequestAgreesWithoutCallerHeaders`, `AuthService.AuthRequestsAsWritten` and `ProductService.ProductsRequestAsWritten` prove that the two agree at every call site.
- Register.RegisterPage.SubmitAsWritten: react-hook-form is not part of this model. What its `register` does when given an object as a field name (throw, or return its truthy field props) is the parameter `FieldRegistration`.
- The `authToken` field of the request config is spread into the fetch init as written. Fetch ignores unknown fields, so it is not modelled.
- JSON numbers are integers in the model. Floating point is not modelled.
- Header names are compared exactly. HTTP's case-insensitive header names are not modelled, and neither is a caller header whose value is `undefined`.
- String length is counted in characters, not in UTF-16 code units. String `<` compares characters, not code units. Both agree for the texts in the repository.
- Specs.TechSpec: `value` is typed `string | number` in the source but is a string in every row, so it is modelled as a string.
- Specs.SortInPlace: it does not state the stability of `Array.prototype.sort`. Equal rows may end in any order.
- Specs.SortedSpecs: for the same reason it does not fix the order of rows with equal keys, such as the two '128' values in the value column.
- The email syntax check is the abstract predicate `isEmail`. zod's default messages ('Required', 'Expected …') are modelled by shape only. The texts written in the source are modelled exactly.
- `console.error` logging is left out, because nothing reads it.
- Toasts are returned values. Their display is left out.
- The countdown interval is a `Tick` step per firing. Real time and scheduling are left out.
- Each page handler runs to completion. Interleavings across its `await`s are left out.
- Rendering, animation, the particle effects (`Math.random`, window sizes) and the Navbar avatar upload (an asynchronous file read) are left out.
- Presentation-only files are left out: `VerticalTabs.tsx`, `Loading.tsx`, `Home.tsx`, `About.tsx` and `Products.tsx`. `Products.tsx` renders the fallback catalogue directly and never calls `getProducts`.
- The unused imports in `productService.ts` are left out.

## Findings

| source | as written | input that shows it | evidently intended | confidence | as-written member | corrected member |
|---|---|---|---|---|---|---|
| src/services/api.ts:34-37 | `{ headers, ...config }` spreads the config after the merged headers, so a config with its own `headers` replaces them | `{ method: 'GET', headers: { 'X-Trace': '1' }, authToken: 'abc' }` sends no Authorization and no Content-Type | the merged headers (Content-Type, Authorization, then the caller's) are always sent | high for the shadowing; no caller in the repository passes `headers`, so the services are unaffected; not executed | Api.FetchInitAsWritten, Api.RequestAsWritten, Api.CallerHeadersDropAuthorization | Api.FetchInitFor, Api.Request |
| src/pages/Register.tsx:65 | `await register(data)` calls the `register` destructured from `useForm` at lines 27-33. That binding shadows the service `register` imported at line 8, so the form values go to react-hook-form as a field name | a valid form `{ name: 'ab', email: 'a@b.c', password: 'secret', verificationCode: '123456' }` with a backend that accepts it: no request to '/auth/register' and no 'authToken' stored | `onSubmit` calls the service `register(data)`, stores the token and signs the user in only when the backend accepts | high for the shadowing; whether react-hook-form throws or returns its field props is left as a parameter; not executed | Register.RegisterPage.SubmitAsWritten, Register.AcceptedRegistrationAsWrittenAndCorrected | Register.RegisterPage.Submit |
