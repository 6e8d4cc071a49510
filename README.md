# Library front-end: session state machine and the rules that read it

This project models, in Dafny, the parts of the library web client that hold
logic rather than markup:

- **Session manager** (`AuthContext`). The provider holds three things: the
  `authState` record `{user, token, isAuthenticated, isLoading}`, the stored
  token slot `localStorage['jwtToken']` and the default `Authorization`
  header of the HTTP client.
  - `AuthProvider` is a class with those three fields. It has one method per
    operation: the header effect, `logout`, `getCurrentUser`,
    `initializeAuth`, `login` and `register`.
  - Each method takes the server's answer as a parameter (`Reply`: a body, an
    HTTP error status, or no response).
  - Each method is proved against a pure step function on a `Session` value.
    The lemmas prove an invariant of every session that any sequence of
    operations reaches from the first render.
- **Route guard** (`ProtectedRoute`). This is the ordered decision: spinner,
  redirect to `/login`, redirect to `/home`, or render. The module also holds
  the application's route table, which says which paths are guarded.
- **Navigation bar** (`Navbar`). This is the set of links shown for a session,
  proved to agree with the guard, plus the logout button.
- **Search page** (`SearchBooksPage`, with the JavaScript string operations it
  uses in `JsString`).
  - The handlers that rewrite `currentPage`, `searchUrl` and
    `categorySelection`.
  - The four-way choice of query, including the regular expression
    `category=([^&]+)`, with a proved round trip.
  - The loop that copies the response into the book list.
  - The arithmetic of the "first to last of total" line, and what the page
    renders.
- **Question form** (`PostNewMessage`). This is the guard of
  `submitNewQuestion` and its updates of `title`, `question`,
  `displayWarning` and `displaySuccess`.

The model follows the code in these places:

- No token-expiry check exists anywhere in the client.
- The first render is loading even when no token is stored.
- During initialization, *any* failed verification logs out, because the
  `catch` of `initializeAuth` calls `logout`. This includes a network failure
  and not only 401/403.
- `getCurrentUser` called on its own logs out only on 401/403, and it always
  rethrows.
- Nothing serializes concurrent initializations or discards stale responses.
- JavaScript truthiness is kept. An empty stored token counts as no token,
  both in `initializeAuth` and in the header effect.

## Model

| member | source | states |
|---|---|---|
| `AuthContext.LoggedOut` | src/context/AuthContext.tsx:75-80 | the anonymous shape: no user, no token, not authenticated, not loading |
| `AuthContext.HeaderFor` | src/context/AuthContext.tsx:65-71 | the default header is present exactly when the token is truthy, and it is then `Bearer ` followed by the token |
| `AuthContext.InitialSession` | src/context/AuthContext.tsx:57-62 | the first render has no user, the stored token in the record, is not authenticated and is loading, even with nothing stored |
| `AuthContext.LogoutStep` | src/context/AuthContext.tsx:73-81 | after `logout` the record is the anonymous shape, the stored slot is empty and the header is gone, whatever the prior session |
| `AuthContext.VerifyStep` | src/context/AuthContext.tsx:83-101 | success replaces the user wholesale, sets authenticated and not loading, and keeps token, storage and header; 401/403 gives the logout session; any other failure leaves the session as it was |
| `AuthContext.LoginUser` | src/context/AuthContext.tsx:132-137 | the user record holds exactly the four identity fields of the login response |
| `AuthContext.InitializeStep` | src/context/AuthContext.tsx:105-123 | initialization always ends not loading; with a truthy stored token and a verified user it is authenticated as that user with the stored token in the record and the header; with a stored token and any failed verification it is the logout session; with no truthy token only loading changes; the invariant is kept |
| `AuthContext.LoginStep` | src/context/AuthContext.tsx:125-146 | a successful login is authenticated, not loading, with the response's user, its token in the record and in storage and the matching header, and keeps the invariant from any session; a failed login changes nothing |
| `AuthContext.Step` | src/context/AuthContext.tsx:73-160 | the session after one operation: initialization, `getCurrentUser`, `login` and `logout` by their steps; `register` changes nothing |
| `AuthContext.Run` | src/context/AuthContext.tsx:57-160 | the session after a sequence of operations, applied in order |
| `AuthContext.Inv` | src/context/AuthContext.tsx:57-80 | the invariant: authenticated implies a user and not loading; the record's token is the stored token; the header is `Bearer <token>` exactly for a truthy token |
| `AuthContext.Truthy` | src/context/AuthContext.tsx:66 | JavaScript truthiness of a stored token, as tested at :66 and :109: the empty string counts as absent |
| `AuthContext.IsAuthError` | src/context/AuthContext.tsx:97 | the failures `getCurrentUser` treats as a rejected token: status 401 or 403 |
| `AuthContext.LogoutIsIdempotent` | src/context/AuthContext.tsx:73-81 | `logout` gives the same session from any two starting sessions, so logging out twice equals logging out once; the result keeps the invariant |
| `AuthContext.InitializeWithoutToken` | src/context/AuthContext.tsx:107-119 | on load with no truthy stored token, initialization ends not loading, not authenticated and with no user |
| `AuthContext.InitializeVerified` | src/context/AuthContext.tsx:109-112 | on load with a stored token that verifies, the record is exactly the returned user, the stored token, authenticated, not loading, and the header is `Bearer <token>` |
| `AuthContext.InitializeRejected` | src/context/AuthContext.tsx:109-116 | with a stored token, every failed verification, including a non-401/403 one, ends in the logout session with storage cleared |
| `AuthContext.GetCurrentUserFailure` | src/context/AuthContext.tsx:94-101 | a failed `getCurrentUser` always reports the failure; it logs out on 401/403 and otherwise changes nothing |
| `AuthContext.LoginAndRegister` | src/context/AuthContext.tsx:125-160 | login success stores the token and sets the record exactly to the response user, token, authenticated, not loading; login failure and every `register` leave the session unchanged |
| `AuthContext.StepPreservesInv` | src/context/AuthContext.tsx:57-160 | each operation preserves the invariant: authenticated implies a user and not loading; the record's token equals the stored token; the header matches the token |
| `AuthContext.ReachableInv` | src/context/AuthContext.tsx:57-160 | every session reachable from the first render by any sequence of operations satisfies that invariant |
| `AuthContext.RunPreservesInv` | src/context/AuthContext.tsx:57-160 | any sequence of operations run from a session that satisfies the invariant ends in one that does |
| `AuthContext.AuthProvider.constructor` | src/context/AuthContext.tsx:57-71 | the provider starts in the first-render session, with the header effect applied, and the invariant holds |
| `AuthContext.AuthProvider.SyncHeader` | src/context/AuthContext.tsx:65-71 | the header effect sets `Bearer <token>` for a truthy token and deletes the header otherwise |
| `AuthContext.AuthProvider.Logout` | src/context/AuthContext.tsx:73-81 | the new state is the logout session of the old one, and the invariant is kept; it takes no server answer, because no request is made |
| `AuthContext.AuthProvider.GetCurrentUser` | src/context/AuthContext.tsx:83-102 | the new state is the verification step of the old one, and the rethrown error is the request's error |
| `AuthContext.AuthProvider.InitializeAuth` | src/context/AuthContext.tsx:105-123 | the new state is the initialization step of the old one; errors are caught, not rethrown |
| `AuthContext.AuthProvider.Login` | src/context/AuthContext.tsx:125-146 | the new state is the login step of the old one, and the rethrown error is the request's error |
| `AuthContext.AuthProvider.Register` | src/context/AuthContext.tsx:148-160 | `register` changes no state and rethrows exactly the request's error |
| `ProtectedRoute.Guard` | src/components/ProtectedRoute.tsx:21-37 | the outcome is the spinner iff loading; `/login` iff not loading and not authenticated; `/home` iff authenticated, admin-only and the role is not `ADMIN` (a missing user included); render iff not loading, authenticated and, on admin-only routes, `ADMIN`; the only redirects are `/login` and `/home` |
| `ProtectedRoute.IsAdmin` | src/components/ProtectedRoute.tsx:29 | `user?.role === 'ADMIN'`, false when there is no user, as also used by the bar at src/layouts/NavbarAndFooter/Navbar.tsx:63 |
| `ProtectedRoute.GuardIgnoresRoleOnPlainRoutes` | src/components/ProtectedRoute.tsx:17-31 | on a route that is not admin-only, the default, the decision does not depend on the user record |
| `ProtectedRoute.AppRoutes` | src/App.tsx:24-58 | the application's switch has eleven routes |
| `ProtectedRoute.Visit` | src/App.tsx:24-58 | the route `/` redirects to `/home`; every other unguarded route renders; a guarded one is decided by the guard with its `adminOnly` flag |
| `ProtectedRoute.GuardedRoutes` | src/App.tsx:24-57 | exactly `/shelf`, `/messages`, `/admin` and `/fees` are guarded, `/admin` is the only admin-only route, and only `/` redirects, to `/home`, which renders for every visitor |
| `ProtectedRoute.LoginThenAdminRoute` | src/components/ProtectedRoute.tsx:29-31 | right after a successful login with a role other than `ADMIN`, the admin-only route redirects to `/home`, not to `/login` |
| `Navbar.NavbarView` | src/layouts/NavbarAndFooter/Navbar.tsx:8-116 | while loading only the spinner; otherwise Home and Search Books always, Shelf and Pay fees iff authenticated, Admin iff authenticated and `ADMIN`, Sign in and Sign up iff not authenticated, the user menu iff authenticated |
| `Navbar.LinkTarget` | src/layouts/NavbarAndFooter/Navbar.tsx:36-91 | every entry but the user menu links to a path |
| `Navbar.SignInAndUserMenuExclusive` | src/layouts/NavbarAndFooter/Navbar.tsx:72-116 | the sign-in buttons and the user menu are never shown together, and one of them is always shown |
| `Navbar.LinksAgreeWithGuard` | src/layouts/NavbarAndFooter/Navbar.tsx:48-69 | the Admin link is shown iff the guard renders an admin-only route; Shelf and Pay fees are shown iff it renders a plain guarded route |
| `Navbar.ShownLinksAreServable` | src/layouts/NavbarAndFooter/Navbar.tsx:36-91 | whichever table entry a shown link's path names renders for that visitor; `Navbar.LinksHaveRoutes` gives that such an entry exists |
| `Navbar.LinksHaveRoutes` | src/layouts/NavbarAndFooter/Navbar.tsx:36-91 | every link of the bar points to a page route of the application table, and for a shown link such a route exists and renders for that visitor |
| `Navbar.HandleLogout` | src/layouts/NavbarAndFooter/Navbar.tsx:12-14 | the Logout button leaves the provider logged out with storage cleared, so the bar then shows Home, Search Books, Sign in and Sign up |
| `SearchBooksPage.UpToAmp` | src/layouts/SearhBooksPage/SearchBooksPage.tsx:29 | `[^&]+` taken greedily: the longest prefix without `&`, which stops at an `&` or the end |
| `SearchBooksPage.CategoryCapture` | src/layouts/SearhBooksPage/SearchBooksPage.tsx:29 | a match of `category=([^&]+)` captures a non-empty value without `&` |
| `SearchBooksPage.CapturedCategory` | src/layouts/SearhBooksPage/SearchBooksPage.tsx:29-30 | the category passed to the category query never contains `&` (the empty string when nothing matches) |
| `SearchBooksPage.TitleUrl` | src/layouts/SearhBooksPage/SearchBooksPage.tsx:84 | the title URL includes the title marker and `title=` followed by the search text |
| `SearchBooksPage.CategoryUrl` | src/layouts/SearhBooksPage/SearchBooksPage.tsx:99 | the category URL includes the category marker |
| `SearchBooksPage.IsKnownCategory` | src/layouts/SearhBooksPage/SearchBooksPage.tsx:92-97 | a value is recognised when its lower case is `front-end`, `back-end`, `data` or `devops` |
| `SearchBooksPage.UpToAmpStopsAtAmp` | src/layouts/SearhBooksPage/SearchBooksPage.tsx:29 | the greedy run over a value without `&` that is followed by `&` is exactly that value |
| `SearchBooksPage.CaptureAfterKey` | src/layouts/SearhBooksPage/SearchBooksPage.tsx:29-30 | right after `category=`, the capture is the value up to the page suffix, or no match for an empty value |
| `SearchBooksPage.CategoryRoundTrip` | src/layouts/SearhBooksPage/SearchBooksPage.tsx:29-30 | reading the category back from a URL built by `categoryField` yields exactly the value it was built from, for every value without `&` |
| `SearchBooksPage.QueryFor` | src/layouts/SearhBooksPage/SearchBooksPage.tsx:24-34 | the page is always `currentPage - 1` and the size `booksPerPage`; title search iff the URL holds the title marker, and then with the current search box; category search iff it holds the category marker and not the title marker, and then with the captured category; otherwise, the empty URL included, the plain listing |
| `SearchBooksPage.SearchUrlFor` | src/layouts/SearhBooksPage/SearchBooksPage.tsx:80-86 | an empty search box gives the empty URL; otherwise the URL holds the title marker and `title=` followed by the search text |
| `SearchBooksPage.CategoryChoice` | src/layouts/SearhBooksPage/SearchBooksPage.tsx:92-103 | a recognised category keeps the value as label, and its URL holds the category marker, not the title marker, and gives the value back through the category expression; any other value gets the label `All` and a URL with neither marker |
| `SearchBooksPage.KnownCategoryChars` | src/layouts/SearhBooksPage/SearchBooksPage.tsx:92-97 | a value recognised after lower-casing contains no `&`, no `I` and no `/` |
| `SearchBooksPage.CategoryUrlMarkers` | src/layouts/SearhBooksPage/SearchBooksPage.tsx:26-28 | the URL of a recognised category holds the category marker and not the title marker, which is tested first |
| `SearchBooksPage.NoTitleMarker` | src/layouts/SearhBooksPage/SearchBooksPage.tsx:26 | the category URL of a value without `I` cannot include the title marker |
| `SearchBooksPage.AllUrlMarkers` | src/layouts/SearhBooksPage/SearchBooksPage.tsx:102 | the URL stored for an unrecognised category holds neither marker |
| `SearchBooksPage.TitleSearchQuery` | src/layouts/SearhBooksPage/SearchBooksPage.tsx:27 | after a title search, the fetch asks for the text now in the box, whatever text was embedded in the URL, on page 0 with size 5 |
| `SearchBooksPage.CategoryQuery` | src/layouts/SearhBooksPage/SearchBooksPage.tsx:24-34 | after a category choice, the fetch asks for exactly that category on page 0 when it is recognised, and for the plain listing otherwise |
| `SearchBooksPage.IndexOfFirstBook` | src/layouts/SearhBooksPage/SearchBooksPage.tsx:106-107 | the first index is `(currentPage - 1) * booksPerPage` |
| `SearchBooksPage.LastItem` | src/layouts/SearhBooksPage/SearchBooksPage.tsx:108-111 | the last item is the end of the page, cut at the total, so it never exceeds the total |
| `SearchBooksPage.RangeBounds` | src/layouts/SearhBooksPage/SearchBooksPage.tsx:106-111 | the line never runs past the total, spans at most one page, and names at least one item on a page that starts inside the results |
| `SearchBooksPage.LoadBooks` | src/layouts/SearhBooksPage/SearchBooksPage.tsx:41-54 | the copied list has the response's count and each entry in the response's order |
| `JsString.Includes` | src/layouts/SearhBooksPage/SearchBooksPage.tsx:26-28 | `includes`: the searched string occurs at some position of the URL |
| `JsString.ToLower` | src/layouts/SearhBooksPage/SearchBooksPage.tsx:93-96 | `toLowerCase` keeps the length and lower-cases each character on its own |
| `SearchBooksPage.SearchPage.constructor` | src/layouts/SearhBooksPage/SearchBooksPage.tsx:9-18 | the page starts loading, on page 1, with no books, no error, empty search and URL, and the label `Book category` |
| `SearchBooksPage.SearchPage.SetSearch` | src/layouts/SearhBooksPage/SearchBooksPage.tsx:127 | typing replaces the search text |
| `SearchBooksPage.SearchPage.SearchHandleChange` | src/layouts/SearhBooksPage/SearchBooksPage.tsx:78-88 | the page goes back to 1, the label to `Book category`, and the URL becomes the one for the current search box |
| `SearchBooksPage.SearchPage.CategoryField` | src/layouts/SearhBooksPage/SearchBooksPage.tsx:90-104 | the page goes back to 1, and the label and URL become the category handler's choice |
| `SearchBooksPage.SearchPage.Paginate` | src/layouts/SearhBooksPage/SearchBooksPage.tsx:113 | the pager sets the current page |
| `SearchBooksPage.SearchPage.FetchBooks` | src/layouts/SearhBooksPage/SearchBooksPage.tsx:20-62 | the query issued is the dispatch for the current URL, box and page; on success the totals and the book list come from the response; on failure the error is kept and the list and totals are unchanged; loading ends either way |
| `SearchBooksPage.SearchPage.View` | src/layouts/SearhBooksPage/SearchBooksPage.tsx:66-229 | spinner iff loading; the error iff not loading and an error was caught; the result line and the list only when the total is positive; the pager iff there is more than one page |
| `PostNewMessage.Submit` | src/layouts/MessagesPage/components/PostNewMessage.tsx:12-23 | with the guard and a successful post, empty fields, no warning and success; with the guard failing, warning only and untouched fields; with a failed post, nothing changes; the two banners are never both raised |
| `PostNewMessage.NoDoublePost` | src/layouts/MessagesPage/components/PostNewMessage.tsx:13-22 | a second submit right after a success finds the fields empty, posts nothing and shows the warning |
| `PostNewMessage.CanSubmit` | src/layouts/MessagesPage/components/PostNewMessage.tsx:13 | the handler posts only for an authenticated user with a non-empty title and question |
| `PostNewMessage.MessageForm.constructor` | src/layouts/MessagesPage/components/PostNewMessage.tsx:7-10 | the form starts with empty fields and no banner |
| `PostNewMessage.MessageForm.SetTitle` | src/layouts/MessagesPage/components/PostNewMessage.tsx:50 | typing replaces the title |
| `PostNewMessage.MessageForm.SetQuestion` | src/layouts/MessagesPage/components/PostNewMessage.tsx:61 | typing replaces the question |
| `PostNewMessage.MessageForm.SubmitNewQuestion` | src/layouts/MessagesPage/components/PostNewMessage.tsx:12-23 | a message is sent iff authenticated with non-empty title and question, and it is the old title and question; the new fields are `Submit` of the old ones; the error thrown is the post's; the banners are never both shown |

## Left out

- HTTP transport: axios, the endpoints and the `apiService` wrapper are not modelled. Each server answer is a parameter of the method that awaits it. The shared client's request interceptor attaches `Bearer <stored token>` and never clears the token on 401; it is context only.
- Request bodies: `login` and `register` take their arguments but do not send them anywhere. Only the answer matters to the state.
- React scheduling: render batching, effect ordering, the run-once dependency list, and interleavings of concurrent awaits (stale responses) are not modelled. Each operation runs to completion before the next one starts.
- The header effect runs at the end of each state-changing method. It does not run after the next render.
- Logging to the console is left out.
- The `useAuth` guard that throws outside the provider is left out: it is a usage check, not session state.
- Token expiry: the client has none, so none is modelled.
- JsString.ToLower: it lower-cases ASCII letters only. `String.prototype.toLowerCase` also maps other Unicode letters, so a non-ASCII spelling that lower-cases to a known category is not recognised by the model.
- SearchBooksPage.SearchPage.FetchBooks: it records the fault, not the text of `error.message`. A response without `_embedded` or `page`, which would throw a type error inside the fetch, is not modelled. `window.scrollTo` is not modelled either.
- The pager component that calls `paginate` is not part of this model. `paginate` accepts any page number.
- The markup and styling of every component are left out, including the user's name in the navigation bar's dropdown.
- The book-checkout, payment, shelf, messages-list and admin-messages pages are left out. They are fetch-and-render code, with floating-point star averages and cents conversion.
