# Dashboard view state, in Dafny

This project models the stateful logic of a small React dashboard: the
Posts search page, the paginated Users directory, the Profile editor and the
dashboard shell that switches between them. Each component's `useState`
cells are the fields of a class, and each event handler is a method. Each
method is specified by a pure transition function on a state datatype. The
properties are proved about those functions, and the methods are proved to
implement them.

- `outcomes.dfy` (module `Outcomes`): `Option`, and `FetchOutcome<T> =
  Thrown | NotOk | Ok(payload)`. This is what one `fetch` ends in, as the
  component's try/catch sees it. `Thrown` also covers a body that
  `response.json()` cannot decode.
- `js_string.dfy` (module `JsString`): `trim`, `toLowerCase` and `includes`.
  `trim` strips the ECMAScript whitespace and line-terminator set.
  `toLowerCase` maps ASCII letters only. `includes` is proved equal to "the
  needle occurs at some offset".
- `posts.dfy` (module `Posts`): the fetch keeps the first 20 posts. The
  search derives the visible list from the title, case-insensitively. It
  also holds the spinner / error / list view.
- `users.dfy` (module `Users`): the page fetch, the Previous and Next
  handlers, and the view with its disabled-button predicates. It also holds
  the page range `1 <= currentPage <= totalPages`, which Previous and Next
  preserve. The initial page 1 of 0 lies outside it, and so can a page
  stored by an ok fetch.
- `profile.dfy` (module `Profile`): the profile fetch, and the
  edit / cancel / save / input-change state machine over the stored profile
  and the three-field form.
- `layout.dfy` (module `Layout`): the drawer toggle and the menu click. It
  also holds the `renderContent` dispatch and which menu item is marked
  selected.

Every fetch is split into two steps. `FetchStart` holds the first two
statements of the try block. `FetchEnd(outcome)` holds the rest of the try
block, the catch and the finally. So the in-flight state (loading on, error
cleared) is a state of the model. The `FetchX(outcome)` methods run both
steps. React effects are methods the caller runs: the Users fetch when
`currentPage` changes, and the Posts search effect when `posts` or
`searchTerm` change. The model does not schedule them.

Two points about the code are worth stating outright.
- Pagination: the handlers are guarded no-ops, not clamps. Previous runs
  `if (currentPage > 1)` and Next runs `if (currentPage < totalPages)`.
  `Users.PreviousPage` and `Users.NextPage` prove that they agree with
  `max(1, page-1)` and `min(totalPages, page+1)` when
  `1 <= currentPage <= totalPages` (for Next: when `currentPage <=
  totalPages`). They differ outside that range: with `totalPages = 0`,
  `min(totalPages, page+1)` would move to page 0, but the code stays put.
- Stale responses: the code does not discard a response that arrives after
  a newer request. The model applies each outcome as given and claims no
  last-request-wins guarantee.

## Model

| member | source | states |
|---|---|---|
| JsString.Trim | src/app/dashboard/posts/page.tsx:58 | `trim` returns a slice of the input between a blank prefix and a blank suffix. The slice neither starts nor ends with whitespace. It is empty exactly when the input is all whitespace. |
| JsString.ToLowerCase | src/app/dashboard/posts/page.tsx:62 | Lower-casing keeps the length and leaves no ASCII capital letter. Characters that are not capitals are unchanged, and each capital becomes its lower-case letter. |
| JsString.SameLowerCase | src/app/dashboard/posts/page.tsx:62 | Two strings of the same length that agree letter by letter up to ASCII case lower-case to the same string. |
| JsString.IncludesIffOccurs | src/app/dashboard/posts/page.tsx:62 | `includes` holds exactly when the needle occurs at some offset of the string. |
| Posts.FirstPosts | src/app/dashboard/posts/page.tsx:40-41 | `slice(0, 20)` is a prefix of the response, of length min(20, n). |
| Posts.KeepMatching | src/app/dashboard/posts/page.tsx:61-63 | The title filter never returns more posts than it is given. |
| Posts.SearchResults | src/app/dashboard/posts/page.tsx:57-66 | A search term that is empty or only whitespace shows every post, unchanged. No search shows more posts than are stored. |
| Posts.KeepMatchingIsSubsequence | src/app/dashboard/posts/page.tsx:61-63 | The filtered posts are an order-preserving subsequence of the posts. |
| Posts.TitleMatchesIgnoresCase | src/app/dashboard/posts/page.tsx:61-63 | Whether a title matches does not depend on the ASCII case of the title or of the term. |
| Posts.KeepMatchingMembership | src/app/dashboard/posts/page.tsx:61-63 | A post is kept iff it is stored and its lower-cased title contains the lower-cased, untrimmed term. A kept post appears as many times as it is stored, and a post that does not match appears zero times. |
| Posts.SearchResultsSpec | src/app/dashboard/posts/page.tsx:57-66 | The search result is a subsequence of the posts. A post is in it iff it is stored and the term is blank or its title matches. Each such post appears as many times as it is stored, and every other post zero times. |
| Posts.KeepMatchingIdempotent | src/app/dashboard/posts/page.tsx:61-63 | Filtering already-filtered posts with the same term changes nothing. |
| Posts.SearchResultsIdempotent | src/app/dashboard/posts/page.tsx:57-66 | Running the search twice with the same term gives the same list as running it once. |
| Posts.SearchFooExample | src/app/dashboard/posts/page.tsx:57-66 | The term "foo" against titles "Foo bar" and "baz" keeps only the "Foo bar" post. |
| Posts.AfterFetchStart | src/app/dashboard/posts/page.tsx:34-35 | A fetch starts with loading on and the error cleared. Nothing else changes. |
| Posts.AfterFetchEnd | src/app/dashboard/posts/page.tsx:37-50 | An ok response stores the first 20 posts as both `posts` and `filteredPosts`. Not-ok stores "Failed to fetch posts" and a thrown exception stores "Network error", and both keep the posts. Loading is off in every case. |
| Posts.AfterFetch | src/app/dashboard/posts/page.tsx:32-52 | A whole fetch succeeds with no error and the first 20 posts, or fails with a non-empty error and the old posts. It ends with loading off. |
| Posts.AfterSearchChange | src/app/dashboard/posts/page.tsx:95 | The search box stores the term as typed. Nothing else changes. |
| Posts.AfterSearchEffect | src/app/dashboard/posts/page.tsx:57-66 | Recomputing the filter changes only `filteredPosts`, never `posts`. A blank term shows all posts, and the list never grows. |
| Posts.SearchEffectSettles | src/app/dashboard/posts/page.tsx:57-66 | After the effect, `filteredPosts` is the search result of `posts`. A second run changes nothing. |
| Posts.OkFetchIsConsistent | src/app/dashboard/posts/page.tsx:39-66 | An ok fetch with a blank term leaves `filteredPosts` equal to the search result. So the effect that the new posts trigger is a no-op. |
| Posts.Render | src/app/dashboard/posts/page.tsx:68-135 | The spinner shows iff loading. The error shows iff not loading and the error is non-empty. Otherwise the list shows `filteredPosts`, the stored count, and the no-match notice iff nothing is shown and the raw term is non-empty. |
| Posts.FetchOutcomeIsRendered | src/app/dashboard/posts/page.tsx:32-82 | After any fetch the spinner is gone. A failure shows its message, and a success lists the first 20 posts. |
| Posts.PostsPage.constructor | src/app/dashboard/posts/page.tsx:25-29 | The initial state has no posts, loading on, no error and an empty term. |
| Posts.PostsPage.FetchStart | src/app/dashboard/posts/page.tsx:34-35 | Implements `AfterFetchStart` on the fields. |
| Posts.PostsPage.FetchEnd | src/app/dashboard/posts/page.tsx:37-50 | Implements `AfterFetchEnd` on the fields. |
| Posts.PostsPage.FetchPosts | src/app/dashboard/posts/page.tsx:32-54 | Implements `AfterFetch` on the fields. |
| Posts.PostsPage.HandleSearchChange | src/app/dashboard/posts/page.tsx:95 | Implements `AfterSearchChange` on the fields. |
| Posts.PostsPage.SearchEffect | src/app/dashboard/posts/page.tsx:57-66 | Implements `AfterSearchEffect` on the fields. |
| Users.PreviousPage | src/app/dashboard/users/page.tsx:90-94 | From page 1 or more, Previous moves to max(1, page-1). Below page 1 it does nothing. It leaves the page unchanged iff the page is at most 1. |
| Users.NextPage | src/app/dashboard/users/page.tsx:96-100 | Up to the last page, Next moves to min(totalPages, page+1). Beyond it, Next does nothing. It leaves the page unchanged iff the page is at or past `totalPages`. |
| Users.EnabledIffHandlerMoves | src/app/dashboard/users/page.tsx:173-191 | Within 1..totalPages and not loading, each button is enabled iff its handler changes the page. |
| Users.NextEnabledButInertWithoutPages | src/app/dashboard/users/page.tsx:96-100 | With 0 pages, the Next button on page 1 is enabled but its handler does nothing. |
| Users.AfterFetchStart | src/app/dashboard/users/page.tsx:63-64 | A fetch starts with loading on and the error cleared. Nothing else changes. |
| Users.AfterFetchEnd | src/app/dashboard/users/page.tsx:70-83 | An ok response sets `users`, `totalPages` and `currentPage` from `data`, `total_pages` and `page`. Not-ok stores "Failed to fetch users" and a thrown exception stores "Network error", and both leave those three alone. Loading ends off. |
| Users.AfterFetch | src/app/dashboard/users/page.tsx:61-84 | A whole fetch ends with no error iff the response was ok. The list and the page metadata are replaced together or not at all. |
| Users.AfterPreviousPage | src/app/dashboard/users/page.tsx:90-94 | Previous changes only `currentPage`: it decrements when above 1 and is a no-op otherwise. It keeps 1 <= currentPage <= totalPages. |
| Users.RangeNotKeptByFetch | src/app/dashboard/users/page.tsx:46-47 | The initial page 1 of 0 is outside the page range, and an ok fetch from a page in range can store a page outside it. |
| Users.AfterNextPage | src/app/dashboard/users/page.tsx:96-100 | Next changes only `currentPage`: it increments when below `totalPages` and is a no-op otherwise (so with `totalPages = 0` it does nothing). It keeps the page in range. |
| Users.Render | src/app/dashboard/users/page.tsx:102-191 | The spinner shows iff loading with no users. Otherwise a non-empty error shows the alert. Otherwise the directory shows with Previous disabled iff page 1 or loading, and Next disabled iff page == totalPages or loading. |
| Users.RefetchKeepsDirectory | src/app/dashboard/users/page.tsx:102-108 | A fetch started while users are listed keeps them on screen with both buttons disabled. |
| Users.FailedFetchShowsAlert | src/app/dashboard/users/page.tsx:110-116 | A failed fetch replaces the directory with its message. |
| Users.FirstPageExample | src/app/dashboard/users/page.tsx:72-75 | Page 1 of 2 with one user lists that user, with Previous disabled and Next enabled. |
| Users.UsersPage.constructor | src/app/dashboard/users/page.tsx:43-47 | The initial state is no users, loading, no error, page 1 of 0. |
| Users.UsersPage.FetchStart | src/app/dashboard/users/page.tsx:63-64 | Implements `AfterFetchStart` on the fields. |
| Users.UsersPage.FetchEnd | src/app/dashboard/users/page.tsx:70-83 | Implements `AfterFetchEnd` on the fields. |
| Users.UsersPage.FetchUsers | src/app/dashboard/users/page.tsx:61-88 | Implements `AfterFetch` on the fields. |
| Users.UsersPage.HandlePreviousPage | src/app/dashboard/users/page.tsx:90-94 | Implements `AfterPreviousPage` on the fields. |
| Users.UsersPage.HandleNextPage | src/app/dashboard/users/page.tsx:96-100 | Implements `AfterNextPage` on the fields. |
| Profile.FormOf | src/app/dashboard/profile/page.tsx:53-57 | The form filled from a profile holds its first name, last name and email. |
| Profile.WithField | src/app/dashboard/profile/page.tsx:100-105 | An input change sets the named field to the new value. The other two fields are unchanged. |
| Profile.SaveForm | src/app/dashboard/profile/page.tsx:89-96 | Saving keeps `id` and `avatar`. The form read back from the saved profile is exactly the form saved. |
| Profile.SaveOwnFormIsIdentity | src/app/dashboard/profile/page.tsx:89-96 | Saving the form that was read from a profile gives that profile back. |
| Profile.AfterFetchStart | src/app/dashboard/profile/page.tsx:40-41 | A fetch starts with loading on and the error cleared. Nothing else changes. |
| Profile.AfterFetchEnd | src/app/dashboard/profile/page.tsx:49-65 | An ok response carrying `data` stores the profile and copies its three fields into the form. An ok response without `data`, or a not-ok one, stores "Failed to fetch profile". A thrown exception stores "Network error". Failures keep the profile and the form, and loading ends off. |
| Profile.AfterFetch | src/app/dashboard/profile/page.tsx:38-66 | A whole fetch ends with no error iff it returned a profile. In that case the form equals the profile's fields. |
| Profile.AfterEdit | src/app/dashboard/profile/page.tsx:71-73 | Edit sets `editing` and changes nothing else. |
| Profile.AfterCancel | src/app/dashboard/profile/page.tsx:75-84 | Cancel clears `editing` and never touches the profile. With a profile, it restores the form to the profile's fields. Without one, it keeps the form. |
| Profile.AfterSave | src/app/dashboard/profile/page.tsx:86-98 | Save copies the form into the profile, keeping `id` and `avatar`, and clears `editing`. With no profile it only clears `editing`. |
| Profile.AfterInputChange | src/app/dashboard/profile/page.tsx:100-105 | An input change alters only that field of the form and never the profile. |
| Profile.AfterInputs | src/app/dashboard/profile/page.tsx:100-105 | A run of input changes alters nothing but the form. |
| Profile.AfterInputsLastWins | src/app/dashboard/profile/page.tsx:100-105 | After a run of inputs, each field holds the last value typed into it, or its old value if it was never typed into. |
| Profile.InputsThenCancelRestores | src/app/dashboard/profile/page.tsx:75-105 | Any run of input changes followed by Cancel leaves the profile unchanged. When there is a profile, the form again equals it. |
| Profile.SaveThenCancelKeepsSavedForm | src/app/dashboard/profile/page.tsx:75-98 | After Save, Cancel restores exactly the values just saved. |
| Profile.Render | src/app/dashboard/profile/page.tsx:107-205 | The spinner wins over the error, and the error wins over the card. The fields are enabled, Save/Cancel are offered and the "not persisted" notice shows exactly while editing. |
| Profile.ProfilePage.constructor | src/app/dashboard/profile/page.tsx:27-35 | The initial state is no profile, loading, no error, not editing, and an empty form. |
| Profile.ProfilePage.FetchStart | src/app/dashboard/profile/page.tsx:40-41 | Implements `AfterFetchStart` on the fields. |
| Profile.ProfilePage.FetchEnd | src/app/dashboard/profile/page.tsx:49-65 | Implements `AfterFetchEnd` on the fields. |
| Profile.ProfilePage.FetchProfile | src/app/dashboard/profile/page.tsx:38-69 | Implements `AfterFetch` on the fields. |
| Profile.ProfilePage.HandleEdit | src/app/dashboard/profile/page.tsx:71-73 | Implements `AfterEdit` on the fields. |
| Profile.ProfilePage.HandleCancel | src/app/dashboard/profile/page.tsx:75-84 | Implements `AfterCancel` on the fields. |
| Profile.ProfilePage.HandleSave | src/app/dashboard/profile/page.tsx:86-98 | Implements `AfterSave` on the fields. |
| Profile.ProfilePage.HandleInputChange | src/app/dashboard/profile/page.tsx:100-105 | Implements `AfterInputChange` on the fields. |
| Layout.RenderContent | src/components/DashboardLayout.tsx:70-81 | "posts" picks Posts and "profile" picks Profile. Every other string, "users" included, picks Users. |
| Layout.SelectedMarks | src/components/DashboardLayout.tsx:92-96 | An item is marked selected iff its component key equals the selection. |
| Layout.SelectionMarksOneItem | src/components/DashboardLayout.tsx:36-40 | A menu key marks exactly one item, titled after the view that is shown. Any other selection marks none. |
| Layout.AfterDrawerToggle | src/components/DashboardLayout.tsx:54-56 | The toggle negates `mobileOpen` and keeps the selection. |
| Layout.AfterMenuItemClick | src/components/DashboardLayout.tsx:63-68 | A click selects its component. On mobile it closes the drawer. On desktop it leaves the drawer as it was. |
| Layout.RunKeepsMenuKeySelected | src/components/DashboardLayout.tsx:92-96 | From the initial selection, any run of toggles and item clicks keeps a menu key selected. So exactly one item is always marked. |
| Layout.ToggleTwiceRestores | src/components/DashboardLayout.tsx:54-56 | Toggling the drawer twice restores the state. |
| Layout.DashboardLayout.constructor | src/components/DashboardLayout.tsx:47-48 | The initial state has the drawer closed and "users" selected. |
| Layout.DashboardLayout.HandleDrawerToggle | src/components/DashboardLayout.tsx:54-56 | Implements `AfterDrawerToggle` on the fields. |
| Layout.DashboardLayout.HandleMenuItemClick | src/components/DashboardLayout.tsx:63-68 | Implements `AfterMenuItemClick` on the fields. |

## Left out

- The network: `fetch`, its URLs, the `x-api-key` header and `response.json()`. Each request is an outcome value passed in. The `page` argument of `fetchUsers` only builds the URL, so it is not a parameter.
- Asynchrony: each outcome is applied atomically between `FetchStart` and `FetchEnd`. Interleavings are sequences of method calls. No last-request-wins guarantee is claimed, because the code has none.
- React scheduling: setter batching, re-renders, and the automatic re-running of effects. The effects are methods the caller runs.
- Untyped payloads in Posts and Users: a 2xx body missing `data`, `page` or `total_pages` (which JavaScript would store as `undefined`) is not modelled. Nor is a posts body that is not an array: a JSON string, for one, has its own `slice` and would be stored as text. The Profile fetch does model a 2xx body without `data`: it is the `Ok(None)` outcome.
- Strings are sequences of Unicode scalar values. JavaScript strings are UTF-16, and surrogate pairs and lone surrogates are not modelled.
- JavaScript numbers are doubles; pages and ids are mathematical integers here.
- `handleInputChange` with a key other than the three form fields. Every caller passes one of the three, so the key is an enumeration.
- JsString.ToLowerCase: maps only the ASCII letters A-Z. Unicode case mappings, including those that change the length, are not modelled.
- The Users `isMobile` flag and its `resize` listener only pick cards or a table for the same data. The shell's `useMediaQuery` is the `isMobile` parameter of the menu click.
- `handleLogout`: `logout()` and `router.push` call into an auth context and a router that are not part of this model.
- Layout: styling, icons, drawer widths, and the JSX beyond the view datatypes that `Render` returns.
- `src/app/dashboard/page.tsx`: a static list of quick actions with no state.
