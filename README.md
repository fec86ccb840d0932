# local-trade front-end rules, modelled in Dafny

This project models the rules underneath the React front-end of the Local
Trade marketplace. It covers:

- **The two axios clients.** Each has a retry-once refresh on a 401. The
  cookie-based `api` clears the stored user on a failed refresh. The
  bearer-token `api` attaches `Authorization: Bearer <token>` to every
  request and stores the refreshed token.
- **The token store.** `loginUser` and `logoutUser`.
- **The two session providers** and the route guard.
- **The login page.**
- **The favourites set.** An optimistic toggle with rollback, plus the heart
  button and the favourites page.
- **The chat window's typing-indicator state machine,** and the chat list's
  partner filter.
- **The search page and the home page's search box.** Their URL
  parameters, plus the city autocomplete.
- **The advertisement page.** The image carousel, `fixDockerUrl`, and the
  choice of contact action.
- **The advertisement card,** and the rotating headline word.
- **The advertisement form schema.**
- **The user DTO mapper.**

Code that changes state step by step is modelled as classes with methods:
`Config`, `Browser` and `Backend` for the interceptors, and one class for each
stateful component (`AuthProvider`, `AdvertisementStore`, `Window`, `Page`,
`Box`, `Gallery`, `Rotator`). Each method's contract gives the whole new
state. Some methods are proved equal to a pure function of the old state:

- the interceptors' `Request` and `Intercept` (`Call`, `OnRejected`);
- the token store's `LoginUser` and `LogoutUser` (`StoreLogin`, `Logout`);
- the session provider's handlers and the login page's (`Apply`);
- the chat window's handlers (`Apply`);
- the autocomplete's `HandleInputChange` (`AfterInput`);
- the search page's `HandleApplyFilters` and `KeyDown` (`ParamsOf`);
- the home search box's `HandleSearch` (`SearchParams`).

The others state the new value of each field they change and that the
remaining fields keep their values. The properties are proved as lemmas about
the pure functions.

The following are inputs rather than modelled code:

- **Server replies.** The interceptors see the server as a script of replies,
  answered in order. When the script runs out, a call is `Pending`, so no
  lemma claims that a call terminates.
- **Timer firings and interval ticks.** Each is an explicit event.
- **Navigations, toasts and alerts.** Each is recorded in a log.

Files:

- `common.dfy` and `strings.dfy` hold what every model shares: `Option`, an
  order-preserving `Filter`, and the JavaScript string operations used (`trim`,
  `toLowerCase`, `indexOf`, `replace`, `includes`, `startsWith`, UTF-16
  `length`).
- `http.dfy` holds the request, reply and browser state of the interceptors.

Where the code disagrees with other code or with its own declared types, the
model follows what the code does:

- `context/AuthProvider.tsx` imports `getCurrentUser` from
  `api/auth.service`. `auth/AuthProvider.tsx` imports it from
  `auth/auth.service`, which does not export it. In both providers the
  session call is therefore an input.
- `LoginPage.tsx` calls `login` from `useAuth`, whose declared context type
  has no `login`. The login outcome is an input of the page.
- `auth.mapper.ts` reads `userId`, `name` and `role` from a `UserResponse`
  that does not declare them. The model gives the mapper's input exactly the
  fields it reads.

## Model

| member | source | states |
|---|---|---|
| Http.StoredForm | src/auth/axiosConfig.ts:34-36 | `setItem(key, data[key])` stores the field, or the string "undefined" when the body lacks it |
| Http.RefreshConfig | src/api/axiosConfig.ts:23 | the refresh call is `POST /auth/refreshToken` with a fresh config: unmarked when sent through the intercepted instance (as written), marked only in the exempt variant |
| Http.Send | src/api/axiosConfig.ts:5-11 | sending logs the request and consumes exactly the next scripted reply, leaving storage and location alone |
| Http.Browser.GetItem | src/auth/axiosConfig.ts:15 | `getItem` gives the stored value or null |
| Http.Browser.SetItem | src/auth/axiosConfig.ts:36 | `setItem` overwrites one key and nothing else |
| Http.Browser.RemoveItem | src/api/axiosConfig.ts:27 | `removeItem` deletes one key and nothing else |
| Http.Backend.Send | src/api/axiosConfig.ts:25 | the server logs the request and answers with the next reply of its script |
| CookieClient.Call | src/api/axiosConfig.ts:14-35 | a call never gains replies, and the first request it logs is the request itself |
| CookieClient.OnRejected | src/api/axiosConfig.ts:16-34 | the handler only appends to the log and only consumes replies |
| CookieClient.SuccessPassesThrough | src/api/axiosConfig.ts:15 | a success is returned unchanged after exactly one request; storage and location are untouched |
| CookieClient.OtherErrorsRejectedUnchanged | src/api/axiosConfig.ts:19-33 | a non-401 error, a missing response, or a 401 on a marked request is rejected with the original error after one request, with nothing else changed |
| CookieClient.MarkedRequestSentOnce | src/api/axiosConfig.ts:19 | a request already marked `_retry` is sent once and never triggers a refresh |
| CookieClient.RefreshFollowsMarking | src/api/axiosConfig.ts:19-23 | a 401 on an unmarked request marks it, and the next request sent is the refresh call |
| CookieClient.RefreshSuccessReplaysOnce | src/api/axiosConfig.ts:23-25 | after a successful refresh the marked original is replayed once and its result is the call's result |
| CookieClient.RefreshFailureRedirects | src/api/axiosConfig.ts:26-30 | a failed refresh removes "user", sets the location to "/login", rejects with the refresh error, and never replays the original |
| CookieClient.RejectionNamesASentRequest | src/api/axiosConfig.ts:26-33 | every rejection carries the error of a request sent during this call |
| CookieClient.DeadRefreshNeverSettles | src/api/axiosConfig.ts:19-25 | as written, a refresh endpoint that always answers 401 keeps the call pending through every reply; nothing is removed and there is no redirect |
| CookieClient.ExemptRefreshSettles | src/api/axiosConfig.ts:19-33 | with the refresh call sent pre-marked, every call settles within three requests |
| CookieClient.ExemptDeadRefreshRedirects | src/api/axiosConfig.ts:26-30 | with the refresh call pre-marked, a dead refresh endpoint ends in the login redirect after two requests |
| CookieClient.Request | src/api/axiosConfig.ts:14-35 | `api(config)` on the config, browser and server objects does exactly what `Call` does |
| CookieClient.Intercept | src/api/axiosConfig.ts:16-34 | the handler on the objects does exactly what `OnRejected` does |
| BearerClient.StoredToken | src/auth/axiosConfig.ts:15-16 | a token is seen exactly when "token" is stored and non-empty |
| BearerClient.Attach | src/auth/axiosConfig.ts:13-22 | the request interceptor sets `Authorization` to "Bearer " + token exactly when a token is stored, and otherwise leaves the config unchanged |
| BearerClient.AttachIdempotent | src/auth/axiosConfig.ts:13-22 | attaching twice is attaching once |
| BearerClient.TokenOf | src/auth/axiosConfig.ts:34-36 | the destructured `token` as `setItem` stores it |
| BearerClient.Call | src/auth/axiosConfig.ts:13-48 | the first request logged is the request as the request interceptor left it |
| BearerClient.OnRejected | src/auth/axiosConfig.ts:26-47 | the handler only appends to the log and only consumes replies |
| BearerClient.SuccessPassesThrough | src/auth/axiosConfig.ts:25 | a success is returned unchanged after one request |
| BearerClient.OtherErrorsRejectedUnchanged | src/auth/axiosConfig.ts:29-46 | other errors, and 401s on marked requests, are rejected unchanged after one request |
| BearerClient.MarkedRequestSentOnce | src/auth/axiosConfig.ts:29 | a marked request is sent once and never refreshed |
| BearerClient.RefreshFollowsMarking | src/auth/axiosConfig.ts:29-33 | a 401 marks the request, and the refresh call goes out next, carrying the old token's header |
| BearerClient.AttachKeepsRefreshedHeader | src/auth/axiosConfig.ts:13-39 | on the replay, the request interceptor keeps the refreshed header |
| BearerClient.RefreshSuccessStoresTokenAndReplays | src/auth/axiosConfig.ts:33-39 | after a successful refresh the returned token is in storage and in the original's header, and that request is replayed once |
| BearerClient.RefreshFailureRedirects | src/auth/axiosConfig.ts:40-44 | a failed refresh removes "token", goes to "/login" and rejects with the refresh error |
| BearerClient.RejectionNamesASentRequest | src/auth/axiosConfig.ts:40-46 | every rejection names a request sent during this call |
| BearerClient.DeadRefreshNeverSettles | src/auth/axiosConfig.ts:29-39 | as written, a refresh endpoint that always answers 401 keeps the call pending through every reply |
| BearerClient.ExemptRefreshSettles | src/auth/axiosConfig.ts:29-46 | with the refresh call pre-marked, every call settles within three requests |
| BearerClient.ExemptDeadRefreshRedirects | src/auth/axiosConfig.ts:40-44 | with the refresh call pre-marked, a dead refresh endpoint ends in the login redirect after two requests |
| BearerClient.Request | src/auth/axiosConfig.ts:13-48 | `api(config)` on the objects does exactly what `Call` does |
| BearerClient.Intercept | src/auth/axiosConfig.ts:26-47 | the handler on the objects does exactly what `OnRejected` does |
| TokenStore.StoreLogin | src/auth/auth.service.ts:10-13 | a truthy `token` stores both "token" and "refreshToken" from the body; otherwise storage is untouched; other keys never change |
| TokenStore.ResultOf | src/auth/auth.service.ts:15-18 | the body is returned on success and the POST's error is rethrown on failure |
| TokenStore.Logout | src/auth/auth.service.ts:21-24 | exactly "token" and "refreshToken" are removed |
| TokenStore.LogoutUndoesLogin | src/auth/auth.service.ts:6-24 | logging out after any login leaves what logging out before it would have left |
| TokenStore.LogoutIdempotent | src/auth/auth.service.ts:21-24 | logging out twice is logging out once |
| TokenStore.LoginUser | src/auth/auth.service.ts:6-19 | `loginUser` on the browser stores as `StoreLogin` says and returns or throws as `ResultOf` says |
| TokenStore.LogoutUser | src/auth/auth.service.ts:21-24 | `logoutUser` on the browser leaves `Logout` of its storage |
| PrivateRoute.DecisionCases | src/components/common/PrivateRoute.tsx:9-23 | spinner exactly while loading; redirect to "/login" with replace exactly when not loading and no user; outlet exactly when not loading with a user; exactly one of the three |
| Session.CheckSessionSettles | src/context/AuthProvider.tsx:14-24 | the user becomes the server's answer or null, loading ends on both paths, and the guard then redirects or renders accordingly |
| Session.LoginOutcomes | src/context/AuthProvider.tsx:26-35 | an accepted login checks the session and navigates to "/dashboard" even if the check fails; a refused one is rethrown and changes nothing |
| Session.LogoutAlwaysSignsOut | src/context/AuthProvider.tsx:37-46 | logout ends with no user and a navigation to "/login" whether or not the server call fails, and never rejects |
| Session.InitialShowsSpinner | src/context/AuthProvider.tsx:8-9 | on mount the guard shows the spinner |
| Session.LoadingNeverReturns | src/context/AuthProvider.tsx:9-46 | once loading is over it never comes back; navigations only grow, and only by "/dashboard" or "/login" |
| Session.LoadingEndsWithFirstCheck | src/context/AuthProvider.tsx:9-29 | from mount, loading is over exactly when some event so far ran `checkSession` |
| Session.AuthProvider.constructor | src/context/AuthProvider.tsx:8-9 | no user, loading |
| Session.AuthProvider.CheckSession | src/context/AuthProvider.tsx:14-24 | the handler does what `Apply` says |
| Session.AuthProvider.Login | src/context/AuthProvider.tsx:26-35 | the handler does what `Apply` says, and rejects exactly when `loginUser` does |
| Session.AuthProvider.Logout | src/context/AuthProvider.tsx:37-46 | the handler does what `Apply` says |
| LegacySession.AuthProvider.constructor | src/auth/AuthProvider.tsx:7-8 | no user, loading |
| LegacySession.AuthProvider.CheckSession | src/auth/AuthProvider.tsx:10-20 | the user is the server's answer or null, and loading ends on both paths |
| LegacySession.AuthProvider.Logout | src/auth/AuthProvider.tsx:22-31 | logout removes both token keys, clears the user and sets the location to "/login" |
| LegacySession.LogoutStopsBearerHeader | src/auth/AuthProvider.tsx:24 | after logout the bearer request interceptor finds no token and adds no header |
| LoginPage.RedirectTarget | src/pages/LoginPage.tsx:19 | `from.pathname` when present and non-empty, otherwise "/" |
| LoginPage.ButtonOf | src/pages/LoginPage.tsx:74-75 | the button is disabled exactly while loading |
| LoginPage.SubmissionOutcome | src/pages/LoginPage.tsx:21-38 | while the request runs the button is disabled and reads "Logowanie..."; afterwards loading is over; success shows "Zalogowano pomyślnie!" and navigates to the target with replace; failure shows "Błąd logowania" / "Nie udało się połączyć z serwerem." and navigates nowhere |
| LoginPage.Page.constructor | src/pages/LoginPage.tsx:13-19 | not loading, and the target fixed from the location state |
| LoginPage.Page.HandleLogin | src/pages/LoginPage.tsx:21-23 | submitting sets loading |
| LoginPage.Page.LoginSettled | src/pages/LoginPage.tsx:24-37 | the settled request does what `Apply` says |
| Favorites.Flip | src/feature/advertisement/AdvertisementContext.tsx:66-71 | the optimistic step flips the membership of `id` only |
| Favorites.Rollback | src/feature/advertisement/AdvertisementContext.tsx:80-85 | the rollback restores the earlier membership of `id` only |
| Favorites.CallFor | src/feature/advertisement/AdvertisementContext.tsx:74-78 | remove for a current favourite, add otherwise |
| Favorites.IdsOf | src/feature/advertisement/AdvertisementContext.tsx:46 | the set holds exactly the returned IDs, with duplicates collapsed |
| Favorites.FlipInvolution | src/feature/advertisement/AdvertisementContext.tsx:66-71 | flipping twice is no change |
| Favorites.RollbackUndoesFlip | src/feature/advertisement/AdvertisementContext.tsx:64-85 | a failed toggle ends where it began |
| Favorites.RollbackKeepsOtherToggles | src/feature/advertisement/AdvertisementContext.tsx:80-85 | rolling back one toggle keeps another advertisement's toggle made meanwhile |
| Favorites.AdvertisementStore.FetchAds | src/feature/advertisement/AdvertisementContext.tsx:27-37 | ads are replaced only on success, and loading ends on both paths |
| Favorites.AdvertisementStore.FetchFavorites | src/feature/advertisement/AdvertisementContext.tsx:39-51 | nobody signed in gives the empty set, success gives the returned IDs, and failure keeps the set |
| Favorites.AdvertisementStore.ToggleFavorite | src/feature/advertisement/AdvertisementContext.tsx:58-78 | without a user it only alerts "Zaloguj się!"; otherwise it flips `id` and sends the matching call |
| Favorites.AdvertisementStore.CompleteToggle | src/feature/advertisement/AdvertisementContext.tsx:79-87 | a failure rolls back; a success changes nothing |
| Favorites.ClickEffects | src/components/common/FavoriteButton.tsx:13-29 | every click prevents the default and stops propagation first; a signed-in click toggles this ad exactly once; any other click only shows the sign-in toast |
| Favorites.FavoriteAdsExactly | src/pages/FavoritesPage.tsx:8 | exactly the ads whose ID is a favourite, in order, never more |
| Favorites.FavoritesPageCases | src/pages/FavoritesPage.tsx:18-31 | spinner while loading; the empty state for no favourites; the cards shown are favourites |
| ChatWindow.ApplyKeepsValid | src/feature/chat/components/ChatWindow.tsx:35-72 | every handler keeps the invariant: a timer is armed exactly when "typing" was the last status sent, only while the input holds text, and "typing" is never sent twice in a row |
| ChatWindow.RunKeepsValid | src/feature/chat/components/ChatWindow.tsx:25-72 | the invariant holds after any sequence of events |
| ChatWindow.InitialValid | src/feature/chat/components/ChatWindow.tsx:15 | the invariant holds on mount |
| ChatWindow.AppendStatus | src/feature/chat/components/ChatWindow.tsx:44-55 | sending a status other than a second "typing" keeps "typing" from repeating |
| ChatWindow.BurstSendsTypingOnce | src/feature/chat/components/ChatWindow.tsx:48-57 | a burst of non-blank keystrokes sends "typing" once when no timer was armed, not at all when one was, and leaves a timer armed |
| ChatWindow.SendCases | src/feature/chat/components/ChatWindow.tsx:60-72 | sending non-blank text sends it untrimmed, then "not typing", disarms the timer and empties the input; blank text changes nothing |
| ChatWindow.BlankInputStopsTyping | src/feature/chat/components/ChatWindow.tsx:39-46 | blank input disarms the timer and sends "not typing" |
| ChatWindow.UnmountLeavesPartnerNotTyping | src/feature/chat/components/ChatWindow.tsx:25-31 | after unmount no timer is armed, and the last status sent is not "typing" |
| ChatWindow.OnlyEnterSends | src/feature/chat/components/ChatWindow.tsx:124 | only Enter sends from the keyboard |
| ChatWindow.IsMeCases | src/feature/chat/components/ChatWindow.tsx:87 | a message is one's own exactly when its sender is the user's email, or "" without a user |
| ChatWindow.Window.constructor | src/feature/chat/components/ChatWindow.tsx:15 | empty input, no timer, nothing sent |
| ChatWindow.Window.SendTypingStatus | src/feature/chat/components/ChatWindow.tsx:44 | one status is appended to what the partner was sent |
| ChatWindow.Window.HandleInputChange | src/feature/chat/components/ChatWindow.tsx:35-58 | the handler does what `Apply` says and keeps the invariant |
| ChatWindow.Window.TimerFires | src/feature/chat/components/ChatWindow.tsx:54-57 | the timer sends "not typing" and disarms itself |
| ChatWindow.Window.HandleSend | src/feature/chat/components/ChatWindow.tsx:60-72 | the handler does what `Apply` says and keeps the invariant |
| ChatWindow.Window.Unmount | src/feature/chat/components/ChatWindow.tsx:25-31 | the cleanup does what `Apply` says and keeps the invariant |
| ChatsPage.FilteredExactly | src/pages/ChatsPage.tsx:37-39 | a summary is listed exactly when its lower-cased partner contains the lower-cased query and the partner is not oneself; order is kept |
| ChatsPage.EmptyQueryKeepsAllButOwn | src/pages/ChatsPage.tsx:38 | an empty query lists every summary except those with oneself |
| ChatsPage.Preview | src/pages/ChatsPage.tsx:91 | the last message, or the invitation when it is empty |
| ChatsPage.SidebarCases | src/pages/ChatsPage.tsx:70-106 | "Brak aktywnych czatów" shows exactly when no summary passes the filter |
| ChatsPage.Page.constructor | src/pages/ChatsPage.tsx:17-19 | no summaries, no choice, empty query |
| ChatsPage.Page.FetchSummaries | src/pages/ChatsPage.tsx:23-31 | the list is replaced only on success |
| ChatsPage.Page.SetSearchQuery | src/pages/ChatsPage.tsx:64 | the query becomes the typed text |
| ChatsPage.Page.Select | src/pages/ChatsPage.tsx:74 | a click chooses that partner |
| SearchPage.FieldsFromUrl | src/pages/SearchPage.tsx:26-30 | each field starts as its URL value, or "" |
| SearchPage.ParamsOf | src/pages/SearchPage.tsx:57-65 | a key is present exactly when its field is non-empty, with the field copied verbatim; no other key is present |
| SearchPage.ApplyAfterClearIsEmpty | src/pages/SearchPage.tsx:57-76 | applying right after clearing gives empty parameters |
| SearchPage.FieldsSurviveUrl | src/pages/SearchPage.tsx:26-65 | fields written to the URL read back unchanged |
| SearchPage.UrlRoundTrip | src/pages/SearchPage.tsx:26-65 | reading a URL and applying again reproduces its non-empty filter entries only |
| SearchPage.Truthy | src/pages/SearchPage.tsx:38-42 | an absent or empty parameter becomes `undefined`, and any other is passed on |
| SearchPage.QueryAfterApply | src/pages/SearchPage.tsx:37-65 | the query sent after applying carries exactly the non-empty fields; after clearing it carries nothing |
| SearchPage.ShowClearCases | src/pages/SearchPage.tsx:129 | "clear" shows exactly when a price bound or the category is set; title and location do not count |
| SearchPage.Page.constructor | src/pages/SearchPage.tsx:22-30 | the fields start from the URL |
| SearchPage.Page.FetchAds | src/pages/SearchPage.tsx:33-54 | the query is derived from the URL; ads are replaced only on success; loading ends on both paths |
| SearchPage.Page.HandleApplyFilters | src/pages/SearchPage.tsx:57-66 | the URL becomes `ParamsOf` the fields |
| SearchPage.Page.ClearFilters | src/pages/SearchPage.tsx:69-76 | all five fields become "" and the URL parameters empty |
| SearchPage.Page.KeyDown | src/pages/SearchPage.tsx:94-111 | Enter applies and other keys do nothing |
| HeroSearch.SearchParamsCases | src/components/common/HeroSearch.tsx:16-19 | `title` is present exactly when non-empty, and so is `location`; no other key is present |
| HeroSearch.SearchPageShowsTheSearch | src/components/common/HeroSearch.tsx:15-24 | the search page opened by a search starts with the same title and city and no other filter |
| HeroSearch.Hero.constructor | src/components/common/HeroSearch.tsx:11-12 | both boxes empty |
| HeroSearch.Hero.HandleSearch | src/components/common/HeroSearch.tsx:15-25 | always navigates to "/search" with those parameters |
| HeroSearch.Hero.HandleKeyDown | src/components/common/HeroSearch.tsx:27-31 | Enter searches and other keys do nothing |
| CityAutocomplete.SuggestionsExactly | src/components/common/CityAutocomplete.tsx:43 | a city is suggested exactly when it starts with the input, whatever the case; order is kept |
| CityAutocomplete.TypingNarrows | src/components/common/CityAutocomplete.tsx:43 | typing more only narrows the suggestions |
| CityAutocomplete.VisibleAfterInput | src/components/common/CityAutocomplete.tsx:42-75 | after typing, the list is visible exactly when the input is non-empty and some city matches; empty input keeps the old suggestions |
| CityAutocomplete.Box.constructor | src/components/common/CityAutocomplete.tsx:24-25 | closed, with no suggestions |
| CityAutocomplete.Box.HandleInputChange | src/components/common/CityAutocomplete.tsx:38-49 | the raw input goes to `onChange` first, and the state follows `AfterInput` |
| CityAutocomplete.Box.HandleSelectCity | src/components/common/CityAutocomplete.tsx:51-54 | `onChange(city)`, then the list closes |
| CityAutocomplete.Box.Focus | src/components/common/CityAutocomplete.tsx:69-71 | focus reopens only for a non-empty value |
| CityAutocomplete.Box.ClickOutside | src/components/common/CityAutocomplete.tsx:29-33 | a press outside closes the list |
| Advertisements.FixDockerUrlCases | src/pages/SingleAdPage.tsx:28-31 | null exactly for a missing or empty URL; unchanged without the storage origin; otherwise only the first occurrence is replaced |
| Advertisements.FixDockerUrlRewritesOrigin | src/feature/advertisement/components/AdCard.tsx:9-12 | a storage URL becomes the same path on "http://localhost:9000" |
| AdCard.ImageChoice | src/feature/advertisement/components/AdCard.tsx:17-18 | the first thumbnail when truthy, otherwise the first image; no picture exactly when neither is a non-empty URL |
| AdCard.PictureOrPlaceholder | src/feature/advertisement/components/AdCard.tsx:34-47 | the placeholder is hidden exactly when there is a picture |
| AdCard.BadgeCases | src/feature/advertisement/components/AdCard.tsx:54-57 | "Aktywne" exactly when active, "Zakończone" otherwise |
| AdCard.LinkIdentifiesAd | src/feature/advertisement/components/AdCard.tsx:31 | the link is "/advertisement/" + ID, and different ads link to different pages |
| Cycle.Succ | src/pages/SingleAdPage.tsx:47 | `(i + 1) % n` stays in range and wraps at the end |
| Cycle.Pred | src/pages/SingleAdPage.tsx:52 | `(i - 1 + n) % n` stays in range and wraps at the start |
| Cycle.PredSuccInverse | src/pages/SingleAdPage.tsx:45-53 | the previous image undoes the next one, and the other way round |
| Cycle.Iterate | src/components/common/RotatingText.tsx:11 | any number of steps stays in range |
| Cycle.IterateIsShift | src/components/common/RotatingText.tsx:11 | k steps within one turn are a shift by k, wrapped once |
| Cycle.FullTurn | src/components/common/RotatingText.tsx:11 | n steps come back to the start |
| Cycle.VisitsAll | src/components/common/RotatingText.tsx:11 | one turn reaches every position exactly once |
| RotatingText.Rotator.constructor | src/components/common/RotatingText.tsx:7 | the index starts at 0 |
| RotatingText.Rotator.Tick | src/components/common/RotatingText.tsx:9-11 | a tick advances the index by one modulo 5 and keeps it in range |
| RotatingText.FiveTicksShowEveryWord | src/components/common/RotatingText.tsx:4-11 | five ticks return to the start word, having shown each of the five words once |
| SingleAdPage.Images | src/pages/SingleAdPage.tsx:43 | `fixDockerUrl` of each image URL, or no images |
| SingleAdPage.Gallery.constructor | src/pages/SingleAdPage.tsx:40-41 | index 0, lightbox closed |
| SingleAdPage.Gallery.Next | src/pages/SingleAdPage.tsx:45-48 | the right arrow, which exists only for more than one image, moves to the next image in range |
| SingleAdPage.Gallery.Prev | src/pages/SingleAdPage.tsx:50-53 | the left arrow moves to the previous image in range |
| SingleAdPage.Gallery.Select | src/pages/SingleAdPage.tsx:40 | choosing an image index in range shows it |
| SingleAdPage.Gallery.ClickPicture | src/pages/SingleAdPage.tsx:90 | a picture click opens the lightbox only when there are images |
| SingleAdPage.Gallery.CloseLightbox | src/pages/SingleAdPage.tsx:41 | the lightbox closes |
| SingleAdPage.AnonymousVisitorOwnsSellerlessAd | src/pages/SingleAdPage.tsx:75 | as written, an anonymous visitor on an ad with no `sellerEmail` is treated as the owner |
| SingleAdPage.IntendedContactCases | src/pages/SingleAdPage.tsx:195-215 | with the intended test: the owner notice only for the signed-in seller, the chat for other signed-in users, and the login link for anonymous visitors |
| SingleAdPage.OwnerTestDiffersOnlyWhenAnonymous | src/pages/SingleAdPage.tsx:75 | the written and intended tests differ only for an anonymous visitor on an ad without `sellerEmail` |
| AdSchema.DigitRunOfRender | src/feature/advertisement/add-advertisement.schema.ts:3 | the leading digit run of a rendered price is its whole units |
| AdSchema.DigitRunIsMaximal | src/feature/advertisement/add-advertisement.schema.ts:3 | `\d+` can end only where the digit run ends |
| AdSchema.MatchesPriceIff | src/feature/advertisement/add-advertisement.schema.ts:3-13 | the pattern accepts exactly one or more digits, optionally followed by a dot and one or two digits |
| AdSchema.NonZeroDigitConcat | src/feature/advertisement/add-advertisement.schema.ts:14 | a non-zero digit is in a concatenation exactly when it is in one part |
| AdSchema.MatchingPriceReadWhole | src/feature/advertisement/add-advertisement.schema.ts:13-14 | `parseFloat` reads a matching price from its first character, unsigned |
| AdSchema.MantissaOfMatching | src/feature/advertisement/add-advertisement.schema.ts:13-14 | the digits `parseFloat` reads from a matching price are the price without its dot |
| AdSchema.PositiveIffNonZeroDigit | src/feature/advertisement/add-advertisement.schema.ts:14 | for a matching price, greater than 0 exactly when some digit is non-zero |
| AdSchema.OnlyZerosRefused | src/feature/advertisement/add-advertisement.schema.ts:14 | a matching price made of zeros is refused |
| AdSchema.ZeroRefused | src/feature/advertisement/add-advertisement.schema.ts:14 | "0" matches but is refused |
| AdSchema.ZeroPointZeroRefused | src/feature/advertisement/add-advertisement.schema.ts:14 | "0.0" matches but is refused |
| AdSchema.DoubleZerosRefused | src/feature/advertisement/add-advertisement.schema.ts:14 | "00.00" matches but is refused |
| AdSchema.OneCentAccepted | src/feature/advertisement/add-advertisement.schema.ts:13-14 | "0.01" passes both price checks |
| AdSchema.FieldIssues | src/feature/advertisement/add-advertisement.schema.ts:6-17 | a field's checks report only issues of that field |
| AdSchema.ReportedByItsField | src/feature/advertisement/add-advertisement.schema.ts:5-18 | an issue is reported exactly when its own field reports it |
| AdSchema.AcceptedIffRulesHold | src/feature/advertisement/add-advertisement.schema.ts:5-18 | a form is accepted exactly when all five field rules hold |
| AdSchema.LengthRulesReported | src/feature/advertisement/add-advertisement.schema.ts:6-17 | each length rule reports its own message exactly when broken (title 5, description 20, location 2, category 1, in UTF-16 units) |
| AdSchema.PriceRulesReported | src/feature/advertisement/add-advertisement.schema.ts:12-14 | each price check reports its own message exactly when it fails, and all checks run |
| AdSchema.EmptyPriceIssues | src/feature/advertisement/add-advertisement.schema.ts:10-14 | an empty price gets the required, malformed and not-positive messages, in that order |
| UserMapper.MapUserApiToDomain | src/auth/auth.mapper.ts:3-17 | id from `userId`; email, name and role copied; `isAdmin` exactly for "ADMIN"; rating and count copied |
| UserMapper.MappingLosesNothing | src/auth/auth.mapper.ts:3-17 | the DTO can be read back from the user, so distinct DTOs map to distinct users |
| UserMapper.MappedUsersAreConsistent | src/auth/auth.mapper.ts:10 | the users the mapper produces are exactly those whose admin flag agrees with their role |
| UserMapper.OnlyExactAdminRole | src/auth/auth.mapper.ts:10 | "ROLE_ADMIN" and "admin" are not administrators; "ADMIN" is |
| Strings.BlankIffAllWhitespace | src/feature/chat/components/ChatWindow.tsx:39 | `trim() === ""` exactly when every character is JavaScript white space |
| Strings.TrimStartIsSuffix | src/feature/chat/components/ChatWindow.tsx:39 | the start trim keeps a suffix, after nothing but white space |

## Left out

- HTTP, WebSocket and STOMP transport. Server replies are inputs; navigations and redirects are recorded.
- Concurrency between calls. Two calls do not interleave, and the model has no refresh queue or shared "refreshing" flag; neither interceptor has them.
- Real timers and intervals. The typing timer's firing and the headline interval's tick are explicit events.
- Percent-encoding by `createSearchParams` and `URLSearchParams`. Repeated keys are not modelled either; a query string is a map holding the first value of each key.
- `Number(...)` conversion of the search page's numeric parameters. The query carries the text handed to `Number`.
- Locale and floating-point display: dates, prices and `toLocaleString`.
- `parseFloat` underflow. The model reads any value below the smallest double as positive, where `parseFloat` gives 0. This holds with or without an exponent: "1e-400", or "0." followed by 400 zeros and a 1. No such price matches the pattern, which allows at most two decimals, so no form's verdict changes.
- Only status 401 starts a refresh. Every other status, 403 included, is rejected unchanged (`OtherErrorsRejectedUnchanged`).
- AdCard.PictureOrPlaceholder: decides from the URL alone. The image's `onError` handler, which hides a picture that fails to load and shows the placeholder, is not modelled.
- AdSchema: the schema is modelled on string input only. The add-advertisement form's numeric defaults (`price: 0`, `categoryId: 0`) would fail `z.string()` with a type error, and that case is not modelled.
- Strings.LowerChar: maps ASCII, Latin-1 and the Polish capitals only. Other letters are left as they are rather than lower-cased.
- The list of Polish cities (`src/data/cities`) is not part of this model; it is a parameter of the autocomplete.
- `useChat`'s connection, which does not return the `sendTypingStatus` and `isPartnerTyping` the chat window uses. The typing status is a sink that records what it is sent.
- The chat messages' rendering, scrolling, and the `isPartnerTyping` indicator.
- `SingleAdPage.Gallery.Next` and `SingleAdPage.Gallery.Prev` require at least two images. With none, `% 0` yields `NaN` in JavaScript, and the arrows are not rendered anyway.
- The advertisement page's fetch by ID, its loading and "not found" screens, and its chat dialog.
- Rendering-only pages (home, dashboard, profile, register, add-advertisement, navbar), the other service wrappers, and the `useAuth` and `useAdvertisement` hooks that only throw outside their provider.

## Findings

| source | as written | input that shows it | evidently intended | confidence | as-written member | corrected member |
|---|---|---|---|---|---|---|
| src/api/axiosConfig.ts:23 | the refresh call goes through the same intercepted `api` with a fresh, unmarked config, so a 401 from the refresh endpoint starts another refresh | an expired refresh cookie: `/auth/refreshToken` answers 401 every time | a failed refresh ends in the "/login" redirect after one refresh attempt | not executed | CookieClient.DeadRefreshNeverSettles | CookieClient.ExemptDeadRefreshRedirects |
| src/auth/axiosConfig.ts:33 | same as above for the bearer client: each 401 from the refresh endpoint triggers another refresh | a revoked token: `/auth/refreshToken` answers 401 every time | "token" removed and redirect to "/login" after one refresh attempt | not executed | BearerClient.DeadRefreshNeverSettles | BearerClient.ExemptDeadRefreshRedirects |
| src/pages/SingleAdPage.tsx:75 | `user?.email === ad.sellerEmail` is `undefined === undefined` for an anonymous visitor on an ad whose body has no `sellerEmail` | not signed in, advertisement JSON without `sellerEmail` | the owner's notice only for a signed-in seller; the anonymous visitor gets the login link | not executed | SingleAdPage.AnonymousVisitorOwnsSellerlessAd | SingleAdPage.IntendedContactCases |
