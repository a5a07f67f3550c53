# swapnews in Dafny

A model of the application logic of swapnews, a swipe-to-read news app.

The server side has three route groups:

- **auth**: signup, login and `/me`.
- **news**: list, create, update and delete.
- **publisher applications**: status, request, pending list, approve and reject.

It also has the three document schemas (`User`, `News`, `PublisherRequest`).

The client side is a single React context holding the feed, bookmarks, likes, language, sidebar and session. The pages and components that read and change that context are also modelled:

- the swipe feed;
- the article card;
- the sidebar;
- the login page;
- the publisher application form;
- the publisher studio and admin add-news forms.

Layout, one module per source file:

| Dafny file | module | source |
|---|---|---|
| common.dfy | `Common` | shared ids, optional body fields, HTTP replies |
| recency.dfy | `Recency` | `.sort({ createdAt: -1 })` |
| user_model.dfy | `UserModel` | backend/models/User.js |
| news_model.dfy | `NewsModel` | backend/models/News.js |
| publisher_request_model.dfy | `PublisherRequestModel` | backend/models/PublisherRequest.js |
| database.dfy | `Database` | the document store: collections, unique indexes, `save()` |
| auth_routes.dfy | `AuthRoutes` | backend/routes/auth.js |
| news_routes.dfy | `NewsRoutes` | backend/routes/news.js |
| publisher_routes.dfy | `PublisherRoutes` | backend/routes/publisher.js |
| news_context.dfy | `NewsContext` | frontend/src/context/NewsContext.jsx |
| home.dfy | `Home` | frontend/src/pages/Home.jsx |
| news_card.dfy | `NewsCard` | frontend/src/components/NewsCard.jsx |
| sidebar.dfy | `Sidebar` | frontend/src/components/Sidebar.jsx |
| login_page.dfy | `LoginPage` | frontend/src/pages/Login.jsx |
| publisher_request_form.dfy | `PublisherRequestForm` | frontend/src/pages/PublisherRequestForm.jsx |
| news_editor.dfy | `NewsEditor` | the add-news form shared by the two pages below |
| publisher_dashboard.dfy | `PublisherDashboard` | frontend/src/pages/PublisherDashboard.jsx |
| admin_page.dfy | `AdminPage` | frontend/src/pages/Admin.jsx |

How the model is built:

- **The store.** The document store is one class, `Database.Store`, with three collections:
  - users, a map keyed by id;
  - publisher requests and articles, each a sequence in insertion order.

  Its invariant `Valid()` holds these properties:
  - unique emails and usernames;
  - every stored user passes its schema;
  - every request is well formed;
  - at most one pending request per user;
  - distinct ids;
  - every id is below the next one to be handed out.
- **Route handlers.** Each route that writes is a method on the store. Its `ensures` give the reply and the new collections in terms of pure functions, and the lemmas about those functions state what the routes promise. A `save()` that can fail is a store method with its own error function: `SaveNewUser` and `SaveError`.
- **Client state.** The React state becomes classes whose methods update fields: `NewsProvider`, `HomeFeed`, `RequestForm` and `AddNewsForm`. Pure view decisions are functions: navigation items, the render window, post-login routing, button content.
- **Ids, clock and foreign libraries.**
  - Ids are naturals. The fixed admin id `000000000000000000000001` is `AdminId == 1`.
  - The clock is a `Timestamp` parameter.
  - bcrypt and jsonwebtoken enter as function values in `AuthRoutes.Crypto`, and the bcrypt salt as a parameter.
  - HTTP calls from the client enter as `ApiReply` parameters, and `window.confirm` as a boolean.
  - A request-body field that may be absent is an `Option`. "Truthy" means present and non-empty, which is what mongoose's `required` checks on strings.
- **Email lookups.** The email lookups in signup and login compare against the trimmed, lowercased email (`NormalizeEmail`). This follows the schema setters, which mongoose also applies to query filters.
- **Decisions are not final.** Approve and reject act on a request whatever its current status, so a decided request can be decided again (backend/routes/publisher.js:55-89).
- **The signup id.** The signup reply names the new user's id `_id`.
- **Ties between timestamps.** Among documents with the same `createdAt`, the model takes the one stored later as the newer. This applies both to the sorted lists (`Recency.SortPutsLaterFirstOnTies`) and to the status lookup (`PublisherRoutes.LatestIndexPrefersLaterOnTies`). `StatusAfterSubmit` relies on this rule when the new request's timestamp equals an earlier one's.

## Model

| member | source | states |
|---|---|---|
| Recency.Insert | backend/routes/news.js:8 | the result holds the input's elements plus the inserted one, as multisets |
| Recency.InsertKeepsNewestFirst | backend/routes/news.js:8 | inserting into a newest-first sequence keeps it newest first; the head becomes the new element or stays the old head |
| Recency.SortNewestFirst | backend/routes/publisher.js:47 | `sort({ createdAt: -1 })`: the result is ordered newest first and is a permutation of the input |
| Recency.SortPutsLaterFirstOnTies | backend/routes/news.js:8 | of two documents with equal `createdAt`, the one stored later is listed first |
| UserModel.TrimStart | backend/models/User.js:8 | the `trim` setter, leading half: a suffix of the input, only whitespace dropped, the result does not start with whitespace |
| UserModel.TrimEnd | backend/models/User.js:8 | the trailing half: a prefix of the input, only whitespace dropped, the result does not end with whitespace |
| UserModel.Lowercase | backend/models/User.js:16 | the `lowercase` setter: same length, no upper-case letter left |
| UserModel.NewUser | backend/models/User.js:4-30 | a new user document stores the trimmed username, the trimmed lowercased email, the given hash, no bookmarks and `isPublisher` false |
| UserModel.SchemaValidMeaning | backend/models/User.js:4-22 | a user passes validation iff its username has at least 3 characters, its email is non-empty and its (hashed) password has at least 6 |
| UserModel.TrimIdempotent | backend/models/User.js:8 | trimming twice is trimming once |
| UserModel.LowercaseIdempotent | backend/models/User.js:16 | lowercasing twice is lowercasing once |
| UserModel.TrimStartLowercase | backend/models/User.js:15-16 | dropping leading whitespace commutes with lowercasing |
| UserModel.TrimEndLowercase | backend/models/User.js:15-16 | dropping trailing whitespace commutes with lowercasing |
| Database.Store.constructor | backend/index.js:13-14 | the connected database starts empty and satisfies the store invariant |
| UserModel.NormalizeEmailCommutesAndIsIdempotent | backend/models/User.js:11-17 | the stored email form does not depend on the setter order, and normalising a stored email changes nothing |
| NewsModel.NewArticle | backend/models/News.js:4-31 | an article is built iff title, description and imageUrl are present and non-empty; otherwise the failing paths are named; content is optional; category defaults to "General", source to "SwipeNews"; `createdAt` is the creation time |
| NewsModel.CreatedAtNotFromClient | backend/models/News.js:28-31 | a `createdAt` in the creation fields makes no difference to the built article |
| NewsModel.Patched | backend/routes/news.js:37-40 | an update never changes the id, and an update with no fields changes nothing |
| NewsModel.IndexOfArticle | backend/routes/news.js:37 | `findById`: absent iff no article has the id, otherwise the position of one that has |
| NewsModel.RemoveKeepsDistinct | backend/routes/news.js:49 | removing one article keeps the remaining ids distinct |
| NewsModel.RemoveAtMembers | backend/routes/news.js:49 | with distinct ids, removing the article at a position removes exactly the articles with its id |
| PublisherRequestModel.NewPublisherRequest | backend/models/PublisherRequest.js:4-33 | a request is built iff userId, fullName, email, phoneNumber and aadhaarNumber are all present (strings non-empty); a built request is pending, well formed, stamped with the creation time and copies the body's fields |
| PublisherRequestModel.StatusNamesDistinct | backend/models/PublisherRequest.js:25-29 | the three status strings are distinct and none is "none" |
| PublisherRequestModel.DecisionKeepsOnePending | backend/routes/publisher.js:60 | setting one request to approved or rejected keeps at most one pending request per user |
| Database.InsertKeepsUnique | backend/models/User.js:7 | adding a user with a new email and a new username keeps both unique indexes |
| Database.SaveError | backend/routes/auth.js:28 | saving a new user fails iff it fails its schema or its email or username is already taken |
| Database.GrantPublisher | backend/routes/publisher.js:64-67 | the approval's user update: same keys; only that user changes, and only its `isPublisher`, to true; no flag is ever cleared |
| Database.Store.SaveNewUser | backend/routes/auth.js:28 | the store keeps its invariant; the user is added exactly when `SaveError` reports nothing |
| Database.Store.SaveDecision | backend/routes/publisher.js:60-61 | `request.status = s; save()`: only that request's status changes, and the invariant is kept |
| Database.Store.SavePublisherFlag | backend/routes/publisher.js:64-67 | `user.isPublisher = true; save()` for a user that may not exist; the invariant is kept |
| AuthRoutes.SignupReply | backend/routes/auth.js:7-39 | 400 "User already exists with this email." iff the email is taken; a success is a 201 carrying the new id, the trimmed username and the normalised email; any other failure is a thrown 500 |
| AuthRoutes.SignupSucceedsIff | backend/routes/auth.js:7-39 | signup succeeds iff the normalised email is free, the trimmed username has at least 3 characters and is free, the normalised email is non-empty, and the HASH has at least 6 characters; the plaintext length is never checked |
| AuthRoutes.SecondSignupRefused | backend/routes/auth.js:12-15 | after a successful signup, a signup with the same normalised email gets 400 "User already exists with this email." |
| AuthRoutes.Signup | backend/routes/auth.js:7-39 | 400 on a taken email, 500 with the save error, or 201 with id, username and email only; stores `hash(password, salt)` under the new id; nothing else changes |
| AuthRoutes.FindByEmail | backend/routes/auth.js:62 | `findOne({ email })`: a stored user with that normalised email, or none exists |
| AuthRoutes.Login | backend/routes/auth.js:42-91 | with the corrected admin check: every reply is a 200 with a token, the single 400 "Invalid credentials.", or bcrypt's 500; a non-admin success comes from a found email with a password |
| AuthRoutes.LoginAsWritten | backend/routes/auth.js:42-91 | the route as the code has it: the same reply shapes as `Login`, but an admin reply needs only the body's email and password to equal the two variables, set or not |
| AuthRoutes.AsWrittenLoginAdmitsEmptyBody | backend/routes/auth.js:47-58 | the route as written, with both admin variables unset, answers a body with no email and no password with the admin token and the admin record; the corrected route answers 400 |
| AuthRoutes.AsWrittenDiffersOnlyWhenUnconfigured | backend/routes/auth.js:47 | the route as written and the corrected one answer differently only for a body equal to an admin pair that is not fully configured |
| AuthRoutes.AdminLoginIgnoresStore | backend/routes/auth.js:47-58 | the configured admin pair gets the same reply whatever the store holds: a token for `{ id: AdminId, isAdmin: true }` and the admin record |
| AuthRoutes.AdminReplyNeedsConfiguredPair | backend/routes/auth.js:47-86 | a login reply marking the user as admin comes only from the configured pair, matched exactly |
| AuthRoutes.LoginFailuresIndistinguishable | backend/routes/auth.js:62-71 | an unknown email and a wrong password both get 400 "Invalid credentials." |
| AuthRoutes.StoredLoginMeaning | backend/routes/auth.js:62-86 | a stored-user login succeeds iff the email is found and the password compares; the token embeds only the user id and the reply is not admin |
| AuthRoutes.Me | backend/routes/auth.js:96-113 | the admin id gets the admin record whatever the store holds; a stored user comes back without the password, with its id only as `_id`, and with its username, email, bookmarks and publisher flag; an unknown id gives `null` |
| NewsRoutes.ListNews | backend/routes/news.js:6-13 | the list is newest first and a permutation of the stored articles |
| NewsRoutes.ListNewsMeaning | backend/routes/news.js:6-13 | an article is listed iff it is stored; the list is newest first and a permutation of the store |
| NewsRoutes.CreateFields | backend/routes/news.js:17-24 | the creation copies the six article fields and never `createdAt` |
| NewsRoutes.CreateNews | backend/routes/news.js:16-32 | 400 and nothing stored on a missing required field; otherwise 201 with the one appended article |
| NewsRoutes.UpdateNews | backend/routes/news.js:35-44 | the article with that id gets the provided fields and is returned; an unknown id gives `null` and no change |
| NewsRoutes.UpdateMeaning | backend/routes/news.js:37-40 | an update changes no other article, keeps the id, and replaces exactly the fields the body provides |
| NewsRoutes.DeleteNews | backend/routes/news.js:47-54 | always "News deleted"; the article with that id, if any, is removed and nothing else changes |
| NewsRoutes.DeleteRemovesFromList | backend/routes/news.js:49 | after a delete, no listed article has that id, and every other article is still listed |
| PublisherRoutes.LatestIndex | backend/routes/publisher.js:9 | the user's newest request: absent iff the user has none; otherwise one of theirs with no later `createdAt` |
| PublisherRoutes.LatestIndexPrefersLaterOnTies | backend/routes/publisher.js:9 | of two requests by one user with equal `createdAt`, the one stored later counts as newest, matching the list order |
| PublisherRoutes.StatusOf | backend/routes/publisher.js:6-15 | the status is "none" iff the user has no request |
| PublisherRoutes.StatusOfMeaning | backend/routes/publisher.js:6-15 | status is "none" iff the user has no request; otherwise it is the status of their newest request |
| PublisherRoutes.LatestIndexIgnoresStatus | backend/routes/publisher.js:9 | which request is newest depends only on owners and timestamps |
| PublisherRoutes.StatusAfterSubmit | backend/routes/publisher.js:28-37 | after a submission stamped no earlier than the stored requests, the user's status is "pending" |
| PublisherRoutes.StatusAfterDecision | backend/routes/publisher.js:55-89 | deciding the user's newest request makes their status that decision |
| PublisherRoutes.IndexOfRequest | backend/routes/publisher.js:57 | `findById`: absent iff no request has the id, otherwise its position |
| PublisherRoutes.PendingOnly | backend/routes/publisher.js:47 | `find({ status: "pending" })`: exactly the pending requests |
| PublisherRoutes.PendingRequests | backend/routes/publisher.js:45-52 | the pending list is newest first and a permutation of the pending requests |
| PublisherRoutes.PendingRequestsExact | backend/routes/publisher.js:45-52 | the pending list holds exactly the pending requests, newest first |
| PublisherRoutes.SubmitRequest | backend/routes/publisher.js:18-42 | 400 "Request already pending." and no change if the user has a pending request; 500 and no change on a missing field; otherwise 201 and exactly one pending request appended; the invariant is kept |
| PublisherRoutes.Approve | backend/routes/publisher.js:55-74 | 404 and no change for an unknown id; otherwise that request becomes approved whatever its status, and its user, if it exists, becomes a publisher |
| PublisherRoutes.Reject | backend/routes/publisher.js:77-89 | 404 and no change for an unknown id; otherwise only that request becomes rejected and no user changes |
| NewsContext.WithoutId | frontend/src/context/NewsContext.jsx:43 | `filter(b => b._id !== id)`: keeps exactly the entries with another id; unchanged if none had it |
| NewsContext.WithoutIdAppend | frontend/src/context/NewsContext.jsx:43 | filtering distributes over concatenation, so kept entries stay in order |
| NewsContext.WithoutIdKeepsDistinct | frontend/src/context/NewsContext.jsx:43 | filtering a list without duplicate ids leaves none |
| NewsContext.Toggled | frontend/src/context/NewsContext.jsx:40-49 | toggling a listed id removes every entry with it; toggling an unlisted one appends the item at the end |
| NewsContext.ToggleFlipsOnlyThisId | frontend/src/context/NewsContext.jsx:40-51 | after a toggle the item's id is listed iff it was not before; every other id is listed as before |
| NewsContext.ToggleKeepsOthersInOrder | frontend/src/context/NewsContext.jsx:42-46 | a toggle never changes the other entries or their order |
| NewsContext.ToggleTwiceRestores | frontend/src/context/NewsContext.jsx:42-46 | toggling an absent item twice gives back the original list |
| NewsContext.ToggleKeepsDistinct | frontend/src/context/NewsContext.jsx:42-46 | a list without duplicate ids has none after a toggle |
| NewsContext.Switched | frontend/src/context/NewsContext.jsx:70-72 | the language change always switches to the other language |
| NewsContext.SwitchTwice | frontend/src/context/NewsContext.jsx:70-72 | switching twice gives back the original language |
| NewsContext.LoginOutcome | frontend/src/context/NewsContext.jsx:108-119 | a login succeeds with the reply's user, or fails with the server's message, or "Login failed" when there is none |
| NewsContext.NewsProvider.constructor | frontend/src/context/NewsContext.jsx:9-20 | the initial state, with bookmarks, likes (`\|\| []`) and user read back from storage |
| NewsContext.NewsProvider.FetchNews | frontend/src/context/NewsContext.jsx:23-33 | the feed becomes the server's list, or stays on failure; loading ends false |
| NewsContext.NewsProvider.ToggleBookmark | frontend/src/context/NewsContext.jsx:40-51 | bookmarks toggled, stored "bookmarks" equals the new list, `isBookmarked` flips, likes untouched |
| NewsContext.NewsProvider.ToggleLike | frontend/src/context/NewsContext.jsx:54-65 | likes toggled, stored "likes" equals the new list, `isLiked` flips, bookmarks untouched |
| NewsContext.NewsProvider.HandleLanguageChange | frontend/src/context/NewsContext.jsx:70-72 | the language switches and nothing else changes |
| NewsContext.NewsProvider.OpenSidebar | frontend/src/context/NewsContext.jsx:152 | the sidebar is open afterwards and nothing else changes |
| NewsContext.NewsProvider.CloseSidebar | frontend/src/context/NewsContext.jsx:153 | the sidebar is closed afterwards and nothing else changes |
| NewsContext.NewsProvider.ToggleSidebar | frontend/src/context/NewsContext.jsx:154 | the sidebar flag is negated and nothing else changes |
| NewsContext.NewsProvider.Login | frontend/src/context/NewsContext.jsx:108-119 | on success, user and token are stored and the user is set; on failure neither storage nor user changes |
| NewsContext.NewsProvider.Logout | frontend/src/context/NewsContext.jsx:131-135 | "user" and "token" are removed from storage and the user is cleared |
| Home.NextIndex | frontend/src/pages/Home.jsx:15-32 | a drag keeps the index in range and moves it by at most one; no move when the horizontal drift is 50 or more or the vertical offset is within ±50; it moves forward iff swiped up with a next article, back iff swiped down with a previous one |
| Home.SwipesStopAtEnds | frontend/src/pages/Home.jsx:22-28 | an up-swipe on the last article and a down-swipe on the first change nothing |
| Home.ScreenFor | frontend/src/pages/Home.jsx:43-46 | while loading, or with an empty feed, no card is shown; otherwise the article at the current index |
| Home.LitDots | frontend/src/pages/Home.jsx:90-114 | some dot is always lit; the left one iff the sidebar is open, the right one iff the details are shown |
| Home.HomeFeed.constructor | frontend/src/pages/Home.jsx:11-12 | the feed starts on the first article with the details closed |
| Home.HomeFeed.HandleDragEnd | frontend/src/pages/Home.jsx:15-32 | the index becomes `NextIndex` of the old one over the context's feed |
| Home.HomeFeed.HandlePanEnd | frontend/src/pages/Home.jsx:36-41 | the details open iff x < -60 and \|y\| < 50, and never close |
| Home.HomeFeed.LeftDot | frontend/src/pages/Home.jsx:82-91 | details closed, sidebar open, and only the left dot lit |
| Home.HomeFeed.CenterDot | frontend/src/pages/Home.jsx:94-103 | both panels closed, and only the center dot lit |
| Home.HomeFeed.RightDot | frontend/src/pages/Home.jsx:106-115 | sidebar closed, details open, and only the right dot lit |
| NewsCard.RenderedIndices | frontend/src/components/NewsCard.jsx:27 | a card renders iff its index is within one of the current index: at most three render, and the current one always does |
| NewsCard.LanguageLabel | frontend/src/components/NewsCard.jsx:107 | the label is "EN" iff the language is English, otherwise "HI" |
| NewsCard.View | frontend/src/components/NewsCard.jsx:7-8 | the heart is filled iff some liked article has the card's id; the bookmark iff some bookmarked one has |
| NewsCard.LikeTogglesOnlyThisCard | frontend/src/components/NewsCard.jsx:7-8 | Like flips this card's heart, not its bookmark, and no card with another id |
| NewsCard.SaveTogglesOnlyThisCard | frontend/src/components/NewsCard.jsx:7-8 | Save flips this card's bookmark, not its heart, and no card with another id |
| Sidebar.UserIdOf | frontend/src/components/Sidebar.jsx:15 | `user.id \|\| user._id` |
| Sidebar.NavItems | frontend/src/components/Sidebar.jsx:23-38 | Home first; only Home without a user; with a user, Saved second and exactly three entries: Publisher Studio for a publisher whatever the status, "Application Pending" (`#`, disabled) for a pending non-publisher, "Become Publisher" otherwise |
| Sidebar.AtMostOneActive | frontend/src/components/Sidebar.jsx:21-38 | at most one entry is highlighted for any page, and the only disabled entry is the pending application |
| Sidebar.PendingEntryMatchesServer | frontend/src/components/Sidebar.jsx:31-34 | for a non-publisher, "Application Pending" shows iff the status route finds their newest request pending |
| Sidebar.HandleEdgePanEnd | frontend/src/components/Sidebar.jsx:45-49 | the edge pan opens the sidebar iff x > 30, and never closes it |
| Sidebar.HandleLogoutClick | frontend/src/components/Sidebar.jsx:110-114 | logs out, then closes the sidebar |
| LoginPage.HandleSubmit | frontend/src/pages/Login.jsx:12-27 | the error is cleared; on success "/admin" iff admin, "/publisher-dashboard" iff a non-admin publisher, "/" otherwise; on failure the message and no navigation |
| LoginPage.Delivered | frontend/src/context/NewsContext.jsx:108-119 | the client gets the body of a 200, and for every failure a message: the route's own text, or the thrown error's message |
| LoginPage.LoginRoutesByRole | frontend/src/pages/Login.jsx:12-27 | end to end with the server's login: the configured admin lands on "/admin", a stored user on the studio iff a publisher, bad credentials show "Invalid credentials.", and a thrown error shows its message or "Login failed" |
| PublisherRequestForm.Updated | frontend/src/pages/PublisherRequestForm.jsx:18-20 | only the named field takes the new value |
| PublisherRequestForm.Payload | frontend/src/pages/PublisherRequestForm.jsx:32-36 | the body carries `user.id \|\| user._id`, `user.email` and the three form fields |
| PublisherRequestForm.CompletePayloadValidIff | frontend/src/pages/PublisherRequestForm.jsx:32-36 | a complete form passes the server's schema iff the user has an id and a non-empty email |
| PublisherRequestForm.LoggedInPayloadValid | frontend/src/pages/PublisherRequestForm.jsx:32-36 | for a user signed in through the login route, a complete form is always accepted as a pending request for that user |
| PublisherRequestForm.RefreshedPayloadValid | frontend/src/pages/PublisherRequestForm.jsx:32-36 | for a session refreshed through GET /me, whose user has only `_id`, a complete form is still accepted as a request for that stored user |
| PublisherRequestForm.ArrowNeverShownAsWritten | frontend/src/pages/PublisherRequestForm.jsx:121 | as written, the arrow renders in no status |
| PublisherRequestForm.Button | frontend/src/pages/PublisherRequestForm.jsx:116-122 | "Submitting..." iff disabled; the (corrected) arrow iff enabled |
| PublisherRequestForm.RequestForm.constructor | frontend/src/pages/PublisherRequestForm.jsx:10-16 | the form starts with three empty fields, status "idle" and no error |
| PublisherRequestForm.RequestForm.HandleChange | frontend/src/pages/PublisherRequestForm.jsx:18-20 | only the named field changes |
| PublisherRequestForm.RequestForm.BeginSubmit | frontend/src/pages/PublisherRequestForm.jsx:22-36 | an incomplete form sets "All fields are required." and sends nothing, status unchanged; a missing user fails before sending; otherwise status becomes submitting and the payload is sent |
| PublisherRequestForm.RequestForm.FinishSubmit | frontend/src/pages/PublisherRequestForm.jsx:37-42 | success on a reply; on failure status "error" with the server's message or "Failed to submit application." |
| NewsEditor.WithField | frontend/src/pages/PublisherDashboard.jsx:19-21 | only the named field takes the new value |
| NewsEditor.SentDraftAcceptedIff | frontend/src/pages/PublisherDashboard.jsx:36-39 | a draft passing the title-and-image check is stored by the server iff its description is non-empty, keeping its fields and category |
| NewsEditor.DeleteRequest | frontend/src/pages/PublisherDashboard.jsx:50-58 | a delete is sent iff confirmed, for that id |
| NewsEditor.AddNewsForm.HandleChange | frontend/src/pages/PublisherDashboard.jsx:19-21 | only the named field changes (the admin panel's copy, Admin.jsx lines 17-19, is the same) |
| NewsEditor.AddNewsForm.HandleSubmit | frontend/src/pages/PublisherDashboard.jsx:34-48 | no title or no image: nothing sent, nothing changes; a successful post hides the form and resets it to the empty draft with category "General"; a failed post changes nothing (the admin panel's copy, Admin.jsx lines 21-35, is the same) |
| NewsEditor.AddNewsForm.constructor | frontend/src/pages/Admin.jsx:9-15 | the form starts hidden with the empty draft |
| NewsEditor.AddNewsForm.Open | frontend/src/pages/PublisherDashboard.jsx:73 | the form is shown and the draft is kept |
| NewsEditor.AddNewsForm.Close | frontend/src/pages/PublisherDashboard.jsx:111 | the form is hidden and the draft is kept |
| PublisherDashboard.CategoriesWellFormed | frontend/src/pages/PublisherDashboard.jsx:159-164 | the six distinct choices start with "General", the reset draft's category |
| PublisherDashboard.HandleLogout | frontend/src/pages/PublisherDashboard.jsx:60-63 | logs out and goes to "/" |
| AdminPage.CategoriesAmongStudio | frontend/src/pages/Admin.jsx:86-89 | the admin's four choices are the studio's first four, including the reset category |

## Left out

- Server wiring: Express setup, the Mongo connection and `listen`. backend/index.js:31-32 mounts only the news and auth routers, so the publisher routes are not reachable in this snapshot; they are modelled as written.
- The token middleware (`../middleware/auth`) is not part of this model. `/me` takes the decoded id as a parameter.
- `AuthRoutes.Crypto`: bcrypt, salt generation and jsonwebtoken are foreign libraries. They are opaque function values, so token expiry and signature checks are not modelled.
- Store failures other than validation and unique-index errors are not modelled: connection errors, and cast errors on malformed ids (the 500/400 replies they cause). A thrown error is modelled by its cause; its message text is a parameter where the client shows it.
- The non-atomic approval: the request save and the user save are two separate writes, and the model takes them in sequence without interruption.
- Concurrent requests, such as two submissions racing past the pending check.
- Ties in `sort({ createdAt: -1 })`: the store does not promise an order among equal timestamps. The model takes one rule everywhere: the document stored later comes first.
- StatusAfterSubmit: covers a new request whose `createdAt` is not older than the stored ones; when it equals an earlier request's, the result rests on the tie rule above, which the store does not promise.
- `UserModel.Lowercase` acts on ASCII letters only. `UserModel.Trim` removes the six ASCII whitespace characters (space, tab, line feed, vertical tab, form feed, carriage return), not the non-ASCII ones that `String.prototype.trim` also removes.
- AuthRoutes.Login: uses the corrected admin check, as do the lemmas and the login page built on it. The route as written is `AuthRoutes.LoginAsWritten`, and see Findings.
- LoginPage.Delivered: the text of a thrown error's message is a parameter, because it comes from mongoose or bcrypt.
- Email lookups assume the ODM applies the schema's `trim`/`lowercase` setters to query filters.
- A login body missing `email`, or a request body missing `userId`, is modelled as matching no stored document. A signup body missing `email` (the lookup finds nothing, then the save fails with a 500) is not modelled: the model's signup takes its fields as strings.
- A signup body without `password` makes bcrypt throw, giving a 500. The model's signup takes all three fields as strings.
- The schema's `timestamps` option (`createdAt`/`updatedAt` on users) is not modelled.
- `NewsRoutes.UpdateNews`: an update with JSON `null` fields is modelled only as absent-or-present values.
- Client I/O: axios, JSON serialisation and `alert`s. `localStorage` is a map; HTTP results are `ApiReply` parameters.
- Mount effects that call the network: the initial `fetchNews` call and the `/auth/me` session refresh (with its logout on failure). `FetchNews` itself is modelled. Storage reads on mount are modelled in the constructor.
- `register` in the context is not modelled; its only logic is a two-way branch on the signup reply.
- The Sidebar's status fetch is I/O; the status string is a parameter of `NavItems`.
- The context's own `showDetail`: Home keeps a separate local flag of the same name, and that local flag is what is modelled.
- Rendering, animation and the `-currentIndex * window.innerHeight` transform. Gesture offsets are integers, since they are only compared with thresholds.
- `FileReader` image upload, the Web Share API, and `fetchNews` after a post or delete.
- `window.confirm` is a boolean input.

## Findings

| source | as written | input that shows it | evidently intended | confidence | as-written member | corrected member |
|---|---|---|---|---|---|---|
| frontend/src/pages/PublisherRequestForm.jsx:121 | `!status === "submitting"` negates the status string first. The boolean result is then compared strictly with a string, which is false for every status. | any status, e.g. "idle": the arrow is never drawn | `status !== "submitting"`: the arrow is shown whenever the button is enabled | high, not executed | PublisherRequestForm.ArrowNeverShownAsWritten | PublisherRequestForm.Button |
| backend/routes/auth.js:47 | `email === process.env.ADMIN_USER && password === process.env.ADMIN_PASSWORD` with both variables unset compares `undefined === undefined` twice | ADMIN_USER and ADMIN_PASSWORD unset, login body `{}`: an admin token and the admin record | only a configured admin pair, matched exactly, logs in as admin | medium (depends on a deployment that leaves both variables unset), not executed | AuthRoutes.AsWrittenLoginAdmitsEmptyBody | AuthRoutes.AdminReplyNeedsConfiguredPair |
