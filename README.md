# Music catalogue: gates, validation and library state

A Dafny model of the logic in a MERN music catalogue. The Express backend keeps songs and a
registry of revoked login tokens, and the React frontend shows and edits the song library.

The backend part covers these pieces:

- **The `Authorization` header.** The token is the second space-separated piece of the header (`BearerToken`).
- **Two middleware guards.** `authenticateToken` checks, in this order: the token is present, the registry lookup does not fail, the token is not revoked, and the token verifies. `adminOnly` then checks the user's role.
- **The song router.** It covers list, search, get-by-id, and create/update/delete with their required-field check.
- **The user router.** It covers login, logout with its insert into the registry, and the guarded `/index` and `/admin` pages.
- **The two MongoDB schemas.** A song has required title and author, optional length and cover, and timestamps. The registry holds one record per token, each expiring one hour after creation.
- **Routing.** The application is a first-match routing table. The table shows that the song, login, logout and admin handlers written directly in `backend/server.js` are never reached, because the routers registered before them match the same requests. The whole request cycle (first matching registration, its guards, its handler) is the function `AppOutcome`, and `Handle` does exactly what it says on the live collections.

The frontend part covers these pieces:

- **The library page (`Songs`).** It holds the list, the banner message and its type, and the search box. Each server answer updates this state by replacing the list, appending a song, merging by id or removing by id. A filter shows the songs whose title or author contains the search text, ignoring case.
- **The add-song form (`SongForm`).** It has four inputs, an image-URL test that controls the cover preview, and the submit rule: blank title or author → nothing happens; otherwise normalise the length and reset the form.
- **The song card (`SongItem`).** It covers the edit/cancel/save cycle, the delete dialog and the play toggle.

Code that only computes is written as functions. Objects whose state the source updates in place are classes whose methods say exactly what the new state is:

- the song collection;
- the token registry;
- the three React components.

Foreign code is passed in as parameters:

- JWT sign, verify and decode;
- password comparison;
- the search's regular-expression test;
- the database's choice of `_id`.

Failing database calls are modelled as boolean `fault` flags.

Module `Js` states the parts of JavaScript's own behaviour the code relies on:

- truthiness;
- `split(' ')` and its inverse `join(' ')`;
- `trim()`;
- `toLowerCase()` on ASCII letters;
- `includes`;
- `Number(text)` for integer numerals;
- `Array.prototype.filter` and `map`.

The behaviour follows the code where a plain description of the system would differ. Deleting a song id that does not exist answers 200 "Song deleted", not 404. A 404 "Song not found" comes only when the delete call throws, because `findByIdAndDelete` does not fail for a missing id (`backend/routes/song.js:84-89`).

The routers import `authenticateToken` and `adminOnly` from `backend/middleware/auth.js`, which is not part of this model. Their definitions in `backend/server.js:65-92` are taken as the guards' behaviour.

## Model

| member | source | states |
|---|---|---|
| Js.Split | backend/server.js:67 | `split(' ')` gives at least one piece, and no piece contains a space |
| Js.JoinSplit | backend/server.js:67 | joining the pieces of `split(' ')` with single spaces gives back the header |
| Js.SplitJoin | backend/server.js:67 | splitting a join of space-free pieces gives back exactly those pieces |
| Js.SplitAppend | backend/server.js:67 | the pieces of `a + t`, for a space-free `a`, are `a` glued to the first piece of `t`, then the rest of `t`'s pieces |
| Js.TrimEmptyIffBlank | frontend-react/src/components/SongForm.js:44 | `s.trim()` is empty exactly when every character of `s` is ECMAScript white space or a line terminator |
| Js.IncludesEmpty | frontend-react/src/components/Songs.js:148-149 | every string includes the empty string |
| Js.ToNumber | frontend-react/src/components/SongForm.js:49 | `Number` of blank text is 0, and a numeric result for non-blank text comes from text holding a digit |
| Js.Filter | frontend-react/src/components/Songs.js:129 | `filter` keeps exactly the elements that pass, each as many times as it occurs |
| Js.FilterKeepsOrder | frontend-react/src/components/Songs.js:129 | `filter` returns a subsequence of its input, so the order is kept |
| Js.FilterAll | frontend-react/src/components/Songs.js:147-150 | when every element passes, `filter` returns its input unchanged |
| Js.Map | frontend-react/src/components/Songs.js:103-105 | `map` keeps the length and applies the function at every position |
| SongModel.Conforms | backend/models/song.js:4-11 | the `required` validators accept a document exactly when the routers' required-field check would accept a body carrying its title, author, length and cover |
| SongModel.HasRequiredFields | backend/routes/song.js:49-51 | a body passes the routers' check exactly when its title and its author are both present and non-empty strings |
| SongModel.NewDocument | backend/models/song.js:3-20 | a new document has the store's id and the insertion time as both timestamps, keeps the body's title, author, length and cover as sent, and passes the schema's validators exactly when the body has a truthy title and author |
| SongModel.NewDocumentDropsExtraKeys | backend/server.js:172-178 | body keys outside the schema (title, author, length, cover) never reach the stored document |
| SongModel.ApplyUpdate | backend/routes/song.js:73 | the update overwrites each schema path the body carries, keeps the id, the other paths and `createdAt`, and restamps `updatedAt`; with a truthy title and author the result passes the validators |
| SongModel.SongCollection.Save | backend/routes/song.js:53-56 | a save succeeds exactly when the call does not fail, the document passes the validators and its id is new; only then is it stored under its id |
| SongModel.SongCollection.FindByIdAndUpdate | backend/routes/song.js:73 | answers the document as it was before the update, which is the one with the requested id (null for an unknown id), and updates only that document |
| SongModel.SongCollection.FindByIdAndDelete | backend/routes/song.js:85 | removes the id if present, and an absent id is not an error |
| RevokedTokenModel.Insert | backend/models/revokedTokens.js:3-10 | an insert succeeds exactly when the call does not fail, the token is non-empty and not yet present; it records the insertion time and leaves every other record as it was |
| RevokedTokenModel.Unexpired | backend/models/revokedTokens.js:7 | after a sweep at time `now`, exactly the records created less than 3600 s earlier remain, unchanged |
| RevokedTokenModel.InsertIgnoresExpiresAt | backend/models/revokedTokens.js:3-10 | the `expiresAt` passed at insert plays no part in what is stored, because the schema has no such path |
| RevokedTokenModel.SecondInsertFails | backend/models/revokedTokens.js:4 | inserting a token a second time fails, whatever the second call's arguments |
| RevokedTokenModel.RecordOutlivesSweepsWithinTtl | backend/models/revokedTokens.js:5-8 | a record survives every sweep within an hour of its creation |
| RevokedTokenModel.Registry.Create | backend/routes/users.js:54-57 | `create` succeeds exactly as `Insert` does, and only then changes the records |
| RevokedTokenModel.Registry.Sweep | backend/models/revokedTokens.js:7 | the records become those that have not expired at the sweep time |
| AuthMiddleware.BearerToken | backend/server.js:66-67 | a token is found only when the header has a second space-separated piece that is not empty, and it is that piece |
| AuthMiddleware.BearerTokenOfHeader | backend/routes/users.js:48 | `<scheme> <token>`, with or without further words after it, yields exactly `<token>` |
| AuthMiddleware.NoSpaceNoToken | backend/routes/users.js:48 | a header without a space yields no token |
| AuthMiddleware.DoubleSpaceNoToken | backend/server.js:67 | two spaces after the scheme make the second piece empty, so no token is found |
| AuthMiddleware.AuthenticateToken | backend/server.js:65-85 | `next` is called exactly when a token is present, the lookup does not fail, the token is not revoked and it verifies; `req.user` is then the verified claims; a present token whose lookup fails gets 500 "Authentication failed" |
| AuthMiddleware.LookupFaultIs500 | backend/server.js:82-84 | a failing revocation lookup answers 500 "Authentication failed", whatever the registry holds and however the token would verify |
| AuthMiddleware.MissingTokenIsBare401 | backend/server.js:67-69 | with no token the answer is a bare 401, whatever the registry holds and whether or not its lookup would fail |
| AuthMiddleware.RevokedBeforeVerification | backend/server.js:72-75 | a revoked token gets 401 "Token revoked" even when it would verify |
| AuthMiddleware.UnverifiedIs403 | backend/server.js:77-78 | a present, unrevoked token that fails verification gets 403 "Invalid token" |
| AuthMiddleware.AdminOnly | backend/server.js:87-92 | refuses with 403 "Admin access required" exactly when `req.user` is set and its role is not 'admin', and otherwise passes `req.user` on |
| AuthMiddleware.RunGuards | backend/routes/song.js:46 | a route's middleware run left to right: with no guards the handler runs with `req.user` as it was, the handler runs only when every listed `authenticateToken` called `next`, and a rejection by a leading `authenticateToken` is the reply |
| AuthMiddleware.AdminChainAdmitsOnlyAdmins | backend/server.js:65-92 | `authenticateToken` then `adminOnly` let a request through exactly when it carries a present, unrevoked, verifiable token whose role is 'admin' |
| AuthMiddleware.AdminOnlyPassesAnonymous | backend/server.js:88-91 | `adminOnly` on its own lets a request without `req.user` through |
| SongRoutes.ListSongs | backend/routes/song.js:9-19 | answers a 200 success envelope with every stored song, or 500 "Server error" when the query fails |
| SongRoutes.SearchPattern | backend/routes/song.js:22 | the pattern is empty exactly when `q` is missing or empty, and is `q` otherwise |
| SongRoutes.SearchSongs | backend/routes/song.js:21-32 | answers a 200 success envelope with exactly the songs whose title the pattern matches (all of them for the empty pattern); a failing query sends nothing |
| SongRoutes.SearchWithoutQueryListsAll | backend/routes/song.js:22-27 | search with no `q` or an empty `q` answers exactly what the list route answers |
| SongRoutes.SearchFailureSendsNothing | backend/routes/song.js:28-30 | a failing search never produces the 500 envelope, unlike a failing list |
| SongRoutes.GetSong | backend/routes/song.js:34-44 | answers 200 with the song for the id, or with null data when there is none; 500 "Server error" on failure |
| SongRoutes.PostSong | backend/routes/song.js:46-62 | a falsy title or author answers 400 "Required fields missing" and saves nothing; otherwise 201 with the stored document, or 500 with nothing stored; every stored song still passes the validators |
| SongRoutes.PutSong | backend/routes/song.js:64-79 | the same 400 check runs before the store is touched; on success the answer is 200 with the song as it was before, and only that song changes |
| SongRoutes.DeleteSong | backend/routes/song.js:81-91 | 200 "Song deleted" whenever the call returns, whether or not the id existed, with the id removed; 404 "Song not found" only when it throws, with nothing removed |
| SongRoutes.CreatedSongIsServed | backend/routes/song.js:9-39 | a created song is then answered by the list route and the get-by-id route |
| SongRoutes.DeletedSongIsGone | backend/routes/song.js:34-44 | after a delete, get-by-id answers null data |
| UserRoutes.Login | backend/routes/users.js:25-45 | success exactly when the user exists and the password matches; the token is signed over exactly the user's id and role with a one-hour lifetime; every other outcome is 401 "Invalid credentials" or, on failure, 500 "Login failed" |
| UserRoutes.LoginDoesNotRevealUsernames | backend/routes/users.js:31-33 | an unknown username and a wrong password for a known one get the identical answer |
| UserRoutes.PlanLogout | backend/routes/users.js:47-58 | no token gives the 404 path; the token is revoked exactly when it decodes with a truthy `exp`, and then it is that token with `expiresAt` = `exp`*1000 |
| UserRoutes.Logout | backend/routes/users.js:47-68 | 404 "No token provided" with the registry unchanged; success without revoking for an undecodable token or one without `exp`; otherwise the token is inserted, and a failed insert answers 500 "Logout failed" |
| UserRoutes.SecondLogoutFails | backend/routes/users.js:59-61 | logging the same token out twice makes the second insert fail, so the second logout answers 500 |
| UserRoutes.LoggedOutTokenIsRefused | backend/server.js:72-75 | until its record is swept, a logged-out token gets 401 "Token revoked", however verification would judge it |
| UserRoutes.SweptTokenHasExpired | backend/routes/users.js:35-39 | a record is swept only after the one-hour lifetime of any token login issued before the logout has run out |
| Server.Resolve | backend/server.js:54-55 | the chosen registration matches the request and no earlier one does; no choice means no registration matches |
| Server.CoversSound | backend/server.js:54-55 | a registration that covers another matches every request the other matches |
| Server.NeverChosen | backend/server.js:54-55 | a registration covered by an earlier one is never chosen |
| Server.ServerCopyIsShadowed | backend/server.js:94-216 | the song, login, logout and admin handlers in server.js are never chosen for any request |
| Server.ServerCopiesNeverRun | backend/server.js:94-216 | whatever the request, the chosen registration is never one of the server.js copies |
| Server.SearchIsNotAnId | backend/routes/song.js:21-34 | `GET /songs/search`, in any letter case, is the search route and never a lookup of id "search" |
| Server.SongRoutesGuards | backend/routes/song.js:9-81 | list, search and get-by-id have no guards; create, update and delete have `authenticateToken` then `adminOnly` |
| Server.AppRoutesOrder | backend/server.js:54-223 | the 21 registrations put both routers' routes first (the routers are mounted at lines 54-55), the server.js handlers after them, and the frontend catch-all last |
| Server.ServerCopyIndices | backend/server.js:94-216 | the server.js copies are registrations 11-13 and 15-19 |
| Server.SongWritesGuarded | backend/routes/song.js:46-81 | every song write in the router is behind the admin chain |
| Server.AdminPagesGuarded | backend/routes/users.js:21-72 | the users router's `GET /index` and `GET /admin` are behind the admin chain |
| Server.LogoutIndex | backend/routes/users.js:47 | the router's logout is the one registration that runs it |
| Server.CreateOutcome | backend/routes/song.js:46-62 | `POST /songs` past its guards changes only the songs, and only by storing `NewDocument` of a body with its required fields under the fresh id; stored songs keep passing the validators |
| Server.UpdateOutcome | backend/routes/song.js:64-79 | `PUT /songs/:id` past its guards changes only the songs, and only by applying the body to the song with that id; stored songs keep passing the validators |
| Server.LogoutOutcome | backend/routes/users.js:47-68 | `POST /logout` leaves the songs alone and changes the registry only when the token decodes with a truthy `exp` |
| Server.HandlerOutcome | backend/routes/song.js:9-89 | the outcome of each router handler once its guards pass: only create, update and delete change the songs, only logout changes the registry, and stored songs keep passing the validators |
| Server.AppOutcome | backend/server.js:54-55 | a request no registration matches gets 404 and changes nothing, and no request lets a song that fails the validators in |
| Server.OnlyAdminsChangeSongs | backend/routes/song.js:46-89 | whatever the request, the songs change only when it carries a present, unrevoked token that verifies with role 'admin' |
| Server.OnlyLogoutRevokes | backend/routes/users.js:47 | whatever the request, the registry changes only when it resolves to the users router's `POST /logout` |
| Server.FirstMatch | backend/server.js:54-55 | the first registration that matches is the one chosen |
| Server.DeleteResolves | backend/routes/song.js:81 | `DELETE /songs/<id>` with a non-empty id reaches the router's delete |
| Server.GetByIdResolves | backend/routes/song.js:34 | `GET /songs/<id>`, for an id other than "search" in any case, reaches the read by id |
| Server.AdmittedRequest | backend/server.js:54-55 | a request whose registration's guards all call `next` gets that registration's handler, which is never a server.js copy |
| Server.AdminDelete | backend/routes/song.js:81-89 | through the whole application, an admin's `DELETE /songs/<id>` answers 200 "Song deleted" and removes exactly that id |
| Server.ReadById | backend/routes/song.js:34-44 | through the whole application, `GET /songs/<id>` needs no token and answers the stored song or `data: null` |
| Server.AdminDeleteThenGet | backend/routes/song.js:34-89 | an admin deletes a song and a later read of the same id, through the whole application, answers `data: null` |
| Server.Handle | backend/server.js:54-55 | a request on the live collections leaves exactly the reply, songs and registry of `AppOutcome`; songs change only with an admin token, the registry only on the router's `POST /logout`, and an unmatched request gets 404 |
| Server.Dispatch | backend/server.js:54-55 | the chosen router handler, on the live collections, leaves exactly the reply, songs and registry of `HandlerOutcome` |
| SongsComponent.FailureText | frontend-react/src/components/Songs.js:52-56 | the banner after a failure is the thrown error's message, else the server's message when truthy, else the handler's default |
| SongsComponent.MergeById | frontend-react/src/components/Songs.js:102-106 | every song with the id takes the four sent fields; every other song, the ids, the order and the length stay |
| SongsComponent.RemoveById | frontend-react/src/components/Songs.js:129 | exactly the songs with another id remain, each as many times as before |
| SongsComponent.Visible | frontend-react/src/components/Songs.js:147-150 | a song shows exactly when its title or author contains the query, ignoring ASCII case |
| SongsComponent.MergeByIdIdempotent | frontend-react/src/components/Songs.js:102-106 | updating twice with the same data is the same as updating once |
| SongsComponent.RemoveAfterMerge | frontend-react/src/components/Songs.js:102-129 | deleting an id after updating it leaves the same list as deleting it without the update |
| SongsComponent.RemoveKeepsOrder | frontend-react/src/components/Songs.js:129 | deleting keeps the remaining songs in their order |
| SongsComponent.RemoveAbsentId | frontend-react/src/components/Songs.js:129 | deleting an id that no song has leaves the list as it was |
| SongsComponent.EmptyQueryShowsAll | frontend-react/src/components/Songs.js:147-150 | an empty search box shows every song, in list order |
| SongsComponent.VisibleKeepsOrder | frontend-react/src/components/Songs.js:147-150 | the shown songs keep the list's order |
| SongsComponent.QueryCaseIgnored | frontend-react/src/components/Songs.js:148-149 | a query and its lower-case form show the same songs |
| SongsComponent.OnAuthState | frontend-react/src/components/Songs.js:31-39 | a load happens exactly when loading is done and the user is authenticated; a redirect to login exactly when loading is done and the user is not |
| SongsComponent.Songs.constructor | frontend-react/src/components/Songs.js:25-28 | the page starts with no songs, no message, no message type and an empty search box |
| SongsComponent.Songs.SetSearchQuery | frontend-react/src/components/Songs.js:196 | typing changes only the search box; an emptied box shows the whole list |
| SongsComponent.Songs.LoadSongs | frontend-react/src/components/Songs.js:41-59 | success replaces the whole list; failure keeps the list and sets the 'error' type and the failure text |
| SongsComponent.Songs.HandleAddSong | frontend-react/src/components/Songs.js:61-86 | the returned song is appended at the end only when the answer is a success carrying it, with 'success'; otherwise the list stays and the type is 'error' |
| SongsComponent.Songs.HandleUpdateSong | frontend-react/src/components/Songs.js:88-117 | success merges the data into every song with the id, with 'success'; failure keeps the list, with 'error' |
| SongsComponent.Songs.HandleDeleteSong | frontend-react/src/components/Songs.js:119-140 | success removes every song with the id, so none of them is shown any more, with 'success'; failure keeps the list, with 'error' |
| SongFormComponent.FormData.With | frontend-react/src/components/SongForm.js:31 | the named input takes the value and every other input keeps its own |
| SongFormComponent.SchemeLength | frontend-react/src/components/SongForm.js:26 | recognises exactly `https://` (8) or `http://` (7) at the start, and nothing else |
| SongFormComponent.IsValidImageUrl | frontend-react/src/components/SongForm.js:25-27 | `isValidImageUrl` accepts a URL exactly when its lower-cased form matches the pattern's groups in sequence: `http://` or `https://`, text without line terminators, a dot, and one of jpg, jpeg, png, gif, bmp, webp |
| SongFormComponent.AnchoredMatchIsPattern | frontend-react/src/components/SongForm.js:26 | the anchored test (scheme at the start, extension at the very end, no line terminator between) agrees with the pattern's group-by-group reading on every string |
| SongFormComponent.AnchoredImpliesPattern | frontend-react/src/components/SongForm.js:26 | every URL the test accepts splits along the pattern's groups |
| SongFormComponent.PatternImpliesAnchored | frontend-react/src/components/SongForm.js:26 | every URL that splits along the pattern's groups is accepted |
| SongFormComponent.ImageUrlExamples | frontend-react/src/components/SongForm.js:26 | `https://x.jpeg` is accepted; `ftp://x.png` and `http://x.png?s=2` are refused |
| SongFormComponent.ValidityIgnoresCase | frontend-react/src/components/SongForm.js:26 | upper-case letters in a URL do not change the verdict |
| SongFormComponent.SubmittedLength | frontend-react/src/components/SongForm.js:49 | `Number(length) \|\| 0` is 0 for blank or non-numeric text, and the number otherwise |
| SongFormComponent.PreviewOf | frontend-react/src/components/SongForm.js:33-39 | a preview is shown only for a valid image URL, and then it is that URL |
| SongFormComponent.Submission | frontend-react/src/components/SongForm.js:42-51 | nothing is submitted exactly when the title or the author is blank after trimming; otherwise the untrimmed title and author, the normalised length and the cover |
| SongFormComponent.SongForm.constructor | frontend-react/src/components/SongForm.js:17-23 | the form starts with four empty inputs and no preview |
| SongFormComponent.SongForm.HandleChange | frontend-react/src/components/SongForm.js:29-40 | only the named input changes; the preview changes only on cover edits, to the value when valid and to empty otherwise; the preview always matches the current cover |
| SongFormComponent.SongForm.HandleSubmit | frontend-react/src/components/SongForm.js:42-60 | `onAddSong` gets the submission; a refused submit changes nothing; an accepted one resets all four inputs and clears the preview |
| SongItemComponent.EditData.With | frontend-react/src/components/SongItem.js:90-114 | each input changes only its own field of `editData` |
| SongItemComponent.CopyOf | frontend-react/src/components/SongItem.js:22 | `editData` starts as the song's title, author, length and cover |
| SongItemComponent.NumberOf | frontend-react/src/components/SongItem.js:31 | `Number(editData.length)` is NaN for an absent length, the song's own number before an edit, and 0 for blank text |
| SongItemComponent.Update | frontend-react/src/components/SongItem.js:26-35 | nothing is sent exactly when the title or the author is blank after trimming; otherwise exactly title, author, numeric length and cover |
| SongItemComponent.SaveOfCopySendsSong | frontend-react/src/components/SongItem.js:22-35 | saving an unedited card sends the song's own four fields |
| SongItemComponent.SaveOfCopyChangesNoSong | frontend-react/src/components/SongItem.js:26-35 | saving an unedited card leaves the page's list unchanged once merged |
| SongItemComponent.SongItem.constructor | frontend-react/src/components/SongItem.js:20-24 | not editing, `editData` a copy of the song, dialog closed, not playing |
| SongItemComponent.SongItem.StartEditing | frontend-react/src/components/SongItem.js:131 | enters editing and changes nothing else |
| SongItemComponent.SongItem.EditField | frontend-react/src/components/SongItem.js:90-114 | only the edited field of `editData` changes |
| SongItemComponent.SongItem.ReceiveSong | frontend-react/src/components/SongItem.js:20-24 | a new `song` prop for the same card replaces the song, and the edit copy and the other state stay as they were, because `useState` does not initialise again |
| SongItemComponent.SongItem.CancelEditing | frontend-react/src/components/SongItem.js:145-148 | leaves editing and resets `editData` to the song prop as it now is |
| SongItemComponent.SongItem.Save | frontend-react/src/components/SongItem.js:26-35 | a blank title or author makes no call and stays in editing; otherwise one call with the song's id and the update, and editing ends |
| SongItemComponent.SongItem.OpenDeleteDialog | frontend-react/src/components/SongItem.js:135 | opens the dialog and changes nothing else |
| SongItemComponent.SongItem.CloseDeleteDialog | frontend-react/src/components/SongItem.js:163-169 | closes the dialog without a call |
| SongItemComponent.SongItem.ConfirmDelete | frontend-react/src/components/SongItem.js:171-174 | calls with the song's id and closes the dialog |
| SongItemComponent.SongItem.TogglePlay | frontend-react/src/components/SongItem.js:123 | flips `isPlaying` and changes nothing else |

## Left out

- I/O is not modelled. This covers `fetch`, JSON parsing, response writing, `app.listen`, `sendFile` contents, the `express.static` middleware (`backend/server.js:63`) and the security middleware settings (helmet, cors, rate limits). Replies are values.
- The JWT calls and `comparePassword` are cryptography in foreign code, so they are parameters. So is the `RegExp(q, 'i')` test for a non-empty search pattern, which runs user-supplied patterns, including invalid ones that throw outside the `try`.
- SongModel.NewDocument: a body-supplied `_id` or `createdAt` is not modelled. Both are schema paths that mongoose keeps on `new Song(body)`, so in the source a client can choose the id (a taken one fails the insert with 500 "Error while creating new song") and, depending on the mongoose version, the creation time. The model always uses the store's fresh id and the insertion time, and files every other key under `extra`.
- SongModel.ApplyUpdate: `_id`, `createdAt` and `updatedAt` keys in a PUT body are not modelled either; the update takes only the four song fields from the body.
- Rejected async handlers are not modelled beyond their reply. An invalid search pattern makes `new RegExp(query, 'i')` throw before the `try` (`backend/routes/song.js:23`), and a failing query's `catch` throws again on its unbound `error` (`backend/routes/song.js:28-29`). Under Express 4 the rejection goes unhandled, which ends the process on Node 15 and later; Express 5 would answer its default 500 page. `NoReply` with the state unchanged captures only that this request gets no JSON envelope.
- SongRoutes.SearchSongs: a search answers a `set` of songs, because the order MongoDB returns them in is not modelled.
- Js.ToNumber: models decimal integer numerals only. Fractions, exponents, hexadecimal and `Infinity` are treated as NaN, and lengths are integers.
- Js.Lower: folds ASCII letters only. Unicode case mapping in the library filter is not modelled. The image-URL test is exact, because its pattern holds only ASCII letters.
- SongItemComponent.NumberOf: NaN is `None`. Its serialisation to `null` in the request body, and the store's handling of it, are not distinguished from an absent length.
- JSON body values are modelled as strings (title, author, cover) and integers (length). Other JSON types, and mongoose's casting errors for them, appear only as the `fault` flag on the store call.
- The database's expiry monitor runs at times the model does not choose. `Registry.Sweep` is one run of it at a given time.
- Concurrency is not modelled: interleaved requests and React's batched and stale closures over `songs`. Each handler is applied to the state as it then is.
- `backend/middleware/auth.js` and the user model are not part of this model. The guards follow `backend/server.js:65-92`, and the users are a map from username to user.
- `handleLogout` in `Songs.js` and the AuthContext it calls are not part of this model, nor are React rendering and navigation, apart from a card receiving its updated `song` prop (`SongItem.ReceiveSong`). `frontend-react/src/App.js` and `Login.js` are also not part of this model.
- The server.js copies of the handlers (`backend/server.js:94-216`) are modelled only as registrations that are proved never to be chosen. Their bodies differ slightly from the routers' (for example "Required fields missing..." and keeping only four fields), but they never run.
- HEAD and OPTIONS requests, trailing slashes and URL decoding are not modelled. A request path is given as its segments.
