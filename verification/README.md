# poem_vue core, modelled in Dafny

This project models the logic of a poetry community web client: the
streaming dialog reader, the token-refresh coordinator of the HTTP
client, the client-side state helpers (pagination, like and collect
toggles, poem search, file checks before upload, the user and login-modal
stores) and the in-memory mock backend used in development, which covers
users, login, forum posts, chat sessions, questions and answers,
favourites and the poem catalogue.

Each source file is one module:

- `stream.dfy` covers `src/utils/stream.ts`. `StreamProcessor` is a class, and the read loop is a method over the decoded chunks. It is proved against a fold over the concatenated text, so how reads split the text does not change the callbacks.
- `request.dfy` covers `src/utils/request.ts`. `RefreshCoordinator` is a class holding the refresh flag and the queue of waiting requests.
- `adapter.dfy` covers `src/mock/adapter.ts`: path matching, handler selection and the chunking of streamed replies.
- `pagination.dfy`, `like_favor.dfy`, `poem_search.dfy`, `multimodal.dfy`, `user_store.dfy`, `auth_modal.dfy` and `require_auth.dfy` cover the composables and stores. Each reactive ref is a field of a class.
- `mock_auth.dfy`, `mock_user.dfy`, `mock_work.dfy`, `mock_session.dfy`, `mock_chat.dfy`, `mock_favorite.dfy` and `mock_poem.dfy` cover the handlers under `src/mock/data/`. Every mutable table is a class, and each handler returns a `Reply`: a status, a message and a value, or an error status and message.
- `wrappers.dfy`, `strings.dfy`, `json.dfy` and `lists.dfy` hold the shared JavaScript built-ins: `parseInt`, `trim`, `includes`, `slice`, `filter`, `findIndex`, a stable `sort`, `Math.ceil` of a quotient, and a JSON value type.

Some inputs are parameters of the model: the decoded text, the parsed JSON, server replies, generated ids, the clock and the calendar date.

## Model

| member | source | states |
|---|---|---|
| Stream.ParseOrText | src/utils/stream.ts:67-84 | text that does not parse gives one text chunk; parsed JSON is sent as is, followed by the text chunk exactly when the router throws on it (a `null`) |
| Stream.ClassifyLine | src/utils/stream.ts:50-86 | a complete line gives at most two chunks, and none exactly when it is blank after trimming |
| Stream.Flush | src/utils/stream.ts:90-101 | the residual buffer gives chunks exactly when it is not blank, and they are those of the untrimmed residual, parsed or as text |
| Stream.StopFrom | src/utils/stream.ts:34-39 | the read loop leaves at the first read that fails or during which `abort()` is called, or at the end of input, and every read before it succeeded |
| Stream.EmitLines | src/utils/stream.ts:50-87 | the `for` loop over the complete lines emits each line's chunks, in line order |
| Stream.StreamProcessor.constructor | src/utils/stream.ts:7-9 | a new processor has no reader and is not aborted |
| Stream.StreamProcessor.Abort | src/utils/stream.ts:118-123 | `abort()` raises the flag, keeps the reader, and cancels exactly when there is a reader |
| Stream.StreamProcessor.Cleanup | src/utils/stream.ts:128-133 | `cleanup()` releases exactly when there is a reader, drops it, and leaves the flag alone |
| Stream.StreamProcessor.ProcessStream | src/utils/stream.ts:18-113 | without a body the call rejects and changes nothing; otherwise the `onChunk` calls and the ending are those of `Run`, the reader is released and the flag ends up set exactly when `abort()` took effect |
| Stream.FeedSplit | src/utils/stream.ts:43-48 | appending text to the buffer completes the old buffer's lines and then the new ones; the held-back text is the new text after its last newline |
| Stream.ConsumeFramed | src/utils/stream.ts:43-87 | after any number of reads the chunks are those of the complete lines of all text received and the buffer is the text after the last newline |
| Stream.RunFramed | src/utils/stream.ts:34-105 | a run without failed reads emits the chunks of the received text as if delivered in one piece, residual included, and ends in `onDone` unless aborted |
| Stream.ReadBoundariesIrrelevant | src/utils/stream.ts:34-105 | two runs that receive the same text, cut into reads differently, make the same `onChunk` calls and end the same way |
| Stream.RunFailed | src/utils/stream.ts:106-109 | a failed read ends the run with the chunks of the complete lines so far, drops the held-back text, and calls `onError` unless aborted |
| Stream.AbortsIff | src/utils/stream.ts:37-39 | `abort()` takes effect exactly when it is called during a read that the loop reaches |
| Stream.FramedLine | src/utils/stream.ts:46-52 | a complete line is handled on its own and the text after it is framed as if it came alone |
| Stream.DoneLine | src/utils/stream.ts:59-62 | `data: [DONE]` gives exactly the done chunk |
| Stream.DoneLineContinues | src/utils/stream.ts:59-62 | after `data: [DONE]` the following lines are still processed |
| Stream.Route | src/utils/stream.ts:149-156 | a chunk is routed to at most one callback, and only when it has a string `type`; a `null` chunk reaches none, since reading its `type` throws |
| Stream.NullFallsBackToText | src/utils/stream.ts:67-73 | a payload that parses to `null` is sent as `null` and then as a text chunk, and its routed callbacks are exactly `onText` of the payload |
| Stream.RouteText | src/utils/stream.ts:150-151 | a text chunk reaches `onText` exactly when its content is non-empty |
| Stream.DoneCalledTwice | src/utils/stream.ts:149-158 | a stream that carries `data: [DONE]` and then ends normally calls `onDone` at least twice |
| Request.RequestConfig.Authorize | src/utils/request.ts:103-105 | the `Authorization` header becomes `Bearer <token>`; every other header and the URL are unchanged |
| Request.AttachBearer | src/utils/request.ts:30-40 | the header is set to `Bearer <accessToken>` exactly when the access token is non-empty; otherwise the headers are unchanged |
| Request.StatusMessage | src/utils/request.ts:140-158 | 403, 404 and 500 get their fixed text; 400 and every other status get the server's message when it is truthy, else the fallback |
| Request.RefreshCoordinator.constructor | src/utils/request.ts:22-24 | not refreshing, empty queue |
| Request.RefreshCoordinator.OnResponseError | src/utils/request.ts:58-161 | no response and non-401 statuses reject with nothing changed; a 401 on the refresh URL logs out; a refresh starts exactly when none is in flight and a refresh token is held; a 401 during a refresh appends exactly one request to the queue; otherwise the user is sent to login; at most one refresh is ever in flight |
| Request.AuthorizeAll | src/utils/request.ts:99 | replaying the queued callbacks in order gives every queued request the new bearer header, once or more, with its other headers and its URL kept |
| Request.RefreshCoordinator.CompleteRefresh | src/utils/request.ts:85-121 | on code 200 the new tokens are stored and the queued requests, in FIFO order, then the original one, are retried with the new bearer; on failure the user is logged out and the queue emptied without retrying anyone; the flag is reset either way |
| MockAdapter.Tokenize | src/mock/adapter.ts:21-27 | the tokens print back to the pattern; every `:` followed by a character other than `/` starts a parameter whose name is the whole `/`-free run after it, and a `:` stays literal only before `/` or the end; only the empty pattern gives no tokens |
| MockAdapter.MatchSound | src/mock/adapter.ts:29-32 | a match captures one value per parameter, each non-empty and free of `/`, and filling the pattern with them gives back the path |
| MockAdapter.MatchRender | src/mock/adapter.ts:29-32 | a pattern filled with non-empty, `/`-free values matches, and captures exactly those values |
| MockAdapter.Bind | src/mock/adapter.ts:34-37 | the parameters object has exactly the parameter names as keys |
| MockAdapter.BindLatest | src/mock/adapter.ts:35-37 | a name repeated in a pattern holds the value of its last occurrence |
| MockAdapter.CleanPath | src/mock/adapter.ts:18 | the path up to the first `?`, which holds no `?` |
| MockAdapter.MatchPath | src/mock/adapter.ts:16-40 | a result exactly when the anchored match succeeds, with exactly the parameter names as keys |
| MockAdapter.QueryIgnored | src/mock/adapter.ts:18 | a query string does not change the match |
| MockAdapter.MatchPathIff | src/mock/adapter.ts:16-40 | a path matches exactly when it is the pattern filled with non-empty `/`-free values |
| MockAdapter.MatchPathBinds | src/mock/adapter.ts:29-37 | the pattern filled with such values matches, and the parameters are those values bound name by name |
| MockAdapter.LiteralPattern | src/mock/adapter.ts:29-32 | a pattern without `:` matches only the identical path, with no parameters |
| MockAdapter.RequestMethod | src/mock/adapter.ts:56 | the upper-cased method, or `GET` when none is given |
| MockAdapter.SelectHandler | src/mock/adapter.ts:60-63 | the first handler in list order whose method and pattern match, or none exactly when no handler matches |
| MockAdapter.MergeParams | src/mock/adapter.ts:72-75 | the merged keys are those of both; path parameters override query parameters of the same name |
| MockAdapter.ChunksShape | src/mock/adapter.ts:95-99 | `ceil(length/20)` pieces, each non-empty and at most 20 characters, all but the last exactly 20 |
| MockAdapter.SliceContent | src/mock/adapter.ts:95-99 | the slicing loop yields the pieces, which concatenate to the content |
| MockAdapter.Push | src/mock/adapter.ts:101-134 | the accumulated text is the concatenation of all pieces; with a listener, the k-th progress report is the length of the first k+1 pieces, and without one there are none |
| MockAdapter.ChunkProgress | src/mock/adapter.ts:122-128 | the k-th progress report is `min((k+1)*20, length)` |
| MockAdapter.StreamFieldsAsWritten | src/mock/adapter.ts:89-92 | the adapter reads the stream fields from `responseData.data` |
| MockAdapter.StreamFields | src/mock/adapter.ts:89-92 | the stream fields read from `responseData.data.data`, where the chat handler puts them |
| MockAdapter.FullContent | src/mock/adapter.ts:90 | `full_content` when it is a string, else the empty text |
| MockAdapter.Answer | src/mock/adapter.ts:176-187 | a non-stream reply's data is `reply.data` when truthy, else the reply itself; its status is truthy (defaults to 200); a thrown handler fails the request |
| MockAdapter.Adapt | src/mock/adapter.ts:55-192 | no matching handler passes through with parameters unchanged; otherwise path parameters are merged over the query ones, the handler's own delay wins over the global one, a reply whose stream fields are marked is cut into 20-character pieces whose progress reports and final response carry the full content, and any other reply is answered as `Answer` says; the stream fields are looked up in `responseData.data` as the program does (`AsWritten`), or where the handlers put them (`Corrected`) |
| Pagination.TotalPagesOf | src/composables/usePagination.ts:21-23 | for a positive size: at least one page for a non-negative total, the least page count that holds a positive total, one page for a total of zero; a size of zero gives an infinity of the total's sign, or one page for a zero total; a negative size gives at most one page for a non-negative total |
| Pagination.PageRangeIsPage | src/composables/usePagination.ts:26-30 | `start..end` names exactly the items of the current page |
| Pagination.InRangePageStarts | src/composables/usePagination.ts:21-23 | every page from 1 to `totalPages` starts before the end of a non-empty list |
| Pagination.Pager.constructor | src/composables/usePagination.ts:10-18 | the initial page and page size, and a total of 0 |
| Pagination.Pager.TotalPages | src/composables/usePagination.ts:21-23 | page 1 exists whenever the total and the size are not negative |
| Pagination.Pager.SetTotal | src/composables/usePagination.ts:41-43 | only `total` changes |
| Pagination.Pager.HandlePageChange | src/composables/usePagination.ts:48-52 | moves to the page exactly when `1 <= page <= totalPages`, which leaves it in range; otherwise nothing changes |
| Pagination.Pager.GoToPage | src/composables/usePagination.ts:93-97 | the same guard and effect as `handlePageChange` |
| Pagination.Pager.HandleSizeChange | src/composables/usePagination.ts:57-61 | sets any size and goes back to page 1, which is in range when the total and the size are not negative; the total is kept |
| Pagination.Pager.Prev | src/composables/usePagination.ts:66-70 | steps back exactly when `currentPage > 1`; a page in range stays in range |
| Pagination.Pager.Next | src/composables/usePagination.ts:75-79 | steps on exactly when `currentPage < totalPages`; a page in range stays in range |
| Pagination.Pager.Reset | src/composables/usePagination.ts:84-88 | the initial page, the initial page size and a total of 0 |
| AuthModal.ModalStore.constructor | src/stores/authModal.ts:12-14 | hidden, on the login tab, with no redirect |
| AuthModal.ModalStore.Open | src/stores/authModal.ts:16-20 | always shows the dialog; switches tab only when one is given and sets the redirect only when one is given, the empty one included |
| AuthModal.ModalStore.Close | src/stores/authModal.ts:22-24 | hides the dialog and changes nothing else |
| AuthModal.ModalStore.ClearRedirect | src/stores/authModal.ts:26-28 | empties the redirect and changes nothing else |
| RequireAuth.EnsureAuth | src/composables/useRequireAuth.ts:18-26 | true exactly when signed in, and then the dialog is untouched; otherwise the dialog opens on `tab ?? 'login'` with redirect `redirectPath ?? route.fullPath` |
| LikeAndFavor.Key | src/composables/useLikeAndFavor.ts:63 | `like_<id>` and `collect_<id>`: the prefix followed by the post id |
| LikeAndFavor.KeysDistinct | src/composables/useLikeAndFavor.ts:128 | different kinds or different posts never share a pending key, so a like never blocks a collect |
| LikeAndFavor.Optimistic | src/composables/useLikeAndFavor.ts:71-72 | status 1 becomes `(0, count-1)` and any other status `(1, count+1)` |
| LikeAndFavor.OptimisticUndone | src/composables/useLikeAndFavor.ts:71-72 | for a 0/1 status, applying the optimistic update twice restores the original state |
| LikeAndFavor.Toggler.constructor | src/composables/useLikeAndFavor.ts:39 | nothing is pending |
| LikeAndFavor.Toggler.Begin | src/composables/useLikeAndFavor.ts:58-80 | signed out: the dialog opens on login with redirect `/forum/post/<id>` and nothing is pending; a pending key: nothing happens; otherwise the optimistic state is shown, the key becomes pending, and status 1 calls cancel while any other status calls add |
| LikeAndFavor.Toggler.Settle | src/composables/useLikeAndFavor.ts:80-101 | the server's state on success, the original state on failure; the key is no longer pending either way |
| LikeAndFavor.Toggler.LikePost | src/composables/useLikeAndFavor.ts:175-184 | always the like call, with the optimistic `(1, count+1)`, whenever a toggle is sent |
| LikeAndFavor.Toggler.CollectPost | src/composables/useLikeAndFavor.ts:190-199 | always the collect call, with the optimistic `(1, count+1)`, whenever a toggle is sent |
| PoemSearch.Dispatch | src/composables/usePoemSearch.ts:54-111 | tags win; otherwise a non-blank keyword, trimmed, goes to the title, paragraph or title-then-paragraph search by type; the paged listing with `page||1` and `size||20` exactly when there are no tags and the keyword is blank |
| PoemSearch.BlankKeywordLists | src/composables/usePoemSearch.ts:36-41 | a keyword of white space counts as a search condition, yet the search lists everything |
| PoemSearch.AsPage | src/composables/usePoemSearch.ts:57-63 | the list and total are kept, page and size default to 1 and 20, and the page count is the least that holds the total |
| PoemSearch.Answer | src/composables/usePoemSearch.ts:46-112 | the page each branch ends with; in `all` mode the title results when non-empty, else the paragraph results; `None` when a call failed |
| PoemSearch.Searcher.constructor | src/composables/usePoemSearch.ts:20-33 | not loading, no poems, page 1 of size 20, the initial parameters |
| PoemSearch.Searcher.Search | src/composables/usePoemSearch.ts:46-125 | stores the page `Answer` gives, with `||` defaults; a failure clears the poems and the total; `loading` is false afterwards |
| PoemSearch.Searcher.SetKeyword | src/composables/usePoemSearch.ts:145-149 | sets the keyword and goes back to page 1; nothing else changes |
| PoemSearch.Searcher.SetTags | src/composables/usePoemSearch.ts:154-158 | sets the tags and goes back to page 1; nothing else changes |
| PoemSearch.Searcher.SetSearchType | src/composables/usePoemSearch.ts:163-165 | sets the type and leaves the page alone |
| PoemSearch.Searcher.ChangePage | src/composables/usePoemSearch.ts:170-174 | sets the page and searches with it: the result is `Answer` for the new parameters; on success the page it returns is stored, on failure the poems and total are cleared at the new page |
| PoemSearch.Searcher.ChangePageSize | src/composables/usePoemSearch.ts:179-185 | sets the size, goes back to page 1 and searches: the result is `Answer` for the new parameters; on success the page it returns is stored, on failure the poems and total are cleared at page 1 of the new size |
| PoemSearch.Searcher.ResetSearch | src/composables/usePoemSearch.ts:130-140 | the initial parameters, then the plain listing of page 1 of size 20; on success that page is stored, on failure the poems and total are cleared at page 1 |
| Multimodal.ValidateImage | src/composables/useMultimodalInput.ts:18-34 | accepted exactly when the type is jpeg, jpg, png or webp and the size is at most 10 MiB; the type error comes first |
| Multimodal.ValidateAudio | src/composables/useMultimodalInput.ts:41-63 | accepted exactly when the type is listed or the lower-cased name ends in a listed extension, and the size is at most 5 MiB; the type error comes first |
| Multimodal.EndsWithAnyIff | src/composables/useMultimodalInput.ts:47-48 | `exts.some(ext => s.endsWith(ext))` holds exactly when some extension ends the name |
| Multimodal.UpperCaseExtensionAccepted | src/composables/useMultimodalInput.ts:45-48 | a `.MP3` file of unknown type passes, because the name is lower-cased first |
| Multimodal.MultimodalInput.constructor | src/composables/useMultimodalInput.ts:10-11 | neither flag is up |
| Multimodal.MultimodalInput.RunOcr | src/composables/useMultimodalInput.ts:70-93 | the endpoint is called exactly when the image passes; otherwise `''` and nothing changes; the text is the reply's data exactly when its code is 200, else `''`; the OCR flag is up during the call and down afterwards |
| Multimodal.MultimodalInput.RunAudioTranscribe | src/composables/useMultimodalInput.ts:100-123 | the same with the audio check and the audio flag |
| UserStore.Base64FromUrl | src/stores/user.ts:14 | every `-` becomes `+` and every `_` becomes `/`; everything else is kept |
| UserStore.PadBase64 | src/stores/user.ts:15 | the text followed by `=` up to the smallest multiple of 4 that is at least its length |
| UserStore.DecodeJwtPayload | src/stores/user.ts:8-21 | no payload when the token has fewer than two dot-separated parts; otherwise the decoding of the second part, normalised and padded |
| UserStore.UserIdField | src/stores/user.ts:141-148 | the first of `user_id`, `userId`, `uid`, `id`, `sub` that is neither null nor missing, or none |
| UserStore.Store.constructor | src/stores/user.ts:29-32 | no tokens and no profile |
| UserStore.Store.CurrentUserId | src/stores/user.ts:136-149 | none without an access token or a truthy payload; otherwise the payload's id field |
| UserStore.Store.Saved | src/stores/user.ts:40-50 | a stored value counts only when present and non-empty |
| UserStore.Store.InitStore | src/stores/user.ts:39-58 | each token is restored when saved; a saved profile that parses is restored, and one that does not leaves the profile unset and removes the stored key |
| UserStore.Store.SetTokens | src/stores/user.ts:63-70 | both tokens are set, in memory and in storage; the profile is kept |
| UserStore.Store.Logout | src/stores/user.ts:106-121 | tokens and profile are cleared, in memory and in storage, so no one is signed in, and the route is `/` |
| MockAuth.Public | src/mock/data/auth.ts:133-140 | every field of the user but the password |
| MockAuth.GenerateToken | src/mock/data/auth.ts:41-44 | `mock_token_` followed by the id in decimal |
| MockAuth.ParseToken | src/mock/data/auth.ts:47-53 | a prefixed token reads as `parseInt` of what follows, `None` for NaN; any other token names nobody |
| MockAuth.TokenRoundTrip | src/mock/data/auth.ts:41-53 | `parseToken(generateToken(n)) == n` for every integer `n` |
| MockAuth.TokensFor | src/mock/data/auth.ts:163-175 | both tokens read back as the id, and the type is `bearer` |
| MockAuth.ExtractToken | src/mock/data/user.ts:41-46 | the text after `Bearer ` exactly when the header starts with it, and then header = prefix + token |
| MockAuth.CallerId | src/mock/data/chat.ts:59-63 | an empty or missing token names nobody; otherwise the token's parsed id |
| MockAuth.RequesterId | src/mock/data/session.ts:67-73 | the caller the `!userId` guard lets through: any id but 0 |
| MockAuth.CallerOfBearer | src/mock/data/chat.ts:59-63 | the header `Bearer mock_token_<n>` is read back as `n` |
| MockAuth.ValidateUsername | src/mock/data/auth.ts:67-72 | no error exactly for 6 to 18 characters from `[A-Za-z0-9_]`, else the user-name message |
| MockAuth.ValidatePassword | src/mock/data/auth.ts:75-80 | no error exactly for 6 to 18 characters from `[A-Za-z0-9_]`, else the password message |
| MockAuth.UserIndex | src/mock/data/auth.ts:190 | the first user with that id, or none exactly when no user has it |
| MockAuth.AppendUser | src/mock/data/auth.ts:117-126 | appending the next id with an unused user name keeps ids sequential and user names unique |
| MockAuth.UserTable.constructor | src/mock/data/auth.ts:6-33 | the given users, with sequential ids and unique user names |
| MockAuth.UserTable.Register | src/mock/data/auth.ts:87-143 | user-name format, then password format, then a taken name, each 400 with no change; success appends exactly one user with id = old length + 1, no experience and level `小白`, answers 201 with its public fields, and that user can then log in |
| MockAuth.UserTable.Login | src/mock/data/auth.ts:150-178 | success exactly when some user has both that user name and password, with both tokens for the first such user; else 401 |
| MockAuth.UserTable.LoginFindsOnly | src/mock/data/auth.ts:154-165 | with unique user names, login returns the tokens of the one user holding the name |
| MockAuth.UserTable.Refresh | src/mock/data/auth.ts:185-213 | success exactly when the token names an existing user other than id 0, with fresh tokens for that id; else 401 |
| MockAuth.UserTable.LoginThenRefresh | src/mock/data/auth.ts:150-213 | the refresh token from a login refreshes to the same tokens |
| MockUsers.GetUserPoems | src/mock/data/user.ts:35-38 | the works of the first entry for the user, or none when there is no entry |
| MockUsers.Caller | src/mock/data/user.ts:72-90 | the user the bearer token names, or none exactly when the token names nobody in the table |
| MockUsers.Info | src/mock/data/user.ts:69-107 | the caller's public fields, or 401 exactly when the token names no user |
| MockUsers.InfoOfBearer | src/mock/data/user.ts:69-107 | a user who sends their own token sees their own info |
| MockUsers.UserProfile | src/mock/data/user.ts:109-161 | 401 unless the token names an existing non-zero id, then 404 unless some user has the parsed id (default `'0'`); success exactly otherwise, with the first such user's username, name, photo, exp and level, the works `getUserPoems` lists for that id and `poem_count` their number |
| MockUsers.ProfileOfStoredUser | src/mock/data/user.ts:130-160 | a signed-in caller opening a stored user's page by that user's decimal id gets that user's profile and works |
| MockUsers.ValidateName | src/mock/data/user.ts:49-57 | accepted exactly for 2 to 20 characters, each CJK, a letter, a digit or `_`; the length error comes first |
| MockUsers.OwnNameFree | src/mock/data/user.ts:196-201 | keeping one's own current name is never refused as taken |
| MockUsers.RenameKeeps | src/mock/data/user.ts:204 | renaming one user keeps ids and user names, and keeps display names unique when no other user had the new name |
| MockUsers.Rename | src/mock/data/user.ts:163-215 | 401, then the name format (400), then a name another user holds (400), each with no change; success changes only the caller's name |
| MockUsers.Avatar | src/mock/data/user.ts:218-251 | 401 with no change, or only the caller's photo URL changes, to the address built from the id and the generated file name |
| MockUsers.ChangePassword | src/mock/data/user.ts:255-314 | 401, then a wrong old password (401), then the new format (400), then new equal to old (400), each with no change; success changes only the caller's password |
| MockWorks.DoubledHeat | src/mock/data/work.ts:391-393 | twice the heat score 2·likes + 3·collects + 1.5·comments, an integer with the same order |
| MockWorks.WorkIndex | src/mock/data/work.ts:489 | the first post with the id, and None exactly when no post has it |
| MockWorks.OwnedIndex | src/mock/data/work.ts:597 | the first post with the id written by the caller, and None when there is none |
| MockWorks.WithExpBump | src/mock/data/work.ts:562-563 | the author alone gains one experience point; the table keeps its length and its id, username and name invariants |
| MockWorks.BumpAddsOne | src/mock/data/work.ts:666-668 | an existing author's experience goes up by exactly one |
| MockWorks.HeatEntries | src/mock/data/work.ts:453-457 | one ranking row per post, with its id, title and doubled heat |
| MockWorks.TopOfSorted | src/mock/data/work.ts:457-459 | the head of a list sorted by descending key is drawn from the list and outranks everything left out |
| Lists.FilterAppend | src/mock/data/favorite.ts:208-215 | `filter` keeps the stored order: filtering a concatenation filters each part in turn |
| Lists.SortStable | src/mock/data/work.ts:413 | the sort is stable: for every key, the items with that key come out in the order they went in, so posts with the same publish time keep their stored order |
| MockWorks.DropWork | src/mock/data/work.ts:609-611 | every user's like or collect set loses the post and nothing else |
| MockWorks.WorkTable.constructor | src/mock/data/work.ts:360-363 | the table starts from the given posts with empty like and collect records |
| MockWorks.WorkTable.HomePage | src/mock/data/work.ts:397-437 | 401 exactly without a caller id; otherwise page `page` (default 1) of twenty posts newest first, the total and the ceiling page count, and no items when the page does not parse |
| MockWorks.WorkTable.HomePageWindow | src/mock/data/work.ts:410-421 | a page from 1 up is the window of at most twenty posts of the newest-first order, itself sorted, from a permutation of all posts |
| MockWorks.WorkTable.Hot | src/mock/data/work.ts:440-473 | 401 exactly without a caller id; otherwise min(10, posts) rows sorted by heat, drawn from all posts, each at least as hot as every row left out, with the message chosen by emptiness |
| MockWorks.WorkTable.GetDetail | src/mock/data/work.ts:476-512 | 401, then 404 for an unknown id; otherwise the first post with the id and its comment count |
| MockWorks.WorkTable.Publish | src/mock/data/work.ts:515-581 | 401, then 400 without a title or content, then 404 without the author; on success the new post goes first with zero counts and the author gains one point, and nothing changes on an error |
| MockWorks.WorkTable.Delete | src/mock/data/work.ts:584-622 | 401, then 404 unless the caller wrote the post; on success exactly that post leaves the list and both record maps lose its id |
| MockWorks.Marking | src/mock/data/work.ts:625-756 | like and collect: 401, then 404 for an unknown post, then 400 when the caller already marked it, each changing nothing; on success the count rises by one, the caller's record gains the post, the other kind of record is untouched and the author gains a point |
| MockWorks.WorkTable.MarkWork | src/mock/data/work.ts:625-756 | the reply and the new posts, records and users are those `Marking` gives for the old tables, and the user table stays valid |
| MockWorks.Commenting | src/mock/data/work.ts:759-844 | 401, then 400 for blank or over-500-character content, then 404 for an unknown post or commenter, each changing nothing; on success one comment is appended, the reported count is the new count and the author gains a point |
| MockWorks.WorkTable.AddComment | src/mock/data/work.ts:759-844 | the reply and the new posts and users are those `Commenting` gives for the old tables, and the user table stays valid |
| MockChat.KeyIndex | src/mock/data/chat.ts:83-84 | the first canned key, in table order, that the question contains, and None exactly when it contains none |
| MockChat.GetAnswer | src/mock/data/chat.ts:82-89 | the answer of the first key the question contains, and the default answer when it contains none |
| MockChat.SortByTime | src/mock/data/chat.ts:113 | a permutation of the questions in non-decreasing timestamp order |
| MockChat.QATable.constructor | src/mock/data/chat.ts:17 | the table starts from the given questions |
| MockChat.QATable.QAList | src/mock/data/chat.ts:93-132 | 401 exactly without a caller id; otherwise the caller's questions in that session, oldest first, every one of them and only them, without session and user fields |
| MockChat.QATable.Ask | src/mock/data/chat.ts:135-206 | 401, then 400 for an empty question, both storing nothing; otherwise exactly one question is appended with its canned answer and render length, and the reply carries that answer |
| MockChat.StreamResponse | src/mock/data/chat.ts:193-204 | the handler's reply holds an envelope under `data` |
| MockChat.StreamMarkerMissed | src/mock/data/chat.ts:193-204 | the adapter as written does not see the stream marker in a chat reply; read one level deeper it does, and the content to stream is the stored answer |
| MockSessions.UUIDIgnoresCase | src/mock/data/session.ts:56-59 | the UUID check is case-insensitive: a string passes exactly when its lower-case form does |
| MockSessions.VersionDigit | src/mock/data/session.ts:56-59 | changing the version digit of a well-formed id keeps it well formed exactly when the new digit is 1 to 5 |
| MockSessions.SessionIndex | src/mock/data/session.ts:94-96 | the first session with this id owned by the caller, and None exactly when the caller owns none |
| MockSessions.NewestFirst | src/mock/data/session.ts:141-143 | a permutation of the caller's sessions, newest first |
| MockSessions.WithoutSessionMembers | src/mock/data/session.ts:245-256 | after the cascade exactly the questions of other sessions remain |
| MockSessions.CollectIndices | src/mock/data/session.ts:246-251 | the first pass collects, in increasing order, the index of every question of the session and no other |
| MockSessions.DropSessionQuestions | src/mock/data/session.ts:245-256 | splicing the collected indices from the back removes exactly the session's questions and keeps the rest in order |
| MockSessions.AddOwn | src/mock/data/session.ts:94-111 | adding a session whose id its owner does not use yet keeps session ids unique per user |
| MockSessions.RemoveOwn | src/mock/data/session.ts:229-241 | removing a user's session keeps ids unique per user and leaves that user no session with the id |
| MockSessions.SessionTable.constructor | src/mock/data/session.ts:61 | the table starts from the given sessions, which hold unique ids per user |
| MockSessions.SessionTable.Create | src/mock/data/session.ts:63-125 | 401, then 400 for a blank name, then 400 for an ill-formed id, then 400 for an id the caller already uses; on success the session with the trimmed name goes first, and nothing changes on an error |
| MockSessions.SessionTable.List | src/mock/data/session.ts:128-159 | 401 exactly without a caller id; otherwise every session of the caller and only those, newest first, as id, name and creation time |
| MockSessions.SessionTable.Rename | src/mock/data/session.ts:162-211 | 401, then 400 for a blank name, then 404 unless the caller owns the session; on success only that session's name becomes the trimmed name |
| MockSessions.SessionTable.Delete | src/mock/data/session.ts:214-269 | 401, then 404 unless the caller owns the session; on success that session goes and so does every question stored under its id, whichever user's session it came from |
| MockFavorites.Matching | src/mock/data/favorite.ts:207-215 | a record is kept exactly when it is the caller's and, when a search text is given, its title contains the text ignoring case |
| MockFavorites.AtLeastZero | src/mock/data/favorite.ts:279 | the larger of zero and the argument |
| MockFavorites.OwnCollect | src/mock/data/favorite.ts:262-264 | the caller's record with this id, and None exactly when the caller has none |
| MockFavorites.CollectTable.constructor | src/mock/data/favorite.ts:189 | the table starts from the given records |
| MockFavorites.CollectTable.List | src/mock/data/favorite.ts:191-246 | 401 exactly without a caller id; otherwise page `page` (default 1) of the matching records, ten to a page, with their total and ceiling page count, only the caller's matching records, and the message chosen by emptiness and search |
| MockFavorites.CollectTable.ListPageWindow | src/mock/data/favorite.ts:217-222 | a page from 1 up is the window of at most ten matching records, and the pages up to the last one hold every matching record once, in order |
| MockFavorites.CollectTable.Delete | src/mock/data/favorite.ts:249-294 | 401, then 404 unless the caller owns the record; on success exactly that record is removed and the reported count is one less, never below zero |
| MockPoems.ZeroIdAcceptedHere | src/mock/data/poem.ts:165-170 | the poem endpoints accept the token of user id 0, which the endpoints testing `!userId` refuse |
| MockPoems.Summaries | src/mock/data/poem.ts:193-198 | one summary per poem, in order, keeping id, title, author and tags |
| MockPoems.PageCount | src/mock/data/poem.ts:189 | the ceiling of total over size for a positive size, no finite number for a missing or zero size, and nothing positive for a negative size |
| MockPoems.PageOf | src/mock/data/poem.ts:174-215 | 401 exactly for an invalid token; otherwise the parsed size (default 20) and number (default 1), the total, the page count, and the summaries of that page, empty when either parameter is not a number |
| MockPoems.PageOfParsed | src/mock/data/poem.ts:185-193 | page parameters written as numbers are read back as those numbers |
| MockPoems.PageOfWindow | src/mock/data/poem.ts:190-193 | a page is the window of `size` poems from `(num - 1) * size`, clamped to the list |
| MockPoems.SearchLines | src/mock/data/poem.ts:218-253 | 401 exactly for an invalid token; otherwise, in stored order, exactly the poems with a line containing the keyword, and their count |
| MockPoems.SearchTitles | src/mock/data/poem.ts:256-289 | 401 exactly for an invalid token; otherwise, in stored order, exactly the poems whose title contains the keyword, and their count |
| MockPoems.TwoDigits | src/mock/data/poem.ts:309 | a number below 100 is written with two characters |
| MockPoems.Daily | src/mock/data/poem.ts:292-320 | 401 exactly for an invalid token; otherwise the poem at `YYYYMMDD mod count`, always a position in the list, with the dated message |
| MockPoems.DailyIndex | src/mock/data/poem.ts:305-306 | the day's position, `YYYYMMDD mod count`, is always a position in the list |
| MockPoems.NextDayIndex | src/mock/data/poem.ts:305-307 | within a month the next day's poem is the next one in the list, wrapping round at the end |
| MockPoems.PoemIndex | src/mock/data/poem.ts:335 | the first poem with the parsed id, and None exactly when the id is not a number or no poem has it |
| MockPoems.Detail | src/mock/data/poem.ts:323-353 | 401 for an invalid token, then 404 naming the id when no poem has it; otherwise the first poem with the parsed id (default 0) |
| MockPoems.DetailOfStoredId | src/mock/data/poem.ts:334-335 | asking for a stored non-negative id finds a poem with that id |
| MockPoems.Respond | src/mock/data/poem.ts:356-451 | 401, then 400 for an empty sentence; success exactly when the sentence holds the first clause, or both clauses of the last line; the first clause answers one or two next clauses, the last line ends the round; otherwise 400 naming the sentence |
| MockPoems.FirstLineWith | src/mock/data/poem.ts:484-502 | the first poem, and its first line, that contains the text, and None exactly when no poem has such a line |
| MockPoems.FindLine | src/mock/data/poem.ts:484-502 | the nested loops stop at the first poem and line containing the text, as FirstLineWith says |
| MockPoems.ParsePrompt | src/mock/data/poem.ts:454-513 | 401 for an invalid token; a title equal to the content answers the title prompt first, otherwise the first line containing it answers the line prompt, otherwise 400; success exactly when some poem has that title or such a line |

## Left out

- UTF-8 decoding: the stream is modelled as the decoded text chunks that `TextDecoder` yields, and keeping split multi-byte characters intact is that library's job.
- `JSON.parse`, `atob` and the regular-expression engine are not modelled as engines. `JSON.parse` is a function parameter of the model. Base64 decoding is left to the caller. Each regular expression is a hand-written predicate.
- UserStore.DecodeJwtPayload: `atob`, the UTF-8 decoding and `JSON.parse` of the payload together are one `decode` parameter, applied once base64url normalisation and padding are done.
- MockAuth.ParseToken: the JWT branch of `parseToken` is left out; tokens without the mock prefix give no user id.
- MockAuth.UserTable.Register: a request body without `username` or without `password` is not modelled; the user name and password are given as text. In the source the format test then reads the missing value as the text "undefined", which has nine letters and passes (src/mock/data/auth.ts:67-68, 91, 100), so such a request registers a user whose user name or password is `undefined`.
- MockUsers.Rename: a request body without `new_name` is not modelled; the new name is given as text. In the source `name.length` then throws (src/mock/data/user.ts:50, 187), so the adapter rejects the request and no user changes.
- MockUsers.ChangePassword: a request body without `new_password` is not modelled; the new password is given as text. In the source, after a correct old password, the format test reads it as the text "undefined", which passes (src/mock/data/user.ts:287), and the password becomes `undefined` (src/mock/data/user.ts:304).
- JSON values of the wrong type (numbers or objects where text is expected) are not modelled. Request body fields are given as text; query and path parameters are optional text.
- Numbers are exact, unbounded integers. JavaScript numbers are doubles, so this agrees with the source only while every magnitude stays below 2^53; beyond that ids, counts and page arithmetic lose precision, and from 10^21 on a number prints in exponent form, so `parseInt` no longer reads back the id that `generateToken` wrote (MockAuth.TokenRoundTrip, Strings.ParseInt, Strings.IntToString).
- String lengths count characters, not UTF-16 code units; `toLowerCase` and `toUpperCase` (as in MockAdapter.RequestMethod) are modelled for ASCII letters only.
- MockAdapter.MatchPath: the source compiles a pattern into a regular expression with only `/` escaped, so `.`, `*`, `+`, `?`, `(`, `)`, `[`, `]`, `{`, `}`, `|`, `^`, `$` and `\` in a pattern act as operators, and an unbalanced `(` or `[` makes `new RegExp` throw; the model reads every character except a `:name` parameter literally. It agrees with the source on patterns free of those characters, which every handler pattern under `src/mock/data/` is.
- MockAdapter.LiteralPattern: "only the identical path" holds in the source only for patterns free of regular-expression operators; for others (`/a.b` also matches `/axb`) it is a statement about the model.
- Stream.StreamProcessor.ProcessStream: the `onChunk` callback is taken to be the router of `processStreamResponse`, which throws exactly on a `null` chunk (`RouterThrows`); a callback that throws on other chunks is not modelled.
- Network, promises and interleaving: axios, `fetch`, `reader.read()` and promise settlement are modelled as discrete method calls whose results are parameters, one after another.
- The dynamic `import('./chat')` in the session delete cascade is modelled as if it ran at once, inside the same call.
- Timers: the `debounce` helper and the adapter's `setTimeout`/`setInterval` only control timing. The interval ticks of a streamed reply are modelled as a sequence of pushes.
- UI and persistence side effects (`ElMessage`, `router.push`, `document.title`, `window.scrollTo`) are left out. `localStorage` is a map.
- Generated ids, `Date.now()`, `new Date()` and `Math.random` are parameters.
- Floats: the heat score is modelled as twice its value, `4·likes + 6·collects + 3·comments`, which keeps the order. Fractional timestamps are whole seconds.
- The fixture literals `mockWorks`, `mockPoems`, `mockCollects`, `mockSessions`, `mockQAs` and `mockUsers` are not modelled; the tables start from any given contents.
- Error replies do not carry their constant data payloads (`data: []` and the empty stream fields).
- The respond handler's `sentences` split is left out, since nothing reads it.
- MockPoems.PageCount: for a negative page size the count is stated only as not positive; the exact value of `Math.ceil` of a negative quotient is not.
- MockPoems.Daily and MockPoems.Respond require a non-empty poem list, as the fixture is. With no poems the source would divide by zero or read a property of `undefined`.
- PoemSearch.Searcher.Search: negative page sizes are excluded by the class invariant, because the page count is only defined for sizes that are not negative.
- PoemSearch.Searcher.ChangePageSize: requires a size that is not negative, for the same reason.
- Thin API wrappers (`src/api/*.ts`), the router, `useBilibiliRecommend` and the mock bootstrapping are not part of this model.

## Findings

| source | as written | input that shows it | evidently intended | confidence | as-written member | corrected member |
|---|---|---|---|---|---|---|
| src/mock/adapter.ts:89 | the adapter looks for `stream === true` in `responseData.data` | any successful chat stream request: src/mock/data/chat.ts:193-204 puts the marker in `responseData.data.data`, so the reply is returned whole and never streamed (MockChat.StreamMarkerMissed; `MockAdapter.Adapt` with `AsWritten` answers it whole) | read the marker and `full_content` from the envelope's own `data` field | high, not executed | MockAdapter.StreamFieldsAsWritten | MockAdapter.StreamFields |
