# youtube-unofficial, modelled in Dafny

This project models the core of `youtube-unofficial`, a Python client that automates a logged-in YouTube account. It covers two source files:

- `youtube_unofficial/util.py`: the helpers that dig through YouTube's nested JSON. These are `path`, `path_default`, `try_get`, `remove_start`, `extract_keys`, `get_text_runs`, `first` and `context_client_body`.
- `youtube_unofficial/__init__.py`: the `YouTube` operations.
  - Clearing a playlist, Watch Later or the favourites playlist.
  - Removing one entry from a playlist, or one video from favourites or from history.
  - Finding the favourites playlist id, which is cached.
  - Clearing watch history.
  - Reading playlists and history page by page through `browse_ajax` continuations.
  - Pausing or resuming search history.

The modules follow that structure:

| file | module | contents |
|---|---|---|
| `text.dfy` | `Text` | The `str` operations the helpers use: `strip`, `split` on one character, `join`, `replace`, `in` on strings, and the digit grammar of `int()`. |
| `py.dfy` | `Py` | Decoded JSON values (`Json`) and Python exceptions (`Error`). Also the Python semantics the code leans on: `obj[key]` with negative list indices, chained subscripts, truthiness, `in`, iteration, `isinstance` and `int(str)`. Every exception the code raises or catches is a value: "raises KeyError" is `Err(KeyError(k))`. |
| `numerals.dfy` | `Numerals` | The round trip `int(str(n)) == n` over the digit grammar of `int()`. |
| `util.dfy` | `Util` | The JSON helpers of `util.py`. |
| `pager.dfy` | `Pager` | The two generators `get_playlist_info` and `get_history_info`, and the consumers `list(map(...))` and `list(filter(...))` that drive them. |
| `guide.dfy` | `Guide` | The guide scan behind `get_favorites_playlist_id`. It is proved equal to a reference that picks the first liked-videos link of a typed guide. The proof covers any JSON whose keys the scan reads match the typed guide (`Guide.Shows`), whatever other keys it carries. |
| `actions.dfy` | `Actions` | The public operations of the `YouTube` class. |

## How the model works

Generators are modelled as a `PagerRun`:
- It is a sequence of batches. Each batch holds the browse request that fetched it and the items it yields.
- It also has an end status: finished, raised an exception, or waiting for an answer the model was not given.
- A consumer walks the batches item by item. An exception from its callback, or from the generator, stops it at that point. So the requests it issued are exactly those of the batches it reached.
- Both pagers share one request loop (`Pager.Loop`). A per-collection step says where a continuation response keeps its items and its next cursor.

Operations are functions of an `Env` and a `World`.
- The `Env` holds the network side:
  - whether the session is logged in;
  - what each downloaded page holds (its `ytcfg`, the headers built from it, its initial data, its guide data);
  - the answers to browse requests, in the order they are issued;
  - the JSON answer to each post;
  - the client's user agent.
- The `World` holds the calls made so far, in order, and the cached favourites id.
- Each call is recorded as a `Call`. `Fetch` and `Browse` only read. `EditPlaylist`, `Feedback` and `FeedbackApi` change the account. `Actions.Mutations` picks the calls that change the account out of a trace.

## Model

| member | source | states |
|---|---|---|
| `Util.Path` | youtube_unofficial/util.py:112-122 | `path` raises only KeyError, IndexError, TypeError or ValueError. |
| `Util.PathCompose` | youtube_unofficial/util.py:112-122 | `path(a + '.' + b, o)` is `path(b, path(a, o))`, and fails as soon as `path(a, o)` does. |
| `Util.PathListIndex` | youtube_unofficial/util.py:114-119 | On a list, a numeral segment indexes Python-style: a negative number counts from the end, and one out of range raises IndexError. |
| `Util.PathListSegment` | youtube_unofficial/util.py:114-119 | On a list, any segment `int()` accepts (signs, padding and underscores included) indexes with the number it reads, Python-style. |
| `Util.PathListBadSegment` | youtube_unofficial/util.py:114-119 | On a list, a segment `int()` rejects raises ValueError. The handler for TypeError never fires, so the "must be an integer" TypeError is never raised. |
| `Util.PathMissingKey` | youtube_unofficial/util.py:120-121 | On a dict, a missing segment raises KeyError naming that segment. |
| `Util.PathDefault` | youtube_unofficial/util.py:125-129 | `path_default` returns what `path` returns, and returns the default in place of KeyError and IndexError. It raises only when `path` raises TypeError or ValueError, and then raises the same error. The call without a default is `PathDefault(s, obj, JNull)`, since the default is `None`. |
| `Util.PathDefaultMissingKey` | youtube_unofficial/util.py:125-129 | Suppose a dotted path reaches a dict that lacks the last key. Then `path` raises KeyError for that key and `path_default` gives the default. |
| `Util.PathDefaultScalar` | youtube_unofficial/util.py:112-129 | Suppose a dotted path reaches a string or a number and goes on. Then both `path` and `path_default` raise TypeError. |
| `Util.TryGetters` | youtube_unofficial/util.py:64-71 | The getters are tried in order. The result is the first outcome not passed over: a value of the expected type, or an exception `try_get` does not catch. It is `None` when every outcome is passed over. |
| `Util.TryGet` | youtube_unofficial/util.py:59-71 | A lone getter acts as a one-element list. A non-`None` result has the expected type. Attribute, key, type and index errors never escape. |
| `Util.RemoveStart` | youtube_unofficial/util.py:84-85 | `None` stays `None`. A string with the prefix loses exactly the prefix. Any other string is returned unchanged. |
| `Util.RemoveStartAfterPrefix` | youtube_unofficial/util.py:84-85 | Removing a prefix that was just added gives back the rest. |
| `Util.ExtractKeys` | youtube_unofficial/util.py:104-109 | The result has exactly the given keys, each with the value from `obj`. Otherwise it raises KeyError for the first key `obj` lacks. |
| `Util.RunTexts` | youtube_unofficial/util.py:133-134 | One `text` per run, in order. It succeeds exactly when every run has a `text`. Otherwise it raises the error of the first run without one. |
| `Util.GetTextRuns` | youtube_unofficial/util.py:132-134 | The result holds no line break and has no whitespace at either end. A description without `runs` raises KeyError. `Util.GetTextRunsValue` gives its value. |
| `Util.GetTextRunsOfStrings` | youtube_unofficial/util.py:132-134 | For the smallest description built from strings, the result is `' - '.join(text.strip().split('\n'))` of the concatenated runs. `Util.GetTextRunsValue` states the same for any description. |
| `Util.GetTextRunsValue` | youtube_unofficial/util.py:132-134 | For any description whose `runs` is a list of runs with string `text` values, whatever other keys they carry, the result is `' - '.join(text.strip().split('\n'))` of the texts joined in order. |
| `Util.First` | youtube_unofficial/util.py:156-157 | On a list, the result is the first element, or IndexError when the list is empty. |
| `Util.ContextClientBody` | youtube_unofficial/util.py:137-153 | The client body exists exactly when `ytcfg` holds the four settings it copies. The copied values and the user agent are in it. A missing client version raises KeyError for that key. |
| `Pager.Loop` | youtube_unofficial/__init__.py:273-298 | The shared request loop makes one request per batch, the first with the starting cursor. It waits exactly when every answer is used up. |
| `Pager.LoopSpec` | youtube_unofficial/__init__.py:273-298 | Batch i is fetched with the cursor that response i-1 carried, and yields response i's items. Every response except the last one consumed continues the loop. The last one ends the run as it says. |
| `Pager.LoopAllPages` | youtube_unofficial/__init__.py:273-298 | For N pages where every page except the last has a cursor, the loop yields exactly their items in order, makes N requests and finishes. |
| `Pager.LoopPrefix` | youtube_unofficial/__init__.py:273-298 | Answering more requests never changes what was already yielded or requested. |
| `Pager.LoopRequests` | youtube_unofficial/__init__.py:273-298 | The first request uses the starting cursor. Each later request uses the cursor the previous response carried. |
| `Pager.PlaylistRequest` | youtube_unofficial/__init__.py:275-279 | A playlist request sends its continuation as both `ctoken` and `continuation`, and has no session token. |
| `Pager.PlaylistFirstItems` | youtube_unofficial/__init__.py:259-262 | The first page yields the renderer's `contents`. A renderer without `contents` yields nothing. |
| `Pager.PlaylistInitialCursor` | youtube_unofficial/__init__.py:264-271 | A renderer without `continuations` has no cursor, which is not an error. |
| `Pager.PlaylistStep` | youtube_unofficial/__init__.py:280-298 | A continuation response that continues the loop pairs its cursor and sends no session token. |
| `Pager.PlaylistInfo` | youtube_unofficial/__init__.py:242-298 | The first batch is the page itself, fetched without a browse request. |
| `Pager.PlaylistNeedsCursor` | youtube_unofficial/__init__.py:254-279 | No request is made unless the first page has a cursor whose continuation and click-tracking token are both truthy. The first request uses that cursor. |
| `Pager.PlaylistSinglePage` | youtube_unofficial/__init__.py:254-273 | A playlist without `continuations` yields its `contents`, or nothing, makes no request and finishes. |
| `Pager.PlaylistRequestsPaired` | youtube_unofficial/__init__.py:273-298 | Every playlist request pairs its cursor and posts no session token. |
| `Pager.PlaylistLastResponse` | youtube_unofficial/__init__.py:286-295 | A continuation without `continuations` ends the run after its items, whatever answers remain. |
| `Pager.PlaylistStepItems` | youtube_unofficial/__init__.py:280-288 | A continuation response in the usual shape yields its `contents`, whatever follows. |
| `Pager.PlaylistContinueStep` | youtube_unofficial/__init__.py:280-298 | A response that has a next cursor yields its `contents` and continues with a request for that cursor. |
| `Pager.PlaylistStopStep` | youtube_unofficial/__init__.py:286-294 | A response without `continuations` yields its `contents` and ends the loop. |
| `Pager.PlaylistStepsItems` | youtube_unofficial/__init__.py:280-298 | Over several responses in the usual shape, the items are each response's `contents`, one after another. |
| `Pager.PlaylistAllPages` | youtube_unofficial/__init__.py:242-298 | A playlist of several pages yields the first page's `contents` and then each response's `contents`, in order. It makes one request per response, the first with the page's cursor, and it finishes after the last response. |
| `Pager.SectionsItemsWellFormed` | youtube_unofficial/__init__.py:383-384 | Well-formed sections yield their items section after section. |
| `Pager.SectionsItems` | youtube_unofficial/__init__.py:383-384 | It raises exactly when some section lacks an iterable `['itemSectionRenderer']['contents']`, and then raises the error of the first such section. `Pager.SectionsItemsWellFormed` states the items yielded. |
| `Pager.SectionListItems` | youtube_unofficial/__init__.py:381-384 | A section list without an iterable `contents` raises at once and yields nothing. Without error, every section had its contents. |
| `Pager.HistoryFirstRequest` | youtube_unofficial/__init__.py:391-399 | The first history request pairs the page's cursor and posts the page's `XSRF_TOKEN`. |
| `Pager.HistoryNextRequest` | youtube_unofficial/__init__.py:423-427 | A later history request posts the previous answer's `xsrf_token` and pairs the new cursor. |
| `Pager.HistoryStep` | youtube_unofficial/__init__.py:402-427 | A history continuation that continues the loop carries the answer's `xsrf_token` and a paired cursor. |
| `Pager.HistoryInfo` | youtube_unofficial/__init__.py:369-427 | The first batch is the history page itself, fetched without a browse request. |
| `Pager.HistorySinglePage` | youtube_unofficial/__init__.py:380-389 | A history whose section list has no `continuations` yields the sections' items and makes no request. |
| `Pager.HistoryStart` | youtube_unofficial/__init__.py:380-399 | The loop starts only from a first page whose sections yield without error and that has a cursor. |
| `Pager.HistoryTokens` | youtube_unofficial/__init__.py:394-427 | The first request posts the page's `XSRF_TOKEN`, and each later one posts the `xsrf_token` of the answer before it. Every request pairs its cursor. |
| `Pager.HistoryLastResponse` | youtube_unofficial/__init__.py:410-422 | A continuation without `continuations` ends the run after its items. |
| `Pager.HistoryStepItems` | youtube_unofficial/__init__.py:401-412 | A continuation response in the usual shape yields its sections' items, whatever follows. |
| `Pager.HistoryContinueStep` | youtube_unofficial/__init__.py:402-427 | A response that has a next request yields its sections' items and continues with that request, which carries the response's own `xsrf_token`. |
| `Pager.HistoryStopStep` | youtube_unofficial/__init__.py:408-420 | A response without `continuations` yields its sections' items and ends the loop. |
| `Pager.HistoryStepsItems` | youtube_unofficial/__init__.py:402-427 | Over several responses in the usual shape, the items are each response's section items, one after another. |
| `Pager.HistoryAllPages` | youtube_unofficial/__init__.py:369-427 | A history of several pages yields the first page's section items and then each response's, in order. It makes one request per response, the first built from the page's cursor and `XSRF_TOKEN`, and it finishes after the last response. |
| `Pager.Drain` | youtube_unofficial/__init__.py:318-325 | A consumer issues a prefix of the generator's requests. It waits only if the generator does. |
| `Pager.DrainAll` | youtube_unofficial/__init__.py:319-321 | Suppose the callback never raises. Then the consumer collects what the callback keeps of every item, issues every request, and ends as the generator ends. |
| `Pager.DrainRaises` | youtube_unofficial/__init__.py:318-325 | An item the callback raises on stops the consumer with an exception. |
| `Pager.DrainClean` | youtube_unofficial/__init__.py:318-325 | A consumer that did not raise met no item the callback raises on, and ended as the generator ended. |
| `Pager.KeepAllFirst` | youtube_unofficial/__init__.py:353-357 | `list(filter(p, ...))[0]` is the first item `p` keeps. |
| `Pager.KeepAllNone` | youtube_unofficial/__init__.py:352-359 | The filtered list is empty when `p` keeps nothing. |
| `Pager.KeepAllMap` | youtube_unofficial/__init__.py:319-321 | `list(map(g, ...))` has one value per item, in order. |
| `Pager.DrainFirst` | youtube_unofficial/__init__.py:352-357 | When the predicate raises on no item, the filtered list starts with the first item it keeps. The generator ran to its end, making every request. |
| `Pager.DrainNone` | youtube_unofficial/__init__.py:352-359 | Filtering with a predicate that keeps nothing collects nothing. |
| `Pager.DrainRaisesAnywhere` | youtube_unofficial/__init__.py:352-359 | A predicate that raises on any item makes the filter raise, even when the item comes after a match. |
| `Guide.CheckEntry` | youtube_unofficial/__init__.py:205-208 | An entry is a match exactly when its icon type is `LIKES_PLAYLIST`, and then the result is its `guideEntryId` or the error reading it raises. An entry with any other icon type gives `None`. An entry whose icon type cannot be read raises that read's error. |
| `Guide.CheckExpandable` | youtube_unofficial/__init__.py:203-208 | The inner loop gives `None` exactly when every entry is another entry. Otherwise it gives what the first entry that is not another entry gives: its id, or the error its subscripts raise. |
| `Guide.CheckItem` | youtube_unofficial/__init__.py:197-208 | An item with `guideEntryRenderer` is checked as an entry. A dict with only `guideCollapsibleEntryRenderer` has its `expandableItems` checked by the inner loop, or raises the error reading them raises. A dict with neither renderer key is passed over. `in` on a number, a bool or `None` raises TypeError. |
| `Guide.CheckItems` | youtube_unofficial/__init__.py:196-208 | The outer loop gives `None` exactly when every item gives `None`. Otherwise it gives the first other outcome, id or error. `Guide.CheckItemsOfGuide` relates it to the reference. |
| `Guide.CheckSectionItems` | youtube_unofficial/__init__.py:194-209 | A non-iterable `items` raises TypeError. A list of items that all give `None` gives `None`. An id it returns is the id the first item not giving `None` gives, and an error it raises is that first item's error. `Guide.CheckSectionItemsOfGuide` relates it to the reference. |
| `Guide.FavoritesFromGuide` | youtube_unofficial/__init__.py:211-232 | A found id is truthy. A failure to reach the section items raises that error. A truthy result of the first scan is the answer, and a scan error is raised. Otherwise the last item's `expandableItems` are rescanned: a failure to reach them raises, and a rescan that finds nothing truthy raises ValueError. `Guide.FavoritesOfGuide` states the value on any guide. |
| `Guide.FindLikes` | youtube_unofficial/__init__.py:194-209 | Reference: the id of the first link, in guide order, whose icon is `LIKES_PLAYLIST`. |
| `Guide.CheckSectionItemsOfGuide` | youtube_unofficial/__init__.py:194-209 | On any section items the scan reads as a guide, whatever other keys they carry, `check_section_items` returns the id of the first liked-videos link, looking inside collapsible groups, or `None` when there is none. |
| `Guide.CheckItemsOfGuide` | youtube_unofficial/__init__.py:196-208 | On any items the scan reads as a guide, the code's item loop finds what the reference finds. |
| `Guide.CheckItemOfGuide` | youtube_unofficial/__init__.py:197-208 | Any item the scan reads as an entry, a group or another item gives what the reference finds in it. |
| `Guide.FallbackOfGuide` | youtube_unofficial/__init__.py:222-223 | On any section items read as a guide, the fallback reads the last item's group. An empty guide raises IndexError. A last item that is not a group raises KeyError. |
| `Guide.FavoritesOfGuide` | youtube_unofficial/__init__.py:211-226 | On any guide data whose section items the scan reads as a guide, the lookup gives the first liked-videos id when that id is truthy. Otherwise it rescans the last item's group: ValueError unless that group has a liked-videos link with a truthy id. An empty guide raises IndexError. A last item that is not a group raises KeyError. |
| `Guide.FavoritesMissing` | youtube_unofficial/__init__.py:211-226 | On any guide data whose section items are read as a guide without a liked-videos link, the lookup never yields an id. |
| `Actions.CheckStatus` | youtube_unofficial/__init__.py:141-143 | It succeeds exactly when the answer's `code` is `'SUCCESS'`. Any other code raises UnexpectedError. |
| `Actions.RemoveSetVideoId` | youtube_unofficial/__init__.py:83-143 | Logged out, it raises AuthenticationError and makes no call. It returns only after a playlist edit for that playlist and entry that was answered `'SUCCESS'`. When headers, csn and token are all given, that edit is the only call. A refused edit then raises UnexpectedError when the answer has a `code`, and the subscript's error when it has none. |
| `Actions.RemoveSetVideoIdRefetch` | youtube_unofficial/__init__.py:96-132 | A missing argument makes it download the Watch Later page first. The edit then carries that page's headers, even when headers were given, and the page's `EVENT_ID` or `XSRF_TOKEN` in place of a falsy csn or token. |
| `Actions.ClearHistoryRequest` | youtube_unofficial/__init__.py:158-172 | The clearing post exists exactly when the clear button's endpoint, `EVENT_ID` and `XSRF_TOKEN` can all be read. It carries that endpoint. |
| `Actions.ClearWatchHistory` | youtube_unofficial/__init__.py:145-184 | It downloads the history page first. A KeyError while building the post returns quietly, with nothing posted. Any other error raises. Otherwise the one post is the clear button's endpoint. |
| `Actions.ClearWatchHistoryPosts` | youtube_unofficial/__init__.py:158-183 | Whatever the page holds, clearing history posts at most once, and only the clear button's own endpoint. |
| `Actions.GetFavoritesPlaylistId` | youtube_unofficial/__init__.py:186-232 | The id it returns is truthy and is cached. A truthy cache is returned without downloading. A cache miss downloads the home page once and succeeds exactly when the guide lookup does. It never changes the account. |
| `Actions.FavoritesCached` | youtube_unofficial/__init__.py:191-192 | Once found, the id is served from the cache: asking again downloads nothing and gives the same id. |
| `Actions.FavoritesFromLikes` | youtube_unofficial/__init__.py:211-220 | On a cache miss, when the home page's section items are read as a guide, the id returned and cached is the first liked-videos id, when that id is truthy. |
| `Actions.SetVideoIdOf` | youtube_unofficial/__init__.py:319-321 | The `map` callback gives an entry's `setVideoId` and fails exactly when the entry lacks one. |
| `Actions.EditsInOrder` | youtube_unofficial/__init__.py:327-334 | The edits for a list of ids are one per id, in order, each removing that id with the same csn, token and headers. |
| `Actions.FirstRejectedIsFirst` | youtube_unofficial/__init__.py:327-334 | The position found is that of the first id whose edit is not answered `'SUCCESS'`: every edit before it is accepted. |
| `Actions.RemoveAll` | youtube_unofficial/__init__.py:327-334 | The removal loop never waits, keeps the cache, and only appends calls. |
| `Actions.RemoveAllSends` | youtube_unofficial/__init__.py:327-334 | With a truthy csn and token and non-empty headers, the removal loop equals the reference loop `SendEdits`. That loop sends each edit as it stands and stops at the first one refused, with the error its answer raises. So no removal downloads the page again. |
| `Actions.AttemptedPrefix` | youtube_unofficial/__init__.py:327-334 | The ids the loop gets to are the prefix of the ids ending at the first refused one, or all of them. |
| `Actions.SendEditsCalls` | youtube_unofficial/__init__.py:327-334 | The reference loop sends exactly the edits of the ids it gets to, in order. |
| `Actions.SendEditsReturns` | youtube_unofficial/__init__.py:327-334 | The reference loop returns exactly when no edit is refused. |
| `Actions.RemoveAllTrace` | youtube_unofficial/__init__.py:327-334 | This case needs `Primed`: a truthy csn and token and non-empty headers. The loop then issues the edits of the ids up to and including the first refused one. It returns only when none is refused. |
| `Actions.RemoveAllRefetches` | youtube_unofficial/__init__.py:88-140 | This case needs `Refetching`: csn, token or headers missing, with the Watch Later page supplying a missing csn or token. Every removal then downloads Watch Later again. The loop equals the reference loop `RefetchEdits`, which sends each edit with that page's headers, in place of falsy values the page's `EVENT_ID` and `XSRF_TOKEN`, and stops at the first refused one. |
| `Actions.RefetchEditsCalls` | youtube_unofficial/__init__.py:88-140 | The refetching reference loop makes, for each id it gets to and in order, a Watch Later download followed by that id's edit. |
| `Actions.RefetchEditsReturns` | youtube_unofficial/__init__.py:327-334 | The refetching reference loop returns exactly when no edit is refused. |
| `Actions.RemoveAllRefetchTrace` | youtube_unofficial/__init__.py:88-140 | Under `Refetching`, the loop's calls are the edits of the ids up to and including the first refused one, each preceded by a Watch Later download. It returns only when none is refused. |
| `Actions.RefetchedAt` | youtube_unofficial/__init__.py:96-99 | In the interleaved trace, position `2i` is a Watch Later download and position `2i + 1` is the `i`-th edit. |
| `Actions.RefetchedEditsMutate` | youtube_unofficial/__init__.py:96-99 | The downloads change nothing, so the account sees exactly the edits, in order. |
| `Actions.RemoveAllRefetchFails` | youtube_unofficial/__init__.py:96-131 | Suppose a removal must refetch and the Watch Later page lacks the `EVENT_ID` or `XSRF_TOKEN` that is missing. Then the loop raises after one download, and nothing is edited. |
| `Actions.ClearPlaylist` | youtube_unofficial/__init__.py:300-334 | Logged out, it raises AuthenticationError and makes no call. Otherwise it first downloads the playlist page. |
| `Actions.ClearPlaylistNeedsAllIds` | youtube_unofficial/__init__.py:318-325 | If any entry lacks a `setVideoId`, nothing is removed: every id is collected before the first edit. |
| `Actions.CollectedIds` | youtube_unofficial/__init__.py:319-321 | The collected ids are one per entry, in playlist order, after every request of the generator. |
| `Actions.GeneratorRun` | youtube_unofficial/__init__.py:242-249 | A generator run started logged out yields nothing, requests nothing and raises AuthenticationError. Otherwise its first batch is the downloaded page, with no browse request. `Pager.PlaylistAllPages` and `Pager.HistoryAllPages` state the paging after that. |
| `Actions.ClearPlaylistCollected` | youtube_unofficial/__init__.py:310-334 | A finished generator with every id present hands all the ids, in order, to the removal loop. |
| `Actions.ClearPlaylistRemovesEach` | youtube_unofficial/__init__.py:300-334 | The full trace when the page supplies csn, token and headers. The playlist page is downloaded twice, then the browse requests are made, then the entries are removed in order until one removal is refused. |
| `Actions.ClearPlaylistRefetchesEach` | youtube_unofficial/__init__.py:300-334 | The full trace when the page's headers are empty or its csn or token falsy. The collection is the same, and then each removal downloads Watch Later before its edit, in order, until one is refused. |
| `Actions.ClearPlaylistRefetchReturns` | youtube_unofficial/__init__.py:327-334 | On that path, `clear_playlist` returns exactly when no removal is refused. |
| `Actions.ClearPlaylistEmpty` | youtube_unofficial/__init__.py:300-334 | A playlist with no entries is read and nothing is removed. `clear_playlist` returns after the collection calls, none of which changes the account. |
| `Actions.CollectCallsRead` | youtube_unofficial/__init__.py:300-326 | The calls before the first removal change nothing on the account. |
| `Actions.ClearWatchLater` | youtube_unofficial/__init__.py:336-338 | Clearing Watch Later clears the playlist `WL`: its first call downloads that playlist. |
| `Actions.ClearFavorites` | youtube_unofficial/__init__.py:234-240 | Clearing favourites clears the playlist whose id the favourites lookup returns, or raises what the lookup raises. |
| `Actions.FavoriteMatch` | youtube_unofficial/__init__.py:352-357 | The filter keeps an entry exactly when its video id is the one asked for. An entry without a video id raises. |
| `Actions.RemoveEntry` | youtube_unofficial/__init__.py:361-367 | Removing the found entry never waits, keeps the cache, and only appends calls. |
| `Actions.RemoveFromFavoritesPlaylist` | youtube_unofficial/__init__.py:346-367 | It keeps the cache and only appends calls. |
| `Actions.RemoveVideoIdFromFavorites` | youtube_unofficial/__init__.py:340-367 | Its login check is the favourites lookup's. A failed lookup is raised. Otherwise the video is removed from the playlist the lookup returns. |
| `Actions.FavoritesNoMatch` | youtube_unofficial/__init__.py:352-359 | A video that is not in favourites is not removed: the call returns and changes nothing on the account. |
| `Actions.FavoritesFirstMatch` | youtube_unofficial/__init__.py:352-367 | Suppose the playlist page has a truthy `EVENT_ID` and `XSRF_TOKEN` and non-empty headers, so no Watch Later download is needed. Then the first entry with the video is removed by its `setVideoId`, with that page's csn, token and headers. That is the only change, and the call returns exactly when it is accepted. |
| `Actions.FavoritesEntryError` | youtube_unofficial/__init__.py:352-359 | An entry without a video id, even after the match, raises before anything is removed. |
| `Actions.HistoryMatch` | youtube_unofficial/__init__.py:443-444 | The filter passes over entries that are not videos. It keeps a video exactly when its id is the one asked for. |
| `Actions.HistoryFeedback` | youtube_unofficial/__init__.py:448-457 | The removal post carries the entry's own endpoint and the page's `EVENT_ID` and `XSRF_TOKEN`. It exists exactly when all three can be read. |
| `Actions.PostHistoryRemoval` | youtube_unofficial/__init__.py:448-467 | Posting a history removal never waits, keeps the cache, and only appends calls. |
| `Actions.RemoveVideoIdFromHistory` | youtube_unofficial/__init__.py:429-467 | Logged out, it raises AuthenticationError and makes no call. Otherwise it first downloads the history page. |
| `Actions.HistoryNoMatch` | youtube_unofficial/__init__.py:440-446 | A video that is not in the history gives `False`, and nothing is posted. |
| `Actions.HistoryFirstMatch` | youtube_unofficial/__init__.py:440-467 | Suppose the first history entry with the video has a removal post that can be built. Then that post is made, once. When the answer has a `code`, the result is whether it is `'SUCCESS'`. |
| `Actions.SearchHistoryToggle` | youtube_unofficial/__init__.py:489-527 | The toggle post carries the confirm endpoint's `apiUrl`, click-tracking params and feedback token. It also carries the page's API key and delegated session id, and the client body built from the page's `ytcfg`. A confirm endpoint `path` cannot reach raises the error `path` raised. |
| `Actions.PauseResumeSearchHistory` | youtube_unofficial/__init__.py:481-528 | It downloads the search-history page first. When it returns, it made exactly two calls, the download and the toggle post. The result is the answer's `feedbackResponses[0].isProcessed`. A toggle that cannot be built raises with only the page downloaded. |

## Left out

- HTTP (`DownloadMixin`, `_download_page`, `_download_page_soup`) is not modelled. Pages, browse answers and post answers are parameters of `Env`. Network failures, HTTP status codes and a JSON answer that fails to parse are not modelled.
- `find_ytcfg`, `ytcfg_headers`, `initial_data` and `initial_guide_data` are not part of this model. A page's `ytcfg`, headers, initial data and guide data are given fields of `Page`, and reading them never fails.
- Login, the cookie jar and the constructor (`__init__`, `_init_cookiejar`, `login`, `_logged_in`) are not modelled. The login state is `Env.loggedIn`.
- `_get_authorization_sapisidhash_header` is not modelled, because it hashes a cookie with SHA-1 and reads the clock. The `Authorization` header is therefore not part of `FeedbackApi`, and the failure of its `assert` when no SAPISID cookie exists is not modelled.
- The constants module is not part of this model. URLs are `Url` constructors, and `USER_AGENT` is `Env.userAgent`.
- `Actions.ClearWatchHistory`: the two `x-spf-*` headers it adds hold the history URL from the constants module. They are not added to the headers the post carries.
- `json.dumps` of a service endpoint is not modelled: the endpoint is carried as JSON. The fixed fields of the playlist-edit form are implied by `EditPlaylist`.
- Logging is not modelled.
- `extract_attributes`, `html_hidden_inputs` and `HTMLAttributeParser` (HTML parsing) are not modelled.
- Iterating a non-empty dict yields its keys in insertion order. `JObj` keeps no order, so that iteration is modelled as TypeError.
- `int()` on non-ASCII digits is not modelled. JSON floats are not modelled.
- Python's `True == 1` is not modelled: `Json` equality is structural. This affects the `==` comparisons in `Actions.FavoriteMatch`, `Actions.HistoryMatch`, `Actions.CheckStatus` and `Guide.CheckEntry`.
- Each URL returns the same page every time it is downloaded within one operation. The answer to a post depends only on the post.
- The `headers` parameter of `remove_video_id_from_favorites` is overwritten before use, so the model has no such parameter.
- `Actions.RemoveAll`, `Actions.RemoveEntry`, `Actions.RemoveFromFavoritesPlaylist` and `Actions.PostHistoryRemoval` state in their own contracts only what holds on every path. Their behaviour is stated by `Actions.RemoveAllTrace` (csn, token and headers present), `Actions.RemoveAllRefetchTrace` and `Actions.RemoveAllRefetchFails` (one of them missing), `Actions.FavoritesNoMatch`, `Actions.FavoritesFirstMatch`, `Actions.FavoritesEntryError`, `Actions.HistoryNoMatch` and `Actions.HistoryFirstMatch`.
- `Actions.ClearPlaylist` and `Actions.RemoveVideoIdFromHistory` state in their own contracts only the login check and the first download. `Actions.ClearPlaylistNeedsAllIds`, `Actions.ClearPlaylistRemovesEach`, `Actions.ClearPlaylistRefetchesEach`, `Actions.ClearPlaylistRefetchReturns`, `Actions.ClearPlaylistEmpty`, `Actions.HistoryNoMatch` and `Actions.HistoryFirstMatch` state the rest.
- `Pager.PlaylistInfo` and `Pager.HistoryInfo` state in their own contracts only the shape of the first batch. `Pager.PlaylistAllPages` and `Pager.HistoryAllPages` state the paging for answers that keep the shape the code reads. The items are the first page's, then each answer's contents, with one request per answer, and the run finishes. Runs that stop on a malformed answer are covered only by the single-step lemmas.
