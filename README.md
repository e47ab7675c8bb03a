# Music Organizer core, modelled in Dafny

This project models the logic under the Android app's UI: the
repository's retrying Last.fm reads, the search and top-albums pagination
state holders, the favourite-album derivation and save, and the album-detail
holder with its duration formatter. Each `viewModelScope.launch` is one
sequential step that runs to completion.

- `wrappers.dfy`: `Option` for Kotlin's nullable types.
- `flows.dfy`: `Throwable` (is it an `Exception` or not), `KResult` for
  `kotlin.Result`, and `Flow`. A `Flow` is a finished flow: the values it
  emitted, then normal completion or the throwable it ended with. This is
  what a `collect { … }` preceded by `.catch { … }` sees.
- `models.dfy`: the response DTOs and the two persisted entities as datatypes.
- `database.dfy`: the favourite tables as a class. Writes are insert-or-replace by
  `mbid`, and ghost logs record each write call.
- `repository.dfy`: `flow { … }.retry(2) { … }.catch { … }.mapNotNull { … }`.
  It is a function over the outcome of each API call the pipeline may make.
  The one-second back-off is recorded as a list of delays.
- `search.dfy`, `topalbums.dfy`, `albumdetail.dfy`: the three view models.
  Each is a class whose fields are the LiveData / `mutableStateOf` holders. A
  LiveData that was never set is `None`. `collect` is a loop over the emitted
  values. The repository read a view model calls is a function parameter,
  so the contracts show which artist and page were requested.
- The duration formatter is proved against `AlbumDetail.ParseDuration`, a
  reader of `MM:SS` and `H…H:MM:SS` text. The app has no such reader: it was
  written for the model, as the formatter's inverse.

Two behaviours of the code that the model keeps as written:
- **A failed repository read reaches no view model.** In the two reads in
  `Repository.kt`, an upstream failure is turned into an empty flow by
  `catch` then `mapNotNull`. That failure is three `Exception`s in a row, or
  one throwable that is not an `Exception`. So the `.catch` of
  `SearchViewModel` and `TopAlbumsViewModel` never runs for these reads and
  `isError` is not set. Nor is `isLoading` cleared: it keeps the value it had
  when the read started. That is `true` after `getSearchResults` and
  `getTopAlbums` (`Search.TotalFailureNeverSettles`) and after a guarded
  top-albums next-page fetch. A search next-page fetch whose scroll position
  is short of the threshold does not set it, so it keeps its earlier value.
- **The search next-page guard covers only the loading flag.** In
  `SearchViewModel` the unbraced `if` at SearchViewModel.kt:59-62 guards only
  `isLoading = true`. The page grows and is fetched on every call.

## Model

| member | source | states |
|---|---|---|
| `Repository.RetryFrom` | app/src/main/java/de/colognecode/musicorganizer/repository/Repository.kt:38-42 | no more than 3 calls; one 1000 ms delay per retry and none after the last failure; every retried attempt threw an `Exception`; the outcome is the last call's response or throwable; a failure ends either the third call or a non-`Exception` |
| `Repository.GetArtistsSearchResult` | app/src/main/java/de/colognecode/musicorganizer/repository/Repository.kt:26-50 | 1 to 3 requests, each `artist.search` with the caller's artist and page; one delay fewer than requests; the flow never fails and emits at most once, the last attempt's `results.artistmatches` exactly when that attempt responded after only retried `Exception`s and the payload is non-null |
| `Repository.GetTopAlbums` | app/src/main/java/de/colognecode/musicorganizer/repository/Repository.kt:52-73 | the same for `artist.gettopalbums`, emitting the responding attempt's `topAlbums` |
| `Repository.FirstSuccessWins` | app/src/main/java/de/colognecode/musicorganizer/repository/Repository.kt:38-42 | attempt k is the first to respond, so the retry yields its response after k+1 calls and k delays of 1000 ms |
| `Repository.RetrySucceedsIff` | app/src/main/java/de/colognecode/musicorganizer/repository/Repository.kt:38-42 | the retry yields a success if and only if some attempt among the first three responds after only `Exception`s |
| `Repository.NonExceptionNotRetried` | app/src/main/java/de/colognecode/musicorganizer/repository/Repository.kt:39-41 | a non-`Exception` throwable ends the pipeline at that call, with no further delay |
| `Repository.SearchFirstSuccessWins` | app/src/main/java/de/colognecode/musicorganizer/repository/Repository.kt:30-48 | a search that first succeeds on attempt k emits exactly that attempt's `artistmatches`, once, after k delays and k+1 requests |
| `Repository.TopAlbumsFirstSuccessWins` | app/src/main/java/de/colognecode/musicorganizer/repository/Repository.kt:53-71 | the same for top albums and `topAlbums` |
| `Repository.SearchTotalFailureEmitsNothing` | app/src/main/java/de/colognecode/musicorganizer/repository/Repository.kt:30-48 | a search whose first three calls throw `Exception`s makes 3 requests with two 1000 ms delays between them and gives a flow that completes normally with no value |
| `Repository.TopAlbumsTotalFailureEmitsNothing` | app/src/main/java/de/colognecode/musicorganizer/repository/Repository.kt:53-71 | the same for a top-albums read |
| `Repository.NullSearchPayloadDropped` | app/src/main/java/de/colognecode/musicorganizer/repository/Repository.kt:36-48 | when the first answer, on attempt k after k retried `Exception`s, has no `results` or no `artistmatches`, the flow emits nothing and completes normally, after k+1 requests and k delays of 1000 ms; the null answer is not retried |
| `Repository.Repository.SaveFavoriteAlbumToDatabase` | app/src/main/java/de/colognecode/musicorganizer/repository/Repository.kt:75-77 | exactly one DAO write of the identical record, which replaces the row under its `mbid`; the details table is untouched |
| `Repository.Repository.SaveFavoriteAlbumWithDetails` | app/src/main/java/de/colognecode/musicorganizer/topalbums/TopAlbumsViewModel.kt:125-128 | one insert-or-replace of the album row and one of the details row |
| `Database.FavoriteAlbumsDao.SaveFavoriteAlbum` | app/src/main/java/de/colognecode/musicorganizer/repository/database/daos/FavoriteAlbumsDao.kt:12-13 | insert-or-replace keyed by `mbid`, with the call logged |
| `Database.FavoriteAlbumsDao.SaveFavoriteAlbumDetails` | app/src/main/java/de/colognecode/musicorganizer/repository/database/entities/FavoriteAlbumDetails.kt:9-10 | insert-or-replace of a details row keyed by `mbid`, with the call logged |
| `Database.UpsertDetails` | app/src/main/java/de/colognecode/musicorganizer/repository/database/daos/FavoriteAlbumsDao.kt:12 | a series of replacing inserts leaves exactly the old keys plus the key of every inserted row |
| `Database.UpsertLastWriteWins` | app/src/main/java/de/colognecode/musicorganizer/repository/database/daos/FavoriteAlbumsDao.kt:12 | after a series of replacing inserts, a key holds the last row written under it |
| `Database.UpsertKeepsOtherKeys` | app/src/main/java/de/colognecode/musicorganizer/repository/database/daos/FavoriteAlbumsDao.kt:12 | a key that no insert wrote keeps its row |
| `Search.SearchViewModel.constructor` | app/src/main/java/de/colognecode/musicorganizer/search/SearchViewModel.kt:27-37 | nothing loaded, flags unset, page 1, scroll position 0 |
| `Search.SearchViewModel.GetSearchResults` | app/src/main/java/de/colognecode/musicorganizer/search/SearchViewModel.kt:39-55 | requests page 1 and keeps `page`; the list becomes the last received page's artists, or is unchanged if none arrived; loading stays true unless a value or a throwable arrived; an upstream throwable sets the error flag |
| `Search.SearchViewModel.GetNextPageSearchResults` | app/src/main/java/de/colognecode/musicorganizer/search/SearchViewModel.kt:57-81 | `page` grows by exactly 1 on every call, and that page is requested; the received pages are appended; the scroll threshold only decides whether loading is set before the fetch |
| `Search.SearchViewModel.CollectNextPage` | app/src/main/java/de/colognecode/musicorganizer/search/SearchViewModel.kt:71-78 | every received page clears loading and is appended in arrival order; an upstream throwable sets the error flag and clears loading; with neither, loading keeps its value |
| `Search.SearchViewModel.AppendNewArtistsSearchResults` | app/src/main/java/de/colognecode/musicorganizer/search/SearchViewModel.kt:83-92 | the list becomes the old list followed by the new one, a null on either side counting as empty |
| `Search.SearchViewModel.IncrementPage` | app/src/main/java/de/colognecode/musicorganizer/search/SearchViewModel.kt:94-96 | `page` grows by one, nothing else changes |
| `Search.SearchViewModel.OnArtistSearchResultScrollPositionChanged` | app/src/main/java/de/colognecode/musicorganizer/search/SearchViewModel.kt:98-100 | only the stored position changes |
| `Search.AppendedPagesStep` | app/src/main/java/de/colognecode/musicorganizer/search/SearchViewModel.kt:75-78 | collecting one more page appends exactly that page's artists |
| `Search.AppendedPagesKeepOrder` | app/src/main/java/de/colognecode/musicorganizer/search/SearchViewModel.kt:83-92 | after appending pages, the old rows come first and then each page's artists in arrival order; the length is the old length plus the pages' sizes |
| `Search.AppendedPagesCompose` | app/src/main/java/de/colognecode/musicorganizer/search/SearchViewModel.kt:66-78 | two next-page fetches in a row give the same list as one fetch of both pages in order |
| `Search.FirstPageShowsRepositoryMatches` | app/src/main/java/de/colognecode/musicorganizer/search/SearchViewModel.kt:42-53 | through the repository, a search that succeeds with matches shows exactly those artists and settles |
| `Search.TotalFailureNeverSettles` | app/src/main/java/de/colognecode/musicorganizer/search/SearchViewModel.kt:46-52 | through the repository, a search that fails three times leaves the list unchanged and never reaches the `.catch`: the error flag is not set and loading is not cleared |
| `TopAlbums.TopAlbumsViewModel.constructor` | app/src/main/java/de/colognecode/musicorganizer/topalbums/TopAlbumsViewModel.kt:30-45 | nothing loaded, flags unset, `page` and `totalPages` 1, scroll position 0 |
| `TopAlbums.TopAlbumsViewModel.GetTopAlbums` | app/src/main/java/de/colognecode/musicorganizer/topalbums/TopAlbumsViewModel.kt:47-64 | requests page 1; the last received value's albums replace the list and its `totalPages` (1 when missing) replaces the total; a throwable sets the error flag and clears loading, keeping the list and the total |
| `TopAlbums.TopAlbumsViewModel.GetNextPageOfTopAlbums` | app/src/main/java/de/colognecode/musicorganizer/topalbums/TopAlbumsViewModel.kt:66-91 | nothing changes unless `page <= totalPages` and `scroll + 1 >= page * 50`; then `page` grows by one, that page is requested and its albums appended; a changed page is above 1 and at most `totalPages + 1`; `totalPages` never changes |
| `TopAlbums.TopAlbumsViewModel.CollectNextPage` | app/src/main/java/de/colognecode/musicorganizer/topalbums/TopAlbumsViewModel.kt:80-87 | every received value clears loading and its albums are appended in arrival order; an upstream throwable sets the error flag and clears loading |
| `TopAlbums.TopAlbumsViewModel.AppendNewTopAlbums` | app/src/main/java/de/colognecode/musicorganizer/topalbums/TopAlbumsViewModel.kt:93-102 | old albums followed by new ones, a null on either side counting as empty |
| `TopAlbums.TopAlbumsViewModel.IncrementPage` | app/src/main/java/de/colognecode/musicorganizer/topalbums/TopAlbumsViewModel.kt:104-106 | `page` grows by one, nothing else changes |
| `TopAlbums.TopAlbumsViewModel.OnTopAlbumScrollPositionChanged` | app/src/main/java/de/colognecode/musicorganizer/topalbums/TopAlbumsViewModel.kt:108-110 | only the stored position changes |
| `TopAlbums.TopAlbumsViewModel.SaveAlbumAsFavorite` | app/src/main/java/de/colognecode/musicorganizer/topalbums/TopAlbumsViewModel.kt:112-133 | asks for details under the album's artist and album name; each success value, and no failure value, saves the album and its derived details row and sets `isFavorite`; an upstream throwable is uncaught |
| `TopAlbums.TopAlbumsViewModel.CollectDetails` | app/src/main/java/de/colognecode/musicorganizer/topalbums/TopAlbumsViewModel.kt:117-131 | the favourite flag and the DAO end as one `onSuccess` per success value, in order; failure values change nothing |
| `TopAlbums.TopAlbumsViewModel.OnDetailsSuccess` | app/src/main/java/de/colognecode/musicorganizer/topalbums/TopAlbumsViewModel.kt:118-130 | one save of the album with the details derived from the success, then `isFavorite` is true |
| `TopAlbums.AfterSuccessesClosedForm` | app/src/main/java/de/colognecode/musicorganizer/topalbums/TopAlbumsViewModel.kt:112-133 | after n successes the album was written n times and is in its table if n > 0; one details row per success, in order, the table holding the last row per `mbid`; the flag is set if n > 0; with no success nothing changes |
| `TopAlbums.AppendedAlbumsStep` | app/src/main/java/de/colognecode/musicorganizer/topalbums/TopAlbumsViewModel.kt:84-87 | collecting one more value appends exactly its albums after the current ones |
| `TopAlbums.FirstPageShowsRepositoryAlbums` | app/src/main/java/de/colognecode/musicorganizer/topalbums/TopAlbumsViewModel.kt:58-62 | through the repository, a successful first page shows the response's albums and total page count, 1 when it has none |
| `TopAlbums.FindLargeImage` | app/src/main/java/de/colognecode/musicorganizer/topalbums/TopAlbumsViewModel.kt:141-143 | the index of the first image of size "large", or none if no image has that size |
| `TopAlbums.SumTrackDurations` | app/src/main/java/de/colognecode/musicorganizer/topalbums/TopAlbumsViewModel.kt:119-122 | the sum of the track durations, 0 without a track list |
| `TopAlbums.TotalDurationAppend` | app/src/main/java/de/colognecode/musicorganizer/topalbums/TopAlbumsViewModel.kt:119-122 | the duration of two track lists in sequence is the sum of their durations |
| `TopAlbums.TotalDurationNonNegative` | app/src/main/java/de/colognecode/musicorganizer/topalbums/TopAlbumsViewModel.kt:119-122 | tracks with non-negative durations sum to a non-negative total |
| `TopAlbums.TotalDurationBounds` | app/src/main/java/de/colognecode/musicorganizer/topalbums/TopAlbumsViewModel.kt:119-122 | with non-negative durations, the total is at least each track's duration |
| `TopAlbums.FavoriteDetailsDerivation` | app/src/main/java/de/colognecode/musicorganizer/topalbums/TopAlbumsViewModel.kt:135-151 | total duration is the sum of track durations (0 without tracks); the track count and list come from `tracks` (null without); the image URL is the text of the first "large" image, `""` if there is none or its text is null; `mbid` defaults to `""`; name and artist are passed through |
| `AlbumDetail.Rem` | app/src/main/java/de/colognecode/musicorganizer/albumdetail/AlbumDetailsViewModel.kt:54-56 | Kotlin's truncating remainder: quotient times divisor plus remainder is the dividend, and the remainder has the dividend's sign |
| `AlbumDetail.Decompose` | app/src/main/java/de/colognecode/musicorganizer/albumdetail/AlbumDetailsViewModel.kt:53-56 | `hours*3600 + minutes*60 + seconds` is the input; for an input of at least 0, `hours = d / 3600` (0 below 3600, at least 1 from there on) and minutes and seconds are in `[0, 60)`; for a negative input every field is at most 0 |
| `AlbumDetail.Pad2Denotes` | app/src/main/java/de/colognecode/musicorganizer/albumdetail/AlbumDetailsViewModel.kt:57-61 | `%02d` of a value of at least 0 is at least two digits that denote it, exactly two below 100 |
| `AlbumDetail.ParseMinutesSeconds` | app/src/main/java/de/colognecode/musicorganizer/albumdetail/AlbumDetailsViewModel.kt:60 | `MM:SS` text of two-digit fields is read back as minutes times 60 plus seconds |
| `AlbumDetail.ParseHoursMinutesSeconds` | app/src/main/java/de/colognecode/musicorganizer/albumdetail/AlbumDetailsViewModel.kt:58 | `H…H:MM:SS` text is read back as hours times 3600 plus minutes times 60 plus seconds |
| `AlbumDetail.FormatDurationRoundTrip` | app/src/main/java/de/colognecode/musicorganizer/albumdetail/AlbumDetailsViewModel.kt:51-63 | every non-negative duration is read back from its text; under an hour the text is `MM:SS` (5 characters), otherwise `HH:MM:SS` with at least 8 characters |
| `AlbumDetail.FormatDurationExamples` | app/src/test/java/de/colognecode/musicorganizer/albumdetail/AlbumDetailsViewModelTest.kt:114-140 | 150 gives `"02:30"` and 5400 gives `"01:30:00"` |
| `Flows.Successes` | app/src/main/java/de/colognecode/musicorganizer/albumdetail/AlbumDetailsViewModel.kt:43 | `onSuccess` sees no more values than were emitted, and sees none exactly when every emitted value is a failure (also TopAlbumsViewModel.kt:118) |
| `Flows.LastSuccessValue` | app/src/main/java/de/colognecode/musicorganizer/albumdetail/AlbumDetailsViewModel.kt:42-47 | the last value `onSuccess` sees is the payload of the last `Success` in the flow |
| `AlbumDetail.LastSuccess` | app/src/main/java/de/colognecode/musicorganizer/albumdetail/AlbumDetailsViewModel.kt:42-47 | if every value is a failure the album stays as it was; otherwise it is the payload of the success at index j, where no later value is a success |
| `AlbumDetail.AlbumDetailsViewModel.constructor` | app/src/main/java/de/colognecode/musicorganizer/albumdetail/AlbumDetailsViewModel.kt:22-29 | album, error flag and loading flag all start unset |
| `AlbumDetail.AlbumDetailsViewModel.GetAlbumDetails` | app/src/main/java/de/colognecode/musicorganizer/albumdetail/AlbumDetailsViewModel.kt:31-49 | loading is set first; a success stores the album and clears loading; an upstream throwable sets the error flag and clears loading; a failure value changes nothing |
| `AlbumDetail.AlbumDetailsViewModel.CollectAlbumDetails` | app/src/main/java/de/colognecode/musicorganizer/albumdetail/AlbumDetailsViewModel.kt:38-47 | the album kept is the last success value; loading is cleared once a success or a throwable arrived; a throwable sets the error flag |

## Left out

- Coroutine machinery is not modelled: dispatchers (`flowOn`), wall-clock time, cancellation, and races between overlapping launches. Each launch runs to completion as one step.
- The view models' `delay(1000)` before a next-page fetch is timing only and is not modelled. The repository's back-off delays are counted.
- The API is given as the outcome of each call. Retrofit, OkHttp and Gson are not modelled. Nor are the `apiKey = API_KEY` and `format = FORMAT` default arguments of the endpoints in `LastFMApiService.kt`.
- DTO nullability follows the Kotlin declarations. Gson can leave a non-null field such as `topAlbums` null at run time; the model does not. The one exception is `TopAlbumAttr.totalPages`, declared `String` in `TopAlbumsResponse.kt`: the model holds it as `Option<int>`, and its `None` stands for a field that Gson left null or that the JSON lacks. That is the case in which the `?: START_PAGE_INDEX` fallback at TopAlbumsViewModel.kt:58-62 gives 1.
- `totalPages` is held already parsed (`Option<int>`). The `NumberFormatException` that `String.toInt()` throws inside `collect` on a non-numeric total is not modelled.
- Kotlin's 32-bit `Int` and 64-bit `Long` are modelled as unbounded integers. This affects the page counters, `page * PAGE_SIZE`, the summed track durations and the formatter's input. `toDuration(SECONDS).inWholeSeconds` is the identity.
- `Log.d` calls have no effect on state and are dropped.
- `Repository.getAlbumDetails` is not in `Repository.kt`, so the view models take the details flow as a parameter. The two-argument `saveFavoriteAlbumToDatabase` is also missing; it is modelled as one insert-or-replace into each table.
- DAO writes always succeed. A write failure would propagate uncaught, and that path is not modelled.
- `getAllFavoriteAlbums`, the Room database and `DataConverter.kt` (Gson round-trip of track lists) are not part of this model.
- The fragments and Compose UI are not part of this model. That includes the scroll triggers in `TopAlbumsFragment.kt` and `SearchFragment.kt`, which only call the view-model methods modelled here.
- `AlbumDetail.Pad2` and `AlbumDetail.FormatDuration` always print the ASCII digits `0`-`9`. `String.format` uses the default locale, and a locale with other digits (Arabic-Indic or Persian, for example) prints other characters.
