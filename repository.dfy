/**
 * The repository's two read pipelines and its favourite-album writes.
 *
 * A read is `flow { emit(success(payload(call()))) }.retry(2) { … }
 * .catch { emit(failure(it)) }.mapNotNull { it.getOrNull() }`. The network is
 * given as the outcome of each call the pipeline may make; the one-second
 * back-off is recorded as a list of delays rather than waited out.
 */
module Repository {
  import opened Wrappers
  import opened Flows
  import opened Models
  import opened Database

  const DelayOneSecond: nat := 1000
  const SearchMethod: string := "artist.search"
  const TopAlbumsMethod: string := "artist.gettopalbums"
  /** The argument of `retry(2)`. */
  const Retries: nat := 2
  /** The first call plus one per retry. */
  const MaxAttempts: nat := Retries + 1

  /** What one API call does: return a response or throw. */
  datatype Attempt<+R> = Responded(response: R) | Threw(cause: Throwable)

  /** The query an API call sends. */
  datatype Request = Request(apiMethod: string, artist: string, page: int)

  /** What `retry` left: the outcome it passed on, how many calls were made,
      and the delays taken before retrying (in milliseconds). */
  datatype Retried<+R> = Retried(result: KResult<R>, calls: nat, delays: seq<nat>)

  /** What one read did: the requests sent, the delays taken, and the flow
      its collector sees. */
  datatype Fetch<+T> = Fetch(requests: seq<Request>, delays: seq<nat>, flow: Flow<T>)

  /** Attempt `n` succeeds after `n` earlier attempts that each threw an
      `Exception` (and so were retried). */
  ghost predicate SucceedsAt<R>(attempts: seq<Attempt<R>>, n: nat)
  {
    && n < MaxAttempts && n < |attempts|
    && attempts[n].Responded?
    && forall j :: 0 <= j < n ==> attempts[j].Threw? && attempts[j].cause.isException
  }

  /** `retry(2) { t -> (t is Exception).also { if (it) delay(1000) } }` from
      attempt `n` on. kotlinx's `retry` asks its predicate only while fewer
      than 2 retries were made, so the last failure takes no delay. */
  function RetryFrom<R>(attempts: seq<Attempt<R>>, n: nat): (r: Retried<R>)
    requires |attempts| >= MaxAttempts && n <= Retries
    decreases Retries - n
    ensures n < r.calls <= MaxAttempts
    ensures |r.delays| == r.calls - 1 - n
    ensures forall i :: 0 <= i < |r.delays| ==> r.delays[i] == DelayOneSecond
    ensures forall j :: n <= j < r.calls - 1 ==> attempts[j].Threw? && attempts[j].cause.isException
    ensures r.result.Success? <==> attempts[r.calls - 1].Responded?
    ensures r.result.Success? ==> r.result.value == attempts[r.calls - 1].response
    ensures r.result.Failure? ==> attempts[r.calls - 1] == Threw(r.result.cause)
    ensures r.result.Failure? ==> r.calls == MaxAttempts || !r.result.cause.isException
  {
    match attempts[n]
    case Responded(response) => Retried(Success(response), n + 1, [])
    case Threw(cause) =>
      if n < Retries && cause.isException then
        var rest := RetryFrom(attempts, n + 1);
        Retried(rest.result, rest.calls, [DelayOneSecond] + rest.delays)
      else
        Retried(Failure(cause), n + 1, [])
  }

  function Retry<R>(attempts: seq<Attempt<R>>): Retried<R>
    requires |attempts| >= MaxAttempts
  {
    RetryFrom(attempts, 0)
  }

  /** `.catch { emit(failure(it)) }.mapNotNull { it.getOrNull() }` after a
      flow that emitted `success(payload)` or failed: nothing escapes, and a
      failure or a null payload emits nothing. */
  function CatchAndDropNulls<T>(result: KResult<Option<T>>): (f: Flow<T>)
    ensures f.failure == None
    ensures f.emitted == (if result.Success? && result.value.Some? then [result.value.value] else [])
  {
    match result.GetOrNull()
    case Some(Some(payload)) => Flow([payload], None)
    case _ => Flow([], None)
  }

  /** `results?.artistmatches` */
  function SearchPayload(response: ArtistSearchResponse): Option<Artistmatches> {
    match response.results
    case Some(results) => results.artistmatches
    case None => None
  }

  /** The payload of a successful top-albums call, typed as the flow's
      nullable `TopAlbums?`. */
  function TopAlbumsPayload(response: TopAlbumsResponse): Option<Option<TopAlbums>> {
    Some(Some(response.topAlbums))
  }

  function MapResult<R, T>(result: KResult<R>, f: R -> T): KResult<T> {
    match result
    case Success(v) => Success(f(v))
    case Failure(t) => Failure(t)
  }

  /** `getArtistsSearchResult(artist, page)` */
  function GetArtistsSearchResult(artist: string, page: int, attempts: seq<Attempt<ArtistSearchResponse>>)
    : (fetch: Fetch<Artistmatches>)
    requires |attempts| >= MaxAttempts
    ensures 1 <= |fetch.requests| <= MaxAttempts
    ensures forall i :: 0 <= i < |fetch.requests| ==> fetch.requests[i] == Request(SearchMethod, artist, page)
    ensures |fetch.delays| == |fetch.requests| - 1
    ensures fetch.flow.failure == None
    ensures |fetch.flow.emitted| <= 1
    ensures fetch.flow.emitted != [] <==>
              SucceedsAt(attempts, |fetch.requests| - 1)
              && SearchPayload(attempts[|fetch.requests| - 1].response).Some?
    ensures fetch.flow.emitted != [] ==>
              fetch.flow.emitted[0] == SearchPayload(attempts[|fetch.requests| - 1].response).value
  {
    var r := Retry(attempts);
    Fetch(seq(r.calls, _ => Request(SearchMethod, artist, page)),
          r.delays,
          CatchAndDropNulls(MapResult(r.result, SearchPayload)))
  }

  /** `getTopAlbums(artist, page)` */
  function GetTopAlbums(artist: string, page: int, attempts: seq<Attempt<TopAlbumsResponse>>)
    : (fetch: Fetch<Option<TopAlbums>>)
    requires |attempts| >= MaxAttempts
    ensures 1 <= |fetch.requests| <= MaxAttempts
    ensures forall i :: 0 <= i < |fetch.requests| ==> fetch.requests[i] == Request(TopAlbumsMethod, artist, page)
    ensures |fetch.delays| == |fetch.requests| - 1
    ensures fetch.flow.failure == None
    ensures |fetch.flow.emitted| <= 1
    ensures fetch.flow.emitted != [] <==> SucceedsAt(attempts, |fetch.requests| - 1)
    ensures fetch.flow.emitted != [] ==>
              fetch.flow.emitted[0] == Some(attempts[|fetch.requests| - 1].response.topAlbums)
  {
    var r := Retry(attempts);
    Fetch(seq(r.calls, _ => Request(TopAlbumsMethod, artist, page)),
          r.delays,
          CatchAndDropNulls(MapResult(r.result, TopAlbumsPayload)))
  }

  // --- retry properties ----------------------------------------------------

  /** The first attempt that responds wins, after one delay per earlier
      attempt. */
  lemma {:induction false} FirstSuccessWins<R>(attempts: seq<Attempt<R>>, k: nat)
    requires |attempts| >= MaxAttempts
    requires SucceedsAt(attempts, k)
    ensures Retry(attempts) == Retried(Success(attempts[k].response), k + 1, seq(k, _ => DelayOneSecond))
  {
    FirstSuccessWinsFrom(attempts, 0, k);
  }

  lemma {:induction false} FirstSuccessWinsFrom<R>(attempts: seq<Attempt<R>>, n: nat, k: nat)
    requires |attempts| >= MaxAttempts
    requires SucceedsAt(attempts, k) && n <= k
    decreases k - n
    ensures RetryFrom(attempts, n) == Retried(Success(attempts[k].response), k + 1, seq(k - n, _ => DelayOneSecond))
  {
    if n < k {
      FirstSuccessWinsFrom(attempts, n + 1, k);
      assert [DelayOneSecond] + seq(k - n - 1, _ => DelayOneSecond) == seq(k - n, _ => DelayOneSecond);
    }
  }

  /** Retry passes on a success exactly when some attempt succeeds in the
      sense of `SucceedsAt`. */
  lemma RetrySucceedsIff<R>(attempts: seq<Attempt<R>>)
    requires |attempts| >= MaxAttempts
    ensures Retry(attempts).result.Success? <==> exists k :: SucceedsAt(attempts, k)
  {
    var r := Retry(attempts);
    if r.result.Success? {
      assert SucceedsAt(attempts, r.calls - 1);
    } else if k :| SucceedsAt(attempts, k) {
      FirstSuccessWins(attempts, k);
    }
  }

  /** A throwable that is not an `Exception` is not retried: the pipeline
      stops at that call with no delay. */
  lemma NonExceptionNotRetried<R>(attempts: seq<Attempt<R>>, k: nat)
    requires |attempts| >= MaxAttempts && k < MaxAttempts
    requires forall j :: 0 <= j < k ==> attempts[j].Threw? && attempts[j].cause.isException
    requires attempts[k].Threw? && !attempts[k].cause.isException
    ensures Retry(attempts) == Retried(Failure(attempts[k].cause), k + 1, seq(k, _ => DelayOneSecond))
  {
    var r := Retry(attempts);
    assert r.calls == k + 1;
    assert r.delays == seq(k, _ => DelayOneSecond);
  }

  // --- read-operation properties --------------------------------------------

  /** A search succeeding on attempt k emits exactly that attempt's
      `results.artistmatches`, once, after k delays of one second. */
  lemma SearchFirstSuccessWins(artist: string, page: int, attempts: seq<Attempt<ArtistSearchResponse>>, k: nat)
    requires |attempts| >= MaxAttempts
    requires SucceedsAt(attempts, k)
    requires SearchPayload(attempts[k].response).Some?
    ensures GetArtistsSearchResult(artist, page, attempts).flow
              == Flow([SearchPayload(attempts[k].response).value], None)
    ensures GetArtistsSearchResult(artist, page, attempts).delays == seq(k, _ => DelayOneSecond)
    ensures |GetArtistsSearchResult(artist, page, attempts).requests| == k + 1
  {
    FirstSuccessWins(attempts, k);
  }

  /** A top-albums read succeeding on attempt k emits exactly that attempt's
      `topAlbums`, once, after k delays of one second. */
  lemma TopAlbumsFirstSuccessWins(artist: string, page: int, attempts: seq<Attempt<TopAlbumsResponse>>, k: nat)
    requires |attempts| >= MaxAttempts
    requires SucceedsAt(attempts, k)
    ensures GetTopAlbums(artist, page, attempts).flow == Flow([Some(attempts[k].response.topAlbums)], None)
    ensures GetTopAlbums(artist, page, attempts).delays == seq(k, _ => DelayOneSecond)
    ensures |GetTopAlbums(artist, page, attempts).requests| == k + 1
  {
    FirstSuccessWins(attempts, k);
  }

  /** A search failing with three `Exception`s in a row: three calls, two
      delays, and a flow that completes normally without emitting anything. */
  lemma SearchTotalFailureEmitsNothing(artist: string, page: int, attempts: seq<Attempt<ArtistSearchResponse>>)
    requires |attempts| >= MaxAttempts
    requires forall j :: 0 <= j < MaxAttempts ==> attempts[j].Threw? && attempts[j].cause.isException
    ensures GetArtistsSearchResult(artist, page, attempts).flow == Flow([], None)
    ensures |GetArtistsSearchResult(artist, page, attempts).requests| == MaxAttempts
    ensures GetArtistsSearchResult(artist, page, attempts).delays == [DelayOneSecond, DelayOneSecond]
  {
  }

  /** The same for a top-albums read. */
  lemma TopAlbumsTotalFailureEmitsNothing(artist: string, page: int, attempts: seq<Attempt<TopAlbumsResponse>>)
    requires |attempts| >= MaxAttempts
    requires forall j :: 0 <= j < MaxAttempts ==> attempts[j].Threw? && attempts[j].cause.isException
    ensures GetTopAlbums(artist, page, attempts).flow == Flow([], None)
    ensures |GetTopAlbums(artist, page, attempts).requests| == MaxAttempts
    ensures GetTopAlbums(artist, page, attempts).delays == [DelayOneSecond, DelayOneSecond]
  {
  }

  /** A search whose first answer, on attempt k after k retried
      `Exception`s, has no `results` or no `artistmatches` emits nothing:
      the null payload is not retried, and `mapNotNull` drops it. */
  lemma NullSearchPayloadDropped(artist: string, page: int, attempts: seq<Attempt<ArtistSearchResponse>>, k: nat)
    requires |attempts| >= MaxAttempts
    requires SucceedsAt(attempts, k) && SearchPayload(attempts[k].response).None?
    ensures GetArtistsSearchResult(artist, page, attempts).flow == Flow([], None)
    ensures |GetArtistsSearchResult(artist, page, attempts).requests| == k + 1
    ensures GetArtistsSearchResult(artist, page, attempts).delays == seq(k, _ => DelayOneSecond)
  {
    FirstSuccessWins(attempts, k);
  }

  // --- writes ----------------------------------------------------------------

  class Repository {
    const dao: FavoriteAlbumsDao

    constructor (dao: FavoriteAlbumsDao)
      ensures this.dao == dao
    {
      this.dao := dao;
    }

    /** `saveFavoriteAlbumToDatabase(favoriteAlbum)`: one DAO write of the
        same record, no retry. */
    method SaveFavoriteAlbumToDatabase(favoriteAlbum: FavoriteAlbum)
      modifies dao
      ensures dao.albumSaves == old(dao.albumSaves) + [favoriteAlbum]
      ensures dao.albums == old(dao.albums)[favoriteAlbum.mbid := favoriteAlbum]
      ensures dao.albumDetails == old(dao.albumDetails) && dao.detailSaves == old(dao.detailSaves)
    {
      dao.SaveFavoriteAlbum(favoriteAlbum);
    }

    /** The two-record save the top-albums screen calls: both rows written
        by insert-or-replace. */
    method SaveFavoriteAlbumWithDetails(favoriteAlbum: FavoriteAlbum, favoriteAlbumDetails: FavoriteAlbumDetails)
      modifies dao
      ensures dao.albumSaves == old(dao.albumSaves) + [favoriteAlbum]
      ensures dao.albums == old(dao.albums)[favoriteAlbum.mbid := favoriteAlbum]
      ensures dao.detailSaves == old(dao.detailSaves) + [favoriteAlbumDetails]
      ensures dao.albumDetails == old(dao.albumDetails)[favoriteAlbumDetails.mbid := favoriteAlbumDetails]
    {
      dao.SaveFavoriteAlbum(favoriteAlbum);
      dao.SaveFavoriteAlbumDetails(favoriteAlbumDetails);
    }
  }
}
