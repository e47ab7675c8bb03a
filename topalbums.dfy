/**
 * The top-albums screen's state holder: first page, guarded next pages,
 * appending, and saving an album as a favourite with its derived details.
 */
module TopAlbums {
  import opened Wrappers
  import opened Flows
  import opened Models
  import opened Database
  import opened Repository

  const StartPageIndex: int := 1
  const TopAlbumPageSize: int := 50

  /** `it?.album` */
  function AlbumsOf(item: Option<TopAlbums>): Option<seq<AlbumItem>> {
    match item
    case Some(t) => Some(t.album)
    case None => None
  }

  /** `it?.topAlbumAttr?.totalPages?.toInt() ?: START_PAGE_INDEX` */
  function TotalPagesOf(item: Option<TopAlbums>): int {
    match item
    case Some(t) => t.topAlbumAttr.totalPages.GetOr(StartPageIndex)
    case None => StartPageIndex
  }

  /** All albums of the given values, value after value. */
  function ConcatAlbums(items: seq<Option<TopAlbums>>): seq<AlbumItem> {
    if items == [] then [] else ConcatAlbums(items[..|items| - 1]) + OrEmpty(AlbumsOf(items[|items| - 1]))
  }

  /** The list after a next-page fetch collected `items`. */
  function AppendedAlbums(current: Option<seq<AlbumItem>>, items: seq<Option<TopAlbums>>): Option<seq<AlbumItem>> {
    if items == [] then current else Some(OrEmpty(current) + ConcatAlbums(items))
  }

  /** Both halves of the next-page guard. */
  predicate ShouldLoadNextPage(page: int, totalPages: int, scrollPosition: int) {
    page <= totalPages && scrollPosition + 1 >= page * TopAlbumPageSize
  }

  /** Collecting one more value appends exactly its albums, old ones first. */
  lemma {:induction false} AppendedAlbumsStep(current: Option<seq<AlbumItem>>, items: seq<Option<TopAlbums>>, next: Option<TopAlbums>)
    ensures AppendedAlbums(current, items + [next]) == Some(OrEmpty(AppendedAlbums(current, items)) + OrEmpty(AlbumsOf(next)))
  {
    assert (items + [next])[..|items|] == items;
    if items == [] {
      assert items + [next] == [next];
      assert ConcatAlbums([next]) == OrEmpty(AlbumsOf(next)) by {
        assert [next][..0] == [];
      }
    } else {
      var base, c := OrEmpty(current), ConcatAlbums(items);
      assert ConcatAlbums(items + [next]) == c + OrEmpty(AlbumsOf(next));
      assert OrEmpty(AppendedAlbums(current, items)) == base + c;
      assert base + (c + OrEmpty(AlbumsOf(next))) == (base + c) + OrEmpty(AlbumsOf(next));
    }
  }

  /** The prefix form of `AppendedAlbumsStep`, as a collecting loop uses it. */
  lemma AppendedAlbumsPrefixStep(current: Option<seq<AlbumItem>>, items: seq<Option<TopAlbums>>, i: nat)
    requires i < |items|
    ensures AppendedAlbums(current, items[..i + 1]) == Some(OrEmpty(AppendedAlbums(current, items[..i])) + OrEmpty(AlbumsOf(items[i])))
  {
    assert items[..i + 1] == items[..i] + [items[i]];
    AppendedAlbumsStep(current, items[..i], items[i]);
  }

  // --- favourite details -----------------------------------------------------

  /** `image.find { it.size == "large" }`, as the index found. */
  function FindLargeImage(images: seq<ImageItem>): (k: Option<nat>)
    ensures k.Some? ==> k.value < |images| && images[k.value].size == Some("large")
    ensures k.Some? ==> forall j :: 0 <= j < k.value ==> images[j].size != Some("large")
    ensures k.None? ==> forall j :: 0 <= j < |images| ==> images[j].size != Some("large")
  {
    if images == [] then None
    else if images[0].size == Some("large") then Some(0)
    else
      match FindLargeImage(images[1..])
      case Some(j) => Some(j + 1)
      case None => None
  }

  /** `image.find { it.size == "large" }?.text ?: ""` */
  function LargeImageUrl(images: seq<ImageItem>): string {
    match FindLargeImage(images)
    case Some(k) => images[k].text.GetOr("")
    case None => ""
  }

  /** `tracks?.track`, read as empty when absent. */
  function TrackList(album: DetailedAlbum): seq<TrackItem> {
    match album.tracks
    case Some(t) => t.track
    case None => []
  }

  /** The sum of the tracks' durations. */
  function TotalDuration(tracks: seq<TrackItem>): int {
    if tracks == [] then 0 else TotalDuration(tracks[..|tracks| - 1]) + tracks[|tracks| - 1].duration
  }

  /** The duration of one list of tracks followed by another is the sum of
      the two. */
  lemma {:induction false} TotalDurationAppend(a: seq<TrackItem>, b: seq<TrackItem>)
    ensures TotalDuration(a + b) == TotalDuration(a) + TotalDuration(b)
  {
    if b == [] {
      assert a + b == a;
    } else {
      assert (a + b)[..|a + b| - 1] == a + b[..|b| - 1];
      TotalDurationAppend(a, b[..|b| - 1]);
    }
  }

  /** Tracks of non-negative length give a non-negative total, at least as
      long as any single track. */
  lemma {:induction false} TotalDurationBounds(tracks: seq<TrackItem>, i: nat)
    requires forall j :: 0 <= j < |tracks| ==> tracks[j].duration >= 0
    requires i < |tracks|
    ensures TotalDuration(tracks) >= tracks[i].duration >= 0
  {
    TotalDurationNonNegative(tracks[..i]);
    TotalDurationNonNegative(tracks[i + 1..]);
    assert tracks == tracks[..i] + ([tracks[i]] + tracks[i + 1..]);
    TotalDurationAppend(tracks[..i], [tracks[i]] + tracks[i + 1..]);
    TotalDurationAppend([tracks[i]], tracks[i + 1..]);
    assert TotalDuration([tracks[i]]) == tracks[i].duration by {
      assert [tracks[i]][..0] == [];
    }
  }

  lemma {:induction false} TotalDurationNonNegative(tracks: seq<TrackItem>)
    requires forall j :: 0 <= j < |tracks| ==> tracks[j].duration >= 0
    ensures TotalDuration(tracks) >= 0
  {
    if tracks != [] {
      TotalDurationNonNegative(tracks[..|tracks| - 1]);
    }
  }

  /** The `forEach` loop of `saveAlbumAsFavorite` that adds up the track
      durations (0 when the album has no track list). */
  method SumTrackDurations(albumDetails: DetailedAlbum) returns (totalDuration: int)
    ensures totalDuration == TotalDuration(TrackList(albumDetails))
  {
    totalDuration := 0;
    if albumDetails.tracks.Some? {
      var track := albumDetails.tracks.value.track;
      for i := 0 to |track|
        invariant totalDuration == TotalDuration(track[..i])
      {
        assert track[..i + 1][..i] == track[..i];
        totalDuration := totalDuration + track[i].duration;
      }
      assert track[..|track|] == track;
    }
  }

  /** `createFavoriteAlbumDetails(albumDetails, totalDuration)` */
  function CreateFavoriteAlbumDetails(albumDetails: DetailedAlbum, totalDuration: int): FavoriteAlbumDetails {
    FavoriteAlbumDetails(
      mbid := albumDetails.mbid.GetOr(""),
      albumImageUrl := Some(LargeImageUrl(albumDetails.image)),
      albumName := albumDetails.name,
      artistName := albumDetails.artist,
      totalTracks := match albumDetails.tracks { case Some(t) => Some(|t.track|) case None => None },
      totalDuration := Some(totalDuration),
      tracks := match albumDetails.tracks { case Some(t) => Some(t.track) case None => None })
  }

  /** The details row saved for an album, with the duration its tracks
      add up to. */
  function FavoriteDetailsFor(albumDetails: DetailedAlbum): FavoriteAlbumDetails {
    CreateFavoriteAlbumDetails(albumDetails, TotalDuration(TrackList(albumDetails)))
  }

  /** The details row saved for an album: the summed duration of its tracks,
      their number, the text of its first "large" image (or "" when there is
      none or it has no text) and its mbid (or ""). */
  lemma FavoriteDetailsDerivation(albumDetails: DetailedAlbum)
    ensures var d := FavoriteDetailsFor(albumDetails);
      && d.totalDuration == Some(TotalDuration(TrackList(albumDetails)))
      && (albumDetails.tracks.Some? ==>
            d.totalTracks == Some(|TrackList(albumDetails)|) && d.tracks == Some(TrackList(albumDetails)))
      && (albumDetails.tracks.None? ==> d.totalTracks == None && d.tracks == None && d.totalDuration == Some(0))
      && d.mbid == (if albumDetails.mbid.Some? then albumDetails.mbid.value else "")
      && d.albumName == albumDetails.name && d.artistName == albumDetails.artist
      && ((forall j :: 0 <= j < |albumDetails.image| ==> albumDetails.image[j].size != Some("large"))
          ==> d.albumImageUrl == Some(""))
      && (forall k :: 0 <= k < |albumDetails.image| && albumDetails.image[k].size == Some("large")
                     && (forall j :: 0 <= j < k ==> albumDetails.image[j].size != Some("large"))
                     ==> d.albumImageUrl == Some(albumDetails.image[k].text.GetOr("")))
  {
    var found := FindLargeImage(albumDetails.image);
  }

  /** The details rows saved for the successes among `results`, in order. */
  function FavoriteDetailsRows(albums: seq<DetailedAlbum>): (rows: seq<FavoriteAlbumDetails>)
    ensures |rows| == |albums|
  {
    if albums == [] then []
    else FavoriteDetailsRows(albums[..|albums| - 1]) + [FavoriteDetailsFor(albums[|albums| - 1])]
  }

  /** Through the repository's top-albums read: when attempt k is the first
      to respond, the first page shows that response's albums and the page
      total it reports (1 when it reports none). */
  lemma {:induction false} FirstPageShowsRepositoryAlbums(artist: string,
                                                         attempts: seq<Attempt<TopAlbumsResponse>>, k: nat)
    requires |attempts| >= MaxAttempts
    requires SucceedsAt(attempts, k)
    ensures var f := GetTopAlbums(artist, StartPageIndex, attempts).flow;
            var t := attempts[k].response.topAlbums;
            && Settles(f)
            && AlbumsOf(f.emitted[|f.emitted| - 1]) == Some(t.album)
            && TotalPagesOf(f.emitted[|f.emitted| - 1])
               == (if t.topAlbumAttr.totalPages.Some? then t.topAlbumAttr.totalPages.value else 1)
  {
    TopAlbumsFirstSuccessWins(artist, StartPageIndex, attempts, k);
  }

  class TopAlbumsViewModel {
    const repository: Repository
    var topAlbums: Option<seq<AlbumItem>>
    var isError: Option<bool>
    var isLoading: Option<bool>
    var isFavorite: Option<bool>
    var totalPages: int
    var page: int
    var topAlbumsScrollPosition: int

    /** The page counter starts at the first page and only grows. */
    ghost predicate Valid()
      reads this
    {
      page >= StartPageIndex
    }

    constructor (repository: Repository)
      ensures Valid() && this.repository == repository
      ensures topAlbums == None && isError == None && isLoading == None && isFavorite == None
      ensures totalPages == StartPageIndex && page == StartPageIndex && topAlbumsScrollPosition == 0
    {
      this.repository := repository;
      topAlbums, isError, isLoading, isFavorite := None, None, None, None;
      totalPages, page, topAlbumsScrollPosition := StartPageIndex, StartPageIndex, 0;
    }

    /** `getTopAlbums(artist)`: asks for the first page; each value replaces
        the list and the page total. `fetch` is the repository's read. */
    method GetTopAlbums(artist: string, fetch: (string, int) -> Flow<Option<TopAlbums>>)
      requires Valid()
      modifies this
      ensures Valid()
      ensures page == old(page) && topAlbumsScrollPosition == old(topAlbumsScrollPosition)
      ensures isFavorite == old(isFavorite)
      ensures var f := fetch(artist, StartPageIndex);
              && topAlbums == (if f.emitted == [] then old(topAlbums) else AlbumsOf(f.emitted[|f.emitted| - 1]))
              && totalPages == (if f.emitted == [] then old(totalPages) else TotalPagesOf(f.emitted[|f.emitted| - 1]))
              && isLoading == Some(!Settles(f))
              && isError == if f.failure.Some? then Some(true) else old(isError)
    {
      isLoading := Some(true);
      var flow := fetch(artist, StartPageIndex);
      for i := 0 to |flow.emitted|
        invariant i == 0 ==> topAlbums == old(topAlbums) && totalPages == old(totalPages)
        invariant i > 0 ==> topAlbums == AlbumsOf(flow.emitted[i - 1]) && totalPages == TotalPagesOf(flow.emitted[i - 1])
        invariant isLoading == Some(i == 0)
        invariant isError == old(isError) && isFavorite == old(isFavorite)
        invariant page == old(page) && topAlbumsScrollPosition == old(topAlbumsScrollPosition)
      {
        isLoading := Some(false);
        topAlbums := AlbumsOf(flow.emitted[i]);
        totalPages := TotalPagesOf(flow.emitted[i]);
      }
      if flow.failure.Some? {
        isError := Some(true);
        isLoading := Some(false);
      }
    }

    /** `getNextPageOfTopAlbums(artist)`: nothing at all happens unless the
        current page is within the known total and the list is scrolled to
        its end; then the page grows by one and that page is appended. */
    method GetNextPageOfTopAlbums(artist: string, fetch: (string, int) -> Flow<Option<TopAlbums>>)
      requires Valid()
      modifies this
      ensures Valid()
      ensures totalPages == old(totalPages) && topAlbumsScrollPosition == old(topAlbumsScrollPosition)
      ensures isFavorite == old(isFavorite)
      ensures !ShouldLoadNextPage(old(page), old(totalPages), old(topAlbumsScrollPosition)) ==>
                page == old(page) && topAlbums == old(topAlbums)
                && isLoading == old(isLoading) && isError == old(isError)
      ensures ShouldLoadNextPage(old(page), old(totalPages), old(topAlbumsScrollPosition)) ==>
                var f := fetch(artist, old(page) + 1);
                && page == old(page) + 1
                && topAlbums == AppendedAlbums(old(topAlbums), f.emitted)
                && isLoading == Some(!Settles(f))
                && isError == if f.failure.Some? then Some(true) else old(isError)
      ensures page != old(page) ==> StartPageIndex < page <= old(totalPages) + 1
    {
      if page <= totalPages && topAlbumsScrollPosition + 1 >= page * TopAlbumPageSize {
        isLoading := Some(true);
        IncrementPage();
        if page > StartPageIndex {
          CollectNextPage(fetch(artist, page));
        }
      }
    }

    /** The `.catch` and `.collect` of `getNextPageOfTopAlbums`: every value
        clears the loading flag and its albums are appended; a failure sets
        the error flag. */
    method CollectNextPage(flow: Flow<Option<TopAlbums>>)
      modifies this`topAlbums, this`isLoading, this`isError
      ensures topAlbums == AppendedAlbums(old(topAlbums), flow.emitted)
      ensures isLoading == if Settles(flow) then Some(false) else old(isLoading)
      ensures isError == if flow.failure.Some? then Some(true) else old(isError)
    {
      ghost var start := topAlbums;
      for i := 0 to |flow.emitted|
        invariant topAlbums == AppendedAlbums(start, flow.emitted[..i])
        invariant isLoading == if i == 0 then old(isLoading) else Some(false)
        invariant isError == old(isError)
      {
        AppendedAlbumsPrefixStep(start, flow.emitted, i);
        isLoading := Some(false);
        AppendNewTopAlbums(AlbumsOf(flow.emitted[i]));
      }
      assert flow.emitted[..|flow.emitted|] == flow.emitted;
      if flow.failure.Some? {
        isError := Some(true);
        isLoading := Some(false);
      }
    }

    /** `appendNewTopAlbums(new)`: old albums first, then the new ones; a
        null list on either side counts as empty. */
    method AppendNewTopAlbums(newTopAlbums: Option<seq<AlbumItem>>)
      modifies this`topAlbums
      ensures topAlbums == Some(OrEmpty(old(topAlbums)) + OrEmpty(newTopAlbums))
    {
      var currentTopAlbums: seq<AlbumItem> := [];
      if topAlbums.Some? {
        currentTopAlbums := currentTopAlbums + topAlbums.value;
      }
      if newTopAlbums.Some? {
        currentTopAlbums := currentTopAlbums + newTopAlbums.value;
      }
      assert currentTopAlbums == OrEmpty(old(topAlbums)) + OrEmpty(newTopAlbums);
      topAlbums := Some(currentTopAlbums);
    }

    method IncrementPage()
      modifies this`page
      ensures page == old(page) + 1
    {
      page := page + 1;
    }

    /** Records the scroll position; the frame leaves every other field as it was. */
    method OnTopAlbumScrollPositionChanged(position: int)
      requires Valid()
      modifies this`topAlbumsScrollPosition
      ensures Valid()
      ensures topAlbumsScrollPosition == position
    {
      topAlbumsScrollPosition := position;
    }

    /** `saveAlbumAsFavorite(favoriteAlbum)`: asks for the album's details
        by its artist and album name; every success saves the album and its
        derived details and marks it favourite, a failure value saves
        nothing. There is no `.catch`: `uncaught` is set when the details
        flow ends with a throwable, which escapes the coroutine. */
    method SaveAlbumAsFavorite(favoriteAlbum: FavoriteAlbum, details: (string, string) -> Flow<KResult<DetailedAlbum>>)
      returns (uncaught: bool)
      requires Valid()
      modifies this`isFavorite, repository.dao
      ensures Valid()
      ensures var albums := Successes(details(favoriteAlbum.artistName, favoriteAlbum.albumName).emitted);
              && isFavorite == (if albums == [] then old(isFavorite) else Some(true))
              && repository.dao.albumSaves == old(repository.dao.albumSaves) + Repeat(favoriteAlbum, |albums|)
              && repository.dao.albums == (if albums == [] then old(repository.dao.albums)
                                           else old(repository.dao.albums)[favoriteAlbum.mbid := favoriteAlbum])
              && repository.dao.detailSaves == old(repository.dao.detailSaves) + FavoriteDetailsRows(albums)
              && repository.dao.albumDetails == UpsertDetails(old(repository.dao.albumDetails), FavoriteDetailsRows(albums))
      ensures uncaught == details(favoriteAlbum.artistName, favoriteAlbum.albumName).failure.Some?
    {
      var flow := details(favoriteAlbum.artistName, favoriteAlbum.albumName);
      CollectDetails(favoriteAlbum, flow);
      AfterSuccessesClosedForm(old(Snapshot()), favoriteAlbum, Successes(flow.emitted));
      uncaught := flow.failure.Some?;
    }

    /** What `saveAlbumAsFavorite` changes: the favourite flag and the DAO. */
    ghost function Snapshot(): SaveState
      reads this, repository.dao
    {
      SaveState(isFavorite, repository.dao.albumSaves, repository.dao.albums,
                repository.dao.detailSaves, repository.dao.albumDetails)
    }

    /** The `.collect` of `saveAlbumAsFavorite`: one `onSuccess` per success. */
    method CollectDetails(favoriteAlbum: FavoriteAlbum, flow: Flow<KResult<DetailedAlbum>>)
      modifies this`isFavorite, repository.dao
      ensures Snapshot() == AfterSuccesses(old(Snapshot()), favoriteAlbum, Successes(flow.emitted))
    {
      ghost var start := Snapshot();
      for i := 0 to |flow.emitted|
        invariant Snapshot() == AfterSuccesses(start, favoriteAlbum, Successes(flow.emitted[..i]))
      {
        ghost var before := Successes(flow.emitted[..i]);
        SuccessesPrefixStep(flow.emitted, i);
        var result := flow.emitted[i];
        if result.Success? {
          AfterSuccessesStep(start, favoriteAlbum, before, result.value);
          OnDetailsSuccess(favoriteAlbum, result.value);
        } else {
          assert before + [] == before;
        }
      }
      assert flow.emitted[..|flow.emitted|] == flow.emitted;
    }

    /** The `onSuccess` block of `saveAlbumAsFavorite`. */
    method OnDetailsSuccess(favoriteAlbum: FavoriteAlbum, albumDetails: DetailedAlbum)
      modifies this`isFavorite, repository.dao
      ensures Snapshot() == AfterSuccess(old(Snapshot()), favoriteAlbum, albumDetails)
    {
      var totalDuration := SumTrackDurations(albumDetails);
      var favoriteAlbumDetails := CreateFavoriteAlbumDetails(albumDetails, totalDuration);
      repository.SaveFavoriteAlbumWithDetails(favoriteAlbum, favoriteAlbumDetails);
      isFavorite := Some(true);
    }
  }

  /** The state `saveAlbumAsFavorite` changes: the favourite flag, then the
      DAO's logs of writes and its two tables. */
  datatype SaveState = SaveState(isFavorite: Option<bool>,
                                 albumSaves: seq<FavoriteAlbum>, albums: map<string, FavoriteAlbum>,
                                 detailSaves: seq<FavoriteAlbumDetails>, albumDetails: map<string, FavoriteAlbumDetails>)

  /** One `onSuccess`: the album and its details row written, the flag set. */
  function AfterSuccess(s: SaveState, favoriteAlbum: FavoriteAlbum, albumDetails: DetailedAlbum): SaveState {
    var row := FavoriteDetailsFor(albumDetails);
    SaveState(Some(true), s.albumSaves + [favoriteAlbum], s.albums[favoriteAlbum.mbid := favoriteAlbum],
              s.detailSaves + [row], s.albumDetails[row.mbid := row])
  }

  /** One `onSuccess` per album, in order. */
  function AfterSuccesses(s: SaveState, favoriteAlbum: FavoriteAlbum, albums: seq<DetailedAlbum>): SaveState {
    if albums == [] then s
    else AfterSuccess(AfterSuccesses(s, favoriteAlbum, albums[..|albums| - 1]), favoriteAlbum, albums[|albums| - 1])
  }

  lemma AfterSuccessesStep(s: SaveState, favoriteAlbum: FavoriteAlbum, albums: seq<DetailedAlbum>, next: DetailedAlbum)
    ensures AfterSuccesses(s, favoriteAlbum, albums + [next])
            == AfterSuccess(AfterSuccesses(s, favoriteAlbum, albums), favoriteAlbum, next)
  {
    assert (albums + [next])[..|albums|] == albums;
  }

  /** `n` copies of `x`. */
  function Repeat<T>(x: T, n: nat): seq<T> {
    seq(n, _ => x)
  }

  lemma RepeatStep<T>(x: T, n: nat)
    ensures Repeat(x, n + 1) == Repeat(x, n) + [x]
  {
  }

  lemma AppendAssoc<T>(a: seq<T>, b: seq<T>, c: seq<T>)
    ensures (a + b) + c == a + (b + c)
  {
  }

  lemma MapUpdateTwice<K, V>(m: map<K, V>, k: K, v: V)
    ensures m[k := v][k := v] == m[k := v]
  {
  }

  lemma FavoriteDetailsRowsStep(albums: seq<DetailedAlbum>, next: DetailedAlbum)
    ensures FavoriteDetailsRows(albums + [next]) == FavoriteDetailsRows(albums) + [FavoriteDetailsFor(next)]
  {
    assert (albums + [next])[..|albums|] == albums;
  }

  lemma UpsertDetailsStep(table: map<string, FavoriteAlbumDetails>, rows: seq<FavoriteAlbumDetails>,
                          row: FavoriteAlbumDetails)
    ensures UpsertDetails(table, rows + [row]) == UpsertDetails(table, rows)[row.mbid := row]
  {
    assert (rows + [row])[..|rows|] == rows;
  }

  /** After the successes `albums`: the album written once per success and
      present in its table when there was at least one; one details row per
      success, in order, the table holding the last row for each mbid; the
      flag set when there was at least one success, and nothing changed
      when there was none. */
  lemma {:induction false} AfterSuccessesClosedForm(s: SaveState, favoriteAlbum: FavoriteAlbum, albums: seq<DetailedAlbum>)
    ensures var t := AfterSuccesses(s, favoriteAlbum, albums);
            && t.isFavorite == (if albums == [] then s.isFavorite else Some(true))
            && t.albumSaves == s.albumSaves + Repeat(favoriteAlbum, |albums|)
            && t.albums == (if albums == [] then s.albums else s.albums[favoriteAlbum.mbid := favoriteAlbum])
            && t.detailSaves == s.detailSaves + FavoriteDetailsRows(albums)
            && t.albumDetails == UpsertDetails(s.albumDetails, FavoriteDetailsRows(albums))
  {
    if albums == [] {
      assert s.albumSaves + [] == s.albumSaves;
      assert s.detailSaves + [] == s.detailSaves;
    } else {
      var init, next := albums[..|albums| - 1], albums[|albums| - 1];
      assert albums == init + [next];
      AfterSuccessesClosedForm(s, favoriteAlbum, init);
      RepeatStep(favoriteAlbum, |init|);
      if init != [] {
        MapUpdateTwice(s.albums, favoriteAlbum.mbid, favoriteAlbum);
      }
      FavoriteDetailsRowsStep(init, next);
      UpsertDetailsStep(s.albumDetails, FavoriteDetailsRows(init), FavoriteDetailsFor(next));
      AppendAssoc(s.albumSaves, Repeat(favoriteAlbum, |init|), [favoriteAlbum]);
      AppendAssoc(s.detailSaves, FavoriteDetailsRows(init), [FavoriteDetailsFor(next)]);
    }
  }
}
