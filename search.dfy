/**
 * The artist-search screen's state holder: running a first-page search,
 * loading further pages as the list is scrolled, and appending them.
 */
module Search {
  import opened Wrappers
  import opened Flows
  import opened Models
  import opened Repository

  const StartPageIndex: int := 1
  const ArtistSearchResultPageSize: int := 30

  /** `it.artist`, with a null list read as empty. */
  function Artists(matches: Artistmatches): seq<Option<ArtistItem>> {
    OrEmpty(matches.artist)
  }

  /** All artists of the given pages, page after page. */
  function ConcatArtists(pages: seq<Artistmatches>): seq<Option<ArtistItem>> {
    if pages == [] then [] else ConcatArtists(pages[..|pages| - 1]) + Artists(pages[|pages| - 1])
  }

  /** The list after a first-page search collected `pages`: each value
      replaces the list, so the last one is kept. */
  function FirstPageResults(current: Option<seq<Option<ArtistItem>>>, pages: seq<Artistmatches>)
    : Option<seq<Option<ArtistItem>>>
  {
    if pages == [] then current else pages[|pages| - 1].artist
  }

  /** The list after a next-page fetch collected `pages`: each value is
      appended to the list. */
  function AppendedPages(current: Option<seq<Option<ArtistItem>>>, pages: seq<Artistmatches>)
    : Option<seq<Option<ArtistItem>>>
  {
    if pages == [] then current else Some(OrEmpty(current) + ConcatArtists(pages))
  }

  /** The scroll threshold: the last loaded row of the current page is in view. */
  predicate NearEnd(scrollPosition: int, page: int) {
    scrollPosition + 1 >= page * ArtistSearchResultPageSize
  }

  lemma {:induction false} ConcatArtistsAppend(a: seq<Artistmatches>, b: seq<Artistmatches>)
    ensures ConcatArtists(a + b) == ConcatArtists(a) + ConcatArtists(b)
  {
    if b != [] {
      var b' := b[..|b| - 1];
      assert (a + b)[..|a + b| - 1] == a + b';
      ConcatArtistsAppend(a, b');
    } else {
      assert a + b == a;
    }
  }

  /** The number of artists in the given pages. */
  function TotalArtists(pages: seq<Artistmatches>): nat {
    if pages == [] then 0 else TotalArtists(pages[..|pages| - 1]) + |Artists(pages[|pages| - 1])|
  }

  /** Page i of a concatenation sits after every earlier page and before
      every later one. */
  lemma {:induction false} ConcatArtistsSections(pages: seq<Artistmatches>, i: nat)
    requires i < |pages|
    ensures ConcatArtists(pages) == ConcatArtists(pages[..i]) + Artists(pages[i]) + ConcatArtists(pages[i + 1..])
  {
    var before, after := pages[..i], pages[i + 1..];
    assert pages == before + ([pages[i]] + after);
    ConcatArtistsAppend(before, [pages[i]] + after);
    ConcatArtistsAppend([pages[i]], after);
    assert ConcatArtists([pages[i]]) == Artists(pages[i]) by {
      assert [pages[i]][..0] == [];
    }
  }

  lemma {:induction false} ConcatArtistsLength(pages: seq<Artistmatches>)
    ensures |ConcatArtists(pages)| == TotalArtists(pages)
  {
    if pages != [] {
      ConcatArtistsLength(pages[..|pages| - 1]);
    }
  }

  /** Collecting one more page appends exactly that page's artists. */
  lemma {:induction false} AppendedPagesStep(current: Option<seq<Option<ArtistItem>>>, pages: seq<Artistmatches>, next: Artistmatches)
    ensures AppendedPages(current, pages + [next]) == Some(OrEmpty(AppendedPages(current, pages)) + Artists(next))
  {
    assert (pages + [next])[..|pages|] == pages;
    if pages == [] {
      assert pages + [next] == [next];
      assert ConcatArtists([next]) == Artists(next) by {
        assert [next][..0] == [];
      }
    } else {
      var base, c := OrEmpty(current), ConcatArtists(pages);
      assert ConcatArtists(pages + [next]) == c + Artists(next);
      assert OrEmpty(AppendedPages(current, pages)) == base + c;
      assert base + (c + Artists(next)) == (base + c) + Artists(next);
    }
  }

  /** The prefix form of `AppendedPagesStep`, as a collecting loop uses it. */
  lemma AppendedPagesPrefixStep(current: Option<seq<Option<ArtistItem>>>, pages: seq<Artistmatches>, i: nat)
    requires i < |pages|
    ensures AppendedPages(current, pages[..i + 1]) == Some(OrEmpty(AppendedPages(current, pages[..i])) + Artists(pages[i]))
  {
    assert pages[..i + 1] == pages[..i] + [pages[i]];
    AppendedPagesStep(current, pages[..i], pages[i]);
  }

  /** After a next-page fetch that collected `pages`, the earlier rows come
      first, then every page's artists in the order the pages arrived;
      the list grew by exactly the pages' sizes. */
  lemma {:induction false} AppendedPagesKeepOrder(current: Option<seq<Option<ArtistItem>>>, pages: seq<Artistmatches>, i: nat)
    requires i < |pages|
    ensures OrEmpty(AppendedPages(current, pages))
            == OrEmpty(current) + ConcatArtists(pages[..i]) + Artists(pages[i]) + ConcatArtists(pages[i + 1..])
    ensures |OrEmpty(AppendedPages(current, pages))| == |OrEmpty(current)| + TotalArtists(pages)
  {
    ConcatArtistsSections(pages, i);
    ConcatArtistsLength(pages);
  }

  /** Two next-page fetches in a row leave the same list as one fetch that
      collected both pages' values in order. */
  lemma {:induction false} AppendedPagesCompose(current: Option<seq<Option<ArtistItem>>>,
                                                first: seq<Artistmatches>, second: seq<Artistmatches>)
    ensures AppendedPages(AppendedPages(current, first), second) == AppendedPages(current, first + second)
  {
    if first == [] {
      assert first + second == second;
    } else if second == [] {
      assert first + second == first;
    } else {
      var base, c1, c2 := OrEmpty(current), ConcatArtists(first), ConcatArtists(second);
      ConcatArtistsAppend(first, second);
      calc {
        AppendedPages(AppendedPages(current, first), second);
        Some(OrEmpty(Some(base + c1)) + c2);
        { assert (base + c1) + c2 == base + (c1 + c2); }
        Some(base + (c1 + c2));
        { assert first + second != []; }
        AppendedPages(current, first + second);
      }
    }
  }

  /** Through the repository's search read: when attempt k is the first to
      respond and its response carries matches, the first-page search
      shows exactly those matches and settles. */
  lemma {:induction false} FirstPageShowsRepositoryMatches(current: Option<seq<Option<ArtistItem>>>, artist: string,
                                                          attempts: seq<Attempt<ArtistSearchResponse>>, k: nat)
    requires |attempts| >= MaxAttempts
    requires SucceedsAt(attempts, k)
    requires SearchPayload(attempts[k].response).Some?
    ensures var f := GetArtistsSearchResult(artist, StartPageIndex, attempts).flow;
            && FirstPageResults(current, f.emitted) == SearchPayload(attempts[k].response).value.artist
            && Settles(f)
  {
    SearchFirstSuccessWins(artist, StartPageIndex, attempts, k);
  }

  /** Through the repository's search read, a search whose every attempt
      throws an `Exception` leaves the list as it was and never settles:
      the repository turns the failure into an empty flow, so the view
      model's `.catch` never runs, the error flag is never set and the
      loading flag stays set. */
  lemma TotalFailureNeverSettles(current: Option<seq<Option<ArtistItem>>>, artist: string, page: int,
                                 attempts: seq<Attempt<ArtistSearchResponse>>)
    requires |attempts| >= MaxAttempts
    requires forall j :: 0 <= j < MaxAttempts ==> attempts[j].Threw? && attempts[j].cause.isException
    ensures var f := GetArtistsSearchResult(artist, page, attempts).flow;
            && !Settles(f) && f.failure.None?
            && FirstPageResults(current, f.emitted) == current
            && AppendedPages(current, f.emitted) == current
  {
    SearchTotalFailureEmitsNothing(artist, page, attempts);
  }

  class SearchViewModel {
    var artistsSearchResults: Option<seq<Option<ArtistItem>>>
    var isError: Option<bool>
    var isLoading: Option<bool>
    var page: int
    var artistsSearchResultsScrollPosition: int

    /** The page counter starts at the first page and only grows. */
    ghost predicate Valid()
      reads this
    {
      page >= StartPageIndex
    }

    constructor ()
      ensures Valid()
      ensures artistsSearchResults == None && isError == None && isLoading == None
      ensures page == StartPageIndex && artistsSearchResultsScrollPosition == 0
    {
      artistsSearchResults, isError, isLoading := None, None, None;
      page, artistsSearchResultsScrollPosition := StartPageIndex, 0;
    }

    /** `getSearchResults(artist)`: always asks for the first page and keeps
        the page counter. `search` is the repository's search read. */
    method GetSearchResults(artist: string, search: (string, int) -> Flow<Artistmatches>)
      requires Valid()
      modifies this
      ensures Valid()
      ensures page == old(page)
      ensures artistsSearchResultsScrollPosition == old(artistsSearchResultsScrollPosition)
      ensures artistsSearchResults == FirstPageResults(old(artistsSearchResults), search(artist, StartPageIndex).emitted)
      ensures isLoading == Some(!Settles(search(artist, StartPageIndex)))
      ensures isError == if search(artist, StartPageIndex).failure.Some? then Some(true) else old(isError)
    {
      isLoading := Some(true);
      var flow := search(artist, StartPageIndex);
      for i := 0 to |flow.emitted|
        invariant artistsSearchResults == FirstPageResults(old(artistsSearchResults), flow.emitted[..i])
        invariant isLoading == Some(i == 0)
        invariant isError == old(isError)
        invariant page == old(page)
        invariant artistsSearchResultsScrollPosition == old(artistsSearchResultsScrollPosition)
      {
        isLoading := Some(false);
        artistsSearchResults := flow.emitted[i].artist;
      }
      assert flow.emitted[..|flow.emitted|] == flow.emitted;
      if flow.failure.Some? {
        isError := Some(true);
        isLoading := Some(false);
      }
    }

    /** `getNextPageSearchResults(artist)`. The unbraced `if` guards only
        `isLoading = true`: the page grows and the next page is fetched on
        every call, near the end of the list or not. */
    method GetNextPageSearchResults(artist: string, search: (string, int) -> Flow<Artistmatches>)
      requires Valid()
      modifies this
      ensures Valid()
      ensures page == old(page) + 1
      ensures artistsSearchResultsScrollPosition == old(artistsSearchResultsScrollPosition)
      ensures artistsSearchResults == AppendedPages(old(artistsSearchResults), search(artist, old(page) + 1).emitted)
      ensures isLoading == if Settles(search(artist, old(page) + 1)) then Some(false)
                           else if NearEnd(old(artistsSearchResultsScrollPosition), old(page)) then Some(true)
                           else old(isLoading)
      ensures isError == if search(artist, old(page) + 1).failure.Some? then Some(true) else old(isError)
    {
      if NearEnd(artistsSearchResultsScrollPosition, page) {
        isLoading := Some(true);
      }
      IncrementPage();
      if page > 1 {
        CollectNextPage(search(artist, page));
      }
    }

    /** The `.catch` and `.collect` of `getNextPageSearchResults`: every page
        value clears the loading flag and is appended; a failure sets the
        error flag. */
    method CollectNextPage(flow: Flow<Artistmatches>)
      modifies this`artistsSearchResults, this`isLoading, this`isError
      ensures artistsSearchResults == AppendedPages(old(artistsSearchResults), flow.emitted)
      ensures isLoading == if Settles(flow) then Some(false) else old(isLoading)
      ensures isError == if flow.failure.Some? then Some(true) else old(isError)
    {
      ghost var start := artistsSearchResults;
      for i := 0 to |flow.emitted|
        invariant artistsSearchResults == AppendedPages(start, flow.emitted[..i])
        invariant isLoading == if i == 0 then old(isLoading) else Some(false)
        invariant isError == old(isError)
      {
        AppendedPagesPrefixStep(start, flow.emitted, i);
        isLoading := Some(false);
        AppendNewArtistsSearchResults(flow.emitted[i].artist);
      }
      assert flow.emitted[..|flow.emitted|] == flow.emitted;
      if flow.failure.Some? {
        isError := Some(true);
        isLoading := Some(false);
      }
    }

    /** `appendNewArtistsSearchResults(new)`: old rows first, then the new
        ones; a null list on either side counts as empty. */
    method AppendNewArtistsSearchResults(newArtistSearchResults: Option<seq<Option<ArtistItem>>>)
      modifies this`artistsSearchResults
      ensures artistsSearchResults == Some(OrEmpty(old(artistsSearchResults)) + OrEmpty(newArtistSearchResults))
    {
      var currentArtistSearchResults: seq<Option<ArtistItem>> := [];
      if artistsSearchResults.Some? {
        currentArtistSearchResults := currentArtistSearchResults + artistsSearchResults.value;
      }
      if newArtistSearchResults.Some? {
        currentArtistSearchResults := currentArtistSearchResults + newArtistSearchResults.value;
      }
      assert currentArtistSearchResults == OrEmpty(old(artistsSearchResults)) + OrEmpty(newArtistSearchResults);
      artistsSearchResults := Some(currentArtistSearchResults);
    }

    method IncrementPage()
      modifies this`page
      ensures page == old(page) + 1
    {
      page := page + 1;
    }

    /** Records the scroll position; the frame leaves every other field as it was. */
    method OnArtistSearchResultScrollPositionChanged(position: int)
      requires Valid()
      modifies this`artistsSearchResultsScrollPosition
      ensures Valid()
      ensures artistsSearchResultsScrollPosition == position
    {
      artistsSearchResultsScrollPosition := position;
    }
  }
}
