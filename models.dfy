/**
 * Data shapes of the Last.fm JSON responses and of the two persisted
 * favourite records. Nullable Kotlin fields are `Option`s; `totalPages`,
 * a numeric string in the JSON, is kept already parsed.
 */
module Models {
  import opened Wrappers

  // --- artist.search -------------------------------------------------------

  datatype ImageItem = ImageItem(text: Option<string>, size: Option<string>)

  datatype ArtistItem = ArtistItem(
    image: Option<seq<Option<ImageItem>>>,
    mbid: Option<string>,
    listeners: Option<string>,
    streamable: Option<string>,
    name: Option<string>,
    url: Option<string>)

  datatype Artistmatches = Artistmatches(artist: Option<seq<Option<ArtistItem>>>)

  datatype Attr = Attr(jsonMemberFor: Option<string>)

  datatype OpensearchQuery = OpensearchQuery(
    startPage: Option<string>, text: Option<string>,
    role: Option<string>, searchTerms: Option<string>)

  datatype Results = Results(
    opensearchQuery: Option<OpensearchQuery>,
    attr: Option<Attr>,
    opensearchItemsPerPage: Option<string>,
    artistmatches: Option<Artistmatches>,
    opensearchStartIndex: Option<string>,
    opensearchTotalResults: Option<string>)

  datatype ArtistSearchResponse = ArtistSearchResponse(results: Option<Results>)

  // --- artist.gettopalbums -------------------------------------------------

  datatype Artist = Artist(mbid: string, name: string, url: string)

  datatype TopAlbumsImageItem = TopAlbumsImageItem(text: string, size: string)

  datatype AlbumItem = AlbumItem(
    topAlbumsImage: seq<TopAlbumsImageItem>,
    artist: Artist,
    playcount: int,
    name: string,
    url: string,
    mbid: string)

  /** `totalPages` is the parsed value of the JSON string; `None` stands for
      a value the view model reads as missing. */
  datatype TopAlbumAttr = TopAlbumAttr(
    total: string, perPage: string, artist: string,
    totalPages: Option<int>, page: string)

  datatype TopAlbums = TopAlbums(topAlbumAttr: TopAlbumAttr, album: seq<AlbumItem>)

  datatype TopAlbumsResponse = TopAlbumsResponse(topAlbums: TopAlbums)

  // --- album.getinfo -------------------------------------------------------

  datatype Streamable = Streamable(text: string, fulltrack: string)

  /** A track; `duration` is in seconds. */
  datatype TrackItem = TrackItem(
    duration: int, attr: Attr, streamable: Streamable,
    artist: Artist, name: string, url: string)

  datatype Tracks = Tracks(track: seq<TrackItem>)

  datatype Wiki = Wiki(summary: string, published: string, content: string)

  datatype TagItem = TagItem(name: string, url: string)

  datatype Tags = Tags(tag: seq<TagItem>)

  datatype DetailedAlbum = DetailedAlbum(
    image: seq<ImageItem>,
    mbid: Option<string>,
    listeners: string,
    artist: Option<string>,
    playcount: string,
    wiki: Wiki,
    name: Option<string>,
    tracks: Option<Tracks>,
    url: Option<string>,
    tags: Tags)

  // --- persisted rows ------------------------------------------------------

  /** A row of the favourite-albums table, keyed by `mbid`. */
  datatype FavoriteAlbum = FavoriteAlbum(
    mbid: string, albumImageUrl: string, albumName: string,
    artistName: string, playCount: int)

  /** A row of the favourite-album-details table, keyed by `mbid`. */
  datatype FavoriteAlbumDetails = FavoriteAlbumDetails(
    mbid: string,
    albumImageUrl: Option<string>,
    albumName: Option<string>,
    artistName: Option<string>,
    totalTracks: Option<int>,
    totalDuration: Option<int>,
    tracks: Option<seq<TrackItem>>)
}
