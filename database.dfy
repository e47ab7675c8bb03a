/**
 * The favourite-albums store: two tables keyed by album `mbid` with
 * insert-or-replace writes. The ghost logs record every write call made.
 */
module Database {
  import opened Models

  /** The rows after inserting `rows` in order, each replacing any row with
      the same key. */
  function UpsertDetails(table: map<string, FavoriteAlbumDetails>, rows: seq<FavoriteAlbumDetails>)
    : (r: map<string, FavoriteAlbumDetails>)
    ensures r.Keys == table.Keys + set i | 0 <= i < |rows| :: rows[i].mbid
  {
    if rows == [] then table
    else
      var last := rows[|rows| - 1];
      var init := UpsertDetails(table, rows[..|rows| - 1]);
      init[last.mbid := last]
  }

  /** Insert-or-replace leaves every key as its last write put it. */
  lemma {:induction false} UpsertLastWriteWins(table: map<string, FavoriteAlbumDetails>,
                                                rows: seq<FavoriteAlbumDetails>, i: nat)
    requires i < |rows|
    requires forall j :: i < j < |rows| ==> rows[j].mbid != rows[i].mbid
    ensures rows[i].mbid in UpsertDetails(table, rows)
    ensures UpsertDetails(table, rows)[rows[i].mbid] == rows[i]
  {
    if i < |rows| - 1 {
      var init := rows[..|rows| - 1];
      assert forall j :: i < j < |init| ==> init[j] == rows[j];
      UpsertLastWriteWins(table, init, i);
    }
  }

  /** A key that no inserted row has keeps its row. */
  lemma {:induction false} UpsertKeepsOtherKeys(table: map<string, FavoriteAlbumDetails>,
                                                 rows: seq<FavoriteAlbumDetails>, key: string)
    requires key in table
    requires forall i :: 0 <= i < |rows| ==> rows[i].mbid != key
    ensures key in UpsertDetails(table, rows) && UpsertDetails(table, rows)[key] == table[key]
  {
    if rows != [] {
      UpsertKeepsOtherKeys(table, rows[..|rows| - 1], key);
    }
  }

  class FavoriteAlbumsDao {
    var albums: map<string, FavoriteAlbum>
    var albumDetails: map<string, FavoriteAlbumDetails>
    ghost var albumSaves: seq<FavoriteAlbum>
    ghost var detailSaves: seq<FavoriteAlbumDetails>

    constructor ()
      ensures albums == map[] && albumDetails == map[]
      ensures albumSaves == [] && detailSaves == []
    {
      albums, albumDetails := map[], map[];
      albumSaves, detailSaves := [], [];
    }

    /** `@Insert(onConflict = REPLACE) saveFavoriteAlbum` */
    method SaveFavoriteAlbum(album: FavoriteAlbum)
      modifies this`albums, this`albumSaves
      ensures albums == old(albums)[album.mbid := album]
      ensures albumSaves == old(albumSaves) + [album]
    {
      albums := albums[album.mbid := album];
      albumSaves := albumSaves + [album];
    }

    /** The insert-or-replace write of a details row. */
    method SaveFavoriteAlbumDetails(details: FavoriteAlbumDetails)
      modifies this`albumDetails, this`detailSaves
      ensures albumDetails == old(albumDetails)[details.mbid := details]
      ensures detailSaves == old(detailSaves) + [details]
    {
      albumDetails := albumDetails[details.mbid := details];
      detailSaves := detailSaves + [details];
    }
  }
}
