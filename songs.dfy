/**
 * Song records and the effect of the write statements of models/songs.go on
 * the songs table, modelled as a map from id to row.
 *
 * The table stands for the database: INSERT gets a fresh id from a counter
 * (the serial column), UPDATE and DELETE act on the one row whose id matches
 * and do nothing when no row matches (zero rows affected is not an error).
 */
module Songs {

  import Enrichment
  import Verses
  import Paging

  /** A row of the songs table, and the request body of the create and update endpoints. */
  datatype Song = Song(
    id: int,
    groupName: string,
    songName: string,
    releaseDate: string,
    text: string,
    link: string)

  /** The enrichment record as the repository layer receives it. */
  datatype SongDetails = SongDetails(releaseDate: string, text: string, link: string)

  /** The one failure the model keeps: no row has the requested id. */
  datatype Error = NotFound

  datatype Result<T> = Ok(value: T) | Err(error: Error)

  /** ConvertUtilsToModelsDetails: copies the three fields unchanged. */
  function ConvertUtilsToModelsDetails(details: Enrichment.SongDetails): (r: SongDetails)
    ensures r.releaseDate == details.releaseDate
    ensures r.text == details.text
    ensures r.link == details.link
  {
    SongDetails(details.releaseDate, details.text, details.link)
  }

  /**
   * The row SaveSong inserts under the id the table assigns: group and song
   * name from the request, release date, text and link from the enrichment
   * details.
   */
  function InsertedRow(id: int, song: Song, details: SongDetails): (row: Song)
    ensures row.id == id
    ensures row.groupName == song.groupName && row.songName == song.songName
    ensures row.releaseDate == details.releaseDate && row.text == details.text && row.link == details.link
  {
    Song(id, song.groupName, song.songName, details.releaseDate, details.text, details.link)
  }

  /**
   * What the request carries besides the two names (its id, release date,
   * text and link) has no effect on the inserted row.
   */
  lemma InsertIgnoresRequestExtras(id: int, s1: Song, s2: Song, details: SongDetails)
    requires s1.groupName == s2.groupName && s1.songName == s2.songName
    ensures InsertedRow(id, s1, details) == InsertedRow(id, s2, details)
  {
  }

  /**
   * The row UpdateSong leaves: the five mutable fields from the request, the
   * id of the row (the request's own id is ignored).
   */
  function UpdatedRow(row: Song, song: Song): (r: Song)
    ensures r.id == row.id
    ensures r.groupName == song.groupName && r.songName == song.songName
    ensures r.releaseDate == song.releaseDate && r.text == song.text && r.link == song.link
  {
    Song(row.id, song.groupName, song.songName, song.releaseDate, song.text, song.link)
  }

  /** The last update of a row wins: an earlier update leaves no trace. */
  lemma UpdatedRowLastWins(row: Song, first: Song, second: Song)
    ensures UpdatedRow(UpdatedRow(row, first), second) == UpdatedRow(row, second)
  {
  }

  /** Every row is stored under its own id. */
  ghost predicate KeyedById(rows: map<int, Song>) {
    forall k :: k in rows ==> rows[k].id == k
  }

  /**
   * The table after `UPDATE songs SET ... WHERE id = $6`: the row with that id,
   * if any, takes the request's five mutable fields; no row is added or
   * removed and every other row is unchanged.
   */
  function Updated(rows: map<int, Song>, id: int, song: Song): (r: map<int, Song>)
    ensures r.Keys == rows.Keys
    ensures forall k :: k in rows && k != id ==> r[k] == rows[k]
    ensures id in rows ==> r[id] == UpdatedRow(rows[id], song)
  {
    if id in rows then rows[id := UpdatedRow(rows[id], song)] else rows
  }

  /**
   * The table after `DELETE FROM songs WHERE id = $1`: that id is gone, every
   * other row is unchanged.
   */
  function Deleted(rows: map<int, Song>, id: int): (r: map<int, Song>)
    ensures r.Keys == rows.Keys - {id}
    ensures forall k :: k in r ==> r[k] == rows[k]
  {
    rows - {id}
  }

  /** Updates and deletes keep every row under its own id. */
  lemma WritesKeepRowsKeyed(rows: map<int, Song>, id: int, song: Song)
    requires KeyedById(rows)
    ensures KeyedById(Updated(rows, id, song)) && KeyedById(Deleted(rows, id))
  {
  }

  /** Repeating an update changes nothing more. */
  lemma UpdateIdempotent(rows: map<int, Song>, id: int, song: Song)
    ensures Updated(Updated(rows, id, song), id, song) == Updated(rows, id, song)
  {
  }

  /** Repeating a delete changes nothing more. */
  lemma DeleteIdempotent(rows: map<int, Song>, id: int)
    ensures Deleted(Deleted(rows, id), id) == Deleted(rows, id)
  {
  }

  /** An update of a deleted id does not bring the row back. */
  lemma UpdateAfterDeleteIsNoOp(rows: map<int, Song>, id: int, song: Song)
    ensures Updated(Deleted(rows, id), id, song) == Deleted(rows, id)
  {
  }

  /** The songs table. */
  class SongTable {
    /** The rows, by id. */
    var rows: map<int, Song>
    /** The id the next insert receives. */
    var nextId: int

    /** Ids are positive, below the next id to assign, and each row carries its own id. */
    ghost predicate Valid()
      reads this
    {
      && nextId >= 1
      && KeyedById(rows)
      && (forall k :: k in rows ==> 1 <= k < nextId)
    }

    /** An empty table. */
    constructor ()
      ensures Valid()
      ensures rows == map[] && nextId == 1
    {
      rows := map[];
      nextId := 1;
    }

    /**
     * SaveSong: inserts the composed row under a fresh id, the one the
     * counter holds; no existing row changes.
     */
    method SaveSong(song: Song, details: SongDetails)
      requires Valid()
      modifies this
      ensures Valid()
      ensures old(nextId) !in old(rows)
      ensures rows == old(rows)[old(nextId) := InsertedRow(old(nextId), song, details)]
      ensures nextId == old(nextId) + 1
    {
      var id := nextId;
      rows := rows[id := InsertedRow(id, song, details)];
      nextId := nextId + 1;
    }

    /** UpdateSong: overwrites the row with this id, if there is one. */
    method UpdateSong(id: int, song: Song)
      requires Valid()
      modifies this`rows
      ensures Valid()
      ensures rows == Updated(old(rows), id, song)
    {
      if id in rows {
        rows := rows[id := UpdatedRow(rows[id], song)];
      }
    }

    /** DeleteSong: removes the row with this id, if there is one. */
    method DeleteSong(id: int)
      requires Valid()
      modifies this`rows
      ensures Valid()
      ensures rows == Deleted(old(rows), id)
    {
      rows := rows - {id};
    }

    /**
     * FetchSongText: the requested page of verses of the stored text, or
     * NotFound when no row has this id, whatever the page.
     */
    method FetchSongText(id: int, page: int, limit: int) returns (r: Result<seq<string>>)
      requires id in rows ==> Paging.PageFits(page, limit)
      ensures id !in rows ==> r == Err(NotFound)
      ensures id in rows ==> r == Ok(Verses.FetchSongText(rows[id].text, page, limit))
    {
      if id !in rows {
        return Err(NotFound);
      }
      var fullText := rows[id].text;
      r := Ok(Verses.FetchSongText(fullText, page, limit));
    }
  }

  /**
   * The life of one song through the table: the row saved from a request and
   * its enrichment details, its first verse, an update, and a delete after
   * which its text is no longer found.
   */
  method SongLifecycle(request: Song, details: Enrichment.SongDetails, edit: Song)
  {
    var table := new SongTable();
    table.SaveSong(request, ConvertUtilsToModelsDetails(details));
    assert table.rows == map[1 := InsertedRow(1, request, ConvertUtilsToModelsDetails(details))];
    assert table.rows[1].text == details.text;
    var first := table.FetchSongText(1, 1, 1);
    assert first == Ok(Verses.FetchSongText(details.text, 1, 1));
    table.UpdateSong(1, edit);
    assert table.rows[1].songName == edit.songName && table.rows[1].id == 1;
    table.UpdateSong(2, edit);
    assert table.rows.Keys == {1};
    table.DeleteSong(1);
    var gone := table.FetchSongText(1, 0, 1);
    assert gone == Err(NotFound);
  }
}
