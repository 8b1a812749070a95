# Online music library: verified model of the song repository

This project models the repository layer of a small song-library web service
(`models/songs.go`). The service lists songs with optional group and song
filters, serves a song's lyrics one verse per page, and creates, updates and
deletes song records. New records are enriched by an external lookup service.

The model covers four things:

- **Verse splitting and paging** (module `Verses`, `verses.dfy`). Lyrics are
  split on the blank-line separator `"\n\n"` with the semantics of Go's
  `strings.Split`. The requested page is then cut out of the verse list:
  page `p` of `limit` verses starts at verse `(p - 1) * limit`. A page that
  starts past the last verse is empty, and a page that runs past it is cut at
  the end. The offset arithmetic is shared with the listing (module `Paging`,
  `paging.dfy`). Go's `int` is 64 bits wide, and the model states the
  wrap-around explicitly (`Paging.Wrap64`).
- **The listing query** (module `SongQuery`, `query.dfy`). This is the SQL text
  and the bound limit and offset that `FetchSongs` hands to the database.
- **Record composition** (module `Songs`, `songs.dfy`, with the enrichment
  record in module `Enrichment`, `enrichment.dfy`). This says which fields of a
  new row come from the request and which come from the enrichment details, and
  which fields an update overwrites.
- **The write statements on an abstract table** (`Songs.SongTable`). The table
  is a class holding a `map<int, Song>` and a counter for the next id.
  `SaveSong` inserts under a fresh id, `UpdateSong` overwrites the five mutable
  fields of an existing row, and `DeleteSong` removes one row. Update and delete
  do nothing when no row has the id. `FetchSongText` reads a row's text and
  pages it.

The main results:

- Splitting is a bijection. `JoinSplitVerses` shows that joining the verses
  with `"\n\n"` gives back the text. `SplitJoinVerses` shows that splitting the
  join of well-formed verses gives back the verses.
- Reading the pages one after another returns the verses in order.
- Page bounds and clamping are exact.
- Each filter clause appears in the query exactly when its filter is non-empty,
  and the filter text is inserted verbatim.
- Update and delete change only their own row.

Three behaviours of the code are worth stating outright:

- **Trailing blank line.** `strings.Split` keeps the empty string after a
  trailing `"\n\n"` as a final verse, and the endpoint serves it as a page of
  its own (`[""]`). Nothing is trimmed, so reading every page rebuilds the
  stored text exactly (`Verses.ReadingEveryPageRestoresText`).
- **Filters in the SQL text.** The listing writes its filters into the SQL
  text with `fmt.Sprintf`. Only the limit and the offset are bound as
  arguments. See Findings.
- **Missing row.** For an unknown id, `FetchSongText` returns the database's
  no-rows error, and the handler answers 500 (handlers/songs.go:44, :52-54).
  The model gives this error the name `Err(NotFound)`.

## Model

| member | source | states |
|---|---|---|
| Paging.PageStart | models/songs.go:72 | On unbounded integers, the offset `(page - 1) * limit` is never negative for page and limit at least 1. It is 0 exactly on page 1. |
| Paging.NextPageStart | models/songs.go:72-73 | Each page starts where the previous one ends (`start + limit` is the next page's start). |
| Paging.Wrap64 | models/songs.go:72-73 | Go's 64-bit int arithmetic: the result lies in the int64 range and is congruent to the exact value modulo 2^64. A value already in range is kept. |
| Paging.ListingOffset | models/songs.go:33 | The listing offset as Go computes it: in Go's int range, congruent to `(page - 1) * limit` modulo 2^64, and equal to it when the product fits. |
| Paging.PageFitsNoWrap | models/songs.go:72-73 | When a page's end `(page - 1) * limit + limit` fits in Go's int, the 64-bit `start` and `end` equal the exact ones. |
| Paging.OneItemPagesFit | handlers/songs.go:48-51 | With the verse endpoint's `limit = 1`, every page in `1..Int64Max` fits. So with that limit, `PageFits` excludes only pages `<= 0`. |
| Paging.WrappedPageStart | models/songs.go:72 | For page 3 of 2^62 items, the page does not fit, and the 64-bit start wraps to -2^63. |
| Verses.IndexOfSeparator | models/songs.go:84-86 | The index of the first `"\n\n"` in the text, or -1 exactly when there is none. No separator starts before the returned index. |
| Verses.SplitVerses | models/songs.go:84-86 | There is always at least one verse, and the empty text gives `[""]`. No verse contains `"\n\n"`. No verse but the last ends with a newline. A text without a separator is one verse, and a text with one gives at least two. |
| Verses.JoinSplitVerses | models/songs.go:84-86 | Joining the verses with `"\n\n"` gives back exactly the text, including leading and trailing separators (they become empty verses). |
| Verses.SplitJoinVerses | models/songs.go:84-86 | Splitting the join of a well-formed verse list gives back that list, so splitting and joining are inverse bijections. |
| Verses.VerseRange | models/songs.go:73-81 | The page is empty iff its start is at or past the verse count. Otherwise it is `verses[start .. min(start + limit, len)]`, with at most `limit` verses (the clamp of `end`). |
| Verses.VersePage | models/songs.go:72-81 | For a page whose start and end fit in Go's int: at most `limit` verses. The page is empty iff its start `(page - 1) * limit` is at or past the verse count. Otherwise it is exactly `verses[start .. min(start + limit, len)]`, each verse at its own index. |
| Verses.FetchSongText | models/songs.go:71-81 | For a page that fits in Go's int: the page has at most `limit` verses. It is empty (no error) iff `(page - 1) * limit >= len(verses)`. Otherwise it is exactly the clamped slice of the text's verses. |
| Verses.SingleVersePage | handlers/songs.go:48-51 | With one verse per page (the handler's limit), page `p` in `1..len` is exactly `[verses[p-1]]`. |
| Verses.PagesThroughIsPrefix | models/songs.go:72-81 | Concatenating pages `1..n` gives the verses up to the end of page `n`, in order and clamped to the verse count. |
| Verses.ReadingEveryVerse | models/songs.go:72-81 | For any verse list, pages `1..len` of one verse each together are the whole list in order, and page `len + 1` is empty. |
| Verses.PastLastPage | models/songs.go:74-75 | With one verse per page, the page after the last verse fits and is empty. |
| Verses.ReadingEveryPageRestoresText | models/songs.go:71-86 | With one verse per page, pages `1..len` together are all verses in order. Their join is the stored text, and page `len + 1` is empty. This holds for any text shorter than Go's int range. |
| Verses.ThreeVersePages | models/songs.go:71-86 | For three well-formed verses joined by blank lines, page 2 is the second verse and page 4 is empty. |
| Verses.ExamplePages | models/songs.go:71-86 | For `"Verse one\n\nVerse two\n\nVerse three"`, page 2 is `["Verse two"]` and page 4 is `[]`. |
| SongQuery.FetchSongsQuery | models/songs.go:33-45 | The limit is bound as given. The offset is the 64-bit value of `(page - 1) * limit`: in Go's int range, congruent to the product modulo 2^64, and equal to it when the product fits. The SQL text starts with the fixed SELECT, continues with the filter clauses, and ends with `ORDER BY id LIMIT $1 OFFSET $2`. With no filters it is the fixed query alone. |
| SongQuery.FetchSongsQueryOffsetWraps | models/songs.go:33 | The largest int64 page with the handler's default limit of 10 (handlers/songs.go:25-26) gives offset -20. |
| SongQuery.FetchSongsQueryOffset | models/songs.go:33 | For `page >= 1` and `limit >= 1` whose offset fits in Go's int, the listing offset is the same non-negative page start that the verse pages use. |
| SongQuery.GroupFilterInQuery | models/songs.go:39-41 | The `group_name ILIKE '%` clause follows the fixed SELECT iff the group filter is non-empty. The filter then appears verbatim, followed by `%'`. |
| SongQuery.SongFilterInQuery | models/songs.go:42-44 | After the group clause, the `song_name ILIKE '%` clause follows iff the song filter is non-empty. The filter then appears verbatim, followed by `%'`. |
| SongQuery.FetchSongsQueryAmbiguous | models/songs.go:39-44 | Because filters are spliced unescaped, the group filter `a%' AND song_name ILIKE '%b` gives the same query as the filters `a` and `b`. |
| SongQuery.BoundFetchSongsQuery | models/songs.go:35-47 | Corrected query. `$1` is the limit and `$2` the 64-bit offset. After the fixed SELECT comes the group clause reading `$3` iff a group filter is given, with `$3` bound to that filter. Then comes the song clause reading the last placeholder iff a song filter is given, with that placeholder bound to the song filter. Then the fixed `ORDER BY`. No filter text is in the SQL. |
| SongQuery.BoundQueryKeepsPaging | models/songs.go:33-47 | The corrected query binds the same limit and offset as the spliced one. |
| SongQuery.BoundQueryTextIgnoresFilterContent | models/songs.go:39-44 | In the corrected query, the SQL text depends only on which filters are present, never on what they contain. |
| SongQuery.BoundQueryDeterminesFilters | models/songs.go:39-47 | In the corrected query, equal statements come from equal filter pairs. This is the property the spliced query lacks. |
| Songs.ConvertUtilsToModelsDetails | models/songs.go:23-29 | Release date, text and link are copied unchanged. |
| Songs.InsertedRow | models/songs.go:88-93 | The inserted row has the assigned id, the group and song names of the request, and the release date, text and link of the enrichment details. |
| Songs.InsertIgnoresRequestExtras | models/songs.go:93 | The request's own id, release date, text and link have no effect on the inserted row. |
| Songs.UpdatedRow | models/songs.go:96-102 | The updated row keeps its id and takes all five mutable fields from the request. The request's id is ignored. |
| Songs.UpdatedRowLastWins | models/songs.go:96-102 | Of two updates of a row, the second wins entirely. |
| Songs.Updated | models/songs.go:96-104 | Updating a present id replaces that row's mutable fields and nothing else. No row is added or removed, and an absent id changes nothing. |
| Songs.Deleted | models/songs.go:105-109 | Deleting removes only that id and leaves every other row unchanged. Nothing changes if the id is absent. |
| Songs.WritesKeepRowsKeyed | models/songs.go:96-109 | Update and delete keep every row stored under its own id. |
| Songs.UpdateIdempotent | models/songs.go:96-104 | Repeating an update changes nothing further. |
| Songs.DeleteIdempotent | models/songs.go:105-109 | Repeating a delete changes nothing further. |
| Songs.UpdateAfterDeleteIsNoOp | models/songs.go:96-109 | Updating a deleted id does not bring the row back. |
| Songs.SongTable.SaveSong | models/songs.go:88-95 | The composed row is added under the counter's id, which no existing row has. Other rows are unchanged, the counter advances, and the table invariant holds. |
| Songs.SongTable.UpdateSong | models/songs.go:96-104 | The new table is `Updated(old table, id, song)`, and the invariant holds. |
| Songs.SongTable.DeleteSong | models/songs.go:105-109 | The new table is `Deleted(old table, id)`, and the invariant holds. |
| Songs.SongTable.FetchSongText | models/songs.go:64-82 | `NotFound` when no row has the id, for any page and limit (the lookup comes first). Otherwise the requested page of verses of that row's stored text, for a page that fits. |

`Songs.SongLifecycle` is a client of the table. It saves a song, reads its
first verse, updates it, updates an absent id, deletes it, and finds its text
gone, even when asked for page 0. Each step relies only on the contracts above.

## Left out

- Verses.VersePage, Verses.FetchSongText: these require `PageFits(page, limit)`.
  That means `page >= 1`, `limit >= 1`, and `(page - 1) * limit + limit`
  within Go's int. This excludes two groups of pages. The first is pages
  `<= 0`, which come from a malformed `page` (`strconv.Atoi` gives 0) or a
  negative one. The second, for limits other than 1, is pages whose end
  overflows. Go's behaviour on those pages is not modelled. Depending on the
  wrapped values, the slice expression at models/songs.go:81 panics (a
  negative start, as in `Paging.WrappedPageStart`), or the page is empty
  (a start at or past the verse count, with only `end` wrapped), or the
  verses at a wrapped offset are served. With the text handler's `limit = 1`,
  only pages `<= 0` are excluded (`Paging.OneItemPagesFit`).
- Songs.SongTable.FetchSongText: requires `PageFits(page, limit)` only when a
  row with the id exists. The lookup comes first (models/songs.go:66-69), so
  an unknown id gives `Err(NotFound)` for every page and limit, including
  malformed ones. For an existing row, the same pages as above are excluded.
- Paging.PageStart, Paging.NextPageStart, Verses.PagesThroughIsPrefix: these
  compute on unbounded integers. They are used only for pages that fit, where
  the 64-bit values agree (`Paging.PageFitsNoWrap`).
- Verses.ReadingEveryPageRestoresText: requires the text to be at least two
  characters shorter than Go's int range, so that the page after the last
  verse fits.
- SongQuery.FetchSongsQuery: `page` and `limit` are not checked, as in the
  code. The offset is wrapped like Go's. How the database treats a negative
  offset or limit (it refuses them) is not modelled.
- The database's behaviour is not modelled: `ILIKE` matching, ordering,
  `LIMIT`/`OFFSET` execution, the `rows.Next()`/`Scan` loop that collects the
  listed songs, and the errors returned by `DB.Query`, `DB.QueryRow` and
  `DB.Exec`. The write methods always succeed.
- Songs.SongTable.SaveSong: id assignment by a counter stands for the serial
  id column. Ids skipped by failed inserts are not modelled.
- Song ids arrive as strings from the URL path and PostgreSQL converts them. The
  model takes integer ids, so a non-numeric id (a database error) is not
  modelled.
- The HTTP handlers and routing (`handlers/songs.go`, `handlers/routers.go`),
  `.env` loading and server start-up (`main.go`) are framework glue. The
  database initialisation file is not part of this model.
- The enrichment request (`utils/utils.go`): the HTTP GET, JSON decoding and
  logging are network I/O. The details reach the model as a value.
- Go's distinction between a nil and an empty slice (JSON `null` versus `[]`)
  is not modelled. Both are the empty sequence.
- Concurrent writes to the same row are left to the database and not modelled.
- Go strings are byte strings and the model uses `seq<char>`. Splitting on the
  ASCII newline pair gives the same verses either way.

## Findings

| source | as written | input that shows it | evidently intended | confidence | as-written member | corrected member |
|---|---|---|---|---|---|---|
| models/songs.go:39-44 | The group and song filters are written into the SQL text between `'%` and `%'` without escaping. | Group `a%' AND song_name ILIKE '%b` with an empty song filter gives the same query as group `a` and song `b`. A group such as `Guns N' Roses` ends the string literal early, so the query is malformed. | Filters passed as bound parameters, so that the SQL text never contains filter content and the statement determines the filters. | not executed; high | SongQuery.FetchSongsQueryAmbiguous (about SongQuery.FetchSongsQuery) | SongQuery.BoundFetchSongsQuery, proved by SongQuery.BoundQueryDeterminesFilters and SongQuery.BoundQueryTextIgnoresFilterContent |
