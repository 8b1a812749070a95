/**
 * The SQL text and the bound arguments of the song listing (models/songs.go,
 * FetchSongs up to the call of DB.Query).
 *
 * The query grows by appending: a fixed SELECT over the songs table, then a
 * `group_name ILIKE` clause when a group filter is given, then a
 * `song_name ILIKE` clause when a song filter is given, then a fixed
 * `ORDER BY id LIMIT $1 OFFSET $2`. The filter strings are written into the
 * SQL text between `'%` and `%'` as they are; only the limit and the offset
 * are bound as arguments.
 */
module SongQuery {

  import opened Paging

  /** The fixed start of the listing query, whitespace included. */
  const SelectBase: string := "\n\t\tSELECT id, group_name, song_name, release_date, text, link \n\t\tFROM songs WHERE 1=1\n\t"

  /** The fixed end of the listing query: $1 is the limit, $2 the offset. */
  const OrderSuffix: string := " ORDER BY id LIMIT $1 OFFSET $2"

  /** What precedes the group filter in its clause. */
  const GroupClauseHead: string := " AND group_name ILIKE '%"

  /** What precedes the song filter in its clause. */
  const SongClauseHead: string := " AND song_name ILIKE '%"

  /** What follows a filter in its clause. */
  const ClauseTail: string := "%'"

  /** The query text handed to the database and the values bound to $1 and $2. */
  datatype ListQuery = ListQuery(sql: string, limit: int, offset: int)

  /** t starts with p. */
  predicate StartsWith(t: string, p: string) {
    |p| <= |t| && t[..|p|] == p
  }

  /** t ends with p. */
  predicate EndsWith(t: string, p: string) {
    |p| <= |t| && t[|t| - |p|..] == p
  }

  /** What a concatenation starts and ends with, and what is left after its first part. */
  lemma Concat(a: string, b: string)
    ensures StartsWith(a + b, a) && EndsWith(a + b, b)
    ensures (a + b)[|a|..] == b
  {
    assert (a + b)[..|a|] == a;
  }

  /** Concatenation is associative. */
  lemma Assoc(a: string, b: string, c: string)
    ensures a + b + c == a + (b + c)
  {
  }

  /** Cutting a + (b + c) + d after a, and after a + b. */
  lemma Cut(a: string, b: string, c: string, d: string)
    ensures (a + (b + c) + d)[|a|..][..|b|] == b
    ensures StartsWith(a + (b + c) + d, a)
    ensures StartsWith((a + (b + c) + d)[|a|..][|b|..], c)
  {
    assert a + (b + c) + d == a + (b + (c + d));
    Concat(a, b + (c + d));
    Concat(b, c + d);
    Concat(c, d);
  }

  /** The group clause: present only for a non-empty group filter. */
  function GroupClause(group: string): string {
    if group != "" then GroupClauseHead + (group + ClauseTail) else ""
  }

  /** The song clause: present only for a non-empty song filter. */
  function SongClause(song: string): string {
    if song != "" then SongClauseHead + (song + ClauseTail) else ""
  }

  /** The filter clauses, in the order they are appended: group first, then song. */
  function Filters(group: string, song: string): string {
    GroupClause(group) + SongClause(song)
  }

  /**
   * FetchSongs' query: the SQL text, the limit bound to $1 and the offset
   * (page - 1) * limit bound to $2, computed in Go's 64-bit int and so
   * wrapped into its range. The text is appended piece by piece (fixed
   * start, filter clauses, fixed end); it is written here grouped as
   * start + (filters + end), the same string. Without filters it is the
   * fixed query alone. Nothing is checked about page and limit here: they go
   * to the database as they are.
   */
  function FetchSongsQuery(group: string, song: string, page: int, limit: int): (q: ListQuery)
    ensures q.limit == limit
    ensures InInt64(q.offset) && (q.offset - (page - 1) * limit) % TwoTo64 == 0
    ensures InInt64((page - 1) * limit) ==> q.offset == (page - 1) * limit
    ensures StartsWith(q.sql, SelectBase) && EndsWith(q.sql, OrderSuffix)
    ensures q.sql[|SelectBase|..] == Filters(group, song) + OrderSuffix
    ensures group == "" && song == "" ==> q.sql == SelectBase + OrderSuffix
  {
    var rest := Filters(group, song) + OrderSuffix;
    Concat(SelectBase, rest);
    Concat(Filters(group, song), OrderSuffix);
    assert group == "" && song == "" ==> rest == OrderSuffix;
    ListQuery(SelectBase + rest, limit, ListingOffset(page, limit))
  }

  /**
   * For a positive page and limit whose product does not overflow Go's int,
   * the offset is the paging offset, the number of songs on earlier pages.
   */
  lemma FetchSongsQueryOffset(group: string, song: string, page: int, limit: int)
    requires page >= 1 && limit >= 1 && PageStart(page, limit) <= Int64Max
    ensures FetchSongsQuery(group, song, page, limit).offset == PageStart(page, limit) >= 0
  {
    assert InInt64(PageStart(page, limit));
  }

  /**
   * A page number past the overflow point wraps the offset around: the
   * largest int64 page with the handler's default limit of 10 gives offset
   * -20, which the database refuses.
   */
  lemma FetchSongsQueryOffsetWraps(group: string, song: string)
    ensures FetchSongsQuery(group, song, Int64Max, 10).offset == -20
  {
    assert (Int64Max - 1) * 10 == 5 * TwoTo64 - 20;
  }

  /** A text whose i-th character differs from that of p does not start with p. */
  lemma DiffersAt(t: string, p: string, i: int)
    requires 0 <= i < |t| && i < |p| && t[i] != p[i]
    ensures !StartsWith(t, p)
  {
    if |p| <= |t| {
      assert t[..|p|][i] == t[i];
    }
  }

  /** Neither the song clause nor the fixed end starts like the group clause. */
  lemma NoGroupClauseWithoutGroup(song: string)
    ensures !StartsWith(SongClause(song) + OrderSuffix, GroupClauseHead)
  {
    var t := SongClause(song) + OrderSuffix;
    if song != "" {
      assert t[5] == SongClauseHead[5];
      DiffersAt(t, GroupClauseHead, 5);
    } else {
      assert t[1] == OrderSuffix[1];
      DiffersAt(t, GroupClauseHead, 1);
    }
  }

  /** The fixed end does not start like the song clause. */
  lemma NoSongClauseWithoutSong()
    ensures !StartsWith(SongClause("") + OrderSuffix, SongClauseHead)
  {
    assert (SongClause("") + OrderSuffix)[1] == OrderSuffix[1];
    DiffersAt(SongClause("") + OrderSuffix, SongClauseHead, 1);
  }

  /**
   * The group clause sits right after the fixed start exactly when the group
   * filter is non-empty, and the group filter then appears in the SQL text
   * verbatim between `'%` and `%'`.
   */
  lemma GroupFilterInQuery(group: string, song: string, page: int, limit: int)
    ensures var rest := FetchSongsQuery(group, song, page, limit).sql[|SelectBase|..];
      StartsWith(rest, GroupClauseHead) <==> group != ""
    ensures var rest := FetchSongsQuery(group, song, page, limit).sql[|SelectBase|..];
      group != "" ==>
        && rest[|GroupClauseHead|..][..|group|] == group
        && StartsWith(rest[|GroupClauseHead|..][|group|..], ClauseTail)
  {
    var rest := FetchSongsQuery(group, song, page, limit).sql[|SelectBase|..];
    assert rest == GroupClause(group) + SongClause(song) + OrderSuffix;
    Assoc(GroupClause(group), SongClause(song), OrderSuffix);
    if group != "" {
      Cut(GroupClauseHead, group, ClauseTail, SongClause(song) + OrderSuffix);
    } else {
      assert rest == SongClause(song) + OrderSuffix;
      NoGroupClauseWithoutGroup(song);
    }
  }

  /**
   * After the fixed start and the group clause, the song clause follows
   * exactly when the song filter is non-empty, and the song filter then
   * appears in the SQL text verbatim between `'%` and `%'`.
   */
  lemma SongFilterInQuery(group: string, song: string, page: int, limit: int)
    ensures var rest := FetchSongsQuery(group, song, page, limit).sql[|SelectBase|..][|GroupClause(group)|..];
      StartsWith(rest, SongClauseHead) <==> song != ""
    ensures var rest := FetchSongsQuery(group, song, page, limit).sql[|SelectBase|..][|GroupClause(group)|..];
      song != "" ==>
        && rest[|SongClauseHead|..][..|song|] == song
        && StartsWith(rest[|SongClauseHead|..][|song|..], ClauseTail)
  {
    var afterBase := FetchSongsQuery(group, song, page, limit).sql[|SelectBase|..];
    assert afterBase == GroupClause(group) + SongClause(song) + OrderSuffix;
    Assoc(GroupClause(group), SongClause(song), OrderSuffix);
    Concat(GroupClause(group), SongClause(song) + OrderSuffix);
    var rest := afterBase[|GroupClause(group)|..];
    assert rest == SongClause(song) + OrderSuffix;
    if song != "" {
      Cut(SongClauseHead, song, ClauseTail, OrderSuffix);
    } else {
      NoSongClauseWithoutSong();
    }
  }

  /**
   * Because the filters are spliced into the SQL text unescaped, the text
   * does not determine the filters: a group filter that closes its own
   * string literal produces exactly the query of a different pair of filters.
   */
  lemma FetchSongsQueryAmbiguous(page: int, limit: int)
    ensures FetchSongsQuery("a%' AND song_name ILIKE '%b", "", page, limit)
         == FetchSongsQuery("a", "b", page, limit)
  {
    var group := "a%' AND song_name ILIKE '%b";
    assert group == "a" + (ClauseTail + (SongClauseHead + "b"));
    Regroup(GroupClauseHead, "a", ClauseTail, SongClauseHead, "b");
  }

  /** The two ways the spliced text of FetchSongsQueryAmbiguous is put together are one string. */
  lemma Regroup(head: string, a: string, tail: string, songHead: string, b: string)
    ensures head + ((a + (tail + (songHead + b))) + tail) + ""
         == head + (a + tail) + (songHead + (b + tail))
  {
  }

  /** A value bound to a placeholder of a parameterised statement. */
  datatype SqlArg = IntArg(n: int) | TextArg(s: string)

  /** A parameterised statement: SQL text with placeholders $1, $2, ... and their values. */
  datatype BoundQuery = BoundQuery(sql: string, args: seq<SqlArg>)

  /** The placeholder $n for a one-digit position n. */
  function Placeholder(n: int): (p: string)
    requires 1 <= n <= 9
    ensures |p| == 2 && p[0] == '$'
  {
    ['$', ('0' as int + n) as char]
  }

  /** A filter clause whose pattern is built by the database from placeholder $n. */
  function BoundClause(column: string, n: int): string
    requires 1 <= n <= 9
  {
    " AND " + column + " ILIKE '%' || " + Placeholder(n) + " || '%'"
  }

  /**
   * The listing query with the filters bound as arguments instead of spliced
   * into the text: the same clauses in the same order, each filter passed as
   * the next placeholder after $1 (limit) and $2 (offset).
   */
  function BoundFetchSongsQuery(group: string, song: string, page: int, limit: int): (q: BoundQuery)
    ensures 2 <= |q.args| <= 4
    ensures q.args[0] == IntArg(limit)
    ensures q.args[1] == IntArg(ListingOffset(page, limit))
    ensures q.args[2..] == (if group != "" then [TextArg(group)] else [])
                         + (if song != "" then [TextArg(song)] else [])
    ensures StartsWith(q.sql, SelectBase) && EndsWith(q.sql, OrderSuffix)
    // Between the fixed start and end: the group clause, reading placeholder
    // $3, exactly when a group filter is given, then the song clause, reading
    // the last placeholder, exactly when a song filter is given.
    ensures q.sql[|SelectBase|..]
         == (if group != "" then BoundClause("group_name", 3) else "")
          + (if song != "" then BoundClause("song_name", |q.args|) else "")
          + OrderSuffix
    ensures group != "" ==> q.args[3 - 1] == TextArg(group)
    ensures song != "" ==> q.args[|q.args| - 1] == TextArg(song)
  {
    var args := BoundArgs(group, song, page, limit);
    BoundQuery(BoundSql(group, song, |args|), args)
  }

  /** The values of the corrected query: limit, offset, then each given filter. */
  function BoundArgs(group: string, song: string, page: int, limit: int): (args: seq<SqlArg>)
    ensures 2 <= |args| <= 4
    ensures args[0] == IntArg(limit)
    ensures args[1] == IntArg(ListingOffset(page, limit))
    ensures args[2..] == (if group != "" then [TextArg(group)] else [])
                       + (if song != "" then [TextArg(song)] else [])
    ensures group != "" ==> args[2] == TextArg(group)
    ensures song != "" ==> args[|args| - 1] == TextArg(song)
  {
    var groupArgs := if group != "" then [TextArg(group)] else [];
    var songArgs := if song != "" then [TextArg(song)] else [];
    var args := [IntArg(limit), IntArg(ListingOffset(page, limit))] + (groupArgs + songArgs);
    assert |args| == 2 + |groupArgs| + |songArgs| && args[2..] == groupArgs + songArgs;
    args
  }

  /** The text of the corrected query, the song clause reading placeholder $songSlot. */
  function BoundSql(group: string, song: string, songSlot: int): (sql: string)
    requires 1 <= songSlot <= 9
    ensures StartsWith(sql, SelectBase) && EndsWith(sql, OrderSuffix)
    ensures sql[|SelectBase|..]
         == (if group != "" then BoundClause("group_name", 3) else "")
          + (if song != "" then BoundClause("song_name", songSlot) else "")
          + OrderSuffix
  {
    var groupSql := if group != "" then BoundClause("group_name", 3) else "";
    var songSql := if song != "" then BoundClause("song_name", songSlot) else "";
    var rest := groupSql + songSql + OrderSuffix;
    Concat(SelectBase, rest);
    Concat(groupSql + songSql, OrderSuffix);
    SelectBase + rest
  }

  /** The corrected query binds the same limit and offset as the spliced one. */
  lemma BoundQueryKeepsPaging(group: string, song: string, page: int, limit: int)
    ensures var q := FetchSongsQuery(group, song, page, limit);
      BoundFetchSongsQuery(group, song, page, limit).args[..2] == [IntArg(q.limit), IntArg(q.offset)]
  {
  }

  /**
   * With bound filters the SQL text depends only on which filters are
   * present, never on what they contain.
   */
  lemma BoundQueryTextIgnoresFilterContent(g1: string, s1: string, g2: string, s2: string, page: int, limit: int)
    requires (g1 == "") == (g2 == "") && (s1 == "") == (s2 == "")
    ensures BoundFetchSongsQuery(g1, s1, page, limit).sql == BoundFetchSongsQuery(g2, s2, page, limit).sql
  {
  }

  /** The length of the bound query's text tells which filters are present. */
  lemma BoundQueryLength(group: string, song: string, page: int, limit: int)
    ensures |BoundFetchSongsQuery(group, song, page, limit).sql|
         == |SelectBase| + |OrderSuffix| + (if group != "" then 38 else 0) + (if song != "" then 37 else 0)
  {
    assert |BoundClause("group_name", 3)| == 38;
    assert |BoundClause("song_name", 3)| == 37 && |BoundClause("song_name", 4)| == 37;
  }

  /**
   * With bound filters the statement determines the filters: two filter pairs
   * that yield the same statement are the same pair (the property the
   * spliced query of FetchSongsQueryAmbiguous lacks).
   */
  lemma BoundQueryDeterminesFilters(g1: string, s1: string, g2: string, s2: string, page: int, limit: int)
    requires BoundFetchSongsQuery(g1, s1, page, limit) == BoundFetchSongsQuery(g2, s2, page, limit)
    ensures g1 == g2 && s1 == s2
  {
    var q1 := BoundFetchSongsQuery(g1, s1, page, limit);
    var q2 := BoundFetchSongsQuery(g2, s2, page, limit);
    BoundQueryLength(g1, s1, page, limit);
    BoundQueryLength(g2, s2, page, limit);
    assert (g1 == "") == (g2 == "") && (s1 == "") == (s2 == "");
    if g1 != "" {
      assert q1.args[2] == TextArg(g1) && q2.args[2] == TextArg(g2);
    }
    if s1 != "" {
      var k := if g1 != "" then 3 else 2;
      assert q1.args[k] == TextArg(s1) && q2.args[k] == TextArg(s2);
    }
  }
}
