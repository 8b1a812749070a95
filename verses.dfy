/**
 * Verse splitting and verse paging of a song's lyrics (models/songs.go,
 * splitVerses and the page arithmetic of FetchSongText).
 *
 * The lyrics are cut on the blank-line separator "\n\n" with the semantics of
 * Go's strings.Split: the text is scanned from the left, each first occurrence
 * of the separator ends a verse, and the separator itself is dropped. A
 * leading or trailing separator therefore yields an empty verse, and a text
 * without a separator is one verse.
 */
module Verses {

  import opened Paging

  /** The verse separator: two consecutive newlines. */
  const Separator: string := "\n\n"

  /** The separator starts at index i of s. */
  predicate SeparatorAt(s: string, i: int) {
    0 <= i && i + 1 < |s| && s[i] == '\n' && s[i + 1] == '\n'
  }

  /** s contains the separator somewhere. */
  predicate HasSeparator(s: string) {
    exists i :: 0 <= i < |s| && SeparatorAt(s, i)
  }

  /** s is non-empty and its last character is a newline. */
  predicate EndsWithNewline(s: string) {
    |s| > 0 && s[|s| - 1] == '\n'
  }

  /**
   * The shape of every result of SplitVerses: at least one verse, no verse
   * holds the separator, and no verse but the last ends with a newline (had it
   * done so, the separator would have been found one character earlier).
   */
  predicate WellFormedVerses(verses: seq<string>) {
    && |verses| >= 1
    && (forall k :: 0 <= k < |verses| ==> !HasSeparator(verses[k]))
    && (forall k :: 0 <= k < |verses| - 1 ==> !EndsWithNewline(verses[k]))
  }

  /** Dropping the first character shifts every separator position down by one. */
  lemma SeparatorShift(s: string)
    requires |s| > 0
    ensures forall j :: 1 <= j ==> (SeparatorAt(s, j) <==> SeparatorAt(s[1..], j - 1))
  {
  }

  /**
   * Index of the first separator in s, or -1 when there is none (Go's
   * strings.Index(s, "\n\n")).
   */
  function IndexOfSeparator(s: string): (r: int)
    ensures r == -1 <==> !HasSeparator(s)
    ensures r != -1 ==> SeparatorAt(s, r)
    ensures forall j :: 0 <= j < r ==> !SeparatorAt(s, j)
    decreases |s|
  {
    if |s| < 2 then
      -1
    else if s[0] == '\n' && s[1] == '\n' then
      assert SeparatorAt(s, 0);
      0
    else
      var k := IndexOfSeparator(s[1..]);
      SeparatorShift(s);
      assert !SeparatorAt(s, 0);
      if k == -1 then
        assert !HasSeparator(s) by {
          forall i | 1 <= i < |s|
            ensures !SeparatorAt(s, i)
          {
            assert !SeparatorAt(s[1..], i - 1);
          }
        }
        -1
      else
        assert SeparatorAt(s, k + 1);
        k + 1
  }

  /**
   * splitVerses: the verses of a lyric text, in order. A text without a blank
   * line is a single verse (the empty text gives the single empty verse).
   */
  function SplitVerses(text: string): (verses: seq<string>)
    ensures WellFormedVerses(verses)
    ensures !HasSeparator(text) ==> verses == [text]
    ensures HasSeparator(text) ==> |verses| >= 2
    ensures |verses| <= |text| + 1
    decreases |text|
  {
    var i := IndexOfSeparator(text);
    if i == -1 then
      [text]
    else
      var verse := text[..i];
      assert !HasSeparator(verse) by {
        forall j | 0 <= j < |verse|
          ensures !SeparatorAt(verse, j)
        {
          assert !SeparatorAt(text, j);
        }
      }
      assert !EndsWithNewline(verse) by {
        if i > 0 {
          assert !SeparatorAt(text, i - 1);
        }
      }
      [verse] + SplitVerses(text[i + 2..])
  }

  /** Go's strings.Join(verses, "\n\n"). */
  function JoinVerses(verses: seq<string>): string {
    if |verses| == 0 then ""
    else if |verses| == 1 then verses[0]
    else verses[0] + Separator + JoinVerses(verses[1..])
  }

  lemma JoinCons(v: string, tail: seq<string>)
    requires |tail| >= 1
    ensures JoinVerses([v] + tail) == v + Separator + JoinVerses(tail)
  {
    assert ([v] + tail)[1..] == tail;
  }

  /** A separator found at index i cuts the text into its prefix, the separator and the rest. */
  lemma CutAtSeparator(text: string, i: int)
    requires SeparatorAt(text, i)
    ensures text == text[..i] + Separator + text[i + 2..]
  {
    assert text[i..i + 2] == Separator;
    assert text == text[..i] + text[i..i + 2] + text[i + 2..];
  }

  /** One step of SplitVerses: the first verse, then the verses of the rest. */
  lemma SplitVersesStep(text: string, i: int)
    requires i == IndexOfSeparator(text) && i != -1
    ensures 0 <= i && i + 2 <= |text|
    ensures SplitVerses(text) == [text[..i]] + SplitVerses(text[i + 2..])
    ensures text == text[..i] + Separator + text[i + 2..]
  {
    CutAtSeparator(text, i);
  }

  /** Joining the verses with the separator gives back exactly the stored text. */
  lemma {:induction false} JoinSplitVerses(text: string)
    ensures JoinVerses(SplitVerses(text)) == text
    decreases |text|
  {
    var i := IndexOfSeparator(text);
    if i != -1 {
      SplitVersesStep(text, i);
      var rest := text[i + 2..];
      JoinSplitVerses(rest);
      JoinCons(text[..i], SplitVerses(rest));
    }
  }

  /**
   * Conversely, splitting the join of well-formed verses gives back the
   * verses: SplitVerses is a bijection between texts and well-formed verse
   * sequences, with JoinVerses as its inverse.
   */
  lemma {:induction false} SplitJoinVerses(verses: seq<string>)
    requires WellFormedVerses(verses)
    ensures SplitVerses(JoinVerses(verses)) == verses
    decreases |verses|
  {
    if |verses| > 1 {
      var v := verses[0];
      var rest := JoinVerses(verses[1..]);
      var text := v + Separator + rest;
      assert JoinVerses(verses) == text;
      assert SeparatorAt(text, |v|);
      forall j | 0 <= j < |v|
        ensures !SeparatorAt(text, j)
      {
        if j + 1 < |v| {
          assert !SeparatorAt(v, j);
          assert text[j] == v[j] && text[j + 1] == v[j + 1];
        } else {
          assert !EndsWithNewline(verses[0]);
          assert text[j] == v[j];
        }
      }
      var i := IndexOfSeparator(text);
      assert i == |v|;
      assert text[..i] == v;
      assert text[i + 2..] == rest;
      SplitJoinVerses(verses[1..]);
    }
  }

  function Min(a: int, b: int): int {
    if a <= b then a else b
  }

  /**
   * The verses from index `start` on, at most `limit` of them: empty when
   * `start` is past the last verse, cut at the last verse otherwise.
   */
  function VerseRange(verses: seq<string>, start: nat, limit: int): (r: seq<string>)
    requires limit >= 1
    ensures |r| <= limit
    ensures r == [] <==> start >= |verses|
    ensures start < |verses| ==> r == verses[start..Min(start + limit, |verses|)]
  {
    var end := start + limit;
    if start >= |verses| then
      []
    else if end > |verses| then
      verses[start..|verses|]
    else
      verses[start..end]
  }

  /**
   * The page arithmetic of FetchSongText: page `page` of `limit` verses each
   * starts at verse (page - 1) * limit; a page that starts past the last verse
   * is empty, and a page that runs past it is cut at the last verse. The page
   * must fit in Go's int (PageFits), so that start and end do not wrap.
   */
  function VersePage(verses: seq<string>, page: int, limit: int): (r: seq<string>)
    requires PageFits(page, limit)
    ensures |r| <= limit
    ensures r == [] <==> PageStart(page, limit) >= |verses|
    ensures PageStart(page, limit) < |verses| ==>
              r == verses[PageStart(page, limit)..Min(PageStart(page, limit) + limit, |verses|)]
    ensures forall k :: 0 <= k < |r| ==>
              PageStart(page, limit) + k < |verses| && r[k] == verses[PageStart(page, limit) + k]
  {
    VerseRange(verses, PageStart(page, limit), limit)
  }

  /**
   * FetchSongText once the stored text has been read: the requested page of
   * the text's verses. Every verse it returns is separator-free.
   */
  function FetchSongText(text: string, page: int, limit: int): (r: seq<string>)
    requires PageFits(page, limit)
    ensures |r| <= limit
    ensures var verses := SplitVerses(text);
      && (r == [] <==> PageStart(page, limit) >= |verses|)
      && (PageStart(page, limit) < |verses| ==>
            r == verses[PageStart(page, limit)..Min(PageStart(page, limit) + limit, |verses|)])
    ensures forall k :: 0 <= k < |r| ==> !HasSeparator(r[k])
  {
    VersePage(SplitVerses(text), page, limit)
  }

  /** With one verse per page, page p is exactly verse p. */
  lemma SingleVersePage(verses: seq<string>, p: int)
    requires 1 <= p <= |verses| && p <= Int64Max
    ensures VersePage(verses, p, 1) == [verses[p - 1]]
  {
    OneItemPagesFit(p);
  }

  /** The concatenation of pages 1 .. n. */
  function PagesThrough(verses: seq<string>, n: nat, limit: int): seq<string>
    requires limit >= 1 && (n == 0 || PageFits(n, limit))
  {
    if n == 0 then []
    else if n == 1 then VersePage(verses, 1, limit)
    else
      EarlierPageFits(n, limit);
      PagesThrough(verses, n - 1, limit) + VersePage(verses, n, limit)
  }

  /** The verses before `start`, followed by the range from `start`, are the verses before its end. */
  lemma PrefixThenRange(verses: seq<string>, start: nat, limit: int)
    requires limit >= 1
    ensures verses[..Min(start, |verses|)] + VerseRange(verses, start, limit)
         == verses[..Min(start + limit, |verses|)]
  {
    if start < |verses| {
      var end := Min(start + limit, |verses|);
      assert verses[..start] + verses[start..end] == verses[..end];
    }
  }

  /** Reading pages 1 .. n in order yields the verses up to the end of page n, in order. */
  lemma {:induction false} PagesThroughIsPrefix(verses: seq<string>, n: nat, limit: int)
    requires limit >= 1 && (n == 0 || PageFits(n, limit))
    ensures PagesThrough(verses, n, limit) == verses[..Min(PageStart(n + 1, limit), |verses|)]
  {
    if n == 1 {
      NextPageStart(1, limit);
      PrefixThenRange(verses, 0, limit);
    } else if n > 1 {
      EarlierPageFits(n, limit);
      PagesThroughIsPrefix(verses, n - 1, limit);
      NextPageStart(n, limit);
      PrefixThenRange(verses, PageStart(n, limit), limit);
    }
  }

  /**
   * Read one verse per page, pages 1 .. |verses| together are all the verses
   * in order, and the page after the last is empty.
   */
  lemma ReadingEveryVerse(verses: seq<string>)
    requires |verses| + 1 <= Int64Max
    ensures PagesThrough(verses, |verses|, 1) == verses
    ensures VersePage(verses, |verses| + 1, 1) == []
  {
    OneItemPagesFit(|verses| + 1);
    assert PageStart(|verses| + 1, 1) == |verses|;
    if |verses| > 0 {
      OneItemPagesFit(|verses|);
    }
    PagesThroughIsPrefix(verses, |verses|, 1);
    assert verses[..|verses|] == verses;
  }

  /**
   * The one-verse-per-page reading that GET /songs/{id}/text serves: pages
   * 1 .. |verses| together are all verses in order, their join is the stored
   * text, and the page after the last is empty.
   */
  lemma ReadingEveryPageRestoresText(text: string)
    requires |text| + 2 <= Int64Max
    ensures var verses := SplitVerses(text);
      && PagesThrough(verses, |verses|, 1) == verses
      && JoinVerses(PagesThrough(verses, |verses|, 1)) == text
      && FetchSongText(text, |verses| + 1, 1) == []
  {
    var verses := SplitVerses(text);
    ReadingEveryVerse(verses);
    PastLastPage(text);
    JoinSplitVerses(text);
  }

  /** With one verse per page, the page after the last verse is empty. */
  lemma PastLastPage(text: string)
    requires |SplitVerses(text)| + 1 <= Int64Max
    ensures PageFits(|SplitVerses(text)| + 1, 1)
    ensures FetchSongText(text, |SplitVerses(text)| + 1, 1) == []
  {
    var n := |SplitVerses(text)|;
    OneItemPagesFit(n + 1);
    assert PageStart(n + 1, 1) == n;
  }

  /**
   * Three well-formed verses joined by blank lines, read one verse per page:
   * page 2 is the second verse and page 4 is empty.
   */
  lemma ThreeVersePages(a: string, b: string, c: string)
    requires WellFormedVerses([a, b, c])
    ensures FetchSongText(a + Separator + b + Separator + c, 2, 1) == [b]
    ensures FetchSongText(a + Separator + b + Separator + c, 4, 1) == []
  {
    var verses := [a, b, c];
    assert JoinVerses(verses[2..]) == c;
    assert JoinVerses(verses[1..]) == b + Separator + c;
    assert JoinVerses(verses) == a + Separator + b + Separator + c;
    SplitJoinVerses(verses);
    assert PageStart(2, 1) == 1 && PageStart(4, 1) == 3;
    assert Min(1 + 1, |verses|) == 2;
    assert verses[1..2] == [b];
  }

  /** The worked example of the verse endpoint: page 2 is "Verse two", page 4 is empty. */
  lemma ExamplePages()
    ensures FetchSongText("Verse one\n\nVerse two\n\nVerse three", 2, 1) == ["Verse two"]
    ensures FetchSongText("Verse one\n\nVerse two\n\nVerse three", 4, 1) == []
  {
    var a, b, c := "Verse one", "Verse two", "Verse three";
    NoNewlineNoSeparator(a);
    NoNewlineNoSeparator(b);
    NoNewlineNoSeparator(c);
    assert a + Separator + b + Separator + c == "Verse one\n\nVerse two\n\nVerse three";
    ThreeVersePages(a, b, c);
  }

  /** A text without newlines holds no separator. */
  lemma NoNewlineNoSeparator(s: string)
    requires forall i :: 0 <= i < |s| ==> s[i] != '\n'
    ensures !HasSeparator(s)
  {
  }
}
