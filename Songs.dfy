/**
 * The song record and the artist filter that the listing page applies to the
 * repository's songs before it renders one table row per kept song.
 */
module Songs {
  import opened Wrappers
  import opened KotlinInt

  /** One song of the repository, as the creation handler builds it. */
  datatype Song = Song(title: string, album: string, year: Int32, artist: string, genre: string)

  /**
   * Kotlin `Char.isWhitespace()` on the JVM: Java's `Character.isWhitespace` or
   * `Character.isSpaceChar`, that is the controls U+0009..U+000D and U+001C..U+001F
   * and every space, line or paragraph separator (U+00A0 included), as the
   * Unicode tables of Java 9 and later classify them.
   */
  predicate IsWhitespace(c: char) {
    || ('\t' <= c <= '\r')
    || ('\U{1C}' <= c <= '\U{1F}')
    || c == ' ' || c == '\U{A0}' || c == '\U{1680}'
    || ('\U{2000}' <= c <= '\U{200A}')
    || c == '\U{2028}' || c == '\U{2029}' || c == '\U{202F}' || c == '\U{205F}' || c == '\U{3000}'
  }

  /** Kotlin `String?.isNullOrBlank()`: null, empty, or whitespace only. */
  predicate IsNullOrBlank(s: Option<string>) {
    s.None? || forall k :: 0 <= k < |s.value| ==> IsWhitespace(s.value[k])
  }

  /** The predicate given to `filter` on the listing page. */
  predicate Keeps(artist: Option<string>, song: Song) {
    IsNullOrBlank(artist) || artist == Some(song.artist)
  }

  /** `songs.filter { artist.isNullOrBlank() || artist == it.artist }`. */
  function Filter(songs: seq<Song>, artist: Option<string>): (rows: seq<Song>)
    ensures |rows| <= |songs|
  {
    if songs == [] then []
    else
      var last := songs[|songs| - 1];
      Filter(songs[..|songs| - 1], artist) + if Keeps(artist, last) then [last] else []
  }

  /** Appending a song to the repository appends its row, if kept, to the filtered rows. */
  lemma FilterAppend(songs: seq<Song>, artist: Option<string>, song: Song)
    ensures Filter(songs + [song], artist) == Filter(songs, artist) + if Keeps(artist, song) then [song] else []
  {
    assert (songs + [song])[..|songs|] == songs;
  }

  /** A blank or absent artist parameter keeps the whole repository, in order. */
  lemma {:induction false} FilterBlankKeepsAll(songs: seq<Song>, artist: Option<string>)
    requires IsNullOrBlank(artist)
    ensures Filter(songs, artist) == songs
  {
    if songs != [] {
      FilterBlankKeepsAll(songs[..|songs| - 1], artist);
    }
  }

  /**
   * Each song occurs among the rows exactly as often as in the repository when it
   * is kept, and not at all otherwise: nothing is added and nothing duplicated.
   */
  lemma {:induction false} FilterCount(songs: seq<Song>, artist: Option<string>, song: Song)
    ensures multiset(Filter(songs, artist))[song] == if Keeps(artist, song) then multiset(songs)[song] else 0
  {
    if songs != [] {
      var init, last := songs[..|songs| - 1], songs[|songs| - 1];
      assert songs == init + [last];
      FilterCount(init, artist, song);
    }
  }

  /** When the filter keeps no song of the repository, no row is rendered. */
  lemma {:induction false} FilterNoneKept(songs: seq<Song>, artist: Option<string>)
    requires forall i :: 0 <= i < |songs| ==> !Keeps(artist, songs[i])
    ensures Filter(songs, artist) == []
  {
    if songs != [] {
      FilterNoneKept(songs[..|songs| - 1], artist);
    }
  }

  /** Listing by the artist of a newly appended song, new to the repository, shows that song alone. */
  lemma OnlyNewArtistListed(songs: seq<Song>, song: Song)
    requires !IsNullOrBlank(Some(song.artist))
    requires forall i :: 0 <= i < |songs| ==> songs[i].artist != song.artist
    ensures Filter(songs + [song], Some(song.artist)) == [song]
  {
    var artist := Some(song.artist);
    assert forall i :: 0 <= i < |songs| ==> !Keeps(artist, songs[i]);
    FilterNoneKept(songs, artist);
    FilterAppend(songs, artist, song);
  }

  /** A song is rendered iff it is in the repository and the filter keeps it. */
  lemma FilterMember(songs: seq<Song>, artist: Option<string>, song: Song)
    ensures song in Filter(songs, artist) <==> song in songs && Keeps(artist, song)
  {
    FilterCount(songs, artist, song);
    assert song in Filter(songs, artist) <==> multiset(Filter(songs, artist))[song] > 0;
    assert song in songs <==> multiset(songs)[song] > 0;
  }

  /**
   * `pos` lists, in increasing order, exactly the repository positions whose song
   * the filter keeps, and `rows` holds the songs at those positions.
   */
  ghost predicate RowsAtKeptPositions(rows: seq<Song>, songs: seq<Song>, artist: Option<string>, pos: seq<int>) {
    && |pos| == |rows|
    && (forall k :: 0 <= k < |pos| ==> 0 <= pos[k] < |songs| && rows[k] == songs[pos[k]])
    && (forall k, l :: 0 <= k < l < |pos| ==> pos[k] < pos[l])
    && (forall j :: 0 <= j < |songs| ==> (Keeps(artist, songs[j]) <==> j in pos))
  }

  /** Extending the repository by one song extends a selection by that song's position, if kept. */
  lemma ExtendSelection(rows: seq<Song>, init: seq<Song>, artist: Option<string>, pos: seq<int>, last: Song)
    requires RowsAtKeptPositions(rows, init, artist, pos)
    ensures RowsAtKeptPositions(rows + (if Keeps(artist, last) then [last] else []), init + [last], artist,
                                pos + if Keeps(artist, last) then [|init|] else [])
  {
    var songs := init + [last];
    var rows' := rows + if Keeps(artist, last) then [last] else [];
    var pos' := pos + if Keeps(artist, last) then [|init|] else [];
    forall k | 0 <= k < |pos'|
      ensures 0 <= pos'[k] < |songs| && rows'[k] == songs[pos'[k]]
    {
      if k < |pos| {
        assert pos'[k] == pos[k] && rows'[k] == rows[k];
      }
    }
    forall j | 0 <= j < |songs|
      ensures Keeps(artist, songs[j]) <==> j in pos'
    {
      if j < |init| {
        assert songs[j] == init[j];
        assert j in pos' <==> j in pos;
      }
    }
  }

  /** The rows are the subsequence of the repository made of the kept songs, in repository order. */
  lemma {:induction false} FilterIsOrderedSelection(songs: seq<Song>, artist: Option<string>)
    ensures exists pos :: RowsAtKeptPositions(Filter(songs, artist), songs, artist, pos)
  {
    if songs == [] {
      var none: seq<int> := [];
      assert RowsAtKeptPositions(Filter(songs, artist), songs, artist, none);
    } else {
      var n := |songs| - 1;
      var init, last := songs[..n], songs[n];
      assert songs == init + [last];
      FilterIsOrderedSelection(init, artist);
      var pos :| RowsAtKeptPositions(Filter(init, artist), init, artist, pos);
      ExtendSelection(Filter(init, artist), init, artist, pos, last);
      var pos' := pos + if Keeps(artist, last) then [n] else [];
      assert RowsAtKeptPositions(Filter(songs, artist), songs, artist, pos');
    }
  }
}
