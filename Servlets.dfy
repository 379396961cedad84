/**
 * The `/songs` servlet: GET renders the song list in the resolved language and
 * updates the session's visit tracker; POST appends one song to the repository.
 */
module Servlets {
  import opened Wrappers
  import opened KotlinInt
  import opened Songs
  import opened Language
  import opened VisitTracker

  /** What the handlers read from a request: the first value of each parameter, and the cookie array (null when absent). */
  datatype Request = Request(parameters: map<string, string>, cookies: Option<seq<Cookie>>)

  /** `req.getParameter(name)`. */
  function Parameter(req: Request, name: string): Option<string> {
    if name in req.parameters then Some(req.parameters[name]) else None
  }

  /**
   * The content of the listing page: its language, the artist shown in the heading,
   * one row per rendered song, and the visit date and count in the footer.
   */
  datatype Page = Page(lang: string, heading: string, rows: seq<Song>, visitDate: string, visitCount: Int32)

  /** The host-managed session of the client. */
  class Session {
    var attributes: Attributes

    /** A session the host has just created. */
    constructor ()
      ensures attributes == map[]
    {
      attributes := map[];
    }

    /** `session.setAttribute(name, value)`. */
    method SetAttribute(name: string, value: Attribute)
      modifies this
      ensures attributes == old(attributes)[name := value]
    {
      attributes := attributes[name := value];
    }
  }

  /** The cookies the response sets, in the order they were added. */
  class Response {
    var cookies: seq<Cookie>

    constructor ()
      ensures cookies == []
    {
      cookies := [];
    }

    /** `res.addCookie(cookie)`. */
    method AddCookie(cookie: Cookie)
      modifies this
      ensures cookies == old(cookies) + [cookie]
    {
      cookies := cookies + [cookie];
    }
  }

  /** Why a POST aborts before the song is added. */
  datatype PostError =
    | YearMissing            // `getParameter("year")` is null, so `toInt()` throws
    | YearNotAnInt(text: string)  // `toInt()` throws NumberFormatException
    | FieldMissing(name: string)  // a null text field is refused by the Song constructor

  /**
   * The song a POST builds from its request parameters: `year` is parsed first, then
   * the Song constructor receives the four text fields in the order title, album,
   * artist, genre.
   */
  function SongFromForm(req: Request): Result<Song, PostError> {
    match Parameter(req, "year")
    case None => Failure(YearMissing)
    case Some(text) =>
      match ParseInt(text)
      case None => Failure(YearNotAnInt(text))
      case Some(year) =>
        var title, album := Parameter(req, "title"), Parameter(req, "album");
        var artist, genre := Parameter(req, "artist"), Parameter(req, "genre");
        if title.None? then Failure(FieldMissing("title"))
        else if album.None? then Failure(FieldMissing("album"))
        else if artist.None? then Failure(FieldMissing("artist"))
        else if genre.None? then Failure(FieldMissing("genre"))
        else Success(Song(title.value, album.value, year, artist.value, genre.value))
  }

  /** The form a client submits for `song`, its year written out by `Int.toString()`. */
  function FormOf(song: Song): Request {
    Request(map["title" := song.title, "album" := song.album, "year" := IntToString(song.year),
                "artist" := song.artist, "genre" := song.genre],
            None)
  }

  /** Submitting the form of a song creates exactly that song. */
  lemma FormRoundTrip(song: Song)
    ensures SongFromForm(FormOf(song)) == Success(song)
  {
    ParseIntToString(song.year);
  }

  /** A POST whose `year` holds a character that is neither a digit nor a leading sign creates nothing. */
  lemma NonNumericYearFails(req: Request, k: nat)
    requires Parameter(req, "year").Some?
    requires k < |Parameter(req, "year").value| && !IsDigit(Parameter(req, "year").value[k])
    requires k == 0 ==> Parameter(req, "year").value[0] != '-' && Parameter(req, "year").value[0] != '+'
    ensures SongFromForm(req) == Failure(YearNotAnInt(Parameter(req, "year").value))
  {
    ParseIntRejectsNonDigit(Parameter(req, "year").value, k);
  }

  /**
   * A POST succeeds exactly when all five parameters are present and `year` is an Int
   * literal, and the song it creates holds the submitted fields verbatim.
   */
  lemma SongFromFormAccepts(req: Request)
    ensures SongFromForm(req).Success? <==>
              && Parameter(req, "year").Some? && ParseInt(Parameter(req, "year").value).Some?
              && Parameter(req, "title").Some? && Parameter(req, "album").Some?
              && Parameter(req, "artist").Some? && Parameter(req, "genre").Some?
    ensures SongFromForm(req).Success? ==>
              SongFromForm(req).value == Song(Parameter(req, "title").value, Parameter(req, "album").value,
                                              ParseInt(Parameter(req, "year").value).value,
                                              Parameter(req, "artist").value, Parameter(req, "genre").value)
  {
  }

  /**
   * Creating a song whose artist is not blank and new to the repository, then listing
   * with that artist, shows that one song, with the submitted fields, and nothing else.
   */
  lemma CreateThenListByArtist(songs: seq<Song>, post: Request, song: Song)
    requires SongFromForm(post) == Success(song)
    requires !IsNullOrBlank(Some(song.artist))
    requires forall i :: 0 <= i < |songs| ==> songs[i].artist != song.artist
    ensures Filter(songs + [song], Parameter(Request(map["artist" := song.artist], None), "artist")) == [song]
    ensures Parameter(post, "title") == Some(song.title) && Parameter(post, "album") == Some(song.album)
    ensures Parameter(post, "artist") == Some(song.artist) && Parameter(post, "genre") == Some(song.genre)
    ensures Parameter(post, "year").Some? && ParseInt(Parameter(post, "year").value) == Some(song.year)
  {
    SongFromFormAccepts(post);
    OnlyNewArtistListed(songs, song);
  }

  /** Submitting Imagine (1971) by John Lennon creates that song, its year parsed from "1971". */
  lemma ImagineIsCreated()
    ensures SongFromForm(Request(map["title" := "Imagine", "album" := "Imagine", "year" := "1971",
                                     "artist" := "John Lennon", "genre" := "Rock"], None))
            == Success(Song("Imagine", "Imagine", 1971, "John Lennon", "Rock"))
  {
    var song := Song("Imagine", "Imagine", 1971, "John Lennon", "Rock");
    assert IntToString(1971) == "1971";
    FormRoundTrip(song);
    assert FormOf(song) == Request(map["title" := "Imagine", "album" := "Imagine", "year" := "1971",
                                       "artist" := "John Lennon", "genre" := "Rock"], None);
  }

  /** The servlet and the repository it owns. */
  class SongsListServlet {
    var repository: seq<Song>

    /** A servlet over a repository that starts out holding `songs`. */
    constructor (songs: seq<Song>)
      ensures repository == songs
    {
      repository := songs;
    }

    /** `getAllSongs().filter { ... }.forEach { append(it.toHtml()) }`: one row per kept song. */
    method RenderRows(artist: Option<string>) returns (rows: seq<Song>)
      ensures rows == Filter(repository, artist)
    {
      rows := [];
      var i := 0;
      while i < |repository|
        invariant 0 <= i <= |repository|
        invariant rows == Filter(repository[..i], artist)
      {
        var song := repository[i];
        assert repository[..i + 1] == repository[..i] + [song];
        FilterAppend(repository[..i], artist, song);
        if Keeps(artist, song) {
          rows := rows + [song];
        }
        i := i + 1;
      }
      assert repository[..i] == repository;
    }

    /**
     * GET: resolve the language and write it back as a cookie, render the rows and the
     * visit tracker's values as they were, then record the visit in the session.
     * `nowAtRead` and `nowAtWrite` are the two readings of the clock.
     */
    method DoGet(req: Request, session: Session, res: Response, nowAtRead: string, nowAtWrite: string)
      returns (page: Page)
      modifies session, res
      ensures page.lang == ResolveLang(Parameter(req, LangName), req.cookies)
      ensures res.cookies == old(res.cookies) + [Cookie(LangName, page.lang)]
      ensures page.heading == Parameter(req, "artist").GetOr("")
      ensures page.rows == Filter(repository, Parameter(req, "artist"))
      ensures page.visitCount == ShownCount(old(session.attributes))
      ensures page.visitDate == ShownDate(old(session.attributes), nowAtRead)
      ensures session.attributes == Visit(old(session.attributes), nowAtWrite)
      ensures unchanged(this)
    {
      var lang := ResolveLang(Parameter(req, LangName), req.cookies);
      res.AddCookie(Cookie(LangName, lang));

      var artist := Parameter(req, "artist");
      var visitCount := ShownCount(session.attributes);
      var visitDate := ShownDate(session.attributes, nowAtRead);

      var rows := RenderRows(artist);
      page := Page(lang, artist.GetOr(""), rows, visitDate, visitCount);

      session.SetAttribute(CountKey, IntAttr(Inc(visitCount)));
      session.SetAttribute(DateKey, StringAttr(nowAtWrite));
    }

    /** POST: build the song from the form and append it; a failure leaves the repository as it was. */
    method DoPost(req: Request) returns (outcome: Result<Song, PostError>)
      modifies this
      ensures outcome == SongFromForm(req)
      ensures repository == if outcome.Success? then old(repository) + [outcome.value] else old(repository)
    {
      outcome := SongFromForm(req);
      if outcome.Success? {
        repository := repository + [outcome.value];
      }
    }
  }

  /**
   * A client: POST a song whose artist is new to the repository, then GET the list
   * filtered by that artist; the page shows exactly the created song.
   */
  method CreateThenList(servlet: SongsListServlet, session: Session, res: Response,
                        post: Request, nowAtRead: string, nowAtWrite: string)
    returns (page: Page)
    requires Parameter(post, "artist").Some? && !IsNullOrBlank(Parameter(post, "artist"))
    requires forall i :: 0 <= i < |servlet.repository| ==> servlet.repository[i].artist != Parameter(post, "artist").value
    modifies servlet, session, res
    ensures SongFromForm(post).Success? ==> page.rows == [SongFromForm(post).value]
    ensures SongFromForm(post).Failure? ==> page.rows == []
  {
    var artist := Parameter(post, "artist");
    var outcome := servlet.DoPost(post);
    var req := Request(map["artist" := artist.value], None);
    page := servlet.DoGet(req, session, res, nowAtRead, nowAtWrite);
    assert Parameter(req, "artist") == artist;
    if outcome.Success? {
      SongFromFormAccepts(post);
      CreateThenListByArtist(old(servlet.repository), post, outcome.value);
    } else {
      if Filter(servlet.repository, artist) != [] {
        FilterMember(servlet.repository, artist, Filter(servlet.repository, artist)[0]);
      }
    }
  }
}
