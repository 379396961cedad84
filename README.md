# SongsListServlet, modelled in Dafny

This project models the `/songs` servlet of WebAudioPlayer, a small Kotlin web
application that lists songs, lets clients add songs by form submission, answers
in the language the client asked for, and counts the client's visits in its session.

What is modelled:

- **Language resolution** (module `Language`). The `lang` query parameter wins
  whenever it is present, even when it is empty. Otherwise the value of the first
  cookie called `lang` is used. A request with no cookie array, or with no `lang`
  cookie, gets `"en"`. Every GET writes the resolved language back as a `lang` cookie.
- **Artist filter** (module `Songs`). A missing or blank `artist` parameter keeps
  every song. Otherwise only songs whose artist equals the parameter, character for
  character, are kept. "Blank" follows Kotlin's `isNullOrBlank` with the JVM's
  `Char.isWhitespace`, as on Java 9 and later. The rows are the kept songs in repository order, one row per song.
- **Visit tracker** (module `VisitTracker`). The session attributes `count` and
  `date` are shown as they were before the visit: `count` reads as 0 unless it holds
  an Int, and `date` reads as the current time unless it holds a String. After
  rendering, `count` becomes the shown count plus one and `date` the current time.
  The increment is Kotlin `Int` arithmetic, so it wraps from 2147483647 to -2147483648.
- **Song creation** (module `Servlets`, `DoPost`). `year` is parsed with Kotlin's
  `String.toInt()` (module `KotlinInt`). A missing or malformed year aborts the
  request before the repository is touched. Otherwise exactly one song is appended.
- **The servlet** (class `Servlets.SongsListServlet`). It owns the repository as a
  sequence of songs. `DoGet` updates a `Session` object and a `Response` object in
  place. `DoPost` appends to the repository. `RenderRows` is the loop that emits one
  row per kept song.

Inputs that the source takes from its environment are parameters here:

- The clock: a GET calls `getCurrentDate()` once or twice. The call that supplies
  the shown date runs only when `date` does not hold a String; the call that supplies
  the stored date always runs. `DoGet` takes the two readings, `nowAtRead` and
  `nowAtWrite`, as opaque strings, and uses `nowAtRead` only in the first case.
- The request: its parameters as a map from name to first value, and its cookie
  array as an option (the servlet API returns null when there are no cookies).
- The session: `Session.attributes`, where a value is a boxed Int, a String or any
  other object.

`models.Song` is not part of this model. The model takes it to be a record with
non-null String fields `title`, `album`, `artist`, `genre` and an Int `year`, so
the constructor refuses a missing text field. That refusal still comes before
`addSong`, so the repository stays unchanged. The year is parsed before the
constructor runs, so a bad year is the error reported when both are wrong.

## Model

| member | source | states |
|---|---|---|
| `Language.LangFromCookies` | src/main/kotlin/servlets/SongsListServlet.kt:101-102 | the definition of `getLangFromCookiesOrNull`: null for a null cookie array, else the first `lang` cookie's value; characterized by the `FirstValueNamed` and `ResolveLang` ensures |
| `Servlets.Parameter` | src/main/kotlin/servlets/SongsListServlet.kt:57-116 | the definition of `req.getParameter(name)`: the parameter's value, or null when the request has none; every parameter that `DoGet` and `SongFromForm` read goes through it |
| `Songs.IsWhitespace` | src/main/kotlin/servlets/SongsListServlet.kt:85 | the definition of the JVM's `Char.isWhitespace` that `isNullOrBlank` applies to each character |
| `Songs.IsNullOrBlank` | src/main/kotlin/servlets/SongsListServlet.kt:85 | the definition of `artist.isNullOrBlank()`: null, or whitespace only; characterized by `FilterBlankKeepsAll` |
| `Songs.Keeps` | src/main/kotlin/servlets/SongsListServlet.kt:85 | the definition of the `filter` lambda: a blank artist or an exact artist match; characterized by `FilterMember` and `FilterIsOrderedSelection` |
| `Songs.Filter` | src/main/kotlin/servlets/SongsListServlet.kt:84-85 | the definition of `getAllSongs().filter { ... }`; its own ensures bounds the row count by the repository size, and `FilterIsOrderedSelection`, `FilterCount`, `FilterMember` and `FilterBlankKeepsAll` characterize it |
| `KotlinInt.ParseInt` | src/main/kotlin/servlets/SongsListServlet.kt:114 | the definition of `String.toInt()`; characterized by `ParseIntToString`, `ParseIntRejectsNonDigit`, `ParseIntRejectsOutOfRange` and `ParseIntRejectsOutOfRangeSpelling` |
| `VisitTracker.ShownCount` | src/main/kotlin/servlets/SongsListServlet.kt:61 | the definition of `getAttribute("count") as? Int ?: 0`; characterized by `ConsecutiveVisits` and `FreshSessionVisits` |
| `VisitTracker.ShownDate` | src/main/kotlin/servlets/SongsListServlet.kt:62 | the definition of `getAttribute("date") as? String ?: getCurrentDate()`; characterized by `NextVisitShowsPreviousDate` |
| `VisitTracker.Visit` | src/main/kotlin/servlets/SongsListServlet.kt:61-96 | the definition of one visit's session update, `RecordVisit` applied to the shown count; characterized by `RecordVisit`'s ensures and `ConsecutiveVisits` |
| `Servlets.SongFromForm` | src/main/kotlin/servlets/SongsListServlet.kt:112-117 | the definition of the song a POST builds from its request parameters, with its errors; characterized by `SongFromFormAccepts`, `FormRoundTrip` and `NonNumericYearFails` |
| `Language.FirstValueNamed` | src/main/kotlin/servlets/SongsListServlet.kt:101-102 | the result is null iff no cookie has the name; otherwise it is the value of the first cookie with that name |
| `Language.ResolveLang` | src/main/kotlin/servlets/SongsListServlet.kt:57 | a present `lang` parameter is the language, even when empty; otherwise the first `lang` cookie's value; with no cookie array or no `lang` cookie, "en" |
| `Servlets.Session.SetAttribute` | src/main/kotlin/servlets/SongsListServlet.kt:95-96 | the named attribute takes the given value and every other attribute is kept |
| `Servlets.Response.AddCookie` | src/main/kotlin/servlets/SongsListServlet.kt:58 | the response's cookies gain exactly the given cookie, at the end |
| `Songs.FilterAppend` | src/main/kotlin/servlets/SongsListServlet.kt:84-85 | appending a song to the repository appends its row, and only if the filter keeps it |
| `Songs.FilterBlankKeepsAll` | src/main/kotlin/servlets/SongsListServlet.kt:85 | a null or blank artist keeps the whole repository, unchanged and in order |
| `Songs.FilterCount` | src/main/kotlin/servlets/SongsListServlet.kt:84-86 | every song appears among the rows as often as in the repository if kept, never otherwise: nothing is added or duplicated |
| `Songs.FilterMember` | src/main/kotlin/servlets/SongsListServlet.kt:84-85 | a song is rendered iff it is in the repository and it is kept, that is the artist is blank or equals the song's artist exactly |
| `Songs.FilterNoneKept` | src/main/kotlin/servlets/SongsListServlet.kt:84-85 | an artist that matches no song renders no rows |
| `Songs.ExtendSelection` | src/main/kotlin/servlets/SongsListServlet.kt:84-86 | one more repository song extends the kept positions by its own position exactly when it is kept |
| `Songs.FilterIsOrderedSelection` | src/main/kotlin/servlets/SongsListServlet.kt:84-86 | the rows are the songs at exactly the kept repository positions, in increasing order |
| `Songs.OnlyNewArtistListed` | src/main/kotlin/servlets/SongsListServlet.kt:84-85 | listing by the non-blank artist of a song just appended, when no earlier song has that artist, shows that song alone |
| `Servlets.SongsListServlet.RenderRows` | src/main/kotlin/servlets/SongsListServlet.kt:84-86 | the loop over the repository emits exactly the filtered rows |
| `VisitTracker.RecordVisit` | src/main/kotlin/servlets/SongsListServlet.kt:95-96 | after a visit `count` holds the Int shown count plus one and `date` holds the String current time, whatever they held before; every other attribute is kept |
| `VisitTracker.NextVisitShowsPreviousDate` | src/main/kotlin/servlets/SongsListServlet.kt:62-96 | the next visit shows the date that the previous visit stored, whatever the clock then reads |
| `VisitTracker.ConsecutiveVisits` | src/main/kotlin/servlets/SongsListServlet.kt:61-96 | from a session whose count reads c, visit k shows c + k and n visits leave c + n, while no addition passes Int.MAX_VALUE |
| `VisitTracker.FreshSessionVisits` | src/main/kotlin/servlets/SongsListServlet.kt:61-96 | n visits from a fresh session show 0, 1, ..., n - 1 and leave the stored count at n |
| `KotlinInt.Inc` | src/main/kotlin/servlets/SongsListServlet.kt:95 | `visitCount + 1` is the successor modulo 2^32 in two's complement, and the plain successor below Int.MAX_VALUE |
| `KotlinInt.ParseIntToString` | src/main/kotlin/servlets/SongsListServlet.kt:114 | `toInt()` reads back every Int from its decimal spelling |
| `KotlinInt.ParseIntRejectsNonDigit` | src/main/kotlin/servlets/SongsListServlet.kt:114 | `toInt()` fails on any character that is neither a digit nor a single leading sign |
| `KotlinInt.ParseIntRejectsOutOfRange` | src/main/kotlin/servlets/SongsListServlet.kt:114 | `toInt()` fails on a decimal number outside Int's range, with or without a sign and whatever its leading zeros |
| `KotlinInt.ParseIntRejectsOutOfRangeSpelling` | src/main/kotlin/servlets/SongsListServlet.kt:114 | `toInt()` fails on the shortest decimal spelling of any value outside Int's range, signed or not |
| `Servlets.SongFromFormAccepts` | src/main/kotlin/servlets/SongsListServlet.kt:110-118 | a POST succeeds exactly when the five fields are present and `year` parses as an Int; the song holds the submitted fields verbatim |
| `Servlets.FormRoundTrip` | src/main/kotlin/servlets/SongsListServlet.kt:112-117 | submitting the form of a song, its year written by `toString()`, creates exactly that song |
| `Servlets.NonNumericYearFails` | src/main/kotlin/servlets/SongsListServlet.kt:114 | a year containing a non-digit that is not a leading sign fails the POST with a number format error |
| `Servlets.ImagineIsCreated` | src/main/kotlin/servlets/SongsListServlet.kt:112-117 | the form for Imagine, Imagine, "1971", John Lennon, Rock creates that song with year 1971 |
| `Servlets.CreateThenListByArtist` | src/main/kotlin/servlets/SongsListServlet.kt:84-117 | a song created with a non-blank artist new to the repository is the only row when listing by that artist, with its fields as submitted |
| `Servlets.SongsListServlet.constructor` | src/main/kotlin/servlets/SongsListServlet.kt:23 | the servlet starts with the repository's initial songs |
| `Servlets.SongsListServlet.DoGet` | src/main/kotlin/servlets/SongsListServlet.kt:53-97 | the language is resolved and added as a `lang` cookie; the rows are the filtered repository; count and date are shown as stored before the visit; afterwards the session is the recorded visit and the repository is unchanged |
| `Servlets.SongsListServlet.DoPost` | src/main/kotlin/servlets/SongsListServlet.kt:110-118 | on success the repository gains exactly the created song at its end; on failure it is unchanged |
| `Servlets.CreateThenList` | src/main/kotlin/servlets/SongsListServlet.kt:53-118 | a POST followed by a GET filtered by the new song's artist shows just that song, or nothing if the POST failed |

## Left out

- The HTML text, its stylesheet and font links, and `Song.toHtml()`. A row is modelled as the song it renders. Song fields are not HTML-escaped in the source, and the model does not capture that.
- The localized strings. `ResourceBundle.getBundle` with its locale fallback and `String.format` of `visit_date` and `visit_count` are library calls. The page keeps the language, the date and the count they would be given.
- The date format `dd/M/yyyy hh:mm:ss`, `SimpleDateFormat`, `Date()` and the time zone. The clock readings are opaque strings. The pattern has no AM/PM marker, so afternoon times are ambiguous; the model does not see this.
- Servlet plumbing: `characterEncoding`, `contentType`, `res.writer.write`, `jspFlow` and its redirect, `doGet` choosing `defaultFlow`, and the `@WebServlet` routing.
- `SongsRepositoryImpl` is not part of this model. The repository is a sequence that `DoPost` appends to, and the constructor takes its initial songs.
- `KotlinInt.ParseInt`: java.lang.Integer.parseInt also accepts non-ASCII Unicode decimal digits, such as Arabic-Indic or full-width digits. The model accepts only ASCII digits.
- Concurrent requests. The source has no synchronisation, so simultaneous GETs from one session can lose a count increment. The model runs one request at a time.
- `Songs.IsWhitespace` follows the Unicode tables of Java 9 and later. On Java 8, U+180E MONGOLIAN VOWEL SEPARATOR also counts as blank; the model does not capture that.
- `Servlets.SongsListServlet.DoGet` assumes that `addCookie`, the resource bundle lookups and the writer all succeed. If one throws (a servlet container may refuse a cookie value holding a space, a quote, a comma, a semicolon, a backslash or a control character; a bundle may lack a key), the source abandons the GET after line 58 and the visit is not recorded; the model does not capture that.
- Cookie attributes other than name and value (path, age, domain), and a cookie whose value is null.
