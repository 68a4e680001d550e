/** What the TMDB, Google Books and SerpAPI tool adapters have in common (each adapter file
    repeats these pieces in the source): the reply of a tool, the year argument of a search,
    genre ids to names, the release year, the rating, the poster and trailer links, the
    result limit, the parse-and-filter loop over a result list, and the genre-name lookup of
    the discover tools. An HTTP answer is an input of the model: a typed payload, or an
    oracle standing for the endpoint. */
module ToolCommon {
  import opened Wrappers
  import opened Text
  import opened JsonValue

  /** What a tool's `_run` returns: a message, or `f"{context}: {e}"` for an exception the
      tool catches, whose text the model does not reproduce. */
  datatype Reply = Message(text: string) | Failure(context: string)

  /** The outcome of one request of the Google Books and SerpAPI tools: a failed request (a
      connection error, an error status that `raise_for_status` turns into an exception, or a
      failing client), or the decoded body. */
  datatype Fetch<T> = RequestFailed | Fetched(body: T)

  const TmdbKeyMissing := "TMDB API key not configured. Please set TMDB_API_KEY in your environment variables."
  const ImageBase := "https://image.tmdb.org/t/p/w500"
  const YoutubeBase := "https://www.youtube.com/watch?v="
  /** The separator between formatted entries. The source escapes the backslash, so this is a
      backslash and `n`, three dashes, a backslash and `n` — not two line breaks. */
  const EntrySeparator := "\\n---\\n"
  /** The search, popular and discover tools look at the first five results only. */
  const ResultLimit: nat := 5

  /** `xs[:n]`. */
  function Limit<T>(xs: seq<T>, n: nat): (r: seq<T>)
    ensures |r| <= n && |r| <= |xs|
    ensures r == xs[..|r|]
    ensures |xs| <= n ==> r == xs
  {
    if |xs| <= n then xs else xs[..n]
  }

  /** `[f(x) for x in xs]`. */
  function Map<T, U>(f: T -> U, xs: seq<T>): (ys: seq<U>)
    ensures |ys| == |xs|
    ensures forall i :: 0 <= i < |xs| ==> ys[i] == f(xs[i])
  {
    seq(|xs|, i requires 0 <= i < |xs| => f(xs[i]))
  }

  /** The formatting loop of a tool: one text per entry, in order. */
  method FormatAll<T>(entries: seq<T>, render: T -> string) returns (texts: seq<string>)
    ensures texts == Map(render, entries)
  {
    texts := [];
    for i := 0 to |entries|
      invariant texts == Map(render, entries[..i])
    {
      texts := texts + [render(entries[i])];
    }
    assert entries[..|entries|] == entries;
  }

  // ---------------------------------------------------------------------------------------
  // Dict fields

  /** `d.get(k, default)` of a string field. */
  function TextOr(f: Field<string>, default: string): Value {
    match f
    case Absent => Str(default)
    case NoneValue => Null
    case Present(s) => Str(s)
  }

  /** `d.get(k, default)` of an integer field. */
  function IntOr(f: Field<int>, default: string): Value {
    match f
    case Absent => Str(default)
    case NoneValue => Null
    case Present(i) => Num(i as real)
  }

  /** `d.get(k)` of an integer field. */
  function IntValue(f: Field<int>): Value {
    match f
    case Present(i) => Num(i as real)
    case _ => Null
  }

  // ---------------------------------------------------------------------------------------
  // The year argument of the movie and TV searches

  /** The `year` argument, as the tools' input schema admits it. */
  datatype YearArg = NoYear | IntYear(i: int) | TextYear(s: string)

  /** `s.isdigit()` (ASCII digits). */
  predicate IsDigitString(s: string) {
    |s| > 0 && AllDigits(s)
  }

  /** `n if n else None`: a whole number is sent only when it is truthy. */
  function Truthful(n: int): Option<int> {
    if n != 0 then Some(n) else None
  }

  /** The year a search sends as its year parameter, `None` when it sends none. A text year
      `"none"` (in any case) or a blank one is dropped, a digit string is read as a number,
      any other text is read as the number its digits spell, or dropped when it has none
      (`int('')` raises and the source catches it); a zero year is never sent. */
  function SanitizedYear(year: YearArg): (sent: Option<int>)
    ensures sent.Some? ==> sent.value != 0
  {
    match year
    case NoYear => None
    case IntYear(i) => Truthful(i)
    case TextYear(s) =>
      if s == "" || Lower(s) == "none" || Strip(s) == "" then None
      else if IsDigitString(s) then Truthful(DigitsValue(s))
      else if DigitsOf(s) == "" then None
      else Truthful(DigitsValue(DigitsOf(s)))
  }

  /** The digit filter keeps every character of a digit string. */
  lemma {:induction false} DigitsOfDigits(s: string)
    requires AllDigits(s)
    ensures DigitsOf(s) == s
    decreases |s|
  {
    if |s| > 0 {
      assert AllDigits(s[1..]) by {
        forall i | 0 <= i < |s[1..]| ensures IsDigit(s[1..][i]) {
          assert s[1..][i] == s[i + 1];
        }
      }
      DigitsOfDigits(s[1..]);
    }
  }

  /** The digit filter leaves nothing of a string without digits. */
  lemma {:induction false} DigitsOfNone(s: string)
    requires forall i :: 0 <= i < |s| ==> !IsDigit(s[i])
    ensures DigitsOf(s) == ""
    decreases |s|
  {
    if |s| > 0 {
      assert !IsDigit(s[0]);
      assert forall i :: 0 <= i < |s[1..]| ==> !IsDigit(s[1..][i]) by {
        forall i | 0 <= i < |s[1..]| ensures !IsDigit(s[1..][i]) {
          assert s[1..][i] == s[i + 1];
        }
      }
      DigitsOfNone(s[1..]);
    }
  }

  /** Any text year other than "none" and blank is sent as the number its digits spell: the
      `isdigit` branch agrees with the filtering branch, and text without digits is dropped. */
  lemma TextYearIsItsDigits(s: string)
    requires Lower(s) != "none" && Strip(s) != ""
    ensures SanitizedYear(TextYear(s))
            == (if DigitsOf(s) == "" then None else Truthful(DigitsValue(DigitsOf(s))))
  {
    if IsDigitString(s) {
      DigitsOfDigits(s);
    }
  }

  /** "2010s" is sent as 2010 and "abc" is not sent. */
  lemma YearExamples()
    ensures SanitizedYear(TextYear("2010s")) == Some(2010)
    ensures SanitizedYear(TextYear("abc")) == None
  {
    YearWithSuffix();
    YearWithoutDigits();
  }

  lemma YearWithSuffix()
    ensures SanitizedYear(TextYear("2010s")) == Some(2010)
  {
    SuffixYearText();
    SuffixYearDigits();
    SuffixYearValue();
  }

  lemma SuffixYearText()
    ensures Lower("2010s") != "none" && Strip("2010s") == "2010s" && !IsDigitString("2010s")
  {
    assert Lower("2010s")[0] == '2';
    assert !IsDigit("2010s"[4]);
  }

  lemma SuffixYearDigits()
    ensures DigitsOf("2010s") == "2010"
  {
    assert DigitsOf("s") == "" by { assert "s"[1..] == ""; }
    assert DigitsOf("0s") == "0" by { assert "0s"[1..] == "s"; }
    assert DigitsOf("10s") == "10" by { assert "10s"[1..] == "0s"; }
    assert DigitsOf("010s") == "010" by { assert "010s"[1..] == "10s"; }
    assert "2010s"[1..] == "010s";
  }

  lemma SuffixYearValue()
    ensures DigitsValue("2010") == 2010
  {
    assert "2010"[..3] == "201";
    assert "201"[..2] == "20";
    assert "20"[..1] == "2";
    assert "2"[..0] == "";
  }

  lemma YearWithoutDigits()
    ensures SanitizedYear(TextYear("abc")) == None
  {
    assert Lower("abc") != "none" by { assert Lower("abc")[0] == 'a'; }
    assert Strip("abc") == "abc";
    DigitsOfNone("abc");
  }

  // ---------------------------------------------------------------------------------------
  // Genre ids to names

  /** The names `table` gives to the ids of `ids` it knows, in order: what the genre loop
      appends. */
  function KnownGenres(ids: seq<int>, table: map<int, string>): (names: seq<string>)
    ensures |names| <= |ids|
    ensures forall i :: 0 <= i < |names| ==> names[i] in table.Values
  {
    if |ids| == 0 then []
    else
      var names := KnownGenres(ids[..|ids| - 1], table);
      var last := ids[|ids| - 1];
      if last in table then names + [table[last]] else names
  }

  /** `', '.join(genre_names) if genre_names else 'Unknown'`. */
  function GenreLabel(names: seq<string>): string {
    if names == [] then "Unknown" else Join(names, ", ")
  }

  /** The genre loop over the first three ids of a TMDB entry. */
  method CollectGenres(ids: seq<int>, table: map<int, string>) returns (names: seq<string>)
    ensures names == KnownGenres(Limit(ids, 3), table)
  {
    var top := Limit(ids, 3);
    names := [];
    for i := 0 to |top|
      invariant names == KnownGenres(top[..i], table)
    {
      assert top[..i + 1][..i] == top[..i];
      if top[i] in table {
        names := names + [table[top[i]]];
      }
    }
    assert top[..|top|] == top;
  }

  /** No name comes out exactly when no id is known. */
  lemma {:induction false} KnownGenresEmpty(ids: seq<int>, table: map<int, string>)
    ensures KnownGenres(ids, table) == [] <==> forall i :: 0 <= i < |ids| ==> ids[i] !in table
    decreases |ids|
  {
    if |ids| > 0 {
      var init := ids[..|ids| - 1];
      KnownGenresEmpty(init, table);
      assert forall i :: 0 <= i < |init| ==> init[i] == ids[i];
    }
  }

  /** The names follow the order of the ids: the names of two runs of ids are the names of
      the first run followed by those of the second. */
  lemma {:induction false} KnownGenresAppend(xs: seq<int>, ys: seq<int>, table: map<int, string>)
    ensures KnownGenres(xs + ys, table) == KnownGenres(xs, table) + KnownGenres(ys, table)
    decreases |ys|
  {
    if |ys| == 0 {
      assert xs + ys == xs;
    } else {
      var init := ys[..|ys| - 1];
      assert (xs + ys)[..|xs + ys| - 1] == xs + init;
      assert (xs + ys)[|xs + ys| - 1] == ys[|ys| - 1];
      KnownGenresAppend(xs, init, table);
    }
  }

  // ---------------------------------------------------------------------------------------
  // Fields of a TMDB entry

  /** `str(d)[:4] if d else 'N/A'` for a date field. */
  function DateYear(date: Field<string>): (year: string)
    ensures date.Present? && date.value != "" ==> IsPrefix(year, date.value) && |year| == Min(4, |date.value|)
    ensures !(date.Present? && date.value != "") ==> year == "N/A"
  {
    match date
    case Present(d) => if d != "" then Take(d, 4) else "N/A"
    case _ => "N/A"
  }

  function Min(a: int, b: int): int {
    if a <= b then a else b
  }

  /** `round(v, 1) if v is not None else 'N/A'`: "N/A" exactly when the vote is missing or
      `None`, otherwise a number already rounded to one decimal. */
  function Rating(vote: Field<real>): (r: Value)
    ensures r == Str("N/A") <==> vote.AsOption().None?
    ensures r.Num? ==> Round1(r.n) == r.n
  {
    match vote
    case Present(v) =>
      Round1Idempotent(v);
      Num(Round1(v))
    case _ => Str("N/A")
  }

  /** `f"https://image.tmdb.org/t/p/w500{poster_path}" if poster_path else None`: a link
      exactly when the poster path is a non-empty string. */
  function PosterUrl(poster: Field<string>): (url: Option<string>)
    ensures url.Some? <==> poster.Present? && poster.value != ""
    ensures url.Some? ==> url.value == ImageBase + poster.value
  {
    match poster
    case Present(p) => if p != "" then Some(ImageBase + p) else None
    case _ => None
  }

  // ---------------------------------------------------------------------------------------
  // Trailers

  /** One entry of a TMDB `videos` list; `video.get(...)` reads a missing key and `None` alike. */
  datatype Video = Video(site: Option<string>, kind: Option<string>, key: Option<string>)

  predicate IsYoutubeTrailer(v: Video) {
    v.site == Some("YouTube") && v.kind == Some("Trailer")
  }

  /** `f"https://www.youtube.com/watch?v={video.get('key')}"`. */
  function WatchUrl(v: Video): string {
    YoutubeBase + (match v.key case Some(k) => k case None => "None")
  }

  /** The link of the first YouTube trailer of a videos list. */
  function FirstTrailer(videos: seq<Video>): Option<string> {
    if |videos| == 0 then None
    else if IsYoutubeTrailer(videos[0]) then Some(WatchUrl(videos[0]))
    else FirstTrailer(videos[1..])
  }

  /** The trailer loop of every tool: it returns at the first YouTube trailer. */
  method FindTrailer(videos: seq<Video>) returns (url: Option<string>)
    ensures url == FirstTrailer(videos)
  {
    assert videos[0..] == videos;
    for i := 0 to |videos|
      invariant FirstTrailer(videos[i..]) == FirstTrailer(videos)
    {
      assert videos[i..][1..] == videos[i + 1..];
      if IsYoutubeTrailer(videos[i]) {
        return Some(WatchUrl(videos[i]));
      }
    }
    return None;
  }

  /** There is a trailer link exactly when some video is a YouTube trailer, and the link is
      that of the first one. */
  lemma {:induction false} FirstTrailerIsFirst(videos: seq<Video>)
    ensures FirstTrailer(videos).None? <==> forall i :: 0 <= i < |videos| ==> !IsYoutubeTrailer(videos[i])
    ensures FirstTrailer(videos).Some? ==>
      exists i :: 0 <= i < |videos| && IsYoutubeTrailer(videos[i])
                  && FirstTrailer(videos) == Some(WatchUrl(videos[i]))
                  && forall j :: 0 <= j < i ==> !IsYoutubeTrailer(videos[j])
    decreases |videos|
  {
    if |videos| > 0 && !IsYoutubeTrailer(videos[0]) {
      var rest := videos[1..];
      FirstTrailerIsFirst(rest);
      assert forall i :: 0 <= i < |rest| ==> rest[i] == videos[i + 1];
      if FirstTrailer(rest).Some? {
        var i :| 0 <= i < |rest| && IsYoutubeTrailer(rest[i])
                 && FirstTrailer(rest) == Some(WatchUrl(rest[i]))
                 && forall j :: 0 <= j < i ==> !IsYoutubeTrailer(rest[j]);
        assert IsYoutubeTrailer(videos[i + 1]);
        assert forall j :: 0 <= j < i + 1 ==> !IsYoutubeTrailer(videos[j]) by {
          forall j | 0 <= j < i + 1 ensures !IsYoutubeTrailer(videos[j]) {
            if j > 0 { assert videos[j] == rest[j - 1]; }
          }
        }
      } else {
        assert forall i :: 0 <= i < |videos| ==> !IsYoutubeTrailer(videos[i]) by {
          forall i | 0 <= i < |videos| ensures !IsYoutubeTrailer(videos[i]) {
            if i > 0 { assert videos[i] == rest[i - 1]; }
          }
        }
      }
    }
  }

  /** The TMDB side of a tool: whether a key is configured, and the `videos` endpoint: the
      list it answers for an id, `None` for an answer other than 200 or a failed request (the
      flag says whether the request carries the key). */
  datatype Tmdb = Tmdb(hasKey: bool, videos: (Value, bool) -> Option<seq<Video>>)

  function AnswerTrailer(answer: Option<seq<Video>>): Option<string> {
    match answer
    case Some(vs) => FirstTrailer(vs)
    case None => None
  }

  /** `_get_trailer_url` of the movie search, popular movies and TV search tools: a falsy or
      "N/A" id, or a missing key, gives no link and no request. */
  function GuardedTrailer(id: Value, tmdb: Tmdb): (url: Option<string>)
    ensures !Truthy(id) || id == Str("N/A") || !tmdb.hasKey ==> url.None?
  {
    if !Truthy(id) || id == Str("N/A") || !tmdb.hasKey then None
    else AnswerTrailer(tmdb.videos(id, true))
  }

  /** `_get_trailer_url` of the discover tools and of popular TV: only a falsy id is refused;
      without a key the request goes out without one. */
  function LooseTrailer(id: Value, tmdb: Tmdb): (url: Option<string>)
    ensures !Truthy(id) ==> url.None?
  {
    if !Truthy(id) then None else AnswerTrailer(tmdb.videos(id, tmdb.hasKey))
  }

  /** A link from the guarded helper is the watch link of the first YouTube trailer the
      endpoint lists for that id. */
  lemma GuardedTrailerFromEndpoint(id: Value, tmdb: Tmdb)
    ensures GuardedTrailer(id, tmdb).Some? ==>
      Truthy(id) && id != Str("N/A") && tmdb.hasKey && tmdb.videos(id, true).Some?
      && exists i :: 0 <= i < |tmdb.videos(id, true).value|
                     && IsYoutubeTrailer(tmdb.videos(id, true).value[i])
                     && GuardedTrailer(id, tmdb) == Some(WatchUrl(tmdb.videos(id, true).value[i]))
  {
    if GuardedTrailer(id, tmdb).Some? {
      FirstTrailerIsFirst(tmdb.videos(id, true).value);
    }
  }

  // ---------------------------------------------------------------------------------------
  // TMDB entries

  /** One entry of a TMDB result list, as `dict.get` sees its fields. For a TV show `title` is
      the payload's `name` and `date` its `first_air_date`; for a movie they are `title` and
      `release_date`. */
  datatype TmdbItem = TmdbItem(
    id: Field<int>,
    title: Field<string>,
    date: Field<string>,
    voteAverage: Field<real>,
    genreIds: Field<seq<int>>,
    overview: Field<string>,
    posterPath: Field<string>)

  /** The record a details helper builds; `id` is `None` for the helpers that build no `id`. */
  datatype MediaDetails = MediaDetails(
    id: Option<Value>,
    title: Value,
    year: string,
    rating: Value,
    genre: string,
    description: Value,
    imageUrl: Option<string>,
    trailerUrl: Option<string>)

  /** A TMDB list answer: its status code, its `results` field and its body text. */
  datatype ListAnswer = ListAnswer(status: int, results: Field<seq<TmdbItem>>, text: string)

  /** `data.get('results', [])` when it is a list; a missing list reads as empty. */
  function Results(answer: ListAnswer): seq<TmdbItem> {
    match answer.results
    case Present(xs) => xs
    case _ => []
  }

  /** `str(item.get(date_key, 'N/A'))[:4]` in the discover tools: a `None` date prints as
      "None". */
  function DisplayYear(date: Field<string>): (year: string)
    ensures |year| <= 4
  {
    match date
    case Absent => "N/A"
    case NoneValue => "None"
    case Present(d) => Take(d, 4)
  }

  /** `x if x else None` for an optional number: a zero or missing minimum rating is not sent. */
  function TruthyReal(x: Option<real>): Option<real> {
    match x
    case Some(r) => if r != 0.0 then Some(r) else None
    case None => None
  }

  /** The genre ids as the basic helpers read them: `get_val(item, 'genre_ids', [])`, and a
      `None` is falsy and skipped. */
  function BasicIds(item: TmdbItem): seq<int> {
    match item.genreIds
    case Present(ids) => ids
    case _ => []
  }

  /** `_get_basic_movie_details` / `_get_basic_show_details`: the record of a search result,
      with the genre names of the first three known ids. */
  function BasicDetails(item: TmdbItem, table: map<int, string>, tmdb: Tmdb): MediaDetails {
    MediaDetails(
      Some(IntOr(item.id, "N/A")),
      TextOr(item.title, "Unknown Title"),
      DateYear(item.date),
      Rating(item.voteAverage),
      GenreLabel(KnownGenres(Limit(BasicIds(item), 3), table)),
      TextOr(item.overview, "No description available"),
      PosterUrl(item.posterPath),
      GuardedTrailer(IntValue(item.id), tmdb))
  }

  /** The basic helper with its genre loop. */
  method BuildBasicDetails(item: TmdbItem, table: map<int, string>, tmdb: Tmdb) returns (d: MediaDetails)
    ensures d == BasicDetails(item, table, tmdb)
  {
    var names := CollectGenres(BasicIds(item), table);
    d := MediaDetails(
      Some(IntOr(item.id, "N/A")),
      TextOr(item.title, "Unknown Title"),
      DateYear(item.date),
      Rating(item.voteAverage),
      GenreLabel(names),
      TextOr(item.overview, "No description available"),
      PosterUrl(item.posterPath),
      GuardedTrailer(IntValue(item.id), tmdb));
  }

  /** What a basic record promises: the genre is "Unknown" when none of the first three ids
      is known and otherwise the known names joined by ", "; the rating is "N/A" exactly
      when the vote is missing; the image link exists exactly when the poster path is a
      non-empty string; a trailer link needs a truthy id and a key. */
  lemma BasicDetailsShape(item: TmdbItem, table: map<int, string>, tmdb: Tmdb)
    ensures var d := BasicDetails(item, table, tmdb);
      var top := Limit(BasicIds(item), 3);
      (d.genre == "Unknown" <== forall i :: 0 <= i < |top| ==> top[i] !in table)
      && ((exists i :: 0 <= i < |top| && top[i] in table) ==> d.genre == Join(KnownGenres(top, table), ", "))
      && (d.rating == Str("N/A") <==> item.voteAverage.AsOption().None?)
      && (d.imageUrl.Some? <==> item.posterPath.Present? && item.posterPath.value != "")
      && (d.trailerUrl.Some? ==> item.id.Present? && item.id.value != 0 && tmdb.hasKey)
  {
    KnownGenresEmpty(Limit(BasicIds(item), 3), table);
  }

  /** `_parse_movie_data` / `_parse_show_data`: the record of a popular entry. It has no `id`,
      and an explicit `None` for `genre_ids` makes the slice raise, so the entry is dropped. */
  function ParsedDetails(item: TmdbItem, table: map<int, string>, trailer: Value -> Option<string>): (d: Option<MediaDetails>)
    ensures d.None? <==> item.genreIds.NoneValue?
  {
    match item.genreIds
    case NoneValue => None
    case _ =>
      Some(MediaDetails(
        None,
        TextOr(item.title, "Unknown Title"),
        DateYear(item.date),
        Rating(item.voteAverage),
        GenreLabel(KnownGenres(Limit(BasicIds(item), 3), table)),
        TextOr(item.overview, "No description available"),
        PosterUrl(item.posterPath),
        trailer(IntOr(item.id, "N/A"))))
  }

  /** The parse helper with its genre loop. */
  method BuildParsedDetails(item: TmdbItem, table: map<int, string>, trailer: Value -> Option<string>)
    returns (d: Option<MediaDetails>)
    ensures d == ParsedDetails(item, table, trailer)
  {
    if item.genreIds.NoneValue? {
      return None;
    }
    var names := CollectGenres(BasicIds(item), table);
    d := Some(MediaDetails(
      None,
      TextOr(item.title, "Unknown Title"),
      DateYear(item.date),
      Rating(item.voteAverage),
      GenreLabel(names),
      TextOr(item.overview, "No description available"),
      PosterUrl(item.posterPath),
      trailer(IntOr(item.id, "N/A"))));
  }

  /** The basic helper as a value, for the result loops. */
  function BasicOf(table: map<int, string>, tmdb: Tmdb): TmdbItem -> MediaDetails {
    (item: TmdbItem) => BasicDetails(item, table, tmdb)
  }

  /** The parse helper as a value, for the result loops. */
  function ParsedOf(table: map<int, string>, trailer: Value -> Option<string>): TmdbItem -> Option<MediaDetails> {
    (item: TmdbItem) => ParsedDetails(item, table, trailer)
  }

  function GuardedOf(tmdb: Tmdb): Value -> Option<string> {
    (id: Value) => GuardedTrailer(id, tmdb)
  }

  function LooseOf(tmdb: Tmdb): Value -> Option<string> {
    (id: Value) => LooseTrailer(id, tmdb)
  }

  /** The loop of a search tool: one basic record per result, in order (a record is a
      non-empty dict, so `if details:` never drops one). */
  method BuildAllBasic(items: seq<TmdbItem>, table: map<int, string>, tmdb: Tmdb) returns (records: seq<MediaDetails>)
    ensures records == Map(BasicOf(table, tmdb), items)
  {
    records := [];
    for i := 0 to |items|
      invariant records == Map(BasicOf(table, tmdb), items[..i])
    {
      var d := BuildBasicDetails(items[i], table, tmdb);
      records := records + [d];
    }
    assert items[..|items|] == items;
  }

  /** The loop of a popular tool: the parsed records whose genre passes the filter, in order. */
  method BuildAllParsed(items: seq<TmdbItem>, table: map<int, string>, trailer: Value -> Option<string>,
                        genre: Option<string>) returns (records: seq<MediaDetails>)
    ensures records == KeepParsed(items, ParsedOf(table, trailer), GenreFilter(genre))
  {
    records := [];
    for i := 0 to |items|
      invariant records == KeepParsed(items[..i], ParsedOf(table, trailer), GenreFilter(genre))
    {
      assert items[..i + 1][..i] == items[..i];
      var d := BuildParsedDetails(items[i], table, trailer);
      if d.Some? && GenreMatches(d.value.genre, genre) {
        records := records + [d.value];
      }
    }
    assert items[..|items|] == items;
  }

  // ---------------------------------------------------------------------------------------
  // The result loop and the genre filter

  /** The result loop of the search, popular and book tools: parse each item and keep, in
      order, the records that parsed and that `keep` accepts. */
  function KeepParsed<P, D>(items: seq<P>, parse: P -> Option<D>, keep: D -> bool): (kept: seq<D>)
    ensures |kept| <= |items|
  {
    if |items| == 0 then []
    else
      var kept := KeepParsed(items[..|items| - 1], parse, keep);
      match parse(items[|items| - 1])
      case Some(d) => if keep(d) then kept + [d] else kept
      case None => kept
  }

  /** The loop itself. */
  method CollectParsed<P, D>(items: seq<P>, parse: P -> Option<D>, keep: D -> bool) returns (kept: seq<D>)
    ensures kept == KeepParsed(items, parse, keep)
  {
    kept := [];
    for i := 0 to |items|
      invariant kept == KeepParsed(items[..i], parse, keep)
    {
      assert items[..i + 1][..i] == items[..i];
      var parsed := parse(items[i]);
      if parsed.Some? && keep(parsed.value) {
        kept := kept + [parsed.value];
      }
    }
    assert items[..|items|] == items;
  }

  /** Every kept record is the parse of some item and passes the filter. */
  lemma {:induction false} KeepParsedSound<P, D>(items: seq<P>, parse: P -> Option<D>, keep: D -> bool)
    ensures forall d :: d in KeepParsed(items, parse, keep) ==>
      keep(d) && exists i :: 0 <= i < |items| && parse(items[i]) == Some(d)
    decreases |items|
  {
    if |items| > 0 {
      var init := items[..|items| - 1];
      KeepParsedSound(init, parse, keep);
      assert forall i :: 0 <= i < |init| ==> init[i] == items[i];
    }
  }

  /** Every item that parses to a record the filter accepts has its record kept. */
  lemma {:induction false} KeepParsedComplete<P, D>(items: seq<P>, parse: P -> Option<D>, keep: D -> bool)
    ensures forall i :: 0 <= i < |items| && parse(items[i]).Some? && keep(parse(items[i]).value) ==>
      parse(items[i]).value in KeepParsed(items, parse, keep)
    decreases |items|
  {
    if |items| > 0 {
      var init := items[..|items| - 1];
      KeepParsedComplete(init, parse, keep);
      assert forall i :: 0 <= i < |init| ==> init[i] == items[i];
    }
  }

  /** With a parse that never fails and no filter, the loop keeps one record per item. */
  lemma {:induction false} KeepParsedTotal<P, D>(items: seq<P>, f: P -> D)
    ensures KeepParsed(items, x => Some(f(x)), (d: D) => true) == Map(f, items)
    decreases |items|
  {
    if |items| > 0 {
      KeepParsedTotal(items[..|items| - 1], f);
    }
  }

  /** `not genre or genre.lower() in text.lower()`: the case-insensitive genre filter. */
  predicate GenreMatches(text: string, genre: Option<string>) {
    genre.None? || genre.value == "" || Contains(Lower(text), Lower(genre.value))
  }

  /** The genre filter as a value, over the `genre` of a record. */
  function GenreFilter(genre: Option<string>): MediaDetails -> bool {
    (d: MediaDetails) => GenreMatches(d.genre, genre)
  }

  /** A filter word matches a label that contains it in another case. */
  lemma GenreFilterIgnoresCase()
    ensures GenreMatches("Crime, Drama", Some("DRAMA"))
  {
    assert Lower("DRAMA") == "drama";
    assert Lower("Crime, Drama") == "crime, drama";
    ContainsAt("crime, drama", "drama", 7);
  }

  /** A popular list shows exactly the parsed records of the first five results whose genre
      label contains the filter, ignoring case. */
  lemma PopularShowsMatching(table: map<int, string>, trailer: Value -> Option<string>, genre: Option<string>, items: seq<TmdbItem>)
    ensures var top := Limit(items, ResultLimit);
            var parse := ParsedOf(table, trailer);
            var shown := KeepParsed(top, parse, GenreFilter(genre));
            (forall d :: d in shown ==> GenreMatches(d.genre, genre)
                                        && exists i :: 0 <= i < |top| && i < 5 && parse(top[i]) == Some(d))
            && (forall i :: 0 <= i < |top| && parse(top[i]).Some? && GenreMatches(parse(top[i]).value.genre, genre)
                            ==> parse(top[i]).value in shown)
  {
    var top := Limit(items, ResultLimit);
    KeepParsedSound(top, ParsedOf(table, trailer), GenreFilter(genre));
    KeepParsedComplete(top, ParsedOf(table, trailer), GenreFilter(genre));
  }

  // ---------------------------------------------------------------------------------------
  // Requests and discover entries

  /** The parameters of a search request that depend on the call: the query, and the year
      when one is sent. */
  datatype SearchQuery = SearchQuery(query: string, year: Option<int>)

  /** The parameters of a discover request that depend on the call; a `None` genre id is
      dropped from the request. The random page is not modelled. */
  datatype DiscoverQuery = DiscoverQuery(genreId: Option<int>, sortBy: string, minRating: Option<real>)

  /** One formatted discover entry before it is rendered. */
  datatype DiscoverEntry = DiscoverEntry(
    title: Option<string>, year: string, rating: Value, description: Value,
    imageUrl: Option<string>, trailerUrl: Option<string>)

  // ---------------------------------------------------------------------------------------
  // The genre lookup of the discover tools

  /** A genre table in declaration order, as a list of (name, id) pairs. */
  type GenreTable = seq<(string, int)>

  predicate DistinctKeys(table: GenreTable) {
    forall i, j :: 0 <= i < j < |table| ==> table[i].0 != table[j].0
  }

  /** `genre_map.get(key)`. */
  function ExactGenre(table: GenreTable, key: string): Option<int> {
    if |table| == 0 then None
    else if table[0].0 == key then Some(table[0].1)
    else ExactGenre(table[1..], key)
  }

  /** The id of the first name, in table order, that occurs in `text`. */
  function PartialGenre(table: GenreTable, text: string): Option<int> {
    if |table| == 0 then None
    else if Contains(text, table[0].0) then Some(table[0].1)
    else PartialGenre(table[1..], text)
  }

  /** The id a discover tool sends for `genre`: the exact lower-cased name, or when that gives
      nothing truthy, the first name of the table contained in the lower-cased genre. */
  function DiscoverGenre(table: GenreTable, genre: string): Option<int> {
    var key := Lower(genre);
    var exact := ExactGenre(table, key);
    if exact.Some? && exact.value != 0 then exact
    else match PartialGenre(table, key)
      case Some(v) => Some(v)
      case None => exact
  }

  /** The lookup with its loop over the table items. */
  method LookupGenreId(table: GenreTable, genre: string) returns (genreId: Option<int>)
    ensures genreId == DiscoverGenre(table, genre)
  {
    var key := Lower(genre);
    genreId := ExactGenre(table, key);
    if genreId.None? || genreId.value == 0 {
      assert table[0..] == table;
      for i := 0 to |table|
        invariant PartialGenre(table[i..], key) == PartialGenre(table, key)
      {
        assert table[i..][1..] == table[i + 1..];
        if Contains(key, table[i].0) {
          genreId := Some(table[i].1);
          return;
        }
      }
    }
  }

  /** The exact lookup finds the id of the entry whose name is the key. */
  lemma {:induction false} ExactGenreAt(table: GenreTable, key: string, i: nat)
    requires DistinctKeys(table) && i < |table| && table[i].0 == key
    ensures ExactGenre(table, key) == Some(table[i].1)
    decreases i
  {
    if i > 0 {
      assert table[0].0 != key;
      assert DistinctKeys(table[1..]) by {
        forall a, b | 0 <= a < b < |table[1..]| ensures table[1..][a].0 != table[1..][b].0 {
          assert table[1..][a] == table[a + 1] && table[1..][b] == table[b + 1];
        }
      }
      assert table[1..][i - 1] == table[i];
      ExactGenreAt(table[1..], key, i - 1);
    }
  }

  /** The exact lookup finds nothing when no name is the key. */
  lemma {:induction false} ExactGenreMiss(table: GenreTable, key: string)
    requires forall i :: 0 <= i < |table| ==> table[i].0 != key
    ensures ExactGenre(table, key) == None
    decreases |table|
  {
    if |table| > 0 {
      assert forall i :: 0 <= i < |table[1..]| ==> table[1..][i] == table[i + 1];
      ExactGenreMiss(table[1..], key);
    }
  }

  /** The partial lookup takes the first name in table order that occurs in the text. */
  lemma {:induction false} PartialGenreAt(table: GenreTable, text: string, i: nat)
    requires i < |table| && Contains(text, table[i].0)
    requires forall j :: 0 <= j < i ==> !Contains(text, table[j].0)
    ensures PartialGenre(table, text) == Some(table[i].1)
    decreases i
  {
    if i > 0 {
      assert !Contains(text, table[0].0);
      assert forall j :: 0 <= j < i - 1 ==> table[1..][j] == table[j + 1];
      assert table[1..][i - 1] == table[i];
      PartialGenreAt(table[1..], text, i - 1);
    }
  }

  /** The partial lookup finds nothing when no name occurs in the text. */
  lemma {:induction false} PartialGenreMiss(table: GenreTable, text: string)
    requires forall i :: 0 <= i < |table| ==> !Contains(text, table[i].0)
    ensures PartialGenre(table, text) == None
    decreases |table|
  {
    if |table| > 0 {
      assert forall i :: 0 <= i < |table[1..]| ==> table[1..][i] == table[i + 1];
      PartialGenreMiss(table[1..], text);
    }
  }

  /** A genre whose lower-cased form is a name of the table gets that name's id, whatever
      other names it contains. */
  lemma DiscoverExactWins(table: GenreTable, genre: string, i: nat)
    requires DistinctKeys(table) && i < |table| && table[i].0 == Lower(genre) && table[i].1 != 0
    ensures DiscoverGenre(table, genre) == Some(table[i].1)
  {
    ExactGenreAt(table, Lower(genre), i);
  }

  /** Otherwise the genre gets the id of the first name in table order that it contains, and
      no id when it contains none. */
  lemma DiscoverFirstContained(table: GenreTable, genre: string)
    requires forall i :: 0 <= i < |table| ==> table[i].0 != Lower(genre)
    ensures forall i :: 0 <= i < |table| && Contains(Lower(genre), table[i].0)
                        && (forall j :: 0 <= j < i ==> !Contains(Lower(genre), table[j].0))
                        ==> DiscoverGenre(table, genre) == Some(table[i].1)
    ensures (forall i :: 0 <= i < |table| ==> !Contains(Lower(genre), table[i].0))
            ==> DiscoverGenre(table, genre) == None
  {
    ExactGenreMiss(table, Lower(genre));
    forall i | 0 <= i < |table| && Contains(Lower(genre), table[i].0)
               && (forall j :: 0 <= j < i ==> !Contains(Lower(genre), table[j].0))
      ensures DiscoverGenre(table, genre) == Some(table[i].1)
    {
      PartialGenreAt(table, Lower(genre), i);
    }
    if forall i :: 0 <= i < |table| ==> !Contains(Lower(genre), table[i].0) {
      PartialGenreMiss(table, Lower(genre));
    }
  }
}
