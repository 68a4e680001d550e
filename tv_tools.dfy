/** The TMDB TV tools: the search with its season counts, the popular list and the genre
    discovery, over the answers of the TMDB endpoints they call. */
module TvTools {
  import opened Wrappers
  import opened Text
  import opened JsonValue
  import opened ToolCommon

  /** TMDB's TV genre ids and their names. */
  const TvGenres: map<int, string> := map[
    10759 := "Action & Adventure", 16 := "Animation", 35 := "Comedy",
    80 := "Crime", 99 := "Documentary", 18 := "Drama", 10751 := "Family",
    10762 := "Kids", 9648 := "Mystery", 10763 := "News", 10764 := "Reality",
    10765 := "Sci-Fi & Fantasy", 10766 := "Soap", 10767 := "Talk",
    10768 := "War & Politics", 37 := "Western"]

  /** The genre names the TV discover tool understands, aliases included, in declaration
      order. */
  const DiscoverTvGenres: GenreTable := [
    ("action & adventure", 10759), ("action", 10759), ("adventure", 10759),
    ("animation", 16), ("comedy", 35), ("crime", 80), ("documentary", 99),
    ("drama", 18), ("family", 10751), ("kids", 10762), ("mystery", 9648),
    ("news", 10763), ("reality", 10764), ("sci-fi & fantasy", 10765),
    ("sci-fi", 10765), ("fantasy", 10765), ("soap", 10766), ("talk", 10767),
    ("war & politics", 10768), ("war", 10768), ("western", 37)]

  // ---------------------------------------------------------------------------------------
  // Season counts

  /** What `_fetch_season_details` returns: the two counts, each `data.get(...)`, and nothing
      else of the show. */
  datatype SeasonCounts = SeasonCounts(seasons: Value, episodes: Value)

  /** `_fetch_season_details`: `details` answers the show endpoint for an id with the JSON
      object of the show, or `None` for an answer other than 200 or a failed request. A
      falsy or "N/A" id, or a missing key, gives `None` without a request. */
  function SeasonDetails(id: Value, tmdb: Tmdb, details: Value -> Option<Record>): (counts: Option<SeasonCounts>)
    ensures !Truthy(id) || id == Str("N/A") || !tmdb.hasKey ==> counts.None?
    ensures counts.Some? ==>
              (details(id).Some?
               && counts.value == SeasonCounts(Get(details(id).value, "number_of_seasons"),
                                               Get(details(id).value, "number_of_episodes")))
  {
    if !Truthy(id) || id == Str("N/A") || !tmdb.hasKey then None
    else match details(id)
      case Some(data) => Some(SeasonCounts(Get(data, "number_of_seasons"), Get(data, "number_of_episodes")))
      case None => None
  }

  // ---------------------------------------------------------------------------------------
  // Search

  /** One entry of the search output: the basic record and the season counts fetched for it. */
  datatype SearchEntry = SearchEntry(show: MediaDetails, counts: Option<SeasonCounts>)

  function SearchEntryOf(tmdb: Tmdb, details: Value -> Option<Record>): MediaDetails -> SearchEntry {
    (show: MediaDetails) => SearchEntry(show, SeasonDetails(show.id.GetOr(Null), tmdb, details))
  }

  /** `TVSearchTool._run`: `search` answers the request, `details` the show endpoint, `render`
      formats one entry. */
  function SearchReply(query: string, year: YearArg, tmdb: Tmdb, search: SearchQuery -> ListAnswer,
                       details: Value -> Option<Record>, render: SearchEntry -> string): Reply
  {
    if !tmdb.hasKey then Message(TmdbKeyMissing)
    else
      var answer := search(SearchQuery(query, SanitizedYear(year)));
      if answer.status != 200 then Message("API error: " + IntToString(answer.status))
      else if answer.results.NoneValue? then Failure("Error searching TV shows")
      else
        var shows := Map(BasicOf(TvGenres, tmdb), Limit(Results(answer), ResultLimit));
        if shows == [] then Message("No TV shows found for query: '" + query + "'")
        else Message(Join(Map(render, Map(SearchEntryOf(tmdb, details), shows)), EntrySeparator))
  }

  /** The search with its loops: the result loop, then one season lookup per show. */
  method RunSearch(query: string, year: YearArg, tmdb: Tmdb, search: SearchQuery -> ListAnswer,
                   details: Value -> Option<Record>, render: SearchEntry -> string) returns (reply: Reply)
    ensures reply == SearchReply(query, year, tmdb, search, details, render)
  {
    if !tmdb.hasKey {
      return Message(TmdbKeyMissing);
    }
    var answer := search(SearchQuery(query, SanitizedYear(year)));
    if answer.status != 200 {
      return Message("API error: " + IntToString(answer.status));
    }
    if answer.results.NoneValue? {
      return Failure("Error searching TV shows");
    }
    var shows := BuildAllBasic(Limit(Results(answer), ResultLimit), TvGenres, tmdb);
    if shows == [] {
      return Message("No TV shows found for query: '" + query + "'");
    }
    var texts := SearchTexts(shows, tmdb, details, render);
    reply := Message(Join(texts, EntrySeparator));
  }

  /** The formatting loop of the search: one season lookup and one text per show, in order. */
  method SearchTexts(shows: seq<MediaDetails>, tmdb: Tmdb, details: Value -> Option<Record>,
                     render: SearchEntry -> string) returns (texts: seq<string>)
    ensures texts == Map(render, Map(SearchEntryOf(tmdb, details), shows))
  {
    texts := [];
    for i := 0 to |shows|
      invariant |texts| == i
      invariant forall k :: 0 <= k < i ==> texts[k] == render(SearchEntryOf(tmdb, details)(shows[k]))
    {
      var counts := SeasonDetails(shows[i].id.GetOr(Null), tmdb, details);
      texts := texts + [render(SearchEntry(shows[i], counts))];
    }
  }

  /** A show of the search whose id is missing has no season counts and sends no details
      request: its basic record carries the id "N/A". */
  lemma MissingIdHasNoSeasons(item: TmdbItem, tmdb: Tmdb, details: Value -> Option<Record>)
    requires item.id.Absent?
    ensures SearchEntryOf(tmdb, details)(BasicDetails(item, TvGenres, tmdb)).counts == None
  {
    assert BasicDetails(item, TvGenres, tmdb).id == Some(Str("N/A"));
  }

  // ---------------------------------------------------------------------------------------
  // Popular TV

  /** `PopularTVTool._run` over the answer of the popular endpoint. Its trailer helper refuses
      only a falsy id, so a show without an id asks for the videos of "N/A". */
  function PopularReply(genre: Option<string>, tmdb: Tmdb, popular: ListAnswer, render: MediaDetails -> string): Reply {
    if !tmdb.hasKey then Message("TMDB API key not configured. Using fallback popular shows.")
    else if popular.status != 200 then Message("Error fetching popular TV shows.")
    else if Results(popular) == [] then Message("No popular TV shows found.")
    else
      var shows := KeepParsed(Limit(Results(popular), ResultLimit), ParsedOf(TvGenres, LooseOf(tmdb)), GenreFilter(genre));
      if shows == [] then Message("No popular TV shows match the specified genre.")
      else Message("Popular TV Shows:\\n" + Join(Map(render, shows), EntrySeparator))
  }

  /** The popular tool with its loops. */
  method RunPopular(genre: Option<string>, tmdb: Tmdb, popular: ListAnswer, render: MediaDetails -> string)
    returns (reply: Reply)
    ensures reply == PopularReply(genre, tmdb, popular, render)
  {
    if !tmdb.hasKey {
      return Message("TMDB API key not configured. Using fallback popular shows.");
    }
    if popular.status != 200 {
      return Message("Error fetching popular TV shows.");
    }
    if Results(popular) == [] {
      return Message("No popular TV shows found.");
    }
    var shows := BuildAllParsed(Limit(Results(popular), ResultLimit), TvGenres, LooseOf(tmdb), genre);
    if shows == [] {
      return Message("No popular TV shows match the specified genre.");
    }
    var texts := FormatAll(shows, render);
    reply := Message("Popular TV Shows:\\n" + Join(texts, EntrySeparator));
  }

  // ---------------------------------------------------------------------------------------
  // Discover

  /** The entry of one discover result. The rating is `round(show.get('vote_average', 0), 1)`
      with no guard: a missing vote shows 0, and a `None` vote makes `round` raise (the reply
      is then a failure, so the `Null` here is never shown). */
  function TvDiscoverEntry(tmdb: Tmdb): TmdbItem -> DiscoverEntry {
    (item: TmdbItem) =>
      DiscoverEntry(
        item.title.AsOption(),
        DisplayYear(item.date),
        match item.voteAverage
        case Present(v) => Num(Round1(v))
        case Absent => Num(0.0)
        case NoneValue => Null,
        TextOr(item.overview, "No description available"),
        PosterUrl(item.posterPath),
        LooseTrailer(IntValue(item.id), tmdb))
  }

  /** `DiscoverTVTool._run`. */
  function DiscoverReply(genre: string, minRating: Option<real>, sortBy: string, tmdb: Tmdb,
                         discover: DiscoverQuery -> ListAnswer, render: DiscoverEntry -> string): Reply
  {
    if !tmdb.hasKey then Message("Error: TMDB_API_KEY not found.")
    else
      var answer := discover(DiscoverQuery(DiscoverGenre(DiscoverTvGenres, genre), sortBy, TruthyReal(minRating)));
      if answer.status != 200 then Message("Error discovering TV shows: " + IntToString(answer.status))
      else if answer.results.NoneValue? then Failure("Error executing discover_tv_shows")
      else
        var top := Limit(Results(answer), ResultLimit);
        if top == [] then Message("No TV shows found for genre: " + genre)
        else if exists i :: 0 <= i < |top| && top[i].voteAverage.NoneValue? then Failure("Error executing discover_tv_shows")
        else Message(Join(Map(render, Map(TvDiscoverEntry(tmdb), top)), EntrySeparator))
  }

  /** The discover tool with its genre lookup and its formatting loop. */
  method RunDiscover(genre: string, minRating: Option<real>, sortBy: string, tmdb: Tmdb,
                     discover: DiscoverQuery -> ListAnswer, render: DiscoverEntry -> string) returns (reply: Reply)
    ensures reply == DiscoverReply(genre, minRating, sortBy, tmdb, discover, render)
  {
    if !tmdb.hasKey {
      return Message("Error: TMDB_API_KEY not found.");
    }
    var genreId := LookupGenreId(DiscoverTvGenres, genre);
    var answer := discover(DiscoverQuery(genreId, sortBy, TruthyReal(minRating)));
    if answer.status != 200 {
      return Message("Error discovering TV shows: " + IntToString(answer.status));
    }
    if answer.results.NoneValue? {
      return Failure("Error executing discover_tv_shows");
    }
    var top := Limit(Results(answer), ResultLimit);
    if top == [] {
      return Message("No TV shows found for genre: " + genre);
    }
    var complete, texts := DiscoverTexts(top, tmdb, render);
    if !complete {
      return Failure("Error executing discover_tv_shows");
    }
    reply := Message(Join(texts, EntrySeparator));
  }

  /** The formatting loop of the discover tool: it stops at the first show whose vote is
      `None`, and otherwise formats every show, in order. */
  method DiscoverTexts(top: seq<TmdbItem>, tmdb: Tmdb, render: DiscoverEntry -> string)
    returns (complete: bool, texts: seq<string>)
    ensures complete <==> forall j :: 0 <= j < |top| ==> !top[j].voteAverage.NoneValue?
    ensures complete ==> texts == Map(render, Map(TvDiscoverEntry(tmdb), top))
  {
    texts := [];
    for i := 0 to |top|
      invariant |texts| == i
      invariant forall j :: 0 <= j < i ==> !top[j].voteAverage.NoneValue?
      invariant forall k :: 0 <= k < i ==> texts[k] == render(TvDiscoverEntry(tmdb)(top[k]))
    {
      if top[i].voteAverage.NoneValue? {
        return false, texts;
      }
      texts := texts + [render(TvDiscoverEntry(tmdb)(top[i]))];
    }
    complete := true;
  }

  /** Unlike the movie tool, a missing vote shows 0, and a `None` vote among the first five
      results turns the whole answer into the failure of the tool. */
  lemma DiscoverVotes(genre: string, minRating: Option<real>, sortBy: string, tmdb: Tmdb,
                      discover: DiscoverQuery -> ListAnswer, render: DiscoverEntry -> string, i: nat)
    requires tmdb.hasKey
    requires var answer := discover(DiscoverQuery(DiscoverGenre(DiscoverTvGenres, genre), sortBy, TruthyReal(minRating)));
             answer.status == 200 && answer.results.Present?
             && i < |answer.results.value| && i < ResultLimit && answer.results.value[i].voteAverage.NoneValue?
    ensures DiscoverReply(genre, minRating, sortBy, tmdb, discover, render) == Failure("Error executing discover_tv_shows")
    ensures forall item: TmdbItem :: item.voteAverage.Absent? ==> TvDiscoverEntry(tmdb)(item).rating == Num(0.0)
  {
    var answer := discover(DiscoverQuery(DiscoverGenre(DiscoverTvGenres, genre), sortBy, TruthyReal(minRating)));
    var top := Limit(Results(answer), ResultLimit);
    assert top[i] == answer.results.value[i];
  }

  /** "Action" is an exact alias of Action & Adventure. */
  lemma DiscoverAction()
    ensures DiscoverGenre(DiscoverTvGenres, "Action") == Some(10759)
  {
    assert Lower("Action") == "action";
    assert DiscoverTvGenres[1] == ("action", 10759);
    assert DiscoverTvGenres[0].0 != "action";
    assert ExactGenre(DiscoverTvGenres, "action") == ExactGenre(DiscoverTvGenres[1..], "action");
  }
}
