/** The TMDB movie tools: the search, the popular list and the genre discovery, over the
    answers of the TMDB endpoints they call. */
module MovieTools {
  import opened Wrappers
  import opened Text
  import opened JsonValue
  import opened ToolCommon

  /** TMDB's movie genre ids and their names. */
  const MovieGenres: map<int, string> := map[
    28 := "Action", 12 := "Adventure", 16 := "Animation", 35 := "Comedy",
    80 := "Crime", 99 := "Documentary", 18 := "Drama", 10751 := "Family",
    14 := "Fantasy", 36 := "History", 27 := "Horror", 10402 := "Music",
    9648 := "Mystery", 10749 := "Romance", 878 := "Science Fiction",
    10770 := "TV Movie", 53 := "Thriller", 10752 := "War", 37 := "Western"]

  /** The genre names the discover tool understands, in declaration order. */
  const DiscoverMovieGenres: GenreTable := [
    ("action", 28), ("adventure", 12), ("animation", 16), ("comedy", 35),
    ("crime", 80), ("documentary", 99), ("drama", 18), ("family", 10751),
    ("fantasy", 14), ("history", 36), ("horror", 27), ("music", 10402),
    ("mystery", 9648), ("romance", 10749), ("science fiction", 878), ("sci-fi", 878),
    ("tv movie", 10770), ("thriller", 53), ("war", 10752), ("western", 37)]

  // ---------------------------------------------------------------------------------------
  // Search

  /** `MovieSearchTool._run`: `search` answers the request, `render` formats one record. */
  function SearchReply(query: string, year: YearArg, tmdb: Tmdb, search: SearchQuery -> ListAnswer,
                       render: MediaDetails -> string): Reply
  {
    if !tmdb.hasKey then Message(TmdbKeyMissing)
    else
      var answer := search(SearchQuery(query, SanitizedYear(year)));
      if answer.status != 200 then Message("API error: " + IntToString(answer.status))
      else if answer.results.NoneValue? then Failure("Error searching movies")
      else
        var movies := Map(BasicOf(MovieGenres, tmdb), Limit(Results(answer), ResultLimit));
        if movies == [] then Message("No movies found for query: '" + query + "'")
        else Message(Join(Map(render, movies), EntrySeparator))
  }

  /** The search with its loops. */
  method RunSearch(query: string, year: YearArg, tmdb: Tmdb, search: SearchQuery -> ListAnswer,
                   render: MediaDetails -> string) returns (reply: Reply)
    ensures reply == SearchReply(query, year, tmdb, search, render)
  {
    if !tmdb.hasKey {
      return Message(TmdbKeyMissing);
    }
    var answer := search(SearchQuery(query, SanitizedYear(year)));
    if answer.status != 200 {
      return Message("API error: " + IntToString(answer.status));
    }
    if answer.results.NoneValue? {
      return Failure("Error searching movies");
    }
    var movies := BuildAllBasic(Limit(Results(answer), ResultLimit), MovieGenres, tmdb);
    if movies == [] {
      return Message("No movies found for query: '" + query + "'");
    }
    var texts := FormatAll(movies, render);
    reply := Message(Join(texts, EntrySeparator));
  }

  /** A search answered with results shows one entry for each of the first five, in order,
      and the "No movies found" message only for an empty list; the request carries the
      sanitised year, which is never zero. */
  lemma SearchShowsFirstFive(query: string, year: YearArg, tmdb: Tmdb, search: SearchQuery -> ListAnswer,
                             render: MediaDetails -> string)
    requires tmdb.hasKey
    requires var answer := search(SearchQuery(query, SanitizedYear(year)));
             answer.status == 200 && answer.results.Present?
    ensures var answer := search(SearchQuery(query, SanitizedYear(year)));
            var xs := answer.results.value;
            var shown := Limit(xs, ResultLimit);
            |shown| <= 5
            && (xs == [] ==> SearchReply(query, year, tmdb, search, render) == Message("No movies found for query: '" + query + "'"))
            && (xs != [] ==> SearchReply(query, year, tmdb, search, render)
                             == Message(Join(seq(|shown|, i requires 0 <= i < |shown| => render(BasicDetails(shown[i], MovieGenres, tmdb))), EntrySeparator)))
  {
    var answer := search(SearchQuery(query, SanitizedYear(year)));
    var shown := Limit(answer.results.value, ResultLimit);
    var movies := Map(BasicOf(MovieGenres, tmdb), shown);
    assert Map(render, movies) == seq(|shown|, i requires 0 <= i < |shown| => render(BasicDetails(shown[i], MovieGenres, tmdb)));
  }

  // ---------------------------------------------------------------------------------------
  // Popular movies

  /** `PopularMoviesTool._run` over the answer of the popular endpoint. */
  function PopularReply(genre: Option<string>, tmdb: Tmdb, popular: ListAnswer, render: MediaDetails -> string): Reply {
    if !tmdb.hasKey then Message("TMDB API key not configured. Using fallback popular movies.")
    else if popular.status != 200 then Message("Error fetching popular movies. Using fallback data.")
    else if Results(popular) == [] then Message("No popular movies found. Using fallback data.")
    else
      var movies := KeepParsed(Limit(Results(popular), ResultLimit), ParsedOf(MovieGenres, GuardedOf(tmdb)), GenreFilter(genre));
      if movies == [] then Message("No popular movies match the specified genre.")
      else Message("Popular Movies:\\n" + Join(Map(render, movies), EntrySeparator))
  }

  /** The popular tool with its loops. */
  method RunPopular(genre: Option<string>, tmdb: Tmdb, popular: ListAnswer, render: MediaDetails -> string)
    returns (reply: Reply)
    ensures reply == PopularReply(genre, tmdb, popular, render)
  {
    if !tmdb.hasKey {
      return Message("TMDB API key not configured. Using fallback popular movies.");
    }
    if popular.status != 200 {
      return Message("Error fetching popular movies. Using fallback data.");
    }
    if Results(popular) == [] {
      return Message("No popular movies found. Using fallback data.");
    }
    var movies := BuildAllParsed(Limit(Results(popular), ResultLimit), MovieGenres, GuardedOf(tmdb), genre);
    if movies == [] {
      return Message("No popular movies match the specified genre.");
    }
    var texts := FormatAll(movies, render);
    reply := Message("Popular Movies:\\n" + Join(texts, EntrySeparator));
  }

  // ---------------------------------------------------------------------------------------
  // Discover

  /** The entry of one discover result: the rating is "N/A" for a missing or zero vote, and
      the trailer helper refuses only a falsy id. */
  function MovieDiscoverEntry(tmdb: Tmdb): TmdbItem -> DiscoverEntry {
    (item: TmdbItem) =>
      DiscoverEntry(
        item.title.AsOption(),
        DisplayYear(item.date),
        match item.voteAverage
        case Present(v) => if v != 0.0 then Num(Round1(v)) else Str("N/A")
        case _ => Str("N/A"),
        TextOr(item.overview, "No description available"),
        PosterUrl(item.posterPath),
        LooseTrailer(IntValue(item.id), tmdb))
  }

  /** `DiscoverMoviesTool._run`. */
  function DiscoverReply(genre: string, minRating: Option<real>, sortBy: string, tmdb: Tmdb,
                         discover: DiscoverQuery -> ListAnswer, render: DiscoverEntry -> string): Reply
  {
    if !tmdb.hasKey then Message("Error: TMDB_API_KEY not found.")
    else
      var answer := discover(DiscoverQuery(DiscoverGenre(DiscoverMovieGenres, genre), sortBy, TruthyReal(minRating)));
      if answer.status != 200 then Message("Error discovering movies: " + IntToString(answer.status) + " - " + answer.text)
      else if answer.results.NoneValue? then Failure("Error executing discover_movies")
      else
        var top := Limit(Results(answer), ResultLimit);
        if top == [] then Message("No movies found for genre: " + genre)
        else Message(Join(Map(render, Map(MovieDiscoverEntry(tmdb), top)), EntrySeparator))
  }

  /** The discover tool with its genre lookup and its formatting loop. */
  method RunDiscover(genre: string, minRating: Option<real>, sortBy: string, tmdb: Tmdb,
                     discover: DiscoverQuery -> ListAnswer, render: DiscoverEntry -> string) returns (reply: Reply)
    ensures reply == DiscoverReply(genre, minRating, sortBy, tmdb, discover, render)
  {
    if !tmdb.hasKey {
      return Message("Error: TMDB_API_KEY not found.");
    }
    var genreId := LookupGenreId(DiscoverMovieGenres, genre);
    var answer := discover(DiscoverQuery(genreId, sortBy, TruthyReal(minRating)));
    if answer.status != 200 {
      return Message("Error discovering movies: " + IntToString(answer.status) + " - " + answer.text);
    }
    if answer.results.NoneValue? {
      return Failure("Error executing discover_movies");
    }
    var top := Limit(Results(answer), ResultLimit);
    if top == [] {
      return Message("No movies found for genre: " + genre);
    }
    var texts := FormatAll(Map(MovieDiscoverEntry(tmdb), top), render);
    reply := Message(Join(texts, EntrySeparator));
  }

  /** A discover entry shows "N/A" exactly when the vote is missing, `None` or zero, and the
      vote rounded to one decimal otherwise; a result without an id gets no trailer. */
  lemma DiscoverRatingShown(tmdb: Tmdb, item: TmdbItem)
    ensures var e := MovieDiscoverEntry(tmdb)(item);
            (e.rating == Str("N/A") <==> item.voteAverage.AsOption().GetOr(0.0) == 0.0)
            && (item.voteAverage.Present? && item.voteAverage.value != 0.0 ==> e.rating == Num(Round1(item.voteAverage.value)))
            && (!item.id.Present? ==> e.trailerUrl.None?)
  {
  }

  /** The names of the discover table are distinct, so the exact lookup is a dict lookup. */
  lemma DiscoverMovieKeysDistinct()
    ensures DistinctKeys(DiscoverMovieGenres)
  {
    MovieKeysDistinctFrom0();
    MovieKeysDistinctFrom5();
    MovieKeysDistinctFrom10();
    MovieKeysDistinctFrom15();
  }

  lemma MovieKeysDistinctFrom0()
    ensures forall i, j :: 0 <= i < 5 && i < j < |DiscoverMovieGenres| ==> DiscoverMovieGenres[i].0 != DiscoverMovieGenres[j].0
  {
  }

  lemma MovieKeysDistinctFrom5()
    ensures forall i, j :: 5 <= i < 10 && i < j < |DiscoverMovieGenres| ==> DiscoverMovieGenres[i].0 != DiscoverMovieGenres[j].0
  {
  }

  lemma MovieKeysDistinctFrom10()
    ensures forall i, j :: 10 <= i < 15 && i < j < |DiscoverMovieGenres| ==> DiscoverMovieGenres[i].0 != DiscoverMovieGenres[j].0
  {
  }

  lemma MovieKeysDistinctFrom15()
    ensures forall i, j :: 15 <= i < j < |DiscoverMovieGenres| ==> DiscoverMovieGenres[i].0 != DiscoverMovieGenres[j].0
  {
  }

  /** "Sci-Fi" is looked up exactly. */
  lemma DiscoverSciFi()
    ensures DiscoverGenre(DiscoverMovieGenres, "Sci-Fi") == Some(878)
  {
    DiscoverMovieKeysDistinct();
    assert Lower("Sci-Fi") == "sci-fi";
    assert DiscoverMovieGenres[15] == ("sci-fi", 878);
    DiscoverExactWins(DiscoverMovieGenres, "Sci-Fi", 15);
  }

  /** No name of the discover table is "warrior". */
  lemma WarriorNotExact()
    ensures ExactGenre(DiscoverMovieGenres, "warrior") == None
  {
    var t := DiscoverMovieGenres;
    forall i | 0 <= i < |t| ensures t[i].0 != "warrior" {
      assert |t[i].0| != 7 || t[i].0[0] != 'w' || t[i].0 == "western";
    }
    ExactGenreMiss(t, "warrior");
  }

  /** "action", "adventure" and "animation" of the discover table do not occur in "warrior". */
  lemma WarriorMisses1()
    ensures forall j :: 0 <= j < 3 ==> !Contains("warrior", DiscoverMovieGenres[j].0)
  {
    NotContainsChar("warrior", "action", 'c');
    NotContainsChar("warrior", "adventure", 'd');
    NotContainsChar("warrior", "animation", 'n');
  }

  /** "comedy", "crime" and "documentary" of the discover table do not occur in "warrior". */
  lemma WarriorMisses1b()
    ensures forall j :: 3 <= j < 6 ==> !Contains("warrior", DiscoverMovieGenres[j].0)
  {
    NotContainsChar("warrior", "comedy", 'c');
    NotContainsChar("warrior", "crime", 'c');
    NotContainsChar("warrior", "documentary", 'd');
  }

  /** "drama", "family" and "fantasy" of the discover table do not occur in "warrior". */
  lemma WarriorMisses2()
    ensures forall j :: 6 <= j < 9 ==> !Contains("warrior", DiscoverMovieGenres[j].0)
  {
    NotContainsChar("warrior", "drama", 'd');
    NotContainsChar("warrior", "family", 'f');
    NotContainsChar("warrior", "fantasy", 'f');
  }

  /** "history", "horror" and "music" of the discover table do not occur in "warrior". */
  lemma WarriorMisses3()
    ensures forall j :: 9 <= j < 12 ==> !Contains("warrior", DiscoverMovieGenres[j].0)
  {
    NotContainsChar("warrior", "history", 'h');
    NotContainsChar("warrior", "horror", 'h');
    NotContainsChar("warrior", "music", 'm');
  }

  /** "mystery", "romance" and "science fiction" of the discover table do not occur in "warrior". */
  lemma WarriorMisses4()
    ensures forall j :: 12 <= j < 15 ==> !Contains("warrior", DiscoverMovieGenres[j].0)
  {
    NotContainsChar("warrior", "mystery", 'm');
    NotContainsChar("warrior", "romance", 'm');
    NotContainsChar("warrior", "science fiction", 's');
  }

  /** "sci-fi", "tv movie" and "thriller" of the discover table do not occur in "warrior". */
  lemma WarriorMisses4b()
    ensures forall j :: 15 <= j < 18 ==> !Contains("warrior", DiscoverMovieGenres[j].0)
  {
    NotContainsChar("warrior", "sci-fi", 's');
    NotContainsChar("warrior", "tv movie", 't');
    NotContainsChar("warrior", "thriller", 't');
  }

  /** "Warrior" has no exact entry, and the first name of the table it contains is "war": the
      substring fallback sends the War genre. */
  lemma DiscoverWarrior()
    ensures DiscoverGenre(DiscoverMovieGenres, "Warrior") == Some(10752)
  {
    var w := "warrior";
    assert Lower("Warrior") == w;
    WarriorNotExact();
    WarriorMissesBeforeWar();
    ContainsAt(w, "war", 0);
    PartialGenreAt(DiscoverMovieGenres, w, 18);
  }

  /** No name before "war" in the discover table occurs in "warrior". */
  lemma WarriorMissesBeforeWar()
    ensures forall j :: 0 <= j < 18 ==> !Contains("warrior", DiscoverMovieGenres[j].0)
  {
    WarriorMisses1();
    WarriorMisses1b();
    WarriorMisses2();
    WarriorMisses3();
    WarriorMisses4();
    WarriorMisses4b();
  }
}
