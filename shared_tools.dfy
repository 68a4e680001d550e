/** The SerpAPI tools shared by the movie and book agents: similar titles, recent news and
    trending media, over the answer of the Google search client. */
module SharedTools {
  import opened Wrappers
  import opened Text
  import opened ToolCommon

  const SerpKeyMissing := "SerpAPI key not configured. Please set SERPAPI_KEY in your environment variables."
  /** The news tool shows the first three news results. */
  const NewsLimit: nat := 3
  /** Snippets are cut to 100 characters. */
  const SnippetLimit: nat := 100
  const PeopleAlsoAsk := "People also ask"

  /** The `source` of a news result: an object with a `name` key, or anything else. */
  datatype NewsSource = SourceObject(name: Field<string>) | OtherSource

  /** One organic or news result, one `Field` per key the tools read. */
  datatype SearchResult = SearchResult(
    title: Field<string>,
    snippet: Field<string>,
    date: Field<string>,
    source: Field<NewsSource>)

  /** The answer of the search client: its `organic_results` and `news_results` keys. */
  datatype SearchAnswer = SearchAnswer(organic: Field<seq<SearchResult>>, news: Field<seq<SearchResult>>)

  /** The parameters of a search: the query, and whether it asks for news (`tbm=nws`). */
  datatype SearchRequest = SearchRequest(query: string, news: bool)

  /** `results.get(k, [])` read as a truth value: a missing key, `None` and `[]` are falsy. */
  predicate Listed(f: Field<seq<SearchResult>>) {
    f.Present? && f.value != []
  }

  /** `str(d.get(k, default))` of a text field: `None` prints as "None". */
  function Shown(f: Field<string>, default: string): string {
    match f
    case Absent => default
    case NoneValue => "None"
    case Present(s) => s
  }

  // ---------------------------------------------------------------------------------------
  // Similar titles

  /** `t.replace(' - Similar movies', '').replace(' - Similar books', '')`. */
  function CleanTitle(t: string): string {
    ReplaceAll(ReplaceAll(t, " - Similar movies", ""), " - Similar books", "")
  }

  /** A title that carries neither suffix is kept as it is. */
  lemma CleanTitleKeepsPlainTitles(t: string)
    requires !Contains(t, " - Similar movies") && !Contains(t, " - Similar books")
    ensures CleanTitle(t) == t
  {
    ReplaceAllAbsent(t, " - Similar movies", "");
    ReplaceAllAbsent(t, " - Similar books", "");
  }

  /** `result.get('title', '')` when it is not `None`, cleaned of the suffixes. */
  function CleanTitleOf(r: SearchResult): string {
    match r.title
    case Present(t) => CleanTitle(t)
    case _ => ""
  }

  /** The cleaned titles of some results, as a value for `Map`. */
  function CleanTitles(): SearchResult -> string {
    (r: SearchResult) => CleanTitleOf(r)
  }

  /** No result of `rs` has a `None` title (which `replace` would raise on). */
  predicate AllTitled(rs: seq<SearchResult>) {
    forall i :: 0 <= i < |rs| ==> !rs[i].title.NoneValue?
  }

  /** The list the loop builds: each non-empty title once, at its first occurrence. */
  function Distinct(ts: seq<string>): (ds: seq<string>)
    ensures |ds| <= |ts|
  {
    if |ts| == 0 then []
    else
      var ds := Distinct(ts[..|ts| - 1]);
      var t := ts[|ts| - 1];
      if t != "" && t !in ds then ds + [t] else ds
  }

  /** `Distinct` keeps exactly the non-empty titles, each once. */
  lemma {:induction false} DistinctFacts(ts: seq<string>)
    ensures forall t :: t in Distinct(ts) <==> t in ts && t != ""
    ensures forall i, j :: 0 <= i < j < |Distinct(ts)| ==> Distinct(ts)[i] != Distinct(ts)[j]
    decreases |ts|
  {
    if |ts| > 0 {
      var init := ts[..|ts| - 1];
      DistinctFacts(init);
      assert ts == init + [ts[|ts| - 1]];
    }
  }

  /** Adding titles at the end never changes the ones already kept. */
  lemma {:induction false} DistinctPrefix(ts: seq<string>, more: seq<string>)
    ensures IsSeqPrefix(Distinct(ts), Distinct(ts + more))
    decreases |more|
  {
    if |more| > 0 {
      var init := more[..|more| - 1];
      DistinctPrefix(ts, init);
      assert (ts + more)[..|ts + more| - 1] == ts + init;
    } else {
      assert ts + more == ts;
    }
  }

  predicate IsSeqPrefix(p: seq<string>, s: seq<string>) {
    |p| <= |s| && s[..|p|] == p
  }

  function Bullet(t: string): string {
    "• " + t
  }

  /** The message for a search that found no usable title. */
  function NoSimilar(title: string, mediaType: string): string {
    "No similar " + mediaType + "s found for '" + title + "'."
  }

  /** `SimilarTitlesTool._run`: `search` runs the query of the client. */
  function SimilarReply(title: string, mediaType: string, hasKey: bool,
                        search: SearchRequest -> Fetch<SearchAnswer>): Reply
  {
    if !hasKey then Message(SerpKeyMissing)
    else match search(SearchRequest(mediaType + "s similar to " + title, false))
      case RequestFailed => Failure("Error finding similar titles")
      case Fetched(answer) =>
        if !Listed(answer.organic) then Message(NoSimilar(title, mediaType))
        else
          var top := Limit(answer.organic.value, ResultLimit);
          if !AllTitled(top) then Failure("Error finding similar titles")
          else
            var names := Distinct(Map(CleanTitles(), top));
            if names == [] then Message(NoSimilar(title, mediaType))
            else Message("Similar " + mediaType + "s to '" + title + "':\\n" + Join(Map(Bullet, names), "\\n"))
  }

  /** The de-duplicating loop: the cleaned titles of the first results, or `None` when one of
      them has a `None` title. */
  method CollectTitles(top: seq<SearchResult>) returns (names: Option<seq<string>>)
    ensures names.None? <==> !AllTitled(top)
    ensures names.Some? ==> names.value == Distinct(Map(CleanTitles(), top))
  {
    var kept: seq<string> := [];
    for i := 0 to |top|
      invariant AllTitled(top[..i])
      invariant kept == Distinct(Map(CleanTitles(), top[..i]))
    {
      if top[i].title.NoneValue? {
        assert !AllTitled(top) by {
          assert top[i].title.NoneValue?;
        }
        return None;
      }
      var t := CleanTitleOf(top[i]);
      assert Map(CleanTitles(), top[..i + 1]) == Map(CleanTitles(), top[..i]) + [t];
      if t != "" && t !in kept {
        kept := kept + [t];
      }
    }
    assert top[..|top|] == top;
    names := Some(kept);
  }

  /** The similar-titles tool with its loops. */
  method RunSimilar(title: string, mediaType: string, hasKey: bool,
                    search: SearchRequest -> Fetch<SearchAnswer>) returns (reply: Reply)
    ensures reply == SimilarReply(title, mediaType, hasKey, search)
  {
    if !hasKey {
      return Message(SerpKeyMissing);
    }
    var answer := search(SearchRequest(mediaType + "s similar to " + title, false));
    if answer.RequestFailed? {
      return Failure("Error finding similar titles");
    }
    if !Listed(answer.body.organic) {
      return Message(NoSimilar(title, mediaType));
    }
    var names := CollectTitles(Limit(answer.body.organic.value, ResultLimit));
    if names.None? {
      return Failure("Error finding similar titles");
    }
    if names.value == [] {
      return Message(NoSimilar(title, mediaType));
    }
    var lines := FormatAll(names.value, Bullet);
    reply := Message("Similar " + mediaType + "s to '" + title + "':\\n" + Join(lines, "\\n"));
  }

  /** The similar titles listed are exactly the non-empty cleaned titles of the first five
      results, each once, in the order they first appear. */
  lemma SimilarListsDistinctTitles(top: seq<SearchResult>)
    ensures var names := Distinct(Map(CleanTitles(), top));
            (forall t :: t in names <==> t != "" && exists i :: 0 <= i < |top| && CleanTitleOf(top[i]) == t)
            && (forall i, j :: 0 <= i < j < |names| ==> names[i] != names[j])
  {
    var ts := Map(CleanTitles(), top);
    DistinctFacts(ts);
    forall t | t != "" && (exists i :: 0 <= i < |top| && CleanTitleOf(top[i]) == t)
      ensures t in Distinct(ts)
    {
      var i :| 0 <= i < |top| && CleanTitleOf(top[i]) == t;
      assert ts[i] == t;
    }
  }

  // ---------------------------------------------------------------------------------------
  // News

  /** `source_info.get('name', 'N/A') if isinstance(source_info, dict) else 'N/A'`; a missing
      source is the empty dict. */
  function SourceName(source: Field<NewsSource>): string {
    match source
    case Absent => "N/A"
    case NoneValue => "N/A"
    case Present(OtherSource) => "N/A"
    case Present(SourceObject(name)) => Shown(name, "N/A")
  }

  /** The text of one news result; its snippet is not `None`. */
  function NewsItem(r: SearchResult): string {
    "Title: " + Shown(r.title, "N/A") + "\\n"
    + "Source: " + SourceName(r.source) + "\\n"
    + "Date: " + Shown(r.date, "N/A") + "\\n"
    + "Snippet: " + Take(Shown(r.snippet, "N/A"), SnippetLimit) + "..."
  }

  /** No result of `rs` has a `None` snippet (which slicing would raise on). */
  predicate AllSnippets(rs: seq<SearchResult>) {
    forall i :: 0 <= i < |rs| ==> !rs[i].snippet.NoneValue?
  }

  /** `NewsSearchTool._run`. */
  function NewsReply(query: string, hasKey: bool, search: SearchRequest -> Fetch<SearchAnswer>): Reply {
    if !hasKey then Message(SerpKeyMissing)
    else match search(SearchRequest(query, true))
      case RequestFailed => Failure("Error searching news")
      case Fetched(answer) =>
        if !Listed(answer.news) then Message("No recent news found for query: '" + query + "'")
        else
          var top := Limit(answer.news.value, NewsLimit);
          if !AllSnippets(top) then Failure("Error searching news")
          else Message("Recent News:\\n" + Join(Map(NewsItem, top), EntrySeparator))
  }

  /** The news loop: one item per result, or `None` at the first `None` snippet. */
  method FormatNews(top: seq<SearchResult>) returns (items: Option<seq<string>>)
    ensures items.None? <==> !AllSnippets(top)
    ensures items.Some? ==> items.value == Map(NewsItem, top)
  {
    var done: seq<string> := [];
    for i := 0 to |top|
      invariant AllSnippets(top[..i])
      invariant done == Map(NewsItem, top[..i])
    {
      if top[i].snippet.NoneValue? {
        assert !AllSnippets(top) by {
          assert top[i].snippet.NoneValue?;
        }
        return None;
      }
      done := done + [NewsItem(top[i])];
    }
    assert top[..|top|] == top;
    items := Some(done);
  }

  /** The news tool with its loop. */
  method RunNews(query: string, hasKey: bool, search: SearchRequest -> Fetch<SearchAnswer>) returns (reply: Reply)
    ensures reply == NewsReply(query, hasKey, search)
  {
    if !hasKey {
      return Message(SerpKeyMissing);
    }
    var answer := search(SearchRequest(query, true));
    if answer.RequestFailed? {
      return Failure("Error searching news");
    }
    if !Listed(answer.body.news) {
      return Message("No recent news found for query: '" + query + "'");
    }
    var items := FormatNews(Limit(answer.body.news.value, NewsLimit));
    if items.None? {
      return Failure("Error searching news");
    }
    reply := Message("Recent News:\\n" + Join(items.value, EntrySeparator));
  }

  /** A news answer with results and snippets shows one item for each of its first three
      results, in order; a source that is not an object reads "N/A". */
  lemma NewsShowsFirstThree(query: string, search: SearchRequest -> Fetch<SearchAnswer>)
    requires search(SearchRequest(query, true)).Fetched?
    requires Listed(search(SearchRequest(query, true)).body.news)
    requires AllSnippets(Limit(search(SearchRequest(query, true)).body.news.value, NewsLimit))
    ensures var news := search(SearchRequest(query, true)).body.news.value;
            var n := if |news| < 3 then |news| else 3;
            NewsReply(query, true, search)
            == Message("Recent News:\\n" + Join(seq(n, i requires 0 <= i < n => NewsItem(news[i])), EntrySeparator))
    ensures forall r: SearchResult :: !r.source.Present? || r.source.value.OtherSource? ==> SourceName(r.source) == "N/A"
  {
    var news := search(SearchRequest(query, true)).body.news.value;
    var top := Limit(news, NewsLimit);
    var n := if |news| < 3 then |news| else 3;
    assert |top| == n;
    assert Map(NewsItem, top) == seq(n, i requires 0 <= i < n => NewsItem(news[i]));
  }

  // ---------------------------------------------------------------------------------------
  // Trending media

  /** The query of the trending tool in `year`. */
  function TrendingQuery(mediaType: string, year: int): string {
    if mediaType == "movie" then "trending " + mediaType + "s " + IntToString(year)
    else "best selling books " + IntToString(year)
  }

  /** A result the trending loop lists: a truthy title that does not open with
      "People also ask". A `None` title is falsy and skipped. */
  predicate Trending(r: SearchResult) {
    r.title.Present? && r.title.value != "" && !IsPrefix(PeopleAlsoAsk, r.title.value)
  }

  /** The item of a listed result, whose snippet is not `None`. */
  function TrendingItem(r: SearchResult): string
    requires Trending(r)
  {
    "• " + r.title.value + "\\n  " + Take(Shown(r.snippet, ""), SnippetLimit) + "..."
  }

  /** The item of a result, if the loop lists it. */
  function TrendingEntryOf(): SearchResult -> Option<string> {
    (r: SearchResult) => if Trending(r) then Some(TrendingItem(r)) else None
  }

  function KeepAll(): string -> bool {
    (s: string) => true
  }

  /** No listed result of `rs` has a `None` snippet. */
  predicate ListedSnippets(rs: seq<SearchResult>) {
    forall i :: 0 <= i < |rs| && Trending(rs[i]) ==> !rs[i].snippet.NoneValue?
  }

  /** `TrendingMediaTool._run`; `year` is the current year the source reads from the clock. */
  function TrendingReply(mediaType: string, year: int, hasKey: bool, search: SearchRequest -> Fetch<SearchAnswer>): Reply {
    if !hasKey then Message(SerpKeyMissing)
    else match search(SearchRequest(TrendingQuery(mediaType, year), false))
      case RequestFailed => Failure("Error searching trending media")
      case Fetched(answer) =>
        if !Listed(answer.organic) then Message("No trending " + mediaType + "s found.")
        else
          var top := Limit(answer.organic.value, ResultLimit);
          if !ListedSnippets(top) then Failure("Error searching trending media")
          else
            var items := KeepParsed(top, TrendingEntryOf(), KeepAll());
            if items == [] then Message("No trending " + mediaType + "s found.")
            else Message("Currently Trending " + TitleCase(mediaType) + "s:\\n" + Join(items, "\\n"))
  }

  /** The trending loop: the items of the listed results, or `None` at the first listed result
      with a `None` snippet. */
  method CollectTrending(top: seq<SearchResult>) returns (items: Option<seq<string>>)
    ensures items.None? <==> !ListedSnippets(top)
    ensures items.Some? ==> items.value == KeepParsed(top, TrendingEntryOf(), KeepAll())
  {
    var done: seq<string> := [];
    for i := 0 to |top|
      invariant ListedSnippets(top[..i])
      invariant done == KeepParsed(top[..i], TrendingEntryOf(), KeepAll())
    {
      assert top[..i + 1][..i] == top[..i];
      if Trending(top[i]) {
        if top[i].snippet.NoneValue? {
          assert !ListedSnippets(top) by {
            assert Trending(top[i]) && top[i].snippet.NoneValue?;
          }
          return None;
        }
        done := done + [TrendingItem(top[i])];
      }
    }
    assert top[..|top|] == top;
    items := Some(done);
  }

  /** The trending tool with its loop. */
  method RunTrending(mediaType: string, year: int, hasKey: bool, search: SearchRequest -> Fetch<SearchAnswer>)
    returns (reply: Reply)
    ensures reply == TrendingReply(mediaType, year, hasKey, search)
  {
    if !hasKey {
      return Message(SerpKeyMissing);
    }
    var answer := search(SearchRequest(TrendingQuery(mediaType, year), false));
    if answer.RequestFailed? {
      return Failure("Error searching trending media");
    }
    if !Listed(answer.body.organic) {
      return Message("No trending " + mediaType + "s found.");
    }
    var items := CollectTrending(Limit(answer.body.organic.value, ResultLimit));
    if items.None? {
      return Failure("Error searching trending media");
    }
    if items.value == [] {
      return Message("No trending " + mediaType + "s found.");
    }
    reply := Message("Currently Trending " + TitleCase(mediaType) + "s:\\n" + Join(items.value, "\\n"));
  }

  /** The trending list holds exactly the items of the first five results with a truthy title
      that is not a "People also ask" box, and nothing else. */
  lemma TrendingListsOnlyTitledResults(top: seq<SearchResult>)
    ensures var items := KeepParsed(top, TrendingEntryOf(), KeepAll());
            (forall s :: s in items ==> exists i :: 0 <= i < |top| && Trending(top[i]) && s == TrendingItem(top[i]))
            && (forall i :: 0 <= i < |top| && Trending(top[i]) ==> TrendingItem(top[i]) in items)
  {
    KeepParsedSound(top, TrendingEntryOf(), KeepAll());
    KeepParsedComplete(top, TrendingEntryOf(), KeepAll());
  }

  /** Only movies are searched as trending titles of the year; any other media type asks for
      best-selling books. */
  lemma TrendingQueryByType(year: int)
    ensures TrendingQuery("movie", year) == "trending movies " + IntToString(year)
    ensures forall t :: t != "movie" ==> TrendingQuery(t, year) == "best selling books " + IntToString(year)
  {
  }
}
