# Movie_Book_CrewAI core, modelled in Dafny

This project models the core of a media recommendation assistant. A crew of LLM agents
(analysis, movie, book, TV, research and editor) is asked for movie, book or TV
recommendations. The model covers the parts of that system that are plain program logic:

- **`RecommendationCrew` run.** It validates the input and picks between the fast path (a
  request such as "action movies" skips the analysis agent) and the full crew. It turns the
  crew's final answer into recommendation records (a JSON list, else a line-by-line scan of
  structured text) and post-processes them: defaults, ratings normalised to numbers, years cut
  to their first part. It fills in missing ratings from TMDB or Google Books through a
  persistent rating cache, and falls back to canned recommendations when nothing can be parsed
  or the run fails.
- **Older `MediaRecommendationCrew` (`media_crew.py`).** Its task list, its result parser,
  its own structured-text scanner (which gives up on a capitalised keyword) and its fallback
  list.
- **`PersistentCache`.** The JSON-file cache with time-to-live, one-second save debouncing,
  expiry cleanup and a save on finalisation.
- **`cache_api_call` decorator.** Its cache keys: the first argument is dropped and keyword
  arguments are sorted. A cached value is served unless it is `None`.
- **`PersonalizationManager`.** Preferences, a history capped at 50 requests, likes and
  dislikes capped at 100, the user context text, and insights with a success rate.
- **Agent tools.**
  - TMDB movie and TV search, popular and discover tools: year sanitising, genre labels, the
    trailer lookup, the genre filter, the first-five limit, the genre-name table lookup and
    the TV season counts.
  - Google Books search and details tools.
  - SerpAPI similar-titles, news and trending tools.

Two kinds of state are modelled. Where the source changes things in place (the cache, the
personalization store, the crew's rating cache), the model is a class with fields and
`modifies` clauses. Every loop statement of the modelled code is a method with loop
invariants, proved equal to a specification function. Comprehensions, `any(...)` tests and
regular-expression alternatives are functions. The properties the source promises are lemmas about those functions.

The outside world enters as parameters:

- **Services.** The HTTP answers of TMDB, Google Books and SerpAPI, the crew's kickoff result
  and the JSON finder and decoder.
- **Clock.** `now`, a timestamp string, the current year.
- **Environment variables.** Key flags.
- **Disk writes.** Whether a write succeeds (`writeOk`). What is on disk is tracked as a ghost
  snapshot (`file`, `stored`).

Each tool answers with a `Reply`: its text (`Message`), or `Failure(context)` for a Python
exception caught and reported as `"Error ...: <exception>"`. The text of a single record or
entry is a `render` or `show` parameter. The text around the entries (headers, separators,
"not found" messages) is modelled literally.

## Model

| member | source | states |
|---|---|---|
| TtlCache.PersistentCache.constructor | cache_manager.py:32-73 | The cache path is `cache_dir/cache_file`. Entries are the well-formed pairs of a readable file, or empty. A missing file is written at once (empty) when the write succeeds. |
| TtlCache.LoadEntries | cache_manager.py:56-73 | A readable file gives exactly its two-element lists as entries; a missing or unreadable file gives no entries. |
| TtlCache.LoadPairs | cache_manager.py:63-65 | The loop over the file's items gives the entries of the load specification. |
| TtlCache.PersistentCache.SaveToDisk | cache_manager.py:75-102 | An unforced save within a second of the last one only marks the cache dirty. Otherwise a successful write stores exactly the serialised entries, records the time and clears the flag. A write that fails leaves the file, the time and the flag as they were (a failing `open`). Entries never change. |
| TtlCache.PersistentCache.Get | cache_manager.py:104-128 | Answers the value unless the entry is expired under the ttl. An expired entry is deleted and the cache marked dirty. Disk and save time are untouched. |
| TtlCache.PersistentCache.Set | cache_manager.py:130-141 | Stores the value stamped with `now` under the key, then force-saves the whole map. |
| TtlCache.PersistentCache.Clear | cache_manager.py:143-148 | Empties the entries and force-saves an empty object. |
| TtlCache.PersistentCache.CleanupExpired | cache_manager.py:150-169 | Keeps exactly the entries younger than the ttl. It saves only when something was removed. |
| TtlCache.PersistentCache.GetStats | cache_manager.py:171-178 | Reports the number of entries and the cache file path. |
| TtlCache.PersistentCache.Finalize | cache_manager.py:180-183 | A dirty cache is force-saved. A clean one is left as it is. |
| TtlCache.SetThenGet | cache_manager.py:104-141 | With a positive ttl, a value just set is read back. |
| TtlCache.NoTtlNeverExpires | cache_manager.py:116-128 | Without a ttl every stored value is answered and nothing is evicted. |
| TtlCache.ExpiredReadsAbsent | cache_manager.py:119-126 | An expired key reads as absent and is removed, shrinking the map by one. |
| TtlCache.EvictKeepsOtherKeys | cache_manager.py:119-126 | A lookup's eviction touches no other key. |
| TtlCache.UnexpiredExactly | cache_manager.py:150-169 | A key survives cleanup if and only if it is younger than the ttl, with its entry unchanged. |
| TtlCache.LoadAfterSave | cache_manager.py:56-102 | Loading what a save wrote gives back exactly the saved entries. |
| TtlCache.LoadKeepsPairsOnly | cache_manager.py:62-65 | A loaded key is exactly a stored key whose value is a `{timestamp, value}` pair, with that pair's data. |
| CacheDecorator.KwargsOrderIrrelevant | utils/cache_decorator.py:32-34 | Two calls whose keyword arguments are the same set, in any order, get the same cache key. |
| CacheDecorator.CacheKey | utils/cache_decorator.py:29-34 | The key is the function name, the `str` of the positional arguments after the first, and the `str` of the keyword arguments sorted by name, joined by colons. |
| CacheDecorator.ReprPlainText | utils/cache_decorator.py:34 | A string argument without quotes, backslashes or control characters appears in the key as itself between single quotes. |
| CacheDecorator.ReprApostrophe | utils/cache_decorator.py:34 | A string argument with an apostrophe and no double quote appears between double quotes. |
| CacheDecorator.QuotesSeparateKeys | utils/cache_decorator.py:30-34 | Calls whose first keyed string arguments are shown under different quotes never share a key. |
| CacheDecorator.SplitLookingTextKeptApart | utils/cache_decorator.py:30-34 | `f(x, "a', 'b", "c")` and `f(x, "a", "b", "c")` get different keys. |
| CacheDecorator.FirstArgumentIgnored | utils/cache_decorator.py:29-30 | The first positional argument (the bound `self`) does not enter the key. |
| CacheDecorator.NamesSeparateKeys | utils/cache_decorator.py:34 | Different function names (without a colon) never share a key. |
| CacheDecorator.SortByKey | utils/cache_decorator.py:33 | The sorted keyword arguments are a permutation of the given ones, strictly ordered by name. |
| CacheDecorator.Call | utils/cache_decorator.py:27-50 | A cached non-`None` value is returned without calling the function. Otherwise the function is called: its result is returned and stored under the key, and an exception propagates. A hit, an exception or a failed write leaves the file and the save time alone; a stored result is saved at once, at the end of the call. |
| CacheDecorator.NoneNeverServed | utils/cache_decorator.py:37-41 | A stored `None` is never served, so the function runs again. |
| CacheDecorator.StoredResultServed | utils/cache_decorator.py:37-40 | A stored non-`None` result within the ttl is served. |
| JsonValue.RoundTenths | crew/orchestrator.py:543-549 | `round(x, 1)` picks the nearest tenth, ties to even. |
| JsonValue.Round1Idempotent | crew/orchestrator.py:543-549 | Rounding a rounded rating again changes nothing. |
| JsonValue.ParseFloatExamples | crew/orchestrator.py:543-549 | `float("8.5")` is 8.5 and `float("N")` raises. |
| Personalization.PersonalizationManager.constructor | personalization_manager.py:8-20 | The store is the saved dict when the file exists and parses, otherwise empty. |
| Personalization.PersonalizationManager.Save | personalization_manager.py:22-28 | A successful write stores the current data. A write that fails leaves the file as it was (a failing `open`). |
| Personalization.PersonalizationManager.SaveUserPreferences | personalization_manager.py:30-49 | Replaces only this user's preferences (the user is created if new), then saves. The history caps are preserved. |
| Personalization.PersonalizationManager.UpdateUserHistory | personalization_manager.py:51-79 | Appends an entry with the request and the recommendations' title, type and genre, keeping the last 50, then saves. |
| Personalization.PersonalizationManager.RecordFeedback | personalization_manager.py:122-142 | For a known user, appends to likes or dislikes (last 100 kept) and saves. An unknown user changes nothing. |
| Personalization.PersonalizationManager.ClearUserHistory | personalization_manager.py:144-153 | A known user's record is reset to empty and saved. An unknown user changes nothing. |
| Personalization.PersonalizationManager.GetUserContext | personalization_manager.py:81-120 | An unknown user gets the new-user sentence. A known one gets the preference, history and feedback lines joined by newlines. |
| Personalization.ContextLines | personalization_manager.py:81-120 | The context lines: the preferences, the last three of the last five requests numbered from 1, the last five liked and the last three disliked items, each list with its header and left out when empty. |
| Personalization.PersonalizationManager.GetUserInsights | personalization_manager.py:155-179 | An unknown user gets nothing. A known one gets the genre and type counts over the whole history and the success rate of the feedback. |
| Personalization.SuccessRate | personalization_manager.py:174-178 | The rate lies in 0..100. It is 0 without feedback or without likes, and 100 without dislikes. |
| Personalization.AppendItems | personalization_manager.py:106-118 | The feedback loop appends the header and the last n items, in order. |
| Personalization.AppendHistory | personalization_manager.py:98-104 | The history loop appends the numbered last three requests. |
| Personalization.CountRecs | personalization_manager.py:169-172 | The counting loop gives the genre and type multisets of the recommendations. |
| Personalization.RequestsOfLast | personalization_manager.py:98-104 | The requests of the last n entries are the last n requests. |
| Personalization.CountsCoverHistory | personalization_manager.py:168-172 | Every recommendation of the history is counted once, by genre and by type. |
| Personalization.LastOfLast | personalization_manager.py:98-118 | Taking the last three of the last five is taking the last three. |
| Personalization.ContextBounds | personalization_manager.py:81-120 | The context shows at most three requests, five likes and three dislikes. The first numbered line is the oldest of the last three requests. |
| Personalization.ClearedContextEmpty | personalization_manager.py:144-153 | A cleared user's context is empty text, unlike a new user's. |
| Personalization.CappedAppend | personalization_manager.py:73-77 | A capped append keeps at most `cap` items and ends with the new one. Below the cap it is a plain append. |
| CrewTasks.ValidationError | crew/orchestrator.py:171-181 | Input is accepted exactly when the request is not blank, the type is movie, book or tv, and the count is within 1..10. |
| CrewTasks.CheckFastPath | crew/orchestrator.py:230-253 | The loop over the media kinds gives the fast-path answer of the specification: the first kind whose pattern matches, with its genre. |
| CrewTasks.FastPathExact | crew/orchestrator.py:230-253 | A request matching `<genre> <type suffix>` after lower-casing and stripping gets that type and genre, with "sci fi" read as "sci-fi". |
| CrewTasks.FastPathSound | crew/orchestrator.py:230-253 | A fast-path answer always comes from a genre and suffix that match the request. |
| CrewTasks.FastPathNone | crew/orchestrator.py:230-253 | A request no pattern matches takes no fast path. |
| CrewTasks.MatchUnique | crew/orchestrator.py:237-243 | At most one genre and one type match a request, so the order of the patterns does not matter. |
| CrewTasks.FastPathActionMovies | crew/orchestrator.py:230-253 | "  Action Movies " takes the fast path to movies, genre "action". |
| CrewTasks.FastPathSciFiBooks | crew/orchestrator.py:230-253 | "sci fi books" takes the fast path to books, genre "sci-fi". |
| CrewTasks.FastPathActionTvShows | crew/orchestrator.py:237-247 | "action tv shows" matches no pattern (the TV suffix is one word), so it takes the full crew. |
| CrewTasks.FastPathSentence | crew/orchestrator.py:245-247 | A sentence that only mentions a genre takes no fast path (the pattern is anchored). |
| CrewTasks.CreateFastPathCrew | crew/orchestrator.py:255-283 | The fast crew runs the specialist task of the detected type, then the editor. |
| CrewTasks.CreateCrew | crew/orchestrator.py:285-320 | The full crew runs analysis, the specialist of the current type (movie by default), research when a news keyword occurs, then the editor. |
| CrewTasks.FullTasksShape | crew/orchestrator.py:285-320 | For a valid type: analysis first, editor last, the type's specialist second. Research is present, and there are four tasks, exactly when the request names a news keyword. |
| CrewTasks.FastPathIgnoresMediaType | crew/orchestrator.py:139-146 | On the fast path the chosen tasks depend only on the request, not on the selected media type. |
| CrewTasks.EditorLastOnce | crew/orchestrator.py:255-320 | Every run has at least two tasks and ends with the editor, exactly once. |
| CrewTasks.ResearchExamples | crew/orchestrator.py:302-305 | "latest sci-fi" calls for research and "Dune" does not. |
| CrewParser.ParseJsonSafely | crew/orchestrator.py:429-453 | Answers the titled dicts of a decoded list when there is at least one. A decode error, a document that is not a list, or a list without a titled dict gives nothing. |
| CrewParser.KeepTitledSound | crew/orchestrator.py:436-439 | Every kept record is a titled record of the decoded list. |
| CrewParser.KeepTitledComplete | crew/orchestrator.py:436-439 | Every titled record of the list is kept. |
| CrewParser.ParseStructuredText | crew/orchestrator.py:455-485 | The scanning loop gives the records of the structured-text specification. |
| CrewParser.ScanLine | crew/orchestrator.py:462-474 | One line of the loop is one step of the line rules: a blank line is skipped, a marker line finishes a titled record, and the line's field goes into the current record. |
| CrewParser.FindField | crew/orchestrator.py:510-515 | The loop over the patterns gives the field of the first pattern, in table order, that occurs in the lower-cased line. |
| CrewParser.ExtractFieldInto | crew/orchestrator.py:495-515 | The found field, if any, takes the line's value; the record is otherwise unchanged. |
| CrewParser.ScanInvariant | crew/orchestrator.py:455-485 | Every record the scan finishes is titled and has only text fields. |
| CrewParser.ScanRecordsText | crew/orchestrator.py:455-485 | Every scanned record is titled, its fields are text, and its year can be post-processed. |
| CrewParser.BlankLineSkipped | crew/orchestrator.py:463-465 | A blank line changes nothing. |
| CrewParser.UntitledKeepsAccumulating | crew/orchestrator.py:467-474 | Before a title is known, each line only adds a field to the record under way. |
| CrewParser.FirstFieldSound | crew/orchestrator.py:510-515 | The field chosen for a line is the first pattern of the table that occurs, and no pattern means no field. |
| CrewParser.ExtractFieldFirstEntry | crew/orchestrator.py:495-515 | A line sets the field of its first matching pattern to the text after the colon, or leaves the record unchanged. |
| CrewParser.ExtractedValueAfterColon | crew/orchestrator.py:512-514 | A line with a field pattern has a colon, and the value is the stripped text after the first colon. |
| CrewParser.TitlePatternsWin | crew/orchestrator.py:497-498 | A line containing `title:`, `movie:`, `book:`, `tv:` or `show:` sets the title before any other field. |
| CrewParser.NormalizeRating | crew/orchestrator.py:539-551 | Only the rating changes: it becomes its normalised value. A record without a rating is unchanged. |
| CrewParser.NormalRatingIdempotent | crew/orchestrator.py:539-551 | Normalising a normalised rating changes nothing. |
| CrewParser.NotApplicableStaysNotApplicable | crew/orchestrator.py:544-551 | "N/A" stays "N/A". |
| CrewParser.RatingOutOfTenParsed | crew/orchestrator.py:546-547 | "8.5/10" becomes 8.5. |
| CrewParser.GarbageRatingNotApplicable | crew/orchestrator.py:548-551 | Text that is not a number becomes "N/A". |
| CrewParser.PostProcessRecommendations | crew/orchestrator.py:521-537 | Every record gets the defaults and a normalised rating, and its year is cut at the first hyphen. |
| CrewParser.PostProcessFields | crew/orchestrator.py:521-537 | A processed record has every default key, keeps every other field, and its year has no hyphen. |
| CrewParser.PostProcessIdempotent | crew/orchestrator.py:521-537 | Post-processing twice is the same as once. |
| CrewParser.WithDefaultsKeys | crew/orchestrator.py:524-530 | Defaults add exactly the missing default keys. |
| CrewParser.WithDefaultsKeeps | crew/orchestrator.py:524-530 | Defaults never overwrite a present field. |
| CrewParser.WithDefaultsComplete | crew/orchestrator.py:524-530 | A record with every default key is unchanged. |
| CrewParser.SetDefaultFacts | crew/orchestrator.py:524-530 | `setdefault` adds the key only when it is missing and keeps every existing value. |
| CrewParser.ParseResult | crew/orchestrator.py:376-406 | A list answer is returned as it is. A text answer uses the JSON found in it, else the structured-text records when there are any; otherwise nothing. |
| CrewParser.ParsedResult | crew/orchestrator.py:376-406 | A list result is passed through. Otherwise found JSON decides alone (its titled records, or nothing), and without JSON the structured records, when there are any. |
| CrewParser.JsonTakesPrecedence | crew/orchestrator.py:386-392 | When the text holds non-empty JSON, whether anything is parsed depends only on that JSON. |
| CrewParser.JsonRecordsUnchanged | crew/orchestrator.py:386-392 | Records parsed from a JSON list are elements of that list. |
| CrewOrchestrator.RecommendationCrew.constructor | crew/orchestrator.py:33-67 | The rating cache is `.cache/rating_cache.json`, loaded from disk. Its ttl is `RATING_CACHE_TTL` when set and 86400 seconds otherwise. No request is under way. |
| CrewOrchestrator.FetchSpec | crew/orchestrator.py:581-667 | An untitled record or unknown type gets no rating, as do movies and TV without a TMDB key. An unexpired non-`None` cache entry is answered; otherwise the service's rating is cached and answered, rounded to one decimal and non-zero for TMDB, as given for Books. |
| CrewOrchestrator.EnrichSpec | crew/orchestrator.py:559-579 | Records are enriched front to back; a record with a usable rating is left alone, and the first non-record ends the enrichment. |
| CrewOrchestrator.ProcessSpec | crew/orchestrator.py:354-374 | Nothing parsed, or an empty list, gives the fallback; otherwise the parsed records are enriched. |
| CrewOrchestrator.RecommendationCrew.FetchRating | crew/orchestrator.py:581-667 | The rating and the cache afterwards are those of the lookup specification: cache first, then the service. A TMDB rating is rounded and must be non-zero. The file is either untouched or holds the cache's entries after a successful save. |
| CrewOrchestrator.RecommendationCrew.RateOne | crew/orchestrator.py:562-574 | A record whose rating is missing, empty, `N/A` or `Unknown` gets the fetched rating, or `N/A` when none is found; any other record is kept, with the cache unchanged. The file is either untouched or holds the cache's entries after a successful save. |
| CrewOrchestrator.RecommendationCrew.EnrichRatings | crew/orchestrator.py:559-579 | The enrichment loop gives the records and cache of the specification, front to back. With writes failing, the cache file is untouched. |
| CrewOrchestrator.RecommendationCrew.ProcessCrewResult | crew/orchestrator.py:354-374 | The parsed records, enriched front to back, or the fallback when nothing parses. |
| CrewOrchestrator.RecommendationCrew.Run | crew/orchestrator.py:90-169 | Invalid input or a failed kickoff gives the fallback with the rating cache untouched: entries, file, save time and dirty flag. Otherwise the fast-path or full tasks run and the answer is processed. The stored media type is cleared at the end; the stored request is kept. |
| CrewOrchestrator.RecommendationCrew.RunCrew | crew/orchestrator.py:118-169 | The fast-path crew or the full crew runs the tasks of the request; a failed kickoff gives the fallback and leaves the rating cache untouched, a finished one the processed answer; the stored media type is cleared and the request kept. |
| CrewOrchestrator.FallbackShape | crew/orchestrator.py:669-691 | Each fallback list holds two titled records of the requested type (movies for any other type) with numeric ratings that enrichment leaves alone. |
| CrewOrchestrator.EnrichKeepsLength | crew/orchestrator.py:559-579 | Enrichment keeps the number of recommendations. |
| CrewOrchestrator.EnrichTouchesOnlyMissingRatings | crew/orchestrator.py:563-575 | Enrichment changes only ratings, and only ratings that were missing, `None`, empty, "N/A" or "Unknown". |
| CrewOrchestrator.EnrichStopsAtNonRecord | crew/orchestrator.py:559-579 | An element that is not a record, and everything after it, is left unchanged. |
| CrewOrchestrator.FetchNumeric | crew/orchestrator.py:581-667 | With only numbers in the cache, a lookup answers a number or nothing and caches only numbers. |
| CrewOrchestrator.EnrichLeavesNoMissingRating | crew/orchestrator.py:559-579 | Every record up to the first non-record ends with a number or "N/A" as its rating. |
| CrewOrchestrator.CacheHitNeedsNoNetwork | crew/orchestrator.py:607-654 | A cached rating is answered whatever the service would say. |
| CrewOrchestrator.NoTmdbKeyNoRating | crew/orchestrator.py:604-650 | Without a TMDB key no movie or TV rating is found and the cache is untouched. |
| CrewOrchestrator.FetchedRatingServedNext | crew/orchestrator.py:581-667 | A fetched rating is cached, so the next lookup at the same time answers it without the service. |
| CrewOrchestrator.BookRatingsNotRounded | crew/orchestrator.py:638-642 | A Google Books rating is stored as given (4.25 stays 4.25). |
| CrewOrchestrator.UnparsedAnswerFallsBack | crew/orchestrator.py:354-374 | An answer that parses to nothing gives the fallback and leaves the cache alone. |
| LegacyCrew.BuildTasks | media_crew.py:222-231 | Analysis, the movie task for movie or both, the book task for book or both, then research and the editor. |
| LegacyCrew.LegacyTasksShape | media_crew.py:222-231 | Analysis comes first and research and the editor last. The movie task runs exactly for movie or both, the book task exactly for book or both. |
| LegacyCrew.ScanLine | media_crew.py:320-349 | One line either raises or gives the next scanner state of the specification. |
| LegacyCrew.ExtractValue | media_crew.py:366-371 | For the first keyword in the lower-cased line, the stripped text after its first occurrence in the line as written; none if it occurs only in another case (the split raises); the empty text if no keyword occurs. |
| LegacyCrew.ExtractValueOf | media_crew.py:366-371 | The loop over the keywords gives the value of the specification. |
| LegacyCrew.AddPlaceholders | media_crew.py:356-358 | Every record gets placeholder similar titles if it has none. |
| LegacyCrew.LegacyParseStructuredText | media_crew.py:313-364 | The scan gives the records of the specification, or nothing once a line raises. |
| LegacyCrew.LegacyParseResult | media_crew.py:257-291 | A list is returned as it is, and a JSON list found in the text as decoded. Otherwise the scanned records. A decode error or no records gives the fallback for "both". |
| LegacyCrew.LegacyParsed | media_crew.py:257-291 | A list result is passed through. Found JSON that does not decode gives the fallback for both types, and a decoded list is kept as it is. Otherwise the structured records, or the fallback. |
| LegacyCrew.LegacyRun | media_crew.py:200-255 | A template that fails to format raises before the crew is built. A failed kickoff gives the fallback for the type. Otherwise the answer is parsed. |
| LegacyCrew.LegacyFallbackShape | media_crew.py:373-428 | Two movies, two books, or for any other type two movies and a book, each with a text rating. |
| LegacyCrew.ScanFailureSticks | media_crew.py:313-364 | Once a line raises, the whole scan has raised. |
| LegacyCrew.LegacyScanInvariant | media_crew.py:320-353 | Every finished record has a title and a type. |
| LegacyCrew.LegacyRecordsComplete | media_crew.py:313-364 | Every returned record has a title, a type and similar titles. |
| LegacyCrew.CapitalisedKeywordRaises | media_crew.py:366-371 | A keyword present only in another case makes the value extraction raise. |
| LegacyCrew.CapitalTitleGivesNothing | media_crew.py:313-371 | "Title: X" makes the scanner give up. |
| LegacyCrew.LowerTitleParses | media_crew.py:313-371 | "title: X" gives one book titled "X" with placeholder similar titles. |
| LegacyCrew.JsonListUnfiltered | media_crew.py:272-277 | A JSON list found in the text is returned as decoded, untitled elements included. |
| ToolCommon.Limit | api/movie_tools.py:88 | `xs[:n]`: a prefix of at most n items, the whole list when it is short. |
| ToolCommon.FormatAll | api/movie_tools.py:96-106 | The formatting loop renders every entry, in order. |
| ToolCommon.SanitizedYear | api/movie_tools.py:57-71 | A year sent to the search is never 0. |
| ToolCommon.TextYearIsItsDigits | api/movie_tools.py:57-71 | A text year other than "none" or blank is sent as the number its digits spell, if any. |
| ToolCommon.YearExamples | api/movie_tools.py:57-71 | "2010s" is sent as 2010 and "abc" is not sent. |
| ToolCommon.KnownGenres | api/movie_tools.py:132-134 | Genre names are looked up for the ids; unknown ids are skipped. |
| ToolCommon.CollectGenres | api/movie_tools.py:122-134 | The genre loop gives the names of the first three known ids. |
| ToolCommon.KnownGenresEmpty | api/movie_tools.py:132-153 | No genre name exactly when no id is known, which shows "Unknown". |
| ToolCommon.KnownGenresAppend | api/movie_tools.py:132-134 | The name lookup distributes over concatenation. |
| ToolCommon.DateYear | api/movie_tools.py:137-143 | A non-empty date shows its first (up to four) characters; otherwise "N/A". |
| ToolCommon.Rating | api/movie_tools.py:146-152 | "N/A" exactly when there is no vote; otherwise a rating already rounded to one decimal. |
| ToolCommon.PosterUrl | api/movie_tools.py:145-155 | An image link exactly when the poster path is non-empty: the w500 base plus the path. |
| ToolCommon.FindTrailer | api/tv_tools.py:276-281 | The trailer loop answers the first YouTube trailer's link. |
| ToolCommon.FirstTrailerIsFirst | api/movie_tools.py:178-181 | No link exactly when no video is a YouTube trailer; otherwise the link of the first one. |
| ToolCommon.GuardedTrailer | api/movie_tools.py:163-184 | A falsy or "N/A" id, or a missing key, gives no link. |
| ToolCommon.LooseTrailer | api/movie_tools.py:461-475 | Only a falsy id gives no link. |
| ToolCommon.GuardedTrailerFromEndpoint | api/movie_tools.py:163-184 | A link comes from the videos endpoint's first YouTube trailer for a valid id with a key. |
| ToolCommon.BuildBasicDetails | api/movie_tools.py:113-157 | The loop-built record equals the basic details specification. |
| ToolCommon.BasicDetailsShape | api/movie_tools.py:113-157 | Genre "Unknown" without known ids, else the joined names. Rating "N/A" exactly without a vote. An image exactly for a non-empty poster. A trailer only for a real id with a key. |
| ToolCommon.ParsedDetails | api/movie_tools.py:326-357 | A popular entry fails to parse exactly when its `genre_ids` is `None`. |
| ToolCommon.BuildParsedDetails | api/movie_tools.py:326-357 | The loop-built record equals the parse specification. |
| ToolCommon.BuildAllBasic | api/movie_tools.py:86-91 | The result loop builds one record per result. |
| ToolCommon.BuildAllParsed | api/movie_tools.py:300-305 | The popular loop keeps the parsed entries that pass the genre filter. |
| ToolCommon.CollectParsed | api/book_tools.py:55-60 | The parse-and-filter loop equals its specification. |
| ToolCommon.KeepParsedSound | api/movie_tools.py:300-305 | Every kept record is the parse of some input and passes the filter. |
| ToolCommon.KeepParsedComplete | api/movie_tools.py:300-305 | Every input that parses and passes the filter is kept. |
| ToolCommon.KeepParsedTotal | api/movie_tools.py:86-91 | With a total parser and no filter, keeping is mapping. |
| ToolCommon.GenreFilterIgnoresCase | api/movie_tools.py:304 | The genre filter ignores case: "DRAMA" matches "Crime, Drama". |
| ToolCommon.PopularShowsMatching | api/movie_tools.py:300-305 | The popular list is exactly the parsed first-five results whose genre contains the filter. |
| ToolCommon.LookupGenreId | api/movie_tools.py:395-409 | The lookup loop equals the discover lookup specification. |
| ToolCommon.ExactGenreAt | api/movie_tools.py:403 | With distinct names, an exact name gives its id. |
| ToolCommon.ExactGenreMiss | api/movie_tools.py:403 | A name not in the table has no exact id. |
| ToolCommon.PartialGenreAt | api/movie_tools.py:404-409 | A partial match gives the id of the first name the genre contains. |
| ToolCommon.PartialGenreMiss | api/movie_tools.py:404-409 | A genre containing no name has no id. |
| ToolCommon.DiscoverExactWins | api/movie_tools.py:403-409 | An exact name wins over partial matches. |
| ToolCommon.DiscoverFirstContained | api/tv_tools.py:428-433 | Without an exact name, the first contained name in table order decides, and no contained name means no id. |
| MovieTools.RunSearch | api/movie_tools.py:41-111 | The search loops give the reply of the search specification. |
| MovieTools.SearchReply | api/movie_tools.py:41-111 | Without a key, the key message. A non-200 answer gives the API error and `None` results the tool's error. Otherwise the first five results are formatted, or "No movies found" when there are none. |
| MovieTools.SearchShowsFirstFive | api/movie_tools.py:41-111 | With results, one entry for each of the first five, in order. "No movies found" only for an empty list. |
| MovieTools.RunPopular | api/movie_tools.py:270-324 | The popular loops give the reply of the popular specification. |
| MovieTools.PopularReply | api/movie_tools.py:270-324 | The fallback messages for a missing key, a non-200 answer and no results. Otherwise the parsed first five that pass the genre filter, or the no-match message. |
| MovieTools.RunDiscover | api/movie_tools.py:388-459 | The discover loops give the reply of the discover specification. |
| MovieTools.DiscoverReply | api/movie_tools.py:388-458 | The request carries the looked-up genre id, the sort order and a truthy minimum rating. A non-200 answer gives its status and text; otherwise the first five results are formatted, or the no-result message. |
| MovieTools.DiscoverRatingShown | api/movie_tools.py:449 | A discover entry shows "N/A" exactly for a missing, `None` or zero vote, and otherwise the rounded vote. |
| MovieTools.DiscoverMovieKeysDistinct | api/movie_tools.py:395-401 | The discover genre names are distinct. |
| MovieTools.DiscoverSciFi | api/movie_tools.py:395-409 | "Sci-Fi" is genre 878. |
| MovieTools.DiscoverWarrior | api/movie_tools.py:395-409 | "Warrior" has no exact entry and resolves to War (10752) by containment. |
| TvTools.SeasonDetails | api/tv_tools.py:120-141 | A falsy or "N/A" id, or a missing key, gives no counts. Otherwise the counts come from the show endpoint. |
| TvTools.RunSearch | api/tv_tools.py:41-118 | The search loops, with one season lookup per show, give the reply of the search specification. |
| TvTools.SearchReply | api/tv_tools.py:41-118 | As the movie search, over the TV genres, with the season counts of each show. |
| TvTools.SearchTexts | api/tv_tools.py:96-112 | One season lookup and one formatted text per show, in the order of the shows. |
| TvTools.MissingIdHasNoSeasons | api/tv_tools.py:99-123 | A show without an id has no season counts. |
| TvTools.RunPopular | api/tv_tools.py:304-358 | The popular loops give the reply of the popular specification. |
| TvTools.PopularReply | api/tv_tools.py:304-358 | The fallback messages for a missing key, a non-200 answer and no results. Otherwise the parsed first five that pass the genre filter, or the no-match message. |
| TvTools.RunDiscover | api/tv_tools.py:412-482 | The discover loops give the reply of the discover specification. |
| TvTools.DiscoverReply | api/tv_tools.py:412-482 | As the movie discover over the TV genres, except that a `None` vote among the first five gives the tool's error. |
| TvTools.DiscoverTexts | api/tv_tools.py:461-477 | The loop completes exactly when no show has a `None` vote, and then formats every show in order. |
| TvTools.DiscoverVotes | api/tv_tools.py:462-481 | A missing vote shows 0, while a `None` vote among the first five makes the tool answer its error. |
| TvTools.DiscoverAction | api/tv_tools.py:419-428 | "Action" resolves to Action & Adventure (10759). |
| BookTools.SecureImage | api/book_tools.py:96 | An image exactly when the thumbnail is non-empty. |
| BookTools.SecureImageScheme | api/book_tools.py:96 | An http thumbnail is shown over https, and one without "http://" unchanged. |
| BookTools.PreviewUrl | api/book_tools.py:97 | The preview link when non-empty, else the info link. |
| BookTools.ParseBook | api/book_tools.py:85-101 | Parsing fails exactly when `volumeInfo`, `categories`, `imageLinks` or `description` is `None`. Otherwise: the defaults, a description of at most 300 characters cut from the original, and "N/A" exactly without a rating. |
| BookTools.ParseDetails | api/book_tools.py:144-161 | Parsing fails exactly when `volumeInfo`, `categories` or `imageLinks` is `None`, and gives the details' fields and defaults. |
| BookTools.ParsersAgree | api/book_tools.py:85-161 | The two parsers succeed together (except on a `None` description) and read the same title, authors, year and genre. |
| BookTools.ParseEmptyVolume | api/book_tools.py:85-101 | A volume without information parses to the defaults. |
| BookTools.RunSearch | api/book_tools.py:34-83 | The search loops give the reply of the search specification. |
| BookTools.SearchReply | api/book_tools.py:34-83 | Without a key, the key message; a failed request, the network error. Otherwise the parsed first five that pass the genre filter are formatted, the first one with `None` authors makes the tool fail, and none gives the not-found message. |
| BookTools.FormatBooks | api/book_tools.py:65-76 | The formatting loop renders every book, or stops at the first book whose authors are `None`. |
| BookTools.SearchShowsMatching | api/book_tools.py:55-63 | The search lists exactly the parsed first-five volumes whose genre contains the filter. |
| BookTools.DetailsReply | api/book_tools.py:110-142 | A missing key gives the key message and a failed request the network error. A volume that fails to parse gives "Book details not found.". A parsed volume without authors makes the join raise, giving the tool's error. Otherwise the reply is the details text of the parsed volume. |
| SharedTools.CleanTitleKeepsPlainTitles | api/shared_tools.py:55 | A title without either suffix is kept as it is. |
| SharedTools.CollectTitles | api/shared_tools.py:52-57 | The de-duplicating loop gives the distinct cleaned titles, or fails at the first `None` title. |
| SharedTools.DistinctFacts | api/shared_tools.py:52-57 | The listed titles are exactly the non-empty titles, each once. |
| SharedTools.DistinctPrefix | api/shared_tools.py:52-57 | Later results never change the titles already listed. |
| SharedTools.RunSimilar | api/shared_tools.py:29-65 | The similar-titles tool gives the reply of its specification. |
| SharedTools.SimilarReply | api/shared_tools.py:29-65 | The query is "<type>s similar to <title>". The distinct non-empty cleaned titles of the first five results are listed as bullets, or the no-similar message; a `None` title gives the tool's error. |
| SharedTools.SimilarListsDistinctTitles | api/shared_tools.py:52-57 | The listed titles are the non-empty cleaned titles of the first five results, without repeats. |
| SharedTools.FormatNews | api/shared_tools.py:95-105 | The news loop gives one item per result, or fails at the first `None` snippet. |
| SharedTools.RunNews | api/shared_tools.py:73-110 | The news tool gives the reply of its specification. |
| SharedTools.NewsReply | api/shared_tools.py:73-110 | The first three news results, one item each, or the no-news message; a `None` snippet gives the tool's error. |
| SharedTools.NewsShowsFirstThree | api/shared_tools.py:95-105 | The news reply shows one item for each of the first three results. A source that is not an object shows "N/A". |
| SharedTools.CollectTrending | api/shared_tools.py:141-146 | The trending loop lists the titled results, or fails at a listed result with a `None` snippet. |
| SharedTools.RunTrending | api/shared_tools.py:118-154 | The trending tool gives the reply of its specification. |
| SharedTools.TrendingReply | api/shared_tools.py:118-154 | The titled results of the first five, one line each under the "Currently Trending" header, or the no-trending message; a listed result with a `None` snippet gives the tool's error. |
| SharedTools.TrendingListsOnlyTitledResults | api/shared_tools.py:141-146 | The list holds exactly the items of the first five results whose title is truthy and does not start with "People also ask", in order. |
| SharedTools.TrendingQueryByType | api/shared_tools.py:124 | Movies search "trending movies <year>"; every other type searches "best selling books <year>". |

## Left out

- Network I/O: TMDB, Google Books and SerpAPI requests are answer parameters. Time-outs, retries, the shared HTTP session and `requests` dropping `None` parameters are not modelled.
- Entry text: the text of one record or entry (Python `str` of floats and `None`, f-string layout) is a `render`/`show` parameter. Headers, separators and messages are literal.
- Exceptions: an exception's text is reduced to the context of the `"Error ...: <exception>"` reply (`Failure(context)`).
- Payload types: each JSON field is `Absent`, `None` or a value of the expected type. A field holding an unexpected JSON type (a string where a list is read) is not modelled.
- MovieTools.DiscoverReply / TvTools.DiscoverReply: the random page of the discover request is not modelled; the request carries the genre, sort order and minimum rating only.
- The movie and TV details tools (`MovieDetailsTool`, `TVDetailsTool`) are not modelled, except their trailer loop (`FindTrailer`).
- Text functions: `lower`, `isdigit`, `strip` and `title` are ASCII-only. `float()` parses a sign, digits and one fraction only (no exponent, underscores, `inf` or `nan`). `round(x, 1)` is exact round-half-even on reals, not binary floating point.
- Clock, environment and disk: the clock, environment variables and write success are parameters. The files on disk are ghost snapshots.
- Concurrency: the thread-pool kickoff with a time-out (`_execute_crew_with_timeout`) and the cache's lock are not modelled.
- LLM framework: agents, task templates, step and task callbacks, logging and tracing are not modelled. The crew is a parameter from task list to kickoff result. JSON extraction and decoding (`_extract_json_from_text`, `json.loads`) are a `JsonCodec` parameter.
- `media_apis.py`, the Streamlit UI, `app.py`, the tests and the setup scripts are not part of this model.
- CacheDecorator.ReprText: non-ASCII characters that Python's `repr` escapes as not printable are shown as themselves; the printability table of Unicode is not modelled.
- Personalization.PersonalizationManager.GetUserContext: a liked or disliked item whose title or type is a number, list or object shows as empty text, where the source prints its `str()`. JSON numbers do not keep Python's int/float distinction, on which that text depends.
- TtlCache.PersistentCache.GetStats: the `file_exists` flag is not returned; it reads the file system at call time.
- TtlCache.PersistentCache.SaveToDisk: a failed write is modelled as a failing `open()`, which leaves the file as it was. A failure after `open(..., 'w')` has emptied the file (while `json.dump` writes, or on close) is not modelled; it would leave an empty or partial file that the next load reads as unreadable. The same holds for every cache method that saves (Set, Clear, CleanupExpired, Finalize, the constructor).
- Personalization.PersonalizationManager.Save: a failed write is modelled as a failing `open()`, which leaves the file as it was. A failure while `json.dump` writes into the emptied file is not modelled; the next load would start from an empty store. The same holds for the four methods that save after updating the store.
- CrewOrchestrator.RecommendationCrew.constructor: `RATING_CACHE_TTL` is taken as an already parsed natural number; a value that makes `int()` raise, and a negative one, are not modelled.
- CrewOrchestrator.RecommendationCrew.EnrichRatings: the contract states that the cache file is untouched when writes fail, but not which entries it holds when they succeed; a lookup that deletes an expired entry and then gets no rating from the service saves nothing, so the file holds the entries of the last save, which the contract does not name.
- CacheDecorator.Call: the decorated tool functions are modelled without the decorator. The decorator's effect is stated once, generically.
- ToolCommon.DiscoverFirstContained: the order dependence of the TV alias table is stated generally, not as a concrete lookup of a literal genre.
