/** The recommendation crew's driver (`MediaRecommendationCrew`): input validation, the choice
    between the fast-path and the full crew, processing of the crew's answer, rating enrichment
    through the persistent rating cache, and the fallback recommendations.

    The crew itself is the parameter `crew`, a function from the task list to what its kickoff
    produced; the rating services are the function `remote` of `Env`, which gives the first
    search hit's rating (`None` for a failed request, no hit or no rating); the TMDB key is a
    flag; the clock is one instant `now` per call. */
module CrewOrchestrator {
  import opened Wrappers
  import opened Text
  import opened JsonValue
  import opened TtlCache
  import opened CrewTasks
  import opened CrewParser

  /** `RATING_CACHE_TTL`'s default: a day. */
  const DefaultRatingTtl: nat := 86400

  /** The outside world a run sees. */
  datatype Env = Env(
    tmdbKey: bool,
    now: real,
    writeOk: bool,
    remote: (MediaKind, string) -> Option<real>)

  // ---------------------------------------------------------------------------------------
  // Fallback recommendations

  function Rec(title: string, kind: string, year: string, genre: string, rating: real,
               description: string, why: string, similar: seq<string>): (v: Value)
    ensures v.Obj? && Get(v.fields, "title") == Str(title) && Get(v.fields, "type") == Str(kind)
    ensures Get(v.fields, "rating") == Num(rating)
  {
    Obj(map[
      "title" := Str(title), "type" := Str(kind), "year" := Str(year), "genre" := Str(genre),
      "rating" := Num(rating), "description" := Str(description), "why_recommended" := Str(why),
      "similar_titles" := Arr(seq(|similar|, i requires 0 <= i < |similar| => Str(similar[i])))])
  }

  const FallbackMovies: seq<Value> := [
    Rec("Inception", "movie", "2010", "Sci-Fi, Thriller", 8.8,
        "A thief who steals corporate secrets through dream-sharing technology.",
        "Masterpiece of sci-fi cinema.", ["The Matrix"]),
    Rec("The Dark Knight", "movie", "2008", "Action, Crime", 9.0,
        "Batman sets out to dismantle the remaining criminal organizations.",
        "Defining superhero movie.", ["Batman Begins"])]

  const FallbackBooks: seq<Value> := [
    Rec("Project Hail Mary", "book", "2021", "Sci-Fi", 4.8,
        "A lone astronaut must save the earth.", "Engaging hard sci-fi.", ["The Martian"]),
    Rec("Dune", "book", "1965", "Sci-Fi", 4.7,
        "The story of Paul Atreides.", "Epic masterpiece.", ["Foundation"])]

  const FallbackTv: seq<Value> := [
    Rec("Breaking Bad", "tv", "2008", "Crime, Drama", 9.5,
        "A high school chemistry teacher turned manufacturing drug dealer.",
        "Widely considered one of the best shows ever made.", ["Better Call Saul", "Ozark"]),
    Rec("Stranger Things", "tv", "2016", "Sci-Fi, Horror", 8.7,
        "When a young boy vanishes, a small town uncovers a mystery.",
        "Nostalgic and thrilling.", ["Dark", "The OA"])]

  /** `_get_fallback_recommendations`: the (at most three) canned titles of the media type, the
      movies for any other type. */
  function Fallback(mediaType: string): seq<Value> {
    if mediaType == "book" then FallbackBooks
    else if mediaType == "tv" then FallbackTv
    else FallbackMovies
  }

  // ---------------------------------------------------------------------------------------
  // Rating lookups

  /** A rating lookup's answer and the rating cache's entries afterwards. */
  datatype Fetch = Fetch(rating: Option<Value>, entries: map<string, Entry<Value>>)

  /** The media kind a record's `type` names, if any. */
  function KindOfType(v: Value): Option<MediaKind> {
    if v == Str("movie") then Some(Movie)
    else if v == Str("book") then Some(Book)
    else if v == Str("tv") then Some(Tv)
    else None
  }

  /** The rating cache's key for a title: `movie:`, `book:` or `tv:` and the lower-cased title. */
  function RatingKey(k: MediaKind, title: string): string {
    k.Name() + ":" + Lower(title)
  }

  /** `_fetch_rating_for_rec(rec)` with the cache's entries `m`: nothing without a title or for
      an unknown type; for movies and TV nothing without a TMDB key; a title that is not text
      fails inside the lookup and gives nothing. A cached value that is not `None` is answered
      at once (an expired entry for the key is deleted on the way); otherwise the service is
      asked, and its rating (rounded to one decimal for TMDB, which must also be non-zero) is
      cached and answered. */
  function FetchSpec(rec: Record, m: map<string, Entry<Value>>, ttl: nat, env: Env): Fetch {
    var title := Get(rec, "title");
    var kind := KindOfType(Get(rec, "type"));
    if !Truthy(title) || kind.None? then Fetch(None, m)
    else if kind.value != Book && !env.tmdbKey then Fetch(None, m)
    else if !title.Str? then Fetch(None, m)
    else
      var key := RatingKey(kind.value, title.s);
      var cached := Lookup(m, key, Some(ttl as real), env.now);
      var m1 := Evict(m, key, Some(ttl as real), env.now);
      if cached.Some? && cached.value != Null then Fetch(cached, m1)
      else
        match env.remote(kind.value, title.s)
        case None => Fetch(None, m1)
        case Some(v) =>
          if kind.value == Book then Fetch(Some(Num(v)), m1[key := Entry(env.now, Num(v))])
          else if v == 0.0 then Fetch(None, m1)
          else Fetch(Some(Num(Round1(v))), m1[key := Entry(env.now, Num(Round1(v)))])
  }

  /** A rating that enrichment replaces: missing, `None`, `''`, `'N/A'` or `'Unknown'`. */
  predicate NeedsRating(v: Value) {
    v == Null || v == Str("") || v == Str("N/A") || v == Str("Unknown")
  }

  /** One record of `_enrich_ratings`: a record with a usable rating is left alone; otherwise the
      fetched rating, or `'N/A'`, is written. */
  function EnrichOne(rec: Record, m: map<string, Entry<Value>>, ttl: nat, env: Env): (Record, map<string, Entry<Value>>) {
    if !NeedsRating(Get(rec, "rating")) then (rec, m)
    else
      var f := FetchSpec(rec, m, ttl, env);
      (rec["rating" := f.rating.GetOr(Str("N/A"))], f.entries)
  }

  /** `_enrich_ratings(recommendations)`, front to back. An element that is not a record makes
      the loop raise (its error handler raises again on it), which ends the enrichment: it and
      everything after it are left as they are. */
  function EnrichSpec(items: seq<Value>, m: map<string, Entry<Value>>, ttl: nat, env: Env): (seq<Value>, map<string, Entry<Value>>)
    decreases |items|
  {
    if |items| == 0 || !items[0].Obj? then (items, m)
    else
      var (r, m1) := EnrichOne(items[0].fields, m, ttl, env);
      var (rest, m2) := EnrichSpec(items[1..], m1, ttl, env);
      ([Obj(r)] + rest, m2)
  }

  /** `_process_crew_result`: the parsed records, enriched, or the fallback when nothing could be
      parsed. */
  function ProcessSpec(parsed: Option<seq<Value>>, mediaType: string, m: map<string, Entry<Value>>, ttl: nat, env: Env): (seq<Value>, map<string, Entry<Value>>) {
    if parsed.None? || |parsed.value| == 0 then (Fallback(mediaType), m)
    else EnrichSpec(parsed.value, m, ttl, env)
  }

  /** The enrichment of `rest` after the already enriched records `done`. */
  function EnrichPrefixed(done: seq<Value>, rest: seq<Value>, m: map<string, Entry<Value>>, ttl: nat, env: Env): (seq<Value>, map<string, Entry<Value>>) {
    var r := EnrichSpec(rest, m, ttl, env);
    (done + r.0, r.1)
  }

  /** One record of the enrichment loop: enriching it moves it into the finished prefix. */
  lemma EnrichStep(done: seq<Value>, rest: seq<Value>, m: map<string, Entry<Value>>, rec: Record,
                   m1: map<string, Entry<Value>>, ttl: nat, env: Env)
    requires |rest| > 0 && rest[0].Obj?
    requires (rec, m1) == EnrichOne(rest[0].fields, m, ttl, env)
    ensures EnrichPrefixed(done, rest, m, ttl, env) == EnrichPrefixed(done + [Obj(rec)], rest[1..], m1, ttl, env)
  {
    var r := EnrichSpec(rest[1..], m1, ttl, env);
    assert done + ([Obj(rec)] + r.0) == (done + [Obj(rec)]) + r.0;
  }

  class RecommendationCrew {
    const ratingCache: PersistentCache<Value>
    const ratingTtl: nat
    var currentMediaType: Option<string>
    var currentUserRequest: Option<string>

    /** `__init__`: the rating cache `.cache/rating_cache.json` and its time-to-live, read from
        `RATING_CACHE_TTL` when that is set and a day otherwise. */
    constructor (ttlSetting: Option<nat>, cacheFile: CacheFile<Value>, now: real, writeOk: bool)
      ensures ttlSetting.Some? ==> ratingTtl == ttlSetting.value
      ensures ttlSetting.None? ==> ratingTtl == DefaultRatingTtl
      ensures fresh(ratingCache) && ratingCache.path == ".cache/rating_cache.json"
      ensures ratingCache.entries == LoadEntries(cacheFile)
      ensures currentMediaType == None && currentUserRequest == None
    {
      ratingTtl := ttlSetting.GetOr(DefaultRatingTtl);
      ratingCache := new PersistentCache(".cache", "rating_cache.json", cacheFile, now, writeOk);
      currentMediaType := None;
      currentUserRequest := None;
    }

    /** `_fetch_rating_for_rec` with `_fetch_movie_rating`, `_fetch_book_rating` and
        `_fetch_tv_rating`. */
    method FetchRating(rec: Record, env: Env) returns (rating: Option<Value>)
      modifies ratingCache
      ensures Fetch(rating, ratingCache.entries) == FetchSpec(rec, old(ratingCache.entries), ratingTtl, env)
      ensures ratingCache.file == old(ratingCache.file)
              || (env.writeOk && ratingCache.file == Written(Serialize(ratingCache.entries)))
    {
      var title := Get(rec, "title");
      if !Truthy(title) {
        return None;
      }
      var kind := KindOfType(Get(rec, "type"));
      if kind.None? {
        return None;
      }
      if kind.value != Book && !env.tmdbKey {
        return None;
      }
      if !title.Str? {
        return None;
      }
      var key := RatingKey(kind.value, title.s);
      var cached := ratingCache.Get(key, Some(ratingTtl as real), env.now);
      if cached.Some? && cached.value != Null {
        return cached;
      }
      var answer := env.remote(kind.value, title.s);
      if answer.None? {
        return None;
      }
      var v := answer.value;
      if kind.value == Book {
        rating := Some(Num(v));
      } else if v == 0.0 {
        return None;
      } else {
        rating := Some(Num(Round1(v)));
      }
      ratingCache.Set(key, rating.value, env.now, env.writeOk);
    }

    /** One pass of the `_enrich_ratings` loop: a record without a usable rating gets the
        fetched one, or "N/A". */
    method RateOne(rec: Record, env: Env) returns (rated: Record)
      modifies ratingCache
      ensures (rated, ratingCache.entries) == EnrichOne(rec, old(ratingCache.entries), ratingTtl, env)
      ensures ratingCache.file == old(ratingCache.file)
        || (env.writeOk && ratingCache.file == Written(Serialize(ratingCache.entries)))
    {
      rated := rec;
      if NeedsRating(Get(rec, "rating")) {
        var fetched := FetchRating(rec, env);
        rated := rec["rating" := fetched.GetOr(Str("N/A"))];
      }
    }

    /** `_enrich_ratings(recommendations)`. */
    method EnrichRatings(items: seq<Value>, env: Env) returns (out: seq<Value>)
      modifies ratingCache
      ensures (out, ratingCache.entries) == EnrichSpec(items, old(ratingCache.entries), ratingTtl, env)
      ensures !env.writeOk ==> ratingCache.file == old(ratingCache.file)
    {
      out := items;
      var i := 0;
      assert items[0..] == items;
      assert out[..0] + EnrichSpec(items, ratingCache.entries, ratingTtl, env).0
        == EnrichSpec(items, ratingCache.entries, ratingTtl, env).0;
      while i < |items|
        invariant 0 <= i <= |items| && |out| == |items|
        invariant out[i..] == items[i..]
        invariant !env.writeOk ==> ratingCache.file == old(ratingCache.file)
        invariant EnrichSpec(items, old(ratingCache.entries), ratingTtl, env)
          == EnrichPrefixed(out[..i], items[i..], ratingCache.entries, ratingTtl, env)
      {
        var item := out[i];
        if !item.Obj? {
          break;
        }
        ghost var before := ratingCache.entries;
        var rec := RateOne(item.fields, env);
        EnrichStep(out[..i], items[i..], before, rec, ratingCache.entries, ratingTtl, env);
        assert items[i..][1..] == items[i + 1..];
        assert out[i := Obj(rec)][..i + 1] == out[..i] + [Obj(rec)];
        out := out[i := Obj(rec)];
        i := i + 1;
      }
      assert out[..i] + out[i..] == out;
    }

    /** `_process_crew_result(result, user_request, media_type)`. */
    method ProcessCrewResult(result: CrewResult, mediaType: string, codec: JsonCodec, env: Env)
      returns (recs: seq<Value>)
      modifies ratingCache
      ensures (recs, ratingCache.entries)
        == ProcessSpec(ParsedResult(result, codec), mediaType, old(ratingCache.entries), ratingTtl, env)
    {
      var parsed := ParseResult(result, codec);
      var recommendations := if parsed.Some? then parsed.value else [];
      if |recommendations| == 0 {
        return Fallback(mediaType);
      }
      recs := EnrichRatings(recommendations, env);
    }

    /** `run(user_request, media_type, ..., num_recommendations)`: invalid input, a failed
        kickoff and an unusable answer all end in the fallback; the fast path replaces the full
        crew when the request is a bare genre-and-medium phrase. The stored media type is
        dropped at the end; the stored request is kept. Returns the recommendations and, when
        the input was valid, the tasks the crew ran. */
    method Run(request: string, mediaType: string, count: int, crew: seq<TaskId> -> Kickoff,
               codec: JsonCodec, env: Env)
      returns (recs: seq<Value>, ran: Option<seq<TaskId>>)
      modifies this, ratingCache
      ensures currentMediaType == None
      ensures ValidationError(request, mediaType, count).Some? ==>
        recs == Fallback(mediaType) && ran == None
        && unchanged(ratingCache)
        && currentUserRequest == old(currentUserRequest)
      ensures ValidationError(request, mediaType, count).None? ==>
        ran == Some(TasksFor(request, mediaType))
        && currentUserRequest == Some(request)
        && (crew(ran.value).Failed? ==> recs == Fallback(mediaType) && unchanged(ratingCache))
        && (crew(ran.value).Finished? ==>
              (recs, ratingCache.entries)
              == ProcessSpec(ParsedResult(crew(ran.value).result, codec), mediaType,
                             old(ratingCache.entries), ratingTtl, env))
    {
      var error := ValidationError(request, mediaType, count);
      if error.Some? {
        currentMediaType := None;
        return Fallback(mediaType), None;
      }
      var tasks;
      recs, tasks := RunCrew(request, mediaType, crew, codec, env);
      ran := Some(tasks);
    }

    /** The part of `run` after validation: store the request, build the crew, run it and
        process its answer, then drop the stored media type. */
    method RunCrew(request: string, mediaType: string, crew: seq<TaskId> -> Kickoff,
                   codec: JsonCodec, env: Env)
      returns (recs: seq<Value>, tasks: seq<TaskId>)
      modifies this, ratingCache
      ensures currentMediaType == None && currentUserRequest == Some(request)
      ensures tasks == TasksFor(request, mediaType)
      ensures crew(tasks).Failed? ==> recs == Fallback(mediaType) && unchanged(ratingCache)
      ensures crew(tasks).Finished? ==>
        (recs, ratingCache.entries)
        == ProcessSpec(ParsedResult(crew(tasks).result, codec), mediaType,
                       old(ratingCache.entries), ratingTtl, env)
    {
      currentMediaType := Some(mediaType);
      currentUserRequest := Some(request);
      var fast := CheckFastPath(request);
      if fast.Some? {
        tasks := CreateFastPathCrew(fast.value);
      } else {
        tasks := CreateCrew(currentMediaType, currentUserRequest);
      }
      assert tasks == TasksFor(request, mediaType);
      var outcome := crew(tasks);
      if outcome.Failed? {
        recs := Fallback(mediaType);
      } else {
        recs := ProcessCrewResult(outcome.result, mediaType, codec, env);
      }
      currentMediaType := None;
    }
  }

  // ---------------------------------------------------------------------------------------
  // Properties

  /** Every fallback list holds two records, each titled, typed with the requested media type
      (`movie` for any other) and already carrying a numeric rating, so enrichment leaves them
      alone. */
  lemma FallbackShape(mediaType: string)
    ensures |Fallback(mediaType)| == 2
    ensures forall v :: v in Fallback(mediaType) ==>
      v.Obj? && IsValidRecommendation(v.fields)
      && Get(v.fields, "type") == Str(if mediaType in ValidTypes then mediaType else "movie")
      && Get(v.fields, "rating").Num? && !NeedsRating(Get(v.fields, "rating"))
  {
    if mediaType == "book" {
      FallbackBooksShape();
    } else if mediaType == "tv" {
      FallbackTvShape();
    } else {
      FallbackMoviesShape();
    }
  }

  lemma FallbackMoviesShape()
    ensures |FallbackMovies| == 2
    ensures FallbackRecord(FallbackMovies[0], "movie") && FallbackRecord(FallbackMovies[1], "movie")
  {
  }

  lemma FallbackBooksShape()
    ensures |FallbackBooks| == 2
    ensures FallbackRecord(FallbackBooks[0], "book") && FallbackRecord(FallbackBooks[1], "book")
  {
  }

  lemma FallbackTvShape()
    ensures |FallbackTv| == 2
    ensures FallbackRecord(FallbackTv[0], "tv") && FallbackRecord(FallbackTv[1], "tv")
  {
  }

  predicate FallbackRecord(v: Value, kind: string) {
    v.Obj? && IsValidRecommendation(v.fields) && Get(v.fields, "type") == Str(kind)
    && Get(v.fields, "rating").Num? && !NeedsRating(Get(v.fields, "rating"))
  }

  /** Enrichment keeps the number of recommendations. */
  lemma {:induction false} EnrichKeepsLength(items: seq<Value>, m: map<string, Entry<Value>>, ttl: nat, env: Env)
    ensures |EnrichSpec(items, m, ttl, env).0| == |items|
    decreases |items|
  {
    if |items| > 0 && items[0].Obj? {
      var (r, m1) := EnrichOne(items[0].fields, m, ttl, env);
      EnrichKeepsLength(items[1..], m1, ttl, env);
    }
  }

  /** Enrichment changes nothing but ratings, and only ratings that needed replacing: every
      element stays a record or not, every other field keeps its value, and a usable rating is
      kept. */
  lemma {:induction false} EnrichTouchesOnlyMissingRatings(items: seq<Value>, m: map<string, Entry<Value>>, ttl: nat, env: Env, i: nat)
    requires i < |items|
    ensures |EnrichSpec(items, m, ttl, env).0| == |items|
    ensures var out := EnrichSpec(items, m, ttl, env).0;
      && (!items[i].Obj? ==> out[i] == items[i])
      && (items[i].Obj? ==>
            out[i].Obj?
            && (forall k :: k != "rating" ==> (k in out[i].fields <==> k in items[i].fields))
            && (forall k :: k in items[i].fields && k != "rating" ==> out[i].fields[k] == items[i].fields[k])
            && (!NeedsRating(Get(items[i].fields, "rating")) ==> out[i] == items[i]))
    decreases |items|
  {
    EnrichKeepsLength(items, m, ttl, env);
    if items[0].Obj? && i > 0 {
      var (r, m1) := EnrichOne(items[0].fields, m, ttl, env);
      EnrichTouchesOnlyMissingRatings(items[1..], m1, ttl, env, i - 1);
    }
  }

  /** The first element that is not a record ends enrichment: it and everything after it come
      back unchanged, and the cache is as that point left it. */
  lemma {:induction false} EnrichStopsAtNonRecord(items: seq<Value>, m: map<string, Entry<Value>>, ttl: nat, env: Env, j: nat)
    requires j < |items| && !items[j].Obj?
    ensures |EnrichSpec(items, m, ttl, env).0| == |items|
    ensures EnrichSpec(items, m, ttl, env).0[j..] == items[j..]
    decreases |items|
  {
    EnrichKeepsLength(items, m, ttl, env);
    if items[0].Obj? {
      var (r, m1) := EnrichOne(items[0].fields, m, ttl, env);
      EnrichStopsAtNonRecord(items[1..], m1, ttl, env, j - 1);
      assert EnrichSpec(items, m, ttl, env).0[j..] == EnrichSpec(items[1..], m1, ttl, env).0[j - 1..];
    }
  }

  /** Every value in the cache is a number. */
  predicate NumericCache(m: map<string, Entry<Value>>) {
    forall k :: k in m ==> m[k].value.Num?
  }

  /** With a cache holding only numbers, a lookup answers a number or nothing, and the cache
      still holds only numbers. */
  lemma FetchNumeric(rec: Record, m: map<string, Entry<Value>>, ttl: nat, env: Env)
    requires NumericCache(m)
    ensures FetchSpec(rec, m, ttl, env).rating.Some? ==> FetchSpec(rec, m, ttl, env).rating.value.Num?
    ensures NumericCache(FetchSpec(rec, m, ttl, env).entries)
  {
  }

  /** With a cache holding only numbers, every record enrichment reaches ends with a numeric
      rating or `'N/A'`: a missing, empty or `'Unknown'` rating never survives. */
  lemma {:induction false} EnrichLeavesNoMissingRating(items: seq<Value>, m: map<string, Entry<Value>>, ttl: nat, env: Env, i: nat)
    requires NumericCache(m)
    requires i < |items| && forall j :: 0 <= j <= i ==> items[j].Obj?
    ensures |EnrichSpec(items, m, ttl, env).0| == |items|
    ensures var out := EnrichSpec(items, m, ttl, env).0;
      out[i].Obj? && var r := Get(out[i].fields, "rating");
      NeedsRating(Get(items[i].fields, "rating")) ==> r.Num? || r == Str("N/A")
    decreases |items|
  {
    EnrichKeepsLength(items, m, ttl, env);
    FetchNumeric(items[0].fields, m, ttl, env);
    var (r, m1) := EnrichOne(items[0].fields, m, ttl, env);
    if i > 0 {
      EnrichLeavesNoMissingRating(items[1..], m1, ttl, env, i - 1);
    }
  }

  /** A cached rating is answered without consulting the service at all. */
  lemma CacheHitNeedsNoNetwork(rec: Record, m: map<string, Entry<Value>>, ttl: nat, env: Env,
                               other: (MediaKind, string) -> Option<real>)
    requires Get(rec, "title").Str? && Get(rec, "title").s != ""
    requires KindOfType(Get(rec, "type")).Some?
    requires var k := KindOfType(Get(rec, "type")).value;
      Lookup(m, RatingKey(k, Get(rec, "title").s), Some(ttl as real), env.now).Some?
      && Lookup(m, RatingKey(k, Get(rec, "title").s), Some(ttl as real), env.now).value != Null
    ensures FetchSpec(rec, m, ttl, env) == FetchSpec(rec, m, ttl, env.(remote := other))
  {
  }

  /** Without a TMDB key no movie or TV rating is looked up, and the cache is left alone. */
  lemma NoTmdbKeyNoRating(rec: Record, m: map<string, Entry<Value>>, ttl: nat, env: Env)
    requires !env.tmdbKey && Get(rec, "type") in {Str("movie"), Str("tv")}
    ensures FetchSpec(rec, m, ttl, env) == Fetch(None, m)
  {
  }

  /** A rating fetched from the service is cached, so the next lookup of the same title at the
      same instant is answered from the cache with the same value, whatever the service would
      say then. */
  lemma FetchedRatingServedNext(rec: Record, m: map<string, Entry<Value>>, ttl: nat, env: Env,
                                later: (MediaKind, string) -> Option<real>)
    requires ttl > 0
    requires FetchSpec(rec, m, ttl, env).rating.Some?
    ensures var first := FetchSpec(rec, m, ttl, env);
      FetchSpec(rec, first.entries, ttl, env.(remote := later)).rating == first.rating
  {
  }

  /** Google Books ratings are stored as given, TMDB ratings rounded to one decimal. */
  lemma BookRatingsNotRounded(m: map<string, Entry<Value>>, ttl: nat, env: Env, title: string)
    requires title != "" && env.remote(Book, title) == Some(4.25)
    requires Lookup(m, RatingKey(Book, title), Some(ttl as real), env.now).None?
    ensures FetchSpec(map["title" := Str(title), "type" := Str("book")], m, ttl, env).rating == Some(Num(4.25))
  {
  }

  /** A run whose answer parses to nothing returns the fallback for the requested type. */
  lemma UnparsedAnswerFallsBack(result: CrewResult, codec: JsonCodec, mediaType: string,
                                m: map<string, Entry<Value>>, ttl: nat, env: Env)
    requires ParsedResult(result, codec).None?
    ensures ProcessSpec(ParsedResult(result, codec), mediaType, m, ttl, env) == (Fallback(mediaType), m)
  {
  }
}
