/** Input validation, the fast-path classifier and task selection of the recommendation crew
    (`MediaRecommendationCrew._validate_inputs`, `_check_fast_path`, `_create_fast_path_crew`
    and `_create_crew`). A crew is modelled by its list of tasks, in execution order. */
module CrewTasks {
  import opened Wrappers
  import opened Text

  /** The three kinds of media the crew recommends. */
  datatype MediaKind = Movie | Book | Tv
  {
    function Name(): string {
      match this
      case Movie => "movie"
      case Book => "book"
      case Tv => "tv"
    }
  }

  /** The tasks a crew can run; each is performed by its own agent. */
  datatype TaskId = Analysis | MovieTask | BookTask | TvTask | Research | Editor

  // ---------------------------------------------------------------------------------------
  // Validation

  const ValidTypes: seq<string> := ["movie", "book", "tv"]

  /** `_validate_inputs`: the message of the `ValueError` it raises, or `None` when the inputs
      pass. The checks run in this order: request, media type, count. */
  function ValidationError(request: string, mediaType: string, count: int): (e: Option<string>)
    ensures e.None? <==> !AllSpace(request) && mediaType in ValidTypes && 1 <= count <= 10
  {
    StripEmptyIffAllSpace(request);
    if request == "" || Strip(request) == "" then Some("User request cannot be empty")
    else if mediaType !in ValidTypes then Some("Media type must be one of ['movie', 'book', 'tv']")
    else if !(1 <= count <= 10) then Some("Number of recommendations must be between 1 and 10")
    else None
  }

  // ---------------------------------------------------------------------------------------
  // Fast path

  /** The genre alternatives of the fast-path pattern, in the order the regex tries them. */
  const Genres: seq<string> := [
    "action", "adventure", "animation", "comedy", "crime", "documentary", "drama", "family",
    "fantasy", "history", "horror", "music", "mystery", "romance", "sci-fi", "sci fi",
    "science fiction", "thriller", "war", "western"]

  /** The words `movies?`, `books?` and `(tv|shows?|series)` accept after the genre. */
  function Suffixes(k: MediaKind): seq<string> {
    match k
    case Movie => ["movie", "movies"]
    case Book => ["book", "books"]
    case Tv => ["tv", "show", "shows", "series"]
  }

  /** The order in which the three type patterns are tried. */
  const KindOrder: seq<MediaKind> := [Movie, Book, Tv]

  /** `re.search(f"^{g}\s+{suffix}$", r)` for the genre alternative `g`: `r` is `g`, then at
      least one white-space character, then one of the kind's words, and nothing else. */
  predicate MatchesPattern(r: string, g: string, k: MediaKind) {
    |g| < |r| && r[..|g|] == g && IsSpace(r[|g|]) && StripLeft(r[|g|..]) in Suffixes(k)
  }

  /** `sci fi` is reported as `sci-fi`. */
  function Canonical(g: string): string {
    if g == "sci fi" then "sci-fi" else g
  }

  /** What the fast path reports: the kind whose pattern matched and the genre. */
  datatype FastMatch = FastMatch(kind: MediaKind, genre: string)

  function FirstGenre(r: string, gs: seq<string>, k: MediaKind): Option<string> {
    if |gs| == 0 then None
    else if MatchesPattern(r, gs[0], k) then Some(gs[0])
    else FirstGenre(r, gs[1..], k)
  }

  function FirstKind(r: string, ks: seq<MediaKind>): Option<FastMatch> {
    if |ks| == 0 then None
    else match FirstGenre(r, Genres, ks[0])
      case Some(g) => Some(FastMatch(ks[0], Canonical(g)))
      case None => FirstKind(r, ks[1..])
  }

  /** `_check_fast_path`: the request, lower-cased and stripped, must be exactly a known genre
      followed by a media word. */
  function FastPath(request: string): Option<FastMatch> {
    FirstKind(Strip(Lower(request)), KindOrder)
  }

  /** `_check_fast_path` with its loop over the media kinds, in table order: the first kind
      whose pattern matches ends the search. */
  method CheckFastPath(request: string) returns (m: Option<FastMatch>)
    ensures m == FastPath(request)
  {
    var r := Strip(Lower(request));
    assert KindOrder[0..] == KindOrder;
    for i := 0 to |KindOrder|
      invariant FirstKind(r, KindOrder[i..]) == FirstKind(r, KindOrder)
    {
      var g := FirstGenre(r, Genres, KindOrder[i]);
      if g.Some? {
        return Some(FastMatch(KindOrder[i], Canonical(g.value)));
      }
      assert KindOrder[i..][1..] == KindOrder[i + 1..];
    }
    return None;
  }

  lemma {:induction false} FirstGenreSound(r: string, gs: seq<string>, k: MediaKind)
    ensures FirstGenre(r, gs, k).Some? ==>
      FirstGenre(r, gs, k).value in gs && MatchesPattern(r, FirstGenre(r, gs, k).value, k)
    decreases |gs|
  {
    if |gs| > 0 && !MatchesPattern(r, gs[0], k) {
      FirstGenreSound(r, gs[1..], k);
    }
  }

  lemma {:induction false} FirstGenreComplete(r: string, gs: seq<string>, k: MediaKind, g: string)
    requires g in gs && MatchesPattern(r, g, k)
    ensures FirstGenre(r, gs, k).Some?
    decreases |gs|
  {
    if !MatchesPattern(r, gs[0], k) {
      assert g in gs[1..];
      FirstGenreComplete(r, gs[1..], k, g);
    }
  }

  /** Every genre except the two with a space is one word of letters and hyphens. */
  lemma GenreWords(g: string)
    requires g in Genres && g != "sci fi" && g != "science fiction"
    ensures forall i :: 0 <= i < |g| ==> ('a' <= g[i] <= 'z' || g[i] == '-')
  {
  }

  /** The only white space inside a genre is the space of `sci fi` and of `science fiction`. */
  lemma GenreSpaces(g: string, i: nat)
    requires g in Genres && i < |g| && IsSpace(g[i])
    ensures (g == "sci fi" && i == 3 && g[..i] == "sci") || (g == "science fiction" && i == 7 && g[..i] == "science")
  {
    if g != "sci fi" && g != "science fiction" {
      GenreWords(g);
    }
  }

  /** No genre continues another genre with white space: `sci` and `science` are not genres. */
  lemma NoSpaceExtension(g1: string, g2: string)
    requires g1 in Genres && g2 in Genres && |g1| < |g2| && g2[..|g1|] == g1
    ensures !IsSpace(g2[|g1|])
  {
    assert "sci" !in Genres && "science" !in Genres;
    if IsSpace(g2[|g1|]) {
      GenreSpaces(g2, |g1|);
    }
  }

  /** At most one genre and one kind match a request. */
  lemma MatchUnique(r: string, g1: string, k1: MediaKind, g2: string, k2: MediaKind)
    requires g1 in Genres && g2 in Genres
    requires MatchesPattern(r, g1, k1) && MatchesPattern(r, g2, k2)
    ensures g1 == g2 && k1 == k2
  {
    if |g1| < |g2| {
      assert g2[..|g1|] == r[..|g1|];
      assert g2[|g1|] == r[|g1|];
      NoSpaceExtension(g1, g2);
      assert false;
    } else if |g2| < |g1| {
      assert g1[..|g2|] == r[..|g2|];
      assert g1[|g2|] == r[|g2|];
      NoSpaceExtension(g2, g1);
      assert false;
    }
    var w := StripLeft(r[|g1|..]);
    assert w in Suffixes(k1) && w in Suffixes(k2);
  }

  lemma {:induction false} FirstKindExact(r: string, ks: seq<MediaKind>, g: string, k: MediaKind)
    requires g in Genres && MatchesPattern(r, g, k) && k in ks
    ensures FirstKind(r, ks) == Some(FastMatch(k, Canonical(g)))
    decreases |ks|
  {
    FirstGenreSound(r, Genres, ks[0]);
    match FirstGenre(r, Genres, ks[0]) {
      case Some(g0) =>
        MatchUnique(r, g, k, g0, ks[0]);
      case None =>
        if ks[0] == k {
          FirstGenreComplete(r, Genres, k, g);
        }
        assert k in ks[1..];
        FirstKindExact(r, ks[1..], g, k);
    }
  }

  lemma {:induction false} FirstKindSound(r: string, ks: seq<MediaKind>)
    ensures FirstKind(r, ks).Some? ==>
      exists g :: g in Genres && MatchesPattern(r, g, FirstKind(r, ks).value.kind)
                  && FirstKind(r, ks).value.genre == Canonical(g)
    decreases |ks|
  {
    if |ks| > 0 {
      FirstGenreSound(r, Genres, ks[0]);
      if FirstGenre(r, Genres, ks[0]).None? {
        FirstKindSound(r, ks[1..]);
      }
    }
  }

  /** The fast path fires exactly when the normalised request is `<genre><space><media word>`:
      it then reports that kind and that genre (with `sci fi` as `sci-fi`). */
  lemma FastPathExact(request: string, g: string, k: MediaKind)
    requires g in Genres && MatchesPattern(Strip(Lower(request)), g, k)
    ensures FastPath(request) == Some(FastMatch(k, Canonical(g)))
  {
    FirstKindExact(Strip(Lower(request)), KindOrder, g, k);
  }

  /** Whatever the fast path reports comes from a genre and a media word of the request. */
  lemma FastPathSound(request: string)
    ensures FastPath(request).Some? ==>
      exists g :: g in Genres && MatchesPattern(Strip(Lower(request)), g, FastPath(request).value.kind)
                  && FastPath(request).value.genre == Canonical(g)
  {
    FirstKindSound(Strip(Lower(request)), KindOrder);
  }

  /** `"  Action Movies "` takes the fast path as an action movie request. */
  lemma FastPathActionMovies()
    ensures FastPath("  Action Movies ") == Some(FastMatch(Movie, "action"))
  {
    NormalisedActionMovies();
    ActionMoviesMatches();
    FastPathExact("  Action Movies ", "action", Movie);
  }

  lemma NormalisedActionMovies()
    ensures Strip(Lower("  Action Movies ")) == "action movies"
  {
    LowerActionMovies();
    assert StripLeft("  action movies ") == "action movies " by {
      assert "  action movies "[1..] == " action movies ";
      assert " action movies "[1..] == "action movies ";
    }
    assert StripRight("action movies ") == "action movies" by {
      assert "action movies "[..13] == "action movies";
    }
  }

  lemma LowerActionMovies()
    ensures Lower("  Action Movies ") == "  action movies "
  {
    var s := "  Action Movies ";
    forall i | 0 <= i < |s| ensures LowerChar(s[i]) == "  action movies "[i] {
      if i == 2 || i == 9 {
      } else {
        assert !IsUpper(s[i]);
      }
    }
  }

  lemma ActionMoviesMatches()
    ensures MatchesPattern("action movies", "action", Movie)
  {
    var r := "action movies";
    assert r[..6] == "action";
    assert r[6..] == " movies" && StripLeft(" movies") == "movies";
  }

  /** `"sci fi books"` takes the fast path as a sci-fi book request. */
  lemma FastPathSciFiBooks()
    ensures FastPath("sci fi books") == Some(FastMatch(Book, "sci-fi"))
  {
    SciFiBooksMatches();
    FastPathExact("sci fi books", "sci fi", Book);
  }

  lemma SciFiBooksMatches()
    ensures Strip(Lower("sci fi books")) == "sci fi books"
    ensures MatchesPattern("sci fi books", "sci fi", Book)
  {
    var r := "sci fi books";
    assert Lower(r) == r;
    assert Strip(r) == r;
    assert r[..6] == "sci fi";
    assert r[6..] == " books" && StripLeft(" books") == "books";
  }

  /** A request whose normalised form matches no genre and media word does not take the fast
      path. */
  lemma FastPathNone(request: string)
    requires forall g, k :: g in Genres ==> !MatchesPattern(Strip(Lower(request)), g, k)
    ensures FastPath(request) == None
  {
    FastPathSound(request);
  }

  /** `"action tv shows"` does not take the fast path: `tv shows` is not one media word. */
  lemma FastPathActionTvShows()
    ensures FastPath("action tv shows") == None
  {
    NoMatchActionTvShows();
    FastPathNone("action tv shows");
  }

  lemma NoMatchActionTvShows()
    ensures forall g, k :: g in Genres ==> !MatchesPattern(Strip(Lower("action tv shows")), g, k)
  {
    var r := "action tv shows";
    NormalisedAsIs(r);
    assert StripLeft(r[6..]) == "tv shows";
    assert forall k :: "tv shows" !in Suffixes(k);
    forall g, k | g in Genres ensures !MatchesPattern(r, g, k) {
      if MatchesPattern(r, g, k) {
        OnlyActionPrefixes(g);
        assert false;
      }
    }
  }

  lemma NormalisedAsIs(r: string)
    requires r == "action tv shows" || r == "give me an action movie please"
    ensures Strip(Lower(r)) == r
  {
    assert Lower(r) == r;
    assert Strip(r) == r;
  }

  lemma OnlyActionPrefixes(g: string)
    requires g in Genres && |g| < 15 && "action tv shows"[..|g|] == g
    ensures g == "action"
  {
    var r := "action tv shows";
    assert g[0] == r[0] && g[1] == r[1];
  }

  lemma GenreInitial(g: string)
    requires g in Genres
    ensures |g| > 0 && g[0] != 'g'
  {
  }

  /** A request that does not start with a genre does not take the fast path. */
  lemma FastPathSentence()
    ensures FastPath("give me an action movie please") == None
  {
    NoMatchSentence();
    FastPathNone("give me an action movie please");
  }

  lemma NoMatchSentence()
    ensures forall g, k :: g in Genres ==> !MatchesPattern(Strip(Lower("give me an action movie please")), g, k)
  {
    var r := "give me an action movie please";
    NormalisedAsIs(r);
    forall g, k | g in Genres ensures !MatchesPattern(r, g, k) {
      GenreInitial(g);
      assert |g| < |r| ==> r[..|g|][0] == r[0];
    }
  }

  // ---------------------------------------------------------------------------------------
  // Task selection

  /** Words whose presence in the lower-cased request adds the research task. */
  const ResearchKeywords: seq<string> := ["trending", "new", "recent", "latest", "upcoming", "update", "news", "current"]

  predicate NeedsResearch(request: string) {
    exists w :: w in ResearchKeywords && Contains(Lower(request), w)
  }

  /** The specialist task for a media-type name; none for an unknown name. */
  function SpecialistFor(mediaType: string): seq<TaskId> {
    if mediaType == "movie" then [MovieTask]
    else if mediaType == "book" then [BookTask]
    else if mediaType == "tv" then [TvTask]
    else []
  }

  function SpecialistOf(k: MediaKind): TaskId {
    match k
    case Movie => MovieTask
    case Book => BookTask
    case Tv => TvTask
  }

  /** The task list of the full crew. */
  function FullTasks(mediaType: string, request: string): seq<TaskId> {
    [Analysis] + SpecialistFor(mediaType) + (if NeedsResearch(request) then [Research] else []) + [Editor]
  }

  /** The task list of the fast-path crew. */
  function FastTasks(k: MediaKind): seq<TaskId> {
    [SpecialistOf(k), Editor]
  }

  /** The tasks `run` hands to the crew: the fast-path crew when the request takes the fast
      path, the full crew for `mediaType` otherwise. */
  function TasksFor(request: string, mediaType: string): seq<TaskId> {
    match FastPath(request)
    case Some(m) => FastTasks(m.kind)
    case None => FullTasks(mediaType, request)
  }

  /** `_create_fast_path_crew(context)`: the specialist for the detected kind, then the editor. */
  method CreateFastPathCrew(context: FastMatch) returns (tasks: seq<TaskId>)
    ensures tasks == FastTasks(context.kind)
  {
    tasks := [];
    match context.kind {
      case Movie => tasks := tasks + [MovieTask];
      case Book => tasks := tasks + [BookTask];
      case Tv => tasks := tasks + [TvTask];
    }
    tasks := tasks + [Editor];
  }

  /** `_create_crew()`: analysis, the specialist for the stored media type (`movie` when none is
      stored), research when the stored request asks for something current, and the editor. */
  method CreateCrew(currentMediaType: Option<string>, currentUserRequest: Option<string>)
    returns (tasks: seq<TaskId>)
    ensures tasks == FullTasks(currentMediaType.GetOr("movie"), currentUserRequest.GetOr(""))
  {
    tasks := [Analysis];
    var mediaType := currentMediaType.GetOr("movie");
    if mediaType == "movie" {
      tasks := tasks + [MovieTask];
    } else if mediaType == "book" {
      tasks := tasks + [BookTask];
    } else if mediaType == "tv" {
      tasks := tasks + [TvTask];
    }
    var userRequest := currentUserRequest.GetOr("");
    if NeedsResearch(userRequest) {
      tasks := tasks + [Research];
    }
    tasks := tasks + [Editor];
  }

  /** The full crew starts with analysis, ends with the editor, runs the specialist of a valid
      media type and no other, and runs research exactly when a keyword occurs in the request. */
  lemma FullTasksShape(mediaType: string, request: string)
    requires mediaType in ValidTypes
    ensures var t := FullTasks(mediaType, request);
      && t[0] == Analysis && t[|t| - 1] == Editor
      && t[1] == SpecialistFor(mediaType)[0]
      && (Research in t <==> NeedsResearch(request))
      && (|t| == 4 <==> NeedsResearch(request)) && (|t| == 3 <==> !NeedsResearch(request))
  {
  }

  /** On the fast path the crew is the matched kind's specialist and the editor, whatever media
      type the caller asked for. */
  lemma FastPathIgnoresMediaType(request: string, type1: string, type2: string)
    requires FastPath(request).Some?
    ensures TasksFor(request, type1) == TasksFor(request, type2)
            == [SpecialistOf(FastPath(request).value.kind), Editor]
  {
  }

  /** Whatever the path, the editor runs last and exactly once. */
  lemma EditorLastOnce(request: string, mediaType: string)
    ensures var t := TasksFor(request, mediaType);
      |t| >= 2 && t[|t| - 1] == Editor && multiset(t)[Editor] == 1
  {
    var t := TasksFor(request, mediaType);
    if FastPath(request).Some? {
      var k := FastPath(request).value.kind;
      assert t == [SpecialistOf(k), Editor];
      assert multiset(t) == multiset{SpecialistOf(k), Editor};
    } else {
      var middle := SpecialistFor(mediaType) + (if NeedsResearch(request) then [Research] else []);
      assert t == [Analysis] + middle + [Editor];
      assert Editor !in middle;
      assert multiset(t) == multiset{Analysis} + multiset(middle) + multiset{Editor};
    }
  }

  /** `"latest sci-fi"` needs research; `"Dune"` does not. */
  lemma ResearchExamples()
    ensures NeedsResearch("latest sci-fi")
    ensures !NeedsResearch("Dune")
  {
    assert Lower("latest sci-fi") == "latest sci-fi";
    assert "latest sci-fi"[0..6] == "latest";
    ContainsAt("latest sci-fi", "latest", 0);
    var d := Lower("Dune");
    assert d == "dune";
    forall w | w in ResearchKeywords ensures !Contains(d, w) {
      var c := if w == "new" || w == "news" then 'w' else if w == "upcoming" || w == "update" then 'p' else w[0];
      assert c in w && c !in d;
      if Contains(d, w) {
        ContainsChars(d, w);
        assert false;
      }
    }
  }
}
