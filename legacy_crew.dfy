/** The older recommendation crew (`media_crew.py`): its task selection, its own result
    parser and structured-text scanner, and its fallback list. */
module LegacyCrew {
  import opened Wrappers
  import opened Text
  import opened JsonValue
  import opened CrewTasks
  import opened CrewParser

  // ---------------------------------------------------------------------------------------
  // Task selection

  /** The tasks `run` hands the crew: analysis, the movie task for `movie` or `both`, the book
      task for `book` or `both`, then research and the editor. */
  function LegacyTasks(mediaType: string): seq<TaskId> {
    [Analysis]
    + (if mediaType == "movie" || mediaType == "both" then [MovieTask] else [])
    + (if mediaType == "book" || mediaType == "both" then [BookTask] else [])
    + [Research, Editor]
  }

  /** The task list of `run`, built by appending. */
  method BuildTasks(mediaType: string) returns (tasks: seq<TaskId>)
    ensures tasks == LegacyTasks(mediaType)
  {
    tasks := [Analysis];
    if mediaType in ["movie", "both"] {
      tasks := tasks + [MovieTask];
    }
    if mediaType in ["book", "both"] {
      tasks := tasks + [BookTask];
    }
    tasks := tasks + [Research];
    tasks := tasks + [Editor];
  }

  // ---------------------------------------------------------------------------------------
  // Fallback

  function LegacyRec(title: string, kind: string, year: string, genre: string, rating: string,
                     description: string, why: string, similar: seq<string>): (v: Value)
    ensures v.Obj? && Get(v.fields, "type") == Str(kind) && Get(v.fields, "rating") == Str(rating)
  {
    Obj(map[
      "title" := Str(title), "type" := Str(kind), "year" := Str(year), "genre" := Str(genre),
      "rating" := Str(rating), "description" := Str(description), "why_recommended" := Str(why),
      "similar_titles" := Arr(seq(|similar|, i requires 0 <= i < |similar| => Str(similar[i])))])
  }

  const LegacyMovies: seq<Value> := [
    LegacyRec("Inception", "movie", "2010", "Sci-Fi, Thriller", "8.8",
      "A thief who steals corporate secrets through dream-sharing technology is given the inverse task of planting an idea into the mind of a C.E.O.",
      "Mind-bending plot with stunning visuals that matches your interest in thought-provoking sci-fi.",
      ["The Matrix", "Interstellar", "Tenet"]),
    LegacyRec("The Shawshank Redemption", "movie", "1994", "Drama", "9.3",
      "Two imprisoned men bond over a number of years, finding solace and eventual redemption through acts of common decency.",
      "Powerful storytelling and character development that resonates emotionally.",
      ["The Green Mile", "Forrest Gump", "The Godfather"])]

  const LegacyBooks: seq<Value> := [
    LegacyRec("Project Hail Mary", "book", "2021", "Science Fiction", "4.8",
      "A lone astronaut must save the earth from disaster in this high-stakes sci-fi adventure filled with humor and science.",
      "Engaging hard sci-fi with compelling characters and problem-solving.",
      ["The Martian", "Artemis", "Three Body Problem"]),
    LegacyRec("The Midnight Library", "book", "2020", "Fiction, Fantasy", "4.6",
      "Between life and death there is a library, and within that library, the shelves go on forever. Every book provides a chance to try another life you could have lived.",
      "Thought-provoking exploration of life choices and possibilities.",
      ["The Invisible Life of Addie LaRue", "Life After Life", "The Alchemist"])]

  /** `_get_fallback_recommendations`: both movies, both books, or for anything else the two
      movies and the first book. */
  function LegacyFallback(mediaType: string): seq<Value> {
    if mediaType == "movie" then LegacyMovies
    else if mediaType == "book" then LegacyBooks
    else LegacyMovies + LegacyBooks[..1]
  }

  // ---------------------------------------------------------------------------------------
  // Structured text

  /** `line.split(kw, 1)[1]` when `kw` occurs in `line`. */
  function After(line: string, kw: string, i: nat): string
    requires i + |kw| <= |line|
  {
    line[i + |kw|..]
  }

  /** `_extract_value(line, keywords)`: for the first keyword found in the lower-cased line, the
      stripped text after its first occurrence in the line as written. When the line has it
      only in another case, `split` gives one piece and indexing it raises: `None`. */
  function ExtractValue(line: string, kws: seq<string>): Option<string> {
    if |kws| == 0 then Some("")
    else if Contains(Lower(line), kws[0]) then
      IndexOfContains(line, kws[0]);
      match IndexOf(line, kws[0])
      case Some(i) => Some(Strip(After(line, kws[0], i)))
      case None => None
    else ExtractValue(line, kws[1..])
  }

  /** `_extract_value` with its loop over the keywords in order: the first keyword found in
      the lower-cased line decides, and a line without any gives the empty text. */
  method ExtractValueOf(line: string, kws: seq<string>) returns (v: Option<string>)
    ensures v == ExtractValue(line, kws)
  {
    var low := Lower(line);
    assert kws[0..] == kws;
    for i := 0 to |kws|
      invariant ExtractValue(line, kws[i..]) == ExtractValue(line, kws)
    {
      if Contains(low, kws[i]) {
        assert kws[i..][0] == kws[i];
        IndexOfContains(line, kws[i]);
        var at := IndexOf(line, kws[i]);
        if at.None? {
          return None;
        }
        return Some(Strip(After(line, kws[i], at.value)));
      }
      assert kws[i..][1..] == kws[i + 1..];
    }
    return Some("");
  }

  const TitleKeywords: seq<string> := ["title:", "movie:", "book:"]
  const WhyKeywords: seq<string> := ["why:", "why recommended:", "recommended because:"]
  const Placeholders: Value := Arr([Str("Similar title 1"), Str("Similar title 2"), Str("Similar title 3")])

  /** The scanner's state: the finished records and the one being filled. */
  datatype LegacyState = LegacyState(recs: seq<Record>, current: Record)

  predicate StartsRecord(low: string) {
    Contains(low, "title:") || Contains(low, "movie:") || Contains(low, "book:")
  }

  /** Sets one field from a line, or raises. */
  function SetField(st: LegacyState, line: string, field: string, kws: seq<string>): Option<LegacyState> {
    match ExtractValue(line, kws)
    case Some(v) => Some(LegacyState(st.recs, st.current[field := Str(v)]))
    case None => None
  }

  /** One line of `_parse_structured_text`; `None` when the line raises. A title line finishes a
      titled record and starts a new one, typed `movie` when the line mentions a movie and
      `book` otherwise; a year, genre, description or reason line fills the record being built,
      and is ignored before the first title. */
  function LegacyStep(st: LegacyState, raw: string): Option<LegacyState> {
    var line := Strip(raw);
    var low := Lower(line);
    if line == "" then Some(st)
    else if StartsRecord(low) then
      var st1 := if st.current != map[] && "title" in st.current then LegacyState(st.recs + [st.current], map[]) else st;
      match ExtractValue(line, TitleKeywords)
      case None => None
      case Some(title) =>
        if title == "" then Some(st1)
        else Some(LegacyState(st1.recs,
               st1.current["title" := Str(title)]["type" := Str(if Contains(low, "movie") then "movie" else "book")]))
    else if st.current == map[] then Some(st)
    else if Contains(low, "year:") then SetField(st, line, "year", ["year:"])
    else if Contains(low, "genre:") then SetField(st, line, "genre", ["genre:"])
    else if Contains(low, "description:") then SetField(st, line, "description", ["description:"])
    else if Contains(low, "why:") then SetField(st, line, "why_recommended", WhyKeywords)
    else Some(st)
  }

  function LegacyScan(lines: seq<string>): Option<LegacyState> {
    if |lines| == 0 then Some(LegacyState([], map[]))
    else
      match LegacyScan(lines[..|lines| - 1])
      case None => None
      case Some(st) => LegacyStep(st, lines[|lines| - 1])
  }

  function WithPlaceholders(rec: Record): Record {
    if "similar_titles" in rec then rec else rec["similar_titles" := Placeholders]
  }

  function FinishLegacy(st: LegacyState): seq<Record> {
    var recs := if st.current != map[] && "title" in st.current then st.recs + [st.current] else st.recs;
    seq(|recs|, i requires 0 <= i < |recs| => WithPlaceholders(recs[i]))
  }

  /** What `_parse_structured_text` returns: the records, each with similar titles, or `None`
      when there are none or a line raised. */
  function LegacyStructured(text: string): Option<seq<Record>> {
    match LegacyScan(SplitOn(text, '\n'))
    case None => None
    case Some(st) =>
      var recs := FinishLegacy(st);
      if |recs| > 0 then Some(recs) else None
  }

  /** The body of `_parse_structured_text`'s loop for one line: `ok` is false when the line
      raised. */
  method ScanLine(recs: seq<Record>, cur: Record, raw: string)
    returns (ok: bool, recommendations: seq<Record>, current: Record)
    ensures ok <==> LegacyStep(LegacyState(recs, cur), raw).Some?
    ensures ok ==> LegacyStep(LegacyState(recs, cur), raw) == Some(LegacyState(recommendations, current))
  {
    recommendations, current := recs, cur;
    var line := Strip(raw);
    var low := Lower(line);
    if line == "" {
      return true, recommendations, current;
    }
    if StartsRecord(low) {
      if current != map[] && "title" in current {
        recommendations := recommendations + [current];
        current := map[];
      }
      var title := ExtractValueOf(line, TitleKeywords);
      if title.None? {
        return false, recommendations, current;
      }
      if title.value != "" {
        current := current["title" := Str(title.value)];
        current := current["type" := Str(if Contains(low, "movie") then "movie" else "book")];
      }
      return true, recommendations, current;
    }
    if current == map[] {
      return true, recommendations, current;
    }
    var field: string, kws: seq<string> := "", [];
    if Contains(low, "year:") {
      field, kws := "year", ["year:"];
    } else if Contains(low, "genre:") {
      field, kws := "genre", ["genre:"];
    } else if Contains(low, "description:") {
      field, kws := "description", ["description:"];
    } else if Contains(low, "why:") {
      field, kws := "why_recommended", WhyKeywords;
    }
    if field == "" {
      return true, recommendations, current;
    }
    var value := ExtractValueOf(line, kws);
    if value.None? {
      return false, recommendations, current;
    }
    current := current[field := Str(value.value)];
    return true, recommendations, current;
  }

  /** The placeholder similar titles, added in place to every record that lacks them. */
  method AddPlaceholders(recs: seq<Record>) returns (out: seq<Record>)
    ensures |out| == |recs| && forall k :: 0 <= k < |recs| ==> out[k] == WithPlaceholders(recs[k])
  {
    out := recs;
    var j := 0;
    while j < |out|
      invariant 0 <= j <= |out| && |out| == |recs|
      invariant forall k :: 0 <= k < j ==> out[k] == WithPlaceholders(recs[k])
      invariant forall k :: j <= k < |out| ==> out[k] == recs[k]
    {
      if "similar_titles" !in out[j] {
        out := out[j := out[j]["similar_titles" := Placeholders]];
      }
      j := j + 1;
    }
  }

  /** `_parse_structured_text(text)`. */
  method LegacyParseStructuredText(text: string) returns (r: Option<seq<Record>>)
    ensures r == LegacyStructured(text)
  {
    var recommendations: seq<Record> := [];
    var current: Record := map[];
    var lines := SplitOn(text, '\n');
    var i := 0;
    while i < |lines|
      invariant 0 <= i <= |lines|
      invariant LegacyScan(lines[..i]) == Some(LegacyState(recommendations, current))
    {
      assert lines[..i + 1][..i] == lines[..i];
      var ok;
      ok, recommendations, current := ScanLine(recommendations, current, lines[i]);
      if !ok {
        ScanFailureSticks(lines, i + 1);
        return None;
      }
      i := i + 1;
    }
    assert lines[..i] == lines;
    ghost var st := LegacyState(recommendations, current);
    if current != map[] && "title" in current {
      recommendations := recommendations + [current];
    }
    var out := AddPlaceholders(recommendations);
    assert out == FinishLegacy(st);
    if |out| > 0 {
      return Some(out);
    }
    return None;
  }

  // ---------------------------------------------------------------------------------------
  // Result parsing and the run

  /** What `_parse_result` returns: a list unchanged; a decoded JSON list unchanged and
      unfiltered; otherwise the structured-text records; the "both" fallback when those are
      missing or decoding the JSON raised. */
  function LegacyParsed(result: CrewResult, codec: JsonCodec): seq<Value> {
    match result
    case ListResult(items) => items
    case TextResult(t) =>
      var found := codec.find(t);
      if found.Some? && found.value != "" && codec.decode(found.value).None? then LegacyFallback("both")
      else if found.Some? && found.value != "" && codec.decode(found.value).value.Arr? then
        codec.decode(found.value).value.items
      else
        match LegacyStructured(t)
        case Some(recs) => AsValues(recs)
        case None => LegacyFallback("both")
  }

  /** `_parse_result(result)`. */
  method LegacyParseResult(result: CrewResult, codec: JsonCodec) returns (recs: seq<Value>)
    ensures recs == LegacyParsed(result, codec)
  {
    if result.ListResult? {
      return result.items;
    }
    var t := result.text;
    var found := codec.find(t);
    if found.Some? && found.value != "" {
      var parsed := codec.decode(found.value);
      if parsed.None? {
        return LegacyFallback("both");
      }
      if parsed.value.Arr? {
        return parsed.value.items;
      }
    }
    var structured := LegacyParseStructuredText(t);
    if structured.Some? {
      return AsValues(structured.value);
    }
    return LegacyFallback("both");
  }

  /** `run(user_request, media_type, ...)`. Filling in the task templates happens before the
      error guard, so when it fails (`formatOk` false) the exception reaches the caller:
      `None`, and no crew is built. Otherwise a failed kickoff gives the fallback for the media
      type, and a finished one its parsed answer. */
  method LegacyRun(mediaType: string, formatOk: bool, crew: seq<TaskId> -> Kickoff, codec: JsonCodec)
    returns (recs: Option<seq<Value>>, ran: Option<seq<TaskId>>)
    ensures !formatOk ==> recs == None && ran == None
    ensures formatOk ==> ran == Some(LegacyTasks(mediaType))
    ensures formatOk && crew(ran.value).Failed? ==> recs == Some(LegacyFallback(mediaType))
    ensures formatOk && crew(ran.value).Finished? ==> recs == Some(LegacyParsed(crew(ran.value).result, codec))
  {
    if !formatOk {
      return None, None;
    }
    var tasks := BuildTasks(mediaType);
    ran := Some(tasks);
    var outcome := crew(tasks);
    if outcome.Failed? {
      return Some(LegacyFallback(mediaType)), ran;
    }
    var parsed := LegacyParseResult(outcome.result, codec);
    recs := Some(parsed);
  }

  // ---------------------------------------------------------------------------------------
  // Properties

  /** The analysis task comes first and research and the editor last; the movie task runs
      exactly for `movie` and `both`, the book task exactly for `book` and `both`. */
  lemma LegacyTasksShape(mediaType: string)
    ensures var t := LegacyTasks(mediaType);
      && t[0] == Analysis && t[|t| - 2] == Research && t[|t| - 1] == Editor
      && (MovieTask in t <==> mediaType == "movie" || mediaType == "both")
      && (BookTask in t <==> mediaType == "book" || mediaType == "both")
      && TvTask !in t
  {
  }

  /** Two movies, two books, or two movies and a book, each record carrying a string rating. */
  lemma LegacyFallbackShape(mediaType: string)
    ensures |LegacyFallback(mediaType)| == if mediaType == "movie" || mediaType == "book" then 2 else 3
    ensures forall v :: v in LegacyFallback(mediaType) ==> v.Obj? && Get(v.fields, "rating").Str?
    ensures mediaType == "movie" || mediaType == "book" ==>
      forall v :: v in LegacyFallback(mediaType) ==> Get(v.fields, "type") == Str(mediaType)
  {
    LegacyListsShape();
    if mediaType != "movie" && mediaType != "book" {
      var movies, books := LegacyMovies, LegacyBooks;
      assert LegacyFallback(mediaType) == movies + books[..1];
      assert forall v :: v in movies + books[..1] ==> v in movies || v in books;
    }
  }

  lemma LegacyListsShape()
    ensures |LegacyMovies| == 2 && |LegacyBooks| == 2
    ensures forall v :: v in LegacyMovies ==> v.Obj? && Get(v.fields, "rating").Str? && Get(v.fields, "type") == Str("movie")
    ensures forall v :: v in LegacyBooks ==> v.Obj? && Get(v.fields, "rating").Str? && Get(v.fields, "type") == Str("book")
  {
  }

  /** Once a line raises, the whole scan has raised. */
  lemma {:induction false} ScanFailureSticks(lines: seq<string>, i: nat)
    requires i <= |lines| && LegacyScan(lines[..i]) == None
    ensures LegacyScan(lines) == None
    decreases |lines| - i
  {
    if i < |lines| {
      assert lines[..i + 1][..i] == lines[..i];
      ScanFailureSticks(lines, i + 1);
    } else {
      assert lines[..i] == lines;
    }
  }

  /** The scanner keeps a record under way exactly when it has a title, and every finished
      record has a title and a type. */
  lemma {:induction false} LegacyScanInvariant(lines: seq<string>)
    ensures LegacyScan(lines).Some? ==>
      var st := LegacyScan(lines).value;
      && (st.current != map[] <==> "title" in st.current)
      && ("title" in st.current ==> "type" in st.current)
      && forall r :: r in st.recs ==> "title" in r && "type" in r
    decreases |lines|
  {
    if |lines| > 0 {
      LegacyScanInvariant(lines[..|lines| - 1]);
      if LegacyScan(lines[..|lines| - 1]).Some? {
        LegacyStepKeepsInvariant(LegacyScan(lines[..|lines| - 1]).value, lines[|lines| - 1]);
      }
    }
  }

  predicate LegacyInvariant(st: LegacyState) {
    && (st.current != map[] <==> "title" in st.current)
    && ("title" in st.current ==> "type" in st.current)
    && forall r :: r in st.recs ==> "title" in r && "type" in r
  }

  lemma LegacyStepKeepsInvariant(st: LegacyState, raw: string)
    requires LegacyInvariant(st)
    ensures LegacyStep(st, raw).Some? ==> LegacyInvariant(LegacyStep(st, raw).value)
  {
  }

  /** Every record the scanner returns has a title, a type and similar titles. */
  lemma LegacyRecordsComplete(text: string)
    ensures LegacyStructured(text).Some? ==>
      |LegacyStructured(text).value| > 0
      && forall r :: r in LegacyStructured(text).value ==> "title" in r && "type" in r && "similar_titles" in r
  {
    LegacyScanInvariant(SplitOn(text, '\n'));
    if LegacyScan(SplitOn(text, '\n')).Some? {
      var recs := FinishLegacy(LegacyScan(SplitOn(text, '\n')).value);
      var st := LegacyScan(SplitOn(text, '\n')).value;
      var base := if st.current != map[] && "title" in st.current then st.recs + [st.current] else st.recs;
      forall r | r in recs ensures "title" in r && "type" in r && "similar_titles" in r {
        var k :| 0 <= k < |recs| && recs[k] == r;
        assert r == WithPlaceholders(base[k]);
        assert base[k] in st.recs || base[k] == st.current;
      }
    }
  }

  /** A line whose keyword is only present in another case raises. */
  lemma CapitalisedKeywordRaises(line: string)
    requires Contains(Lower(line), "title:") && !Contains(line, "title:")
    ensures ExtractValue(line, TitleKeywords) == None
  {
    IndexOfContains(line, "title:");
  }

  /** `Title: X` has a colon only after `Title`, so `title:` is not in it. */
  lemma CapitalTitleLine()
    ensures Contains(Lower("Title: X"), "title:") && !Contains("Title: X", "title:")
  {
    var line := "Title: X";
    assert Lower(line) == "title: x";
    assert Lower(line)[0..6] == "title:";
    ContainsAt(Lower(line), "title:", 0);
    assert line[..6][0] == 'T';
    assert !IsPrefix("title:", line);
    assert !IsPrefix("title:", line[1..]);
    assert line[2..][..6][1] == 'l';
    assert !IsPrefix("title:", line[2..]);
    ShortNotContains(line[3..], "title:");
    assert line[3..] == line[1..][1..][1..];
  }

  /** So a capitalised `Title: X` line makes the scanner give up: `None`. */
  lemma CapitalTitleGivesNothing()
    ensures LegacyStructured("Title: X") == None
  {
    var line := "Title: X";
    SplitOnAbsent(line, '\n');
    assert Strip(line) == line;
    CapitalTitleLine();
    CapitalisedKeywordRaises(line);
    RaisingLineGivesNothing(line);
  }

  /** A one-line answer whose title line raises gives nothing. */
  lemma RaisingLineGivesNothing(line: string)
    requires SplitOn(line, '\n') == [line] && Strip(line) == line && line != ""
    requires StartsRecord(Lower(line)) && ExtractValue(line, TitleKeywords) == None
    ensures LegacyStructured(line) == None
  {
    assert [line][..0] == [];
  }

  /** ... while `title: X` gives one book titled `X`. */
  lemma LowerTitleParses()
    ensures LegacyStructured("title: X") ==
      Some([map["title" := Str("X"), "type" := Str("book"), "similar_titles" := Placeholders]])
  {
    var line := "title: X";
    var cur: Record := map["title" := Str("X"), "type" := Str("book")];
    SplitOnAbsent(line, '\n');
    SingleLine(line);
    LowerTitleStep();
    SingleRecord(cur);
  }

  lemma SingleLine(line: string)
    ensures LegacyScan([line]) == LegacyStep(LegacyState([], map[]), line)
  {
    assert [line][..0] == [];
  }

  lemma SingleRecord(cur: Record)
    requires "title" in cur
    ensures FinishLegacy(LegacyState([], cur)) == [WithPlaceholders(cur)]
  {
  }

  lemma LowerTitleStep()
    ensures LegacyStep(LegacyState([], map[]), "title: X")
      == Some(LegacyState([], map["title" := Str("X"), "type" := Str("book")]))
  {
    var line := "title: X";
    assert Strip(line) == line;
    assert Lower(line) == "title: x";
    LowerTitleValue();
    NotContainsChar(Lower(line), "movie", 'm');
    FirstTitleStep(line, "X");
  }

  /** A first title line, already stripped, starts the first record. */
  lemma FirstTitleStep(line: string, title: string)
    requires Strip(line) == line && line != "" && StartsRecord(Lower(line))
    requires ExtractValue(line, TitleKeywords) == Some(title) && title != ""
    ensures LegacyStep(LegacyState([], map[]), line)
      == Some(LegacyState([], map["title" := Str(title)]["type" := Str(if Contains(Lower(line), "movie") then "movie" else "book")]))
  {
  }

  lemma LowerTitleValue()
    ensures Contains(Lower("title: X"), "title:")
    ensures ExtractValue("title: X", TitleKeywords) == Some("X")
  {
    var line := "title: X";
    assert Lower(line) == "title: x";
    assert Lower(line)[0..6] == "title:";
    ContainsAt(Lower(line), "title:", 0);
    assert IsPrefix("title:", line);
    assert IndexOf(line, "title:") == Some(0);
    assert After(line, "title:", 0) == " X";
    assert Strip(" X") == "X";
  }

  /** A JSON list found in the answer is returned as decoded, including elements that are not
      records or have no title. */
  lemma JsonListUnfiltered(t: string, codec: JsonCodec, items: seq<Value>)
    requires codec.find(t).Some? && codec.find(t).value != ""
    requires codec.decode(codec.find(t).value) == Some(Arr(items))
    ensures LegacyParsed(TextResult(t), codec) == items
  {
  }
}
