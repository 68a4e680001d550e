/** How the recommendation crew turns the crew's final answer into recommendation records
    (`_parse_result`, `_parse_json_safely`, `_parse_structured_text`, `_is_new_recommendation`,
    `_extract_field`, `_is_valid_recommendation`, `_post_process_recommendations` and
    `_normalize_rating`). */
module CrewParser {
  import opened Wrappers
  import opened Text
  import opened JsonValue

  /** The crew's answer: already a list, or anything else, seen through `str(result)`. */
  datatype CrewResult = ListResult(items: seq<Value>) | TextResult(text: string)

  /** What one kickoff of the crew produced: an exception, or a result. */
  datatype Kickoff = Failed | Finished(result: CrewResult)

  /** `_is_valid_recommendation`: the record has a truthy title. */
  predicate IsValidRecommendation(rec: Record) {
    Truthy(Get(rec, "title"))
  }

  // ---------------------------------------------------------------------------------------
  // JSON answers

  /** The dict elements of a JSON list that have a truthy title, in order. */
  function KeepTitled(items: seq<Value>): seq<Record> {
    if |items| == 0 then []
    else
      var last := items[|items| - 1];
      KeepTitled(items[..|items| - 1])
      + (if last.Obj? && IsValidRecommendation(last.fields) then [last.fields] else [])
  }

  /** What `_parse_json_safely` returns for a decoded document (`None` for a decode error):
      the titled dicts of a list when there is at least one, `None` otherwise. */
  function JsonRecords(decoded: Option<Value>): Option<seq<Record>> {
    match decoded
    case Some(Arr(items)) =>
      var kept := KeepTitled(items);
      if |kept| > 0 then Some(kept) else None
    case _ => None
  }

  /** `_parse_json_safely(json_str)`. */
  method ParseJsonSafely(jsonStr: string, codec: JsonCodec) returns (r: Option<seq<Record>>)
    ensures r == JsonRecords(codec.decode(jsonStr))
  {
    var parsed := codec.decode(jsonStr);
    if parsed.Some? && parsed.value.Arr? {
      var items := parsed.value.items;
      var valid: seq<Record> := [];
      var i := 0;
      while i < |items|
        invariant 0 <= i <= |items|
        invariant valid == KeepTitled(items[..i])
      {
        var item := items[i];
        if item.Obj? && IsValidRecommendation(item.fields) {
          valid := valid + [item.fields];
        }
        assert items[..i + 1][..i] == items[..i];
        i := i + 1;
      }
      assert items[..i] == items;
      if |valid| > 0 {
        return Some(valid);
      }
    }
    return None;
  }

  /** Every record kept from a JSON list has a truthy title and comes from the list. */
  lemma {:induction false} KeepTitledSound(items: seq<Value>)
    ensures forall r :: r in KeepTitled(items) ==> IsValidRecommendation(r) && Obj(r) in items
    decreases |items|
  {
    if |items| > 0 {
      KeepTitledSound(items[..|items| - 1]);
      forall r | r in KeepTitled(items[..|items| - 1]) ensures Obj(r) in items {
        assert Obj(r) in items[..|items| - 1];
      }
    }
  }

  /** Every titled dict of a JSON list is kept. */
  lemma {:induction false} KeepTitledComplete(items: seq<Value>, i: nat)
    requires i < |items| && items[i].Obj? && IsValidRecommendation(items[i].fields)
    ensures items[i].fields in KeepTitled(items)
    decreases |items|
  {
    if i < |items| - 1 {
      KeepTitledComplete(items[..|items| - 1], i);
    }
  }

  // ---------------------------------------------------------------------------------------
  // Structured text: one line at a time

  /** The markers of `_is_new_recommendation`, the last one being the next item number. */
  function Indicators(count: nat): seq<string> {
    ["title:", "movie:", "book:", "tv:", "recommendation", "###", "---", NatToString(count + 1) + "."]
  }

  /** `_is_new_recommendation(line, count)`: some marker occurs in the lower-cased line. */
  predicate IsNewRecommendation(line: string, count: nat) {
    exists m :: m in Indicators(count) && Contains(Lower(line), m)
  }

  /** The field table of `_extract_field`, flattened in the order it is searched: every pattern
      of `title`, then of `year`, and so on. */
  const FieldPatterns: seq<(string, string)> := [
    ("title", "title:"), ("title", "movie:"), ("title", "book:"), ("title", "tv:"), ("title", "show:"),
    ("year", "year:"), ("year", "released:"), ("year", "published:"), ("year", "aired:"),
    ("genre", "genre:"), ("genre", "category:"),
    ("rating", "rating:"), ("rating", "score:"),
    ("description", "description:"), ("description", "summary:"), ("description", "plot:"),
    ("why_recommended", "why:"), ("why_recommended", "recommended because:"), ("why_recommended", "matches because:"),
    ("type", "type:"),
    ("image_url", "image:"), ("image_url", "cover:"), ("image_url", "poster:"),
    ("trailer_url", "trailer:"), ("trailer_url", "video:"),
    ("preview_url", "preview:"), ("preview_url", "sample:"), ("preview_url", "google books:")]

  /** The field of the first table entry whose pattern occurs in `lower`. */
  function FirstField(lower: string, table: seq<(string, string)>): Option<string> {
    if |table| == 0 then None
    else if Contains(lower, table[0].1) then Some(table[0].0)
    else FirstField(lower, table[1..])
  }

  /** The value a line gives its field: the text after its first colon, stripped, or the whole
      line when it has no colon. */
  function FieldValue(line: string): string {
    if ':' in line then Strip(AfterChar(line, ':')) else line
  }

  /** `_extract_field(line, rec)`: sets at most one field. */
  function ExtractField(line: string, rec: Record): Record {
    match FirstField(Lower(line), FieldPatterns)
    case Some(f) => rec[f := Str(FieldValue(line))]
    case None => rec
  }

  /** The search loop of `_extract_field` over a pattern table, in table order: the first
      pattern that occurs in `lower` gives its field. */
  method FindField(lower: string, table: seq<(string, string)>) returns (field: Option<string>)
    ensures field == FirstField(lower, table)
  {
    assert table[0..] == table;
    for i := 0 to |table|
      invariant FirstField(lower, table[i..]) == FirstField(lower, table)
    {
      if Contains(lower, table[i].1) {
        return Some(table[i].0);
      }
      assert table[i..][1..] == table[i + 1..];
    }
    return None;
  }

  /** `_extract_field`: the field found for the line, if any, takes the line's value. */
  method ExtractFieldInto(line: string, rec: Record) returns (r: Record)
    ensures r == ExtractField(line, rec)
  {
    var field := FindField(Lower(line), FieldPatterns);
    r := if field.Some? then rec[field.value := Str(FieldValue(line))] else rec;
  }

  /** The parser's state between lines: the finished records and the one being filled. */
  datatype ScanState = ScanState(recs: seq<Record>, current: Record)

  /** One line of `_parse_structured_text`: blank lines are skipped; a marker line finishes a
      titled current record; then the line's field goes into the current record. */
  function Step(st: ScanState, raw: string): ScanState {
    var line := Strip(raw);
    if line == "" then st
    else
      var st1 :=
        if IsNewRecommendation(line, |st.recs|) && st.current != map[] && IsValidRecommendation(st.current)
        then ScanState(st.recs + [st.current], map[])
        else st;
      ScanState(st1.recs, ExtractField(line, st1.current))
  }

  function Scan(lines: seq<string>): ScanState {
    if |lines| == 0 then ScanState([], map[])
    else Step(Scan(lines[..|lines| - 1]), lines[|lines| - 1])
  }

  /** After the last line a titled current record is kept too. */
  function Finish(st: ScanState): seq<Record> {
    if st.current != map[] && IsValidRecommendation(st.current) then st.recs + [st.current] else st.recs
  }

  /** The records found in the text, before post-processing. */
  function ScanRecords(text: string): seq<Record> {
    Finish(Scan(SplitOn(text, '\n')))
  }

  predicate AllText(rec: Record) {
    forall k :: k in rec ==> rec[k].Str?
  }

  /** The scanned records, post-processed: what `_parse_structured_text` returns. */
  function ParseStructured(text: string): seq<Record> {
    ScanRecordsText(text);
    PostProcessAll(ScanRecords(text))
  }

  // ---------------------------------------------------------------------------------------
  // Post-processing

  /** `rec.setdefault(k, v)`. */
  function SetDefault(rec: Record, k: string, v: Value): Record {
    if k in rec then rec else rec[k := v]
  }

  /** The seven defaults, in the order they are set. */
  function WithDefaults(rec: Record): Record {
    var r := SetDefault(rec, "rating", Str("N/A"));
    var r := SetDefault(r, "similar_titles", Arr([]));
    var r := SetDefault(r, "description", Str("No description available"));
    var r := SetDefault(r, "why_recommended", Str("Matches your preferences"));
    var r := SetDefault(r, "image_url", Null);
    var r := SetDefault(r, "trailer_url", Null);
    SetDefault(r, "type", Str("unknown"))
  }

  /** `float(...)` of a rating string: the part before the first `/` when there is one. */
  function RatingText(s: string): Option<real> {
    if '/' in s then ParseFloat(Strip(BeforeChar(s, '/'))) else ParseFloat(s)
  }

  /** What `_normalize_rating` makes of a rating value: numbers (booleans included) are rounded
      to one decimal, strings are parsed and rounded or become `'N/A'`, anything else stays. */
  function NormalRating(v: Value): Value {
    match v
    case Num(n) => Num(Round1(n))
    case Bool(b) => Num(if b then 1.0 else 0.0)
    case Str(s) =>
      (match RatingText(s)
       case Some(x) => Num(Round1(x))
       case None => Str("N/A"))
    case _ => v
  }

  /** `_normalize_rating(rec)`: only the rating changes. */
  method NormalizeRating(rec: Record) returns (out: Record)
    ensures "rating" in rec ==> out == rec["rating" := NormalRating(rec["rating"])]
    ensures "rating" !in rec ==> out == rec
  {
    out := rec;
    if "rating" in rec {
      var rating := rec["rating"];
      match rating {
        case Num(n) =>
          out := rec["rating" := Num(Round1(n))];
        case Bool(b) =>
          out := rec["rating" := Num(if b then 1.0 else 0.0)];
        case Str(s) =>
          var parsed := RatingText(s);
          if parsed.Some? {
            out := rec["rating" := Num(Round1(parsed.value))];
          } else {
            out := rec["rating" := Str("N/A")];
          }
        case _ =>
      }
    }
  }

  predicate YearIsText(rec: Record) {
    "year" in rec ==> rec["year"].Str?
  }

  /** One record of `_post_process_recommendations`: defaults, the year cut at its first `-`,
      and the rating normalised. */
  function PostProcessRecord(rec: Record): Record
    requires YearIsText(rec)
  {
    var r := CutYear(WithDefaults(rec));
    r["rating" := NormalRating(r["rating"])]
  }

  /** The year cut at its first `-`, when there is one. */
  function CutYear(r: Record): Record
    requires YearIsText(r)
  {
    if "year" in r then r["year" := Str(BeforeChar(r["year"].s, '-'))] else r
  }

  function PostProcessAll(recs: seq<Record>): (out: seq<Record>)
    requires forall i :: 0 <= i < |recs| ==> YearIsText(recs[i])
    ensures |out| == |recs|
  {
    seq(|recs|, i requires 0 <= i < |recs| => PostProcessRecord(recs[i]))
  }

  /** `_post_process_recommendations(recs)`: every record, in place and in order. */
  method PostProcessRecommendations(recs: seq<Record>) returns (out: seq<Record>)
    requires forall i :: 0 <= i < |recs| ==> YearIsText(recs[i])
    ensures out == PostProcessAll(recs)
  {
    out := recs;
    var i := 0;
    while i < |recs|
      invariant 0 <= i <= |recs| && |out| == |recs|
      invariant forall j :: 0 <= j < i ==> out[j] == PostProcessRecord(recs[j])
      invariant forall j :: i <= j < |recs| ==> out[j] == recs[j]
    {
      var rec := WithDefaults(recs[i]);
      if "year" in rec {
        rec := rec["year" := Str(BeforeChar(rec["year"].s, '-'))];
      }
      rec := NormalizeRating(rec);
      out := out[i := rec];
      i := i + 1;
    }
  }

  /** The body of the scanning loop for one line, with the current record updated in place. */
  method ScanLine(recs: seq<Record>, rec: Record, raw: string) returns (recs': seq<Record>, rec': Record)
    ensures ScanState(recs', rec') == Step(ScanState(recs, rec), raw)
  {
    recs', rec' := recs, rec;
    var line := Strip(raw);
    if line != "" {
      if IsNewRecommendation(line, |recs'|) {
        if rec' != map[] && IsValidRecommendation(rec') {
          recs' := recs' + [rec'];
          rec' := map[];
        }
      }
      rec' := ExtractFieldInto(line, rec');
    }
  }

  /** `_parse_structured_text(text)`. */
  method ParseStructuredText(text: string) returns (recs: seq<Record>)
    ensures recs == ParseStructured(text)
  {
    var recommendations: seq<Record> := [];
    var current: Record := map[];
    var lines := SplitOn(text, '\n');
    var i := 0;
    while i < |lines|
      invariant 0 <= i <= |lines|
      invariant ScanState(recommendations, current) == Scan(lines[..i])
    {
      recommendations, current := ScanLine(recommendations, current, lines[i]);
      assert lines[..i + 1][..i] == lines[..i];
      i := i + 1;
    }
    assert lines[..i] == lines;
    if current != map[] && IsValidRecommendation(current) {
      recommendations := recommendations + [current];
    }
    assert recommendations == ScanRecords(text);
    ScanRecordsText(text);
    recs := PostProcessRecommendations(recommendations);
  }

  // ---------------------------------------------------------------------------------------
  // The two-stage parse

  function AsValues(recs: seq<Record>): (vs: seq<Value>)
    ensures |vs| == |recs| && forall i :: 0 <= i < |recs| ==> vs[i] == Obj(recs[i])
  {
    seq(|recs|, i requires 0 <= i < |recs| => Obj(recs[i]))
  }

  /** What `_parse_result` returns: a list unchanged; otherwise, when a JSON-looking substring
      is found, whatever `_parse_json_safely` makes of it; otherwise the structured-text records
      when there are any; `None` in every other case. */
  function ParsedResult(result: CrewResult, codec: JsonCodec): Option<seq<Value>> {
    match result
    case ListResult(items) => Some(items)
    case TextResult(t) =>
      var found := codec.find(t);
      if found.Some? && found.value != "" then
        match JsonRecords(codec.decode(found.value))
        case Some(recs) => Some(AsValues(recs))
        case None => None
      else
        var recs := ParseStructured(t);
        if |recs| > 0 then Some(AsValues(recs)) else None
  }

  /** `_parse_result(result)`. */
  method ParseResult(result: CrewResult, codec: JsonCodec) returns (r: Option<seq<Value>>)
    ensures r == ParsedResult(result, codec)
  {
    match result {
      case ListResult(items) =>
        return Some(items);
      case TextResult(t) =>
        var found := codec.find(t);
        if found.Some? && found.value != "" {
          var recs := ParseJsonSafely(found.value, codec);
          if recs.Some? {
            return Some(AsValues(recs.value));
          }
          return None;
        }
        var structured := ParseStructuredText(t);
        if |structured| > 0 {
          return Some(AsValues(structured));
        }
        return None;
    }
  }

  // ---------------------------------------------------------------------------------------
  // Properties of the scanner

  /** The scan only ever finishes titled records, and every field it sets holds text. */
  lemma {:induction false} ScanInvariant(lines: seq<string>)
    ensures forall i :: 0 <= i < |Scan(lines).recs| ==>
      IsValidRecommendation(Scan(lines).recs[i]) && AllText(Scan(lines).recs[i])
    ensures AllText(Scan(lines).current)
    decreases |lines|
  {
    if |lines| > 0 {
      ScanInvariant(lines[..|lines| - 1]);
    }
  }

  /** Every scanned record is titled and all its fields are text. */
  lemma ScanRecordsText(text: string)
    ensures forall i :: 0 <= i < |ScanRecords(text)| ==>
      IsValidRecommendation(ScanRecords(text)[i]) && AllText(ScanRecords(text)[i])
    ensures forall i :: 0 <= i < |ScanRecords(text)| ==> YearIsText(ScanRecords(text)[i])
  {
    ScanInvariant(SplitOn(text, '\n'));
  }

  /** A blank line changes nothing. */
  lemma BlankLineSkipped(st: ScanState, raw: string)
    requires AllSpace(raw)
    ensures Step(st, raw) == st
  {
    StripEmptyIffAllSpace(raw);
  }

  /** A marker line on a record without a title does not finish it: its fields keep
      accumulating. */
  lemma UntitledKeepsAccumulating(st: ScanState, raw: string)
    requires !IsValidRecommendation(st.current) && Strip(raw) != ""
    ensures Step(st, raw) == ScanState(st.recs, ExtractField(Strip(raw), st.current))
  {
  }

  lemma {:induction false} FirstFieldSound(lower: string, table: seq<(string, string)>)
    ensures FirstField(lower, table).Some? ==>
      exists i :: 0 <= i < |table| && table[i].0 == FirstField(lower, table).value
        && Contains(lower, table[i].1)
        && forall j :: 0 <= j < i ==> !Contains(lower, table[j].1)
    ensures FirstField(lower, table).None? ==> forall j :: 0 <= j < |table| ==> !Contains(lower, table[j].1)
    decreases |table|
  {
    if |table| > 0 && !Contains(lower, table[0].1) {
      FirstFieldSound(lower, table[1..]);
      if FirstField(lower, table[1..]).Some? {
        var i :| 0 <= i < |table[1..]| && table[1..][i].0 == FirstField(lower, table[1..]).value
          && Contains(lower, table[1..][i].1)
          && forall j :: 0 <= j < i ==> !Contains(lower, table[1..][j].1);
        assert table[i + 1].0 == FirstField(lower, table).value;
        forall j | 0 <= j < i + 1 ensures !Contains(lower, table[j].1) {
          if j > 0 { assert table[j] == table[1..][j - 1]; }
        }
      }
    }
  }

  /** A line sets the field of the first table entry whose pattern occurs in it, whichever
      pattern comes first in the line, and leaves every other field alone; without a matching
      pattern it changes nothing. */
  lemma ExtractFieldFirstEntry(line: string, rec: Record)
    ensures ExtractField(line, rec) == rec ||
      exists i :: 0 <= i < |FieldPatterns| && Contains(Lower(line), FieldPatterns[i].1)
        && (forall j :: 0 <= j < i ==> !Contains(Lower(line), FieldPatterns[j].1))
        && ExtractField(line, rec) == rec[FieldPatterns[i].0 := Str(FieldValue(line))]
    ensures (forall j :: 0 <= j < |FieldPatterns| ==> !Contains(Lower(line), FieldPatterns[j].1))
      ==> ExtractField(line, rec) == rec
  {
    FirstFieldSound(Lower(line), FieldPatterns);
  }

  /** Every pattern holds a colon, so a line that sets a field has one and the value is always
      the text after the line's first colon. */
  lemma ExtractedValueAfterColon(line: string)
    requires FirstField(Lower(line), FieldPatterns).Some?
    ensures ':' in line && FieldValue(line) == Strip(AfterChar(line, ':'))
  {
    FirstFieldSound(Lower(line), FieldPatterns);
    var i :| 0 <= i < |FieldPatterns| && Contains(Lower(line), FieldPatterns[i].1);
    PatternsHaveColons();
    ContainsChars(Lower(line), FieldPatterns[i].1);
    assert ':' in Lower(line);
    var k :| 0 <= k < |Lower(line)| && Lower(line)[k] == ':';
    assert LowerChar(line[k]) == ':';
    assert line[k] == ':';
  }

  /** Every pattern of the field table ends in a colon. */
  lemma PatternsHaveColons()
    ensures forall i :: 0 <= i < |FieldPatterns| ==> ':' in FieldPatterns[i].1
  {
    forall i | 0 <= i < |FieldPatterns| ensures ':' in FieldPatterns[i].1 {
      var p := FieldPatterns[i].1;
      assert p[|p| - 1] == ':';
    }
  }

  /** A line holding any title pattern sets the title, whatever other field it names and
      wherever in the line the pattern stands: the table is searched in its own order and the
      title patterns come first (so `Why: a great movie: fun` sets the title). */
  lemma TitlePatternsWin(lower: string, p: string)
    requires p in ["title:", "movie:", "book:", "tv:", "show:"] && Contains(lower, p)
    ensures FirstField(lower, FieldPatterns) == Some("title")
  {
    var idx := if p == "title:" then 0 else if p == "movie:" then 1 else if p == "book:" then 2
      else if p == "tv:" then 3 else 4;
    assert FieldPatterns[idx] == ("title", p);
    assert forall j :: 0 <= j < 5 ==> FieldPatterns[j].0 == "title";
    FirstFieldLeading(lower, FieldPatterns, "title", 5, idx);
  }

  /** When the first `n` entries of the table all name `f` and one of their patterns occurs,
      the field is `f`. */
  lemma {:induction false} FirstFieldLeading(lower: string, table: seq<(string, string)>, f: string, n: nat, k: nat)
    requires k < n <= |table| && Contains(lower, table[k].1)
    requires forall j :: 0 <= j < n ==> table[j].0 == f
    ensures FirstField(lower, table) == Some(f)
    decreases k
  {
    if !Contains(lower, table[0].1) {
      FirstFieldLeading(lower, table[1..], f, n - 1, k - 1);
    }
  }

  // ---------------------------------------------------------------------------------------
  // Properties of post-processing

  /** A rating already normalised stays as it is. */
  lemma NormalRatingIdempotent(v: Value)
    ensures NormalRating(NormalRating(v)) == NormalRating(v)
  {
    match v {
      case Num(n) => Round1Idempotent(n);
      case Bool(b) => Round1Whole(if b then 1 else 0);
      case Str(s) =>
        match RatingText(s) {
          case Some(x) => Round1Idempotent(x);
          case None => NotApplicableStaysNotApplicable();
        }
      case _ =>
    }
  }

  /** `'N/A'` normalises to `'N/A'`. */
  lemma NotApplicableStaysNotApplicable()
    ensures NormalRating(Str("N/A")) == Str("N/A")
  {
    assert '/' in "N/A";
    assert BeforeChar("N/A", '/') == "N";
    assert Strip("N") == "N";
    ParseFloatExamples();
  }

  /** `"8.5/10"` becomes the number 8.5. */
  lemma RatingOutOfTenParsed()
    ensures NormalRating(Str("8.5/10")) == Num(8.5)
  {
    assert BeforeChar("8.5/10", '/') == "8.5";
    assert Strip("8.5") == "8.5";
    ParseFloatExamples();
    assert RatingText("8.5/10") == Some(8.5);
    assert (8.5 * 10.0).Floor == 85;
    assert RoundTenths(8.5) == 85;
  }

  /** A rating that is not a number becomes `'N/A'`. */
  lemma GarbageRatingNotApplicable()
    ensures NormalRating(Str("garbage")) == Str("N/A")
  {
    var g := "garbage";
    assert '/' !in g && '.' !in g;
    assert Strip(g) == g;
    assert !IsDigit(g[0]);
    assert ParseFloat(g) == None;
  }

  /** The seven default fields. */
  const DefaultKeys: set<string> :=
    {"rating", "similar_titles", "description", "why_recommended", "image_url", "trailer_url", "type"}

  /** Setting the defaults adds exactly the missing default fields, ... */
  lemma WithDefaultsKeys(rec: Record)
    ensures forall k :: k in WithDefaults(rec) <==> k in rec || k in DefaultKeys
  {
    var r1 := SetDefault(rec, "rating", Str("N/A"));
    var r2 := SetDefault(r1, "similar_titles", Arr([]));
    var r3 := SetDefault(r2, "description", Str("No description available"));
    var r4 := SetDefault(r3, "why_recommended", Str("Matches your preferences"));
    var r5 := SetDefault(r4, "image_url", Null);
    var r6 := SetDefault(r5, "trailer_url", Null);
    assert WithDefaults(rec) == SetDefault(r6, "type", Str("unknown"));
    SetDefaultFacts(rec, "rating", Str("N/A"));
    SetDefaultFacts(r1, "similar_titles", Arr([]));
    SetDefaultFacts(r2, "description", Str("No description available"));
    SetDefaultFacts(r3, "why_recommended", Str("Matches your preferences"));
    SetDefaultFacts(r4, "image_url", Null);
    SetDefaultFacts(r5, "trailer_url", Null);
    SetDefaultFacts(r6, "type", Str("unknown"));
  }

  /** ... keeps every field that was there, ... */
  lemma WithDefaultsKeeps(rec: Record)
    ensures forall k :: k in rec ==> WithDefaults(rec)[k] == rec[k]
  {
    var r1 := SetDefault(rec, "rating", Str("N/A"));
    var r2 := SetDefault(r1, "similar_titles", Arr([]));
    var r3 := SetDefault(r2, "description", Str("No description available"));
    var r4 := SetDefault(r3, "why_recommended", Str("Matches your preferences"));
    var r5 := SetDefault(r4, "image_url", Null);
    var r6 := SetDefault(r5, "trailer_url", Null);
    assert WithDefaults(rec) == SetDefault(r6, "type", Str("unknown"));
    SetDefaultFacts(rec, "rating", Str("N/A"));
    SetDefaultFacts(r1, "similar_titles", Arr([]));
    SetDefaultFacts(r2, "description", Str("No description available"));
    SetDefaultFacts(r3, "why_recommended", Str("Matches your preferences"));
    SetDefaultFacts(r4, "image_url", Null);
    SetDefaultFacts(r5, "trailer_url", Null);
    SetDefaultFacts(r6, "type", Str("unknown"));
  }

  /** ... and leaves a record that has them all as it is. */
  lemma WithDefaultsComplete(rec: Record)
    requires DefaultKeys <= rec.Keys
    ensures WithDefaults(rec) == rec
  {
    var r1 := SetDefault(rec, "rating", Str("N/A"));
    var r2 := SetDefault(r1, "similar_titles", Arr([]));
    var r3 := SetDefault(r2, "description", Str("No description available"));
    var r4 := SetDefault(r3, "why_recommended", Str("Matches your preferences"));
    var r5 := SetDefault(r4, "image_url", Null);
    var r6 := SetDefault(r5, "trailer_url", Null);
    assert WithDefaults(rec) == SetDefault(r6, "type", Str("unknown"));
    SetDefaultFacts(rec, "rating", Str("N/A"));
    SetDefaultFacts(r1, "similar_titles", Arr([]));
    SetDefaultFacts(r2, "description", Str("No description available"));
    SetDefaultFacts(r3, "why_recommended", Str("Matches your preferences"));
    SetDefaultFacts(r4, "image_url", Null);
    SetDefaultFacts(r5, "trailer_url", Null);
    SetDefaultFacts(r6, "type", Str("unknown"));
  }

  lemma SetDefaultFacts(rec: Record, k: string, v: Value)
    ensures SetDefault(rec, k, v).Keys == rec.Keys + {k}
    ensures forall j :: j in rec ==> SetDefault(rec, k, v)[j] == rec[j]
    ensures k in rec ==> SetDefault(rec, k, v) == rec
  {
  }

  /** Post-processing leaves every default field present, keeps every other field it found
      except `year` and `rating`, and leaves no `-` in the year. */
  lemma PostProcessFields(rec: Record)
    requires YearIsText(rec)
    ensures var p := PostProcessRecord(rec);
      && DefaultKeys <= p.Keys
      && (forall k :: k in rec && k != "year" && k != "rating" ==> k in p && p[k] == rec[k])
      && ("year" in p ==> p["year"].Str? && '-' !in p["year"].s)
  {
    WithDefaultsKeys(rec);
    WithDefaultsKeeps(rec);
    if "year" in rec {
      BeforeCharIdempotent(rec["year"].s, '-');
    }
  }

  /** Post-processing a post-processed record changes nothing. */
  lemma PostProcessIdempotent(rec: Record)
    requires YearIsText(rec)
    ensures YearIsText(PostProcessRecord(rec))
    ensures PostProcessRecord(PostProcessRecord(rec)) == PostProcessRecord(rec)
  {
    var p := PostProcessRecord(rec);
    PostProcessFields(rec);
    var c := CutYear(WithDefaults(rec));
    PostProcessRating(rec);
    NormalRatingIdempotent(c["rating"]);
    PostProcessFixed(p);
  }

  lemma PostProcessRating(rec: Record)
    requires YearIsText(rec)
    ensures "rating" in CutYear(WithDefaults(rec))
    ensures PostProcessRecord(rec)["rating"] == NormalRating(CutYear(WithDefaults(rec))["rating"])
  {
    WithDefaultsKeys(rec);
  }

  /** A record with every default, a year without `-` and a normalised rating is left as is. */
  lemma PostProcessFixed(p: Record)
    requires DefaultKeys <= p.Keys
    requires "year" in p ==> p["year"].Str? && '-' !in p["year"].s
    requires NormalRating(p["rating"]) == p["rating"]
    ensures PostProcessRecord(p) == p
  {
    WithDefaultsComplete(p);
    if "year" in p {
      BeforeCharAbsent(p["year"].s, '-');
    }
    assert CutYear(p) == p;
  }

  // ---------------------------------------------------------------------------------------
  // Properties of the two-stage parse

  /** When a JSON-looking substring is found the structured-text parser is never consulted,
      even when the JSON gives nothing. */
  lemma JsonTakesPrecedence(t: string, codec: JsonCodec)
    requires codec.find(t).Some? && codec.find(t).value != ""
    ensures ParsedResult(TextResult(t), codec).Some? <==> JsonRecords(codec.decode(codec.find(t).value)).Some?
  {
  }

  /** Records taken from JSON are handed back exactly as decoded, without the defaults and
      rating normalisation of the structured-text path. */
  lemma JsonRecordsUnchanged(t: string, codec: JsonCodec, items: seq<Value>)
    requires codec.find(t).Some? && codec.find(t).value != ""
    requires codec.decode(codec.find(t).value) == Some(Arr(items))
    ensures ParsedResult(TextResult(t), codec).Some? ==>
      forall v :: v in ParsedResult(TextResult(t), codec).value ==> v in items
  {
    KeepTitledSound(items);
  }
}
