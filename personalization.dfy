/** The personalization store (`PersonalizationManager`): per-user preferences, a capped
    request history and capped liked/disliked lists, kept in one dict that is written to a JSON
    file after every change; plus the context text and the insight counts derived from it.

    The current time is the parameter `stamp` (its ISO text), the outcome of writing the file
    is the parameter `writeOk`, and the file is the ghost field `stored`. */
module Personalization {
  import opened Wrappers
  import opened Text
  import opened JsonValue

  /** The history keeps its 50 most recent entries. */
  const HistoryCap: nat := 50
  /** Each feedback list keeps its 100 most recent entries. */
  const FeedbackCap: nat := 100

  const NewUserContext: string := "New user - no previous preferences available."

  datatype Prefs = Prefs(mediaType: string, genre: string, mood: string, timeframe: string, lastUpdated: string)

  /** The part of a recommendation the history keeps: `rec.get` of its title, type and genre. */
  datatype Projection = Projection(title: Value, kind: Value, genre: Value)

  datatype HistoryEntry = HistoryEntry(timestamp: string, request: string, recs: seq<Projection>)

  datatype FeedbackEntry = FeedbackEntry(title: Value, kind: Value, genre: Value, timestamp: string)

  /** One user's record; `preferences == None` is the empty dict `{}`. */
  datatype UserRecord = UserRecord(
    preferences: Option<Prefs>,
    history: seq<HistoryEntry>,
    liked: seq<FeedbackEntry>,
    disliked: seq<FeedbackEntry>)

  /** The record a new or cleared user gets. */
  const EmptyRecord: UserRecord := UserRecord(None, [], [], [])

  /** The storage file as a load finds it. */
  datatype StoreFile = NoFile | Corrupt | Saved(data: map<string, UserRecord>)

  /** `lst[-n:]`: the last `n` items, or all of them when there are fewer. */
  function Last<T>(s: seq<T>, n: nat): (r: seq<T>)
    ensures |r| <= n && |r| <= |s|
    ensures |s| > 0 && n > 0 ==> |r| > 0 && r[|r| - 1] == s[|s| - 1]
  {
    if |s| > n then s[|s| - n..] else s
  }

  function Project(rec: Record): Projection {
    Projection(Get(rec, "title"), Get(rec, "type"), Get(rec, "genre"))
  }

  function ProjectAll(recs: seq<Record>): (r: seq<Projection>)
    ensures |r| == |recs|
    ensures forall i :: 0 <= i < |recs| ==> r[i] == Project(recs[i])
  {
    seq(|recs|, i requires 0 <= i < |recs| => Project(recs[i]))
  }

  function RecordOf(data: map<string, UserRecord>, userId: string): UserRecord {
    if userId in data then data[userId] else EmptyRecord
  }

  /** Every stored list is within its cap. */
  predicate Bounded(data: map<string, UserRecord>) {
    forall u :: u in data ==>
      |data[u].history| <= HistoryCap && |data[u].liked| <= FeedbackCap && |data[u].disliked| <= FeedbackCap
  }

  // ---------------------------------------------------------------------------------------
  // The context text

  /** How `str()` shows a text, `None` or boolean title or type inside the context text. A
      number, list or object is shown as empty text, which the source does not do. */
  function Display(v: Value): string {
    match v
    case Str(s) => s
    case Null => "None"
    case Bool(b) => if b then "True" else "False"
    case _ => ""
  }

  function PreferenceLines(p: Option<Prefs>): seq<string> {
    match p
    case None => []
    case Some(q) => [
      "User preferences:",
      "- Preferred media type: " + q.mediaType,
      "- Preferred genre: " + q.genre,
      "- Typical mood: " + q.mood,
      "- Timeframe preference: " + q.timeframe]
  }

  function Requests(h: seq<HistoryEntry>): (r: seq<string>)
    ensures |r| == |h| && forall i :: 0 <= i < |h| ==> r[i] == h[i].request
  {
    seq(|h|, i requires 0 <= i < |h| => h[i].request)
  }

  /** `f"{i}. {req}"` for `i` counting from 1. */
  function Numbered(reqs: seq<string>): (r: seq<string>)
    ensures |r| == |reqs|
  {
    seq(|reqs|, i requires 0 <= i < |reqs| => NatToString(i + 1) + ". " + reqs[i])
  }

  function HistoryLines(h: seq<HistoryEntry>): seq<string> {
    if |h| == 0 then []
    else ["\nRecent interaction history:"] + Numbered(Last(Last(Requests(h), 5), 3))
  }

  function ItemLine(e: FeedbackEntry): string {
    "- " + Display(e.title) + " (" + Display(e.kind) + ")"
  }

  function ItemLines(shown: seq<FeedbackEntry>): seq<string> {
    seq(|shown|, i requires 0 <= i < |shown| => ItemLine(shown[i]))
  }

  function FeedbackLines(header: string, items: seq<FeedbackEntry>, n: nat): seq<string> {
    if |items| == 0 then [] else [header] + ItemLines(Last(items, n))
  }

  function ContextLines(r: UserRecord): seq<string> {
    PreferenceLines(r.preferences)
    + HistoryLines(r.history)
    + FeedbackLines("\nPreviously liked items:", r.liked, 5)
    + FeedbackLines("\nPreviously disliked items:", r.disliked, 3)
  }

  // ---------------------------------------------------------------------------------------
  // Insights

  function Genres(recs: seq<Projection>): multiset<Value> {
    multiset(seq(|recs|, i requires 0 <= i < |recs| => recs[i].genre))
  }

  function Kinds(recs: seq<Projection>): multiset<Value> {
    multiset(seq(|recs|, i requires 0 <= i < |recs| => recs[i].kind))
  }

  /** `favorite_genres`: how often each genre value occurs over all recommendations in the
      history (a multiset is a map from value to count). */
  function GenreCounts(h: seq<HistoryEntry>): multiset<Value> {
    if |h| == 0 then multiset{} else GenreCounts(h[..|h| - 1]) + Genres(h[|h| - 1].recs)
  }

  /** `preferred_media_types`, likewise over the `type` values. */
  function KindCounts(h: seq<HistoryEntry>): multiset<Value> {
    if |h| == 0 then multiset{} else KindCounts(h[..|h| - 1]) + Kinds(h[|h| - 1].recs)
  }

  /** The number of recommendations recorded over the whole history. */
  function TotalRecs(h: seq<HistoryEntry>): nat {
    if |h| == 0 then 0 else TotalRecs(h[..|h| - 1]) + |h[|h| - 1].recs|
  }

  /** `recommendation_success_rate`: likes as a percentage of all feedback, 0 without any. */
  function SuccessRate(likes: nat, dislikes: nat): (rate: real)
    ensures 0.0 <= rate <= 100.0
    ensures likes + dislikes == 0 ==> rate == 0.0
    ensures likes + dislikes > 0 && dislikes == 0 ==> rate == 100.0
    ensures likes + dislikes > 0 && likes == 0 ==> rate == 0.0
  {
    if likes + dislikes > 0 then likes as real / (likes + dislikes) as real * 100.0 else 0.0
  }

  datatype Insights = Insights(
    favoriteGenres: multiset<Value>,
    preferredMediaTypes: multiset<Value>,
    commonThemes: seq<string>,
    successRate: real)

  // ---------------------------------------------------------------------------------------
  // The store

  class PersonalizationManager {
    const storageFile: string
    var userData: map<string, UserRecord>
    ghost var stored: StoreFile

    /** `__init__` with `_load_user_data`: the saved dict when the file exists and parses,
        otherwise an empty one. */
    constructor (storageFile: string, onDisk: StoreFile)
      ensures this.storageFile == storageFile
      ensures userData == (if onDisk.Saved? then onDisk.data else map[])
      ensures stored == onDisk
    {
      this.storageFile := storageFile;
      userData := if onDisk.Saved? then onDisk.data else map[];
      stored := onDisk;
    }

    /** `_save_user_data`: the whole dict is written; a failed write leaves the file as it was. */
    method Save(writeOk: bool)
      modifies this
      ensures userData == old(userData)
      ensures stored == (if writeOk then Saved(userData) else old(stored))
    {
      if writeOk {
        stored := Saved(userData);
      }
    }

    /** `save_user_preferences`: creates the empty record for a new user and replaces only its
        preferences; then saves. */
    method SaveUserPreferences(userId: string, mediaType: string, genre: string, mood: string,
                               timeframe: string, stamp: string, writeOk: bool)
      modifies this
      ensures userData == old(userData)[userId :=
        RecordOf(old(userData), userId).(preferences := Some(Prefs(mediaType, genre, mood, timeframe, stamp)))]
      ensures stored == (if writeOk then Saved(userData) else old(stored))
      ensures Bounded(old(userData)) ==> Bounded(userData)
    {
      if userId !in userData {
        userData := userData[userId := EmptyRecord];
      }
      var r := userData[userId];
      userData := userData[userId := r.(preferences := Some(Prefs(mediaType, genre, mood, timeframe, stamp)))];
      Save(writeOk);
    }

    /** `update_user_history`: appends one entry holding the request and the title/type/genre of
        each recommendation, in order, keeps the 50 most recent entries, and saves. */
    method UpdateUserHistory(userId: string, request: string, recommendations: seq<Record>,
                             stamp: string, writeOk: bool)
      modifies this
      ensures userData == old(userData)[userId :=
        RecordOf(old(userData), userId).(history :=
          Last(RecordOf(old(userData), userId).history + [HistoryEntry(stamp, request, ProjectAll(recommendations))], HistoryCap))]
      ensures stored == (if writeOk then Saved(userData) else old(stored))
      ensures Bounded(old(userData)) ==> Bounded(userData)
    {
      if userId !in userData {
        userData := userData[userId := EmptyRecord];
      }
      var r := userData[userId];
      var entry := HistoryEntry(stamp, request, ProjectAll(recommendations));
      var history := r.history + [entry];
      if |history| > HistoryCap {
        history := history[|history| - HistoryCap..];
      }
      userData := userData[userId := r.(history := history)];
      Save(writeOk);
    }

    /** `record_feedback`: nothing for an unknown user; otherwise appends the title/type/genre to
        the liked or the disliked list, keeps its 100 most recent entries, and saves. */
    method RecordFeedback(userId: string, recommendation: Record, liked: bool, stamp: string, writeOk: bool)
      modifies this
      ensures userId !in old(userData) ==> userData == old(userData) && stored == old(stored)
      ensures userId in old(userData) ==>
        var r := old(userData)[userId];
        var e := FeedbackEntry(Get(recommendation, "title"), Get(recommendation, "type"),
                               Get(recommendation, "genre"), stamp);
        && userData == old(userData)[userId :=
             if liked then r.(liked := Last(r.liked + [e], FeedbackCap))
             else r.(disliked := Last(r.disliked + [e], FeedbackCap))]
        && stored == (if writeOk then Saved(userData) else old(stored))
      ensures Bounded(old(userData)) ==> Bounded(userData)
    {
      if userId !in userData {
        return;
      }
      var r := userData[userId];
      var e := FeedbackEntry(Get(recommendation, "title"), Get(recommendation, "type"),
                             Get(recommendation, "genre"), stamp);
      if liked {
        var items := r.liked + [e];
        if |items| > FeedbackCap {
          items := items[|items| - FeedbackCap..];
        }
        userData := userData[userId := r.(liked := items)];
      } else {
        var items := r.disliked + [e];
        if |items| > FeedbackCap {
          items := items[|items| - FeedbackCap..];
        }
        userData := userData[userId := r.(disliked := items)];
      }
      Save(writeOk);
    }

    /** `clear_user_history`: an existing user goes back to the empty record and the store is
        saved; an unknown user changes nothing. */
    method ClearUserHistory(userId: string, writeOk: bool)
      modifies this
      ensures userId !in old(userData) ==> userData == old(userData) && stored == old(stored)
      ensures userId in old(userData) ==>
        userData == old(userData)[userId := EmptyRecord]
        && stored == (if writeOk then Saved(userData) else old(stored))
      ensures Bounded(old(userData)) ==> Bounded(userData)
    {
      if userId in userData {
        userData := userData[userId := EmptyRecord];
        Save(writeOk);
      }
    }

    /** `get_user_context`: the fixed new-user text for an unknown user, otherwise the context
        lines joined by newlines. */
    method GetUserContext(userId: string) returns (context: string)
      ensures userId !in userData ==> context == NewUserContext
      ensures userId in userData ==> context == Join(ContextLines(userData[userId]), "\n")
    {
      if userId !in userData {
        return NewUserContext;
      }
      var info := userData[userId];
      var parts: seq<string> := [];
      match info.preferences {
        case Some(p) =>
          parts := parts + ["User preferences:"];
          parts := parts + ["- Preferred media type: " + p.mediaType];
          parts := parts + ["- Preferred genre: " + p.genre];
          parts := parts + ["- Typical mood: " + p.mood];
          parts := parts + ["- Timeframe preference: " + p.timeframe];
        case None =>
      }
      assert parts == PreferenceLines(info.preferences);
      parts := AppendHistory(parts, info.history);
      parts := AppendItems(parts, "\nPreviously liked items:", info.liked, 5);
      parts := AppendItems(parts, "\nPreviously disliked items:", info.disliked, 3);
      assert parts == ContextLines(info);
      context := Join(parts, "\n");
    }

    /** `get_user_insights`: `None` (the empty dict) for an unknown user; otherwise genre and
        type counts over every recommendation in the history, no common themes, and the
        success rate of the feedback. */
    method GetUserInsights(userId: string) returns (insights: Option<Insights>)
      ensures userId !in userData ==> insights == None
      ensures userId in userData ==>
        var r := userData[userId];
        insights == Some(Insights(GenreCounts(r.history), KindCounts(r.history), [],
                                  SuccessRate(|r.liked|, |r.disliked|)))
    {
      if userId !in userData {
        return None;
      }
      var info := userData[userId];
      var genres: multiset<Value> := multiset{};
      var kinds: multiset<Value> := multiset{};
      var i := 0;
      while i < |info.history|
        invariant 0 <= i <= |info.history|
        invariant genres == GenreCounts(info.history[..i])
        invariant kinds == KindCounts(info.history[..i])
      {
        var g, k := CountRecs(info.history[i].recs);
        CountsSnoc(info.history, i);
        genres := genres + g;
        kinds := kinds + k;
        i := i + 1;
      }
      assert info.history[..i] == info.history;
      var total := |info.liked| + |info.disliked|;
      var rate := 0.0;
      if total > 0 {
        rate := (|info.liked| as real / total as real) * 100.0;
      }
      return Some(Insights(genres, kinds, [], rate));
    }
  }

  /** Appends the header and one line for each of the last `n` items, when there are any. */
  method AppendItems(parts: seq<string>, header: string, items: seq<FeedbackEntry>, n: nat)
    returns (out: seq<string>)
    ensures out == parts + FeedbackLines(header, items, n)
  {
    out := parts;
    if |items| > 0 {
      var shown := Last(items, n);
      var lines: seq<string> := [];
      var i := 0;
      while i < |shown|
        invariant 0 <= i <= |shown| && |lines| == i
        invariant forall k :: 0 <= k < i ==> lines[k] == ItemLine(shown[k])
      {
        lines := lines + [ItemLine(shown[i])];
        i := i + 1;
      }
      assert lines == ItemLines(shown);
      out := out + ([header] + lines);
    }
  }

  /** Appends the history header and the numbered last 3 requests, when there is a history. */
  method AppendHistory(parts: seq<string>, history: seq<HistoryEntry>) returns (out: seq<string>)
    ensures out == parts + HistoryLines(history)
  {
    out := parts;
    if |history| > 0 {
      out := out + ["\nRecent interaction history:"];
      var recentRequests := Requests(Last(history, 5));
      RequestsOfLast(history, 5);
      var shown := Last(recentRequests, 3);
      var lines: seq<string> := [];
      var i := 0;
      while i < |shown|
        invariant 0 <= i <= |shown| && |lines| == i
        invariant forall k :: 0 <= k < i ==> lines[k] == NatToString(k + 1) + ". " + shown[k]
      {
        lines := lines + [NatToString(i + 1) + ". " + shown[i]];
        i := i + 1;
      }
      assert lines == Numbered(shown);
      out := out + lines;
    }
  }

  lemma RequestsOfLast(h: seq<HistoryEntry>, n: nat)
    ensures Requests(Last(h, n)) == Last(Requests(h), n)
  {
  }

  /** Counts the genre and type values of one history entry's recommendations. */
  method CountRecs(recs: seq<Projection>) returns (genres: multiset<Value>, kinds: multiset<Value>)
    ensures genres == Genres(recs) && kinds == Kinds(recs)
  {
    genres := multiset{};
    kinds := multiset{};
    var j := 0;
    while j < |recs|
      invariant 0 <= j <= |recs|
      invariant genres == Genres(recs[..j])
      invariant kinds == Kinds(recs[..j])
    {
      GenresSnoc(recs, j);
      genres := genres + multiset{recs[j].genre};
      kinds := kinds + multiset{recs[j].kind};
      j := j + 1;
    }
    assert recs[..j] == recs;
  }

  lemma CountsSnoc(h: seq<HistoryEntry>, i: nat)
    requires i < |h|
    ensures GenreCounts(h[..i + 1]) == GenreCounts(h[..i]) + Genres(h[i].recs)
    ensures KindCounts(h[..i + 1]) == KindCounts(h[..i]) + Kinds(h[i].recs)
  {
    assert h[..i + 1][..i] == h[..i];
  }

  lemma GenresSnoc(recs: seq<Projection>, j: nat)
    requires j < |recs|
    ensures Genres(recs[..j + 1]) == Genres(recs[..j]) + multiset{recs[j].genre}
    ensures Kinds(recs[..j + 1]) == Kinds(recs[..j]) + multiset{recs[j].kind}
  {
    var a := seq(j + 1, i requires 0 <= i < j + 1 => recs[..j + 1][i].genre);
    var b := seq(j, i requires 0 <= i < j => recs[..j][i].genre);
    assert a == b + [recs[j].genre];
    var c := seq(j + 1, i requires 0 <= i < j + 1 => recs[..j + 1][i].kind);
    var d := seq(j, i requires 0 <= i < j => recs[..j][i].kind);
    assert c == d + [recs[j].kind];
  }

  // ---------------------------------------------------------------------------------------
  // Properties

  /** Every history recommendation is counted exactly once among the genres and once among the
      types. */
  lemma {:induction false} CountsCoverHistory(h: seq<HistoryEntry>)
    ensures |GenreCounts(h)| == TotalRecs(h)
    ensures |KindCounts(h)| == TotalRecs(h)
    decreases |h|
  {
    if |h| > 0 {
      CountsCoverHistory(h[..|h| - 1]);
      var recs := h[|h| - 1].recs;
      assert |Genres(recs)| == |recs|;
      assert |Kinds(recs)| == |recs|;
    }
  }

  /** Showing the last 3 of the last 5 requests shows just the last 3. */
  lemma LastOfLast<T>(s: seq<T>)
    ensures Last(Last(s, 5), 3) == Last(s, 3)
  {
  }

  /** The context lists at most 3 requests, 5 liked and 3 disliked items, and the request lines
      are numbered from 1. */
  lemma ContextBounds(r: UserRecord)
    ensures |HistoryLines(r.history)| <= 4
    ensures |FeedbackLines("\nPreviously liked items:", r.liked, 5)| <= 6
    ensures |FeedbackLines("\nPreviously disliked items:", r.disliked, 3)| <= 4
    ensures |r.history| > 0 ==> HistoryLines(r.history)[1] == "1. " + Last(Requests(r.history), 3)[0]
  {
    if |r.history| > 0 {
      LastOfLast(Requests(r.history));
      assert NatToString(1) == "1";
    }
  }

  /** A cleared user is known but has an empty context, not the new-user text. */
  lemma ClearedContextEmpty()
    ensures Join(ContextLines(EmptyRecord), "\n") == ""
    ensures NewUserContext != ""
  {
  }

  /** Appending to a capped list keeps the newest entry last and the cap. */
  lemma CappedAppend<T>(s: seq<T>, x: T, cap: nat)
    requires cap > 0
    ensures |Last(s + [x], cap)| == (if |s| + 1 > cap then cap else |s| + 1)
    ensures Last(s + [x], cap)[|Last(s + [x], cap)| - 1] == x
    ensures |s| < cap ==> Last(s + [x], cap) == s + [x]
  {
  }
}
