/** The API memoizer `cache_api_call`: a cache key built from the function's name, its
    positional arguments after the first, and its keyword arguments in sorted order, and a
    cache-aside wrapper over the one persistent cache that every decorated function shares. */
module CacheDecorator {
  import opened Wrappers
  import opened Text
  import opened JsonValue
  import opened TtlCache

  /** `cache_api_call`'s default time-to-live in seconds. */
  const DefaultTtl: nat := 300

  /** An argument value as it appears in the key, through its `repr`. */
  datatype Arg = Text(s: string) | Int(i: int) | NoneArg | Flag(b: bool)

  /** One keyword argument, in the order the caller wrote it. */
  datatype Kwarg = Kwarg(name: string, value: Arg)

  /** The quote `repr` puts around a string: double quotes when the string holds a single
      quote and no double quote, single quotes otherwise. */
  function ReprQuote(s: string): char {
    if '\'' in s && '"' !in s then '"' else '\''
  }

  function HexDigit(d: nat): char
    requires d < 16
  {
    if d < 10 then ('0' as int + d) as char else ('a' as int + d - 10) as char
  }

  /** One character inside a string's `repr`: the backslash and the chosen quote are escaped,
      tab, newline and carriage return by name, other ASCII control characters as `\xhh`. */
  function EscapeChar(c: char, q: char): string {
    if c == '\\' || c == q then ['\\', c]
    else if c == '\t' then "\\t"
    else if c == '\n' then "\\n"
    else if c == '\r' then "\\r"
    else if c < ' ' || c == 127 as char then "\\x" + [HexDigit(c as int / 16), HexDigit(c as int % 16)]
    else [c]
  }

  function Escaped(s: string, q: char): string
    decreases |s|
  {
    if |s| == 0 then "" else EscapeChar(s[0], q) + Escaped(s[1..], q)
  }

  /** `repr(s)` of a string. */
  function ReprText(s: string): string {
    var q := ReprQuote(s);
    [q] + Escaped(s, q) + [q]
  }

  /** A character `repr` shows as itself under either quote. */
  predicate PlainChar(c: char) {
    c != '\\' && c != '\'' && c != '"' && ' ' <= c && c != 127 as char
  }

  /** A string of plain characters is shown as itself between single quotes. */
  lemma ReprPlainText(s: string)
    requires forall i :: 0 <= i < |s| ==> PlainChar(s[i])
    ensures ReprText(s) == "'" + s + "'"
  {
    EscapedPlain(s, '\'');
  }

  lemma {:induction false} EscapedPlain(s: string, q: char)
    requires q == '\'' || q == '"'
    requires forall i :: 0 <= i < |s| ==> PlainChar(s[i])
    ensures Escaped(s, q) == s
    decreases |s|
  {
    if |s| > 0 {
      assert PlainChar(s[0]);
      EscapedPlain(s[1..], q);
      assert s == [s[0]] + s[1..];
    }
  }

  /** A string with an apostrophe and no double quote is shown between double quotes, so it
      can never be read as two single-quoted strings. */
  lemma ReprApostrophe(s: string)
    requires '\'' in s && '"' !in s
    ensures |ReprText(s)| >= 2 && ReprText(s)[0] == '"' && ReprText(s)[|ReprText(s)| - 1] == '"'
  {
  }

  /** `repr(a)`. */
  function ReprArg(a: Arg): string {
    match a
    case Text(s) => ReprText(s)
    case Int(i) => IntToString(i)
    case NoneArg => "None"
    case Flag(b) => if b then "True" else "False"
  }

  function ReprArgs(args: seq<Arg>): seq<string> {
    seq(|args|, i requires 0 <= i < |args| => ReprArg(args[i]))
  }

  /** `str(t)` of a tuple: `()`, `(x,)`, `(x, y, ...)`. */
  function TupleRepr(args: seq<Arg>): string {
    if |args| == 0 then "()"
    else if |args| == 1 then "(" + ReprArg(args[0]) + ",)"
    else "(" + Join(ReprArgs(args), ", ") + ")"
  }

  /** `str(d)` of a dict, with its items in the given order. */
  function DictRepr(kw: seq<Kwarg>): string {
    "{" + Join(seq(|kw|, i requires 0 <= i < |kw| => ReprText(kw[i].name) + ": " + ReprArg(kw[i].value)), ", ") + "}"
  }

  // ---------------------------------------------------------------------------------------
  // Python's string order and `sorted(kwargs.items())`

  /** `a < b` on Python strings: code point by code point, a proper prefix first. */
  predicate StrLess(a: string, b: string)
    decreases |a|
  {
    |b| > 0 && (|a| == 0 || a[0] < b[0] || (a[0] == b[0] && StrLess(a[1..], b[1..])))
  }

  lemma {:induction false} StrLessIrreflexive(a: string)
    ensures !StrLess(a, a)
    decreases |a|
  {
    if |a| > 0 {
      StrLessIrreflexive(a[1..]);
    }
  }

  lemma {:induction false} StrLessAsymmetric(a: string, b: string)
    ensures StrLess(a, b) ==> !StrLess(b, a)
    decreases |a|
  {
    if |a| > 0 && |b| > 0 && a[0] == b[0] {
      StrLessAsymmetric(a[1..], b[1..]);
    }
  }

  lemma {:induction false} StrLessTotal(a: string, b: string)
    ensures a == b || StrLess(a, b) || StrLess(b, a)
    decreases |a|
  {
    if |a| > 0 && |b| > 0 && a[0] == b[0] {
      StrLessTotal(a[1..], b[1..]);
      if a[1..] == b[1..] {
        assert a == [a[0]] + a[1..] && b == [b[0]] + b[1..];
      }
    }
  }

  lemma {:induction false} StrLessTransitive(a: string, b: string, c: string)
    requires StrLess(a, b) && StrLess(b, c)
    ensures StrLess(a, c)
    decreases |a|
  {
    if |a| > 0 && a[0] == b[0] && b[0] == c[0] {
      StrLessTransitive(a[1..], b[1..], c[1..]);
    }
  }

  /** The keys of a kwargs dict are distinct. */
  predicate DistinctKeys(kw: seq<Kwarg>) {
    forall i, j :: 0 <= i < j < |kw| ==> kw[i].name != kw[j].name
  }

  predicate StrictlySorted(kw: seq<Kwarg>) {
    forall i, j :: 0 <= i < j < |kw| ==> StrLess(kw[i].name, kw[j].name)
  }

  function Insert(x: Kwarg, s: seq<Kwarg>): (r: seq<Kwarg>)
    requires StrictlySorted(s)
    requires forall i :: 0 <= i < |s| ==> s[i].name != x.name
    ensures multiset(r) == multiset(s) + multiset{x}
    ensures forall y :: y in r ==> y == x || y in s
    ensures StrictlySorted(r)
  {
    if |s| == 0 then [x]
    else if StrLess(x.name, s[0].name) then
      forall j | 0 <= j < |s| ensures StrLess(x.name, s[j].name) {
        if j > 0 { StrLessTransitive(x.name, s[0].name, s[j].name); }
      }
      [x] + s
    else
      StrLessTotal(x.name, s[0].name);
      var rest := Insert(x, s[1..]);
      assert forall y :: y in rest ==> StrLess(s[0].name, y.name);
      assert s == [s[0]] + s[1..];
      [s[0]] + rest
  }

  /** `sorted(kwargs.items())`: the same items, in increasing key order. */
  function SortByKey(kw: seq<Kwarg>): (r: seq<Kwarg>)
    requires DistinctKeys(kw)
    ensures multiset(r) == multiset(kw)
    ensures StrictlySorted(r)
  {
    if |kw| == 0 then []
    else
      var rest := SortByKey(kw[1..]);
      OthersKeepOtherNames(kw, rest);
      assert kw == [kw[0]] + kw[1..];
      Insert(kw[0], rest)
  }

  /** The other items of a kwargs list, in any order, do not share the first one's name. */
  lemma OthersKeepOtherNames(kw: seq<Kwarg>, rest: seq<Kwarg>)
    requires |kw| > 0 && DistinctKeys(kw) && multiset(rest) == multiset(kw[1..])
    ensures forall i :: 0 <= i < |rest| ==> rest[i].name != kw[0].name
  {
    forall i | 0 <= i < |rest| ensures rest[i].name != kw[0].name {
      assert rest[i] in multiset(kw[1..]);
      var j :| 0 <= j < |kw[1..]| && kw[1..][j] == rest[i];
      assert kw[j + 1] == rest[i];
    }
  }

  /** Two strictly sorted lists with the same items are the same list. */
  lemma {:induction false} SortedUnique(a: seq<Kwarg>, b: seq<Kwarg>)
    requires StrictlySorted(a) && StrictlySorted(b)
    requires multiset(a) == multiset(b)
    ensures a == b
    decreases |a|
  {
    if |a| == 0 {
      assert |b| == |multiset(b)| == 0;
    } else {
      SortedHeadsEqual(a, b);
      TailMultiset(a);
      TailMultiset(b);
      SortedUnique(a[1..], b[1..]);
      assert a == [a[0]] + a[1..] && b == [b[0]] + b[1..];
    }
  }

  /** The smallest item of two strictly sorted lists with the same items is the same. */
  lemma SortedHeadsEqual(a: seq<Kwarg>, b: seq<Kwarg>)
    requires StrictlySorted(a) && StrictlySorted(b)
    requires multiset(a) == multiset(b) && |a| > 0
    ensures |b| > 0 && a[0] == b[0]
  {
    assert a[0] in multiset(b);
    var j :| 0 <= j < |b| && b[j] == a[0];
    assert b[0] in multiset(a);
    var i :| 0 <= i < |a| && a[i] == b[0];
    if j > 0 && i > 0 {
      StrLessAsymmetric(b[0].name, b[j].name);
      assert false;
    } else if j > 0 {
      StrLessIrreflexive(b[0].name);
      assert false;
    } else if i > 0 {
      StrLessIrreflexive(a[0].name);
      assert false;
    }
  }

  lemma TailMultiset(s: seq<Kwarg>)
    requires |s| > 0
    ensures multiset(s[1..]) == multiset(s) - multiset{s[0]}
  {
    assert s == [s[0]] + s[1..];
  }

  /** The cache key `"{name}:{str(args[1:])}:{str(dict(sorted(kwargs.items())))}"`. The first
      positional argument is always dropped, because every Python value has a `__class__`. */
  function CacheKey(name: string, args: seq<Arg>, kwargs: seq<Kwarg>): string
    requires DistinctKeys(kwargs)
  {
    name + ":" + TupleRepr(if |args| > 0 then args[1..] else args) + ":" + DictRepr(SortByKey(kwargs))
  }

  /** The character after `name:(` is the quote of the first keyed argument when that
      argument is a string. */
  lemma KeyQuoteAt(name: string, args: seq<Arg>, kwargs: seq<Kwarg>)
    requires DistinctKeys(kwargs) && |args| >= 2 && args[1].Text?
    ensures |CacheKey(name, args, kwargs)| > |name| + 2
    ensures CacheKey(name, args, kwargs)[|name| + 2] == ReprQuote(args[1].s)
  {
    var rest := args[1..];
    var first := ReprText(args[1].s);
    assert rest[0] == args[1];
    if |rest| == 1 {
      assert TupleRepr(rest) == "(" + first + ",)";
    } else {
      var parts := ReprArgs(rest);
      assert parts[0] == first;
      assert Join(parts, ", ") == first + ", " + Join(parts[1..], ", ");
      assert TupleRepr(rest) == "(" + (first + ", " + Join(parts[1..], ", ")) + ")";
    }
    assert TupleRepr(rest)[1] == first[0];
    var key := CacheKey(name, args, kwargs);
    assert key == name + ":" + TupleRepr(rest) + ":" + DictRepr(SortByKey(kwargs));
    assert key[|name| + 2] == TupleRepr(rest)[1];
  }

  /** Two calls whose first keyed strings are shown under different quotes never share a key:
      `f(x, "a', 'b", "c")` and `f(x, "a", "b", "c")` are kept apart. */
  lemma QuotesSeparateKeys(name: string, args1: seq<Arg>, args2: seq<Arg>, kwargs: seq<Kwarg>)
    requires DistinctKeys(kwargs) && |args1| >= 2 && |args2| >= 2 && args1[1].Text? && args2[1].Text?
    requires ReprQuote(args1[1].s) != ReprQuote(args2[1].s)
    ensures CacheKey(name, args1, kwargs) != CacheKey(name, args2, kwargs)
  {
    KeyQuoteAt(name, args1, kwargs);
    KeyQuoteAt(name, args2, kwargs);
  }

  lemma SplitLookingTextKeptApart(x: Arg)
    ensures CacheKey("f", [x, Text("a', 'b"), Text("c")], []) != CacheKey("f", [x, Text("a"), Text("b"), Text("c")], [])
  {
    assert '\'' == "a', 'b"[1] && '"' !in "a', 'b";
    assert '\'' !in "a";
    QuotesSeparateKeys("f", [x, Text("a', 'b"), Text("c")], [x, Text("a"), Text("b"), Text("c")], []);
  }

  /** Callers passing the same keyword arguments in a different order share one cache entry. */
  lemma KwargsOrderIrrelevant(name: string, args: seq<Arg>, kw1: seq<Kwarg>, kw2: seq<Kwarg>)
    requires DistinctKeys(kw1) && DistinctKeys(kw2)
    requires multiset(kw1) == multiset(kw2)
    ensures CacheKey(name, args, kw1) == CacheKey(name, args, kw2)
  {
    SortedUnique(SortByKey(kw1), SortByKey(kw2));
  }

  /** Calls that differ only in their first positional argument collide on one key. */
  lemma FirstArgumentIgnored(name: string, a: Arg, b: Arg, rest: seq<Arg>, kwargs: seq<Kwarg>)
    requires DistinctKeys(kwargs)
    ensures CacheKey(name, [a] + rest, kwargs) == CacheKey(name, [b] + rest, kwargs)
  {
    assert ([a] + rest)[1..] == rest == ([b] + rest)[1..];
  }

  /** Different function names never share a key when the names contain no colon. */
  lemma NamesSeparateKeys(n1: string, n2: string, args: seq<Arg>, kwargs: seq<Kwarg>)
    requires DistinctKeys(kwargs)
    requires ':' !in n1 && ':' !in n2 && n1 != n2
    ensures CacheKey(n1, args, kwargs) != CacheKey(n2, args, kwargs)
  {
    var k1 := CacheKey(n1, args, kwargs);
    var k2 := CacheKey(n2, args, kwargs);
    assert BeforeChar(k1, ':') == n1 by { BeforeCharPrefix(n1, k1[|n1|..], ':'); assert k1 == n1 + k1[|n1|..]; }
    assert BeforeChar(k2, ':') == n2 by { BeforeCharPrefix(n2, k2[|n2|..], ':'); assert k2 == n2 + k2[|n2|..]; }
  }

  lemma {:induction false} BeforeCharPrefix(p: string, rest: string, c: char)
    requires c !in p && |rest| > 0 && rest[0] == c
    ensures BeforeChar(p + rest, c) == p
    decreases |p|
  {
    if |p| > 0 {
      assert (p + rest)[1..] == p[1..] + rest;
      BeforeCharPrefix(p[1..], rest, c);
    } else {
      assert p + rest == rest;
    }
  }

  // ---------------------------------------------------------------------------------------
  // The cache-aside wrapper

  /** A decorated function: its name and the TTL fixed when `cache_api_call(ttl)` was applied. */
  datatype Memoized = Memoized(name: string, ttl: nat)

  /** What the wrapped function does when it is invoked: return a value (`Null` for `None`) or
      raise. */
  datatype Outcome = Returned(result: Value) | Raised

  /** What the wrapper hands back to its caller. */
  datatype Reply = Reply(value: Value) | Propagated

  /** The value a lookup serves: a live entry whose value is not `None`. */
  function Served(m: map<string, Entry<Value>>, key: string, ttl: nat, now: real): Option<Value> {
    match Lookup(m, key, Some(ttl as real), now)
    case Some(v) => if v == Null then None else Some(v)
    case None => None
  }

  /** `wrapper(*args, **kwargs)`: a served value is returned without invoking the function;
      otherwise the function is invoked once (at `now`, finishing at `doneAt`), and its result,
      `None` included, is stored and returned, while an exception propagates and stores nothing. */
  method Call(f: Memoized, cache: PersistentCache<Value>, args: seq<Arg>, kwargs: seq<Kwarg>,
              outcome: Outcome, now: real, doneAt: real, writeOk: bool)
    returns (reply: Reply, invoked: bool)
    requires DistinctKeys(kwargs)
    modifies cache
    ensures var key := CacheKey(f.name, args, kwargs);
      var hit := Served(old(cache.entries), key, f.ttl, now);
      && (hit.Some? ==> reply == Reply(hit.value) && !invoked && cache.entries == old(cache.entries))
      && (hit.None? ==> invoked)
      && (hit.None? && outcome.Raised? ==>
            reply == Propagated && cache.entries == Evict(old(cache.entries), key, Some(f.ttl as real), now))
      && (hit.None? && outcome.Returned? ==>
            reply == Reply(outcome.result)
            && cache.entries == Evict(old(cache.entries), key, Some(f.ttl as real), now)[key := Entry(doneAt, outcome.result)])
    ensures var hit := Served(old(cache.entries), CacheKey(f.name, args, kwargs), f.ttl, now);
      && (hit.Some? || outcome.Raised? || !writeOk ==>
            cache.file == old(cache.file) && cache.lastSaveTime == old(cache.lastSaveTime))
      && (hit.None? && outcome.Returned? && writeOk ==>
            cache.file == Written(Serialize(cache.entries)) && cache.lastSaveTime == doneAt && !cache.dirty)
  {
    var key := CacheKey(f.name, args, kwargs);
    var cached := cache.Get(key, Some(f.ttl as real), now);
    if cached.Some? && cached.value != Null {
      return Reply(cached.value), false;
    }
    invoked := true;
    match outcome {
      case Raised =>
        reply := Propagated;
      case Returned(result) =>
        cache.Set(key, result, doneAt, writeOk);
        reply := Reply(result);
    }
  }

  /** A stored `None` is never served, so the next call invokes the function again. */
  lemma NoneNeverServed(m: map<string, Entry<Value>>, key: string, stamp: real, ttl: nat, now: real)
    ensures Served(m[key := Entry(stamp, Null)], key, ttl, now) == None
  {
  }

  /** A stored non-`None` result is served to every later call with the same key until it is
      `ttl` seconds old. */
  lemma StoredResultServed(m: map<string, Entry<Value>>, key: string, v: Value, stamp: real, ttl: nat, now: real)
    requires v != Null && now - stamp < ttl as real
    ensures Served(m[key := Entry(stamp, v)], key, ttl, now) == Some(v)
  {
  }
}
