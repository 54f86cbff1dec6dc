/** The mock HTTP adapter (src/mock/adapter.ts): it routes a request to the
    first mock handler whose method and path pattern match, injects the
    path parameters, and answers either at once or, for a streamed answer,
    in 20-character pieces. */
module MockAdapter {
  import opened Wrappers
  import opened Strings
  import opened Json
  import opened Lists

  /** A path pattern, as the regular expression built from it reads it:
      literal characters, and `:name` parameters. */
  datatype Token = Lit(c: char) | Param(name: string)

  /** The text up to the next `/`: what `[^/]+` can take. */
  function Segment(s: string): (r: string)
    ensures |r| <= |s| && r == s[..|r|] && '/' !in r
    ensures |r| < |s| ==> s[|r|] == '/'
  {
    UpTo(s, '/')
  }

  /** A parameter is always followed by `/` or by the end of the pattern. */
  predicate WellFormed(ts: seq<Token>) {
    forall i :: 0 <= i < |ts| && ts[i].Param? ==>
      ts[i].name != [] && '/' !in ts[i].name && (i + 1 == |ts| || ts[i + 1] == Lit('/'))
  }

  /** The pattern text tokens are written as: a literal as itself, a
      parameter as `:` and its name. */
  function Print(ts: seq<Token>): string {
    if ts == [] then []
    else if ts[0].Param? then ":" + ts[0].name + Print(ts[1..])
    else [ts[0].c] + Print(ts[1..])
  }

  /** A `:` stays a literal only where no parameter name can follow it. */
  predicate NoLooseColon(ts: seq<Token>) {
    forall i :: 0 <= i < |ts| && ts[i] == Lit(':') ==> i + 1 == |ts| || ts[i + 1] == Lit('/')
  }

  /** A parameter in front of tokens that begin with `/` or are none. */
  lemma ConsParam(name: string, rest: seq<Token>)
    requires WellFormed(rest) && NoLooseColon(rest)
    requires name != [] && '/' !in name && (rest == [] || rest[0] == Lit('/'))
    ensures WellFormed([Param(name)] + rest) && NoLooseColon([Param(name)] + rest)
    ensures Print([Param(name)] + rest) == ":" + name + Print(rest)
  {
    var ts := [Param(name)] + rest;
    assert ts[1..] == rest;
    forall i | 1 <= i < |ts| ensures ts[i] == rest[i - 1] { }
  }

  /** A literal in front of tokens; a `:` only before `/` or the end. */
  lemma ConsLit(c: char, rest: seq<Token>)
    requires WellFormed(rest) && NoLooseColon(rest)
    requires c == ':' ==> rest == [] || rest[0] == Lit('/')
    ensures WellFormed([Lit(c)] + rest) && NoLooseColon([Lit(c)] + rest)
    ensures Print([Lit(c)] + rest) == [c] + Print(rest)
  {
    var ts := [Lit(c)] + rest;
    assert ts[1..] == rest;
    forall i | 1 <= i < |ts| ensures ts[i] == rest[i - 1] { }
  }

  /** Reads a pattern the way `/:[^/]+/g` does: a `:` followed by at least
      one character other than `/` starts a parameter whose name runs up to
      the next `/`; every other character stands for itself. */
  function Tokenize(pattern: string): (r: seq<Token>)
    decreases |pattern|
    ensures Print(r) == pattern
    ensures WellFormed(r) && NoLooseColon(r)
    ensures r == [] <==> pattern == []
    ensures pattern != [] && pattern[0] == '/' ==> r[0] == Lit('/')
  {
    if pattern == [] then []
    else if pattern[0] == ':' && Segment(pattern[1..]) != [] then
      var name := Segment(pattern[1..]);
      var tail := pattern[1 + |name|..];
      var rest := Tokenize(tail);
      assert tail != [] ==> tail[0] == '/';
      ConsParam(name, rest);
      assert pattern == ":" + name + tail;
      [Param(name)] + rest
    else
      var rest := Tokenize(pattern[1..]);
      assert pattern[0] == ':' ==> pattern[1..] == [] || pattern[1..][0] == '/';
      ConsLit(pattern[0], rest);
      assert pattern == [pattern[0]] + pattern[1..];
      [Lit(pattern[0])] + rest
  }

  /** The parameter names, in pattern order. */
  function ParamNames(ts: seq<Token>): (r: seq<string>)
    ensures |r| <= |ts|
  {
    if ts == [] then []
    else if ts[0].Param? then [ts[0].name] + ParamNames(ts[1..])
    else ParamNames(ts[1..])
  }

  /** The path a pattern describes once each parameter is given a value. */
  function Render(ts: seq<Token>, values: seq<string>): string
    requires |values| == |ParamNames(ts)|
  {
    if ts == [] then []
    else if ts[0].Param? then values[0] + Render(ts[1..], values[1..])
    else [ts[0].c] + Render(ts[1..], values)
  }

  /** A valid parameter value: a non-empty piece without `/`. */
  predicate SegmentValue(v: string) {
    v != [] && '/' !in v
  }

  /** Anchored matching of a whole path; on success, the text each
      parameter captured, in pattern order. */
  function MatchTokens(ts: seq<Token>, path: string): Option<seq<string>>
    decreases |ts|
  {
    if ts == [] then (if path == [] then Some([]) else None)
    else if ts[0].Lit? then
      if path != [] && path[0] == ts[0].c then MatchTokens(ts[1..], path[1..]) else None
    else
      var seg := Segment(path);
      if seg == [] then None
      else
        match MatchTokens(ts[1..], path[|seg|..])
        case None => None
        case Some(vs) => Some([seg] + vs)
  }

  /** A match captures one value per parameter, each a valid segment, and
      the pattern filled with them is the path. */
  lemma {:induction false} MatchSound(ts: seq<Token>, path: string)
    requires MatchTokens(ts, path).Some?
    decreases |ts|
    ensures |MatchTokens(ts, path).value| == |ParamNames(ts)|
    ensures forall k :: 0 <= k < |MatchTokens(ts, path).value| ==> SegmentValue(MatchTokens(ts, path).value[k])
    ensures Render(ts, MatchTokens(ts, path).value) == path
  {
    if ts != [] {
      if ts[0].Lit? {
        MatchSound(ts[1..], path[1..]);
        assert MatchTokens(ts, path) == MatchTokens(ts[1..], path[1..]);
        assert path == [path[0]] + path[1..];
      } else {
        var seg := Segment(path);
        var rest := path[|seg|..];
        MatchSound(ts[1..], rest);
        var vs := MatchTokens(ts[1..], rest).value;
        var all := [seg] + vs;
        assert MatchTokens(ts, path).value == all;
        assert SegmentValue(seg);
        forall k | 0 <= k < |all| ensures SegmentValue(all[k]) {
          if k > 0 {
            assert all[k] == vs[k - 1];
          }
        }
        assert all[1..] == vs;
        assert Render(ts, all) == seg + Render(ts[1..], vs);
        assert path == seg + rest;
      }
    }
  }

  /** Filling a pattern with valid segment values gives a path that matches
      it and captures exactly those values. */
  lemma {:induction false} MatchRender(ts: seq<Token>, values: seq<string>)
    requires WellFormed(ts)
    requires |values| == |ParamNames(ts)|
    requires forall k :: 0 <= k < |values| ==> SegmentValue(values[k])
    decreases |ts|
    ensures MatchTokens(ts, Render(ts, values)) == Some(values)
  {
    if ts != [] {
      assert WellFormed(ts[1..]) by {
        forall i | 0 <= i < |ts[1..]| && ts[1..][i].Param?
          ensures ts[1..][i].name != [] && '/' !in ts[1..][i].name
                  && (i + 1 == |ts[1..]| || ts[1..][i + 1] == Lit('/'))
        {
          assert ts[1..][i] == ts[i + 1];
        }
      }
      var path := Render(ts, values);
      if ts[0].Lit? {
        MatchRender(ts[1..], values);
      } else {
        var rest := Render(ts[1..], values[1..]);
        MatchRender(ts[1..], values[1..]);
        assert rest == [] || rest[0] == '/' by {
          if ts[1..] != [] {
            assert ts[1] == Lit('/');
          }
        }
        SegmentOfValue(values[0], rest);
        assert path == values[0] + rest;
        assert path[|values[0]|..] == rest;
        assert [values[0]] + values[1..] == values;
      }
    }
  }

  lemma {:induction false} SegmentOfValue(v: string, rest: string)
    requires '/' !in v
    requires rest == [] || rest[0] == '/'
    ensures Segment(v + rest) == v
  {
    if v != [] {
      assert (v + rest)[1..] == v[1..] + rest;
      SegmentOfValue(v[1..], rest);
    }
  }

  /** `params[name] = capture` for each parameter in order, so a name that
      occurs twice keeps its later capture. */
  function Bind(names: seq<string>, values: seq<string>): (r: map<string, string>)
    requires |names| == |values|
    ensures forall k :: k in r <==> k in names
  {
    if names == [] then map[] else map[names[0] := values[0]] + Bind(names[1..], values[1..])
  }

  /** Each name holds the value captured by its last occurrence. */
  lemma {:induction false} BindLatest(names: seq<string>, values: seq<string>, i: nat)
    requires |names| == |values| && i < |names|
    requires forall j :: i < j < |names| ==> names[j] != names[i]
    ensures Bind(names, values)[names[i]] == values[i]
  {
    if i == 0 {
      assert names[0] !in names[1..];
    } else {
      BindLatest(names[1..], values[1..], i - 1);
    }
  }

  /** The part of a URL before the first `?` (`path.split('?')[0]`). */
  function CleanPath(path: string): (r: string)
    ensures r == Split(path, '?')[0]
    ensures '?' !in r
  {
    SplitFirst(path, '?');
    UpTo(path, '?')
  }

  /** `matchPath(pattern, path)`: the parameters, or `None` for no match. */
  function MatchPath(pattern: string, path: string): (r: Option<map<string, string>>)
    ensures r.Some? <==> MatchTokens(Tokenize(pattern), CleanPath(path)).Some?
    ensures r.Some? ==> forall k :: k in r.value <==> k in ParamNames(Tokenize(pattern))
  {
    var ts := Tokenize(pattern);
    match MatchTokens(ts, CleanPath(path))
    case None => None
    case Some(vs) =>
      MatchSound(ts, CleanPath(path));
      Some(Bind(ParamNames(ts), vs))
  }

  /** Everything from the first `?` on is ignored when matching. */
  lemma QueryIgnored(pattern: string, path: string, query: string)
    requires '?' !in path
    ensures MatchPath(pattern, path + ['?'] + query) == MatchPath(pattern, path)
  {
    UpToAppend(path, query, '?');
    assert UpTo(path, '?') == path;
  }

  /** A path matches exactly when it is the pattern filled with segment
      values, one per parameter. */
  lemma MatchPathIff(pattern: string, path: string)
    requires '?' !in path
    ensures MatchPath(pattern, path).Some? <==>
              exists vs :: |vs| == |ParamNames(Tokenize(pattern))|
                && (forall k :: 0 <= k < |vs| ==> SegmentValue(vs[k]))
                && Render(Tokenize(pattern), vs) == path
  {
    var ts := Tokenize(pattern);
    assert CleanPath(path) == path by {
      assert UpTo(path, '?') == path;
    }
    if MatchPath(pattern, path).Some? {
      MatchSound(ts, path);
      var vs := MatchTokens(ts, path).value;
      assert |vs| == |ParamNames(ts)| && Render(ts, vs) == path;
    }
    if exists vs :: |vs| == |ParamNames(ts)| && (forall k :: 0 <= k < |vs| ==> SegmentValue(vs[k]))
                    && Render(ts, vs) == path {
      var vs :| |vs| == |ParamNames(ts)| && (forall k :: 0 <= k < |vs| ==> SegmentValue(vs[k]))
                && Render(ts, vs) == path;
      MatchRender(ts, vs);
    }
  }

  /** The pattern filled with segment values matches with the parameters
      bound to those values, name by name as `Bind` binds them. */
  lemma MatchPathBinds(pattern: string, path: string, vs: seq<string>)
    requires '?' !in path
    requires |vs| == |ParamNames(Tokenize(pattern))|
    requires forall k :: 0 <= k < |vs| ==> SegmentValue(vs[k])
    requires Render(Tokenize(pattern), vs) == path
    ensures MatchPath(pattern, path) == Some(Bind(ParamNames(Tokenize(pattern)), vs))
  {
    assert CleanPath(path) == path by {
      assert UpTo(path, '?') == path;
    }
    MatchRender(Tokenize(pattern), vs);
  }

  /** A pattern without `:` matches only the identical path. */
  lemma LiteralPattern(pattern: string, path: string)
    requires ':' !in pattern
    ensures MatchPath(pattern, path).Some? <==> CleanPath(path) == pattern
    ensures MatchPath(pattern, path).Some? ==> MatchPath(pattern, path).value == map[]
  {
    var ts := Tokenize(pattern);
    LiteralTokens(pattern);
    if MatchPath(pattern, path).Some? {
      MatchSound(ts, CleanPath(path));
    }
    if CleanPath(path) == pattern {
      MatchRender(ts, []);
    }
  }

  lemma {:induction false} LiteralTokens(pattern: string)
    requires ':' !in pattern
    decreases |pattern|
    ensures ParamNames(Tokenize(pattern)) == []
    ensures Render(Tokenize(pattern), []) == pattern
  {
    if pattern != [] {
      assert pattern[0] != ':';
      assert ':' !in pattern[1..];
      LiteralTokens(pattern[1..]);
    }
  }

  /** A mock handler. `respond` stands for its response function, given the
      request parameters; `None` is a handler that throws. */
  datatype Handler = Handler(url: string, verb: string, delay: Option<int>,
                             respond: map<string, Json> -> Option<Json>)

  /** `config.method?.toUpperCase() || 'GET'`. */
  function RequestMethod(verb: Option<string>): (r: string)
    ensures r != []
    ensures verb.Some? && verb.value != [] ==> r == UpperAscii(verb.value)
  {
    if verb.Some? && UpperAscii(verb.value) != [] then UpperAscii(verb.value) else "GET"
  }

  predicate Handles(h: Handler, verb: string, url: string) {
    h.verb == verb && MatchPath(h.url, url).Some?
  }

  /** `handlers.find(...)`: the first handler, in list order, with the
      request's method whose pattern matches the URL (`config.url || ''`). */
  function SelectHandler(handlers: seq<Handler>, verb: Option<string>, url: Option<string>): (r: Option<nat>)
    ensures r.Some? ==> r.value < |handlers| && Handles(handlers[r.value], RequestMethod(verb), url.GetOr([]))
    ensures r.Some? ==> forall j :: 0 <= j < r.value ==> !Handles(handlers[j], RequestMethod(verb), url.GetOr([]))
    ensures r.None? <==> forall j :: 0 <= j < |handlers| ==> !Handles(handlers[j], RequestMethod(verb), url.GetOr([]))
  {
    FindIndex(handlers, h => Handles(h, RequestMethod(verb), url.GetOr([])))
  }

  /** `{ ...config.params, ...pathParams }`: path parameters win. */
  function MergeParams(query: map<string, Json>, path: map<string, string>): (r: map<string, Json>)
    ensures forall k :: k in r <==> k in query || k in path
    ensures forall k :: k in path ==> r[k] == Str(path[k])
    ensures forall k :: k in query && k !in path ==> r[k] == query[k]
  {
    query + map k | k in path :: Str(path[k])
  }

  const ChunkSize := 20

  /** `fullContent` cut into consecutive pieces of `ChunkSize` characters. */
  function Chunks(s: string): (r: seq<string>)
    decreases |s|
    ensures Concat(r) == s
  {
    if s == [] then []
    else
      var n := Min(ChunkSize, |s|);
      assert s == s[..n] + s[n..];
      [s[..n]] + Chunks(s[n..])
  }

  /** There are `ceil(length / 20)` pieces, each non-empty and at most 20
      long, and only the last may be shorter. */
  lemma {:induction false} ChunksShape(s: string)
    decreases |s|
    ensures |Chunks(s)| == CeilDiv(|s|, ChunkSize)
    ensures forall k :: 0 <= k < |Chunks(s)| ==> 0 < |Chunks(s)[k]| <= ChunkSize
    ensures forall k :: 0 <= k < |Chunks(s)| - 1 ==> |Chunks(s)[k]| == ChunkSize
  {
    if s != [] {
      var n := Min(ChunkSize, |s|);
      ChunksShape(s[n..]);
      assert Chunks(s) == [s[..n]] + Chunks(s[n..]);
    }
  }

  function Concat(parts: seq<string>): string {
    if parts == [] then [] else parts[0] + Concat(parts[1..])
  }

  lemma {:induction false} ConcatSnoc(parts: seq<string>, p: string)
    ensures Concat(parts + [p]) == Concat(parts) + p
  {
    if parts != [] {
      assert (parts + [p])[1..] == parts[1..] + [p];
      ConcatSnoc(parts[1..], p);
    }
  }

  /** The `for (i = 0; i < length; i += 20)` loop that slices the content. */
  method SliceContent(content: string) returns (chunks: seq<string>)
    ensures chunks == Chunks(content)
  {
    chunks := [];
    var i := 0;
    assert content[0..] == content;
    while i < |content|
      invariant 0 <= i
      invariant chunks + Chunks(content[Min(i, |content|)..]) == Chunks(content)
    {
      ChunkStep(content, i);
      var piece := Slice(content, i, i + ChunkSize);
      var next := Min(i + ChunkSize, |content|);
      assert Min(i, |content|) == i;
      assert (chunks + [piece]) + Chunks(content[next..]) == chunks + ([piece] + Chunks(content[next..]));
      chunks := chunks + [piece];
      i := i + ChunkSize;
    }
    assert content[Min(i, |content|)..] == [];
  }

  /** One turn of the slicing loop takes the first piece of what is left. */
  lemma ChunkStep(content: string, i: nat)
    requires i < |content|
    ensures Slice(content, i, i + ChunkSize) == content[i..Min(i + ChunkSize, |content|)]
    ensures Chunks(content[i..])
         == [content[i..Min(i + ChunkSize, |content|)]] + Chunks(content[Min(i + ChunkSize, |content|)..])
  {
    var s := content[i..];
    var n := Min(ChunkSize, |s|);
    assert s[..n] == content[i..i + n];
    assert s[n..] == content[i + n..];
  }

  /** The interval ticks: each pushes the next piece onto the accumulated
      text and, when a progress listener is set, reports its length. */
  method Push(chunks: seq<string>, listening: bool) returns (accumulated: string, progress: seq<nat>)
    ensures accumulated == Concat(chunks)
    ensures listening ==> |progress| == |chunks|
    ensures listening ==> forall k :: 0 <= k < |progress| ==> progress[k] == |Concat(chunks[..k + 1])|
    ensures !listening ==> progress == []
  {
    accumulated := [];
    progress := [];
    var current := 0;
    while current < |chunks|
      invariant 0 <= current <= |chunks|
      invariant accumulated == Concat(chunks[..current])
      invariant listening ==> |progress| == current
      invariant listening ==> forall k :: 0 <= k < |progress| ==> progress[k] == |Concat(chunks[..k + 1])|
      invariant !listening ==> progress == []
    {
      ConcatSnoc(chunks[..current], chunks[current]);
      assert chunks[..current + 1] == chunks[..current] + [chunks[current]];
      accumulated := accumulated + chunks[current];
      if listening {
        progress := progress + [|accumulated|];
      }
      current := current + 1;
    }
    assert chunks[..current] == chunks;
  }

  /** For the pieces of a text, the k-th progress report is
      `min((k + 1) * 20, length)`, and the last one is the whole length. */
  lemma {:induction false} ChunkProgress(s: string, k: nat)
    requires k < |Chunks(s)|
    decreases |s|
    ensures |Concat(Chunks(s)[..k + 1])| == Min((k + 1) * ChunkSize, |s|)
  {
    var n := Min(ChunkSize, |s|);
    assert Chunks(s) == [s[..n]] + Chunks(s[n..]);
    if k == 0 {
      assert Chunks(s)[..1] == [s[..n]];
    } else {
      ChunkProgress(s[n..], k - 1);
      assert Chunks(s)[..k + 1] == [s[..n]] + Chunks(s[n..])[..k];
    }
  }

  /** Where the adapter looks for the stream marker and the stream fields:
      `responseData.data`. */
  function StreamFieldsAsWritten(reply: Json): (r: Option<Json>)
    ensures r.Some? <==> reply.Obj? && "data" in reply.fields
  {
    Get(reply, "data")
  }

  /** Where the handlers put them: inside the envelope `responseData.data`,
      in its own `data` field, which is also what the non-stream path hands
      back as the payload. */
  function StreamFields(reply: Json): (r: Option<Json>)
    ensures r.Some? ==> exists env :: Get(reply, "data") == Some(env) && Get(env, "data") == r
  {
    match Get(reply, "data")
    case None => None
    case Some(env) => Get(env, "data")
  }

  /** Which lookup the adapter runs with: the one the program has, or the
      one the handlers' replies call for. */
  datatype MarkerLookup = AsWritten | Corrected

  function FieldsFor(lookup: MarkerLookup, reply: Json): Option<Json> {
    match lookup
    case AsWritten => StreamFieldsAsWritten(reply)
    case Corrected => StreamFields(reply)
  }

  /** `fields?.stream === true`. */
  predicate MarkedStream(fields: Option<Json>) {
    fields.Some? && Get(fields.value, "stream") == Some(Bool(true))
  }

  /** `fields.full_content || ''`, for string contents. */
  function FullContent(fields: Json): (r: string)
    ensures Get(fields, "full_content") == Some(Str(r)) || r == []
  {
    match Get(fields, "full_content")
    case Some(Str(s)) => s
    case _ => []
  }

  /** What the adapter does with a request. */
  datatype Outcome =
    | Passthrough                          // no handler: the real adapter takes over
    | Failed                               // the handler threw, or answered nothing usable
    | Answered(delay: int, status: Json, data: Json)
    | Streamed(delay: int, chunks: seq<string>, progress: seq<nat>, accumulated: string, final: StreamFinal)

  /** The final response of a stream: code 200 with these fields. */
  datatype StreamFinal = StreamFinal(fullContent: string, sessionId: Option<Json>, questionId: Option<Json>)

  /** A non-stream reply: status `reply.status || 200`, data `reply.data || reply`.
      A null reply makes these reads throw. */
  function Answer(delay: int, reply: Json): (r: Outcome)
    ensures reply == Null <==> r == Failed
    ensures r.Answered? ==> r.delay == delay
    ensures r.Answered? ==> r.data == (if TruthyOpt(Get(reply, "data")) then Get(reply, "data").value else reply)
    ensures r.Answered? ==> Truthy(r.status)
  {
    if reply == Null then Failed
    else
      var data := Get(reply, "data");
      var status := Get(reply, "status");
      Answered(delay,
               if TruthyOpt(status) then status.value else Num(200),
               if TruthyOpt(data) then data.value else reply)
  }

  /** The request the adapter is handed; it writes the merged parameters back. */
  class AdapterConfig {
    var verb: Option<string>
    var url: Option<string>
    var params: map<string, Json>
    /** Whether `onDownloadProgress` is set. */
    var listening: bool

    constructor (verb: Option<string>, url: Option<string>, params: map<string, Json>, listening: bool)
      ensures this.verb == verb && this.url == url && this.params == params && this.listening == listening
    {
      this.verb := verb;
      this.url := url;
      this.params := params;
      this.listening := listening;
    }
  }

  /** The adapter function returned by `createMockAdapter(handlers, globalDelay)`.
      With `AsWritten` it is the program as it stands; with `Corrected` it
      reads the stream marker where the handlers put it. */
  method Adapt(handlers: seq<Handler>, globalDelay: int, config: AdapterConfig, lookup: MarkerLookup)
    returns (o: Outcome)
    modifies config
    ensures config.verb == old(config.verb) && config.url == old(config.url)
    ensures config.listening == old(config.listening)
    ensures SelectHandler(handlers, config.verb, config.url).None? ==>
              o == Passthrough && config.params == old(config.params)
    ensures SelectHandler(handlers, config.verb, config.url).Some? ==>
              var h := handlers[SelectHandler(handlers, config.verb, config.url).value];
              var delay := h.delay.GetOr(globalDelay);
              var reply := h.respond(config.params);
              && config.params == MergeParams(old(config.params), MatchPath(h.url, config.url.GetOr([])).value)
              && (reply.None? ==> o == Failed)
              && (reply.Some? && MarkedStream(FieldsFor(lookup, reply.value)) ==>
                    var content := FullContent(FieldsFor(lookup, reply.value).value);
                    o.Streamed? && o.delay == delay && o.chunks == Chunks(content)
                    && o.accumulated == content
                    && (config.listening ==> |o.progress| == |o.chunks|)
                    && (config.listening ==>
                          forall k :: 0 <= k < |o.progress| ==> o.progress[k] == Min((k + 1) * ChunkSize, |content|))
                    && o.final.fullContent == content)
              && (reply.Some? && !MarkedStream(FieldsFor(lookup, reply.value)) ==> o == Answer(delay, reply.value))
  {
    var index := SelectHandler(handlers, config.verb, config.url);
    if index.None? {
      return Passthrough;
    }
    var h := handlers[index.value];
    var url := config.url.GetOr([]);
    var pathParams := MatchPath(h.url, url);
    config.params := MergeParams(config.params, pathParams.value);
    var delay := h.delay.GetOr(globalDelay);
    var reply := h.respond(config.params);
    if reply.None? {
      return Failed;
    }
    var fields := FieldsFor(lookup, reply.value);
    if MarkedStream(fields) {
      var content := FullContent(fields.value);
      var chunks := SliceContent(content);
      var accumulated, progress := Push(chunks, config.listening);
      forall k | 0 <= k < |progress|
        ensures progress[k] == Min((k + 1) * ChunkSize, |content|)
      {
        ChunkProgress(content, k);
      }
      return Streamed(delay, chunks, progress, accumulated,
                      StreamFinal(content, Get(fields.value, "session_id"), Get(fields.value, "question_id")));
    }
    return Answer(delay, reply.value);
  }
}
