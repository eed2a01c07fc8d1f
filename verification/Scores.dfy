/** What the score is made of, and when the order of observations shows in it. */
module Scores {
  import opened Strings
  import opened Order
  import opened Wrappers
  import opened Classifier

  // ---- sets of signals ----

  /** The weights of a set of signals. */
  ghost function Total(ss: set<Signal>): nat {
    if ss == {} then 0 else
      var s :| s in ss;
      s.weight + Total(ss - {s})
  }

  lemma {:induction false} TotalOf(ss: set<Signal>, s: Signal)
    requires s in ss
    ensures Total(ss) == s.weight + Total(ss - {s})
    decreases |ss|
  {
    var t :| t in ss && Total(ss) == t.weight + Total(ss - {t});
    if t != s {
      TotalOf(ss - {t}, s);
      TotalOf(ss - {s}, t);
      assert ss - {t} - {s} == ss - {s} - {t};
    }
  }

  lemma {:induction false} TotalUnion(a: set<Signal>, b: set<Signal>)
    requires a !! b
    ensures Total(a + b) == Total(a) + Total(b)
    decreases |a|
  {
    if a == {} {
      assert a + b == b;
    } else {
      var s :| s in a;
      TotalOf(a, s);
      TotalOf(a + b, s);
      assert (a + b) - {s} == (a - {s}) + b;
      TotalUnion(a - {s}, b);
    }
  }

  lemma {:induction false} SumIsTotal(signals: seq<Signal>)
    requires NoDuplicates(signals)
    ensures WeightSum(signals) == Total(Elements(signals))
  {
    if signals == [] {
      assert Elements(signals) == {};
    } else {
      var init, last := signals[..|signals| - 1], signals[|signals| - 1];
      assert signals == init + [last];
      SumIsTotal(init);
      TotalOf(Elements(signals), last);
      assert Elements(signals) - {last} == Elements(init);
    }
  }

  // ---- the signals of a URL ----

  const URL_KINDS := {"url_keyword", "authentication_keyword", "query_parameters", "path_parameter", "api_schema_document", "javascript_asset"}

  predicate FromUrl(s: Signal) {
    s.kind in URL_KINDS
  }

  /** What the URL of the aggregate says, with the source of an observation. */
  function OwnUrlMarks(lib: Library, e: Endpoint, source: string): seq<Mark> {
    UrlMarks(lib, e, source) + AssetMarks(lib, e, source)
  }

  /** What the observation says whatever the aggregate's URL is. */
  function OtherMarks(lib: Library, c: Context, o: Observation): seq<Mark> {
    TechnologyMarks(o.details.technologies, o.source) + StatusMarks(lib, o.details.status, o.source) + RedirectMarks(o)
    + SentMarks(lib, o) + HeaderMarks(o) + SchemaMarks(c, o.endpoint) + HistoryMarks(c, o.endpoint)
  }

  lemma OwnMarksSplit(lib: Library, c: Context, e: Endpoint, o: Observation, m: Mark)
    ensures m in OwnMarks(lib, c, e, o) <==> m in OwnUrlMarks(lib, e, o.source) || m in OtherMarks(lib, c, o)
  {}

  /** The weight of a URL for one source: 2 for each telling word, 1 for query parameters,
      2 for a dynamic path, 3 for a schema document and 1 for a script. */
  function UrlWeight(lib: Library, e: Endpoint): nat {
    2 * |Words(lib, e, INTERESTING)| + 2 * |Words(lib, e, AUTHENTICATION)|
    + (if e.queryParameters != [] then 1 else 0) + (if Contains(e.route, "{id}") then 2 else 0)
    + (if IsSchemaDocument(lib.lower(lib.path(e.exactUrl))) then 3 else 0) + (if IsAsset(lib, e) then 1 else 0)
  }

  function Words(lib: Library, e: Endpoint, telling: set<string>): set<string> {
    set t | t in lib.tokens(e.exactUrl) && t in telling
  }

  function KeywordSignals(words: set<string>, kind: string, source: string): set<Signal> {
    set t | t in words :: Signal(kind, t, 2, source)
  }

  lemma {:induction false} KeywordTotal(words: set<string>, kind: string, source: string)
    ensures Total(KeywordSignals(words, kind, source)) == 2 * |words|
    decreases |words|
  {
    var ss := KeywordSignals(words, kind, source);
    if words == {} {
      assert ss == {};
    } else {
      var t :| t in words;
      var s := Signal(kind, t, 2, source);
      KeywordTotal(words - {t}, kind, source);
      TotalOf(ss, s);
      assert ss - {s} == KeywordSignals(words - {t}, kind, source);
    }
  }

  /** One signal, or none. */
  function Maybe(there: bool, kind: string, value: string, weight: nat, source: string): set<Signal> {
    if there then {Signal(kind, value, weight, source)} else {}
  }

  lemma MaybeTotal(there: bool, kind: string, value: string, weight: nat, source: string)
    ensures Total(Maybe(there, kind, value, weight, source)) == if there then weight else 0
  {
    if there {
      var s := Signal(kind, value, weight, source);
      TotalOf({s}, s);
      assert {s} - {s} == {};
    }
  }

  /** The signals of the URL for one source, as a set. */
  ghost function UrlSignals(lib: Library, e: Endpoint, source: string): set<Signal> {
    KeywordSignals(Words(lib, e, INTERESTING), "url_keyword", source)
    + KeywordSignals(Words(lib, e, AUTHENTICATION), "authentication_keyword", source)
    + Maybe(e.queryParameters != [], "query_parameters", lib.join(e.queryParameters), 1, source)
    + Maybe(Contains(e.route, "{id}"), "path_parameter", e.route, 2, source)
    + Maybe(IsSchemaDocument(lib.lower(lib.path(e.exactUrl))), "api_schema_document", e.exactUrl, 3, source)
    + Maybe(IsAsset(lib, e), "javascript_asset", e.exactUrl, 1, source)
  }

  lemma UrlSignalsTotal(lib: Library, e: Endpoint, source: string)
    ensures Total(UrlSignals(lib, e, source)) == UrlWeight(lib, e)
  {
    var a := KeywordSignals(Words(lib, e, INTERESTING), "url_keyword", source);
    var b := KeywordSignals(Words(lib, e, AUTHENTICATION), "authentication_keyword", source);
    var d := Maybe(e.queryParameters != [], "query_parameters", lib.join(e.queryParameters), 1, source);
    var f := Maybe(Contains(e.route, "{id}"), "path_parameter", e.route, 2, source);
    var g := Maybe(IsSchemaDocument(lib.lower(lib.path(e.exactUrl))), "api_schema_document", e.exactUrl, 3, source);
    var h := Maybe(IsAsset(lib, e), "javascript_asset", e.exactUrl, 1, source);
    KeywordTotal(Words(lib, e, INTERESTING), "url_keyword", source);
    KeywordTotal(Words(lib, e, AUTHENTICATION), "authentication_keyword", source);
    MaybeTotal(e.queryParameters != [], "query_parameters", lib.join(e.queryParameters), 1, source);
    MaybeTotal(Contains(e.route, "{id}"), "path_parameter", e.route, 2, source);
    MaybeTotal(IsSchemaDocument(lib.lower(lib.path(e.exactUrl))), "api_schema_document", e.exactUrl, 3, source);
    MaybeTotal(IsAsset(lib, e), "javascript_asset", e.exactUrl, 1, source);
    SixTotals(a, b, d, f, g, h);
  }

  /** Sets of signals of six different types. */
  lemma SixTotals(a: set<Signal>, b: set<Signal>, d: set<Signal>, f: set<Signal>, g: set<Signal>, h: set<Signal>)
    requires forall s :: s in a ==> s.kind == "url_keyword"
    requires forall s :: s in b ==> s.kind == "authentication_keyword"
    requires forall s :: s in d ==> s.kind == "query_parameters"
    requires forall s :: s in f ==> s.kind == "path_parameter"
    requires forall s :: s in g ==> s.kind == "api_schema_document"
    requires forall s :: s in h ==> s.kind == "javascript_asset"
    ensures Total(a + b + d + f + g + h) == Total(a) + Total(b) + Total(d) + Total(f) + Total(g) + Total(h)
  {
    UrlKindsDiffer();
    TotalUnion(a, b);
    TotalUnion(a + b, d);
    TotalUnion(a + b + d, f);
    TotalUnion(a + b + d + f, g);
    TotalUnion(a + b + d + f + g, h);
  }

  lemma UrlKindsDiffer()
    ensures "url_keyword" !in {"authentication_keyword", "query_parameters", "path_parameter", "api_schema_document", "javascript_asset"}
    ensures "authentication_keyword" !in {"query_parameters", "path_parameter", "api_schema_document", "javascript_asset"}
    ensures "query_parameters" !in {"path_parameter", "api_schema_document", "javascript_asset"}
    ensures "path_parameter" !in {"api_schema_document", "javascript_asset"}
    ensures "api_schema_document" != "javascript_asset"
  {
    assert "query_parameters"[0] != "javascript_asset"[0];
  }

  ghost predicate SaidBy(ms: seq<Mark>, s: Signal) {
    exists m :: m in ms && m.signal == s
  }

  lemma SaidByEither(a: seq<Mark>, b: seq<Mark>, s: Signal)
    ensures SaidBy(a + b, s) <==> SaidBy(a, s) || SaidBy(b, s)
  {
    assert forall m :: m in a + b <==> m in a || m in b;
  }

  ghost predicate SaidByWord(t: string, source: string, s: Signal) {
    || (t in INTERESTING && s == Signal("url_keyword", t, 2, source))
    || (t in AUTHENTICATION && s == Signal("authentication_keyword", t, 2, source))
  }

  lemma WordSaid(t: string, source: string, s: Signal)
    ensures SaidBy(WordMarks(t, source), s) <==> SaidByWord(t, source, s)
  {
    var a := if t in INTERESTING then Labelled("keyword:" + t, "url_keyword", t, 2, source) else [];
    var b := if t in AUTHENTICATION then Labelled("authentication_indicator", "authentication_keyword", t, 2, source) else [];
    SaidByEither(a, b, s);
    if t in INTERESTING { assert a[0] in a; }
    if t in AUTHENTICATION { assert b[0] in b; }
  }

  lemma {:induction false} KeywordsSaid(tokens: seq<string>, source: string, s: Signal)
    ensures SaidBy(KeywordMarks(tokens, source), s) <==> exists t :: t in tokens && SaidByWord(t, source, s)
  {
    if tokens != [] {
      KeywordsSaid(tokens[1..], source, s);
      WordSaid(tokens[0], source, s);
      SaidByEither(WordMarks(tokens[0], source), KeywordMarks(tokens[1..], source), s);
      assert tokens == [tokens[0]] + tokens[1..];
    }
  }

  lemma MaybeSaid(there: bool, tag: string, kind: string, value: string, weight: nat, source: string, s: Signal)
    ensures SaidBy(if there then Labelled(tag, kind, value, weight, source) else [], s) <==> s in Maybe(there, kind, value, weight, source)
  {
    if there { assert Labelled(tag, kind, value, weight, source)[0] in Labelled(tag, kind, value, weight, source); }
  }

  lemma WordsInSet(lib: Library, e: Endpoint, source: string, s: Signal)
    ensures SaidBy(KeywordMarks(lib.tokens(e.exactUrl), source), s) <==>
      s in KeywordSignals(Words(lib, e, INTERESTING), "url_keyword", source)
        + KeywordSignals(Words(lib, e, AUTHENTICATION), "authentication_keyword", source)
  {
    KeywordsSaid(lib.tokens(e.exactUrl), source, s);
  }

  /** The set is what the marks say. */
  lemma UrlSignalsSaid(lib: Library, e: Endpoint, source: string, s: Signal)
    ensures s in UrlSignals(lib, e, source) <==> SaidBy(OwnUrlMarks(lib, e, source), s)
  {
    var schema := IsSchemaDocument(lib.lower(lib.path(e.exactUrl)));
    var m1 := KeywordMarks(lib.tokens(e.exactUrl), source);
    var m2 := if e.queryParameters != [] then Labelled("query_parameters", "query_parameters", lib.join(e.queryParameters), 1, source) else [];
    var m3 := if Contains(e.route, "{id}") then Labelled("parameterized_path", "path_parameter", e.route, 2, source) else [];
    var m4 := if schema then Labelled("api_schema_document", "api_schema_document", e.exactUrl, 3, source) else [];
    var m5 := AssetMarks(lib, e, source);
    assert OwnUrlMarks(lib, e, source) == m1 + m2 + m3 + m4 + m5;
    SaidByEither(m1, m2, s);
    SaidByEither(m1 + m2, m3, s);
    SaidByEither(m1 + m2 + m3, m4, s);
    SaidByEither(m1 + m2 + m3 + m4, m5, s);
    WordsInSet(lib, e, source, s);
    MaybeSaid(e.queryParameters != [], "query_parameters", "query_parameters", lib.join(e.queryParameters), 1, source, s);
    MaybeSaid(Contains(e.route, "{id}"), "parameterized_path", "path_parameter", e.route, 2, source, s);
    MaybeSaid(schema, "api_schema_document", "api_schema_document", e.exactUrl, 3, source, s);
    MaybeSaid(IsAsset(lib, e), "javascript_asset", "javascript_asset", e.exactUrl, 1, source, s);
  }

  lemma UrlSignalsMarked(lib: Library, e: Endpoint, source: string)
    ensures forall s :: s in UrlSignals(lib, e, source) ==> FromUrl(s) && s.source == source
  {}

  // ---- the signals of everything else ----

  /** Not about the URL, and with a source that is known to be free of separators. */
  ghost predicate Elsewhere(ms: seq<Mark>, source: string) {
    forall m :: m in ms ==> !FromUrl(m.signal) && m.signal.source in {source, "api_schema", "history"}
  }

  lemma ElsewhereBoth(a: seq<Mark>, b: seq<Mark>, source: string)
    requires Elsewhere(a, source) && Elsewhere(b, source)
    ensures Elsewhere(a + b, source)
  {
    assert forall m :: m in a + b <==> m in a || m in b;
  }

  lemma OtherKinds(kind: string)
    requires kind in {"technology", "response_status", "authentication_status", "redirect_status", "server_error_status",
                      "redirect_destination", "http_method", "content_type", "javascript_source", "authentication_header",
                      "api_schema_membership", "historically_observed", "new_endpoint"}
    ensures kind !in URL_KINDS
  {
    assert |"authentication_keyword"| == 22 && |"query_parameters"| == 16 && |"path_parameter"| == 14 && |"javascript_asset"| == 16;
    assert |"url_keyword"| == 11 && "url_keyword"[0] == 'u' && "http_method"[0] == 'h';
    assert |"api_schema_document"| == 19 && "api_schema_document"[0] == 'a' && "server_error_status"[0] == 's';
  }

  lemma {:induction false} TechnologiesElsewhere(technologies: seq<string>, source: string)
    ensures Elsewhere(TechnologyMarks(technologies, source), source)
  {
    OtherKinds("technology");
    if technologies != [] {
      TechnologiesElsewhere(technologies[1..], source);
    }
  }

  lemma StatusElsewhere(lib: Library, status: int, source: string)
    ensures Elsewhere(StatusMarks(lib, status, source), source)
  {
    OtherKinds("response_status");
    OtherKinds("authentication_status");
    OtherKinds("redirect_status");
    OtherKinds("server_error_status");
    assert Elsewhere(StatusClassMarks(lib, status, source), source);
    ElsewhereBoth(Plain("response_status", lib.text(status), 0, source), StatusClassMarks(lib, status, source), source);
  }

  lemma SentElsewhere(lib: Library, o: Observation)
    ensures Elsewhere(SentMarks(lib, o), o.source)
  {
    var d, contentType := o.details, lib.lower(o.details.contentType);
    var m1 := if d.verb !in {"GET", "HEAD", "OPTIONS"} then Labelled("non_read_method", "http_method", d.verb, 2, o.source) else [];
    var m2 := if Contains(contentType, "json") || Contains(contentType, "graphql") then Labelled("api_content", "content_type", contentType, 1, o.source) else [];
    var m3 := if FromJavaScript(lib, d) then Labelled("javascript_discovered", "javascript_source", d.sourceUrl, 2, o.source) else [];
    OtherKinds("http_method");
    OtherKinds("content_type");
    OtherKinds("javascript_source");
    assert Elsewhere(m1, o.source) && Elsewhere(m2, o.source) && Elsewhere(m3, o.source);
    ElsewhereBoth(m1, m2, o.source);
    ElsewhereBoth(m1 + m2, m3, o.source);
  }

  lemma RestElsewhere(c: Context, o: Observation)
    ensures Elsewhere(RedirectMarks(o), o.source) && Elsewhere(HeaderMarks(o), o.source)
    ensures Elsewhere(SchemaMarks(c, o.endpoint), o.source) && Elsewhere(HistoryMarks(c, o.endpoint), o.source)
  {
    OtherKinds("redirect_destination");
    OtherKinds("authentication_header");
    OtherKinds("api_schema_membership");
    OtherKinds("historically_observed");
    OtherKinds("new_endpoint");
  }

  lemma OtherMarksElsewhere(lib: Library, c: Context, o: Observation)
    ensures Elsewhere(OtherMarks(lib, c, o), o.source)
  {
    var a, b := TechnologyMarks(o.details.technologies, o.source), StatusMarks(lib, o.details.status, o.source);
    var d, e, f, g, h := RedirectMarks(o), SentMarks(lib, o), HeaderMarks(o), SchemaMarks(c, o.endpoint), HistoryMarks(c, o.endpoint);
    TechnologiesElsewhere(o.details.technologies, o.source);
    StatusElsewhere(lib, o.details.status, o.source);
    SentElsewhere(lib, o);
    RestElsewhere(c, o);
    ElsewhereBoth(a, b, o.source);
    ElsewhereBoth(a + b, d, o.source);
    ElsewhereBoth(a + b + d, e, o.source);
    ElsewhereBoth(a + b + d + e, f, o.source);
    ElsewhereBoth(a + b + d + e + f, g, o.source);
    ElsewhereBoth(a + b + d + e + f + g, h, o.source);
  }

  // ---- the signals of an aggregate, exactly ----

  ghost predicate PlainSources(os: seq<Observation>) {
    forall o :: o in os ==> Separated(o.source)
  }

  /** An observation of the endpoint says it whatever URL came first, or a change does. */
  ghost predicate SaidAnyway(lib: Library, c: Context, os: seq<Observation>, digest: string, s: Signal) {
    || (exists o :: o in os && o.endpoint.digest == digest && SaidBy(OtherMarks(lib, c, o), s))
    || (s == STATUS_CHANGE.signal && SomeStatusDiffers(c, os, digest))
    || (s == TECHNOLOGY_CHANGE.signal && SomeTechnologyDiffers(c, os, digest))
  }

  lemma SaysEither(lib: Library, c: Context, e: Endpoint, o: Observation, s: Signal)
    ensures Says(lib, c, e, o, s) <==> s in UrlSignals(lib, e, o.source) || SaidBy(OtherMarks(lib, c, o), s)
  {
    UrlSignalsSaid(lib, e, o.source, s);
    if Says(lib, c, e, o, s) {
      var m :| m in OwnMarks(lib, c, e, o) && m.signal == s;
      OwnMarksSplit(lib, c, e, o, m);
    }
    if SaidBy(OwnUrlMarks(lib, e, o.source), s) {
      var m :| m in OwnUrlMarks(lib, e, o.source) && m.signal == s;
      OwnMarksSplit(lib, c, e, o, m);
    }
    if SaidBy(OtherMarks(lib, c, o), s) {
      var m :| m in OtherMarks(lib, c, o) && m.signal == s;
      OwnMarksSplit(lib, c, e, o, m);
    }
  }

  lemma ChangesElsewhere()
    ensures !FromUrl(STATUS_CHANGE.signal) && !FromUrl(TECHNOLOGY_CHANGE.signal)
    ensures Separated("api_schema") && Separated("history")
  {
    assert |"historical_status_change"| == 24 && |"historical_technology_change"| == 28;
  }

  /** What is said, by where it comes from. */
  lemma SaidSplits(lib: Library, c: Context, e: Endpoint, os: seq<Observation>, digest: string, s: Signal)
    requires PlainSources(os)
    ensures FromUrl(s) ==> (Said(lib, c, e, os, digest, s) <==>
              exists o :: o in os && o.endpoint.digest == digest && s in UrlSignals(lib, e, o.source))
    ensures !FromUrl(s) ==> (Said(lib, c, e, os, digest, s) <==> SaidAnyway(lib, c, os, digest, s))
    ensures Said(lib, c, e, os, digest, s) ==> Separated(s.source)
  {
    ChangesElsewhere();
    forall o | o in os
      ensures Says(lib, c, e, o, s) <==> s in UrlSignals(lib, e, o.source) || SaidBy(OtherMarks(lib, c, o), s)
      ensures s in UrlSignals(lib, e, o.source) ==> FromUrl(s) && Separated(s.source)
      ensures SaidBy(OtherMarks(lib, c, o), s) ==> !FromUrl(s) && Separated(s.source)
    {
      SaysEither(lib, c, e, o, s);
      UrlSignalsMarked(lib, e, o.source);
      OtherMarksElsewhere(lib, c, o);
    }
  }

  /** With sources free of separators an aggregate holds exactly what is said. */
  lemma SignalsAreSaid(lib: Library, c: Context, os: seq<Observation>, digest: string, s: Signal)
    requires PlainSources(os) && digest in ObserveAll(lib, c, os)
    ensures s in ObserveAll(lib, c, os)[digest].signals <==> Said(lib, c, ObserveAll(lib, c, os)[digest].endpoint, os, digest, s)
  {
    var a := ObserveAll(lib, c, os)[digest];
    ScoreCountsDistinctSignals(lib, c, os, digest);
    if Said(lib, c, a.endpoint, os, digest, s) {
      var t :| t in a.signals && SignalKey(t) == SignalKey(s);
      SaidSplits(lib, c, a.endpoint, os, digest, s);
      SaidSplits(lib, c, a.endpoint, os, digest, t);
      SaidIsWeighted(lib, c, a.endpoint, os, digest, s);
      SaidIsWeighted(lib, c, a.endpoint, os, digest, t);
      KeysAreTriples(s, t);
    }
  }

  // ---- the score, exactly ----

  /** For each of some sources a set of signals of one weight. */
  lemma {:induction false} TotalBySource(per: string -> set<Signal>, weight: nat, sources: set<string>, ss: set<Signal>)
    requires forall x :: Total(per(x)) == weight
    requires forall x, s :: s in per(x) ==> s.source == x
    requires forall s :: s in ss <==> s.source in sources && s in per(s.source)
    ensures Total(ss) == |sources| * weight
    decreases |sources|
  {
    if sources == {} {
      assert ss == {};
    } else {
      var x :| x in sources;
      WithoutSource(per, sources, ss, x);
      TotalBySource(per, weight, sources - {x}, ss - per(x));
      TotalUnion(ss - per(x), per(x));
      Spread(|sources|, weight);
    }
  }

  lemma WithoutSource(per: string -> set<Signal>, sources: set<string>, ss: set<Signal>, x: string)
    requires forall y, s :: s in per(y) ==> s.source == y
    requires forall s :: s in ss <==> s.source in sources && s in per(s.source)
    requires x in sources
    ensures forall s :: s in ss - per(x) <==> s.source in sources - {x} && s in per(s.source)
    ensures (ss - per(x)) + per(x) == ss
  {}

  lemma Spread(n: nat, weight: nat)
    requires n >= 1
    ensures (n - 1) * weight + weight == n * weight
  {}

  lemma UrlTotals(lib: Library, e: Endpoint, sources: set<string>, ss: set<Signal>)
    requires forall s :: s in ss <==> s.source in sources && s in UrlSignals(lib, e, s.source)
    ensures Total(ss) == |sources| * UrlWeight(lib, e)
  {
    var per := (x: string) => UrlSignals(lib, e, x);
    forall x { UrlSignalsTotal(lib, e, x); }
    forall x { UrlSignalsMarked(lib, e, x); }
    TotalBySource(per, UrlWeight(lib, e), sources, ss);
  }

  ghost function Others(a: Aggregate): set<Signal> {
    set s | s in a.signals && !FromUrl(s)
  }

  ghost function Urls(a: Aggregate): set<Signal> {
    set s | s in a.signals && FromUrl(s)
  }

  lemma DistinctKeysDistinct(signals: seq<Signal>)
    requires DistinctKeys(signals)
    ensures NoDuplicates(signals)
  {}

  /** The URL's weight counts once for each source, beside everything else. */
  lemma ScoreSplits(lib: Library, c: Context, os: seq<Observation>, digest: string)
    requires PlainSources(os) && FirstEndpoint(os, digest).Some?
    ensures digest in ObserveAll(lib, c, os)
    ensures var a := ObserveAll(lib, c, os)[digest];
            a.endpoint == FirstEndpoint(os, digest).value && ByUrl(a, UrlWeight(lib, a.endpoint))
  {
    GatheredAt(lib, c, os, digest);
    var a := ObserveAll(lib, c, os)[digest];
    ScoreCountsDistinctSignals(lib, c, os, digest);
    DistinctKeysDistinct(a.signals);
    SumIsTotal(a.signals);
    TotalUnion(Others(a), Urls(a));
    assert Others(a) + Urls(a) == Elements(a.signals);
    forall s ensures s in Urls(a) <==> s.source in a.sources && s in UrlSignals(lib, a.endpoint, s.source) {
      UrlsAreSaid(lib, c, os, digest, s);
    }
    UrlTotals(lib, a.endpoint, a.sources, Urls(a));
    SomeSource(os, a, digest);
  }

  lemma {:induction false} SomeSource(os: seq<Observation>, a: Aggregate, digest: string)
    requires Gathered(os, a, digest)
    ensures a.sources != {}
  {
    var o := FirstObserved(os, digest);
    assert o.source in a.sources;
  }

  lemma {:induction false} FirstObserved(os: seq<Observation>, digest: string) returns (o: Observation)
    requires FirstEndpoint(os, digest).Some?
    ensures o in os && o.endpoint.digest == digest
  {
    if FirstEndpoint(os[..|os| - 1], digest).Some? {
      o := FirstObserved(os[..|os| - 1], digest);
    } else {
      o := os[|os| - 1];
    }
  }

  lemma UrlsAreSaid(lib: Library, c: Context, os: seq<Observation>, digest: string, s: Signal)
    requires PlainSources(os) && digest in ObserveAll(lib, c, os) && Gathered(os, ObserveAll(lib, c, os)[digest], digest)
    ensures var a := ObserveAll(lib, c, os)[digest];
            s in Urls(a) <==> s.source in a.sources && s in UrlSignals(lib, a.endpoint, s.source)
  {
    var a := ObserveAll(lib, c, os)[digest];
    SignalsAreSaid(lib, c, os, digest, s);
    SaidSplits(lib, c, a.endpoint, os, digest, s);
    UrlSignalsMarked(lib, a.endpoint, s.source);
    forall o | o in os { UrlSignalsMarked(lib, a.endpoint, o.source); }
  }

  /** What does not come from the URL is the same in every order. */
  lemma OthersAlike(lib: Library, lib': Library, c: Context, os: seq<Observation>, os': seq<Observation>, digest: string)
    requires SameTokens(lib, lib') && Elements(os) == Elements(os') && PlainSources(os)
    requires digest in ObserveAll(lib, c, os) && digest in ObserveAll(lib', c, os')
    ensures PlainSources(os')
    ensures Others(ObserveAll(lib, c, os)[digest]) == Others(ObserveAll(lib', c, os')[digest])
  {
    var a, b := ObserveAll(lib, c, os)[digest], ObserveAll(lib', c, os')[digest];
    assert forall o :: o in os <==> o in os' by {
      forall o ensures o in os <==> o in os' { assert o in Elements(os) <==> o in Elements(os'); }
    }
    forall s ensures s in Others(a) <==> s in Others(b) {
      SignalsAreSaid(lib, c, os, digest, s);
      SignalsAreSaid(lib', c, os', digest, s);
      SaidSplits(lib, c, a.endpoint, os, digest, s);
      SaidSplits(lib', c, b.endpoint, os', digest, s);
      AnywayAlike(lib, lib', c, os, os', digest, s);
    }
  }

  lemma AnywayAlike(lib: Library, lib': Library, c: Context, os: seq<Observation>, os': seq<Observation>, digest: string, s: Signal)
    requires SameTokens(lib, lib') && forall o :: o in os <==> o in os'
    ensures SaidAnyway(lib, c, os, digest, s) <==> SaidAnyway(lib', c, os', digest, s)
  {
    forall o ensures SaidBy(OtherMarks(lib, c, o), s) <==> SaidBy(OtherMarks(lib', c, o), s) {
      OtherMarksAlike(lib, lib', c, o);
    }
  }

  lemma OtherMarksAlike(lib: Library, lib': Library, c: Context, o: Observation)
    requires SameTokens(lib, lib')
    ensures OtherMarks(lib, c, o) == OtherMarks(lib', c, o)
  {
    assert StatusMarks(lib, o.details.status, o.source) == StatusMarks(lib', o.details.status, o.source);
    assert SentMarks(lib, o) == SentMarks(lib', o);
  }

  lemma UrlWeightAlike(lib: Library, lib': Library, e: Endpoint)
    requires SameTokens(lib, lib')
    ensures UrlWeight(lib, e) == UrlWeight(lib', e)
  {
    assert Elements(lib.tokens(e.exactUrl)) == Elements(lib'.tokens(e.exactUrl));
    assert forall t :: t in lib.tokens(e.exactUrl) <==> t in Elements(lib.tokens(e.exactUrl));
    assert forall t :: t in lib'.tokens(e.exactUrl) <==> t in Elements(lib'.tokens(e.exactUrl));
    assert Words(lib, e, INTERESTING) == Words(lib', e, INTERESTING);
    assert Words(lib, e, AUTHENTICATION) == Words(lib', e, AUTHENTICATION);
  }

  /** Two orders of the same observations score alike exactly if the URLs that come first
      have one weight; otherwise the scores differ by that difference for each source. */
  lemma OrderMattersByUrlWeight(lib: Library, lib': Library, c: Context, os: seq<Observation>, os': seq<Observation>, digest: string)
    requires SameTokens(lib, lib') && Elements(os) == Elements(os') && PlainSources(os)
    requires FirstEndpoint(os, digest).Some? && FirstEndpoint(os', digest).Some?
    ensures digest in ObserveAll(lib, c, os) && digest in ObserveAll(lib', c, os')
    ensures var a, b := ObserveAll(lib, c, os)[digest], ObserveAll(lib', c, os')[digest];
            var u, v := UrlWeight(lib, FirstEndpoint(os, digest).value), UrlWeight(lib, FirstEndpoint(os', digest).value);
            (Score(a) == Score(b) <==> u == v) && Score(b) - Score(a) == |a.sources| * (v - u)
  {
    OrdersAlike(lib, lib', c, os, os', digest);
    var a, b := ObserveAll(lib, c, os)[digest], ObserveAll(lib', c, os')[digest];
    var u, v := UrlWeight(lib, FirstEndpoint(os, digest).value), UrlWeight(lib, FirstEndpoint(os', digest).value);
    OrdersByUrl(lib, lib', c, os, os', digest, a, b, u, v);
    ScoreDifference(a, b, u, v);
  }

  lemma OrdersByUrl(lib: Library, lib': Library, c: Context, os: seq<Observation>, os': seq<Observation>, digest: string,
                    a: Aggregate, b: Aggregate, u: nat, v: nat)
    requires SameTokens(lib, lib') && PlainSources(os) && PlainSources(os')
    requires FirstEndpoint(os, digest).Some? && FirstEndpoint(os', digest).Some?
    requires u == UrlWeight(lib, FirstEndpoint(os, digest).value) && v == UrlWeight(lib, FirstEndpoint(os', digest).value)
    requires digest in ObserveAll(lib, c, os) && a == ObserveAll(lib, c, os)[digest]
    requires digest in ObserveAll(lib', c, os') && b == ObserveAll(lib', c, os')[digest]
    ensures ByUrl(a, u) && ByUrl(b, v)
  {
    ScoreOfUrl(lib, lib, c, os, digest, u);
    ScoreOfUrl(lib, lib', c, os', digest, v);
  }

  /** The weight of the URL for each source, beside everything else. */
  ghost predicate ByUrl(a: Aggregate, u: nat) {
    a.sources != {} && Score(a) == Total(Others(a)) + |a.sources| * u + if |a.sources| > 1 then 1 else 0
  }

  lemma ScoreOfUrl(lib: Library, lib': Library, c: Context, os: seq<Observation>, digest: string, u: nat)
    requires SameTokens(lib, lib') && PlainSources(os) && FirstEndpoint(os, digest).Some?
    requires u == UrlWeight(lib, FirstEndpoint(os, digest).value)
    ensures digest in ObserveAll(lib', c, os)
    ensures var a := ObserveAll(lib', c, os)[digest];
            ByUrl(a, u)
  {
    ScoreSplits(lib', c, os, digest);
    UrlWeightAlike(lib, lib', FirstEndpoint(os, digest).value);
  }

  lemma OrdersAlike(lib: Library, lib': Library, c: Context, os: seq<Observation>, os': seq<Observation>, digest: string)
    requires SameTokens(lib, lib') && Elements(os) == Elements(os') && PlainSources(os)
    requires FirstEndpoint(os, digest).Some? && FirstEndpoint(os', digest).Some?
    ensures PlainSources(os') && digest in ObserveAll(lib, c, os) && digest in ObserveAll(lib', c, os')
    ensures var a, b := ObserveAll(lib, c, os)[digest], ObserveAll(lib', c, os')[digest];
            a.sources == b.sources && Others(a) == Others(b)
  {
    GatheredAt(lib, c, os, digest);
    GatheredAt(lib', c, os', digest);
    OthersAlike(lib, lib', c, os, os', digest);
    GatheredAlike(os, os', ObserveAll(lib, c, os)[digest], ObserveAll(lib', c, os')[digest], digest);
  }

  lemma ScoreDifference(a: Aggregate, b: Aggregate, u: nat, v: nat)
    requires a.sources == b.sources && Others(a) == Others(b) && ByUrl(a, u) && ByUrl(b, v)
    ensures (Score(a) == Score(b) <==> u == v) && Score(b) - Score(a) == |a.sources| * (v - u)
  {
    Products(|a.sources|, u, v);
  }

  lemma Products(n: nat, u: nat, v: nat)
    requires n >= 1
    ensures n * v - n * u == n * (v - u)
    ensures n * u == n * v <==> u == v
  {
    if u < v {
      ProductIsPositive(n, v - u);
    } else if v < u {
      ProductIsPositive(n, u - v);
    }
  }

  lemma ProductIsPositive(n: nat, k: nat)
    requires n >= 1 && k >= 1
    ensures n * k >= 1
  {}

  // ---- an order that matters ----

  const NUMBERED := "https://example.org/1234"
  const NAMED := "https://example.org/Admin-0123456789ab"

  function DynamicEndpoint(digest: string, url: string): Endpoint {
    Endpoint(digest, url, "GET", "/{id}", [])
  }

  /** What the library makes of the two URLs. */
  ghost predicate ReadsExamples(lib: Library) {
    && lib.tokens(NUMBERED) == ["1234"] && lib.tokens(NAMED) == ["admin", "0123456789ab"]
    && lib.lower(lib.path(NUMBERED)) == "/1234" && lib.lower(lib.path(NAMED)) == "/admin-0123456789ab"
  }

  lemma ExampleWeights(lib: Library, digest: string)
    requires ReadsExamples(lib)
    ensures UrlWeight(lib, DynamicEndpoint(digest, NUMBERED)) == 2 && UrlWeight(lib, DynamicEndpoint(digest, NAMED)) == 4
  {
    var numbered, named := DynamicEndpoint(digest, NUMBERED), DynamicEndpoint(digest, NAMED);
    assert StandsAt("/{id}", "{id}", 1) && Contains("/{id}", "{id}");
    assert Words(lib, numbered, INTERESTING) == {} && Words(lib, numbered, AUTHENTICATION) == {};
    assert Words(lib, named, INTERESTING) == {"admin"} && Words(lib, named, AUTHENTICATION) == {};
  }

  /** Two URLs with dynamic last segments have one route and so one digest, but different
      words: the endpoint scores higher if the one that says `admin` is observed first. */
  lemma FirstObservationDecides(lib: Library, c: Context, o: Observation, p: Observation, digest: string)
    requires ReadsExamples(lib) && Separated(o.source) && Separated(p.source)
    requires o.endpoint == DynamicEndpoint(digest, NUMBERED) && p.endpoint == DynamicEndpoint(digest, NAMED)
    ensures digest in ObserveAll(lib, c, [o, p]) && digest in ObserveAll(lib, c, [p, o])
    ensures Score(ObserveAll(lib, c, [p, o])[digest]) == Score(ObserveAll(lib, c, [o, p])[digest]) + 2 * |{o.source, p.source}|
  {
    FirstOfTwo(o, p);
    FirstOfTwo(p, o);
    assert Elements([o, p]) == Elements([p, o]);
    ExampleWeights(lib, digest);
    OrderMattersByUrlWeight(lib, lib, c, [o, p], [p, o], digest);
    SourcesOfTwo(lib, c, o, p, digest);
  }

  lemma SourcesOfTwo(lib: Library, c: Context, o: Observation, p: Observation, digest: string)
    requires o.endpoint.digest == digest && p.endpoint.digest == digest
    ensures digest in ObserveAll(lib, c, [o, p]) && ObserveAll(lib, c, [o, p])[digest].sources == {o.source, p.source}
  {
    FirstOfTwo(o, p);
    GatheredAt(lib, c, [o, p], digest);
    assert forall x :: x in [o, p] <==> x == o || x == p;
    GatheredFromTwo(o, p, ObserveAll(lib, c, [o, p])[digest], digest);
  }

  lemma GatheredFromTwo(o: Observation, p: Observation, a: Aggregate, digest: string)
    requires o.endpoint.digest == digest && p.endpoint.digest == digest && Gathered([o, p], a, digest)
    ensures a.sources == {o.source, p.source}
  {
    assert o in [o, p] && p in [o, p];
  }

  lemma FirstOfTwo(o: Observation, p: Observation)
    requires o.endpoint.digest == p.endpoint.digest
    ensures FirstEndpoint([o, p], o.endpoint.digest) == Some(o.endpoint)
  {
    assert [o, p][..1] == [o] && [o][..0] == [];
    assert FirstEndpoint([o], o.endpoint.digest) == Some(o.endpoint);
  }
}
