/** What a classification records, spelled out from the observations: labels, signals and
    facts of every endpoint, and its confidence. */
module Observed {
  import opened Order
  import opened Strings
  import opened Classifier
  import opened Scores
  import opened Wrappers

  // ---- what one observation tells ----

  ghost predicate IsPlain(m: Mark, kind: string, value: string, weight: nat, source: string) {
    m == Mark(None, Signal(kind, value, weight, source))
  }

  ghost predicate IsLabelled(m: Mark, tag: string, kind: string, value: string, weight: nat, source: string) {
    m == Mark(Some(tag), Signal(kind, value, weight, source))
  }

  /** What the response tells. */
  ghost predicate ToldByResponse(lib: Library, o: Observation, m: Mark) {
    var d, x := o.details, o.source;
    || (exists t :: t in d.technologies && IsPlain(m, "technology", t, 0, x))
    || (d.status > 0 && IsPlain(m, "response_status", lib.text(d.status), 0, x))
    || ((d.status == 401 || d.status == 403) && IsLabelled(m, "authentication_required", "authentication_status", lib.text(d.status), 3, x))
    || (300 <= d.status < 400 && IsLabelled(m, "redirect", "redirect_status", lib.text(d.status), 1, x))
    || (d.status >= 500 && IsLabelled(m, "server_error", "server_error_status", lib.text(d.status), 1, x))
    || (d.redirect != "" && IsPlain(m, "redirect_destination", d.redirect, 1, x))
    || (o.authenticationHeader && IsLabelled(m, "authentication_required", "authentication_header", "www-authenticate", 3, x))
  }

  /** What the request tells: a method that may write, a content type of APIs, and a script
      that named the URL. */
  ghost predicate ToldByRequest(lib: Library, o: Observation, m: Mark) {
    var d, x, contentType := o.details, o.source, lib.lower(o.details.contentType);
    || (d.verb != "GET" && d.verb != "HEAD" && d.verb != "OPTIONS" && IsLabelled(m, "non_read_method", "http_method", d.verb, 2, x))
    || ((Contains(contentType, "json") || Contains(contentType, "graphql")) && IsLabelled(m, "api_content", "content_type", contentType, 1, x))
    || (Contains(lib.lower(d.sourceUrl), ".js") && IsLabelled(m, "javascript_discovered", "javascript_source", d.sourceUrl, 2, x))
  }

  /** What is known of the endpoint from API schemas and from history. */
  ghost predicate ToldByContext(c: Context, e: Endpoint, m: Mark) {
    var seen := (e.exactUrl, e.verb) in c.history && c.history[(e.exactUrl, e.verb)] != [];
    || ((e.exactUrl in c.apiUrls || e.route in c.apiRoutes) && IsLabelled(m, "api_schema_member", "api_schema_membership", e.route, 3, "api_schema"))
    || (seen && IsLabelled(m, "historically_observed", "historically_observed", e.exactUrl, 0, "history"))
    || (!seen && c.hasHistory && IsLabelled(m, "new_endpoint", "new_endpoint", e.exactUrl, 1, "history"))
  }

  /** What the URL of the aggregate tells. */
  ghost predicate ToldByUrl(lib: Library, e: Endpoint, x: string, m: Mark) {
    var path := lib.lower(lib.path(e.exactUrl));
    || (exists t :: t in lib.tokens(e.exactUrl) && ToldByWord(t, x, m))
    || (e.queryParameters != [] && IsLabelled(m, "query_parameters", "query_parameters", lib.join(e.queryParameters), 1, x))
    || (Contains(e.route, "{id}") && IsLabelled(m, "parameterized_path", "path_parameter", e.route, 2, x))
    || ((HasSuffix(path, "/openapi.json") || HasSuffix(path, "/swagger.json") || HasSuffix(path, "/openapi.yaml") || HasSuffix(path, "/openapi.yml"))
        && IsLabelled(m, "api_schema_document", "api_schema_document", e.exactUrl, 3, x))
    || (HasSuffix(path, ".js") && IsLabelled(m, "javascript_asset", "javascript_asset", e.exactUrl, 1, x))
  }

  ghost predicate IsInteresting(t: string) {
    t == "admin" || t == "api" || t == "swagger" || t == "openapi" || t == "graphql" || t == "oauth" || t == "debug" || t == "upload"
  }

  ghost predicate IsAboutAccess(t: string) {
    t == "auth" || t == "login" || t == "signin" || t == "oauth" || t == "sso" || t == "token" || t == "session"
  }

  ghost predicate ToldByWord(t: string, x: string, m: Mark) {
    || (IsInteresting(t) && IsLabelled(m, "keyword:" + t, "url_keyword", t, 2, x))
    || (IsAboutAccess(t) && IsLabelled(m, "authentication_indicator", "authentication_keyword", t, 2, x))
  }

  /** All that one observation tells, kept as an aggregate of `e`. */
  ghost predicate Tells(lib: Library, c: Context, e: Endpoint, o: Observation, m: Mark) {
    ToldByResponse(lib, o, m) || ToldByRequest(lib, o, m) || ToldByContext(c, o.endpoint, m) || ToldByUrl(lib, e, o.source, m)
  }

  lemma {:induction false} TechnologiesTold(technologies: seq<string>, source: string, m: Mark)
    ensures m in TechnologyMarks(technologies, source) <==> exists t :: t in technologies && IsPlain(m, "technology", t, 0, source)
  {
    if technologies != [] {
      TechnologiesTold(technologies[1..], source, m);
      assert technologies == [technologies[0]] + technologies[1..];
      assert m in Plain("technology", technologies[0], 0, source) <==> IsPlain(m, "technology", technologies[0], 0, source);
    }
  }

  lemma {:induction false} WordsTold(tokens: seq<string>, source: string, m: Mark)
    ensures m in KeywordMarks(tokens, source) <==> exists t :: t in tokens && ToldByWord(t, source, m)
  {
    if tokens != [] {
      WordsTold(tokens[1..], source, m);
      assert tokens == [tokens[0]] + tokens[1..];
      assert m in WordMarks(tokens[0], source) <==> ToldByWord(tokens[0], source, m);
    }
  }

  lemma ResponseTold(lib: Library, o: Observation, m: Mark)
    ensures m in TechnologyMarks(o.details.technologies, o.source) + StatusMarks(lib, o.details.status, o.source) + RedirectMarks(o) + HeaderMarks(o)
       <==> ToldByResponse(lib, o, m)
  {
    TechnologiesTold(o.details.technologies, o.source, m);
  }

  lemma RequestTold(lib: Library, o: Observation, m: Mark)
    ensures m in SentMarks(lib, o) <==> ToldByRequest(lib, o, m)
  {}

  lemma ContextTold(c: Context, e: Endpoint, m: Mark)
    ensures m in SchemaMarks(c, e) + HistoryMarks(c, e) <==> ToldByContext(c, e, m)
  {}

  lemma UrlTold(lib: Library, e: Endpoint, source: string, m: Mark)
    ensures m in OwnUrlMarks(lib, e, source) <==> ToldByUrl(lib, e, source, m)
  {
    WordsTold(lib.tokens(e.exactUrl), source, m);
  }

  /** The marks of an observation are what it tells. */
  lemma MarksAreTold(lib: Library, c: Context, e: Endpoint, o: Observation, m: Mark)
    ensures m in OwnMarks(lib, c, e, o) <==> Tells(lib, c, e, o, m)
  {
    OwnMarksSplit(lib, c, e, o, m);
    OtherMarksParts(lib, c, o, m);
    ResponseTold(lib, o, m);
    RequestTold(lib, o, m);
    ContextTold(c, o.endpoint, m);
    UrlTold(lib, e, o.source, m);
  }

  lemma OtherMarksParts(lib: Library, c: Context, o: Observation, m: Mark)
    ensures m in OtherMarks(lib, c, o) <==>
      || m in TechnologyMarks(o.details.technologies, o.source) + StatusMarks(lib, o.details.status, o.source) + RedirectMarks(o) + HeaderMarks(o)
      || m in SentMarks(lib, o) || m in SchemaMarks(c, o.endpoint) + HistoryMarks(c, o.endpoint)
  {}

  // ---- changes ----

  /** The observation has a status that an earlier record of its URL and method contradicts. */
  ghost predicate ContradictsStatus(c: Context, o: Observation) {
    var key := (o.endpoint.exactUrl, o.endpoint.verb);
    key in c.history && exists x :: x in c.history[key] && o.details.status > 0 && x.status > 0 && o.details.status != x.status
  }

  ghost predicate DiffersInTechnology(d: Details, x: Details) {
    d.technologies != [] && x.technologies != [] && exists t :: (t in d.technologies <==> t !in x.technologies)
  }

  ghost predicate ContradictsTechnology(c: Context, o: Observation) {
    var key := (o.endpoint.exactUrl, o.endpoint.verb);
    key in c.history && exists x :: x in c.history[key] && DiffersInTechnology(o.details, x)
  }

  lemma ChangesAreContradictions(c: Context, o: Observation)
    ensures StatusDiffers(o.details, Earlier(c, o.endpoint)) <==> ContradictsStatus(c, o)
    ensures TechnologyDiffers(o.details, Earlier(c, o.endpoint)) <==> ContradictsTechnology(c, o)
  {
    forall x: Details ensures Elements(o.details.technologies) != Elements(x.technologies) <==>
        exists t :: (t in o.details.technologies <==> t !in x.technologies)
    {
      SetsDiffer(o.details.technologies, x.technologies);
    }
  }

  lemma SetsDiffer(a: seq<string>, b: seq<string>)
    ensures Elements(a) != Elements(b) <==> exists t :: (t in a <==> t !in b)
  {
    if t :| t in a <==> t !in b {
      assert t in Elements(a) <==> t !in Elements(b);
    } else {
      assert Elements(a) == Elements(b);
    }
  }

  // ---- what an aggregate records ----

  /** The observations of one endpoint. */
  ghost function Mine(os: seq<Observation>, digest: string): set<Observation> {
    set o | o in os && o.endpoint.digest == digest
  }

  ghost predicate SomeContradictsStatus(c: Context, mine: set<Observation>) {
    exists o :: o in mine && ContradictsStatus(c, o)
  }

  ghost predicate SomeContradictsTechnology(c: Context, mine: set<Observation>) {
    exists o :: o in mine && ContradictsTechnology(c, o)
  }

  ghost predicate WasSeen(c: Context, o: Observation) {
    (o.endpoint.exactUrl, o.endpoint.verb) in c.history && c.history[(o.endpoint.exactUrl, o.endpoint.verb)] != []
  }

  ghost predicate HasFacts(lib: Library, mine: set<Observation>, a: Aggregate) {
    && a.sources == (set o | o in mine :: o.source)
    && a.technologies == (set o, x | o in mine && x in o.details.technologies :: x)
    && a.statuses == (set o | o in mine && o.details.status > 0 :: o.details.status)
    && a.redirects == (set o | o in mine && o.details.redirect != "" :: o.details.redirect)
    && a.relationships == (set o | o in mine && Contains(lib.lower(o.details.sourceUrl), ".js")
                             :: Relationship(o.details.sourceUrl, a.endpoint.exactUrl, "javascript_reference"))
  }

  ghost predicate HasFlags(lib: Library, c: Context, mine: set<Observation>, a: Aggregate) {
    && (forall t :: t in a.keywords <==> mine != {} && t in lib.tokens(a.endpoint.exactUrl) && IsInteresting(t))
    && (a.seenBefore <==> exists o :: o in mine && WasSeen(c, o))
    && (a.statusChanged <==> SomeContradictsStatus(c, mine))
    && (a.technologyChanged <==> SomeContradictsTechnology(c, mine))
  }

  ghost predicate IsToldLabel(lib: Library, c: Context, e: Endpoint, mine: set<Observation>, tag: string) {
    || (exists o, m :: o in mine && Tells(lib, c, e, o, m) && m.tag == Some(tag))
    || (tag == "status_changed" && SomeContradictsStatus(c, mine))
    || (tag == "technology_changed" && SomeContradictsTechnology(c, mine))
  }

  ghost predicate HasLabels(lib: Library, c: Context, mine: set<Observation>, a: Aggregate) {
    forall tag :: tag in a.labels <==> IsToldLabel(lib, c, a.endpoint, mine, tag)
  }

  lemma FactsStep(lib: Library, c: Context, mine: set<Observation>, a: Aggregate, o: Observation)
    requires HasFacts(lib, mine, a)
    ensures HasFacts(lib, mine + {o}, AddFacts(lib, c, a, o))
  {
    var b := AddFacts(lib, c, a, o);
    assert forall x :: x in o.details.technologies <==> x in Elements(o.details.technologies);
    assert b.technologies == set p, x | p in mine + {o} && x in p.details.technologies :: x;
  }

  lemma FlagsStep(lib: Library, c: Context, mine: set<Observation>, a: Aggregate, o: Observation)
    requires HasFlags(lib, c, mine, a)
    ensures HasFlags(lib, c, mine + {o}, AddFacts(lib, c, a, o))
  {
    ChangesAreContradictions(c, o);
    assert forall p :: p in mine + {o} <==> p in mine || p == o;
    assert WasSeen(c, o) <==> Earlier(c, o.endpoint) != [];
  }

  lemma {:induction false} LabelsOfMarks(a: Aggregate, ms: seq<Mark>, tag: string)
    ensures tag in AddMarks(a, ms).labels <==> tag in a.labels || exists m :: m in ms && m.tag == Some(tag)
    decreases |ms|
  {
    if ms != [] {
      LabelsOfMarks(AddMark(a, ms[0]), ms[1..], tag);
      assert ms == [ms[0]] + ms[1..];
      assert tag in AddMark(a, ms[0]).labels <==> tag in a.labels || ms[0].tag == Some(tag);
    }
  }

  lemma MoreLabels(lib: Library, c: Context, e: Endpoint, mine: set<Observation>, o: Observation, tag: string)
    ensures IsToldLabel(lib, c, e, mine + {o}, tag) <==>
      || IsToldLabel(lib, c, e, mine, tag)
      || (exists m :: Tells(lib, c, e, o, m) && m.tag == Some(tag))
      || (tag == "status_changed" && ContradictsStatus(c, o))
      || (tag == "technology_changed" && ContradictsTechnology(c, o))
  {
    assert forall p :: p in mine + {o} <==> p in mine || p == o;
  }

  lemma ChangesMarked(status: bool, technology: bool, m: Mark)
    ensures m in ChangeMarks(status, technology) <==> (status && m == STATUS_CHANGE) || (technology && m == TECHNOLOGY_CHANGE)
  {}

  lemma AllMarksTold(lib: Library, c: Context, a: Aggregate, o: Observation, m: Mark)
    ensures m in Marks(lib, c, a, o) <==>
      || Tells(lib, c, a.endpoint, o, m)
      || (WasSeen(c, o) && ((a.statusChanged && m == STATUS_CHANGE) || (a.technologyChanged && m == TECHNOLOGY_CHANGE)))
  {
    MarksAreTold(lib, c, a.endpoint, o, m);
    ChangesMarked(a.statusChanged, a.technologyChanged, m);
    assert Earlier(c, o.endpoint) != [] <==> WasSeen(c, o);
  }

  lemma MarksLabel(lib: Library, c: Context, a: Aggregate, o: Observation, tag: string)
    ensures (exists m :: m in Marks(lib, c, a, o) && m.tag == Some(tag)) <==>
      || (exists m :: Tells(lib, c, a.endpoint, o, m) && m.tag == Some(tag))
      || (tag == "status_changed" && WasSeen(c, o) && a.statusChanged)
      || (tag == "technology_changed" && WasSeen(c, o) && a.technologyChanged)
  {
    AllMarksTold(lib, c, a, o, STATUS_CHANGE);
    AllMarksTold(lib, c, a, o, TECHNOLOGY_CHANGE);
    if m :| m in Marks(lib, c, a, o) && m.tag == Some(tag) { AllMarksTold(lib, c, a, o, m); }
    if m :| Tells(lib, c, a.endpoint, o, m) && m.tag == Some(tag) { AllMarksTold(lib, c, a, o, m); }
  }

  lemma LabelsStep(lib: Library, c: Context, mine: set<Observation>, a: Aggregate, o: Observation)
    requires HasLabels(lib, c, mine, a) && HasFlags(lib, c, mine, a)
    ensures HasLabels(lib, c, mine + {o}, Observe(lib, c, a, o))
  {
    var b, d := AddFacts(lib, c, a, o), Observe(lib, c, a, o);
    MarksCover(b, Marks(lib, c, b, o));
    FlagsStep(lib, c, mine, a, o);
    ChangesAreContradictions(c, o);
    assert ContradictsStatus(c, o) || ContradictsTechnology(c, o) ==> WasSeen(c, o);
    forall tag ensures tag in d.labels <==> IsToldLabel(lib, c, d.endpoint, mine + {o}, tag) {
      LabelsOfMarks(b, Marks(lib, c, b, o), tag);
      MarksLabel(lib, c, b, o, tag);
      MoreLabels(lib, c, a.endpoint, mine, o, tag);
    }
  }

  ghost predicate Records(lib: Library, c: Context, mine: set<Observation>, a: Aggregate) {
    HasFacts(lib, mine, a) && HasFlags(lib, c, mine, a) && HasLabels(lib, c, mine, a)
  }

  lemma {:induction false} MarksKeepFacts(a: Aggregate, ms: seq<Mark>)
    ensures var b := AddMarks(a, ms); b == a.(signals := b.signals, labels := b.labels)
    decreases |ms|
  {
    if ms != [] { MarksKeepFacts(AddMark(a, ms[0]), ms[1..]); }
  }

  lemma RecordsStep(lib: Library, c: Context, mine: set<Observation>, a: Aggregate, o: Observation)
    requires Records(lib, c, mine, a)
    ensures Records(lib, c, mine + {o}, Observe(lib, c, a, o))
  {
    var b, d := AddFacts(lib, c, a, o), Observe(lib, c, a, o);
    MarksKeepFacts(b, Marks(lib, c, b, o));
    FactsStep(lib, c, mine, a, o);
    FlagsStep(lib, c, mine, a, o);
    LabelsStep(lib, c, mine, a, o);
  }

  lemma FreshRecords(lib: Library, c: Context, e: Endpoint)
    ensures Records(lib, c, {}, Fresh(e))
  {}

  ghost predicate RecordsAt(lib: Library, c: Context, mine: set<Observation>, m: Aggregates, digest: string) {
    if digest in m then mine != {} && Records(lib, c, mine, m[digest]) else mine == {}
  }

  ghost predicate AllRecord(lib: Library, c: Context, os: seq<Observation>, m: Aggregates) {
    forall d :: RecordsAt(lib, c, Mine(os, d), m, d)
  }

  lemma RecordsHere(lib: Library, c: Context, mine: set<Observation>, m: Aggregates, last: Observation)
    requires RecordsAt(lib, c, mine, m, last.endpoint.digest)
    ensures RecordsAt(lib, c, mine + {last}, ObserveIn(lib, c, m, last), last.endpoint.digest)
  {
    if last.endpoint.digest !in m { FreshRecords(lib, c, last.endpoint); }
    RecordsStep(lib, c, mine, Entry(m, last.endpoint), last);
  }

  lemma RecordsIn(lib: Library, c: Context, os: seq<Observation>, m: Aggregates, last: Observation)
    requires AllRecord(lib, c, os, m)
    ensures AllRecord(lib, c, os + [last], ObserveIn(lib, c, m, last))
  {
    var digest := last.endpoint.digest;
    forall d ensures RecordsAt(lib, c, Mine(os + [last], d), ObserveIn(lib, c, m, last), d) {
      assert RecordsAt(lib, c, Mine(os, d), m, d);
      if d == digest {
        assert Mine(os + [last], d) == Mine(os, d) + {last};
        RecordsHere(lib, c, Mine(os, d), m, last);
      } else {
        assert Mine(os + [last], d) == Mine(os, d);
      }
    }
  }

  /** A classification has one entry for each endpoint that was observed, and it records what
      the endpoint's observations tell: the facts of every field, the changes since earlier
      records, and the labels. */
  lemma EntriesRecordTheirObservations(lib: Library, c: Context, os: seq<Observation>, digest: string)
    ensures digest in ObserveAll(lib, c, os) <==> Mine(os, digest) != {}
    ensures digest in ObserveAll(lib, c, os) ==> Records(lib, c, Mine(os, digest), ObserveAll(lib, c, os)[digest])
  {
    var inv := (xs: seq<Observation>, m: Aggregates) => AllRecord(lib, c, xs, m);
    forall xs, m, o | inv(xs, m) ensures inv(xs + [o], Stepper(lib, c)(m, o)) { RecordsIn(lib, c, xs, m, o); }
    FoldInvariant(Stepper(lib, c), inv, os);
    assert RecordsAt(lib, c, Mine(os, digest), ObserveAll(lib, c, os), digest);
  }

  ghost predicate IsToldSignal(lib: Library, c: Context, e: Endpoint, mine: set<Observation>, s: Signal) {
    || (exists o, m :: o in mine && Tells(lib, c, e, o, m) && m.signal == s)
    || (s == Signal("historical_status_change", "changed", 2, "history") && SomeContradictsStatus(c, mine))
    || (s == Signal("historical_technology_change", "changed", 1, "history") && SomeContradictsTechnology(c, mine))
  }

  lemma SaidIsTold(lib: Library, c: Context, e: Endpoint, os: seq<Observation>, digest: string, s: Signal)
    ensures Said(lib, c, e, os, digest, s) <==> IsToldSignal(lib, c, e, Mine(os, digest), s)
  {
    forall o: Observation ensures StatusDiffers(o.details, Earlier(c, o.endpoint)) <==> ContradictsStatus(c, o) { ChangesAreContradictions(c, o); }
    forall o: Observation ensures TechnologyDiffers(o.details, Earlier(c, o.endpoint)) <==> ContradictsTechnology(c, o) { ChangesAreContradictions(c, o); }
    forall o ensures Says(lib, c, e, o, s) <==> exists m :: Tells(lib, c, e, o, m) && m.signal == s {
      forall m ensures m in OwnMarks(lib, c, e, o) <==> Tells(lib, c, e, o, m) { MarksAreTold(lib, c, e, o, m); }
    }
    assert forall o :: o in Mine(os, digest) <==> o in os && o.endpoint.digest == digest;
  }

  /** Its signals are told by its observations, and every signal they tell is there or
      shares its key with one that is. */
  lemma SignalsAreTold(lib: Library, c: Context, os: seq<Observation>, digest: string)
    requires digest in ObserveAll(lib, c, os)
    ensures var a := ObserveAll(lib, c, os)[digest];
            && (forall s :: s in a.signals ==> IsToldSignal(lib, c, a.endpoint, Mine(os, digest), s))
            && (forall s :: IsToldSignal(lib, c, a.endpoint, Mine(os, digest), s) ==>
                  exists t :: t in a.signals && t.kind + "\0" + t.value + "\0" + t.source == s.kind + "\0" + s.value + "\0" + s.source)
  {
    var a := ObserveAll(lib, c, os)[digest];
    ScoreCountsDistinctSignals(lib, c, os, digest);
    forall s ensures Said(lib, c, a.endpoint, os, digest, s) <==> IsToldSignal(lib, c, a.endpoint, Mine(os, digest), s) {
      SaidIsTold(lib, c, a.endpoint, os, digest, s);
    }
    forall s | IsToldSignal(lib, c, a.endpoint, Mine(os, digest), s)
      ensures exists t :: t in a.signals && t.kind + "\0" + t.value + "\0" + t.source == s.kind + "\0" + s.value + "\0" + s.source
    {
      var t :| t in a.signals && SignalKey(t) == SignalKey(s);
    }
  }

  // ---- confidence ----

  ghost function Telling(signals: seq<Signal>): set<nat> {
    set i: nat | i < |signals| && signals[i].weight > 0
  }

  lemma {:induction false} PositiveCounts(signals: seq<Signal>)
    ensures Positive(signals) == |Telling(signals)|
  {
    if signals != [] {
      var n, init := |signals| - 1, signals[..|signals| - 1];
      PositiveCounts(init);
      assert Telling(signals) == Telling(init) + if signals[n].weight > 0 then {n as nat} else {};
    }
  }

  /** The confidence is that of the best source, with five hundredths for every further
      source and three for every signal that weighs something, at most 0.99, and rounded to
      the nearest hundredth. */
  lemma ConfidenceIsRounded(a: Aggregate)
    ensures var further := if a.sources == {} then 0 else |a.sources| - 1;
            var exact := a.maxConfidence + 0.05 * further as real + 0.03 * |Telling(a.signals)| as real;
            var capped := if exact < 0.99 then exact else 0.99;
            && -0.005 < Confidence(a) - capped <= 0.005
            && Confidence(a) * 100.0 == (Confidence(a) * 100.0).Floor as real
  {
    PositiveCounts(a.signals);
    assert |a.sources| == 0 <==> a.sources == {};
  }
}
