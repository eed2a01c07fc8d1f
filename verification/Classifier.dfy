/** Endpoint classification: observations add signals to an aggregate per endpoint, and
    the aggregates become scores and confidences. */
module Classifier {
  import opened Strings
  import opened Order
  import opened Wrappers

  datatype Endpoint = Endpoint(digest: string, exactUrl: string, verb: string, route: string, queryParameters: seq<string>)

  datatype Details = Details(verb: string, contentType: string, redirect: string, sourceUrl: string, status: int, technologies: seq<string>)

  /** A record as read: `confidence` is its own one if that is in range and otherwise
      the one of its source. */
  datatype Observation = Observation(source: string, endpoint: Endpoint, details: Details, confidence: real, authenticationHeader: bool)

  datatype Signal = Signal(kind: string, value: string, weight: nat, source: string)

  datatype Relationship = Relationship(source: string, target: string, kind: string)

  /** A signal with the label (`tag`) that comes with it. */
  datatype Mark = Mark(tag: Option<string>, signal: Signal)

  datatype Aggregate = Aggregate(
    endpoint: Endpoint,
    signals: seq<Signal>,
    labels: set<string>,
    keywords: set<string>,
    sources: set<string>,
    technologies: set<string>,
    statuses: set<int>,
    redirects: set<string>,
    relationships: set<Relationship>,
    maxConfidence: real,
    seenBefore: bool,
    statusChanged: bool,
    technologyChanged: bool)

  /** `tokens` lists the words of a URL, in whichever order its set is walked; `text`
      prints a number and `join` a list. */
  datatype Library = Library(
    lower: string -> string,
    path: string -> string,
    tokens: string -> seq<string>,
    text: int -> string,
    join: seq<string> -> string)

  /** What a run knows beside its observations. `history` has the earlier details by
      URL and method, and `hasHistory` says whether any earlier record was given. */
  datatype Context = Context(apiUrls: set<string>, apiRoutes: set<string>, history: map<(string, string), seq<Details>>, hasHistory: bool)

  predicate StandsAt(s: string, part: string, i: nat) {
    i + |part| <= |s| && s[i..i + |part|] == part
  }

  predicate Contains(s: string, part: string) {
    exists i :: 0 <= i <= |s| && StandsAt(s, part, i)
  }

  const INTERESTING := {"admin", "api", "swagger", "openapi", "graphql", "oauth", "debug", "upload"}
  const AUTHENTICATION := {"auth", "login", "signin", "oauth", "sso", "token", "session"}

  // ---- the signals of an observation ----

  function Plain(kind: string, value: string, weight: nat, source: string): seq<Mark> {
    [Mark(None, Signal(kind, value, weight, source))]
  }

  function Labelled(tag: string, kind: string, value: string, weight: nat, source: string): seq<Mark> {
    [Mark(Some(tag), Signal(kind, value, weight, source))]
  }

  function TechnologyMarks(technologies: seq<string>, source: string): seq<Mark> {
    if technologies == [] then [] else Plain("technology", technologies[0], 0, source) + TechnologyMarks(technologies[1..], source)
  }

  function StatusMarks(lib: Library, status: int, source: string): seq<Mark> {
    if status <= 0 then []
    else Plain("response_status", lib.text(status), 0, source) + StatusClassMarks(lib, status, source)
  }

  function StatusClassMarks(lib: Library, status: int, source: string): seq<Mark> {
    if status == 401 || status == 403 then Labelled("authentication_required", "authentication_status", lib.text(status), 3, source)
    else if 300 <= status <= 399 then Labelled("redirect", "redirect_status", lib.text(status), 1, source)
    else if status >= 500 then Labelled("server_error", "server_error_status", lib.text(status), 1, source)
    else []
  }

  function WordMarks(token: string, source: string): seq<Mark> {
    (if token in INTERESTING then Labelled("keyword:" + token, "url_keyword", token, 2, source) else [])
    + (if token in AUTHENTICATION then Labelled("authentication_indicator", "authentication_keyword", token, 2, source) else [])
  }

  function KeywordMarks(tokens: seq<string>, source: string): seq<Mark> {
    if tokens == [] then [] else WordMarks(tokens[0], source) + KeywordMarks(tokens[1..], source)
  }

  predicate IsSchemaDocument(path: string) {
    HasSuffix(path, "/openapi.json") || HasSuffix(path, "/swagger.json") || HasSuffix(path, "/openapi.yaml") || HasSuffix(path, "/openapi.yml")
  }

  function UrlMarks(lib: Library, e: Endpoint, source: string): seq<Mark> {
    KeywordMarks(lib.tokens(e.exactUrl), source)
    + (if e.queryParameters != [] then Labelled("query_parameters", "query_parameters", lib.join(e.queryParameters), 1, source) else [])
    + (if Contains(e.route, "{id}") then Labelled("parameterized_path", "path_parameter", e.route, 2, source) else [])
    + (if IsSchemaDocument(lib.lower(lib.path(e.exactUrl))) then Labelled("api_schema_document", "api_schema_document", e.exactUrl, 3, source) else [])
  }

  predicate FromJavaScript(lib: Library, d: Details) {
    Contains(lib.lower(d.sourceUrl), ".js")
  }

  function SentMarks(lib: Library, o: Observation): seq<Mark> {
    var d, contentType := o.details, lib.lower(o.details.contentType);
    (if d.verb !in {"GET", "HEAD", "OPTIONS"} then Labelled("non_read_method", "http_method", d.verb, 2, o.source) else [])
    + (if Contains(contentType, "json") || Contains(contentType, "graphql") then Labelled("api_content", "content_type", contentType, 1, o.source) else [])
    + (if FromJavaScript(lib, d) then Labelled("javascript_discovered", "javascript_source", d.sourceUrl, 2, o.source) else [])
  }

  predicate IsAsset(lib: Library, e: Endpoint) {
    HasSuffix(lib.lower(lib.path(e.exactUrl)), ".js")
  }

  function AssetMarks(lib: Library, e: Endpoint, source: string): seq<Mark> {
    if IsAsset(lib, e) then Labelled("javascript_asset", "javascript_asset", e.exactUrl, 1, source) else []
  }

  function HeaderMarks(o: Observation): seq<Mark> {
    if o.authenticationHeader then Labelled("authentication_required", "authentication_header", "www-authenticate", 3, o.source) else []
  }

  function ContentMarks(lib: Library, e: Endpoint, o: Observation): seq<Mark> {
    SentMarks(lib, o) + AssetMarks(lib, e, o.source) + HeaderMarks(o)
  }

  function RedirectMarks(o: Observation): seq<Mark> {
    if o.details.redirect != "" then Plain("redirect_destination", o.details.redirect, 1, o.source) else []
  }

  function ObservationMarks(lib: Library, e: Endpoint, o: Observation): seq<Mark> {
    TechnologyMarks(o.details.technologies, o.source) + StatusMarks(lib, o.details.status, o.source)
    + RedirectMarks(o)
    + UrlMarks(lib, e, o.source) + ContentMarks(lib, e, o)
  }

  // ---- comparison with earlier runs ----

  function Earlier(c: Context, e: Endpoint): seq<Details> {
    if (e.exactUrl, e.verb) in c.history then c.history[(e.exactUrl, e.verb)] else []
  }

  predicate StatusDiffers(d: Details, earlier: seq<Details>) {
    exists x :: x in earlier && d.status > 0 && x.status > 0 && d.status != x.status
  }

  predicate TechnologyDiffers(d: Details, earlier: seq<Details>) {
    exists x :: x in earlier && d.technologies != [] && x.technologies != [] && Elements(d.technologies) != Elements(x.technologies)
  }

  const STATUS_CHANGE := Mark(Some("status_changed"), Signal("historical_status_change", "changed", 2, "history"))
  const TECHNOLOGY_CHANGE := Mark(Some("technology_changed"), Signal("historical_technology_change", "changed", 1, "history"))

  function SchemaMarks(c: Context, e: Endpoint): seq<Mark> {
    if e.exactUrl in c.apiUrls || e.route in c.apiRoutes then Labelled("api_schema_member", "api_schema_membership", e.route, 3, "api_schema") else []
  }

  function HistoryMarks(c: Context, e: Endpoint): seq<Mark> {
    if Earlier(c, e) != [] then Labelled("historically_observed", "historically_observed", e.exactUrl, 0, "history")
    else if c.hasHistory then Labelled("new_endpoint", "new_endpoint", e.exactUrl, 1, "history")
    else []
  }

  function ChangeMarks(status: bool, technology: bool): seq<Mark> {
    (if status then [STATUS_CHANGE] else []) + (if technology then [TECHNOLOGY_CHANGE] else [])
  }

  // ---- one observation ----

  function SignalKey(s: Signal): string {
    s.kind + "\0" + s.value + "\0" + s.source
  }

  predicate HasKey(signals: seq<Signal>, key: string) {
    exists t :: t in signals && SignalKey(t) == key
  }

  function AddSignal(signals: seq<Signal>, s: Signal): seq<Signal> {
    if HasKey(signals, SignalKey(s)) then signals else signals + [s]
  }

  function AddMark(a: Aggregate, m: Mark): Aggregate {
    a.(signals := AddSignal(a.signals, m.signal), labels := a.labels + if m.tag.Some? then {m.tag.value} else {})
  }

  function AddMarks(a: Aggregate, ms: seq<Mark>): Aggregate
    decreases |ms|
  {
    if ms == [] then a else AddMarks(AddMark(a, ms[0]), ms[1..])
  }

  function Max(x: real, y: real): real {
    if x < y then y else x
  }

  /** Everything but signals and labels. */
  function AddFacts(lib: Library, c: Context, a: Aggregate, o: Observation): Aggregate {
    var d, earlier := o.details, Earlier(c, o.endpoint);
    a.(sources := a.sources + {o.source},
       technologies := a.technologies + Elements(d.technologies),
       statuses := a.statuses + (if d.status > 0 then {d.status} else {}),
       redirects := a.redirects + (if d.redirect != "" then {d.redirect} else {}),
       keywords := a.keywords + (set t | t in lib.tokens(a.endpoint.exactUrl) && t in INTERESTING),
       relationships := a.relationships + (if FromJavaScript(lib, d) then {Relationship(d.sourceUrl, a.endpoint.exactUrl, "javascript_reference")} else {}),
       maxConfidence := Max(a.maxConfidence, o.confidence),
       seenBefore := a.seenBefore || earlier != [],
       statusChanged := a.statusChanged || StatusDiffers(d, earlier),
       technologyChanged := a.technologyChanged || TechnologyDiffers(d, earlier))
  }

  /** The marks that do not depend on other observations, for an aggregate of `e`. */
  function OwnMarks(lib: Library, c: Context, e: Endpoint, o: Observation): seq<Mark> {
    ObservationMarks(lib, e, o) + SchemaMarks(c, o.endpoint) + HistoryMarks(c, o.endpoint)
  }

  function Marks(lib: Library, c: Context, a: Aggregate, o: Observation): seq<Mark> {
    OwnMarks(lib, c, a.endpoint, o)
    + (if Earlier(c, o.endpoint) != [] then ChangeMarks(a.statusChanged, a.technologyChanged) else [])
  }

  function Observe(lib: Library, c: Context, a: Aggregate, o: Observation): Aggregate {
    var b := AddFacts(lib, c, a, o);
    AddMarks(b, Marks(lib, c, b, o))
  }

  function Fresh(e: Endpoint): Aggregate {
    Aggregate(e, [], {}, {}, {}, {}, {}, {}, {}, 0.0, false, false, false)
  }

  // ---- all observations ----

  type Aggregates = map<string, Aggregate>

  function Entry(m: Aggregates, e: Endpoint): Aggregate {
    if e.digest in m then m[e.digest] else Fresh(e)
  }

  function ObserveIn(lib: Library, c: Context, m: Aggregates, o: Observation): Aggregates {
    m[o.endpoint.digest := Observe(lib, c, Entry(m, o.endpoint), o)]
  }

  function Fold(step: (Aggregates, Observation) -> Aggregates, os: seq<Observation>): Aggregates {
    if os == [] then map[] else step(Fold(step, os[..|os| - 1]), os[|os| - 1])
  }

  function Stepper(lib: Library, c: Context): (Aggregates, Observation) -> Aggregates {
    (m: Aggregates, o: Observation) => ObserveIn(lib, c, m, o)
  }

  function ObserveAll(lib: Library, c: Context, os: seq<Observation>): Aggregates {
    Fold(Stepper(lib, c), os)
  }

  /** What every single observation keeps holds after all of them. */
  lemma {:induction false} FoldInvariant(step: (Aggregates, Observation) -> Aggregates, inv: (seq<Observation>, Aggregates) -> bool, os: seq<Observation>)
    requires inv([], map[])
    requires forall xs, m, o :: inv(xs, m) ==> inv(xs + [o], step(m, o))
    ensures inv(os, Fold(step, os))
  {
    if os != [] {
      var init, last := os[..|os| - 1], os[|os| - 1];
      FoldInvariant(step, inv, init);
      assert os == init + [last];
      assert inv(init + [last], step(Fold(step, init), last));
    }
  }

  function WeightSum(signals: seq<Signal>): nat {
    if signals == [] then 0 else WeightSum(signals[..|signals| - 1]) + signals[|signals| - 1].weight
  }

  function Positive(signals: seq<Signal>): nat {
    if signals == [] then 0 else Positive(signals[..|signals| - 1]) + if signals[|signals| - 1].weight > 0 then 1 else 0
  }

  function Score(a: Aggregate): nat {
    WeightSum(a.signals) + if |a.sources| > 1 then 1 else 0
  }

  function Least(x: real, y: real): real {
    if x < y then x else y
  }

  /** Rounded to hundredths and capped at 0.99. */
  function Confidence(a: Aggregate): real {
    var raw := a.maxConfidence + (if |a.sources| > 1 then |a.sources| - 1 else 0) as real * 0.05 + Positive(a.signals) as real * 0.03;
    (Least(0.99, raw) * 100.0 + 0.5).Floor as real / 100.0
  }

  /** One observation applied to an aggregate, signal by signal. */
  method ApplyObservation(lib: Library, c: Context, a: Aggregate, o: Observation) returns (entry: Aggregate)
    ensures entry == Observe(lib, c, a, o)
  {
    entry := AddFacts(lib, c, a, o);
    var marks := Marks(lib, c, entry, o);
    ghost var target := AddMarks(entry, marks);
    for k := 0 to |marks|
      invariant AddMarks(entry, marks[k..]) == target
    {
      entry := AddMark(entry, marks[k]);
      assert marks[k..][1..] == marks[k + 1..];
    }
  }

  /** What the loop over the records computes; one that cannot be read ends it. */
  function ObserveRecords(lib: Library, c: Context, current: seq<Option<Observation>>): Option<Aggregates> {
    if current == [] then Some(map[])
    else
      var m, last := ObserveRecords(lib, c, current[..|current| - 1]), current[|current| - 1];
      if m.None? || last.None? then None else Some(ObserveIn(lib, c, m.value, last.value))
  }

  /** Classification fails exactly if some record cannot be read, and otherwise observes
      all of them in turn. */
  method Classify(lib: Library, c: Context, current: seq<Option<Observation>>) returns (r: Option<Aggregates>)
    ensures r.None? <==> exists i :: 0 <= i < |current| && current[i].None?
    ensures r.Some? ==> r.value == ObserveAll(lib, c, Readable(current))
  {
    var m: Aggregates := map[];
    for i := 0 to |current|
      invariant ObserveRecords(lib, c, current[..i]) == Some(m)
    {
      assert current[..i + 1][..i] == current[..i];
      if current[i].None? {
        return None;
      }
      var o := current[i].value;
      var entry := ApplyObservation(lib, c, Entry(m, o.endpoint), o);
      m := m[o.endpoint.digest := entry];
    }
    assert current[..|current|] == current;
    RecordsReadable(lib, c, current);
    RecordsObserved(lib, c, current);
    return Some(m);
  }

  lemma {:induction false} EndsForGood(lib: Library, c: Context, current: seq<Option<Observation>>, i: nat)
    requires i <= |current| && ObserveRecords(lib, c, current[..i]).None?
    ensures ObserveRecords(lib, c, current).None?
    decreases |current|
  {
    if i < |current| {
      assert current[..|current| - 1][..i] == current[..i];
      EndsForGood(lib, c, current[..|current| - 1], i);
    } else {
      assert current[..i] == current;
    }
  }

  function Readable(current: seq<Option<Observation>>): seq<Observation> {
    if current == [] then []
    else Readable(current[..|current| - 1]) + if current[|current| - 1].Some? then [current[|current| - 1].value] else []
  }

  lemma ObserveLast(lib: Library, c: Context, os: seq<Observation>, o: Observation)
    ensures ObserveAll(lib, c, os + [o]) == ObserveIn(lib, c, ObserveAll(lib, c, os), o)
  {}

  lemma {:induction false} Unreadable(lib: Library, c: Context, current: seq<Option<Observation>>) returns (i: nat)
    requires ObserveRecords(lib, c, current).None?
    ensures i < |current| && current[i].None?
  {
    i := |current| - 1;
    if current[i].Some? { i := Unreadable(lib, c, current[..i]); }
  }

  lemma EndsAt(lib: Library, c: Context, current: seq<Option<Observation>>, i: nat)
    requires i < |current| && current[i].None?
    ensures ObserveRecords(lib, c, current[..i + 1]).None?
  {
    assert current[..i + 1][i] == current[i];
  }

  /** Classification succeeds exactly when every record can be read. */
  lemma RecordsReadable(lib: Library, c: Context, current: seq<Option<Observation>>)
    ensures ObserveRecords(lib, c, current).None? <==> exists i :: 0 <= i < |current| && current[i].None?
  {
    if ObserveRecords(lib, c, current).None? {
      var i := Unreadable(lib, c, current);
    } else {
      forall i | 0 <= i < |current| ensures current[i].Some? {
        if current[i].None? {
          EndsAt(lib, c, current, i);
          EndsForGood(lib, c, current, i + 1);
        }
      }
    }
  }

  lemma {:induction false} RecordsObserved(lib: Library, c: Context, current: seq<Option<Observation>>)
    requires ObserveRecords(lib, c, current).Some?
    ensures ObserveRecords(lib, c, current).value == ObserveAll(lib, c, Readable(current))
  {
    if current != [] {
      var init, last := current[..|current| - 1], current[|current| - 1];
      RecordsObserved(lib, c, init);
      ObserveLast(lib, c, Readable(init), last.value);
    }
  }

  // ---- more observations, more information ----

  ghost predicate Covers(b: Aggregate, a: Aggregate) {
    && b.endpoint == a.endpoint && a.signals <= b.signals && a.labels <= b.labels && a.keywords <= b.keywords
    && a.sources <= b.sources && a.technologies <= b.technologies && a.statuses <= b.statuses && a.redirects <= b.redirects
    && a.relationships <= b.relationships && a.maxConfidence <= b.maxConfidence
    && (a.seenBefore ==> b.seenBefore) && (a.statusChanged ==> b.statusChanged) && (a.technologyChanged ==> b.technologyChanged)
  }

  lemma {:induction false} MarksCover(a: Aggregate, ms: seq<Mark>)
    ensures Covers(AddMarks(a, ms), a)
    ensures AddMarks(a, ms) == a.(signals := AddMarks(a, ms).signals, labels := AddMarks(a, ms).labels)
    decreases |ms|
  {
    if ms != [] { MarksCover(AddMark(a, ms[0]), ms[1..]); }
  }

  lemma ObserveCovers(lib: Library, c: Context, a: Aggregate, o: Observation)
    ensures Covers(Observe(lib, c, a, o), a)
  {
    var b := AddFacts(lib, c, a, o);
    MarksCover(b, Marks(lib, c, b, o));
  }

  lemma {:induction false} WeightsGrow(signals: seq<Signal>, more: seq<Signal>)
    requires signals <= more
    ensures WeightSum(signals) <= WeightSum(more) && Positive(signals) <= Positive(more)
    decreases |more|
  {
    if |signals| == |more| {
      assert signals == more;
    } else {
      WeightsGrow(signals, more[..|more| - 1]);
    }
  }

  lemma RoundingIsMonotone(x: real, y: real)
    requires x <= y
    ensures (Least(0.99, x) * 100.0 + 0.5).Floor as real / 100.0 <= (Least(0.99, y) * 100.0 + 0.5).Floor as real / 100.0
  {}

  /** More information never lowers the score or the confidence. */
  lemma CoveringIsMonotone(a: Aggregate, b: Aggregate)
    requires Covers(b, a)
    ensures Score(a) <= Score(b) && Confidence(a) <= Confidence(b)
  {
    WeightsGrow(a.signals, b.signals);
    SubsetSize(a.sources, b.sources);
    var x := a.maxConfidence + (if |a.sources| > 1 then |a.sources| - 1 else 0) as real * 0.05 + Positive(a.signals) as real * 0.03;
    var y := b.maxConfidence + (if |b.sources| > 1 then |b.sources| - 1 else 0) as real * 0.05 + Positive(b.signals) as real * 0.03;
    RoundingIsMonotone(x, y);
  }

  lemma ReadableAppended(current: seq<Option<Observation>>, o: Observation)
    ensures Readable(current + [Some(o)]) == Readable(current) + [o]
  {
    assert (current + [Some(o)])[..|current|] == current;
  }

  /** A record appended at the end, where passive ones go, never lowers the score or
      confidence of an endpoint, drops a signal or changes another endpoint. */
  lemma AppendingNeverLowers(lib: Library, c: Context, current: seq<Option<Observation>>, o: Observation, digest: string)
    requires digest in ObserveAll(lib, c, Readable(current))
    ensures var before, after := ObserveAll(lib, c, Readable(current)), ObserveAll(lib, c, Readable(current + [Some(o)]));
            && digest in after && Covers(after[digest], before[digest])
            && Score(before[digest]) <= Score(after[digest]) && Confidence(before[digest]) <= Confidence(after[digest])
            && (digest != o.endpoint.digest ==> after[digest] == before[digest])
  {
    var os := Readable(current);
    ReadableAppended(current, o);
    ObserveLast(lib, c, os, o);
    ObservingCovers(lib, c, ObserveAll(lib, c, os), o, digest);
  }

  lemma ObservingCovers(lib: Library, c: Context, m: Aggregates, o: Observation, digest: string)
    requires digest in m
    ensures var m' := ObserveIn(lib, c, m, o);
            && digest in m' && Covers(m'[digest], m[digest])
            && Score(m[digest]) <= Score(m'[digest]) && Confidence(m[digest]) <= Confidence(m'[digest])
            && (digest != o.endpoint.digest ==> m'[digest] == m[digest])
  {
    ObserveCovers(lib, c, m[digest], o);
    var m' := ObserveIn(lib, c, m, o);
    assert Covers(m'[digest], m[digest]);
    CoveringIsMonotone(m[digest], m'[digest]);
  }

  // ---- duplicates ----

  predicate HasMark(a: Aggregate, m: Mark) {
    HasKey(a.signals, SignalKey(m.signal)) && (m.tag.Some? ==> m.tag.value in a.labels)
  }

  /** The aggregate already holds all that `o` says. */
  ghost predicate Holds(lib: Library, c: Context, a: Aggregate, o: Observation) {
    && AddFacts(lib, c, a, o) == a
    && forall m :: m in Marks(lib, c, a, o) ==> HasMark(a, m)
  }

  /** A change flag never stands without its mark. */
  ghost predicate FlagsMarked(a: Aggregate) {
    (a.statusChanged ==> HasMark(a, STATUS_CHANGE)) && (a.technologyChanged ==> HasMark(a, TECHNOLOGY_CHANGE))
  }

  lemma MarkKept(a: Aggregate, b: Aggregate, m: Mark)
    requires Covers(b, a) && HasMark(a, m)
    ensures HasMark(b, m)
  {}

  lemma {:induction false} MarksAdded(a: Aggregate, ms: seq<Mark>, m: Mark)
    requires m in ms
    ensures HasMark(AddMarks(a, ms), m)
    decreases |ms|
  {
    if m == ms[0] {
      var b := AddMark(a, m);
      assert HasKey(a.signals, SignalKey(m.signal)) || m.signal in b.signals;
      assert HasMark(b, m);
      MarksCover(b, ms[1..]);
      MarkKept(b, AddMarks(b, ms[1..]), m);
    } else {
      MarksAdded(AddMark(a, ms[0]), ms[1..], m);
    }
  }

  lemma {:induction false} MarksAbsorbed(a: Aggregate, ms: seq<Mark>)
    requires forall m :: m in ms ==> HasMark(a, m)
    ensures AddMarks(a, ms) == a
  {
    if ms != [] {
      assert HasMark(a, ms[0]);
      assert AddMark(a, ms[0]) == a;
      MarksAbsorbed(a, ms[1..]);
    }
  }

  lemma ObserveHolds(lib: Library, c: Context, a: Aggregate, o: Observation)
    ensures Holds(lib, c, Observe(lib, c, a, o), o)
  {
    var b := AddFacts(lib, c, a, o);
    var d := Observe(lib, c, a, o);
    MarksCover(b, Marks(lib, c, b, o));
    assert Marks(lib, c, d, o) == Marks(lib, c, b, o);
    forall m | m in Marks(lib, c, d, o) ensures HasMark(d, m) { MarksAdded(b, Marks(lib, c, b, o), m); }
  }

  lemma ObserveMarksFlags(lib: Library, c: Context, a: Aggregate, o: Observation)
    requires FlagsMarked(a)
    ensures FlagsMarked(Observe(lib, c, a, o))
  {
    var b, d := AddFacts(lib, c, a, o), Observe(lib, c, a, o);
    var ms := Marks(lib, c, b, o);
    MarksCover(b, ms);
    ObserveCovers(lib, c, a, o);
    if b.statusChanged {
      if a.statusChanged { MarkKept(a, d, STATUS_CHANGE); }
      else { assert STATUS_CHANGE in ms; MarksAdded(b, ms, STATUS_CHANGE); }
    }
    if b.technologyChanged {
      if a.technologyChanged { MarkKept(a, d, TECHNOLOGY_CHANGE); }
      else { assert TECHNOLOGY_CHANGE in ms; MarksAdded(b, ms, TECHNOLOGY_CHANGE); }
    }
  }

  /** What an aggregate holds it keeps holding. */
  lemma HoldsMore(lib: Library, c: Context, a: Aggregate, b: Aggregate, o: Observation)
    requires Holds(lib, c, a, o) && Covers(b, a) && FlagsMarked(b)
    ensures Holds(lib, c, b, o)
  {
    FactsMore(lib, c, a, b, o);
    forall m | m in Marks(lib, c, b, o) ensures HasMark(b, m) {
      if m in Marks(lib, c, a, o) {
        MarkKept(a, b, m);
      } else {
        assert m in ChangeMarks(b.statusChanged, b.technologyChanged);
      }
    }
  }

  lemma FactsMore(lib: Library, c: Context, a: Aggregate, b: Aggregate, o: Observation)
    requires AddFacts(lib, c, a, o) == a && Covers(b, a)
    ensures AddFacts(lib, c, b, o) == b
  {}

  ghost predicate HeldIn(lib: Library, c: Context, m: Aggregates, o: Observation) {
    o.endpoint.digest in m && Holds(lib, c, m[o.endpoint.digest], o)
  }

  lemma HeldLater(lib: Library, c: Context, m: Aggregates, o: Observation, last: Observation)
    requires HeldIn(lib, c, m, o) && AllFlagsMarked(m)
    ensures HeldIn(lib, c, ObserveIn(lib, c, m, last), o)
  {
    if o.endpoint.digest == last.endpoint.digest {
      var a := m[o.endpoint.digest];
      ObserveCovers(lib, c, a, last);
      ObserveMarksFlags(lib, c, a, last);
      HoldsMore(lib, c, a, Observe(lib, c, a, last), o);
    }
  }

  ghost predicate AllFlagsMarked(m: Aggregates) {
    forall d :: d in m ==> FlagsMarked(m[d])
  }

  lemma FlagsMarkedIn(lib: Library, c: Context, m: Aggregates, last: Observation)
    requires AllFlagsMarked(m)
    ensures AllFlagsMarked(ObserveIn(lib, c, m, last)) && HeldIn(lib, c, ObserveIn(lib, c, m, last), last)
  {
    ObserveMarksFlags(lib, c, Entry(m, last.endpoint), last);
    ObserveHolds(lib, c, Entry(m, last.endpoint), last);
  }

  ghost predicate AllHeld(lib: Library, c: Context, os: seq<Observation>, m: Aggregates) {
    AllFlagsMarked(m) && forall o :: o in os ==> HeldIn(lib, c, m, o)
  }

  lemma AllHeldStep(lib: Library, c: Context, os: seq<Observation>, m: Aggregates, last: Observation)
    requires AllHeld(lib, c, os, m)
    ensures AllHeld(lib, c, os + [last], ObserveIn(lib, c, m, last))
  {
    FlagsMarkedIn(lib, c, m, last);
    forall o | o in os + [last] ensures HeldIn(lib, c, ObserveIn(lib, c, m, last), o) {
      if o != last { HeldLater(lib, c, m, o, last); }
    }
  }

  lemma ObservedIsHeld(lib: Library, c: Context, os: seq<Observation>)
    ensures AllHeld(lib, c, os, ObserveAll(lib, c, os))
  {
    var inv := (xs: seq<Observation>, m: Aggregates) => AllHeld(lib, c, xs, m);
    forall xs, m, o | inv(xs, m) ensures inv(xs + [o], Stepper(lib, c)(m, o)) { AllHeldStep(lib, c, xs, m, o); }
    FoldInvariant(Stepper(lib, c), inv, os);
  }

  lemma HeldObserved(lib: Library, c: Context, a: Aggregate, o: Observation)
    requires Holds(lib, c, a, o)
    ensures Observe(lib, c, a, o) == a
  {
    MarksAbsorbed(a, Marks(lib, c, a, o));
  }

  lemma HeldAgain(lib: Library, c: Context, m: Aggregates, o: Observation)
    requires HeldIn(lib, c, m, o)
    ensures ObserveIn(lib, c, m, o) == m
  {
    HeldObserved(lib, c, m[o.endpoint.digest], o);
  }

  lemma {:induction false} ReadableMembers(current: seq<Option<Observation>>, o: Observation)
    ensures o in Readable(current) <==> Some(o) in current
  {
    if current != [] {
      var init, last := current[..|current| - 1], current[|current| - 1];
      ReadableMembers(init, o);
      assert current == init + [last];
    }
  }

  /** Appending a copy of a record changes nothing at all. */
  lemma DuplicatesChangeNothing(lib: Library, c: Context, current: seq<Option<Observation>>, o: Observation)
    requires Some(o) in current
    ensures ObserveAll(lib, c, Readable(current + [Some(o)])) == ObserveAll(lib, c, Readable(current))
  {
    var os := Readable(current);
    ReadableAppended(current, o);
    ReadableMembers(current, o);
    ObservedIsHeld(lib, c, os);
    ObserveLast(lib, c, os, o);
    HeldAgain(lib, c, ObserveAll(lib, c, os), o);
  }

  // ---- what the score counts ----

  ghost predicate DistinctKeys(signals: seq<Signal>) {
    forall i, j :: 0 <= i < j < |signals| ==> SignalKey(signals[i]) != SignalKey(signals[j])
  }

  lemma {:induction false} MarksDistinct(a: Aggregate, ms: seq<Mark>)
    requires DistinctKeys(a.signals)
    ensures DistinctKeys(AddMarks(a, ms).signals)
    decreases |ms|
  {
    if ms != [] {
      assert DistinctKeys(AddMark(a, ms[0]).signals);
      MarksDistinct(AddMark(a, ms[0]), ms[1..]);
    }
  }

  ghost predicate AllDistinct(m: Aggregates) {
    forall d :: d in m ==> DistinctKeys(m[d].signals)
  }

  lemma DistinctIn(lib: Library, c: Context, m: Aggregates, o: Observation)
    requires AllDistinct(m)
    ensures AllDistinct(ObserveIn(lib, c, m, o))
  {
    ObserveDistinct(lib, c, Entry(m, o.endpoint), o);
    forall d | d in m && d != o.endpoint.digest ensures DistinctKeys(m[d].signals) {}
  }

  lemma ObserveDistinct(lib: Library, c: Context, a: Aggregate, o: Observation)
    requires DistinctKeys(a.signals)
    ensures DistinctKeys(Observe(lib, c, a, o).signals)
  {
    var b := AddFacts(lib, c, a, o);
    MarksDistinct(b, Marks(lib, c, b, o));
  }

  lemma SignalsDistinct(lib: Library, c: Context, os: seq<Observation>)
    ensures AllDistinct(ObserveAll(lib, c, os))
  {
    var inv := (xs: seq<Observation>, m: Aggregates) => AllDistinct(m);
    forall xs: seq<Observation>, m, o | inv(xs, m) ensures inv(xs + [o], Stepper(lib, c)(m, o)) { DistinctIn(lib, c, m, o); }
    FoldInvariant(Stepper(lib, c), inv, os);
  }

  /** Some observation of the endpoint differs from an earlier record of it. */
  ghost predicate SomeStatusDiffers(c: Context, os: seq<Observation>, digest: string) {
    exists o :: o in os && o.endpoint.digest == digest && StatusDiffers(o.details, Earlier(c, o.endpoint))
  }

  ghost predicate SomeTechnologyDiffers(c: Context, os: seq<Observation>, digest: string) {
    exists o :: o in os && o.endpoint.digest == digest && TechnologyDiffers(o.details, Earlier(c, o.endpoint))
  }

  ghost predicate Says(lib: Library, c: Context, e: Endpoint, o: Observation, s: Signal) {
    exists m :: m in OwnMarks(lib, c, e, o) && m.signal == s
  }

  /** What the observations of an endpoint say, kept as an aggregate of `e`: the signals
      of each of them, and a change if one differs from an earlier record. */
  ghost predicate Said(lib: Library, c: Context, e: Endpoint, os: seq<Observation>, digest: string, s: Signal) {
    || (exists o :: o in os && o.endpoint.digest == digest && Says(lib, c, e, o, s))
    || (s == STATUS_CHANGE.signal && SomeStatusDiffers(c, os, digest))
    || (s == TECHNOLOGY_CHANGE.signal && SomeTechnologyDiffers(c, os, digest))
  }

  lemma MoreSaid(lib: Library, c: Context, e: Endpoint, os: seq<Observation>, o: Observation, digest: string)
    ensures SomeStatusDiffers(c, os + [o], digest) <==>
      SomeStatusDiffers(c, os, digest) || (o.endpoint.digest == digest && StatusDiffers(o.details, Earlier(c, o.endpoint)))
    ensures SomeTechnologyDiffers(c, os + [o], digest) <==>
      SomeTechnologyDiffers(c, os, digest) || (o.endpoint.digest == digest && TechnologyDiffers(o.details, Earlier(c, o.endpoint)))
    ensures forall s :: Said(lib, c, e, os, digest, s) ==> Said(lib, c, e, os + [o], digest, s)
    ensures forall s :: o.endpoint.digest == digest && Says(lib, c, e, o, s) ==> Said(lib, c, e, os + [o], digest, s)
  {
    assert forall x :: x in os + [o] <==> x in os || x == o;
  }

  lemma {:induction false} SignalsFromMarks(a: Aggregate, ms: seq<Mark>, s: Signal)
    requires s in AddMarks(a, ms).signals
    ensures s in a.signals || exists m :: m in ms && m.signal == s
    decreases |ms|
  {
    if ms != [] {
      SignalsFromMarks(AddMark(a, ms[0]), ms[1..], s);
    }
  }

  ghost predicate Faithful(lib: Library, c: Context, os: seq<Observation>, a: Aggregate, digest: string) {
    && (a.statusChanged <==> SomeStatusDiffers(c, os, digest))
    && (a.technologyChanged <==> SomeTechnologyDiffers(c, os, digest))
    && forall s :: s in a.signals ==> Said(lib, c, a.endpoint, os, digest, s)
  }

  lemma FaithfulStep(lib: Library, c: Context, os: seq<Observation>, a: Aggregate, o: Observation)
    requires Faithful(lib, c, os, a, o.endpoint.digest)
    ensures Faithful(lib, c, os + [o], Observe(lib, c, a, o), o.endpoint.digest)
  {
    var b, d := AddFacts(lib, c, a, o), Observe(lib, c, a, o);
    MarksCover(b, Marks(lib, c, b, o));
    MoreSaid(lib, c, a.endpoint, os, o, o.endpoint.digest);
    forall s | s in d.signals ensures Said(lib, c, d.endpoint, os + [o], o.endpoint.digest, s) {
      SignalsFromMarks(b, Marks(lib, c, b, o), s);
      if s !in a.signals {
        var m :| m in Marks(lib, c, b, o) && m.signal == s;
        if m in OwnMarks(lib, c, a.endpoint, o) { assert Says(lib, c, a.endpoint, o, s); }
      }
    }
  }

  ghost predicate AllFaithful(lib: Library, c: Context, os: seq<Observation>, m: Aggregates) {
    && (forall o :: o in os ==> o.endpoint.digest in m)
    && forall d :: d in m ==> Faithful(lib, c, os, m[d], d)
  }

  lemma FaithfulHere(lib: Library, c: Context, os: seq<Observation>, m: Aggregates, last: Observation)
    requires AllFaithful(lib, c, os, m)
    ensures Faithful(lib, c, os + [last], Observe(lib, c, Entry(m, last.endpoint), last), last.endpoint.digest)
  {
    var digest := last.endpoint.digest;
    if digest !in m { assert Faithful(lib, c, os, Fresh(last.endpoint), digest); }
    FaithfulStep(lib, c, os, Entry(m, last.endpoint), last);
  }

  lemma FaithfulThere(lib: Library, c: Context, os: seq<Observation>, a: Aggregate, digest: string, last: Observation)
    requires Faithful(lib, c, os, a, digest) && last.endpoint.digest != digest
    ensures Faithful(lib, c, os + [last], a, digest)
  {
    MoreSaid(lib, c, a.endpoint, os, last, digest);
  }

  lemma FaithfulIn(lib: Library, c: Context, os: seq<Observation>, m: Aggregates, last: Observation)
    requires AllFaithful(lib, c, os, m)
    ensures AllFaithful(lib, c, os + [last], ObserveIn(lib, c, m, last))
  {
    var digest, m' := last.endpoint.digest, ObserveIn(lib, c, m, last);
    FaithfulHere(lib, c, os, m, last);
    forall d | d in m' ensures Faithful(lib, c, os + [last], m'[d], d) {
      if d != digest { FaithfulThere(lib, c, os, m[d], d, last); }
    }
    forall o | o in os + [last] ensures o.endpoint.digest in m' {}
  }

  lemma SignalsAreFaithful(lib: Library, c: Context, os: seq<Observation>)
    ensures AllFaithful(lib, c, os, ObserveAll(lib, c, os))
  {
    var inv := (xs: seq<Observation>, m: Aggregates) => AllFaithful(lib, c, xs, m);
    forall xs, m, o | inv(xs, m) ensures inv(xs + [o], Stepper(lib, c)(m, o)) { FaithfulIn(lib, c, xs, m, o); }
    FoldInvariant(Stepper(lib, c), inv, os);
  }

  /** The signals that the score adds up are exactly those that the observations of the
      endpoint say, one for each key. */
  lemma ScoreCountsDistinctSignals(lib: Library, c: Context, os: seq<Observation>, digest: string)
    requires digest in ObserveAll(lib, c, os)
    ensures var a := ObserveAll(lib, c, os)[digest];
            && DistinctKeys(a.signals)
            && (forall s :: s in a.signals ==> Said(lib, c, a.endpoint, os, digest, s))
            && (forall s :: Said(lib, c, a.endpoint, os, digest, s) ==> HasKey(a.signals, SignalKey(s)))
  {
    SignalsDistinct(lib, c, os);
    SignalsAreFaithful(lib, c, os);
    ObservedIsHeld(lib, c, os);
    var a := ObserveAll(lib, c, os)[digest];
    forall s | Said(lib, c, a.endpoint, os, digest, s) ensures HasKey(a.signals, SignalKey(s)) {
      if o :| o in os && o.endpoint.digest == digest && Says(lib, c, a.endpoint, o, s) {
        var m :| m in OwnMarks(lib, c, a.endpoint, o) && m.signal == s;
        assert m in Marks(lib, c, a, o);
        assert HeldIn(lib, c, ObserveAll(lib, c, os), o);
        assert HasMark(a, m);
      } else {
        assert FlagsMarked(a);
      }
    }
  }

  // ---- keys and what they stand for ----

  /** What each type of signal weighs. */
  const WEIGHTS: map<string, nat> := map[
    "technology" := 0, "response_status" := 0, "authentication_status" := 3, "redirect_status" := 1,
    "server_error_status" := 1, "redirect_destination" := 1, "url_keyword" := 2, "authentication_keyword" := 2,
    "query_parameters" := 1, "path_parameter" := 2, "api_schema_document" := 3, "http_method" := 2,
    "content_type" := 1, "javascript_source" := 2, "javascript_asset" := 1, "authentication_header" := 3,
    "api_schema_membership" := 3, "historically_observed" := 0, "new_endpoint" := 1,
    "historical_status_change" := 2, "historical_technology_change" := 1]

  predicate Weighted(s: Signal) {
    s.kind in WEIGHTS && WEIGHTS[s.kind] == s.weight
  }

  lemma KindsAreSeparated(kind: string)
    requires kind in WEIGHTS
    ensures Separated(kind)
  {
    if kind in {"technology", "http_method", "url_keyword", "new_endpoint", "content_type", "path_parameter", "response_status"} {
      ShortKinds(kind);
    } else if kind in {"redirect_status", "query_parameters", "javascript_asset", "javascript_source", "server_error_status",
                       "api_schema_document", "redirect_destination"} {
      MiddleKinds(kind);
    } else {
      LongKinds(kind);
    }
  }

  lemma ShortKinds(kind: string)
    requires kind in {"technology", "http_method", "url_keyword", "new_endpoint", "content_type", "path_parameter", "response_status"}
    ensures Separated(kind)
  {}

  lemma MiddleKinds(kind: string)
    requires kind in {"redirect_status", "query_parameters", "javascript_asset", "javascript_source", "server_error_status",
                      "api_schema_document", "redirect_destination"}
    ensures Separated(kind)
  {}

  lemma LongKinds(kind: string)
    requires kind in {"authentication_status", "authentication_header", "authentication_keyword", "api_schema_membership",
                      "historically_observed", "historical_status_change", "historical_technology_change"}
    ensures Separated(kind)
  {}

  lemma {:induction false} TechnologiesWeighted(technologies: seq<string>, source: string)
    ensures AllWeighted(TechnologyMarks(technologies, source))
  {
    if technologies != [] { TechnologiesWeighted(technologies[1..], source); }
  }

  lemma {:induction false} KeywordsWeighted(tokens: seq<string>, source: string)
    ensures AllWeighted(KeywordMarks(tokens, source))
  {
    if tokens != [] { KeywordsWeighted(tokens[1..], source); }
  }

  lemma StatusWeighted(lib: Library, status: int, source: string)
    ensures AllWeighted(StatusMarks(lib, status, source))
  {}

  lemma UrlWeighted(lib: Library, e: Endpoint, source: string)
    ensures AllWeighted(UrlMarks(lib, e, source))
  {
    var m1 := KeywordMarks(lib.tokens(e.exactUrl), source);
    var m2 := if e.queryParameters != [] then Labelled("query_parameters", "query_parameters", lib.join(e.queryParameters), 1, source) else [];
    var m3 := if Contains(e.route, "{id}") then Labelled("parameterized_path", "path_parameter", e.route, 2, source) else [];
    var m4 := if IsSchemaDocument(lib.lower(lib.path(e.exactUrl))) then Labelled("api_schema_document", "api_schema_document", e.exactUrl, 3, source) else [];
    KeywordsWeighted(lib.tokens(e.exactUrl), source);
    assert AllWeighted(m2) && AllWeighted(m3) && AllWeighted(m4);
    AllWeightedConcat(m1, m2);
    AllWeightedConcat(m1 + m2, m3);
    AllWeightedConcat(m1 + m2 + m3, m4);
  }

  lemma ContentWeighted(lib: Library, e: Endpoint, o: Observation)
    ensures AllWeighted(ContentMarks(lib, e, o))
  {
    SentWeighted(lib, o);
    assert AllWeighted(AssetMarks(lib, e, o.source)) && AllWeighted(HeaderMarks(o));
    AllWeightedConcat(SentMarks(lib, o), AssetMarks(lib, e, o.source));
    AllWeightedConcat(SentMarks(lib, o) + AssetMarks(lib, e, o.source), HeaderMarks(o));
  }

  lemma SentWeighted(lib: Library, o: Observation)
    ensures AllWeighted(SentMarks(lib, o))
  {
    var d, contentType := o.details, lib.lower(o.details.contentType);
    var m1 := if d.verb !in {"GET", "HEAD", "OPTIONS"} then Labelled("non_read_method", "http_method", d.verb, 2, o.source) else [];
    var m2 := if Contains(contentType, "json") || Contains(contentType, "graphql") then Labelled("api_content", "content_type", contentType, 1, o.source) else [];
    var m3 := if FromJavaScript(lib, d) then Labelled("javascript_discovered", "javascript_source", d.sourceUrl, 2, o.source) else [];
    assert AllWeighted(m1) && AllWeighted(m2) && AllWeighted(m3);
    AllWeightedConcat(m1, m2);
    AllWeightedConcat(m1 + m2, m3);
  }

  lemma RedirectWeighted(o: Observation)
    ensures AllWeighted(RedirectMarks(o))
  {}

  lemma HistoryWeighted(c: Context, e: Endpoint)
    ensures AllWeighted(SchemaMarks(c, e) + HistoryMarks(c, e))
  {}

  lemma OwnMarksWeighted(lib: Library, c: Context, e: Endpoint, o: Observation)
    ensures AllWeighted(OwnMarks(lib, c, e, o))
  {
    TechnologiesWeighted(o.details.technologies, o.source);
    StatusWeighted(lib, o.details.status, o.source);
    RedirectWeighted(o);
    UrlWeighted(lib, e, o.source);
    ContentWeighted(lib, e, o);
    HistoryWeighted(c, o.endpoint);
    OwnMarksParts(lib, c, e, o);
    SixWeighted(TechnologyMarks(o.details.technologies, o.source), StatusMarks(lib, o.details.status, o.source), RedirectMarks(o),
                UrlMarks(lib, e, o.source), ContentMarks(lib, e, o), SchemaMarks(c, o.endpoint) + HistoryMarks(c, o.endpoint));
  }

  lemma SixWeighted(a: seq<Mark>, b: seq<Mark>, d: seq<Mark>, e: seq<Mark>, f: seq<Mark>, g: seq<Mark>)
    requires AllWeighted(a) && AllWeighted(b) && AllWeighted(d) && AllWeighted(e) && AllWeighted(f) && AllWeighted(g)
    ensures AllWeighted(a + b + d + e + f + g)
  {
    AllWeightedConcat(a, b);
    AllWeightedConcat(a + b, d);
    AllWeightedConcat(a + b + d, e);
    AllWeightedConcat(a + b + d + e, f);
    AllWeightedConcat(a + b + d + e + f, g);
  }

  ghost predicate AllWeighted(ms: seq<Mark>) {
    forall m :: m in ms ==> Weighted(m.signal)
  }

  lemma AllWeightedConcat(a: seq<Mark>, b: seq<Mark>)
    requires AllWeighted(a) && AllWeighted(b)
    ensures AllWeighted(a + b)
  {
    forall m | m in a + b ensures Weighted(m.signal) {
      assert m in a || m in b;
    }
  }

  lemma OwnMarksParts(lib: Library, c: Context, e: Endpoint, o: Observation)
    ensures OwnMarks(lib, c, e, o) == TechnologyMarks(o.details.technologies, o.source) + StatusMarks(lib, o.details.status, o.source)
      + RedirectMarks(o) + UrlMarks(lib, e, o.source) + ContentMarks(lib, e, o) + (SchemaMarks(c, o.endpoint) + HistoryMarks(c, o.endpoint))
  {
    var ms := TechnologyMarks(o.details.technologies, o.source) + StatusMarks(lib, o.details.status, o.source)
      + RedirectMarks(o) + UrlMarks(lib, e, o.source) + ContentMarks(lib, e, o);
    AddedInTurn(ms, SchemaMarks(c, o.endpoint), HistoryMarks(c, o.endpoint));
  }

  lemma AddedInTurn(a: seq<Mark>, b: seq<Mark>, d: seq<Mark>)
    ensures a + b + d == a + (b + d)
  {}

  /** Two different signals with one key take a separator in the value of the one and in
      the source of the other. So a key stands for one (type, value, source) wherever
      either values or sources are free of it. */
  lemma KeysAreTriples(s: Signal, t: Signal)
    requires Weighted(s) && Weighted(t) && SignalKey(s) == SignalKey(t)
    ensures s.kind == t.kind && s.weight == t.weight
    ensures s == t || (!Separated(s.value) && !Separated(t.source)) || (!Separated(t.value) && !Separated(s.source))
  {
    KindsAreSeparated(s.kind);
    KindsAreSeparated(t.kind);
    KeyParts(s, t);
    CutTwice(s.value, s.source, t.value, t.source);
  }

  lemma KeyParts(s: Signal, t: Signal)
    requires Separated(s.kind) && Separated(t.kind) && SignalKey(s) == SignalKey(t)
    ensures s.kind == t.kind && s.value + "\0" + s.source == t.value + "\0" + t.source
  {
    assert SignalKey(s) == s.kind + "\0" + (s.value + "\0" + s.source);
    assert SignalKey(t) == t.kind + "\0" + (t.value + "\0" + t.source);
    HeadAndTail(s.kind, s.value + "\0" + s.source, t.kind, t.value + "\0" + t.source);
  }

  /** One string cut at two separators. */
  lemma CutTwice(a: string, x: string, b: string, y: string)
    requires a + "\0" + x == b + "\0" + y
    ensures |a| == |b| ==> a == b && x == y
    ensures |a| < |b| ==> !Separated(b) && !Separated(x)
    ensures |b| < |a| ==> !Separated(a) && !Separated(y)
  {
    var key := a + "\0" + x;
    assert key[..|a|] == a && key[|a|] == '\0' && key[|a| + 1..] == x;
    assert key[..|b|] == b && key[|b|] == '\0' && key[|b| + 1..] == y;
    if |a| < |b| {
      assert b[|a|] == '\0';
      assert x[|b| - |a| - 1] == '\0';
    } else if |b| < |a| {
      assert a[|b|] == '\0';
      assert y[|a| - |b| - 1] == '\0';
    }
  }

  /** `v` cut at a separator, with the rest moved into the source. */
  function Shifted(o: Observation, v: string, i: nat): Observation
    requires i < |v|
  {
    o.(source := v[i + 1..] + "\0" + o.source, details := o.details.(technologies := [v[..i]]))
  }

  lemma {:induction false} TechnologySaid(technologies: seq<string>, source: string, v: string)
    requires v in technologies
    ensures exists m :: m in TechnologyMarks(technologies, source) && m.signal == Signal("technology", v, 0, source)
  {
    if v == technologies[0] {
      assert TechnologyMarks(technologies, source)[0].signal == Signal("technology", v, 0, source);
    } else {
      TechnologySaid(technologies[1..], source, v);
      var m :| m in TechnologyMarks(technologies[1..], source) && m.signal == Signal("technology", v, 0, source);
      assert m in TechnologyMarks(technologies, source);
    }
  }

  lemma SaysTechnology(lib: Library, c: Context, e: Endpoint, os: seq<Observation>, o: Observation, v: string)
    requires o in os && v in o.details.technologies
    ensures Said(lib, c, e, os, o.endpoint.digest, Signal("technology", v, 0, o.source))
  {
    TechnologySaid(o.details.technologies, o.source, v);
    var m :| m in TechnologyMarks(o.details.technologies, o.source) && m.signal == Signal("technology", v, 0, o.source);
    assert m in OwnMarks(lib, c, e, o);
    assert Says(lib, c, e, o, m.signal);
  }

  /** Two records of one endpoint that report different technologies from different sources,
      the one with a separator in the technology and the other with one in its source:
      classification keeps at most one of the two signals. */
  lemma SeparatorsMergeSignals(lib: Library, c: Context, current: seq<Option<Observation>>, o: Observation, v: string, i: nat)
    requires i < |v| && v[i] == '\0' && v in o.details.technologies
    requires Some(o) in current && Some(Shifted(o, v, i)) in current
    ensures var s, t := Signal("technology", v, 0, o.source), Signal("technology", v[..i], 0, Shifted(o, v, i).source);
            var m := ObserveAll(lib, c, Readable(current));
            && s != t && o.endpoint.digest in m
            && Said(lib, c, m[o.endpoint.digest].endpoint, Readable(current), o.endpoint.digest, s)
            && Said(lib, c, m[o.endpoint.digest].endpoint, Readable(current), o.endpoint.digest, t)
            && !(s in m[o.endpoint.digest].signals && t in m[o.endpoint.digest].signals)
  {
    var os, p, digest := Readable(current), Shifted(o, v, i), o.endpoint.digest;
    var s, t := Signal("technology", v, 0, o.source), Signal("technology", v[..i], 0, p.source);
    ReadableMembers(current, o);
    ReadableMembers(current, p);
    SignalsAreFaithful(lib, c, os);
    var a := ObserveAll(lib, c, os)[digest];
    SaysTechnology(lib, c, a.endpoint, os, o, v);
    SaysTechnology(lib, c, a.endpoint, os, p, v[..i]);
    ScoreCountsDistinctSignals(lib, c, os, digest);
    ShiftedKey(s, v, i, t);
    OneOfTheKey(a.signals, s, t);
  }

  lemma ShiftedKey(s: Signal, v: string, i: nat, t: Signal)
    requires i < |v| && v[i] == '\0' && s.value == v
    requires t == s.(value := v[..i], source := v[i + 1..] + "\0" + s.source)
    ensures SignalKey(s) == SignalKey(t)
  {
    assert v == v[..i] + "\0" + v[i + 1..];
  }

  lemma OneOfTheKey(signals: seq<Signal>, s: Signal, t: Signal)
    requires DistinctKeys(signals) && s != t && SignalKey(s) == SignalKey(t)
    ensures !(s in signals && t in signals)
  {}

  // ---- the order of observations and of tokens ----

  /** The two differ only in the order in which the words of a URL come. */
  ghost predicate SameTokens(lib: Library, lib': Library) {
    && lib' == lib.(tokens := lib'.tokens)
    && forall url :: Elements(lib.tokens(url)) == Elements(lib'.tokens(url))
  }

  lemma {:induction false} KeywordMembers(tokens: seq<string>, source: string, m: Mark)
    ensures m in KeywordMarks(tokens, source) <==> exists t :: t in tokens && m in WordMarks(t, source)
  {
    if tokens != [] {
      KeywordMembers(tokens[1..], source, m);
      assert tokens == [tokens[0]] + tokens[1..];
    }
  }

  lemma OwnMarksMembers(lib: Library, lib': Library, c: Context, e: Endpoint, o: Observation)
    requires SameTokens(lib, lib')
    ensures forall m :: m in OwnMarks(lib, c, e, o) <==> m in OwnMarks(lib', c, e, o)
  {
    forall m ensures m in KeywordMarks(lib.tokens(e.exactUrl), o.source) <==> m in KeywordMarks(lib'.tokens(e.exactUrl), o.source) {
      KeywordMembers(lib.tokens(e.exactUrl), o.source, m);
      KeywordMembers(lib'.tokens(e.exactUrl), o.source, m);
      assert Elements(lib.tokens(e.exactUrl)) == Elements(lib'.tokens(e.exactUrl));
      assert forall t :: t in lib.tokens(e.exactUrl) <==> t in lib'.tokens(e.exactUrl) by {
        forall t ensures t in lib.tokens(e.exactUrl) <==> t in lib'.tokens(e.exactUrl) {
          assert t in Elements(lib.tokens(e.exactUrl)) <==> t in Elements(lib'.tokens(e.exactUrl));
        }
      }
    }
    assert ContentMarks(lib, e, o) == ContentMarks(lib', e, o);
    assert StatusMarks(lib, o.details.status, o.source) == StatusMarks(lib', o.details.status, o.source);
  }

  lemma SaidAlike(lib: Library, lib': Library, c: Context, e: Endpoint, os: seq<Observation>, os': seq<Observation>, digest: string, s: Signal)
    requires SameTokens(lib, lib') && Elements(os) == Elements(os') && Said(lib, c, e, os, digest, s)
    ensures Said(lib', c, e, os', digest, s)
  {
    assert forall o :: o in os ==> o in Elements(os');
    if o :| o in os && o.endpoint.digest == digest && Says(lib, c, e, o, s) {
      OwnMarksMembers(lib, lib', c, e, o);
      var m :| m in OwnMarks(lib, c, e, o) && m.signal == s;
      assert Says(lib', c, e, o, s);
    }
  }

  lemma SaidIsWeighted(lib: Library, c: Context, e: Endpoint, os: seq<Observation>, digest: string, s: Signal)
    requires Said(lib, c, e, os, digest, s)
    ensures Weighted(s)
  {
    if o :| o in os && o.endpoint.digest == digest && Says(lib, c, e, o, s) {
      OwnMarksWeighted(lib, c, e, o);
    }
  }

  lemma WeightOfOneMore(b: seq<Signal>, s: Signal)
    ensures WeightSum(b + [s]) == WeightSum(b) + s.weight
    ensures Positive(b + [s]) == Positive(b) + if s.weight > 0 then 1 else 0
  {
    assert (b + [s])[..|b|] == b;
  }

  lemma {:induction false} WeightWithout(b: seq<Signal>, j: nat)
    requires j < |b|
    ensures WeightSum(b) == WeightSum(b[..j] + b[j + 1..]) + b[j].weight
    ensures Positive(b) == Positive(b[..j] + b[j + 1..]) + if b[j].weight > 0 then 1 else 0
  {
    var n := |b| - 1;
    if j < n {
      WeightWithout(b[..n], j);
      var rest := b[..n][..j] + b[..n][j + 1..];
      assert b[..j] + b[j + 1..] == rest + [b[n]] && b == b[..n] + [b[n]];
      WeightOfOneMore(rest, b[n]);
      WeightOfOneMore(b[..n], b[n]);
    } else {
      assert b[..j] + b[j + 1..] == b[..n];
    }
  }

  /** Signals with distinct keys weigh no more than any that have all their keys. */
  lemma {:induction false} WeightsByKeys(a: seq<Signal>, b: seq<Signal>)
    requires DistinctKeys(a) && forall s :: s in a ==> HasKey(b, SignalKey(s))
    requires (forall s :: s in a ==> Weighted(s)) && forall t :: t in b ==> Weighted(t)
    ensures WeightSum(a) <= WeightSum(b) && Positive(a) <= Positive(b)
    decreases |a|
  {
    if a != [] {
      var n := |a| - 1;
      var last := a[n];
      var j :| 0 <= j < |b| && SignalKey(b[j]) == SignalKey(last);
      var rest := b[..j] + b[j + 1..];
      forall s | s in a[..n] ensures HasKey(rest, SignalKey(s)) {
        KeyElsewhere(a, b, j, s);
      }
      WeightsByKeys(a[..n], rest);
      WeightWithout(b, j);
      KeysAreTriples(b[j], last);
    }
  }

  lemma KeyElsewhere(a: seq<Signal>, b: seq<Signal>, j: nat, s: Signal)
    requires a != [] && DistinctKeys(a) && s in a[..|a| - 1] && HasKey(b, SignalKey(s))
    requires j < |b| && SignalKey(b[j]) == SignalKey(a[|a| - 1])
    ensures HasKey(b[..j] + b[j + 1..], SignalKey(s))
  {
    var i :| 0 <= i < |a| - 1 && a[..|a| - 1][i] == s;
    assert SignalKey(a[i]) != SignalKey(a[|a| - 1]);
    var k :| 0 <= k < |b| && SignalKey(b[k]) == SignalKey(s);
    var rest := b[..j] + b[j + 1..];
    assert rest[if k < j then k else k - 1] == b[k];
    assert b[k] in rest;
  }

  /** The aggregate keeps the endpoint it was made with. */
  function FirstEndpoint(os: seq<Observation>, digest: string): Option<Endpoint> {
    if os == [] then None else
      var first, last := FirstEndpoint(os[..|os| - 1], digest), os[|os| - 1];
      if first.None? && last.endpoint.digest == digest then Some(last.endpoint) else first
  }

  ghost predicate Gathered(os: seq<Observation>, a: Aggregate, digest: string) {
    && FirstEndpoint(os, digest) == Some(a.endpoint)
    && (forall x :: x in a.sources <==> exists o :: o in os && o.endpoint.digest == digest && o.source == x)
    && a.maxConfidence >= 0.0
    && (forall o :: o in os && o.endpoint.digest == digest ==> o.confidence <= a.maxConfidence)
    && (a.maxConfidence == 0.0 || exists o :: o in os && o.endpoint.digest == digest && o.confidence == a.maxConfidence)
  }

  ghost predicate AllGathered(os: seq<Observation>, m: Aggregates) {
    forall d :: if d in m then Gathered(os, m[d], d) else FirstEndpoint(os, d).None? && forall o :: o in os ==> o.endpoint.digest != d
  }

  lemma GatheredMore(os: seq<Observation>, o: Observation, a: Aggregate, digest: string)
    requires Gathered(os, a, digest) && o.endpoint.digest != digest
    ensures Gathered(os + [o], a, digest)
  {
    assert forall x :: x in os + [o] <==> x in os || x == o;
    assert (os + [o])[..|os|] == os;
  }

  lemma GatheredStep(lib: Library, c: Context, os: seq<Observation>, o: Observation, a: Aggregate)
    requires Gathered(os, a, o.endpoint.digest)
      || (a == Fresh(o.endpoint) && FirstEndpoint(os, o.endpoint.digest).None? && forall x :: x in os ==> x.endpoint.digest != o.endpoint.digest)
    ensures Gathered(os + [o], Observe(lib, c, a, o), o.endpoint.digest)
  {
    var b, digest := AddFacts(lib, c, a, o), o.endpoint.digest;
    MarksCover(b, Marks(lib, c, b, o));
    assert forall x :: x in os + [o] <==> x in os || x == o;
    assert (os + [o])[..|os|] == os;
    assert b.sources == a.sources + {o.source} && b.maxConfidence == Max(a.maxConfidence, o.confidence);
    if b.maxConfidence == a.maxConfidence && a.maxConfidence != 0.0 {
      var x :| x in os && x.endpoint.digest == digest && x.confidence == a.maxConfidence;
      assert x in os + [o];
    }
    forall x | x in b.sources ensures exists y :: y in os + [o] && y.endpoint.digest == digest && y.source == x {
      if x in a.sources {
        var y :| y in os && y.endpoint.digest == digest && y.source == x;
        assert y in os + [o];
      } else {
        assert o in os + [o];
      }
    }
  }

  lemma GatheredIn(lib: Library, c: Context, os: seq<Observation>, m: Aggregates, last: Observation)
    requires AllGathered(os, m)
    ensures AllGathered(os + [last], ObserveIn(lib, c, m, last))
  {
    var digest, m' := last.endpoint.digest, ObserveIn(lib, c, m, last);
    GatheredStep(lib, c, os, last, Entry(m, last.endpoint));
    assert (os + [last])[..|os|] == os;
    assert m'[digest] == Observe(lib, c, Entry(m, last.endpoint), last);
    forall d | d != digest && d in m ensures Gathered(os + [last], m[d], d) {
      GatheredMore(os, last, m[d], d);
    }
  }

  lemma ObservationsAreGathered(lib: Library, c: Context, os: seq<Observation>)
    ensures AllGathered(os, ObserveAll(lib, c, os))
  {
    var inv := (xs: seq<Observation>, m: Aggregates) => AllGathered(xs, m);
    forall xs, m, o | inv(xs, m) ensures inv(xs + [o], Stepper(lib, c)(m, o)) { GatheredIn(lib, c, xs, m, o); }
    FoldInvariant(Stepper(lib, c), inv, os);
  }

  lemma GatheredAlike(os: seq<Observation>, os': seq<Observation>, a: Aggregate, b: Aggregate, digest: string)
    requires Elements(os) == Elements(os') && Gathered(os, a, digest) && Gathered(os', b, digest)
    ensures a.sources == b.sources && a.maxConfidence == b.maxConfidence
  {
    assert forall o :: o in os <==> o in os' by {
      forall o ensures o in os <==> o in os' { assert o in Elements(os) <==> o in Elements(os'); }
    }
  }

  lemma ScoresAtMost(lib: Library, lib': Library, c: Context, os: seq<Observation>, os': seq<Observation>, digest: string)
    requires SameTokens(lib, lib') && Elements(os) == Elements(os')
    requires digest in ObserveAll(lib, c, os) && digest in ObserveAll(lib', c, os')
    requires ObserveAll(lib, c, os)[digest].endpoint == ObserveAll(lib', c, os')[digest].endpoint
    ensures WeightSum(ObserveAll(lib, c, os)[digest].signals) <= WeightSum(ObserveAll(lib', c, os')[digest].signals)
    ensures Positive(ObserveAll(lib, c, os)[digest].signals) <= Positive(ObserveAll(lib', c, os')[digest].signals)
  {
    ScoreCountsDistinctSignals(lib, c, os, digest);
    ScoreCountsDistinctSignals(lib', c, os', digest);
    var a, b := ObserveAll(lib, c, os)[digest], ObserveAll(lib', c, os')[digest];
    forall s | s in a.signals ensures Weighted(s) && HasKey(b.signals, SignalKey(s)) {
      SaidIsWeighted(lib, c, a.endpoint, os, digest, s);
      SaidAlike(lib, lib', c, a.endpoint, os, os', digest, s);
    }
    forall s | s in b.signals ensures Weighted(s) {
      SaidIsWeighted(lib', c, b.endpoint, os', digest, s);
    }
    WeightsByKeys(a.signals, b.signals);
  }

  /** Score and confidence do not depend on the order in which words are walked, nor on
      the order or repetition of observations, as long as the same endpoint comes first
      among those of its digest. */
  lemma OrderDoesNotMatter(lib: Library, lib': Library, c: Context, os: seq<Observation>, os': seq<Observation>, digest: string)
    requires SameTokens(lib, lib') && Elements(os) == Elements(os')
    requires FirstEndpoint(os, digest).Some? && FirstEndpoint(os, digest) == FirstEndpoint(os', digest)
    ensures digest in ObserveAll(lib, c, os) && digest in ObserveAll(lib', c, os')
    ensures Score(ObserveAll(lib, c, os)[digest]) == Score(ObserveAll(lib', c, os')[digest])
    ensures Confidence(ObserveAll(lib, c, os)[digest]) == Confidence(ObserveAll(lib', c, os')[digest])
  {
    GatheredAt(lib, c, os, digest);
    GatheredAt(lib', c, os', digest);
    SameTokensBack(lib, lib');
    ScoresAtMost(lib, lib', c, os, os', digest);
    ScoresAtMost(lib', lib, c, os', os, digest);
    var a, b := ObserveAll(lib, c, os)[digest], ObserveAll(lib', c, os')[digest];
    GatheredAlike(os, os', a, b, digest);
    AlikeScores(a, b);
  }

  lemma GatheredAt(lib: Library, c: Context, os: seq<Observation>, digest: string)
    requires FirstEndpoint(os, digest).Some?
    ensures digest in ObserveAll(lib, c, os) && Gathered(os, ObserveAll(lib, c, os)[digest], digest)
  {
    ObservationsAreGathered(lib, c, os);
  }

  lemma SameTokensBack(lib: Library, lib': Library)
    requires SameTokens(lib, lib')
    ensures SameTokens(lib', lib)
  {}

  lemma AlikeScores(a: Aggregate, b: Aggregate)
    requires a.sources == b.sources && a.maxConfidence == b.maxConfidence
    requires WeightSum(a.signals) == WeightSum(b.signals) && Positive(a.signals) == Positive(b.signals)
    ensures Score(a) == Score(b) && Confidence(a) == Confidence(b)
  {}
}
