/** Program policy: budgets split among the steps of a wave, scan windows on the week,
    and the decision in front of every action. */
module Policy {
  import opened Wrappers

  datatype Risk = Passive | Low | Moderate | High | Forbidden | UnknownRisk

  datatype Decision = Allow | RequireApproval | Deny

  datatype Policy = Policy(
    allowed: seq<string>,
    denied: seq<string>,
    rateLimit: int,
    concurrency: int,
    windows: seq<string>,
    methods: seq<string>,
    authentication: bool,
    headless: bool,
    fuzzing: bool,
    maximumPayload: int,
    crossOrigin: bool,
    intrusive: bool,
    moderateApproved: bool)

  datatype Requirements = Requirements(authentication: bool, fuzzing: bool, crossOrigin: bool, intrusive: bool)

  /** What the policy reads of an action's input: its length in bytes and, when it is a
      JSON object of the right shape, two fields. */
  datatype Input = Input(length: nat, common: Option<(bool, string)>)

  // ---- budgets ----

  function Share(value: int, parts: int): int
    requires parts >= 2
  {
    if value < 1 then value
    else if value / parts < 1 then 1 else value / parts
  }

  function ParallelShare(p: Policy, activeSteps: int): Policy {
    if activeSteps < 2 then p
    else p.(rateLimit := Share(p.rateLimit, activeSteps), concurrency := Share(p.concurrency, activeSteps))
  }

  function ProgramParallelism(p: Policy): int {
    var parallelism := if p.concurrency < 1 then 1 else p.concurrency;
    if p.rateLimit > 0 && p.rateLimit < parallelism then p.rateLimit else parallelism
  }

  lemma ShareFits(value: int, parts: int)
    requires 2 <= parts
    ensures value >= 1 ==> Share(value, parts) >= 1
    ensures value >= 1 ==> (parts * Share(value, parts) <= value <==> parts <= value)
    ensures value >= 1 ==> value < parts * (Share(value, parts) + 1)
  {}

  /** A wave of at most `ProgramParallelism` steps keeps within each positive program
      limit, every step gets something, and no larger equal shares would fit. */
  lemma WavesKeepWithinBudget(p: Policy, n: nat)
    requires 1 <= n <= ProgramParallelism(p)
    ensures var q := ParallelShare(p, n);
            && (p.rateLimit >= 1 ==> 1 <= q.rateLimit && n * q.rateLimit <= p.rateLimit)
            && (p.concurrency >= 1 ==> 1 <= q.concurrency && n * q.concurrency <= p.concurrency)
            && (p.rateLimit >= 1 ==> p.rateLimit < n * (q.rateLimit + 1))
            && (p.concurrency >= 1 ==> p.concurrency < n * (q.concurrency + 1))
            && (p.rateLimit < 1 ==> q.rateLimit == p.rateLimit)
            && (p.concurrency < 1 ==> q.concurrency == p.concurrency)
            && q.(rateLimit := p.rateLimit, concurrency := p.concurrency) == p
  {
    if n >= 2 {
      ShareFits(p.rateLimit, n);
      ShareFits(p.concurrency, n);
    }
  }

  /** The shares of `n` steps stay within the positive limits. */
  predicate WaveFits(p: Policy, n: nat) {
    var q := ParallelShare(p, n);
    (p.rateLimit >= 1 ==> n * q.rateLimit <= p.rateLimit) && (p.concurrency >= 1 ==> n * q.concurrency <= p.concurrency)
  }

  /** The parallelism is exactly the most a wave may have, in a program with a positive
      concurrency; without one, steps run one by one. */
  lemma ParallelismIsTight(p: Policy, n: nat)
    requires n >= 1
    ensures p.concurrency >= 1 ==> (WaveFits(p, n) <==> n <= ProgramParallelism(p))
    ensures p.concurrency < 1 ==> ProgramParallelism(p) == 1
  {
    if n >= 2 {
      ShareFits(p.rateLimit, n);
      ShareFits(p.concurrency, n);
    }
  }

  // ---- scan windows ----

  const DAY := 1440
  const WEEK := 10080

  /** An instant within its week; day 0 is Sunday. */
  datatype Moment = Moment(day: int, minute: int)

  datatype Window = Window(weekday: Option<int>, start: int, end: int)

  predicate ValidMoment(at: Moment) {
    0 <= at.day < 7 && 0 <= at.minute < DAY
  }

  predicate ValidWindow(w: Window) {
    && (w.weekday.Some? ==> 0 <= w.weekday.value < 7)
    && 0 <= w.start < DAY && 0 <= w.end < DAY && w.start != w.end
  }

  predicate OnDay(w: Window, day: int) {
    w.weekday.None? || day == w.weekday.value
  }

  function Contains(w: Window, at: Moment): bool {
    if w.start < w.end then OnDay(w, at.day) && at.minute >= w.start && at.minute < w.end
    else if at.minute >= w.start then OnDay(w, at.day)
    else at.minute < w.end && OnDay(w, (at.day + 6) % 7)
  }

  function WeekMinute(day: int, minute: int): int {
    day * DAY + minute
  }

  /** How long a window lasts. */
  function Length(w: Window): int {
    (w.end - w.start) % DAY
  }

  lemma ModDay(x: int)
    requires -DAY < x < DAY
    ensures x % DAY == if x < 0 then x + DAY else x
  {}

  lemma ModWeek(x: int)
    requires -WEEK < x < WEEK
    ensures x % WEEK == if x < 0 then x + WEEK else x
  {}

  /** A daily window is an interval of the circle of one day, overnight windows included. */
  lemma DailyWindowIsInterval(w: Window, at: Moment)
    requires ValidWindow(w) && ValidMoment(at) && w.weekday.None?
    ensures Contains(w, at) <==> (at.minute - w.start) % DAY < Length(w)
  {}

  /** A weekly window is an interval of the circle of one week, including one that runs
      from Saturday night into Sunday. */
  lemma WeeklyWindowIsInterval(w: Window, at: Moment)
    requires ValidWindow(w) && ValidMoment(at) && w.weekday.Some?
    ensures Contains(w, at) <==> (WeekMinute(at.day, at.minute) - WeekMinute(w.weekday.value, w.start)) % WEEK < Length(w)
  {
    var x := WeekMinute(at.day, at.minute) - WeekMinute(w.weekday.value, w.start);
    assert x == (at.day - w.weekday.value) * DAY + (at.minute - w.start);
    ModDay(w.end - w.start);
    var days := at.day - w.weekday.value;
    if days == 0 {
      ModWeek(x);
    } else if days == 1 {
      ModWeek(x);
    } else if days == -6 {
      ModWeek(x);
    } else {
      FarFromStart(w, at);
    }
  }

  lemma FarFromStart(w: Window, at: Moment)
    requires ValidWindow(w) && ValidMoment(at) && w.weekday.Some?
    requires at.day - w.weekday.value !in {0, 1, -6}
    ensures !Contains(w, at)
    ensures (WeekMinute(at.day, at.minute) - WeekMinute(w.weekday.value, w.start)) % WEEK >= DAY
  {
    var days, minutes := at.day - w.weekday.value, at.minute - w.start;
    assert WeekMinute(at.day, at.minute) - WeekMinute(w.weekday.value, w.start) == days * DAY + minutes;
    if days >= 2 {
      ModWeek(days * DAY + minutes);
    } else {
      assert -5 <= days <= -1;
      ModWeek(days * DAY + minutes);
    }
  }

  // ---- parsing ----

  /** `fields` splits at white space, `lower` folds case, `clock` reads `15:04`. */
  datatype Library = Library(fields: string -> seq<string>, lower: string -> string, upper: string -> string, clock: string -> Option<int>)

  ghost predicate ReadsClock(lib: Library) {
    forall s: string :: lib.clock(s).Some? ==> 0 <= lib.clock(s).value < DAY
  }

  const WEEKDAYS: map<string, int> := map[
    "sun" := 0, "sunday" := 0, "mon" := 1, "monday" := 1, "tue" := 2, "tuesday" := 2, "wed" := 3, "wednesday" := 3,
    "thu" := 4, "thursday" := 4, "fri" := 5, "friday" := 5, "sat" := 6, "saturday" := 6]

  function IndexOf(s: string, c: char): (i: nat)
    ensures i <= |s| && (i < |s| ==> s[i] == c)
  {
    if s == [] || s[0] == c then 0 else 1 + IndexOf(s[1..], c)
  }

  function ParseSpan(lib: Library, day: Option<int>, span: string): Option<Window> {
    var cut := IndexOf(span, '-');
    if cut == |span| then None
    else match lib.clock(span[..cut])
      case None => None
      case Some(start) => match lib.clock(span[cut + 1..])
        case None => None
        case Some(end) => if start == end then None else Some(Window(day, start, end))
  }

  function ParseWindow(lib: Library, raw: string): Option<Window> {
    var fields := lib.fields(raw);
    if |fields| < 2 || lib.lower(fields[|fields| - 1]) != "utc" then None
    else if |fields| == 2 then ParseSpan(lib, None, fields[0])
    else if |fields| == 3 then
      var day := lib.lower(fields[0]);
      if day !in WEEKDAYS then None else ParseSpan(lib, Some(WEEKDAYS[day]), fields[1])
    else None
  }

  /** Every window that parses is a valid one, so the interval laws apply to it. */
  lemma ParsedWindowsAreValid(lib: Library, raw: string)
    requires ReadsClock(lib) && ParseWindow(lib, raw).Some?
    ensures ValidWindow(ParseWindow(lib, raw).value)
  {}

  /** A window as it is written is open on an interval of the circle of one day or, with a
      weekday, of one week. */
  lemma WindowsAreIntervals(lib: Library, raw: string, at: Moment)
    requires ReadsClock(lib) && ValidMoment(at) && ParseWindow(lib, raw).Some?
    ensures var w := ParseWindow(lib, raw).value;
            Contains(w, at) <==>
              if w.weekday.None? then (at.minute - w.start) % DAY < Length(w)
              else (WeekMinute(at.day, at.minute) - WeekMinute(w.weekday.value, w.start)) % WEEK < Length(w)
  {
    var w := ParseWindow(lib, raw).value;
    ParsedWindowsAreValid(lib, raw);
    if w.weekday.None? { DailyWindowIsInterval(w, at); } else { WeeklyWindowIsInterval(w, at); }
  }

  // ---- windows as they are written ----

  predicate IsDayName(name: string, day: int) {
    || (day == 0 && (name == "sun" || name == "sunday")) || (day == 1 && (name == "mon" || name == "monday"))
    || (day == 2 && (name == "tue" || name == "tuesday")) || (day == 3 && (name == "wed" || name == "wednesday"))
    || (day == 4 && (name == "thu" || name == "thursday")) || (day == 5 && (name == "fri" || name == "friday"))
    || (day == 6 && (name == "sat" || name == "saturday"))
  }

  /** Two clock readings around the first dash. */
  ghost predicate IsSpan(lib: Library, span: string, x: int, y: int) {
    exists a, b :: span == a + "-" + b && '-' !in a && lib.clock(a) == Some(x) && lib.clock(b) == Some(y)
  }

  /** From `x` to `y` on every day, or on the one that is named, in UTC. */
  ghost predicate IsWritten(lib: Library, raw: string, day: Option<int>, x: int, y: int) {
    var fields := lib.fields(raw);
    && |fields| == (if day.None? then 2 else 3) && lib.lower(fields[|fields| - 1]) == "utc"
    && (day.Some? ==> IsDayName(lib.lower(fields[0]), day.value))
    && IsSpan(lib, fields[|fields| - 2], x, y)
  }

  lemma {:induction false} FirstIndex(a: string, b: string)
    requires '-' !in a
    ensures IndexOf(a + "-" + b, '-') == |a|
  {
    if a == "" {
      assert (a + "-" + b)[0] == '-';
    } else {
      FirstIndex(a[1..], b);
      assert (a + "-" + b)[1..] == a[1..] + "-" + b;
    }
  }

  lemma {:induction false} NotBefore(s: string, c: char)
    ensures c !in s[..IndexOf(s, c)]
  {
    if s != [] && s[0] != c {
      NotBefore(s[1..], c);
      assert s[..IndexOf(s, c)] == [s[0]] + s[1..][..IndexOf(s[1..], c)];
    }
  }

  lemma SpanParsed(lib: Library, day: Option<int>, span: string, x: int, y: int)
    ensures ParseSpan(lib, day, span) == Some(Window(day, x, y)) <==> IsSpan(lib, span, x, y) && x != y
  {
    var cut := IndexOf(span, '-');
    if cut < |span| {
      NotBefore(span, '-');
      assert span == span[..cut] + "-" + span[cut + 1..];
    }
    if a, b :| span == a + "-" + b && '-' !in a && lib.clock(a) == Some(x) && lib.clock(b) == Some(y) {
      FirstIndex(a, b);
      assert span[..cut] == a && span[cut + 1..] == b;
    }
  }

  lemma DayNamed(name: string, day: int)
    ensures IsDayName(name, day) <==> name in WEEKDAYS && WEEKDAYS[name] == day
  {}

  /** What is parsed is what is written. */
  lemma WindowsAreRead(lib: Library, raw: string, day: Option<int>, x: int, y: int)
    ensures ParseWindow(lib, raw) == Some(Window(day, x, y)) <==> IsWritten(lib, raw, day, x, y) && x != y
  {
    var fields := lib.fields(raw);
    if |fields| == 2 {
      SpanParsed(lib, None, fields[0], x, y);
    } else if |fields| == 3 {
      var name := lib.lower(fields[0]);
      if name in WEEKDAYS { SpanParsed(lib, Some(WEEKDAYS[name]), fields[1], x, y); }
      if day.Some? { DayNamed(name, day.value); }
    }
  }

  /** A window that is written from `x` to `y` is open exactly from the one time to the
      other, over midnight if `y` is the earlier, and on a weekday from that day on. */
  lemma WrittenWindowsAreOpen(lib: Library, raw: string, day: Option<int>, x: int, y: int, at: Moment)
    requires ReadsClock(lib) && ValidMoment(at) && IsWritten(lib, raw, day, x, y) && x != y
    ensures ParseWindow(lib, raw).Some?
    ensures Contains(ParseWindow(lib, raw).value, at) <==>
      if day.None? then (at.minute - x) % 1440 < (y - x) % 1440
      else (1440 * (at.day - day.value) + (at.minute - x)) % 10080 < (y - x) % 1440
  {
    WindowsAreRead(lib, raw, day, x, y);
    WindowsAreIntervals(lib, raw, at);
  }

  datatype WindowCheck = Inside | Invalid(index: nat) | Outside

  /** An invalid window closes the program unless an earlier one is open. */
  ghost predicate Opens(lib: Library, windows: seq<string>, at: Moment, i: nat)
    requires i < |windows|
  {
    && (forall j :: 0 <= j <= i ==> ParseWindow(lib, windows[j]).Some?)
    && Contains(ParseWindow(lib, windows[i]).value, at)
  }

  method WithinScanWindows(lib: Library, windows: seq<string>, at: Moment) returns (r: WindowCheck)
    ensures r.Inside? <==> windows == [] || exists i :: 0 <= i < |windows| && Opens(lib, windows, at, i)
    ensures r.Invalid? ==> r.index < |windows| && ParseWindow(lib, windows[r.index]).None?
  {
    if windows == [] { return Inside; }
    for i := 0 to |windows|
      invariant forall j :: 0 <= j < i ==> ParseWindow(lib, windows[j]).Some? && !Contains(ParseWindow(lib, windows[j]).value, at)
    {
      var window := ParseWindow(lib, windows[i]);
      if window.None? { return Invalid(i); }
      if Contains(window.value, at) {
        assert Opens(lib, windows, at, i);
        return Inside;
      }
    }
    return Outside;
  }

  ghost predicate IsOpen(lib: Library, windows: seq<string>, at: Moment) {
    windows == [] || exists i :: 0 <= i < |windows| && Opens(lib, windows, at, i)
  }

  // ---- the decision ----

  predicate MethodAllowed(lib: Library, p: Policy, m: string) {
    exists x :: x in p.methods && lib.upper(x) == lib.upper(m)
  }

  method RefusesInput(lib: Library, p: Policy, input: Input) returns (refused: bool)
    ensures refused <==> InputRefused(lib, p, input)
  {
    if p.maximumPayload > 0 && input.length > p.maximumPayload { return true; }
    if input.length > 0 && input.common.Some? {
      var (headless, name) := input.common.value;
      if headless && !p.headless { return true; }
      if name != "" {
        var found := false;
        for i := 0 to |p.methods|
          invariant found <==> exists j :: 0 <= j < i && lib.upper(p.methods[j]) == lib.upper(name)
        {
          if lib.upper(p.methods[i]) == lib.upper(name) { found := true; }
        }
        return !found;
      }
    }
    return false;
  }

  method Evaluate(lib: Library, p: Policy, capability: string, risk: Risk, approved: bool, needs: Requirements, input: Input, at: Moment)
      returns (decision: Decision)
    ensures decision == Decide(lib, p, capability, risk, approved, needs, input, IsOpen(lib, p.windows, at))
  {
    if risk == Forbidden { return Deny; }
    if capability in p.denied { return Deny; }
    if |p.allowed| > 0 && capability !in p.allowed { return Deny; }
    var window := WithinScanWindows(lib, p.windows, at);
    if !window.Inside? { return Deny; }
    if needs.authentication && !p.authentication { return Deny; }
    if needs.fuzzing && !p.fuzzing { return Deny; }
    if needs.crossOrigin && !p.crossOrigin { return Deny; }
    if needs.intrusive && !p.intrusive { return Deny; }
    var refused := RefusesInput(lib, p, input);
    if refused { return Deny; }
    decision := match risk
      case Passive => Allow
      case Low => Allow
      case Moderate => if approved || p.moderateApproved then Allow else RequireApproval
      case High => if approved then Allow else RequireApproval
      case _ => Deny;
  }

  ghost predicate CapabilityRefused(p: Policy, capability: string) {
    capability in p.denied || (p.allowed != [] && capability !in p.allowed)
  }

  ghost predicate NeedsRefused(p: Policy, needs: Requirements) {
    || (needs.authentication && !p.authentication) || (needs.fuzzing && !p.fuzzing)
    || (needs.crossOrigin && !p.crossOrigin) || (needs.intrusive && !p.intrusive)
  }

  ghost predicate InputRefused(lib: Library, p: Policy, input: Input) {
    || (0 < p.maximumPayload < input.length)
    || (input.length > 0 && input.common.Some?
        && ((input.common.value.0 && !p.headless) || (input.common.value.1 != "" && !MethodAllowed(lib, p, input.common.value.1))))
  }

  /** The grounds for a denial. */
  ghost predicate Refused(lib: Library, p: Policy, capability: string, risk: Risk, needs: Requirements, input: Input, open: bool) {
    || risk.Forbidden? || risk.UnknownRisk? || !open
    || CapabilityRefused(p, capability) || NeedsRefused(p, needs) || InputRefused(lib, p, input)
  }

  ghost function Decide(lib: Library, p: Policy, capability: string, risk: Risk, approved: bool, needs: Requirements, input: Input, open: bool): Decision {
    if Refused(lib, p, capability, risk, needs, input, open) then Deny
    else if (risk.Moderate? && !approved && !p.moderateApproved) || (risk.High? && !approved) then RequireApproval
    else Allow
  }

  /** `q` permits at least what `p` permits. */
  ghost predicate AtLeastAsOpen(p: Policy, q: Policy) {
    && (forall x :: x in q.denied ==> x in p.denied)
    && (q.allowed == [] || (p.allowed != [] && forall x :: x in p.allowed ==> x in q.allowed))
    && (forall x :: x in p.methods ==> x in q.methods)
    && (p.authentication ==> q.authentication) && (p.headless ==> q.headless) && (p.fuzzing ==> q.fuzzing)
    && (p.crossOrigin ==> q.crossOrigin) && (p.intrusive ==> q.intrusive) && (p.moderateApproved ==> q.moderateApproved)
    && (q.maximumPayload <= 0 || 0 < p.maximumPayload <= q.maximumPayload)
  }

  predicate NoStricter(a: Decision, b: Decision) {
    a == Deny || b == Allow || a == b
  }

  ghost predicate AsksNoMore(needs: Requirements, needs': Requirements) {
    && (needs'.authentication ==> needs.authentication) && (needs'.fuzzing ==> needs.fuzzing)
    && (needs'.crossOrigin ==> needs.crossOrigin) && (needs'.intrusive ==> needs.intrusive)
  }

  /** Opening a policy, asking for less, or approving never makes a decision stricter. */
  lemma DecisionsAreMonotone(lib: Library, p: Policy, q: Policy, capability: string, risk: Risk, approved: bool, approved': bool,
                             needs: Requirements, needs': Requirements, input: Input, open: bool, open': bool)
    requires AtLeastAsOpen(p, q) && (approved ==> approved') && (open ==> open') && AsksNoMore(needs, needs')
    ensures NoStricter(Decide(lib, p, capability, risk, approved, needs, input, open),
                       Decide(lib, q, capability, risk, approved', needs', input, open'))
  {}

  /** No policy field stands in for the approval of a high-risk action. */
  lemma HighRiskNeedsApproval(lib: Library, p: Policy, capability: string, needs: Requirements, input: Input, open: bool)
    ensures Decide(lib, p, capability, High, false, needs, input, open) != Allow
    ensures Decide(lib, p, capability, Moderate, false, needs, input, open) == Allow ==> p.moderateApproved
  {}

  /** An action gets past every denial exactly if its risk is one that can be taken, its
      capability is listed where there is a list and not denied, the program is open, the
      policy grants all that the capability needs, and its input is neither too long nor asks
      for a browser or a method that the policy refuses. */
  lemma DeniedUnlessGranted(lib: Library, p: Policy, capability: string, risk: Risk, approved: bool, needs: Requirements, input: Input, open: bool)
    ensures Decide(lib, p, capability, risk, approved, needs, input, open) != Deny <==>
      && (risk == Passive || risk == Low || risk == Moderate || risk == High) && open
      && capability !in p.denied && (p.allowed == [] || capability in p.allowed)
      && (needs.authentication ==> p.authentication) && (needs.fuzzing ==> p.fuzzing)
      && (needs.crossOrigin ==> p.crossOrigin) && (needs.intrusive ==> p.intrusive)
      && (p.maximumPayload <= 0 || input.length <= p.maximumPayload)
      && (input.length > 0 && input.common.Some? ==>
            && (input.common.value.0 ==> p.headless)
            && (input.common.value.1 != "" ==> exists x :: x in p.methods && lib.upper(x) == lib.upper(input.common.value.1)))
    ensures Decide(lib, p, capability, risk, approved, needs, input, open) == RequireApproval ==>
      !approved && (risk == High || (risk == Moderate && !p.moderateApproved))
    ensures Decide(lib, p, capability, risk, approved, needs, input, open) == Allow ==>
      approved || risk == Passive || risk == Low || (risk == Moderate && p.moderateApproved)
  {}
}
