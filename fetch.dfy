/**
 * The per-quarter fetch (`get_quarter_data`, bse_core.py:93-122) and the range walk
 * (`get_range_quarters_data`, bse_core.py:125-146). The exchange request is an adapter
 * parameter: a function from (scrip code, from date, to date, config) to the items the
 * exchange returns for that search.
 */
module BseCore {
  import opened Wrappers
  import opened QuarterCalendar
  import opened Announcements

  /** The announcement search of bse_core.py:17-37: (scrip, from "YYYYMMDD", to "YYYYMMDD", config). */
  type Adapter = (string, string, string, Config) -> seq<Item>

  /** A date window in the exchange's YYYYMMDD format. */
  datatype Window = Window(from: string, to: string)

  /** One request the quarter fetch sends to the exchange. */
  datatype Call = Call(config: Config, window: Window)

  /** What one quarter fetch works with: the target quarter, its own window and the next
      quarter's window, and the request adapter. */
  datatype Job = Job(scrip: string, quarter: int, fiscalYear: int, current: Window, next: Window, adapter: Adapter)

  /** The state of the config loop: the rows of `dfs`, `seen_names`, and the requests sent. */
  datatype Progress = Progress(rows: seq<Record>, seen: set<string>, calls: seq<Call>)

  /** bse_core.py:108-111: lookahead configs search the next quarter's window. */
  function ConfigWindow(c: Config, job: Job): Window {
    if c.lookahead then job.next else job.current
  }

  /** The records `get_bse_data_by_config` returns for config `c` within this quarter fetch. */
  function Produced(job: Job, c: Config): seq<Record> {
    var w := ConfigWindow(c, job);
    Built(job.adapter(job.scrip, w.from, w.to, c), c)
  }

  /** `df["Quarter"] = quarter; df["FiscalYear"] = fiscal_year` (bse_core.py:115-116). */
  function Stamp(rs: seq<Record>, q: int, fy: int): (out: seq<Record>)
    ensures |out| == |rs|
    ensures forall i :: 0 <= i < |rs| ==> out[i] == rs[i].(quarter := Some(q), fiscalYear := Some(fy))
  {
    seq(|rs|, i requires 0 <= i < |rs| => rs[i].(quarter := Some(q), fiscalYear := Some(fy)))
  }

  /** One pass of the loop body of bse_core.py:104-118. */
  function Step(job: Job, p: Progress, c: Config): Progress {
    if c.name in p.seen then p
    else
      var sent := p.(calls := p.calls + [Call(c, ConfigWindow(c, job))]);
      var rows := Produced(job, c);
      if rows == [] then sent
      else sent.(rows := p.rows + Stamp(rows, job.quarter, job.fiscalYear), seen := p.seen + {c.name})
  }

  /**
   * The config loop run over `configs`. Every row carries the target quarter and fiscal year,
   * never the searched window, and every request searches the window its config's lookahead
   * flag selects.
   */
  function RunConfigs(job: Job, configs: seq<Config>): (p: Progress)
    ensures forall r :: r in p.rows ==> r.quarter == Some(job.quarter) && r.fiscalYear == Some(job.fiscalYear)
    ensures forall k :: 0 <= k < |p.calls| ==> p.calls[k].window == ConfigWindow(p.calls[k].config, job)
    ensures |p.calls| <= |configs|
  {
    if configs == [] then Progress([], {}, [])
    else Step(job, RunConfigs(job, configs[..|configs| - 1]), configs[|configs| - 1])
  }

  /** The rows that came from configs named `n`, in order. */
  function Named(rows: seq<Record>, n: string): seq<Record> {
    if rows == [] then []
    else (if rows[0].config == n then [rows[0]] else []) + Named(rows[1..], n)
  }

  /**
   * The index of the first config named `n` whose request returned rows, if there is one:
   * every earlier config of that name returned nothing.
   */
  function FirstProductive(job: Job, configs: seq<Config>, n: string): (f: Option<nat>)
    ensures f.Some? ==> f.value < |configs| && configs[f.value].name == n && Produced(job, configs[f.value]) != []
    ensures f.Some? ==> forall j :: 0 <= j < f.value && configs[j].name == n ==> Produced(job, configs[j]) == []
    ensures f.None? ==> forall j :: 0 <= j < |configs| && configs[j].name == n ==> Produced(job, configs[j]) == []
  {
    if configs == [] then None
    else
      var init := configs[..|configs| - 1];
      var c := configs[|configs| - 1];
      var f := FirstProductive(job, init, n);
      if f.Some? then f
      else if c.name == n && Produced(job, c) != [] then Some(|configs| - 1)
      else None
  }

  lemma {:induction false} NamedAppend(a: seq<Record>, b: seq<Record>, n: string)
    ensures Named(a + b, n) == Named(a, n) + Named(b, n)
  {
    if a != [] {
      assert (a + b)[0] == a[0];
      assert (a + b)[1..] == a[1..] + b;
      NamedAppend(a[1..], b, n);
    } else {
      assert a + b == b;
    }
  }

  lemma {:induction false} NamedUniform(rows: seq<Record>, m: string, n: string)
    requires forall r :: r in rows ==> r.config == m
    ensures Named(rows, n) == if m == n then rows else []
  {
    if rows != [] {
      var tail := rows[1..];
      UniformTail(rows, m);
      NamedUniform(tail, m, n);
      assert rows[0].config == m by {
        assert rows[0] in rows;
      }
      if m == n {
        assert rows == [rows[0]] + tail;
      }
    }
  }

  /** The rows after the first of a list from one config are from that config too. */
  lemma UniformTail(rows: seq<Record>, m: string)
    requires rows != [] && forall r :: r in rows ==> r.config == m
    ensures forall r :: r in rows[1..] ==> r.config == m
  {
    forall r | r in rows[1..] ensures r.config == m {
      var i :| 0 <= i < |rows[1..]| && rows[1..][i] == r;
      assert rows[i + 1] == r;
    }
  }

  /** The rows one config contributes all carry that config's name. */
  lemma StampedNames(job: Job, c: Config)
    ensures forall r :: r in Stamp(Produced(job, c), job.quarter, job.fiscalYear) ==> r.config == c.name
  {
    var p := Produced(job, c);
    var s := Stamp(p, job.quarter, job.fiscalYear);
    forall r | r in s ensures r.config == c.name {
      var i :| 0 <= i < |s| && s[i] == r;
      assert p[i] in p;
    }
  }

  /** `seen_names` is exactly the set of config names that occur in the rows. */
  lemma {:induction false} SeenIsRowNames(job: Job, configs: seq<Config>)
    ensures RunConfigs(job, configs).seen == RowNames(RunConfigs(job, configs).rows)
  {
    if configs != [] {
      var init := configs[..|configs| - 1];
      var c := configs[|configs| - 1];
      SeenIsRowNames(job, init);
      var p := RunConfigs(job, init);
      var rows := Produced(job, c);
      if c.name !in p.seen && rows != [] {
        var added := Stamp(rows, job.quarter, job.fiscalYear);
        StampedNames(job, c);
        assert added[0] in added;
        assert RowNames(p.rows + added) == RowNames(p.rows) + {c.name};
      }
    }
  }

  /** A name is marked seen exactly when some config of that name returned rows. */
  lemma {:induction false} SeenIffProductive(job: Job, configs: seq<Config>, n: string)
    ensures n in RunConfigs(job, configs).seen <==> FirstProductive(job, configs, n).Some?
  {
    if configs != [] {
      SeenIffProductive(job, configs[..|configs| - 1], n);
    }
  }

  /**
   * Deduplication by name (bse_core.py:105-106, 114-118): the rows named `n` are exactly the
   * stamped rows of the first config named `n` whose request returned anything; configs of
   * that name before it returned nothing, and those after it were not used.
   */
  lemma {:induction false} RowsPerName(job: Job, configs: seq<Config>, n: string)
    ensures var f := FirstProductive(job, configs, n);
      Named(RunConfigs(job, configs).rows, n) ==
        if f.None? then [] else Stamp(Produced(job, configs[f.value]), job.quarter, job.fiscalYear)
  {
    if configs != [] {
      var init := configs[..|configs| - 1];
      var c := configs[|configs| - 1];
      RowsPerName(job, init, n);
      SeenIffProductive(job, init, c.name);
      SeenIffProductive(job, init, n);
      var p := RunConfigs(job, init);
      var rows := Produced(job, c);
      if c.name !in p.seen && rows != [] {
        var added := Stamp(rows, job.quarter, job.fiscalYear);
        StampedNames(job, c);
        NamedAppend(p.rows, added, n);
        NamedUniform(added, c.name, n);
      }
      var f := FirstProductive(job, init, n);
      if f.Some? {
        assert init[f.value] == configs[f.value];
      }
    }
  }

  /**
   * Config i is sent to the exchange exactly when no earlier config of the same name returned
   * rows; a name whose earlier configs all returned nothing is still searched (bse_core.py:105-118).
   */
  lemma QueriedIff(job: Job, configs: seq<Config>, i: nat)
    requires i < |configs|
    ensures var before := RunConfigs(job, configs[..i]).calls;
      RunConfigs(job, configs[..i + 1]).calls ==
        if FirstProductive(job, configs[..i], configs[i].name).None?
        then before + [Call(configs[i], ConfigWindow(configs[i], job))]
        else before
  {
    assert configs[..i + 1][..i] == configs[..i];
    SeenIffProductive(job, configs[..i], configs[i].name);
  }

  function WindowOf(dates: (string, string)): Window {
    Window(dates.0, dates.1)
  }

  /**
   * `get_quarter_data` as a value: both quarters' windows are computed first, so an invalid
   * quarter, or a target or next quarter outside the calendar's years, fails before any request.
   * On success every row carries the target quarter, and each request searches the next
   * quarter's window when its config looks ahead and the target quarter's window otherwise.
   */
  function FetchQuarterSpec(scrip: string, q: int, fy: int, configs: seq<Config>, adapter: Adapter)
    : Result<Progress, CalendarError>
  {
    match GetQuarterDates(q, fy)
    case Failure(e) => Failure(e)
    case Success(current) =>
      var (nq, nfy) := NextQuarter(q, fy);
      match GetQuarterDates(nq, nfy)
      case Failure(e) => Failure(e)
      case Success(next) =>
        Success(RunConfigs(Job(scrip, q, fy, WindowOf(current), WindowOf(next), adapter), configs))
  }

  /** An invalid quarter fails before any request; on success both windows exist, every row
      carries the target quarter, and each request searches the next quarter's window when its
      config looks ahead and the target quarter's window otherwise. */
  lemma FetchQuarterFacts(scrip: string, q: int, fy: int, configs: seq<Config>, adapter: Adapter)
    ensures var r := FetchQuarterSpec(scrip, q, fy, configs, adapter);
      && (!(1 <= q <= 4) ==> r == Failure(InvalidQuarter))
      && (r.Success? ==> 1 <= q <= 4 && GetQuarterDates(q, fy).Success?)
      && (r.Success? ==> forall row :: row in r.value.rows ==> row.quarter == Some(q) && row.fiscalYear == Some(fy))
      && (r.Success? ==>
            var (nq, nfy) := NextQuarter(q, fy);
            GetQuarterDates(nq, nfy).Success? &&
            forall k :: 0 <= k < |r.value.calls| ==>
              r.value.calls[k].window ==
                if r.value.calls[k].config.lookahead then WindowOf(GetQuarterDates(nq, nfy).value)
                else WindowOf(GetQuarterDates(q, fy).value))
  {
  }

  /** The job `FetchQuarterSpec` runs, when both windows exist. */
  function QuarterJob(scrip: string, q: int, fy: int, adapter: Adapter): Job
    requires 1 <= q <= 4 && GetQuarterDates(q, fy).Success? && GetQuarterDates(NextQuarter(q, fy).0, NextQuarter(q, fy).1).Success?
  {
    var (nq, nfy) := NextQuarter(q, fy);
    Job(scrip, q, fy, WindowOf(GetQuarterDates(q, fy).value), WindowOf(GetQuarterDates(nq, nfy).value), adapter)
  }

  /** The frame `get_quarter_data` returns. */
  function QuarterRows(scrip: string, q: int, fy: int, configs: seq<Config>, adapter: Adapter)
    : Result<seq<Record>, CalendarError>
  {
    match FetchQuarterSpec(scrip, q, fy, configs, adapter)
    case Failure(e) => Failure(e)
    case Success(p) => Success(p.rows)
  }

  /** The config loop of `get_quarter_data` (bse_core.py:104-118), with its `seen_names` set
      and `dfs` list, once both windows are known. */
  method RunConfigLoop(scrip: string, quarter: int, fiscalYear: int, current: Window, next: Window,
                       configs: seq<Config>, adapter: Adapter)
    returns (dfs: seq<Record>, seen: set<string>)
    ensures var p := RunConfigs(Job(scrip, quarter, fiscalYear, current, next, adapter), configs);
      dfs == p.rows && seen == p.seen
  {
    ghost var job := Job(scrip, quarter, fiscalYear, current, next, adapter);
    dfs, seen := [], {};
    for i := 0 to |configs|
      invariant dfs == RunConfigs(job, configs[..i]).rows
      invariant seen == RunConfigs(job, configs[..i]).seen
    {
      assert configs[..i + 1][..i] == configs[..i];
      var config := configs[i];
      if config.name in seen {
        continue;
      }
      var window := if config.lookahead then next else current;
      var items := adapter(scrip, window.from, window.to, config);
      var df := BuildRecords(items, config);
      if df != [] {
        dfs := dfs + Stamp(df, quarter, fiscalYear);
        seen := seen + {config.name};
      }
    }
    assert configs[..|configs|] == configs;
  }

  /** `get_quarter_data`: both windows, then the config loop. */
  method FetchQuarter(scrip: string, quarter: int, fiscalYear: int, configs: seq<Config>, adapter: Adapter)
    returns (r: Result<seq<Record>, CalendarError>)
    ensures r == QuarterRows(scrip, quarter, fiscalYear, configs, adapter)
  {
    var current := GetQuarterDates(quarter, fiscalYear);
    if current.Failure? {
      return Failure(current.error);
    }
    var nextQ := quarter % 4 + 1;
    var nextFy := if quarter == 4 then fiscalYear + 1 else fiscalYear;
    assert (nextQ, nextFy) == NextQuarter(quarter, fiscalYear);
    var next := GetQuarterDates(nextQ, nextFy);
    if next.Failure? {
      return Failure(next.error);
    }
    var dfs, _ := RunConfigLoop(scrip, quarter, fiscalYear, WindowOf(current.value), WindowOf(next.value), configs, adapter);
    return Success(dfs);
  }

  /** A config of the default set: "results" from the Result category, looking ahead. */
  const ResultsConfig := Config("results", "Result", None, None, true)
  /** A second "results" config: board meetings whose text mentions "result", looking ahead. */
  const BoardMeetingConfig := Config("results", "Board Meeting", None, Some("result"), true)

  /** Two configs of one name: the second is sent only when the first returned nothing. */
  lemma SameNamePair(job: Job, c1: Config, c2: Config)
    requires c1.name == c2.name
    ensures RunConfigs(job, [c1, c2]).calls ==
      if Produced(job, c1) != [] then [Call(c1, ConfigWindow(c1, job))]
      else [Call(c1, ConfigWindow(c1, job)), Call(c2, ConfigWindow(c2, job))]
  {
    assert [c1, c2][..1] == [c1];
    assert [c1][..0] == [];
    var p0 := RunConfigs(job, []);
    var p1 := RunConfigs(job, [c1]);
    assert p1 == Step(job, p0, c1);
    assert RunConfigs(job, [c1, c2]) == Step(job, p1, c2);
  }

  /**
   * Fetching Q3 of a fiscal year (FY2024, say) with the two "results" configs sends the first
   * request over the window of Q4 of the same fiscal year; the second config is sent only when
   * the first returned nothing.
   */
  lemma LookaheadScenario(scrip: string, fy: int, adapter: Adapter)
    requires 2 <= fy <= 9999
    ensures FetchQuarterSpec(scrip, 3, fy, [ResultsConfig, BoardMeetingConfig], adapter).Success?
    ensures GetQuarterDates(4, fy).Success?
    ensures var w := WindowOf(GetQuarterDates(4, fy).value);
      var first := Built(adapter(scrip, w.from, w.to, ResultsConfig), ResultsConfig);
      FetchQuarterSpec(scrip, 3, fy, [ResultsConfig, BoardMeetingConfig], adapter).value.calls ==
        if first != [] then [Call(ResultsConfig, w)]
        else [Call(ResultsConfig, w), Call(BoardMeetingConfig, w)]
  {
    QuarterDatesDomain(3, fy);
    QuarterDatesDomain(4, fy);
    SameNamePair(QuarterJob(scrip, 3, fy, adapter), ResultsConfig, BoardMeetingConfig);
  }

  /** Lexicographic (fy, q) <= (endFy, endQ): the loop condition of bse_core.py:132. */
  predicate NotPast(q: int, fy: int, endQ: int, endFy: int) {
    fy < endFy || (fy == endFy && q <= endQ)
  }

  /** The quarter after (q, fy), as bse_core.py:138-142 advances it. */
  function Advance(q: int, fy: int): (int, int) {
    if q == 4 then (1, fy + 1) else (q + 1, fy)
  }

  /** On a valid quarter the loop's advance is the calendar's next quarter. */
  lemma AdvanceIsNextQuarter(q: int, fy: int)
    requires 1 <= q <= 4
    ensures Advance(q, fy) == NextQuarter(q, fy)
  {
  }

  /** The quarters the walk visits, in order. */
  function Visited(q: int, fy: int, endQ: int, endFy: int): (v: seq<(int, int)>)
    requires 1 <= q <= 4
    ensures forall i :: 0 <= i < |v| ==> 1 <= v[i].0 <= 4 && 4 * v[i].1 + v[i].0 == 4 * fy + q + i
    ensures forall i :: 0 <= i < |v| ==> NotPast(v[i].0, v[i].1, endQ, endFy)
    decreases 4 * endFy + 5 - (4 * fy + q)
  {
    if !NotPast(q, fy, endQ, endFy) then []
    else
      var (nq, nfy) := Advance(q, fy);
      [(q, fy)] + Visited(nq, nfy, endQ, endFy)
  }

  /**
   * From a start not past a valid end quarter the walk visits exactly
   * 4*(endFy-fy) + (endQ-q) + 1 quarters; from a start past the end it visits none.
   */
  lemma {:induction false} VisitedCount(q: int, fy: int, endQ: int, endFy: int)
    requires 1 <= q <= 4 && 1 <= endQ <= 4
    ensures NotPast(q, fy, endQ, endFy) ==> |Visited(q, fy, endQ, endFy)| == 4 * (endFy - fy) + (endQ - q) + 1
    ensures !NotPast(q, fy, endQ, endFy) ==> Visited(q, fy, endQ, endFy) == []
    decreases 4 * endFy + 5 - (4 * fy + q)
  {
    if NotPast(q, fy, endQ, endFy) {
      var (nq, nfy) := Advance(q, fy);
      VisitedCount(nq, nfy, endQ, endFy);
    }
  }

  /** The walk of bse_core.py:125-146 over (3, 2024) .. (4, 2025). */
  lemma RangeScenario()
    ensures Visited(3, 2024, 4, 2025) == [(3, 2024), (4, 2024), (1, 2025), (2, 2025), (3, 2025), (4, 2025)]
  {
  }

  /** A per-quarter fetch: (quarter, fiscal year) to that quarter's rows or its error. */
  type QuarterFetch = (int, int) -> Result<seq<Record>, CalendarError>

  /** `get_quarter_data` for one company and config list, as the range walk calls it. */
  function QuarterFetcher(scrip: string, configs: seq<Config>, adapter: Adapter): QuarterFetch {
    (q, fy) => QuarterRows(scrip, q, fy, configs, adapter)
  }

  /** Every row a quarter fetch returns is stamped with that quarter. */
  ghost predicate StampsItsQuarter(fetch: QuarterFetch) {
    forall q, fy :: fetch(q, fy).Success? ==>
      forall row :: row in fetch(q, fy).value ==> row.quarter == Some(q) && row.fiscalYear == Some(fy)
  }

  /** The fetch the range walk uses stamps every row with the quarter it was fetched for. */
  lemma QuarterFetcherStamps(scrip: string, configs: seq<Config>, adapter: Adapter)
    ensures StampsItsQuarter(QuarterFetcher(scrip, configs, adapter))
  {
    var fetch := QuarterFetcher(scrip, configs, adapter);
    forall q, fy | fetch(q, fy).Success?
      ensures forall row :: row in fetch(q, fy).value ==> row.quarter == Some(q) && row.fiscalYear == Some(fy)
    {
      assert fetch(q, fy) == QuarterRows(scrip, q, fy, configs, adapter);
      FetchQuarterFacts(scrip, q, fy, configs, adapter);
    }
  }

  function Prepend(rows: seq<Record>, r: Result<seq<Record>, CalendarError>): Result<seq<Record>, CalendarError> {
    match r
    case Failure(e) => Failure(e)
    case Success(rest) => Success(rows + rest)
  }

  lemma PrependPrepend(a: seq<Record>, b: seq<Record>, r: Result<seq<Record>, CalendarError>)
    ensures Prepend(a, Prepend(b, r)) == Prepend(a + b, r)
  {
    if r.Success? {
      assert a + (b + r.value) == (a + b) + r.value;
    }
  }

  lemma PrependNothing(r: Result<seq<Record>, CalendarError>)
    ensures Prepend([], r) == r
  {
    if r.Success? {
      assert [] + r.value == r.value;
    }
  }

  /** The per-quarter results for a list of quarters, concatenated in order; the first failing
      quarter's error ends it. */
  function FetchAll(quarters: seq<(int, int)>, fetch: QuarterFetch): Result<seq<Record>, CalendarError> {
    if quarters == [] then Success([])
    else match fetch(quarters[0].0, quarters[0].1)
      case Failure(e) => Failure(e)
      case Success(rows) => Prepend(rows, FetchAll(quarters[1..], fetch))
  }

  /**
   * `get_range_quarters_data` as a value, for any per-quarter fetch. A start past the end
   * yields an empty result, not an error. The quarter fetch of bse_core.py only succeeds on a
   * quarter in 1..4 (`QuarterRowsValid`), so the walk never continues from an invalid quarter;
   * the explicit check keeps the walk total for an arbitrary `fetch` and never fires for
   * `QuarterFetcher` (`RangeInvalidStart`).
   */
  function RangeSpec(q: int, fy: int, endQ: int, endFy: int, fetch: QuarterFetch): (r: Result<seq<Record>, CalendarError>)
    ensures !NotPast(q, fy, endQ, endFy) ==> r == Success([])
    decreases 4 * endFy + 5 - (4 * fy + q)
  {
    if !NotPast(q, fy, endQ, endFy) then Success([])
    else match fetch(q, fy)
      case Failure(e) => Failure(e)
      case Success(rows) =>
        if !(1 <= q <= 4) then Failure(InvalidQuarter)
        else
          var (nq, nfy) := Advance(q, fy);
          Prepend(rows, RangeSpec(nq, nfy, endQ, endFy, fetch))
  }

  /** With the real quarter fetch an invalid start quarter in a non-empty range is an error. */
  lemma RangeInvalidStart(scrip: string, q: int, fy: int, endQ: int, endFy: int, configs: seq<Config>, adapter: Adapter)
    requires NotPast(q, fy, endQ, endFy) && !(1 <= q <= 4)
    ensures RangeSpec(q, fy, endQ, endFy, QuarterFetcher(scrip, configs, adapter)) == Failure(InvalidQuarter)
  {
    assert QuarterFetcher(scrip, configs, adapter)(q, fy) == QuarterRows(scrip, q, fy, configs, adapter);
  }

  /** The range walk is the quarter fetch over the visited quarters, concatenated in order. */
  lemma {:induction false} RangeIsFetchAll(q: int, fy: int, endQ: int, endFy: int, fetch: QuarterFetch)
    requires 1 <= q <= 4
    ensures RangeSpec(q, fy, endQ, endFy, fetch) == FetchAll(Visited(q, fy, endQ, endFy), fetch)
    decreases 4 * endFy + 5 - (4 * fy + q)
  {
    if NotPast(q, fy, endQ, endFy) {
      var (nq, nfy) := Advance(q, fy);
      var v := Visited(q, fy, endQ, endFy);
      assert v[0] == (q, fy) && v[1..] == Visited(nq, nfy, endQ, endFy);
      if fetch(q, fy).Success? {
        RangeIsFetchAll(nq, nfy, endQ, endFy, fetch);
      }
    }
  }

  /** Every row of a successful multi-quarter fetch is stamped with one of the quarters fetched. */
  lemma {:induction false} FetchAllStamps(quarters: seq<(int, int)>, fetch: QuarterFetch)
    requires StampsItsQuarter(fetch)
    ensures var r := FetchAll(quarters, fetch);
      r.Success? ==> forall row :: row in r.value ==>
        exists i :: 0 <= i < |quarters| && row.quarter == Some(quarters[i].0) && row.fiscalYear == Some(quarters[i].1)
  {
    if quarters != [] {
      FetchAllStamps(quarters[1..], fetch);
      var r := FetchAll(quarters, fetch);
      if r.Success? {
        var rows := fetch(quarters[0].0, quarters[0].1).value;
        var rest := FetchAll(quarters[1..], fetch).value;
        assert r.value == rows + rest;
        forall row | row in r.value
          ensures exists i :: 0 <= i < |quarters| && row.quarter == Some(quarters[i].0) && row.fiscalYear == Some(quarters[i].1)
        {
          if row in rows {
            var q0, fy0 := quarters[0].0, quarters[0].1;
            assert fetch(q0, fy0).Success? && row in fetch(q0, fy0).value;
            assert row.quarter == Some(quarters[0].0) && row.fiscalYear == Some(quarters[0].1);
          } else {
            assert row in rest;
            var i :| 0 <= i < |quarters[1..]| && row.quarter == Some(quarters[1..][i].0) && row.fiscalYear == Some(quarters[1..][i].1);
            assert quarters[1..][i] == quarters[i + 1];
          }
        }
      }
    }
  }

  /** Every row of a successful range fetch is stamped with a quarter between start and end. */
  lemma RangeRowsInRange(scrip: string, q: int, fy: int, endQ: int, endFy: int, configs: seq<Config>, adapter: Adapter)
    requires 1 <= q <= 4
    ensures var r := RangeSpec(q, fy, endQ, endFy, QuarterFetcher(scrip, configs, adapter));
      r.Success? ==> forall row :: row in r.value ==>
        exists rq, rfy :: (row.quarter == Some(rq) && row.fiscalYear == Some(rfy) &&
          4 * fy + q <= 4 * rfy + rq && NotPast(rq, rfy, endQ, endFy) && 1 <= rq <= 4)
  {
    var fetch := QuarterFetcher(scrip, configs, adapter);
    RangeIsFetchAll(q, fy, endQ, endFy, fetch);
    var v := Visited(q, fy, endQ, endFy);
    QuarterFetcherStamps(scrip, configs, adapter);
    FetchAllStamps(v, fetch);
    var r := RangeSpec(q, fy, endQ, endFy, fetch);
    if r.Success? {
      forall row | row in r.value
        ensures exists rq, rfy :: (row.quarter == Some(rq) && row.fiscalYear == Some(rfy) &&
          4 * fy + q <= 4 * rfy + rq && NotPast(rq, rfy, endQ, endFy) && 1 <= rq <= 4)
      {
        var i :| 0 <= i < |v| && row.quarter == Some(v[i].0) && row.fiscalYear == Some(v[i].1);
        assert 4 * v[i].1 + v[i].0 == 4 * fy + q + i;
      }
    }
  }

  /** One step of the walk from a quarter in the range: its failure ends the walk, and its rows
      go after those already gathered and before those of the quarters after it. */
  lemma RangeStep(q: int, fy: int, endQ: int, endFy: int, fetch: QuarterFetch, dfs: seq<Record>)
    requires NotPast(q, fy, endQ, endFy)
    ensures fetch(q, fy).Failure? ==> Prepend(dfs, RangeSpec(q, fy, endQ, endFy, fetch)) == Failure(fetch(q, fy).error)
    ensures fetch(q, fy).Success? && 1 <= q <= 4 ==>
      Prepend(dfs, RangeSpec(q, fy, endQ, endFy, fetch)) ==
        Prepend(dfs + fetch(q, fy).value, RangeSpec(Advance(q, fy).0, Advance(q, fy).1, endQ, endFy, fetch))
  {
    if fetch(q, fy).Success? && 1 <= q <= 4 {
      PrependPrepend(dfs, fetch(q, fy).value, RangeSpec(Advance(q, fy).0, Advance(q, fy).1, endQ, endFy, fetch));
    }
  }

  /** `get_range_quarters_data`: the while loop over (fy, q) that concatenates each quarter's rows. */
  method FetchRange(scrip: string, startQ: int, startFy: int, endQ: int, endFy: int, configs: seq<Config>, adapter: Adapter)
    returns (r: Result<seq<Record>, CalendarError>)
    ensures r == RangeSpec(startQ, startFy, endQ, endFy, QuarterFetcher(scrip, configs, adapter))
  {
    ghost var fetch := QuarterFetcher(scrip, configs, adapter);
    var dfs: seq<Record> := [];
    var q, fy := startQ, startFy;
    PrependNothing(RangeSpec(q, fy, endQ, endFy, fetch));
    while NotPast(q, fy, endQ, endFy)
      invariant RangeSpec(startQ, startFy, endQ, endFy, fetch) == Prepend(dfs, RangeSpec(q, fy, endQ, endFy, fetch))
      decreases 4 * endFy + 5 - (4 * fy + q)
    {
      var step := FetchRangeStep(scrip, q, fy, endQ, endFy, configs, adapter, dfs);
      if step.Failure? {
        return step;
      }
      dfs := step.value;
      // bse_core.py:138-142
      q, fy := Advance(q, fy).0, Advance(q, fy).1;
    }
    assert dfs + [] == dfs;
    return Success(dfs);
  }

  /** One pass of `get_range_quarters_data`'s loop (bse_core.py:133-137): fetch the quarter and
      append its rows when there are any. A failure is what the rest of the walk yields; a
      success leaves the rows gathered so far in front of the walk from the next quarter. */
  method FetchRangeStep(scrip: string, q: int, fy: int, endQ: int, endFy: int, configs: seq<Config>,
                        adapter: Adapter, dfs: seq<Record>)
    returns (r: Result<seq<Record>, CalendarError>)
    requires NotPast(q, fy, endQ, endFy)
    ensures var fetch := QuarterFetcher(scrip, configs, adapter);
      r.Failure? ==> Prepend(dfs, RangeSpec(q, fy, endQ, endFy, fetch)) == r
    ensures var fetch := QuarterFetcher(scrip, configs, adapter);
      r.Success? ==> (1 <= q <= 4 &&
        Prepend(dfs, RangeSpec(q, fy, endQ, endFy, fetch)) ==
          Prepend(r.value, RangeSpec(Advance(q, fy).0, Advance(q, fy).1, endQ, endFy, fetch)))
  {
    ghost var fetch := QuarterFetcher(scrip, configs, adapter);
    var df := FetchQuarter(scrip, q, fy, configs, adapter);
    assert df == fetch(q, fy);
    QuarterRowsValid(scrip, q, fy, configs, adapter);
    RangeStep(q, fy, endQ, endFy, fetch, dfs);
    if df.Failure? {
      return Failure(df.error);
    }
    if df.value != [] {
      r := Success(dfs + df.value);
    } else {
      assert dfs + df.value == dfs;
      r := Success(dfs);
    }
  }

  /** A successful quarter fetch names a valid quarter. */
  lemma QuarterRowsValid(scrip: string, q: int, fy: int, configs: seq<Config>, adapter: Adapter)
    ensures QuarterRows(scrip, q, fy, configs, adapter).Success? ==> 1 <= q <= 4
  {
  }
}
