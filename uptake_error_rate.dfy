/** The Uptake Telemetry error-rate check
    (`checks/remotesettings/uptake_error_rate.py`). Rows of reported events
    are grouped by period, source, version and status; for each period and
    source the share of error statuses among all events (ignored ones
    included in the total) is compared with a threshold, and every source
    whose worst period exceeds it is reported. The rows are an input. */
module UptakeErrorRate {
  import opened Common
  import opened OrderedDict

  const EXPOSED_PARAMETERS: seq<string> := ["max_error_percentage", "min_total_events", "ignore_status", "ignore_versions"]

  /** The default of `min_total_events`. */
  const DEFAULT_MIN_TOTAL_EVENTS: int := 1000

  // ---------------------------------------------------------------------------
  // Ignore patterns

  /** `(source, status, version)`; `*` stands for any. */
  type Pattern = (string, string, string)

  /** `parse_ignore_status`: `status`, `status@version`, a source (a name with
      `/` or `-`) optionally followed by `:status`. Unpacking a split with
      more than two parts fails. */
  function ParseIgnoreStatus(ign: string): Result<Pattern> {
    var at := Split(ign, '@');
    if '@' in ign && |at| != 2 then Err(ValueError("too many values to unpack (expected 2)"))
    else
      var status0 := if '@' in ign then at[0] else ign;
      var version := if '@' in ign then at[1] else "*";
      var source1 := if '/' in status0 || '-' in status0 then status0 else "*";
      var status1 := if '/' in status0 || '-' in status0 then "*" else status0;
      var colon := Split(source1, ':');
      if ':' in source1 && |colon| != 2 then Err(ValueError("too many values to unpack (expected 2)"))
      else if ':' in source1 then Ok((colon[0], colon[1], version))
      else Ok((source1, status1, version))
  }

  /** A plain status name ignores that status for every source and version. */
  lemma ParseStatus(s: string)
    requires '@' !in s && '/' !in s && '-' !in s
    ensures ParseIgnoreStatus(s) == Ok(("*", s, "*"))
  {
  }

  /** `status@version` ignores that status on that version only. */
  lemma ParseStatusAtVersion(s: string, v: string)
    requires '@' !in s && '@' !in v && '/' !in s && '-' !in s
    ensures ParseIgnoreStatus(s + "@" + v) == Ok(("*", s, v))
  {
    SplitAt(s, v, '@');
    SplitNoSep(v, '@');
    assert '@' in s + "@" + v by { assert (s + "@" + v)[|s|] == '@'; }
  }

  /** A name with `/` or `-` is a source, all of whose statuses are ignored. */
  lemma ParseSource(s: string)
    requires '@' !in s && ':' !in s && ('/' in s || '-' in s)
    ensures ParseIgnoreStatus(s) == Ok((s, "*", "*"))
  {
  }

  /** `source:status` ignores one status of one source. */
  lemma ParseSourceStatus(src: string, st: string)
    requires '@' !in src && '@' !in st && ':' !in src && ':' !in st && '/' in src
    ensures ParseIgnoreStatus(src + ":" + st) == Ok((src, st, "*"))
  {
    var s := src + ":" + st;
    assert forall k :: 0 <= k < |s| ==> s[k] != '@';
    assert '/' in s by {
      var k :| 0 <= k < |src| && src[k] == '/';
      assert s[k] == '/';
    }
    assert ':' in s by { assert s[|src|] == ':'; }
    SplitAt(src, st, ':');
    SplitNoSep(st, ':');
  }

  /** `ignore_status` parsed in order, then one `("*", "*", str(v))` per
      ignored version. */
  /** Each `ignore_status` entry parsed on its own. */
  function ParsedStatuses(ignoreStatus: seq<string>): (r: seq<Result<Pattern>>)
    ensures |r| == |ignoreStatus| && forall i :: 0 <= i < |r| ==> r[i] == ParseIgnoreStatus(ignoreStatus[i])
  {
    seq(|ignoreStatus|, i requires 0 <= i < |ignoreStatus| => ParseIgnoreStatus(ignoreStatus[i]))
  }

  function IgnoredStatuses(ignoreStatus: seq<string>, ignoreVersions: seq<int>): Result<seq<Pattern>> {
    match Gather(ParsedStatuses(ignoreStatus))
    case Err(e) => Err(e)
    case Ok(ps) => Ok(ps + seq(|ignoreVersions|, i requires 0 <= i < |ignoreVersions| => ("*", "*", IntToString(ignoreVersions[i]))))
  }

  lemma IgnoredStatusesSpec(ignoreStatus: seq<string>, ignoreVersions: seq<int>)
    ensures var r := IgnoredStatuses(ignoreStatus, ignoreVersions);
      && (r.Ok? <==> forall i :: 0 <= i < |ignoreStatus| ==> ParseIgnoreStatus(ignoreStatus[i]).Ok?)
      && (r.Ok? ==>
            && |r.value| == |ignoreStatus| + |ignoreVersions|
            && (forall i :: 0 <= i < |ignoreStatus| ==> Ok(r.value[i]) == ParseIgnoreStatus(ignoreStatus[i]))
            && (forall j :: 0 <= j < |ignoreVersions| ==>
                  r.value[|ignoreStatus| + j] == ("*", "*", IntToString(ignoreVersions[j]))))
  {
    var rs := seq(|ignoreStatus|, i requires 0 <= i < |ignoreStatus| => ParseIgnoreStatus(ignoreStatus[i]));
    assert forall i :: 0 <= i < |ignoreStatus| ==> rs[i] == ParseIgnoreStatus(ignoreStatus[i]);
    GatherSpec(rs);
  }

  /** Whether the events of `status` on `version` of `source` are ignored:
      a pattern names them exactly or with `*` for the source, the version,
      or both, or names only the version. A `(source, *, *)` pattern is not
      one of these forms. */
  predicate IsIgnored(pats: seq<Pattern>, source: string, status: string, version: string) {
    || (source, status, version) in pats
    || (source, status, "*") in pats
    || ("*", status, version) in pats
    || (source, "*", version) in pats
    || ("*", status, "*") in pats
    || ("*", "*", version) in pats
  }

  /** Adding a `(source, *, *)` pattern ignores nothing more. */
  lemma SourceOnlyPatternIgnoresNothing(pats: seq<Pattern>, src: string, source: string, status: string, version: string)
    requires status != "*" && version != "*"
    ensures IsIgnored(pats + [(src, "*", "*")], source, status, version) == IsIgnored(pats, source, status, version)
  {
    var p := (src, "*", "*");
    assert forall q :: q in pats + [p] <==> q in pats || q == p;
  }

  // ---------------------------------------------------------------------------
  // Grouping the rows

  datatype UptakeRow = UptakeRow(minTimestamp: nat, maxTimestamp: nat, channel: string,
                                 source: string, version: string, status: string, total: int)

  type Period = (nat, nat)
  type Totals = Dict<string, int>
  type Versions = Dict<string, Totals>
  type Sources = Dict<string, Versions>
  type Periods = Dict<Period, Sources>

  /** Whether a row passes the channel filter. */
  predicate UsesRow(row: UptakeRow, channels: seq<string>) {
    |channels| == 0 || ToLower(row.channel) in channels
  }

  /** One row into `periods`: its period is created if missing, and its total
      is stored (replacing an earlier one) only when its source is listed. */
  function Record(p: Periods, row: UptakeRow, sources: seq<string>): Periods {
    var period := (row.minTimestamp, row.maxTimestamp);
    var p1 := if period in Keys(p) then p else Put(p, period, []);
    if |sources| == 0 || row.source in sources then
      var bySource := GetOr(p1, period, []);
      var byVersion := GetOr(bySource, row.source, []);
      var byStatus := GetOr(byVersion, row.version, []);
      Put(p1, period, Put(bySource, row.source, Put(byVersion, row.version, Put(byStatus, row.status, row.total))))
    else p1
  }

  function RecordRows(rows: seq<UptakeRow>, channels: seq<string>, sources: seq<string>): Periods
    decreases |rows|
  {
    if rows == [] then []
    else
      var p := RecordRows(rows[..|rows| - 1], channels, sources);
      var row := rows[|rows| - 1];
      if UsesRow(row, channels) then Record(p, row, sources) else p
  }

  /** The total stored for a status, if any. */
  function Lookup(p: Periods, period: Period, source: string, version: string, status: string): Option<int> {
    Get(GetOr(GetOr(GetOr(p, period, []), source, []), version, []), status)
  }

  /** A row filtered out by channel changes nothing. */
  lemma RecordSkipsOtherChannels(rows: seq<UptakeRow>, row: UptakeRow, channels: seq<string>, sources: seq<string>)
    requires !UsesRow(row, channels)
    ensures RecordRows(rows + [row], channels, sources) == RecordRows(rows, channels, sources)
  {
    assert (rows + [row])[..|rows|] == rows;
  }

  /** The periods are exactly those of the rows that pass the channel filter,
      whether or not their source is listed. */
  lemma {:induction false} RecordedPeriods(rows: seq<UptakeRow>, channels: seq<string>, sources: seq<string>, period: Period)
    ensures period in Keys(RecordRows(rows, channels, sources)) <==>
      exists i :: 0 <= i < |rows| && UsesRow(rows[i], channels) && (rows[i].minTimestamp, rows[i].maxTimestamp) == period
    decreases |rows|
  {
    if rows != [] {
      var init := rows[..|rows| - 1];
      RecordedPeriods(init, channels, sources, period);
      assert forall i :: 0 <= i < |init| ==> init[i] == rows[i];
    }
  }

  /** Every source recorded under any period is one of `sources`. */
  predicate OnlyListedSources(p: Periods, sources: seq<string>) {
    forall q, src :: q in p && src in Keys(q.1) ==> src in sources
  }

  /** Recording one row keeps the recorded sources among the listed ones. */
  lemma RecordKeepsListedSources(p: Periods, row: UptakeRow, sources: seq<string>)
    requires |sources| > 0 && OnlyListedSources(p, sources)
    ensures OnlyListedSources(Record(p, row, sources), sources)
  {
    var period := (row.minTimestamp, row.maxTimestamp);
    var p1 := if period in Keys(p) then p else Put(p, period, []);
    assert Keys<string, Versions>([]) == [];
    forall q | q in p1 ensures q in p || q == (period, []) {
      if period !in Keys(p) {
        PutMember(p, period, [], q);
      }
    }
    assert OnlyListedSources(p1, sources);
    if row.source in sources {
      var bySource := GetOr(p1, period, []);
      var byVersion := GetOr(bySource, row.source, []);
      var byStatus := GetOr(byVersion, row.version, []);
      var nb := Put(bySource, row.source, Put(byVersion, row.version, Put(byStatus, row.status, row.total)));
      assert (period, bySource) in p1;
      assert forall src :: src in Keys(nb) ==> src in sources;
      var p2 := Put(p1, period, nb);
      forall q | q in p2 ensures q in p1 || q == (period, nb) {
        PutMember(p1, period, nb, q);
      }
      assert Record(p, row, sources) == p2;
    } else {
      assert Record(p, row, sources) == p1;
    }
  }

  /** When sources are listed, only listed sources are recorded. */
  lemma {:induction false} RecordedSources(rows: seq<UptakeRow>, channels: seq<string>, sources: seq<string>)
    requires |sources| > 0
    ensures forall q, src :: q in RecordRows(rows, channels, sources) && src in Keys(q.1) ==> src in sources
    decreases |rows|
  {
    if rows != [] {
      var init := rows[..|rows| - 1];
      RecordedSources(init, channels, sources);
      var row := rows[|rows| - 1];
      if UsesRow(row, channels) {
        RecordKeepsListedSources(RecordRows(init, channels, sources), row, sources);
      }
    }
  }

  /** A later row for the same period, source, version and status replaces
      the earlier total. */
  lemma RecordLastWins(rows: seq<UptakeRow>, row: UptakeRow, channels: seq<string>, sources: seq<string>)
    requires UsesRow(row, channels) && (|sources| == 0 || row.source in sources)
    ensures Lookup(RecordRows(rows + [row], channels, sources), (row.minTimestamp, row.maxTimestamp),
                   row.source, row.version, row.status) == Some(row.total)
  {
    assert (rows + [row])[..|rows|] == rows;
    var p := RecordRows(rows, channels, sources);
    var period := (row.minTimestamp, row.maxTimestamp);
    var p1 := if period in Keys(p) then p else Put(p, period, []);
    var bySource := GetOr(p1, period, []);
    var byVersion := GetOr(bySource, row.source, []);
    var byStatus := GetOr(byVersion, row.version, []);
    var nv := Put(byVersion, row.version, Put(byStatus, row.status, row.total));
    var nb := Put(bySource, row.source, nv);
    GetPut(p1, period, nb, period);
    GetPut(bySource, row.source, nv, row.source);
    GetPut(byVersion, row.version, Put(byStatus, row.status, row.total), row.version);
    GetPut(byStatus, row.status, row.total, row.status);
  }

  // ---------------------------------------------------------------------------
  // Per period and source

  /** The running totals of one source in one period: all events, and per
      status the events counted and those ignored. */
  datatype Tally = Tally(total: int, statuses: Totals, ignored: Totals)

  function TallyStep(t: Tally, pats: seq<Pattern>, source: string, version: string, status: string, n: int): Tally {
    if IsIgnored(pats, source, status, version) then Tally(t.total + n, t.statuses, AddTo(t.ignored, status, n))
    else Tally(t.total + n, AddTo(t.statuses, status, n), t.ignored)
  }

  function TallyStatuses(t: Tally, pats: seq<Pattern>, source: string, version: string, sts: Totals): Tally
    decreases |sts|
  {
    if sts == [] then t
    else
      var last := sts[|sts| - 1];
      TallyStep(TallyStatuses(t, pats, source, version, sts[..|sts| - 1]), pats, source, version, last.0, last.1)
  }

  function TallyVersions(pats: seq<Pattern>, source: string, vs: Versions): Tally
    decreases |vs|
  {
    if vs == [] then Tally(0, [], [])
    else
      var last := vs[|vs| - 1];
      TallyStatuses(TallyVersions(pats, source, vs[..|vs| - 1]), pats, source, last.0, last.1)
  }

  /** Every event is counted once: as a status or as ignored. */
  predicate Balanced(t: Tally) {
    t.total == SumValues(t.statuses) + SumValues(t.ignored)
  }

  lemma {:induction false} TallyStatusesBalanced(t: Tally, pats: seq<Pattern>, source: string, version: string, sts: Totals)
    requires Balanced(t)
    ensures Balanced(TallyStatuses(t, pats, source, version, sts))
    decreases |sts|
  {
    if sts != [] {
      var last := sts[|sts| - 1];
      var t0 := TallyStatuses(t, pats, source, version, sts[..|sts| - 1]);
      TallyStatusesBalanced(t, pats, source, version, sts[..|sts| - 1]);
      SumAddTo(t0.ignored, last.0, last.1);
      SumAddTo(t0.statuses, last.0, last.1);
    }
  }

  /** The total of a source is the sum of counted and ignored events. */
  lemma {:induction false} TallyBalanced(pats: seq<Pattern>, source: string, vs: Versions)
    ensures Balanced(TallyVersions(pats, source, vs))
    decreases |vs|
  {
    if vs != [] {
      var last := vs[|vs| - 1];
      TallyBalanced(pats, source, vs[..|vs| - 1]);
      TallyStatusesBalanced(TallyVersions(pats, source, vs[..|vs| - 1]), pats, source, last.0, last.1);
    }
  }

  /** The events of the statuses ending in `_error`. */
  function ErrorTotal(statuses: Totals): int {
    if statuses == [] then 0
    else (if EndsWith(statuses[0].0, "_error") then statuses[0].1 else 0) + ErrorTotal(statuses[1..])
  }

  // ---------------------------------------------------------------------------
  // Sorting by descending value

  /** Inserts `x` after every element whose key is not smaller. */
  function InsertDesc<T>(x: T, s: seq<T>, key: T -> real): (r: seq<T>)
    ensures multiset(r) == multiset(s) + multiset{x}
  {
    if s == [] then [x]
    else if key(s[0]) < key(x) then [x] + s
    else
      assert s == [s[0]] + s[1..];
      [s[0]] + InsertDesc(x, s[1..], key)
  }

  predicate NonIncreasing<T>(s: seq<T>, key: T -> real) {
    forall i, j :: 0 <= i < j < |s| ==> key(s[i]) >= key(s[j])
  }

  lemma {:induction false} InsertDescSorted<T>(x: T, s: seq<T>, key: T -> real)
    requires NonIncreasing(s, key)
    ensures NonIncreasing(InsertDesc(x, s, key), key)
  {
    if s != [] && key(s[0]) >= key(x) {
      InsertDescSorted(x, s[1..], key);
      var r := InsertDesc(x, s[1..], key);
      assert forall y :: y in r ==> key(y) <= key(s[0]) by {
        forall y | y in r ensures key(y) <= key(s[0]) {
          assert y in multiset(r);
          if y != x {
            assert y in multiset(s[1..]);
            var k :| 1 <= k < |s| && s[k] == y;
          }
        }
      }
      forall i, j | 0 <= i < j < |[s[0]] + r| ensures key(([s[0]] + r)[i]) >= key(([s[0]] + r)[j]) {
        if i == 0 {
          assert ([s[0]] + r)[j] in r;
        }
      }
    }
  }

  /** `sorted(items, key=key, reverse=True)`, as an insertion sort. */
  function SortDesc<T>(s: seq<T>, key: T -> real): (r: seq<T>)
    decreases |s|
  {
    if s == [] then [] else InsertDesc(s[|s| - 1], SortDesc(s[..|s| - 1], key), key)
  }

  /** Sorting rearranges the items, by non-increasing key. */
  lemma {:induction false} SortDescSpec<T>(s: seq<T>, key: T -> real)
    ensures multiset(SortDesc(s, key)) == multiset(s)
    ensures NonIncreasing(SortDesc(s, key), key)
    decreases |s|
  {
    if s != [] {
      var init := s[..|s| - 1];
      SortDescSpec(init, key);
      InsertDescSorted(s[|s| - 1], SortDesc(init, key), key);
      assert s == init + [s[|s| - 1]];
    }
  }

  /** `sort_dict_desc` on status totals (by total). */
  function SortTotals(d: Totals): Totals {
    SortDesc(d, (p: (string, int)) => p.1 as real)
  }

  /** `sort_dict_desc` on reported sources (by error rate). */
  function SortReports(d: Dict<string, SourceReport>): Dict<string, SourceReport> {
    SortDesc(d, (p: (string, SourceReport)) => p.1.errorRate)
  }

  // ---------------------------------------------------------------------------
  // Error rates

  datatype SourceReport = SourceReport(errorRate: real, statuses: Totals, ignored: Totals,
                                       minTimestamp: nat, maxTimestamp: nat)

  /** The reported sources so far and the range of the rates computed. */
  datatype RateState = RateState(errorRates: Dict<string, SourceReport>, minRate: Option<real>, maxRate: Option<real>)

  datatype UptakeParams = UptakeParams(
    maxErrorPercentage: real, minTotalEvents: int, sources: seq<string>, channels: seq<string>,
    ignoreStatus: seq<string>, ignoreVersions: seq<int>)

  /** The rate of a source reported so far, `0.0` when none. */
  function OtherRate(rates: Dict<string, SourceReport>, source: string): real {
    match Get(rates, source)
    case Some(rep) => rep.errorRate
    case None => 0.0
  }

  /** One source of one period: skipped below `min_total_events`; otherwise
      its rate widens the rate range, and it is reported when it reaches the
      threshold and is not lower than the rate reported for it before. */
  function SourceStep(st: RateState, pats: seq<Pattern>, params: UptakeParams, period: Period,
                      source: string, vs: Versions): Result<RateState>
  {
    var t := TallyVersions(pats, source, vs);
    if t.total < params.minTotalEvents then Ok(st)
    else if t.total == 0 then Err(ZeroDivisionError)
    else
      var rate := (ErrorTotal(t.statuses) * 100) as real / t.total as real;
      var minRate := if st.minRate.None? || rate < st.minRate.value then rate else st.minRate.value;
      var maxRate := if st.maxRate.None? || rate > st.maxRate.value then rate else st.maxRate.value;
      if rate < params.maxErrorPercentage || rate < OtherRate(st.errorRates, source) then
        Ok(RateState(st.errorRates, Some(minRate), Some(maxRate)))
      else
        var report := SourceReport(rate, SortTotals(t.statuses), SortTotals(t.ignored), period.0, period.1);
        Ok(RateState(Put(st.errorRates, source, report), Some(minRate), Some(maxRate)))
  }

  function SourcesStep(st: Result<RateState>, pats: seq<Pattern>, params: UptakeParams, period: Period,
                       srcs: Sources): Result<RateState>
    decreases |srcs|
  {
    if srcs == [] then st
    else
      match SourcesStep(st, pats, params, period, srcs[..|srcs| - 1])
      case Err(e) => Err(e)
      case Ok(s) => SourceStep(s, pats, params, period, srcs[|srcs| - 1].0, srcs[|srcs| - 1].1)
  }

  function Rates(pats: seq<Pattern>, params: UptakeParams, ps: Periods): Result<RateState>
    decreases |ps|
  {
    if ps == [] then Ok(RateState([], None, None))
    else SourcesStep(Rates(pats, params, ps[..|ps| - 1]), pats, params, ps[|ps| - 1].0, ps[|ps| - 1].1)
  }

  /** What the rate computation keeps: both ends of the rate range or
      neither, the lower not above the upper, and every reported source at
      or above the threshold. */
  predicate RateInv(st: RateState, params: UptakeParams) {
    && (st.minRate.Some? <==> st.maxRate.Some?)
    && (st.minRate.Some? ==> st.minRate.value <= st.maxRate.value)
    && forall i :: 0 <= i < |st.errorRates| ==> st.errorRates[i].1.errorRate >= params.maxErrorPercentage
  }

  lemma SourceStepInv(st: RateState, pats: seq<Pattern>, params: UptakeParams, period: Period, source: string, vs: Versions)
    requires RateInv(st, params)
    ensures var r := SourceStep(st, pats, params, period, source, vs);
      r.Ok? ==> RateInv(r.value, params)
  {
    var r := SourceStep(st, pats, params, period, source, vs);
    if r.Ok? && r.value.errorRates != st.errorRates {
      var t := TallyVersions(pats, source, vs);
      var rate := (ErrorTotal(t.statuses) * 100) as real / t.total as real;
      var report := SourceReport(rate, SortTotals(t.statuses), SortTotals(t.ignored), period.0, period.1);
      forall i | 0 <= i < |r.value.errorRates| ensures r.value.errorRates[i].1.errorRate >= params.maxErrorPercentage {
        PutMember(st.errorRates, source, report, r.value.errorRates[i]);
      }
    }
  }

  /** A source below `min_total_events` changes nothing, the rate range
      included. */
  lemma SourceStepSkipsSmall(st: RateState, pats: seq<Pattern>, params: UptakeParams, period: Period, source: string, vs: Versions)
    requires TallyVersions(pats, source, vs).total < params.minTotalEvents
    ensures SourceStep(st, pats, params, period, source, vs) == Ok(st)
  {
  }

  /** A reported rate never goes down: a source is replaced only by a rate
      at least as high, and the other sources keep theirs. */
  lemma SourceStepMonotone(st: RateState, pats: seq<Pattern>, params: UptakeParams, period: Period,
                           source: string, vs: Versions, k: string)
    requires Get(st.errorRates, k).Some?
    ensures var r := SourceStep(st, pats, params, period, source, vs);
      r.Ok? ==> Get(r.value.errorRates, k).Some? && Get(r.value.errorRates, k).value.errorRate >= Get(st.errorRates, k).value.errorRate
  {
    var r := SourceStep(st, pats, params, period, source, vs);
    if r.Ok? && r.value.errorRates != st.errorRates {
      var t := TallyVersions(pats, source, vs);
      var rate := (ErrorTotal(t.statuses) * 100) as real / t.total as real;
      var report := SourceReport(rate, SortTotals(t.statuses), SortTotals(t.ignored), period.0, period.1);
      GetPut(st.errorRates, source, report, k);
    }
  }

  lemma {:induction false} SourcesStepInv(st: Result<RateState>, pats: seq<Pattern>, params: UptakeParams, period: Period, srcs: Sources)
    requires st.Ok? ==> RateInv(st.value, params)
    ensures var r := SourcesStep(st, pats, params, period, srcs);
      r.Ok? ==> RateInv(r.value, params)
    decreases |srcs|
  {
    if srcs != [] {
      SourcesStepInv(st, pats, params, period, srcs[..|srcs| - 1]);
      var s := SourcesStep(st, pats, params, period, srcs[..|srcs| - 1]);
      if s.Ok? {
        SourceStepInv(s.value, pats, params, period, srcs[|srcs| - 1].0, srcs[|srcs| - 1].1);
      }
    }
  }

  lemma {:induction false} RatesInv(pats: seq<Pattern>, params: UptakeParams, ps: Periods)
    ensures Rates(pats, params, ps).Ok? ==> RateInv(Rates(pats, params, ps).value, params)
    decreases |ps|
  {
    if ps != [] {
      RatesInv(pats, params, ps[..|ps| - 1]);
      SourcesStepInv(Rates(pats, params, ps[..|ps| - 1]), pats, params, ps[|ps| - 1].0, ps[|ps| - 1].1);
    }
  }

  // ---------------------------------------------------------------------------
  // Which sources are reported, and with which rate

  /** One source of one period, as the two loops visit it. */
  datatype Reading = Reading(period: Period, source: string, versions: Versions)

  function PeriodReadings(period: Period, srcs: Sources): (r: seq<Reading>)
    ensures |r| == |srcs|
    ensures forall j :: 0 <= j < |srcs| ==> r[j] == Reading(period, srcs[j].0, srcs[j].1)
  {
    seq(|srcs|, j requires 0 <= j < |srcs| => Reading(period, srcs[j].0, srcs[j].1))
  }

  /** Every source of every period, period after period. */
  function Readings(ps: Periods): seq<Reading>
    decreases |ps|
  {
    if ps == [] then []
    else Readings(ps[..|ps| - 1]) + PeriodReadings(ps[|ps| - 1].0, ps[|ps| - 1].1)
  }

  /** Every source of every period is a reading. */
  lemma {:induction false} ReadingsHas(ps: Periods, i: nat, j: nat)
    requires i < |ps| && j < |ps[i].1|
    ensures Reading(ps[i].0, ps[i].1[j].0, ps[i].1[j].1) in Readings(ps)
    decreases |ps|
  {
    var n := |ps| - 1;
    if i < n {
      ReadingsHas(ps[..n], i, j);
    } else {
      assert PeriodReadings(ps[n].0, ps[n].1)[j] == Reading(ps[i].0, ps[i].1[j].0, ps[i].1[j].1);
    }
  }

  /** Every reading is a source of a period. */
  lemma {:induction false} ReadingsFrom(ps: Periods, r: Reading)
    requires r in Readings(ps)
    ensures exists i, j :: 0 <= i < |ps| && 0 <= j < |ps[i].1| && r == Reading(ps[i].0, ps[i].1[j].0, ps[i].1[j].1)
    decreases |ps|
  {
    var n := |ps| - 1;
    if r in Readings(ps[..n]) {
      ReadingsFrom(ps[..n], r);
      var i, j :| 0 <= i < n && 0 <= j < |ps[..n][i].1| && r == Reading(ps[..n][i].0, ps[..n][i].1[j].0, ps[..n][i].1[j].1);
      assert ps[..n][i] == ps[i];
    } else {
      var last := PeriodReadings(ps[n].0, ps[n].1);
      var j :| 0 <= j < |last| && last[j] == r;
      assert r == Reading(ps[n].0, ps[n].1[j].0, ps[n].1[j].1);
    }
  }

  /** `SourceStep` over the readings in order, stopping at the first error. */
  function StepAll(st: Result<RateState>, pats: seq<Pattern>, params: UptakeParams, rs: seq<Reading>): Result<RateState>
    decreases |rs|
  {
    if rs == [] then st
    else
      match StepAll(st, pats, params, rs[..|rs| - 1])
      case Err(e) => Err(e)
      case Ok(s) =>
        var r := rs[|rs| - 1];
        SourceStep(s, pats, params, r.period, r.source, r.versions)
  }

  lemma {:induction false} StepAllAppend(st: Result<RateState>, pats: seq<Pattern>, params: UptakeParams, a: seq<Reading>, b: seq<Reading>)
    ensures StepAll(st, pats, params, a + b) == StepAll(StepAll(st, pats, params, a), pats, params, b)
    decreases |b|
  {
    if b == [] {
      assert a + b == a;
    } else {
      assert (a + b)[..|a + b| - 1] == a + b[..|b| - 1];
      StepAllAppend(st, pats, params, a, b[..|b| - 1]);
    }
  }

  lemma {:induction false} SourcesStepAll(st: Result<RateState>, pats: seq<Pattern>, params: UptakeParams, period: Period, srcs: Sources)
    ensures SourcesStep(st, pats, params, period, srcs) == StepAll(st, pats, params, PeriodReadings(period, srcs))
    decreases |srcs|
  {
    if srcs != [] {
      var n := |srcs| - 1;
      SourcesStepAll(st, pats, params, period, srcs[..n]);
      assert PeriodReadings(period, srcs)[..n] == PeriodReadings(period, srcs[..n]);
    }
  }

  /** The nested loops visit the readings in order. */
  lemma {:induction false} RatesStepAll(pats: seq<Pattern>, params: UptakeParams, ps: Periods)
    ensures Rates(pats, params, ps) == StepAll(Ok(RateState([], None, None)), pats, params, Readings(ps))
    decreases |ps|
  {
    if ps != [] {
      var n := |ps| - 1;
      RatesStepAll(pats, params, ps[..n]);
      SourcesStepAll(Rates(pats, params, ps[..n]), pats, params, ps[n].0, ps[n].1);
      StepAllAppend(Ok(RateState([], None, None)), pats, params, Readings(ps[..n]), PeriodReadings(ps[n].0, ps[n].1));
    }
  }

  /** What the rate computation sees of a reading: its source, whether it has
      at least `min_total_events` events, and its error percentage (`0.0`
      without events). */
  datatype Sample = Sample(source: string, counted: bool, rate: real)

  function SampleOf(pats: seq<Pattern>, params: UptakeParams, r: Reading): Sample {
    var t := TallyVersions(pats, r.source, r.versions);
    Sample(r.source, t.total >= params.minTotalEvents,
           if t.total == 0 then 0.0 else (ErrorTotal(t.statuses) * 100) as real / t.total as real)
  }

  function Samples(pats: seq<Pattern>, params: UptakeParams, rs: seq<Reading>): (ss: seq<Sample>)
    ensures |ss| == |rs|
    ensures forall i :: 0 <= i < |rs| ==> ss[i] == SampleOf(pats, params, rs[i])
  {
    seq(|rs|, i requires 0 <= i < |rs| => SampleOf(pats, params, rs[i]))
  }

  /** A rate that gets its source reported: at the threshold and, since a
      source not reported yet is compared with `0.0`, not negative. */
  predicate Reportable(params: UptakeParams, rate: real) {
    rate >= params.maxErrorPercentage && rate >= 0.0
  }

  /** A counted sample of `source` with a reportable rate. */
  predicate Exceeds(params: UptakeParams, s: Sample, source: string) {
    s.source == source && s.counted && Reportable(params, s.rate)
  }

  /** The highest reportable rate of `source` among the samples, if any. */
  function Worst(params: UptakeParams, ss: seq<Sample>, source: string): Option<real>
    decreases |ss|
  {
    if ss == [] then None
    else
      var w := Worst(params, ss[..|ss| - 1], source);
      var s := ss[|ss| - 1];
      if Exceeds(params, s, source) && (w.None? || s.rate >= w.value) then Some(s.rate) else w
  }

  /** A source has a worst rate iff some counted sample of it is reportable. */
  lemma {:induction false} WorstSome(params: UptakeParams, ss: seq<Sample>, source: string)
    ensures Worst(params, ss, source).Some? <==> exists i :: 0 <= i < |ss| && Exceeds(params, ss[i], source)
    decreases |ss|
  {
    if ss != [] {
      var n := |ss| - 1;
      WorstSome(params, ss[..n], source);
      if exists i :: 0 <= i < |ss| && Exceeds(params, ss[i], source) {
        var i :| 0 <= i < |ss| && Exceeds(params, ss[i], source);
        if i < n {
          assert ss[..n][i] == ss[i];
        }
      }
      if exists i :: 0 <= i < n && Exceeds(params, ss[..n][i], source) {
        var i :| 0 <= i < n && Exceeds(params, ss[..n][i], source);
        assert ss[..n][i] == ss[i];
      }
    }
  }

  /** A worst rate is reportable and is the rate of a counted sample of its
      source. */
  lemma {:induction false} WorstAttained(params: UptakeParams, ss: seq<Sample>, source: string)
    ensures var w := Worst(params, ss, source);
      w.Some? ==> Reportable(params, w.value) && exists i :: 0 <= i < |ss| && Exceeds(params, ss[i], source) && ss[i].rate == w.value
    decreases |ss|
  {
    if ss != [] {
      var n := |ss| - 1;
      WorstAttained(params, ss[..n], source);
      var w0 := Worst(params, ss[..n], source);
      if Worst(params, ss, source) == w0 && w0.Some? {
        var i :| 0 <= i < n && Exceeds(params, ss[..n][i], source) && ss[..n][i].rate == w0.value;
        assert ss[..n][i] == ss[i];
      }
    }
  }

  /** A worst rate bounds the rate of every counted sample of its source. */
  lemma {:induction false} WorstMax(params: UptakeParams, ss: seq<Sample>, source: string)
    ensures var w := Worst(params, ss, source);
      w.Some? ==> forall i :: 0 <= i < |ss| && ss[i].source == source && ss[i].counted ==> ss[i].rate <= w.value
    decreases |ss|
  {
    var w := Worst(params, ss, source);
    if w.Some? {
      var n := |ss| - 1;
      var init := ss[..n];
      WorstMax(params, init, source);
      WorstSome(params, init, source);
      WorstAttained(params, ss, source);
      var w0 := Worst(params, init, source);
      forall i | 0 <= i < |ss| && ss[i].source == source && ss[i].counted
        ensures ss[i].rate <= w.value
      {
        if i < n {
          assert init[i] == ss[i];
          if w0.None? {
            assert !Exceeds(params, init[i], source);
          }
        }
      }
    }
  }

  /** The rate reported for `k`, if any. */
  function ReportedRate(rates: Dict<string, SourceReport>, k: string): Option<real> {
    match Get(rates, k)
    case Some(rep) => Some(rep.errorRate)
    case None => None
  }

  /** The reported sources so far have no duplicate and carry, each, their
      worst rate over the samples so far. */
  ghost predicate Tracks(st: RateState, params: UptakeParams, ss: seq<Sample>) {
    && NoDupKeys(st.errorRates)
    && forall k :: ReportedRate(st.errorRates, k) == Worst(params, ss, k)
  }

  /** One step keeps the rate of one source equal to its worst rate. */
  lemma SourceStepKey(st: RateState, pats: seq<Pattern>, params: UptakeParams, ss: seq<Sample>, r: Reading, k: string)
    requires ReportedRate(st.errorRates, k) == Worst(params, ss, k)
    requires Worst(params, ss, k).Some? ==> Reportable(params, Worst(params, ss, k).value)
    ensures var s := SourceStep(st, pats, params, r.period, r.source, r.versions);
      s.Ok? ==> ReportedRate(s.value.errorRates, k) == Worst(params, ss + [SampleOf(pats, params, r)], k)
  {
    var s := SourceStep(st, pats, params, r.period, r.source, r.versions);
    var x := SampleOf(pats, params, r);
    var w0 := Worst(params, ss, k);
    assert (ss + [x])[..|ss|] == ss;
    assert Worst(params, ss + [x], k) ==
      if Exceeds(params, x, k) && (w0.None? || x.rate >= w0.value) then Some(x.rate) else w0;
    if s.Ok? {
      var t := TallyVersions(pats, r.source, r.versions);
      if t.total >= params.minTotalEvents {
        var rate := (ErrorTotal(t.statuses) * 100) as real / t.total as real;
        assert x.rate == rate;
        if rate >= params.maxErrorPercentage && rate >= OtherRate(st.errorRates, r.source) {
          var report := SourceReport(rate, SortTotals(t.statuses), SortTotals(t.ignored), r.period.0, r.period.1);
          assert s.value.errorRates == Put(st.errorRates, r.source, report);
          GetPut(st.errorRates, r.source, report, k);
        }
      }
    }
  }

  lemma SourceStepTracks(st: RateState, pats: seq<Pattern>, params: UptakeParams, ss: seq<Sample>, r: Reading)
    requires Tracks(st, params, ss)
    ensures var s := SourceStep(st, pats, params, r.period, r.source, r.versions);
      s.Ok? ==> Tracks(s.value, params, ss + [SampleOf(pats, params, r)])
  {
    var s := SourceStep(st, pats, params, r.period, r.source, r.versions);
    if s.Ok? {
      if s.value.errorRates != st.errorRates {
        var t := TallyVersions(pats, r.source, r.versions);
        var rate := (ErrorTotal(t.statuses) * 100) as real / t.total as real;
        var report := SourceReport(rate, SortTotals(t.statuses), SortTotals(t.ignored), r.period.0, r.period.1);
        PutNoDup(st.errorRates, r.source, report);
      }
      forall k ensures ReportedRate(s.value.errorRates, k) == Worst(params, ss + [SampleOf(pats, params, r)], k) {
        WorstAttained(params, ss, k);
        SourceStepKey(st, pats, params, ss, r, k);
      }
    }
  }

  lemma SamplesSnoc(pats: seq<Pattern>, params: UptakeParams, rs: seq<Reading>)
    requires rs != []
    ensures Samples(pats, params, rs) == Samples(pats, params, rs[..|rs| - 1]) + [SampleOf(pats, params, rs[|rs| - 1])]
  {
  }

  lemma {:induction false} StepAllTracks(pats: seq<Pattern>, params: UptakeParams, rs: seq<Reading>)
    ensures var s := StepAll(Ok(RateState([], None, None)), pats, params, rs);
      s.Ok? ==> Tracks(s.value, params, Samples(pats, params, rs))
    decreases |rs|
  {
    if rs != [] {
      var n := |rs| - 1;
      StepAllTracks(pats, params, rs[..n]);
      var s := StepAll(Ok(RateState([], None, None)), pats, params, rs[..n]);
      if s.Ok? {
        SourceStepTracks(s.value, pats, params, Samples(pats, params, rs[..n]), rs[n]);
        SamplesSnoc(pats, params, rs);
      }
    }
  }

  /** After the loops, each source is reported iff some counted sample of it
      reaches the threshold, and with the highest rate of its counted
      samples. */
  lemma RatesReport(pats: seq<Pattern>, params: UptakeParams, ps: Periods)
    ensures var s := Rates(pats, params, ps);
      s.Ok? ==> Tracks(s.value, params, Samples(pats, params, Readings(ps)))
  {
    RatesStepAll(pats, params, ps);
    StepAllTracks(pats, params, Readings(ps));
  }

  // ---------------------------------------------------------------------------
  // The check

  datatype UptakeData = UptakeData(sources: Dict<string, SourceReport>, minRate: Option<real>, maxRate: Option<real>,
                                   minTimestamp: nat, maxTimestamp: nat)

  function MinTimestamp(rows: seq<UptakeRow>): nat
    requires rows != []
  {
    if |rows| == 1 then rows[0].minTimestamp
    else var m := MinTimestamp(rows[1..]); if rows[0].minTimestamp < m then rows[0].minTimestamp else m
  }

  function MaxTimestamp(rows: seq<UptakeRow>): nat
    requires rows != []
  {
    if |rows| == 1 then rows[0].maxTimestamp
    else var m := MaxTimestamp(rows[1..]); if rows[0].maxTimestamp > m then rows[0].maxTimestamp else m
  }

  /** `run` as written: `sort_by_rate` is only assigned inside the loop over
      periods, so when every row is filtered out by channel it is unbound. */
  function RunAsWritten(rows: seq<UptakeRow>, params: UptakeParams): Result<(bool, UptakeData)> {
    if rows == [] then Err(ValueError("min() arg is an empty sequence"))
    else
      match IgnoredStatuses(params.ignoreStatus, params.ignoreVersions)
      case Err(e) => Err(e)
      case Ok(pats) =>
        var periods := RecordRows(rows, params.channels, params.sources);
        match Rates(pats, params, periods)
        case Err(e) => Err(e)
        case Ok(st) =>
          if periods == [] then Err(UnboundLocalError("sort_by_rate"))
          else
            var sorted := SortReports(st.errorRates);
            Ok((|sorted| == 0, UptakeData(sorted, st.minRate, st.maxRate, MinTimestamp(rows), MaxTimestamp(rows))))
  }

  /** `run` with the sorted sources computed once after the loop: without
      any period nothing is reported. */
  function Run(rows: seq<UptakeRow>, params: UptakeParams): Result<(bool, UptakeData)> {
    if rows == [] then Err(ValueError("min() arg is an empty sequence"))
    else
      match IgnoredStatuses(params.ignoreStatus, params.ignoreVersions)
      case Err(e) => Err(e)
      case Ok(pats) =>
        var periods := RecordRows(rows, params.channels, params.sources);
        match Rates(pats, params, periods)
        case Err(e) => Err(e)
        case Ok(st) =>
          var sorted := SortReports(st.errorRates);
          Ok((|sorted| == 0, UptakeData(sorted, st.minRate, st.maxRate, MinTimestamp(rows), MaxTimestamp(rows))))
  }

  /** With rows from another channel only, the check as written fails on the
      unbound `sort_by_rate`. */
  lemma RunAsWrittenUnbound(row: UptakeRow, params: UptakeParams)
    requires params.channels == ["release"] && row.channel == "beta"
    requires params.ignoreStatus == [] && params.ignoreVersions == []
    ensures RunAsWritten([row], params) == Err(UnboundLocalError("sort_by_rate"))
  {
    assert ToLower("beta") == "beta";
    assert [row][..0] == [];
    IgnoredStatusesSpec([], []);
    assert !UsesRow(row, params.channels);
    assert RecordRows([row], params.channels, params.sources) == [];
  }

  /** The check succeeds iff no source is reported; the reported sources are
      the tracked ones sorted by descending rate, each at or above the
      threshold, and the rate range is ordered. */
  lemma RunSpec(rows: seq<UptakeRow>, params: UptakeParams)
    ensures var r := Run(rows, params);
      r.Ok? ==>
        && (r.value.0 <==> r.value.1.sources == [])
        && NonIncreasing(r.value.1.sources, (p: (string, SourceReport)) => p.1.errorRate)
        && (forall i :: 0 <= i < |r.value.1.sources| ==> r.value.1.sources[i].1.errorRate >= params.maxErrorPercentage)
        && (r.value.1.minRate.Some? <==> r.value.1.maxRate.Some?)
        && (r.value.1.minRate.Some? ==> r.value.1.minRate.value <= r.value.1.maxRate.value)
    ensures rows == [] ==> Run(rows, params).Err?
  {
    var r := Run(rows, params);
    if r.Ok? {
      var pats := IgnoredStatuses(params.ignoreStatus, params.ignoreVersions).value;
      var periods := RecordRows(rows, params.channels, params.sources);
      var st := Rates(pats, params, periods).value;
      RatesInv(pats, params, periods);
      var key := (p: (string, SourceReport)) => p.1.errorRate;
      SortDescSpec(st.errorRates, key);
      var sorted := SortReports(st.errorRates);
      forall i | 0 <= i < |sorted| ensures sorted[i].1.errorRate >= params.maxErrorPercentage {
        assert sorted[i] in multiset(st.errorRates);
      }
      if sorted == [] {
        assert |multiset(st.errorRates)| == 0;
      }
    }
  }

  /** Sorting the reports keeps, for each source, its report. */
  lemma SortReportsKeeps(d: Dict<string, SourceReport>)
    requires NoDupKeys(d)
    ensures forall j :: 0 <= j < |SortReports(d)| ==> ReportedRate(d, SortReports(d)[j].0) == Some(SortReports(d)[j].1.errorRate)
    ensures forall k :: ReportedRate(d, k).Some? ==> exists j :: 0 <= j < |SortReports(d)| && SortReports(d)[j].0 == k
  {
    var sorted := SortReports(d);
    SortDescSpec(d, (p: (string, SourceReport)) => p.1.errorRate);
    forall j | 0 <= j < |sorted| ensures ReportedRate(d, sorted[j].0) == Some(sorted[j].1.errorRate) {
      assert sorted[j] in multiset(d);
      var i :| 0 <= i < |d| && d[i] == sorted[j];
      GetAt(d, i);
    }
    forall k | ReportedRate(d, k).Some? ensures exists j :: 0 <= j < |sorted| && sorted[j].0 == k {
      var p := (k, Get(d, k).value);
      assert p in multiset(sorted);
      var j :| 0 <= j < |sorted| && sorted[j] == p;
    }
  }

  /** No counted sample, of any period and source, reaches the threshold. */
  predicate NoneExceeds(params: UptakeParams, ss: seq<Sample>) {
    forall i :: 0 <= i < |ss| && ss[i].counted ==> !Reportable(params, ss[i].rate)
  }

  /** Each source listed is listed with the rate of one of its counted
      samples at the threshold. */
  predicate ListedExceed(sources: Dict<string, SourceReport>, params: UptakeParams, ss: seq<Sample>) {
    forall j :: 0 <= j < |sources| ==>
      exists i :: 0 <= i < |ss| && Exceeds(params, ss[i], sources[j].0) && ss[i].rate == sources[j].1.errorRate
  }

  /** No counted sample of a listed source has a higher rate than listed. */
  predicate ListedWorst(sources: Dict<string, SourceReport>, ss: seq<Sample>) {
    forall j, i :: 0 <= j < |sources| && 0 <= i < |ss| && ss[i].source == sources[j].0 && ss[i].counted ==>
      ss[i].rate <= sources[j].1.errorRate
  }

  /** Every source with a counted sample at the threshold is listed. */
  predicate AllListed(sources: Dict<string, SourceReport>, params: UptakeParams, ss: seq<Sample>) {
    forall i :: 0 <= i < |ss| && ss[i].counted && Reportable(params, ss[i].rate) ==>
      exists j :: 0 <= j < |sources| && sources[j].0 == ss[i].source
  }

  /** A worst rate is the rate of a counted sample of its source at the
      threshold. */
  lemma WorstReached(params: UptakeParams, ss: seq<Sample>, source: string, rate: real) returns (i: nat)
    requires Worst(params, ss, source) == Some(rate)
    ensures i < |ss| && Exceeds(params, ss[i], source) && ss[i].rate == rate
  {
    WorstAttained(params, ss, source);
    i :| 0 <= i < |ss| && Exceeds(params, ss[i], source) && ss[i].rate == rate;
  }

  lemma SortedListedExceed(st: RateState, params: UptakeParams, ss: seq<Sample>)
    requires Tracks(st, params, ss)
    ensures ListedExceed(SortReports(st.errorRates), params, ss)
  {
    var sources := SortReports(st.errorRates);
    SortReportsKeeps(st.errorRates);
    forall j | 0 <= j < |sources|
      ensures exists i :: 0 <= i < |ss| && Exceeds(params, ss[i], sources[j].0) && ss[i].rate == sources[j].1.errorRate
    {
      assert ReportedRate(st.errorRates, sources[j].0) == Worst(params, ss, sources[j].0);
      var i := WorstReached(params, ss, sources[j].0, sources[j].1.errorRate);
      assert 0 <= i < |ss| && Exceeds(params, ss[i], sources[j].0) && ss[i].rate == sources[j].1.errorRate;
    }
  }

  lemma SortedListedWorst(st: RateState, params: UptakeParams, ss: seq<Sample>)
    requires Tracks(st, params, ss)
    ensures ListedWorst(SortReports(st.errorRates), ss)
  {
    var sources := SortReports(st.errorRates);
    SortReportsKeeps(st.errorRates);
    forall j, i | 0 <= j < |sources| && 0 <= i < |ss| && ss[i].source == sources[j].0 && ss[i].counted
      ensures ss[i].rate <= sources[j].1.errorRate
    {
      assert ReportedRate(st.errorRates, sources[j].0) == Worst(params, ss, sources[j].0);
      WorstMax(params, ss, sources[j].0);
    }
  }

  lemma SortedAllListed(st: RateState, params: UptakeParams, ss: seq<Sample>)
    requires Tracks(st, params, ss)
    ensures AllListed(SortReports(st.errorRates), params, ss)
  {
    var sources := SortReports(st.errorRates);
    SortReportsKeeps(st.errorRates);
    forall i | 0 <= i < |ss| && ss[i].counted && Reportable(params, ss[i].rate)
      ensures exists j :: 0 <= j < |sources| && sources[j].0 == ss[i].source
    {
      WorstSome(params, ss, ss[i].source);
      assert Exceeds(params, ss[i], ss[i].source);
      assert ReportedRate(st.errorRates, ss[i].source) == Worst(params, ss, ss[i].source);
    }
  }

  lemma SortedReportsEmpty(st: RateState, params: UptakeParams, ss: seq<Sample>)
    requires Tracks(st, params, ss)
    ensures SortReports(st.errorRates) == [] <==> NoneExceeds(params, ss)
  {
    SortDescSpec(st.errorRates, (p: (string, SourceReport)) => p.1.errorRate);
    if st.errorRates == [] {
      forall i | 0 <= i < |ss| && ss[i].counted ensures !Reportable(params, ss[i].rate) {
        WorstSome(params, ss, ss[i].source);
        assert ReportedRate(st.errorRates, ss[i].source) == None;
        assert !Exceeds(params, ss[i], ss[i].source);
      }
    } else {
      var k := st.errorRates[0].0;
      assert k in Keys(st.errorRates);
      assert ReportedRate(st.errorRates, k).Some?;
      WorstAttained(params, ss, k);
      assert |multiset(SortReports(st.errorRates))| != 0;
    }
  }

  /** The check succeeds iff no counted sample, of any period and source,
      reaches the threshold; the sources it returns are exactly those with
      one, each with the highest rate among its counted samples. */
  lemma RunReports(rows: seq<UptakeRow>, params: UptakeParams)
    ensures var r := Run(rows, params);
      r.Ok? ==>
        var pats := IgnoredStatuses(params.ignoreStatus, params.ignoreVersions).value;
        var ss := Samples(pats, params, Readings(RecordRows(rows, params.channels, params.sources)));
        && (r.value.0 <==> NoneExceeds(params, ss))
        && ListedExceed(r.value.1.sources, params, ss)
        && ListedWorst(r.value.1.sources, ss)
        && AllListed(r.value.1.sources, params, ss)
  {
    var r := Run(rows, params);
    if r.Ok? {
      var pats := IgnoredStatuses(params.ignoreStatus, params.ignoreVersions).value;
      var periods := RecordRows(rows, params.channels, params.sources);
      var st := Rates(pats, params, periods).value;
      var ss := Samples(pats, params, Readings(periods));
      RatesReport(pats, params, periods);
      SortedListedExceed(st, params, ss);
      SortedListedWorst(st, params, ss);
      SortedAllListed(st, params, ss);
      SortedReportsEmpty(st, params, ss);
    }
  }

  /** On success the data carries no source, and on failure the worst
      sources. */
  lemma RunAsWrittenAgrees(rows: seq<UptakeRow>, params: UptakeParams)
    requires RecordRows(rows, params.channels, params.sources) != []
    ensures RunAsWritten(rows, params) == Run(rows, params)
  {
  }

  /** `run` over the fetched rows, step by step: the ignore patterns, the
      grouping of rows by period, then the rates period by period and source
      by source. */
  method Evaluate(rows: seq<UptakeRow>, params: UptakeParams) returns (r: Result<(bool, UptakeData)>)
    ensures r == Run(rows, params)
  {
    if rows == [] {
      return Err(ValueError("min() arg is an empty sequence"));
    }
    var minTimestamp := MinTimestamp(rows);
    var maxTimestamp := MaxTimestamp(rows);
    var pats := Ignores(params.ignoreStatus, params.ignoreVersions);
    if pats.Err? {
      return Err(pats.error);
    }
    var periods := Group(rows, params.channels, params.sources);
    var st := ComputeRates(pats.value, params, periods);
    if st.Err? {
      return Err(st.error);
    }
    var sorted := SortReports(st.value.errorRates);
    r := Ok((|sorted| == 0, UptakeData(sorted, st.value.minRate, st.value.maxRate, minTimestamp, maxTimestamp)));
  }

  /** The loop over `ignore_status`, then the ignored versions. */
  method Ignores(ignoreStatus: seq<string>, ignoreVersions: seq<int>) returns (r: Result<seq<Pattern>>)
    ensures r == IgnoredStatuses(ignoreStatus, ignoreVersions)
  {
    ghost var parsed := ParsedStatuses(ignoreStatus);
    var pats: seq<Pattern> := [];
    var i := 0;
    while i < |ignoreStatus|
      invariant 0 <= i <= |ignoreStatus|
      invariant Gather(parsed[..i]) == Ok(pats)
    {
      GatherSnoc(parsed, i);
      var p := ParseIgnoreStatus(ignoreStatus[i]);
      assert parsed[i] == p;
      if p.Err? {
        GatherStops(parsed, i + 1);
        return Err(p.error);
      }
      pats := pats + [p.value];
      i := i + 1;
    }
    assert parsed[..i] == parsed;
    r := Ok(pats + seq(|ignoreVersions|, j requires 0 <= j < |ignoreVersions| => ("*", "*", IntToString(ignoreVersions[j]))));
  }

  /** The loop that groups the rows by period and source. */
  method Group(rows: seq<UptakeRow>, channels: seq<string>, sources: seq<string>) returns (periods: Periods)
    ensures periods == RecordRows(rows, channels, sources)
  {
    periods := [];
    var i := 0;
    while i < |rows|
      invariant 0 <= i <= |rows|
      invariant periods == RecordRows(rows[..i], channels, sources)
    {
      assert rows[..i + 1][..i] == rows[..i];
      if UsesRow(rows[i], channels) {
        periods := Record(periods, rows[i], sources);
      }
      i := i + 1;
    }
    assert rows[..i] == rows;
  }

  /** The loops over the periods and, within each, over the sources. */
  method ComputeRates(pats: seq<Pattern>, params: UptakeParams, periods: Periods) returns (r: Result<RateState>)
    ensures r == Rates(pats, params, periods)
  {
    var st := RateState([], None, None);
    var i := 0;
    while i < |periods|
      invariant 0 <= i <= |periods|
      invariant Rates(pats, params, periods[..i]) == Ok(st)
    {
      assert periods[..i + 1][..i] == periods[..i];
      var (period, bySource) := periods[i];
      ghost var start := st;
      var j := 0;
      while j < |bySource|
        invariant 0 <= j <= |bySource|
        invariant SourcesStep(Ok(start), pats, params, period, bySource[..j]) == Ok(st)
      {
        assert bySource[..j + 1][..j] == bySource[..j];
        var next := Step(st, pats, params, period, bySource[j].0, bySource[j].1);
        if next.Err? {
          SourcesStepStops(Ok(start), pats, params, period, bySource, j + 1);
          RatesStops(pats, params, periods, i + 1);
          return Err(next.error);
        }
        st := next.value;
        j := j + 1;
      }
      assert bySource[..j] == bySource;
      i := i + 1;
    }
    assert periods[..i] == periods;
    r := Ok(st);
  }

  /** The body of the loop over the sources of one period. */
  method Step(st: RateState, pats: seq<Pattern>, params: UptakeParams, period: Period, source: string, vs: Versions)
    returns (r: Result<RateState>)
    ensures r == SourceStep(st, pats, params, period, source, vs)
  {
    var t := TallySource(pats, source, vs);
    if t.total < params.minTotalEvents {
      return Ok(st);
    }
    if t.total == 0 {
      return Err(ZeroDivisionError);
    }
    var rate := (ErrorTotal(t.statuses) * 100) as real / t.total as real;
    var minRate := if st.minRate.None? then rate else if rate < st.minRate.value then rate else st.minRate.value;
    var maxRate := if st.maxRate.None? then rate else if rate > st.maxRate.value then rate else st.maxRate.value;
    var other := OtherRate(st.errorRates, source);
    if rate < params.maxErrorPercentage || rate < other {
      return Ok(RateState(st.errorRates, Some(minRate), Some(maxRate)));
    }
    var report := SourceReport(rate, SortTotals(t.statuses), SortTotals(t.ignored), period.0, period.1);
    return Ok(RateState(Put(st.errorRates, source, report), Some(minRate), Some(maxRate)));
  }

  /** The loops over the versions of a source and, within each, over its
      statuses, adding each total to the counted or the ignored events. */
  method TallySource(pats: seq<Pattern>, source: string, vs: Versions) returns (t: Tally)
    ensures t == TallyVersions(pats, source, vs)
  {
    t := Tally(0, [], []);
    var i := 0;
    while i < |vs|
      invariant 0 <= i <= |vs|
      invariant t == TallyVersions(pats, source, vs[..i])
    {
      assert vs[..i + 1][..i] == vs[..i];
      var (version, sts) := vs[i];
      ghost var start := t;
      var k := 0;
      while k < |sts|
        invariant 0 <= k <= |sts|
        invariant t == TallyStatuses(start, pats, source, version, sts[..k])
      {
        assert sts[..k + 1][..k] == sts[..k];
        t := TallyStep(t, pats, source, version, sts[k].0, sts[k].1);
        k := k + 1;
      }
      assert sts[..k] == sts;
      i := i + 1;
    }
    assert vs[..i] == vs;
  }

  /** A failure among the sources of a period is the outcome of the period. */
  lemma {:induction false} SourcesStepStops(st: Result<RateState>, pats: seq<Pattern>, params: UptakeParams, period: Period,
                                            srcs: Sources, j: nat)
    requires j <= |srcs| && SourcesStep(st, pats, params, period, srcs[..j]).Err?
    ensures SourcesStep(st, pats, params, period, srcs) == SourcesStep(st, pats, params, period, srcs[..j])
    decreases |srcs| - j
  {
    if j < |srcs| {
      assert srcs[..j + 1][..j] == srcs[..j];
      SourcesStepStops(st, pats, params, period, srcs, j + 1);
    } else {
      assert srcs[..j] == srcs;
    }
  }

  /** A failure in a period is the outcome of the whole computation. */
  lemma {:induction false} RatesStops(pats: seq<Pattern>, params: UptakeParams, ps: Periods, i: nat)
    requires i <= |ps| && Rates(pats, params, ps[..i]).Err?
    ensures Rates(pats, params, ps) == Rates(pats, params, ps[..i])
    decreases |ps| - i
  {
    if i < |ps| {
      assert ps[..i + 1][..i] == ps[..i];
      SourcesStepErr(Rates(pats, params, ps[..i]), pats, params, ps[i].0, ps[i].1);
      RatesStops(pats, params, ps, i + 1);
    } else {
      assert ps[..i] == ps;
    }
  }

  lemma {:induction false} SourcesStepErr(st: Result<RateState>, pats: seq<Pattern>, params: UptakeParams, period: Period, srcs: Sources)
    requires st.Err?
    ensures SourcesStep(st, pats, params, period, srcs) == st
    decreases |srcs|
  {
    if srcs != [] {
      SourcesStepErr(st, pats, params, period, srcs[..|srcs| - 1]);
    }
  }
}
