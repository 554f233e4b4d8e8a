/** The JEXL error-rate check of `checks/normandy/jexl_error_rate.py`: the
    rows of the telemetry query (fetched elsewhere) are summed per period and
    status, the highest percentage of `content_error` events over the periods
    is reported, and the reported time range narrows to a period once the
    running maximum exceeds the threshold. Percentages are exact rationals. */
module JexlErrorRate {
  import opened Common
  import opened OrderedDict

  const EXPOSED_PARAMETERS: seq<string> := ["max_error_percentage"]
  const REDASH_QUERY_ID := 67658

  /** One row of the query result; timestamps are instants. */
  datatype JexlRow = JexlRow(minTimestamp: nat, maxTimestamp: nat, channel: string, status: string, total: int)

  type Period = (nat, nat)
  /** The `Counter` of one period: totals per status. */
  type Counts = Dict<string, int>
  type Periods = Dict<Period, Counts>

  /** Whether a row passes the channel filter (no filter when `channels` is empty). */
  predicate Kept(row: JexlRow, channels: seq<string>) {
    |channels| == 0 || ToLower(row.channel) in channels
  }

  function PeriodOf(row: JexlRow): Period {
    (row.minTimestamp, row.maxTimestamp)
  }

  /** `periods[period][status] += total` on the `defaultdict(Counter)`. */
  function Count(p: Periods, row: JexlRow): Periods {
    Put(p, PeriodOf(row), AddTo(GetOr(p, PeriodOf(row), []), row.status, row.total))
  }

  /** The loop over the rows. */
  function Aggregate(rows: seq<JexlRow>, channels: seq<string>): Periods
    decreases |rows|
  {
    if rows == [] then []
    else
      var p := Aggregate(rows[..|rows| - 1], channels);
      var row := rows[|rows| - 1];
      if Kept(row, channels) then Count(p, row) else p
  }

  /** The sum of the totals of the kept rows of a period with a status. */
  function TotalOf(rows: seq<JexlRow>, channels: seq<string>, period: Period, status: string): int
    decreases |rows|
  {
    if rows == [] then 0
    else
      var row := rows[|rows| - 1];
      TotalOf(rows[..|rows| - 1], channels, period, status)
        + (if Kept(row, channels) && PeriodOf(row) == period && row.status == status then row.total else 0)
  }

  /** Each (period, status) count is the sum of the totals of the kept rows
      with that period and status; a pair no kept row has counts zero. */
  lemma {:induction false} AggregateTotals(rows: seq<JexlRow>, channels: seq<string>, period: Period, status: string)
    ensures GetOr(GetOr(Aggregate(rows, channels), period, []), status, 0) == TotalOf(rows, channels, period, status)
    decreases |rows|
  {
    if rows != [] {
      var init := rows[..|rows| - 1];
      var row := rows[|rows| - 1];
      var p := Aggregate(init, channels);
      AggregateTotals(init, channels, period, status);
      if Kept(row, channels) {
        var c := GetOr(p, PeriodOf(row), []);
        GetOrPut(p, PeriodOf(row), AddTo(c, row.status, row.total), period, []);
        GetOrAddTo(c, row.status, row.total, status);
      }
    }
  }

  /** Each period is listed once. */
  lemma {:induction false} AggregateNoDup(rows: seq<JexlRow>, channels: seq<string>)
    ensures NoDupKeys(Aggregate(rows, channels))
    decreases |rows|
  {
    if rows != [] {
      var init := rows[..|rows| - 1];
      var row := rows[|rows| - 1];
      AggregateNoDup(init, channels);
      var p := Aggregate(init, channels);
      if Kept(row, channels) {
        PutNoDup(p, PeriodOf(row), AddTo(GetOr(p, PeriodOf(row), []), row.status, row.total));
      }
    }
  }

  /** Whether some kept row has the period. */
  predicate HasPeriod(rows: seq<JexlRow>, channels: seq<string>, period: Period) {
    exists i :: 0 <= i < |rows| && Kept(rows[i], channels) && PeriodOf(rows[i]) == period
  }

  /** The periods are exactly those of the kept rows. */
  lemma {:induction false} AggregatePeriods(rows: seq<JexlRow>, channels: seq<string>, period: Period)
    ensures period in Keys(Aggregate(rows, channels)) <==> HasPeriod(rows, channels, period)
    decreases |rows|
  {
    if rows != [] {
      var init := rows[..|rows| - 1];
      var row := rows[|rows| - 1];
      AggregatePeriods(init, channels, period);
      assert HasPeriod(rows, channels, period) <==>
        HasPeriod(init, channels, period) || (Kept(row, channels) && PeriodOf(row) == period) by {
        if HasPeriod(rows, channels, period) {
          var i :| 0 <= i < |rows| && Kept(rows[i], channels) && PeriodOf(rows[i]) == period;
          if i < |init| {
            assert init[i] == rows[i];
          }
        }
        if HasPeriod(init, channels, period) {
          var i :| 0 <= i < |init| && Kept(init[i], channels) && PeriodOf(init[i]) == period;
          assert rows[i] == init[i];
        }
      }
    }
  }

  // ---------------------------------------------------------------------------
  // The loop over the periods

  /** `content_error * 100 / total` for one period; a zero total fails. */
  function PeriodRate(c: Counts): (r: Result<real>)
    ensures r.Err? <==> SumValues(c) == 0
    ensures r.Err? ==> r.error == ZeroDivisionError
  {
    var total := SumValues(c);
    if total == 0 then Err(ZeroDivisionError)
    else Ok((GetOr(c, "content_error", 0) as real) * 100.0 / (total as real))
  }

  /** The variables the loop updates; `rate` is `error_rate`, unbound until
      the first period. */
  datatype JexlState = JexlState(maxRate: real, minTimestamp: nat, maxTimestamp: nat, rate: Option<real>)

  function Step(st: JexlState, period: Period, c: Counts, threshold: real): Result<JexlState> {
    match PeriodRate(c)
    case Err(e) => Err(e)
    case Ok(rate) =>
      var m := if rate > st.maxRate then rate else st.maxRate;
      if m > threshold then Ok(JexlState(m, period.0, period.1, Some(rate)))
      else Ok(JexlState(m, st.minTimestamp, st.maxTimestamp, Some(rate)))
  }

  function Scan(ps: Periods, init: JexlState, threshold: real): Result<JexlState>
    decreases |ps|
  {
    if ps == [] then Ok(init)
    else
      match Scan(ps[..|ps| - 1], init, threshold)
      case Err(e) => Err(e)
      case Ok(st) => Step(st, ps[|ps| - 1].0, ps[|ps| - 1].1, threshold)
  }

  /** The loop fails iff some period has a zero total; otherwise the
      maximum is at least its starting value and every period's rate, and is
      the starting value or one of those rates; `error_rate` is the last
      period's rate. */
  lemma {:induction false} ScanMax(ps: Periods, init: JexlState, threshold: real)
    ensures Scan(ps, init, threshold).Ok? <==> forall i :: 0 <= i < |ps| ==> SumValues(ps[i].1) != 0
    ensures var r := Scan(ps, init, threshold);
      r.Ok? ==>
        && init.maxRate <= r.value.maxRate
        && (forall i :: 0 <= i < |ps| ==> PeriodRate(ps[i].1).value <= r.value.maxRate)
        && (r.value.maxRate == init.maxRate || exists i :: 0 <= i < |ps| && r.value.maxRate == PeriodRate(ps[i].1).value)
        && (ps == [] ==> r.value.rate == init.rate)
        && (ps != [] ==> r.value.rate == Some(PeriodRate(ps[|ps| - 1].1).value))
    decreases |ps|
  {
    if ps != [] {
      var init' := ps[..|ps| - 1];
      var last := ps[|ps| - 1];
      ScanMax(init', init, threshold);
      assert forall i :: 0 <= i < |init'| ==> init'[i] == ps[i];
      var s := Scan(init', init, threshold);
      if s.Ok? {
        var st := s.value;
        StepSpec(st, last.0, last.1, threshold);
        if Step(st, last.0, last.1, threshold).Ok? && st.maxRate != init.maxRate {
          var i :| 0 <= i < |init'| && st.maxRate == PeriodRate(init'[i].1).value;
          assert st.maxRate == PeriodRate(ps[i].1).value;
        }
      }
    }
  }

  /** One period of the loop: it fails iff the period's total is zero, and
      otherwise raises the maximum to the period's rate if that is larger and
      records the rate. */
  lemma StepSpec(st: JexlState, period: Period, c: Counts, threshold: real)
    ensures Step(st, period, c, threshold).Ok? <==> SumValues(c) != 0
    ensures Step(st, period, c, threshold).Ok? ==>
      var s := Step(st, period, c, threshold).value;
      var rate := PeriodRate(c).value;
      s.maxRate == (if rate > st.maxRate then rate else st.maxRate) && s.rate == Some(rate)
  {
  }

  /** Once the running maximum exceeds the threshold every later period
      replaces the time range, so it ends as the last period's range iff the
      final maximum exceeds the threshold, and is kept otherwise. */
  lemma {:induction false} ScanRange(ps: Periods, init: JexlState, threshold: real)
    requires Scan(ps, init, threshold).Ok?
    ensures var st := Scan(ps, init, threshold).value;
      && (ps != [] && st.maxRate > threshold ==> (st.minTimestamp, st.maxTimestamp) == ps[|ps| - 1].0)
      && (st.maxRate <= threshold ==> st.minTimestamp == init.minTimestamp && st.maxTimestamp == init.maxTimestamp)
    decreases |ps|
  {
    if ps != [] {
      ScanRange(ps[..|ps| - 1], init, threshold);
    }
  }

  // ---------------------------------------------------------------------------
  // The check

  datatype JexlData = JexlData(errorRate: real, minTimestamp: nat, maxTimestamp: nat)

  function MinTimestamp(rows: seq<JexlRow>): (m: nat)
    requires rows != []
    ensures forall i :: 0 <= i < |rows| ==> m <= rows[i].minTimestamp
    ensures exists i :: 0 <= i < |rows| && m == rows[i].minTimestamp
  {
    if |rows| == 1 then rows[0].minTimestamp
    else
      var m := MinTimestamp(rows[1..]);
      assert forall i :: 1 <= i < |rows| ==> rows[i] == rows[1..][i - 1];
      if rows[0].minTimestamp < m then rows[0].minTimestamp else m
  }

  function MaxTimestamp(rows: seq<JexlRow>): (m: nat)
    requires rows != []
    ensures forall i :: 0 <= i < |rows| ==> rows[i].maxTimestamp <= m
    ensures exists i :: 0 <= i < |rows| && m == rows[i].maxTimestamp
  {
    if |rows| == 1 then rows[0].maxTimestamp
    else
      var m := MaxTimestamp(rows[1..]);
      assert forall i :: 1 <= i < |rows| ==> rows[i] == rows[1..][i - 1];
      if rows[0].maxTimestamp > m then rows[0].maxTimestamp else m
  }

  /** The state before the loop over the periods: the range of all rows,
      filtered ones included. */
  function Start(rows: seq<JexlRow>): JexlState
    requires rows != []
  {
    JexlState(0.0, MinTimestamp(rows), MaxTimestamp(rows), None)
  }

  /** `run` as written: the success flag compares `error_rate`, the rate of
      the last period iterated, and that variable is unbound when no row
      passes the channel filter. */
  function RunAsWritten(rows: seq<JexlRow>, channels: seq<string>, maxErrorPercentage: real): Result<(bool, JexlData)> {
    if rows == [] then Err(ValueError("min() arg is an empty sequence"))
    else
      match Scan(Aggregate(rows, channels), Start(rows), maxErrorPercentage)
      case Err(e) => Err(e)
      case Ok(st) =>
        if st.rate.None? then Err(UnboundLocalError("error_rate"))
        else Ok((st.rate.value <= maxErrorPercentage, JexlData(st.maxRate, st.minTimestamp, st.maxTimestamp)))
  }

  /** `run` compared with the reported maximum, as the check's description
      ("the percentage ... should be under the specified maximum") intends. */
  function Run(rows: seq<JexlRow>, channels: seq<string>, maxErrorPercentage: real): Result<(bool, JexlData)> {
    if rows == [] then Err(ValueError("min() arg is an empty sequence"))
    else
      match Scan(Aggregate(rows, channels), Start(rows), maxErrorPercentage)
      case Err(e) => Err(e)
      case Ok(st) => Ok((st.maxRate <= maxErrorPercentage, JexlData(st.maxRate, st.minTimestamp, st.maxTimestamp)))
  }

  /** The rate of the `i`-th period's counts. */
  function RateAt(rows: seq<JexlRow>, channels: seq<string>, i: nat): Result<real>
    requires i < |Aggregate(rows, channels)|
  {
    PeriodRate(Aggregate(rows, channels)[i].1)
  }

  /** The corrected check succeeds iff no period's rate exceeds the
      threshold (and the threshold is not negative); the reported rate is
      the maximum of 0 and the periods' rates; the reported range is the
      last period's when that maximum exceeds the threshold and the range of
      all rows otherwise. It fails on no rows or on a period with no events. */
  lemma RunSpec(rows: seq<JexlRow>, channels: seq<string>, maxErrorPercentage: real)
    ensures var r := Run(rows, channels, maxErrorPercentage);
      var ps := Aggregate(rows, channels);
      && (r.Err? <==> rows == [] || exists i :: 0 <= i < |ps| && SumValues(ps[i].1) == 0)
      && (r.Ok? ==>
            var d := r.value.1;
            && (r.value.0 <==> 0.0 <= maxErrorPercentage && forall i :: 0 <= i < |ps| ==> RateAt(rows, channels, i).value <= maxErrorPercentage)
            && 0.0 <= d.errorRate
            && (forall i :: 0 <= i < |ps| ==> RateAt(rows, channels, i).value <= d.errorRate)
            && (d.errorRate == 0.0 || exists i :: 0 <= i < |ps| && d.errorRate == RateAt(rows, channels, i).value)
            && (d.errorRate > maxErrorPercentage && ps != [] ==> (d.minTimestamp, d.maxTimestamp) == ps[|ps| - 1].0)
            && (d.errorRate <= maxErrorPercentage ==> d.minTimestamp == MinTimestamp(rows) && d.maxTimestamp == MaxTimestamp(rows)))
  {
    if rows != [] {
      var ps := Aggregate(rows, channels);
      ScanMax(ps, Start(rows), maxErrorPercentage);
      assert forall i :: 0 <= i < |ps| ==> RateAt(rows, channels, i) == PeriodRate(ps[i].1);
      if Scan(ps, Start(rows), maxErrorPercentage).Ok? {
        var st := Scan(ps, Start(rows), maxErrorPercentage).value;
        ScanRange(ps, Start(rows), maxErrorPercentage);
        if st.maxRate != 0.0 {
          var i :| 0 <= i < |ps| && st.maxRate == PeriodRate(ps[i].1).value;
          assert st.maxRate == RateAt(rows, channels, i).value;
        }
      }
    }
  }

  /** As written, the flag is the last period's rate against the threshold,
      whatever the earlier periods' rates; with no period left after the
      channel filter it fails on the unbound variable. */
  lemma RunAsWrittenSpec(rows: seq<JexlRow>, channels: seq<string>, maxErrorPercentage: real)
    requires rows != []
    ensures var r := RunAsWritten(rows, channels, maxErrorPercentage);
      var ps := Aggregate(rows, channels);
      && (ps == [] ==> r == Err(UnboundLocalError("error_rate")))
      && (ps != [] ==> r.Ok? == Run(rows, channels, maxErrorPercentage).Ok?)
      && (r.Ok? ==>
            && r.value.1 == Run(rows, channels, maxErrorPercentage).value.1
            && (r.value.0 <==> RateAt(rows, channels, |ps| - 1).value <= maxErrorPercentage))
  {
    ScanMax(Aggregate(rows, channels), Start(rows), maxErrorPercentage);
  }

  /** A first period with every event a `content_error` and a second with
      none: the check as written reports a 100% error rate and succeeds. */
  lemma LastPeriodHidesMaximum()
    ensures var rows := [JexlRow(1, 2, "release", "content_error", 5), JexlRow(3, 4, "release", "success", 5)];
      && RunAsWritten(rows, [], 10.0) == Ok((true, JexlData(100.0, 3, 4)))
      && Run(rows, [], 10.0) == Ok((false, JexlData(100.0, 3, 4)))
  {
    var rows := [JexlRow(1, 2, "release", "content_error", 5), JexlRow(3, 4, "release", "success", 5)];
    ExampleAggregate(rows);
    ExampleScan(rows);
  }

  lemma ExampleAggregate(rows: seq<JexlRow>)
    requires rows == [JexlRow(1, 2, "release", "content_error", 5), JexlRow(3, 4, "release", "success", 5)]
    ensures Aggregate(rows, []) == [((1, 2), [("content_error", 5)]), ((3, 4), [("success", 5)])]
  {
    assert rows[..1] == [rows[0]];
    assert [rows[0]][..0] == [];
    var p1: Periods := [((1, 2), [("content_error", 5)])];
    assert Aggregate(rows[..1], []) == p1;
    PutNew(p1, (3, 4), [("success", 5)]);
  }

  lemma ExampleScan(rows: seq<JexlRow>)
    requires rows == [JexlRow(1, 2, "release", "content_error", 5), JexlRow(3, 4, "release", "success", 5)]
    ensures Scan([((1, 2), [("content_error", 5)]), ((3, 4), [("success", 5)])], Start(rows), 10.0)
      == Ok(JexlState(100.0, 3, 4, Some(0.0)))
  {
    var p1: Periods := [((1, 2), [("content_error", 5)])];
    var p2 := p1 + [((3, 4), [("success", 5)])];
    assert p2[..1] == p1;
    assert p1[..0] == [];
    assert PeriodRate([("content_error", 5)]) == Ok(100.0);
    assert PeriodRate([("success", 5)]) == Ok(0.0);
    assert Scan(p1, Start(rows), 10.0) == Ok(JexlState(100.0, 1, 2, Some(100.0)));
  }

  /** With every row filtered out by channel, the check as written fails on
      the unbound `error_rate`, while the corrected one reports 0%. */
  lemma NoPeriodUnbound(row: JexlRow)
    requires row.channel == "beta"
    ensures RunAsWritten([row], ["release"], 10.0) == Err(UnboundLocalError("error_rate"))
    ensures Run([row], ["release"], 10.0) == Ok((true, JexlData(0.0, row.minTimestamp, row.maxTimestamp)))
  {
    assert ToLower("beta") == "beta";
    assert [row][..0] == [];
    assert Aggregate([row], ["release"]) == [];
  }

  // ---------------------------------------------------------------------------
  // The check, step by step

  /** `run` over the fetched rows: the timestamps, the loop that counts per
      period, then the loop over the periods. */
  method Evaluate(rows: seq<JexlRow>, channels: seq<string>, maxErrorPercentage: real) returns (r: Result<(bool, JexlData)>)
    ensures r == Run(rows, channels, maxErrorPercentage)
  {
    if rows == [] {
      return Err(ValueError("min() arg is an empty sequence"));
    }
    var periods := CountPeriods(rows, channels);
    var scanned := ScanPeriods(periods, rows, maxErrorPercentage);
    match scanned
    case Err(e) => r := Err(e);
    case Ok(st) => r := Ok((st.maxRate <= maxErrorPercentage, JexlData(st.maxRate, st.minTimestamp, st.maxTimestamp)));
  }

  /** The loop that sums `total` per period and status over the rows of the
      wanted channels. */
  method CountPeriods(rows: seq<JexlRow>, channels: seq<string>) returns (periods: Periods)
    ensures periods == Aggregate(rows, channels)
  {
    periods := [];
    var i := 0;
    while i < |rows|
      invariant 0 <= i <= |rows|
      invariant periods == Aggregate(rows[..i], channels)
    {
      assert rows[..i + 1][..i] == rows[..i];
      if |channels| == 0 || ToLower(rows[i].channel) in channels {
        var period := (rows[i].minTimestamp, rows[i].maxTimestamp);
        var counts := GetOr(periods, period, []);
        periods := Put(periods, period, AddTo(counts, rows[i].status, rows[i].total));
      }
      i := i + 1;
    }
    assert rows[..i] == rows;
  }

  /** The loop over the periods: the running maximum rate, the period that
      exceeded the threshold, and the rate of the last period. */
  method ScanPeriods(periods: Periods, rows: seq<JexlRow>, maxErrorPercentage: real) returns (r: Result<JexlState>)
    requires rows != []
    ensures r == Scan(periods, Start(rows), maxErrorPercentage)
  {
    var maxErrorRate := 0.0;
    var minTimestamp := MinTimestamp(rows);
    var maxTimestamp := MaxTimestamp(rows);
    var errorRate: Option<real> := None;
    var i := 0;
    while i < |periods|
      invariant 0 <= i <= |periods|
      invariant Scan(periods[..i], Start(rows), maxErrorPercentage) == Ok(JexlState(maxErrorRate, minTimestamp, maxTimestamp, errorRate))
    {
      assert periods[..i + 1][..i] == periods[..i];
      var (period, counts) := periods[i];
      var total := SumValues(counts);
      if total == 0 {
        ScanStops(periods, Start(rows), maxErrorPercentage, i + 1);
        return Err(ZeroDivisionError);
      }
      var rate := (GetOr(counts, "content_error", 0) as real) * 100.0 / (total as real);
      if rate > maxErrorRate {
        maxErrorRate := rate;
      }
      if maxErrorRate > maxErrorPercentage {
        minTimestamp, maxTimestamp := period.0, period.1;
      }
      errorRate := Some(rate);
      i := i + 1;
    }
    assert periods[..i] == periods;
    r := Ok(JexlState(maxErrorRate, minTimestamp, maxTimestamp, errorRate));
  }

  /** A failing period is the outcome of the whole loop. */
  lemma {:induction false} ScanStops(ps: Periods, init: JexlState, threshold: real, i: nat)
    requires i <= |ps| && Scan(ps[..i], init, threshold).Err?
    ensures Scan(ps, init, threshold) == Scan(ps[..i], init, threshold)
    decreases |ps| - i
  {
    if i < |ps| {
      assert ps[..i + 1][..i] == ps[..i];
      ScanStops(ps, init, threshold, i + 1);
    } else {
      assert ps[..i] == ps;
    }
  }
}
