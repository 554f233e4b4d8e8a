/** The backported-records check of `checks/remotesettings/backported_records.py`:
    each backported collection should hold the same records as its source,
    up to a lag. What the server answers is an input (`Server`). */
module BackportedRecords {
  import opened Common
  import opened OrderedDict

  const EXPOSED_PARAMETERS: seq<string> := ["server", "max_lag_seconds"]
  const DEFAULT_MAX_LAG_SECONDS: int := 5 * 60

  // ---------------------------------------------------------------------------
  // Splitting names

  /** `a, b = s.split(sep)`: exactly two fields, or the unpacking error. */
  function Unpack2(s: string, sep: char): (r: Result<(string, string)>)
    ensures r.Ok? <==> Count(s, sep) == 1
    ensures r.Ok? ==> r.value.0 + [sep] + r.value.1 == s && sep !in r.value.0 && sep !in r.value.1
  {
    var parts := Split(s, sep);
    if |parts| == 1 then Err(ValueError("not enough values to unpack (expected 2, got 1)"))
    else if |parts| > 2 then Err(ValueError("too many values to unpack (expected 2)"))
    else
      JoinSplit(s, sep);
      assert Join([sep], parts) == parts[0] + [sep] + parts[1];
      Ok((parts[0], parts[1]))
  }

  /** Unpacking gives back the two names joined by one separator. */
  lemma Unpack2Join(a: string, b: string, sep: char)
    requires sep !in a && sep !in b
    ensures Unpack2(a + [sep] + b, sep) == Ok((a, b))
  {
    SplitAt(a, b, sep);
    SplitNoSep(b, sep);
  }

  /** `name=value` cut at its first `=`; none without one. */
  function SplitFirst(s: string, c: char): (r: Option<(string, string)>)
    ensures r.None? <==> c !in s
    ensures r.Some? ==> r.value.0 + [c] + r.value.1 == s && c !in r.value.0
    decreases |s|
  {
    if s == [] then None
    else if s[0] == c then Some(([], s[1..]))
    else
      match SplitFirst(s[1..], c)
      case None => None
      case Some((a, b)) => Some(([s[0]] + a, b))
  }

  // ---------------------------------------------------------------------------
  // The query string

  /** The `(name, value)` pair of one `&`-separated field, as `parse_qs`
      keeps it: fields without `=` or with an empty value are dropped. */
  function QueryPair(field: string): Option<(string, string)> {
    match SplitFirst(field, '=')
    case None => None
    case Some((name, value)) => if value == "" then None else Some((name, value))
  }

  /** `parse_qs` over the fields: each name with its values in order. */
  function ParseFields(fields: seq<string>): Dict<string, seq<string>>
    decreases |fields|
  {
    if fields == [] then []
    else
      var d := ParseFields(fields[..|fields| - 1]);
      match QueryPair(fields[|fields| - 1])
      case None => d
      case Some((name, value)) => Put(d, name, GetOr(d, name, []) + [value])
  }

  function ParseQs(qs: string): Dict<string, seq<string>> {
    ParseFields(Split(qs, '&'))
  }

  /** The non-empty values given to `name`, in field order. */
  function ValuesOf(fields: seq<string>, name: string): seq<string>
    decreases |fields|
  {
    if fields == [] then []
    else
      var p := QueryPair(fields[|fields| - 1]);
      ValuesOf(fields[..|fields| - 1], name) + (if p.Some? && p.value.0 == name then [p.value.1] else [])
  }

  /** `parse_qs` lists a name iff some field gives it a non-empty value,
      and then with all its values in order. */
  lemma {:induction false} ParseFieldsValues(fields: seq<string>, name: string)
    ensures Get(ParseFields(fields), name) == if ValuesOf(fields, name) == [] then None else Some(ValuesOf(fields, name))
    decreases |fields|
  {
    if fields != [] {
      var init := fields[..|fields| - 1];
      ParseFieldsValues(init, name);
      var d := ParseFields(init);
      var p := QueryPair(fields[|fields| - 1]);
      var vs := ValuesOf(init, name);
      if p.None? {
        assert fields[|fields| - 1] in fields;
        assert ParseFields(fields) == d;
        assert ValuesOf(fields, name) == vs + [] == vs;
      } else {
        var (n, v) := p.value;
        var vs' := GetOr(d, n, []) + [v];
        assert ParseFields(fields) == Put(d, n, vs');
        GetPut(d, n, vs', name);
        if n == name {
          assert ValuesOf(fields, name) == vs + [v];
          assert GetOr(d, n, []) == vs;
        } else {
          assert ValuesOf(fields, name) == vs + [] == vs;
        }
      }
    }
  }

  /** A query value after unwrapping: a name given once maps to its value. */
  datatype FilterValue = One(value: string) | Many(values: seq<string>)

  function UnwrapValue(vs: seq<string>): FilterValue {
    if |vs| == 1 then One(vs[0]) else Many(vs)
  }

  /** `{k: v[0] if len(v) == 1 else v for k, v in filters.items()}`. */
  function Unwrap(d: Dict<string, seq<string>>): (r: Dict<string, FilterValue>)
    ensures Keys(r) == Keys(d)
  {
    if d == [] then []
    else
      KeysCons(d);
      var rest := Unwrap(d[1..]);
      KeysCons([(d[0].0, UnwrapValue(d[0].1))] + rest);
      assert ([(d[0].0, UnwrapValue(d[0].1))] + rest)[1..] == rest;
      [(d[0].0, UnwrapValue(d[0].1))] + rest
  }

  /** Unwrapping keeps each name and turns a one-element list into its value. */
  lemma {:induction false} UnwrapGet(d: Dict<string, seq<string>>, k: string)
    ensures Get(Unwrap(d), k) == match Get(d, k) case None => None case Some(vs) => Some(UnwrapValue(vs))
  {
    if d != [] {
      UnwrapGet(d[1..], k);
      assert ([(d[0].0, UnwrapValue(d[0].1))] + Unwrap(d[1..]))[1..] == Unwrap(d[1..]);
    }
  }

  /** The filters of a query string. */
  function Filters(qs: string): Dict<string, FilterValue> {
    Unwrap(ParseQs(qs))
  }

  /** A filter name given one value maps to that value; one given several
      keeps the list; one given none is absent. */
  lemma FiltersSpec(qs: string, name: string)
    ensures var vs := ValuesOf(Split(qs, '&'), name);
      Get(Filters(qs), name) ==
        if vs == [] then None else if |vs| == 1 then Some(One(vs[0])) else Some(Many(vs))
  {
    ParseFieldsValues(Split(qs, '&'), name);
    UnwrapGet(ParseQs(qs), name);
  }

  // ---------------------------------------------------------------------------
  // One backport

  datatype Location = Location(bucket: string, collection: string)

  /** The record ids that `compare_collections` found missing, differing or extra. */
  datatype Diff = Diff(missing: seq<string>, differ: seq<string>, extras: seq<string>)

  /** What the server answers: the diff between the (filtered) source records
      and the destination records, none when they agree; each collection's
      records timestamp (milliseconds); the `human_diff` text. */
  datatype Server = Server(
    compare: (Location, Dict<string, FilterValue>, Location) -> Option<Diff>,
    timestamp: Location -> int,
    describe: (string, string, Diff) -> string)

  function Abs(x: int): nat { if x < 0 then -x else x }

  /** `abs(source_ts - dest_ts) / 1000 > max_lag_seconds`, on exact reals. */
  predicate Lagging(sourceTimestamp: int, destTimestamp: int, maxLagSeconds: int) {
    (Abs(sourceTimestamp - destTimestamp) as real) / 1000.0 > maxLagSeconds as real
  }

  /** The lag rule compares milliseconds strictly. */
  lemma LaggingSpec(s: int, d: int, maxLagSeconds: int)
    ensures Lagging(s, d, maxLagSeconds) <==> Abs(s - d) > 1000 * maxLagSeconds
  {
    var x := (Abs(s - d) as real) / 1000.0;
    assert x * 1000.0 == Abs(s - d) as real;
  }

  /** The source path and its filters: the query after the `?`, if any. */
  function SourceFilters(source: string): Result<(string, Dict<string, FilterValue>)> {
    if '?' in source then
      match Unpack2(source, '?')
      case Err(e) => Err(e)
      case Ok((path, qs)) => Ok((path, Filters(qs)))
    else Ok((source, []))
  }

  /** One backport: the error details when the collections differ and the
      lag is exceeded, none when they are in sync. */
  function Backport(source: string, dest: string, server: Server, maxLagSeconds: int): Result<Option<string>> {
    match SourceFilters(source)
    case Err(e) => Err(e)
    case Ok((path, filters)) =>
      match Unpack2(path, '/')
      case Err(e) => Err(e)
      case Ok((sourceBid, sourceCid)) =>
        match Unpack2(dest, '/')
        case Err(e) => Err(e)
        case Ok((destBid, destCid)) =>
          var src := Location(sourceBid, sourceCid);
          var dst := Location(destBid, destCid);
          match server.compare(src, filters, dst)
          case None => Ok(None)
          case Some(diff) =>
            if Lagging(server.timestamp(src), server.timestamp(dst), maxLagSeconds)
            then Ok(Some(server.describe(path, dest, diff)))
            else Ok(None)
  }

  /** A backport between `b/c` and `b'/c'` fails iff the records differ and
      the timestamps are more than the lag apart; the details describe the
      source without its query string. */
  lemma BackportSpec(sb: string, sc: string, qs: Option<string>, db: string, dc: string, server: Server, maxLagSeconds: int)
    requires '/' !in sb && '/' !in sc && '/' !in db && '/' !in dc && '?' !in sb && '?' !in sc
    requires qs.Some? ==> '?' !in qs.value
    ensures
      var path := sb + "/" + sc;
      var source := if qs.Some? then path + "?" + qs.value else path;
      var dest := db + "/" + dc;
      var filters := if qs.Some? then Filters(qs.value) else [];
      var src := Location(sb, sc);
      var dst := Location(db, dc);
      var diff := server.compare(src, filters, dst);
      Backport(source, dest, server, maxLagSeconds) ==
        if diff.Some? && Abs(server.timestamp(src) - server.timestamp(dst)) > 1000 * maxLagSeconds
        then Ok(Some(server.describe(path, dest, diff.value)))
        else Ok(None)
  {
    var path := sb + "/" + sc;
    assert path == sb + ['/'] + sc;
    assert '?' !in path;
    Unpack2Join(sb, sc, '/');
    Unpack2Join(db, dc, '/');
    assert db + "/" + dc == db + ['/'] + dc;
    if qs.Some? {
      assert path + "?" + qs.value == path + ['?'] + qs.value;
      Unpack2Join(path, qs.value, '?');
    }
    var src := Location(sb, sc);
    var dst := Location(db, dc);
    LaggingSpec(server.timestamp(src), server.timestamp(dst), maxLagSeconds);
  }

  /** A source with more than one `?` is refused before the server is asked
      anything. */
  lemma TwoQueriesRefused(source: string, dest: string, server: Server, maxLagSeconds: int)
    requires Count(source, '?') >= 2
    ensures Backport(source, dest, server, maxLagSeconds) == Err(ValueError("too many values to unpack (expected 2)"))
  {
    CountZero(source, '?');
  }

  // ---------------------------------------------------------------------------
  // The check

  /** The outcome of each backport, in iteration order. */
  function Outcomes(backports: seq<(string, string)>, server: Server, maxLagSeconds: int): (r: seq<Result<Option<string>>>)
    ensures |r| == |backports|
  {
    seq(|backports|, i requires 0 <= i < |backports| => Backport(backports[i].0, backports[i].1, server, maxLagSeconds))
  }

  /** Outcome `i` is the outcome of backport `i`. */
  lemma OutcomeAt(backports: seq<(string, string)>, server: Server, maxLagSeconds: int, i: nat)
    requires i < |backports|
    ensures Outcomes(backports, server, maxLagSeconds)[i] == Backport(backports[i].0, backports[i].1, server, maxLagSeconds)
  {
  }

  /** The present values, in order. */
  function Somes<T>(xs: seq<Option<T>>): seq<T>
    decreases |xs|
  {
    if xs == [] then []
    else Somes(xs[..|xs| - 1]) + (if xs[|xs| - 1].Some? then [xs[|xs| - 1].value] else [])
  }

  lemma {:induction false} SomesSpec<T>(xs: seq<Option<T>>, x: T)
    ensures x in Somes(xs) <==> Some(x) in xs
    decreases |xs|
  {
    if xs != [] {
      var init := xs[..|xs| - 1];
      SomesSpec(init, x);
      assert xs == init + [xs[|xs| - 1]];
    }
  }

  lemma {:induction false} SomesEmpty<T>(xs: seq<Option<T>>)
    ensures Somes(xs) == [] <==> forall i :: 0 <= i < |xs| ==> xs[i].None?
    decreases |xs|
  {
    if xs != [] {
      var init := xs[..|xs| - 1];
      SomesEmpty(init);
      assert forall i :: 0 <= i < |init| ==> init[i] == xs[i];
    }
  }

  /** `run`: the first exception, or whether `errors` is empty and `errors`. */
  function Run(backports: seq<(string, string)>, server: Server, maxLagSeconds: int): Result<(bool, seq<string>)> {
    match Gather(Outcomes(backports, server, maxLagSeconds))
    case Err(e) => Err(e)
    case Ok(outs) =>
      var errors := Somes(outs);
      Ok((errors == [], errors))
  }

  /** Gathering optional outcomes: the first error if any, and otherwise the
      present values, empty iff every outcome is `None`. */
  lemma {:induction false} GatherSomes<T>(b: seq<Result<Option<T>>>)
    ensures var g := Gather(b);
      && (g.Err? <==> exists i :: 0 <= i < |b| && b[i].Err?)
      && (g.Err? ==> exists i :: 0 <= i < |b| && b[i] == Err(g.error) && forall j :: 0 <= j < i ==> b[j].Ok?)
      && (g.Ok? ==>
            && (Somes(g.value) == [] <==> forall i :: 0 <= i < |b| ==> b[i] == Ok(None))
            && (forall d :: d in Somes(g.value) <==> exists i :: 0 <= i < |b| && b[i] == Ok(Some(d))))
  {
    GatherSpec(b);
    var g := Gather(b);
    if g.Ok? {
      var outs := g.value;
      forall d ensures d in Somes(outs) <==> exists i :: 0 <= i < |b| && b[i] == Ok(Some(d)) {
        SomesSpec(outs, d);
        if Some(d) in outs {
          var i :| 0 <= i < |outs| && outs[i] == Some(d);
          assert b[i] == Ok(Some(d));
        }
      }
      SomesEmpty(outs);
    }
  }

  /** The run fails iff some backport's names do not split, and then with the
      first such error; otherwise it succeeds iff no backport is reported,
      and the errors are exactly the reported details. */
  lemma RunSpec(backports: seq<(string, string)>, server: Server, maxLagSeconds: int)
    ensures var r := Run(backports, server, maxLagSeconds);
      var b := Outcomes(backports, server, maxLagSeconds);
      && (r.Err? <==> exists i :: 0 <= i < |b| && b[i].Err?)
      && (r.Err? ==> exists i :: 0 <= i < |b| && b[i] == Err(r.error) && forall j :: 0 <= j < i ==> b[j].Ok?)
      && (r.Ok? ==>
            && (r.value.0 <==> forall i :: 0 <= i < |b| ==> b[i] == Ok(None))
            && (forall d :: d in r.value.1 <==> exists i :: 0 <= i < |b| && b[i] == Ok(Some(d))))
  {
    GatherSomes(Outcomes(backports, server, maxLagSeconds));
  }

  /** The default lag is the five minutes between two runs of the backport job. */
  lemma DefaultLagFiveMinutes(s: int, d: int)
    ensures Lagging(s, d, DEFAULT_MAX_LAG_SECONDS) <==> Abs(s - d) > 300000
  {
    LaggingSpec(s, d, DEFAULT_MAX_LAG_SECONDS);
  }

  // ---------------------------------------------------------------------------
  // The check, step by step

  /** `run` as the source runs it: the loop over the backports, appending
      to `errors`. */
  method Evaluate(backports: seq<(string, string)>, server: Server, maxLagSeconds: int) returns (r: Result<(bool, seq<string>)>)
    ensures r == Run(backports, server, maxLagSeconds)
  {
    ghost var outcomes := Outcomes(backports, server, maxLagSeconds);
    ghost var outs: seq<Option<string>> := [];
    var errors: seq<string> := [];
    var i := 0;
    while i < |backports|
      invariant 0 <= i <= |backports|
      invariant Gather(outcomes[..i]) == Ok(outs)
      invariant errors == Somes(outs)
    {
      GatherSnoc(outcomes, i);
      var detail := Step(backports[i].0, backports[i].1, server, maxLagSeconds);
      OutcomeAt(backports, server, maxLagSeconds, i);
      if detail.Err? {
        GatherStops(outcomes, i + 1);
        return Err(detail.error);
      }
      if detail.value.Some? {
        errors := errors + [detail.value.value];
      }
      assert (outs + [detail.value])[..|outs|] == outs;
      outs := outs + [detail.value];
      i := i + 1;
    }
    assert outcomes[..i] == outcomes;
    r := Ok((errors == [], errors));
  }

  /** The body of the loop: `source` is reassigned to its path when it
      carries a query, which then gives the filters. */
  method Step(source: string, dest: string, server: Server, maxLagSeconds: int) returns (r: Result<Option<string>>)
    ensures r == Backport(source, dest, server, maxLagSeconds)
  {
    var source := source;
    var filters: Dict<string, FilterValue> := [];
    if '?' in source {
      var parts := Unpack2(source, '?');
      if parts.Err? {
        return Err(parts.error);
      }
      source := parts.value.0;
      filters := Filters(parts.value.1);
    }
    var sourceNames := Unpack2(source, '/');
    if sourceNames.Err? {
      return Err(sourceNames.error);
    }
    var destNames := Unpack2(dest, '/');
    if destNames.Err? {
      return Err(destNames.error);
    }
    var src := Location(sourceNames.value.0, sourceNames.value.1);
    var dst := Location(destNames.value.0, destNames.value.1);
    var diff := server.compare(src, filters, dst);
    r := Ok(None);
    if diff.Some? {
      var diffMillisecond := Abs(server.timestamp(src) - server.timestamp(dst));
      if (diffMillisecond as real) / 1000.0 > maxLagSeconds as real {
        r := Ok(Some(server.describe(source, dest, diff.value)));
      }
    }
  }
}
