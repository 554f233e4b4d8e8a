/** The request handler of a check endpoint (`Handlers.checkpoint` in
    `poucave/app.py`): apply the URL override, look the result up under the
    check's cache key, re-run the check when the stored result is missing or
    older than the ttl, alert when the health changes, and answer with the
    result. Clock readings are parameters, the check body is an abstract
    function and the error-reporting service is a ghost log of alerts. */
module AppHandler {
  import opened Common
  import opened OrderedDict
  import opened Params
  import opened App

  /** `(timestamp, success, data, duration)` as stored in the cache; times in
      whole seconds, the duration in milliseconds. */
  datatype Entry = Entry(timestamp: int, success: bool, data: Value, duration: int)

  /** The clock readings of one request: `now` when the age is computed,
      `before`/`after` (milliseconds) around the run, `completed` when the new
      entry is stamped. */
  datatype Clock = Clock(now: int, before: int, after: int, completed: int)

  /** A message sent to the error-reporting service, with its `data` extra. */
  datatype Alert = Alert(message: string, data: Value)

  /** The JSON body: the check's description plus the result. */
  datatype Body = Body(infos: Infos, datetime: int, duration: int, success: bool, data: Value)

  datatype Response =
    | BadRequest
    | Failure(error: Error)
    | Json(status: int, body: Body)

  /** What serving one request produces: the response, the new cache content
      and the alerts sent. */
  datatype Outcome = Outcome(response: Response, content: map<string, Entry>, alerts: seq<Alert>)

  /** The age of the stored result: `ttl + 1` when there is none, so that a
      missing result always counts as expired. */
  function Age(stored: Option<Entry>, ttl: int, now: int): (age: int)
    ensures stored.None? ==> age > ttl
    ensures stored.Some? ==> age == now - stored.value.timestamp
  {
    if stored.None? then ttl + 1 else now - stored.value.timestamp
  }

  /** The age as the source computes it: the `seconds` field of a
      `timedelta`, which leaves out whole days (Python normalises it into
      `0 <= seconds < 86400`, a floor remainder like Dafny's `%`). */
  function AgeAsWritten(stored: Option<Entry>, ttl: int, now: int): (age: int)
    ensures stored.Some? ==> 0 <= age < 86400
  {
    if stored.None? then ttl + 1 else (now - stored.value.timestamp) % 86400
  }

  /** A result that is a day and ten seconds old is treated as ten seconds
      old, so with the default ttl the day-old result is served again. */
  lemma AgeAsWrittenServesStaleEntry(e: Entry)
    requires e.timestamp == 0
    ensures AgeAsWritten(Some(e), DEFAULT_TTL, 86410) == 10 <= DEFAULT_TTL
    ensures Age(Some(e), DEFAULT_TTL, 86410) == 86410 > DEFAULT_TTL
  {
  }

  /** An alert is due after a run that fails with no previous result, or whose
      outcome differs from the previous one. */
  predicate AlertDue(last: Option<bool>, success: bool) {
    (last.None? && !success) || (last.Some? && last.value != success)
  }

  function AlertMessage(c: Check, success: bool): string {
    c.project + "/" + c.name + " " + (if success then "recovered" else "is failing")
  }

  function Reply(c: Check, e: Entry): (r: Response)
    ensures r.Json? && r.body.infos == CheckInfos(c)
  {
    Json(if e.success then 200 else 503, Body(CheckInfos(c), e.timestamp, e.duration, e.success, e.data))
  }

  /** Serving one request, given the outcome `r` of applying its URL query to
      the registered check (`OverrideParams`), starting from cache content
      `content`. */
  function Serve(r: Result<Check>, content: map<string, Entry>,
                 clock: Clock, run: Dict<string, Value> -> (bool, Value)): Outcome
  {
    match r
    case Err(e) => Outcome(if e.ValueError? then BadRequest else Failure(e), content, [])
    case Ok(check) =>
      var key := CacheKey(check);
      var stored := if key in content then Some(content[key]) else None;
      if Age(stored, check.ttl, clock.now) > check.ttl then
        var outcome := run(check.params);
        var e := Entry(clock.completed, outcome.0, outcome.1, clock.after - clock.before);
        var last := if stored.Some? then Some(stored.value.success) else None;
        var alerts := if AlertDue(last, e.success) then [Alert(AlertMessage(check, e.success), e.data)] else [];
        Outcome(Reply(check, e), content[key := e], alerts)
      else
        Outcome(Reply(check, stored.value), content, [])
  }

  /** Whether serving re-runs the check: iff no result is stored under the
      key, or the stored one is older than the ttl. */
  predicate Expired(check: Check, content: map<string, Entry>, now: int) {
    CacheKey(check) !in content || now - content[CacheKey(check)].timestamp > check.ttl
  }

  /** A query value that cannot be coerced is a bad request: nothing runs,
      the cache is untouched and no alert is sent. For a constructed check
      every override failure is of that kind. */
  lemma ServeRejectsBadOverride(c: Check, query: seq<(string, string)>, content: map<string, Entry>,
                                clock: Clock, run: Dict<string, Value> -> (bool, Value))
    requires Conforms(c)
    ensures var r := OverrideParams(c, query);
      r.Err? ==> Serve(r, content, clock, run) == Outcome(BadRequest, content, [])
  {
    OverrideFailsWithValueError(c, query);
  }

  /** Only a failed override answers a bad request. */
  lemma ServeBadRequestOnlyOnError(r: Result<Check>, content: map<string, Entry>,
                                   clock: Clock, run: Dict<string, Value> -> (bool, Value))
    ensures Serve(r, content, clock, run).response == BadRequest <==> r.Err? && r.error.ValueError?
  {
  }

  /** When the stored result is still fresh it is answered unchanged and
      nothing else happens; otherwise the check runs on the effective
      parameters and its stamped result replaces the stored one, every other
      key keeping its result. */
  lemma ServeRunsIffExpired(check: Check, content: map<string, Entry>,
                            clock: Clock, run: Dict<string, Value> -> (bool, Value))
    ensures var o := Serve(Ok(check), content, clock, run);
      var key := CacheKey(check);
      && (!Expired(check, content, clock.now) ==>
            o == Outcome(Reply(check, content[key]), content, []))
      && (Expired(check, content, clock.now) ==>
            var e := Entry(clock.completed, run(check.params).0, run(check.params).1, clock.after - clock.before);
            && o.response == Reply(check, e)
            && o.content == content[key := e]
            && forall k :: k != key ==> (k in o.content <==> k in content) && (k in content ==> o.content[k] == content[k]))
  {
  }

  /** The status is 200 for a successful result and 503 otherwise. */
  lemma ServeStatus(r: Result<Check>, content: map<string, Entry>,
                    clock: Clock, run: Dict<string, Value> -> (bool, Value))
    ensures var o := Serve(r, content, clock, run);
      o.response.Json? ==>
        && (o.response.status == 200 <==> o.response.body.success)
        && (o.response.status == 200 || o.response.status == 503)
  {
  }

  /** At most one alert is sent, and one is sent iff the check ran and either
      failed with no previous result or changed outcome; it says
      "<project>/<name> recovered" or "... is failing" and carries the data. */
  lemma ServeAlerts(check: Check, content: map<string, Entry>,
                    clock: Clock, run: Dict<string, Value> -> (bool, Value))
    ensures var o := Serve(Ok(check), content, clock, run);
      var key := CacheKey(check);
      var success := run(check.params).0;
      && |o.alerts| <= 1
      && (o.alerts != [] <==>
            Expired(check, content, clock.now) &&
            AlertDue(if key in content then Some(content[key].success) else None, success))
      && (o.alerts != [] ==>
            o.alerts[0] == Alert(check.project + "/" + check.name + " " + (if success then "recovered" else "is failing"),
                                 run(check.params).1))
  {
  }

  /** Errors never alert. */
  lemma ServeErrorNoAlert(e: Error, content: map<string, Entry>,
                          clock: Clock, run: Dict<string, Value> -> (bool, Value))
    ensures Serve(Err(e), content, clock, run).alerts == []
    ensures Serve(Err(e), content, clock, run).content == content
  {
  }

  /** A second request within the ttl of a run answers the result of that
      run: the check does not run again and the cache stays as it is. */
  lemma ServeCachesWithinTtl(check: Check, content: map<string, Entry>,
                             clock: Clock, run: Dict<string, Value> -> (bool, Value),
                             clock2: Clock, run2: Dict<string, Value> -> (bool, Value))
    requires clock2.now - clock.completed <= check.ttl
    ensures var o := Serve(Ok(check), content, clock, run);
      var o2 := Serve(Ok(check), o.content, clock2, run2);
      Expired(check, content, clock.now) ==> o2 == Outcome(o.response, o.content, [])
  {
  }

  /** The first failure of `testproject/hb` alerts "testproject/hb is failing". */
  lemma FirstFailureAlert(check: Check, clock: Clock, run: Dict<string, Value> -> (bool, Value))
    requires check.project == "testproject" && check.name == "hb"
    requires !run(check.params).0
    ensures Serve(Ok(check), map[], clock, run).alerts[0].message == "testproject/hb is failing"
    ensures Serve(Ok(check), map[], clock, run).response.status == 503
  {
  }

  /** The results cache the application shares between handlers; the handler
      stores entries without a ttl and computes the age itself, so it behaves
      as a plain map that is overwritten. */
  class ResultCache {
    var content: map<string, Entry>

    constructor()
      ensures content == map[]
    {
      content := map[];
    }

    function Get(key: string): (r: Option<Entry>)
      reads this
      ensures r.Some? <==> key in content
      ensures r.Some? ==> r.value == content[key]
    {
      if key in content then Some(content[key]) else None
    }

    method Set(key: string, e: Entry)
      modifies this
      ensures content == old(content)[key := e]
    {
      content := content[key := e];
    }
  }

  class Handlers {
    /** The descriptions of the registered checks, in registration order. */
    var checkpoints: seq<Infos>
    /** Every alert sent so far. */
    ghost var alerts: seq<Alert>

    constructor()
      ensures checkpoints == [] && alerts == []
    {
      checkpoints := [];
      alerts := [];
    }

    /** Registering a check records its description. */
    method Checkpoint(c: Check)
      modifies this
      ensures checkpoints == old(checkpoints) + [CheckInfos(c)]
      ensures alerts == old(alerts)
    {
      checkpoints := checkpoints + [CheckInfos(c)];
    }

    /** The handler of a registered check, for one request: the query is
        applied to the check and the result answered by `Respond`. */
    method Handle(c: Check, query: seq<(string, string)>, cache: ResultCache,
                  clock: Clock, run: Dict<string, Value> -> (bool, Value)) returns (response: Response)
      modifies this, cache
      ensures var o := Serve(OverrideParams(c, query), old(cache.content), clock, run);
        && response == o.response
        && cache.content == o.content
        && alerts == old(alerts) + o.alerts
        && checkpoints == old(checkpoints)
    {
      var r := OverrideParams(c, query);
      response := Respond(r, cache, clock, run);
    }

    /** The handler once the query has been applied, giving `r`. */
    method Respond(r: Result<Check>, cache: ResultCache,
                   clock: Clock, run: Dict<string, Value> -> (bool, Value)) returns (response: Response)
      modifies this, cache
      ensures var o := Serve(r, old(cache.content), clock, run);
        && response == o.response
        && cache.content == o.content
        && alerts == old(alerts) + o.alerts
        && checkpoints == old(checkpoints)
    {
      if r.Err? {
        if r.error.ValueError? {
          return BadRequest;
        }
        return Failure(r.error);
      }
      var check := r.value;
      var key := CacheKey(check);
      var stored := cache.Get(key);
      var age: int;
      var last: Option<bool>;
      if stored.None? {
        age := check.ttl + 1;
        last := None;
      } else {
        age := clock.now - stored.value.timestamp;
        last := Some(stored.value.success);
      }
      var e: Entry;
      if age > check.ttl {
        var outcome := run(check.params);
        e := Entry(clock.completed, outcome.0, outcome.1, clock.after - clock.before);
        cache.Set(key, e);
        if (last.None? && !e.success) || (last.Some? && last.value != e.success) {
          alerts := alerts + [Alert(AlertMessage(check, e.success), e.data)];
        }
      } else {
        e := stored.value;
      }
      response := Reply(check, e);
    }
  }
}
