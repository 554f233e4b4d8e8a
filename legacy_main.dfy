/** The earlier application of `poucave/main.py`: each check is registered
    with its configuration as given (no parameter validation), and its
    handler serves the result cached under `project/name` in an expiring
    cache, running the check only when nothing valid is cached. */
module LegacyMain {
  import opened Common
  import opened OrderedDict
  import opened Params
  import opened App
  import opened Utils

  /** The description a registered check publishes. */
  datatype LegacyInfos = LegacyInfos(name: string, project: string, moduleName: string,
                                     description: string, documentation: string)

  /** What a handler closes over once its check is registered. */
  datatype Registration = Registration(infos: LegacyInfos, ttl: int, params: Dict<string, Value>)

  /** `(success, data)` as returned by a check. */
  type CheckResult = (bool, Value)

  datatype LegacyResponse = LegacyResponse(status: int, infos: LegacyInfos, data: Value)

  /** Registering `project/name`: the ttl defaults when falsy and the
      parameters when missing; the module must be known and documented
      (`mod.__doc__.strip()` fails on a module without a docstring). */
  function Register(reg: Registry, project: string, name: string, description: string, modulePath: string,
                    ttl: Option<int>, params: Option<Dict<string, Value>>): Result<Registration>
  {
    match Get(reg, modulePath)
    case None => Err(ImportError("No module named '" + modulePath + "'"))
    case Some(m) =>
      if m.doc.None? then Err(AttributeError("'NoneType' object has no attribute 'strip'"))
      else
        var infos := LegacyInfos(name, project, modulePath, description, Strip(m.doc.value));
        Ok(Registration(infos, EffectiveTtl(ttl), if params.Some? then params.value else []))
  }

  /** A registration keeps the given identity, a non-zero ttl that is the one
      given unless that is missing or zero, and the given parameters or none;
      it fails iff the module is unknown or has no documentation. */
  lemma RegisterSpec(reg: Registry, project: string, name: string, description: string, modulePath: string,
                     ttl: Option<int>, params: Option<Dict<string, Value>>)
    ensures var r := Register(reg, project, name, description, modulePath, ttl, params);
      && (r.Ok? <==> Get(reg, modulePath).Some? && Get(reg, modulePath).value.doc.Some?)
      && (Get(reg, modulePath).None? ==> r.Err? && r.error.ImportError?)
      && (Get(reg, modulePath).Some? && Get(reg, modulePath).value.doc.None? ==> r.Err? && r.error.AttributeError?)
      && (r.Ok? ==>
            && r.value.infos.project == project && r.value.infos.name == name
            && r.value.infos.moduleName == modulePath && r.value.infos.description == description
            && r.value.ttl != 0
            && r.value.ttl == (if ttl == None || ttl == Some(0) then DEFAULT_TTL else ttl.value)
            && r.value.params == (if params.Some? then params.value else []))
  {
  }

  /** The cache key of a registered check; it depends on nothing else. */
  function LegacyKey(reg: Registration): string {
    reg.infos.project + "/" + reg.infos.name
  }

  /** Serving one request: the cached result if valid at `now`, otherwise
      the check's result, cached until `completed + ttl`. Answers the
      response and the cache content it leaves. */
  function LegacyServe(reg: Registration, content: map<string, Stored<CheckResult>>, now: int, completed: int,
                       run: Dict<string, Value> -> CheckResult): (LegacyResponse, map<string, Stored<CheckResult>>)
  {
    var key := LegacyKey(reg);
    var (cached, content') := Lookup(content, key, now);
    var (result, content'') :=
      if cached.None? then
        var result := run(reg.params);
        (result, Store(content', key, result, reg.ttl, completed))
      else (cached.value, content');
    (LegacyResponse(if result.0 then 200 else 503, reg.infos, result.1), content'')
  }

  /** The check runs iff nothing valid is cached under `project/name`, and
      its result is then cached until `completed + ttl`, every other entry
      kept as it was; otherwise the cached result is answered and the cache
      is unchanged. The status is 200 iff
      the answered result succeeded, else 503. */
  lemma LegacyServeSpec(reg: Registration, content: map<string, Stored<CheckResult>>, now: int, completed: int,
                        run: Dict<string, Value> -> CheckResult)
    ensures var (resp, content') := LegacyServe(reg, content, now, completed, run);
      var key := reg.infos.project + "/" + reg.infos.name;
      var valid := key in content && now <= content[key].expires;
      && (valid ==>
            && content' == content
            && resp == LegacyResponse(if content[key].value.0 then 200 else 503, reg.infos, content[key].value.1))
      && (!valid ==>
            && key in content' && content'[key] == Stored(completed + reg.ttl, run(reg.params))
            && (forall k :: k != key ==> (k in content' <==> k in content) && (k in content ==> content'[k] == content[k]))
            && resp == LegacyResponse(if run(reg.params).0 then 200 else 503, reg.infos, run(reg.params).1))
      && (resp.status == 200 <==> (if valid then content[key].value.0 else run(reg.params).0))
  {
    LookupHit(content, reg.infos.project + "/" + reg.infos.name, now);
  }

  /** After a request that ran the check, a request within the ttl answers
      that run's result without running the check again. */
  lemma LegacyServeCaches(reg: Registration, content: map<string, Stored<CheckResult>>, now: int, completed: int,
                          run: Dict<string, Value> -> CheckResult, later: int, run2: Dict<string, Value> -> CheckResult)
    requires Lookup(content, LegacyKey(reg), now).0.None?
    requires later <= completed + reg.ttl
    ensures var (resp, content') := LegacyServe(reg, content, now, completed, run);
      LegacyServe(reg, content', later, completed, run2) == (resp, content')
  {
    var key := LegacyKey(reg);
    var c1 := Lookup(content, key, now).1;
    StoreThenLookup(c1, key, run(reg.params), reg.ttl, completed, later);
  }

  class LegacyHandlers {
    var cache: Cache<CheckResult>
    var checkpoints: seq<LegacyInfos>

    constructor()
      ensures checkpoints == [] && fresh(cache) && cache.content == map[]
    {
      cache := new Cache();
      checkpoints := [];
    }

    /** `checkpoint`: registers the check and records its description; a
        failed registration records nothing. */
    method Checkpoint(reg: Registry, project: string, name: string, description: string, modulePath: string,
                      ttl: Option<int>, params: Option<Dict<string, Value>>) returns (r: Result<Registration>)
      modifies this
      ensures r == Register(reg, project, name, description, modulePath, ttl, params)
      ensures checkpoints == old(checkpoints) + (if r.Ok? then [r.value.infos] else [])
      ensures cache == old(cache)
    {
      r := Register(reg, project, name, description, modulePath, ttl, params);
      if r.Ok? {
        checkpoints := checkpoints + [r.value.infos];
      }
    }

    /** The handler of a registered check, for one request. */
    method Handle(reg: Registration, now: int, completed: int, run: Dict<string, Value> -> CheckResult)
      returns (resp: LegacyResponse)
      modifies cache
      ensures (resp, cache.content) == LegacyServe(reg, old(cache.content), now, completed, run)
    {
      var key := reg.infos.project + "/" + reg.infos.name;
      var result := cache.Get(key, now);
      var r: CheckResult;
      if result.None? {
        r := run(reg.params);
        cache.Set(key, r, reg.ttl, completed);
      } else {
        r := result.value;
      }
      resp := LegacyResponse(if r.0 then 200 else 503, reg.infos, r.1);
    }
  }
}
