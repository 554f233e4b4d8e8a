/** The check registry of the web application: checks built from the
    configuration, the binding of configured parameters to the declared
    parameter types, selection by project and name, the URL override, the
    exposed parameters, the public description of a check and its cache key. */
module App {
  import opened Common
  import opened OrderedDict
  import opened Params

  /** Lifetime of a cached check result when the configuration gives none, in seconds. */
  const DEFAULT_TTL: int := 60

  /** What the application reads from a check module: its name, its
      docstring, the declared parameter types of its `run` function, and its
      `URL_PARAMETERS` and `EXPOSED_PARAMETERS` lists (empty when absent). */
  datatype CheckModule = CheckModule(
    name: string,
    doc: Option<string>,
    schema: Dict<string, TypeTag>,
    urlParameters: seq<string>,
    exposedParameters: seq<string>)

  /** The importable check modules, by dotted path. */
  type Registry = Dict<string, CheckModule>

  /** The `module` argument of a check: a dotted path to import, or a module already imported. */
  datatype ModuleRef = ByName(path: string) | Loaded(m: CheckModule)

  datatype Check = Check(
    project: string,
    name: string,
    description: string,
    ttl: int,
    mod: CheckModule,
    doc: string,
    params: Dict<string, Value>)

  /** One `[checks.<project>.<name>]` table of the configuration. */
  datatype CheckConf = CheckConf(
    description: string,
    modulePath: string,
    ttl: Option<int>,
    params: Option<Dict<string, Value>>)

  type Conf = Dict<string, Dict<string, CheckConf>>

  // ---------------------------------------------------------------------------
  // Building a check

  /** `ttl or DEFAULT_TTL`: a missing or zero ttl takes the default. */
  function EffectiveTtl(ttl: Option<int>): (r: int)
    ensures r != 0
  {
    if ttl.None? || ttl.value == 0 then DEFAULT_TTL else ttl.value
  }

  function Import(reg: Registry, moduleRef: ModuleRef): Result<CheckModule> {
    match moduleRef
    case Loaded(m) => Ok(m)
    case ByName(path) =>
      match Get(reg, path)
      case Some(m) => Ok(m)
      case None => Err(ImportError("No module named '" + path + "'"))
  }

  /** How the `module` argument reads in an error message. */
  function ModuleText(moduleRef: ModuleRef): string {
    match moduleRef
    case ByName(path) => path
    case Loaded(m) => "<module '" + m.name + "'>"
  }

  /** `(module.__doc__ or "").strip()` */
  function DocText(m: CheckModule): string {
    Strip(if m.doc.Some? then m.doc.value else "")
  }

  /** One configured parameter: it must be declared, and its value is coerced
      to the declared type. */
  function BindParam(schema: Dict<string, TypeTag>, text: string, p: (string, Value)): (r: Result<(string, Value)>)
    ensures r.Ok? ==> r.value.0 == p.0
  {
    match Get(schema, p.0)
    case None => Err(ValueError("Unknown parameter '" + p.0 + "' for '" + text + "'"))
    case Some(t) =>
      match Coerce(t, p.1)
      case Err(e) => Err(e)
      case Ok(w) => Ok((p.0, w))
  }

  /** The binding loop: each parameter of the configuration dictionary in
      turn, stopping at the first error. Its keys are distinct, so assigning
      each into the fresh `self.params` appends it. */
  function BindParams(schema: Dict<string, TypeTag>, text: string, params: Dict<string, Value>): Result<Dict<string, Value>> {
    Gather(BindResults(schema, text, params))
  }

  /** The outcome of binding each parameter, in configuration order. */
  function BindResults(schema: Dict<string, TypeTag>, text: string, params: Dict<string, Value>): (r: seq<Result<(string, Value)>>)
    ensures |r| == |params| && forall i :: 0 <= i < |params| ==> r[i] == BindParam(schema, text, params[i])
  {
    seq(|params|, i requires 0 <= i < |params| => BindParam(schema, text, params[i]))
  }

  /** Binding succeeds iff every parameter is declared and coercible; it then
      holds the coerced values under the same keys in configuration order,
      and otherwise fails with the error of the first parameter that is not. */
  lemma BindParamsSpec(schema: Dict<string, TypeTag>, text: string, params: Dict<string, Value>)
    ensures var r := BindParams(schema, text, params);
      && (r.Ok? <==> forall i :: 0 <= i < |params| ==> BindParam(schema, text, params[i]).Ok?)
      && (r.Ok? ==>
            && Keys(r.value) == Keys(params)
            && forall i :: 0 <= i < |params| ==> BindParam(schema, text, params[i]) == Ok(r.value[i]))
      && (r.Err? ==> exists i :: (0 <= i < |params|
            && BindParam(schema, text, params[i]) == Err(r.error)
            && forall j :: 0 <= j < i ==> BindParam(schema, text, params[j]).Ok?))
  {
    var rs := BindResults(schema, text, params);
    GatherSpec(rs);
    var r := BindParams(schema, text, params);
    if r.Ok? {
      assert Keys(r.value) == Keys(params) by {
        forall i | 0 <= i < |params| ensures Keys(r.value)[i] == Keys(params)[i] {
          assert rs[i] == Ok(r.value[i]);
        }
      }
    }
  }

  /** `Check(project, name, description, module, ttl, params)` */
  function MakeCheck(reg: Registry, project: string, name: string, description: string,
                     moduleRef: ModuleRef, ttl: Option<int>, params: Option<Dict<string, Value>>): (r: Result<Check>)
    ensures r.Ok? ==> r.value.project == project && r.value.name == name && r.value.description == description
  {
    match Import(reg, moduleRef)
    case Err(e) => Err(e)
    case Ok(m) =>
      match BindParams(m.schema, ModuleText(moduleRef), if params.Some? then params.value else [])
      case Err(e) => Err(e)
      case Ok(ps) => Ok(Check(project, name, description, EffectiveTtl(ttl), m, DocText(m), ps))
  }

  /** What every constructed check satisfies: a non-zero ttl, the module's
      documentation, and parameters that are all declared, each holding a
      value of its declared type, without repetition. */
  predicate Conforms(c: Check) {
    && c.ttl != 0
    && c.doc == DocText(c.mod)
    && NoDupKeys(c.params)
    && forall i :: 0 <= i < |c.params| ==> ParamConforms(c.mod.schema, c.params[i])
  }

  predicate ParamConforms(schema: Dict<string, TypeTag>, p: (string, Value)) {
    Get(schema, p.0).Some? && Coerce(Get(schema, p.0).value, p.1) == Ok(p.1)
  }

  /** A bound parameter conforms: binding it again gives it back. */
  lemma BindParamConforms(schema: Dict<string, TypeTag>, text: string, p: (string, Value))
    requires BindParam(schema, text, p).Ok?
    ensures ParamConforms(schema, BindParam(schema, text, p).value)
  {
    CoerceIdempotent(Get(schema, p.0).value, p.1);
  }

  /** A constructed check has the project, name and description it was given,
      a ttl that is the given one unless that is missing or zero, in which
      case it is `DEFAULT_TTL`, and parameters that conform to the schema. */
  lemma MakeCheckSpec(reg: Registry, project: string, name: string, description: string,
                      moduleRef: ModuleRef, ttl: Option<int>, params: Option<Dict<string, Value>>)
    requires params.Some? ==> NoDupKeys(params.value)
    ensures var r := MakeCheck(reg, project, name, description, moduleRef, ttl, params);
      r.Ok? ==>
        && r.value.ttl == (if ttl == None || ttl == Some(0) then DEFAULT_TTL else ttl.value)
        && Conforms(r.value)
  {
    var r := MakeCheck(reg, project, name, description, moduleRef, ttl, params);
    if r.Ok? {
      var m := Import(reg, moduleRef).value;
      var ps := if params.Some? then params.value else [];
      BoundConforms(m.schema, ModuleText(moduleRef), ps);
    }
  }

  /** Bound parameters keep distinct keys and each conforms to the schema. */
  lemma BoundConforms(schema: Dict<string, TypeTag>, text: string, ps: Dict<string, Value>)
    requires NoDupKeys(ps) && BindParams(schema, text, ps).Ok?
    ensures var bound := BindParams(schema, text, ps).value;
      NoDupKeys(bound) && forall i :: 0 <= i < |bound| ==> ParamConforms(schema, bound[i])
  {
    BindParamsSpec(schema, text, ps);
    var bound := BindParams(schema, text, ps).value;
    forall i | 0 <= i < |bound| ensures ParamConforms(schema, bound[i]) {
      BindParamConforms(schema, text, ps[i]);
    }
  }

  /** Construction fails iff the module is unknown, or some configured
      parameter is not declared or cannot be coerced; the error is that of
      the first parameter in error, an undeclared one reported by name. */
  lemma MakeCheckErrors(reg: Registry, project: string, name: string, description: string,
                        moduleRef: ModuleRef, ttl: Option<int>, ps: Dict<string, Value>)
    ensures var r := MakeCheck(reg, project, name, description, moduleRef, ttl, Some(ps));
      && (Import(reg, moduleRef).Err? ==> r == Err(Import(reg, moduleRef).error))
      && (Import(reg, moduleRef).Ok? ==>
            (r.Ok? <==> forall i :: 0 <= i < |ps| ==>
               BindParam(Import(reg, moduleRef).value.schema, ModuleText(moduleRef), ps[i]).Ok?))
      && (Import(reg, moduleRef).Ok? && r.Err? ==> exists i :: (0 <= i < |ps|
            && (Get(Import(reg, moduleRef).value.schema, ps[i].0).None? ==>
                  r.error == ValueError("Unknown parameter '" + ps[i].0 + "' for '" + ModuleText(moduleRef) + "'"))
            && (Get(Import(reg, moduleRef).value.schema, ps[i].0).Some? ==>
                  Coerce(Get(Import(reg, moduleRef).value.schema, ps[i].0).value, ps[i].1) == Err(r.error))))
  {
    if Import(reg, moduleRef).Ok? {
      BindParamsSpec(Import(reg, moduleRef).value.schema, ModuleText(moduleRef), ps);
    }
  }

  /** The constructor's binding loop. */
  method NewCheck(reg: Registry, project: string, name: string, description: string,
                  moduleRef: ModuleRef, ttl: Option<int>, params: Option<Dict<string, Value>>)
    returns (r: Result<Check>)
    ensures r == MakeCheck(reg, project, name, description, moduleRef, ttl, params)
  {
    var t := if ttl.None? || ttl.value == 0 then DEFAULT_TTL else ttl.value;
    var imported := Import(reg, moduleRef);
    if imported.Err? {
      return Err(imported.error);
    }
    var m := imported.value;
    var bound := BindEach(m.schema, ModuleText(moduleRef), if params.Some? then params.value else []);
    if bound.Err? {
      return Err(bound.error);
    }
    r := Ok(Check(project, name, description, t, m, DocText(m), bound.value));
  }

  /** The loop over the configured parameters: each must be declared, and is
      assigned its coerced value; the first failure is raised. */
  method BindEach(schema: Dict<string, TypeTag>, text: string, ps: Dict<string, Value>) returns (r: Result<Dict<string, Value>>)
    ensures r == BindParams(schema, text, ps)
  {
    ghost var rs := BindResults(schema, text, ps);
    var bound: Dict<string, Value> := [];
    var i := 0;
    while i < |ps|
      invariant 0 <= i <= |ps|
      invariant Gather(rs[..i]) == Ok(bound)
    {
      var (k, v) := ps[i];
      GatherSnoc(rs, i);
      match Get(schema, k) {
        case None =>
          GatherStops(rs, i + 1);
          return Err(ValueError("Unknown parameter '" + k + "' for '" + text + "'"));
        case Some(ty) =>
          var w := Coerce(ty, v);
          if w.Err? {
            GatherStops(rs, i + 1);
            return Err(w.error);
          }
          bound := bound + [(k, w.value)];
      }
      i := i + 1;
    }
    assert rs[..i] == rs;
    r := Ok(bound);
  }

  // ---------------------------------------------------------------------------
  // Loading the configuration

  /** `Check(project, name, **params)` for one configured table. */
  function ConfCheck(reg: Registry, project: string, entry: (string, CheckConf)): (r: Result<Check>)
    ensures r.Ok? ==> r.value.project == project && r.value.name == entry.0
  {
    MakeCheck(reg, project, entry.0, entry.1.description, ByName(entry.1.modulePath), entry.1.ttl, entry.1.params)
  }

  function ProjectResults(reg: Registry, project: string, checks: Dict<string, CheckConf>): (r: seq<Result<Check>>)
    ensures |r| == |checks| && forall i :: 0 <= i < |checks| ==> r[i] == ConfCheck(reg, project, checks[i])
  {
    seq(|checks|, i requires 0 <= i < |checks| => ConfCheck(reg, project, checks[i]))
  }

  /** The checks of one project, built in configuration order; the first error stops the loading. */
  function LoadProject(reg: Registry, project: string, checks: Dict<string, CheckConf>): Result<seq<Check>> {
    Gather(ProjectResults(reg, project, checks))
  }

  function ConfResults(reg: Registry, conf: Conf): (r: seq<Result<seq<Check>>>)
    ensures |r| == |conf| && forall i :: 0 <= i < |conf| ==> r[i] == LoadProject(reg, conf[i].0, conf[i].1)
  {
    seq(|conf|, i requires 0 <= i < |conf| => LoadProject(reg, conf[i].0, conf[i].1))
  }

  /** `Checks(conf).all`: every project's checks, projects in configuration order. */
  function LoadAll(reg: Registry, conf: Conf): Result<seq<Check>> {
    match Gather(ConfResults(reg, conf))
    case Err(e) => Err(e)
    case Ok(parts) => Ok(Flatten(parts))
  }

  /** The (project, name) pairs of one project's configuration, in order. */
  function ProjectEntries(project: string, checks: Dict<string, CheckConf>): (r: seq<(string, string)>)
    ensures |r| == |checks| && forall i :: 0 <= i < |checks| ==> r[i] == (project, checks[i].0)
  {
    seq(|checks|, i requires 0 <= i < |checks| => (project, checks[i].0))
  }

  /** The (project, name) pairs of each project's configuration. */
  function ConfEntries(conf: Conf): (r: seq<seq<(string, string)>>)
    ensures |r| == |conf| && forall i :: 0 <= i < |conf| ==> r[i] == ProjectEntries(conf[i].0, conf[i].1)
  {
    seq(|conf|, i requires 0 <= i < |conf| => ProjectEntries(conf[i].0, conf[i].1))
  }

  function Names(cs: seq<Check>): (r: seq<(string, string)>)
    ensures |r| == |cs| && forall i :: 0 <= i < |cs| ==> r[i] == (cs[i].project, cs[i].name)
  {
    seq(|cs|, i requires 0 <= i < |cs| => (cs[i].project, cs[i].name))
  }

  function NamesEach(ss: seq<seq<Check>>): (r: seq<seq<(string, string)>>)
    ensures |r| == |ss| && forall i :: 0 <= i < |ss| ==> r[i] == Names(ss[i])
  {
    seq(|ss|, i requires 0 <= i < |ss| => Names(ss[i]))
  }

  lemma LoadProjectOrder(reg: Registry, project: string, checks: Dict<string, CheckConf>)
    ensures LoadProject(reg, project, checks).Ok? ==>
      Names(LoadProject(reg, project, checks).value) == ProjectEntries(project, checks)
  {
    var rs := ProjectResults(reg, project, checks);
    GatherSpec(rs);
    var g := Gather(rs);
    if g.Ok? {
      forall i | 0 <= i < |checks| ensures Names(g.value)[i] == ProjectEntries(project, checks)[i] {
        assert rs[i] == Ok(g.value[i]);
      }
    }
  }

  lemma NamesAppend(a: seq<Check>, b: seq<Check>)
    ensures Names(a + b) == Names(a) + Names(b)
  {
    assert forall i :: 0 <= i < |a| ==> (a + b)[i] == a[i];
    assert forall i :: 0 <= i < |b| ==> (a + b)[|a| + i] == b[i];
  }

  lemma {:induction false} NamesFlatten(ss: seq<seq<Check>>)
    ensures Names(Flatten(ss)) == Flatten(NamesEach(ss))
    decreases |ss|
  {
    if ss != [] {
      var init := ss[..|ss| - 1];
      NamesFlatten(init);
      assert NamesEach(ss)[..|ss| - 1] == NamesEach(init);
      NamesAppend(Flatten(init), ss[|ss| - 1]);
    }
  }

  /** A loaded configuration lists its checks in configuration order: one per
      configured table, projects in order and checks in order within each. */
  lemma LoadAllOrder(reg: Registry, conf: Conf)
    ensures LoadAll(reg, conf).Ok? ==> Names(LoadAll(reg, conf).value) == Flatten(ConfEntries(conf))
  {
    var rs := ConfResults(reg, conf);
    var g := Gather(rs);
    GatherSpec(rs);
    if g.Ok? {
      NamesFlatten(g.value);
      forall i | 0 <= i < |conf| ensures NamesEach(g.value)[i] == ConfEntries(conf)[i] {
        assert rs[i] == Ok(g.value[i]);
        LoadProjectOrder(reg, conf[i].0, conf[i].1);
      }
      assert NamesEach(g.value) == ConfEntries(conf);
    }
  }

  /** The inner loop of `Checks.__init__`: one project's checks. */
  method LoadProjectChecks(reg: Registry, project: string, checks: Dict<string, CheckConf>)
    returns (r: Result<seq<Check>>)
    ensures r == LoadProject(reg, project, checks)
  {
    ghost var rs := ProjectResults(reg, project, checks);
    var all: seq<Check> := [];
    var i := 0;
    while i < |checks|
      invariant 0 <= i <= |checks|
      invariant Gather(rs[..i]) == Ok(all)
    {
      var (name, cc) := checks[i];
      GatherSnoc(rs, i);
      var c := NewCheck(reg, project, name, cc.description, ByName(cc.modulePath), cc.ttl, cc.params);
      assert c == rs[i];
      if c.Err? {
        GatherStops(rs, i + 1);
        return Err(c.error);
      }
      all := all + [c.value];
      i := i + 1;
    }
    assert rs[..i] == rs;
    r := Ok(all);
  }

  /** `Checks.__init__`: the outer loop over projects. */
  method LoadChecks(reg: Registry, conf: Conf) returns (r: Result<seq<Check>>)
    ensures r == LoadAll(reg, conf)
  {
    ghost var rs := ConfResults(reg, conf);
    ghost var parts: seq<seq<Check>> := [];
    var all: seq<Check> := [];
    var i := 0;
    while i < |conf|
      invariant 0 <= i <= |conf|
      invariant Gather(rs[..i]) == Ok(parts) && all == Flatten(parts)
    {
      var (project, checks) := conf[i];
      GatherSnoc(rs, i);
      var more := LoadProjectChecks(reg, project, checks);
      if more.Err? {
        GatherStops(rs, i + 1);
        return Err(more.error);
      }
      assert (parts + [more.value])[..|parts|] == parts;
      parts := parts + [more.value];
      all := all + more.value;
      i := i + 1;
    }
    assert rs[..i] == rs;
    r := Ok(all);
  }

  // ---------------------------------------------------------------------------
  // Selecting checks

  /** `Checks.get(project, name)` */
  function Select(all: seq<Check>, project: Option<string>, name: Option<string>): Result<seq<Check>> {
    if project.None? then Ok(all)
    else
      var selected := Filter(all, (c: Check) => c.project == project.value);
      if selected == [] then Err(ValueError("Unknown project '" + project.value + "'"))
      else if name.None? then Ok(selected)
      else
        var named := Filter(selected, (c: Check) => c.name == name.value);
        if named == [] then Err(ValueError("Unknown check '" + project.value + "." + name.value + "'"))
        else Ok(named)
  }

  /** Without a project every check is returned in order (a name alone is
      ignored); with one, the result keeps the order of the configuration and
      holds exactly the checks of that project (and of that name, when one is
      given); it fails iff that selection is empty, naming the project when
      the project has no check at all. */
  lemma SelectSpec(all: seq<Check>, project: Option<string>, name: Option<string>)
    ensures var r := Select(all, project, name);
      && (project.None? ==> r == Ok(all))
      && (r.Ok? ==> (IsSubsequence(r.value, all)
            && forall c :: c in r.value <==>
                 c in all && (project.Some? ==> c.project == project.value && (name.Some? ==> c.name == name.value))))
      && (r.Err? <==> project.Some? && forall c :: c in all ==>
                 c.project != project.value || (name.Some? && c.name != name.value))
      && (project.Some? && (forall c :: c in all ==> c.project != project.value) ==>
            r == Err(ValueError("Unknown project '" + project.value + "'")))
  {
    if project.None? {
      SubsequenceRefl(all);
    } else {
      var selected := Filter(all, (c: Check) => c.project == project.value);
      if selected != [] {
        assert selected[0] in selected;
        if name.Some? {
          var named := Filter(selected, (c: Check) => c.name == name.value);
          if named != [] {
            assert named[0] in named;
            SubsequenceTrans(named, selected, all);
          }
        }
      }
    }
  }

  // ---------------------------------------------------------------------------
  // Query override, exposed parameters, public description, cache key

  /** The query pairs whose key the module allows in the URL, in query order, as string values. */
  function QueryPairs(m: CheckModule, query: seq<(string, string)>): seq<(string, Value)> {
    var kept := Filter(query, (p: (string, string)) => p.0 in m.urlParameters);
    seq(|kept|, i requires 0 <= i < |kept| => (kept[i].0, Str(kept[i].1)))
  }

  /** `{p: v for p, v in query.items() if p in URL_PARAMETERS}`: a repeated key keeps its last value. */
  function UrlQuery(m: CheckModule, query: seq<(string, string)>): Dict<string, Value> {
    PutAll([], QueryPairs(m, query))
  }

  /** `check.override_params(query)`: the same check rebuilt from its module
      object with `{**params, **query_params}`. */
  function OverrideParams(c: Check, query: seq<(string, string)>): Result<Check> {
    MakeCheck([], c.project, c.name, c.description, Loaded(c.mod), Some(c.ttl), Some(Merged(c, query)))
  }

  /** An override keeps the project, name, description, ttl and module of the check. */
  lemma OverrideKeepsIdentity(c: Check, query: seq<(string, string)>)
    requires c.ttl != 0
    ensures var r := OverrideParams(c, query);
      r.Ok? ==> r.value.project == c.project && r.value.name == c.name && r.value.description == c.description
                && r.value.ttl == c.ttl && r.value.mod == c.mod
  {
  }

  lemma QueryPairsAreStrings(m: CheckModule, query: seq<(string, string)>, p: (string, Value))
    requires p in QueryPairs(m, query)
    ensures p.1.Str? && p.0 in m.urlParameters
  {
    var kept := Filter(query, (q: (string, string)) => q.0 in m.urlParameters);
    var i :| 0 <= i < |kept| && QueryPairs(m, query)[i] == p;
    assert kept[i] in kept;
  }

  /** A conforming parameter binds to itself. */
  lemma BindConforming(schema: Dict<string, TypeTag>, text: string, p: (string, Value))
    requires ParamConforms(schema, p)
    ensures BindParam(schema, text, p) == Ok(p)
  {
  }

  /** A check whose parameters conform is bound again to the same parameters. */
  lemma RebindConforming(c: Check)
    requires Conforms(c)
    ensures BindParams(c.mod.schema, ModuleText(Loaded(c.mod)), c.params) == Ok(c.params)
  {
    var text := ModuleText(Loaded(c.mod));
    BindParamsSpec(c.mod.schema, text, c.params);
    forall i | 0 <= i < |c.params| ensures BindParam(c.mod.schema, text, c.params[i]) == Ok(c.params[i]) {
      BindConforming(c.mod.schema, text, c.params[i]);
    }
    var r := BindParams(c.mod.schema, text, c.params);
    assert |r.value| == |Keys(r.value)| == |c.params|;
    assert r.value == c.params;
  }

  /** The parameters an override binds: the check's own, then the query's. */
  function Merged(c: Check, query: seq<(string, string)>): Dict<string, Value> {
    PutAll(c.params, UrlQuery(c.mod, query))
  }

  /** A bound dictionary has a key iff its source has it, with the bound value. */
  lemma BoundGet(schema: Dict<string, TypeTag>, text: string, ps: Dict<string, Value>, k: string)
    requires NoDupKeys(ps) && BindParams(schema, text, ps).Ok?
    ensures var bound := BindParams(schema, text, ps).value;
      && (Get(ps, k).None? ==> Get(bound, k).None?)
      && (Get(ps, k).Some? ==> Get(bound, k).Some? && BindParam(schema, text, (k, Get(ps, k).value)) == Ok((k, Get(bound, k).value)))
  {
    BindParamsSpec(schema, text, ps);
    var bound := BindParams(schema, text, ps).value;
    var g := Get(ps, k);
    if g.Some? {
      var i :| 0 <= i < |ps| && ps[i] == (k, g.value);
      assert Keys(bound)[i] == k;
      GetAt(bound, i);
    }
  }

  /** The merged dictionary holds the query's value for a key the query sets,
      and the check's own value otherwise. */
  lemma MergedGet(c: Check, query: seq<(string, string)>, k: string)
    requires NoDupKeys(c.params)
    ensures NoDupKeys(Merged(c, query))
    ensures |c.params| <= |Merged(c, query)|
    ensures Keys(Merged(c, query))[..|c.params|] == Keys(c.params)
    ensures Get(Merged(c, query), k) ==
      if Get(UrlQuery(c.mod, query), k).Some? then Get(UrlQuery(c.mod, query), k) else Get(c.params, k)
  {
    var uq := UrlQuery(c.mod, query);
    assert NoDupKeys(uq);
    PutAllKeepsPrefix(c.params, uq);
    GetPutAll(c.params, uq, k);
    LastValueNoDup(uq, k);
  }

  /** The query sets only allowed keys, to strings. */
  lemma UrlQueryGet(m: CheckModule, query: seq<(string, string)>, k: string)
    requires Get(UrlQuery(m, query), k).Some?
    ensures k in m.urlParameters && Get(UrlQuery(m, query), k).value.Str?
  {
    var p := (k, Get(UrlQuery(m, query), k).value);
    PutAllMember([], QueryPairs(m, query), p);
    QueryPairsAreStrings(m, query, p);
  }

  /** An override binds the merged dictionary against the check's own module. */
  lemma OverrideBound(c: Check, query: seq<(string, string)>)
    ensures var r := OverrideParams(c, query);
      var b := BindParams(c.mod.schema, ModuleText(Loaded(c.mod)), Merged(c, query));
      r.Ok? <==> b.Ok?
    ensures var r := OverrideParams(c, query);
      r.Ok? ==> r.value.params == BindParams(c.mod.schema, ModuleText(Loaded(c.mod)), Merged(c, query)).value
  {
  }

  /** Binding a parameter coerces its value with the declared type. */
  lemma BindParamOk(schema: Dict<string, TypeTag>, text: string, k: string, v: Value, w: Value)
    requires BindParam(schema, text, (k, v)) == Ok((k, w))
    ensures Get(schema, k).Some? && Coerce(Get(schema, k).value, v) == Ok(w)
  {
  }

  /** The effective parameters after an override are the check's own with
      exactly the allowed query keys replaced (each by its coerced last query
      value): keys keep their place, the new keys follow, and every other key
      keeps its value. */
  lemma OverrideValues(c: Check, query: seq<(string, string)>, k: string)
    requires Conforms(c)
    ensures var r := OverrideParams(c, query);
      r.Ok? ==>
        && |c.params| <= |r.value.params|
        && Keys(r.value.params)[..|c.params|] == Keys(c.params)
        && (Get(UrlQuery(c.mod, query), k).None? ==> Get(r.value.params, k) == Get(c.params, k))
        && (Get(UrlQuery(c.mod, query), k).Some? ==>
              && k in c.mod.urlParameters
              && Get(c.mod.schema, k).Some? && Get(r.value.params, k).Some?
              && Coerce(Get(c.mod.schema, k).value, Get(UrlQuery(c.mod, query), k).value)
                 == Ok(Get(r.value.params, k).value))
  {
    OverrideBound(c, query);
    var uq := UrlQuery(c.mod, query);
    var merged := Merged(c, query);
    var text := ModuleText(Loaded(c.mod));
    var b := BindParams(c.mod.schema, text, merged);
    if b.Ok? {
      MergedGet(c, query, k);
      BindParamsSpec(c.mod.schema, text, merged);
      BoundGet(c.mod.schema, text, merged, k);
      var bound := b.value;
      if Get(uq, k).Some? {
        UrlQueryGet(c.mod, query, k);
        BindParamOk(c.mod.schema, text, k, Get(uq, k).value, Get(bound, k).value);
      } else if Get(c.params, k).Some? {
        var v := Get(c.params, k).value;
        var j :| 0 <= j < |c.params| && c.params[j] == (k, v);
        BindConforming(c.mod.schema, text, c.params[j]);
      }
    }
  }

  /** Query keys the module does not allow in the URL have no effect. */
  lemma OverrideIgnoresOtherKeys(c: Check, query: seq<(string, string)>)
    requires Conforms(c)
    requires forall i :: 0 <= i < |query| ==> query[i].0 !in c.mod.urlParameters
    ensures OverrideParams(c, query) == Ok(c)
  {
    FilterNone(query, (p: (string, string)) => p.0 in c.mod.urlParameters);
    assert QueryPairs(c.mod, query) == [];
    assert Merged(c, query) == c.params;
    RebindConforming(c);
    assert EffectiveTtl(Some(c.ttl)) == c.ttl;
  }

  /** A parameter taken from the URL fails to bind only with a `ValueError`. */
  lemma QueryParamFailsWithValueError(schema: Dict<string, TypeTag>, text: string, m: CheckModule,
                                      query: seq<(string, string)>, p: (string, Value))
    requires p in QueryPairs(m, query)
    ensures var b := BindParam(schema, text, p); b.Err? ==> b.error.ValueError?
  {
    QueryPairsAreStrings(m, query, p);
    if Get(schema, p.0).Some? {
      CoerceStrFailsWithValueError(Get(schema, p.0).value, p.1.s);
    }
  }

  /** A merged parameter fails to bind only with a `ValueError`. */
  lemma MergedParamFailsWithValueError(c: Check, query: seq<(string, string)>, p: (string, Value))
    requires Conforms(c) && p in Merged(c, query)
    ensures var b := BindParam(c.mod.schema, ModuleText(Loaded(c.mod)), p); b.Err? ==> b.error.ValueError?
  {
    PutAllMember(c.params, UrlQuery(c.mod, query), p);
    if p in c.params {
      ConfiguredParamBinds(c, p);
    } else {
      PutAllMember([], QueryPairs(c.mod, query), p);
      QueryParamFailsWithValueError(c.mod.schema, ModuleText(Loaded(c.mod)), c.mod, query, p);
    }
  }

  /** A configured parameter of a conforming check binds to itself. */
  lemma ConfiguredParamBinds(c: Check, p: (string, Value))
    requires Conforms(c) && p in c.params
    ensures BindParam(c.mod.schema, ModuleText(Loaded(c.mod)), p) == Ok(p)
  {
    var j :| 0 <= j < |c.params| && c.params[j] == p;
    BindConforming(c.mod.schema, ModuleText(Loaded(c.mod)), p);
  }

  /** Since URL values are strings, an override can only fail with a
      `ValueError`: a value that does not coerce, or an allowed key that the
      module does not declare. */
  lemma OverrideFailsWithValueError(c: Check, query: seq<(string, string)>)
    requires Conforms(c)
    ensures OverrideParams(c, query).Err? ==> OverrideParams(c, query).error.ValueError?
  {
    var r := OverrideParams(c, query);
    if r.Err? {
      var merged := Merged(c, query);
      var text := ModuleText(Loaded(c.mod));
      BindParamsSpec(c.mod.schema, text, merged);
      var i :| 0 <= i < |merged| && BindParam(c.mod.schema, text, merged[i]) == Err(r.error);
      MergedParamFailsWithValueError(c, query, merged[i]);
    }
  }

  /** `check.exposed_params` */
  function ExposedParams(c: Check): Dict<string, Value> {
    FilterKeys(c.params, (k: string) => k in c.mod.exposedParameters)
  }

  /** The exposed parameters are a sub-map of the parameters with the same
      values, in the same order, holding exactly the exposed keys. */
  lemma ExposedSubMap(c: Check, k: string)
    ensures IsSubsequence(ExposedParams(c), c.params)
    ensures Get(ExposedParams(c), k) == if k in c.mod.exposedParameters then Get(c.params, k) else None
  {
    GetFilterKeys(c.params, (k: string) => k in c.mod.exposedParameters, k);
  }

  /** A module that shows and lets the URL override one parameter `p`: only
      `p` is shown, and a query without `p` leaves the check as configured. */
  lemma SingleParameterOverridable(c: Check, query: seq<(string, string)>, k: string, p: string)
    requires Conforms(c) && c.mod.exposedParameters == [p] && c.mod.urlParameters == [p]
    requires forall i :: 0 <= i < |query| ==> query[i].0 != p
    ensures Get(ExposedParams(c), k) == if k == p then Get(c.params, k) else None
    ensures OverrideParams(c, query) == Ok(c)
  {
    ExposedSubMap(c, k);
    OverrideIgnoresOtherKeys(c, query);
  }

  /** `check.infos` */
  datatype Infos = Infos(
    name: string, project: string, moduleName: string, description: string,
    documentation: string, url: string, ttl: int, parameters: Dict<string, Value>)

  function CheckInfos(c: Check): Infos {
    Infos(c.name, c.project, c.mod.name, c.description, c.doc,
          "/checks/" + c.project + "/" + c.name, c.ttl, ExposedParams(c))
  }

  /** The description of an overridden check differs from the configured
      one only in its exposed parameters. */
  lemma OverrideInfos(c: Check, query: seq<(string, string)>)
    requires Conforms(c)
    ensures var r := OverrideParams(c, query);
      r.Ok? ==> CheckInfos(r.value) == CheckInfos(c).(parameters := ExposedParams(r.value))
  {
  }

  /** `f"{k}:{v}"` for each effective parameter. */
  function ParamItems(ps: Dict<string, Value>): (items: seq<string>)
    ensures |items| == |ps|
  {
    seq(|ps|, i requires 0 <= i < |ps| => ps[i].0 + ":" + Render(ps[i].1))
  }

  /** The key under which a check's last result is stored. */
  function CacheKey(c: Check): string {
    c.project + "/" + c.name + "-" + Join(",", ParamItems(c.params))
  }

  /** The key starts with the check's `project/name-`. */
  lemma CacheKeyPrefix(c: Check)
    ensures StartsWith(CacheKey(c), c.project + "/" + c.name + "-")
  {
    var p := c.project + "/" + c.name + "-";
    assert CacheKey(c)[..|p|] == p;
  }

  /** Two variants of a check whose parameters differ in the text of one value
      have different keys, so their results are stored apart. */
  lemma CacheKeyDistinguishes(c1: Check, c2: Check, i: nat)
    requires c1.project == c2.project && c1.name == c2.name
    requires |c1.params| == |c2.params| && i < |c1.params|
    requires forall j :: 0 <= j < |c1.params| && j != i ==> c1.params[j] == c2.params[j]
    requires c1.params[i].0 == c2.params[i].0 && Render(c1.params[i].1) != Render(c2.params[i].1)
    ensures CacheKey(c1) != CacheKey(c2)
  {
    var a1, a2 := ParamItems(c1.params), ParamItems(c2.params);
    assert a1[..i] == a2[..i];
    assert a1[i + 1..] == a2[i + 1..];
    assert a1 == a1[..i] + [a1[i]] + a1[i + 1..];
    assert a2 == a2[..i] + [a2[i]] + a2[i + 1..];
    JoinSplice(",", a1[..i], a1[i], a1[i + 1..]);
    JoinSplice(",", a2[..i], a2[i], a2[i + 1..]);
    var k := c1.params[i].0 + ":";
    assert a1[i] == k + Render(c1.params[i].1) && a2[i] == k + Render(c2.params[i].1);
    SpliceInjective(k, Render(c1.params[i].1), Render(c2.params[i].1), "");
    assert a1[i] != a2[i];
    SpliceInjective(JoinPrefix(",", a1[..i]), a1[i], a2[i], JoinSuffix(",", a1[i + 1..]));
    assert Join(",", a1) != Join(",", a2);
    SpliceInjective(c1.project + "/" + c1.name + "-", Join(",", a1), Join(",", a2), "");
  }
}
