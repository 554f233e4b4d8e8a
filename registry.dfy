/** The check modules under `checks/`, as the application sees them once
    imported: the declared parameter types of each `run` function and the
    module's `URL_PARAMETERS` and `EXPOSED_PARAMETERS`. Each module's
    docstring is left as `None`: the documentation of a check is modelled as
    the function `DocText` of its module, not as text. */
module CheckRegistry {
  import opened Common
  import opened OrderedDict
  import opened Params
  import opened App
  import SignaturesAge
  import BackportedRecords
  import BlockedPages
  import UptakeErrorRate
  import JexlErrorRate
  import ReportedRecipes

  const SIGNATURES_AGE := CheckModule("checks.remotesettings.signatures_age", None,
    [("server", StrType), ("auth", StrType), ("max_age", IntType)],
    SignaturesAge.URL_PARAMETERS, SignaturesAge.EXPOSED_PARAMETERS)

  const BACKPORTED_RECORDS := CheckModule("checks.remotesettings.backported_records", None,
    [("server", StrType), ("backports", DictAlias), ("max_lag_seconds", IntType)],
    [], BackportedRecords.EXPOSED_PARAMETERS)

  /** `run(query, server)` carries no annotations. */
  const CHANGES_TIMESTAMPS := CheckModule("checks.remotesettings.changes_timestamps", None, [], [], [])

  const ATTACHMENTS_AVAILABILITY := CheckModule("checks.remotesettings.attachments_availability", None,
    [("server", StrType)], [], [])

  const ATTACHMENTS_INTEGRITY := CheckModule("checks.remotesettings.attachments_integrity", None,
    [("server", StrType)], [], [])

  const BLOCKED_PAGES := CheckModule("checks.remotesettings.blocked_pages", None,
    [("remotesettings_server", StrType), ("blocked_pages", StrType)],
    [], BlockedPages.EXPOSED_PARAMETERS)

  const UPTAKE_ERROR_RATE := CheckModule("checks.remotesettings.uptake_error_rate", None,
    [("api_key", StrType), ("max_error_percentage", FloatType), ("min_total_events", IntType),
     ("sources", ListAlias), ("channels", ListAlias), ("ignore_status", ListAlias), ("ignore_versions", ListAlias)],
    [], UptakeErrorRate.EXPOSED_PARAMETERS)

  const JEXL_ERROR_RATE := CheckModule("checks.normandy.jexl_error_rate", None,
    [("api_key", StrType), ("max_error_percentage", FloatType), ("channels", ListAlias)],
    [], JexlErrorRate.EXPOSED_PARAMETERS)

  const REPORTED_RECIPES := CheckModule("checks.normandy.reported_recipes", None,
    [("server", StrType), ("lag_margin", IntType), ("channels", ListAlias), ("period_hours", IntType)],
    [], ReportedRecipes.EXPOSED_PARAMETERS)

  /** The modules, by dotted path. */
  const REGISTRY: Registry := [
    (SIGNATURES_AGE.name, SIGNATURES_AGE),
    (BACKPORTED_RECORDS.name, BACKPORTED_RECORDS),
    (CHANGES_TIMESTAMPS.name, CHANGES_TIMESTAMPS),
    (ATTACHMENTS_AVAILABILITY.name, ATTACHMENTS_AVAILABILITY),
    (ATTACHMENTS_INTEGRITY.name, ATTACHMENTS_INTEGRITY),
    (BLOCKED_PAGES.name, BLOCKED_PAGES),
    (UPTAKE_ERROR_RATE.name, UPTAKE_ERROR_RATE),
    (JEXL_ERROR_RATE.name, JEXL_ERROR_RATE),
    (REPORTED_RECIPES.name, REPORTED_RECIPES)]

  /** Every module's exposed parameters are parameters its `run` declares,
      and so are the ones it lets the URL override. */
  lemma ExposedAreDeclared(i: nat, p: string)
    requires i < |REGISTRY|
    ensures var m := REGISTRY[i].1;
      (p in m.exposedParameters ==> p in Keys(m.schema)) && (p in m.urlParameters ==> p in Keys(m.schema))
  {
    var m := REGISTRY[i].1;
    var ks := Keys(m.schema);
    assert forall k :: 0 <= k < |m.schema| ==> ks[k] == m.schema[k].0;
    if p in m.exposedParameters || p in m.urlParameters {
      assert i == 0 || i == 1 || i == 5 || i == 6 || i == 7 || i == 8;
      if i == 0 {
        assert p == "max_age" && ks[2] == p;
      } else if i == 1 {
        assert (p == "server" && ks[0] == p) || (p == "max_lag_seconds" && ks[2] == p);
      } else if i == 5 {
        assert (p == "remotesettings_server" && ks[0] == p) || (p == "blocked_pages" && ks[1] == p);
      } else if i == 6 {
        assert (p == "max_error_percentage" && ks[1] == p) || (p == "min_total_events" && ks[2] == p)
          || (p == "ignore_status" && ks[5] == p) || (p == "ignore_versions" && ks[6] == p);
      } else if i == 7 {
        assert p == "max_error_percentage" && ks[1] == p;
      } else {
        assert (p == "server" && ks[0] == p) || (p == "lag_margin" && ks[1] == p) || (p == "channels" && ks[2] == p);
      }
    }
  }

  /** Of the signatures-age parameters only `max_age` is shown, and only it
      can be overridden from the URL: any other query leaves the check as
      configured. */
  lemma SignaturesAgeOnlyMaxAge(c: Check, query: seq<(string, string)>, k: string)
    requires c.mod == SIGNATURES_AGE && Conforms(c)
    requires forall i :: 0 <= i < |query| ==> query[i].0 != "max_age"
    ensures Get(ExposedParams(c), k) == if k == "max_age" then Get(c.params, k) else None
    ensures OverrideParams(c, query) == Ok(c)
  {
    assert c.mod.exposedParameters == ["max_age"] && c.mod.urlParameters == ["max_age"];
    SingleParameterOverridable(c, query, k, "max_age");
  }

  /** The API key of the Redash checks is never shown. */
  lemma ApiKeyHidden(c: Check)
    requires c.mod == UPTAKE_ERROR_RATE || c.mod == JEXL_ERROR_RATE
    ensures Get(ExposedParams(c), "api_key") == None
  {
    ExposedSubMap(c, "api_key");
  }

  /** Checks of the other modules ignore the URL query altogether. */
  lemma OnlySignaturesAgeOverridable(c: Check, query: seq<(string, string)>)
    requires Conforms(c) && c.mod != SIGNATURES_AGE
    requires exists i :: 0 <= i < |REGISTRY| && c.mod == REGISTRY[i].1
    ensures OverrideParams(c, query) == Ok(c)
  {
    assert c.mod.urlParameters == [];
    OverrideIgnoresOtherKeys(c, query);
  }

  /** The dotted path `checks.remotesettings.changes_timestamps` imports its module. */
  lemma ChangesTimestampsImported()
    ensures Import(REGISTRY, ByName(CHANGES_TIMESTAMPS.name)) == Ok(CHANGES_TIMESTAMPS)
  {
    var path := CHANGES_TIMESTAMPS.name;
    assert SIGNATURES_AGE.name[22] == 's' && BACKPORTED_RECORDS.name[22] == 'b' && path[22] == 'c';
    var rest := REGISTRY[2..];
    assert rest[0] == (path, CHANGES_TIMESTAMPS);
    assert Get(rest, path) == Some(CHANGES_TIMESTAMPS);
    assert Get(REGISTRY[1..], path) == Get(rest, path);
  }

  /** As written, a changes-timestamps check cannot be given its `server`:
      `run` declares no annotations, so every configured parameter is
      unknown. */
  lemma ChangesTimestampsUnconfigurable(project: string, name: string, description: string, ttl: Option<int>, server: string)
    ensures MakeCheck(REGISTRY, project, name, description, ByName(CHANGES_TIMESTAMPS.name), ttl, Some([("server", Str(server))]))
      == Err(ValueError("Unknown parameter '" + "server" + "' for '" + CHANGES_TIMESTAMPS.name + "'"))
  {
    ChangesTimestampsImported();
    var ps := [("server", Str(server))];
    var text := ModuleText(ByName(CHANGES_TIMESTAMPS.name));
    var err := ValueError("Unknown parameter '" + "server" + "' for '" + CHANGES_TIMESTAMPS.name + "'");
    assert Get(CHANGES_TIMESTAMPS.schema, "server") == None;
    assert BindParam(CHANGES_TIMESTAMPS.schema, text, ps[0]) == Err(err);
    BindParamsSpec(CHANGES_TIMESTAMPS.schema, text, ps);
    assert BindParams(CHANGES_TIMESTAMPS.schema, text, ps) == Err(err);
  }

  /** `run(server: str)`, as the other checks of the application are
      declared: `query` is the request argument of the legacy handlers and is
      never used by the check. */
  const CHANGES_TIMESTAMPS_ANNOTATED := CHANGES_TIMESTAMPS.(schema := [("server", StrType)])

  /** With its parameter annotated, the check takes its configured server
      and nothing else. */
  lemma ChangesTimestampsConfigurable(project: string, name: string, description: string, ttl: Option<int>, server: string)
    ensures var r := MakeCheck([], project, name, description, Loaded(CHANGES_TIMESTAMPS_ANNOTATED), ttl,
                               Some([("server", Str(server))]));
      r.Ok? && r.value.params == [("server", Str(server))]
  {
    var ps := [("server", Str(server))];
    var m := CHANGES_TIMESTAMPS_ANNOTATED;
    var text := ModuleText(Loaded(m));
    assert Get(m.schema, "server") == Some(StrType);
    assert BindParam(m.schema, text, ps[0]) == Ok(ps[0]);
    BindParamsSpec(m.schema, text, ps);
    var bound := BindParams(m.schema, text, ps).value;
    assert |Keys(bound)| == 1;
    assert bound == ps;
  }
}
