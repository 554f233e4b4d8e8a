# poucave, modelled in Dafny

poucave is a health-check aggregator. A TOML configuration lists checks by
project and name. Each check names a Python module whose `run` function
returns `(success, data)`. The web application builds one `Check` object per
configured table. At build time it validates and coerces the configured
parameters against the annotations of `run`. For each check it serves
`/checks/<project>/<name>`: the URL query may override the parameters the
module allows, and the last result is cached and served again until it is
older than the check's ttl. When a result changes health, an alert is sent.

The plugins are health checks against Remote Settings, Normandy and Uptake
Telemetry. Each one fetches data and then decides.

This project models the deciding part:

- the check registry, parameter binding, query override, exposed parameters,
  cache key, the re-run rule and the alert rule of `poucave/app.py`;
- the older handler of `poucave/main.py` over the TTL cache of
  `poucave/utils.py`;
- environment interpolation in `poucave/config.py`;
- the decision logic of ten check modules.

Data that would come from the network (rows of a Redash query, records of a
collection, HTTP statuses, timestamps) is given as input. The check body seen
by the handler is a function from the effective parameters to
`(success, data)`. Clock readings are integers given as inputs. The
error-reporting service is a ghost log of alerts.

Layout, one Dafny module per file:

| file | module | models |
|---|---|---|
| `common.dfy` | `Common` | `Result`/`Option`, Python exceptions as values, string helpers (`split`, `rsplit`, `int()`, `str()`), `Gather` (stop at the first error), `Filter` |
| `ordered_dict.dfy` | `OrderedDict` | Python's insertion-ordered `dict` as an association list: `get`, `d[k] = v`, `{**a, **b}`, `+=` on a `Counter` |
| `params.dfy` | `Params` | configuration values and the coercion `_type(value)` of a declared parameter type |
| `app.dfy` | `App` | `Checks`, `Check.__init__`, `exposed_params`, `infos`, `override_params`, cache key |
| `app_handler.dfy` | `AppHandler` | the request handler of `Handlers.checkpoint` in `app.py` (classes `ResultCache`, `Handlers`) |
| `utils_cache.dfy` | `Utils` | class `Cache` of `utils.py` |
| `legacy_main.dfy` | `LegacyMain` | `Handlers.checkpoint` of `main.py` over `Utils.Cache` |
| `config.dfy` | `Config` | `interpolate_env` |
| `registry.dfy` | `CheckRegistry` | the check modules as the application sees them: annotations, `URL_PARAMETERS`, `EXPOSED_PARAMETERS` |
| `remote_settings.dfy` | `RemoteSettings` | changes entries, records, preview filtering |
| `signatures_age.dfy`, `backported_records.dfy`, `changes_timestamps.dfy`, `attachments_availability.dfy`, `attachments_integrity.dfy`, `blocked_pages.dfy`, `uptake_error_rate.dfy` | one per check | `checks/remotesettings/*.py` |
| `jexl_error_rate.dfy`, `reported_recipes.dfy` | one per check | `checks/normandy/*.py` |

Each `for` statement of the modelled code is a Dafny `method` with a `while`
loop. Its `ensures` ties the result to a recursive specification function.
The inner `for g in search.groups()` of `interpolate_env` runs once, as the
pattern has a single group, and is part of `Config.InterpolateString`.
Comprehensions and generator expressions are functions. The properties the
source promises are lemmas about those functions. Objects updated in place are
Dafny classes:

- the two caches;
- the handler registry with its checkpoint list;
- each attachment whose `location` the integrity check rewrites.

Percentages are exact `real`s. Timestamps are integers in the unit the source
compares them in.

Modelling decisions that depart from a literal reading:

- **The cache of `app.py`.** `app.py:169` calls `cache.set(key, result)`
  without the ttl that `utils.Cache.set` requires. The model therefore treats
  the application's cache as a plain map from key to entry, overwritten on
  every run (`AppHandler.ResultCache`). The age is computed from the stored
  timestamp, as `app.py:160-161` does. `utils.Cache` is modelled on its own
  and used by the `main.py` handler, which calls it with a ttl.
- **Plugin loading.** `importlib.import_module` and the `__annotations__` of
  `run` are replaced by a registry of module records. Each record holds a
  name, an optional doc string, the declared parameter types in declaration
  order, `URL_PARAMETERS` and `EXPOSED_PARAMETERS`.
- **Corrected behaviour.** Where the code as written is evidently wrong (see
  "## Findings"), the code is modelled as written in a separate member. The
  corrected definition is the one the rest of the model uses.

## Model

| member | source | states |
|---|---|---|
| App.EffectiveTtl | poucave/app.py:61 | the ttl of a check is never zero: a missing or zero ttl becomes `DEFAULT_TTL` (60), any other is kept |
| App.BindParam | poucave/app.py:69-75 | a bound parameter keeps its name; an undeclared name fails with `ValueError("Unknown parameter '<p>' for '<module>'")` |
| App.BindParamsSpec | poucave/app.py:68-75 | binding succeeds iff every configured parameter is declared and coercible; it then holds the coerced values under the same keys in configuration order, and otherwise fails with the first failing parameter's error |
| App.MakeCheck | poucave/app.py:49-75 | a built check has the project, name and description it was given |
| App.MakeCheckSpec | poucave/app.py:49-75 | a built check has the given identity, the ttl fallback of line 61, the module's doc, and parameters that are declared, of their declared type and without repetition |
| App.BoundConforms | poucave/app.py:68-75 | bound parameters have distinct keys and each holds a value of its declared type |
| App.BindParamConforms | poucave/app.py:74-75 | a coerced value is of its declared type: binding it again gives it back |
| App.MakeCheckErrors | poucave/app.py:62-75 | construction fails iff the module is unknown, or some parameter is undeclared or cannot be coerced; the error is the first such parameter's |
| App.NewCheck | poucave/app.py:68-75 | the constructor's loop computes exactly `MakeCheck` |
| App.BindEach | poucave/app.py:69-75 | the loop over the configured parameters stops at the first error and otherwise binds all of them, as `BindParams` |
| App.ConfCheck | poucave/app.py:27 | a check built from a configured table has that table's project and name |
| App.LoadAllOrder | poucave/app.py:22-28 | `Checks.all` holds one check per configured table, projects in configuration order and checks in order within each |
| App.LoadProjectOrder | poucave/app.py:26-28 | one project's checks keep their configuration order |
| App.LoadProjectChecks | poucave/app.py:26-28 | the inner configuration loop computes `LoadProject`, stopping at the first error |
| App.LoadChecks | poucave/app.py:22-28 | the outer configuration loop computes `LoadAll` |
| App.SelectSpec | poucave/app.py:30-45 | with no project every check is returned in order; with a project exactly its checks, in order, further filtered by name when one is given; an empty selection raises `Unknown project` or `Unknown check` |
| App.OverrideKeepsIdentity | poucave/app.py:98-108 | an override keeps project, name, description, ttl and module |
| App.OverrideValues | poucave/app.py:98-108 | after an override the parameters are the configured ones with exactly the allowed query keys replaced by their coerced last query value; old keys keep their place, new ones follow, other keys keep their value |
| App.OverrideIgnoresOtherKeys | poucave/app.py:99-100 | query keys outside `URL_PARAMETERS` have no effect: the check is rebuilt unchanged |
| App.OverrideBound | poucave/app.py:101-108 | an override binds `{**params, **query_params}` against the check's own module |
| App.MergedGet | poucave/app.py:107 | the merged dictionary keeps the configured keys first and without repetition, and maps a key to the query's value if the query sets it and to the configured value otherwise |
| App.UrlQueryGet | poucave/app.py:100 | the query parameters are allowed keys with string values |
| App.QueryParamFailsWithValueError | poucave/app.py:74-75 | a parameter taken from the URL query only fails to bind with a `ValueError` |
| App.MergedParamFailsWithValueError | poucave/app.py:107 | a merged parameter only fails to bind with a `ValueError` |
| App.ConfiguredParamBinds | poucave/app.py:68-75 | a parameter of a built check binds to itself again |
| App.RebindConforming | poucave/app.py:101-108 | rebinding a built check's own parameters gives them back unchanged |
| App.OverrideFailsWithValueError | poucave/app.py:98-108 | for a built check an override fails, if at all, only with `ValueError`, which the handler turns into HTTP 400 |
| App.ExposedSubMap | poucave/app.py:80-83 | the exposed parameters are a sub-map of the parameters, in order, with the same values and exactly the `EXPOSED_PARAMETERS` keys |
| App.SingleParameterOverridable | poucave/app.py:80-83 | a module that shows and allows in the URL only `p` exposes only `p`, and a query without `p` leaves the check as configured |
| App.OverrideInfos | poucave/app.py:85-96 | the description of an overridden check differs from the configured one only in its exposed parameters |
| App.ParamItems | poucave/app.py:150-152 | one `k:v` item per effective parameter |
| App.CacheKeyPrefix | poucave/app.py:150-152 | the cache key starts with `project/name-` |
| App.CacheKeyDistinguishes | poucave/app.py:150-152 | checks whose parameters differ in the text of one value get different cache keys |
| AppHandler.Age | poucave/app.py:155-161 | a missing result counts as older than the ttl; a stored one is as old as the time elapsed since its timestamp |
| AppHandler.AgeAsWritten | poucave/app.py:161 | the `timedelta.seconds` age always lies in `[0, 86400)` |
| AppHandler.AgeAsWrittenServesStaleEntry | poucave/app.py:161-163 | as written, a result a day and ten seconds old counts as ten seconds old, so it is served again with the default ttl; the corrected age (86410) re-runs |
| AppHandler.Reply | poucave/app.py:182-193 | the response is JSON carrying the check's description |
| AppHandler.ServeRejectsBadOverride | poucave/app.py:143-147 | an uncoercible query value is a bad request: nothing runs, the cache is untouched and no alert is sent |
| AppHandler.ServeBadRequestOnlyOnError | poucave/app.py:144-147 | the answer is HTTP 400 iff the override failed with `ValueError` |
| AppHandler.ServeRunsIffExpired | poucave/app.py:153-169 | a fresh stored result is answered unchanged and nothing else happens; otherwise the check runs with the effective parameters, and its stamped result replaces the stored one under that cache key only |
| AppHandler.ServeStatus | poucave/app.py:183-193 | status 200 for a successful answered result, 503 otherwise |
| AppHandler.ServeAlerts | poucave/app.py:171-180 | at most one alert; one iff the check ran and either failed with no previous result or changed outcome; it reads `<project>/<name> recovered` or `... is failing` and carries the data |
| AppHandler.ServeErrorNoAlert | poucave/app.py:144-147 | a failed override never alerts or touches the cache |
| AppHandler.ServeCachesWithinTtl | poucave/app.py:153-169 | a second request within the ttl of a run answers that run's result without running again |
| AppHandler.FirstFailureAlert | poucave/app.py:172-180 | the first failure of `testproject/hb` alerts `testproject/hb is failing` and answers 503 |
| AppHandler.ResultCache.Get | poucave/app.py:153 | a lookup finds exactly the stored entry of the key |
| AppHandler.ResultCache.Set | poucave/app.py:169 | a store overwrites the key's entry and nothing else |
| AppHandler.Handlers.Checkpoint | poucave/app.py:137-138 | registering a check appends its description to the checkpoints and sends no alert |
| AppHandler.Handlers.Handle | poucave/app.py:140-193 | one request: response, new cache content and the alerts appended are those of `Serve` on the overridden check |
| AppHandler.Handlers.Respond | poucave/app.py:149-193 | the handler after the override: response, cache and alert log follow `Serve` |
| Utils.Store | poucave/utils.py:20-23 | `set` stores the value with expiry `now + ttl`, overwriting the key and no other |
| Utils.LookupHit | poucave/utils.py:25-33 | `get` answers the stored value iff the key is present and `now <= expires`, the expiry instant included |
| Utils.LookupEvicts | poucave/utils.py:29-31 | an expired key is deleted and answers nothing; every other key is kept |
| Utils.LookupUnknown | poucave/utils.py:35-37 | an unknown key answers nothing and changes nothing |
| Utils.StoreThenLookup | poucave/utils.py:20-33 | a value just set is read back until it expires and dropped by the first read after that |
| Utils.ApplyKeepsUnexpired | poucave/utils.py:16-37 | until it expires, a key holds what was last set for it, whatever other keys are set or read |
| Utils.LastSetIsRead | poucave/utils.py:16-37 | after `set(key, value, ttl)` at `now`, a read of `key` up to `now + ttl` answers `value` as long as nothing in between sets or evicts it |
| Utils.Cache.Set | poucave/utils.py:20-23 | the content becomes `Store` of the old content |
| Utils.Cache.Get | poucave/utils.py:25-37 | answer and new content are those of `Lookup` on the old content |
| LegacyMain.RegisterSpec | poucave/main.py:47-62 | a registration keeps the identity, a non-zero ttl with the same fallback, the parameters or none; it fails iff the module is unknown or has no doc string |
| LegacyMain.LegacyServeSpec | poucave/main.py:64-77 | the check runs iff nothing valid is cached under `project/name`, and its result is then cached until `completed + ttl`, where `completed` is the instant the check finished, every other entry kept as it was; otherwise the cached result is answered and the cache is unchanged; status 200 iff the answered result succeeded |
| LegacyMain.LegacyServeCaches | poucave/main.py:66-71 | after a run, a request within the ttl answers that run's result without running the check again |
| LegacyMain.LegacyHandlers.Checkpoint | poucave/main.py:47-62 | a successful registration appends the check's description; a failed one appends nothing |
| LegacyMain.LegacyHandlers.Handle | poucave/main.py:64-77 | one request: response and cache follow `LegacyServe` |
| Config.LineEnd | poucave/config.py:38 | the first line break at or after a position (the regex `.` stops there) |
| Config.LastBrace | poucave/config.py:38 | the last `}` of a range, or none |
| Config.MatchAt | poucave/config.py:38 | a match of `\$\{(.+)\}` at a position: `${`, at least one character without a line break, its greedy last `}` |
| Config.Search | poucave/config.py:38 | `re.search` finds the leftmost match, and none exists when it answers none |
| Config.InterpolateValue | poucave/config.py:36-46 | tables stay tables with the same keys in the same order |
| Config.InterpolateEnv | poucave/config.py:34-47 | the result has exactly the input keys, in order |
| Config.InterpolateEnvValues | poucave/config.py:36-46 | each key keeps its place; strings are interpolated, tables recursively, every other value kept |
| Config.NoPlaceholderUnchanged | poucave/config.py:38-42 | a string without `${` is kept |
| Config.NoPlaceholdersUnchanged | poucave/config.py:34-47 | a configuration without placeholders at any depth is kept |
| Config.PlaceholderReplaced | poucave/config.py:39-41 | `${x}` becomes the value of the variable `x`, or empty when unset |
| Config.PlaceholderAsWritten | poucave/config.py:41 | as written, `${x}` becomes the value of `ENV_NAME`, whatever `x` |
| Config.InterpolateEnvSnoc | poucave/config.py:36-42 | one more item adds its key with its interpolated value at the end |
| Config.Interpolate | poucave/config.py:34-47 | the loop over the items builds `InterpolateEnv` |
| Config.InterpolateItem | poucave/config.py:37-46 | the loop body: a string is interpolated, a nested table goes through `interpolate_env` again, anything else is kept |
| Config.AsWrittenDropsNamedVariable | poucave/config.py:41 | with only `SECRET` set, `${SECRET}` is emptied as written and gets the secret when corrected |
| Params.ParseDecimal | poucave/app.py:74-75 | `float(s)` reads a decimal, kept without trailing zeros in its fraction |
| Params.CoerceIdempotent | poucave/app.py:74-75 | coercing a value already of the declared type gives it back |
| Params.CoerceAlias | poucave/app.py:74-75 | a `typing` alias coerces like the builtin it stands for |
| Params.CoerceListIdempotent | poucave/app.py:74-75 | `list()` of a list gives it back |
| Params.CoerceDictIdempotent | poucave/app.py:74-75 | `dict()` of a coerced table gives it back |
| Params.CoerceIntIdempotent | poucave/app.py:74-75 | `int()` of an integer gives it back |
| Params.CoerceFloatIdempotent | poucave/app.py:74-75 | `float()` of a float gives it back |
| Params.AsWrittenListParameterFails | poucave/app.py:74-75 | as written, calling the annotation `List[str]` on any configured list fails with `TypeError` |
| Params.ListParameterKept | poucave/app.py:74-75 | with the alias read as `list`, a configured list is kept |
| Params.CoerceStrFailsWithValueError | poucave/app.py:74-75 | coercing a string (every URL value) fails only with `ValueError` |
| Params.CoerceIntText | poucave/app.py:74-75 | an integer parameter given its decimal text gets that integer |
| Params.CoerceIntRejectsLetters | poucave/app.py:74-75 | text that is not an integer literal is refused for an integer parameter |
| Params.CoerceIntAbc | poucave/app.py:144-147 | `abc` for an integer parameter fails with `ValueError` |
| Params.RenderIntInjective | poucave/app.py:150-152 | `str()` tells integers apart |
| CheckRegistry.ExposedAreDeclared | checks/remotesettings/signatures_age.py:14-15 | every module's exposed and URL parameters are parameters its `run` declares |
| CheckRegistry.SignaturesAgeOnlyMaxAge | checks/remotesettings/signatures_age.py:14-15 | of the signatures-age parameters only `max_age` is shown and overridable |
| CheckRegistry.ApiKeyHidden | checks/remotesettings/uptake_error_rate.py:16-21 | the `api_key` of the Redash checks is never shown |
| CheckRegistry.OnlySignaturesAgeOverridable | poucave/app.py:99-100 | checks of the other modules ignore the URL query |
| CheckRegistry.ChangesTimestampsImported | checks/remotesettings/changes_timestamps.py:19 | the dotted path of the changes-timestamps module is found |
| CheckRegistry.ChangesTimestampsUnconfigurable | checks/remotesettings/changes_timestamps.py:19 | as written, configuring `server` for this check fails with `Unknown parameter`: `run` declares no annotations |
| CheckRegistry.ChangesTimestampsConfigurable | checks/remotesettings/changes_timestamps.py:19 | declared as `run(server: str)`, the check takes its configured `server` and no other parameter |
| SignaturesAge.SignatureAge | checks/remotesettings/signatures_age.py:23-32 | no age without a signature date |
| SignaturesAge.AgeIsWholeHours | checks/remotesettings/signatures_age.py:28-31 | the age is the number of whole hours elapsed, truncated toward zero |
| SignaturesAge.AgeTruncatesToHours | checks/remotesettings/signatures_age.py:31 | 23 hours 46 minutes give 23 |
| SignaturesAge.AgesSpec | checks/remotesettings/signatures_age.py:50-54 | `bid/cid` is in `ages` iff a collection there has no age or one above `max_age`, and holds such an age |
| SignaturesAge.RunSpec | checks/remotesettings/signatures_age.py:50-56 | success iff every collection has a signature at most `max_age` hours old |
| SignaturesAge.OneOldCollection | checks/remotesettings/signatures_age.py:50-56 | one collection 5 hours old with `max_age` 4 is reported as `bid/cid: 5` |
| RemoteSettings.FetchedEntries | checks/remotesettings/attachments_availability.py:30-38 | the fetched entries are the non-preview ones, in order |
| RemoteSettings.FetchRecords | checks/remotesettings/attachments_availability.py:30-39 | the records of each fetched entry, in order |
| RemoteSettings.ZipVisitsAllResults | checks/remotesettings/attachments_availability.py:43 | `zip(entries, results)` visits every result |
| BackportedRecords.Unpack2 | checks/remotesettings/backported_records.py:33-34 | `a, b = s.split("/")` succeeds iff there is exactly one separator |
| BackportedRecords.Unpack2Join | checks/remotesettings/backported_records.py:33-34 | unpacking `a + "/" + b` gives back `a` and `b` |
| BackportedRecords.SplitFirst | checks/remotesettings/backported_records.py:30 | a query field is cut at its first `=` |
| BackportedRecords.ParseFieldsValues | checks/remotesettings/backported_records.py:30 | `parse_qs` lists a name iff a field gives it a non-empty value, with all its values in order |
| BackportedRecords.Unwrap | checks/remotesettings/backported_records.py:31 | filters keep their names |
| BackportedRecords.UnwrapGet | checks/remotesettings/backported_records.py:31 | a one-element list becomes its value, longer lists stay lists |
| BackportedRecords.FiltersSpec | checks/remotesettings/backported_records.py:28-31 | a filter named once maps to its value, one named several times keeps the list, an empty one is absent |
| BackportedRecords.LaggingSpec | checks/remotesettings/backported_records.py:48-49 | a lag is reported iff the timestamps differ by more than `max_lag_seconds` seconds, strictly |
| BackportedRecords.BackportSpec | checks/remotesettings/backported_records.py:25-52 | a backport is reported iff the records differ and the lag rule holds; the details name the source without its query string |
| BackportedRecords.TwoQueriesRefused | checks/remotesettings/backported_records.py:28-29 | a source with two `?` fails before anything is fetched |
| BackportedRecords.Outcomes | checks/remotesettings/backported_records.py:25 | one outcome per backport |
| BackportedRecords.OutcomeAt | checks/remotesettings/backported_records.py:25-52 | outcome `i` is that of backport `i` |
| BackportedRecords.GatherSomes | checks/remotesettings/backported_records.py:24-52 | the first error if any, else the present outcomes in order, empty iff none is present |
| BackportedRecords.RunSpec | checks/remotesettings/backported_records.py:24-54 | the run fails iff some names do not split, with the first such error; otherwise it succeeds iff no backport is reported, and `errors` are the reported details in order |
| BackportedRecords.DefaultLagFiveMinutes | checks/remotesettings/backported_records.py:20 | the default lag is 300 seconds |
| BackportedRecords.Evaluate | checks/remotesettings/backported_records.py:24-54 | the loop over the backports computes `Run` |
| BackportedRecords.Step | checks/remotesettings/backported_records.py:26-52 | one iteration computes `Backport` |
| ChangesTimestamps.ParseTimestamp | checks/remotesettings/changes_timestamps.py:40 | `int()` succeeds iff the text is an integer literal, with its value |
| ChangesTimestamps.ItemResults | checks/remotesettings/changes_timestamps.py:38-49 | one item per entry, in entry order |
| ChangesTimestamps.MakeItemSpec | checks/remotesettings/changes_timestamps.py:39-49 | an item holds `bucket/collection`, the entry timestamp and the parsed collection timestamp |
| ChangesTimestamps.RunSpec | checks/remotesettings/changes_timestamps.py:37-52 | one item per entry in order with the id and both timestamps; `all_good` iff they agree for every entry; failure iff some collection timestamp is not an integer |
| ChangesTimestamps.NoEntriesGood | checks/remotesettings/changes_timestamps.py:51 | no entries: success with an empty list |
| ChangesTimestamps.Evaluate | checks/remotesettings/changes_timestamps.py:37-52 | the loop building `datetimes` computes `Run` |
| AttachmentsAvailability.TestUrlSpec | checks/remotesettings/attachments_availability.py:14-19 | `test_url` is true iff the status is 200; a client error gives false |
| AttachmentsAvailability.RecordUrlsSpec | checks/remotesettings/attachments_availability.py:44-48 | one URL per record with an attachment, exactly `base_url + location` of those |
| AttachmentsAvailability.UrlsSpec | checks/remotesettings/attachments_availability.py:42-48 | a URL is probed iff some fetched record has an attachment there |
| AttachmentsAvailability.RunSpec | checks/remotesettings/attachments_availability.py:49-53 | `missing` is the subsequence of unreachable URLs, `checked` counts all URLs, success iff every attachment is reachable |
| AttachmentsAvailability.PreviewRecordsIgnored | checks/remotesettings/attachments_availability.py:37 | records of preview buckets do not affect the outcome |
| AttachmentsAvailability.Evaluate | checks/remotesettings/attachments_availability.py:42-53 | the nested loop computes `Run` |
| AttachmentsIntegrity.TestAttachmentSpec | checks/remotesettings/attachments_integrity.py:17-32 | an attachment passes iff it downloads with the announced size and hash, with an empty report; a failing report names its URL |
| AttachmentsIntegrity.SizeBeforeHash | checks/remotesettings/attachments_integrity.py:22-28 | on a client error or a size mismatch the hash is never computed |
| AttachmentsIntegrity.AllCarriedPrefix | checks/remotesettings/attachments_integrity.py:56-62 | the attachments of the first collections come first |
| AttachmentsIntegrity.GatheredPrefix | checks/remotesettings/attachments_integrity.py:56-62 | what is gathered at any point of the nested loop is a prefix of all attachments |
| AttachmentsIntegrity.NextCarried | checks/remotesettings/attachments_integrity.py:60-62 | each attachment is appended right after those gathered before it |
| AttachmentsIntegrity.Relocated | checks/remotesettings/attachments_integrity.py:61 | each location is made absolute |
| AttachmentsIntegrity.Tests | checks/remotesettings/attachments_integrity.py:65-66 | one outcome per attachment, in order |
| AttachmentsIntegrity.BadSpec | checks/remotesettings/attachments_integrity.py:67 | `bad` holds the reports of failing outcomes, none iff all pass |
| AttachmentsIntegrity.CheckSpec | checks/remotesettings/attachments_integrity.py:64-68 | success iff every attachment passes; each bad report names a failing URL; `checked` counts them all |
| AttachmentsIntegrity.Run | checks/remotesettings/attachments_integrity.py:35-68 | the attachments are those the fetched records carry, in order, each location rewritten in place to `base_url + location`; the result is `Check` on them |
| AttachmentsIntegrity.GatherAttachments | checks/remotesettings/attachments_integrity.py:55-62 | the nested loop gathers every carried attachment in order and makes its location absolute, in place |
| AttachmentsIntegrity.GatherRecords | checks/remotesettings/attachments_integrity.py:57-62 | the inner loop over one collection's records |
| AttachmentsIntegrity.MakeAbsolute | checks/remotesettings/attachments_integrity.py:61 | one location is rewritten; every other attachment keeps its location |
| BlockedPages.ChunksSpec | checks/remotesettings/blocked_pages.py:27-28 | the chunks concatenate to the input; each has `size` elements except the last, which is non-empty |
| BlockedPages.HtmlLinkExamples | checks/remotesettings/blocked_pages.py:53 | `.html$` matches `a.html` and `xhtml`, not `a.htm` |
| BlockedPages.BrokenLinksSpec | checks/remotesettings/blocked_pages.py:36-42 | with a positive chunk size the broken links are those whose status is not 200 (client errors included), in link order |
| BlockedPages.RecordIds | checks/remotesettings/blocked_pages.py:66-70 | `blockID` when present, else `id`, per record |
| BlockedPages.BlockedIds | checks/remotesettings/blocked_pages.py:71 | each URL without its last `.ext` |
| BlockedPages.BlockedIdOfPage | checks/remotesettings/blocked_pages.py:71 | `name.html` names `name`, dots included |
| BlockedPages.ExtrasMissingSpec | checks/remotesettings/blocked_pages.py:72-73 | extras and missing are disjoint, both empty iff the two id sets agree |
| BlockedPages.RunSpec | checks/remotesettings/blocked_pages.py:87-99 | success iff no link is broken, the pages name exactly the records' ids and the timestamps agree |
| BlockedPages.UnlistedRecordFails | checks/remotesettings/blocked_pages.py:73-92 | a record without a page fails the check even with every link answering |
| BlockedPages.Evaluate | checks/remotesettings/blocked_pages.py:52-100 | the loops compute `Run` |
| BlockedPages.ProbeChunks | checks/remotesettings/blocked_pages.py:57-62 | the chunk loop extends the broken links chunk by chunk, as `BrokenLinks` |
| ReportedRecipes.RecipeIdOfSource | checks/normandy/reported_recipes.py:39 | a source ending in `/<number>` names that recipe |
| ReportedRecipes.NonNumericSourceSkipped | checks/normandy/reported_recipes.py:38-42 | `normandy/action/show-heartbeat` is skipped |
| ReportedRecipes.CountByIdTotals | checks/normandy/reported_recipes.py:36-43 | each recipe's count is the sum of its rows' totals |
| ReportedRecipes.CountByIdKeys | checks/normandy/reported_recipes.py:49 | the counted recipes are exactly those some row is about |
| ReportedRecipes.SortUnique | checks/normandy/reported_recipes.py:57 | `sorted(set(xs))`: strictly ascending with the same elements |
| ReportedRecipes.SortMissing | checks/normandy/reported_recipes.py:52-57 | the missing ids, ascending, each once |
| ReportedRecipes.RunSpec | checks/normandy/reported_recipes.py:33-59 | `missing` is the server's recipes that no row reports, ascending; success iff none; the time range covers every row, skipped ones included |
| ReportedRecipes.Evaluate | checks/normandy/reported_recipes.py:33-59 | the row loop and set difference compute `Run` |
| JexlErrorRate.AggregateTotals | checks/normandy/jexl_error_rate.py:31-39 | each (period, status) count is the sum of the totals of the kept rows with them |
| JexlErrorRate.AggregateNoDup | checks/normandy/jexl_error_rate.py:31-39 | each period appears once |
| JexlErrorRate.AggregatePeriods | checks/normandy/jexl_error_rate.py:32-37 | the periods are exactly those of rows of the wanted channels |
| JexlErrorRate.PeriodRate | checks/normandy/jexl_error_rate.py:44-46 | `content_error * 100 / total`, failing on a zero total |
| JexlErrorRate.StepSpec | checks/normandy/jexl_error_rate.py:43-50 | one period raises the maximum to its rate if larger and records its rate; fails iff its total is zero |
| JexlErrorRate.ScanMax | checks/normandy/jexl_error_rate.py:42-47 | the maximum is at least 0 and every period's rate and is one of them or 0; `error_rate` is the last period's |
| JexlErrorRate.ScanRange | checks/normandy/jexl_error_rate.py:49-50 | the range ends as the last period's iff the final maximum exceeds the threshold |
| JexlErrorRate.RunSpec | checks/normandy/jexl_error_rate.py:26-64 | corrected: success iff no period's rate exceeds the threshold; the reported rate is the maximum of 0 and the rates; the range as above |
| JexlErrorRate.RunAsWrittenSpec | checks/normandy/jexl_error_rate.py:64 | as written, the flag compares the last period's rate, and with no period the variable is unbound |
| JexlErrorRate.LastPeriodHidesMaximum | checks/normandy/jexl_error_rate.py:42-64 | a 100% period followed by a 0% one: as written the check reports 100% and succeeds |
| JexlErrorRate.ExampleAggregate | checks/normandy/jexl_error_rate.py:31-39 | the two example periods aggregate as expected |
| JexlErrorRate.ExampleScan | checks/normandy/jexl_error_rate.py:42-50 | the loop over them ends with maximum 100 and last rate 0 |
| JexlErrorRate.NoPeriodUnbound | checks/normandy/jexl_error_rate.py:43-64 | with every row filtered out, as written `error_rate` is unbound; corrected, the check reports 0% |
| JexlErrorRate.Evaluate | checks/normandy/jexl_error_rate.py:26-64 | the loops compute `Run` |
| JexlErrorRate.CountPeriods | checks/normandy/jexl_error_rate.py:31-39 | the row loop computes `Aggregate` |
| JexlErrorRate.ScanPeriods | checks/normandy/jexl_error_rate.py:42-50 | the period loop computes `Scan` |
| UptakeErrorRate.ParseStatus | checks/remotesettings/uptake_error_rate.py:30-39 | `s` parses to `(*, s, *)` |
| UptakeErrorRate.ParseStatusAtVersion | checks/remotesettings/uptake_error_rate.py:32-33 | `s@v` parses to `(*, s, v)` |
| UptakeErrorRate.ParseSource | checks/remotesettings/uptake_error_rate.py:34-36 | a name with `/` or `-` parses to `(name, *, *)` |
| UptakeErrorRate.ParseSourceStatus | checks/remotesettings/uptake_error_rate.py:37-38 | `src:st` parses to `(src, st, *)` |
| UptakeErrorRate.IgnoredStatusesSpec | checks/remotesettings/uptake_error_rate.py:59-62 | the patterns are each `ignore_status` entry parsed, then `(*, *, str(v))` per ignored version; failure iff some entry does not unpack |
| UptakeErrorRate.SourceOnlyPatternIgnoresNothing | checks/remotesettings/uptake_error_rate.py:111-118 | a `(source, *, *)` pattern ignores nothing |
| UptakeErrorRate.RecordSkipsOtherChannels | checks/remotesettings/uptake_error_rate.py:81-82 | a row outside the wanted channels changes nothing |
| UptakeErrorRate.RecordedPeriods | checks/remotesettings/uptake_error_rate.py:84-89 | the periods are exactly those of the rows of the wanted channels |
| UptakeErrorRate.RecordKeepsListedSources | checks/remotesettings/uptake_error_rate.py:91-92 | recording a row keeps only listed sources |
| UptakeErrorRate.RecordedSources | checks/remotesettings/uptake_error_rate.py:91-92 | when sources are listed, only those are recorded |
| UptakeErrorRate.RecordLastWins | checks/remotesettings/uptake_error_rate.py:92 | a later row for the same period, source, version and status replaces the total |
| UptakeErrorRate.TallyStatusesBalanced | checks/remotesettings/uptake_error_rate.py:108-123 | each status total is counted once, as counted or as ignored |
| UptakeErrorRate.TallyBalanced | checks/remotesettings/uptake_error_rate.py:102-123 | a source's total is its counted plus its ignored events |
| UptakeErrorRate.InsertDesc | checks/remotesettings/uptake_error_rate.py:26-27 | insertion adds exactly one element |
| UptakeErrorRate.InsertDescSorted | checks/remotesettings/uptake_error_rate.py:26-27 | insertion keeps the order non-increasing |
| UptakeErrorRate.SortDescSpec | checks/remotesettings/uptake_error_rate.py:26-27 | `sort_dict_desc` gives the same entries with non-increasing values |
| UptakeErrorRate.SourceStepInv | checks/remotesettings/uptake_error_rate.py:125-152 | one source keeps both rate bounds set together, ordered, and every report at or above the threshold |
| UptakeErrorRate.SourceStepSkipsSmall | checks/remotesettings/uptake_error_rate.py:127-128 | a source below `min_total_events` changes nothing, rate bounds included |
| UptakeErrorRate.SourceStepMonotone | checks/remotesettings/uptake_error_rate.py:140-152 | a reported rate never decreases |
| UptakeErrorRate.SourcesStepInv | checks/remotesettings/uptake_error_rate.py:101-152 | one period keeps the invariant |
| UptakeErrorRate.RatesInv | checks/remotesettings/uptake_error_rate.py:97-152 | all periods keep it |
| UptakeErrorRate.ReadingsHas | checks/remotesettings/uptake_error_rate.py:97-101 | every source of every period is a reading |
| UptakeErrorRate.ReadingsFrom | checks/remotesettings/uptake_error_rate.py:97-101 | every reading is a source of some period |
| UptakeErrorRate.StepAllAppend | checks/remotesettings/uptake_error_rate.py:97-152 | stepping through two runs of readings is stepping through them joined |
| UptakeErrorRate.SourcesStepAll | checks/remotesettings/uptake_error_rate.py:101-152 | the loop over the sources of a period steps through its readings in order |
| UptakeErrorRate.RatesStepAll | checks/remotesettings/uptake_error_rate.py:97-152 | the two loops step through all readings, period after period |
| UptakeErrorRate.WorstSome | checks/remotesettings/uptake_error_rate.py:138-152 | a source has a worst rate iff some counted sample of it is at the threshold and not negative |
| UptakeErrorRate.WorstAttained | checks/remotesettings/uptake_error_rate.py:138-152 | a worst rate is reportable and is the rate of a counted sample of the source |
| UptakeErrorRate.WorstMax | checks/remotesettings/uptake_error_rate.py:138-152 | a worst rate is at least the rate of every counted sample of the source |
| UptakeErrorRate.SourceStepKey | checks/remotesettings/uptake_error_rate.py:125-152 | one source keeps the reported rate of any source equal to its worst rate so far |
| UptakeErrorRate.SourceStepTracks | checks/remotesettings/uptake_error_rate.py:125-152 | one source keeps every reported rate equal to the worst so far, with no duplicate source |
| UptakeErrorRate.StepAllTracks | checks/remotesettings/uptake_error_rate.py:97-152 | all readings keep it |
| UptakeErrorRate.RatesReport | checks/remotesettings/uptake_error_rate.py:97-152 | after the loops, each source is reported iff one of its counted samples reaches the threshold, with its highest counted rate |
| UptakeErrorRate.SortReportsKeeps | checks/remotesettings/uptake_error_rate.py:154-156 | sorting the reports keeps every source with its report |
| UptakeErrorRate.WorstReached | checks/remotesettings/uptake_error_rate.py:140-152 | a worst rate is the rate of a counted sample at the threshold, which it names |
| UptakeErrorRate.SortedListedExceed | checks/remotesettings/uptake_error_rate.py:143-156 | each listed source has a counted sample at the threshold whose rate it carries |
| UptakeErrorRate.SortedListedWorst | checks/remotesettings/uptake_error_rate.py:140-156 | no counted sample of a listed source has a higher rate than listed |
| UptakeErrorRate.SortedAllListed | checks/remotesettings/uptake_error_rate.py:143-156 | every source with a counted sample at the threshold is listed |
| UptakeErrorRate.SortedReportsEmpty | checks/remotesettings/uptake_error_rate.py:143-156 | nothing is listed iff no counted sample reaches the threshold |
| UptakeErrorRate.RunReports | checks/remotesettings/uptake_error_rate.py:97-159 | when the computation succeeds: the check succeeds iff no counted sample of any period and source reaches the threshold; each returned source carries the rate of one of its counted samples at the threshold, the highest of its counted samples; every source with such a sample is returned |
| UptakeErrorRate.RunSpec | checks/remotesettings/uptake_error_rate.py:140-192 | corrected: success iff no source is reported; reports are sorted by non-increasing rate and each at or above the threshold; `min_rate <= max_rate` when set |
| UptakeErrorRate.RunAsWrittenUnbound | checks/remotesettings/uptake_error_rate.py:154-159 | as written, with rows of other channels only, `sort_by_rate` is unbound |
| UptakeErrorRate.RunAsWrittenAgrees | checks/remotesettings/uptake_error_rate.py:97-192 | when some period is recorded, the code as written and the corrected one agree |
| UptakeErrorRate.Evaluate | checks/remotesettings/uptake_error_rate.py:52-192 | the loops compute `Run` |
| UptakeErrorRate.Ignores | checks/remotesettings/uptake_error_rate.py:59-62 | the pattern loop computes `IgnoredStatuses` |
| UptakeErrorRate.Group | checks/remotesettings/uptake_error_rate.py:78-92 | the row loop computes `RecordRows` |
| UptakeErrorRate.ComputeRates | checks/remotesettings/uptake_error_rate.py:94-152 | the period and source loops compute `Rates` |
| UptakeErrorRate.Step | checks/remotesettings/uptake_error_rate.py:102-152 | one source computes `SourceStep` |
| UptakeErrorRate.TallySource | checks/remotesettings/uptake_error_rate.py:102-123 | the loops over versions and statuses compute `TallyVersions` |

## Left out

- HTTP and its plumbing: aiohttp, CORS, Sentry set-up, the middlewares, `hello`, `checkpoints`, `lbheartbeat`, `heartbeat`, `version`. They are I/O with no decision in them. The route-registration loops of `init_app` and the command-line `main`/`run_check` are part of that plumbing.
- The network calls of every check: Kinto requests, Redash, HEAD and GET requests. Their results are inputs.
- Concurrency: `asyncio.gather`, `run_parallel` and `run_in_executor` are modelled as sequential evaluation in list order, which is the order in which their results are returned.
- `checks/core/heartbeat.py` and `checks/taskcluster/write_secrets.py` are not part of this model: they only perform I/O.
- Plugin loading through `importlib` and `__annotations__` is replaced by a registry of module records. The module records of `CheckRegistry` carry no doc string (`None`); a check's documentation is `App.DocText`, `(module.__doc__ or "").strip()`, of the doc string its module record holds, which `App.Conforms` requires of every built check. The text of the modules' doc strings is not copied.
- Environment variables overriding `DEFAULT_TTL` and the other settings of `config.py`: the default (60) is a constant.
- Parsing: the TOML loading, `parse_qs` percent-decoding and `keep_blank_values`, BeautifulSoup and ElementTree parsing are left out. The links, records and XML timestamp are inputs.
- Dates: `datetime.fromisoformat`, `isoformat` and `utcfromtimestamp` are not modelled. Timestamps are integers, and the human-readable `datetime` of changes-timestamps items is dropped.
- Rounding: `round(…, 2)` on reported rates is not modelled; rates are exact.
- `REQUESTS_MAX_PARALLEL` is a parameter of the blocked-pages model.
- `compare_collections` and `human_diff` are given functions of the server model: the first answers the diff of two collections (none when they agree), the second the details text.
- SHA-256 is an abstract function of the downloaded bytes.
- The `request` argument of the legacy `run(request, **params)` is not passed: the legacy check body is a function of its parameters.
- The response body's `duration` is carried as a given number; `time.time()` is not modelled.
- AttachmentsIntegrity.Run: requires the gathered attachments to be distinct objects, as decoding JSON makes them; attachments shared between records are not modelled.
- AppHandler.ResultCache: the cache of `app.py` is a plain map, as `app.py:169` calls `set` without the ttl that `utils.Cache.set` requires.
- Python's `float()` is modelled for plain decimals only (no exponents, `inf`, `nan` or `_` digit separators); TOML floats written without those are such decimals.
- BackportedRecords: the records timestamps the server answers are integers already; the `int(...)` of `backported_records.py:48` and the `ValueError` it raises for a timestamp that is not an integer literal are not modelled (`ChangesTimestamps.ParseTimestamp` models that parse where the changes-timestamps check does it).

## Findings

| source | as written | input that shows it | evidently intended | confidence | as-written member | corrected member |
|---|---|---|---|---|---|---|
| poucave/app.py:74-75 | `_type(value)` calls the annotation; for `List[str]` or `Dict[str, str]` that raises `TypeError: Type List cannot be instantiated` | an uptake or jexl check configured with `channels = ["release"]` | the alias coerces like `list` or `dict` | medium, not executed | Params.AsWrittenListParameterFails | Params.ListParameterKept |
| poucave/app.py:161 | the age is `timedelta.seconds`, which leaves out whole days | a result stored 86410 seconds ago is ten seconds old, so it is served again under the default ttl | the total elapsed seconds | high, not executed | AppHandler.AgeAsWrittenServesStaleEntry | AppHandler.ServeRunsIffExpired |
| poucave/config.py:41 | every placeholder is replaced by `os.getenv("ENV_NAME", "")` | `${SECRET}` with only `SECRET` set gives the empty string | `os.getenv(g, "")`, the variable the placeholder names | high, not executed | Config.AsWrittenDropsNamedVariable | Config.PlaceholderReplaced |
| checks/remotesettings/uptake_error_rate.py:154-159 | `sort_by_rate` is assigned only inside the loop over periods | rows of the `beta` channel only, with `channels = ["release"]`: `UnboundLocalError` | the sorted sources computed once after the loop, empty when no period is left | high, not executed | UptakeErrorRate.RunAsWrittenUnbound | UptakeErrorRate.RunSpec |
| checks/normandy/jexl_error_rate.py:64 | success compares the last period's `error_rate` with the threshold | a period with 100% content errors followed by one with none: reports 100% and succeeds | compare the maximum rate `max_error_rate` | high, not executed | JexlErrorRate.LastPeriodHidesMaximum | JexlErrorRate.RunSpec |
| checks/normandy/jexl_error_rate.py:43-64 | `error_rate` is assigned only inside the loop over periods | every row filtered out by channel: `UnboundLocalError` | success with a 0% rate | high, not executed | JexlErrorRate.NoPeriodUnbound | JexlErrorRate.NoPeriodUnbound |
| checks/remotesettings/changes_timestamps.py:19 | `run(query, server)` carries no annotations, so no parameter can be configured | a check configured with `server = "..."`: `Unknown parameter 'server'` | `run(server: str)`, as `attachments_availability.py` declares it: `query` is the request argument of the legacy handlers and is unused | medium, not executed | CheckRegistry.ChangesTimestampsUnconfigurable | CheckRegistry.ChangesTimestampsConfigurable |
