/** Environment interpolation of a loaded configuration
    (`interpolate_env` in `poucave/config.py`): in every string, nested
    dictionaries included, the placeholder found by the pattern `\$\{(.+)\}`
    is replaced by the value of an environment variable (empty when unset).
    As written that variable is always `ENV_NAME`, whatever name the
    placeholder spells; the model uses the variable the placeholder names. */
module Config {
  import opened Common
  import opened OrderedDict
  import opened Params

  /** The process environment: the value of each set variable. */
  type Env = string -> Option<string>

  /** `os.getenv(name, "")`. */
  function GetEnv(env: Env, name: string): string {
    if env(name).Some? then env(name).value else ""
  }

  /** A configuration value: a string, a nested table, or anything else. */
  datatype ConfValue =
    | CStr(s: string)
    | CTable(entries: seq<(string, ConfValue)>)
    | CScalar(v: Value)

  /** The first line break at or after `i`, or the end. */
  function LineEnd(s: string, i: nat): (e: nat)
    requires i <= |s|
    ensures i <= e <= |s|
    ensures e < |s| ==> s[e] == '\n'
    ensures forall k :: i <= k < e ==> s[k] != '\n'
    decreases |s| - i
  {
    if i == |s| || s[i] == '\n' then i else LineEnd(s, i + 1)
  }

  /** The last `}` in `s[lo..hi]`. */
  function LastBrace(s: string, lo: nat, hi: nat): (r: Option<nat>)
    requires lo <= hi <= |s|
    ensures r.Some? ==> lo <= r.value < hi && s[r.value] == '}' && forall k :: r.value < k < hi ==> s[k] != '}'
    ensures r.None? ==> forall k :: lo <= k < hi ==> s[k] != '}'
    decreases hi - lo
  {
    if hi == lo then None
    else if s[hi - 1] == '}' then Some(hi - 1)
    else LastBrace(s, lo, hi - 1)
  }

  /** Whether the pattern matches at `i`, ending at the returned `}`: `${`,
      then one or more characters that are not line breaks, as many as
      possible, then `}`. */
  function MatchAt(s: string, i: nat): (r: Option<nat>)
    requires i <= |s|
    ensures r.Some? ==>
      && i + 3 <= r.value < |s| && s[i] == '$' && s[i + 1] == '{' && s[r.value] == '}'
      && (forall k :: i + 2 <= k < r.value ==> s[k] != '\n')
      && (forall k :: r.value < k < LineEnd(s, i + 2) ==> s[k] != '}')
  {
    if i + 2 <= |s| && s[i] == '$' && s[i + 1] == '{' && i + 3 <= LineEnd(s, i + 2) then
      LastBrace(s, i + 3, LineEnd(s, i + 2))
    else None
  }

  /** `re.search`: the leftmost match at or after `i`, as (start, closing brace). */
  function Search(s: string, i: nat): (r: Option<(nat, nat)>)
    requires i <= |s|
    ensures r.Some? ==> i <= r.value.0 <= |s| && MatchAt(s, r.value.0) == Some(r.value.1)
    ensures r.Some? ==> forall k :: i <= k < r.value.0 ==> MatchAt(s, k).None?
    ensures r.None? ==> forall k :: i <= k <= |s| ==> MatchAt(s, k).None?
    decreases |s| - i
  {
    if MatchAt(s, i).Some? then Some((i, MatchAt(s, i).value))
    else if i == |s| then None
    else Search(s, i + 1)
  }

  /** One string as written: with a match, every occurrence of the matched
      text `${group}` is replaced by the value of `ENV_NAME`. */
  function InterpolateStringAsWritten(s: string, env: Env): string {
    match Search(s, 0)
    case None => s
    case Some((i, j)) => ReplaceAll(s, s[i..j + 1], GetEnv(env, "ENV_NAME"))
  }

  /** One string: with a match, every occurrence of the matched text
      `${group}` is replaced by the value of the variable `group`. */
  function InterpolateString(s: string, env: Env): string {
    match Search(s, 0)
    case None => s
    case Some((i, j)) => ReplaceAll(s, s[i..j + 1], GetEnv(env, s[i + 2..j]))
  }

  /** A value: strings are interpolated, tables rebuilt key by key in order
      with their values interpolated, and anything else kept as it is. */
  function InterpolateValue(v: ConfValue, env: Env): (r: ConfValue)
    ensures v.CTable? <==> r.CTable?
    ensures v.CTable? ==> Keys(r.entries) == Keys(v.entries)
    decreases v
  {
    match v
    case CStr(s) => CStr(InterpolateString(s, env))
    case CTable(entries) =>
      CTable(seq(|entries|, i requires 0 <= i < |entries| => (entries[i].0, InterpolateValue(entries[i].1, env))))
    case CScalar(_) => v
  }

  /** `interpolate_env(d)`: the new dictionary, with exactly the keys of `d`
      in the same order. */
  function InterpolateEnv(d: seq<(string, ConfValue)>, env: Env): (r: seq<(string, ConfValue)>)
    ensures Keys(r) == Keys(d)
  {
    InterpolateValue(CTable(d), env).entries
  }

  /** Each key keeps its place; strings are interpolated, tables are
      interpolated recursively, and every other value is kept as it is. */
  lemma InterpolateEnvValues(d: seq<(string, ConfValue)>, env: Env, i: nat)
    requires i < |d|
    ensures var r := InterpolateEnv(d, env);
      && |r| == |d| && r[i].0 == d[i].0
      && (d[i].1.CScalar? ==> r[i].1 == d[i].1)
      && (d[i].1.CStr? ==> r[i].1 == CStr(InterpolateString(d[i].1.s, env)))
      && (d[i].1.CTable? ==> r[i].1 == CTable(InterpolateEnv(d[i].1.entries, env)))
  {
    var v := d[i].1;
    assert InterpolateEnv(d, env)[i].1 == InterpolateValue(v, env);
    match v {
      case CStr(s) =>
      case CTable(_) =>
      case CScalar(_) =>
    }
  }

  /** `s.replace(s, new)` is `new`. */
  lemma ReplaceAllWhole(s: string, rep: string)
    requires s != []
    ensures ReplaceAll(s, s, rep) == rep
  {
    assert s[..|s|] == s;
    assert ReplaceAll(s[|s|..], s, rep) == [];
  }

  /** A string in which `${` does not occur is kept as it is. */
  lemma NoPlaceholderUnchanged(s: string, env: Env)
    requires forall k :: 0 <= k < |s| - 1 ==> !(s[k] == '$' && s[k + 1] == '{')
    ensures InterpolateString(s, env) == s
  {
    assert Search(s, 0).None?;
  }

  /** A string that is just a placeholder `${x}`: its match spans the whole
      string and its group is `x`. */
  lemma WholePlaceholder(x: string)
    requires x != [] && forall k :: 0 <= k < |x| ==> x[k] != '\n'
    ensures var s := "${" + x + "}"; Search(s, 0) == Some((0, |s| - 1)) && s[2..|s| - 1] == x && s[0..|s|] == s
  {
    var s := "${" + x + "}";
    assert forall k :: 2 <= k < |s| ==> s[k] != '\n';
    assert LineEnd(s, 2) == |s|;
    assert MatchAt(s, 0) == Some(|s| - 1);
  }

  /** A string that is just a placeholder `${x}` becomes the value of the
      variable `x`, or the empty string when it is unset. */
  lemma PlaceholderReplaced(x: string, env: Env)
    requires x != [] && forall k :: 0 <= k < |x| ==> x[k] != '\n'
    ensures InterpolateString("${" + x + "}", env) == GetEnv(env, x)
  {
    WholePlaceholder(x);
    ReplaceAllWhole("${" + x + "}", GetEnv(env, x));
  }

  /** As written, a string that is just a placeholder `${x}` becomes the
      value of `ENV_NAME`, whatever `x` is. */
  lemma PlaceholderAsWritten(x: string, env: Env)
    requires x != [] && forall k :: 0 <= k < |x| ==> x[k] != '\n'
    ensures InterpolateStringAsWritten("${" + x + "}", env) == GetEnv(env, "ENV_NAME")
  {
    WholePlaceholder(x);
    ReplaceAllWhole("${" + x + "}", GetEnv(env, "ENV_NAME"));
  }

  /** With only `SECRET` set, `${SECRET}` is emptied as written, but holds the
      secret once the placeholder's own variable is read. */
  lemma AsWrittenDropsNamedVariable()
    ensures var env := (n: string) => if n == "SECRET" then Some("s3cr3t") else None;
      && InterpolateStringAsWritten("${SECRET}", env) == ""
      && InterpolateString("${SECRET}", env) == "s3cr3t"
  {
    var env := (n: string) => if n == "SECRET" then Some("s3cr3t") else None;
    assert "${SECRET}" == "${" + "SECRET" + "}";
    PlaceholderAsWritten("SECRET", env);
    PlaceholderReplaced("SECRET", env);
  }

  /** A value none of whose strings, at any depth, contains `${`. */
  predicate NoPlaceholders(v: ConfValue)
    decreases v
  {
    match v
    case CStr(s) => forall k :: 0 <= k < |s| - 1 ==> !(s[k] == '$' && s[k + 1] == '{')
    case CTable(entries) => forall i :: 0 <= i < |entries| ==> NoPlaceholders(entries[i].1)
    case CScalar(_) => true
  }

  /** A configuration without placeholders is kept as it is. */
  lemma {:induction false} NoPlaceholdersUnchanged(v: ConfValue, env: Env)
    requires NoPlaceholders(v)
    ensures InterpolateValue(v, env) == v
    decreases v
  {
    match v {
      case CStr(s) => NoPlaceholderUnchanged(s, env);
      case CTable(entries) =>
        forall i | 0 <= i < |entries| ensures InterpolateValue(entries[i].1, env) == entries[i].1 {
          NoPlaceholdersUnchanged(entries[i].1, env);
        }
        assert InterpolateValue(v, env).entries == entries;
      case CScalar(_) =>
    }
  }
  /** One more item adds its key and its interpolated value. */
  lemma InterpolateEnvSnoc(d: seq<(string, ConfValue)>, env: Env, i: nat)
    requires i < |d|
    ensures InterpolateEnv(d[..i + 1], env) == InterpolateEnv(d[..i], env) + [(d[i].0, InterpolateValue(d[i].1, env))]
  {
    var a := InterpolateEnv(d[..i + 1], env);
    var b := InterpolateEnv(d[..i], env) + [(d[i].0, InterpolateValue(d[i].1, env))];
    assert |a| == |b|;
    forall j | 0 <= j < |a| ensures a[j] == b[j] {
      assert d[..i + 1][j] == d[j];
      if j < i {
        assert d[..i][j] == d[j];
      }
    }
  }

  /** The loop of `interpolate_env` over the items of `d`, building the new
      dictionary. */
  method Interpolate(d: seq<(string, ConfValue)>, env: Env) returns (interpolated: seq<(string, ConfValue)>)
    ensures interpolated == InterpolateEnv(d, env)
    decreases CTable(d), 0
  {
    interpolated := [];
    var i := 0;
    while i < |d|
      invariant 0 <= i <= |d|
      invariant interpolated == InterpolateEnv(d[..i], env)
    {
      assert d[i] in d;
      var v := InterpolateItem(d[i].1, env);
      InterpolateEnvSnoc(d, env, i);
      interpolated := interpolated + [(d[i].0, v)];
      i := i + 1;
    }
    assert d[..i] == d;
  }

  /** The body of that loop: a string is interpolated, a nested table goes
      through `interpolate_env` again, and anything else is kept. */
  method InterpolateItem(v: ConfValue, env: Env) returns (r: ConfValue)
    ensures r == InterpolateValue(v, env)
    decreases v, 1
  {
    match v {
      case CStr(str) =>
        r := CStr(InterpolateString(str, env));
      case CTable(entries) =>
        var sub := Interpolate(entries, env);
        r := CTable(sub);
      case CScalar(_) =>
        r := v;
    }
  }
}
