/** The reported-recipes check of `checks/normandy/reported_recipes.py`:
    every recipe enabled on the server should have uptake events. The rows
    of the uptake query and the server's recipe ids are inputs. */
module ReportedRecipes {
  import opened Common
  import opened OrderedDict

  const EXPOSED_PARAMETERS: seq<string> := ["server", "lag_margin", "channels"]
  const NORMANDY_URL := "{server}/api/v1/recipe/signed/?enabled=1"

  /** One row of the uptake query; timestamps are instants. */
  datatype RecipeRow = RecipeRow(minTimestamp: nat, maxTimestamp: nat, source: string, total: int)

  /** `int(source.split("/")[-1])`, absent when that is not an integer (the
      rows about actions and runners). */
  function RecipeId(row: RecipeRow): Option<int> {
    ParseInt(AfterLast(row.source, '/'))
  }

  /** A source ending in `/` and a decimal number names that recipe. */
  lemma RecipeIdOfSource(prefix: string, n: nat, row: RecipeRow)
    requires row.source == prefix + "/" + NatToString(n)
    ensures RecipeId(row) == Some(n)
  {
    var d := NatToString(n);
    assert '/' !in d;
    assert prefix + "/" + d == prefix + ['/'] + d;
    AfterLastAppend(prefix, d, '/');
    NatStringParses(n);
    StripIntString(n);
    assert IntToString(n) == d;
    ParseIntNoSign(d, n);
  }

  /** A source whose last segment starts with something other than a
      digit, a sign or a space (`normandy/action/show-heartbeat`) is skipped. */
  lemma NonNumericSourceSkipped(prefix: string, segment: string, row: RecipeRow)
    requires row.source == prefix + "/" + segment && '/' !in segment
    requires segment != [] && !IsDigit(segment[0]) && !IsSpace(segment[0]) && segment[0] != '-' && segment[0] != '+'
    ensures RecipeId(row) == None
  {
    assert prefix + "/" + segment == prefix + ['/'] + segment;
    AfterLastAppend(prefix, segment, '/');
    assert StripLeft(segment) == segment;
    var t := Strip(segment);
    assert t == [] || t[0] == segment[0];
  }

  /** The loop that fills `count_by_id`. */
  function CountById(rows: seq<RecipeRow>): Dict<int, int>
    decreases |rows|
  {
    if rows == [] then []
    else
      var d := CountById(rows[..|rows| - 1]);
      var row := rows[|rows| - 1];
      match RecipeId(row)
      case None => d
      case Some(rid) => AddTo(d, rid, row.total)
  }

  /** The sum of the totals of the rows about recipe `rid`. */
  function TotalFor(rows: seq<RecipeRow>, rid: int): int
    decreases |rows|
  {
    if rows == [] then 0
    else
      var row := rows[|rows| - 1];
      TotalFor(rows[..|rows| - 1], rid) + (if RecipeId(row) == Some(rid) then row.total else 0)
  }

  /** Each recipe's count is the sum of the totals of its rows. */
  lemma {:induction false} CountByIdTotals(rows: seq<RecipeRow>, rid: int)
    ensures GetOr(CountById(rows), rid, 0) == TotalFor(rows, rid)
    decreases |rows|
  {
    if rows != [] {
      var row := rows[|rows| - 1];
      CountByIdTotals(rows[..|rows| - 1], rid);
      if RecipeId(row).Some? {
        GetOrAddTo(CountById(rows[..|rows| - 1]), RecipeId(row).value, row.total, rid);
      }
    }
  }

  /** The recipe id of each row, in row order. */
  function RecipeIds(rows: seq<RecipeRow>): (ids: seq<Option<int>>)
    ensures |ids| == |rows|
    decreases |rows|
  {
    if rows == [] then [] else RecipeIds(rows[..|rows| - 1]) + [RecipeId(rows[|rows| - 1])]
  }

  /** Whether some row is about recipe `rid`. */
  predicate Reported(rows: seq<RecipeRow>, rid: int) {
    Some(rid) in RecipeIds(rows)
  }

  /** The counted recipes are exactly those some row is about. */
  lemma {:induction false} CountByIdKeys(rows: seq<RecipeRow>, rid: int)
    ensures rid in Keys(CountById(rows)) <==> Reported(rows, rid)
    decreases |rows|
  {
    if rows != [] {
      var init := rows[..|rows| - 1];
      var row := rows[|rows| - 1];
      CountByIdKeys(init, rid);
      var d := CountById(init);
      match RecipeId(row) {
        case None =>
        case Some(r) => assert Keys(AddTo(d, r, row.total)) == if r in Keys(d) then Keys(d) else Keys(d) + [r];
      }
    }
  }

  // ---------------------------------------------------------------------------
  // sorted(missing)

  predicate StrictlyIncreasing(s: seq<int>) {
    forall i, j :: 0 <= i < j < |s| ==> s[i] < s[j]
  }

  /** `x` put in its place in an ascending sequence, unless already there. */
  function Insert(x: int, r: seq<int>): (r': seq<int>)
    requires StrictlyIncreasing(r)
    ensures StrictlyIncreasing(r')
    ensures forall y :: y in r' <==> y == x || y in r
    decreases |r|
  {
    if r == [] then [x]
    else if x < r[0] then [x] + r
    else if x == r[0] then r
    else
      assert StrictlyIncreasing(r[1..]) by {
        forall i, j | 0 <= i < j < |r[1..]| ensures r[1..][i] < r[1..][j] {
          assert r[1..][i] == r[i + 1] && r[1..][j] == r[j + 1];
        }
      }
      var rest := Insert(x, r[1..]);
      assert forall y :: y in r[1..] ==> r[0] < y;
      assert forall k :: 0 <= k < |rest| ==> r[0] < rest[k] by {
        forall k | 0 <= k < |rest| ensures r[0] < rest[k] {
          assert rest[k] in rest;
        }
      }
      [r[0]] + rest
  }

  /** The elements of `xs`, ascending and each once: `sorted(set(xs))`. */
  function SortUnique(xs: seq<int>): (r: seq<int>)
    ensures StrictlyIncreasing(r)
    ensures forall y :: y in r <==> y in xs
    decreases |xs|
  {
    if xs == [] then []
    else
      var r := Insert(xs[|xs| - 1], SortUnique(xs[..|xs| - 1]));
      assert forall y :: y in xs <==> y in xs[..|xs| - 1] || y == xs[|xs| - 1] by {
        assert xs == xs[..|xs| - 1] + [xs[|xs| - 1]];
      }
      r
  }

  // ---------------------------------------------------------------------------
  // The check

  datatype RecipesData = RecipesData(minTimestamp: nat, maxTimestamp: nat, missing: seq<int>)

  function MinTimestamp(rows: seq<RecipeRow>): (m: nat)
    requires rows != []
    ensures forall i :: 0 <= i < |rows| ==> m <= rows[i].minTimestamp
    ensures exists i :: 0 <= i < |rows| && m == rows[i].minTimestamp
  {
    if |rows| == 1 then rows[0].minTimestamp
    else
      var m := MinTimestamp(rows[1..]);
      assert forall i :: 1 <= i < |rows| ==> rows[i] == rows[1..][i - 1];
      if rows[0].minTimestamp < m then rows[0].minTimestamp else m
  }

  function MaxTimestamp(rows: seq<RecipeRow>): (m: nat)
    requires rows != []
    ensures forall i :: 0 <= i < |rows| ==> rows[i].maxTimestamp <= m
    ensures exists i :: 0 <= i < |rows| && m == rows[i].maxTimestamp
  {
    if |rows| == 1 then rows[0].maxTimestamp
    else
      var m := MaxTimestamp(rows[1..]);
      assert forall i :: 1 <= i < |rows| ==> rows[i] == rows[1..][i - 1];
      if rows[0].maxTimestamp > m then rows[0].maxTimestamp else m
  }

  /** The server's recipes without any counted event. */
  function MissingIds(count: Dict<int, int>, serverIds: seq<int>): set<int> {
    (set x | x in serverIds) - (set x | x in Keys(count))
  }

  /** `sorted(missing)`: the same ids, ascending and each once. */
  function SortMissing(count: Dict<int, int>, serverIds: seq<int>): (r: seq<int>)
    ensures StrictlyIncreasing(r)
    ensures forall x :: x in r <==> x in MissingIds(count, serverIds)
  {
    SortUnique(Filter(serverIds, x => x !in Keys(count)))
  }

  /** `run` over the uptake rows and the ids of the server's recipes. */
  function Run(rows: seq<RecipeRow>, serverIds: seq<int>): Result<(bool, RecipesData)> {
    if rows == [] then Err(ValueError("min() arg is an empty sequence"))
    else
      var missing := MissingIds(CountById(rows), serverIds);
      Ok((|missing| == 0, RecipesData(MinTimestamp(rows), MaxTimestamp(rows), SortMissing(CountById(rows), serverIds))))
  }

  /** The missing ids are the server's recipes no row is about, ascending and
      each once; the check succeeds iff every server recipe is reported. The
      time range covers every row, skipped ones included. */
  lemma RunSpec(rows: seq<RecipeRow>, serverIds: seq<int>)
    ensures var r := Run(rows, serverIds);
      && (r.Err? <==> rows == [])
      && (r.Ok? ==>
            var d := r.value.1;
            && StrictlyIncreasing(d.missing)
            && (forall x :: x in d.missing <==> x in serverIds && !Reported(rows, x))
            && (r.value.0 <==> forall x :: x in serverIds ==> Reported(rows, x))
            && (forall i :: 0 <= i < |rows| ==> d.minTimestamp <= rows[i].minTimestamp && rows[i].maxTimestamp <= d.maxTimestamp))
  {
    if rows != [] {
      var d := Run(rows, serverIds).value.1;
      forall x ensures x in d.missing <==> x in serverIds && !Reported(rows, x) {
        CountByIdKeys(rows, x);
      }
      if d.missing != [] {
        assert d.missing[0] in d.missing;
      }
    }
  }

  // ---------------------------------------------------------------------------
  // The check, step by step

  /** `run` as the source runs it: the loop over the rows, then the set
      difference. */
  method Evaluate(rows: seq<RecipeRow>, serverIds: seq<int>) returns (r: Result<(bool, RecipesData)>)
    ensures r == Run(rows, serverIds)
  {
    if rows == [] {
      return Err(ValueError("min() arg is an empty sequence"));
    }
    var minTimestamp := MinTimestamp(rows);
    var maxTimestamp := MaxTimestamp(rows);
    var countById: Dict<int, int> := [];
    var i := 0;
    while i < |rows|
      invariant 0 <= i <= |rows|
      invariant countById == CountById(rows[..i])
    {
      assert rows[..i + 1][..i] == rows[..i];
      var rid := RecipeId(rows[i]);
      if rid.Some? {
        countById := AddTo(countById, rid.value, rows[i].total);
      }
      i := i + 1;
    }
    assert rows[..i] == rows;
    var missing := MissingIds(countById, serverIds);
    var sorted := SortMissing(countById, serverIds);
    r := Ok((|missing| == 0, RecipesData(minTimestamp, maxTimestamp, sorted)));
  }
}
