/** The signatures-age check of `checks/remotesettings/signatures_age.py`:
    every signed collection's signature should be younger than `max_age`
    hours. The signed resources, each collection's `last_signature_date`
    and the clock are inputs; instants are whole seconds. */
module SignaturesAge {
  import opened Common
  import opened OrderedDict

  const URL_PARAMETERS: seq<string> := ["max_age"]
  const EXPOSED_PARAMETERS: seq<string> := ["max_age"]

  /** Python's `int(x)` on a float: truncation toward zero. */
  function Truncate(x: real): int {
    if x >= 0.0 then x.Floor else -((-x).Floor)
  }

  /** `int(delta.days * 24 + delta.seconds / 3600)` for the `timedelta` of
      `delta` seconds, which Python normalises into whole days (rounded down)
      and `0 <= seconds < 86400`. */
  function AgeHours(delta: int): int {
    var days := delta / 86400;
    var seconds := delta % 86400;
    Truncate((days * 24) as real + (seconds as real) / 3600.0)
  }

  /** `get_signature_age_hours`: none without a signature date. */
  function SignatureAge(signatureDate: Option<int>, now: int): (age: Option<int>)
    ensures signatureDate.None? <==> age.None?
  {
    if signatureDate.None? then None else Some(AgeHours(now - signatureDate.value))
  }

  lemma FloorDiv(n: int, d: nat)
    requires d > 0
    ensures ((n as real) / (d as real)).Floor == n / d
  {
    var q := n / d;
    var r := n % d;
    assert n == q * d + r;
    assert (n as real) / (d as real) == (q as real) + (r as real) / (d as real);
    assert 0.0 <= (r as real) / (d as real) < 1.0;
  }

  /** The age is the number of whole hours elapsed, truncated toward zero
      for a signature dated in the future. */
  lemma AgeIsWholeHours(delta: int)
    ensures AgeHours(delta) == if delta >= 0 then delta / 3600 else -((-delta) / 3600)
  {
    var days := delta / 86400;
    var seconds := delta % 86400;
    var x := (days * 24) as real + (seconds as real) / 3600.0;
    assert delta == days * 86400 + seconds;
    assert x == (delta as real) / 3600.0;
    if delta >= 0 {
      FloorDiv(delta, 3600);
    } else {
      assert -x == ((-delta) as real) / 3600.0;
      FloorDiv(-delta, 3600);
    }
  }

  /** 23 hours and 46 minutes make 23 hours. */
  lemma AgeTruncatesToHours()
    ensures AgeHours(23 * 3600 + 46 * 60) == 23
  {
    AgeIsWholeHours(23 * 3600 + 46 * 60);
  }

  /** Whether a collection is reported: no signature date, or older than
      `max_age` hours. */
  predicate TooOld(age: Option<int>, maxAge: int) {
    age.None? || age.value > maxAge
  }

  /** The `ages` dictionary: each reported collection under `bid/cid`, with
      its age; a later collection with the same key replaces an earlier one. */
  function Ages(collections: seq<(string, string)>, ages: seq<Option<int>>, maxAge: int): Dict<string, Option<int>>
    requires |collections| == |ages|
    decreases |collections|
  {
    if collections == [] then []
    else
      var n := |collections| - 1;
      var d := Ages(collections[..n], ages[..n], maxAge);
      if TooOld(ages[n], maxAge) then Put(d, collections[n].0 + "/" + collections[n].1, ages[n]) else d
  }

  /** A key is in `ages` iff some collection under it is reported, and then
      it holds the age of a reported collection under it. */
  lemma {:induction false} AgesSpec(collections: seq<(string, string)>, ages: seq<Option<int>>, maxAge: int, key: string)
    requires |collections| == |ages|
    ensures var d := Ages(collections, ages, maxAge);
      && (key in Keys(d) <==>
            exists i :: 0 <= i < |ages| && collections[i].0 + "/" + collections[i].1 == key && TooOld(ages[i], maxAge))
      && (forall a :: (key, a) in d ==>
            exists i :: 0 <= i < |ages| && collections[i].0 + "/" + collections[i].1 == key && ages[i] == a && TooOld(a, maxAge))
    decreases |collections|
  {
    if collections != [] {
      var n := |collections| - 1;
      var cs := collections[..n];
      var ags := ages[..n];
      AgesSpec(cs, ags, maxAge, key);
      assert forall i :: 0 <= i < n ==> cs[i] == collections[i] && ags[i] == ages[i];
      var d := Ages(cs, ags, maxAge);
      var k := collections[n].0 + "/" + collections[n].1;
      if TooOld(ages[n], maxAge) {
        forall a | (key, a) in Put(d, k, ages[n])
          ensures exists i :: 0 <= i < |ages| && collections[i].0 + "/" + collections[i].1 == key && ages[i] == a && TooOld(a, maxAge)
        {
          PutMember(d, k, ages[n], (key, a));
          if (key, a) != (k, ages[n]) {
            var i :| 0 <= i < n && cs[i].0 + "/" + cs[i].1 == key && ags[i] == a && TooOld(a, maxAge);
            assert collections[i] == cs[i];
          }
        }
      }
    }
  }

  /** `run` over the signed source collections and the age computed for
      each: the check succeeds iff `ages` is empty. */
  function Run(collections: seq<(string, string)>, ages: seq<Option<int>>, maxAge: int): (bool, Dict<string, Option<int>>)
    requires |collections| == |ages|
  {
    var d := Ages(collections, ages, maxAge);
    (|d| == 0, d)
  }

  /** Success iff every collection has a signature at most `max_age` hours old. */
  lemma RunSpec(collections: seq<(string, string)>, ages: seq<Option<int>>, maxAge: int)
    requires |collections| == |ages|
    ensures Run(collections, ages, maxAge).0 <==> forall i :: 0 <= i < |ages| ==> ages[i].Some? && ages[i].value <= maxAge
  {
    var d := Ages(collections, ages, maxAge);
    if |d| == 0 {
      forall i | 0 <= i < |ages| ensures ages[i].Some? && ages[i].value <= maxAge {
        var key := collections[i].0 + "/" + collections[i].1;
        AgesSpec(collections, ages, maxAge, key);
      }
    } else {
      AgesSpec(collections, ages, maxAge, d[0].0);
      assert d[0].0 in Keys(d);
    }
  }

  /** With ages computed from the signature dates at the instant `now`. */
  function Check(collections: seq<(string, string)>, dates: seq<Option<int>>, now: int, maxAge: int): (bool, Dict<string, Option<int>>)
    requires |collections| == |dates|
  {
    Run(collections, seq(|dates|, i requires 0 <= i < |dates| => SignatureAge(dates[i], now)), maxAge)
  }

  /** One collection 5 hours old with `max_age` 4 is reported as `bid/cid: 5`. */
  lemma OneOldCollection()
    ensures Run([("bid", "cid")], [Some(5)], 4) == (false, [("bid/cid", Some(5))])
    ensures Run([("bid", "cid")], [Some(3)], 4) == (true, [])
  {
    assert [("bid", "cid")][..0] == [];
    assert [Some(5)][..0] == [];
    assert [Some(3)][..0] == [];
    assert "bid" + "/" + "cid" == "bid/cid";
    assert Ages([("bid", "cid")], [Some(5)], 4) == Put([], "bid/cid", Some(5));
  }
}
