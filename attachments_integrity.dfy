/** The attachments-integrity check of
    `checks/remotesettings/attachments_integrity.py`: every attachment should
    have the size and SHA-256 hash its record announces. The changes
    entries, the records of each collection, the attachments base URL, what
    a GET of each URL returns and the hash function are inputs. */
module AttachmentsIntegrity {
  import opened Common
  import opened OrderedDict
  import opened RemoteSettings

  /** A record's `attachment` object; the check rewrites its `location`. */
  class Attachment {
    var location: string
    const size: int
    const hash: string

    constructor (location: string, size: int, hash: string)
      ensures this.location == location && this.size == size && this.hash == hash
    {
      this.location := location;
      this.size := size;
      this.hash := hash;
    }
  }

  /** What a GET returns: the body, or the text of the `ClientError` raised. */
  datatype Download = Body(binary: seq<bv8>) | ClientError(message: string)

  type Fetch = string -> Download

  /** `hashlib.sha256(binary).hexdigest()`. */
  type Sha256 = seq<bv8> -> string

  /** The result dictionary of `test_attachment`: `{}` or `{"url", "error"}`. */
  datatype Report = Passed | Failed(url: string, error: string)

  // ---------------------------------------------------------------------------
  // One attachment

  /** `test_attachment` on an attachment whose location is already absolute. */
  function TestAttachment(a: AttachmentInfo, fetch: Fetch, sha256: Sha256): (Report, bool) {
    var url := a.location;
    match fetch(url)
    case ClientError(message) => (Failed(url, message), false)
    case Body(binary) =>
      if |binary| != a.size then
        (Failed(url, "size differ (" + IntToString(|binary|) + "!=" + IntToString(a.size) + ")"), false)
      else if sha256(binary) != a.hash then
        (Failed(url, "hash differ (" + sha256(binary) + "!=" + a.hash + ")"), false)
      else (Passed, true)
  }

  /** An attachment passes iff it downloads with the announced size and
      hash, and then its report is empty; a failing report names its URL. */
  lemma TestAttachmentSpec(a: AttachmentInfo, fetch: Fetch, sha256: Sha256)
    ensures var (report, ok) := TestAttachment(a, fetch, sha256);
      var download := fetch(a.location);
      && (ok <==> download.Body? && |download.binary| == a.size && sha256(download.binary) == a.hash)
      && (ok <==> report == Passed)
      && (!ok ==> report.Failed? && report.url == a.location)
      && (download.ClientError? ==> report == Failed(a.location, download.message))
  {
  }

  /** The size is checked first: on a client error or a size mismatch the
      hash is never computed, so any hash function gives the same result. */
  lemma SizeBeforeHash(a: AttachmentInfo, fetch: Fetch, sha256: Sha256, sha256': Sha256)
    requires fetch(a.location).ClientError? || |fetch(a.location).binary| != a.size
    ensures TestAttachment(a, fetch, sha256) == TestAttachment(a, fetch, sha256')
    ensures fetch(a.location).Body? ==>
      TestAttachment(a, fetch, sha256).0.error ==
        "size differ (" + IntToString(|fetch(a.location).binary|) + "!=" + IntToString(a.size) + ")"
  {
  }

  // ---------------------------------------------------------------------------
  // The snapshot the probes see

  /** The attachments that the records of each collection carry, in order. */
  function Carried(recs: seq<Option<Attachment>>): seq<Attachment>
    decreases |recs|
  {
    if recs == [] then []
    else Carried(recs[..|recs| - 1]) + (if recs[|recs| - 1].Some? then [recs[|recs| - 1].value] else [])
  }

  function AllCarried(results: seq<seq<Option<Attachment>>>): seq<Attachment>
    decreases |results|
  {
    if results == [] then [] else AllCarried(results[..|results| - 1]) + Carried(results[|results| - 1])
  }

  lemma {:induction false} CarriedSplit(recs: seq<Option<Attachment>>, j: nat)
    requires j <= |recs|
    ensures Carried(recs) == Carried(recs[..j]) + Carried(recs[j..])
    decreases |recs|
  {
    if j < |recs| {
      var n := |recs| - 1;
      CarriedSplit(recs[..n], j);
      assert recs[..n][..j] == recs[..j];
      assert recs[j..] == recs[j..n] + [recs[n]];
      assert recs[..n][j..] == recs[j..n];
      assert recs[j..][..|recs[j..]| - 1] == recs[j..n];
    } else {
      assert recs[..j] == recs;
    }
  }

  /** The attachments of the first collections come first. */
  lemma {:induction false} AllCarriedPrefix(results: seq<seq<Option<Attachment>>>, i: nat)
    requires i <= |results|
    ensures var p := AllCarried(results[..i]);
      |p| <= |AllCarried(results)| && AllCarried(results)[..|p|] == p
    decreases |results|
  {
    if i == |results| {
      assert results[..i] == results;
    } else {
      var n := |results| - 1;
      AllCarriedPrefix(results[..n], i);
      assert results[..n][..i] == results[..i];
    }
  }

  /** What has been gathered when record `j` of collection `i` is reached
      is a prefix of all the attachments. */
  lemma GatheredPrefix(results: seq<seq<Option<Attachment>>>, i: nat, j: nat)
    requires i < |results| && j <= |results[i]|
    ensures var g := AllCarried(results[..i]) + Carried(results[i][..j]);
      |g| <= |AllCarried(results)| && AllCarried(results)[..|g|] == g
  {
    AllCarriedPrefix(results, i + 1);
    CarriedSplit(results[i], j);
    assert results[..i + 1][..i] == results[..i];
    PrefixOfPrefix(AllCarried(results), AllCarried(results[..i]), Carried(results[i][..j]), Carried(results[i][j..]));
  }

  /** One more record carries at most its own attachment. */
  lemma CarriedSnoc(recs: seq<Option<Attachment>>, j: nat)
    requires j < |recs|
    ensures Carried(recs[..j + 1]) == Carried(recs[..j]) + (if recs[j].Some? then [recs[j].value] else [])
  {
    assert recs[..j + 1][..j] == recs[..j];
  }

  /** The attachment of record `j` of collection `i` comes right after
      what has been gathered before it. */
  lemma NextCarried(results: seq<seq<Option<Attachment>>>, i: nat, j: nat)
    requires i < |results| && j < |results[i]| && results[i][j].Some?
    ensures var g := AllCarried(results[..i]) + Carried(results[i][..j]);
      |g| < |AllCarried(results)| && AllCarried(results)[|g|] == results[i][j].value
  {
    CarriedSnoc(results[i], j);
    GatheredPrefix(results, i, j + 1);
    var g := AllCarried(results[..i]) + Carried(results[i][..j]);
    var g' := AllCarried(results[..i]) + Carried(results[i][..j + 1]);
    assert g' == g + [results[i][j].value];
    assert g'[|g|] == results[i][j].value;
  }

  lemma PrefixOfPrefix<T>(s: seq<T>, a: seq<T>, b: seq<T>, c: seq<T>)
    requires |a + (b + c)| <= |s| && s[..|a + (b + c)|] == a + (b + c)
    ensures |a + b| <= |s| && s[..|a + b|] == a + b
  {
    assert (a + (b + c))[..|a + b|] == a + b;
  }

  /** The fields of each attachment, as the probes read them. */
  function Snapshot(atts: seq<Attachment>): (r: seq<AttachmentInfo>)
    reads set a | a in atts
    ensures |r| == |atts|
    ensures forall k :: 0 <= k < |atts| ==> r[k] == AttachmentInfo(atts[k].location, atts[k].size, atts[k].hash)
    decreases |atts|
  {
    if atts == [] then []
    else
      var a := atts[|atts| - 1];
      Snapshot(atts[..|atts| - 1]) + [AttachmentInfo(a.location, a.size, a.hash)]
  }

  /** Each location made absolute. */
  function Relocated(infos: seq<AttachmentInfo>, baseUrl: string): (r: seq<AttachmentInfo>)
    ensures |r| == |infos|
    ensures forall k :: 0 <= k < |infos| ==> r[k] == infos[k].(location := baseUrl + infos[k].location)
  {
    seq(|infos|, k requires 0 <= k < |infos| => infos[k].(location := baseUrl + infos[k].location))
  }

  // ---------------------------------------------------------------------------
  // The verdict

  /** The outcome of each attachment, in order. */
  function Tests(infos: seq<AttachmentInfo>, fetch: Fetch, sha256: Sha256): (r: seq<(Report, bool)>)
    ensures |r| == |infos|
    ensures forall k :: 0 <= k < |infos| ==> r[k] == TestAttachment(infos[k], fetch, sha256)
  {
    seq(|infos|, k requires 0 <= k < |infos| => TestAttachment(infos[k], fetch, sha256))
  }

  /** `[result for result, success in results if not success]`. */
  function Bad(results: seq<(Report, bool)>): seq<Report>
    decreases |results|
  {
    if results == [] then []
    else
      var last := results[|results| - 1];
      Bad(results[..|results| - 1]) + (if !last.1 then [last.0] else [])
  }

  /** The bad reports are those of the failing outcomes, and there are none
      iff every outcome succeeds. */
  lemma {:induction false} BadSpec(results: seq<(Report, bool)>, report: Report)
    ensures |Bad(results)| <= |results|
    ensures report in Bad(results) <==> exists k :: 0 <= k < |results| && results[k] == (report, false)
    ensures Bad(results) == [] <==> forall k :: 0 <= k < |results| ==> results[k].1
    decreases |results|
  {
    if results != [] {
      var init := results[..|results| - 1];
      BadSpec(init, report);
      assert forall k :: 0 <= k < |init| ==> init[k] == results[k];
    }
  }

  datatype IntegrityData = IntegrityData(bad: seq<Report>, checked: nat)

  /** The verdict over the attachments with absolute locations. */
  function Check(infos: seq<AttachmentInfo>, fetch: Fetch, sha256: Sha256): (bool, IntegrityData) {
    var bad := Bad(Tests(infos, fetch, sha256));
    (|bad| == 0, IntegrityData(bad, |infos|))
  }

  /** Success iff every attachment passes; each bad report names the URL of a
      failing attachment; `checked` counts them all. */
  lemma CheckSpec(infos: seq<AttachmentInfo>, fetch: Fetch, sha256: Sha256)
    ensures var (ok, d) := Check(infos, fetch, sha256);
      && d.checked == |infos|
      && |d.bad| <= |infos|
      && (ok <==> forall k :: 0 <= k < |infos| ==> TestAttachment(infos[k], fetch, sha256).1)
      && (forall r :: r in d.bad ==> r.Failed? && exists k :: 0 <= k < |infos| && r.url == infos[k].location)
  {
    var results := Tests(infos, fetch, sha256);
    var bad := Bad(results);
    BadSpec(results, Passed);
    forall r | r in bad ensures r.Failed? && exists k :: 0 <= k < |infos| && r.url == infos[k].location {
      BadSpec(results, r);
      var k :| 0 <= k < |results| && results[k] == (r, false);
      TestAttachmentSpec(infos[k], fetch, sha256);
    }
  }

  // ---------------------------------------------------------------------------
  // The check, step by step

  /** `run` over the changes entries: the records of the non-preview
      collections are fetched, each attachment's `location` is made absolute
      in place and the attachment gathered, then every gathered attachment
      is checked. Attachments are distinct objects, as decoding the records
      makes them. */
  method Run(entries: seq<ChangesEntry>, records: (string, string, int) -> seq<Option<Attachment>>,
             baseUrl: string, fetch: Fetch, sha256: Sha256) returns (ok: bool, d: IntegrityData)
    requires NoDup(AllCarried(FetchRecords(entries, records)))
    modifies set a | a in AllCarried(FetchRecords(entries, records))
    ensures var all := AllCarried(FetchRecords(entries, records));
      Snapshot(all) == Relocated(old(Snapshot(all)), baseUrl)
    ensures (ok, d) == Check(Relocated(old(Snapshot(AllCarried(FetchRecords(entries, records)))), baseUrl), fetch, sha256)
  {
    var results := FetchRecords(entries, records);
    ghost var all := AllCarried(results);
    ghost var before := Snapshot(all);
    var attachments := GatherAttachments(results, baseUrl);
    assert Snapshot(attachments) == Relocated(before, baseUrl);
    var outcomes := Tests(Snapshot(attachments), fetch, sha256);
    var bad := Bad(outcomes);
    ok := |bad| == 0;
    d := IntegrityData(bad, |attachments|);
  }

  /** The first `n` of the attachments have their location made absolute,
      the others still hold the location they had. */
  predicate Relocating(all: seq<Attachment>, before: seq<AttachmentInfo>, n: nat, baseUrl: string)
    reads set a | a in all
  {
    && |before| == |all| && n <= |all|
    && (forall k :: 0 <= k < n ==> all[k].location == baseUrl + before[k].location)
    && (forall k :: n <= k < |all| ==> all[k].location == before[k].location)
  }

  /** The nested loop of `run`: every attachment the records carry is
      gathered, in order, with its location made absolute. */
  method GatherAttachments(results: seq<seq<Option<Attachment>>>, baseUrl: string) returns (attachments: seq<Attachment>)
    requires NoDup(AllCarried(results))
    modifies set a | a in AllCarried(results)
    ensures attachments == AllCarried(results)
    ensures Snapshot(attachments) == Relocated(old(Snapshot(AllCarried(results))), baseUrl)
  {
    ghost var all := AllCarried(results);
    ghost var before := Snapshot(all);
    attachments := [];
    var i := 0;
    while i < |results|
      invariant 0 <= i <= |results|
      invariant attachments == AllCarried(results[..i])
      invariant Relocating(all, before, |attachments|, baseUrl)
    {
      attachments := GatherRecords(results, i, baseUrl, before, attachments);
      i := i + 1;
    }
    assert results[..i] == results;
    assert Snapshot(attachments) == Relocated(before, baseUrl);
  }

  /** The inner loop, over the records of collection `i`. */
  method GatherRecords(results: seq<seq<Option<Attachment>>>, i: nat, baseUrl: string, ghost before: seq<AttachmentInfo>,
                       gathered: seq<Attachment>) returns (attachments: seq<Attachment>)
    requires NoDup(AllCarried(results)) && i < |results|
    requires gathered == AllCarried(results[..i])
    requires Relocating(AllCarried(results), before, |gathered|, baseUrl)
    modifies set a | a in AllCarried(results)
    ensures attachments == AllCarried(results[..i + 1])
    ensures Relocating(AllCarried(results), before, |attachments|, baseUrl)
  {
    ghost var all := AllCarried(results);
    var recs := results[i];
    attachments := gathered;
    var j := 0;
    while j < |recs|
      invariant 0 <= j <= |recs|
      invariant attachments == gathered + Carried(recs[..j])
      invariant Relocating(all, before, |attachments|, baseUrl)
    {
      CarriedSnoc(recs, j);
      if recs[j].Some? {
        var attachment := recs[j].value;
        NextCarried(results, i, j);
        MakeAbsolute(all, before, |attachments|, baseUrl, attachment);
        attachments := attachments + [attachment];
      }
      j := j + 1;
    }
    assert recs[..j] == recs;
    assert results[..i + 1][..i] == results[..i];
  }

  /** `attachment["location"] = base_url + attachment["location"]` for the
      `n`-th gathered attachment; the others are distinct objects and keep
      their locations. */
  method MakeAbsolute(ghost all: seq<Attachment>, ghost before: seq<AttachmentInfo>, ghost n: nat, baseUrl: string, attachment: Attachment)
    requires NoDup(all) && n < |all| && all[n] == attachment
    requires Relocating(all, before, n, baseUrl)
    modifies attachment
    ensures Relocating(all, before, n + 1, baseUrl)
  {
    ghost var current := Snapshot(all);
    attachment.location := baseUrl + attachment.location;
    forall k | 0 <= k < |all| && k != n ensures all[k].location == current[k].location {
      assert all[k] != all[n];
    }
  }
}
