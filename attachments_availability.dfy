/** The attachments-availability check of
    `checks/remotesettings/attachments_availability.py`: every attachment of
    every collection should answer a HEAD request. The changes entries, the
    records of each collection, the attachments base URL and the HEAD
    status of each URL are inputs. */
module AttachmentsAvailability {
  import opened Common
  import opened RemoteSettings

  /** The HEAD status of a URL; none when the request raises a `ClientError`. */
  type Probe = string -> Option<int>

  /** `test_url`: reachable iff the status is 200. */
  predicate TestUrl(probe: Probe, url: string) {
    probe(url) == Some(200)
  }

  /** `test_url` answers false on a client error and on any status but 200. */
  lemma TestUrlSpec(probe: Probe, url: string)
    ensures probe(url).None? ==> !TestUrl(probe, url)
    ensures probe(url).Some? ==> (TestUrl(probe, url) <==> probe(url).value == 200)
  {
  }

  /** The attachment URLs of one collection's records, in record order. */
  function RecordUrls(baseUrl: string, records: seq<Record>): seq<string>
    decreases |records|
  {
    if records == [] then []
    else
      var r := records[|records| - 1];
      RecordUrls(baseUrl, records[..|records| - 1]) + (if r.attachment.Some? then [baseUrl + r.attachment.value.location] else [])
  }

  /** The `urls` list: each collection's attachment URLs, collection by collection. */
  function Urls(baseUrl: string, results: seq<seq<Record>>): seq<string>
    decreases |results|
  {
    if results == [] then [] else Urls(baseUrl, results[..|results| - 1]) + RecordUrls(baseUrl, results[|results| - 1])
  }

  /** Whether a record of one collection has an attachment at `url`. */
  predicate AttachedIn(baseUrl: string, records: seq<Record>, url: string) {
    exists j :: 0 <= j < |records| && records[j].attachment.Some? && url == baseUrl + records[j].attachment.value.location
  }

  /** Whether a record of some collection has an attachment at `url`. */
  predicate Attached(baseUrl: string, results: seq<seq<Record>>, url: string) {
    exists i :: 0 <= i < |results| && AttachedIn(baseUrl, results[i], url)
  }

  /** How many records have an attachment. */
  function AttachmentCount(records: seq<Record>): nat
    decreases |records|
  {
    if records == [] then 0
    else AttachmentCount(records[..|records| - 1]) + (if records[|records| - 1].attachment.Some? then 1 else 0)
  }

  /** One URL per record with an attachment, and exactly their URLs. */
  lemma {:induction false} RecordUrlsSpec(baseUrl: string, records: seq<Record>, url: string)
    ensures |RecordUrls(baseUrl, records)| == AttachmentCount(records)
    ensures url in RecordUrls(baseUrl, records) <==> AttachedIn(baseUrl, records, url)
    decreases |records|
  {
    if records != [] {
      var init := records[..|records| - 1];
      RecordUrlsSpec(baseUrl, init, url);
      assert forall j :: 0 <= j < |init| ==> init[j] == records[j];
    }
  }

  /** `url` is probed iff a record has an attachment there. */
  lemma {:induction false} UrlsSpec(baseUrl: string, results: seq<seq<Record>>, url: string)
    ensures url in Urls(baseUrl, results) <==> Attached(baseUrl, results, url)
    decreases |results|
  {
    if results != [] {
      var n := |results| - 1;
      var init := results[..n];
      UrlsSpec(baseUrl, init, url);
      RecordUrlsSpec(baseUrl, results[n], url);
      assert forall i :: 0 <= i < n ==> init[i] == results[i];
      assert Attached(baseUrl, results, url) <==> Attached(baseUrl, init, url) || AttachedIn(baseUrl, results[n], url);
    }
  }

  /** The reported data: the unreachable URLs and how many were checked. */
  datatype AvailabilityData = AvailabilityData(missing: seq<string>, checked: nat)

  /** `run` over the changes entries. */
  function Run(entries: seq<ChangesEntry>, records: Records, baseUrl: string, probe: Probe): (bool, AvailabilityData) {
    var urls := Urls(baseUrl, FetchRecords(entries, records));
    var missing := Filter(urls, (u: string) => !TestUrl(probe, u));
    (|missing| == 0, AvailabilityData(missing, |urls|))
  }

  /** The missing URLs are the unreachable attachment URLs, in URL order;
      `checked` counts every URL; the check succeeds iff every attachment of
      every fetched collection is reachable. */
  lemma RunSpec(entries: seq<ChangesEntry>, records: Records, baseUrl: string, probe: Probe)
    ensures var (ok, d) := Run(entries, records, baseUrl, probe);
      var results := FetchRecords(entries, records);
      var urls := Urls(baseUrl, results);
      && IsSubsequence(d.missing, urls)
      && (forall u :: u in d.missing <==> Attached(baseUrl, results, u) && !TestUrl(probe, u))
      && d.checked == |urls|
      && (ok <==> forall u :: Attached(baseUrl, results, u) ==> TestUrl(probe, u))
  {
    var results := FetchRecords(entries, records);
    var urls := Urls(baseUrl, results);
    var missing := Filter(urls, (u: string) => !TestUrl(probe, u));
    forall u ensures u in missing <==> Attached(baseUrl, results, u) && !TestUrl(probe, u) {
      UrlsSpec(baseUrl, results, u);
    }
    if missing != [] {
      assert missing[0] in missing;
    }
  }

  /** The records of preview buckets play no part: two servers that agree on
      the other collections give the same outcome. */
  lemma PreviewRecordsIgnored(entries: seq<ChangesEntry>, records: Records, records': Records, baseUrl: string, probe: Probe)
    requires forall e :: e in entries && !IsPreview(e) ==>
      records(e.bucket, e.collection, e.lastModified) == records'(e.bucket, e.collection, e.lastModified)
    ensures Run(entries, records, baseUrl, probe) == Run(entries, records', baseUrl, probe)
  {
    var fetched := FetchedEntries(entries);
    assert forall i :: 0 <= i < |fetched| ==> fetched[i] in fetched;
    assert FetchRecords(entries, records) == FetchRecords(entries, records');
  }

  /** `run` as the source runs it: the nested loop appending to `urls`,
      then the comprehension for `missing`. */
  method Evaluate(entries: seq<ChangesEntry>, records: Records, baseUrl: string, probe: Probe) returns (ok: bool, d: AvailabilityData)
    ensures (ok, d) == Run(entries, records, baseUrl, probe)
  {
    var results := FetchRecords(entries, records);
    ZipVisitsAllResults(entries, records);
    var urls: seq<string> := [];
    var i := 0;
    while i < |entries| && i < |results|
      invariant 0 <= i <= |results|
      invariant urls == Urls(baseUrl, results[..i])
    {
      assert results[..i + 1][..i] == results[..i];
      var recs := results[i];
      var j := 0;
      ghost var before := urls;
      while j < |recs|
        invariant 0 <= j <= |recs|
        invariant urls == before + RecordUrls(baseUrl, recs[..j])
      {
        assert recs[..j + 1][..j] == recs[..j];
        if recs[j].attachment.Some? {
          urls := urls + [baseUrl + recs[j].attachment.value.location];
        }
        j := j + 1;
      }
      assert recs[..j] == recs;
      i := i + 1;
    }
    assert results[..i] == results;
    var missing := Filter(urls, (u: string) => !TestUrl(probe, u));
    ok := |missing| == 0;
    d := AvailabilityData(missing, |urls|);
  }
}
