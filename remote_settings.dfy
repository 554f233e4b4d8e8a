/** What the Remote Settings checks read from the server: the entries of
    the `monitor/changes` collection and the records of a collection. */
module RemoteSettings {
  import opened Common

  /** One entry of `monitor/changes`: a collection and its timestamp. */
  datatype ChangesEntry = ChangesEntry(bucket: string, collection: string, lastModified: int)

  /** `"{bucket}/{collection}".format(**entry)`. */
  function EntryId(e: ChangesEntry): string {
    e.bucket + "/" + e.collection
  }

  /** The attachment metadata of a record. */
  datatype AttachmentInfo = AttachmentInfo(location: string, size: int, hash: string)

  /** A record, reduced to its optional `attachment` field. */
  datatype Record = Record(attachment: Option<AttachmentInfo>)

  /** `client.get_records(bucket=…, collection=…, _expected=…)` for an entry. */
  type Records = (string, string, int) -> seq<Record>

  /** `"preview" in entry["bucket"]`. */
  predicate IsPreview(e: ChangesEntry) {
    ContainsSub(e.bucket, "preview")
  }

  /** The entries whose records are fetched: the preview buckets are skipped. */
  function FetchedEntries(entries: seq<ChangesEntry>): (r: seq<ChangesEntry>)
    ensures IsSubsequence(r, entries)
    ensures forall e :: e in r <==> e in entries && !IsPreview(e)
  {
    Filter(entries, e => !IsPreview(e))
  }

  /** The records of each fetched entry, in order. */
  function FetchRecords<R>(entries: seq<ChangesEntry>, records: (string, string, int) -> seq<R>): (r: seq<seq<R>>)
    ensures |r| == |FetchedEntries(entries)|
    ensures forall i :: 0 <= i < |r| ==>
      var e := FetchedEntries(entries)[i]; r[i] == records(e.bucket, e.collection, e.lastModified)
  {
    var fetched := FetchedEntries(entries);
    seq(|fetched|, i requires 0 <= i < |fetched| => records(fetched[i].bucket, fetched[i].collection, fetched[i].lastModified))
  }

  /** `zip(entries, results)` stops at the shorter list, and there are never
      more results than entries: every fetched record list is visited. */
  lemma ZipVisitsAllResults<R>(entries: seq<ChangesEntry>, records: (string, string, int) -> seq<R>)
    ensures |FetchRecords(entries, records)| <= |entries|
  {
    SubsequenceLength(FetchedEntries(entries), entries);
  }
}
