/** The changes-timestamps check of `checks/remotesettings/changes_timestamps.py`:
    the timestamp of each `monitor/changes` entry should equal its
    collection's records timestamp. The entries and the timestamp the
    server reports for each collection (a decimal string) are inputs. */
module ChangesTimestamps {
  import opened Common
  import opened RemoteSettings

  /** `get_timestamp`: the records timestamp of a collection, as text. */
  type Timestamps = (string, string, int) -> string

  /** One item of `datetimes`, without its human-readable `datetime`. */
  datatype Item = Item(id: string, collection: int, entry: int)

  /** `int(collection_timestamp)`: the error Python raises on a bad literal. */
  function ParseTimestamp(s: string): (r: Result<int>)
    ensures r.Ok? <==> ParseInt(s).Some?
    ensures r.Ok? ==> Some(r.value) == ParseInt(s)
  {
    match ParseInt(s)
    case Some(n) => Ok(n)
    case None => Err(ValueError("invalid literal for int() with base 10: '" + s + "'"))
  }

  /** The timestamp the server reports for an entry's collection. */
  function Fetched(e: ChangesEntry, timestamps: Timestamps): string {
    timestamps(e.bucket, e.collection, e.lastModified)
  }

  /** The item of an entry, given the timestamp fetched for it. */
  function MakeItem(e: ChangesEntry, fetched: string): Result<Item> {
    match ParseTimestamp(fetched)
    case Err(err) => Err(err)
    case Ok(ts) => Ok(Item(EntryId(e), ts, e.lastModified))
  }

  /** The item of each entry, in entry order. */
  function ItemResults(entries: seq<ChangesEntry>, timestamps: Timestamps): (r: seq<Result<Item>>)
    ensures |r| == |entries|
    ensures forall i :: 0 <= i < |r| ==>
      r[i] == MakeItem(entries[i], Fetched(entries[i], timestamps))
  {
    seq(|entries|, i requires 0 <= i < |entries| => MakeItem(entries[i], Fetched(entries[i], timestamps)))
  }

  /** `all([r["entry"] == r["collection"] for r in datetimes])`. */
  predicate AllGood(items: seq<Item>) {
    forall i :: 0 <= i < |items| ==> items[i].entry == items[i].collection
  }

  /** `run`: the first bad timestamp, or `all_good` and `datetimes`. */
  function Run(entries: seq<ChangesEntry>, timestamps: Timestamps): Result<(bool, seq<Item>)> {
    match Gather(ItemResults(entries, timestamps))
    case Err(e) => Err(e)
    case Ok(items) => Ok((AllGood(items), items))
  }

  /** One item per entry, in entry order, identified as `bucket/collection`
      and holding both timestamps; the check succeeds iff they agree for
      every entry. It fails only when a collection timestamp is not an
      integer. */
  lemma RunSpec(entries: seq<ChangesEntry>, timestamps: Timestamps)
    ensures var r := Run(entries, timestamps);
      && (r.Err? <==> exists i :: 0 <= i < |entries| && ParseInt(Fetched(entries[i], timestamps)).None?)
      && (r.Ok? ==>
            var items := r.value.1;
            && |items| == |entries|
            && (forall i :: 0 <= i < |entries| ==>
                  && items[i].id == entries[i].bucket + "/" + entries[i].collection
                  && items[i].entry == entries[i].lastModified
                  && Some(items[i].collection) == ParseInt(Fetched(entries[i], timestamps)))
            && (r.value.0 <==> forall i :: 0 <= i < |entries| ==> Some(entries[i].lastModified) == ParseInt(Fetched(entries[i], timestamps))))
  {
    var rs := ItemResults(entries, timestamps);
    GatherSpec(rs);
    forall i | 0 <= i < |entries|
      ensures rs[i].Ok? <==> ParseInt(Fetched(entries[i], timestamps)).Some?
      ensures rs[i].Ok? ==> rs[i].value == Item(EntryId(entries[i]), ParseInt(Fetched(entries[i], timestamps)).value, entries[i].lastModified)
    {
      MakeItemSpec(entries[i], Fetched(entries[i], timestamps));
    }
    var g := Gather(rs);
    if g.Ok? {
      var items := g.value;
      forall i | 0 <= i < |entries|
        ensures items[i] == Item(EntryId(entries[i]), ParseInt(Fetched(entries[i], timestamps)).value, entries[i].lastModified)
      {
        assert rs[i] == Ok(items[i]);
      }
    }
  }

  /** An entry's item holds its identifier, its timestamp and the parsed
      collection timestamp, and exists iff that timestamp parses. */
  lemma MakeItemSpec(e: ChangesEntry, fetched: string)
    ensures MakeItem(e, fetched).Ok? <==> ParseInt(fetched).Some?
    ensures MakeItem(e, fetched).Ok? ==> MakeItem(e, fetched).value == Item(EntryId(e), ParseInt(fetched).value, e.lastModified)
  {
  }

  /** No entries: nothing to compare, and the check succeeds. */
  lemma NoEntriesGood(timestamps: Timestamps)
    ensures Run([], timestamps) == Ok((true, []))
  {
  }

  /** `run` as the source runs it: the loop appending to `datetimes`, then
      the comprehension for `all_good`. */
  method Evaluate(entries: seq<ChangesEntry>, timestamps: Timestamps) returns (r: Result<(bool, seq<Item>)>)
    ensures r == Run(entries, timestamps)
  {
    ghost var rs := ItemResults(entries, timestamps);
    var datetimes: seq<Item> := [];
    var i := 0;
    while i < |entries|
      invariant 0 <= i <= |entries|
      invariant Gather(rs[..i]) == Ok(datetimes)
    {
      GatherSnoc(rs, i);
      var entry := entries[i];
      var entryTimestamp := entry.lastModified;
      var collectionTimestamp := ParseTimestamp(Fetched(entry, timestamps));
      if collectionTimestamp.Err? {
        GatherStops(rs, i + 1);
        return Err(collectionTimestamp.error);
      }
      datetimes := datetimes + [Item(EntryId(entry), collectionTimestamp.value, entryTimestamp)];
      i := i + 1;
    }
    assert rs[..i] == rs;
    r := Ok((AllGood(datetimes), datetimes));
  }
}
