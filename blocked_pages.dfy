/** The blocked-pages check of `checks/remotesettings/blocked_pages.py`: the
    links of the blocked-items index page are probed in chunks, and the ids
    they name are compared with the blocklist records, and the published
    XML timestamp with the changes timestamp. The page's links, the status
    of each probe (absent on a client error), the records and both
    timestamps come from the network and are inputs. */
module BlockedPages {
  import opened Common

  const EXPOSED_PARAMETERS: seq<string> := ["remotesettings_server", "blocked_pages"]
  const BLOCKLIST_URL_PATH := "/blocklist/3/{ec8030f7-c20a-464f-9b0e-13a3a9e97384}/46.0/"

  // ---------------------------------------------------------------------------
  // chunker

  /** Consecutive slices of `size` elements, the last one possibly shorter. */
  function Chunks<T>(s: seq<T>, size: nat): seq<seq<T>>
    requires size > 0
    decreases |s|
  {
    if s == [] then []
    else if |s| <= size then [s]
    else [s[..size]] + Chunks(s[size..], size)
  }

  /** `chunker(seq, size)`: the slices `seq[pos:pos + size]` for `pos` in
      `range(0, len(seq), size)`, which refuses a zero step and is empty for
      a negative one. */
  function Chunker<T>(s: seq<T>, size: int): Result<seq<seq<T>>> {
    if size == 0 then Err(ValueError("range() arg 3 must not be zero"))
    else if size < 0 then Ok([])
    else Ok(Chunks(s, size))
  }

  /** The chunks put back together are the input; every chunk is non-empty
      and of length `size`, the last one at most `size`. */
  lemma {:induction false} ChunksSpec<T>(s: seq<T>, size: nat)
    requires size > 0
    ensures var c := Chunks(s, size);
      && Flatten(c) == s
      && (forall i :: 0 <= i < |c| - 1 ==> |c[i]| == size)
      && (forall i :: 0 <= i < |c| ==> 0 < |c[i]| <= size)
    decreases |s|
  {
    if |s| > size {
      var rest := Chunks(s[size..], size);
      ChunksSpec(s[size..], size);
      FlattenCons(s[..size], rest);
      assert s[..size] + s[size..] == s;
      var c := Chunks(s, size);
      assert forall i :: 1 <= i < |c| ==> c[i] == rest[i - 1];
    } else if s != [] {
      assert Flatten([s]) == Flatten([s][..0]) + s;
    }
  }

  // ---------------------------------------------------------------------------
  // Links

  /** Whether an `href` matches `.html$` under `re.search`: any character but a
      line break, then `html`, at the end or before a final line break. */
  predicate IsHtmlLink(href: string) {
    || (|href| >= 5 && href[|href| - 4..] == "html" && href[|href| - 5] != '\n')
    || (|href| >= 6 && href[|href| - 1] == '\n' && href[|href| - 5..|href| - 1] == "html" && href[|href| - 6] != '\n')
  }

  /** The pattern's `.` matches any character, so `xhtml` is a link as well
      as `a.html`; `a.htm` is not. */
  lemma HtmlLinkExamples()
    ensures IsHtmlLink("a.html") && IsHtmlLink("xhtml") && !IsHtmlLink("a.htm")
  {
    assert "a.html"[2..] == "html";
    assert "xhtml"[1..] == "html";
  }

  /** A probe outcome: the status, or none on a client error. */
  type Probe = string -> Option<int>

  /** Whether the link `url` of the index at `pages` is broken. */
  predicate Broken(probe: Probe, pages: string, url: string) {
    probe(pages + "/" + url) != Some(200)
  }

  /** The broken links found by probing chunk by chunk. */
  function BrokenLinks(urls: seq<string>, size: int, probe: Probe, pages: string): Result<seq<string>> {
    match Chunker(urls, size)
    case Err(e) => Err(e)
    case Ok(chunks) => Ok(Filter(Flatten(chunks), url => Broken(probe, pages, url)))
  }

  /** With a positive chunk size the broken links are the links whose probe
      does not answer 200 (client errors included), in link order; a zero
      size fails and a negative one probes nothing. */
  lemma BrokenLinksSpec(urls: seq<string>, size: int, probe: Probe, pages: string)
    ensures var r := BrokenLinks(urls, size, probe, pages);
      && (size == 0 ==> r.Err? && r.error.ValueError?)
      && (size < 0 ==> r == Ok([]))
      && (size > 0 ==>
            && r.Ok?
            && r.value == Filter(urls, url => Broken(probe, pages, url))
            && IsSubsequence(r.value, urls)
            && forall url :: url in r.value <==> url in urls && probe(pages + "/" + url) != Some(200))
  {
    if size > 0 {
      ChunksSpec(urls, size);
    }
  }

  // ---------------------------------------------------------------------------
  // Ids

  /** A blocklist record: its `id` and optional `blockID`. */
  datatype BlockRecord = BlockRecord(id: string, blockID: Option<string>)

  function RecordId(r: BlockRecord): string {
    if r.blockID.Some? then r.blockID.value else r.id
  }

  function RecordIds(records: seq<BlockRecord>): (ids: seq<string>)
    ensures |ids| == |records| && forall i :: 0 <= i < |ids| ==> ids[i] == RecordId(records[i])
  {
    seq(|records|, i requires 0 <= i < |records| => RecordId(records[i]))
  }

  /** `url.rsplit(".", 1)[0]`. */
  function BlockedId(url: string): string {
    BeforeLast(url, '.')
  }

  function BlockedIds(urls: seq<string>): (ids: seq<string>)
    ensures |ids| == |urls| && forall i :: 0 <= i < |ids| ==> ids[i] == BlockedId(urls[i])
  {
    seq(|urls|, i requires 0 <= i < |urls| => BlockedId(urls[i]))
  }

  /** The page `name.html` names the id `name`, dots in `name` included. */
  lemma BlockedIdOfPage(name: string)
    ensures BlockedId(name + ".html") == name
  {
    var s := name + ".html";
    var r := BlockedId(s);
    assert s[|name|] == '.';
    assert forall k :: |name| < k < |s| ==> s[k] != '.';
    assert forall k :: |r| < k < |s| ==> s[k] != '.' by {
      assert forall k :: |r| < k < |s| ==> s[k] == s[|r| + 1..][k - |r| - 1];
    }
  }

  /** Ids listed as blocked but without a record, and ids with a record but
      not listed. */
  function Extras(blocked: seq<string>, records: seq<string>): set<string> {
    (set x | x in blocked) - (set x | x in records)
  }

  function Missing(blocked: seq<string>, records: seq<string>): set<string> {
    (set x | x in records) - (set x | x in blocked)
  }

  /** No id is both extra and missing, and there is neither iff both sides
      list the same ids. */
  lemma ExtrasMissingSpec(blocked: seq<string>, records: seq<string>)
    ensures Extras(blocked, records) * Missing(blocked, records) == {}
    ensures Extras(blocked, records) == {} && Missing(blocked, records) == {} <==>
      forall x :: x in blocked <==> x in records
  {
    if Extras(blocked, records) == {} && Missing(blocked, records) == {} {
      forall x ensures x in blocked <==> x in records {
        assert x in blocked && x !in records ==> x in Extras(blocked, records);
        assert x in records && x !in blocked ==> x in Missing(blocked, records);
      }
    }
  }

  // ---------------------------------------------------------------------------
  // The check

  datatype BlockedData = BlockedData(xmlUpdate: string, timestamp: string, brokenLinks: seq<string>,
                                     missing: set<string>, extras: set<string>)

  /** The inputs `run` obtains from the network. */
  datatype Fetched = Fetched(hrefs: seq<string>, probe: Probe, plugins: seq<BlockRecord>, addons: seq<BlockRecord>,
                             timestamp: string, xmlTimestamp: string)

  /** `run`: `hrefs` are the `href`s of the index's links, `size` the number
      of requests sent at once. */
  function Run(blockedPages: string, size: int, f: Fetched): Result<(bool, BlockedData)> {
    var urls := Filter(f.hrefs, IsHtmlLink);
    match BrokenLinks(urls, size, f.probe, blockedPages)
    case Err(e) => Err(e)
    case Ok(broken) =>
      var records := RecordIds(f.plugins + f.addons);
      var blocked := BlockedIds(urls);
      var extras := Extras(blocked, records);
      var missing := Missing(blocked, records);
      var success := |broken| == 0 && |missing| == 0 && |extras| == 0 && f.timestamp == f.xmlTimestamp;
      Ok((success, BlockedData(f.xmlTimestamp, f.timestamp, broken, missing, extras)))
  }

  /** The check succeeds iff no link is broken, the pages name exactly the
      records' ids (plugins and add-ons), and the two timestamps agree. */
  lemma RunSpec(blockedPages: string, size: int, f: Fetched)
    requires size > 0
    ensures var r := Run(blockedPages, size, f);
      var urls := Filter(f.hrefs, IsHtmlLink);
      && r.Ok?
      && r.value.1.brokenLinks == Filter(urls, url => Broken(f.probe, blockedPages, url))
      && (r.value.0 <==>
            && (forall url :: url in urls ==> f.probe(blockedPages + "/" + url) == Some(200))
            && (forall x :: x in BlockedIds(urls) <==> x in RecordIds(f.plugins + f.addons))
            && f.timestamp == f.xmlTimestamp)
  {
    var urls := Filter(f.hrefs, IsHtmlLink);
    BrokenLinksSpec(urls, size, f.probe, blockedPages);
    ExtrasMissingSpec(BlockedIds(urls), RecordIds(f.plugins + f.addons));
    var broken := Filter(urls, url => Broken(f.probe, blockedPages, url));
    if |broken| == 0 {
      assert forall url :: url in urls ==> f.probe(blockedPages + "/" + url) == Some(200) by {
        forall url | url in urls ensures f.probe(blockedPages + "/" + url) == Some(200) {
          assert url in broken <==> Broken(f.probe, blockedPages, url);
        }
      }
    } else {
      assert broken[0] in broken;
    }
  }

  /** A record whose `blockID` differs from every listed page fails the
      check even when every link answers. */
  lemma UnlistedRecordFails(blockedPages: string, size: int, f: Fetched, block: string)
    requires size > 0
    requires f.plugins == [BlockRecord("r1", Some(block))] && f.addons == []
    requires forall url :: url in f.hrefs ==> BlockedId(url) != block
    ensures Run(blockedPages, size, f).Ok? && !Run(blockedPages, size, f).value.0
    ensures block in Run(blockedPages, size, f).value.1.missing
  {
    var urls := Filter(f.hrefs, IsHtmlLink);
    assert RecordIds(f.plugins + f.addons) == [block];
    assert block !in BlockedIds(urls);
    RunSpec(blockedPages, size, f);
  }

  // ---------------------------------------------------------------------------
  // The check, step by step

  /** `run` as the source runs it: collect the links, probe them chunk by
      chunk extending the broken ones, then compare the ids. */
  method Evaluate(blockedPages: string, size: int, f: Fetched) returns (r: Result<(bool, BlockedData)>)
    ensures r == Run(blockedPages, size, f)
  {
    var urls: seq<string> := [];
    var i := 0;
    while i < |f.hrefs|
      invariant 0 <= i <= |f.hrefs|
      invariant urls == Filter(f.hrefs[..i], IsHtmlLink)
    {
      FilterAppend(f.hrefs[..i], [f.hrefs[i]], IsHtmlLink);
      assert f.hrefs[..i + 1] == f.hrefs[..i] + [f.hrefs[i]];
      if IsHtmlLink(f.hrefs[i]) {
        urls := urls + [f.hrefs[i]];
      }
      i := i + 1;
    }
    assert f.hrefs[..i] == f.hrefs;

    var chunks := Chunker(urls, size);
    if chunks.Err? {
      return Err(chunks.error);
    }
    var missing := ProbeChunks(chunks.value, f.probe, blockedPages);

    var records := RecordIds(f.plugins + f.addons);
    var blocked := BlockedIds(urls);
    var extrasIds := Extras(blocked, records);
    var missingIds := Missing(blocked, records);
    var success := |missing| == 0 && |missingIds| == 0 && |extrasIds| == 0 && f.timestamp == f.xmlTimestamp;
    r := Ok((success, BlockedData(f.xmlTimestamp, f.timestamp, missing, missingIds, extrasIds)));
  }

  /** The loop over the chunks: each chunk's probes, then its broken links
      appended in order. */
  method ProbeChunks(chunks: seq<seq<string>>, probe: Probe, pages: string) returns (missing: seq<string>)
    ensures missing == Filter(Flatten(chunks), url => Broken(probe, pages, url))
  {
    missing := [];
    var k := 0;
    while k < |chunks|
      invariant 0 <= k <= |chunks|
      invariant missing == Filter(Flatten(chunks[..k]), url => Broken(probe, pages, url))
    {
      var chunk := chunks[k];
      var results := seq(|chunk|, j requires 0 <= j < |chunk| => probe(pages + "/" + chunk[j]));
      var j := 0;
      var found: seq<string> := [];
      while j < |chunk|
        invariant 0 <= j <= |chunk|
        invariant found == Filter(chunk[..j], url => Broken(probe, pages, url))
      {
        FilterAppend(chunk[..j], [chunk[j]], url => Broken(probe, pages, url));
        assert chunk[..j + 1] == chunk[..j] + [chunk[j]];
        if results[j] != Some(200) {
          found := found + [chunk[j]];
        }
        j := j + 1;
      }
      assert chunk[..j] == chunk;
      assert chunks[..k + 1][..k] == chunks[..k];
      FilterAppend(Flatten(chunks[..k]), chunk, url => Broken(probe, pages, url));
      missing := missing + found;
      k := k + 1;
    }
    assert chunks[..k] == chunks;
  }
}
