/** GET /api/results (app/api/results/route.ts): a scan record with its sorted
    results.  Reads the store and changes nothing. */
module ResultsRoute {
  import opened Common
  import opened Order
  import opened Db

  datatype Response =
    | Failure(code: nat, error: string)
    | Found(results: seq<ScanResult>, scanInfo: Scan)

  /** `scanId` is the query parameter: None when the query has none. */
  function Get(store: ScanStore, scanId: Option<string>): (r: Response)
    requires store.Valid()
    reads store
    ensures !Truthy(scanId) ==> r == Failure(400, "Scan ID is required")
    ensures Truthy(scanId) && scanId.value !in store.scans ==> r == Failure(404, "Scan not found")
    ensures Truthy(scanId) && scanId.value in store.scans ==>
      && r.Found?
      && r.scanInfo == store.scans[scanId.value]
      && r.results == store.GetScanResults(scanId.value)
      && multiset(r.results) == multiset(store.results[scanId.value])
      && SortedBy(r.results, ResultKey, Asc)
  {
    if !Truthy(scanId) then Failure(400, "Scan ID is required")
    else
      match store.GetScanById(scanId.value)
      case None => Failure(404, "Scan not found")
      case Some(scan) => Found(store.GetScanResults(scanId.value), scan)
  }

  /** A scan without results is found with an empty list. */
  lemma EmptyScanIsFound(store: ScanStore, id: string)
    requires store.Valid() && id != "" && id in store.scans && store.results[id] == []
    ensures Get(store, Some(id)) == Found([], store.scans[id])
  {
    assert |multiset(store.GetScanResults(id))| == 0;
  }
}

/** GET /api/results/download (app/api/results/download/route.ts): the results
    of a scan as a CSV attachment.  Reads the store and changes nothing. */
module DownloadRoute {
  import opened Common
  import opened Order
  import opened Db
  import opened Csv
  import ResultsRoute

  datatype Response =
    | Failure(code: nat, error: string)
    | Attachment(content: string, fileName: string)

  function FileName(scanId: string): string {
    "scan-results-" + scanId + ".csv"
  }

  function Get(store: ScanStore, scanId: Option<string>): (r: Response)
    requires store.Valid()
    reads store
    ensures !Truthy(scanId) ==> r == Failure(400, "Scan ID is required")
    ensures Truthy(scanId) && scanId.value !in store.scans ==> r == Failure(404, "Scan not found")
    ensures Truthy(scanId) && scanId.value in store.scans && store.results[scanId.value] == [] ==>
      r == Failure(404, "No results found for this scan")
    ensures Truthy(scanId) && scanId.value in store.scans && store.results[scanId.value] != [] ==>
      r == Attachment(Content(store.GetScanResults(scanId.value)), FileName(scanId.value))
  {
    if !Truthy(scanId) then Failure(400, "Scan ID is required")
    else
      match store.GetScanById(scanId.value)
      case None => Failure(404, "Scan not found")
      case Some(_) =>
        var results := store.GetScanResults(scanId.value);
        SortedLength(store.results[scanId.value]);
        if |results| == 0 then Failure(404, "No results found for this scan")
        else Attachment(Content(results), FileName(scanId.value))
  }

  lemma SortedLength(rs: seq<ScanResult>)
    ensures |SortBy(rs, ResultKey, Asc)| == |rs|
  {
    SortByLength(rs, ResultKey, Asc);
  }

  /** The attachment of single-line results has the header line, then one line
      per stored result in ip-then-port order, and nothing else. */
  lemma AttachmentLines(store: ScanStore, id: string)
    requires store.Valid() && id != "" && id in store.scans && store.results[id] != []
    requires forall i :: 0 <= i < |store.results[id]| ==> SingleLine(store.results[id][i])
    ensures Get(store, Some(id)).Attachment?
    ensures Split(Get(store, Some(id)).content, '\n') == [Header] + Rows(store.GetScanResults(id))
    ensures |Split(Get(store, Some(id)).content, '\n')| == |store.results[id]| + 1
  {
    SortedLength(store.results[id]);
    SortedSingleLine(store.results[id]);
    ContentLines(store.GetScanResults(id));
  }

  lemma SortedSingleLine(rs: seq<ScanResult>)
    requires forall i :: 0 <= i < |rs| ==> SingleLine(rs[i])
    ensures var sorted := SortBy(rs, ResultKey, Asc);
      forall i :: 0 <= i < |sorted| ==> SingleLine(sorted[i])
  {
    var sorted := SortBy(rs, ResultKey, Asc);
    forall i | 0 <= i < |sorted| ensures SingleLine(sorted[i]) {
      assert sorted[i] in multiset(rs);
      var k :| 0 <= k < |rs| && rs[k] == sorted[i];
    }
  }

  /** Unlike the read endpoint, the download refuses a scan without results. */
  lemma EndpointsDisagreeOnEmptyScan(store: ScanStore, id: string)
    requires store.Valid() && id != "" && id in store.scans && store.results[id] == []
    ensures Get(store, Some(id)) == Failure(404, "No results found for this scan")
    ensures ResultsRoute.Get(store, Some(id)).Found?
  {
  }
}
