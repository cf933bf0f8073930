/** The results view (components/scan-results.tsx): the results of one scan as
    fetched from GET /api/results, narrowed by a search term, sorted by a
    column and exported as CSV. */
module ScanResults {
  import opened Common
  import opened Order
  import opened Db
  import opened Csv
  import ResultsRoute
  import DownloadRoute

  // ---------------------------------------------------------------------------
  // The search filter (lines 108-114)

  /** The term occurs in the ip, the port's decimal text, the status or the protocol. */
  predicate Matches(r: ScanResult, term: string) {
    Contains(r.ip, term) || Contains(IntToString(r.port), term)
    || Contains(r.status, term) || Contains(r.protocol, term)
  }

  /** `results.filter(...)`: the matching results in their order. */
  function Filtered(results: seq<ScanResult>, term: string): (r: seq<ScanResult>)
    ensures |r| <= |results|
    decreases |results|
  {
    if results == [] then []
    else (if Matches(results[0], term) then [results[0]] else []) + Filtered(results[1..], term)
  }

  /** A result is shown exactly when it is fetched and matches the term. */
  lemma {:induction false} FilteredMembers(results: seq<ScanResult>, term: string)
    ensures forall r :: r in Filtered(results, term) <==> r in results && Matches(r, term)
    decreases |results|
  {
    if results != [] {
      FilteredMembers(results[1..], term);
      assert results == [results[0]] + results[1..];
    }
  }

  /** The filter keeps the results it shows in their fetched order: it is a
      subsequence, and each result is kept as often as it was fetched. */
  lemma {:induction false} FilteredCounts(results: seq<ScanResult>, term: string)
    ensures forall r :: multiset(Filtered(results, term))[r] == if Matches(r, term) then multiset(results)[r] else 0
    decreases |results|
  {
    if results != [] {
      FilteredCounts(results[1..], term);
      assert results == [results[0]] + results[1..];
    }
  }

  /** An empty search term shows everything. */
  lemma {:induction false} EmptyTermKeepsAll(results: seq<ScanResult>)
    ensures Filtered(results, "") == results
    decreases |results|
  {
    if results != [] {
      EverythingContainsEmpty(results[0].ip);
      EmptyTermKeepsAll(results[1..]);
      assert results == [results[0]] + results[1..];
    }
  }

  // ---------------------------------------------------------------------------
  // The sort (lines 116-127)

  datatype Field = Id | Ip | Port | Protocol | Status | ScanId | Timestamp

  /** The comparator's view of a result: the port as a number, any other
      field as its text. */
  function FieldKey(field: Field, r: ScanResult): Key {
    match field
    case Id => Key(Text(r.id), 0)
    case Ip => Key(Text(r.ip), 0)
    case Port => Key(Num(r.port), 0)
    case Protocol => Key(Text(r.protocol), 0)
    case Status => Key(Text(r.status), 0)
    case ScanId => Key(Text(r.scanId), 0)
    case Timestamp => Key(Text(TimeText(r.timestamp)), 0)
  }

  function KeyOf(field: Field): ScanResult -> Key {
    r => FieldKey(field, r)
  }

  /** `sortedResults`: the filtered results sorted by the selected column. */
  function Sorted(results: seq<ScanResult>, term: string, sort: SortState<Field>): (r: seq<ScanResult>)
    ensures multiset(r) == multiset(Filtered(results, term))
    ensures SortedBy(r, KeyOf(sort.field), sort.direction)
  {
    SortBy(Filtered(results, term), KeyOf(sort.field), sort.direction)
  }

  /** The results shown are the matching fetched results, each as often as
      fetched, sorted by the column in the chosen direction; and when no two
      shown results share a value in that column, the descending order is the
      ascending order reversed. */
  lemma SortedView(results: seq<ScanResult>, term: string, field: Field)
    ensures forall r :: r in Sorted(results, term, SortState(field, Asc)) <==> r in results && Matches(r, term)
    ensures KeyInjective(Filtered(results, term), KeyOf(field)) ==>
      Sorted(results, term, SortState(field, Desc)) == Reverse(Sorted(results, term, SortState(field, Asc)))
  {
    FilteredMembers(results, term);
    var shown := Sorted(results, term, SortState(field, Asc));
    forall r ensures r in shown <==> r in Filtered(results, term) {
      assert r in shown <==> r in multiset(shown);
    }
    if KeyInjective(Filtered(results, term), KeyOf(field)) {
      DescendingIsReversed(Filtered(results, term), KeyOf(field));
    }
  }

  /** By ip, ascending: the view shows results in ip text order. */
  lemma InitialOrderIsByIp(results: seq<ScanResult>, term: string)
    ensures var shown := Sorted(results, term, SortState(Ip, Asc));
      forall i, j :: 0 <= i < j < |shown| ==> StrLe(shown[i].ip, shown[j].ip)
  {
    var shown := Sorted(results, term, SortState(Ip, Asc));
    forall i, j | 0 <= i < j < |shown| ensures StrLe(shown[i].ip, shown[j].ip) {
      assert Precedes(KeyOf(Ip)(shown[i]), KeyOf(Ip)(shown[j]), Asc);
      if shown[i].ip == shown[j].ip {
        StrLeTotal(shown[i].ip, shown[j].ip);
      }
    }
  }

  // ---------------------------------------------------------------------------
  // The view

  /** The file name of the download: the selected id, "undefined" without one. */
  function DownloadName(scanId: Option<string>): string {
    "scan-results-" + (match scanId case Some(id) => id case None => "undefined") + ".csv"
  }

  /** The results a fetch leaves: the list of an answered request (the
      endpoint always sends one, so `|| []` never applies); a failed request
      (None: `fetch` threw) or a refused one keeps the old list. */
  function Fetched(previous: seq<ScanResult>, reply: Option<ResultsRoute.Response>): seq<ScanResult> {
    if reply.Some? && reply.value.Found? then reply.value.results else previous
  }

  class View {
    var results: seq<ScanResult>
    var loading: bool
    var searchTerm: string
    var sort: SortState<Field>
    var selectedScanId: Option<string>

    /** The view starts loading, unfiltered and sorted by ip ascending. */
    constructor (scanId: Option<string>)
      ensures results == [] && loading && searchTerm == ""
      ensures sort == SortState(Ip, Asc) && selectedScanId == scanId
    {
      results := [];
      loading := true;
      searchTerm := "";
      sort := SortState(Ip, Asc);
      selectedScanId := scanId;
    }

    /** The rows on screen. */
    function Shown(): seq<ScanResult>
      reads this
    {
      Sorted(results, searchTerm, sort)
    }

    method Search(term: string)
      modifies this`searchTerm
      ensures searchTerm == term
    {
      searchTerm := term;
    }

    /** handleSort (lines 67-74). */
    method HandleSort(field: Field)
      modifies this`sort
      ensures sort == NextSort(old(sort), field)
    {
      if field == sort.field {
        sort := SortState(field, Flip(sort.direction));
      } else {
        sort := SortState(field, Asc);
      }
    }

    /** fetchResults (lines 31-56): nothing happens without a selected scan;
        otherwise the reply replaces the list and loading ends.  Returns
        whether the error toast is shown. */
    method FetchResults(reply: Option<ResultsRoute.Response>) returns (failed: bool)
      modifies this`results, this`loading
      ensures !Truthy(old(selectedScanId)) ==> !failed && results == old(results) && loading == old(loading)
      ensures Truthy(old(selectedScanId)) ==>
        && results == Fetched(old(results), reply)
        && !loading
        && (failed <==> reply.None? || reply.value.Failure?)
    {
      if !Truthy(selectedScanId) {
        return false;
      }
      loading := true;
      if reply.Some? && reply.value.Found? {
        results := reply.value.results;
        failed := false;
      } else {
        failed := true;
      }
      loading := false;
    }

    /** downloadCSV (lines 76-102): nothing without results; otherwise every
        fetched result, unfiltered and in fetched order, as CSV. */
    method DownloadCsv() returns (file: Option<(string, string)>)
      ensures results == [] ==> file == None
      ensures results != [] ==> file == Some((Content(results), DownloadName(selectedScanId)))
    {
      if |results| == 0 {
        return None;
      }
      file := Some((Content(results), DownloadName(selectedScanId)));
    }
  }

  /** The view's export of a fetched scan is the file the download endpoint
      serves for it: the same content and the same name. */
  lemma SameFileAsEndpoint(store: ScanStore, id: string, previous: seq<ScanResult>)
    requires store.Valid() && id != "" && id in store.scans && store.results[id] != []
    ensures var fetched := Fetched(previous, Some(ResultsRoute.Get(store, Some(id))));
      && fetched == store.GetScanResults(id)
      && DownloadRoute.Get(store, Some(id)) == DownloadRoute.Attachment(Content(fetched), DownloadName(Some(id)))
  {
    DownloadRoute.SortedLength(store.results[id]);
  }

  /** Rows of the export split back into the five fields of each result. */
  lemma ExportRows(results: seq<ScanResult>)
    requires results != []
    requires forall i :: 0 <= i < |results| ==> SingleLine(results[i]) && CommaFree(results[i])
    ensures var lines := Split(Content(results), '\n');
      && |lines| == |results| + 1
      && lines[0] == Header
      && forall i :: 0 <= i < |results| ==> Split(lines[i + 1], ',') == Fields(results[i])
  {
    ContentLines(results);
    forall i | 0 <= i < |results| ensures Split(Rows(results)[i], ',') == Fields(results[i]) {
      RowFields(results[i]);
    }
  }
}
