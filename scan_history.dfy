/** The history view (components/scan-history.tsx): the scan records fetched
    from GET /api/scans, sorted by a column, summed up, and deleted one at a
    time after confirmation. */
module ScanHistory {
  import opened Common
  import opened Order
  import opened Db

  // ---------------------------------------------------------------------------
  // The sort (lines 170-187)

  datatype Field =
    | Id | Target | Port | ScanType | Command | StartTime | EndTime
    | HostsScanned | HostsUp | Status | Error

  /** The comparator's view of a scan: the two times as instants, a missing
      end time as the epoch; the numbers numerically; anything else as the
      text `String(value)` gives, "undefined" for a missing error. */
  function FieldKey(field: Field, s: Scan): Key {
    match field
    case Id => Key(Text(s.id), 0)
    case Target => Key(Text(s.target), 0)
    case Port => Key(Num(s.port), 0)
    case ScanType => Key(Text(s.scanType), 0)
    case Command => Key(Text(s.command), 0)
    case StartTime => Key(Num(s.startTime), 0)
    case EndTime => Key(Num(s.endTime.GetOr(0)), 0)
    case HostsScanned => Key(Num(s.hostsScanned), 0)
    case HostsUp => Key(Num(s.hostsUp), 0)
    case Status => Key(Text(StatusText(s.status)), 0)
    case Error => Key(Text(s.error.GetOr("undefined")), 0)
  }

  function KeyOf(field: Field): Scan -> Key {
    s => FieldKey(field, s)
  }

  /** `sortedHistory`: a sorted copy; the history itself keeps its order. */
  function Sorted(history: seq<Scan>, sort: SortState<Field>): (r: seq<Scan>)
    ensures multiset(r) == multiset(history)
    ensures SortedBy(r, KeyOf(sort.field), sort.direction)
  {
    SortBy(history, KeyOf(sort.field), sort.direction)
  }

  /** The view starts sorted by start time, most recent first. */
  const InitialSort := SortState(StartTime, Desc)

  /** In the initial order every scan started no earlier than the ones below it. */
  lemma InitialOrderIsRecentFirst(history: seq<Scan>)
    ensures var shown := Sorted(history, InitialSort);
      forall i, j :: 0 <= i < j < |shown| ==> shown[i].startTime >= shown[j].startTime
  {
    var shown := Sorted(history, InitialSort);
    forall i, j | 0 <= i < j < |shown| ensures shown[i].startTime >= shown[j].startTime {
      assert Precedes(KeyOf(StartTime)(shown[i]), KeyOf(StartTime)(shown[j]), Desc);
    }
  }

  /** The endpoint already sends the scans most recent first, so the initial
      view shows them in the order they arrive. */
  lemma InitialOrderKeepsEndpointOrder(list: seq<Scan>)
    requires SortedBy(list, StartKey, Desc)
    ensures Sorted(list, InitialSort) == list
  {
    assert SortedBy(list, KeyOf(StartTime), Desc) by {
      forall i, j | 0 <= i < j < |list| ensures Precedes(KeyOf(StartTime)(list[i]), KeyOf(StartTime)(list[j]), Desc) {
        assert Precedes(StartKey(list[i]), StartKey(list[j]), Desc);
      }
    }
    SortSortedIsIdentity(list, KeyOf(StartTime), Desc);
  }

  /** Sorted by end time ascending, the scans without an end time come first,
      before every scan that ended after the epoch. */
  lemma UnfinishedFirst(history: seq<Scan>)
    ensures var shown := Sorted(history, SortState(EndTime, Asc));
      forall i, j :: 0 <= i < |shown| && 0 <= j < |shown| && shown[i].endTime.None?
                     && shown[j].endTime.Some? && shown[j].endTime.value > 0
                     ==> i < j
  {
  }

  /** Descending is ascending reversed when no two scans share the column's value. */
  lemma DescendingHistory(history: seq<Scan>, field: Field)
    requires KeyInjective(history, KeyOf(field))
    ensures Sorted(history, SortState(field, Desc)) == Reverse(Sorted(history, SortState(field, Asc)))
  {
    DescendingIsReversed(history, KeyOf(field));
  }

  /** A stable sort leaves a sorted sequence as it is. */
  lemma {:induction false} SortSortedIsIdentity<T>(s: seq<T>, key: T -> Key, d: Direction)
    requires SortedBy(s, key, d)
    ensures SortBy(s, key, d) == s
    decreases |s|
  {
    if s != [] {
      SortedTail(s, key, d);
      SortSortedIsIdentity(s[1..], key, d);
      assert s == [s[0]] + s[1..];
      if |s| > 1 {
        assert Precedes(key(s[0]), key(s[1..][0]), d);
      }
    }
  }

  // ---------------------------------------------------------------------------
  // The summary (lines 190-192)

  /** `history.reduce((sum, scan) => sum + scan.hostsScanned, 0)` */
  function HostsScannedTotal(history: seq<Scan>): int
    decreases |history|
  {
    if history == [] then 0
    else HostsScannedTotal(history[..|history| - 1]) + history[|history| - 1].hostsScanned
  }

  /** `history.reduce((sum, scan) => sum + scan.hostsUp, 0)` */
  function HostsUpTotal(history: seq<Scan>): int
    decreases |history|
  {
    if history == [] then 0
    else HostsUpTotal(history[..|history| - 1]) + history[|history| - 1].hostsUp
  }

  /** The totals of two lists put together add up. */
  lemma {:induction false} TotalsAppend(a: seq<Scan>, b: seq<Scan>)
    ensures HostsScannedTotal(a + b) == HostsScannedTotal(a) + HostsScannedTotal(b)
    ensures HostsUpTotal(a + b) == HostsUpTotal(a) + HostsUpTotal(b)
    decreases |b|
  {
    if b == [] {
      assert a + b == a;
    } else {
      var init := b[..|b| - 1];
      TotalsAppend(a, init);
      assert (a + b)[..|a + b| - 1] == a + init;
    }
  }

  // ---------------------------------------------------------------------------
  // Deleting (lines 111-141)

  /** `history.filter(scan => scan.id !== id)` */
  function WithoutId(history: seq<Scan>, id: string): (r: seq<Scan>)
    ensures |r| <= |history|
    decreases |history|
  {
    if history == [] then []
    else (if history[0].id != id then [history[0]] else []) + WithoutId(history[1..], id)
  }

  /** `history.filter(scan => scan.id === id)`: what the deletion removes. */
  function WithId(history: seq<Scan>, id: string): seq<Scan>
    decreases |history|
  {
    if history == [] then []
    else (if history[0].id == id then [history[0]] else []) + WithId(history[1..], id)
  }

  /** Exactly the entries with the id go, every other entry stays. */
  lemma {:induction false} WithoutIdMembers(history: seq<Scan>, id: string)
    ensures forall s :: s in WithoutId(history, id) <==> s in history && s.id != id
    ensures |WithoutId(history, id)| + |WithId(history, id)| == |history|
    decreases |history|
  {
    if history != [] {
      WithoutIdMembers(history[1..], id);
      assert history == [history[0]] + history[1..];
    }
  }

  /** Without an entry of that id, nothing changes. */
  lemma {:induction false} WithoutAbsentId(history: seq<Scan>, id: string)
    requires forall s :: s in history ==> s.id != id
    ensures WithoutId(history, id) == history
    decreases |history|
  {
    if history != [] {
      assert history[0] in history;
      assert forall s :: s in history[1..] ==> s in history;
      WithoutAbsentId(history[1..], id);
      assert history == [history[0]] + history[1..];
    }
  }

  /** The summary loses exactly the hosts of the deleted entries. */
  lemma {:induction false} DeletionTotals(history: seq<Scan>, id: string)
    ensures HostsScannedTotal(history) == HostsScannedTotal(WithoutId(history, id)) + HostsScannedTotal(WithId(history, id))
    ensures HostsUpTotal(history) == HostsUpTotal(WithoutId(history, id)) + HostsUpTotal(WithId(history, id))
    decreases |history|
  {
    if history != [] {
      var head := [history[0]];
      DeletionTotals(history[1..], id);
      assert history == head + history[1..];
      TotalsAppend(head, history[1..]);
      var kept := if history[0].id != id then head else [];
      var gone := if history[0].id == id then head else [];
      TotalsAppend(kept, WithoutId(history[1..], id));
      TotalsAppend(gone, WithId(history[1..], id));
      assert HostsScannedTotal([]) == 0 && HostsUpTotal([]) == 0;
      assert HostsScannedTotal(head) == history[0].hostsScanned by { assert head[..0] == []; }
      assert HostsUpTotal(head) == history[0].hostsUp by { assert head[..0] == []; }
    }
  }

  /** The download button is enabled for a finished scan that found hosts (line 323). */
  predicate DownloadEnabled(s: Scan) {
    !(s.status == InProgress || s.hostsUp == 0)
  }

  /** Only a scan that has ended can be downloaded, and then exactly when it
      counts some host up. */
  lemma DownloadNeedsEndedScan(s: Scan)
    ensures DownloadEnabled(s) <==> IsTerminal(s.status) && s.hostsUp != 0
  {
  }

  // ---------------------------------------------------------------------------
  // The view

  /** The toast a deletion shows. */
  datatype Notice = Notice(title: string, description: string)

  class View {
    var history: seq<Scan>
    var loading: bool
    var sort: SortState<Field>
    var deleteConfirmOpen: bool
    var scanToDelete: Option<string>

    constructor ()
      ensures history == [] && loading && sort == InitialSort
      ensures !deleteConfirmOpen && scanToDelete == None
    {
      history := [];
      loading := true;
      sort := InitialSort;
      deleteConfirmOpen := false;
      scanToDelete := None;
    }

    /** fetchHistory (lines 57-78): the list the endpoint sends (None: the
        request failed) replaces the history and loading ends. */
    method FetchHistory(list: Option<seq<Scan>>) returns (failed: bool)
      modifies this`history, this`loading
      ensures history == (if list.Some? then list.value else old(history))
      ensures !loading && (failed <==> list.None?)
    {
      loading := true;
      failed := list.None?;
      if list.Some? {
        history := list.value;
      }
      loading := false;
    }

    /** handleSort (lines 93-100). */
    method HandleSort(field: Field)
      modifies this`sort
      ensures sort == NextSort(old(sort), field)
    {
      if field == sort.field {
        sort := SortState(field, Flip(sort.direction));
      } else {
        sort := SortState(field, Asc);
      }
    }

    /** handleDeleteClick: the scan is selected and the dialog opens. */
    method HandleDeleteClick(id: string)
      modifies this`scanToDelete, this`deleteConfirmOpen
      ensures scanToDelete == Some(id) && deleteConfirmOpen
    {
      scanToDelete := Some(id);
      deleteConfirmOpen := true;
    }

    /** confirmDelete: without a selected scan nothing happens, the dialog
        included; otherwise an accepted DELETE (`deleted`) drops the entries
        with that id, and either way the dialog closes and the selection is
        cleared. */
    method ConfirmDelete(deleted: bool) returns (notice: Option<Notice>)
      modifies this`history, this`deleteConfirmOpen, this`scanToDelete
      ensures !Truthy(old(scanToDelete)) ==>
        && notice == None && history == old(history)
        && deleteConfirmOpen == old(deleteConfirmOpen) && scanToDelete == old(scanToDelete)
      ensures Truthy(old(scanToDelete)) ==>
        && !deleteConfirmOpen && scanToDelete == None
        && history == (if deleted then WithoutId(old(history), old(scanToDelete).value) else old(history))
        && notice == Some(if deleted then Notice("Success", "Scan deleted successfully")
                          else Notice("Error", "Failed to delete scan"))
    {
      if !Truthy(scanToDelete) {
        return None;
      }
      if deleted {
        history := WithoutId(history, scanToDelete.value);
        notice := Some(Notice("Success", "Scan deleted successfully"));
      } else {
        notice := Some(Notice("Error", "Failed to delete scan"));
      }
      deleteConfirmOpen := false;
      scanToDelete := None;
    }
  }
}
