/** The in-memory record store of lib/db.ts: a map from scan id to scan record
    and a map from scan id to that scan's result list.  `uuidv4()` is modelled by
    a counter of issued ids (IdOf(n) is the n-th id handed out) and
    `new Date().toISOString()` by an instant passed to each operation. */
module Db {
  import opened Common
  import opened Order

  /** Milliseconds since the epoch. */
  type Instant = nat

  /** The text a timestamp is written as in exported data. */
  function TimeText(t: Instant): string {
    NatToString(t)
  }

  datatype Status = InProgress | Completed | Failed

  function StatusText(s: Status): string {
    match s
    case InProgress => "in-progress"
    case Completed => "completed"
    case Failed => "failed"
  }

  predicate IsTerminal(s: Status) {
    s == Completed || s == Failed
  }

  datatype Scan = Scan(
    id: string,
    target: string,
    port: int,
    scanType: string,
    command: string,
    startTime: Instant,
    endTime: Option<Instant>,
    hostsScanned: int,
    hostsUp: int,
    status: Status,
    error: Option<string>)

  /** What a caller of createScan supplies: a scan without id, startTime, status. */
  datatype ScanData = ScanData(
    target: string,
    port: int,
    scanType: string,
    command: string,
    endTime: Option<Instant>,
    hostsScanned: int,
    hostsUp: int,
    error: Option<string>)

  datatype ScanResult = ScanResult(
    id: string,
    ip: string,
    port: int,
    protocol: string,
    status: string,
    scanId: string,
    timestamp: Instant)

  /** What a caller of saveScanResults supplies: a result without id and timestamp. */
  datatype ResultData = ResultData(ip: string, port: int, protocol: string, status: string, scanId: string)

  /** The optional counters and message of updateScanStatus. */
  datatype StatusData = StatusData(hostsScanned: Option<int>, hostsUp: Option<int>, error: Option<string>)

  /** The outcome of an async store call: it resolves, or it throws an Error. */
  datatype Outcome = Done | Thrown(message: string)

  // ---------------------------------------------------------------------------
  // Identifiers

  /** The n-th identifier handed out by the id oracle. */
  function IdOf(n: nat): string {
    NatToString(n)
  }

  /** The issue number of an identifier, if it is one. */
  function IdNumber(id: string): Option<nat> {
    if id != [] && AllDigits(id) then Some(DigitsValue(id)) else None
  }

  lemma IdNumberOfIdOf(n: nat)
    ensures IdNumber(IdOf(n)) == Some(n)
  {
    DigitsValueOfNatToString(n);
  }

  /** `id` was handed out before the counter reached `n`. */
  predicate IssuedBefore(id: string, n: nat) {
    IdNumber(id).Some? && IdNumber(id).value < n
  }

  // ---------------------------------------------------------------------------
  // Pure parts of the operations

  /** The record createScan stores. */
  function NewScan(id: string, data: ScanData, now: Instant): Scan {
    Scan(id, data.target, data.port, data.scanType, data.command, now, data.endTime,
         data.hostsScanned, data.hostsUp, InProgress, data.error)
  }

  /** The record after updateScanStatus(s.id, status, data) at instant `now`. */
  function Updated(s: Scan, status: Status, data: StatusData, now: Instant): (r: Scan)
    ensures r.status == status
    ensures IsTerminal(status) ==> r.endTime == Some(now)
    ensures status == InProgress ==> r.endTime == s.endTime
    ensures r.hostsScanned == (if data.hostsScanned.Some? then data.hostsScanned.value else s.hostsScanned)
    ensures r.hostsUp == (if data.hostsUp.Some? then data.hostsUp.value else s.hostsUp)
    ensures r.error == (if data.error.Some? then data.error else s.error)
    ensures r.id == s.id && r.target == s.target && r.port == s.port && r.scanType == s.scanType
    ensures r.command == s.command && r.startTime == s.startTime
  {
    s.(status := status,
       endTime := if status == Completed || status == Failed then Some(now) else s.endTime,
       hostsScanned := data.hostsScanned.GetOr(s.hostsScanned),
       hostsUp := data.hostsUp.GetOr(s.hostsUp),
       error := if data.error.Some? then data.error else s.error)
  }

  /** The batch of saveScanResults with ids IdOf(first), IdOf(first + 1), ...
      and the one shared timestamp. */
  function Stamped(batch: seq<ResultData>, now: Instant, first: nat): (r: seq<ScanResult>)
    ensures |r| == |batch|
    ensures forall i :: 0 <= i < |r| ==>
      r[i] == ScanResult(IdOf(first + i), batch[i].ip, batch[i].port, batch[i].protocol,
                         batch[i].status, batch[i].scanId, now)
    decreases |batch|
  {
    if batch == [] then []
    else
      var b := batch[0];
      [ScanResult(IdOf(first), b.ip, b.port, b.protocol, b.status, b.scanId, now)]
        + Stamped(batch[1..], now, first + 1)
  }

  /** Number of results whose status is exactly "open". */
  function OpenCount(batch: seq<ResultData>): (n: nat)
    ensures n <= |batch|
    decreases |batch|
  {
    if batch == [] then 0
    else (if batch[0].status == "open" then 1 else 0) + OpenCount(batch[1..])
  }

  lemma {:induction false} OpenCountAppend(a: seq<ResultData>, b: seq<ResultData>)
    ensures OpenCount(a + b) == OpenCount(a) + OpenCount(b)
    decreases |a|
  {
    if a == [] {
      assert a + b == b;
    } else {
      assert (a + b)[1..] == a[1..] + b;
      OpenCountAppend(a[1..], b);
    }
  }

  /** OpenCount counts exactly the open results: every result counts when all
      are open, none when none is. */
  lemma {:induction false} OpenCountBounds(batch: seq<ResultData>)
    ensures (forall i :: 0 <= i < |batch| ==> batch[i].status == "open") ==> OpenCount(batch) == |batch|
    ensures (forall i :: 0 <= i < |batch| ==> batch[i].status != "open") ==> OpenCount(batch) == 0
    decreases |batch|
  {
    if batch != [] {
      OpenCountBounds(batch[1..]);
      assert forall i :: 0 <= i < |batch[1..]| ==> batch[1..][i] == batch[i + 1];
    }
  }

  /** The getScanResults comparator: ip by the string order, then port. */
  function ResultKey(r: ScanResult): Key {
    Key(Text(r.ip), r.port)
  }

  /** The getAllScans comparator reads startTime as an instant. */
  function StartKey(s: Scan): Key {
    Key(Num(s.startTime), 0)
  }

  /** The ordering getScanResults promises, spelled out on ip and port. */
  lemma ResultOrderMeaning(rs: seq<ScanResult>)
    requires SortedBy(rs, ResultKey, Asc)
    ensures forall i, j :: 0 <= i < j < |rs| ==>
      StrLe(rs[i].ip, rs[j].ip) && (rs[i].ip == rs[j].ip ==> rs[i].port <= rs[j].port)
  {
    forall i, j | 0 <= i < j < |rs|
      ensures StrLe(rs[i].ip, rs[j].ip) && (rs[i].ip == rs[j].ip ==> rs[i].port <= rs[j].port)
    {
      assert Precedes(ResultKey(rs[i]), ResultKey(rs[j]), Asc);
      if rs[i].ip == rs[j].ip {
        StrLeTotal(rs[i].ip, rs[j].ip);
      }
    }
  }

  // ---------------------------------------------------------------------------
  // Identifier bookkeeping of the store

  /** Every result in `rs` carries an id issued before `n`. */
  predicate ListIssued(rs: seq<ScanResult>, n: nat) {
    forall i :: 0 <= i < |rs| ==> IssuedBefore(rs[i].id, n)
  }

  predicate ResultsIssued(results: map<string, seq<ScanResult>>, n: nat) {
    forall id :: id in results ==> ListIssued(results[id], n)
  }

  lemma StampedIssued(batch: seq<ResultData>, now: Instant, first: nat)
    ensures ListIssued(Stamped(batch, now, first), first + |batch|)
  {
    var r := Stamped(batch, now, first);
    forall i | 0 <= i < |r| ensures IssuedBefore(r[i].id, first + |batch|) {
      IdNumberOfIdOf(first + i);
    }
  }

  lemma ListIssuedAppend(a: seq<ScanResult>, b: seq<ScanResult>, m: nat, n: nat)
    requires ListIssued(a, m) && ListIssued(b, n) && m <= n
    ensures ListIssued(a + b, n)
  {
    forall i | 0 <= i < |a + b| ensures IssuedBefore((a + b)[i].id, n) {
      if i >= |a| {
        assert (a + b)[i] == b[i - |a|];
      } else {
        assert (a + b)[i] == a[i];
      }
    }
  }

  /** Filing a list whose ids are issued keeps the whole map issued, even for a
      larger counter. */
  lemma ResultsIssuedUpdate(results: map<string, seq<ScanResult>>, k: string, rs: seq<ScanResult>, m: nat, n: nat)
    requires ResultsIssued(results, m) && ListIssued(rs, n) && m <= n
    ensures ResultsIssued(results[k := rs], n)
  {
    var r := results[k := rs];
    forall id | id in r ensures ListIssued(r[id], n) {
      if id != k {
        assert r[id] == results[id];
        ListIssuedAppend(results[id], [], m, n);
        assert results[id] + [] == results[id];
      }
    }
  }

  /** Every scan has a result list, is filed under its own id, and that id was
      issued before `n`. */
  predicate ScansFiled(scans: map<string, Scan>, results: map<string, seq<ScanResult>>, n: nat) {
    forall id :: id in scans ==> id in results && scans[id].id == id && IssuedBefore(id, n)
  }

  /** Filing a result list, under a larger counter, keeps the scans filed. */
  lemma ScansFiledGrow(scans: map<string, Scan>, results: map<string, seq<ScanResult>>,
                       k: string, rs: seq<ScanResult>, m: nat, n: nat)
    requires ScansFiled(scans, results, m) && m <= n
    ensures ScansFiled(scans, results[k := rs], n)
  {
  }

  /** Replacing a scan by a record with the same id keeps the scans filed. */
  lemma ScansFiledReplace(scans: map<string, Scan>, results: map<string, seq<ScanResult>>,
                          k: string, s: Scan, n: nat)
    requires ScansFiled(scans, results, n) && k in scans && s.id == k
    ensures ScansFiled(scans[k := s], results, n)
  {
  }

  /** `order` lists the ids of `scans`, each once: the order in which a
      JavaScript Map iterates its keys. */
  ghost predicate Listed(order: seq<string>, scans: map<string, Scan>) {
    Distinct(order) && forall id :: id in scans <==> id in order
  }

  predicate Distinct(ids: seq<string>) {
    forall i, j :: 0 <= i < j < |ids| ==> ids[i] != ids[j]
  }

  /** The records filed under the ids, in the order of the ids. */
  function Values(order: seq<string>, scans: map<string, Scan>): seq<Scan>
    requires forall i :: 0 <= i < |order| ==> order[i] in scans
  {
    seq(|order|, i requires 0 <= i < |order| => scans[order[i]])
  }

  /** `order` without `id`. */
  function RemoveId(order: seq<string>, id: string): seq<string>
    decreases |order|
  {
    if order == [] then [] else (if order[0] == id then [] else [order[0]]) + RemoveId(order[1..], id)
  }

  /** Removing an id keeps every other id, each once. */
  lemma {:induction false} RemoveIdMembers(order: seq<string>, id: string)
    requires Distinct(order)
    ensures forall x :: x in RemoveId(order, id) <==> x in order && x != id
    ensures Distinct(RemoveId(order, id))
    decreases |order|
  {
    if order != [] {
      var tail := order[1..];
      assert forall x :: x in tail ==> x in order;
      assert Distinct(tail) by {
        forall i, j | 0 <= i < j < |tail| ensures tail[i] != tail[j] {
          assert tail[i] == order[i + 1] && tail[j] == order[j + 1];
        }
      }
      assert order[0] !in tail by {
        forall k | 0 <= k < |tail| ensures tail[k] != order[0] {
          assert tail[k] == order[k + 1];
        }
      }
      RemoveIdMembers(tail, id);
      var rest := RemoveId(tail, id);
      var head := if order[0] == id then [] else [order[0]];
      var r := head + rest;
      forall i, j | 0 <= i < j < |r| ensures r[i] != r[j] {
        if |head| == 1 && i == 0 {
          assert r[0] == order[0];
          assert r[j] == rest[j - 1];
          assert r[j] in rest;
          assert r[j] in tail;
        } else {
          assert r[i] == rest[i - |head|] && r[j] == rest[j - |head|];
        }
      }
    }
  }

  lemma ListedAppend(order: seq<string>, scans: map<string, Scan>, k: string, s: Scan)
    requires Listed(order, scans) && k !in scans
    ensures Listed(order + [k], scans[k := s])
  {
    var o := order + [k];
    forall i, j | 0 <= i < j < |o| ensures o[i] != o[j] {
      if j == |order| {
        assert o[i] == order[i] && order[i] in scans;
      } else {
        assert o[i] == order[i] && o[j] == order[j];
      }
    }
  }

  lemma ListedReplace(order: seq<string>, scans: map<string, Scan>, k: string, s: Scan)
    requires Listed(order, scans) && k in scans
    ensures Listed(order, scans[k := s])
  {
  }

  lemma ListedRemove(order: seq<string>, scans: map<string, Scan>, k: string)
    requires Listed(order, scans)
    ensures Listed(RemoveId(order, k), scans - {k})
  {
    RemoveIdMembers(order, k);
  }

  /** The records of the listed ids are exactly the stored records. */
  lemma ValuesMembers(order: seq<string>, scans: map<string, Scan>, results: map<string, seq<ScanResult>>, n: nat)
    requires Listed(order, scans) && ScansFiled(scans, results, n)
    ensures forall id :: id in scans ==> scans[id] in Values(order, scans)
    ensures forall s :: s in Values(order, scans) ==> s.id in scans && scans[s.id] == s
  {
    var all := Values(order, scans);
    forall id | id in scans ensures scans[id] in all {
      var i :| 0 <= i < |order| && order[i] == id;
      assert all[i] == scans[id];
    }
    forall s | s in all ensures s.id in scans && scans[s.id] == s {
      var i :| 0 <= i < |all| && all[i] == s;
      assert s == scans[order[i]];
    }
  }

  /** As many ids as scans. */
  lemma {:induction false} ListedCount(order: seq<string>, scans: map<string, Scan>)
    requires Listed(order, scans)
    ensures |order| == |scans.Keys|
    decreases |order|
  {
    if order != [] {
      var last := order[|order| - 1];
      var init := order[..|order| - 1];
      assert order == init + [last];
      InitListed(order, scans);
      ListedCount(init, scans - {last});
      assert scans.Keys == (scans - {last}).Keys + {last};
    }
  }

  lemma InitListed(order: seq<string>, scans: map<string, Scan>)
    requires order != [] && Listed(order, scans)
    ensures Listed(order[..|order| - 1], scans - {order[|order| - 1]})
  {
    var last := order[|order| - 1];
    var init := order[..|order| - 1];
    assert order == init + [last];
    forall id | id in init ensures id != last {
      var i :| 0 <= i < |init| && init[i] == id;
      assert order[i] == id;
    }
  }

  // ---------------------------------------------------------------------------
  // The store

  class ScanStore {
    var scans: map<string, Scan>
    var results: map<string, seq<ScanResult>>
    /** Number of ids the id oracle has handed out. */
    var nextId: nat
    /** The ids of `scans` in the order the Map first received them. */
    var order: seq<string>

    /** Every scan has a result list and is filed under its own id, and every
        id in the store was issued by the oracle before `nextId`. */
    ghost predicate Valid()
      reads this
    {
      ScansFiled(scans, results, nextId) && ResultsIssued(results, nextId) && Listed(order, scans)
    }

    constructor ()
      ensures Valid()
      ensures scans == map[] && results == map[] && nextId == 0 && order == []
    {
      scans := map[];
      results := map[];
      nextId := 0;
      order := [];
    }

    /** createScan: a new id, status in-progress, an empty result list. */
    method CreateScan(data: ScanData, now: Instant) returns (scan: Scan)
      requires Valid()
      modifies this
      ensures Valid()
      ensures scan == NewScan(IdOf(old(nextId)), data, now)
      ensures scan.id !in old(scans)
      ensures scans == old(scans)[scan.id := scan]
      ensures results == old(results)[scan.id := []]
      ensures nextId == old(nextId) + 1
      ensures order == old(order) + [scan.id]
    {
      var id := IdOf(nextId);
      IdNumberOfIdOf(nextId);
      scan := NewScan(id, data, now);
      ListedAppend(order, scans, id, scan);
      order := order + [id];
      scans := scans[id := scan];
      results := results[id := []];
      nextId := nextId + 1;
      ResultsIssuedUpdate(old(results), id, [], old(nextId), nextId);
    }

    /** updateScanStatus: throws for an unknown id; otherwise sets the status,
        stamps endTime on a terminal status, and copies the supplied fields. */
    method UpdateScanStatus(id: string, status: Status, data: StatusData, now: Instant) returns (r: Outcome)
      requires Valid()
      modifies this
      ensures Valid()
      ensures id !in old(scans) ==> r == Thrown("Scan with ID " + id + " not found") && scans == old(scans)
      ensures id in old(scans) ==> r == Done && scans == old(scans)[id := Updated(old(scans)[id], status, data, now)]
      ensures results == old(results) && nextId == old(nextId) && order == old(order)
    {
      if id !in scans {
        return Thrown("Scan with ID " + id + " not found");
      }
      var scan := scans[id];
      scan := scan.(status := status);
      if status == Completed || status == Failed {
        scan := scan.(endTime := Some(now));
      }
      if data.hostsScanned.Some? {
        scan := scan.(hostsScanned := data.hostsScanned.value);
      }
      if data.hostsUp.Some? {
        scan := scan.(hostsUp := data.hostsUp.value);
      }
      if data.error.Some? {
        scan := scan.(error := data.error);
      }
      ScansFiledReplace(scans, results, id, scan, nextId);
      ListedReplace(order, scans, id, scan);
      scans := scans[id := scan];
      r := Done;
    }

    /** saveScanResults: nothing for an empty batch; otherwise the stamped batch
        is appended to the list filed under the first element's scanId, and that
        scan's hostsUp grows by the number of open results, if the scan exists. */
    method SaveScanResults(batch: seq<ResultData>, now: Instant)
      requires Valid()
      modifies this
      ensures Valid()
      ensures order == old(order)
      ensures batch == [] ==> scans == old(scans) && results == old(results) && nextId == old(nextId)
      ensures batch != [] ==>
        var sid := batch[0].scanId;
        && results == old(results)[sid := (if sid in old(results) then old(results)[sid] else [])
                                          + Stamped(batch, now, old(nextId))]
        && nextId == old(nextId) + |batch|
        && scans == (if sid in old(scans)
                     then old(scans)[sid := old(scans)[sid].(hostsUp := old(scans)[sid].hostsUp + OpenCount(batch))]
                     else old(scans))
    {
      if |batch| == 0 {
        return;
      }
      var sid := batch[0].scanId;
      var existing := if sid in results then results[sid] else [];
      var stamped := Stamped(batch, now, nextId);
      results := results[sid := existing + stamped];
      nextId := nextId + |batch|;
      if sid in scans {
        var scan := scans[sid];
        scan := scan.(hostsUp := scan.hostsUp + OpenCount(batch));
        scans := scans[sid := scan];
      }
      ScansFiledGrow(old(scans), old(results), sid, existing + stamped, old(nextId), nextId);
      if sid in old(scans) {
        ScansFiledReplace(old(scans), results, sid, scans[sid], nextId);
        ListedReplace(order, old(scans), sid, scans[sid]);
      }
      StampedIssued(batch, now, old(nextId));
      ListIssuedAppend(existing, stamped, old(nextId), nextId);
      ResultsIssuedUpdate(old(results), sid, existing + stamped, old(nextId), nextId);
    }

    /** getAllScans: every stored scan once, most recent startTime first, and
        scans that started at the same instant in the order they were created. */
    method GetAllScans() returns (list: seq<Scan>)
      requires Valid()
      ensures |list| == |scans.Keys|
      ensures forall id :: id in scans ==> scans[id] in list
      ensures forall s :: s in list ==> s.id in scans && scans[s.id] == s
      ensures SortedBy(list, StartKey, Desc)
      ensures forall k :: WithKey(list, StartKey, k) == WithKey(Values(order, scans), StartKey, k)
    {
      var all := Values(order, scans);
      list := SortBy(all, StartKey, Desc);
      SortByLength(all, StartKey, Desc);
      SortByMembers(all, StartKey, Desc);
      ListedCount(order, scans);
      ValuesMembers(order, scans, results, nextId);
      forall k ensures WithKey(list, StartKey, k) == WithKey(all, StartKey, k) {
        SortByStable(all, StartKey, Desc, k);
      }
    }

    /** getScanById */
    function GetScanById(id: string): (r: Option<Scan>)
      requires Valid()
      reads this
      ensures r.Some? <==> id in scans
      ensures r.Some? ==> r.value == scans[id] && r.value.id == id
    {
      if id in scans then Some(scans[id]) else None
    }

    /** getScanResults: a sorted copy of the stored list, [] for an unknown id. */
    function GetScanResults(scanId: string): (r: seq<ScanResult>)
      reads this
      ensures scanId !in results ==> r == []
      ensures scanId in results ==> multiset(r) == multiset(results[scanId])
      ensures SortedBy(r, ResultKey, Asc)
    {
      SortBy(if scanId in results then results[scanId] else [], ResultKey, Asc)
    }

    /** deleteScan: removes the record and its result list, absent or not. */
    method DeleteScan(id: string)
      requires Valid()
      modifies this
      ensures Valid()
      ensures scans == old(scans) - {id} && results == old(results) - {id} && nextId == old(nextId)
      ensures order == RemoveId(old(order), id)
    {
      ListedRemove(order, scans, id);
      order := RemoveId(order, id);
      scans := scans - {id};
      results := results - {id};
    }

    /** resetDatabase */
    method ResetDatabase()
      requires Valid()
      modifies this
      ensures Valid()
      ensures scans == map[] && results == map[] && nextId == old(nextId) && order == []
    {
      order := [];
      scans := map[];
      results := map[];
    }
  }

  /** The store's promise for a scan created and then finished (reached a
      terminal status by updateScanStatus): its endTime is set. */
  lemma FinishedScanHasEndTime(id: string, data: ScanData, t0: Instant, status: Status, d: StatusData, t1: Instant)
    requires IsTerminal(status)
    ensures Updated(NewScan(id, data, t0), status, d, t1).endTime == Some(t1)
  {
  }
}
