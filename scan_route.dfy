/** POST /api/scan (app/api/scan/route.ts): reads the request, records the scan,
    asks the scan engine to run it synchronously, normalises the hosts it
    reports and completes or fails the record.  The engine's HTTP reply is a
    parameter of the operation. */
module ScanRoute {
  import opened Common
  import opened Json
  import opened Db
  import ScanHistory

  // ---------------------------------------------------------------------------
  // The request

  /** The request body; None stands for a member the body leaves out. */
  datatype ScanRequest = ScanRequest(
    targetPort: Option<int>,
    port: Option<int>,
    subnets: Option<seq<string>>,
    subnet: Option<string>,
    outputFile: Option<string>,
    blocklistFile: Option<string>,
    allowlistFile: Option<string>,
    bandwidth: Option<string>,
    probeModule: Option<string>,
    scanType: Option<string>,
    rate: Option<int>,
    seed: Option<int>,
    verbosity: Option<int>,
    returnResults: Option<bool>)

  /** A non-empty `subnets` wins; otherwise a truthy `subnet` alone; otherwise none. */
  function Subnets(req: ScanRequest): (r: seq<string>)
    ensures req.subnets.Some? && req.subnets.value != [] ==> r == req.subnets.value
    ensures (req.subnets.None? || req.subnets.value == []) && Truthy(req.subnet) ==> r == [req.subnet.value]
    ensures r == [] <==> (req.subnets.None? || req.subnets.value == []) && !Truthy(req.subnet)
  {
    var provided := req.subnets.GetOr([]);
    if |provided| > 0 then provided
    else if req.subnet.Some? && req.subnet.value != "" then [req.subnet.value]
    else []
  }

  /** `target_port || port`, with `port` defaulting to 80. */
  function FinalPort(req: ScanRequest): (p: int)
    ensures TruthyNum(req.targetPort) ==> p == req.targetPort.value
    ensures !TruthyNum(req.targetPort) && req.port.Some? ==> p == req.port.value
    ensures !TruthyNum(req.targetPort) && req.port.None? ==> p == 80
  {
    if req.targetPort.Some? && req.targetPort.value != 0 then req.targetPort.value
    else req.port.GetOr(80)
  }

  /** `scanType || probe_module`, with `probe_module` defaulting to tcp_synscan. */
  function FinalProbeModule(req: ScanRequest): (m: string)
    ensures Truthy(req.scanType) ==> m == req.scanType.value
    ensures !Truthy(req.scanType) && req.probeModule.Some? ==> m == req.probeModule.value
    ensures !Truthy(req.scanType) && req.probeModule.None? ==> m == "tcp_synscan"
  {
    if req.scanType.Some? && req.scanType.value != "" then req.scanType.value
    else req.probeModule.GetOr("tcp_synscan")
  }

  /** The configuration sent to the engine, member by member in source order. */
  function EngineConfig(req: ScanRequest): (c: seq<(string, Value)>)
    ensures |c| == 11
    ensures c[0] == ("target_port", Number(FinalPort(req)))
    ensures c[1] == ("subnets", StrArray(Subnets(req)))
    ensures c[6] == ("probe_module", Str(FinalProbeModule(req)))
  {
    [ ("target_port", Number(FinalPort(req))),
      ("subnets", StrArray(Subnets(req))),
      ("output_file", Str(req.outputFile.GetOr(""))),
      ("blocklist_file", Str(req.blocklistFile.GetOr(""))),
      ("allowlist_file", Str(req.allowlistFile.GetOr(""))),
      ("bandwidth", Str(req.bandwidth.GetOr(""))),
      ("probe_module", Str(FinalProbeModule(req))),
      ("rate", Number(req.rate.GetOr(0))),
      ("seed", Number(req.seed.GetOr(0))),
      ("verbosity", Number(req.verbosity.GetOr(0))),
      ("return_results", Bool(req.returnResults.GetOr(true))) ]
  }

  /** The record's `command`: the configuration as indented JSON. */
  function CommandText(req: ScanRequest): string {
    Stringify(EngineConfig(req))
  }

  /** The stored command names the probe module and the port that were sent. */
  lemma CommandShowsModuleAndPort(req: ScanRequest)
    ensures Contains(CommandText(req), MemberLine("probe_module", Str(FinalProbeModule(req))))
    ensures Contains(CommandText(req), MemberLine("target_port", Number(FinalPort(req))))
  {
    var c := EngineConfig(req);
    StringifyHasMember(c, 6);
    StringifyHasMember(c, 0);
  }

  /** The data createScan receives. */
  function Record(req: ScanRequest): ScanData {
    ScanData(Join(Subnets(req), ", "), FinalPort(req), FinalProbeModule(req), CommandText(req),
             None, 0, 0, None)
  }

  // ---------------------------------------------------------------------------
  // The engine reply

  /** One host in the engine's list: a bare address, or an object whose members
      may be missing. */
  datatype Entry =
    | Bare(address: string)
    | Obj(ip: Option<string>, saddr: Option<string>, port: Option<int>,
          dport: Option<string>, status: Option<string>, classification: Option<string>)

  /** A parsed reply body; `Falsy` is a body that is null or otherwise falsy. */
  datatype Reply =
    | Falsy
    | Body(error: Option<string>, status: Option<string>, ipsFound: Option<seq<Entry>>,
           results: Option<seq<Entry>>, totalHostsScanned: Option<int>, outputFile: Option<string>)

  /** What the engine call comes to: the request could not be made (with the
      thrown error's message), the engine answered with a non-2xx status and
      an error body, or it answered 2xx with a body. */
  datatype EngineCall = Unreachable(message: string) | Rejected(error: Option<string>) | Answered(reply: Reply)

  // ---------------------------------------------------------------------------
  // Normalising hosts

  /** The protocol a row records for a probe module. */
  function ProtocolOf(probeModule: string): (p: string)
    ensures p == "icmp" <==> probeModule == "icmp_echo"
    ensures p == "icmp" || p == "tcp"
  {
    if probeModule == "icmp_echo" then "icmp" else "tcp"
  }

  /** The row stored for one reported host. */
  function NormalizeEntry(e: Entry, finalPort: int, probeModule: string, scanId: string): (r: ResultData)
    ensures r.scanId == scanId && r.protocol == ProtocolOf(probeModule)
    ensures e.Bare? ==> r.ip == e.address && r.port == finalPort && r.status == "open"
    ensures e.Obj? && Truthy(e.ip) ==> r.ip == e.ip.value
    ensures e.Obj? && TruthyNum(e.port) ==> r.port == e.port.value
    ensures e.Obj? && Truthy(e.status) ==> r.status == e.status.value
    ensures e.Obj? && !Truthy(e.status) ==> (r.status == "open" <==> e.classification == Some("synack"))
  {
    match e
    case Bare(a) => ResultData(a, finalPort, ProtocolOf(probeModule), "open", scanId)
    case Obj(ip, saddr, port, dport, status, classification) =>
      var addr := if Truthy(ip) then ip.value else saddr.GetOr("");
      var fromDport := if dport.Some? then ParseInt(dport.value) else None;
      var p := if TruthyNum(port) then port.value
               else if TruthyNum(fromDport) then fromDport.value
               else finalPort;
      var st := if Truthy(status) then status.value
                else if classification == Some("synack") then "open" else "closed";
      ResultData(addr, p, ProtocolOf(probeModule), st, scanId)
  }

  /** The rows `ipsFound.map(...)` produces. */
  function Normalize(ips: seq<Entry>, finalPort: int, probeModule: string, scanId: string): (r: seq<ResultData>)
    ensures |r| == |ips|
    ensures forall i :: 0 <= i < |r| ==> r[i] == NormalizeEntry(ips[i], finalPort, probeModule, scanId)
    decreases |ips|
  {
    if ips == [] then []
    else [NormalizeEntry(ips[0], finalPort, probeModule, scanId)] + Normalize(ips[1..], finalPort, probeModule, scanId)
  }

  /** A host given only as `dport` text keeps that port when it reads as a
      non-zero number, and the request's port otherwise. */
  lemma DportFallback(ip: string, dport: string, finalPort: int, probeModule: string, scanId: string)
    ensures
      var r := NormalizeEntry(Obj(Some(ip), None, None, Some(dport), None, None), finalPort, probeModule, scanId);
      r.port == (if TruthyNum(ParseInt(dport)) then ParseInt(dport).value else finalPort) && r.status == "closed"
  {
  }

  /** `ips_found || results || []`: an array counts as present even when empty. */
  function IpsFound(body: Reply): (r: seq<Entry>)
    requires body.Body?
    ensures body.ipsFound.Some? ==> r == body.ipsFound.value
    ensures body.ipsFound.None? && body.results.Some? ==> r == body.results.value
    ensures body.ipsFound.None? && body.results.None? ==> r == []
  {
    if body.ipsFound.Some? then body.ipsFound.value else body.results.GetOr([])
  }

  // ---------------------------------------------------------------------------
  // The host-count estimate

  function Pow2(k: nat): (r: nat)
    ensures r >= 1
  {
    if k == 0 then 1 else 2 * Pow2(k - 1)
  }

  /** Addresses one target stands for: 2^(32 - bits) for a CIDR block, 1 for
      an address.  None stands for a count that is not a whole number: a
      prefix length that does not read as a number (NaN) or exceeds 32. */
  function CidrHosts(subnet: string): (r: Option<int>)
    ensures '/' !in subnet ==> r == Some(1)
  {
    ContainsChar(subnet, '/');
    if Contains(subnet, "/") then
      SplitHasSecondPart(subnet, '/');
      match ParseInt(Split(subnet, '/')[1])
      case None => None
      case Some(bits) => if bits <= 32 then Some(Pow2(32 - bits)) else None
    else Some(1)
  }

  function AddCount(a: Option<int>, b: Option<int>): Option<int> {
    if a.Some? && b.Some? then Some(a.value + b.value) else None
  }

  /** `subnets.reduce((total, s) => total + CidrHosts(s), 0)`. */
  function HostsEstimate(subnets: seq<string>): Option<int>
    decreases |subnets|
  {
    if subnets == [] then Some(0)
    else AddCount(HostsEstimate(subnets[..|subnets| - 1]), CidrHosts(subnets[|subnets| - 1]))
  }

  /** The estimate of a concatenation is the sum of the estimates. */
  lemma {:induction false} HostsEstimateAppend(a: seq<string>, b: seq<string>)
    ensures HostsEstimate(a + b) == AddCount(HostsEstimate(a), HostsEstimate(b))
    decreases |b|
  {
    if b == [] {
      assert a + b == a;
    } else {
      var n := |b| - 1;
      assert (a + b)[..|a + b| - 1] == a + b[..n];
      assert (a + b)[|a + b| - 1] == b[n];
      HostsEstimateAppend(a, b[..n]);
      AddCountAssociative(HostsEstimate(a), HostsEstimate(b[..n]), CidrHosts(b[n]));
    }
  }

  lemma AddCountAssociative(x: Option<int>, y: Option<int>, z: Option<int>)
    ensures AddCount(AddCount(x, y), z) == AddCount(x, AddCount(y, z))
  {
  }

  /** Plain addresses count one host each. */
  lemma {:induction false} HostsEstimateOfAddresses(subnets: seq<string>)
    requires forall i :: 0 <= i < |subnets| ==> '/' !in subnets[i]
    ensures HostsEstimate(subnets) == Some(|subnets|)
    decreases |subnets|
  {
    if subnets != [] {
      HostsEstimateOfAddresses(subnets[..|subnets| - 1]);
    }
  }

  /** A block `addr/bits` counts 2^(32 - bits) hosts. */
  lemma CidrHostsOfBlock(addr: string, bitsText: string, bits: int)
    requires '/' !in addr && '/' !in bitsText
    requires ParseInt(bitsText) == Some(bits) && bits <= 32
    ensures CidrHosts(addr + "/" + bitsText) == Some(Pow2(32 - bits))
  {
    var s := addr + "/" + bitsText;
    assert s == addr + ['/'] + bitsText;
    SplitAtFirst(addr, '/', bitsText);
    SplitNoSeparator(bitsText, '/');
    assert s[|addr|] == '/';
    ContainsChar(s, '/');
  }

  /** `total_hosts_scanned || estimate`. */
  function HostsScanned(body: Reply, subnets: seq<string>): (r: Option<int>)
    requires body.Body?
    ensures TruthyNum(body.totalHostsScanned) ==> r == body.totalHostsScanned
    ensures !TruthyNum(body.totalHostsScanned) ==> r == HostsEstimate(subnets)
  {
    if body.totalHostsScanned.Some? && body.totalHostsScanned.value != 0 then body.totalHostsScanned
    else HostsEstimate(subnets)
  }

  // ---------------------------------------------------------------------------
  // The outcome of a POST

  datatype ResponseBody =
    | ErrorBody(error: string)
    | ScanSuccess(scanId: string, results: seq<Entry>, count: nat, outputFile: Option<string>)

  datatype Response = Response(code: nat, body: ResponseBody)

  /** How the engine call ends the scan: failed with the message stored on the
      record and the one sent to the client, or finished with these hosts. */
  datatype Verdict =
    | Failure(stored: string, reported: string)
    | Finished(ips: seq<Entry>, hostsScanned: Option<int>, outputFile: Option<string>)

  /** The message an Error thrown by the engine call carries. */
  function ThrownMessage(call: EngineCall): Option<string> {
    match call
    case Unreachable(m) => Some(m)
    case Rejected(e) => Some(if Truthy(e) then e.value else "Failed to perform scan")
    case Answered(Falsy) => Some("Empty response from scan service")
    case Answered(_) => None
  }

  function Judge(call: EngineCall, subnets: seq<string>): (v: Verdict)
    ensures v.Failure? <==> ThrownMessage(call).Some? || Truthy(call.reply.error) || call.reply.status == Some("failed")
    ensures v.Failure? ==> v.stored != "" && v.reported != ""
    ensures v.Finished? ==> call.Answered? && call.reply.Body? && v.ips == IpsFound(call.reply)
  {
    match ThrownMessage(call)
    case Some(m) =>
      var msg := if m != "" then m else "Unknown error during scan execution";
      Failure(msg, msg)
    case None =>
      var body := call.reply;
      if Truthy(body.error) then Failure(body.error.value, body.error.value)
      else if body.status == Some("failed") then
        // `result.error` is falsy here, so both fallbacks always apply.
        Failure("Scan failed with status: failed", "Scan failed")
      else
        Finished(IpsFound(body), HostsScanned(body, subnets),
                 if Truthy(body.outputFile) then body.outputFile else None)
  }

  /** An engine that refuses without a message leaves the generic text. */
  lemma RejectedWithoutMessage(subnets: seq<string>)
    ensures Judge(Rejected(None), subnets) == Failure("Failed to perform scan", "Failed to perform scan")
    ensures Judge(Rejected(Some("")), subnets) == Failure("Failed to perform scan", "Failed to perform scan")
  {
  }

  /** The response a POST sends once a scan was recorded under `id`. */
  function ResponseOf(v: Verdict, id: string): (r: Response)
    ensures v.Failure? ==> r == Response(500, ErrorBody(v.reported))
    ensures v.Finished? ==> r.code == 200 && r.body.ScanSuccess? && r.body.scanId == id
                            && r.body.count == |v.ips| && r.body.results == v.ips
  {
    match v
    case Failure(_, reported) => Response(500, ErrorBody(reported))
    case Finished(ips, _, out) => Response(200, ScanSuccess(id, ips, |ips|, out))
  }

  /** POST /api/scan.  `t0`, `t1`, `t2` are the clock readings of createScan,
      of the first later store call, and of the second. */
  method Post(store: ScanStore, req: ScanRequest, call: EngineCall, t0: Instant, t1: Instant, t2: Instant)
    returns (resp: Response)
    requires store.Valid()
    modifies store
    ensures store.Valid()
    ensures Subnets(req) == [] ==>
      resp == Response(400, ErrorBody("Target subnets are required"))
      && store.scans == old(store.scans) && store.results == old(store.results) && store.nextId == old(store.nextId)
      && store.order == old(store.order)
    ensures Subnets(req) != [] ==>
      var id := IdOf(old(store.nextId));
      var v := Judge(call, Subnets(req));
      var s0 := NewScan(id, Record(req), t0);
      && id !in old(store.scans)
      && store.order == old(store.order) + [id]
      && resp == ResponseOf(v, id)
      && (v.Failure? ==>
            && store.scans == old(store.scans)[id := Concluded(s0, v, t1, t2)]
            && store.results == old(store.results)[id := []]
            && store.nextId == old(store.nextId) + 1)
      && (v.Finished? ==>
            var rows := Normalize(v.ips, FinalPort(req), FinalProbeModule(req), id);
            && store.results == old(store.results)[id := Stamped(rows, t1, old(store.nextId) + 1)]
            && store.scans == old(store.scans)[id := Concluded(s0, v, t1, t2)]
            && store.nextId == old(store.nextId) + 1 + |rows|)
  {
    var subnets := Subnets(req);
    if |subnets| == 0 {
      return Response(400, ErrorBody("Target subnets are required"));
    }
    var v := Judge(call, subnets);
    resp := Run(store, Record(req), v, FinalPort(req), FinalProbeModule(req), t0, t1, t2);
  }

  /** The part of POST after validation: record the scan, then fail it or save
      its rows and complete it, and answer accordingly. */
  method Run(store: ScanStore, data: ScanData, v: Verdict, finalPort: int, probeModule: string,
             t0: Instant, t1: Instant, t2: Instant) returns (resp: Response)
    requires store.Valid()
    modifies store
    ensures store.Valid()
    ensures
      var id := IdOf(old(store.nextId));
      var s0 := NewScan(id, data, t0);
      && id !in old(store.scans)
      && store.order == old(store.order) + [id]
      && resp == ResponseOf(v, id)
      && (v.Failure? ==>
            && store.scans == old(store.scans)[id := Concluded(s0, v, t1, t2)]
            && store.results == old(store.results)[id := []]
            && store.nextId == old(store.nextId) + 1)
      && (v.Finished? ==>
            var rows := Normalize(v.ips, finalPort, probeModule, id);
            && store.results == old(store.results)[id := Stamped(rows, t1, old(store.nextId) + 1)]
            && store.scans == old(store.scans)[id := Concluded(s0, v, t1, t2)]
            && store.nextId == old(store.nextId) + 1 + |rows|)
  {
    var scan := store.CreateScan(data, t0);
    ghost var created := store.scans;
    var outcome: Outcome;
    match v {
      case Failure(stored, reported) =>
        outcome := store.UpdateScanStatus(scan.id, Failed, StatusData(None, None, Some(stored)), t1);
        assert created[scan.id] == scan;
        resp := Response(500, ErrorBody(reported));
      case Finished(ips, hostsScanned, outputFile) =>
        var rows := Normalize(ips, finalPort, probeModule, scan.id);
        Complete(store, scan, rows, hostsScanned, t1, t2);
        OverrideTwice(old(store.results), scan.id, [], Stamped(rows, t1, old(store.nextId) + 1));
        OverrideTwice(old(store.scans), scan.id, scan, Updated(scan, Completed, StatusData(hostsScanned, Some(|rows|), None), t2));
        resp := Response(200, ScanSuccess(scan.id, ips, |ips|, outputFile));
    }
  }

  /** Saving the rows of a freshly created scan and marking it completed, with
      hostsUp set to the number of rows. */
  method Complete(store: ScanStore, scan: Scan, rows: seq<ResultData>, hostsScanned: Option<int>, t1: Instant, t2: Instant)
    requires store.Valid()
    requires scan.id in store.scans && store.scans[scan.id] == scan && store.results[scan.id] == []
    requires forall i :: 0 <= i < |rows| ==> rows[i].scanId == scan.id
    modifies store
    ensures store.Valid()
    ensures store.results == old(store.results)[scan.id := Stamped(rows, t1, old(store.nextId))]
    ensures store.scans == old(store.scans)[scan.id := Updated(scan, Completed, StatusData(hostsScanned, Some(|rows|), None), t2)]
    ensures store.nextId == old(store.nextId) + |rows|
    ensures store.order == old(store.order)
  {
    ghost var filed := store.results;
    ghost var created := store.scans;
    store.SaveScanResults(rows, t1);
    SavedUnderScan(filed, scan.id, rows, t1, old(store.nextId), store.results);
    ghost var saved := store.scans;
    var data := StatusData(hostsScanned, Some(|rows|), None);
    var outcome := store.UpdateScanStatus(scan.id, Completed, data, t2);
    assert saved[scan.id] == scan.(hostsUp := saved[scan.id].hostsUp);
    assert Updated(saved[scan.id], Completed, data, t2) == Updated(scan, Completed, data, t2);
    assert saved == created[scan.id := saved[scan.id]] by {
      if rows != [] {
        assert rows[0].scanId == scan.id;
      } else {
        assert created[scan.id := created[scan.id]] == created;
      }
    }
    OverrideTwice(created, scan.id, saved[scan.id], Updated(scan, Completed, data, t2));
  }

  lemma OverrideTwice<K, V>(m: map<K, V>, k: K, a: V, b: V)
    ensures m[k := a][k := b] == m[k := b]
  {
  }

  /** The rows of one scan land in its freshly created (empty) list. */
  lemma SavedUnderScan(filed: map<string, seq<ScanResult>>, id: string, rows: seq<ResultData>, t: Instant, first: nat,
                       after: map<string, seq<ScanResult>>)
    requires id in filed && filed[id] == []
    requires forall i :: 0 <= i < |rows| ==> rows[i].scanId == id
    requires rows == [] ==> after == filed
    requires rows != [] ==> after == filed[rows[0].scanId := filed[rows[0].scanId] + Stamped(rows, t, first)]
    ensures after == filed[id := Stamped(rows, t, first)]
  {
    if rows == [] {
      assert filed[id := []] == filed;
    } else {
      assert [] + Stamped(rows, t, first) == Stamped(rows, t, first);
    }
  }

  /** The record a scan ends with once the engine call is judged. */
  function Concluded(s0: Scan, v: Verdict, t1: Instant, t2: Instant): Scan {
    if v.Failure? then Updated(s0, Failed, StatusData(None, None, Some(v.stored)), t1)
    else Updated(s0, Completed, StatusData(v.hostsScanned, Some(|v.ips|), None), t2)
  }

  /** A recorded scan always ends terminal with an end time, keeping what it was
      created with: failed with a non-empty error message and zero counts, or
      completed with one stored row per reported host counted in hostsUp (every
      reported row, open or not). */
  lemma ConcludedTerminal(req: ScanRequest, call: EngineCall, s0: Scan, t1: Instant, t2: Instant)
    requires s0.status == InProgress && s0.hostsUp == 0 && s0.hostsScanned == 0 && s0.error == None
    ensures var v := Judge(call, Subnets(req));
      var s := Concluded(s0, v, t1, t2);
      && IsTerminal(s.status) && s.endTime.Some?
      && s.id == s0.id && s.target == s0.target && s.port == s0.port && s.command == s0.command
      && s.startTime == s0.startTime
      && (s.status == Failed <==> v.Failure?)
      && (s.status == Failed ==> s.error.Some? && s.error.value != "" && s.hostsUp == 0 && s.hostsScanned == 0)
      && (s.status == Completed ==> s.error == None && s.hostsUp == |IpsFound(call.reply)|
                                    && s.hostsScanned == HostsScanned(call.reply, Subnets(req)).GetOr(0))
  {
  }

  /** The history's download button is enabled for a recorded scan exactly
      when the engine call finished and reported at least one host. */
  lemma ConcludedDownload(req: ScanRequest, call: EngineCall, s0: Scan, t1: Instant, t2: Instant)
    requires s0.status == InProgress && s0.hostsUp == 0 && s0.hostsScanned == 0 && s0.error == None
    ensures var v := Judge(call, Subnets(req));
      ScanHistory.DownloadEnabled(Concluded(s0, v, t1, t2)) <==> v.Finished? && |IpsFound(call.reply)| > 0
  {
    ConcludedTerminal(req, call, s0, t1, t2);
  }

  /** The hostsUp a completed scan keeps counts closed hosts too: one closed
      host gives hostsUp 1 although no host is open. */
  lemma HostsUpCountsClosedRows(s0: Scan, subnets: seq<string>, finalPort: int, probeModule: string, t1: Instant, t2: Instant)
    ensures
      var ips := [Obj(Some("10.0.0.1"), None, Some(22), None, Some("closed"), None)];
      var v := Judge(Answered(Body(None, None, Some(ips), None, None, None)), subnets);
      && Concluded(s0, v, t1, t2).hostsUp == 1
      && OpenCount(Normalize(ips, finalPort, probeModule, s0.id)) == 0
  {
    var ips := [Obj(Some("10.0.0.1"), None, Some(22), None, Some("closed"), None)];
    var rows := Normalize(ips, finalPort, probeModule, s0.id);
    assert rows[0].status == "closed";
    assert rows[1..] == [];
  }
}
