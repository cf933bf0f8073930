/** The configuration form of components/scan-configuration.tsx: the engine
    command it previews, built flag by flag from the form fields, and the scan
    request its Start button sends. */
module ScanConfiguration {
  import opened Common

  /** The form's fields, each a text box or a switch. */
  datatype Form = Form(
    targetPort: string, outputFile: string, blacklistFile: string, whitelistFile: string, subnets: string,
    rate: string, bandwidth: string, bandwidthUnit: string, maxTargets: string, maxRuntime: string,
    maxResults: string, probes: string, cooldownTime: string, seed: string, retries: string,
    dryrun: bool, shards: string, shard: string,
    sourcePort: string, sourceIp: string, gatewayMac: string, sourceMac: string, iface: string, vpn: bool,
    probeModule: string, probeArgs: string,
    outputFields: string, outputModule: string, outputArgs: string, outputFilter: string,
    verbosity: string, logFile: string, logDirectory: string, metadataFile: string, statusUpdatesFile: string,
    quiet: bool, disableSyslog: bool, notes: string, userMetadata: string,
    configFile: string, maxSendtoFailures: string, minHitrate: string, senderThreads: string, cores: string,
    ignoreInvalidHosts: bool)

  /** The form as it first renders. */
  function InitialForm(): Form {
    Form("", "", "", "", "",
         "", "", "M", "", "", "", "1", "8", "", "10", false, "1", "0",
         "", "", "", "", "", false,
         "tcp_synscan", "",
         "", "default", "", "",
         "3", "", "", "", "", false, false, "", "",
         "/etc/zmap/zmap.conf", "-1", "0.0", "1", "", false)
  }

  // ---------------------------------------------------------------------------
  // The command as a list of guarded steps

  /** One `if (cond) command += text` of the builder. */
  datatype Step = Step(on: bool, text: string)

  /** Steps in the order they run, the latest last. */
  datatype Steps = Nil | Then(init: Steps, last: Step) {
    function Add(on: bool, text: string): Steps {
      Then(this, Step(on, text))
    }
  }

  function Emit(s: Step): string {
    if s.on then s.text else ""
  }

  /** The command after running the steps on `acc`. */
  function Apply(acc: string, steps: Steps): string {
    match steps
    case Nil => acc
    case Then(init, last) => Apply(acc, init) + Emit(last)
  }

  function Flatten(steps: Steps): seq<Step> {
    match steps
    case Nil => []
    case Then(init, last) => Flatten(init) + [last]
  }

  /** Running `a`, then `b`. */
  function Chain(a: Steps, b: Steps): Steps {
    match b
    case Nil => a
    case Then(init, last) => Then(Chain(a, init), last)
  }

  /** Reference reading: the texts of the steps that are on, in order. */
  function Joined(steps: seq<Step>): string
    decreases |steps|
  {
    if steps == [] then "" else Joined(steps[..|steps| - 1]) + Emit(steps[|steps| - 1])
  }

  /** Running the steps appends exactly the texts of the steps that are on, each
      once, in order. */
  lemma {:induction false} ApplyIsJoined(acc: string, steps: Steps)
    ensures Apply(acc, steps) == acc + Joined(Flatten(steps))
  {
    match steps
    case Nil =>
    case Then(init, last) =>
      ApplyIsJoined(acc, init);
      var s := Flatten(init) + [last];
      assert s[..|s| - 1] == Flatten(init);
  }

  lemma {:induction false} ChainNil(b: Steps)
    ensures Chain(Nil, b) == b
  {
    match b
    case Nil =>
    case Then(init, last) => ChainNil(init);
  }

  lemma {:induction false} ApplyChain(acc: string, a: Steps, b: Steps)
    ensures Apply(acc, Chain(a, b)) == Apply(Apply(acc, a), b)
  {
    match b
    case Nil =>
    case Then(init, last) => ApplyChain(acc, a, init);
  }

  lemma {:induction false} FlattenChain(a: Steps, b: Steps)
    ensures Flatten(Chain(a, b)) == Flatten(a) + Flatten(b)
  {
    match b
    case Nil =>
      assert Flatten(a) + [] == Flatten(a);
    case Then(init, last) =>
      FlattenChain(a, init);
      assert Flatten(a) + Flatten(init) + [last] == Flatten(a) + (Flatten(init) + [last]);
  }

  /** Steps only ever add text at the end. */
  lemma {:induction false} ApplyExtends(acc: string, steps: Steps)
    ensures IsPrefix(acc, Apply(acc, steps))
  {
    match steps
    case Nil =>
    case Then(init, last) =>
      ApplyExtends(acc, init);
      var r := Apply(acc, steps);
      assert r[..|Apply(acc, init)|] == Apply(acc, init);
      assert r[..|acc|] == Apply(acc, init)[..|acc|];
  }

  /** A text included before some steps run is still included afterwards. */
  lemma ApplyKeeps(acc: string, steps: Steps, t: string)
    requires Contains(acc, t)
    ensures Contains(Apply(acc, steps), t)
  {
    ApplyExtends(acc, steps);
    var r := Apply(acc, steps);
    assert r == acc + r[|acc|..];
    ContainsConcat(acc, r[|acc|..], t);
  }

  /** Every step that is on leaves its text in the command. */
  lemma {:induction false} ApplyContains(acc: string, steps: Steps, k: nat)
    requires k < |Flatten(steps)| && Flatten(steps)[k].on
    ensures Contains(Apply(acc, steps), Flatten(steps)[k].text)
  {
    match steps
    case Then(init, last) =>
      if k == |Flatten(init)| {
        ContainsMiddle(Apply(acc, init), last.text, "");
        assert Apply(acc, init) + last.text + "" == Apply(acc, steps);
      } else {
        assert Flatten(steps)[k] == Flatten(init)[k];
        ApplyContains(acc, init, k);
        ContainsConcat(Apply(acc, init), Emit(last), Flatten(init)[k].text);
      }
  }

  /** Steps that are all off leave the command as it was. */
  predicate AllOff(steps: Steps) {
    forall i :: 0 <= i < |Flatten(steps)| ==> !Flatten(steps)[i].on
  }

  lemma {:induction false} ApplyAllOff(acc: string, steps: Steps)
    requires AllOff(steps)
    ensures Apply(acc, steps) == acc
  {
    match steps
    case Nil =>
    case Then(init, last) =>
      assert forall i :: 0 <= i < |Flatten(init)| ==> Flatten(init)[i] == Flatten(steps)[i];
      assert Flatten(steps)[|Flatten(init)|] == last;
      ApplyAllOff(acc, init);
      assert acc + "" == acc;
  }

  lemma FlattenOfTwo(s: Steps)
    requires s.Then? && s.init.Then? && s.init.init == Nil
    ensures Flatten(s) == [s.init.last, s.last]
  {
    assert Flatten(s.init) == [s.init.last];
  }

  lemma FlattenOfThree(s: Steps)
    requires s.Then? && s.init.Then? && s.init.init.Then? && s.init.init.init == Nil
    ensures Flatten(s) == [s.init.init.last, s.init.last, s.last]
  {
    FlattenOfTwo(s.init);
  }

  lemma FlattenOfFour(s: Steps)
    requires s.Then? && s.init.Then? && s.init.init.Then? && s.init.init.init.Then? && s.init.init.init.init == Nil
    ensures Flatten(s) == [s.init.init.init.last, s.init.init.last, s.init.last, s.last]
  {
    FlattenOfThree(s.init);
  }

  // ---------------------------------------------------------------------------
  // The flags, in source order, grouped as the builder's comments group them

  /** Basic arguments (lines 95-98). */
  function BasicSteps(f: Form): Steps {
    Nil
      .Add(f.targetPort != "", " -p " + f.targetPort)
      .Add(f.outputFile != "", " -o " + f.outputFile)
      .Add(f.blacklistFile != "", " -b " + f.blacklistFile)
      .Add(f.whitelistFile != "", " -w " + f.whitelistFile)
  }

  /** Scan rate and limits (lines 101-104). */
  function RateSteps(f: Form): Steps {
    Nil
      .Add(f.rate != "", " -r " + f.rate)
      .Add(f.bandwidth != "", " -B " + f.bandwidth + f.bandwidthUnit)
      .Add(f.maxTargets != "", " -n " + f.maxTargets)
      .Add(f.maxRuntime != "", " -t " + f.maxRuntime)
  }

  /** Result limit, probes, cooldown and seed (lines 105-108). */
  function ProbingSteps(f: Form): Steps {
    Nil
      .Add(f.maxResults != "", " -N " + f.maxResults)
      .Add(f.probes != "1", " -P " + f.probes)
      .Add(f.cooldownTime != "8", " -c " + f.cooldownTime)
      .Add(f.seed != "", " -e " + f.seed)
  }

  /** Retries, dry run and sharding (lines 109-112). */
  function ShardSteps(f: Form): Steps {
    Nil
      .Add(f.retries != "10", " --retries=" + f.retries)
      .Add(f.dryrun, " -d")
      .Add(f.shards != "1", " --shards=" + f.shards)
      .Add(f.shard != "0" || f.shards != "1", " --shard=" + f.shard)
  }

  /** Source addresses (lines 115-118). */
  function SourceSteps(f: Form): Steps {
    Nil
      .Add(f.sourcePort != "", " -s " + f.sourcePort)
      .Add(f.sourceIp != "", " -S " + f.sourceIp)
      .Add(f.gatewayMac != "", " -G " + f.gatewayMac)
      .Add(f.sourceMac != "", " --source-mac=" + f.sourceMac)
  }

  /** Interface and VPN (lines 119-120). */
  function InterfaceSteps(f: Form): Steps {
    Nil
      .Add(f.iface != "", " -i " + f.iface)
      .Add(f.vpn, " -X")
  }

  /** Probe module and its arguments (lines 123-124). */
  function ProbeSteps(f: Form): Steps {
    Nil
      .Add(f.probeModule != "tcp_synscan", " -M " + f.probeModule)
      .Add(f.probeArgs != "", " --probe-args=\"" + f.probeArgs + "\"")
  }

  /** Data output (lines 127-130). */
  function OutputSteps(f: Form): Steps {
    Nil
      .Add(f.outputFields != "", " -f " + f.outputFields)
      .Add(f.outputModule != "default", " -O " + f.outputModule)
      .Add(f.outputArgs != "", " --output-args=\"" + f.outputArgs + "\"")
      .Add(f.outputFilter != "", " --output-filter=\"" + f.outputFilter + "\"")
  }

  /** Verbosity and log files (lines 133-136). */
  function LogSteps(f: Form): Steps {
    Nil
      .Add(f.verbosity != "3", " -v " + f.verbosity)
      .Add(f.logFile != "", " -l " + f.logFile)
      .Add(f.logDirectory != "", " -L " + f.logDirectory)
      .Add(f.metadataFile != "", " -m " + f.metadataFile)
  }

  /** Status updates, quiet mode and syslog (lines 137-139). */
  function StatusSteps(f: Form): Steps {
    Nil
      .Add(f.statusUpdatesFile != "", " -u " + f.statusUpdatesFile)
      .Add(f.quiet, " -q")
      .Add(f.disableSyslog, " --disable-syslog")
  }

  /** Notes and user metadata (lines 140-141). */
  function NoteSteps(f: Form): Steps {
    Nil
      .Add(f.notes != "", " --notes=\"" + f.notes + "\"")
      .Add(f.userMetadata != "", " --user-metadata='" + f.userMetadata + "'")
  }

  /** Configuration file and sender tuning (lines 144-147). */
  function TuningSteps(f: Form): Steps {
    Nil
      .Add(f.configFile != "/etc/zmap/zmap.conf", " -C " + f.configFile)
      .Add(f.maxSendtoFailures != "-1", " --max-sendto-failures=" + f.maxSendtoFailures)
      .Add(f.minHitrate != "0.0", " --min-hitrate=" + f.minHitrate)
      .Add(f.senderThreads != "1", " -T " + f.senderThreads)
  }

  /** Cores and invalid hosts (lines 148-149). */
  function CoreSteps(f: Form): Steps {
    Nil
      .Add(f.cores != "", " --cores=" + f.cores)
      .Add(f.ignoreInvalidHosts, " --ignore-invalid-hosts")
  }

  /** The groups in the order the builder runs them. */
  function Groups(f: Form): (gs: seq<Steps>)
    ensures |gs| == 13
  {
    [ BasicSteps(f), RateSteps(f), ProbingSteps(f), ShardSteps(f), SourceSteps(f),
      InterfaceSteps(f), ProbeSteps(f), OutputSteps(f), LogSteps(f), StatusSteps(f),
      NoteSteps(f), TuningSteps(f), CoreSteps(f) ]
  }

  /** The steps of the first `n` groups, in order. */
  function Prefix(gs: seq<Steps>, n: nat): Steps
    requires n <= |gs|
  {
    if n == 0 then Nil else Chain(Prefix(gs, n - 1), gs[n - 1])
  }

  /** Every flag step, group after group. */
  function FlagSteps(f: Form): Steps {
    Prefix(Groups(f), 13)
  }

  /** An on step of one of the first `n` groups leaves its text in the command. */
  lemma {:induction false} PrefixContains(acc: string, gs: seq<Steps>, n: nat, g: nat, k: nat)
    requires g < n <= |gs| && k < |Flatten(gs[g])| && Flatten(gs[g])[k].on
    ensures Contains(Apply(acc, Prefix(gs, n)), Flatten(gs[g])[k].text)
  {
    var before := Apply(acc, Prefix(gs, n - 1));
    ApplyChain(acc, Prefix(gs, n - 1), gs[n - 1]);
    if g == n - 1 {
      ApplyContains(before, gs[g], k);
    } else {
      PrefixContains(acc, gs, n - 1, g, k);
      ApplyKeeps(before, gs[n - 1], Flatten(gs[g])[k].text);
    }
  }

  /** Running one more group after the first `n`. */
  lemma PrefixNext(acc: string, gs: seq<Steps>, n: nat, c: string)
    requires n < |gs| && c == Apply(acc, Prefix(gs, n))
    ensures Apply(c, gs[n]) == Apply(acc, Prefix(gs, n + 1))
  {
    ApplyChain(acc, Prefix(gs, n), gs[n]);
  }

  /** Running all thirteen groups is running them one after the other. */
  lemma ApplyGroups(acc: string, gs: seq<Steps>)
    requires |gs| == 13
    ensures Apply(acc, Prefix(gs, 13)) == Apply(Apply(Apply(Apply(Apply(Apply(Apply(Apply(Apply(Apply(Apply(Apply(Apply(acc, gs[0]), gs[1]), gs[2]), gs[3]), gs[4]), gs[5]), gs[6]), gs[7]), gs[8]), gs[9]), gs[10]), gs[11]), gs[12])
  {
    var c := acc;
    PrefixNext(acc, gs, 0, c);
    c := Apply(c, gs[0]);
    PrefixNext(acc, gs, 1, c);
    c := Apply(c, gs[1]);
    PrefixNext(acc, gs, 2, c);
    c := Apply(c, gs[2]);
    PrefixNext(acc, gs, 3, c);
    c := Apply(c, gs[3]);
    PrefixNext(acc, gs, 4, c);
    c := Apply(c, gs[4]);
    PrefixNext(acc, gs, 5, c);
    c := Apply(c, gs[5]);
    PrefixNext(acc, gs, 6, c);
    c := Apply(c, gs[6]);
    PrefixNext(acc, gs, 7, c);
    c := Apply(c, gs[7]);
    PrefixNext(acc, gs, 8, c);
    c := Apply(c, gs[8]);
    PrefixNext(acc, gs, 9, c);
    c := Apply(c, gs[9]);
    PrefixNext(acc, gs, 10, c);
    c := Apply(c, gs[10]);
    PrefixNext(acc, gs, 11, c);
    c := Apply(c, gs[11]);
    PrefixNext(acc, gs, 12, c);
  }

  /** Groups that are all off leave the command as it was. */
  lemma {:induction false} PrefixOff(acc: string, gs: seq<Steps>, n: nat)
    requires n <= |gs| && forall g :: 0 <= g < n ==> AllOff(gs[g])
    ensures Apply(acc, Prefix(gs, n)) == acc
  {
    if n > 0 {
      PrefixOff(acc, gs, n - 1);
      ApplyChain(acc, Prefix(gs, n - 1), gs[n - 1]);
      ApplyAllOff(acc, gs[n - 1]);
    }
  }

  /** The targets come last, as a positional argument (line 152). */
  function Command(f: Form): string {
    Apply("zmap", FlagSteps(f).Add(f.subnets != "", " " + f.subnets))
  }

  // ---------------------------------------------------------------------------
  // The builder

  /** The body of the form's effect: `let command = "zmap"`, then one guarded
      append per field. */
  method BuildCommand(f: Form) returns (command: string)
    ensures command == Command(f)
  {
    command := "zmap";
    command := AppendBasic(f, command);
    command := AppendRate(f, command);
    command := AppendProbing(f, command);
    command := AppendShard(f, command);
    command := AppendSource(f, command);
    command := AppendInterface(f, command);
    command := AppendProbe(f, command);
    command := AppendOutput(f, command);
    command := AppendLog(f, command);
    command := AppendStatus(f, command);
    command := AppendNotes(f, command);
    command := AppendTuning(f, command);
    command := AppendCores(f, command);
    ApplyGroups("zmap", Groups(f));
    if f.subnets != "" {
      command := command + (" " + f.subnets);
    }
  }

  method AppendBasic(f: Form, command: string) returns (c: string)
    ensures c == Apply(command, BasicSteps(f))
  {
    c := command;
    ghost var done := Nil;
    if f.targetPort != "" { c := c + (" -p " + f.targetPort); }
    done := done.Add(f.targetPort != "", " -p " + f.targetPort);
    assert c == Apply(command, done);
    if f.outputFile != "" { c := c + (" -o " + f.outputFile); }
    done := done.Add(f.outputFile != "", " -o " + f.outputFile);
    assert c == Apply(command, done);
    if f.blacklistFile != "" { c := c + (" -b " + f.blacklistFile); }
    done := done.Add(f.blacklistFile != "", " -b " + f.blacklistFile);
    assert c == Apply(command, done);
    if f.whitelistFile != "" { c := c + (" -w " + f.whitelistFile); }
    done := done.Add(f.whitelistFile != "", " -w " + f.whitelistFile);
    assert c == Apply(command, done);
  }

  method AppendRate(f: Form, command: string) returns (c: string)
    ensures c == Apply(command, RateSteps(f))
  {
    c := command;
    ghost var done := Nil;
    if f.rate != "" { c := c + (" -r " + f.rate); }
    done := done.Add(f.rate != "", " -r " + f.rate);
    assert c == Apply(command, done);
    if f.bandwidth != "" { c := c + (" -B " + f.bandwidth + f.bandwidthUnit); }
    done := done.Add(f.bandwidth != "", " -B " + f.bandwidth + f.bandwidthUnit);
    assert c == Apply(command, done);
    if f.maxTargets != "" { c := c + (" -n " + f.maxTargets); }
    done := done.Add(f.maxTargets != "", " -n " + f.maxTargets);
    assert c == Apply(command, done);
    if f.maxRuntime != "" { c := c + (" -t " + f.maxRuntime); }
    done := done.Add(f.maxRuntime != "", " -t " + f.maxRuntime);
    assert c == Apply(command, done);
  }

  method AppendProbing(f: Form, command: string) returns (c: string)
    ensures c == Apply(command, ProbingSteps(f))
  {
    c := command;
    ghost var done := Nil;
    if f.maxResults != "" { c := c + (" -N " + f.maxResults); }
    done := done.Add(f.maxResults != "", " -N " + f.maxResults);
    assert c == Apply(command, done);
    if f.probes != "1" { c := c + (" -P " + f.probes); }
    done := done.Add(f.probes != "1", " -P " + f.probes);
    assert c == Apply(command, done);
    if f.cooldownTime != "8" { c := c + (" -c " + f.cooldownTime); }
    done := done.Add(f.cooldownTime != "8", " -c " + f.cooldownTime);
    assert c == Apply(command, done);
    if f.seed != "" { c := c + (" -e " + f.seed); }
    done := done.Add(f.seed != "", " -e " + f.seed);
    assert c == Apply(command, done);
  }

  method AppendShard(f: Form, command: string) returns (c: string)
    ensures c == Apply(command, ShardSteps(f))
  {
    c := command;
    ghost var done := Nil;
    if f.retries != "10" { c := c + (" --retries=" + f.retries); }
    done := done.Add(f.retries != "10", " --retries=" + f.retries);
    assert c == Apply(command, done);
    if f.dryrun { c := c + " -d"; }
    done := done.Add(f.dryrun, " -d");
    assert c == Apply(command, done);
    if f.shards != "1" { c := c + (" --shards=" + f.shards); }
    done := done.Add(f.shards != "1", " --shards=" + f.shards);
    assert c == Apply(command, done);
    if f.shard != "0" || f.shards != "1" { c := c + (" --shard=" + f.shard); }
    done := done.Add(f.shard != "0" || f.shards != "1", " --shard=" + f.shard);
    assert c == Apply(command, done);
  }

  method AppendSource(f: Form, command: string) returns (c: string)
    ensures c == Apply(command, SourceSteps(f))
  {
    c := command;
    ghost var done := Nil;
    if f.sourcePort != "" { c := c + (" -s " + f.sourcePort); }
    done := done.Add(f.sourcePort != "", " -s " + f.sourcePort);
    assert c == Apply(command, done);
    if f.sourceIp != "" { c := c + (" -S " + f.sourceIp); }
    done := done.Add(f.sourceIp != "", " -S " + f.sourceIp);
    assert c == Apply(command, done);
    if f.gatewayMac != "" { c := c + (" -G " + f.gatewayMac); }
    done := done.Add(f.gatewayMac != "", " -G " + f.gatewayMac);
    assert c == Apply(command, done);
    if f.sourceMac != "" { c := c + (" --source-mac=" + f.sourceMac); }
    done := done.Add(f.sourceMac != "", " --source-mac=" + f.sourceMac);
    assert c == Apply(command, done);
  }

  method AppendInterface(f: Form, command: string) returns (c: string)
    ensures c == Apply(command, InterfaceSteps(f))
  {
    c := command;
    ghost var done := Nil;
    if f.iface != "" { c := c + (" -i " + f.iface); }
    done := done.Add(f.iface != "", " -i " + f.iface);
    assert c == Apply(command, done);
    if f.vpn { c := c + " -X"; }
    done := done.Add(f.vpn, " -X");
    assert c == Apply(command, done);
  }

  method AppendProbe(f: Form, command: string) returns (c: string)
    ensures c == Apply(command, ProbeSteps(f))
  {
    c := command;
    ghost var done := Nil;
    if f.probeModule != "tcp_synscan" { c := c + (" -M " + f.probeModule); }
    done := done.Add(f.probeModule != "tcp_synscan", " -M " + f.probeModule);
    assert c == Apply(command, done);
    if f.probeArgs != "" { c := c + (" --probe-args=\"" + f.probeArgs + "\""); }
    done := done.Add(f.probeArgs != "", " --probe-args=\"" + f.probeArgs + "\"");
    assert c == Apply(command, done);
  }

  method AppendOutput(f: Form, command: string) returns (c: string)
    ensures c == Apply(command, OutputSteps(f))
  {
    c := command;
    ghost var done := Nil;
    if f.outputFields != "" { c := c + (" -f " + f.outputFields); }
    done := done.Add(f.outputFields != "", " -f " + f.outputFields);
    assert c == Apply(command, done);
    if f.outputModule != "default" { c := c + (" -O " + f.outputModule); }
    done := done.Add(f.outputModule != "default", " -O " + f.outputModule);
    assert c == Apply(command, done);
    if f.outputArgs != "" { c := c + (" --output-args=\"" + f.outputArgs + "\""); }
    done := done.Add(f.outputArgs != "", " --output-args=\"" + f.outputArgs + "\"");
    assert c == Apply(command, done);
    if f.outputFilter != "" { c := c + (" --output-filter=\"" + f.outputFilter + "\""); }
    done := done.Add(f.outputFilter != "", " --output-filter=\"" + f.outputFilter + "\"");
    assert c == Apply(command, done);
  }

  method AppendLog(f: Form, command: string) returns (c: string)
    ensures c == Apply(command, LogSteps(f))
  {
    c := command;
    ghost var done := Nil;
    if f.verbosity != "3" { c := c + (" -v " + f.verbosity); }
    done := done.Add(f.verbosity != "3", " -v " + f.verbosity);
    assert c == Apply(command, done);
    if f.logFile != "" { c := c + (" -l " + f.logFile); }
    done := done.Add(f.logFile != "", " -l " + f.logFile);
    assert c == Apply(command, done);
    if f.logDirectory != "" { c := c + (" -L " + f.logDirectory); }
    done := done.Add(f.logDirectory != "", " -L " + f.logDirectory);
    assert c == Apply(command, done);
    if f.metadataFile != "" { c := c + (" -m " + f.metadataFile); }
    done := done.Add(f.metadataFile != "", " -m " + f.metadataFile);
    assert c == Apply(command, done);
  }

  method AppendStatus(f: Form, command: string) returns (c: string)
    ensures c == Apply(command, StatusSteps(f))
  {
    c := command;
    ghost var done := Nil;
    if f.statusUpdatesFile != "" { c := c + (" -u " + f.statusUpdatesFile); }
    done := done.Add(f.statusUpdatesFile != "", " -u " + f.statusUpdatesFile);
    assert c == Apply(command, done);
    if f.quiet { c := c + " -q"; }
    done := done.Add(f.quiet, " -q");
    assert c == Apply(command, done);
    if f.disableSyslog { c := c + " --disable-syslog"; }
    done := done.Add(f.disableSyslog, " --disable-syslog");
    assert c == Apply(command, done);
  }

  method AppendNotes(f: Form, command: string) returns (c: string)
    ensures c == Apply(command, NoteSteps(f))
  {
    c := command;
    ghost var done := Nil;
    if f.notes != "" { c := c + (" --notes=\"" + f.notes + "\""); }
    done := done.Add(f.notes != "", " --notes=\"" + f.notes + "\"");
    assert c == Apply(command, done);
    if f.userMetadata != "" { c := c + (" --user-metadata='" + f.userMetadata + "'"); }
    done := done.Add(f.userMetadata != "", " --user-metadata='" + f.userMetadata + "'");
    assert c == Apply(command, done);
  }

  method AppendTuning(f: Form, command: string) returns (c: string)
    ensures c == Apply(command, TuningSteps(f))
  {
    c := command;
    ghost var done := Nil;
    if f.configFile != "/etc/zmap/zmap.conf" { c := c + (" -C " + f.configFile); }
    done := done.Add(f.configFile != "/etc/zmap/zmap.conf", " -C " + f.configFile);
    assert c == Apply(command, done);
    if f.maxSendtoFailures != "-1" { c := c + (" --max-sendto-failures=" + f.maxSendtoFailures); }
    done := done.Add(f.maxSendtoFailures != "-1", " --max-sendto-failures=" + f.maxSendtoFailures);
    assert c == Apply(command, done);
    if f.minHitrate != "0.0" { c := c + (" --min-hitrate=" + f.minHitrate); }
    done := done.Add(f.minHitrate != "0.0", " --min-hitrate=" + f.minHitrate);
    assert c == Apply(command, done);
    if f.senderThreads != "1" { c := c + (" -T " + f.senderThreads); }
    done := done.Add(f.senderThreads != "1", " -T " + f.senderThreads);
    assert c == Apply(command, done);
  }

  method AppendCores(f: Form, command: string) returns (c: string)
    ensures c == Apply(command, CoreSteps(f))
  {
    c := command;
    ghost var done := Nil;
    if f.cores != "" { c := c + (" --cores=" + f.cores); }
    done := done.Add(f.cores != "", " --cores=" + f.cores);
    assert c == Apply(command, done);
    if f.ignoreInvalidHosts { c := c + " --ignore-invalid-hosts"; }
    done := done.Add(f.ignoreInvalidHosts, " --ignore-invalid-hosts");
    assert c == Apply(command, done);
  }

  // ---------------------------------------------------------------------------
  // What the command promises

  /** The program name, then the texts of the flags that are on, each once and in
      source order, then a space and the targets when there are any. */
  lemma CommandShape(f: Form)
    ensures Command(f) == "zmap" + Joined(Flatten(FlagSteps(f)))
                        + (if f.subnets != "" then " " + f.subnets else "")
    ensures IsPrefix("zmap", Command(f))
  {
    ApplyIsJoined("zmap", FlagSteps(f));
    ApplyExtends("zmap", FlagSteps(f).Add(f.subnets != "", " " + f.subnets));
  }

  /** Every flag whose field is set appears in the command. */
  lemma FlagAppears(f: Form, g: nat, k: nat)
    requires g < 13 && k < |Flatten(Groups(f)[g])| && Flatten(Groups(f)[g])[k].on
    ensures Contains(Command(f), Flatten(Groups(f)[g])[k].text)
  {
    PrefixContains("zmap", Groups(f), 13, g, k);
    ContainsConcat(Apply("zmap", FlagSteps(f)), if f.subnets != "" then " " + f.subnets else "",
                   Flatten(Groups(f)[g])[k].text);
  }

  /** The initial form with only the targets and the bandwidth unit changed gives
      just the program name and the targets: a field at its default adds no flag,
      and a unit without a bandwidth adds nothing. */
  lemma DefaultsAddNoFlag(subnets: string, unit: string)
    ensures Command(InitialForm().(subnets := subnets, bandwidthUnit := unit))
            == "zmap" + (if subnets != "" then " " + subnets else "")
  {
    var f := InitialForm().(subnets := subnets, bandwidthUnit := unit);
    FlattenOfFour(BasicSteps(f));
    FlattenOfFour(RateSteps(f));
    FlattenOfFour(ProbingSteps(f));
    FlattenOfFour(ShardSteps(f));
    FlattenOfFour(SourceSteps(f));
    FlattenOfTwo(InterfaceSteps(f));
    FlattenOfTwo(ProbeSteps(f));
    FlattenOfFour(OutputSteps(f));
    FlattenOfFour(LogSteps(f));
    FlattenOfThree(StatusSteps(f));
    FlattenOfTwo(NoteSteps(f));
    FlattenOfFour(TuningSteps(f));
    FlattenOfTwo(CoreSteps(f));
    PrefixOff("zmap", Groups(f), 13);
  }

  /** The guards of the flags with a condition beyond emptiness: the shard flag
      when the shard or the shard count leaves its default, the bandwidth with its
      unit, and the bare switches. */
  lemma FlagGuards(f: Form)
    ensures |Flatten(ShardSteps(f))| == 4
            && Flatten(ShardSteps(f))[3] == Step(f.shard != "0" || f.shards != "1", " --shard=" + f.shard)
            && Flatten(ShardSteps(f))[1] == Step(f.dryrun, " -d")
    ensures |Flatten(RateSteps(f))| == 4
            && Flatten(RateSteps(f))[1] == Step(f.bandwidth != "", " -B " + f.bandwidth + f.bandwidthUnit)
    ensures |Flatten(InterfaceSteps(f))| == 2 && Flatten(InterfaceSteps(f))[1] == Step(f.vpn, " -X")
    ensures |Flatten(StatusSteps(f))| == 3
            && Flatten(StatusSteps(f))[1] == Step(f.quiet, " -q")
            && Flatten(StatusSteps(f))[2] == Step(f.disableSyslog, " --disable-syslog")
    ensures |Flatten(CoreSteps(f))| == 2
            && Flatten(CoreSteps(f))[1] == Step(f.ignoreInvalidHosts, " --ignore-invalid-hosts")
  {
    FlattenOfFour(ShardSteps(f));
    FlattenOfFour(RateSteps(f));
    FlattenOfTwo(InterfaceSteps(f));
    FlattenOfThree(StatusSteps(f));
    FlattenOfTwo(CoreSteps(f));
  }

  /** A shard or shard count off its default puts the shard flag in the command,
      and a bandwidth puts itself there with its unit. */
  lemma ShardAndBandwidthAppear(f: Form)
    ensures f.shard != "0" || f.shards != "1" ==> Contains(Command(f), " --shard=" + f.shard)
    ensures f.bandwidth != "" ==> Contains(Command(f), " -B " + f.bandwidth + f.bandwidthUnit)
  {
    FlagGuards(f);
    if f.shard != "0" || f.shards != "1" {
      FlagAppears(f, 3, 3);
    }
    if f.bandwidth != "" {
      FlagAppears(f, 1, 1);
    }
  }

  /** Each switch that is on puts its bare flag in the command. */
  lemma SwitchesAppear(f: Form)
    ensures f.dryrun ==> Contains(Command(f), " -d")
    ensures f.vpn ==> Contains(Command(f), " -X")
    ensures f.quiet ==> Contains(Command(f), " -q")
    ensures f.disableSyslog ==> Contains(Command(f), " --disable-syslog")
    ensures f.ignoreInvalidHosts ==> Contains(Command(f), " --ignore-invalid-hosts")
  {
    FlagGuards(f);
    if f.dryrun { FlagAppears(f, 3, 1); }
    if f.vpn { FlagAppears(f, 5, 1); }
    if f.quiet { FlagAppears(f, 9, 1); }
    if f.disableSyslog { FlagAppears(f, 9, 2); }
    if f.ignoreInvalidHosts { FlagAppears(f, 12, 1); }
  }

  /** Probe, output and notes arguments go in double quotes, user metadata in
      single quotes. */
  lemma QuotedArguments(f: Form)
    ensures f.probeArgs != "" ==> Contains(Command(f), " --probe-args=\"" + f.probeArgs + "\"")
    ensures f.outputArgs != "" ==> Contains(Command(f), " --output-args=\"" + f.outputArgs + "\"")
    ensures f.outputFilter != "" ==> Contains(Command(f), " --output-filter=\"" + f.outputFilter + "\"")
    ensures f.notes != "" ==> Contains(Command(f), " --notes=\"" + f.notes + "\"")
    ensures f.userMetadata != "" ==> Contains(Command(f), " --user-metadata='" + f.userMetadata + "'")
  {
    FlattenOfTwo(ProbeSteps(f));
    FlattenOfFour(OutputSteps(f));
    FlattenOfTwo(NoteSteps(f));
    if f.probeArgs != "" { FlagAppears(f, 6, 1); }
    if f.outputArgs != "" { FlagAppears(f, 7, 2); }
    if f.outputFilter != "" { FlagAppears(f, 7, 3); }
    if f.notes != "" { FlagAppears(f, 10, 0); }
    if f.userMetadata != "" { FlagAppears(f, 10, 1); }
  }

  // ---------------------------------------------------------------------------
  // Starting a scan from the form

  /** A number member of the request body: left out (undefined), NaN (sent as
      null), or a number. */
  datatype NumberField = Omitted | NaN | Int(n: int)

  /** `text ? parseInt(text) : undefined` */
  function NumberOf(text: string): (r: NumberField)
    ensures r == Omitted <==> text == ""
  {
    if text == "" then Omitted
    else match ParseInt(text)
      case None => NaN
      case Some(n) => Int(n)
  }

  datatype Options = Options(
    probeArgs: string, rate: NumberField, bandwidth: Option<string>,
    iface: Option<string>, sourceIp: Option<string>, sourcePort: Option<string>)

  datatype StartRequest = StartRequest(subnet: string, port: NumberField, scanType: string, options: Options)

  datatype StartOutcome = Refused(message: string) | Send(body: StartRequest)

  /** The guards of startScan, then the body it posts. */
  function StartScan(f: Form): (r: StartOutcome)
    ensures f.subnets == "" ==> r == Refused("You must specify at least one target subnet")
    ensures f.subnets != "" && f.targetPort == "" && f.probeModule != "icmp_echo" && f.probeModule != "icmp_echoscan"
            ==> r == Refused("Target port is required for this scan type")
    ensures r.Send? <==> f.subnets != "" && (f.targetPort != "" || f.probeModule in {"icmp_echo", "icmp_echoscan"})
    ensures r.Send? ==> r.body.subnet == f.subnets && r.body.scanType == f.probeModule
                        && (r.body.port == Omitted <==> f.targetPort == "")
  {
    if f.subnets == "" then Refused("You must specify at least one target subnet")
    else if f.targetPort == "" && f.probeModule != "icmp_echo" && f.probeModule != "icmp_echoscan" then
      Refused("Target port is required for this scan type")
    else
      Send(StartRequest(
        f.subnets, NumberOf(f.targetPort), f.probeModule,
        Options(f.probeArgs, NumberOf(f.rate),
                if f.bandwidth != "" then Some(f.bandwidth + f.bandwidthUnit) else None,
                if f.iface != "" then Some(f.iface) else None,
                if f.sourceIp != "" then Some(f.sourceIp) else None,
                if f.sourcePort != "" then Some(f.sourcePort) else None)))
  }

  /** A decimal port in the form reaches the request as that number. */
  lemma DecimalPortIsSent(f: Form, port: nat)
    requires f.subnets != "" && f.targetPort == NatToString(port)
    ensures StartScan(f).Send? && StartScan(f).body.port == Int(port)
  {
    ParseIntOfIntToString(port);
  }

  /** parseInt reads a `0x` port in base 16: "0x50" is sent as port 80. */
  lemma HexPortIsSent(f: Form)
    requires f.subnets != "" && f.targetPort == "0x50"
    ensures StartScan(f).Send? && StartScan(f).body.port == Int(80)
  {
    ParseIntOfHex('x', "50");
    assert ['0', 'x'] + "50" == "0x50";
    assert HexDigitsValue("50") == 80 by {
      assert "50"[..1] == "5";
      assert "5"[..0] == "";
    }
  }
}
