/** The SDK context (lib/netzap-sdk-context.tsx): the command line built from the
    SDK configuration, the raw-output fallback that turns a plain address list
    into result records, and the scanning state that startScan and stopScan step. */
module SdkContext {
  import opened Common

  // ---------------------------------------------------------------------------
  // Configuration values

  /** A configuration value as JavaScript sees it. */
  datatype Value = Undefined | Null | Bool(b: bool) | Num(n: int) | Text(s: string) | List(items: seq<string>)

  /** The configuration object's own entries, in `Object.entries` order. */
  type Config = seq<(string, Value)>

  /** Template-literal text of a value. */
  function ValueText(v: Value): string {
    match v
    case Undefined => "undefined"
    case Null => "null"
    case Bool(b) => if b then "true" else "false"
    case Num(n) => IntToString(n)
    case Text(s) => s
    case List(items) => Join(items, ",")
  }

  predicate IsTruthy(v: Value) {
    match v
    case Undefined => false
    case Null => false
    case Bool(b) => b
    case Num(n) => n != 0
    case Text(s) => s != ""
    case List(_) => true
  }

  /** `config[key]`: the value of the entry with that key, undefined when none. */
  function Lookup(config: Config, key: string): (v: Value)
    ensures (forall i :: 0 <= i < |config| ==> config[i].0 != key) ==> v == Undefined
    decreases |config|
  {
    if config == [] then Undefined
    else if config[0].0 == key then config[0].1
    else Lookup(config[1..], key)
  }

  // ---------------------------------------------------------------------------
  // Option names: `key.replace(/([A-Z])/g, "-$1").toLowerCase()`

  predicate IsUpper(c: char) {
    'A' <= c <= 'Z'
  }

  predicate IsLower(c: char) {
    'a' <= c <= 'z'
  }

  function ToLower(c: char): (r: char)
    requires IsUpper(c)
    ensures IsLower(r)
  {
    (c as int + 32) as char
  }

  function ToUpper(c: char): (r: char)
    requires IsLower(c)
    ensures IsUpper(r)
  {
    (c as int - 32) as char
  }

  function KebabChar(c: char): string {
    if IsUpper(c) then ['-', ToLower(c)] else [c]
  }

  /** The option name of a configuration key: a dash before each capital, then
      everything in lower case. */
  function Kebab(key: string): string
    decreases |key|
  {
    if key == [] then [] else KebabChar(key[0]) + Kebab(key[1..])
  }

  /** No capital survives in an option name. */
  lemma {:induction false} KebabHasNoCapital(key: string)
    ensures forall i :: 0 <= i < |Kebab(key)| ==> !IsUpper(Kebab(key)[i])
    decreases |key|
  {
    if key != [] {
      KebabHasNoCapital(key[1..]);
      var head, tail := KebabChar(key[0]), Kebab(key[1..]);
      assert forall i :: 0 <= i < |head| ==> !IsUpper(head[i]);
      assert forall i :: |head| <= i < |head + tail| ==> (head + tail)[i] == tail[i - |head|];
    }
  }

  /** The reverse reading: a dash before a lower-case letter becomes that
      letter in upper case. */
  function Camel(name: string): string
    decreases |name|
  {
    if name == [] then []
    else if |name| >= 2 && name[0] == '-' && IsLower(name[1]) then [ToUpper(name[1])] + Camel(name[2..])
    else [name[0]] + Camel(name[1..])
  }

  /** A key without dashes is recovered from its option name. */
  lemma {:induction false} CamelKebab(key: string)
    requires '-' !in key
    ensures Camel(Kebab(key)) == key
    decreases |key|
  {
    if key != [] {
      var c := key[0];
      var rest := Kebab(key[1..]);
      CamelKebab(key[1..]);
      var name := KebabChar(c) + rest;
      if IsUpper(c) {
        assert name[0] == '-' && name[1] == ToLower(c) && name[2..] == rest;
        assert ToUpper(ToLower(c)) == c;
      } else {
        assert name[0] == c && name[1..] == rest;
      }
      assert [c] + key[1..] == key;
    }
  }

  /** A character that is neither a dash nor a lower-case letter reaches the
      option name only from the key. */
  lemma {:induction false} KebabAvoids(key: string, c: char)
    requires c !in key && c != '-' && !IsLower(c)
    ensures c !in Kebab(key)
    decreases |key|
  {
    if key != [] {
      KebabAvoids(key[1..], c);
    }
  }

  // ---------------------------------------------------------------------------
  // buildZMapCommand

  /** The flag one entry adds: nothing for a missing value, for `subnet` and for
      `false`; a bare switch for `true`; `=` and the comma-joined items for an
      array; `=` and the value's text otherwise. */
  function FlagText(key: string, v: Value): string {
    if v.Undefined? || v.Null? || key == "subnet" then ""
    else
      match v
      case Bool(b) => if b then " --" + Kebab(key) else ""
      case List(items) => " --" + Kebab(key) + "=" + Join(items, ",")
      case _ => " --" + Kebab(key) + "=" + ValueText(v)
  }

  /** The flag of each entry, entry by entry. */
  function FlagTexts(config: Config): (r: seq<string>)
    ensures |r| == |config|
    decreases |config|
  {
    if config == [] then [] else [FlagText(config[0].0, config[0].1)] + FlagTexts(config[1..])
  }

  lemma {:induction false} FlagTextsAppend(a: Config, b: Config)
    ensures FlagTexts(a + b) == FlagTexts(a) + FlagTexts(b)
    decreases |a|
  {
    if a == [] {
      assert a + b == b;
    } else {
      assert (a + b)[0] == a[0] && (a + b)[1..] == a[1..] + b;
      FlagTextsAppend(a[1..], b);
    }
  }

  /** The texts one after the other. */
  function Concat(parts: seq<string>): string
    decreases |parts|
  {
    if parts == [] then "" else Concat(parts[..|parts| - 1]) + parts[|parts| - 1]
  }

  lemma {:induction false} ConcatAppend(a: seq<string>, b: seq<string>)
    ensures Concat(a + b) == Concat(a) + Concat(b)
    decreases |b|
  {
    if b == [] {
      assert a + b == a;
    } else {
      var n := |b| - 1;
      var ab := a + b;
      assert ab[..|ab| - 1] == a + b[..n];
      assert ab[|ab| - 1] == b[n];
      ConcatAppend(a, b[..n]);
    }
  }

  /** The flags of the entries, in entry order. */
  function Flags(config: Config): string {
    Concat(FlagTexts(config))
  }

  /** The subnet as a trailing positional argument, when it is truthy. */
  function Target(config: Config): string {
    var subnet := Lookup(config, "subnet");
    if IsTruthy(subnet) then " " + ValueText(subnet) else ""
  }

  /** The command always starts with the program name. */
  function ZMapCommand(config: Config): (r: string)
    ensures |r| >= 4 && r[..4] == "zmap"
  {
    "zmap" + Flags(config) + Target(config)
  }

  method BuildZMapCommand(config: Config) returns (command: string)
    ensures command == ZMapCommand(config)
  {
    command := "zmap";
    var subnet := Lookup(config, "subnet");
    var i := 0;
    while i < |config|
      invariant 0 <= i <= |config|
      invariant command == "zmap" + Flags(config[..i])
    {
      var (key, value) := config[i];
      ghost var before := command;
      if !(value.Undefined? || value.Null? || key == "subnet") {
        var optionName := Kebab(key);
        match value
        case Bool(b) =>
          if b {
            command := command + (" --" + optionName);
          }
        case List(items) =>
          command := command + (" --" + optionName + "=" + Join(items, ","));
        case _ =>
          command := command + (" --" + optionName + "=" + ValueText(value));
      }
      assert command == before + FlagText(key, value);
      FlagsStep(config, i);
      ConcatAssoc("zmap", Flags(config[..i]), FlagText(key, value));
      i := i + 1;
    }
    assert config[..i] == config;
    if IsTruthy(subnet) {
      command := command + (" " + ValueText(subnet));
    }
  }

  lemma FlagsStep(config: Config, i: nat)
    requires i < |config|
    ensures Flags(config[..i + 1]) == Flags(config[..i]) + FlagText(config[i].0, config[i].1)
  {
    assert config[..i + 1] == config[..i] + [config[i]];
    FlagTextsAppend(config[..i], [config[i]]);
    assert FlagTexts([config[i]]) == [FlagText(config[i].0, config[i].1)] by {
      assert [config[i]][1..] == [];
    }
    ConcatAppend(FlagTexts(config[..i]), [FlagText(config[i].0, config[i].1)]);
    assert Concat([FlagText(config[i].0, config[i].1)]) == FlagText(config[i].0, config[i].1) by {
      assert [FlagText(config[i].0, config[i].1)][..0] == [];
    }
  }

  /** The flags of two runs of entries are the flags of the first, then those of
      the second. */
  lemma FlagsConcat(a: Config, b: Config)
    ensures Flags(a + b) == Flags(a) + Flags(b)
  {
    FlagTextsAppend(a, b);
    ConcatAppend(FlagTexts(a), FlagTexts(b));
  }

  /** Each entry contributes its own flag at its own place: after the flags of
      the entries before it and before those of the entries after it. */
  lemma FlagsAround(config: Config, i: nat)
    requires i < |config|
    ensures Flags(config) == Flags(config[..i]) + FlagText(config[i].0, config[i].1) + Flags(config[i + 1..])
  {
    assert config == config[..i + 1] + config[i + 1..];
    FlagsConcat(config[..i + 1], config[i + 1..]);
    FlagsStep(config, i);
  }

  /** The command starts with the program name and ends with a space and the
      subnet when the subnet is truthy. */
  lemma CommandEnds(config: Config)
    ensures IsPrefix("zmap", ZMapCommand(config))
    ensures IsTruthy(Lookup(config, "subnet")) ==>
      EndsWith(ZMapCommand(config), " " + ValueText(Lookup(config, "subnet")))
  {
    ConcatAssoc("zmap", Flags(config), Target(config));
    PrefixOfConcat("zmap", Flags(config) + Target(config));
    EndsWithConcat("zmap" + Flags(config), Target(config));
  }

  /** Every entry's flag is in the command, between the program name and the
      subnet. */
  lemma FlagInCommand(config: Config, i: nat)
    requires i < |config|
    ensures Contains(ZMapCommand(config), FlagText(config[i].0, config[i].1))
  {
    FlagsAround(config, i);
    ContainsInside("zmap", Flags(config[..i]), FlagText(config[i].0, config[i].1), Flags(config[i + 1..]), Target(config));
  }

  /** Reading a flag back: strip ` --`, split the rest at its first `=`, and
      turn the option name back into a key. */
  function SplitAtEq(s: string): (string, Option<string>)
    decreases |s|
  {
    if s == [] then ("", None)
    else if s[0] == '=' then ("", Some(s[1..]))
    else
      var (name, value) := SplitAtEq(s[1..]);
      ([s[0]] + name, value)
  }

  function ReadFlag(flag: string): Option<(string, Option<string>)> {
    if |flag| >= 3 && flag[..3] == " --" then
      var (name, value) := SplitAtEq(flag[3..]);
      Some((Camel(name), value))
    else None
  }

  lemma {:induction false} SplitAtEqNone(name: string)
    requires '=' !in name
    ensures SplitAtEq(name) == (name, None)
    decreases |name|
  {
    if name != [] {
      SplitAtEqNone(name[1..]);
      assert [name[0]] + name[1..] == name;
    }
  }

  lemma {:induction false} SplitAtEqFirst(name: string, value: string)
    requires '=' !in name
    ensures SplitAtEq(name + "=" + value) == (name, Some(value))
    decreases |name|
  {
    var s := name + "=" + value;
    if name == [] {
      assert s[0] == '=' && s[1..] == value;
    } else {
      assert s[0] == name[0] && s[1..] == name[1..] + "=" + value;
      SplitAtEqFirst(name[1..], value);
      assert [name[0]] + name[1..] == name;
    }
  }

  /** A flag carries its entry: read back, it gives the key and the value's
      text (none for a switch); an entry that adds no flag is missing, the
      subnet, or `false`. */
  lemma FlagRoundTrip(key: string, v: Value)
    requires '-' !in key && '=' !in key
    ensures FlagText(key, v) == "" <==> v.Undefined? || v.Null? || key == "subnet" || v == Bool(false)
    ensures v == Bool(true) && key != "subnet" ==> ReadFlag(FlagText(key, v)) == Some((key, None))
    ensures !v.Bool? && !v.Undefined? && !v.Null? && key != "subnet" ==>
      ReadFlag(FlagText(key, v)) == Some((key, Some(ValueText(v))))
  {
    var name := Kebab(key);
    KebabAvoids(key, '=');
    CamelKebab(key);
    if v == Bool(true) && key != "subnet" {
      assert FlagText(key, v) == " --" + name;
      assert (" --" + name)[3..] == name;
      SplitAtEqNone(name);
    }
    if !v.Bool? && !v.Undefined? && !v.Null? && key != "subnet" {
      var text := ValueText(v);
      assert FlagText(key, v) == " --" + name + "=" + text;
      assert (" --" + name + "=" + text)[3..] == name + "=" + text;
      SplitAtEqFirst(name, text);
    }
  }

  // ---------------------------------------------------------------------------
  // The raw address-list fallback (lines 206-214)

  /** A result record as the results view receives it. */
  type Record = map<string, string>

  /** `.filter(ip => ip.trim())`: a line is kept when its trim is non-empty, that
      is when it is not blank (Common.TrimBlank). */
  function NonBlank(lines: seq<string>): (r: seq<string>)
    ensures |r| <= |lines|
    ensures forall i :: 0 <= i < |r| ==> !Blank(r[i])
    decreases |lines|
  {
    if lines == [] then []
    else if !Blank(lines[0]) then [lines[0]] + NonBlank(lines[1..])
    else NonBlank(lines[1..])
  }

  function EntryOf(line: string, dport: string): Record {
    map["saddr" := Trim(line), "dport" := dport, "classification" := "synack"]
  }

  lemma EntryFields(line: string, dport: string)
    ensures var e := EntryOf(line, dport);
      && "saddr" in e && e["saddr"] == Trim(line)
      && "dport" in e && e["dport"] == dport
      && "classification" in e && e["classification"] == "synack"
  {
  }

  function EntriesOf(lines: seq<string>, dport: string): (r: seq<Record>)
    ensures |r| == |lines|
    ensures forall i :: 0 <= i < |r| ==> r[i] == EntryOf(lines[i], dport)
    decreases |lines|
  {
    if lines == [] then [] else [EntryOf(lines[0], dport)] + EntriesOf(lines[1..], dport)
  }

  /** The records made from a raw output: one per non-blank line of the trimmed
      output, in order, with the trimmed line as the address, the port's text
      and a SYN-ACK classification. */
  function Fallback(output: string, port: Value): seq<Record> {
    EntriesOf(NonBlank(Split(Trim(output), '\n')), ValueText(port))
  }

  /** A line the fallback keeps as it is: non-empty, no white space at either
      end, no line break. */
  predicate Bare(line: string) {
    line != [] && !IsWs(line[0]) && !IsWs(line[|line| - 1]) && '\n' !in line
  }

  lemma {:induction false} NonBlankKeepsAll(lines: seq<string>)
    requires forall i :: 0 <= i < |lines| ==> !Blank(lines[i])
    ensures NonBlank(lines) == lines
    decreases |lines|
  {
    if lines != [] {
      NonBlankKeepsAll(lines[1..]);
      assert [lines[0]] + lines[1..] == lines;
    }
  }

  /** The fallback reads back an address list written one per line: the
      records hold the lines as addresses, one each and in order. */
  lemma FallbackRoundTrip(lines: seq<string>, port: Value)
    requires |lines| >= 1 && forall i :: 0 <= i < |lines| ==> Bare(lines[i])
    ensures var rs := Fallback(Join(lines, "\n"), port);
      |rs| == |lines| && forall i :: 0 <= i < |rs| ==>
        "saddr" in rs[i] && rs[i]["saddr"] == lines[i] && "dport" in rs[i] && rs[i]["dport"] == ValueText(port)
  {
    FallbackOfBare(lines, port);
    forall i | 0 <= i < |lines|
      ensures var e := EntryOf(lines[i], ValueText(port));
        "saddr" in e && e["saddr"] == lines[i] && "dport" in e && e["dport"] == ValueText(port)
    {
      EntryOfBare(lines[i], ValueText(port));
    }
  }

  /** Bare lines joined by line breaks come back as they are, one record each. */
  lemma FallbackOfBare(lines: seq<string>, port: Value)
    requires |lines| >= 1 && forall i :: 0 <= i < |lines| ==> Bare(lines[i])
    ensures Fallback(Join(lines, "\n"), port) == EntriesOf(lines, ValueText(port))
  {
    JoinedBareIsTrimmed(lines);
    SplitJoin(lines, '\n');
    forall i | 0 <= i < |lines| ensures !Blank(lines[i]) {
      assert !IsWs(lines[i][0]);
    }
    NonBlankKeepsAll(lines);
  }

  lemma EntryOfBare(line: string, dport: string)
    requires Bare(line)
    ensures var e := EntryOf(line, dport);
      "saddr" in e && e["saddr"] == line && "dport" in e && e["dport"] == dport
  {
    EntryFields(line, dport);
    TrimBare(line);
  }

  /** Bare lines joined by line breaks need no trim. */
  lemma JoinedBareIsTrimmed(lines: seq<string>)
    requires |lines| >= 1 && forall i :: 0 <= i < |lines| ==> Bare(lines[i])
    ensures Trim(Join(lines, "\n")) == Join(lines, "\n")
  {
    var out := Join(lines, "\n");
    JoinEnds(lines, "\n");
    var first, last := lines[0], lines[|lines| - 1];
    assert out[0] == first[0];
    assert out[|out| - 1] == last[|last| - 1];
    TrimBare(out);
  }

  /** A non-blank output always yields at least one record: its first line opens
      with the output's first non-blank character. */
  lemma FallbackNonEmpty(output: string, port: Value)
    requires Trim(output) != ""
    ensures |Fallback(output, port)| > 0
  {
    var t := Trim(output);
    TrimStartShape(output);
    TrimEndShape(TrimStart(output));
    assert !IsWs(t[0]);
    var lines := Split(t, '\n');
    assert lines[0] != [] && lines[0][0] == t[0];
    assert !Blank(lines[0]);
    assert NonBlank(lines) != [];
  }

  // ---------------------------------------------------------------------------
  // Running a scan

  /** What the results view is given: records, or the raw execution result. */
  datatype Results =
    | Records(rows: seq<Record>)
    | Raw(success: bool, output: string, error: Option<string>, exitCode: int)

  /** The scan API's answer to the browser's request. */
  datatype ApiReply =
    | Unreachable(message: string)
    | Refused(status: nat, error: Option<string>)
    | Answered(success: bool, rawOutput: Option<string>, results: Option<seq<Record>>)

  /** The SDK's own execution, with the records its output parser found. */
  datatype ExecResult = ExecResult(success: bool, output: string, error: Option<string>, exitCode: int)

  datatype Engine = Browser(reply: ApiReply) | Direct(result: ExecResult, parsed: seq<Record>)

  datatype Run = Failed(message: string) | Finished(results: Results)

  /** The body of the request the browser posts to the scan API. */
  datatype Request = Request(subnet: Value, port: Value, scanType: Value, options: Config)

  /** `config.targetPort || 80` */
  function PortOf(config: Config): (v: Value)
    ensures IsTruthy(v)
  {
    var p := Lookup(config, "targetPort");
    if IsTruthy(p) then p else Num(80)
  }

  /** `config.probeModule || 'tcp_synscan'` */
  function ScanTypeOf(config: Config): (v: Value)
    ensures IsTruthy(v)
  {
    var m := Lookup(config, "probeModule");
    if IsTruthy(m) then m else Text("tcp_synscan")
  }

  function RequestOf(config: Config): Request {
    Request(Lookup(config, "subnet"), PortOf(config), ScanTypeOf(config), config)
  }

  /** A configuration without a port or module asks for port 80 and a TCP SYN
      scan; a truthy port or module is passed on as it is. */
  lemma RequestDefaults(config: Config)
    ensures (forall i :: 0 <= i < |config| ==> config[i].0 != "targetPort") ==> RequestOf(config).port == Num(80)
    ensures (forall i :: 0 <= i < |config| ==> config[i].0 != "probeModule") ==> RequestOf(config).scanType == Text("tcp_synscan")
    ensures IsTruthy(Lookup(config, "targetPort")) ==> RequestOf(config).port == Lookup(config, "targetPort")
    ensures IsTruthy(Lookup(config, "probeModule")) ==> RequestOf(config).scanType == Lookup(config, "probeModule")
  {
  }

  /** The browser path (lines 151-192): every failure is reported as an API scan
      failure. */
  function ApiRun(reply: ApiReply): Run {
    match reply
    case Unreachable(m) => Failed("API scan failed: " + m)
    case Refused(status, e) =>
      Failed("API scan failed: " + (if Truthy(e) then e.value else "API request failed: " + NatToString(status)))
    case Answered(success, raw, results) =>
      Finished(if results.Some? then Records(results.value) else Raw(success, raw.GetOr(""), None, 0))
  }

  /** The direct path (lines 195-226). */
  function DirectRun(result: ExecResult, parsed: seq<Record>, port: Value): Run {
    if !result.success then Failed(if Truthy(result.error) then result.error.value else "Scan failed")
    else if |parsed| == 0 && Trim(result.output) != "" then
      var fallback := Fallback(result.output, port);
      Finished(if |fallback| > 0 then Records(fallback)
               else Raw(result.success, result.output, result.error, result.exitCode))
    else Finished(Records(parsed))
  }

  /** The work of startScan once it has begun: the target check, then one of the
      two paths. */
  function RunOf(config: Config, engine: Engine): Run {
    if !IsTruthy(Lookup(config, "subnet")) then Failed("Target IP or subnet is required")
    else
      match engine
      case Browser(reply) => ApiRun(reply)
      case Direct(result, parsed) => DirectRun(result, parsed, PortOf(config))
  }

  /** The direct path never hands the view the raw result when the output has
      text: the fallback then always finds a record, so the branch that sets the
      raw result after the fallback is dead. */
  lemma DirectFallbackFindsRecords(result: ExecResult, parsed: seq<Record>, port: Value)
    requires result.success && |parsed| == 0 && Trim(result.output) != ""
    ensures DirectRun(result, parsed, port) == Finished(Records(Fallback(result.output, port)))
    ensures |Fallback(result.output, port)| > 0
  {
    FallbackNonEmpty(result.output, port);
  }

  /** A failed run reports the missing target, an API failure, or the
      execution's own error. */
  lemma FailureMessages(config: Config, engine: Engine)
    requires RunOf(config, engine).Failed?
    ensures var m := RunOf(config, engine).message;
      || (!IsTruthy(Lookup(config, "subnet")) && m == "Target IP or subnet is required")
      || (engine.Browser? && IsPrefix("API scan failed: ", m))
      || (engine.Direct? && !engine.result.success
          && m == (if Truthy(engine.result.error) then engine.result.error.value else "Scan failed"))
  {
    var m := RunOf(config, engine).message;
    if IsTruthy(Lookup(config, "subnet")) && engine.Browser? {
      var rest := m[|"API scan failed: "|..];
      assert m == "API scan failed: " + rest;
    }
  }

  /** The context's state: the SDK, the scanning flag, progress, the results and
      the command shown, and the last error. */
  class Session {
    var hasSdk: bool
    var config: Config
    var isScanning: bool
    var scanProgress: int
    var scanResults: Results
    var scanCommand: string
    var error: Option<string>

    constructor ()
      ensures !hasSdk && config == [] && !isScanning && scanProgress == 0
      ensures scanResults == Records([]) && scanCommand == "" && error == None
    {
      hasSdk := false;
      config := [];
      isScanning := false;
      scanProgress := 0;
      scanResults := Records([]);
      scanCommand := "";
      error := None;
    }

    /** The mount effect creates the SDK with an empty configuration. */
    method InitSdk()
      modifies this
      ensures hasSdk && config == []
      ensures isScanning == old(isScanning) && scanProgress == old(scanProgress)
      ensures scanResults == old(scanResults) && scanCommand == old(scanCommand) && error == old(error)
    {
      hasSdk := true;
      config := [];
    }

    /** updateConfig (lines 70-75): the SDK merges the update into its
        configuration (`merged` is what it then holds) and the command is rebuilt
        from it; without an SDK nothing changes. */
    method UpdateConfig(merged: Config)
      modifies this
      ensures old(hasSdk) ==> config == merged && scanCommand == ZMapCommand(merged)
      ensures !old(hasSdk) ==> config == old(config) && scanCommand == old(scanCommand)
      ensures hasSdk == old(hasSdk) && isScanning == old(isScanning) && scanProgress == old(scanProgress)
      ensures scanResults == old(scanResults) && error == old(error)
    {
      if hasSdk {
        config := merged;
        scanCommand := BuildZMapCommand(config);
      }
    }

    /** startScan (lines 109-272), with the engine's behaviour as a parameter.
        Returns the request posted to the scan API, if any. */
    method StartScan(engine: Engine) returns (sent: Option<Request>)
      modifies this
      ensures !old(hasSdk && scanCommand != "" && !isScanning) ==>
        && sent == None && isScanning == old(isScanning) && scanProgress == old(scanProgress)
        && scanResults == old(scanResults) && error == old(error)
      ensures old(hasSdk && scanCommand != "" && !isScanning) ==>
        && sent == (if IsTruthy(Lookup(config, "subnet")) && engine.Browser? then Some(RequestOf(config)) else None)
        && (RunOf(config, engine).Failed? ==>
              !isScanning && scanProgress == 0 && scanResults == Records([])
              && error == Some(RunOf(config, engine).message))
        && (RunOf(config, engine).Finished? ==>
              isScanning && scanProgress == 100 && scanResults == RunOf(config, engine).results && error == None)
      ensures hasSdk == old(hasSdk) && config == old(config) && scanCommand == old(scanCommand)
    {
      sent := None;
      if !hasSdk || scanCommand == "" || isScanning {
        return;
      }
      error := None;
      isScanning := true;
      scanProgress := 0;
      scanResults := Records([]);
      scanProgress := 10;
      var target := Lookup(config, "subnet");
      var port := PortOf(config);
      var scanType := ScanTypeOf(config);
      var run: Run;
      if !IsTruthy(target) {
        run := Failed("Target IP or subnet is required");
      } else {
        scanProgress := 20;
        match engine
        case Browser(reply) =>
          scanProgress := 25;
          sent := Some(Request(target, port, scanType, config));
          run := ApiRun(reply);
        case Direct(result, parsed) =>
          run := DirectRun(result, parsed, port);
      }
      match run
      case Finished(results) =>
        scanResults := results;
        scanProgress := 100;
      case Failed(message) =>
        isScanning := false;
        scanProgress := 0;
        error := Some(message);
    }

    /** The timer startScan sets on success (lines 236-238). */
    method TimerElapsed()
      modifies this`isScanning
      ensures !isScanning
    {
      isScanning := false;
    }

    /** stopScan (lines 274-284). */
    method StopScan()
      modifies this
      ensures !isScanning && scanProgress == 0 && error == None
      ensures hasSdk == old(hasSdk) && config == old(config)
      ensures scanResults == old(scanResults) && scanCommand == old(scanCommand)
    {
      isScanning := false;
      scanProgress := 0;
      error := None;
    }
  }
}
