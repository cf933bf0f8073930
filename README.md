# NetZap in Dafny

NetZap is a web console for the ZMap network scanner. It has three parts:

- **Next.js API routes.** They record a scan, call the scan engine synchronously and serve the stored results as JSON or as a CSV download.
- **An in-memory record store** (`lib/db.ts`). It holds two maps: scan id to scan record, and scan id to that scan's result list.
- **React views.** These are:
  - a configuration form that builds a `zmap` command line;
  - a console that reads the subnet, port and scan type back out of that command line and posts them to the scan API;
  - an SDK context that builds a command from a key/value configuration;
  - a results view with a search filter, column sorting and CSV export;
  - a history view with column sorting, totals and deletion.

This project models those parts and proves properties of the model. Each source file becomes one module:

| module | models |
|---|---|
| `Common` | JavaScript string helpers: truthiness, `\s`, `trim`, `split`, `join`, `includes`, decimal text, `parseInt` |
| `Order` | a total string order standing in for `localeCompare`, a stable insertion sort (`SortBy`), and the sort toggle shared by both views |
| `Db` | the record store, as the class `ScanStore` |
| `Json` | `JSON.stringify` of the flat engine configuration |
| `ScanRoute` | `POST /api/scan` |
| `ResultsRoute` | `GET /api/results` |
| `DownloadRoute`, `Csv` | `GET /api/results/download` and its CSV text |
| `ScanConfiguration` | the configuration form's command builder and its `startScan` guards |
| `SdkContext` | `buildZMapCommand`, the raw address-list fallback, and the context's `startScan` and `stopScan` |
| `NetzapInterface` | the console's command parser and its scan lifecycle |
| `ScanResults` | the results view |
| `ScanHistory` | the history view |

Imperative code is modelled imperatively:

- State the source updates in place becomes a class with `modifies` clauses: `Db.ScanStore`, `SdkContext.Session`, `NetzapInterface.Console`, and the `View` class of each of the two views.
- The `Object.entries(...).forEach` of `buildZMapCommand` is a method with a loop and its invariant (`SdkContext.BuildZMapCommand`).
- The form builder's `command +=` chain has no loop: it is a straight-line method (`ScanConfiguration.BuildCommand`) whose every step is checked against the `Steps` list.
- Both methods are proved equal to a specification function, and the properties are proved about that function.

The pure parts are functions and lemmas: filters, comparators, normalisers, estimates and the regex searches.

Two behaviours of the code worth noting:

- **hostsUp.** A completed scan's `hostsUp` is the number of normalised rows of any status (app/api/scan/route.ts:161). It overwrites the count of open rows that `saveScanResults` added. `ScanRoute.HostsUpCountsClosedRows` shows one closed host giving `hostsUp == 1`.
- **endTime.** `updateScanStatus` keeps the old `endTime` when it moves a scan back to `in-progress`, and it lets a terminal scan change status again. So "endTime is set exactly when the scan is terminal" does not hold for every sequence of store calls. `Db.Updated` states what does hold.

## Model

| member | source | states |
|---|---|---|
| Common.ParseInt | app/api/scan/route.ts:137 | parseInt without a radix: after leading white space and a sign, `0x`/`0X` and the longest hexadecimal run, otherwise the longest decimal run; None (NaN) when that run is empty; its properties are the lemmas below |
| Common.ParseIntOfPlainDigits | app/api/scan/route.ts:137 | a string of decimal digits reads as its decimal value |
| Common.ParseIntOfNegatedDigits | app/api/scan/route.ts:137 | `-` and decimal digits read as the negated value |
| Common.ParseIntOfIntToString | app/api/scan/route.ts:156 | parseInt undoes the decimal text of every integer |
| Common.ParseIntOfHex | app/api/scan/route.ts:137 | `0x` or `0X` followed by hexadecimal digits reads as their base-16 value |
| Common.ParseIntSign | app/api/scan/route.ts:137 | a `+` or `-` in front of a number that starts with neither white space nor a sign keeps or negates its value, and NaN stays NaN |
| Common.ParseIntOfBareHexMark | app/api/scan/route.ts:137 | `0x` with no hexadecimal digit after it is NaN |
| Order.SortBy | lib/db.ts:129-136 | the sorted copy is a permutation of the input, ordered by the key in the given direction (`Array.prototype.sort` with a key comparator) |
| Order.StrLeTotal | lib/db.ts:131 | the string order that stands in for `localeCompare` is total |
| Order.StrLeAntisymmetric | lib/db.ts:131 | two strings that are each at most the other are equal |
| Order.StrLeTransitive | lib/db.ts:131 | the string order is transitive |
| Order.ReverseSorted | components/scan-results.tsx:120-126 | reversing a list sorted in one direction gives a list sorted in the other |
| Order.SortedUnique | components/scan-results.tsx:116-127 | under distinct keys, two sorted permutations of one list are equal |
| Order.DescendingIsReversed | components/scan-results.tsx:120-126 | under distinct keys, the descending sort is the ascending sort reversed |
| Order.TiesKeepInputOrder | components/scan-results.tsx:120-126 | two elements with equal keys keep their input order in both directions, so descending is then not ascending reversed |
| Order.InsertWithKey | lib/db.ts:114-116 | inserting an element adds it in front of the elements that share its key, and leaves the others of every other key in order |
| Order.SortByStable | lib/db.ts:114-116 | the sort is stable: for every key, the elements with that key appear in the order of the input |
| Order.NextSort | components/scan-results.tsx:67-74 | the current field flips its direction; a new field is selected ascending |
| Order.NextSortTwice | components/scan-results.tsx:67-74 | clicking the current column twice restores the sort |
| Order.NextSortNewFieldTwice | components/scan-results.tsx:67-74 | clicking a new column twice gives that column descending |
| Db.IdNumberOfIdOf | lib/db.ts:34 | every issued id reads back as its issue number, so ids are distinct |
| Db.Updated | lib/db.ts:62-79 | the status is set; `endTime` becomes now for completed or failed and is kept for in-progress; each counter and the error change only when supplied; id, target, port, scanType, command and startTime never change |
| Db.Stamped | lib/db.ts:91-98 | one result per input, in order, each with a fresh id and the one shared timestamp |
| Db.OpenCount | lib/db.ts:106 | the number of open results is at most the batch size |
| Db.OpenCountAppend | lib/db.ts:106-107 | open counts add up over concatenated batches |
| Db.OpenCountBounds | lib/db.ts:106 | all-open batches count fully, batches with no open result count zero |
| Db.ResultOrderMeaning | lib/db.ts:129-136 | a list sorted by the result key is sorted by ip, then by port within one ip |
| Db.ScanStore.constructor | lib/db.ts:29-30 | both maps and the creation order start empty and the store is valid |
| Db.ScanStore.CreateScan | lib/db.ts:33-48 | a fresh id not in the store; status in-progress; the record and an empty result list are filed under that id, and the id is appended to the creation order (Map insertion order); nothing else changes |
| Db.ScanStore.UpdateScanStatus | lib/db.ts:51-83 | an unknown id throws "Scan with ID … not found" and changes nothing; otherwise only that record changes, to `Updated(...)`; the creation order is kept, as `Map.set` on a present key keeps its place |
| Db.ScanStore.SaveScanResults | lib/db.ts:86-110 | an empty batch is a no-op; otherwise the stamped batch is appended after the existing list of the first element's scanId, and that scan's hostsUp grows by the open count if the scan exists; the creation order is kept |
| Db.ScanStore.GetAllScans | lib/db.ts:113-117 | every stored scan exactly once, each as stored, sorted by startTime descending; scans with the same startTime come in creation order (`Map.values` order, kept by the stable sort) |
| Db.ScanStore.GetScanById | lib/db.ts:120-122 | the record filed under the id, None exactly when there is none |
| Db.ScanStore.GetScanResults | lib/db.ts:125-137 | a permutation of the stored list sorted by ip then port; `[]` for an unknown id |
| Db.ScanStore.DeleteScan | lib/db.ts:140-143 | removes the record and its result list together, whether or not the id exists; the id leaves the creation order and the other ids keep their order |
| Db.ScanStore.ResetDatabase | lib/db.ts:146-149 | both maps and the creation order become empty |
| Db.ListedAppend | lib/db.ts:44 | adding a new key at the end of the creation order keeps every stored id listed exactly once |
| Db.ListedRemove | lib/db.ts:141 | `Map.delete` removes the id from the creation order and keeps every remaining id listed once |
| Db.RemoveIdMembers | lib/db.ts:141 | removing an id keeps exactly the other ids, each once |
| Db.ListedCount | lib/db.ts:114 | the creation order has one entry per stored scan |
| Db.ValuesMembers | lib/db.ts:114 | `Map.values` in creation order holds every stored record and only stored records |
| Db.FinishedScanHasEndTime | lib/db.ts:65-67 | a created scan moved to a terminal status has its end time |
| Json.EscapeChar | app/api/scan/route.ts:91 | the JSON escape of one character is never empty, and it is one character long exactly when it is the character itself |
| Json.EscapePlain | app/api/scan/route.ts:91 | text without quotes, backslashes or control characters is written as is |
| Json.UnescapeEscape | app/api/scan/route.ts:91 | reading back an escaped string literal body gives the original text |
| Json.HexValueOfHexDigit | app/api/scan/route.ts:91 | the hex digits of `\u00XX` escapes read back as their value |
| Json.ItemLines | app/api/scan/route.ts:91 | one indented quoted line per array item, in order |
| Json.MemberLines | app/api/scan/route.ts:91 | one `"key": value` line per member, in order |
| Json.StringifyHasMember | app/api/scan/route.ts:91 | every member of the object occurs in the serialised text as its own line |
| ScanRoute.Subnets | app/api/scan/route.ts:53 | a non-empty `subnets` wins; otherwise a truthy `subnet` alone; empty exactly when neither |
| ScanRoute.FinalPort | app/api/scan/route.ts:35-56 | `target_port` when truthy, else `port`, else 80 |
| ScanRoute.FinalProbeModule | app/api/scan/route.ts:44-59 | `scanType` when truthy, else `probe_module`, else `tcp_synscan` |
| ScanRoute.EngineConfig | app/api/scan/route.ts:72-84 | eleven members in source order, with the resolved port, subnets and module |
| ScanRoute.CommandShowsModuleAndPort | app/api/scan/route.ts:87-95 | the stored command text shows the module and port that were sent |
| ScanRoute.Record | app/api/scan/route.ts:87-95 | the data `createScan` receives: the targets joined with ", ", the final port and module, the JSON command, zero counts and no end time; `CommandShowsModuleAndPort` is stated about it |
| ScanRoute.ProtocolOf | app/api/scan/route.ts:143 | `icmp` exactly for the module `icmp_echo`, `tcp` otherwise |
| ScanRoute.NormalizeEntry | app/api/scan/route.ts:134-146 | a bare address becomes (address, finalPort, open); an object takes `ip`, then `saddr`; `port`, then `parseInt(dport)`, then finalPort; `status`, else open exactly for classification synack |
| ScanRoute.Normalize | app/api/scan/route.ts:134-147 | one row per entry, in order |
| ScanRoute.DportFallback | app/api/scan/route.ts:137-138 | an entry with only `dport` gets that port when it reads as a non-zero number, finalPort otherwise, and is closed |
| ScanRoute.IpsFound | app/api/scan/route.ts:131 | `ips_found`, else `results`, else empty; a present empty array wins |
| ScanRoute.CidrHosts | app/api/scan/route.ts:155-159 | an address without `/` counts one host |
| ScanRoute.HostsEstimateAppend | app/api/scan/route.ts:154-160 | the estimate of concatenated target lists is the sum of their estimates |
| ScanRoute.HostsEstimateOfAddresses | app/api/scan/route.ts:154-160 | plain addresses count one host each |
| ScanRoute.HostsEstimate | app/api/scan/route.ts:154-160 | the `reduce` over the targets, None once a term is not a whole number; stated by `HostsEstimateAppend`, `HostsEstimateOfAddresses` and `CidrHostsOfBlock` |
| ScanRoute.CidrHostsOfBlock | app/api/scan/route.ts:155-157 | a block `addr/bits` with bits at most 32 counts 2^(32-bits) hosts |
| ScanRoute.HostsScanned | app/api/scan/route.ts:154 | `total_hosts_scanned` when truthy, the estimate otherwise |
| ScanRoute.Judge | app/api/scan/route.ts:99-131 | the call fails exactly on a thrown error, an error field or a failed status; a failure has non-empty stored and reported messages; a success carries the reported entries |
| ScanRoute.RejectedWithoutMessage | app/api/scan/route.ts:18-21 | an engine refusal without an error message fails with "Failed to perform scan" |
| ScanRoute.ResponseOf | app/api/scan/route.ts:112-180 | a failure answers 500 with the error; a success answers 200 with the scan id |
| ScanRoute.ThrownMessage | app/api/scan/route.ts:18-104 | the message of the Error the engine call throws: the network error, the refusal's error or "Failed to perform scan", "Empty response from scan service" for a falsy reply, none for an answer; `Judge` counts exactly these cases as failures |
| ScanRoute.Post | app/api/scan/route.ts:30-189 | no targets gives 400 "Target subnets are required" with the store untouched; otherwise a fresh record is created and either failed, with no rows saved, or completed after its normalised rows are saved under it; the response matches the verdict; a created record goes to the end of the creation order |
| ScanRoute.Run | app/api/scan/route.ts:86-181 | creates the record, then fails it, or saves its rows and completes it, and answers accordingly; the record goes to the end of the creation order |
| ScanRoute.Complete | app/api/scan/route.ts:150-162 | the rows land in the scan's fresh list and the scan is completed with hostsUp = number of rows; the creation order is kept |
| ScanRoute.SavedUnderScan | app/api/scan/route.ts:150 | rows tagged with the scan's id are filed in its own list |
| ScanRoute.ConcludedTerminal | app/api/scan/route.ts:97-181 | a recorded scan always ends terminal with an end time and its creation fields kept: failed with a non-empty error and zero counts, or completed with hostsUp = number of reported hosts and the hostsScanned rule |
| ScanRoute.ConcludedDownload | app/api/scan/route.ts:153-162 | the history enables the download of a recorded scan exactly when the engine call finished and reported at least one host |
| ScanRoute.Concluded | app/api/scan/route.ts:97-181 | the record after the engine call is judged: failed with the stored message at the first instant, or completed with the reported counts at the second; its properties are `ConcludedTerminal` and `ConcludedDownload` |
| ScanRoute.HostsUpCountsClosedRows | app/api/scan/route.ts:161 | one closed host leaves a completed scan with hostsUp 1 though no row is open |
| ResultsRoute.Get | app/api/results/route.ts:4-32 | no id gives 400; an unknown id gives 404; otherwise the stored record and its results sorted by ip then port, with the store untouched |
| ResultsRoute.EmptyScanIsFound | app/api/results/route.ts:26-32 | a scan without results is found with an empty list |
| DownloadRoute.Get | app/api/results/download/route.ts:4-58 | no id gives 400; an unknown id gives 404 "Scan not found"; a scan without results gives 404 "No results found for this scan"; otherwise the CSV of the sorted results named `scan-results-<id>.csv` |
| DownloadRoute.AttachmentLines | app/api/results/download/route.ts:36-50 | the attachment splits into the header and one row per stored result in ip-then-port order, results+1 lines in all |
| DownloadRoute.EndpointsDisagreeOnEmptyScan | app/api/results/download/route.ts:28-33 | for a scan without results the download refuses while the read endpoint succeeds |
| Csv.Fields | app/api/results/download/route.ts:40-46 | five fields: ip, decimal port, protocol, status, timestamp |
| Csv.Rows | app/api/results/download/route.ts:39-47 | one row per result, in order |
| Csv.ContentLines | app/api/results/download/route.ts:36-50 | split at line breaks, single-line results give the header and their rows, results+1 lines |
| Csv.Content | app/api/results/download/route.ts:36-50 | the CSV text opens with the header line; its lines are stated by `ContentLines` |
| Csv.RowFields | app/api/results/download/route.ts:40-46 | a comma-free result's row splits back into its five fields |
| Csv.CommaInAddressShiftsColumns | app/api/results/download/route.ts:40-46 | fields are not quoted: a comma in the address gives six columns |
| Csv.RowIsSingleLine | app/api/results/download/route.ts:40-46 | a result without line breaks gives a one-line row |
| Csv.JoinAvoids | app/api/results/download/route.ts:46-50 | joining parts that avoid a character with a separator that avoids it avoids it |
| ScanConfiguration.BuildCommand | components/scan-configuration.tsx:90-152 | the `command +=` chain computes `Command(f)` |
| ScanConfiguration.CommandShape | components/scan-configuration.tsx:92-152 | the command is `zmap`, the flags in source order, then ` subnets` when subnets is non-empty |
| ScanConfiguration.Command | components/scan-configuration.tsx:92-152 | the command text the builder produces; its shape is stated by `CommandShape` and the lemmas below |
| ScanConfiguration.FlagAppears | components/scan-configuration.tsx:95-149 | every flag whose guard holds occurs in the command |
| ScanConfiguration.DefaultsAddNoFlag | components/scan-configuration.tsx:29-152 | a form at its defaults adds no flag: the command is `zmap`, plus the subnets |
| ScanConfiguration.FlagGuards | components/scan-configuration.tsx:102-149 | `--shard=` is guarded by shard ≠ "0" or shards ≠ "1", `-B` by a non-empty bandwidth; the switches are guarded by their booleans |
| ScanConfiguration.ShardAndBandwidthAppear | components/scan-configuration.tsx:102-112 | those guards put `--shard=<shard>` and `-B <bandwidth><unit>` in the command |
| ScanConfiguration.SwitchesAppear | components/scan-configuration.tsx:110-149 | a true switch puts its bare flag in the command |
| ScanConfiguration.QuotedArguments | components/scan-configuration.tsx:124-141 | probe args, output args, output filter and notes are double-quoted; user metadata is single-quoted |
| ScanConfiguration.ApplyAllOff | components/scan-configuration.tsx:95-149 | steps whose guards are all off leave the command as it is |
| ScanConfiguration.ApplyContains | components/scan-configuration.tsx:95-149 | a step whose guard is on leaves its text in the result |
| ScanConfiguration.NumberOf | components/scan-configuration.tsx:234-238 | an empty field is left out of the body, exactly then |
| ScanConfiguration.StartScan | components/scan-configuration.tsx:205-245 | no subnets, or no port for a non-ICMP module, is refused with the source's message; otherwise the body has the subnets and module, and its port is left out exactly when the field is empty |
| ScanConfiguration.DecimalPortIsSent | components/scan-configuration.tsx:234 | a decimal port is sent as that number |
| ScanConfiguration.HexPortIsSent | components/scan-configuration.tsx:234 | `parseInt` reads a `0x` port in base 16: "0x50" is sent as port 80 |
| SdkContext.Lookup | lib/netzap-sdk-context.tsx:125-128 | a key without an entry reads as undefined |
| SdkContext.KebabHasNoCapital | lib/netzap-sdk-context.tsx:90 | no capital survives in an option name |
| SdkContext.CamelKebab | lib/netzap-sdk-context.tsx:90 | a key without dashes is recovered from its option name |
| SdkContext.KebabAvoids | lib/netzap-sdk-context.tsx:90 | a character that is neither a dash nor lower case reaches the option name only from the key |
| SdkContext.Kebab | lib/netzap-sdk-context.tsx:90 | `key.replace(/([A-Z])/g, "-$1").toLowerCase()` for ASCII capitals; stated by `KebabHasNoCapital`, `CamelKebab` and `KebabAvoids` |
| SdkContext.FlagText | lib/netzap-sdk-context.tsx:86-98 | the flag of one entry; stated by `FlagRoundTrip` |
| SdkContext.FlagTexts | lib/netzap-sdk-context.tsx:85-99 | one flag text per entry |
| SdkContext.FlagTextsAppend | lib/netzap-sdk-context.tsx:85-99 | the flag texts of concatenated entry lists are concatenated |
| SdkContext.BuildZMapCommand | lib/netzap-sdk-context.tsx:78-107 | the `forEach` loop computes `ZMapCommand(config)` |
| SdkContext.ZMapCommand | lib/netzap-sdk-context.tsx:78-107 | the command starts with `zmap`; the rest is stated by `CommandEnds`, `FlagInCommand` and `FlagsAround` |
| SdkContext.FlagsConcat | lib/netzap-sdk-context.tsx:85-99 | the flags of concatenated entries are concatenated |
| SdkContext.FlagsAround | lib/netzap-sdk-context.tsx:85-99 | each entry's flag sits after the flags of the entries before it and before those after it |
| SdkContext.CommandEnds | lib/netzap-sdk-context.tsx:79-104 | the command starts with `zmap` and, for a truthy subnet, ends with a space and the subnet |
| SdkContext.FlagInCommand | lib/netzap-sdk-context.tsx:85-99 | every entry's flag occurs in the command |
| SdkContext.FlagRoundTrip | lib/netzap-sdk-context.tsx:86-98 | no flag for undefined, null, false or `subnet`; `--name` for true; `--name=value` otherwise, and read back it gives the key and the value's text |
| SdkContext.NonBlank | lib/netzap-sdk-context.tsx:209 | the kept lines are non-blank and no more than the input |
| SdkContext.EntryFields | lib/netzap-sdk-context.tsx:210-214 | a record of the fallback has the trimmed line as saddr, the port text as dport, and classification synack |
| SdkContext.EntriesOf | lib/netzap-sdk-context.tsx:210-214 | one record per line, in order |
| SdkContext.NonBlankKeepsAll | lib/netzap-sdk-context.tsx:209 | non-blank lines are all kept |
| SdkContext.FallbackRoundTrip | lib/netzap-sdk-context.tsx:206-214 | an address list written one per line reads back as one record per address, in order, with the port |
| SdkContext.FallbackNonEmpty | lib/netzap-sdk-context.tsx:206-214 | non-blank output always yields a record |
| SdkContext.Fallback | lib/netzap-sdk-context.tsx:206-214 | one record per non-blank line of the trimmed output; stated by `FallbackRoundTrip` and `FallbackNonEmpty` |
| SdkContext.DirectFallbackFindsRecords | lib/netzap-sdk-context.tsx:203-226 | with text output and no parsed records the fallback records are used; the raw-result branch after it is dead |
| SdkContext.PortOf | lib/netzap-sdk-context.tsx:127 | the port asked for is always truthy |
| SdkContext.ScanTypeOf | lib/netzap-sdk-context.tsx:128 | the scan type asked for is always truthy |
| SdkContext.RequestDefaults | lib/netzap-sdk-context.tsx:125-128 | port 80 and `tcp_synscan` by default; a truthy configured value wins |
| SdkContext.FailureMessages | lib/netzap-sdk-context.tsx:130-199 | a failed run reports the missing target, an "API scan failed: " message, or the execution's error or "Scan failed" |
| SdkContext.Session.constructor | lib/netzap-sdk-context.tsx:56-61 | no SDK, not scanning, progress 0, empty results and command, no error |
| SdkContext.Session.InitSdk | lib/netzap-sdk-context.tsx:64-68 | the SDK exists with an empty configuration; nothing else changes |
| SdkContext.Session.UpdateConfig | lib/netzap-sdk-context.tsx:70-75 | with an SDK the configuration and rebuilt command are kept; without one nothing changes |
| SdkContext.Session.StartScan | lib/netzap-sdk-context.tsx:109-272 | a no-op without an SDK, without a command or while scanning; otherwise a failure stops the scan with progress 0, empty results and the message as error, and a success leaves progress 100, the run's results and no error; the request is posted only on the browser path with a target |
| SdkContext.Session.TimerElapsed | lib/netzap-sdk-context.tsx:236-238 | the delayed timer ends scanning |
| SdkContext.Session.StopScan | lib/netzap-sdk-context.tsx:274-284 | scanning off, progress 0, error cleared, nothing else changes |
| NetzapInterface.FindSubnet | components/netzap-interface.tsx:51-52 | the regex as written; see `SubnetAloneIsMissed` and `SubnetAfterWord` |
| NetzapInterface.FindSubnetCorrected | components/netzap-interface.tsx:51-52 | the regex with the token allowed straight after `zmap`; see `SubnetAloneIsFound` |
| NetzapInterface.WsRunShape | components/netzap-interface.tsx:51 | a greedy `\s+` takes the whole white-space run |
| NetzapInterface.TokenShape | components/netzap-interface.tsx:51 | a matched token has the shape `[0-9.]+/[0-9]+` and is followed by white space or the end |
| NetzapInterface.LaterTokenSpan | components/netzap-interface.tsx:51 | the lazy search captures a token that follows white space |
| NetzapInterface.LaterTokenSkips | components/netzap-interface.tsx:51 | the lazy part passes over a stretch without white space or line terminators |
| NetzapInterface.SubnetIsToken | components/netzap-interface.tsx:51-52 | whatever either search returns is a CIDR-shaped token of the command, preceded by white space and followed by white space or the end |
| NetzapInterface.SubnetAfterWord | components/netzap-interface.tsx:51-52 | `zmap <word> <d>/<n>` yields `<d>/<n>` with both searches |
| NetzapInterface.SubnetAfterWords | components/netzap-interface.tsx:51-52 | `zmap <words> <d>/<n>` yields `<d>/<n>` with both searches, for any words without `/` or line terminators and without white space at either end |
| NetzapInterface.SubnetAloneIsMissed | components/netzap-interface.tsx:51-62 | the search as written finds nothing in `zmap <d>/<n>` |
| NetzapInterface.SubnetAloneIsFound | components/netzap-interface.tsx:51-52 | the corrected search finds `<d>/<n>` in `zmap <d>/<n>` |
| NetzapInterface.SubnetOnlyForm | components/netzap-interface.tsx:51-62 | a form with only the subnet filled in builds `zmap <subnet>`; the console builds no request from it, while the corrected search would carry the subnet |
| NetzapInterface.PortFrom | components/netzap-interface.tsx:65 | a port found after `-p` is a non-empty run of digits; which run it is, is stated by `PortFromFirst` and `PortFromNone` |
| NetzapInterface.PortFromFirst | components/netzap-interface.tsx:65 | the search returns the whole digit run of the first place where `-p\s+[0-9]+` matches |
| NetzapInterface.PortFromNone | components/netzap-interface.tsx:65 | where the pattern matches nowhere, there is no port |
| NetzapInterface.FindPortAfterFlag | components/netzap-interface.tsx:65-66 | for `pre -p <white space> <digits> rest`, with no match in `pre` and `rest` not starting with a digit, the port text is those digits |
| NetzapInterface.FindPortDefault | components/netzap-interface.tsx:65-66 | a command without `-p` gets the port text "80" |
| NetzapInterface.PortIsNumber | components/netzap-interface.tsx:65-95 | the port text, found or the default "80", is digits, so `parseInt` gives its value and never NaN |
| NetzapInterface.ScanTypeOf | components/netzap-interface.tsx:69-74 | the type is one of `icmp_echo`, `udp`, `tcp_synscan` |
| NetzapInterface.EchoScanIsIcmp | components/netzap-interface.tsx:70-71 | `-M icmp_echoscan` is read as `icmp_echo`, ahead of any UDP flag |
| NetzapInterface.OtherTypesNeedModule | components/netzap-interface.tsx:69-74 | any type other than `tcp_synscan` needs a `-M ` flag in the command |
| NetzapInterface.RequestOf | components/netzap-interface.tsx:51-100 | no request exactly when the search as written finds no subnet; otherwise the subnet is that CIDR-shaped token, the port a decimal number, and the type one of three |
| NetzapInterface.RequestPort | components/netzap-interface.tsx:65-95 | the request's port is the number after `-p`, or 80 |
| NetzapInterface.RequestOfCorrected | components/netzap-interface.tsx:51-100 | the request with the corrected subnet search: none exactly when it finds no subnet; otherwise that token, the number of the port text, and the scan type |
| NetzapInterface.PortAndSubnetAreRead | components/netzap-interface.tsx:51-95 | `zmap -p 443 10.0.0.0/8` gives a request for 10.0.0.0/8 on port 443 |
| NetzapInterface.Outcome | components/netzap-interface.tsx:105-139 | success exactly for an ok reply with success; every failure is titled "Error"; the install hint, "Failed to start scan" and "Scan failed" fallbacks |
| NetzapInterface.Console.constructor | components/netzap-interface.tsx:21-26 | the initial state: no scan id, the scan tab, not scanning, progress 0, no command |
| NetzapInterface.Console.HandleCommandUpdate | components/netzap-interface.tsx:155-157 | the command becomes the form's |
| NetzapInterface.Console.StartScan | components/netzap-interface.tsx:41-101 | an empty command only raises the missing-configuration flag; no subnet found by the search as written gives the error toast, scanning off and no request; otherwise progress 0, scanning, the interval set and `RequestOf(command)` sent |
| NetzapInterface.Console.Tick | components/netzap-interface.tsx:77-84 | while the interval runs, progress rises by the increment, capped at 95 |
| NetzapInterface.Console.ScanReplied | components/netzap-interface.tsx:103-143 | the toast is `Outcome(reply)`; scanning and the interval end; only a success sets the scan id, progress 100 and the results tab |
| NetzapInterface.Console.StopScan | components/netzap-interface.tsx:146-153 | scanning off, progress 0, the stop toast |
| NetzapInterface.Console.ShowPendingToast | components/netzap-interface.tsx:30-39 | a raised flag shows the missing-configuration toast once and is lowered |
| NetzapInterface.LoneSubnetIsRefused | components/netzap-interface.tsx:41-62 | a console given the command of a form with only a subnet sends nothing and shows "Could not determine target subnet from command." |
| ScanResults.FilteredMembers | components/scan-results.tsx:108-114 | a result is kept exactly when it was fetched and the term occurs in its ip, port text, status or protocol |
| ScanResults.FilteredCounts | components/scan-results.tsx:108-114 | each kept result is kept as often as it was fetched |
| ScanResults.Matches | components/scan-results.tsx:108-114 | the search term occurs in the ip, the port's text, the status or the protocol; used by `FilteredMembers` |
| ScanResults.Filtered | components/scan-results.tsx:108-114 | keeps at most the fetched results; which ones is stated by `FilteredMembers` and `FilteredCounts` |
| ScanResults.Fetched | components/scan-results.tsx:31-54 | the list an answered request sends, and the old list when the request failed or was refused |
| ScanResults.EmptyTermKeepsAll | components/scan-results.tsx:108-114 | an empty term keeps everything, in order |
| ScanResults.Sorted | components/scan-results.tsx:116-127 | a permutation of the filtered results, sorted by the column in the direction |
| ScanResults.SortedView | components/scan-results.tsx:108-127 | the rows shown are exactly the matching results; descending is ascending reversed when the column's values are distinct |
| ScanResults.InitialOrderIsByIp | components/scan-results.tsx:27-127 | the initial view is in ip order |
| ScanResults.View.constructor | components/scan-results.tsx:24-29 | loading, no results, no term, ip ascending, the given scan id |
| ScanResults.View.Search | components/scan-results.tsx:26 | the term is replaced |
| ScanResults.View.HandleSort | components/scan-results.tsx:67-74 | the sort becomes `NextSort(sort, field)` |
| ScanResults.View.FetchResults | components/scan-results.tsx:31-56 | nothing without a selected scan; otherwise the found results replace the list, a failure keeps it and shows the error, and loading ends |
| ScanResults.View.DownloadCsv | components/scan-results.tsx:76-102 | nothing without results; otherwise the CSV of every fetched result, unfiltered and unsorted, named after the selected id |
| ScanResults.SameFileAsEndpoint | components/scan-results.tsx:31-102 | the view's export of a fetched scan has the content and name the download endpoint serves |
| ScanResults.ExportRows | components/scan-results.tsx:80-94 | the export splits into the header and one five-field row per result |
| ScanHistory.Sorted | components/scan-history.tsx:170-187 | a permutation of the history, sorted by the column in the direction |
| ScanHistory.InitialOrderIsRecentFirst | components/scan-history.tsx:52-175 | the initial view is by startTime, most recent first |
| ScanHistory.InitialOrderKeepsEndpointOrder | components/scan-history.tsx:170-175 | a list already most-recent-first, as the store lists it, is shown unchanged |
| ScanHistory.UnfinishedFirst | components/scan-history.tsx:171-174 | by end time ascending, unfinished scans come before every scan that ended after the epoch |
| ScanHistory.DescendingHistory | components/scan-history.tsx:170-187 | descending is ascending reversed when the column's values are distinct |
| ScanHistory.SortSortedIsIdentity | components/scan-history.tsx:170 | a stable sort leaves a sorted list as it is |
| ScanHistory.TotalsAppend | components/scan-history.tsx:191-192 | the totals of concatenated histories add up |
| ScanHistory.HostsScannedTotal | components/scan-history.tsx:191 | the sum of hostsScanned over the history; stated by `TotalsAppend` and `DeletionTotals` |
| ScanHistory.HostsUpTotal | components/scan-history.tsx:192 | the sum of hostsUp over the history; stated by `TotalsAppend` and `DeletionTotals` |
| ScanHistory.WithoutIdMembers | components/scan-history.tsx:124 | exactly the entries with the id go; removed and kept entries add up to the history |
| ScanHistory.WithoutId | components/scan-history.tsx:124 | keeps at most the history's entries; which ones is stated by `WithoutIdMembers` |
| ScanHistory.WithoutAbsentId | components/scan-history.tsx:124 | deleting an id that is not listed changes nothing |
| ScanHistory.DeletionTotals | components/scan-history.tsx:124-192 | the totals lose exactly the hosts of the deleted entries |
| ScanHistory.DownloadEnabled | components/scan-history.tsx:323 | the download button is enabled unless the scan is in progress or found no host |
| ScanHistory.DownloadNeedsEndedScan | components/scan-history.tsx:323 | enabled exactly for an ended (completed or failed) scan with a non-zero hostsUp |
| ScanHistory.View.constructor | components/scan-history.tsx:50-55 | loading, empty, by startTime descending, dialog closed |
| ScanHistory.View.FetchHistory | components/scan-history.tsx:57-78 | a fetched list replaces the history, a failure keeps it and shows the error, loading ends |
| ScanHistory.View.HandleSort | components/scan-history.tsx:93-100 | the sort becomes `NextSort(sort, field)` |
| ScanHistory.View.HandleDeleteClick | components/scan-history.tsx:106-109 | the scan is selected and the dialog opens |
| ScanHistory.View.ConfirmDelete | components/scan-history.tsx:111-141 | nothing without a selection; otherwise an accepted delete removes exactly that id's entries in order, the matching toast is shown, and the dialog closes and the selection clears either way |

## Left out

- HTTP and the network. The responses of `fetch` (the scan engine, the scan API, the read and delete endpoints) are parameters of the operations. `NextResponse` and JSON parsing of bodies are not modelled.
- The foreign SDK. `ZMap`, `setConfig`, `execute` and `parseZMapOutput` are not part of this model. The merged configuration, the execution result and the parsed records are parameters.
- `uuidv4()` and `new Date()`: a counter of issued ids and instant parameters take their place.
- Timestamps are integers (milliseconds). Their ISO text is replaced by decimal text, so `Date` parsing in the history comparator is not modelled.
- `localeCompare`: modelled as the lexicographic order on characters, a total order. The locale's collation is not modelled.
- `Object.entries` order: the configuration is the list of its entries in enumeration order. The rule that puts integer-like keys first is not modelled.
- `toLowerCase` is modelled for ASCII capitals only.
- Floating point:
  - `Math.pow` of a prefix over 32, or of a NaN prefix, gives None in `ScanRoute.CidrHosts` instead of a fraction or NaN. When the engine reports no `total_hosts_scanned`, the whole estimate is then None, `Db.Updated` keeps the old `hostsScanned`, and a completed scan keeps `hostsScanned` 0 (the `.GetOr(0)` of `ScanRoute.ConcludedTerminal`). For the target "10.0.0.0/33" the source stores 0.5, from `Math.pow(2, -1)`;
  - the console's random progress increment is a parameter below 3;
  - `totalScanTime` (components/scan-history.tsx:193-197) is not modelled.
- `Scan.port` is an integer. An explicit `null` for `port` in the request body skips the default of 80 and would store a null port; that case is not modelled.
- Timers and React plumbing: `setInterval`, `setTimeout`, effects, toasts as side effects, `router.push`, the DOM download link and rendering. Toasts are returned as values. The 500 ms timer is `SdkContext.Session.TimerElapsed`.
- NetzapInterface.Console.StartScan: the await in the middle of the source's `startScan` is split into `StartScan`, up to the request, and `ScanReplied`, after the reply. Interleavings with other events between the two are not modelled.
- The history view's polling (components/scan-history.tsx:80-91) is not modelled. Its interval callback reads the history of the first render, which is always empty, so it never fetches again.
- The stale `resultCount` read and the "Scan completed" toast in lib/netzap-sdk-context.tsx:241-252, and the reply toasts and navigation after the form's request (components/scan-configuration.tsx:248-274).
- The delete request of the history view is its outcome, a boolean. The `/api/scans` and `/api/scans/[id]` routes only wrap `getAllScans` and `deleteScan`, which are modelled.
- The blocklist, test and modules routes of the scan API, the dashboard, network map, settings, sidebar, command preview and page components: proxies, drawing or static UI.
- Concurrency: every operation runs to completion before the next one starts.
- ScanResults.SortedView: descending is proved to be ascending reversed only when the column's values are distinct. With ties the stable sort keeps input order both ways (`Order.TiesKeepInputOrder`).
- ScanHistory.DescendingHistory: the same restriction to distinct column values as for the results view.
- ScanRoute.NormalizeEntry: an object entry with a falsy `ip` and no `saddr` gets the address "" where the source stores `undefined`. The `localeCompare` in `getScanResults` (lib/db.ts:131) would throw on that row, and the model does not capture that throw.
- ScanRoute.NormalizeEntry: a `null` entry cannot be written as an `Entry`. In the source, reading its `ip` throws and the scan is recorded as failed with that message.
- Common.ParseInt: the value is an exact integer. The rounding of digits beyond double precision is not modelled, nor is `-0`.
- ScanRoute.CidrHosts: its contract only fixes the count of a plain address. The count of a block is stated by `ScanRoute.CidrHostsOfBlock`, for prefix text that reads as a number of at most 32.

## Findings

| source | as written | input that shows it | evidently intended | confidence | as-written member | corrected member |
|---|---|---|---|---|---|---|
| components/netzap-interface.tsx:51 | `/zmap\s+.*?\s+([0-9\.]+\/[0-9]+)(\s|$)/` needs another word between `zmap` and the subnet | the command `zmap 10.0.0.0/8`, which the configuration form builds when only the subnet is filled in: Start Scan reports "Could not determine target subnet from command." (`NetzapInterface.LoneSubnetIsRefused`) | the subnet may be the first word after `zmap`: `/zmap\s+(?:.*?\s+)?([0-9\.]+\/[0-9]+)(\s|$)/`; `NetzapInterface.RequestOfCorrected` builds the request with it | high (not executed) | NetzapInterface.SubnetAloneIsMissed | NetzapInterface.SubnetAloneIsFound |
