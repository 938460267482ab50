# go-ios telemetry decode and instruments layer, in Dafny

This project models the part of go-ios that sits on top of the DTX message
client and talks to the on-device instruments daemon. It covers:

- the **Invoke/Call contract** of `InstrumentsClient`. The DTX client is an abstract
  state: a message-id counter, the messages sent, the ids awaited, a reply table,
  a channel table and the registered callbacks.
- the **instruments façade**:
  - `call` and the sampling controls;
  - `AppLaunch`, `AppKill`, `AppList` and `AppRunningProcesses`, with best-effort list decoding;
  - the two-step `getPidByBundleId`.
- the **sysmontap sampling configuration** (`GenerateDefaultConfig` and the attribute lists).
- the **sample decoders** `parseProcessData` and `parseSystemData`:
  - the swap of the system and process elements;
  - the decimal-pid lookup and the positional attribute zip;
  - the strict-maximum choice of the latest system element;
  - the conversion from pages to bytes.
- the **profiler lifecycle**:
  - `Start` issues the device-side controls and registers the callback;
  - `Stop` cancels;
  - each unsolicited event is either decoded or, after cancellation, answered with the stop control.
- the **device façade**:
  - the `GetValue` lockdown session bracket and the memoised sub-service accessors;
  - the `Images` default and the mount request;
  - the `NewConnect` failure clean-up.
- **developer-image resolution** in `controller/mount.go`:
  - version aliases, download URLs and the application directory;
  - the version gate, the cached-zip check and the download loop;
  - the choice of zip entries and the mount decision.
- **device selection** in `controller/device.go`.

Go's behaviour is written out where it matters:
- a failed type assertion, an out-of-range index or a nil dereference is a `Panic` error or an `Emitted.panic`;
- a missing map key reads as nil;
- `int64` arithmetic wraps (`Values.Wrap64`);
- integer division truncates toward zero (`Values.GoDiv`);
- `strconv.Itoa` is `Values.DecimalString`.

Channel sends become appends to an output sequence. Each reading of the clock, the file system, HTTP, zip archives, usbmux and lockdown replies are parameters of the operations: outcome records and oracle functions.

Modules: `Wrappers`, `Values` (with `Errors`), `Dtx`, `Instruments`, `SampleConfig`,
`SampleDecode`, `Profilers`, `DeviceFacade`, `ImageMount`, `DeviceSelection`.

Where the code does not do what its names suggest, the model follows the code:
- `NewConnect` does not look at the usbmux acknowledgement's status; any reply counts as success.
- A profiler's `Stop` only cancels. The device-side stop control is issued by the next event that arrives.
- The process and system decoders, as they stand, are called with two arguments and read fields the profiler struct lacks. They are modelled as the evidently intended functions of (options, pid, time, payload) that return the records sent.

## Model

| member | source | states |
|---|---|---|
| Dtx.RequestChannel | pkg/libimobiledevice/instruments.go:24-26 | A channel id is returned exactly for a service the device publishes; any other name is refused with that name. |
| Dtx.Send | pkg/libimobiledevice/instruments.go:29-32 | A send succeeds iff the connection is writable. It returns the current message id, advances the counter by one and records the message; a failed send changes nothing. |
| Dtx.GetResult | pkg/libimobiledevice/instruments.go:33-37 | A wait is recorded for the given id. It yields the reply stored for exactly that id, and fails with that id when none exists. |
| Dtx.Invoke | pkg/libimobiledevice/instruments.go:28-39 | A send failure returns the error and awaits nothing. With expectsReply, the result is the reply for the id the send returned. Without it, a successful send returns a nil result and awaits nothing. Replies, channels and callbacks are untouched. |
| Dtx.AppendObjects | pkg/libimobiledevice/instruments.go:52-57 | Arguments are appended in order. The append fails iff some argument cannot be encoded, and the error names such an argument. |
| Dtx.Call | pkg/libimobiledevice/instruments.go:45-58 | An unknown channel aborts before any send, and so does an argument that fails to encode; the client is left unchanged in both cases. Otherwise it is an Invoke on the channel's id with expectsReply true. |
| Dtx.RegisterCallback | pkg/libimobiledevice/instruments.go:41-43 | The selector is bound to the new handler and replaces any earlier one. Other selectors and the rest of the client are unchanged. |
| Dtx.InvokePreservesWellFormed | pkg/libimobiledevice/instruments.go:28-39 | Message ids of sent messages stay strictly increasing and below the counter across any invoke. |
| Dtx.InvokesCorrelateByMessageId | pkg/libimobiledevice/instruments.go:33-37 | Two consecutive reply-expecting invokes receive the replies for their own consecutive ids, in that order. |
| Instruments.CallService | service/instruments.go:315-331 | `call` fails without sending on an unknown channel or an unencodable argument. Otherwise it sends the auxiliaries in the given order on the channel's id and expects a reply. |
| Instruments.CallServiceIsClientCall | service/instruments.go:315-331 | The façade's `call` is the same exchange as the client's `Call`. |
| Instruments.ApplyLaunchOptionsInOrder | service/instruments.go:51-53 | Launch options compose left to right: applying a + b is applying a, then b. |
| Instruments.LaunchArgs | service/instruments.go:55-77 | There are exactly five launch arguments: the app path, the bundle id, the environment, the arguments and the options map, in that order. |
| Instruments.LaunchReply | service/instruments.go:85-89 | An NSError reply becomes an error carrying its NSLocalizedDescription. An integer reply in range is the pid. |
| Instruments.AppLaunch | service/instruments.go:44-90 | A refused process-control channel fails. An argument the encoder refuses, or an unwritable connection, fails with nothing sent. Otherwise it sends the launch selector with the option-applied arguments under the next message id, and the reply for that id decides the pid or the error. |
| Instruments.AppLaunchDefaults | service/instruments.go:45-50 | With no options, the path is empty and both StartSuspendedKey and KillExisting are 0. |
| Instruments.AppKill | service/instruments.go:134-151 | The kill is sent on process control with the pid and expectsReply false. No reply is awaited. |
| Instruments.DecodeBestEffort | service/instruments.go:170-188 | A non-map element is a failed type assertion. Otherwise elements that fail to decode are skipped, and the output is never longer than the input. |
| Instruments.DecodeBestEffortCons | service/instruments.go:170-188 | A decodable head element comes first in the output, and an undecodable head is dropped. |
| Instruments.DecodeBestEffortAppend | service/instruments.go:170-188 | Decoding a concatenation decodes each part and keeps their order. |
| Instruments.DecodeBestEffortKeepsAll | service/instruments.go:170-188 | When every element decodes, the output is the decoded list, position by position. |
| Instruments.DecodeBestEffortSound | service/instruments.go:225-242 | Every output element is the decoding of some input map, so nothing is invented. |
| Instruments.DecodeListReply | service/instruments.go:165-169 | A reply that is not a list is a panic. A list reply is decoded best-effort. |
| Instruments.AppRunningProcesses | service/instruments.go:153-191 | Uses the deviceinfo channel and `runningProcesses`; the reply is decoded best-effort. A refused channel or an unwritable connection fails with nothing sent. A missing reply is the call's error. |
| Instruments.AppList | service/instruments.go:193-245 | Uses the application-listing channel with the option-applied matching map and update token; the reply is decoded best-effort. A refused channel, an argument the encoder refuses, or an unwritable connection fails with nothing sent. A missing reply is the call's error. |
| Instruments.FirstIndex | service/instruments.go:411-416 | Returns the first index satisfying the predicate, or none iff no element does. |
| Instruments.ExecutableNameOf | service/instruments.go:411-416 | Returns the executable name of the first app with the bundle id, or "" when there is none. |
| Instruments.GetPidByBundleId | service/instruments.go:404-435 | An app-list failure gives pid 0 with the error; any other failure gives -1. Success returns the pid of the first running process named after the app's executable. Conversely, a listed app with a running process of that name is found without error. |
| Instruments.GetPidNotRunning | service/instruments.go:422-434 | An app that is listed but not running yields -1 and an error. |
| Instruments.StopMatchesStart | service/instruments.go:437-473 | Each stop control addresses the same service channel as its start control. |
| Instruments.GraphicSampleRateScaled | service/instruments.go:389-393 | `SetGraphicSampleRate(r)` sends r/100, truncated toward zero, on the opengl channel. |
| SampleConfig.GenerateDefaultConfig | service/profiler.go:161-203 | The loop builds exactly the configuration map of the option list, whatever the pid. |
| SampleConfig.DefaultConfigConstants | service/profiler.go:178-183 | bm=0, cpuUsage=true, ur=1000 and a one-second sampleInterval are present whatever the options, and procAttrs starts with "pid". |
| SampleConfig.ExtrasAppend | service/profiler.go:187-199 | Attributes accumulate in option order: the lists for a + b are those for a followed by those for b. |
| SampleConfig.AttrsSnoc | service/profiler.go:187-199 | One more option extends each list by exactly that option's contribution. |
| SampleConfig.ContributionCases | service/profiler.go:187-199 | Lists what each option contributes: disk and network only to sysAttrs; cpu only to procAttrs; memory to both; anything else nothing. |
| SampleConfig.AttributeCounts | service/profiler.go:184-250 | \|procAttrs\| = 1 + 4·#cpu + 3·#memory and \|sysAttrs\| = 4·#disk + 4·#network + 10·#memory. |
| SampleConfig.OnlyPidWithoutCpuOrMemory | service/profiler.go:184-200 | With no "cpu" or "memory" option, procAttrs is exactly ["pid"]. |
| SampleConfig.CpuOptionAppends | service/profiler.go:192-194 | "cpu" appends cpuUsage, ctxSwitch, intWakeups and physFootprint to procAttrs and leaves sysAttrs unchanged. |
| SampleConfig.MemoryOptionAppends | service/profiler.go:195-197 | "memory" appends the ten vm/phys names to sysAttrs and memVirtualSize, memResidentSize, memAnon to procAttrs. |
| SampleConfig.DiskAndNetworkOptionsAppend | service/profiler.go:188-191 | "disk" and "network" extend only sysAttrs, each by its four names. |
| SampleConfig.UnknownOptionIgnored | service/profiler.go:187-199 | An unrecognised option leaves the configuration unchanged. |
| SampleDecode.Zip | service/device.go:1103-1106 | The keys are exactly the attribute names. Each name maps to the vector entry at its position, with the last occurrence winning for a repeated name. |
| SampleDecode.Convert | service/device.go:1170-1172 | Converts the first n vector entries with convert2Int64, position by position. |
| SampleDecode.ProcessElement | service/device.go:1083-1087 | The process element is the second one if the first has a "System" key, else the first. |
| SampleDecode.ParseProcessData | service/device.go:1073-1107 | Exactly one process record is sent, with the given pid and time, even on a panic; then it is bare. Without a panic it carries either the not-found message or proc_perf keyed by the configured names. |
| SampleDecode.ProcessDataSwapDetection | service/device.go:1085-1087 | The order of the system and process elements does not change the record. |
| SampleDecode.ProcessNotFound | service/device.go:1090-1101 | For any process element that holds "Processes" among other keys, and any elements after it: with no entry keyed by the decimal pid, the record carries "process <pid> not found" and no proc_perf. |
| SampleDecode.ProcessAttributesPositional | service/device.go:1103-1107 | For any process element holding "Processes" and any trailing elements, proc_perf maps each configured name to the vector entry at its position. |
| SampleDecode.ProcessDataDependsOnlyOnOwnEntry | service/device.go:1091-1096 | Only the pid's own entry matters. Other pids' entries, the process element's other keys and the elements after the first two do not influence the record. |
| SampleDecode.ShortVectorPanics | service/device.go:1104-1105 | For any process element holding "Processes" and any trailing elements, a vector shorter than the attribute list is an index panic, and the bare record is still sent. |
| SampleDecode.SelectLatest | service/device.go:1121-1128 | The chosen element is the first with SystemCPUUsage and a strictly maximal EndMachAbsTime > 0. None means no candidate has a positive time. A non-uint64 time on a candidate panics. |
| SampleDecode.CpuRecord | service/device.go:1152-1165 | sys_cpu is built iff SystemCPUUsage is a map with the four float loads. Each of the nice, system, total and user loads is copied from its key. |
| SampleDecode.SystemAttributes | service/device.go:1168-1172 | Succeeds iff "System" is a list at least as long as the configured names. The map has exactly those names, each converted from its positional entry. |
| SampleDecode.Tags | service/device.go:1156-1210 | The tags are the records' types, position by position. |
| SampleDecode.TagsAppend | service/device.go:1156-1210 | Tags distribute over concatenation. |
| SampleDecode.AttributeRecordsTags | service/device.go:1174-1215 | sys_mem, sys_disk and sys_network records appear as configured and in that order, all stamped with the sample time. |
| SampleDecode.DecodeSelected | service/device.go:1152-1215 | Without a panic, the records are those configured, in the order cpu, mem, disk, network. The first is the CpuRecord of the element. The mem, disk and network records are MemRecord, DiskRecord and NetworkRecord of the "System" vector zipped with the configured names. A panic leaves at most the sys_cpu record that was already sent. |
| SampleDecode.Assemble | service/device.go:1152-1215 | The emission order once the element is read. The cpu record goes first when wanted, and a cpu failure stops before anything is sent. An attribute failure leaves only the cpu record. Otherwise the mem, disk and network records follow at their positions. |
| SampleDecode.AttributeRecordsAt | service/device.go:1174-1215 | Behind an optional sys_cpu record, the mem, disk and network records sit at their positions, tagged as wanted and stamped with the time. |
| SampleDecode.ParseSystemData | service/device.go:1117-1215 | Without a selected element, nothing is sent and the call panics (the type assertion on a read of the nil map). Otherwise it decodes the selected element, never emits a process record, and stamps every record with the sample time. |
| SampleDecode.LatestElementWins | service/device.go:1124-1126 | An element with a strictly later EndMachAbsTime supersedes an earlier one. |
| SampleDecode.TiesKeepTheFirst | service/device.go:1124 | A tie keeps the first element, because the comparison is strict. |
| SampleDecode.NonCandidatesIgnored | service/device.go:1123-1124 | Elements without SystemCPUUsage or EndMachAbsTime are skipped. |
| SampleDecode.MemoryConversionExact | service/device.go:1175-1183 | With 16384-byte pages: app=(int−purgeable)·16384, cached=(ext+purgeable)·16384, used=(used−ext)·16384, free=free·16384, and swap unscaled. |
| SampleDecode.FreeMemoryExample | service/device.go:1183 | vmFreeCount 100 gives 1,638,400 bytes free. |
| SampleDecode.UnconfiguredMemoryReadsZero | service/device.go:1177-1183 | Attributes that were not configured read as 0. |
| Profilers.NewProfiler | service/profiler.go:44-53 | A new profiler has no cancel function, is not cancelled and has sent nothing. |
| Profilers.StartControls | service/profiler.go:55-63 | Each kind issues two controls, configure then start. Cpu/memory sends its config then starts sampling; network sends its config then starts; graphics sets rate 1000 then starts. |
| Profilers.Start | service/profiler.go:55-89 | If either control fails, the error is returned and nothing is registered. Otherwise the kind's handler is registered for "" and a cancel function is set. |
| Profilers.Stop | service/profiler.go:91-95 | Stop marks the profiler cancelled iff it has a cancel function; otherwise it does nothing. |
| Profilers.DecodeSample | service/profiler.go:273-282 | A payload that is not a list, or has fewer than two elements, is ignored. With pid≠0 the process records come first, then the system records; with pid=0 only system records. The process decoder is given its own clock reading and the system decoder another, as the two separate `time.Now()` calls in the decoders. |
| Profilers.OnEvent | service/profiler.go:69-283 | A cancelled profiler issues its stop control and sends nothing. Otherwise the client is untouched and the output only grows. Network and graphics forward map payloads only. Cpu/memory appends every record DecodeSample yields, in order, and reports its panic. |
| Profilers.StopBeforeStartIsNoop | service/profiler.go:290-294 | Stop before Start leaves the profiler unchanged. |
| Profilers.StoppedProfilerSendsStop | service/profiler.go:269-271 | After Start and Stop, the next event sends the stop control and decodes nothing. |
| Profilers.ShortPayloadIgnored | service/profiler.go:273-276 | A short or non-list payload leaves profiler and client unchanged. |
| Profilers.DecodeSampleProcessFirst | service/profiler.go:277-279 | With a pid, exactly the first record is the process record, stamped with the process decoder's clock reading; every later record carries the system decoder's reading. |
| Profilers.ProcessRecordFirst | service/profiler.go:277-279 | An event for a pid appends exactly one process record, ahead of the system records. |
| Profilers.NoPidNoProcessRecord | service/profiler.go:280-281 | With pid 0, no process record is ever appended, and every appended record carries the system decoder's clock reading. |
| Profilers.GraphicStartSequence | service/profiler.go:108-117 | Graphics start sends setSamplingRate: 10 and then startSamplingAtTimeInterval: 0. |
| Profilers.Deliver | service/instruments.go:333-335 | Without a handler for "" nothing changes. The handler bound to "" gets the event: its profiler and the client become OnEvent's, a cpu/memory panic is the failure, and the other profilers are unchanged. |
| Profilers.LastStartedProfilerReceives | service/profiler.go:69-122 | When network and then graphics profilers both start successfully on one client, the graphics handler holds the "" selector. A delivered message then leaves the network profiler's output empty. |
| DeviceFacade.LockdownService | service/device.go:165-179 | Every call opens a new lockdown connection. It succeeds iff the connection and the product-version query both do. |
| DeviceFacade.GetValue | service/device.go:188-205 | Opens a fresh lockdown connection and leaves the service handles alone. A value comes back iff connect, handshake (when needed), start session and query all succeed, and it is the device's value for (domain, key). The error is absent iff the value came back and stop session succeeded. |
| DeviceFacade.GetValueStopsExactlyWhenAnswered | service/device.go:188-205 | Stop session is sent iff a value came back. The handshake is sent only when the lockdown holds no pair record. |
| DeviceFacade.GetValueBracket | service/device.go:188-205 | The successful session is open, [handshake], start, query, stop, in that order. |
| DeviceFacade.GetValueQueryErrorSkipsStop | service/device.go:200-202 | A query error returns without calling stop session. |
| DeviceFacade.Service | service/device.go:214-226 | A memoised accessor with a cached handle returns it without opening lockdown. Otherwise it opens lockdown, starts the service, and stores a fresh handle on success. |
| DeviceFacade.MemoisedServiceReused | service/device.go:215-217 | A second access of a memoised service returns the same handle and does nothing else. |
| DeviceFacade.PcapdNotReused | service/device.go:558-570 | pcapd is started afresh on every access. |
| DeviceFacade.LockdownNotMemoised | service/device.go:165-168 | Two lockdown requests open two connections. |
| DeviceFacade.ImageType | service/device.go:232-235 | The image type is the first argument, or "Developer" when there is none. |
| DeviceFacade.Images | service/device.go:228-236 | Fails with the accessor's error. Otherwise it looks up the chosen image type. |
| DeviceFacade.ImagesDefaultsToDeveloper | service/device.go:232-234 | Images() is Images("Developer"), and only the first argument matters. |
| DeviceFacade.MountRequestFor | service/device.go:238-244 | Uploads as "Developer" to the fixed staging path with the given dmg and signature paths. |
| DeviceFacade.NewConnect | service/device.go:62-87 | Succeeds iff client, packet, send and reply all succeed. The socket is closed exactly when it was opened and a later step failed. |
| DeviceFacade.NewConnectIgnoresAckStatus | service/device.go:80-86 | The content of the acknowledgement does not affect the outcome. |
| ImageMount.Index | controller/mount.go:30 | `strings.Index`: the first occurrence, or none iff the string never occurs. |
| ImageMount.ReplaceFirst | controller/mount.go:144 | Replaces the first occurrence only; without one, the string is unchanged. |
| ImageMount.Join | controller/mount.go:61-101 | Empty elements are dropped, and the trailing separators of the base are collapsed. |
| ImageMount.ResolveVersion | controller/mount.go:18-41 | 12.5→12.4 and 15.8→15.5; every other version is unchanged. |
| ImageMount.ImageUrls | controller/mount.go:138-147 | Exactly two URLs: the GitHub origin for the version, then the same string with its host replaced. |
| ImageMount.MirrorUrlSwapsHost | controller/mount.go:144-145 | The mirror is `https://tool.appetizer.io/JinjunHan/iOSDeviceSupport/raw/master/iOSDeviceSupport/<v>.zip` for every version. |
| ImageMount.AppDir | controller/mount.go:149-161 | home/.GOS, with p joined on only when it is non-empty. |
| ImageMount.AppDirLayout | controller/mount.go:155-159 | For a plain home directory, the result is `<home>/.GOS/<p>`. |
| ImageMount.CorrectedGateRejects17 | controller/mount.go:30-31 | The corrected gate rejects exactly the versions that start with "17.". |
| ImageMount.AsWrittenGateAdmits17 | controller/mount.go:30-31 | As written, no version starting with "17." is rejected. |
| ImageMount.AsWrittenGateExample | controller/mount.go:30-31 | "17.0" passes the gate as written and is rejected by the corrected gate. |
| ImageMount.CheckZipFile | controller/mount.go:122-136 | A missing file is false and a valid zip is true. As written, an existing non-zip file panics; corrected, it is false. |
| ImageMount.TryUrls | controller/mount.go:198-205 | The URLs are tried in order, and the first deciding download settles the result. As written, any retrieved file that exists decides: a valid zip gives the zip path and a non-zip panics. Corrected, only a valid zip decides. Without a deciding download the result is "". Corrected, the zip path is returned iff some URL delivered a valid zip. |
| ImageMount.DownloadImage | controller/mount.go:193-208 | As written, a valid cache gives "", a corrupt cache panics, and a missing cache goes to the URLs. Corrected, only a non-valid cache goes to the URLs, and the zip path comes back iff the cache is valid or one of the two URLs delivers a valid zip. |
| ImageMount.AsWrittenDownloadLosesCache | controller/mount.go:197-207 | As written, a valid cached zip yields ""; corrected, it yields the cached path. |
| ImageMount.AsWrittenCorruptCachePanics | controller/mount.go:124-135 | As written, a corrupt cached zip panics; corrected, the zip is downloaded again. |
| ImageMount.SelectEntries | controller/mount.go:60-98 | The dmg path is set iff some non-directory entry named exactly `<v>/DeveloperDiskImage.dmg` opens and is created, and likewise for the signature. A failed copy still sets the path. |
| ImageMount.OnlyExactNamesSelected | controller/mount.go:67 | An entry with any other name sets neither path. |
| ImageMount.ResolveImage | controller/mount.go:42-101 | A local image gives the two paths in the version directory. Otherwise a download panic propagates, and a download result of "" is the error "can't find properties image". A zip that does not open is "can't open zip file <path>". An open zip yields the paths selected from its entries. |
| ImageMount.Mount | controller/mount.go:23-112 | A device-info error is returned, and a gated version is refused. An already listed image is success without mounting. Past those, an image error is returned. With both paths, a mount is attempted: its error is returned, or Mounted with the two paths. A missing path gives a silent nil. |
| ImageMount.MountNeedsBothPaths | controller/mount.go:103-109 | A zip without a usable signature entry ends in a silent nil with no mount. |
| ImageMount.CorrectedMountUsesCache | controller/mount.go:195-207 | A valid cached zip with both files is mounted from the unpacked paths under the corrected build. As written, it fails with "can't find properties image". |
| DeviceSelection.FirstWithUdid | controller/device.go:24-29 | Returns the first position with the UDID, or none iff no device has it. |
| DeviceSelection.GetDeviceList | controller/device.go:10-34 | An enumeration error or an empty list is fatal. "" selects devices[0]; otherwise the first device with the UDID is selected, or the previous selection is kept. The list is returned unchanged. |
| DeviceSelection.SetupDevice | controller/device.go:36-40 | If a device with this UDID is selected, the selection is kept without enumerating. Otherwise it re-enumerates, and that fails iff the enumeration fails or is empty. |
| DeviceSelection.SetupSelectsFirstMatch | controller/device.go:24-29 | The selection is the first device with the requested UDID. |
| DeviceSelection.SetupIdempotent | controller/device.go:37-39 | Once selected, a second setup with the same UDID does not enumerate. |
| DeviceSelection.EmptyUdidSelectsFirst | controller/device.go:21-39 | "" re-enumerates and selects the first device whenever the current device has a UDID. |
| DeviceSelection.UnknownUdidKeepsSelection | controller/device.go:24-31 | A UDID no device has leaves the previous selection, possibly none. |
| Values.DecimalString | service/device.go:1092 | `strconv.Itoa`: a leading '-' exactly for negative numbers, then at least one digit, with no leading zero except for 0 itself. |
| Values.DecimalRoundTrip | service/device.go:1092 | Parsing the decimal string gives back the number. |
| Values.DecimalInjective | service/device.go:1092 | Distinct pids have distinct keys. |
| Values.Wrap64 | service/device.go:1177-1183 | int64 arithmetic wraps: the result is congruent to the exact value modulo 2^64 and lies in the int64 range; values in range are unchanged. |
| Values.AsUint64 | service/device.go:1124-1126 | The `.(uint64)` assertion on a decoded integer succeeds exactly on values in [0, 2^64) and yields the value. |
| Values.GoDiv | service/instruments.go:389-393 | Go's integer division: the remainder is smaller than the divisor and has the dividend's sign. |

## Left out
- Dtx.RequestChannel: a channel request is modelled as having no effect on the message counter or the sent messages. The DTX client's own RequestChannel is not part of this model, so any control message it writes or channel id it allocates is not represented.
- Values.AsUint64: Go's integer types are merged into one unbounded `Int`. The model decides the `.(uint64)` assertion by value, but Go decides it by dynamic type, so an int64-typed EndMachAbsTime or pid that Go would panic on is accepted here.
- Channel sends become appended records. Goroutines, channels, contexts and signal handling are not modelled; a callback is one event applied to a profiler state with a cancelled flag.
- DTX framing, fragmentation and `AuxBuffer` encoding: `SendDTXMessage`, `GetResult` and `MakeChannel` are an abstract interface. Which values fail to encode is a set in the client state.
- `ProfilerStart` (service/device.go:899-982) is not modelled. Its pid loop starts at -1 and never runs, the inner `pid, err :=` shadows the outer pid, it builds its option list by iterating a map (nondeterministic order), and it never sets the profiler's pid.
- Floating point: the CPU loads are copied as reals. GraphicsInfo, BatteryInfo and parseBatteryData are not modelled.
- JSON rendering of records (`json.Marshal`) is not modelled. A marshal error (dropped in the decoders, logged in the network and graphics callbacks) cannot occur for the values modelled.
- The element decoders for `Application` and `Process` (JSON marshal then unmarshal) are parameters `map -> Option`. The `Process` and `Application` structs are not part of this model beyond the fields used.
- `convert2Int64` is not part of this model: it is a parameter `Value -> Int64`.
- The options struct the decoders read (`c.options`) does not exist in the source's profiler struct. It is a `SampleOptions` parameter.
- SampleDecode.ParseProcessData: a process entry that is a nil slice (`[]interface{}(nil)`) counts as found; the source would take the not-found branch. JSON never produces one.
- XCTest orchestration, `_uploadXCTestConfiguration`, `AppInstall` (AFC, ipa, nskeyedarchiver) and usbmux pair-record packets are not modelled.
- Lockdown's handshake, session and query are outcomes in an environment record. Service handles are numbers.
- HTTP, zip and file I/O in `controller/mount.go` are outcomes:
  - whether the unpacked image exists and the cached zip's state;
  - each URL's download;
  - each entry's open, create and copy;
  - the mount call.
  `MkdirAll` for directory entries and the progress output are not modelled.
- ImageMount.AppDir: the home-directory lookup is assumed to succeed. `getAppDir` panics when `os.UserHomeDir` fails (controller/mount.go:150-153); the home directory is a plain string parameter, so that panic is not modelled.
- ImageMount.Join: `filepath.Join`'s clean-up of `..` and repeated separators inside an element is not modelled; only trailing separators of the base are collapsed.
- `urlRetrive` (controller/mount.go:163-191) is an outcome per URL. Its return of a nil error for a non-200 status is not separately modelled; the empty file it leaves counts as not a zip.
- `setupDevice`'s usbmux enumeration is an outcome parameter. The package-level `dev` is passed in and returned.
- CLI, screenshot, lockdown and usbmux wrapper files, and the device-dependent tests, are outside this model.

## Findings

| source | as written | input that shows it | evidently intended | confidence | as-written member | corrected member |
|---|---|---|---|---|---|---|
| controller/mount.go:30 | `strings.Index(version, "17.") > 0` rejects only versions containing "17." after position 0 | product version "17.0": the index is 0, so the iOS 17 refusal is skipped | reject versions of major release 17, i.e. those that start with "17." | high, not executed | ImageMount.AsWrittenGateAdmits17 | ImageMount.CorrectedGateRejects17 |
| controller/mount.go:197-207 | with a valid cached zip the download loop is skipped and "" is returned | a valid `<home>/.GOS/device-support/<v>.zip` and no unpacked image: Mount fails with "can't find properties image" | return the cached zip's path | high, not executed | ImageMount.AsWrittenDownloadLosesCache | ImageMount.CorrectedMountUsesCache |
| controller/mount.go:129-133 | `defer r.Close()` runs before the error check, on the nil reader `zip.OpenReader` returns for a non-zip file | an existing cached zip that is corrupt: checkZipFile panics | return false, so the image is downloaded again | medium, not executed | ImageMount.AsWrittenCorruptCachePanics | ImageMount.CheckZipFile |
