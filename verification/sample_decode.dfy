/**
  The sysmontap sample decoders (service/device.go:1043-1215): one unsolicited
  sample payload, a list of maps, turned into typed performance records.

  Sending a record on a channel is appending it to the output; a Go run-time
  panic ends the call, and what was sent before it (for the process record: the
  deferred send, which still runs while the panic unwinds) stays sent.
*/
module SampleDecode {
  import opened Wrappers
  import opened Values

  /** The decoder settings: the attribute names the device was asked for, and the record kinds wanted. */
  datatype SampleOptions = SampleOptions(
    processAttributes: seq<string>,
    systemAttributes: seq<string>,
    sysCPU: bool,
    sysMem: bool,
    sysDisk: bool,
    sysNetwork: bool)

  /** The records the decoders emit; each carries the `time.Now().Unix()` of its decode. */
  datatype Record =
    | ProcessRecord(timestamp: int, pid: int, msg: Option<string>, procPerf: Option<map<string, Value>>)
    | SysCpuRecord(timestamp: int, niceLoad: real, systemLoad: real, totalLoad: real, userLoad: real)
    | SysMemRecord(timestamp: int, appMemory: Int64, freeMemory: Int64, usedMemory: Int64,
                   wiredMemory: Int64, cachedFiles: Int64, compressed: Int64, swapUsed: Int64)
    | SysDiskRecord(timestamp: int, dataRead: Int64, dataWritten: Int64, readOps: Int64, writeOps: Int64)
    | SysNetworkRecord(timestamp: int, bytesIn: Int64, bytesOut: Int64, packetsIn: Int64, packetsOut: Int64)
  {
    /** The JSON `type` field. */
    function Tag(): string {
      match this
      case ProcessRecord(_, _, _, _) => "process"
      case SysCpuRecord(_, _, _, _, _) => "sys_cpu"
      case SysMemRecord(_, _, _, _, _, _, _, _) => "sys_mem"
      case SysDiskRecord(_, _, _, _, _) => "sys_disk"
      case SysNetworkRecord(_, _, _, _, _) => "sys_network"
    }
  }

  /** What one decode call leaves behind: the records sent, and the panic that ended it, if any. */
  datatype Emitted = Emitted(records: seq<Record>, panic: Option<string>)

  // ---------------------------------------------------------------------
  // Positional attribute vectors

  /**
    The Go loop `for idx, name := range names { m[name] = vec[idx] }`: names are
    matched with the vector by position, and a repeated name keeps its last value.
  */
  function Zip<T>(names: seq<string>, vec: seq<T>): (m: map<string, T>)
    requires |names| <= |vec|
    ensures m.Keys == set k | k in names
    ensures forall i :: (0 <= i < |names| && forall j :: i < j < |names| ==> names[j] != names[i]) ==>
      m[names[i]] == vec[i]
    decreases |names|
  {
    if |names| == 0 then map[]
    else
      var n := |names| - 1;
      var front := Zip(names[..n], vec);
      ZipStep(names[..n], names[n], vec, front);
      assert names == names[..n] + [names[n]];
      front[names[n] := vec[n]]
  }

  /** The step of `Zip`: one more name on top of the map for the names before it. */
  lemma ZipStep<T>(prefix: seq<string>, last: string, vec: seq<T>, front: map<string, T>)
    requires |prefix| < |vec|
    requires front.Keys == set k | k in prefix
    requires forall i :: (0 <= i < |prefix| && forall j :: i < j < |prefix| ==> prefix[j] != prefix[i]) ==>
      front[prefix[i]] == vec[i]
    ensures var names := prefix + [last];
      var m := front[last := vec[|prefix|]];
      && m.Keys == set k | k in names
      && forall i :: (0 <= i < |names| && forall j :: i < j < |names| ==> names[j] != names[i]) ==>
           m[names[i]] == vec[i]
  {
    var names := prefix + [last];
    var m := front[last := vec[|prefix|]];
    forall i | 0 <= i < |names| && forall j :: i < j < |names| ==> names[j] != names[i]
      ensures m[names[i]] == vec[i]
    {
      if i < |prefix| {
        assert names[i] == prefix[i];
        assert names[|prefix|] == last;
        assert forall j :: i < j < |prefix| ==> names[j] == prefix[j];
      }
    }
  }

  /** The first `n` vector elements through `convert2Int64`. */
  function Convert(items: seq<Value>, n: nat, toInt64: Value -> Int64): (v: seq<Int64>)
    requires n <= |items|
    ensures |v| == n && forall i :: 0 <= i < n ==> v[i] == toInt64(items[i])
  {
    seq(n, i requires 0 <= i < n => toInt64(items[i]))
  }

  // ---------------------------------------------------------------------
  // parseProcessData

  /** The process record with only its header fields: what the deferred send carries after a panic. */
  function BareProcessRecord(now: int, pid: int): Record {
    ProcessRecord(now, pid, None, None)
  }

  /** The message of the not-found path, `fmt.Sprintf("process %d not found", pid)`. */
  function NotFoundMessage(pid: int): string {
    "process " + DecimalString(pid) + " not found"
  }

  /** The element holding "Processes": element 1, unless element 0 has no "System" key. */
  function ProcessElement(a: map<string, Value>, b: map<string, Value>): (p: map<string, Value>)
    ensures "System" in a ==> p == b
    ensures "System" !in a ==> p == a
  {
    if "System" in a then b else a
  }

  /** `CpuAndMemoryProfiler.parseProcessData` (service/device.go:1043-1115). */
  function ParseProcessData(options: SampleOptions, pid: int, now: int, data: seq<Value>): (e: Emitted)
    // exactly one record is sent, a process record tagged with the pid, on every path
    ensures |e.records| == 1 && e.records[0].ProcessRecord?
    ensures e.records[0].timestamp == now && e.records[0].pid == pid
    // a panic leaves the record bare
    ensures e.panic.Some? ==> e.records[0] == BareProcessRecord(now, pid)
    // fewer than two elements, or a non-map among the first two, panics
    ensures |data| < 2 || !data[0].Dict? || !data[1].Dict? ==> e.panic.Some?
    // the record carries either the message or the attributes, never both
    ensures e.panic.None? ==> e.records[0].msg.Some? != e.records[0].procPerf.Some?
    ensures e.records[0].msg.Some? ==> e.records[0].msg.value == NotFoundMessage(pid)
    ensures e.records[0].procPerf.Some? ==> e.records[0].procPerf.value.Keys == set k | k in options.processAttributes
  {
    var bare := BareProcessRecord(now, pid);
    if |data| < 2 || !data[0].Dict? || !data[1].Dict? then Emitted([bare], Some("bad sample array"))
    else
      var procInfo := ProcessElement(data[0].entries, data[1].entries);
      var processes := Lookup(procInfo, "Processes");
      if !processes.Dict? then Emitted([bare], Some("Processes is not a map"))
      else
        var key := DecimalString(pid);
        if key !in processes.entries then
          Emitted([ProcessRecord(now, pid, Some(NotFoundMessage(pid)), None)], None)
        else
          var target := processes.entries[key];
          if !target.List? then Emitted([bare], Some("process entry is not a list"))
          else if |target.items| < |options.processAttributes| then Emitted([bare], Some("index out of range"))
          else Emitted([ProcessRecord(now, pid, None, Some(Zip(options.processAttributes, target.items)))], None)
  }

  /** Which of the two elements comes first does not matter when exactly one of them is the system element. */
  lemma ProcessDataSwapDetection(options: SampleOptions, pid: int, now: int,
                                 sys: map<string, Value>, proc: map<string, Value>, rest: seq<Value>)
    requires "System" in sys && "System" !in proc
    ensures ParseProcessData(options, pid, now, [Dict(sys), Dict(proc)] + rest) ==
            ParseProcessData(options, pid, now, [Dict(proc), Dict(sys)] + rest)
  {
    var d1 := [Dict(sys), Dict(proc)] + rest;
    var d2 := [Dict(proc), Dict(sys)] + rest;
    assert d1[0] == Dict(sys) && d1[1] == Dict(proc);
    assert d2[0] == Dict(proc) && d2[1] == Dict(sys);
  }

  /**
    The target process is looked up by the decimal spelling of the pid; a missing
    one gives the message. The process element may carry other keys (the sample's
    mach times and type), and further elements may follow.
  */
  lemma ProcessNotFound(options: SampleOptions, pid: int, now: int, sys: map<string, Value>,
                        pm: map<string, Value>, processes: map<string, Value>, rest: seq<Value>)
    requires "System" in sys
    requires "Processes" in pm && pm["Processes"] == Dict(processes)
    requires DecimalString(pid) !in processes
    ensures ParseProcessData(options, pid, now, [Dict(sys), Dict(pm)] + rest) ==
      Emitted([ProcessRecord(now, pid, Some("process " + DecimalString(pid) + " not found"), None)], None)
  {
    var d := [Dict(sys), Dict(pm)] + rest;
    assert d[0] == Dict(sys) && d[1] == Dict(pm);
  }

  /**
    A found process yields its vector zipped with the configured attribute names:
    the i-th name (unless repeated later) maps to the i-th vector element.
  */
  lemma ProcessAttributesPositional(options: SampleOptions, pid: int, now: int, sys: map<string, Value>,
                                    pm: map<string, Value>, processes: map<string, Value>,
                                    vec: seq<Value>, rest: seq<Value>)
    requires "System" in sys
    requires "Processes" in pm && pm["Processes"] == Dict(processes)
    requires DecimalString(pid) in processes && processes[DecimalString(pid)] == List(vec)
    requires |vec| >= |options.processAttributes|
    ensures var e := ParseProcessData(options, pid, now, [Dict(sys), Dict(pm)] + rest);
      && e.panic.None? && e.records[0].msg.None? && e.records[0].procPerf.Some?
      && forall i :: (0 <= i < |options.processAttributes| &&
           forall j :: i < j < |options.processAttributes| ==>
             options.processAttributes[j] != options.processAttributes[i]) ==>
           e.records[0].procPerf.value[options.processAttributes[i]] == vec[i]
  {
    var d := [Dict(sys), Dict(pm)] + rest;
    assert d[0] == Dict(sys) && d[1] == Dict(pm);
  }

  /**
    Only the entry keyed by this pid matters: the other processes' entries, the
    process element's other keys and the elements after the first two do not
    affect the record.
  */
  lemma ProcessDataDependsOnlyOnOwnEntry(options: SampleOptions, pid: int, now: int, sys: map<string, Value>,
                                         pm1: map<string, Value>, p1: map<string, Value>, rest1: seq<Value>,
                                         pm2: map<string, Value>, p2: map<string, Value>, rest2: seq<Value>)
    requires "System" in sys
    requires "Processes" in pm1 && pm1["Processes"] == Dict(p1)
    requires "Processes" in pm2 && pm2["Processes"] == Dict(p2)
    requires DecimalString(pid) in p1 <==> DecimalString(pid) in p2
    requires DecimalString(pid) in p1 ==> p1[DecimalString(pid)] == p2[DecimalString(pid)]
    ensures ParseProcessData(options, pid, now, [Dict(sys), Dict(pm1)] + rest1) ==
            ParseProcessData(options, pid, now, [Dict(sys), Dict(pm2)] + rest2)
  {
    var d1 := [Dict(sys), Dict(pm1)] + rest1;
    var d2 := [Dict(sys), Dict(pm2)] + rest2;
    assert d1[0] == Dict(sys) && d1[1] == Dict(pm1);
    assert d2[0] == Dict(sys) && d2[1] == Dict(pm2);
  }

  /** A too-short vector panics, and the deferred send still delivers the bare record. */
  lemma ShortVectorPanics(options: SampleOptions, pid: int, now: int, sys: map<string, Value>,
                          pm: map<string, Value>, processes: map<string, Value>,
                          vec: seq<Value>, rest: seq<Value>)
    requires "System" in sys
    requires "Processes" in pm && pm["Processes"] == Dict(processes)
    requires DecimalString(pid) in processes && processes[DecimalString(pid)] == List(vec)
    requires |vec| < |options.processAttributes|
    ensures ParseProcessData(options, pid, now, [Dict(sys), Dict(pm)] + rest) ==
            Emitted([ProcessRecord(now, pid, None, None)], Some("index out of range"))
  {
    var d := [Dict(sys), Dict(pm)] + rest;
    assert d[0] == Dict(sys) && d[1] == Dict(pm);
  }

  // ---------------------------------------------------------------------
  // parseSystemData: choosing the element

  /** An element the selection loop considers: a map with non-nil "SystemCPUUsage" and "EndMachAbsTime". */
  predicate Candidate(v: Value) {
    v.Dict? && HasNonNil(v.entries, "SystemCPUUsage") && HasNonNil(v.entries, "EndMachAbsTime")
  }

  /** A candidate whose `EndMachAbsTime` is not a uint64: the loop's type assertion panics on it. */
  predicate BadTime(v: Value) {
    Candidate(v) && AsUint64(v.entries["EndMachAbsTime"]).None?
  }

  /** The end time of a well-typed candidate. */
  function EndTime(v: Value): nat
    requires Candidate(v) && !BadTime(v)
  {
    AsUint64(v.entries["EndMachAbsTime"]).value
  }

  /**
    The selection loop of parseSystemData (service/device.go:1121-1128) over the
    first `n` elements: the index of the element it keeps, with `None` for "still nil".
  */
  function SelectLatest(data: seq<Value>, n: nat): (r: Result<Option<nat>, string>)
    requires n <= |data|
    // the loop panics exactly when some candidate has an end time that is not a uint64
    ensures r.Failure? <==> exists i :: 0 <= i < n && BadTime(data[i])
    // nothing is kept only when every candidate's end time is 0
    ensures r.Success? && r.value.None? ==>
      forall j :: 0 <= j < n && Candidate(data[j]) ==> EndTime(data[j]) == 0
    // otherwise the first candidate with the strictly largest end time, which is positive
    ensures r.Success? && r.value.Some? ==>
      && r.value.value < n && Candidate(data[r.value.value])
      && EndTime(data[r.value.value]) > 0
      && (forall j :: 0 <= j < n && Candidate(data[j]) ==> EndTime(data[j]) <= EndTime(data[r.value.value]))
      && (forall j :: 0 <= j < r.value.value && Candidate(data[j]) ==> EndTime(data[j]) < EndTime(data[r.value.value]))
    decreases n
  {
    if n == 0 then Success(None)
    else
      var before := SelectLatest(data, n - 1);
      var v := data[n - 1];
      if before.Failure? then before
      else if !Candidate(v) then before
      else if BadTime(v) then Failure("EndMachAbsTime is not a uint64")
      else
        var best := if before.value.Some? then EndTime(data[before.value.value]) else 0;
        if EndTime(v) > best then Success(Some(n - 1)) else before
  }

  // ---------------------------------------------------------------------
  // parseSystemData: the records

  /** `core_profile_session_tap`'s kernel page size, in bytes. */
  const KernelPageSize: int := 16384

  /** A system attribute as Go reads `systemAttributesMap[name]`: 0 when not configured. */
  function Attr(a: map<string, Int64>, name: string): (x: Int64)
    ensures name !in a ==> x == 0
  {
    if name in a then a[name] else 0
  }

  /** The sys_cpu record from the element's "SystemCPUUsage" map; every load must be a float. */
  function CpuRecord(now: int, m: map<string, Value>): (r: Result<Record, string>)
    ensures r.Success? <==>
      && Lookup(m, "SystemCPUUsage").Dict?
      && var u := Lookup(m, "SystemCPUUsage").entries;
         Lookup(u, "CPU_NiceLoad").Float? && Lookup(u, "CPU_SystemLoad").Float?
         && Lookup(u, "CPU_TotalLoad").Float? && Lookup(u, "CPU_UserLoad").Float?
    ensures r.Success? ==> r.value.SysCpuRecord? && r.value.timestamp == now
    ensures r.Success? ==>
      var u := Lookup(m, "SystemCPUUsage").entries;
      && r.value.niceLoad == Lookup(u, "CPU_NiceLoad").x
      && r.value.systemLoad == Lookup(u, "CPU_SystemLoad").x
      && r.value.totalLoad == Lookup(u, "CPU_TotalLoad").x
      && r.value.userLoad == Lookup(u, "CPU_UserLoad").x
  {
    var usage := Lookup(m, "SystemCPUUsage");
    if !usage.Dict? then Failure("SystemCPUUsage is not a map")
    else
      var nice := Lookup(usage.entries, "CPU_NiceLoad");
      var system := Lookup(usage.entries, "CPU_SystemLoad");
      var total := Lookup(usage.entries, "CPU_TotalLoad");
      var user := Lookup(usage.entries, "CPU_UserLoad");
      if !(nice.Float? && system.Float? && total.Float? && user.Float?) then Failure("CPU load is not a float64")
      else Success(SysCpuRecord(now, nice.x, system.x, total.x, user.x))
  }

  /** The element's "System" vector zipped with the configured names through `convert2Int64`. */
  function SystemAttributes(options: SampleOptions, m: map<string, Value>, toInt64: Value -> Int64)
    : (r: Result<map<string, Int64>, string>)
    ensures r.Success? <==>
      Lookup(m, "System").List? && |Lookup(m, "System").items| >= |options.systemAttributes|
    ensures r.Success? ==>
      && r.value.Keys == set k | k in options.systemAttributes
      && (forall i :: 0 <= i < |options.systemAttributes| ==> options.systemAttributes[i] in r.value)
      && forall i :: (0 <= i < |options.systemAttributes| &&
           forall j :: i < j < |options.systemAttributes| ==>
             options.systemAttributes[j] != options.systemAttributes[i]) ==>
           r.value[options.systemAttributes[i]] == toInt64(Lookup(m, "System").items[i])
  {
    var system := Lookup(m, "System");
    if !system.List? then Failure("System is not a list")
    else if |system.items| < |options.systemAttributes| then Failure("index out of range")
    else
      var names := options.systemAttributes;
      Success(Zip(names, Convert(system.items, |names|, toInt64)))
  }

  /** The sys_mem record: page counts times the kernel page size, in int64 arithmetic. */
  function MemRecord(now: int, a: map<string, Int64>): Record {
    var vmInt := Attr(a, "vmIntPageCount");
    var vmPurgeable := Attr(a, "vmPurgeableCount");
    var vmExt := Attr(a, "vmExtPageCount");
    var vmUsed := Attr(a, "vmUsedCount");
    SysMemRecord(now,
      Wrap64(Wrap64(vmInt - vmPurgeable) * KernelPageSize),
      Wrap64(Attr(a, "vmFreeCount") * KernelPageSize),
      Wrap64(Wrap64(vmUsed - vmExt) * KernelPageSize),
      Wrap64(Attr(a, "vmWireCount") * KernelPageSize),
      Wrap64(Wrap64(vmExt + vmPurgeable) * KernelPageSize),
      Wrap64(Attr(a, "vmCompressorPageCount") * KernelPageSize),
      Attr(a, "__vmSwapUsage"))
  }

  function DiskRecord(now: int, a: map<string, Int64>): Record {
    SysDiskRecord(now, Attr(a, "diskBytesRead"), Attr(a, "diskBytesWritten"),
                  Attr(a, "diskReadOps"), Attr(a, "diskWriteOps"))
  }

  function NetworkRecord(now: int, a: map<string, Int64>): Record {
    SysNetworkRecord(now, Attr(a, "netBytesIn"), Attr(a, "netBytesOut"),
                     Attr(a, "netPacketsIn"), Attr(a, "netPacketsOut"))
  }

  /** The records after sys_cpu, in the order memory, disk, network, each only when wanted. */
  function AttributeRecords(options: SampleOptions, now: int, a: map<string, Int64>): seq<Record> {
    (if options.sysMem then [MemRecord(now, a)] else [])
    + (if options.sysDisk then [DiskRecord(now, a)] else [])
    + (if options.sysNetwork then [NetworkRecord(now, a)] else [])
  }

  /** The record kinds a successful decode emits, in emission order. */
  function ExpectedTags(options: SampleOptions): seq<string> {
    (if options.sysCPU then ["sys_cpu"] else []) + AttributeTags(options)
  }

  /** The record kinds that come from the attribute vector, in emission order. */
  function AttributeTags(options: SampleOptions): seq<string> {
    (if options.sysMem then ["sys_mem"] else [])
    + (if options.sysDisk then ["sys_disk"] else [])
    + (if options.sysNetwork then ["sys_network"] else [])
  }

  function Tags(records: seq<Record>): (t: seq<string>)
    ensures |t| == |records| && forall i :: 0 <= i < |records| ==> t[i] == records[i].Tag()
  {
    seq(|records|, i requires 0 <= i < |records| => records[i].Tag())
  }

  lemma TagsAppend(a: seq<Record>, b: seq<Record>)
    ensures Tags(a + b) == Tags(a) + Tags(b)
  {
  }

  /** Every record carries the sample time and none is a process record. */
  predicate SystemStamped(records: seq<Record>, now: int) {
    forall i :: 0 <= i < |records| ==> records[i].timestamp == now && !records[i].ProcessRecord?
  }

  lemma SystemStampedAppend(a: seq<Record>, b: seq<Record>, now: int)
    requires SystemStamped(a, now) && SystemStamped(b, now)
    ensures SystemStamped(a + b, now)
  {
    assert forall i :: |a| <= i < |a + b| ==> (a + b)[i] == b[i - |a|];
  }

  /** The attribute-vector records are tagged as wanted, in order, and all stamped with the sample time. */
  lemma AttributeRecordsTags(options: SampleOptions, now: int, a: map<string, Int64>)
    ensures Tags(AttributeRecords(options, now, a)) == AttributeTags(options)
    ensures SystemStamped(AttributeRecords(options, now, a), now)
  {
    var m: seq<Record> := if options.sysMem then [MemRecord(now, a)] else [];
    var d: seq<Record> := if options.sysDisk then [DiskRecord(now, a)] else [];
    var n: seq<Record> := if options.sysNetwork then [NetworkRecord(now, a)] else [];
    assert Tags(m) == (if options.sysMem then ["sys_mem"] else []);
    assert Tags(d) == (if options.sysDisk then ["sys_disk"] else []);
    assert Tags(n) == (if options.sysNetwork then ["sys_network"] else []);
    TagsAppend(m, d);
    TagsAppend(m + d, n);
    SystemStampedAppend(m, d, now);
    SystemStampedAppend(m + d, n, now);
  }

  /** Where each wanted figure sits in the decoded records, behind an optional sys_cpu record. */
  lemma AttributeRecordsAt(options: SampleOptions, now: int, a: map<string, Int64>, sent: seq<Record>)
    requires Tags(sent) == (if options.sysCPU then ["sys_cpu"] else [])
    requires SystemStamped(sent, now)
    ensures Tags(sent + AttributeRecords(options, now, a)) == ExpectedTags(options)
    ensures SystemStamped(sent + AttributeRecords(options, now, a), now)
    ensures var e := sent + AttributeRecords(options, now, a);
      var k := |sent|;
      var k2 := k + (if options.sysMem then 1 else 0);
      && (options.sysMem ==> k < |e| && e[k] == MemRecord(now, a))
      && (options.sysDisk ==> k2 < |e| && e[k2] == DiskRecord(now, a))
      && (options.sysNetwork ==> |e| > 0 && e[|e| - 1] == NetworkRecord(now, a))
  {
    var m: seq<Record> := if options.sysMem then [MemRecord(now, a)] else [];
    var d: seq<Record> := if options.sysDisk then [DiskRecord(now, a)] else [];
    var n: seq<Record> := if options.sysNetwork then [NetworkRecord(now, a)] else [];
    assert |sent| == |Tags(sent)|;
    assert sent + AttributeRecords(options, now, a) == sent + m + d + n;
    AttributeRecordsTags(options, now, a);
    TagsAppend(sent, AttributeRecords(options, now, a));
    SystemStampedAppend(sent, AttributeRecords(options, now, a), now);
  }

  /**
    Proof helper for `Assemble`, not a separate step of the decoder: the sys_cpu
    record (when wanted) that is sent before the attribute vector is read, with
    its tag and stamp stated once so that `Assemble`'s proof stays small.
  */
  function CpuSent(options: SampleOptions, now: int, cpu: Result<Record, string>): (sent: seq<Record>)
    requires options.sysCPU ==> cpu.Success? && cpu.value.SysCpuRecord? && cpu.value.timestamp == now
    ensures options.sysCPU ==> sent == [cpu.value]
    ensures !options.sysCPU ==> sent == []
    ensures Tags(sent) == (if options.sysCPU then ["sys_cpu"] else [])
    ensures SystemStamped(sent, now)
  {
    if options.sysCPU then [cpu.value] else []
  }

  /**
    The emission order of `parseSystemData` once the two parts are read: the
    sys_cpu record (when wanted) is sent before the attribute vector is looked at.
  */
  function Assemble(options: SampleOptions, now: int, cpu: Result<Record, string>,
                    attrs: Result<map<string, Int64>, string>): (e: Emitted)
    requires cpu.Success? ==> cpu.value.SysCpuRecord? && cpu.value.timestamp == now
    ensures e.panic.None? <==> (!options.sysCPU || cpu.Success?) && attrs.Success?
    ensures e.panic.None? ==> Tags(e.records) == ExpectedTags(options)
    ensures e.panic.Some? ==> |e.records| <= 1 && (|e.records| == 1 ==> e.records[0].SysCpuRecord?)
    ensures SystemStamped(e.records, now)
    ensures options.sysCPU && |e.records| > 0 ==> cpu.Success? && e.records[0] == cpu.value
    ensures e.panic.None? ==>
      var k := if options.sysCPU then 1 else 0;
      var k2 := k + (if options.sysMem then 1 else 0);
      && (options.sysMem ==> k < |e.records| && e.records[k] == MemRecord(now, attrs.value))
      && (options.sysDisk ==> k2 < |e.records| && e.records[k2] == DiskRecord(now, attrs.value))
      && (options.sysNetwork ==> |e.records| > 0 && e.records[|e.records| - 1] == NetworkRecord(now, attrs.value))
  {
    if options.sysCPU && cpu.Failure? then Emitted([], Some(cpu.error))
    else
      var sent := CpuSent(options, now, cpu);
      if attrs.Failure? then Emitted(sent, Some(attrs.error))
      else
        AttributeRecordsAt(options, now, attrs.value, sent);
        Emitted(sent + AttributeRecords(options, now, attrs.value), None)
  }

  /** Decoding the selected element: sys_cpu first, then the attribute-vector records. */
  function DecodeSelected(options: SampleOptions, now: int, m: map<string, Value>, toInt64: Value -> Int64)
    : (e: Emitted)
    ensures e.panic.None? <==>
      (!options.sysCPU || CpuRecord(now, m).Success?) && SystemAttributes(options, m, toInt64).Success?
    ensures e.panic.None? ==> Tags(e.records) == ExpectedTags(options)
    ensures e.panic.Some? ==> |e.records| <= 1 && (|e.records| == 1 ==> e.records[0].SysCpuRecord?)
    ensures forall i :: 0 <= i < |e.records| ==> e.records[i].timestamp == now
    // no process record comes out of the system decoder
    ensures forall i :: 0 <= i < |e.records| ==> !e.records[i].ProcessRecord?
    // the figures: the cpu loads, then the zipped "System" vector read as memory, disk and network
    ensures options.sysCPU && |e.records| > 0 ==>
      CpuRecord(now, m).Success? && e.records[0] == CpuRecord(now, m).value
    ensures e.panic.None? ==>
      var a := SystemAttributes(options, m, toInt64).value;
      var k := if options.sysCPU then 1 else 0;
      var k2 := k + (if options.sysMem then 1 else 0);
      && (options.sysMem ==> k < |e.records| && e.records[k] == MemRecord(now, a))
      && (options.sysDisk ==> k2 < |e.records| && e.records[k2] == DiskRecord(now, a))
      && (options.sysNetwork ==> |e.records| > 0 && e.records[|e.records| - 1] == NetworkRecord(now, a))
  {
    Assemble(options, now, CpuRecord(now, m), SystemAttributes(options, m, toInt64))
  }

  /** `CpuAndMemoryProfiler.parseSystemData` (service/device.go:1117-1215). */
  function ParseSystemData(options: SampleOptions, now: int, data: seq<Value>, toInt64: Value -> Int64)
    : (e: Emitted)
    // a badly typed end time, or no candidate with a positive one, panics before anything is sent
    ensures SelectLatest(data, |data|).Failure? ==> e.records == [] && e.panic.Some?
    ensures SelectLatest(data, |data|) == Success(None) ==> e.records == [] && e.panic.Some?
    // otherwise the latest element is decoded
    ensures SelectLatest(data, |data|).Success? && SelectLatest(data, |data|).value.Some? ==>
      e == DecodeSelected(options, now, data[SelectLatest(data, |data|).value.value].entries, toInt64)
    // a full decode emits exactly the wanted kinds, sys_cpu, sys_mem, sys_disk, sys_network in that order
    ensures e.panic.None? ==> Tags(e.records) == ExpectedTags(options)
    // a panic after the sys_cpu record was sent leaves at most that record
    ensures e.panic.Some? ==> |e.records| <= 1 && (|e.records| == 1 ==> e.records[0].SysCpuRecord?)
    ensures forall i :: 0 <= i < |e.records| ==> e.records[i].timestamp == now
    // no process record comes out of the system decoder
    ensures forall i :: 0 <= i < |e.records| ==> !e.records[i].ProcessRecord?
  {
    var sel := SelectLatest(data, |data|);
    if sel.Failure? then Emitted([], Some(sel.error))
    else if sel.value.None? then Emitted([], Some("systemInfo is nil"))
    else DecodeSelected(options, now, data[sel.value.value].entries, toInt64)
  }

  /** A later element with a strictly larger end time replaces an earlier one: only it is decoded. */
  lemma LatestElementWins(options: SampleOptions, now: int, older: Value, newer: Value, toInt64: Value -> Int64)
    requires Candidate(older) && !BadTime(older) && Candidate(newer) && !BadTime(newer)
    requires EndTime(older) < EndTime(newer)
    ensures ParseSystemData(options, now, [older, newer], toInt64) == ParseSystemData(options, now, [newer], toInt64)
  {
    assert SelectLatest([older, newer], 2) == Success(Some(1));
    assert SelectLatest([newer], 1) == Success(Some(0));
  }

  /** An end time that only equals the best so far does not replace it: the first of equals is decoded. */
  lemma TiesKeepTheFirst(options: SampleOptions, now: int, first: Value, second: Value, toInt64: Value -> Int64)
    requires Candidate(first) && !BadTime(first) && Candidate(second) && !BadTime(second)
    requires EndTime(first) == EndTime(second) > 0
    ensures ParseSystemData(options, now, [first, second], toInt64) == ParseSystemData(options, now, [first], toInt64)
  {
    assert SelectLatest([first, second], 2) == Success(Some(0));
    assert SelectLatest([first], 1) == Success(Some(0));
  }

  /** Elements that are not candidates are passed over by the selection. */
  lemma NonCandidatesIgnored(options: SampleOptions, now: int, other: Value, v: Value, toInt64: Value -> Int64)
    requires !Candidate(other)
    ensures ParseSystemData(options, now, [other, v], toInt64) == ParseSystemData(options, now, [v], toInt64)
  {
    assert [other, v][1] == v;
    assert SelectLatest([other, v], 1) == Success(None);
  }

  // ---------------------------------------------------------------------
  // Memory conversion

  /** With no int64 overflow, each memory figure is the exact page arithmetic; swap is not scaled. */
  lemma MemoryConversionExact(now: int, a: map<string, Int64>)
    requires forall k :: k in a ==> 0 <= a[k] < 0x100_0000_0000
    ensures var r := MemRecord(now, a);
      && r.appMemory == (Attr(a, "vmIntPageCount") - Attr(a, "vmPurgeableCount")) * 16384
      && r.cachedFiles == (Attr(a, "vmExtPageCount") + Attr(a, "vmPurgeableCount")) * 16384
      && r.usedMemory == (Attr(a, "vmUsedCount") - Attr(a, "vmExtPageCount")) * 16384
      && r.freeMemory == Attr(a, "vmFreeCount") * 16384
      && r.wiredMemory == Attr(a, "vmWireCount") * 16384
      && r.compressed == Attr(a, "vmCompressorPageCount") * 16384
      && r.swapUsed == Attr(a, "__vmSwapUsage")
  {
  }

  /** 100 free pages are reported as 1,638,400 bytes. */
  lemma FreeMemoryExample(now: int)
    ensures MemRecord(now, map["vmFreeCount" := 100]).freeMemory == 1_638_400
  {
  }

  /** A memory attribute the device was not asked for reads as 0, so its figure is 0. */
  lemma UnconfiguredMemoryReadsZero(now: int, a: map<string, Int64>)
    requires "vmFreeCount" !in a && "vmWireCount" !in a && "vmCompressorPageCount" !in a
    ensures MemRecord(now, a).freeMemory == 0
    ensures MemRecord(now, a).wiredMemory == 0
    ensures MemRecord(now, a).compressed == 0
  {
  }
}
