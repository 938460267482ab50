/**
  The sysmontap sampling configuration (service/profiler.go:161-250): which
  process and system attributes the device reports, built from a list of option
  names ("cpu", "memory", "disk", "network") in the order given.
*/
module SampleConfig {
  import opened Values

  const CpuConfig: seq<string> := ["cpuUsage", "ctxSwitch", "intWakeups", "physFootprint"]

  const MemoryConfig: seq<string> := [
    "vmCompressorPageCount", "vmExtPageCount", "vmFreeCount", "vmIntPageCount",
    "vmPurgeableCount", "vmWireCount", "vmUsedCount", "vmSpeculativeCount",
    "__vmSwapUsage", "physMemSize"]

  const MemoryProcessConfig: seq<string> := ["memVirtualSize", "memResidentSize", "memAnon"]

  const NetworkConfig: seq<string> := ["netBytesIn", "netBytesOut", "netPacketsIn", "netPacketsOut"]

  const DiskConfig: seq<string> := ["diskBytesRead", "diskBytesWritten", "diskReadOps", "diskWriteOps"]

  /** `time.Second` as a duration in nanoseconds. */
  const SampleIntervalNs: int := 1_000_000_000

  /** What one option adds to the process attributes. */
  function ProcContribution(option: string): seq<string> {
    if option == "cpu" then CpuConfig
    else if option == "memory" then MemoryProcessConfig
    else []
  }

  /** What one option adds to the system attributes. */
  function SysContribution(option: string): seq<string> {
    if option == "disk" then DiskConfig
    else if option == "network" then NetworkConfig
    else if option == "memory" then MemoryConfig
    else []
  }

  /** The process attributes the options contribute, in option order. */
  function ProcExtras(options: seq<string>): seq<string>
    decreases |options|
  {
    if |options| == 0 then [] else ProcContribution(options[0]) + ProcExtras(options[1..])
  }

  /** The system attributes the options contribute, in option order. */
  function SysExtras(options: seq<string>): seq<string>
    decreases |options|
  {
    if |options| == 0 then [] else SysContribution(options[0]) + SysExtras(options[1..])
  }

  /** `procAttrs`: "pid" first, then each option's process attributes. */
  function ProcAttrs(options: seq<string>): seq<string> {
    ["pid"] + ProcExtras(options)
  }

  function SysAttrs(options: seq<string>): seq<string> {
    SysExtras(options)
  }

  function Count(options: seq<string>, name: string): nat
    decreases |options|
  {
    if |options| == 0 then 0 else (if options[0] == name then 1 else 0) + Count(options[1..], name)
  }

  /** The configuration map for given attribute lists. */
  function ConfigMap(procAttrs: seq<string>, sysAttrs: seq<string>): map<string, Value> {
    map[
      "bm" := Int(0),
      "cpuUsage" := Bool(true),
      "sampleInterval" := Int(SampleIntervalNs),
      "ur" := Int(1000),
      "procAttrs" := StrList(procAttrs),
      "sysAttrs" := StrList(sysAttrs)]
  }

  /** The configuration map the device is sent. */
  function DefaultConfig(options: seq<string>): map<string, Value> {
    ConfigMap(ProcAttrs(options), SysAttrs(options))
  }

  lemma {:induction false} ExtrasAppend(a: seq<string>, b: seq<string>)
    ensures ProcExtras(a + b) == ProcExtras(a) + ProcExtras(b)
    ensures SysExtras(a + b) == SysExtras(a) + SysExtras(b)
    ensures Count(a + b, "cpu") == Count(a, "cpu") + Count(b, "cpu")
    ensures Count(a + b, "memory") == Count(a, "memory") + Count(b, "memory")
    ensures Count(a + b, "disk") == Count(a, "disk") + Count(b, "disk")
    ensures Count(a + b, "network") == Count(a, "network") + Count(b, "network")
    decreases |a|
  {
    if |a| == 0 {
      assert a + b == b;
    } else {
      assert (a + b)[0] == a[0];
      assert (a + b)[1..] == a[1..] + b;
      ExtrasAppend(a[1..], b);
    }
  }

  lemma ExtrasSnoc(options: seq<string>, i: nat)
    requires i < |options|
    ensures ProcExtras(options[..i + 1]) == ProcExtras(options[..i]) + ProcContribution(options[i])
    ensures SysExtras(options[..i + 1]) == SysExtras(options[..i]) + SysContribution(options[i])
  {
    assert options[..i + 1] == options[..i] + [options[i]];
    ExtrasAppend(options[..i], [options[i]]);
    assert ProcExtras([options[i]]) == ProcContribution(options[i]) + ProcExtras([]);
    assert SysExtras([options[i]]) == SysContribution(options[i]) + SysExtras([]);
  }

  /** One more option extends each attribute list by that option's contribution. */
  lemma AttrsSnoc(options: seq<string>, i: nat)
    requires i < |options|
    ensures ProcAttrs(options[..i + 1]) == ProcAttrs(options[..i]) + ProcContribution(options[i])
    ensures SysAttrs(options[..i + 1]) == SysAttrs(options[..i]) + SysContribution(options[i])
  {
    ExtrasSnoc(options, i);
  }

  lemma ContributionCases(option: string)
    ensures option == "disk" ==> ProcContribution(option) == [] && SysContribution(option) == DiskConfig
    ensures option == "network" ==> ProcContribution(option) == [] && SysContribution(option) == NetworkConfig
    ensures option == "cpu" ==> ProcContribution(option) == CpuConfig && SysContribution(option) == []
    ensures option == "memory" ==>
      ProcContribution(option) == MemoryProcessConfig && SysContribution(option) == MemoryConfig
    ensures option !in {"cpu", "memory", "disk", "network"} ==>
      ProcContribution(option) == [] && SysContribution(option) == []
  {
  }

  /** The fixed keys are present whatever the options, and procAttrs starts with "pid". */
  lemma DefaultConfigConstants(options: seq<string>)
    ensures DefaultConfig(options).Keys == {"bm", "cpuUsage", "sampleInterval", "ur", "procAttrs", "sysAttrs"}
    ensures DefaultConfig(options)["bm"] == Int(0)
    ensures DefaultConfig(options)["cpuUsage"] == Bool(true)
    ensures DefaultConfig(options)["ur"] == Int(1000)
    ensures DefaultConfig(options)["sampleInterval"] == Int(1_000_000_000)
    ensures DefaultConfig(options)["procAttrs"].items[0] == Str("pid")
  {
  }

  /**
    `GenerateDefaultConfig`, as the Go loop builds it. The pid argument is accepted
    and ignored, as in the source.
  */
  method GenerateDefaultConfig(pid: int, options: seq<string>) returns (config: map<string, Value>)
    ensures config == DefaultConfig(options)
  {
    var sysAttrs: seq<string> := [];
    var procAttrs: seq<string> := ["pid"];
    var i := 0;
    while i < |options|
      invariant 0 <= i <= |options|
      invariant procAttrs == ProcAttrs(options[..i])
      invariant sysAttrs == SysAttrs(options[..i])
    {
      var option := options[i];
      AttrsSnoc(options, i);
      ContributionCases(option);
      if option == "disk" {
        sysAttrs := sysAttrs + DiskConfig;
      } else if option == "network" {
        sysAttrs := sysAttrs + NetworkConfig;
      } else if option == "cpu" {
        procAttrs := procAttrs + CpuConfig;
      } else if option == "memory" {
        sysAttrs := sysAttrs + MemoryConfig;
        procAttrs := procAttrs + MemoryProcessConfig;
      }
      i := i + 1;
    }
    assert options[..i] == options;
    config := ConfigMap(procAttrs, sysAttrs);
  }

  /** |procAttrs| = 1 + 4·#cpu + 3·#memory and |sysAttrs| = 4·#disk + 4·#network + 10·#memory. */
  lemma {:induction false} AttributeCounts(options: seq<string>)
    ensures |ProcAttrs(options)| == 1 + 4 * Count(options, "cpu") + 3 * Count(options, "memory")
    ensures |SysAttrs(options)| ==
      4 * Count(options, "disk") + 4 * Count(options, "network") + 10 * Count(options, "memory")
    decreases |options|
  {
    if |options| > 0 {
      AttributeCounts(options[1..]);
    }
  }

  /** Without "cpu" or "memory", the process attributes are exactly ["pid"]. */
  lemma OnlyPidWithoutCpuOrMemory(options: seq<string>)
    requires Count(options, "cpu") == 0 && Count(options, "memory") == 0
    ensures ProcAttrs(options) == ["pid"]
  {
    AttributeCounts(options);
  }

  /** A further "cpu" option appends the four cpu names to procAttrs and leaves sysAttrs alone. */
  lemma CpuOptionAppends(options: seq<string>)
    ensures ProcAttrs(options + ["cpu"]) == ProcAttrs(options) + CpuConfig
    ensures SysAttrs(options + ["cpu"]) == SysAttrs(options)
  {
    ExtrasAppend(options, ["cpu"]);
    assert ProcExtras(["cpu"]) == CpuConfig + ProcExtras([]);
    assert SysExtras(["cpu"]) == SysExtras([]);
  }

  /** A further "memory" option appends the ten vm names to sysAttrs and three names to procAttrs. */
  lemma MemoryOptionAppends(options: seq<string>)
    ensures ProcAttrs(options + ["memory"]) == ProcAttrs(options) + MemoryProcessConfig
    ensures SysAttrs(options + ["memory"]) == SysAttrs(options) + MemoryConfig
  {
    ExtrasAppend(options, ["memory"]);
    assert ProcExtras(["memory"]) == MemoryProcessConfig + ProcExtras([]);
    assert SysExtras(["memory"]) == MemoryConfig + SysExtras([]);
  }

  /** "disk" and "network" extend only sysAttrs, by their four names. */
  lemma DiskAndNetworkOptionsAppend(options: seq<string>)
    ensures ProcAttrs(options + ["disk"]) == ProcAttrs(options)
    ensures SysAttrs(options + ["disk"]) == SysAttrs(options) + DiskConfig
    ensures ProcAttrs(options + ["network"]) == ProcAttrs(options)
    ensures SysAttrs(options + ["network"]) == SysAttrs(options) + NetworkConfig
  {
    ExtrasAppend(options, ["disk"]);
    ExtrasAppend(options, ["network"]);
    assert ProcExtras(["disk"]) == [] && SysExtras(["disk"]) == DiskConfig + SysExtras([]);
    assert ProcExtras(["network"]) == [] && SysExtras(["network"]) == NetworkConfig + SysExtras([]);
  }

  /** An unrecognised option contributes nothing. */
  lemma UnknownOptionIgnored(options: seq<string>, option: string)
    requires option !in {"cpu", "memory", "disk", "network"}
    ensures DefaultConfig(options + [option]) == DefaultConfig(options)
  {
    ExtrasAppend(options, [option]);
    ContributionCases(option);
    assert ProcExtras([option]) == ProcContribution(option) + ProcExtras([]);
    assert SysExtras([option]) == SysContribution(option) + SysExtras([]);
    assert ProcAttrs(options + [option]) == ProcAttrs(options);
    assert SysAttrs(options + [option]) == SysAttrs(options);
  }
}
