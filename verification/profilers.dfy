/**
  The profiler lifecycle (service/profiler.go:44-294): `Start` issues the device
  controls and installs a callback for unsolicited messages, `Stop` cancels, and
  each unsolicited message is one event applied to the profiler state.

  A goroutine-fed channel is the `out` sequence; the context is the `cancelled`
  flag; whether `p.cancel` has been set is `hasCancel`.
*/
module Profilers {
  import opened Wrappers
  import opened Values
  import opened Errors
  import opened Dtx
  import opened Instruments
  import opened SampleDecode

  datatype Kind = CpuMemory | Network | Graphic

  /** What a profiler's output channel receives. */
  datatype Output =
    | Raw(data: map<string, Value>)    // a network or graphics map, forwarded as is
    | Decoded(record: Record)          // a decoded sysmontap record

  datatype Profiler = Profiler(
    kind: Kind,
    hasCancel: bool,                   // `p.cancel != nil`
    cancelled: bool,                   // the context is done
    pid: int,                          // the process to report on (cpu/memory only; 0 = none)
    config: map<string, Value>,        // the sysmontap configuration sent at start (cpu/memory only)
    options: SampleOptions,            // the decoder settings (cpu/memory only)
    out: seq<Output>)                  // what the output channel has received

  /** A profiler as its constructor returns it: never started. */
  function NewProfiler(kind: Kind, pid: int, config: map<string, Value>, options: SampleOptions): (p: Profiler)
    ensures p.kind == kind && !p.hasCancel && !p.cancelled && p.out == []
  {
    Profiler(kind, false, false, pid, config, options, [])
  }

  /** The two controls `Start` issues, in order, and the control each event issues once cancelled. */
  function StartControls(p: Profiler): (ks: seq<SampleControl>)
    ensures |ks| == 2
    // configure first, then start the kind's sampling
    ensures p.kind == CpuMemory ==> ks == [SetCpuMemoryConfig(p.config), StartCpuMemory]
    ensures p.kind == Network ==> ks == [SetNetworkConfig, StartNetwork]
    ensures p.kind == Graphic ==> ks == [SetGraphicRate(1000), StartGraphic]
  {
    match p.kind
    case CpuMemory => [SetCpuMemoryConfig(p.config), StartCpuMemory]
    case Network => [SetNetworkConfig, StartNetwork]
    case Graphic => [SetGraphicRate(1000), StartGraphic]
  }

  function StopControl(kind: Kind): SampleControl {
    match kind
    case CpuMemory => StopCpuMemory
    case Network => StopNetwork
    case Graphic => StopGraphic
  }

  function HandlerOf(kind: Kind): Handler {
    match kind
    case CpuMemory => CpuMemorySampler
    case Network => NetworkSampler
    case Graphic => GraphicSampler
  }

  datatype Started = Started(result: Result<(), Error>, profiler: Profiler, client: DtxClient)

  /** `Start` of each profiler (service/profiler.go:55-89, 108-142, 252-288). */
  function Start(p: Profiler, c: DtxClient): (s: Started)
    // the first control's failure stops the start with nothing registered
    ensures Control(c, StartControls(p)[0]).result.Failure? ==>
      s == Started(Failure(Control(c, StartControls(p)[0]).result.error), p, Control(c, StartControls(p)[0]).client)
    // a failure leaves the profiler and the callbacks as they were
    ensures s.result.Failure? ==> s.profiler == p && s.client.callbacks == c.callbacks
    // success registers the handler under the empty selector, with a fresh channel and context
    ensures s.result.Success? ==>
      && s.client.callbacks == c.callbacks[""  := HandlerOf(p.kind)]
      && s.profiler == p.(hasCancel := true, cancelled := false, out := [])
    ensures s.result.Success? <==>
      && Control(c, StartControls(p)[0]).result.Success?
      && Control(Control(c, StartControls(p)[0]).client, StartControls(p)[1]).result.Success?
  {
    var ks := StartControls(p);
    var first := Control(c, ks[0]);
    if first.result.Failure? then Started(Failure(first.result.error), p, first.client)
    else
      var second := Control(first.client, ks[1]);
      if second.result.Failure? then Started(Failure(second.result.error), p, second.client)
      else
        var c' := RegisterCallback(second.client, "", HandlerOf(p.kind));
        Started(Success(()), p.(hasCancel := true, cancelled := false, out := []), c')
  }

  /** `Stop`: cancels the context if `Start` ever set one, and does nothing else. */
  function Stop(p: Profiler): (p': Profiler)
    ensures p.hasCancel ==> p' == p.(cancelled := true)
    ensures !p.hasCancel ==> p' == p
  {
    if p.hasCancel then p.(cancelled := true) else p
  }

  datatype Handled = Handled(profiler: Profiler, client: DtxClient, panic: Option<string>)

  /**
    The cpu/memory callback's decoding branch (service/profiler.go:273-282). The two
    decoders read the clock separately (service/device.go:1075 and 1118), so the
    process record is stamped with `procNow` and the system records with `sysNow`.
  */
  function DecodeSample(p: Profiler, obj: Value, procNow: int, sysNow: int, toInt64: Value -> Int64): (r: Emitted)
    ensures !obj.List? || |obj.items| < 2 ==> r == Emitted([], None)
    ensures obj.List? && |obj.items| >= 2 && p.pid == 0 ==>
      r == ParseSystemData(p.options, sysNow, obj.items, toInt64)
    ensures obj.List? && |obj.items| >= 2 && p.pid != 0 ==>
      var proc := ParseProcessData(p.options, p.pid, procNow, obj.items);
      && (proc.panic.Some? ==> r == proc)
      && (proc.panic.None? ==>
            var sys := ParseSystemData(p.options, sysNow, obj.items, toInt64);
            r == Emitted(proc.records + sys.records, sys.panic))
  {
    if !obj.List? || |obj.items| < 2 then Emitted([], None)
    else if p.pid != 0 then
      var proc := ParseProcessData(p.options, p.pid, procNow, obj.items);
      if proc.panic.Some? then proc
      else
        var sys := ParseSystemData(p.options, sysNow, obj.items, toInt64);
        Emitted(proc.records + sys.records, sys.panic)
    else ParseSystemData(p.options, sysNow, obj.items, toInt64)
  }

  function Wrap(records: seq<Record>): (o: seq<Output>)
    ensures |o| == |records| && forall i :: 0 <= i < |records| ==> o[i] == Decoded(records[i])
  {
    seq(|records|, i requires 0 <= i < |records| => Decoded(records[i]))
  }

  /** One unsolicited message delivered to a started profiler's callback. */
  function OnEvent(p: Profiler, c: DtxClient, obj: Value, procNow: int, sysNow: int, toInt64: Value -> Int64): (h: Handled)
    // once cancelled, the event issues the device-side stop and is not looked at
    ensures p.cancelled ==>
      h == Handled(p, Control(c, StopControl(p.kind)).client, None)
    // otherwise no call is made
    ensures !p.cancelled ==> h.client == c
    // only the output channel changes, and it only grows
    ensures h.profiler == p.(out := h.profiler.out)
    ensures |h.profiler.out| >= |p.out| && h.profiler.out[..|p.out|] == p.out
    // network and graphics forward map payloads and drop everything else
    ensures !p.cancelled && p.kind != CpuMemory ==>
      h.panic.None? && h.profiler.out == p.out + (if obj.Dict? then [Raw(obj.entries)] else [])
    // cpu/memory forwards every decoded record, in order, and reports the decoder's panic
    ensures !p.cancelled && p.kind == CpuMemory ==>
      && h.profiler.out == p.out + Wrap(DecodeSample(p, obj, procNow, sysNow, toInt64).records)
      && h.panic == DecodeSample(p, obj, procNow, sysNow, toInt64).panic
  {
    if p.cancelled then Handled(p, Control(c, StopControl(p.kind)).client, None)
    else match p.kind
      case CpuMemory =>
        var e := DecodeSample(p, obj, procNow, sysNow, toInt64);
        Handled(p.(out := p.out + Wrap(e.records)), c, e.panic)
      case _ =>
        if obj.Dict? then Handled(p.(out := p.out + [Raw(obj.entries)]), c, None)
        else Handled(p, c, None)
  }

  // ---------------------------------------------------------------------
  // Lifecycle properties

  /** `Stop` before `Start` changes nothing, and events then still reach the decoder. */
  lemma StopBeforeStartIsNoop(kind: Kind, pid: int, config: map<string, Value>, options: SampleOptions)
    ensures Stop(NewProfiler(kind, pid, config, options)) == NewProfiler(kind, pid, config, options)
    ensures !Stop(NewProfiler(kind, pid, config, options)).cancelled
  {
  }

  /** After a successful start and a stop, every later event sends the stop control and nothing is output. */
  lemma StoppedProfilerSendsStop(p: Profiler, c: DtxClient, obj: Value, procNow: int, sysNow: int, toInt64: Value -> Int64)
    requires Start(p, c).result.Success?
    requires var q := Stop(Start(p, c).profiler);
      var c1 := Start(p, c).client;
      var req := ControlRequest(StopControl(p.kind));
      req.channel in c1.channels && c1.writable && Encodable(c1, req.args)
    ensures var q := Stop(Start(p, c).profiler);
      var c1 := Start(p, c).client;
      var h := OnEvent(q, c1, obj, procNow, sysNow, toInt64);
      var req := ControlRequest(StopControl(p.kind));
      && h.profiler.out == []
      && h.client.sent == c1.sent + [NextMessage(c1, req.channel, req.selector, req.args, true)]
  {
  }

  /** A cpu/memory payload that is not a list of at least two elements is ignored. */
  lemma ShortPayloadIgnored(p: Profiler, c: DtxClient, obj: Value, procNow: int, sysNow: int, toInt64: Value -> Int64)
    requires p.kind == CpuMemory && !p.cancelled
    requires !obj.List? || |obj.items| < 2
    ensures OnEvent(p, c, obj, procNow, sysNow, toInt64) == Handled(p, c, None)
  {
  }

  /** With a pid, a decoded sample starts with the process record, stamped with the first clock reading, and every later record carries the second. */
  lemma DecodeSampleProcessFirst(p: Profiler, obj: Value, procNow: int, sysNow: int, toInt64: Value -> Int64)
    requires p.pid != 0 && obj.List? && |obj.items| >= 2
    ensures var r := DecodeSample(p, obj, procNow, sysNow, toInt64);
      && |r.records| >= 1
      && r.records[0].ProcessRecord? && r.records[0].pid == p.pid
      && r.records[0].timestamp == procNow
      && forall i :: 1 <= i < |r.records| ==>
           !r.records[i].ProcessRecord? && r.records[i].timestamp == sysNow
  {
    var proc := ParseProcessData(p.options, p.pid, procNow, obj.items);
    if proc.panic.None? {
      var sys := ParseSystemData(p.options, sysNow, obj.items, toInt64);
      NoProcessAfterHead(proc.records, sys.records, sysNow);
    }
  }

  lemma NoProcessAfterHead(head: seq<Record>, tail: seq<Record>, now: int)
    requires |head| == 1
    requires forall i :: 0 <= i < |tail| ==> !tail[i].ProcessRecord? && tail[i].timestamp == now
    ensures forall i :: 1 <= i < |head + tail| ==>
      !(head + tail)[i].ProcessRecord? && (head + tail)[i].timestamp == now
  {
    forall i | 1 <= i < |head + tail|
      ensures !(head + tail)[i].ProcessRecord? && (head + tail)[i].timestamp == now
    {
      assert (head + tail)[i] == tail[i - 1];
    }
  }

  /** With a pid, a sample yields the process record first and then the system records. */
  lemma ProcessRecordFirst(p: Profiler, c: DtxClient, obj: Value, procNow: int, sysNow: int, toInt64: Value -> Int64)
    requires p.kind == CpuMemory && !p.cancelled && p.pid != 0
    requires obj.List? && |obj.items| >= 2
    ensures var h := OnEvent(p, c, obj, procNow, sysNow, toInt64);
      && |h.profiler.out| > |p.out|
      && h.profiler.out[|p.out|] == Decoded(DecodeSample(p, obj, procNow, sysNow, toInt64).records[0])
      && h.profiler.out[|p.out|].record.ProcessRecord?
      && h.profiler.out[|p.out|].record.pid == p.pid
      && forall i :: |p.out| < i < |h.profiler.out| ==>
           h.profiler.out[i].Decoded? && !h.profiler.out[i].record.ProcessRecord?
  {
    var r := DecodeSample(p, obj, procNow, sysNow, toInt64);
    DecodeSampleProcessFirst(p, obj, procNow, sysNow, toInt64);
    var h := OnEvent(p, c, obj, procNow, sysNow, toInt64);
    assert h.profiler.out == p.out + Wrap(r.records);
    forall i | |p.out| < i < |h.profiler.out|
      ensures h.profiler.out[i].Decoded? && !h.profiler.out[i].record.ProcessRecord?
    {
      assert h.profiler.out[i] == Decoded(r.records[i - |p.out|]);
    }
  }

  /** Without a pid, a sample yields system records only, all stamped with the system decoder's reading. */
  lemma NoPidNoProcessRecord(p: Profiler, c: DtxClient, obj: Value, procNow: int, sysNow: int, toInt64: Value -> Int64)
    requires p.kind == CpuMemory && !p.cancelled && p.pid == 0
    ensures var h := OnEvent(p, c, obj, procNow, sysNow, toInt64);
      forall i :: |p.out| <= i < |h.profiler.out| ==>
        && h.profiler.out[i].Decoded? && !h.profiler.out[i].record.ProcessRecord?
        && h.profiler.out[i].record.timestamp == sysNow
  {
    var h := OnEvent(p, c, obj, procNow, sysNow, toInt64);
    var r := DecodeSample(p, obj, procNow, sysNow, toInt64);
    assert h.profiler.out == p.out + Wrap(r.records);
    forall i | |p.out| <= i < |h.profiler.out|
      ensures && h.profiler.out[i].Decoded? && !h.profiler.out[i].record.ProcessRecord?
              && h.profiler.out[i].record.timestamp == sysNow
    {
      assert h.profiler.out[i] == Decoded(r.records[i - |p.out|]);
    }
  }

  /** The graphics profiler asks for rate 1000, so 10 reaches the device, before it starts sampling. */
  lemma GraphicStartSequence(p: Profiler, c: DtxClient)
    requires p.kind == Graphic
    requires GraphicsOpengl in c.channels && c.writable
    requires Int(10) !in c.unencodable && Int(0) !in c.unencodable
    requires c.nextMsgId in c.replies && c.nextMsgId + 1 in c.replies
    ensures var s := Start(p, c);
      && s.result.Success?
      && s.client.sent == c.sent + [
           DtxMessage(c.nextMsgId, "setSamplingRate:", [Int(10)], c.channels[GraphicsOpengl], true),
           DtxMessage(c.nextMsgId + 1, "startSamplingAtTimeInterval:", [Int(0)], c.channels[GraphicsOpengl], true)]
      && s.client.callbacks[""] == GraphicSampler
  {
    assert GoDiv(1000, 100) == 10;
    assert Encodable(c, [Int(10)]);
    var first := Control(c, SetGraphicRate(1000));
    assert Encodable(first.client, [Int(0)]);
  }

  // ---------------------------------------------------------------------
  // Several profilers on one connection

  /** The three profilers sharing one instruments connection and its callback table. */
  datatype Session = Session(client: DtxClient, cpu: Profiler, network: Profiler, graphic: Profiler)

  /** An unsolicited message, routed through the callback registered for the empty selector. */
  function Deliver(s: Session, obj: Value, procNow: int, sysNow: int, toInt64: Value -> Int64): (r: Result<Session, string>)
    ensures "" !in s.client.callbacks ==> r == Success(s)
    ensures r.Success? && "" in s.client.callbacks && s.client.callbacks[""] != CpuMemorySampler ==>
      r.value.cpu == s.cpu
    ensures r.Success? && "" in s.client.callbacks && s.client.callbacks[""] != NetworkSampler ==>
      r.value.network == s.network
    ensures r.Success? && "" in s.client.callbacks && s.client.callbacks[""] != GraphicSampler ==>
      r.value.graphic == s.graphic
    // the registered handler's profiler receives the event, and the client is the handler's
    ensures "" in s.client.callbacks && s.client.callbacks[""] == CpuMemorySampler ==>
      var h := OnEvent(s.cpu, s.client, obj, procNow, sysNow, toInt64);
      && (h.panic.Some? ==> r == Failure(h.panic.value))
      && (h.panic.None? ==> r == Success(s.(client := h.client, cpu := h.profiler)))
    ensures "" in s.client.callbacks && s.client.callbacks[""] == NetworkSampler ==>
      var h := OnEvent(s.network, s.client, obj, procNow, sysNow, toInt64);
      r == Success(s.(client := h.client, network := h.profiler))
    ensures "" in s.client.callbacks && s.client.callbacks[""] == GraphicSampler ==>
      var h := OnEvent(s.graphic, s.client, obj, procNow, sysNow, toInt64);
      r == Success(s.(client := h.client, graphic := h.profiler))
  {
    if "" !in s.client.callbacks then Success(s)
    else match s.client.callbacks[""]
      case CpuMemorySampler =>
        var h := OnEvent(s.cpu, s.client, obj, procNow, sysNow, toInt64);
        if h.panic.Some? then Failure(h.panic.value) else Success(s.(client := h.client, cpu := h.profiler))
      case NetworkSampler =>
        var h := OnEvent(s.network, s.client, obj, procNow, sysNow, toInt64);
        Success(s.(client := h.client, network := h.profiler))
      case GraphicSampler =>
        var h := OnEvent(s.graphic, s.client, obj, procNow, sysNow, toInt64);
        Success(s.(client := h.client, graphic := h.profiler))
  }

  /**
    All three profilers register under the same empty selector, so the one started
    last receives every unsolicited message: starting graphics after network leaves
    the network profiler's output untouched.
  */
  lemma LastStartedProfilerReceives(s: Session, obj: Value, procNow: int, sysNow: int, toInt64: Value -> Int64)
    requires s.network.kind == Network && s.graphic.kind == Graphic
    ensures var n := Start(s.network, s.client);
      var g := Start(s.graphic, n.client);
      var s2 := s.(client := g.client, network := n.profiler, graphic := g.profiler);
      n.result.Success? && g.result.Success? ==>
        && g.client.callbacks[""] == GraphicSampler
        && Deliver(s2, obj, procNow, sysNow, toInt64).Success?
        && Deliver(s2, obj, procNow, sysNow, toInt64).value.network.out == []
  {
  }
}
