/**
  The instruments facade (service/instruments.go): named remote calls over the
  DTX client, each opening the channel of its owning service and performing one
  invoke, plus the best-effort decoding of the list-valued replies.

  JSON marshalling of a reply element into a typed record is done by library
  code; it is a parameter here (`decode`), which yields `None` exactly when the
  marshal or unmarshal step fails.
*/
module Instruments {
  import opened Wrappers
  import opened Values
  import opened Errors
  import opened Dtx

  const ProcessControl: string := "com.apple.instruments.server.services.processcontrol"
  const DeviceInfoService: string := "com.apple.instruments.server.services.deviceinfo"
  const AppListing: string := "com.apple.instruments.server.services.device.applictionListing"
  const GraphicsOpengl: string := "com.apple.instruments.server.services.graphics.opengl"
  const Sysmontap: string := "com.apple.instruments.server.services.sysmontap"
  const Networking: string := "com.apple.instruments.server.services.networking"

  const LaunchSelector: string :=
    "launchSuspendedProcessWithDevicePath:bundleIdentifier:environment:arguments:options:"

  /** The message the next successful send on `channel` will write. */
  function NextMessage(c: DtxClient, channel: string, selector: string, args: seq<Value>, expectsReply: bool)
    : DtxMessage
    requires channel in c.channels
  {
    DtxMessage(c.nextMsgId, selector, args, c.channels[channel], expectsReply)
  }

  /** Every argument is one the auxiliary-buffer encoder accepts. */
  predicate Encodable(c: DtxClient, args: seq<Value>) {
    forall i :: 0 <= i < |args| ==> args[i] !in c.unencodable
  }

  /** `instruments.call`: channel, auxiliaries appended in order, one reply-expecting invoke. */
  function CallService(c: DtxClient, channel: string, selector: string, aux: seq<Value>)
    : (s: Step<Option<Value>>)
    ensures channel !in c.channels || !Encodable(c, aux) || !c.writable ==>
      s.client == c && s.result.Failure?
    ensures channel in c.channels && Encodable(c, aux) && c.writable ==>
      && s.client.sent == c.sent + [NextMessage(c, channel, selector, aux, true)]
      && s.client.awaited == c.awaited + [c.nextMsgId]
      && (s.result.Success? <==> c.nextMsgId in c.replies)
  {
    var chanId := RequestChannel(c, channel);
    if chanId.Failure? then Step(Failure(chanId.error), c)
    else
      var args := AppendObjects(c, aux);
      if args.Failure? then Step(Failure(args.error), c)
      else Invoke(c, selector, args.value, chanId.value, true)
  }

  /** The facade's `call` and the client's `Call` are the same exchange. */
  lemma CallServiceIsClientCall(c: DtxClient, channel: string, selector: string, aux: seq<Value>)
    ensures CallService(c, channel, selector, aux) == Dtx.Call(c, channel, selector, aux)
  {
  }

  // ---------------------------------------------------------------------
  // AppLaunch and AppKill

  datatype LaunchSettings = LaunchSettings(
    appPath: string,
    environment: Value,
    arguments: Value,
    options: map<string, Value>)

  /** The settings before any option is applied (service/instruments.go:45-50). */
  const DefaultLaunch: LaunchSettings :=
    LaunchSettings("", Null, Null, map["StartSuspendedKey" := Int(0), "KillExisting" := Int(0)])

  /** A functional option, as Go's `AppLaunchOption`. */
  type LaunchOption = LaunchSettings -> LaunchSettings

  /** Applies the options left to right. */
  function ApplyLaunchOptions(s: LaunchSettings, opts: seq<LaunchOption>): LaunchSettings
    decreases |opts|
  {
    if |opts| == 0 then s else ApplyLaunchOptions(opts[0](s), opts[1..])
  }

  /** Options compose in order: applying `a + b` is applying `a`, then `b`. */
  lemma {:induction false} ApplyLaunchOptionsInOrder(s: LaunchSettings, a: seq<LaunchOption>, b: seq<LaunchOption>)
    ensures ApplyLaunchOptions(s, a + b) == ApplyLaunchOptions(ApplyLaunchOptions(s, a), b)
    decreases |a|
  {
    if |a| == 0 {
      assert a + b == b;
    } else {
      assert (a + b)[1..] == a[1..] + b;
      ApplyLaunchOptionsInOrder(a[0](s), a[1..], b);
    }
  }

  /** The launch arguments in wire order: path, bundle id, environment, arguments, options. */
  function LaunchArgs(s: LaunchSettings, bundleID: string): (args: seq<Value>)
    ensures |args| == 5
    ensures args[0] == Str(s.appPath) && args[1] == Str(bundleID)
    ensures args[2] == s.environment && args[3] == s.arguments && args[4] == Dict(s.options)
  {
    [Str(s.appPath), Str(bundleID), s.environment, s.arguments, Dict(s.options)]
  }

  /** Reads the launch reply: an NSError becomes its localized description, else the pid. */
  function LaunchReply(obj: Option<Value>): (r: Result<int, Error>)
    ensures obj.Some? && obj.value.NSError? && obj.value.userInfo.Dict? ==>
      r == Failure(Remote(Lookup(obj.value.userInfo.entries, "NSLocalizedDescription")))
    ensures r.Success? ==>
      && obj.Some? && obj.value.Int? && 0 <= obj.value.i < TwoTo64
      && r.value == Wrap64(obj.value.i)
    ensures obj.Some? && obj.value.Int? && 0 <= obj.value.i <= MaxInt64 ==> r == Success(obj.value.i)
  {
    match obj
    case None => Failure(Panic("nil launch result"))
    case Some(v) =>
      if v.NSError? then
        if v.userInfo.Dict? then Failure(Remote(Lookup(v.userInfo.entries, "NSLocalizedDescription")))
        else Failure(Panic("NSUserInfo is not a map"))
      else match AsUint64(v)
        case Some(n) => Success(Wrap64(n))
        case None => Failure(Panic("launch result is not a uint64"))
  }

  /** `instruments.AppLaunch` (service/instruments.go:44-90). */
  function AppLaunch(c: DtxClient, bundleID: string, opts: seq<LaunchOption>): (s: Step<int>)
    ensures ProcessControl !in c.channels ==> s == Step(Failure(ChannelRefused(ProcessControl)), c)
    ensures var args := LaunchArgs(ApplyLaunchOptions(DefaultLaunch, opts), bundleID);
      ProcessControl in c.channels && Encodable(c, args) && c.writable ==>
        && s.client.sent == c.sent + [NextMessage(c, ProcessControl, LaunchSelector, args, true)]
        && (c.nextMsgId !in c.replies ==> s.result == Failure(ReplyFailed(c.nextMsgId)))
        && (c.nextMsgId in c.replies ==> s.result == LaunchReply(Some(c.replies[c.nextMsgId])))
    // an argument the encoder refuses, or a connection that cannot be written, aborts with nothing sent
    ensures var args := LaunchArgs(ApplyLaunchOptions(DefaultLaunch, opts), bundleID);
      ProcessControl in c.channels && (!Encodable(c, args) || !c.writable) ==>
        s.client == c && s.result.Failure?
  {
    var settings := ApplyLaunchOptions(DefaultLaunch, opts);
    var id := RequestChannel(c, ProcessControl);
    if id.Failure? then Step(Failure(id.error), c)
    else
      var args := AppendObjects(c, LaunchArgs(settings, bundleID));
      if args.Failure? then Step(Failure(args.error), c)
      else
        var inv := Invoke(c, LaunchSelector, args.value, id.value, true);
        if inv.result.Failure? then Step(Failure(inv.result.error), inv.client)
        else Step(LaunchReply(inv.result.value), inv.client)
  }

  /** With no options, the launch sends an empty path and both flags as 0. */
  lemma AppLaunchDefaults(c: DtxClient, bundleID: string)
    requires ProcessControl in c.channels && c.writable
    requires Encodable(c, LaunchArgs(DefaultLaunch, bundleID))
    ensures AppLaunch(c, bundleID, []).client.sent[|c.sent|].args ==
      [Str(""), Str(bundleID), Null, Null,
       Dict(map["StartSuspendedKey" := Int(0), "KillExisting" := Int(0)])]
  {
  }

  /** `instruments.AppKill` (service/instruments.go:134-151): fire-and-forget. */
  function AppKill(c: DtxClient, pid: int): (s: Step<()>)
    ensures ProcessControl !in c.channels || Int(pid) in c.unencodable || !c.writable ==>
      s.client == c && s.result.Failure?
    ensures ProcessControl in c.channels && Int(pid) !in c.unencodable && c.writable ==>
      && s.result.Success?
      && s.client.sent == c.sent + [NextMessage(c, ProcessControl, "killPid:", [Int(pid)], false)]
      && s.client.awaited == c.awaited
  {
    var id := RequestChannel(c, ProcessControl);
    if id.Failure? then Step(Failure(id.error), c)
    else
      var args := AppendObjects(c, [Int(pid)]);
      if args.Failure? then Step(Failure(args.error), c)
      else
        var inv := Invoke(c, "killPid:", args.value, id.value, false);
        if inv.result.Failure? then Step(Failure(inv.result.error), inv.client)
        else Step(Success(()), inv.client)
  }

  // ---------------------------------------------------------------------
  // List replies

  datatype Application = Application(bundleIdentifier: string, executableName: string, displayName: string)
  datatype Process = Process(pid: int, name: string)

  /** The element decoded from one map, as a (possibly empty) prefix. */
  function DecodedPrefix<T>(x: Value, decode: map<string, Value> -> Option<T>): (p: seq<T>)
    requires x.Dict?
    ensures |p| <= 1
  {
    var head := decode(x.entries);
    if head.Some? then [head.value] else []
  }

  /** Every element is a map. */
  predicate AllMaps(objs: seq<Value>) {
    forall i :: 0 <= i < |objs| ==> objs[i].Dict?
  }

  /**
    Best-effort list decoding: every element must be a map (Go's `v.(map[string]interface{})`
    panics otherwise); an element whose JSON round trip fails is skipped.
  */
  function DecodeBestEffort<T>(objs: seq<Value>, decode: map<string, Value> -> Option<T>)
    : (r: Result<seq<T>, Error>)
    ensures r.Success? <==> AllMaps(objs)
    ensures r.Success? ==> |r.value| <= |objs|
    decreases |objs|
  {
    if |objs| == 0 then Success([])
    else if !objs[0].Dict? then Failure(Panic("list element is not a map"))
    else
      var rest := DecodeBestEffort(objs[1..], decode);
      assert forall i :: 1 <= i < |objs| ==> objs[1..][i - 1] == objs[i];
      if rest.Failure? then Failure(rest.error)
      else Success(DecodedPrefix(objs[0], decode) + rest.value)
  }

  lemma DecodeBestEffortCons<T>(x: Value, rest: seq<Value>, decode: map<string, Value> -> Option<T>)
    requires x.Dict? && DecodeBestEffort(rest, decode).Success?
    ensures DecodeBestEffort([x] + rest, decode) ==
      Success(DecodedPrefix(x, decode) + DecodeBestEffort(rest, decode).value)
  {
    var xs := [x] + rest;
    assert xs[0] == x && xs[1..] == rest;
  }

  lemma SeqAssoc<T>(p: seq<T>, ra: seq<T>, rb: seq<T>)
    ensures p + (ra + rb) == (p + ra) + rb
  {
  }

  /** A decodable head element in front of a concatenation. */
  lemma DecodeBestEffortConsAppend<T>(x: Value, tail: seq<Value>, b: seq<Value>, decode: map<string, Value> -> Option<T>)
    requires x.Dict? && DecodeBestEffort(tail + b, decode).Success?
    ensures DecodeBestEffort([x] + tail + b, decode) ==
      Success(DecodedPrefix(x, decode) + DecodeBestEffort(tail + b, decode).value)
  {
    var tb := tail + b;
    assert [x] + tail + b == [x] + tb;
    DecodeBestEffortCons(x, tb, decode);
  }

  /** The inductive step of `DecodeBestEffortAppend`: one more decodable head element. */
  lemma DecodeBestEffortAppendStep<T>(x: Value, tail: seq<Value>, b: seq<Value>, decode: map<string, Value> -> Option<T>)
    requires x.Dict? && DecodeBestEffort(tail, decode).Success? && DecodeBestEffort(b, decode).Success?
    requires DecodeBestEffort(tail + b, decode) ==
      Success(DecodeBestEffort(tail, decode).value + DecodeBestEffort(b, decode).value)
    ensures DecodeBestEffort([x] + tail + b, decode) ==
      Success(DecodeBestEffort([x] + tail, decode).value + DecodeBestEffort(b, decode).value)
  {
    var p := DecodedPrefix(x, decode);
    var ra := DecodeBestEffort(tail, decode).value;
    var rb := DecodeBestEffort(b, decode).value;
    DecodeBestEffortConsAppend(x, tail, b, decode);
    DecodeBestEffortCons(x, tail, decode);
    SeqAssoc(p, ra, rb);
  }

  /** Decoding a concatenation decodes each part and keeps their order. */
  lemma {:induction false} DecodeBestEffortAppend<T>(a: seq<Value>, b: seq<Value>, decode: map<string, Value> -> Option<T>)
    requires DecodeBestEffort(a, decode).Success? && DecodeBestEffort(b, decode).Success?
    ensures DecodeBestEffort(a + b, decode) ==
      Success(DecodeBestEffort(a, decode).value + DecodeBestEffort(b, decode).value)
    decreases |a|
  {
    if |a| == 0 {
      assert a + b == b;
      assert DecodeBestEffort(a, decode).value == [];
      assert [] + DecodeBestEffort(b, decode).value == DecodeBestEffort(b, decode).value;
    } else {
      var tail := a[1..];
      assert a == [a[0]] + tail;
      assert a[0].Dict?;
      assert DecodeBestEffort(tail, decode).Success?;
      DecodeBestEffortAppend(tail, b, decode);
      DecodeBestEffortAppendStep(a[0], tail, b, decode);
    }
  }

  /** Nothing is dropped when every element decodes: the output is the decoded list, in order. */
  lemma {:induction false} DecodeBestEffortKeepsAll<T>(objs: seq<Value>, decode: map<string, Value> -> Option<T>)
    requires forall i :: 0 <= i < |objs| ==> objs[i].Dict? && decode(objs[i].entries).Some?
    ensures DecodeBestEffort(objs, decode).Success?
    ensures |DecodeBestEffort(objs, decode).value| == |objs|
    ensures forall i :: 0 <= i < |objs| ==>
      Some(DecodeBestEffort(objs, decode).value[i]) == decode(objs[i].entries)
    decreases |objs|
  {
    if |objs| > 0 {
      var tail := objs[1..];
      assert objs == [objs[0]] + tail;
      assert forall i :: 0 <= i < |tail| ==> tail[i] == objs[i + 1];
      DecodeBestEffortKeepsAll(tail, decode);
      DecodeBestEffortCons(objs[0], tail, decode);
    }
  }

  /** Every decoded element is the decoding of some input map: nothing is invented. */
  lemma {:induction false} DecodeBestEffortSound<T>(objs: seq<Value>, decode: map<string, Value> -> Option<T>)
    requires DecodeBestEffort(objs, decode).Success?
    ensures forall k :: 0 <= k < |DecodeBestEffort(objs, decode).value| ==>
      exists i :: 0 <= i < |objs| && objs[i].Dict? &&
        decode(objs[i].entries) == Some(DecodeBestEffort(objs, decode).value[k])
    decreases |objs|
  {
    if |objs| > 0 {
      var tail := objs[1..];
      assert objs == [objs[0]] + tail;
      assert forall i :: 0 <= i < |tail| ==> tail[i] == objs[i + 1];
      DecodeBestEffortSound(tail, decode);
      DecodeBestEffortCons(objs[0], tail, decode);
      var out := DecodeBestEffort(objs, decode).value;
      var p := DecodedPrefix(objs[0], decode);
      var rt := DecodeBestEffort(tail, decode).value;
      forall k | 0 <= k < |out|
        ensures exists i :: 0 <= i < |objs| && objs[i].Dict? && decode(objs[i].entries) == Some(out[k])
      {
        if k < |p| {
          assert decode(objs[0].entries) == Some(out[k]);
        } else {
          assert out[k] == rt[k - |p|];
          var i :| 0 <= i < |tail| && tail[i].Dict? && decode(tail[i].entries) == Some(rt[k - |p|]);
          assert objs[i + 1] == tail[i];
        }
      }
    }
  }

  /** `result.Obj.([]interface{})` followed by best-effort decoding. */
  function DecodeListReply<T>(obj: Option<Value>, decode: map<string, Value> -> Option<T>)
    : (r: Result<seq<T>, Error>)
    ensures obj.Some? && obj.value.List? ==> r == DecodeBestEffort(obj.value.items, decode)
    ensures !(obj.Some? && obj.value.List?) ==> r.Failure? && r.error.Panic?
  {
    if obj.Some? && obj.value.List? then DecodeBestEffort(obj.value.items, decode)
    else Failure(Panic("reply is not a list"))
  }

  /** `instruments.AppRunningProcesses` (service/instruments.go:153-191). */
  function AppRunningProcesses(c: DtxClient, decode: map<string, Value> -> Option<Process>)
    : (s: Step<seq<Process>>)
    ensures DeviceInfoService !in c.channels ==> s == Step(Failure(ChannelRefused(DeviceInfoService)), c)
    ensures DeviceInfoService in c.channels && c.writable ==>
      && s.client.sent == c.sent + [NextMessage(c, DeviceInfoService, "runningProcesses", [], true)]
      && (c.nextMsgId in c.replies ==> s.result == DecodeListReply(Some(c.replies[c.nextMsgId]), decode))
    // an unwritable connection aborts with nothing sent; a missing reply is the call's error
    ensures DeviceInfoService in c.channels && !c.writable ==> s.client == c && s.result.Failure?
    ensures DeviceInfoService in c.channels && c.writable && c.nextMsgId !in c.replies ==>
      s.result == Failure(ReplyFailed(c.nextMsgId))
  {
    var id := RequestChannel(c, DeviceInfoService);
    if id.Failure? then Step(Failure(id.error), c)
    else
      var inv := Invoke(c, "runningProcesses", [], id.value, true);
      if inv.result.Failure? then Step(Failure(inv.result.error), inv.client)
      else Step(DecodeListReply(inv.result.value, decode), inv.client)
  }

  datatype ListSettings = ListSettings(appsMatching: map<string, Value>, updateToken: string)

  const DefaultList: ListSettings := ListSettings(map[], "")

  type ListOption = ListSettings -> ListSettings

  function ApplyListOptions(s: ListSettings, opts: seq<ListOption>): ListSettings
    decreases |opts|
  {
    if |opts| == 0 then s else ApplyListOptions(opts[0](s), opts[1..])
  }

  const AppListSelector: string := "installedApplicationsMatching:registerUpdateToken:"

  /** `instruments.AppList` (service/instruments.go:193-245). */
  function AppList(c: DtxClient, opts: seq<ListOption>, decode: map<string, Value> -> Option<Application>)
    : (s: Step<seq<Application>>)
    ensures AppListing !in c.channels ==> s == Step(Failure(ChannelRefused(AppListing)), c)
    ensures var o := ApplyListOptions(DefaultList, opts);
      var args := [Dict(o.appsMatching), Str(o.updateToken)];
      AppListing in c.channels && Encodable(c, args) && c.writable ==>
        && s.client.sent == c.sent + [NextMessage(c, AppListing, AppListSelector, args, true)]
        && (c.nextMsgId in c.replies ==> s.result == DecodeListReply(Some(c.replies[c.nextMsgId]), decode))
    // an argument the encoder refuses, or an unwritable connection, aborts with nothing sent
    ensures var o := ApplyListOptions(DefaultList, opts);
      var args := [Dict(o.appsMatching), Str(o.updateToken)];
      AppListing in c.channels && (!Encodable(c, args) || !c.writable) ==> s.client == c && s.result.Failure?
    // a missing reply is the call's error
    ensures var o := ApplyListOptions(DefaultList, opts);
      var args := [Dict(o.appsMatching), Str(o.updateToken)];
      AppListing in c.channels && Encodable(c, args) && c.writable && c.nextMsgId !in c.replies ==>
        s.result == Failure(ReplyFailed(c.nextMsgId))
  {
    var o := ApplyListOptions(DefaultList, opts);
    var id := RequestChannel(c, AppListing);
    if id.Failure? then Step(Failure(id.error), c)
    else
      var args := AppendObjects(c, [Dict(o.appsMatching), Str(o.updateToken)]);
      if args.Failure? then Step(Failure(args.error), c)
      else
        var inv := Invoke(c, AppListSelector, args.value, id.value, true);
        if inv.result.Failure? then Step(Failure(inv.result.error), inv.client)
        else Step(DecodeListReply(inv.result.value, decode), inv.client)
  }

  // ---------------------------------------------------------------------
  // getPidByBundleId

  /** The index of the first element satisfying `p`, if any. */
  function FirstIndex<T>(xs: seq<T>, p: T -> bool): (r: Option<nat>)
    ensures r.None? <==> forall i :: 0 <= i < |xs| ==> !p(xs[i])
    ensures r.Some? ==>
      && r.value < |xs| && p(xs[r.value])
      && forall j :: 0 <= j < r.value ==> !p(xs[j])
    decreases |xs|
  {
    if |xs| == 0 then None
    else if p(xs[0]) then Some(0)
    else
      var rest := FirstIndex(xs[1..], p);
      assert forall i :: 1 <= i < |xs| ==> xs[i] == xs[1..][i - 1];
      if rest.None? then None else Some(rest.value + 1)
  }

  /** The executable name of the first app with this bundle id, or "" when there is none. */
  function ExecutableNameOf(apps: seq<Application>, bundleId: string): (name: string)
    ensures (forall i :: 0 <= i < |apps| ==> apps[i].bundleIdentifier != bundleId) ==> name == ""
    ensures forall i ::
      (0 <= i < |apps| && apps[i].bundleIdentifier == bundleId
       && forall j :: 0 <= j < i ==> apps[j].bundleIdentifier != bundleId)
      ==> name == apps[i].executableName
  {
    match FirstIndex(apps, (a: Application) => a.bundleIdentifier == bundleId)
    case None => ""
    case Some(k) => apps[k].executableName
  }

  /** Go's `(pid int, err error)` pair: on failure the pid is still observable. */
  datatype PidStep = PidStep(pid: int, err: Option<Error>, client: DtxClient)

  /** `instruments.getPidByBundleId` (service/instruments.go:404-435). */
  function GetPidByBundleId(c: DtxClient, bundleId: string,
                            decodeApp: map<string, Value> -> Option<Application>,
                            decodeProcess: map<string, Value> -> Option<Process>): (r: PidStep)
    // an app-list failure reports pid 0, not -1
    ensures AppList(c, [], decodeApp).result.Failure? ==>
      r.pid == 0 && r.err == Some(AppList(c, [], decodeApp).result.error)
    // every other failure reports pid -1
    ensures r.err.Some? && AppList(c, [], decodeApp).result.Success? ==> r.pid == -1
    // success: the pid of a running process named after the app's executable
    ensures r.err.None? ==>
      var apps := AppList(c, [], decodeApp);
      var procs := AppRunningProcesses(apps.client, decodeProcess);
      && apps.result.Success? && procs.result.Success?
      && var name := ExecutableNameOf(apps.result.value, bundleId);
         name != ""
         && exists k :: 0 <= k < |procs.result.value| && procs.result.value[k].name == name
              && r.pid == procs.result.value[k].pid
              && forall j :: 0 <= j < k ==> procs.result.value[j].name != name
    // conversely: a listed app with a running process named after its executable is found
    ensures
      var apps := AppList(c, [], decodeApp);
      var procs := AppRunningProcesses(apps.client, decodeProcess);
      var name := if apps.result.Success? then ExecutableNameOf(apps.result.value, bundleId) else "";
      (apps.result.Success? && procs.result.Success? && name != ""
       && exists k :: 0 <= k < |procs.result.value| && procs.result.value[k].name == name)
      ==> r.err.None?
  {
    var apps := AppList(c, [], decodeApp);
    if apps.result.Failure? then PidStep(0, Some(apps.result.error), apps.client)
    else
      var appName := ExecutableNameOf(apps.result.value, bundleId);
      if appName == "" then PidStep(-1, Some(Message("Can't find bundleId " + bundleId)), apps.client)
      else
        var procs := AppRunningProcesses(apps.client, decodeProcess);
        if procs.result.Failure? then PidStep(-1, Some(procs.result.error), procs.client)
        else
          match FirstIndex(procs.result.value, (p: Process) => p.name == appName)
          case Some(k) => PidStep(procs.result.value[k].pid, None, procs.client)
          case None => PidStep(-1, Some(Message("can't find pid by bundleId: " + bundleId)), procs.client)
  }

  /** An app that is listed but not running is reported as not found, with pid -1. */
  lemma GetPidNotRunning(c: DtxClient, bundleId: string,
                         decodeApp: map<string, Value> -> Option<Application>,
                         decodeProcess: map<string, Value> -> Option<Process>)
    requires AppList(c, [], decodeApp).result.Success?
    requires var apps := AppList(c, [], decodeApp);
      var procs := AppRunningProcesses(apps.client, decodeProcess);
      procs.result.Success? &&
      forall j :: 0 <= j < |procs.result.value| ==>
        procs.result.value[j].name != ExecutableNameOf(apps.result.value, bundleId)
    ensures GetPidByBundleId(c, bundleId, decodeApp, decodeProcess).pid == -1
    ensures GetPidByBundleId(c, bundleId, decodeApp, decodeProcess).err.Some?
  {
  }

  // ---------------------------------------------------------------------
  // Sampling control calls

  /** The device-side sampling controls the profilers issue. */
  datatype SampleControl =
    | SetCpuMemoryConfig(config: map<string, Value>)
    | StartCpuMemory
    | StopCpuMemory
    | SetNetworkConfig
    | StartNetwork
    | StopNetwork
    | SetGraphicRate(rate: int)
    | StartGraphic
    | StopGraphic

  datatype Request = Request(channel: string, selector: string, args: seq<Value>)

  /** The channel, selector and arguments of each control (service/instruments.go:389-473). */
  function ControlRequest(k: SampleControl): Request {
    match k
    case SetCpuMemoryConfig(config) => Request(Sysmontap, "setConfig:", [Dict(config)])
    case StartCpuMemory => Request(Sysmontap, "start", [])
    case StopCpuMemory => Request(Sysmontap, "stop", [])
    case SetNetworkConfig => Request(Networking, "replayLastRecordedSession", [])
    case StartNetwork => Request(Networking, "startMonitoring", [])
    case StopNetwork => Request(Networking, "stopMonitoring", [])
    case SetGraphicRate(rate) => Request(GraphicsOpengl, "setSamplingRate:", [Int(GoDiv(rate, 100))])
    case StartGraphic => Request(GraphicsOpengl, "startSamplingAtTimeInterval:", [Int(0)])
    case StopGraphic => Request(GraphicsOpengl, "stopSampling", [])
  }

  function Control(c: DtxClient, k: SampleControl): Step<Option<Value>> {
    var req := ControlRequest(k);
    CallService(c, req.channel, req.selector, req.args)
  }

  /** Each stop control addresses the same service channel as its start control. */
  lemma StopMatchesStart()
    ensures ControlRequest(StopCpuMemory).channel == ControlRequest(StartCpuMemory).channel
    ensures ControlRequest(StopNetwork).channel == ControlRequest(StartNetwork).channel
    ensures ControlRequest(StopGraphic).channel == ControlRequest(StartGraphic).channel
  {
  }

  /** `SetGraphicSampleRate(r)` sends r/100, truncated toward zero as Go does. */
  lemma {:induction false} GraphicSampleRateScaled(c: DtxClient, rate: int)
    requires GraphicsOpengl in c.channels && c.writable && Int(GoDiv(rate, 100)) !in c.unencodable
    ensures var s := Control(c, SetGraphicRate(rate));
      var q := s.client.sent[|c.sent|].args[0].i;
      && s.client.sent[|c.sent|].selector == "setSamplingRate:"
      && Abs(rate - q * 100) < 100
      && (rate >= 0 ==> q == rate / 100)
      && (rate < 0 ==> q == -((-rate) / 100))
  {
    var s := Control(c, SetGraphicRate(rate));
    assert Encodable(c, [Int(GoDiv(rate, 100))]);
    assert s.client.sent[|c.sent|] == NextMessage(c, GraphicsOpengl, "setSamplingRate:", [Int(GoDiv(rate, 100))], true);
  }
}
