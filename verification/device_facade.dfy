/**
  The device facade (service/device.go:28-380, 390-600): opening a lockdown
  connection, the lockdown `GetValue` session bracket, the lazily created and
  cached service handles, the image-mounter entry points and the usbmux
  connect request.

  The device's answers are a fixed environment (`Env`): whether each lockdown
  step succeeds, what each query returns, which services start. The lockdown
  operations a call performs are appended to the device's log, so that a
  contract can say which operations happened and in what order.
*/
module DeviceFacade {
  import opened Wrappers
  import opened Values
  import opened Errors

  /** The lockdown services the facade obtains handles for. */
  datatype ServiceKind =
    | ImageMounter | Screenshot | SimulateLocation | InstallationProxy | Instruments | Afc
    | HouseArrest | SyslogRelay | SpringBoard | CrashReportMover | Pcapd | Testmanagerd | DiagnosticsRelay

  /** The accessors that return the stored handle when there is one. */
  predicate Memoised(k: ServiceKind) {
    !(k.Pcapd? || k.Testmanagerd? || k.DiagnosticsRelay?)
  }

  /** The accessors that store the handle they create (Pcapd and DiagnosticsRelay store but never reuse it). */
  predicate Stored(k: ServiceKind) {
    !k.Testmanagerd?
  }

  /** One lockdown-level operation, as the device sees it. */
  datatype LockdownOp =
    | OpenLockdown                      // usbmux connect to the lockdown port and product-version query
    | Handshake
    | StartSession
    | Query(domain: string, key: string)
    | StopSession
    | StartService(kind: ServiceKind)

  /** How the device answers. */
  datatype Env = Env(
    connectOk: bool,                              // the usbmux connect to port 62078 succeeds
    productVersionOk: bool,                       // the product-version query succeeds
    pairRecordAfterOpen: bool,                    // a freshly opened lockdown already holds a pair record
    handshakeOk: bool,
    startSessionOk: bool,
    values: map<(string, string), Value>,         // the lockdown values; a missing pair is an error
    stopSessionOk: bool,
    servicesOk: set<ServiceKind>)                 // the services whose start succeeds

  /** The facade's state: the stored handles, the next handle number, and the operations so far. */
  datatype Device = Device(handles: map<ServiceKind, nat>, nextHandle: nat, ops: seq<LockdownOp>)

  const LockdownPort: int := 62078

  /** `LockdownService` (service/device.go:165-179): never memoised; always opens a new connection. */
  function LockdownService(d: Device, env: Env): (r: (Result<(), Error>, Device))
    ensures r.1 == d.(ops := d.ops + [OpenLockdown])
    ensures r.0.Success? <==> env.connectOk && env.productVersionOk
  {
    var d' := d.(ops := d.ops + [OpenLockdown]);
    if !env.connectOk then (Failure(Transport("connect")), d')
    else if !env.productVersionOk then (Failure(Transport("product version")), d')
    else (Success(()), d')
  }

  /** Go's `(v, err)` from `GetValue`: a failing stop returns the value together with the error. */
  datatype Fetched = Fetched(value: Option<Value>, err: Option<Error>, device: Device)

  /** `device.GetValue` (service/device.go:188-205). */
  function GetValue(d: Device, env: Env, domain: string, key: string): (f: Fetched)
    // the operations form one bracket; the handshake only when the lockdown holds no pair record
    ensures |f.device.ops| > |d.ops| && f.device.ops[..|d.ops|] == d.ops && f.device.ops[|d.ops|] == OpenLockdown
    ensures f.device.handles == d.handles && f.device.nextHandle == d.nextHandle
    // a value is returned exactly when the query answered, and it is the device's value
    ensures f.value.Some? <==>
      env.connectOk && env.productVersionOk && (env.pairRecordAfterOpen || env.handshakeOk)
      && env.startSessionOk && (domain, key) in env.values
    ensures f.value.Some? ==> f.value.value == env.values[(domain, key)]
    ensures f.err.None? <==> f.value.Some? && env.stopSessionOk
  {
    var lr := LockdownService(d, env); var conn := lr.0; var d1 := lr.1;
    if conn.Failure? then Fetched(None, Some(conn.error), d1)
    else
      var d2 := if env.pairRecordAfterOpen then d1 else d1.(ops := d1.ops + [Handshake]);
      if !env.pairRecordAfterOpen && !env.handshakeOk then Fetched(None, Some(Transport("handshake")), d2)
      else
        var d3 := d2.(ops := d2.ops + [StartSession]);
        if !env.startSessionOk then Fetched(None, Some(Transport("start session")), d3)
        else
          var d4 := d3.(ops := d3.ops + [Query(domain, key)]);
          if (domain, key) !in env.values then Fetched(None, Some(Transport("query")), d4)
          else
            var d5 := d4.(ops := d4.ops + [StopSession]);
            var v := env.values[(domain, key)];
            if !env.stopSessionOk then Fetched(Some(v), Some(Transport("stop session")), d5)
            else Fetched(Some(v), None, d5)
  }

  /**
    Stop-session is called exactly when a value comes back, and the handshake
    only when the lockdown holds no pair record.
  */
  lemma GetValueStopsExactlyWhenAnswered(d: Device, env: Env, domain: string, key: string)
    ensures var t := GetValue(d, env, domain, key).device.ops[|d.ops|..];
      StopSession in t <==> GetValue(d, env, domain, key).value.Some?
    ensures Handshake in GetValue(d, env, domain, key).device.ops[|d.ops|..] ==> !env.pairRecordAfterOpen
  {
    var t := GetValue(d, env, domain, key).device.ops[|d.ops|..];
    var h: seq<LockdownOp> := if env.pairRecordAfterOpen then [] else [Handshake];
    if !(env.connectOk && env.productVersionOk) {
      assert t == [OpenLockdown];
    } else if !env.pairRecordAfterOpen && !env.handshakeOk {
      assert t == [OpenLockdown, Handshake];
    } else if !env.startSessionOk {
      assert t == [OpenLockdown] + h + [StartSession];
    } else if (domain, key) !in env.values {
      assert t == [OpenLockdown] + h + [StartSession, Query(domain, key)];
    } else {
      assert t == [OpenLockdown] + h + [StartSession, Query(domain, key), StopSession];
    }
  }

  /** The full bracket, in order: open, handshake only without a pair record, start, query, stop. */
  lemma GetValueBracket(d: Device, env: Env, domain: string, key: string)
    requires env.connectOk && env.productVersionOk && env.startSessionOk && (domain, key) in env.values
    requires env.pairRecordAfterOpen || env.handshakeOk
    ensures GetValue(d, env, domain, key).device.ops == d.ops
      + [OpenLockdown] + (if env.pairRecordAfterOpen then [] else [Handshake])
      + [StartSession, Query(domain, key), StopSession]
  {
  }

  /** A failing query returns at once: the session is left open and no value comes back. */
  lemma GetValueQueryErrorSkipsStop(d: Device, env: Env, domain: string, key: string)
    requires env.connectOk && env.productVersionOk && env.startSessionOk
    requires env.pairRecordAfterOpen || env.handshakeOk
    requires (domain, key) !in env.values
    ensures var f := GetValue(d, env, domain, key);
      && f.value.None? && f.err.Some?
      && f.device.ops[|f.device.ops| - 1] == Query(domain, key)
      && StopSession !in f.device.ops[|d.ops|..]
  {
  }

  // ---------------------------------------------------------------------
  // Service accessors

  datatype Obtained = Obtained(handle: Result<nat, Error>, device: Device)

  /**
    The `*Service` accessors (service/device.go:214-226, 246-259, 268-280, 296-308,
    324-336, 380-388, 390-402, 453-479, 521-533, 558-570, 586-598): a stored
    handle is returned as is; otherwise lockdown is opened and the service started.
  */
  function Service(d: Device, env: Env, k: ServiceKind): (o: Obtained)
    // a memoised accessor with a stored handle touches nothing
    ensures Memoised(k) && k in d.handles ==> o == Obtained(Success(d.handles[k]), d)
    // otherwise lockdown is opened anew
    ensures !(Memoised(k) && k in d.handles) ==>
      |o.device.ops| > |d.ops| && o.device.ops[..|d.ops|] == d.ops && o.device.ops[|d.ops|] == OpenLockdown
    ensures !(Memoised(k) && k in d.handles) ==>
      (o.handle.Success? <==> env.connectOk && env.productVersionOk && k in env.servicesOk)
    // a new handle is fresh, and stored unless the accessor never stores
    ensures !(Memoised(k) && k in d.handles) && o.handle.Success? ==>
      && o.handle.value == d.nextHandle
      && o.device.handles == (if Stored(k) then d.handles[k := d.nextHandle] else d.handles)
    ensures o.handle.Failure? ==> o.device.handles == d.handles
  {
    if Memoised(k) && k in d.handles then Obtained(Success(d.handles[k]), d)
    else
      var lr := LockdownService(d, env); var conn := lr.0; var d1 := lr.1;
      if conn.Failure? then Obtained(Failure(conn.error), d1)
      else
        var d2 := d1.(ops := d1.ops + [StartService(k)]);
        if k !in env.servicesOk then Obtained(Failure(Transport("start service")), d2)
        else
          var h := d2.nextHandle;
          var handles := if Stored(k) then d2.handles[k := h] else d2.handles;
          Obtained(Success(h), d2.(handles := handles, nextHandle := h + 1))
  }

  /** Asking a memoised accessor twice yields the same handle, and the second ask opens nothing. */
  lemma MemoisedServiceReused(d: Device, env: Env, k: ServiceKind)
    requires Memoised(k)
    requires Service(d, env, k).handle.Success?
    ensures var first := Service(d, env, k);
      var second := Service(first.device, env, k);
      && second.handle == first.handle
      && second.device == first.device
  {
  }

  /** The packet-capture accessor does not reuse its handle: each ask opens lockdown and starts a new one. */
  lemma PcapdNotReused(d: Device, env: Env)
    requires env.connectOk && env.productVersionOk && Pcapd in env.servicesOk
    ensures var first := Service(d, env, Pcapd);
      var second := Service(first.device, env, Pcapd);
      && second.handle.Success? && first.handle.Success?
      && second.handle.value != first.handle.value
      && second.device.ops == d.ops + [OpenLockdown, StartService(Pcapd), OpenLockdown, StartService(Pcapd)]
  {
  }

  /** `LockdownService` itself is not memoised: two calls open two connections. */
  lemma LockdownNotMemoised(d: Device, env: Env)
    ensures LockdownService(LockdownService(d, env).1, env).1.ops == d.ops + [OpenLockdown, OpenLockdown]
  {
  }

  // ---------------------------------------------------------------------
  // Image mounter entry points

  /** The image type `Images` asks for: the first argument, or "Developer" with none. */
  function ImageType(imgType: seq<string>): (t: string)
    ensures |imgType| > 0 ==> t == imgType[0]
    ensures |imgType| == 0 ==> t == "Developer"
  {
    if |imgType| == 0 then "Developer" else imgType[0]
  }

  datatype Listed = Listed(signatures: Result<seq<Value>, Error>, device: Device)

  /** `device.Images` (service/device.go:228-236); the mounter's own lookup is `lookup`. */
  function Images(d: Device, env: Env, imgType: seq<string>, lookup: string -> Result<seq<Value>, Error>)
    : (l: Listed)
    ensures Service(d, env, ImageMounter).handle.Failure? ==>
      l == Listed(Failure(Service(d, env, ImageMounter).handle.error), Service(d, env, ImageMounter).device)
    ensures Service(d, env, ImageMounter).handle.Success? ==>
      l == Listed(lookup(ImageType(imgType)), Service(d, env, ImageMounter).device)
  {
    var o := Service(d, env, ImageMounter);
    if o.handle.Failure? then Listed(Failure(o.handle.error), o.device)
    else Listed(lookup(ImageType(imgType)), o.device)
  }

  /** `Images()` with no argument is `Images("Developer")`; arguments after the first are ignored. */
  lemma ImagesDefaultsToDeveloper(d: Device, env: Env, lookup: string -> Result<seq<Value>, Error>, more: seq<string>)
    ensures Images(d, env, [], lookup) == Images(d, env, ["Developer"], lookup)
    ensures Images(d, env, ["Developer"] + more, lookup) == Images(d, env, [], lookup)
  {
  }

  /** Where the developer image is staged on the device before mounting. */
  const StagingPath: string := "/private/var/mobile/Media/PublicStaging/staging.dimage"

  /** An upload-and-mount request as the image mounter receives it. */
  datatype MountRequest = MountRequest(imageType: string, devicePath: string, dmgPath: string, signaturePath: string)

  /** `device.MountDeveloperDiskImage` (service/device.go:238-244): the request it hands the mounter. */
  function MountRequestFor(d: Device, env: Env, dmgPath: string, signaturePath: string)
    : (r: (Result<MountRequest, Error>, Device))
    ensures r.0.Success? <==> Service(d, env, ImageMounter).handle.Success?
    ensures r.0.Success? ==> r.0.value == MountRequest("Developer", StagingPath, dmgPath, signaturePath)
  {
    var o := Service(d, env, ImageMounter);
    if o.handle.Failure? then (Failure(o.handle.error), o.device)
    else (Success(MountRequest("Developer", StagingPath, dmgPath, signaturePath)), o.device)
  }

  // ---------------------------------------------------------------------
  // NewConnect

  /** How each usbmux step of a connect request turns out; `reply` is the acknowledgement received. */
  datatype ConnectEnv = ConnectEnv(clientOk: bool, packetOk: bool, sendOk: bool, reply: Option<Value>)

  /** The outcome of `NewConnect`: the connection (or error) and whether the new client was closed. */
  datatype Connected = Connected(conn: Result<(), Error>, closed: bool)

  /** `device.NewConnect` (service/device.go:62-87). */
  function NewConnect(e: ConnectEnv): (r: Connected)
    // success exactly when every step succeeds; the acknowledgement's content is not read
    ensures r.conn.Success? <==> e.clientOk && e.packetOk && e.sendOk && e.reply.Some?
    // a failure after the client exists closes it; a failure creating it has nothing to close
    ensures r.closed <==> e.clientOk && r.conn.Failure?
  {
    if !e.clientOk then Connected(Failure(Transport("usbmux client")), false)
    else if !e.packetOk then Connected(Failure(Transport("connect packet")), true)
    else if !e.sendOk then Connected(Failure(Transport("send")), true)
    else if e.reply.None? then Connected(Failure(Transport("receive")), true)
    else Connected(Success(()), false)
  }

  /** Any acknowledgement, whatever status it carries, yields the connection. */
  lemma NewConnectIgnoresAckStatus(e: ConnectEnv, ack1: Value, ack2: Value)
    ensures NewConnect(e.(reply := Some(ack1))) == NewConnect(e.(reply := Some(ack2)))
  {
  }
}
