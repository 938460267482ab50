/**
  Choosing the device the controller talks to (controller/device.go:10-40).
  The selected device is package state in the source; here it is passed in and
  returned. The usbmux enumeration is an outcome supplied by the caller.
*/
module DeviceSelection {
  import opened Wrappers
  import opened Errors

  /** An attached device, known by its UDID. */
  datatype Device = Device(udid: string, serial: nat)

  /** The enumerated devices and the selection after `GetDeviceList`. */
  datatype Listing = Listing(devices: seq<Device>, selected: Option<Device>)

  /** The first position of a device with this UDID. */
  function FirstWithUdid(devices: seq<Device>, udid: string): (r: Option<nat>)
    ensures r.Some? ==> r.value < |devices| && devices[r.value].udid == udid
    ensures r.Some? ==> forall j :: 0 <= j < r.value ==> devices[j].udid != udid
    ensures r.None? ==> forall j :: 0 <= j < |devices| ==> devices[j].udid != udid
    decreases |devices|
  {
    if |devices| == 0 then None
    else if devices[0].udid == udid then Some(0)
    else
      var rest := FirstWithUdid(devices[1..], udid);
      assert forall j :: 1 <= j < |devices| ==> devices[j] == devices[1..][j - 1];
      if rest.None? then None else Some(rest.value + 1)
  }

  /**
    `GetDeviceList`: an enumeration error or an empty list ends the process; an
    empty UDID selects the first device; otherwise the first device with that
    UDID is selected, and without one the previous selection stays.
  */
  function GetDeviceList(enumerated: Result<seq<Device>, Error>, udid: string, current: Option<Device>)
    : (r: Result<Listing, Error>)
    ensures enumerated.Failure? ==> r.Failure? && r.error.Fatal?
    ensures enumerated.Success? && |enumerated.value| == 0 ==> r == Failure(Fatal("No Device"))
    ensures r.Success? <==> enumerated.Success? && |enumerated.value| > 0
    ensures r.Success? ==> r.value.devices == enumerated.value
    ensures r.Success? && udid == "" ==> r.value.selected == Some(enumerated.value[0])
    ensures r.Success? && udid != "" && FirstWithUdid(enumerated.value, udid).Some? ==>
      r.value.selected == Some(enumerated.value[FirstWithUdid(enumerated.value, udid).value])
    ensures r.Success? && udid != "" && FirstWithUdid(enumerated.value, udid).None? ==>
      r.value.selected == current
  {
    match enumerated
    case Failure(_) => Failure(Fatal("usbmux device enumeration failed"))
    case Success(devices) =>
      if |devices| == 0 then Failure(Fatal("No Device"))
      else if udid == "" then Success(Listing(devices, Some(devices[0])))
      else
        match FirstWithUdid(devices, udid)
        case Some(i) => Success(Listing(devices, Some(devices[i])))
        case None => Success(Listing(devices, current))
  }

  /** `setupDevice`: enumerate again unless a device with this UDID is already selected. */
  function SetupDevice(current: Option<Device>, udid: string, enumerated: Result<seq<Device>, Error>)
    : (r: Result<Option<Device>, Error>)
    ensures current.Some? && current.value.udid == udid ==> r == Success(current)
    ensures !(current.Some? && current.value.udid == udid) ==>
      (r.Success? <==> enumerated.Success? && |enumerated.value| > 0)
  {
    if current.None? || udid != current.value.udid then
      match GetDeviceList(enumerated, udid, current)
      case Failure(e) => Failure(e)
      case Success(listing) => Success(listing.selected)
    else Success(current)
  }

  /** The selection follows the first device with the requested UDID. */
  lemma SetupSelectsFirstMatch(current: Option<Device>, udid: string, devices: seq<Device>, k: nat)
    requires udid != "" && k < |devices| && devices[k].udid == udid
    requires forall j :: 0 <= j < k ==> devices[j].udid != udid
    requires current.None? || current.value.udid != udid
    ensures SetupDevice(current, udid, Success(devices)) == Success(Some(devices[k]))
  {
  }

  /** Once a device with the UDID is selected, a second setup does not enumerate, whatever usbmux would answer. */
  lemma SetupIdempotent(current: Option<Device>, udid: string, first: Result<seq<Device>, Error>,
                        second: Result<seq<Device>, Error>)
    requires SetupDevice(current, udid, first).Success?
    requires var d := SetupDevice(current, udid, first).value; d.Some? && d.value.udid == udid
    ensures SetupDevice(SetupDevice(current, udid, first).value, udid, second) == SetupDevice(current, udid, first)
  {
  }

  /** An empty UDID moves the selection to the first device listed, when the current one has a UDID. */
  lemma EmptyUdidSelectsFirst(current: Device, devices: seq<Device>)
    requires current.udid != "" && |devices| > 0
    ensures SetupDevice(Some(current), "", Success(devices)) == Success(Some(devices[0]))
  {
  }

  /** A UDID no attached device has leaves the previous selection in place, possibly none. */
  lemma UnknownUdidKeepsSelection(current: Option<Device>, udid: string, devices: seq<Device>)
    requires udid != "" && |devices| > 0
    requires forall j :: 0 <= j < |devices| ==> devices[j].udid != udid
    ensures SetupDevice(current, udid, Success(devices)) == Success(current)
  {
  }
}
