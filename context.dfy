/**
 * The `PortMidi` registry: one driver session, the device count read when
 * it starts, and the ids of the virtual outputs it created, which it deletes
 * before terminating the session when it is dropped.
 *
 * The engine is an oracle. Each method takes the engine's replies as
 * parameters, already converted to the binding's types by the conversions
 * of the `ffi` and `types` modules (`Result::from` of a status, and
 * `ffi::PmError::try_from` of a returned id); `lookup` stands for
 * `DeviceInfo::new`, and `open` for `InputPort::new`/`OutputPort::new`.
 * The ghost log `engineLog` records the session calls the registry issues.
 */
module Context {
  import opened Wrappers
  import opened Casts
  import opened Errors

  /** `ffi::PM_NO_DEVICE`: the engine's "no default device" sentinel. */
  const PM_NO_DEVICE: I32 := -1

  /** `DeviceInfo` of the `device` module, reduced to what the registry uses. */
  datatype DeviceInfo = DeviceInfo(id: I32, name: string, isInput: bool, isOutput: bool)

  /** The session calls the registry issues to the engine. */
  datatype EngineCall =
    | PmCreateVirtualOutput(name: string)
    | PmDeleteVirtualDevice(id: I32)
    | PmTerminate

  /** How `drop` ends: every call succeeded, or an `unwrap` panicked on this error. */
  datatype DropOutcome = Completed | Panicked(error: Error)

  /** The `Result<Self>` of `PortMidi::new`: a started registry, or the error. */
  datatype Startup = Started(registry: PortMidi) | Failed(error: Error)

  /** The calls `drop` issues and how it ends. */
  datatype TeardownTrace = TeardownTrace(calls: seq<EngineCall>, outcome: DropOutcome)

  /**
   * What `PortMidi::new` decides from the initialization status `init` and
   * the engine's device count `count`: the count to store, or the error.
   */
  function InitialDeviceCount(init: Result<(), Error>, count: I32): (r: Result<U32, Error>)
    ensures r.Ok? <==> init.Ok? && count >= 0
    ensures init.Err? ==> r == Err(init.error)
    ensures init.Ok? && count < 0 ==> r == Err(Invalid)
    ensures r.Ok? ==> r.value == count && r.value <= I32_MAX
  {
    match init
    case Err(e) => Err(e)
    case Ok(_) => if count >= 0 then Ok(AsU32(count)) else Err(Invalid)
  }

  /** `default_input_device_id`: the engine's default input id, or `NoDefaultDevice` for the sentinel. */
  function DefaultInputDeviceId(native: I32): (r: Result<I32, Error>)
    ensures r.Err? <==> native == PM_NO_DEVICE
    ensures r.Err? ==> r.error == NoDefaultDevice
    ensures r.Ok? ==> r.value == native && r.value != PM_NO_DEVICE
  {
    if native == PM_NO_DEVICE then Err(NoDefaultDevice) else Ok(native)
  }

  /** `default_output_device_id`: the engine's default output id, or `NoDefaultDevice` for the sentinel. */
  function DefaultOutputDeviceId(native: I32): (r: Result<I32, Error>)
    ensures r.Err? <==> native == PM_NO_DEVICE
    ensures r.Err? ==> r.error == NoDefaultDevice
    ensures r.Ok? ==> r.value == native && r.value != PM_NO_DEVICE
  {
    if native == PM_NO_DEVICE then Err(NoDefaultDevice) else Ok(native)
  }

  /**
   * `input_port`: a device that is not an input is refused with
   * `NotAnInputDevice` before any port is constructed, so the result then
   * does not depend on `open` at all.
   */
  function InputPort<P>(device: DeviceInfo, bufferSize: nat, open: (DeviceInfo, nat) -> Result<P, Error>): (r: Result<P, Error>)
    ensures r.Ok? ==> device.isInput
    ensures !device.isInput ==> r == Err(NotAnInputDevice)
    ensures device.isInput ==> r == open(device, bufferSize)
  {
    if device.isInput then open(device, bufferSize) else Err(NotAnInputDevice)
  }

  /** `output_port`: the same guard on the output direction, with `NotAnOutputDevice`. */
  function OutputPort<P>(device: DeviceInfo, bufferSize: nat, open: (DeviceInfo, nat) -> Result<P, Error>): (r: Result<P, Error>)
    ensures r.Ok? ==> device.isOutput
    ensures !device.isOutput ==> r == Err(NotAnOutputDevice)
    ensures device.isOutput ==> r == open(device, bufferSize)
  {
    if device.isOutput then open(device, bufferSize) else Err(NotAnOutputDevice)
  }

  /**
   * `default_input_port`: look up the default input device and construct a
   * port on it. Unlike `input_port` it performs no direction check.
   */
  function DefaultInputPort<P>(native: I32, lookup: I32 -> Result<DeviceInfo, Error>, bufferSize: nat,
                               open: (DeviceInfo, nat) -> Result<P, Error>): (r: Result<P, Error>)
    ensures native == PM_NO_DEVICE ==> r == Err(NoDefaultDevice)
    ensures native != PM_NO_DEVICE && lookup(native).Err? ==> r == Err(lookup(native).error)
    ensures native != PM_NO_DEVICE && lookup(native).Ok? ==> r == open(lookup(native).value, bufferSize)
  {
    match DefaultInputDeviceId(native)
    case Err(e) => Err(e)
    case Ok(id) =>
      match lookup(id)
      case Err(e) => Err(e)
      case Ok(info) => open(info, bufferSize)
  }

  /** `default_output_port`: the same for the default output device, again without a direction check. */
  function DefaultOutputPort<P>(native: I32, lookup: I32 -> Result<DeviceInfo, Error>, bufferSize: nat,
                                open: (DeviceInfo, nat) -> Result<P, Error>): (r: Result<P, Error>)
    ensures native == PM_NO_DEVICE ==> r == Err(NoDefaultDevice)
    ensures native != PM_NO_DEVICE && lookup(native).Err? ==> r == Err(lookup(native).error)
    ensures native != PM_NO_DEVICE && lookup(native).Ok? ==> r == open(lookup(native).value, bufferSize)
  {
    match DefaultOutputDeviceId(native)
    case Err(e) => Err(e)
    case Ok(id) =>
      match lookup(id)
      case Err(e) => Err(e)
      case Ok(info) => open(info, bufferSize)
  }

  /** One delete call per id, in order. */
  function Deletes(ids: seq<I32>): (calls: seq<EngineCall>)
    ensures |calls| == |ids|
    ensures forall i :: 0 <= i < |ids| ==> calls[i] == PmDeleteVirtualDevice(ids[i])
  {
    seq(|ids|, i requires 0 <= i < |ids| => PmDeleteVirtualDevice(ids[i]))
  }

  /**
   * The specification of `drop`: delete the tracked ids front to back, each
   * reply in `deletes` answering the delete at the same position; a failed
   * delete panics at once, so nothing after it is issued. When every delete
   * succeeds, terminate the session once; a failed terminate panics too.
   */
  function Teardown(ids: seq<I32>, deletes: seq<Result<(), Error>>, terminate: Result<(), Error>): (t: TeardownTrace)
    requires |deletes| == |ids|
    decreases |ids|
  {
    if ids == [] then
      TeardownTrace([PmTerminate], if terminate.Ok? then Completed else Panicked(terminate.error))
    else if deletes[0].Err? then
      TeardownTrace([PmDeleteVirtualDevice(ids[0])], Panicked(deletes[0].error))
    else
      var rest := Teardown(ids[1..], deletes[1..], terminate);
      TeardownTrace([PmDeleteVirtualDevice(ids[0])] + rest.calls, rest.outcome)
  }

  /** When every delete succeeds: one delete per id in insertion order, then exactly one terminate. */
  lemma {:induction false} TeardownCompletes(ids: seq<I32>, deletes: seq<Result<(), Error>>, terminate: Result<(), Error>)
    requires |deletes| == |ids|
    requires forall j :: 0 <= j < |deletes| ==> deletes[j].Ok?
    ensures Teardown(ids, deletes, terminate).calls == Deletes(ids) + [PmTerminate]
    ensures Teardown(ids, deletes, terminate).outcome == if terminate.Ok? then Completed else Panicked(terminate.error)
    decreases |ids|
  {
    if ids != [] {
      TeardownCompletes(ids[1..], deletes[1..], terminate);
      assert Deletes(ids) == [PmDeleteVirtualDevice(ids[0])] + Deletes(ids[1..]);
    }
  }

  /**
   * When the delete at position k is the first to fail: the deletes up to and
   * including k were issued, the session is never terminated, and drop panics
   * with that error.
   */
  lemma {:induction false} TeardownStopsAtFailure(ids: seq<I32>, deletes: seq<Result<(), Error>>, terminate: Result<(), Error>, k: nat)
    requires |deletes| == |ids|
    requires k < |ids| && deletes[k].Err?
    requires forall j :: 0 <= j < k ==> deletes[j].Ok?
    ensures Teardown(ids, deletes, terminate).calls == Deletes(ids[..k + 1])
    ensures PmTerminate !in Teardown(ids, deletes, terminate).calls
    ensures Teardown(ids, deletes, terminate).outcome == Panicked(deletes[k].error)
    decreases k
  {
    if k > 0 {
      TeardownStopsAtFailure(ids[1..], deletes[1..], terminate, k - 1);
      assert ids[1..][..k] == ids[1..k + 1];
      assert Deletes(ids[..k + 1]) == [PmDeleteVirtualDevice(ids[0])] + Deletes(ids[1..][..k]);
    }
  }

  /** Drop terminates the session exactly when every delete succeeded, and then as its last call. */
  lemma TeardownTerminatesIffAllDeleted(ids: seq<I32>, deletes: seq<Result<(), Error>>, terminate: Result<(), Error>)
    requires |deletes| == |ids|
    ensures var t := Teardown(ids, deletes, terminate);
      (PmTerminate in t.calls <==> forall j :: 0 <= j < |deletes| ==> deletes[j].Ok?) &&
      (PmTerminate in t.calls ==> t.calls[|t.calls| - 1] == PmTerminate && PmTerminate !in t.calls[..|t.calls| - 1])
  {
    if forall j :: 0 <= j < |deletes| ==> deletes[j].Ok? {
      TeardownCompletes(ids, deletes, terminate);
      var t := Teardown(ids, deletes, terminate);
      assert t.calls[..|t.calls| - 1] == Deletes(ids);
    } else {
      TeardownStopsAtFailure(ids, deletes, terminate, FirstFailure(deletes));
    }
  }

  /** The position of the first failed reply, or the number of replies if none failed. */
  function FirstFailure(replies: seq<Result<(), Error>>): (k: nat)
    ensures k <= |replies|
    ensures forall j :: 0 <= j < k ==> replies[j].Ok?
    ensures k < |replies| ==> replies[k].Err?
  {
    if replies == [] || replies[0].Err? then 0 else 1 + FirstFailure(replies[1..])
  }

  /** When every delete succeeds, each id is deleted as many times as it is tracked. */
  lemma {:induction false} TeardownDeletesEachTrackedId(ids: seq<I32>, deletes: seq<Result<(), Error>>, terminate: Result<(), Error>, id: I32)
    requires |deletes| == |ids|
    requires forall j :: 0 <= j < |deletes| ==> deletes[j].Ok?
    ensures multiset(Teardown(ids, deletes, terminate).calls)[PmDeleteVirtualDevice(id)] == multiset(ids)[id]
    decreases |ids|
  {
    if ids != [] {
      TeardownDeletesEachTrackedId(ids[1..], deletes[1..], terminate, id);
      assert ids == [ids[0]] + ids[1..];
    }
  }

  /** `PortMidi`. */
  class PortMidi {
    /** Read once at start-up; it does not change during the registry's lifetime. */
    const deviceCount: U32
    var virtualDevs: seq<I32>
    ghost var engineLog: seq<EngineCall>

    /** The stored count came from a non-negative `c_int`. */
    ghost predicate Valid()
    {
      deviceCount <= I32_MAX
    }

    /** The struct literal of `new`. */
    constructor (deviceCount: U32)
      requires deviceCount <= I32_MAX
      ensures Valid()
      ensures this.deviceCount == deviceCount && virtualDevs == [] && engineLog == []
    {
      this.deviceCount := deviceCount;
      virtualDevs := [];
      engineLog := [];
    }

    /**
     * `PortMidi::new`: initialize the session (`init` is the converted
     * status of `Pm_Initialize`) and read the device count (`count`, the
     * reply of `Pm_CountDevices`).
     */
    static method New(init: Result<(), Error>, count: I32) returns (r: Startup)
      ensures r.Failed? <==> InitialDeviceCount(init, count).Err?
      ensures r.Failed? ==> r.error == InitialDeviceCount(init, count).error
      ensures r.Started? ==> fresh(r.registry) && r.registry.Valid() && r.registry.deviceCount == count
      ensures r.Started? ==> r.registry.virtualDevs == [] && r.registry.engineLog == []
    {
      match InitialDeviceCount(init, count)
      case Err(e) => r := Failed(e);
      case Ok(n) =>
        var p := new PortMidi(n);
        r := Started(p);
    }

    /** `device_count`: the count read at start; the cast back to `c_int` loses nothing. */
    function DeviceCount(): (n: I32)
      requires Valid()
      ensures n == deviceCount && n >= 0
    {
      AsI32(deviceCount)
    }

    /** `virtual_device_count`: the number of tracked ids, cast to `c_int` (which wraps past 2^31 - 1). */
    function VirtualDeviceCount(): (n: I32)
      reads this
      ensures |virtualDevs| <= I32_MAX ==> n == |virtualDevs|
      ensures (n - |virtualDevs|) % 0x1_0000_0000 == 0
    {
      AsI32(|virtualDevs|)
    }

    /**
     * `devices`: the information of every device, for ids 0 to
     * `device_count - 1` in that order, or the first lookup error and no list.
     */
    method Devices(lookup: I32 -> Result<DeviceInfo, Error>) returns (r: Result<seq<DeviceInfo>, Error>)
      requires Valid()
      ensures r.Ok? <==> forall id :: 0 <= id < deviceCount ==> lookup(id).Ok?
      ensures r.Ok? ==> |r.value| == deviceCount
      ensures r.Ok? ==> forall id :: 0 <= id < |r.value| ==> lookup(id) == Ok(r.value[id])
      ensures r.Err? ==> exists k :: 0 <= k < deviceCount && lookup(k) == Err(r.error) &&
                                     forall j :: 0 <= j < k ==> lookup(j).Ok?
    {
      var devices: seq<DeviceInfo> := [];
      for id := 0 to DeviceCount()
        invariant |devices| == id
        invariant forall j :: 0 <= j < id ==> lookup(j) == Ok(devices[j])
      {
        match lookup(id)
        case Ok(device) => devices := devices + [device];
        case Err(err) => return Err(err);
      }
      r := Ok(devices);
    }

    /**
     * `create_virtual_output`: ask the engine for a virtual output named
     * `name`; `classified` is the engine's reply after `try_from`. A new id
     * is appended to the tracked ids, even if looking up its information
     * then fails; any other error leaves them as they were. The source
     * panics on a name holding a NUL (`CString::new`), on
     * `PmInvalidDeviceId`, and on `PmNoError`, for which `id` is `None` and
     * `id.unwrap()` panics; callers must avoid all three.
     */
    method CreateVirtualOutput(name: string, classified: Result<I32, PmError>,
                               lookup: I32 -> Result<DeviceInfo, Error>) returns (r: Result<DeviceInfo, Error>)
      requires '\0' !in name
      requires classified != Err(PmInvalidDeviceId) && classified != Err(PmNoError)
      modifies this`virtualDevs, this`engineLog
      ensures engineLog == old(engineLog) + [PmCreateVirtualOutput(name)]
      ensures classified.Ok? ==> virtualDevs == old(virtualDevs) + [classified.value] && r == lookup(classified.value)
      ensures classified.Ok? && |old(virtualDevs)| < I32_MAX ==> VirtualDeviceCount() == old(VirtualDeviceCount()) + 1
      ensures classified.Err? ==> virtualDevs == old(virtualDevs) && r == Err(PortMidiError(classified.error))
    {
      engineLog := engineLog + [PmCreateVirtualOutput(name)];
      match classified
      case Err(err) => return Err(PortMidiError(err));
      case Ok(created) =>
        virtualDevs := virtualDevs + [created];
        r := lookup(created);
    }

    /**
     * `drop`: delete every tracked virtual device, then terminate the
     * session. `deleteReplies[i]` is the converted status of the delete of
     * `virtualDevs[i]`, `terminateReply` that of the terminate.
     */
    method Drop(deleteReplies: seq<Result<(), Error>>, terminateReply: Result<(), Error>) returns (outcome: DropOutcome)
      requires |deleteReplies| == |virtualDevs|
      modifies this`engineLog
      ensures virtualDevs == old(virtualDevs)
      ensures engineLog == old(engineLog) + Teardown(virtualDevs, deleteReplies, terminateReply).calls
      ensures outcome == Teardown(virtualDevs, deleteReplies, terminateReply).outcome
    {
      if |virtualDevs| != 0 {
        var i := 0;
        while i < |virtualDevs|
          invariant 0 <= i <= |virtualDevs|
          invariant forall j :: 0 <= j < i ==> deleteReplies[j].Ok?
          invariant engineLog == old(engineLog) + Deletes(virtualDevs[..i])
        {
          engineLog := engineLog + [PmDeleteVirtualDevice(virtualDevs[i])];
          assert Deletes(virtualDevs[..i + 1]) == Deletes(virtualDevs[..i]) + [PmDeleteVirtualDevice(virtualDevs[i])];
          if deleteReplies[i].Err? {
            TeardownStopsAtFailure(virtualDevs, deleteReplies, terminateReply, i);
            return Panicked(deleteReplies[i].error);
          }
          i := i + 1;
        }
        assert virtualDevs[..i] == virtualDevs;
      }
      engineLog := engineLog + [PmTerminate];
      TeardownCompletes(virtualDevs, deleteReplies, terminateReply);
      outcome := if terminateReply.Ok? then Completed else Panicked(terminateReply.error);
    }
  }
}
