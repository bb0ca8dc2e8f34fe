/**
 * Device information and the input/output port structs of the binding.
 * A port holds a raw stream handle that starts out null, the device id
 * and the buffer size. Every operation is one call into the native engine;
 * the engine's reply is a parameter of the method, what it writes through
 * an out-pointer is a parameter too, and a ghost log `calls` records each
 * native call with the arguments the port passed.
 */
module Ports {
  import opened Wrappers
  import opened Casts
  import Codec
  import Errors

  /** `PmDeviceInfo`: the engine's device record; `int` fields are pointer-sized (64-bit). */
  datatype PmDeviceInfo = PmDeviceInfo(
    structVersion: I64, interf: string, name: string, input: I64, output: I64, openedFlag: I64)

  /** The contents of a NUL-terminated C string: the characters before the terminator. */
  type CString = s: string | '\0' !in s

  /** `CPmDeviceInfo`: the C record; the two C strings are modelled by their contents. */
  datatype CPmDeviceInfo = CPmDeviceInfo(
    structVersion: I32, interf: CString, name: CString, input: I32, output: I32, openedFlag: I32)

  /** `PmDeviceInfo::is_input`: the device can be opened for input. */
  predicate IsInput(info: PmDeviceInfo): (b: bool)
    ensures b <==> info.input > 0
  {
    info.input > 0
  }

  /** `PmDeviceInfo::is_output`: the device can be opened for output. */
  predicate IsOutput(info: PmDeviceInfo): (b: bool)
    ensures b <==> info.output > 0
  {
    info.output > 0
  }

  /** `PmDeviceInfo::wrap`: widen the C record's fields to `int`; the strings read hold no NUL. */
  function WrapInfo(c: CPmDeviceInfo): (info: PmDeviceInfo)
    ensures '\0' !in info.name && '\0' !in info.interf
    ensures IsInput(info) <==> c.input > 0
    ensures IsOutput(info) <==> c.output > 0
  {
    PmDeviceInfo(c.structVersion, c.interf, c.name, c.input, c.output, c.openedFlag)
  }

  /**
   * `PmDeviceInfo::unwrap`: narrow the fields back with `as i32`, which
   * truncates. `to_c_str` panics on a string holding a NUL, so the strings
   * must hold none.
   */
  function UnwrapInfo(info: PmDeviceInfo): (c: CPmDeviceInfo)
    requires '\0' !in info.name && '\0' !in info.interf
    ensures c.name == info.name && c.interf == info.interf
    ensures (c.input - info.input) % 0x1_0000_0000 == 0
    ensures (c.output - info.output) % 0x1_0000_0000 == 0
    ensures (c.structVersion - info.structVersion) % 0x1_0000_0000 == 0
    ensures (c.openedFlag - info.openedFlag) % 0x1_0000_0000 == 0
  {
    CPmDeviceInfo(AsI32(info.structVersion), info.interf, info.name,
                  AsI32(info.input), AsI32(info.output), AsI32(info.openedFlag))
  }

  /** A record read from the engine converts back to the same C record. */
  lemma UnwrapWrapInfo(c: CPmDeviceInfo)
    ensures UnwrapInfo(WrapInfo(c)) == c
  {
  }

  /** A Rust-side record survives the round trip exactly when each integer field fits in an `i32`. */
  lemma WrapUnwrapInfo(info: PmDeviceInfo)
    requires '\0' !in info.name && '\0' !in info.interf
    ensures WrapInfo(UnwrapInfo(info)) == info <==>
      (-0x8000_0000 <= info.structVersion <= I32_MAX && -0x8000_0000 <= info.input <= I32_MAX &&
       -0x8000_0000 <= info.output <= I32_MAX && -0x8000_0000 <= info.openedFlag <= I32_MAX)
  {
  }

  /** The truncation of `unwrap` can change the direction: an input flag of 2^32 becomes 0. */
  lemma UnwrapInfoCanLoseDirection()
    ensures var info := PmDeviceInfo(0, "", "", 0x1_0000_0000, 0, 0);
      IsInput(info) && !IsInput(WrapInfo(UnwrapInfo(info)))
  {
  }

  /**
   * `get_device_info`: ask the engine for the record of `device`, whose id
   * is narrowed with `as i32`; `engine` answers a null pointer with `None`.
   */
  function GetDeviceInfo(device: I64, engine: I32 -> Option<CPmDeviceInfo>): (r: Option<PmDeviceInfo>)
    ensures r.None? <==> engine(AsI32(device)).None?
    ensures r.Some? ==> r.value == WrapInfo(engine(AsI32(device)).value)
    ensures r.Some? ==> UnwrapInfo(r.value) == engine(AsI32(device)).value
    ensures r.Some? ==> (IsInput(r.value) <==> engine(AsI32(device)).value.input > 0)
    ensures r.Some? ==> (IsOutput(r.value) <==> engine(AsI32(device)).value.output > 0)
  {
    match engine(AsI32(device))
    case None => None
    case Some(c) => UnwrapWrapInfo(c); Some(WrapInfo(c))
  }

  /**
   * The classification of `PmInputPort::read`: the engine's event count
   * `count` (an `i16`) and the event it wrote into the one-slot buffer.
   * Zero events is `Err(PmNoError)`, a positive count yields the decoded
   * event, and a negative count is the error kind with that code; the
   * source reinterprets the count with `transmute`, which is defined only
   * for a listed code, so a negative count must be one.
   */
  function ClassifyRead(count: I16, buffer: Codec.CPmEvent): (r: Result<Codec.PmEvent, Errors.PmError>)
    requires count < 0 ==> Errors.IsCode(count)
    ensures r == Err(Errors.PmNoError) <==> count == 0
    ensures r.Ok? <==> count > 0
    ensures r.Ok? ==> r.value.timestamp == buffer.timestamp
    ensures r.Ok? ==> Codec.UnwrapEvent(r.value) == Codec.CPmEvent(buffer.message % 0x100_0000, buffer.timestamp)
    ensures count < 0 ==> r.Err? && Errors.Wrap(r.error) == count && Errors.Wrap(r.error) < 0
  {
    if count == 0 then Err(Errors.PmNoError)
    else if count > 0 then
      Codec.UnwrapWrapEvent(buffer);
      Ok(Codec.WrapEvent(buffer))
    else Err(Errors.Unwrap(count))
  }

  /** `*const CPortMidiStream`: null, or a handle the engine gave out. */
  datatype Stream = Null | Handle(address: nat)

  /** The native calls a port issues, with the arguments it passes. */
  datatype StreamCall =
    | PmOpenInput(device: I32, bufferSize: I32)
    | PmOpenOutput(device: I32, bufferSize: I32, latency: I32)
    | PmHasHostError(stream: Stream)
    | PmRead(stream: Stream, length: I32)
    | PmPoll(stream: Stream)
    | PmAbort(stream: Stream)
    | PmClose(stream: Stream)
    | PmWrite(stream: Stream, buffer: seq<Codec.CPmEvent>)
    | PmWriteShort(stream: Stream, timestamp: U32, message: I32)

  /** `PmInputPort`. */
  class PmInputPort {
    var cPmStream: Stream
    var inputDevice: I32
    var bufferSize: I32
    ghost var calls: seq<StreamCall>

    /** `PmInputPort::new`: no stream yet; the id and size are narrowed with `as i32`. */
    constructor (inputDevice: I64, bufferSize: I64)
      ensures cPmStream == Null
      ensures this.inputDevice == AsI32(inputDevice) && this.bufferSize == AsI32(bufferSize)
      ensures calls == []
    {
      cPmStream := Null;
      this.inputDevice := AsI32(inputDevice);
      this.bufferSize := AsI32(bufferSize);
      calls := [];
    }

    /**
     * `open`: the engine gets the stored device and buffer size, writes the
     * new stream handle `written` through the out-pointer and replies `status`.
     */
    method Open(status: int, written: Stream) returns (e: Errors.PmError)
      requires Errors.IsCode(status)
      modifies this`cPmStream, this`calls
      ensures Errors.Wrap(e) == status
      ensures cPmStream == written
      ensures calls == old(calls) + [PmOpenInput(inputDevice, bufferSize)]
    {
      calls := calls + [PmOpenInput(inputDevice, bufferSize)];
      cPmStream := written;
      e := Errors.Unwrap(status);
    }

    /** `has_host_error`: the engine's answer for this stream, passed through. */
    method HasHostError(reply: I32) returns (r: I32)
      modifies this`calls
      ensures r == reply
      ensures calls == old(calls) + [PmHasHostError(cPmStream)]
    {
      calls := calls + [PmHasHostError(cPmStream)];
      r := reply;
    }

    /**
     * `read`: ask the engine for one event; it replies with a count and
     * leaves `filled` in the local event buffer.
     */
    method Read(count: I16, filled: Codec.CPmEvent) returns (r: Result<Codec.PmEvent, Errors.PmError>)
      requires count < 0 ==> Errors.IsCode(count)
      modifies this`calls
      ensures r == ClassifyRead(count, filled)
      ensures calls == old(calls) + [PmRead(cPmStream, 1)]
    {
      calls := calls + [PmRead(cPmStream, 1)];
      r := ClassifyRead(count, filled);
    }

    /** `poll`: the engine's status for this stream, as a kind. */
    method Poll(status: int) returns (e: Errors.PmError)
      requires Errors.IsCode(status)
      modifies this`calls
      ensures Errors.Wrap(e) == status
      ensures calls == old(calls) + [PmPoll(cPmStream)]
    {
      calls := calls + [PmPoll(cPmStream)];
      e := Errors.Unwrap(status);
    }

    /** `close`: the engine's status for closing this stream, as a kind; the handle field is left as it was. */
    method Close(status: int) returns (e: Errors.PmError)
      requires Errors.IsCode(status)
      modifies this`calls
      ensures Errors.Wrap(e) == status
      ensures calls == old(calls) + [PmClose(cPmStream)]
    {
      calls := calls + [PmClose(cPmStream)];
      e := Errors.Unwrap(status);
    }
  }

  /** `PmOutputPort`. */
  class PmOutputPort {
    var cPmStream: Stream
    var outputDevice: I32
    var bufferSize: I32
    ghost var calls: seq<StreamCall>

    /** `PmOutputPort::new`: no stream yet; the id and size are narrowed with `as i32`. */
    constructor (outputDevice: I64, bufferSize: I64)
      ensures cPmStream == Null
      ensures this.outputDevice == AsI32(outputDevice) && this.bufferSize == AsI32(bufferSize)
      ensures calls == []
    {
      cPmStream := Null;
      this.outputDevice := AsI32(outputDevice);
      this.bufferSize := AsI32(bufferSize);
      calls := [];
    }

    /** `open`: as for input, with a latency of 0. */
    method Open(status: int, written: Stream) returns (e: Errors.PmError)
      requires Errors.IsCode(status)
      modifies this`cPmStream, this`calls
      ensures Errors.Wrap(e) == status
      ensures cPmStream == written
      ensures calls == old(calls) + [PmOpenOutput(outputDevice, bufferSize, 0)]
    {
      calls := calls + [PmOpenOutput(outputDevice, bufferSize, 0)];
      cPmStream := written;
      e := Errors.Unwrap(status);
    }

    /** `has_host_error`: the engine's answer for this stream, passed through. */
    method HasHostError(reply: I32) returns (r: I32)
      modifies this`calls
      ensures r == reply
      ensures calls == old(calls) + [PmHasHostError(cPmStream)]
    {
      calls := calls + [PmHasHostError(cPmStream)];
      r := reply;
    }

    /** `abort`: the engine's status for aborting this stream, as a kind. */
    method Abort(status: int) returns (e: Errors.PmError)
      requires Errors.IsCode(status)
      modifies this`calls
      ensures Errors.Wrap(e) == status
      ensures calls == old(calls) + [PmAbort(cPmStream)]
    {
      calls := calls + [PmAbort(cPmStream)];
      e := Errors.Unwrap(status);
    }

    /** `close`: the engine's status for closing this stream, as a kind; the handle field is left as it was. */
    method Close(status: int) returns (e: Errors.PmError)
      requires Errors.IsCode(status)
      modifies this`calls
      ensures Errors.Wrap(e) == status
      ensures calls == old(calls) + [PmClose(cPmStream)]
    {
      calls := calls + [PmClose(cPmStream)];
      e := Errors.Unwrap(status);
    }

    /**
     * `write_event`: hand the engine a one-event buffer holding the packed
     * event; the engine decodes exactly `midievent` from it.
     */
    method WriteEvent(midievent: Codec.PmEvent, status: int) returns (e: Errors.PmError)
      requires Errors.IsCode(status)
      modifies this`calls
      ensures Errors.Wrap(e) == status
      ensures calls == old(calls) + [PmWrite(cPmStream, [Codec.UnwrapEvent(midievent)])]
      ensures Codec.WrapEvent(calls[|calls| - 1].buffer[0]) == midievent
    {
      var cevent := Codec.UnwrapEvent(midievent);
      calls := calls + [PmWrite(cPmStream, [cevent])];
      Codec.WrapUnwrapEvent(midievent);
      e := Errors.Unwrap(status);
    }

    /**
     * `write_message`: hand the engine timestamp 0 and the packed message;
     * the engine decodes exactly `midimessage` from the word.
     */
    method WriteMessage(midimessage: Codec.PmMessage, status: int) returns (e: Errors.PmError)
      requires Errors.IsCode(status)
      modifies this`calls
      ensures Errors.Wrap(e) == status
      ensures calls == old(calls) + [PmWriteShort(cPmStream, 0, Codec.Unwrap(midimessage))]
      ensures Codec.Wrap(calls[|calls| - 1].message) == midimessage
    {
      var cevent := Codec.Unwrap(midimessage);
      calls := calls + [PmWriteShort(cPmStream, 0, cevent)];
      Codec.WrapUnwrap(midimessage);
      e := Errors.Unwrap(status);
    }
  }

  /**
   * A message written with `write_message` carries the same word and
   * timestamp as the event `{message, timestamp: 0}` written with
   * `write_event`.
   */
  lemma WriteMessageIsEventAtZero(m: Codec.PmMessage)
    ensures Codec.UnwrapEvent(Codec.PmEvent(m, 0)) == Codec.CPmEvent(Codec.Unwrap(m), 0)
  {
  }
}
