# portmidi-rs: a Dafny model of the binding's own logic

portmidi-rs is a Rust binding over the C PortMidi library. Most of it forwards calls to the
native engine. Three parts are logic of its own, and this project models them and proves
their properties:

- **Short-message codec** (`src/lib.rs`). `PmMessage` holds three `i8` fields. It is packed
  into bits 0..8 (status), 8..16 (data1) and 16..24 (data2) of an `i32` word. A status byte
  0x90 is stored as -112. `PmEvent` pairs a `PmMessage` with a `u32` timestamp;
  `ffi::CPmEvent`, which the engine sees, pairs the packed word with it.
  Module `Codec` (`codec.dfy`) proves both round trips, the bit layout and injectivity. It
  also works one illustrative note-on message and the two notes the library's test sends.
- **Status taxonomy** (`src/lib.rs`). `PmError` is the closed set of native status kinds.
  Each kind has one code: 0, 1, or -10000..-9992. `PmError::wrap` and `PmError::unwrap`
  convert between the two. Module `Errors` (`errors.dfy`) proves they are inverse bijections.
  It also holds the binding-level `Error` of the registry. Module `Ports` (`ports.dfy`) holds
  three things: the device record with its direction predicates, the classification of a
  raw read count, and the two port structs. The ports are classes whose methods log the
  native calls they issue.
- **Registry bookkeeping** (`src/context.rs`). Module `Context` (`context.dfy`) holds the
  `PortMidi` class: a device count fixed at start-up (a `const` field) plus an append-only `seq` of virtual device ids.
  It covers start-up, the default-id sentinel, the device enumeration loop, the direction
  guards, creation of virtual outputs, and the teardown on drop. Teardown is specified by
  the function `Teardown`, and lemmas about it give the order and count of the delete and
  terminate calls.

Module `Casts` (`casts.dfy`) writes out Rust's truncating `as` casts, and module `Wrappers`
(`wrappers.dfy`) holds `Result`.

The native engine is an oracle. Every call into it becomes a parameter carrying the
engine's reply, including what it writes through an out-pointer. The native calls a port issues
are recorded, with their arguments, in a ghost log (`calls`). The registry's ghost log
(`engineLog`) records only its session calls: create a virtual output, delete a virtual
device, and terminate.
The modules `device`, `io`, `types` and the `ffi` used by `src/context.rs` are not part of
this model. Their conversions enter as already-typed values:
- `Result::from` of a status is a `Result<(), Error>`;
- `ffi::PmError::try_from` of a returned id is a `Result<I32, PmError>`;
- `DeviceInfo::new` is a total function `lookup` from ids to results;
- `InputPort::new` and `OutputPort::new` are a function `open`.
The `ffi::PmError` of `src/context.rs` is taken to have the kinds of `src/lib.rs:620-639`.

The panics of the modelled code, outside `drop`, become preconditions: a string holding a
NUL byte in `PmDeviceInfo::unwrap` (`to_c_str`, `src/lib.rs:150-151`) and in
`create_virtual_output` (`CString::new`, `src/context.rs:123`), and, in
`create_virtual_output`, the `panic!` on `PmInvalidDeviceId` (line 128) and the failed
`id.unwrap()` on `None` (line 133). In `drop` a panic ends teardown, so it is modelled as the outcome
`Panicked(error)`, after which no further call is issued. A C string read by
`String::from_raw_buf` stops at its first NUL, so the model's C strings (`CString`) hold
none.

Points of the code's behaviour that the model keeps as written:
- Teardown does not continue past a failed deletion: the error is printed, then `unwrap()`
  panics (`src/context.rs:144-146`). So the model stops at the first failed delete and never
  terminates the session.
- The port structs enforce no open/closed state (`src/lib.rs:371-598`): every operation
  passes whatever handle the port holds. So the model records the handle passed and does
  not refuse calls.
- `create_virtual_output` panics on more than an invalid id. It also panics when the
  classification is `Err(PmNoError)`, since `id` is then `None` and `id.unwrap()` fails
  (`src/context.rs:127,133`). And it panics on a name holding a NUL byte
  (`CString::new(..).unwrap()`, line 123).
- The message bytes are `i8`, not unsigned bytes (`src/lib.rs:249-253`), and the model
  keeps `i8`.
- `default_input_port`/`default_output_port` construct a port on the default device
  without the direction check of `input_port`/`output_port` (`src/context.rs:86-109`).
- When `new` sees a negative device count, it returns `Err(Invalid)` after a successful
  `Pm_Initialize`. No `PortMidi` exists then, so `drop` never runs and the session is not
  terminated (`src/context.rs:24-34`).
- The new id is appended to the tracked list before its information is looked up. If that
  lookup fails, the id stays tracked and is still deleted on drop (`src/context.rs:135-136`).

## Model

| member | source | states |
|---|---|---|
| `Codec.Wrap` | src/lib.rs:265-271 | each field of the decoded message is, modulo 256, byte 0, 1 or 2 of the word |
| `Codec.Unwrap` | src/lib.rs:273-277 | the packed word lies in [0, 0xFFFFFF], so its high byte is zero |
| `Codec.UnwrapLayout` | src/lib.rs:273-277 | status is bits 0..8, data1 bits 8..16, data2 bits 16..24 of the packed word (each as the field's byte pattern), and bits 24..32 are zero |
| `Codec.WrapUnwrap` | src/lib.rs:264-277 | for every triple of `i8` fields, decoding the packed word gives back the same message |
| `Codec.UnwrapWrap` | src/lib.rs:264-277 | for every `i32` word w, packing its decoding gives `w & 0xFFFFFF` |
| `Codec.UnwrapInjective` | src/lib.rs:273-277 | two messages pack to the same word if and only if they are equal |
| `Codec.WrapEquivalence` | src/lib.rs:265-271 | two words decode to the same message if and only if their low 24 bits agree |
| `Codec.NoteOnExample` | src/lib.rs:264-277 | an illustrative note-on: 0x90 is -112 as an `i8`; {-112, 60, 100} packs to 0x643C90 (bytes 0x90, 60, 100, 0) and decodes back |
| `Codec.TestNoteExample` | src/lib.rs:705-721 | the test's note-on status 0x91 (0x90 with channel bit 1) wraps to -111 in an `i8` and {-111, 36, 90} packs to 0x5A2491; its note-off status 0x81 wraps to -127 and {-127, 36, 0} packs to 0x002481 |
| `Codec.WrapEvent` | src/lib.rs:354-359 | decoding an event keeps the timestamp and decodes the low 24 bits of the message word |
| `Codec.UnwrapEvent` | src/lib.rs:361-366 | encoding an event keeps the timestamp, and the engine's word decodes back to the message |
| `Codec.WrapUnwrapEvent` | src/lib.rs:353-366 | decoding an encoded event gives back the event |
| `Codec.UnwrapWrapEvent` | src/lib.rs:353-366 | encoding a decoded event keeps the timestamp and the low 24 bits of the message word |
| `Errors.Wrap` | src/lib.rs:620-639 | every kind's native code lies in {0, 1} or -10000..-9992 |
| `Errors.Unwrap` | src/lib.rs:52-54 | a listed code maps to the kind whose code it is; an unlisted code is a failure, so it is excluded by the precondition |
| `Errors.UnwrapWrap` | src/lib.rs:51-58 | converting a kind to its code and back gives the same kind |
| `Errors.WrapInjective` | src/lib.rs:28-48 | two kinds have the same code if and only if they are the same kind |
| `Errors.CodesOfKinds` | src/lib.rs:620-639 | a code is listed if and only if some kind has it |
| `Errors.NegativeCodesAreFailures` | src/lib.rs:620-639 | a code is negative exactly when its kind is neither `PmNoError` nor `PmGotData` |
| `Ports.WrapInfo` | src/lib.rs:134-164 | a record read from the engine holds no NUL in its strings, and is an input (output) device if and only if its C `input` (`output`) field is positive |
| `Ports.IsInput` | src/lib.rs:158-160 | a device is an input exactly when its `input` field is positive |
| `Ports.IsOutput` | src/lib.rs:162-164 | a device is an output exactly when its `output` field is positive |
| `Ports.UnwrapInfo` | src/lib.rs:147-156 | on strings without a NUL byte (`to_c_str` panics otherwise), narrowing keeps the strings, and keeps every integer field (`structVersion`, `input`, `output`, `opened`) modulo 2^32 |
| `Ports.UnwrapWrapInfo` | src/lib.rs:134-156 | a C record widened and narrowed again is unchanged |
| `Ports.WrapUnwrapInfo` | src/lib.rs:134-156 | a Rust record whose strings hold no NUL byte survives narrowing and widening if and only if every integer field fits in an `i32` |
| `Ports.UnwrapInfoCanLoseDirection` | src/lib.rs:147-164 | an input flag of 2^32 is an input device before narrowing and not after |
| `Ports.GetDeviceInfo` | src/lib.rs:238-247 | a null reply gives `None`; otherwise the engine's record for the id truncated to `i32`, widened; it narrows back to that record, and is an input (output) device exactly when the engine's `input` (`output`) field is positive |
| `Ports.ClassifyRead` | src/lib.rs:459-463 | a count of 0 gives `Err(PmNoError)` and only 0 does; a positive count gives `Ok` of the decoded buffer event, with its timestamp and the low 24 bits of its word; a negative count gives the failure kind whose code is that count |
| `Ports.PmInputPort.constructor` | src/lib.rs:383-389 | the stream handle is null, and the device id and buffer size are stored as `as i32` casts of the arguments |
| `Ports.PmInputPort.Open` | src/lib.rs:392-396 | the engine gets the stored device and buffer size; the handle becomes what it wrote; the result is the kind of the engine's status |
| `Ports.PmInputPort.HasHostError` | src/lib.rs:413-418 | the engine is asked about the port's handle and its answer is returned unchanged |
| `Ports.PmInputPort.Read` | src/lib.rs:447-464 | one read of length 1 on the port's handle, and the result is the classification of the engine's count and buffer |
| `Ports.PmInputPort.Poll` | src/lib.rs:470-474 | one poll of the port's handle; the result is the kind of the engine's status |
| `Ports.PmInputPort.Close` | src/lib.rs:481-486 | one close of the port's handle; the result is the kind of the engine's status |
| `Ports.PmOutputPort.constructor` | src/lib.rs:503-509 | the stream handle is null, and the device id and buffer size are stored as `as i32` casts of the arguments |
| `Ports.PmOutputPort.Open` | src/lib.rs:512-517 | the engine gets the stored device and buffer size with latency 0; the handle becomes what it wrote; the result is the kind of the engine's status |
| `Ports.PmOutputPort.HasHostError` | src/lib.rs:534-539 | the engine is asked about the port's handle and its answer is returned unchanged |
| `Ports.PmOutputPort.Abort` | src/lib.rs:549-553 | one abort of the port's handle; the result is the kind of the engine's status |
| `Ports.PmOutputPort.Close` | src/lib.rs:560-564 | one close of the port's handle; the result is the kind of the engine's status |
| `Ports.PmOutputPort.WriteEvent` | src/lib.rs:579-584 | the engine gets a one-event buffer holding the packed event, from which exactly the given event decodes |
| `Ports.PmOutputPort.WriteMessage` | src/lib.rs:592-597 | the engine gets timestamp 0 and exactly the packed message, from which exactly the given message decodes |
| `Ports.WriteMessageIsEventAtZero` | src/lib.rs:579-597 | writing a message sends the same word and timestamp as writing the event {message, 0} |
| `Context.InitialDeviceCount` | src/context.rs:23-35 | an initialization error is propagated; a negative count with a good start gives `Invalid`; otherwise the stored count equals the engine's count and fits a `c_int` |
| `Context.PortMidi.New` | src/context.rs:23-35 | fails exactly as `InitialDeviceCount` does; on success a fresh registry holds the engine's count, no virtual ids and an empty call log |
| `Context.PortMidi.constructor` | src/context.rs:28-31 | the registry stores the given count and starts with no virtual devices |
| `Context.PortMidi.DeviceCount` | src/context.rs:37-41 | returns the stored count, losslessly cast to `c_int` |
| `Context.PortMidi.VirtualDeviceCount` | src/context.rs:43-46 | the number of tracked ids, cast to `c_int`: exact up to 2^31 - 1, congruent modulo 2^32 beyond |
| `Context.DefaultInputDeviceId` | src/context.rs:50-55 | the sentinel `PM_NO_DEVICE`, and only it, gives `Err(NoDefaultDevice)`, never another error; any other id is returned unchanged |
| `Context.DefaultOutputDeviceId` | src/context.rs:59-64 | the sentinel `PM_NO_DEVICE`, and only it, gives `Err(NoDefaultDevice)`, never another error; any other id is returned unchanged |
| `Context.PortMidi.Devices` | src/context.rs:74-83 | succeeds if and only if every id in 0..count succeeds; then it returns exactly `device_count` infos, the one for id i at position i; otherwise it returns the error of the first failing id and no list |
| `Context.InputPort` | src/context.rs:95-101 | a port is obtained only for an input device; a non-input device gives `NotAnInputDevice` whatever the port constructor would do; an input device gets the constructor's result |
| `Context.OutputPort` | src/context.rs:113-119 | a port is obtained only for an output device; a non-output device gives `NotAnOutputDevice` whatever the port constructor would do; an output device gets the constructor's result |
| `Context.DefaultInputPort` | src/context.rs:86-91 | the sentinel gives `NoDefaultDevice`; a failed lookup gives its error; otherwise the port is constructed on the default device with no direction check |
| `Context.DefaultOutputPort` | src/context.rs:104-109 | the sentinel gives `NoDefaultDevice`; a failed lookup gives its error; otherwise the port is constructed on the default device with no direction check |
| `Context.PortMidi.CreateVirtualOutput` | src/context.rs:122-137 | on a new id: it is appended at the end, earlier ids are unchanged, the virtual count grows by one, and the result is that id's lookup; on another native error: `Err(Error::PortMidi(err))` (`PortMidiError` in the model) with the ids unchanged; the device count is a `const` field, so no method changes it |
| `Context.PortMidi.Drop` | src/context.rs:140-153 | the calls issued and the outcome are exactly those of `Teardown` for the tracked ids and the engine's replies |
| `Context.TeardownCompletes` | src/context.rs:140-153 | when every delete succeeds: one delete per tracked id in insertion order, then exactly one terminate; the drop panics only if the terminate fails |
| `Context.TeardownStopsAtFailure` | src/context.rs:142-147 | when the delete at position k fails first: deletes for ids 0..k only, no terminate, and a panic with that error |
| `Context.TeardownTerminatesIffAllDeleted` | src/context.rs:140-153 | the session is terminated if and only if every delete succeeded, and then as the last call and only once |
| `Context.TeardownDeletesEachTrackedId` | src/context.rs:142-147 | when every delete succeeds, each id is deleted exactly as many times as it is tracked |

## Left out

- The native engine (`Pm_Initialize`, `Pm_Terminate`, `Pm_CountDevices`, `Pm_OpenInput`,
  `Pm_OpenOutput`, `Pm_Read`, `Pm_Write`, `Pm_WriteShort`, `Pm_Poll`, `Pm_Abort`,
  `Pm_Close`, `Pm_HasHostError`, `Pm_GetDeviceInfo`, `Pm_CreateVirtualOutput`,
  `Pm_DeleteVirtualDevice` and the others): foreign code. Its replies are parameters and
  its calls are logged.
- `initialize`, `terminate`, `count_devices`, `get_default_input_device_id` and
  `get_default_output_device_id` in `src/lib.rs`: each forwards one engine reply through
  `Errors.Unwrap` or a widening cast, and both of those are modelled.
- `get_error_text`, `get_host_error_text`, `HDRLENGTH`, `PM_HOST_ERROR_MSG_LEN`, and the C
  string conversions in `PmDeviceInfo::wrap`/`unwrap`: raw pointer and buffer handling.
  Strings are modelled by their contents, and a C string by the characters before its NUL.
- `transmute::<i16, PmError>` in `read`: modelled only as "a negative count maps to the
  kind with that code", with a listed code as the precondition.
- `PortMidi::device`: it is `DeviceInfo::new(id)` itself, the `lookup` oracle.
- The `Mutex` around `virtual_devs` and its `lock().unwrap()`: concurrency. The list is a
  plain sequence field.
- The default-device preference matching, sysex and real-time interleaving, and overflow
  flushing described in the comments of `src/lib.rs`: these are behaviour of the C engine.
- The `println!` logging before the panics in `drop`.
- The hardware test in `src/lib.rs:664-737`, apart from the two notes it sends (the
  note-on through `write_event`, the note-off through `write_message`), whose encodings
  `Codec.TestNoteExample` checks.
- Ownership guarantees that come from Rust's type system: `drop` runs once, and a port
  does not outlive its registry.
- `Context.PortMidi.Drop`: the engine's delete replies are given by position in the
  tracked list rather than by id. An engine that answers by id agrees with this when ids
  are not repeated.
