/**
 * The status taxonomy. `PmError` is the closed set of kinds the native
 * engine reports; the engine's own representation (`ffi::PmError`, a C
 * enum) is its integer code, so the conversions `PmError::wrap` (kind to
 * code) and `PmError::unwrap` (code to kind) are modelled as functions
 * between the kinds and the integers. `Error` is the binding-level error
 * of the registry, which wraps a native kind or names a failure the
 * binding itself detects.
 */
module Errors {

  datatype PmError =
    | PmNoError
    | PmGotData             // "no error", and data is available
    | PmHostError
    | PmInvalidDeviceId
    | PmInsufficientMemory
    | PmBufferTooSmall
    | PmBufferOverflow
    | PmBadPtr
    | PmBadData
    | PmInternalError
    | PmBufferMaxSize

  /** The codes of the native enumeration: 0, 1 and -10000..-9992. */
  predicate IsCode(code: int)
  {
    code == 0 || code == 1 || -10000 <= code <= -9992
  }

  /** `PmError::wrap`: the native code of a kind. */
  function Wrap(e: PmError): (code: int)
    ensures IsCode(code)
  {
    match e
    case PmNoError => 0
    case PmGotData => 1
    case PmHostError => -10000
    case PmInvalidDeviceId => -9999
    case PmInsufficientMemory => -9998
    case PmBufferTooSmall => -9997
    case PmBufferOverflow => -9996
    case PmBadPtr => -9995
    case PmBadData => -9994
    case PmInternalError => -9993
    case PmBufferMaxSize => -9992
  }

  /**
   * `PmError::unwrap`: the kind of a native code. The source's
   * `from_i64(..).unwrap()` panics on a code outside the table, so a
   * listed code is demanded of the caller.
   */
  function Unwrap(code: int): (e: PmError)
    requires IsCode(code)
    ensures Wrap(e) == code
  {
    if code == 0 then PmNoError
    else if code == 1 then PmGotData
    else if code == -10000 then PmHostError
    else if code == -9999 then PmInvalidDeviceId
    else if code == -9998 then PmInsufficientMemory
    else if code == -9997 then PmBufferTooSmall
    else if code == -9996 then PmBufferOverflow
    else if code == -9995 then PmBadPtr
    else if code == -9994 then PmBadData
    else if code == -9993 then PmInternalError
    else PmBufferMaxSize
  }

  /** Distinct kinds have distinct codes. */
  lemma WrapInjective(e1: PmError, e2: PmError)
    ensures Wrap(e1) == Wrap(e2) <==> e1 == e2
  {
  }

  /** Converting a kind to its code and back gives the same kind. */
  lemma UnwrapWrap(e: PmError)
    ensures Unwrap(Wrap(e)) == e
  {
    WrapInjective(Unwrap(Wrap(e)), e);
  }

  /** The listed codes are exactly the codes of the kinds. */
  lemma CodesOfKinds(code: int)
    ensures IsCode(code) <==> exists e :: Wrap(e) == code
  {
    if IsCode(code) {
      assert Wrap(Unwrap(code)) == code;
    }
  }

  /** A code is negative exactly when its kind is a failure, i.e. neither `PmNoError` nor `PmGotData`. */
  lemma NegativeCodesAreFailures(e: PmError)
    ensures Wrap(e) < 0 <==> e != PmNoError && e != PmGotData
  {
  }

  /** `types::Error`: the error of the registry's operations. */
  datatype Error =
    | PortMidiError(kind: PmError)   // `Error::PortMidi`: a native status passed through
    | Invalid                   // the engine reported a negative device count
    | NoDefaultDevice
    | NotAnInputDevice
    | NotAnOutputDevice
}
