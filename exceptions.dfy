/**
 * The exceptions the integration raises, catches or lets through, with the part of
 * their class hierarchy that its `except` clauses can tell apart.
 */
module Exceptions {

  datatype Exception =
    | SerialException                        // serial.SerialException: the port cannot be opened or read
    | TeleinfoException(message: string)     // serial_teleinfo.TeleinfoException: undecodable data
    | ClientPayloadError                     // aiohttp: broken response body
    | ClientConnectionError(isTimeout: bool) // aiohttp: connection failed; a server timeout is also a TimeoutError
    | ClientResponseError(status: int)       // aiohttp: HTTP error status, raised by raise_for_status
    | OtherClientError                       // any other aiohttp.ClientError (an invalid URL, ...)
    | TimeoutError                           // asyncio TimeoutError: a deadline fired
    | KeyError(key: string)                  // a missing dict key
    | TypeError                              // a value pair that cannot be unpacked into (value, unit)
    | AttributeError                         // `values` is not a dict
    | GenericException(message: string)      // a bare `raise Exception(...)`
    | PlatformNotReady                       // the host must retry the platform setup later

  /** The classes named by the integration's `except` clauses. */
  datatype ExceptionClass =
    | SerialExceptionClass
    | TeleinfoExceptionClass
    | ClientErrorClass
    | ClientPayloadErrorClass
    | ClientConnectionErrorClass
    | ClientResponseErrorClass
    | TimeoutErrorClass

  /** `isinstance(e, c)`. */
  predicate IsInstance(e: Exception, c: ExceptionClass) {
    match c
    case SerialExceptionClass => e.SerialException?
    case TeleinfoExceptionClass => e.TeleinfoException?
    case ClientErrorClass =>
      e.ClientPayloadError? || e.ClientConnectionError? || e.ClientResponseError? || e.OtherClientError?
    case ClientPayloadErrorClass => e.ClientPayloadError?
    case ClientConnectionErrorClass => e.ClientConnectionError?
    case ClientResponseErrorClass => e.ClientResponseError?
    case TimeoutErrorClass => e.TimeoutError? || (e.ClientConnectionError? && e.isTimeout)
  }

  /**
   * Index of the first clause of `clauses` whose class `e` is an instance of,
   * or |clauses| when only a trailing bare `except:` catches it.
   */
  function FirstCaught(clauses: seq<ExceptionClass>, e: Exception): (i: nat)
    ensures i <= |clauses|
    ensures i < |clauses| ==> IsInstance(e, clauses[i])
    ensures forall j :: 0 <= j < i ==> !IsInstance(e, clauses[j])
  {
    if clauses == [] then 0
    else if IsInstance(e, clauses[0]) then 0
    else 1 + FirstCaught(clauses[1..], e)
  }
}
