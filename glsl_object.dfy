/**
 * What every GLSL object shares (lib/glsl/object.ts): its context, an id that
 * is `null` until a subclass assigns one, a status that may be unset, and the
 * error reporting through an optional callback.
 */
module GlslObject {
  import opened Wrappers

  /** The `status` getter: `_status === true`, so an unset status reads false. */
  function StatusOf(status: Option<bool>): (b: bool)
    ensures b <==> status == Some(true)
  {
    match status
    case Some(s) => s
    case None => false
  }

  /** The `onerror` callback, as the list of messages it has received. */
  class ErrorSink {
    var messages: seq<string>

    constructor()
      ensures messages == []
    {
      messages := [];
    }
  }

  /**
   * `handleError`: the message goes to `onerror` once when one is given, and
   * comes back unchanged. Logging to the console is not modelled.
   */
  method HandleError(error: string, onerror: ErrorSink?) returns (r: string)
    modifies onerror
    ensures r == error
    ensures onerror != null ==> onerror.messages == old(onerror.messages) + [error]
  {
    if onerror != null {
      onerror.messages := onerror.messages + [error];
    }
    r := error;
  }

  /** The messages received by an optional sink: those already there plus the reported ones. */
  function Reported(before: seq<string>, error: Option<string>): seq<string> {
    match error
    case Some(e) => before + [e]
    case None => before
  }

  /** `log || 'unknown error'`: a null or empty info log reads as `unknown error`. */
  function InfoMessage(log: Option<string>): (m: string)
    ensures |m| > 0
    ensures log.Some? && log.value != "" ==> m == log.value
  {
    match log
    case Some(s) => if s != "" then s else "unknown error"
    case None => "unknown error"
  }
}
