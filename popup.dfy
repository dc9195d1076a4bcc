/** The window an authorization callback page runs in: whether it was opened by another
    window (`window.opener`), its own origin, the messages it has handed to the opener's
    `postMessage`, and the delays of the `window.close()` calls it has scheduled. */
module Popup {
  import opened Js

  /** One `window.opener.postMessage(message, targetOrigin)` call. */
  datatype Post = Post(message: Value, targetOrigin: string)

  /** The `type` field of the two messages a callback relays. */
  const SuccessType := "GOOGLE_AUTH_SUCCESS"
  const ErrorType := "GOOGLE_AUTH_ERROR"

  /** The wildcard target origin, which the callbacks never use. */
  const Wildcard := "*"

  class PopupWindow {
    const hasOpener: bool
    const origin: string
    var posted: seq<Post>
    var closeTimers: seq<nat>

    constructor (hasOpener: bool, origin: string)
      ensures this.hasOpener == hasOpener && this.origin == origin
      ensures posted == [] && closeTimers == []
    {
      this.hasOpener := hasOpener;
      this.origin := origin;
      posted := [];
      closeTimers := [];
    }

    method PostToOpener(message: Value, targetOrigin: string)
      requires hasOpener
      modifies this
      ensures posted == old(posted) + [Post(message, targetOrigin)]
      ensures closeTimers == old(closeTimers)
    {
      posted := posted + [Post(message, targetOrigin)];
    }

    /** `setTimeout(() => window.close(), delay)`. */
    method ScheduleClose(delay: nat)
      modifies this
      ensures closeTimers == old(closeTimers) + [delay]
      ensures posted == old(posted)
    {
      closeTimers := closeTimers + [delay];
    }
  }
}
