/** The calendar-authorization callback page that runs inside the popup: it reads `code`
    and `error` from the redirect's query, relays at most one outcome message to the window
    that opened it, addressed to its own origin, and always schedules its own close. */
module GoogleAuthCallback {
  import opened Js
  import opened Popup

  const CloseDelayMs: nat := 1000
  const SuccessStatus := "Authorization successful!"
  const PendingStatus := "Processing..."

  /** The message chosen for the query parameters `code` and `error` (`None` is an absent
      parameter): a success carrying the code when the code is truthy, otherwise an error
      carrying the error when that is truthy, otherwise nothing. */
  function Outcome(code: Option<string>, error: Option<string>): (r: Option<Value>)
    ensures r.Some? <==> Truthy(Param(code)) || Truthy(Param(error))
    ensures r.Some? ==>
              (r.value.Obj? && r.value.fields.Keys == if Truthy(Param(code)) then {"type", "code"} else {"type", "error"})
    ensures r.Some? ==> (Member(r.value, "type") == Str(SuccessType) <==> Truthy(Param(code)))
    ensures r.Some? ==> (Member(r.value, "type") == Str(ErrorType) <==> !Truthy(Param(code)))
    ensures Truthy(Param(code)) ==> Member(r.value, "code") == Str(code.value) && Member(r.value, "error") == Undefined
    ensures !Truthy(Param(code)) && Truthy(Param(error)) ==>
              Member(r.value, "error") == Str(error.value) && Member(r.value, "code") == Undefined
  {
    if Truthy(Param(code)) then
      Some(Obj(map["type" := Str(SuccessType), "code" := Str(code.value)]))
    else if Truthy(Param(error)) then
      Some(Obj(map["type" := Str(ErrorType), "error" := Str(error.value)]))
    else
      None
  }

  /** The status line under the spinner. */
  function StatusText(code: Option<string>): (r: string)
    ensures r == SuccessStatus <==> Truthy(Param(code))
    ensures r != SuccessStatus ==> r == PendingStatus
  {
    if Truthy(Param(code)) then SuccessStatus else PendingStatus
  }

  /** The effect: post the outcome (skipped by `window.opener?.` when there is no opener),
      then schedule `window.close()` after one second on every path. */
  method RunEffect(w: PopupWindow, code: Option<string>, error: Option<string>)
    modifies w
    ensures w.posted == old(w.posted) +
              (if w.hasOpener && Outcome(code, error).Some? then [Post(Outcome(code, error).value, w.origin)] else [])
    ensures w.closeTimers == old(w.closeTimers) + [CloseDelayMs]
  {
    var outcome := Outcome(code, error);
    if outcome.Some? && w.hasOpener {
      w.PostToOpener(outcome.value, w.origin);
    }
    w.ScheduleClose(CloseDelayMs);
  }

  /** When both parameters are present, the error is ignored: the same success message as
      for the code alone is relayed. */
  lemma SuccessTakesPriority(code: string, error: Option<string>)
    requires code != ""
    ensures Outcome(Some(code), error) == Outcome(Some(code), None)
    ensures Member(Outcome(Some(code), error).value, "type") == Str(SuccessType)
  {
  }

  /** Empty strings are falsy: `?code=&error=` relays nothing, like no parameters at all. */
  lemma EmptyParametersRelayNothing(code: Option<string>, error: Option<string>)
    requires code == None || code == Some("")
    requires error == None || error == Some("")
    ensures Outcome(code, error) == None
  {
  }

  /** The status line and the effect agree: "Authorization successful!" is shown exactly
      when the relayed message is a success. */
  lemma StatusAgreesWithOutcome(code: Option<string>, error: Option<string>)
    ensures StatusText(code) == SuccessStatus <==>
              Outcome(code, error).Some? && Member(Outcome(code, error).value, "type") == Str(SuccessType)
  {
  }

  /** A run of the effect in a fresh window posts at most one message, never to the wildcard
      origin, and leaves exactly one close of the window scheduled. */
  method RunInFreshWindow(hasOpener: bool, origin: string, code: Option<string>, error: Option<string>)
    returns (posted: seq<Post>, closeTimers: seq<nat>)
    requires origin != Wildcard
    ensures |posted| <= 1 && closeTimers == [CloseDelayMs]
    ensures forall p :: p in posted ==> p.targetOrigin == origin && p.targetOrigin != Wildcard
    ensures |posted| == 1 <==> hasOpener && (Truthy(Param(code)) || Truthy(Param(error)))
    ensures |posted| == 1 && Truthy(Param(code)) ==> Member(posted[0].message, "code") == Str(code.value)
  {
    var w := new PopupWindow(hasOpener, origin);
    RunEffect(w, code, error);
    posted, closeTimers := w.posted, w.closeTimers;
  }
}
