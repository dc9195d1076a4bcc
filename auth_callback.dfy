/** The second authorization callback page: it reads `tokens` (JSON text) and `error` from
    the redirect's query and relays the outcome to the opener at the fixed origin
    "http://localhost:3000". It calls `window.opener.postMessage` without optional chaining
    and parses the tokens inside the call, so a missing opener or malformed tokens throw
    and the effect stops before it schedules the close. */
module AuthCallback {
  import opened Js
  import opened Popup

  const AppOrigin := "http://localhost:3000"
  const CloseDelayMs: nat := 1000
  const SuccessHeading := "Authorization Successful!"
  const FailureHeading := "Authorization Failed"

  /** How the effect ended: it ran to its end, or an exception left it (`TypeError` for
      `null.postMessage`, `SyntaxError` from `JSON.parse`). */
  datatype Completion = Completed | Threw(name: string)

  /** What one run of the effect does: the post it makes, if any, and how it ends. */
  datatype Step = Step(post: Option<Post>, completion: Completion)

  /** The effect's decision. `parseJson` is `JSON.parse` (`None` when it throws). The opener
      is dereferenced before the arguments of `postMessage` are evaluated, so without an
      opener the tokens are never parsed. */
  function Effect(hasOpener: bool, tokens: Option<string>, error: Option<string>,
                  parseJson: string -> Option<Value>): (s: Step)
    ensures s.post.Some? ==> s.post.value.targetOrigin == AppOrigin
    ensures s.post.Some? ==> s.completion == Completed
    ensures s.post.Some? ==>
              (s.post.value.message.Obj? &&
               s.post.value.message.fields.Keys == if Truthy(Param(tokens)) then {"type", "tokens"} else {"type", "error"})
    ensures s.completion == Completed <==>
              (!Truthy(Param(tokens)) && !Truthy(Param(error))) ||
              (hasOpener && (Truthy(Param(tokens)) ==> parseJson(tokens.value).Some?))
    ensures Truthy(Param(tokens)) && s.post.Some? ==>
              Member(s.post.value.message, "type") == Str(SuccessType) &&
              Member(s.post.value.message, "tokens") == parseJson(tokens.value).value
    ensures !Truthy(Param(tokens)) && s.post.Some? ==>
              Member(s.post.value.message, "type") == Str(ErrorType) &&
              Member(s.post.value.message, "error") == Param(error)
    ensures s.post.None? && s.completion == Completed <==> !Truthy(Param(tokens)) && !Truthy(Param(error))
  {
    if Truthy(Param(tokens)) then
      if !hasOpener then Step(None, Threw("TypeError"))
      else match parseJson(tokens.value)
        case None => Step(None, Threw("SyntaxError"))
        case Some(parsed) =>
          Step(Some(Post(Obj(map["type" := Str(SuccessType), "tokens" := parsed]), AppOrigin)), Completed)
    else if Truthy(Param(error)) then
      if !hasOpener then Step(None, Threw("TypeError"))
      else Step(Some(Post(Obj(map["type" := Str(ErrorType), "error" := Param(error)]), AppOrigin)), Completed)
    else
      Step(None, Completed)
  }

  /** The page heading. */
  function Heading(tokens: Option<string>): (r: string)
    ensures r == SuccessHeading <==> Truthy(Param(tokens))
    ensures r != SuccessHeading ==> r == FailureHeading
  {
    if Truthy(Param(tokens)) then SuccessHeading else FailureHeading
  }

  /** The effect on the popup window: the post, and the one-second close when it completes. */
  method RunEffect(w: PopupWindow, tokens: Option<string>, error: Option<string>,
                   parseJson: string -> Option<Value>) returns (completion: Completion)
    modifies w
    ensures completion == Effect(w.hasOpener, tokens, error, parseJson).completion
    ensures var s := Effect(w.hasOpener, tokens, error, parseJson);
            w.posted == old(w.posted) + (if s.post.Some? then [s.post.value] else [])
    ensures w.closeTimers == old(w.closeTimers) + (if completion == Completed then [CloseDelayMs] else [])
  {
    var s := Effect(w.hasOpener, tokens, error, parseJson);
    completion := s.completion;
    if s.post.Some? {
      w.PostToOpener(s.post.value.message, s.post.value.targetOrigin);
    }
    if completion == Completed {
      w.ScheduleClose(CloseDelayMs);
    }
  }

  /** With truthy tokens the error parameter plays no part. */
  lemma TokensTakePriority(hasOpener: bool, tokens: string, error: Option<string>,
                           parseJson: string -> Option<Value>)
    requires tokens != ""
    ensures Effect(hasOpener, Some(tokens), error, parseJson) == Effect(hasOpener, Some(tokens), None, parseJson)
  {
  }

  /** An error alone, with an opener, relays exactly one error message carrying it. */
  lemma ErrorAloneRelaysError(tokens: Option<string>, error: string, parseJson: string -> Option<Value>)
    requires !Truthy(Param(tokens)) && error != ""
    ensures Effect(true, tokens, Some(error), parseJson) ==
              Step(Some(Post(Obj(map["type" := Str(ErrorType), "error" := Str(error)]), AppOrigin)), Completed)
  {
  }

  /** With truthy tokens that are not valid JSON, the first render's heading claims success
      while the effect relays nothing, throws and never schedules the close. */
  lemma SuccessHeadingWithoutMessage(hasOpener: bool, error: Option<string>)
    ensures var parseNothing := (t: string) => None;
            Heading(Some("{")) == SuccessHeading &&
            Effect(hasOpener, Some("{"), error, parseNothing).post == None &&
            Effect(hasOpener, Some("{"), error, parseNothing).completion.Threw?
  {
  }

  /** Opening the page directly (no opener) with an outcome in the query throws instead of
      skipping the post, unlike the other callback page. */
  lemma NoOpenerThrows(tokens: Option<string>, error: Option<string>, parseJson: string -> Option<Value>)
    requires Truthy(Param(tokens)) || Truthy(Param(error))
    ensures Effect(false, tokens, error, parseJson) == Step(None, Threw("TypeError"))
  {
  }
}
