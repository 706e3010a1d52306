/**
  The message listener the content script installs in `init`
  (content.js:19-34): a switch on the request's action that answers a
  detection query, starts a paste and answers once it settles, or stops one.
*/
module Messages {
  import opened Wrappers
  import opened Dom
  import opened Detector
  import opened Trace
  import opened Typing

  /** The requests the popup sends, by their `action` field. */
  datatype Request =
    | CheckNoVnc
    | StartPasteRequest(text: string, delay: Option<int>)
    | StopPasteRequest
    | OtherRequest(action: string)   // any action the switch has no case for

  /** The objects passed to `sendResponse`. */
  datatype Response =
    | NoVncAnswer(isNoVnc: bool)   // { isNoVNC }
    | Succeeded                    // { success: true }
    | Failed(error: string)        // { success: false, error }

  /** The script's state and the page after one request, what it did, and its answer if any. */
  datatype Handled = Handled(session: Session, page: Page, trace: seq<Action>, response: Option<Response>)

  /**
    The `.then` / `.catch` of the paste request: an answer once the promise
    settles, and none while it stays pending.
  */
  function Reply(o: Outcome): (r: Option<Response>)
    ensures r.None? <==> o.Pending?
    ensures r == Some(Succeeded) <==> o.Resolved?
    ensures o.Rejected? ==> r == Some(Failed(ErrorMessage(o.error)))
  {
    match o
    case Resolved => Some(Succeeded)
    case Rejected(e) => Some(Failed(ErrorMessage(e)))
    case Pending => None
  }

  /** The `startPaste` case: the call, then the answer it earns. */
  method HandleStart(s: Session, page: Page, text: string, delay: Option<int>, intr: Interrupt) returns (h: Handled)
    ensures s.isRunning ==>
      h == Handled(s, page, [], Some(Failed(ErrorMessage(AlreadyRunning))))
    ensures !s.isRunning && !PasteTarget(page) ==>
      h == Handled(s.(canvas := None), page, [], Some(Failed(ErrorMessage(NoTarget))))
    ensures !s.isRunning && PasteTarget(page) ==>
      && !h.session.isRunning
      && (h.response == Some(Succeeded) <==> ExitOf(intr, |text|).Finished?)
      && (h.response.None? <==> ExitOf(intr, |text|).Suspended?)
      && (ExitOf(intr, |text|).Threw? ==> h.response == Some(Failed(ExitOf(intr, |text|).message)))
  {
    var r := StartPaste(s, page, text, delay, intr);
    h := Handled(r.session, r.page, r.trace, Reply(r.outcome));
  }

  /**
    One request. A detection query answers with the strict test and changes
    nothing. A paste answers `success: true` once it resolves, the error's
    message once it rejects, and nothing while it stays suspended. A stop
    always answers `success: true`. An unknown action gets no answer.
  */
  method Handle(s: Session, page: Page, faults: set<Probe>, req: Request, intr: Interrupt) returns (h: Handled)
    ensures req.CheckNoVnc? ==>
      && h.session == s && h.page == page && h.trace == []
      && h.response.Some? && h.response.value.NoVncAnswer?
      && (h.response.value.isNoVnc <==> exists p: Probe :: p !in faults && Holds(p, page))
    ensures req.StartPasteRequest? && s.isRunning ==>
      h == Handled(s, page, [], Some(Failed(ErrorMessage(AlreadyRunning))))
    ensures req.StartPasteRequest? && !s.isRunning && !PasteTarget(page) ==>
      h == Handled(s.(canvas := None), page, [], Some(Failed(ErrorMessage(NoTarget))))
    ensures req.StartPasteRequest? && !s.isRunning && PasteTarget(page) ==>
      && !h.session.isRunning
      && (h.response == Some(Succeeded) <==> ExitOf(intr, |req.text|).Finished?)
      && (h.response.None? <==> ExitOf(intr, |req.text|).Suspended?)
      && (ExitOf(intr, |req.text|).Threw? ==> h.response == Some(Failed(ExitOf(intr, |req.text|).message)))
    ensures req.StopPasteRequest? ==>
      h == Handled(StopPaste(s), page, [], Some(Succeeded))
    ensures req.OtherRequest? ==> h == Handled(s, page, [], None)
  {
    match req
    case CheckNoVnc =>
      h := Handled(s, page, [], Some(NoVncAnswer(IsNoVncEnvironment(page, faults))));
    case StartPasteRequest(text, delay) =>
      h := HandleStart(s, page, text, delay, intr);
    case StopPasteRequest =>
      h := Handled(StopPaste(s), page, [], Some(Succeeded));
    case OtherRequest(_) =>
      h := Handled(s, page, [], None);
  }
}
