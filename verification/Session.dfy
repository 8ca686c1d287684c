/**
 The WebDriver remote end on a live session: SessionHost's table of pending
 commands, and the callbacks of Session and WebDriverService that run when the
 browser answers. A callback is a value: what to do with the answer, and the
 completion handler it owns.
 */
module Session {
  import opened Wrappers
  import opened Json

  type Handle = string
  type Request = nat  // an accepted HTTP request

  datatype Error =
    | NoSuchWindow | NoSuchFrame | NoSuchCookie | UnexpectedAlertOpen | ElementClickIntercepted
    | ElementNotInteractable | InvalidSessionID | UnknownError | OtherError

  datatype Result = Success(value: Json) | Fail(error: Error)

  datatype PromptBehavior = Dismiss | Accept | DismissAndNotify | AcceptAndNotify | Ignore

  // ----- Commands

  /** What one client command does once the session is found and its arguments are read. */
  datatype Command =
    | Local                                       // answered at once (timeouts)
    | Navigate(method': string)                   // go, back, forward, refresh
    | Read(method': string, inFrame: bool)        // asks after prompts are handled and reports what it reads
    | ReadNow(method': string, inFrame: bool)     // asks without looking at prompts (window handle, find elements)
    | Act(method': string)                        // changes something after prompts are handled (cookies)
    | ActNow(method': string, inFrame: bool)      // without looking at prompts (clear, alert text)
    | DismissAlert
    | AcceptAlert
    | AlertText
    | WindowHandles
    | SwitchToWindow(handle: Handle)
    | CloseWindow
    | SwitchToFrame(id: Json)
    | SwitchToParentFrame
    | GetWindowRect
    | SetWindowRect(resize: bool, move: bool)     // width and height given, x and y given
    | Click(element: string)
    | SendKeys(element: string)
    | ExecuteScript
    | NamedCookie(name: string)

  // ----- Completion handlers and response handlers

  /** A completion handler: what to do with a result, down to answering the request. */
  datatype Completion = Reply(request: Request) | Then(frame: Frame, next: Completion)

  datatype Frame =
    | AfterWait(command: Command)   // waitForNavigationToComplete came back
    | Guarded(command: Command)     // handleUserPrompts came back
    | ReportAlert                   // the alert text came back
    | ThenDismiss | ThenAccept      // report first, then close the dialog
    | Notified(report: Result)      // the dialog was closed, answer with the report
    | Connected                     // the handles after closing a window came back
    | CloseAll                      // handles came back, close the first if there is one
    | Closed                        // closeWindow of the service
    | Resized(move: bool) | Moved   // setWindowRect goes on
    | TagName(element: string)      // elementClick knows what it clicks
    | Clicked                       // the click is done
    | FindCookie(name: string)

  /** What to do with an answer of the browser. */
  datatype Kind =
    | Waited | DialogState | AlertMessage | DialogClosed | Acked | Navigated | Value | Contexts | ContextClosed
    | Switched(handle: Handle)
    | FrameResolved(window: Handle)
    | Layout(element: string)
    | ScriptDone
    | Focused

  datatype Handler = Handler(kind: Kind, k: Completion)

  function Owner(k: Completion): (r: Request)
  {
    match k
    case Reply(request) => request
    case Then(_, next) => Owner(next)
  }

  /** Whether a message is the first a guarded command sends of its own, on learning that no prompt is in the way, a later one, or neither. */
  datatype Part = Aside | First | Later

  /** A message to the browser; the last two fields are history, `dialog` being whether a dialog was open. */
  datatype Message = Message(id: nat, method': string, window: Option<Handle>, frame: Option<Handle>, part: Part, dialog: bool)

  datatype Answer = Answer(request: Request, result: Result)

  datatype State = State(
    last: nat,                      // lastSequenceID
    pending: map<nat, Handler>,     // m_commandRequests
    connected: bool,
    alive: bool,                    // the service has a session
    top: Option<Handle>,            // m_toplevelBrowsingContext
    frame: Option<Handle>,          // m_currentBrowsingContext
    behavior: PromptBehavior,
    crashed: bool,                  // an empty optional or session was dereferenced
    sent: seq<Message>,
    replies: seq<Answer>,
    dialog: bool,                   // the browser shows a dialog
    resolved: set<(Handle, Handle)>)  // frames the browser resolved, with the window they were resolved in

  // ----- SessionHost

  function Send(s: State, method': string, window: Option<Handle>, frame: Option<Handle>, part: Part, kind: Kind, k: Completion): (r: State)
  {
    s.(last := s.last + 1,
       pending := s.pending[s.last + 1 := Handler(kind, k)],
       sent := s.sent + [Message(s.last + 1, method', window, frame, part, s.dialog)])
  }

  function Crash(s: State): (r: State)
  {
    s.(crashed := true)
  }

  /** A message that names the current window; reading an unset window is a crash. */
  function SendInWindow(s: State, method': string, inFrame: bool, part: Part, kind: Kind, k: Completion): (r: State)
  {
    if s.top.None? then Crash(s) else Send(s, method', s.top, if inFrame then s.frame else None, part, kind, k)
  }

  // ----- Session, the parts without completion at once

  function GetWindowHandles(s: State, part: Part, k: Completion): (r: State)
  {
    Send(s, "getBrowsingContexts", None, None, part, Contexts, k)
  }

  /** After closing a window: which are left. */
  function AskForRest(s: State, k: Completion): (r: State)
  {
    GetWindowHandles(s, if k.Then? && k.frame.Closed? then Later else Aside, Then(Connected, k))
  }

  function CloseTop(s: State, handle: Handle, k: Completion): (r: State)
  {
    Send(s, "closeBrowsingContext", Some(handle), None, Aside, ContextClosed, k)
  }

  function HandleUserPrompts(s: State, k: Completion): (r: State)
  {
    SendInWindow(s, "isShowingJavaScriptDialog", false, Aside, DialogState, k)
  }

  function GetRect(s: State, part: Part, k: Completion): (r: State)
  {
    SendInWindow(s, "getBrowsingContext", false, part, Value, k)
  }

  function MoveWindow(s: State, part: Part, k: Completion): (r: State)
  {
    SendInWindow(s, "moveWindowOfBrowsingContext", false, part, Acked, Then(Moved, k))
  }

  /** Automation sends an empty string for the main frame. */
  function SwitchFrame(s: State, frame: string): (r: State)
  {
    s.(frame := if frame == "" then None else Some(frame))
  }

  function FirstHandle(value: Json): (r: Option<Handle>)
  {
    if value.Array? && value.items != [] && value.items[0].Str? then Some(value.items[0].s) else None
  }

  /** The handle of every context, or nothing if one has none. */
  function HandlesOf(contexts: seq<Json>): (r: Option<seq<Json>>)
  {
    if contexts == [] then Some([])
    else
      var init := HandlesOf(contexts[..|contexts| - 1]);
      var last := contexts[|contexts| - 1];
      if init.Some? && last.Object? && GetString(last.fields, "handle").Some?
      then Some(init.value + [Str(GetString(last.fields, "handle").value)])
      else None
  }

  function CookieNamed(cookies: seq<Json>, name: string): (r: Option<Json>)
  {
    if cookies == [] then None
    else if cookies[0].Object? && GetString(cookies[0].fields, "name") == Some(name) then Some(cookies[0])
    else CookieNamed(cookies[1..], name)
  }

  /** Which child a frame id names, if it is one switchToFrame accepts. */
  predicate FrameIdOk(id: Json)
  {
    match AsInteger(id)
    case Some(index) => 0 <= index <= 0xFFFF
    case None => id.Str? || (id.Object? && GetString(id.fields, ELEMENT).Some? && GetString(id.fields, ELEMENT).value != "")
  }

  const ELEMENT := "element-6066-11e4-a52e-4f735466cecf"

  // ----- Completion

  /** Closing an alert, then reporting it, is one more step than reporting alone. */
  function Size(k: Completion): (n: nat)
  {
    match k
    case Reply(_) => 0
    case Then(f, next) => Size(next) + if f.ThenDismiss? || f.ThenAccept? then 2 else 1
  }

  /** Calling the completion handler `k` with `r`. */
  function Complete(s: State, k: Completion, r: Result): (s': State)
    decreases Size(k), 0
  {
    match k
    case Reply(request) => s.(replies := s.replies + [Answer(request, r)])
    case Then(f, next) =>
      match f
      case AfterWait(command) =>
        if r.Fail? then Complete(s, next, r) else if !s.alive then Crash(s) else Execute(s, command, next)
      case Guarded(command) =>
        if r.Fail? then Complete(s, next, r) else Body(s, command, next)
      case ReportAlert => Complete(s, next, Fail(UnexpectedAlertOpen))
      case ThenDismiss => CloseDialog(s, "dismissCurrentJavaScriptDialog", Then(Notified(r), next))
      case ThenAccept => CloseDialog(s, "acceptCurrentJavaScriptDialog", Then(Notified(r), next))
      case Notified(report) => Complete(s, next, if r.Fail? then r else report)
      case Connected => Complete(s, next, if !s.connected then Success(Array([])) else r)
      case CloseAll =>
        if r.Fail? then Complete(s, next, r)
        else
          var first := FirstHandle(r.value);
          if first.Some? then CloseTop(s, first.value, k) else Complete(s, next, Success(Null))
      case Closed =>
        if r.Success? && r.value == Array([]) then Complete(s.(alive := false), next, r) else Complete(s, next, r)
      case Resized(move) =>
        if r.Fail? then Complete(s, next, r) else if move then MoveWindow(s, Later, next) else GetRect(s, Later, next)
      case Moved => if r.Fail? then Complete(s, next, r) else GetRect(s, Later, next)
      case TagName(element) =>
        if r == Success(Str("option")) then SendInWindow(s, "selectOptionElement", true, Aside, Acked, Then(Clicked, next))
        else SendInWindow(s, "performMouseInteraction", false, Aside, Acked, Then(Clicked, next))
      case Clicked => if r.Fail? then Complete(s, next, r) else WaitForNavigation(s, next)
      case FindCookie(name) =>
        if r.Fail? || !r.value.Array? then Complete(s, next, r)  // getAllCookies reads an array
        else
          var cookie := CookieNamed(r.value.items, name);
          Complete(s, next, if cookie.Some? then Success(cookie.value) else Fail(NoSuchCookie))
  }

  /** dismissAlert and acceptAlert. */
  function CloseDialog(s: State, method': string, k: Completion): (r: State)
    decreases Size(k), 1
  {
    if s.top.None? then Complete(s, k, Fail(NoSuchWindow)) else Send(s, method', s.top, None, Aside, DialogClosed, k)
  }

  function GetAlertText(s: State, k: Completion): (r: State)
    decreases Size(k), 1
  {
    if s.top.None? then Complete(s, k, Fail(NoSuchWindow))
    else Send(s, "messageOfCurrentJavaScriptDialog", s.top, None, Aside, AlertMessage, k)
  }

  function HandleUnexpectedAlertOpen(s: State, k: Completion): (r: State)
    decreases Size(k) + 3, 2
  {
    match s.behavior
    case Dismiss => CloseDialog(s, "dismissCurrentJavaScriptDialog", k)
    case Accept => CloseDialog(s, "acceptCurrentJavaScriptDialog", k)
    case DismissAndNotify => GetAlertText(s, Then(ReportAlert, Then(ThenDismiss, k)))
    case AcceptAndNotify => GetAlertText(s, Then(ReportAlert, Then(ThenAccept, k)))
    case Ignore => GetAlertText(s, Then(ReportAlert, k))
  }

  function WaitForNavigation(s: State, k: Completion): (r: State)
    decreases Size(k), 1
  {
    if s.top.None? then Complete(s, k, Fail(NoSuchWindow))
    else Send(s, "waitForNavigationToComplete", s.top, s.frame, Aside, Waited, k)
  }

  /** The public methods of Session. */
  function Execute(s: State, command: Command, k: Completion): (r: State)
    decreases Size(k), 3
  {
    if command.Local? then Complete(s, k, Success(Null))
    else if command.WindowHandles? then GetWindowHandles(s, Aside, k)
    else if command.SwitchToWindow? then
      Send(s, "switchToBrowsingContext", Some(command.handle), None, Aside, Switched(command.handle), k)
    else if s.top.None? then Complete(s, k, Fail(NoSuchWindow))
    else ExecuteInWindow(s, command, k)
  }

  function ExecuteInWindow(s: State, command: Command, k: Completion): (r: State)
    decreases Size(k), 2
  {
    match command
    case ReadNow(m, inFrame) => SendInWindow(s, m, inFrame, Aside, Value, k)
    case ActNow(m, inFrame) => SendInWindow(s, m, inFrame, Aside, Acked, k)
    case DismissAlert => CloseDialog(s, "dismissCurrentJavaScriptDialog", k)
    case AcceptAlert => CloseDialog(s, "acceptCurrentJavaScriptDialog", k)
    case AlertText => GetAlertText(s, k)
    case SwitchToFrame(id) =>
      if id.Null? then Complete(s.(frame := None), k, Success(Null)) else HandleUserPrompts(s, Then(Guarded(command), k))
    case SwitchToParentFrame =>
      if s.frame.None? then Complete(s, k, Success(Null)) else HandleUserPrompts(s, Then(Guarded(command), k))
    case Click(element) => SendInWindow(s, "computeElementLayout", true, Aside, Layout(element), k)
    case NamedCookie(name) => HandleUserPrompts(s, Then(Guarded(Read("getAllCookies", false)), Then(FindCookie(name), k)))
    case _ => HandleUserPrompts(s, Then(Guarded(command), k))
  }

  /** What a guarded command does once no prompt is in the way: its own message. */
  function Body(s: State, command: Command, k: Completion): (r: State)
    decreases Size(k), 1
  {
    match command
    case Navigate(m) => SendInWindow(s, m, false, First, Navigated, k)
    case Read(m, inFrame) => SendInWindow(s, m, inFrame, First, Value, k)
    case Act(m) => SendInWindow(s, m, false, First, Acked, k)
    case CloseWindow =>
      if s.top.None? then Crash(s)
      else Send(s.(top := None), "closeBrowsingContext", s.top, None, First, ContextClosed, k)
    case SwitchToFrame(id) =>
      if s.top.None? then Crash(s)
      else if FrameIdOk(id) then Send(s, "resolveChildFrameHandle", s.top, s.frame, First, FrameResolved(s.top.value), k)
      else Complete(s, k, Fail(NoSuchFrame))
    case SwitchToParentFrame =>
      if s.top.None? || s.frame.None? then Crash(s)
      else Send(s, "resolveParentFrameHandle", s.top, s.frame, First, FrameResolved(s.top.value), k)
    case GetWindowRect => GetRect(s, First, k)
    case SetWindowRect(resize, move) =>
      if resize then SendInWindow(s, "resizeWindowOfBrowsingContext", false, First, Acked, Then(Resized(move), k))
      else if move then MoveWindow(s, First, k)
      else GetRect(s, First, k)
    case SendKeys(element) => SendInWindow(s, "evaluateJavaScriptFunction", true, First, Focused, k)
    case ExecuteScript => SendInWindow(s, "evaluateJavaScriptFunction", true, First, ScriptDone, k)
    case _ => Complete(s, k, Fail(OtherError))  // no other command waits for prompts
  }

  // ----- Answers of the browser

  /** How computeElementLayout reads an answer. */
  datatype LayoutReading = NoRect | Obscured | OffScreen | InView

  /** `error` is the code an error object stands for; `reading` and `layout` are what a value handler makes of the object. */
  datatype Response = Response(isError: bool, object': Option<Fields>, error: Error, reading: Result, layout: LayoutReading)

  /** What every pending handler gets when the browser is gone. */
  const DISCONNECTED := Response(true, None, UnknownError, Fail(UnknownError), NoRect)

  /** CommandResult::fail on the object of an answer. */
  function ErrorOf(a: Response): (e: Error)
  {
    if a.isError then a.error else UnknownError
  }

  /** What getWindowHandles makes of an answer. */
  function ReadContexts(o: Fields): (r: Result)
  {
    var contexts := GetArray(o, "contexts");
    if contexts.None? then Fail(UnknownError)
    else
      var handles := HandlesOf(contexts.value);
      if handles.None? then Fail(UnknownError) else Success(Array(handles.value))
  }

  function ReadMessage(o: Fields): (r: Result)
  {
    var text := GetString(o, "message");
    if text.None? then Fail(UnknownError) else Success(Str(text.value))
  }

  /** SessionHost calls the handler it took from the table. */
  function RunHandler(s: State, h: Handler, a: Response): (r: State)
  {
    var k := h.k;
    var done := if a.isError then Fail(a.error) else Success(Null);
    if a.isError || a.object'.None? then
      match h.kind
      case Waited => if a.isError && a.error == NoSuchFrame then Complete(s.(frame := None), k, Success(Null)) else Complete(s, k, done)
      case DialogClosed => Complete(s, k, done)
      case Acked => Complete(s, k, done)
      case Navigated => if a.isError then Complete(s, k, done) else Complete(s.(frame := None), k, done)
      case ContextClosed =>
        if !s.connected then Complete(s, k, Success(Array([])))
        else if a.isError then Complete(s, k, done)
        else AskForRest(s, k)
      case Switched(handle) => if a.isError then Complete(s, k, done) else Complete(s.(top := Some(handle), frame := None), k, done)
      case ScriptDone =>
        if ErrorOf(a) == UnexpectedAlertOpen then HandleUnexpectedAlertOpen(s, k) else Complete(s, k, Fail(ErrorOf(a)))
      case _ => Complete(s, k, Fail(ErrorOf(a)))
    else
      var o := a.object'.value;
      match h.kind
      case Waited => Complete(s, k, done)
      case DialogState =>
        var showing := GetBool(o, "result");
        if showing.None? then Complete(s, k, Fail(UnknownError))
        else if showing.value then HandleUnexpectedAlertOpen(s, k)
        else Complete(s, k, Success(Null))
      case AlertMessage => Complete(s, k, ReadMessage(o))
      case DialogClosed => Complete(s, k, done)
      case Acked => Complete(s, k, done)
      case Navigated => Complete(s.(frame := None), k, done)
      case Value => Complete(s, k, a.reading)
      case Contexts => Complete(s, k, ReadContexts(o))
      case ContextClosed =>
        if !s.connected then Complete(s, k, Success(Array([]))) else AskForRest(s, k)
      case Switched(handle) => Complete(s.(top := Some(handle), frame := None), k, done)
      case FrameResolved(window) =>
        var frame := GetString(o, "result");
        if frame.None? then Complete(s, k, Fail(UnknownError))
        else Complete(SwitchFrame(s.(resolved := s.resolved + {(window, frame.value)}), frame.value), k, done)
      case Layout(element) =>
        if a.layout.NoRect? then Complete(s, k, Fail(UnknownError))
        else if a.layout.Obscured? then Complete(s, k, Fail(ElementClickIntercepted))
        else if a.layout.OffScreen? then Complete(s, k, Fail(ElementNotInteractable))
        else Execute(s, Read("evaluateJavaScriptFunction", true), Then(TagName(element), k))
      case ScriptDone => Complete(s, k, a.reading)
      case Focused => SendInWindow(s, "performKeyboardInteractions", false, Later, Acked, k)
  }

  // ----- The service, and everything that can happen

  datatype Event =
    | Refuse(request: Request, error: Error)                     // unknown command or bad arguments
    | Command(request: Request, command: Command, waits: bool)   // waits: the service lets navigation finish first
    | Delete(request: Request)                                   // delete session
    | Dispatch(id: nat, response: Response)
    | Disconnect(order: seq<nat>)                                // the order the table lists its keys in
    | OpenDialog

  function HandleCommand(s: State, request: Request, command: Command, waits: bool): (r: State)
  {
    var k := if command.CloseWindow? then Then(Closed, Reply(request)) else Reply(request);
    if !s.alive then Complete(s, k, Fail(InvalidSessionID))
    else if waits then WaitForNavigation(s, Then(AfterWait(command), k))
    else Execute(s, command, k)
  }

  /** deleteSession and Session::close. */
  function HandleDelete(s: State, request: Request): (r: State)
  {
    if !s.alive then Complete(s, Reply(request), Success(Null))
    else GetWindowHandles(s.(alive := false, top := None), Aside, Then(CloseAll, Reply(request)))
  }

  /** The table gives up an entry and its handler is called. */
  function Take(s: State, id: nat, a: Response): (r: State)
    requires id in s.pending
  {
    RunHandler(s.(pending := s.pending - {id}), s.pending[id], a)
  }

  /** inspectorDisconnected: every key listed at the start, one after the other. */
  function Flush(s: State, order: seq<nat>): (r: State)
    decreases |order|
  {
    if order == [] || s.crashed then s
    else if order[0] !in s.pending then Crash(s)  // a null handler would be called
    else Flush(Take(s, order[0], DISCONNECTED), order[1..])
  }

  function Step(s: State, e: Event): (r: State)
    requires !s.crashed
  {
    match e
    case Refuse(request, error) => Complete(s, Reply(request), Fail(error))
    case Command(request, command, waits) => HandleCommand(s, request, command, waits)
    case Delete(request) => HandleDelete(s, request)
    case Dispatch(id, response) =>
      if id !in s.pending then Crash(s)
      else
        // A browser that acknowledges closing the dialog shows none.
        var closed := s.pending[id].kind.DialogClosed? && !response.isError;
        Take(if closed then s.(dialog := false) else s, id, response)
    case Disconnect(order) => Flush(s.(connected := false), order)
    case OpenDialog => s.(dialog := true)
  }

  /** The state after a run; a crash ends it. */
  function Run(s: State, events: seq<Event>): (r: State)
    decreases |events|
  {
    if events == [] || s.crashed then s else Run(Step(s, events[0]), events[1..])
  }

  /** The session right after its window was created. */
  function Fresh(window: Handle, behavior: PromptBehavior): (s: State)
  {
    State(0, map[], true, true, Some(window), None, behavior, false, [], [], false, {})
  }
}
