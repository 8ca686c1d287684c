/** Every accepted request is answered exactly once or owned by exactly one pending command. */
module SessionLedger {
  import opened Wrappers
  import opened Json
  import opened Session

  // ----- One completion, one outcome

  /** `request` was answered, once, and nothing was sent. */
  ghost predicate Answered(s: State, t: State, request: Request)
  {
    && t.pending == s.pending && t.last == s.last && t.sent == s.sent
    && |t.replies| == |s.replies| + 1 && t.replies[..|s.replies|] == s.replies
    && t.replies[|s.replies|].request == request
  }

  /** One message was sent, under the next number, and its handler owns `request`; nothing was answered. */
  ghost predicate Forwarded(s: State, t: State, request: Request)
  {
    && t.last == s.last + 1 && t.replies == s.replies
    && t.last in t.pending && t.pending == s.pending[t.last := t.pending[t.last]]
    && Owner(t.pending[t.last].k) == request
    && |t.sent| == |s.sent| + 1 && t.sent[..|s.sent|] == s.sent && t.sent[|s.sent|].id == t.last
  }

  /** Whoever holds `request` hands it on exactly once; the browser's side is not touched. */
  ghost predicate Passes(s: State, t: State, request: Request)
  {
    && t.connected == s.connected && t.dialog == s.dialog && t.behavior == s.behavior
    && (t.crashed || Answered(s, t, request) || Forwarded(s, t, request))
  }

  lemma SendPasses(s: State, m: string, window: Option<Handle>, frame: Option<Handle>, part: Part, kind: Kind, k: Completion)
    ensures Passes(s, Send(s, m, window, frame, part, kind, k), Owner(k))
  {
  }

  lemma SendInWindowPasses(s: State, m: string, inFrame: bool, part: Part, kind: Kind, k: Completion)
    ensures Passes(s, SendInWindow(s, m, inFrame, part, kind, k), Owner(k))
  {
    hide Passes, Send;
    SendPasses(s, m, s.top, if inFrame then s.frame else None, part, kind, k);
    CrashPasses(s, Owner(k));
  }

  lemma ReplyPasses(s: State, request: Request, r: Result)
    ensures Passes(s, Complete(s, Reply(request), r), request)
  {
  }

  lemma CrashPasses(s: State, request: Request)
    ensures Passes(s, Crash(s), request)
  {
  }

  /** Moving to another window or frame, or dropping the session, is not a hand-over. */
  lemma Rebase(s: State, alive: bool, top: Option<Handle>, frame: Option<Handle>, resolved: set<(Handle, Handle)>, t: State, request: Request)
    requires Passes(s.(alive := alive, top := top, frame := frame, resolved := resolved), t, request)
    ensures Passes(s, t, request)
  {
  }

  lemma {:induction false} CompletePasses(s: State, k: Completion, r: Result)
    ensures Passes(s, Complete(s, k, r), Owner(k))
    decreases Size(k), 0
  {
    hide Passes, Execute, Body, CloseDialog, WaitForNavigation, Send, SendInWindow;
    match k {
      case Reply(request) => ReplyPasses(s, request, r);
      case Then(f, next) =>
        if f.AfterWait? && r.Success? {
          ExecutePasses(s, f.command, next);
          CrashPasses(s, Owner(k));
        } else if f.Guarded? && r.Success? {
          BodyPasses(s, f.command, next);
        } else if f.ThenDismiss? || f.ThenAccept? {
          CloseDialogPasses(s, "dismissCurrentJavaScriptDialog", Then(Notified(r), next));
          CloseDialogPasses(s, "acceptCurrentJavaScriptDialog", Then(Notified(r), next));
        } else if f.Resized? || f.Moved? || f.TagName? || f.Clicked? || f.CloseAll? {
          StagePasses(s, k, r);
        } else {
          TransformPasses(s, k, r);
        }
    }
  }

  /** Frames that ask the browser for something more. */
  lemma {:induction false} StagePasses(s: State, k: Completion, r: Result)
    requires k.Then? && (k.frame.Resized? || k.frame.Moved? || k.frame.TagName? || k.frame.Clicked? || k.frame.CloseAll?)
    ensures Passes(s, Complete(s, k, r), Owner(k))
    decreases Size(k), 0, 0
  {
    hide Passes, WaitForNavigation, Send, SendInWindow;
    var next := k.next;
    CompletePasses(s, next, r);
    CompletePasses(s, next, Success(Null));
    WaitPasses(s, next);
    SendInWindowPasses(s, "moveWindowOfBrowsingContext", false, Later, Acked, Then(Moved, next));
    SendInWindowPasses(s, "getBrowsingContext", false, Later, Value, next);
    SendInWindowPasses(s, "selectOptionElement", true, Aside, Acked, Then(Clicked, next));
    SendInWindowPasses(s, "performMouseInteraction", false, Aside, Acked, Then(Clicked, next));
    if k.frame.CloseAll? && r.Success? && FirstHandle(r.value).Some? {
      SendPasses(s, "closeBrowsingContext", FirstHandle(r.value), None, Aside, ContextClosed, k);
    }
  }

  /** Frames that pass a result on, as it is or changed. */
  lemma {:induction false} TransformPasses(s: State, k: Completion, r: Result)
    requires k.Then?
    requires var f := k.frame; ((f.AfterWait? || f.Guarded?) && r.Fail?) || f.ReportAlert? || f.Notified? || f.Connected? || f.Closed? || f.FindCookie?
    ensures Passes(s, Complete(s, k, r), Owner(k))
    decreases Size(k), 0, 0
  {
    hide Passes;
    var next := k.next;
    CompletePasses(s, next, r);
    match k.frame {
      case ReportAlert => CompletePasses(s, next, Fail(UnexpectedAlertOpen));
      case Notified(report) => CompletePasses(s, next, report);
      case Connected => CompletePasses(s, next, Success(Array([])));
      case Closed =>
        CompletePasses(s.(alive := false), next, r);
        if r == Success(Array([])) {
          Rebase(s, false, s.top, s.frame, s.resolved, Complete(s, k, r), Owner(k));
        }
      case FindCookie(name) =>
        if r.Success? && r.value.Array? {
          var cookie := CookieNamed(r.value.items, name);
          CompletePasses(s, next, if cookie.Some? then Success(cookie.value) else Fail(NoSuchCookie));
        }
      case _ =>
    }
  }

  lemma {:induction false} CloseDialogPasses(s: State, m: string, k: Completion)
    ensures Passes(s, CloseDialog(s, m, k), Owner(k))
    decreases Size(k), 1
  {
    hide Passes, Complete;
    CompletePasses(s, k, Fail(NoSuchWindow));
    SendPasses(s, m, s.top, None, Aside, DialogClosed, k);
  }

  lemma {:induction false} GetAlertTextPasses(s: State, k: Completion)
    ensures Passes(s, GetAlertText(s, k), Owner(k))
    decreases Size(k), 1
  {
    hide Passes, Complete;
    CompletePasses(s, k, Fail(NoSuchWindow));
    SendPasses(s, "messageOfCurrentJavaScriptDialog", s.top, None, Aside, AlertMessage, k);
  }

  lemma {:induction false} WaitPasses(s: State, k: Completion)
    ensures Passes(s, WaitForNavigation(s, k), Owner(k))
    decreases Size(k), 1
  {
    hide Passes, Complete;
    CompletePasses(s, k, Fail(NoSuchWindow));
    SendPasses(s, "waitForNavigationToComplete", s.top, s.frame, Aside, Waited, k);
  }

  lemma {:induction false} ExecutePasses(s: State, command: Command, k: Completion)
    ensures Passes(s, Execute(s, command, k), Owner(k))
    decreases Size(k), 3
  {
    hide Passes, Complete, ExecuteInWindow, Send;
    CompletePasses(s, k, Success(Null));
    CompletePasses(s, k, Fail(NoSuchWindow));
    ExecuteInWindowPasses(s, command, k);
    SendPasses(s, "getBrowsingContexts", None, None, Aside, Contexts, k);
    if command.SwitchToWindow? {
      SendPasses(s, "switchToBrowsingContext", Some(command.handle), None, Aside, Switched(command.handle), k);
    }
  }

  lemma PromptsPass(s: State, k: Completion)
    ensures Passes(s, HandleUserPrompts(s, k), Owner(k))
  {
    SendInWindowPasses(s, "isShowingJavaScriptDialog", false, Aside, DialogState, k);
  }

  lemma {:induction false} ExecuteInWindowPasses(s: State, command: Command, k: Completion)
    ensures Passes(s, ExecuteInWindow(s, command, k), Owner(k))
    decreases Size(k), 2
  {
    hide Passes, Complete, CloseDialog, GetAlertText, HandleUserPrompts, SendInWindow;
    PromptsPass(s, Then(Guarded(command), k));
    match command {
      case ReadNow(m, inFrame) => SendInWindowPasses(s, m, inFrame, Aside, Value, k);
      case ActNow(m, inFrame) => SendInWindowPasses(s, m, inFrame, Aside, Acked, k);
      case DismissAlert => CloseDialogPasses(s, "dismissCurrentJavaScriptDialog", k);
      case AcceptAlert => CloseDialogPasses(s, "acceptCurrentJavaScriptDialog", k);
      case AlertText => GetAlertTextPasses(s, k);
      case SwitchToFrame(id) =>
        CompletePasses(s.(frame := None), k, Success(Null));
        if id.Null? {
          Rebase(s, s.alive, s.top, None, s.resolved, ExecuteInWindow(s, command, k), Owner(k));
        }
      case SwitchToParentFrame => CompletePasses(s, k, Success(Null));
      case Click(element) => SendInWindowPasses(s, "computeElementLayout", true, Aside, Layout(element), k);
      case NamedCookie(name) =>
        assert Owner(Then(FindCookie(name), k)) == Owner(k);
        PromptsPass(s, Then(Guarded(Read("getAllCookies", false)), Then(FindCookie(name), k)));
      case _ =>
    }
  }

  lemma {:induction false} BodyPasses(s: State, command: Command, k: Completion)
    ensures Passes(s, Body(s, command, k), Owner(k))
    decreases Size(k), 1
  {
    hide Passes, Complete, Send, SendInWindow;
    CrashPasses(s, Owner(k));
    SendInWindowPasses(s, "getBrowsingContext", false, First, Value, k);
    match command {
      case Navigate(m) => SendInWindowPasses(s, m, false, First, Navigated, k);
      case Read(m, inFrame) => SendInWindowPasses(s, m, inFrame, First, Value, k);
      case Act(m) => SendInWindowPasses(s, m, false, First, Acked, k);
      case CloseWindow =>
        SendPasses(s.(top := None), "closeBrowsingContext", s.top, None, First, ContextClosed, k);
        if s.top.Some? {
          Rebase(s, s.alive, None, s.frame, s.resolved, Body(s, command, k), Owner(k));
        }
      case SwitchToFrame(id) =>
        CompletePasses(s, k, Fail(NoSuchFrame));
        if s.top.Some? {
          SendPasses(s, "resolveChildFrameHandle", s.top, s.frame, First, FrameResolved(s.top.value), k);
        }
      case SwitchToParentFrame =>
        if s.top.Some? {
          SendPasses(s, "resolveParentFrameHandle", s.top, s.frame, First, FrameResolved(s.top.value), k);
        }
      case SetWindowRect(resize, move) =>
        SendInWindowPasses(s, "resizeWindowOfBrowsingContext", false, First, Acked, Then(Resized(move), k));
        SendInWindowPasses(s, "moveWindowOfBrowsingContext", false, First, Acked, Then(Moved, k));
      case SendKeys(element) => SendInWindowPasses(s, "evaluateJavaScriptFunction", true, First, Focused, k);
      case ExecuteScript => SendInWindowPasses(s, "evaluateJavaScriptFunction", true, First, ScriptDone, k);
      case _ => CompletePasses(s, k, Fail(OtherError));
    }
  }

  lemma AlertPasses(s: State, k: Completion)
    ensures Passes(s, HandleUnexpectedAlertOpen(s, k), Owner(k))
  {
    hide Passes, CloseDialog, GetAlertText;
    CloseDialogPasses(s, "dismissCurrentJavaScriptDialog", k);
    CloseDialogPasses(s, "acceptCurrentJavaScriptDialog", k);
    GetAlertTextPasses(s, Then(ReportAlert, Then(ThenDismiss, k)));
    GetAlertTextPasses(s, Then(ReportAlert, Then(ThenAccept, k)));
    GetAlertTextPasses(s, Then(ReportAlert, k));
  }

  /** Any handler, on any answer, hands its request on exactly once. */
  lemma HandlerPasses(s: State, h: Handler, a: Response)
    ensures Passes(s, RunHandler(s, h, a), Owner(h.k))
  {
    hide Passes, Complete, Execute, HandleUnexpectedAlertOpen, SendInWindow, Send, ReadContexts, ReadMessage;
    var k := h.k;
    var done := if a.isError then Fail(a.error) else Success(Null);
    CompletePasses(s, k, done);
    CompletePasses(s, k, Success(Array([])));
    AlertPasses(s, k);
    SendPasses(s, "getBrowsingContexts", None, None, Aside, Contexts, Then(Connected, k));
    SendPasses(s, "getBrowsingContexts", None, None, Later, Contexts, Then(Connected, k));
    match h.kind {
      case Waited => MovedPasses(s, k, s.top, None, s.resolved, Success(Null));
      case Navigated => MovedPasses(s, k, s.top, None, s.resolved, done);
      case Switched(handle) => MovedPasses(s, k, Some(handle), None, s.resolved, done);
      case FrameResolved(window) =>
        CompletePasses(s, k, Fail(ErrorOf(a)));
        CompletePasses(s, k, Fail(UnknownError));
        if a.object'.Some? && GetString(a.object'.value, "result").Some? {
          var frame := GetString(a.object'.value, "result").value;
          MovedPasses(s, k, s.top, if frame == "" then None else Some(frame), s.resolved + {(window, frame)}, done);
        }
      case Layout(element) =>
        CompletePasses(s, k, Fail(ErrorOf(a)));
        CompletePasses(s, k, Fail(UnknownError));
        CompletePasses(s, k, Fail(ElementClickIntercepted));
        CompletePasses(s, k, Fail(ElementNotInteractable));
        ExecutePasses(s, Read("evaluateJavaScriptFunction", true), Then(TagName(element), k));
      case _ =>
        CompletePasses(s, k, Fail(ErrorOf(a)));
        CompletePasses(s, k, Fail(UnknownError));
        CompletePasses(s, k, Success(Null));
        CompletePasses(s, k, a.reading);
        SendInWindowPasses(s, "performKeyboardInteractions", false, Later, Acked, k);
        if a.object'.Some? {
          CompletePasses(s, k, ReadContexts(a.object'.value));
          CompletePasses(s, k, ReadMessage(a.object'.value));
        }
    }
  }

  /** Completing after a move. */
  lemma MovedPasses(s: State, k: Completion, top: Option<Handle>, frame: Option<Handle>, resolved: set<(Handle, Handle)>, r: Result)
    ensures Passes(s, Complete(s.(top := top, frame := frame, resolved := resolved), k, r), Owner(k))
  {
    hide Passes, Complete;
    var t := s.(top := top, frame := frame, resolved := resolved);
    CompletePasses(t, k, r);
    assert t == s.(alive := s.alive, top := top, frame := frame, resolved := resolved);
    Rebase(s, s.alive, top, frame, resolved, Complete(t, k, r), Owner(k));
  }

  // ----- The ledger

  ghost predicate Replied(s: State, request: Request)
  {
    exists i :: 0 <= i < |s.replies| && s.replies[i].request == request
  }

  ghost predicate Owned(s: State, request: Request)
  {
    exists id :: id in s.pending && Owner(s.pending[id].k) == request
  }

  /** Numbers are used once: every number handed out so far is at most `last`. */
  ghost predicate Numbered(s: State)
  {
    && (forall id :: id in s.pending ==> 0 < id <= s.last)
    && (forall i :: 0 <= i < |s.sent| ==> s.sent[i].id <= s.last)
    && (forall i, j :: 0 <= i < j < |s.sent| ==> s.sent[i].id < s.sent[j].id)
  }

  /** Nobody is answered twice, nobody is owned twice, and nobody is both. */
  ghost predicate Once(s: State)
  {
    && (forall i, j :: 0 <= i < j < |s.replies| ==> s.replies[i].request != s.replies[j].request)
    && (forall id, id' :: id in s.pending && id' in s.pending && id != id' ==> Owner(s.pending[id].k) != Owner(s.pending[id'].k))
    && (forall id :: id in s.pending ==> !Replied(s, Owner(s.pending[id].k)))
  }

  /** The accepted requests are exactly the answered and the owned ones. */
  ghost predicate Ledger(s: State, accepted: set<Request>)
  {
    && Numbered(s) && Once(s)
    && forall r :: r in accepted <==> Replied(s, r) || Owned(s, r)
  }

  /** In the middle of a callback: `request` is in nobody's hands but the callback's. */
  lemma PassingKeepsLedger(s: State, t: State, accepted: set<Request>, request: Request)
    requires Ledger(s, accepted) && request !in accepted
    requires Passes(s, t, request) && !t.crashed
    ensures Ledger(t, accepted + {request})
  {
    assert !Replied(s, request) && !Owned(s, request);
    if Answered(s, t, request) {
      AnsweringKeepsLedger(s, t, accepted, request);
    } else {
      ForwardingKeepsLedger(s, t, accepted, request);
    }
  }

  lemma AnsweringKeepsLedger(s: State, t: State, accepted: set<Request>, request: Request)
    requires Ledger(s, accepted) && request !in accepted && Answered(s, t, request)
    ensures Ledger(t, accepted + {request})
  {
    var n := |s.replies|;
    assert forall i :: 0 <= i < n ==> t.replies[i] == s.replies[i] && Replied(s, s.replies[i].request);
    forall r ensures Replied(t, r) <==> Replied(s, r) || r == request {
      assert t.replies[n].request == request;
      if Replied(s, r) {
        var i :| 0 <= i < n && s.replies[i].request == r;
        assert t.replies[i].request == r;
      }
    }
    assert forall r :: Owned(t, r) <==> Owned(s, r);
    assert forall id :: id in s.pending ==> Owned(s, Owner(s.pending[id].k));
  }

  lemma ForwardingKeepsLedger(s: State, t: State, accepted: set<Request>, request: Request)
    requires Ledger(s, accepted) && request !in accepted && Forwarded(s, t, request)
    ensures Ledger(t, accepted + {request})
  {
    var id0 := t.last;
    assert id0 !in s.pending && forall id :: id in s.pending ==> t.pending[id] == s.pending[id];
    assert forall r :: Replied(t, r) <==> Replied(s, r);
    assert forall id :: id in s.pending ==> Owned(s, Owner(s.pending[id].k));
    forall r ensures Owned(t, r) <==> Owned(s, r) || r == request {
      assert Owner(t.pending[id0].k) == request;
      if Owned(s, r) {
        var id :| id in s.pending && Owner(s.pending[id].k) == r;
        assert t.pending[id] == s.pending[id];
      }
    }
    assert forall i :: 0 <= i < |s.sent| ==> t.sent[i] == s.sent[i];
  }

  /** Taking an entry out of the table puts its request in the callback's hands. */
  lemma TakingOut(s: State, accepted: set<Request>, id: nat)
    requires Ledger(s, accepted) && id in s.pending
    ensures var request := Owner(s.pending[id].k);
            request in accepted && Ledger(s.(pending := s.pending - {id}), accepted - {request})
  {
    var request := Owner(s.pending[id].k);
    var t := s.(pending := s.pending - {id});
    assert Owned(s, request);
    assert forall r :: Replied(t, r) <==> Replied(s, r);
    forall r ensures Owned(t, r) <==> Owned(s, r) && r != request {
      if Owned(s, r) && r != request {
        var id' :| id' in s.pending && Owner(s.pending[id'].k) == r;
        assert id' in t.pending;
      }
    }
  }

  lemma TakeKeepsLedger(s: State, accepted: set<Request>, id: nat, a: Response)
    requires Ledger(s, accepted) && id in s.pending && !Take(s, id, a).crashed
    ensures Ledger(Take(s, id, a), accepted)
    ensures Take(s, id, a).last >= s.last
    ensures forall i :: i in s.pending && i != id ==> i in Take(s, id, a).pending && Take(s, id, a).pending[i] == s.pending[i]
    ensures forall i :: i in Take(s, id, a).pending ==> (i in s.pending && i != id) || i == s.last + 1
  {
    hide RunHandler;
    var request := Owner(s.pending[id].k);
    var held := s.(pending := s.pending - {id});
    TakingOut(s, accepted, id);
    HandlerPasses(held, s.pending[id], a);
    PassingKeepsLedger(held, Take(s, id, a), accepted - {request}, request);
    assert accepted - {request} + {request} == accepted;
  }

  // ----- Disconnection

  ghost predicate Distinct(order: seq<nat>)
  {
    forall i, j :: 0 <= i < j < |order| ==> order[i] != order[j]
  }

  /** The handlers a flush calls, in order. */
  function Calls(s: State, order: seq<nat>): (c: seq<Handler>)
    decreases |order|
  {
    if order == [] || s.crashed || order[0] !in s.pending then []
    else [s.pending[order[0]]] + Calls(Take(s, order[0], DISCONNECTED), order[1..])
  }

  /**
   A flush calls every listed handler, each once and as it was when the browser
   went away; what is in the table afterwards was not listed or was sent meanwhile.
   */
  lemma {:induction false} FlushKeepsLedger(s: State, accepted: set<Request>, order: seq<nat>)
    requires Ledger(s, accepted) && Distinct(order) && forall i :: 0 <= i < |order| ==> order[i] in s.pending
    requires !Flush(s, order).crashed
    ensures Ledger(Flush(s, order), accepted)
    ensures |Calls(s, order)| == |order| && forall i :: 0 <= i < |order| ==> Calls(s, order)[i] == s.pending[order[i]]
    ensures forall id :: id in Flush(s, order).pending ==> (id in s.pending && id !in order) || id > s.last
    decreases |order|
  {
    hide Ledger, Take;
    if order != [] {
      var t := Take(s, order[0], DISCONNECTED);
      FlushNotCrashed(t, order[1..]);
      TakeKeepsLedger(s, accepted, order[0], DISCONNECTED);
      FlushKeepsLedger(t, accepted, order[1..]);
    }
  }

  lemma FlushNotCrashed(s: State, order: seq<nat>)
    ensures s.crashed ==> Flush(s, order).crashed
  {
  }

  // ----- Runs

  /** Requests are new, the browser answers numbers that are pending, and a disconnect lists the table. */
  ghost predicate Possible(s: State, accepted: set<Request>, e: Event)
  {
    match e
    case Refuse(request, _) => request !in accepted
    case Command(request, _, _) => request !in accepted
    case Delete(request) => request !in accepted
    case Dispatch(id, _) => id in s.pending
    case Disconnect(order) => Distinct(order) && forall id :: id in order <==> id in s.pending
    case OpenDialog => true
  }

  function Accepting(accepted: set<Request>, e: Event): (r: set<Request>)
  {
    match e
    case Refuse(request, _) => accepted + {request}
    case Command(request, _, _) => accepted + {request}
    case Delete(request) => accepted + {request}
    case _ => accepted
  }

  lemma CommandPasses(s: State, request: Request, command: Command, waits: bool)
    ensures Passes(s, HandleCommand(s, request, command, waits), request)
  {
    hide Passes, Complete, WaitForNavigation, Execute;
    var k := if command.CloseWindow? then Then(Closed, Reply(request)) else Reply(request);
    assert Owner(k) == request;
    CompletePasses(s, k, Fail(InvalidSessionID));
    WaitPasses(s, Then(AfterWait(command), k));
    ExecutePasses(s, command, k);
  }

  lemma DeletePasses(s: State, request: Request)
    ensures Passes(s, HandleDelete(s, request), request)
  {
    hide Passes, Send;
    ReplyPasses(s, request, Success(Null));
    var t := s.(alive := false, top := None);
    var k := Then(CloseAll, Reply(request));
    assert Owner(k) == request;
    SendPasses(t, "getBrowsingContexts", None, None, Aside, Contexts, k);
    if s.alive {
      assert t == s.(alive := false, top := None, frame := s.frame, resolved := s.resolved);
      Rebase(s, false, None, s.frame, s.resolved, HandleDelete(s, request), request);
    }
  }

  lemma StepKeepsLedger(s: State, accepted: set<Request>, e: Event)
    requires Ledger(s, accepted) && !s.crashed && Possible(s, accepted, e) && !Step(s, e).crashed
    ensures Ledger(Step(s, e), Accepting(accepted, e))
  {
    match e {
      case Refuse(request, error) =>
        ReplyPasses(s, request, Fail(error));
        PassingKeepsLedger(s, Step(s, e), accepted, request);
      case Command(request, command, waits) =>
        CommandPasses(s, request, command, waits);
        PassingKeepsLedger(s, Step(s, e), accepted, request);
      case Delete(request) =>
        DeletePasses(s, request);
        PassingKeepsLedger(s, Step(s, e), accepted, request);
      case Dispatch(id, response) =>
        var t := if s.pending[id].kind.DialogClosed? && !response.isError then s.(dialog := false) else s;
        BrowserOnly(s, t, accepted);
        TakeKeepsLedger(t, accepted, id, response);
      case Disconnect(order) =>
        BrowserOnly(s, s.(connected := false), accepted);
        FlushKeepsLedger(s.(connected := false), accepted, order);
      case OpenDialog =>
        BrowserOnly(s, Step(s, e), accepted);
    }
  }

  /** The browser's own state is not in the ledger. */
  lemma BrowserOnly(s: State, t: State, accepted: set<Request>)
    requires Ledger(s, accepted) && t == s.(dialog := t.dialog, connected := t.connected)
    ensures Ledger(t, accepted)
  {
    assert forall r :: Replied(t, r) <==> Replied(s, r);
    assert forall r :: Owned(t, r) <==> Owned(s, r);
  }

  ghost predicate Plausible(s: State, accepted: set<Request>, events: seq<Event>)
    decreases |events|
  {
    events == [] || s.crashed ||
    (Possible(s, accepted, events[0]) && Plausible(Step(s, events[0]), Accepting(accepted, events[0]), events[1..]))
  }

  function AllAccepted(accepted: set<Request>, events: seq<Event>): (r: set<Request>)
    decreases |events|
  {
    if events == [] then accepted else AllAccepted(Accepting(accepted, events[0]), events[1..])
  }

  /** In every run, overlapping commands and disconnections included, each accepted request is answered once or owned once, under a number used once. */
  lemma {:induction false} RunKeepsLedger(s: State, accepted: set<Request>, events: seq<Event>)
    requires Ledger(s, accepted) && Plausible(s, accepted, events) && !Run(s, events).crashed
    ensures Ledger(Run(s, events), AllAccepted(accepted, events))
    decreases |events|
  {
    hide Ledger, Step;
    if events != [] {
      StepKeepsLedger(s, accepted, events[0]);
      RunKeepsLedger(Step(s, events[0]), Accepting(accepted, events[0]), events[1..]);
    }
  }

  /** In every run of a new session. */
  lemma FreshKeepsLedger(window: Handle, behavior: PromptBehavior, events: seq<Event>)
    requires Plausible(Fresh(window, behavior), {}, events) && !Run(Fresh(window, behavior), events).crashed
    ensures Ledger(Run(Fresh(window, behavior), events), AllAccepted({}, events))
  {
    hide Run, Plausible;
    assert Ledger(Fresh(window, behavior), {});
    RunKeepsLedger(Fresh(window, behavior), {}, events);
  }
}
