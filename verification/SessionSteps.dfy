/**
 What a callback of the session finds and does: the handlers that can be
 pending, exactly when calling one reads something unset, and what it changes
 otherwise.
 */
module SessionSteps {
  import opened Wrappers
  import opened Json
  import opened Session

  // ----- The handlers that can be pending

  /** Only closing windows is left to do. */
  ghost predicate Tail(k: Completion)
  {
    k.Reply? || ((k.frame.Connected? || k.frame.CloseAll? || k.frame.Closed?) && Tail(k.next))
  }

  /** Commands that wait for prompts. */
  predicate Guardable(c: Command) {
    c.Navigate? || c.Read? || c.Act? || c.CloseWindow? || c.SwitchToFrame? || c.SwitchToParentFrame?
    || c.GetWindowRect? || c.SetWindowRect? || c.SendKeys? || c.ExecuteScript?
  }

  /** A guarded command; only a read is followed by more than closing windows. */
  ghost predicate Prompted(k: Completion)
  {
    k.Then? && k.frame.Guarded? && Guardable(k.frame.command) &&
    (Tail(k.next) || (k.frame.command.Read? && Staged(k.next) && (k.next.frame.TagName? || k.next.frame.FindCookie?)))
  }

  /** One step of a command in front of the tail. */
  ghost predicate Staged(k: Completion)
  {
    k.Then? && Tail(k.next)
    && (k.frame.AfterWait? || k.frame.Resized? || k.frame.Moved? || k.frame.TagName? || k.frame.Clicked? || k.frame.FindCookie?)
  }

  /** What a prompt can interrupt. */
  ghost predicate Interruptible(k: Completion)
  {
    Tail(k) || Prompted(k)
  }

  ghost predicate Reports(k: Completion)
  {
    k.Then? && (k.frame.ThenDismiss? || k.frame.ThenAccept?)
  }

  /** The stages of dealing with a prompt: its text is asked for, it is closed, the command gets the failure. */
  ghost predicate Dealing(k: Completion)
  {
    k.Then? &&
    if k.frame.ReportAlert? then Interruptible(k.next) || (Reports(k.next) && Interruptible(k.next.next))
    else if k.frame.Notified? then k.frame.report.Fail? && Interruptible(k.next)
    else Reports(k) && Interruptible(k.next)
  }

  ghost predicate Shaped(k: Completion)
  {
    Interruptible(k) || Staged(k) || Dealing(k)
  }

  ghost predicate ShapedHandler(h: Handler)
  {
    var k := h.k;
    match h.kind
    case Waited => Tail(k) || (Staged(k) && k.frame.AfterWait?)
    case DialogState => Prompted(k)
    case AlertMessage => Tail(k) || (Dealing(k) && k.frame.ReportAlert?)
    case DialogClosed => Interruptible(k) || (Dealing(k) && k.frame.Notified?)
    case Acked => Tail(k) || (Staged(k) && (k.frame.Resized? || k.frame.Moved? || k.frame.Clicked?))
    case Value => Tail(k) || (Staged(k) && (k.frame.TagName? || k.frame.FindCookie?))
    case _ => Tail(k)
  }

  // ----- What a handler reads

  /** Pressing the mouse on a click is still to come. */
  ghost predicate Presses(k: Completion)
  {
    k.Then? && (k.frame.TagName? || Presses(k.next))
  }

  /** The command has what its body reads. */
  predicate HasWhatItReads(s: State, command: Command) {
    s.top.Some? && (command.SwitchToParentFrame? ==> s.frame.Some?)
  }

  /** Handing `r` to `k` reads something that is not set: the session, the window or the frame. */
  ghost predicate Starved(s: State, k: Completion, r: Result)
  {
    if r.Fail? then s.top.None? && Presses(k)
    else
      k.Then? &&
      match k.frame
      case AfterWait(_) => !s.alive
      case Guarded(command) => !HasWhatItReads(s, command)
      case Resized(_) => s.top.None?
      case Moved => s.top.None?
      case _ => s.top.None? && Presses(k)
  }

  /** What a handler makes of an answer before it completes. */
  function Outcome(h: Handler, a: Response): (r: Result)
  {
    var done := if a.isError then Fail(a.error) else Success(Null);
    match h.kind
    case Waited => if a.isError && a.error == NoSuchFrame then Success(Null) else done
    case DialogClosed => done
    case Acked => done
    case DialogState => if Says(a, false) then Success(Null) else Fail(UnknownError)
    case AlertMessage => if Readable(a) then ReadMessage(a.object'.value) else Fail(ErrorOf(a))
    case Value => if Readable(a) then a.reading else Fail(ErrorOf(a))
    case _ => Fail(UnknownError)
  }

  predicate Readable(a: Response) {
    !a.isError && a.object'.Some?
  }

  /** The answer tells whether a dialog is showing. */
  predicate Says(a: Response, showing: bool) {
    Readable(a) && GetBool(a.object'.value, "result") == Some(showing)
  }

  /** Calling the handler with `a` reads something that is not set. */
  ghost predicate StarvedBy(s: State, h: Handler, a: Response)
  {
    match h.kind
    case Layout(_) => Readable(a) && a.layout.InView? && s.top.None?
    case Focused => Readable(a) && s.top.None?
    case _ => Starved(s, h.k, Outcome(h, a))
  }

  // ----- What a handler does

  /** Commands that unset the window, drop the session or rely on the frame. */
  predicate Alone(c: Command) {
    c.CloseWindow? || c.SwitchToParentFrame?
  }

  ghost predicate Exclusive(k: Completion)
  {
    k.Then? && (k.frame.Closed? || k.frame.CloseAll? || ((k.frame.AfterWait? || k.frame.Guarded?) && Alone(k.frame.command)) || Exclusive(k.next))
  }

  ghost predicate WantsFrame(k: Completion)
  {
    k.Then? && ((k.frame.Guarded? && k.frame.command.SwitchToParentFrame?) || WantsFrame(k.next))
  }

  /** The handler gets by without a window. */
  ghost predicate Windowless(h: Handler)
  {
    Tail(h.k) && (h.kind.Contexts? || h.kind.Switched? || h.kind.ContextClosed?)
  }

  ghost predicate Waits(h: Handler)
  {
    h.k.Then? && h.k.frame.AfterWait?
  }

  /** A guarded command is between its messages. */
  ghost predicate Midway(h: Handler)
  {
    h.kind.Focused? || (h.k.Then? && (h.k.frame.Resized? || h.k.frame.Moved? || (h.kind.ContextClosed? && h.k.frame.Closed?)))
  }

  /** What a callback may do; `framed` says that it has the frame if it relies on one. */
  datatype License = License(exclusive: bool, first: bool, later: bool, waits: bool, framed: bool)

  /** A handler and its message as they are sent. */
  ghost predicate Posted(t: State, h: Handler, m: Message, l: License)
  {
    && ShapedHandler(h) && m.dialog == t.dialog
    && (m.part.First? ==> l.first) && (m.part.Later? ==> l.later) && (Midway(h) ==> !m.part.Aside?)
    && (Exclusive(h.k) ==> l.exclusive) && (Waits(h) ==> l.waits && t.alive)
    && (t.top.None? ==> Windowless(h)) && (l.framed && WantsFrame(h.k) ==> t.frame.Some?)
    && (h.kind.FrameResolved? ==> t.top == Some(h.kind.window))
  }

  /** At most one message, under the next number. */
  ghost predicate Sends(s: State, t: State, l: License)
  {
    || (t.pending == s.pending && t.sent == s.sent && t.last == s.last)
    || (t.last == s.last + 1 && t.last in t.pending && t.pending == s.pending[t.last := t.pending[t.last]]
        && |t.sent| == |s.sent| + 1 && t.sent[..|s.sent|] == s.sent
        && Posted(t, t.pending[t.last], t.sent[|s.sent|], l))
  }

  /** The window and the session stay unless the callback may unset them; the frame stays or is reset. */
  ghost predicate Stays(s: State, t: State, l: License)
  {
    && t.connected == s.connected && t.dialog == s.dialog && t.behavior == s.behavior && t.resolved == s.resolved
    && (t.top == s.top || (l.exclusive && t.top.None?)) && (t.alive == s.alive || (l.exclusive && !t.alive))
    && (t.frame == s.frame || t.frame.None?)
  }

  ghost predicate Works(s: State, t: State, starved: bool, l: License)
  {
    (t.crashed <==> starved) && (t.crashed ==> t.sent == s.sent) && (!t.crashed ==> Stays(s, t, l) && Sends(s, t, l))
  }

  lemma {:induction false} TailFacts(k: Completion)
    requires Tail(k)
    ensures !Presses(k) && !WantsFrame(k)
  {
    if k.Then? {
      TailFacts(k.next);
    }
  }

  lemma SendWorks(s: State, m: string, window: Option<Handle>, frame: Option<Handle>, part: Part, kind: Kind, k: Completion, l: License)
    requires !s.crashed && Posted(s, Handler(kind, k), Message(s.last + 1, m, window, frame, part, s.dialog), l)
    ensures Works(s, Send(s, m, window, frame, part, kind, k), false, l)
  {
  }

  lemma InWindowWorks(s: State, m: string, inFrame: bool, part: Part, kind: Kind, k: Completion, l: License)
    requires !s.crashed && ShapedHandler(Handler(kind, k)) && !Waits(Handler(kind, k)) && !kind.FrameResolved?
    requires (part.First? ==> l.first) && (part.Later? ==> l.later) && (Midway(Handler(kind, k)) ==> !part.Aside?)
    requires (Exclusive(k) ==> l.exclusive) && (l.framed && WantsFrame(k) ==> s.frame.Some?)
    ensures Works(s, SendInWindow(s, m, inFrame, part, kind, k), s.top.None?, l)
  {
    if s.top.Some? {
      SendWorks(s, m, s.top, if inFrame then s.frame else None, part, kind, k, l);
    }
  }

  /** Handing a result to the tail of a command. */
  lemma {:induction false} TailWorks(s: State, k: Completion, r: Result, l: License)
    requires !s.crashed && Tail(k) && (Exclusive(k) ==> l.exclusive)
    ensures Works(s, Complete(s, k, r), false, l)
    decreases k
  {
    hide Sends, Send;
    if k.Reply? {
      NothingSent(s, Complete(s, k, r), l);
    } else {
      var next := k.next;
      TailWorks(s, next, r, l);
      TailWorks(s, next, Success(Array([])), l);
      TailWorks(s, next, Success(Null), l);
      if k.frame.Closed? {
        TailWorks(s.(alive := false), next, r, l);
        Rebase(s, s.(alive := false), Complete(s.(alive := false), next, r), l);
      } else if k.frame.CloseAll? && r.Success? && FirstHandle(r.value).Some? {
        TailFacts(k);
        SendWorks(s, "closeBrowsingContext", FirstHandle(r.value), None, Aside, ContextClosed, k, l);
      }
    }
  }

  lemma NothingSent(s: State, t: State, l: License)
    requires t.pending == s.pending && t.sent == s.sent && t.last == s.last
    ensures Sends(s, t, l)
  {
  }

  /** What was sent does not depend on where the session was before. */
  lemma Rebase(s: State, moved: State, t: State, l: License)
    requires moved.pending == s.pending && moved.sent == s.sent && moved.last == s.last && Sends(moved, t, l)
    ensures Sends(s, t, l)
  {
  }

  /** Handing a result to any completion handler: it crashes exactly when it is starved. */
  lemma {:induction false} CompleteWorks(s: State, k: Completion, r: Result, l: License)
    requires !s.crashed && Shaped(k) && (Reports(k) ==> r.Fail?) && (l.framed && WantsFrame(k) ==> s.frame.Some?)
    requires (Exclusive(k) ==> l.exclusive) && (r.Success? && Prompted(k) ==> l.first)
    requires r.Success? && k.Then? && (k.frame.Resized? || k.frame.Moved?) ==> l.later
    ensures Works(s, Complete(s, k, r), Starved(s, k, r), l)
    decreases Size(k), 0
  {
    hide Sends, Stays, Execute, Body, CloseDialog, WaitForNavigation, Send, SendInWindow;
    if Tail(k) {
      TailFacts(k);
      TailWorks(s, k, r, l);
    } else if Prompted(k) {
      if r.Fail? { CompleteWorks(s, k.next, r, l); } else { BodyWorks(s, k.frame.command, k.next, l); }
    } else if Dealing(k) {
      DealingWorks(s, k, r, l);
    } else {
      StagedWorks(s, k, r, l);
    }
  }

  lemma {:induction false} DealingWorks(s: State, k: Completion, r: Result, l: License)
    requires !s.crashed && Dealing(k) && (Reports(k) ==> r.Fail?)
    requires (Exclusive(k) ==> l.exclusive) && (l.framed && WantsFrame(k) ==> s.frame.Some?)
    ensures Works(s, Complete(s, k, r), Starved(s, k, r), l)
    decreases Size(k), 0, 0
  {
    hide Sends, Stays, CloseDialog, Send;
    var next := k.next;
    if k.frame.ReportAlert? {
      CompleteWorks(s, next, Fail(UnexpectedAlertOpen), l);
    } else if k.frame.Notified? {
      CompleteWorks(s, next, if r.Fail? then r else k.frame.report, l);
    } else {
      CloseDialogWorks(s, "dismissCurrentJavaScriptDialog", Then(Notified(r), next), l);
      CloseDialogWorks(s, "acceptCurrentJavaScriptDialog", Then(Notified(r), next), l);
    }
  }

  lemma {:induction false} StagedWorks(s: State, k: Completion, r: Result, l: License)
    requires !s.crashed && Staged(k) && (Exclusive(k) ==> l.exclusive)
    requires r.Success? && (k.frame.Resized? || k.frame.Moved?) ==> l.later
    ensures Works(s, Complete(s, k, r), Starved(s, k, r), l)
    decreases Size(k), 0, 0
  {
    hide Sends, Stays, Posted, Execute, WaitForNavigation, Send, SendInWindow;
    var next := k.next;
    TailFacts(next);
    TailWorks(s, next, r, l);
    match k.frame {
      case AfterWait(command) => if r.Success? { ExecuteWorks(s, command, next, l); }
      case Resized(_) =>
        if r.Success? {
          InWindowWorks(s, "moveWindowOfBrowsingContext", false, Later, Acked, Then(Moved, next), l);
          InWindowWorks(s, "getBrowsingContext", false, Later, Value, next, l);
        }
      case Moved => if r.Success? { InWindowWorks(s, "getBrowsingContext", false, Later, Value, next, l); }
      case TagName(_) =>
        InWindowWorks(s, "selectOptionElement", true, Aside, Acked, Then(Clicked, next), l);
        InWindowWorks(s, "performMouseInteraction", false, Aside, Acked, Then(Clicked, next), l);
      case Clicked => WaitWorks(s, next, l);
      case FindCookie(name) =>
        if r.Success? && r.value.Array? {
          var cookie := CookieNamed(r.value.items, name);
          TailWorks(s, next, if cookie.Some? then Success(cookie.value) else Fail(NoSuchCookie), l);
        }
    }
  }

  /** Closing the dialog, or failing at once without a window. */
  lemma {:induction false} CloseDialogWorks(s: State, m: string, k: Completion, l: License)
    requires !s.crashed && ShapedHandler(Handler(DialogClosed, k))
    requires (Exclusive(k) ==> l.exclusive) && (l.framed && WantsFrame(k) ==> s.frame.Some?)
    ensures Works(s, CloseDialog(s, m, k), s.top.None? && Presses(k), l)
    decreases Size(k), 1
  {
    hide Sends, Stays, Complete, Send;
    CompleteWorks(s, k, Fail(NoSuchWindow), l);
    InWindowWorks(s, m, false, Aside, DialogClosed, k, l);
  }

  lemma {:induction false} AlertTextWorks(s: State, k: Completion, l: License)
    requires !s.crashed && ShapedHandler(Handler(AlertMessage, k))
    requires (Exclusive(k) ==> l.exclusive) && (l.framed && WantsFrame(k) ==> s.frame.Some?)
    ensures Works(s, GetAlertText(s, k), s.top.None? && Presses(k), l)
    decreases Size(k), 1
  {
    hide Sends, Stays, Complete, Send;
    CompleteWorks(s, k, Fail(NoSuchWindow), l);
    InWindowWorks(s, "messageOfCurrentJavaScriptDialog", false, Aside, AlertMessage, k, l);
  }

  lemma {:induction false} WaitWorks(s: State, k: Completion, l: License)
    requires !s.crashed && ShapedHandler(Handler(Waited, k)) && (Waits(Handler(Waited, k)) ==> l.waits && s.alive)
    requires Exclusive(k) ==> l.exclusive
    ensures Works(s, WaitForNavigation(s, k), false, l)
    decreases Size(k), 1
  {
    hide Sends, Stays, Complete, Send;
    TailFacts(if Tail(k) then k else k.next);
    CompleteWorks(s, k, Fail(NoSuchWindow), l);
    if s.top.Some? {
      SendWorks(s, "waitForNavigationToComplete", s.top, s.frame, Aside, Waited, k, l);
    }
  }

  /** A command may start in front of the tail, and reading the tag name in front of a press. */
  ghost predicate Startable(command: Command, k: Completion)
  {
    Tail(k) || (command.Read? && Staged(k) && (k.frame.TagName? || k.frame.FindCookie?))
  }

  lemma {:induction false} ExecuteWorks(s: State, command: Command, k: Completion, l: License)
    requires !s.crashed && Startable(command, k) && (Exclusive(k) || Alone(command) ==> l.exclusive)
    ensures Works(s, Execute(s, command, k), s.top.None? && Presses(k), l)
    decreases Size(k), 3
  {
    hide Sends, Stays, Complete, ExecuteInWindow, Send;
    if Tail(k) {
      TailFacts(k);
    } else {
      TailFacts(k.next);
    }
    CompleteWorks(s, k, Fail(NoSuchWindow), l);
    if Tail(k) {
      TailWorks(s, k, Success(Null), l);
      SendWorks(s, "getBrowsingContexts", None, None, Aside, Contexts, k, l);
      if command.SwitchToWindow? {
        SendWorks(s, "switchToBrowsingContext", Some(command.handle), None, Aside, Switched(command.handle), k, l);
      }
    }
    if s.top.Some? && !command.Local? && !command.WindowHandles? && !command.SwitchToWindow? {
      InWindowCommandWorks(s, command, k, l);
    }
  }

  lemma StartFacts(command: Command, k: Completion)
    requires Startable(command, k)
    ensures !WantsFrame(k) && (Tail(k) ==> !Presses(k))
    ensures Exclusive(Then(Guarded(command), k)) <==> Alone(command) || Exclusive(k)
    ensures WantsFrame(Then(Guarded(command), k)) <==> command.SwitchToParentFrame?
    ensures Guardable(command) ==> Prompted(Then(Guarded(command), k))
  {
    TailFacts(if Tail(k) then k else k.next);
  }

  lemma PromptsWork(s: State, command: Command, k: Completion, l: License)
    requires !s.crashed && s.top.Some? && Guardable(command) && Startable(command, k)
    requires (Exclusive(k) || Alone(command) ==> l.exclusive) && (command.SwitchToParentFrame? ==> s.frame.Some?)
    ensures Works(s, HandleUserPrompts(s, Then(Guarded(command), k)), false, l)
  {
    hide Works, SendInWindow, Posted;
    StartFacts(command, k);
    InWindowWorks(s, "isShowingJavaScriptDialog", false, Aside, DialogState, Then(Guarded(command), k), l);
  }

  lemma {:induction false} InWindowCommandWorks(s: State, command: Command, k: Completion, l: License)
    requires !s.crashed && s.top.Some? && Startable(command, k) && (Exclusive(k) || Alone(command) ==> l.exclusive)
    requires !command.Local? && !command.WindowHandles? && !command.SwitchToWindow?
    ensures Works(s, ExecuteInWindow(s, command, k), false, l)
    decreases Size(k), 2
  {
    hide Sends, Posted, Complete, CloseDialog, GetAlertText, SendInWindow, HandleUserPrompts, Send;
    StartFacts(command, k);
    if Guardable(command) && (command.SwitchToParentFrame? ==> s.frame.Some?) {
      PromptsWork(s, command, k, l);
    }
    match command {
      case ReadNow(m, inFrame) => InWindowWorks(s, m, inFrame, Aside, Value, k, l);
      case ActNow(m, inFrame) => InWindowWorks(s, m, inFrame, Aside, Acked, k, l);
      case DismissAlert => CloseDialogWorks(s, "dismissCurrentJavaScriptDialog", k, l);
      case AcceptAlert => CloseDialogWorks(s, "acceptCurrentJavaScriptDialog", k, l);
      case AlertText => AlertTextWorks(s, k, l);
      case SwitchToFrame(_) =>
        TailWorks(s.(frame := None), k, Success(Null), l);
        if !Complete(s.(frame := None), k, Success(Null)).crashed {
          Rebase(s, s.(frame := None), Complete(s.(frame := None), k, Success(Null)), l);
        }
      case SwitchToParentFrame => TailWorks(s, k, Success(Null), l);
      case Click(element) => InWindowWorks(s, "computeElementLayout", true, Aside, Layout(element), k, l);
      case NamedCookie(name) =>
        PromptsWork(s, Read("getAllCookies", false), Then(FindCookie(name), k), l);
      case _ =>
    }
  }

  /** A guarded command's own first message, for which it needs the window and going up the frame as well. */
  lemma {:induction false} BodyWorks(s: State, command: Command, k: Completion, l: License)
    requires !s.crashed && Guardable(command) && Startable(command, k) && l.first && (Exclusive(k) || Alone(command) ==> l.exclusive)
    ensures Works(s, Body(s, command, k), !HasWhatItReads(s, command), l)
    decreases Size(k), 1
  {
    hide Sends, Stays, Posted, Complete, SendInWindow, Send;
    StartFacts(command, k);
    match command {
      case Navigate(m) => InWindowWorks(s, m, false, First, Navigated, k, l);
      case Read(m, inFrame) => InWindowWorks(s, m, inFrame, First, Value, k, l);
      case Act(m) => InWindowWorks(s, m, false, First, Acked, k, l);
      case GetWindowRect => InWindowWorks(s, "getBrowsingContext", false, First, Value, k, l);
      case SetWindowRect(resize, move) =>
        InWindowWorks(s, "resizeWindowOfBrowsingContext", false, First, Acked, Then(Resized(move), k), l);
        InWindowWorks(s, "moveWindowOfBrowsingContext", false, First, Acked, Then(Moved, k), l);
        InWindowWorks(s, "getBrowsingContext", false, First, Value, k, l);
      case SendKeys(element) => InWindowWorks(s, "evaluateJavaScriptFunction", true, First, Focused, k, l);
      case ExecuteScript => InWindowWorks(s, "evaluateJavaScriptFunction", true, First, ScriptDone, k, l);
      case _ => PlaceWorks(s, command, k, l);
    }
  }

  /** Closing a window and going to another frame. */
  lemma PlaceWorks(s: State, command: Command, k: Completion, l: License)
    requires !s.crashed && Tail(k) && l.first && (Exclusive(k) || Alone(command) ==> l.exclusive)
    requires command.CloseWindow? || command.SwitchToFrame? || command.SwitchToParentFrame?
    ensures Works(s, Body(s, command, k), !HasWhatItReads(s, command), l)
  {
    hide Sends, Complete, Send;
    TailFacts(k);
    TailWorks(s, k, Fail(NoSuchFrame), l);
    if s.top.Some? {
      if command.CloseWindow? {
        var t := s.(top := None);
        SendWorks(t, "closeBrowsingContext", s.top, None, First, ContextClosed, k, l);
        Rebase(s, t, Send(t, "closeBrowsingContext", s.top, None, First, ContextClosed, k), l);
      } else if command.SwitchToFrame? {
        SendWorks(s, "resolveChildFrameHandle", s.top, s.frame, First, FrameResolved(s.top.value), k, l);
      } else {
        SendWorks(s, "resolveParentFrameHandle", s.top, s.frame, First, FrameResolved(s.top.value), k, l);
      }
    }
  }

  lemma AlertWorks(s: State, k: Completion, l: License)
    requires !s.crashed && Interruptible(k)
    requires (Exclusive(k) ==> l.exclusive) && (l.framed && WantsFrame(k) ==> s.frame.Some?)
    ensures Works(s, HandleUnexpectedAlertOpen(s, k), s.top.None? && Presses(k), l)
  {
    hide Sends, Stays, Posted, CloseDialog, GetAlertText;
    var dismiss, accept := Then(ThenDismiss, k), Then(ThenAccept, k);
    assert Exclusive(dismiss) == Exclusive(accept) == Exclusive(k) && WantsFrame(dismiss) == WantsFrame(accept) == WantsFrame(k);
    assert Presses(dismiss) == Presses(accept) == Presses(k);
    match s.behavior
    case Dismiss => CloseDialogWorks(s, "dismissCurrentJavaScriptDialog", k, l);
    case Accept => CloseDialogWorks(s, "acceptCurrentJavaScriptDialog", k, l);
    case DismissAndNotify => AlertTextWorks(s, Then(ReportAlert, dismiss), l);
    case AcceptAndNotify => AlertTextWorks(s, Then(ReportAlert, accept), l);
    case Ignore => AlertTextWorks(s, Then(ReportAlert, k), l);
  }

  // ----- Answers

  /** A guarded command learns that no dialog is in its way. */
  predicate Freed(h: Handler, a: Response) {
    (h.kind.DialogState? && Says(a, false)) || (h.kind.DialogClosed? && !a.isError)
  }

  ghost function LicenseOf(s: State, h: Handler, a: Response): (l: License)
  {
    License(Exclusive(h.k), Freed(h, a), Midway(h) && !a.isError, false, WantsFrame(h.k) ==> s.frame.Some?)
  }

  /** Where the session is after an answer: only three kinds of handlers move it. */
  ghost predicate Goes(s: State, t: State, h: Handler)
  {
    && t.connected == s.connected && t.dialog == s.dialog && t.behavior == s.behavior && s.resolved <= t.resolved
    && (t.alive == s.alive || (Exclusive(h.k) && !t.alive))
    && (t.top == s.top || (Exclusive(h.k) && t.top.None?) || (h.kind.Switched? && t.top == Some(h.kind.handle)))
    && (t.top.Some? && t.frame.Some? ==>
          t.top == s.top && (t.frame == s.frame || (h.kind.FrameResolved? && (h.kind.window, t.frame.value) in t.resolved)))
  }

  /** What a call of a handler leaves: nothing more was sent, or what it has license for. */
  ghost predicate Ran(s: State, t: State, h: Handler, a: Response)
  {
    if t.crashed then t.sent == s.sent else Goes(s, t, h) && Sends(s, t, LicenseOf(s, h, a))
  }

  /** Completing where the answer has moved the session. */
  lemma MovedWorks(s: State, moved: State, h: Handler, r: Result, l: License)
    requires !s.crashed && moved == s.(top := moved.top, frame := moved.frame, resolved := moved.resolved)
    requires Goes(s, moved, h) && Tail(h.k) && (Exclusive(h.k) ==> l.exclusive)
    ensures var t := Complete(moved, h.k, r); !t.crashed && Sends(s, t, l) && (l.exclusive == Exclusive(h.k) ==> Goes(s, t, h))
  {
    hide Complete, Sends;
    TailWorks(moved, h.k, r, l);
    Rebase(s, moved, Complete(moved, h.k, r), l);
  }

  lemma StayedGoes(s: State, t: State, h: Handler, l: License)
    requires Stays(s, t, l) && l.exclusive == Exclusive(h.k)
    ensures Goes(s, t, h)
  {
  }

  /** A handler crashes exactly when it is starved, and otherwise does what it has license for. */
  lemma HandlerWorks(s: State, h: Handler, a: Response)
    requires !s.crashed && ShapedHandler(h)
    ensures var t := RunHandler(s, h, a);
            (t.crashed <==> StarvedBy(s, h, a)) && Ran(s, t, h, a)
  {
    hide Goes, Stays, Sends, Posted, Complete, HandleUnexpectedAlertOpen;
    var l := LicenseOf(s, h, a);
    if h.kind.DialogState? || h.kind.AlertMessage? || h.kind.DialogClosed? || h.kind.Acked? || h.kind.Value? {
      PlainWorks(s, h, a);
      if !RunHandler(s, h, a).crashed {
        StayedGoes(s, RunHandler(s, h, a), h, l);
      }
    } else {
      OtherWorks(s, h, a);
    }
  }

  /** Handlers that complete where the session is. */
  lemma PlainWorks(s: State, h: Handler, a: Response)
    requires !s.crashed && ShapedHandler(h)
    requires h.kind.DialogState? || h.kind.AlertMessage? || h.kind.DialogClosed? || h.kind.Acked? || h.kind.Value?
    ensures Works(s, RunHandler(s, h, a), StarvedBy(s, h, a), LicenseOf(s, h, a))
  {
    hide Stays, Sends, Posted, Complete, HandleUnexpectedAlertOpen, ReadMessage;
    var l := LicenseOf(s, h, a);
    CompleteWorks(s, h.k, Outcome(h, a), l);
    CompleteWorks(s, h.k, Fail(ErrorOf(a)), l);
    if h.kind.DialogState? && Says(a, true) {
      AlertWorks(s, h.k, l);
    }
  }

  /** Handlers that may move the session, or ask the browser for more. */
  lemma OtherWorks(s: State, h: Handler, a: Response)
    requires !s.crashed && ShapedHandler(h)
    requires !h.kind.DialogState? && !h.kind.AlertMessage? && !h.kind.DialogClosed? && !h.kind.Acked? && !h.kind.Value?
    ensures var t := RunHandler(s, h, a);
            (t.crashed <==> StarvedBy(s, h, a)) && Ran(s, t, h, a)
  {
    hide Stays, Sends, Posted, Complete, HandleUnexpectedAlertOpen, ReadContexts, Execute, SendInWindow, Send;
    var k, l := h.k, LicenseOf(s, h, a);
    if h.kind.Waited? && !Tail(k) {
      WaitedWorks(s, h, a);
    } else {
      TailFacts(k);
      MovedWorks(s, s, h, Fail(ErrorOf(a)), l);
      if h.kind.Layout? || h.kind.ScriptDone? || h.kind.Focused? {
        MoreWorks(s, h, a);
      } else {
        PlaceAnswered(s, h, a);
      }
    }
  }

  /** Handlers of navigation, windows and frames. */
  lemma PlaceAnswered(s: State, h: Handler, a: Response)
    requires !s.crashed && Tail(h.k)
    requires h.kind.Waited? || h.kind.Navigated? || h.kind.Contexts? || h.kind.ContextClosed? || h.kind.Switched? || h.kind.FrameResolved?
    ensures var t := RunHandler(s, h, a); !t.crashed && Goes(s, t, h) && Sends(s, t, LicenseOf(s, h, a))
  {
    hide Goes, Stays, Sends, Posted, Complete, ReadContexts, AskForRest, Exclusive, Midway, WantsFrame;
    var l := LicenseOf(s, h, a);
    var done := if a.isError then Fail(a.error) else Success(Null);
    StayedHere(s, h);
    MovedWorks(s, s, h, done, l);
    if h.kind.Contexts? {
      MovedWorks(s, s, h, Fail(ErrorOf(a)), l);
      if a.object'.Some? { MovedWorks(s, s, h, ReadContexts(a.object'.value), l); }
    } else if h.kind.ContextClosed? {
      MovedWorks(s, s, h, Success(Array([])), l);
      if !a.isError {
        RestWorks(s, h, a);
      }
    } else if h.kind.Switched? {
      MovedWorks(s, SwitchedTo(s, h), h, done, l);
    } else if h.kind.FrameResolved? {
      FrameAnswered(s, h, a);
    } else {
      MovedWorks(s, FrameLost(s, h), h, done, l);
      MovedWorks(s, FrameLost(s, h), h, Success(Null), l);
    }
  }

  function SwitchedTo(s: State, h: Handler): (moved: State)
    requires h.kind.Switched?
    ensures Goes(s, moved, h)
  {
    s.(top := Some(h.kind.handle), frame := None)
  }

  function FrameLost(s: State, h: Handler): (moved: State)
    ensures Goes(s, moved, h)
  {
    s.(frame := None)
  }

  function ResolvedTo(s: State, h: Handler, frame: string): (moved: State)
    requires h.kind.FrameResolved?
    ensures Goes(s, moved, h)
  {
    SwitchFrame(s.(resolved := s.resolved + {(h.kind.window, frame)}), frame)
  }

  lemma FrameAnswered(s: State, h: Handler, a: Response)
    requires !s.crashed && Tail(h.k) && h.kind.FrameResolved?
    ensures var t := RunHandler(s, h, a); !t.crashed && Goes(s, t, h) && Sends(s, t, LicenseOf(s, h, a))
  {
    hide Goes, Stays, Sends, Posted, Complete, Exclusive, Midway, WantsFrame;
    var l := LicenseOf(s, h, a);
    StayedHere(s, h);
    MovedWorks(s, s, h, Fail(ErrorOf(a)), l);
    MovedWorks(s, s, h, Fail(UnknownError), l);
    if Readable(a) && GetString(a.object'.value, "result").Some? {
      var frame := GetString(a.object'.value, "result").value;
      MovedWorks(s, ResolvedTo(s, h, frame), h, Success(Null), l);
    }
  }

  /** Handlers that go on with a click, a script or keys. */
  lemma MoreWorks(s: State, h: Handler, a: Response)
    requires !s.crashed && Tail(h.k) && (h.kind.Layout? || h.kind.ScriptDone? || h.kind.Focused?)
    ensures var t := RunHandler(s, h, a);
            (t.crashed <==> StarvedBy(s, h, a)) && Ran(s, t, h, a)
  {
    hide Goes, Stays, Sends, Posted, Complete, HandleUnexpectedAlertOpen, Execute, SendInWindow;
    var k, l := h.k, LicenseOf(s, h, a);
    TailFacts(k);
    StayedHere(s, h);
    MovedWorks(s, s, h, Fail(ErrorOf(a)), l);
    if h.kind.Layout? {
      MovedWorks(s, s, h, Fail(UnknownError), l);
      MovedWorks(s, s, h, Fail(ElementClickIntercepted), l);
      MovedWorks(s, s, h, Fail(ElementNotInteractable), l);
      LayoutWorks(s, h, a);
    } else if h.kind.ScriptDone? {
      MovedWorks(s, s, h, a.reading, l);
      AlertWorks(s, k, l);
      if !HandleUnexpectedAlertOpen(s, k).crashed {
        StayedGoes(s, HandleUnexpectedAlertOpen(s, k), h, l);
      }
    } else if Readable(a) {
      InWindowWorks(s, "performKeyboardInteractions", false, Later, Acked, k, l);
      if s.top.Some? {
        StayedGoes(s, SendInWindow(s, "performKeyboardInteractions", false, Later, Acked, k), h, l);
      }
    }
  }

  lemma StayedHere(s: State, h: Handler)
    ensures Goes(s, s, h)
  {
  }

  /** The service goes on with the command once navigation is over, which may have taken the frame away. */
  lemma WaitedWorks(s: State, h: Handler, a: Response)
    requires !s.crashed && ShapedHandler(h) && h.kind.Waited? && !Tail(h.k)
    ensures var t := RunHandler(s, h, a);
            (t.crashed <==> StarvedBy(s, h, a)) && Ran(s, t, h, a)
  {
    hide Sends, Posted, Complete;
    TailFacts(h.k.next);
    var l := LicenseOf(s, h, a);
    var moved := if a.isError && a.error == NoSuchFrame then s.(frame := None) else s;
    CompleteWorks(moved, h.k, Outcome(h, a), l);
    var t := Complete(moved, h.k, Outcome(h, a));
    assert RunHandler(s, h, a) == t;
    if !t.crashed {
      Rebase(s, moved, t, l);
    }
  }

  lemma RestWorks(s: State, h: Handler, a: Response)
    requires !s.crashed && h.kind.ContextClosed? && Tail(h.k) && !a.isError
    ensures Goes(s, AskForRest(s, h.k), h) && Sends(s, AskForRest(s, h.k), LicenseOf(s, h, a)) && !AskForRest(s, h.k).crashed
  {
    hide Sends, Send;
    var part := if h.k.Then? && h.k.frame.Closed? then Later else Aside;
    TailFacts(h.k);
    SendWorks(s, "getBrowsingContexts", None, None, part, Contexts, Then(Connected, h.k), LicenseOf(s, h, a));
  }

  lemma LayoutWorks(s: State, h: Handler, a: Response)
    requires !s.crashed && h.kind.Layout? && Tail(h.k)
    ensures var t := Execute(s, Read("evaluateJavaScriptFunction", true), Then(TagName(h.kind.element), h.k));
            (t.crashed <==> s.top.None?) && Ran(s, t, h, a)
  {
    hide Sends, Stays, Posted, Execute;
    var k, l := Then(TagName(h.kind.element), h.k), LicenseOf(s, h, a);
    ExecuteWorks(s, Read("evaluateJavaScriptFunction", true), k, l);
    var t := Execute(s, Read("evaluateJavaScriptFunction", true), k);
    if !t.crashed {
      StayedGoes(s, t, h, l);
    }
  }

  // ----- Requests

  /** Accepting a command never crashes, and sends at most one message of its own accord. */
  lemma CommandWorks(s: State, request: Request, command: Command, waits: bool)
    requires !s.crashed
    ensures Works(s, HandleCommand(s, request, command, waits), false, License(Alone(command), false, false, true, true))
  {
    hide Stays, Sends, Posted, Complete, WaitForNavigation, Execute;
    var l := License(Alone(command), false, false, true, true);
    var k := if command.CloseWindow? then Then(Closed, Reply(request)) else Reply(request);
    assert Tail(Reply(request)) && Tail(k) && !Exclusive(Reply(request));
    TailFacts(k);
    TailWorks(s, k, Fail(InvalidSessionID), l);
    if s.alive {
      WaitWorks(s, Then(AfterWait(command), k), l);
      ExecuteWorks(s, command, k, l);
    }
  }

  lemma DeleteWorks(s: State, request: Request)
    requires !s.crashed
    ensures Works(s, HandleDelete(s, request), false, License(true, false, false, false, true))
  {
    hide Sends, Complete, Send;
    var l := License(true, false, false, false, true);
    TailWorks(s, Reply(request), Success(Null), l);
    var moved := s.(alive := false, top := None);
    var k := Then(CloseAll, Reply(request));
    assert Tail(k.next) && Tail(k);
    TailFacts(k);
    SendWorks(moved, "getBrowsingContexts", None, None, Aside, Contexts, k, l);
    Rebase(s, moved, Send(moved, "getBrowsingContexts", None, None, Aside, Contexts, k), l);
  }

  // ----- Every state of every run

  ghost predicate AllShaped(s: State)
  {
    forall id :: id in s.pending ==> ShapedHandler(s.pending[id])
  }

  lemma SendsShaped(s: State, t: State, l: License)
    requires AllShaped(s) && Sends(s, t, l)
    ensures AllShaped(t)
  {
    hide ShapedHandler;
  }

  lemma TakeWorks(s: State, id: nat, a: Response)
    requires !s.crashed && AllShaped(s) && id in s.pending
    ensures var t := Take(s, id, a);
            var held := s.(pending := s.pending - {id});
            && (t.crashed <==> StarvedBy(s, s.pending[id], a))
            && (t.crashed ==> t.sent == s.sent)
            && (!t.crashed ==> AllShaped(t) && Goes(s, t, s.pending[id]) && Sends(held, t, LicenseOf(s, s.pending[id], a)))
  {
    hide RunHandler, ShapedHandler, Goes, Sends;
    var held := s.(pending := s.pending - {id});
    HandlerWorks(held, s.pending[id], a);
    HeldSame(s, held, s.pending[id], a);
    if !Take(s, id, a).crashed {
      SendsShaped(held, Take(s, id, a), LicenseOf(s, s.pending[id], a));
    }
  }

  lemma HeldSame(s: State, held: State, h: Handler, a: Response)
    requires held == s.(pending := held.pending)
    ensures StarvedBy(held, h, a) == StarvedBy(s, h, a) && LicenseOf(held, h, a) == LicenseOf(s, h, a)
    ensures forall t :: Goes(held, t, h) <==> Goes(s, t, h)
  {
  }

  lemma {:induction false} FlushShaped(s: State, order: seq<nat>)
    requires AllShaped(s)
    ensures !Flush(s, order).crashed ==> AllShaped(Flush(s, order))
    decreases |order|
  {
    hide AllShaped, Take, StarvedBy;
    if order != [] && !s.crashed && order[0] in s.pending {
      TakeWorks(s, order[0], DISCONNECTED);
      FlushCrashed(Take(s, order[0], DISCONNECTED), order[1..]);
      if !Take(s, order[0], DISCONNECTED).crashed {
        FlushShaped(Take(s, order[0], DISCONNECTED), order[1..]);
      }
    }
  }

  lemma FlushCrashed(s: State, order: seq<nat>)
    ensures s.crashed ==> Flush(s, order) == s
  {
  }

  lemma StepShaped(s: State, e: Event)
    requires !s.crashed && AllShaped(s) && !Step(s, e).crashed
    ensures AllShaped(Step(s, e))
  {
    hide Sends, Stays, Take, Complete, HandleCommand, HandleDelete, Flush, ShapedHandler;
    match e {
      case Refuse(request, error) => assert Complete(s, Reply(request), Fail(error)).pending == s.pending by { ReplyOnly(s, request, Fail(error)); }
      case Command(request, command, waits) =>
        CommandWorks(s, request, command, waits);
        SendsShaped(s, Step(s, e), License(Alone(command), false, false, true, true));
      case Delete(request) =>
        DeleteWorks(s, request);
        SendsShaped(s, Step(s, e), License(true, false, false, false, true));
      case Dispatch(id, a) =>
        TakeWorks(s, id, a);
        TakeWorks(s.(dialog := false), id, a);
      case Disconnect(order) => FlushShaped(s.(connected := false), order);
      case OpenDialog =>
    }
  }

  lemma ReplyOnly(s: State, request: Request, r: Result)
    ensures Complete(s, Reply(request), r) == s.(replies := s.replies + [Answer(request, r)])
  {
  }

  /** In every run whatsoever the pending handlers have the shapes above. */
  lemma {:induction false} RunShaped(s: State, events: seq<Event>)
    requires AllShaped(s) && !Run(s, events).crashed
    ensures AllShaped(Run(s, events))
    decreases |events|
  {
    hide AllShaped, Step;
    if events != [] {
      RunCrashed(Step(s, events[0]), events[1..]);
      StepShaped(s, events[0]);
      RunShaped(Step(s, events[0]), events[1..]);
    }
  }

  lemma RunCrashed(s: State, events: seq<Event>)
    ensures s.crashed ==> Run(s, events) == s
  {
  }

  /**
   In every state a new session can reach, overlapping commands included, an
   answer crashes the program exactly when its handler reads an unset window,
   frame or session; a request never does.
   */
  lemma CrashesIff(window: Handle, behavior: PromptBehavior, events: seq<Event>, e: Event)
    requires var s := Run(Fresh(window, behavior), events);
             !s.crashed && !e.Disconnect? && (e.Dispatch? ==> e.id in s.pending)
    ensures var s := Run(Fresh(window, behavior), events);
            Step(s, e).crashed <==> e.Dispatch? && StarvedBy(s, s.pending[e.id], e.response)
  {
    hide Sends, Stays, Take, Complete, HandleCommand, HandleDelete, Run, ShapedHandler;
    var s := Run(Fresh(window, behavior), events);
    RunShaped(Fresh(window, behavior), events);
    match e {
      case Refuse(request, error) => ReplyOnly(s, request, Fail(error));
      case Command(request, command, waits) => CommandWorks(s, request, command, waits);
      case Delete(request) => DeleteWorks(s, request);
      case Dispatch(id, a) =>
        TakeWorks(s, id, a);
        TakeWorks(s.(dialog := false), id, a);
      case OpenDialog =>
    }
  }
}
