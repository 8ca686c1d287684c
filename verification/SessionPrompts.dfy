/** Guarded commands send their messages only while no dialog is open; what becomes of an open one, and of a click under it. */
module SessionPrompts {
  import opened Wrappers
  import opened Json
  import opened Session
  import opened SessionSteps

  // ----- The guard

  /** No guarded command sent its first message, or with `all` any of its messages, while a dialog was open. */
  ghost predicate Unobstructed(s: State, all: bool)
  {
    forall i :: 0 <= i < |s.sent| && (s.sent[i].part.First? || (all && s.sent[i].part.Later?)) ==> !s.sent[i].dialog
  }

  /** No dialog is open in the middle of a guarded command. */
  ghost predicate Undisturbed(s: State)
  {
    forall id :: id in s.pending && Midway(s.pending[id]) ==> !s.dialog
  }

  ghost predicate Guarding(s: State, all: bool)
  {
    Unobstructed(s, all) && (!s.crashed ==> AllShaped(s) && (all ==> Undisturbed(s)))
  }

  lemma SendsGuarded(s: State, t: State, l: License, all: bool)
    requires Unobstructed(s, all) && (all ==> Undisturbed(s)) && Sends(s, t, l) && t.dialog == s.dialog
    requires (l.first ==> !s.dialog) && (all && l.later ==> !s.dialog)
    ensures Unobstructed(t, all) && (all ==> Undisturbed(t))
  {
    hide ShapedHandler;
    forall i | 0 <= i < |t.sent| && (t.sent[i].part.First? || (all && t.sent[i].part.Later?)) ensures !t.sent[i].dialog {
      if i < |s.sent| {
        assert t.sent[i] == t.sent[..|s.sent|][i] == s.sent[i];
      }
    }
  }

  lemma TakeGuarded(s: State, id: nat, a: Response, all: bool)
    requires !s.crashed && Guarding(s, all) && id in s.pending && (Freed(s.pending[id], a) ==> !s.dialog)
    ensures Guarding(Take(s, id, a), all)
  {
    hide Take, Sends, AllShaped, Midway, StarvedBy;
    TakeWorks(s, id, a);
    var held := s.(pending := s.pending - {id});
    if !Take(s, id, a).crashed {
      SendsGuarded(held, Take(s, id, a), LicenseOf(s, s.pending[id], a), all);
    }
  }

  lemma {:induction false} FlushGuarded(s: State, order: seq<nat>, all: bool)
    requires Guarding(s, all)
    ensures Guarding(Flush(s, order), all)
    decreases |order|
  {
    hide Guarding, Take;
    if order != [] && !s.crashed {
      if order[0] in s.pending {
        TakeGuarded(s, order[0], DISCONNECTED, all);
        FlushGuarded(Take(s, order[0], DISCONNECTED), order[1..], all);
      } else {
        CrashGuarded(s, all);
      }
    }
  }

  lemma CrashGuarded(s: State, all: bool)
    requires Guarding(s, all)
    ensures Guarding(Crash(s), all)
  {
  }

  /** The browser says truly whether a dialog is open. */
  ghost predicate Honest(s: State, e: Event)
  {
    e.Dispatch? && e.id in s.pending && s.pending[e.id].kind.DialogState? && Says(e.response, false) ==> !s.dialog
  }

  /** No dialog opens in the middle of a guarded command. */
  ghost predicate Considerate(s: State, e: Event)
  {
    e.OpenDialog? ==> forall id :: id in s.pending ==> !Midway(s.pending[id])
  }

  lemma StepGuarded(s: State, e: Event, all: bool)
    requires !s.crashed && Guarding(s, all) && Honest(s, e) && (all ==> Considerate(s, e))
    ensures Guarding(Step(s, e), all)
  {
    hide Sends, Take, Complete, HandleCommand, HandleDelete, Flush, Midway, AllShaped;
    match e {
      case Refuse(request, error) =>
        ReplyOnly(s, request, Fail(error));
        StepShaped(s, e);
      case Command(request, command, waits) =>
        CommandWorks(s, request, command, waits);
        StepShaped(s, e);
        SendsGuarded(s, Step(s, e), License(Alone(command), false, false, true, true), all);
      case Delete(request) =>
        DeleteWorks(s, request);
        StepShaped(s, e);
        SendsGuarded(s, Step(s, e), License(true, false, false, false, true), all);
      case Dispatch(id, a) =>
        if id !in s.pending {
          CrashGuarded(s, all);
        } else if s.pending[id].kind.DialogClosed? && !a.isError {
          DialogGone(s, all);
          TakeGuarded(s.(dialog := false), id, a, all);
        } else {
          TakeGuarded(s, id, a, all);
        }
      case Disconnect(order) =>
        ShapedOnly(s, s.(connected := false));
        FlushGuarded(s.(connected := false), order, all);
      case OpenDialog => ShapedOnly(s, s.(dialog := true));
    }
  }

  lemma ShapedOnly(s: State, t: State)
    requires AllShaped(s) && t.pending == s.pending
    ensures AllShaped(t)
  {
  }

  lemma DialogGone(s: State, all: bool)
    requires Guarding(s, all)
    ensures Guarding(s.(dialog := false), all)
  {
  }

  ghost predicate HonestRun(s: State, events: seq<Event>, all: bool)
    decreases |events|
  {
    events == [] || s.crashed ||
    (Honest(s, events[0]) && (all ==> Considerate(s, events[0])) && HonestRun(Step(s, events[0]), events[1..], all))
  }

  lemma {:induction false} RunGuarded(s: State, events: seq<Event>, all: bool)
    requires Guarding(s, all) && HonestRun(s, events, all)
    ensures Guarding(Run(s, events), all)
    decreases |events|
  {
    hide Step, Guarding;
    if events != [] && !s.crashed {
      StepGuarded(s, events[0], all);
      RunGuarded(Step(s, events[0]), events[1..], all);
    }
  }

  /**
   In every run of a new session with a truthful browser, overlapping commands
   included, a guarded command starts only while no dialog is open; if none
   opens between its messages, all of them are sent while none is open.
   */
  lemma RunUnobstructed(window: Handle, behavior: PromptBehavior, events: seq<Event>, all: bool)
    requires HonestRun(Fresh(window, behavior), events, all)
    ensures Unobstructed(Run(Fresh(window, behavior), events), all)
  {
    hide Run;
    RunGuarded(Fresh(window, behavior), events, all);
  }

  // ----- What becomes of an open dialog

  /** A browser that answers every message: whether it closes dialogs when told to, their text, and the tag it reads. */
  datatype Browser = Browser(closes: bool, error: Error, text: string, tag: Result)

  /** Its answer to the message sent last. */
  function AnswerOf(b: Browser, s: State): (a: Response)
  {
    if s.last in s.pending && s.pending[s.last].kind.DialogClosed? && !b.closes then Response(true, None, b.error, Fail(b.error), NoRect)
    else Response(false, Some(map["result" := Bool(s.dialog), "message" := Str(b.text)]), UnknownError, b.tag, InView)
  }

  /** The browser answers the message sent last, and the next, `n` times. */
  function Converse(s: State, b: Browser, n: nat): (t: State)
    decreases n
  {
    if n == 0 || s.crashed then s else Converse(Step(s, Dispatch(s.last, AnswerOf(b, s))), b, n - 1)
  }

  /** The events of that conversation. */
  function Answers(s: State, b: Browser, n: nat): (events: seq<Event>)
    decreases n
  {
    if n == 0 || s.crashed then []
    else
      var e := Dispatch(s.last, AnswerOf(b, s));
      [e] + Answers(Step(s, e), b, n - 1)
  }

  lemma {:induction false} ConverseIsRun(s: State, b: Browser, n: nat)
    ensures Run(s, Answers(s, b, n)) == Converse(s, b, n)
    decreases n
  {
    hide Step;
    if n > 0 && !s.crashed {
      var e := Dispatch(s.last, AnswerOf(b, s));
      ConverseIsRun(Step(s, e), b, n - 1);
      assert Answers(s, b, n)[1..] == Answers(Step(s, e), b, n - 1);
    }
  }

  /** Numbers in use have been given out. */
  ghost predicate Numbered(s: State)
  {
    forall id :: id in s.pending ==> id <= s.last
  }

  /** The session as it was, some messages later, with the dialog open or not. */
  ghost predicate SameBut(s: State, u: State, dialog: bool)
  {
    && u.pending == s.pending && u.replies == s.replies && u.top == s.top && u.frame == s.frame && u.alive == s.alive
    && u.behavior == s.behavior && u.connected == s.connected && u.crashed == s.crashed && u.dialog == dialog && s.last <= u.last
  }

  /** A message is sent and answered: its handler runs on the session as it was. */
  lemma Answered(s: State, m: string, window: Option<Handle>, frame: Option<Handle>, part: Part, kind: Kind, k: Completion, b: Browser, n: nat)
    returns (u: State)
    requires !s.crashed && Numbered(s)
    ensures SameBut(s, u, s.dialog && !(kind.DialogClosed? && b.closes)) && Numbered(u)
    ensures var t := Send(s, m, window, frame, part, kind, k);
            !t.crashed && Converse(t, b, n + 1) == Converse(RunHandler(u, Handler(kind, k), AnswerOf(b, t)), b, n)
  {
    hide RunHandler;
    var t := Send(s, m, window, frame, part, kind, k);
    assert t.pending - {t.last} == s.pending;
    u := t.(pending := s.pending, dialog := s.dialog && !(kind.DialogClosed? && b.closes));
  }

  /** Asking about prompts: what is found. */
  lemma PromptsAnswered(s: State, k: Completion, b: Browser, n: nat) returns (u: State)
    requires !s.crashed && Numbered(s) && s.top.Some?
    ensures SameBut(s, u, s.dialog) && Numbered(u)
    ensures Converse(HandleUserPrompts(s, k), b, n + 1)
            == Converse(if s.dialog then HandleUnexpectedAlertOpen(u, k) else Complete(u, k, Success(Null)), b, n)
  {
    hide Converse, HandleUnexpectedAlertOpen, Complete;
    u := Answered(s, "isShowingJavaScriptDialog", s.top, None, Aside, DialogState, k, b, n);
  }

  /** Telling the browser to close the dialog. */
  lemma ClosingAnswered(s: State, m: string, k: Completion, b: Browser, n: nat) returns (u: State)
    requires !s.crashed && Numbered(s) && s.top.Some?
    ensures SameBut(s, u, s.dialog && !b.closes) && Numbered(u)
    ensures Converse(CloseDialog(s, m, k), b, n + 1) == Converse(Complete(u, k, if b.closes then Success(Null) else Fail(b.error)), b, n)
  {
    hide Converse, Complete;
    u := Answered(s, m, s.top, None, Aside, DialogClosed, k, b, n);
  }

  /** Asking for the text of the dialog. */
  lemma TextAnswered(s: State, k: Completion, b: Browser, n: nat) returns (u: State)
    requires !s.crashed && Numbered(s) && s.top.Some?
    ensures SameBut(s, u, s.dialog) && Numbered(u)
    ensures Converse(GetAlertText(s, k), b, n + 1) == Converse(Complete(u, k, Success(Str(b.text))), b, n)
  {
    hide Converse, Complete;
    u := Answered(s, "messageOfCurrentJavaScriptDialog", s.top, None, Aside, AlertMessage, k, b, n);
  }

  /** Accept and dismiss: the dialog is closed and the command runs; if closing is refused the command fails and the dialog stays. */
  lemma ClosedThenRun(s: State, command: Command, k: Completion, b: Browser, n: nat) returns (u: State)
    requires !s.crashed && Numbered(s) && s.top.Some? && s.dialog && (s.behavior.Dismiss? || s.behavior.Accept?)
    ensures SameBut(s, u, !b.closes) && Numbered(u)
    ensures Converse(HandleUserPrompts(s, Then(Guarded(command), k)), b, n + 2)
            == Converse(if b.closes then Body(u, command, k) else Complete(u, k, Fail(b.error)), b, n)
  {
    hide Converse, Body, Complete, HandleUserPrompts, CloseDialog;
    var next := Then(Guarded(command), k);
    var v := PromptsAnswered(s, next, b, n + 1);
    u := ClosingAnswered(v, if s.behavior.Dismiss? then "dismissCurrentJavaScriptDialog" else "acceptCurrentJavaScriptDialog", next, b, n);
    CommandGetsResult(u, command, k, b.error);
  }

  lemma CommandGetsResult(u: State, command: Command, k: Completion, error: Error)
    ensures Complete(u, Then(Guarded(command), k), Success(Null)) == Body(u, command, k)
    ensures Complete(u, Then(Guarded(command), k), Fail(error)) == Complete(u, k, Fail(error))
  {
    hide Body;
  }

  /** Ignore: the command fails with the alert, which stays open. */
  lemma Ignored(s: State, command: Command, k: Completion, b: Browser, n: nat) returns (u: State)
    requires !s.crashed && Numbered(s) && s.top.Some? && s.dialog && s.behavior.Ignore?
    ensures SameBut(s, u, true) && Numbered(u)
    ensures Converse(HandleUserPrompts(s, Then(Guarded(command), k)), b, n + 2) == Converse(Complete(u, k, Fail(UnexpectedAlertOpen)), b, n)
  {
    hide Converse, Body, Complete, HandleUserPrompts, GetAlertText;
    var next := Then(Guarded(command), k);
    var v := PromptsAnswered(s, next, b, n + 1);
    u := TextAnswered(v, Then(ReportAlert, next), b, n);
    AlertReported(u, next, b.text);
    CommandGetsResult(u, command, k, UnexpectedAlertOpen);
  }

  lemma AlertReported(u: State, k: Completion, text: string)
    ensures Complete(u, Then(ReportAlert, k), Success(Str(text))) == Complete(u, k, Fail(UnexpectedAlertOpen))
  {
    hide Body, Execute, CloseDialog;
  }

  /** Notify forms: the alert is read, then closed, and the command fails with it, or with the refusal to close. */
  lemma ClosedThenNotified(s: State, command: Command, k: Completion, b: Browser, n: nat) returns (u: State)
    requires !s.crashed && Numbered(s) && s.top.Some? && s.dialog && (s.behavior.DismissAndNotify? || s.behavior.AcceptAndNotify?)
    ensures SameBut(s, u, !b.closes) && Numbered(u)
    ensures Converse(HandleUserPrompts(s, Then(Guarded(command), k)), b, n + 3)
            == Converse(Complete(u, k, Fail(if b.closes then UnexpectedAlertOpen else b.error)), b, n)
  {
    hide Converse, Body, Complete, HandleUserPrompts, GetAlertText, CloseDialog;
    var next := Then(Guarded(command), k);
    var v := PromptsAnswered(s, next, b, n + 2);
    var report := Then(if s.behavior.DismissAndNotify? then ThenDismiss else ThenAccept, next);
    var w := TextAnswered(v, Then(ReportAlert, report), b, n + 1);
    AlertReported(w, report, b.text);
    NotifyCloses(w, report);
    u := ClosingAnswered(w, if s.behavior.DismissAndNotify? then "dismissCurrentJavaScriptDialog" else "acceptCurrentJavaScriptDialog",
                         Then(Notified(Fail(UnexpectedAlertOpen)), next), b, n);
    NotifiedFails(u, next, b.error);
    CommandGetsResult(u, command, k, UnexpectedAlertOpen);
    CommandGetsResult(u, command, k, b.error);
  }

  lemma NotifyCloses(u: State, k: Completion)
    requires Reports(k)
    ensures var m := if k.frame.ThenDismiss? then "dismissCurrentJavaScriptDialog" else "acceptCurrentJavaScriptDialog";
            Complete(u, k, Fail(UnexpectedAlertOpen)) == CloseDialog(u, m, Then(Notified(Fail(UnexpectedAlertOpen)), k.next))
  {
    hide Execute, Body, CloseDialog;
  }

  lemma NotifiedFails(u: State, k: Completion, error: Error)
    ensures Complete(u, Then(Notified(Fail(UnexpectedAlertOpen)), k), Success(Null)) == Complete(u, k, Fail(UnexpectedAlertOpen))
    ensures Complete(u, Then(Notified(Fail(UnexpectedAlertOpen)), k), Fail(error)) == Complete(u, k, Fail(error))
  {
    hide Body, Execute, CloseDialog;
  }

  // ----- A click is not guarded itself

  /** The last message is the click: the mouse, or an option selected. */
  ghost predicate Pressed(t: State)
  {
    t.sent != [] && t.sent[|t.sent| - 1].method' in {"performMouseInteraction", "selectOptionElement"}
  }

  lemma PressSent(u: State, element: string, k: Completion, r: Result)
    requires !u.crashed && u.top.Some?
    ensures var t := Complete(u, Then(TagName(element), k), r);
            !t.crashed && Pressed(t) && t.sent[|t.sent| - 1].dialog == u.dialog
  {
    hide Execute, Body, CloseDialog;
  }

  /** Once the element is in view: how many answers it takes until the mouse is pressed. */
  function Turns(s: State, b: Browser): (n: nat)
  {
    if s.dialog && (s.behavior.DismissAndNotify? || s.behavior.AcceptAndNotify? || (b.closes && !s.behavior.Ignore?)) then 3 else 2
  }

  /** The tag name is read behind the prompt check; whatever comes of that, the mouse is pressed. */
  lemma TagThenPress(s: State, element: string, k: Completion, b: Browser)
    requires !s.crashed && Numbered(s) && s.top.Some?
    ensures var t := Converse(Execute(s, Read("evaluateJavaScriptFunction", true), Then(TagName(element), k)), b, Turns(s, b));
            !t.crashed && Pressed(t) && (t.sent[|t.sent| - 1].dialog <==> s.dialog && (s.behavior.Ignore? || !b.closes))
  {
    hide Converse, Body, Complete, HandleUserPrompts;
    var command := Read("evaluateJavaScriptFunction", true);
    var next := Then(TagName(element), k);
    assert Execute(s, command, next) == HandleUserPrompts(s, Then(Guarded(command), next));
    if !s.dialog {
      var u := PromptsAnswered(s, Then(Guarded(command), next), b, 1);
      CommandGetsResult(u, command, next, UnknownError);
      TagAnswered(u, element, k, b);
    } else if s.behavior.Ignore? {
      var u := Ignored(s, command, next, b, 0);
      PressSent(u, element, k, Fail(UnexpectedAlertOpen));
      ConverseEnds(Complete(u, next, Fail(UnexpectedAlertOpen)), b);
    } else if s.behavior.Dismiss? || s.behavior.Accept? {
      var u := ClosedThenRun(s, command, next, b, if b.closes then 1 else 0);
      if b.closes {
        TagAnswered(u, element, k, b);
      } else {
        PressSent(u, element, k, Fail(b.error));
        ConverseEnds(Complete(u, next, Fail(b.error)), b);
      }
    } else {
      var u := ClosedThenNotified(s, command, next, b, 0);
      var failure := Fail(if b.closes then UnexpectedAlertOpen else b.error);
      PressSent(u, element, k, failure);
      ConverseEnds(Complete(u, next, failure), b);
    }
  }

  lemma ConverseEnds(s: State, b: Browser)
    ensures Converse(s, b, 0) == s
  {
  }

  lemma TagAnswered(s: State, element: string, k: Completion, b: Browser)
    requires !s.crashed && Numbered(s) && s.top.Some?
    ensures var t := Converse(Body(s, Read("evaluateJavaScriptFunction", true), Then(TagName(element), k)), b, 1);
            !t.crashed && Pressed(t) && t.sent[|t.sent| - 1].dialog == s.dialog
  {
    hide Converse, Complete;
    var next := Then(TagName(element), k);
    var u := Answered(s, "evaluateJavaScriptFunction", s.top, s.frame, First, Value, next, b, 0);
    PressSent(u, element, k, b.tag);
    ConverseEnds(Complete(u, next, b.tag), b);
  }

  /**
   A click on an element in view, from the command on: the mouse is pressed under
   an open dialog exactly when a dialog was open and the session ignores prompts
   or the browser refuses to close it.
   */
  lemma ClickUnderDialog(s: State, request: Request, element: string, waits: bool, b: Browser)
    requires !s.crashed && s.alive && s.top.Some? && Numbered(s)
    ensures var click := Command(request, Click(element), waits);
            var answers := Answers(Step(s, click), b, (if waits then 1 else 0) + 1 + Turns(s, b));
            var t := Run(s, [click] + answers);
            !t.crashed && Pressed(t) && (t.sent[|t.sent| - 1].dialog <==> s.dialog && (s.behavior.Ignore? || !b.closes))
  {
    hide Converse, Complete, Execute, Answers;
    var k := Reply(request);
    var click, n := Command(request, Click(element), waits), (if waits then 1 else 0) + 1 + Turns(s, b);
    ConverseIsRun(Step(s, click), b, n);
    assert ([click] + Answers(Step(s, click), b, n))[1..] == Answers(Step(s, click), b, n);
    if waits {
      var u := WaitAnswered(s, Click(element), k, b, 1 + Turns(s, b));
      ClickAnswered(u, element, k, b);
    } else {
      ClickAnswered(s, element, k, b);
    }
  }

  lemma WaitAnswered(s: State, command: Command, k: Completion, b: Browser, n: nat) returns (u: State)
    requires !s.crashed && s.alive && s.top.Some? && Numbered(s)
    ensures SameBut(s, u, s.dialog) && Numbered(u)
    ensures Converse(WaitForNavigation(s, Then(AfterWait(command), k)), b, n + 1) == Converse(Execute(u, command, k), b, n)
  {
    hide Converse, Execute, Body;
    u := Answered(s, "waitForNavigationToComplete", s.top, s.frame, Aside, Waited, Then(AfterWait(command), k), b, n);
    assert Complete(u, Then(AfterWait(command), k), Success(Null)) == Execute(u, command, k);
  }

  lemma ClickAnswered(s: State, element: string, k: Completion, b: Browser)
    requires !s.crashed && s.top.Some? && Numbered(s)
    ensures var t := Converse(Execute(s, Click(element), k), b, 1 + Turns(s, b));
            !t.crashed && Pressed(t) && (t.sent[|t.sent| - 1].dialog <==> s.dialog && (s.behavior.Ignore? || !b.closes))
  {
    hide Converse, Complete;
    var u := Answered(s, "computeElementLayout", s.top, s.frame, Aside, Layout(element), k, b, Turns(s, b));
    TagThenPress(u, element, k, b);
  }
}
