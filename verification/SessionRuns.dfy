/** Runs of a new session that reach each way of going wrong: a crash in an overlap, a crash or a silence when the browser goes away. */
module SessionRuns {
  import opened Wrappers
  import opened Json
  import opened Session
  import opened SessionLedger
  import opened SessionSteps
  import opened SessionWindows
  import opened SessionDisconnect

  /** A browser that answers "a dialog is showing". */
  const SHOWING := Response(false, Some(map["result" := Bool(true)]), UnknownError, Success(Null), NoRect)

  /** A browser that finds the element in view. */
  const IN_VIEW := Response(false, Some(map[]), UnknownError, Success(Null), InView)

  lemma ThreeSteps(s: State, e1: Event, e2: Event, e3: Event)
    requires !s.crashed && !Step(s, e1).crashed && !Step(Step(s, e1), e2).crashed
    ensures Run(s, [e1, e2, e3]) == Step(Step(Step(s, e1), e2), e3)
  {
    hide Step;
    var events := [e1, e2, e3];
    var s1 := Step(s, e1);
    var s2 := Step(s1, e2);
    assert Run(s2, events[1..][1..]) == Step(s2, e3);
    assert Run(s1, events[1..]) == Step(s2, e3);
  }

  lemma {:induction false} RunConcat(s: State, a: seq<Event>, b: seq<Event>)
    ensures Run(s, a + b) == Run(Run(s, a), b)
    decreases |a|
  {
    hide Step;
    if a == [] {
      assert a + b == b;
    } else if !s.crashed {
      assert (a + b)[1..] == a[1..] + b;
      RunConcat(Step(s, a[0]), a[1..], b);
    }
  }

  // ----- Losing the browser

  /** An alert that is to be reported: when the browser goes away meanwhile, its command is never answered. */
  lemma LeavesUnanswered(window: Handle, behavior: PromptBehavior, request: Request, command: Command)
    requires AsksFirst(command) && (behavior.DismissAndNotify? || behavior.AcceptAndNotify?)
    ensures var f := Run(Fresh(window, behavior), [Command(request, command, false), OpenDialog, Dispatch(1, SHOWING), Disconnect([2])]);
            && !f.crashed && !f.connected && f.replies == []
            && f.pending.Keys == {3} && Owner(f.pending[3].k) == request
  {
    hide Run, Step;
    var s0 := Fresh(window, behavior);
    var s1 := Asked(s0, request, command);
    assert s1.replies == [] && s1.behavior == behavior by { AskedOnly(s0, request, command); }
    var s2 := Step(s1, OpenDialog);
    Opened(s1);
    var s3 := Step(s2, Dispatch(1, SHOWING));
    var k := s2.pending[1].k;
    var f := Alerted(s2, k);
    assert Owner(Then(ReportAlert, Then(f, k))) == Owner(Then(f, k)) == Owner(k) == Owner(k.next) == request;
    AlertLost(s3, f, k);
    FourSteps(s0, Command(request, command, false), OpenDialog, Dispatch(1, SHOWING), Disconnect([2]));
  }

  lemma AskedOnly(s: State, request: Request, command: Command)
    requires !s.crashed && s.alive && s.top.Some? && AsksFirst(command)
    ensures var t := Step(s, Command(request, command, false)); t.replies == s.replies && t.behavior == s.behavior
  {
    var k := if command.CloseWindow? then Then(Closed, Reply(request)) else Reply(request);
    assert Execute(s, command, k) == ExecuteInWindow(s, command, k);
    assert ExecuteInWindow(s, command, k) == HandleUserPrompts(s, Then(Guarded(command), k));
  }

  lemma Opened(s: State)
    requires !s.crashed
    ensures Step(s, OpenDialog) == s.(dialog := true)
  {
  }

  /** The text of the alert is asked for. */
  lemma Alerted(s: State, k: Completion) returns (f: Frame)
    requires !s.crashed && s.top.Some? && s.connected && s.last == 1 && s.pending == map[1 := Handler(DialogState, k)]
    requires s.behavior.DismissAndNotify? || s.behavior.AcceptAndNotify?
    ensures var t := Step(s, Dispatch(1, SHOWING));
            && !t.crashed && t.top == s.top && t.connected && t.last == 2 && t.replies == s.replies
            && (f.ThenDismiss? || f.ThenAccept?) && t.pending == map[2 := Handler(AlertMessage, Then(ReportAlert, Then(f, k)))]
  {
    hide Complete;
    f := if s.behavior.DismissAndNotify? then ThenDismiss else ThenAccept;
    assert s.pending - {1} == map[];
  }

  /** The browser is gone: the text fails to arrive and the dialog is to be closed all the same. */
  lemma AlertLost(s: State, f: Frame, k: Completion)
    requires !s.crashed && s.top.Some? && s.last == 2 && s.replies == []
    requires (f.ThenDismiss? || f.ThenAccept?) && s.pending == map[2 := Handler(AlertMessage, Then(ReportAlert, Then(f, k)))]
    ensures var t := Step(s, Disconnect([2]));
            && !t.crashed && !t.connected && t.replies == [] && t.pending.Keys == {3} && Owner(t.pending[3].k) == Owner(s.pending[2].k)
  {
    hide Execute, Body, WaitForNavigation, CloseDialog;
    var off := s.(connected := false);
    assert [2][1..] == [];
    assert Flush(off, [2]) == Flush(Take(off, 2, DISCONNECTED), []);
    var held := off.(pending := off.pending - {2});
    assert held.pending == map[];
    assert Take(off, 2, DISCONNECTED) == Complete(held, Then(f, k), Fail(UnexpectedAlertOpen));
    ClosesAnyway(held, f, k);
  }

  lemma ClosesAnyway(s: State, f: Frame, k: Completion)
    requires !s.crashed && s.top.Some? && s.last == 2 && s.pending == map[] && (f.ThenDismiss? || f.ThenAccept?)
    ensures var t := Complete(s, Then(f, k), Fail(UnexpectedAlertOpen));
            && !t.crashed && t.connected == s.connected && t.replies == s.replies
            && t.pending.Keys == {3} && Owner(t.pending[3].k) == Owner(Then(ReportAlert, Then(f, k)))
  {
    hide Complete;
    var r, m := Fail(UnexpectedAlertOpen), if f.ThenDismiss? then "dismissCurrentJavaScriptDialog" else "acceptCurrentJavaScriptDialog";
    ReportCloses(s, Then(f, k), r, m);
    assert CloseDialog(s, m, Then(Notified(r), k)) == Send(s, m, s.top, None, Aside, DialogClosed, Then(Notified(r), k));
    assert Owner(Then(Notified(r), k)) == Owner(k) == Owner(Then(f, k));
  }

  /** A click overtaken by the end of its session: when the browser goes away next, the program crashes. */
  lemma PressesAfterDelete(window: Handle, behavior: PromptBehavior, element: string, order: seq<nat>)
    requires Distinct(order) && forall id :: id in order <==> id == 2 || id == 3
    ensures var s := Run(Fresh(window, behavior), [Command(1, Click(element), false), Dispatch(1, IN_VIEW), Delete(2)]);
            && !s.crashed && s.top.None? && s.pending.Keys == {2, 3} && Presses(s.pending[2].k)
            && Step(s, Disconnect(order)).crashed
  {
    hide Run, Step;
    var e1, e2, e3 := Command(1, Click(element), false), Dispatch(1, IN_VIEW), Delete(2);
    var s0 := Fresh(window, behavior);
    var s1, s2 := Clicking(s0, element);
    var s3 := Deleting(s2, element);
    ThreeSteps(s0, e1, e2, e3);
    ClickPlausible(s0, s1, s2, e1, e2, e3);
    assert Presses(s3.pending[2].k);
    DisconnectAfterRun(window, behavior, [e1, e2, e3], order);
  }

  lemma Clicking(s: State, element: string) returns (s1: State, s2: State)
    requires !s.crashed && s.alive && s.top.Some? && s.last == 0 && s.pending == map[]
    ensures s1 == Step(s, Command(1, Click(element), false)) && !s1.crashed && s1.pending.Keys == {1}
    ensures s2 == Step(s1, Dispatch(1, IN_VIEW)) && !s2.crashed && s2.alive && s2.last == 2
    ensures s2.pending == map[2 := Handler(DialogState, Then(Guarded(Read("evaluateJavaScriptFunction", true)), Then(TagName(element), Reply(1))))]
  {
    hide Complete, RunHandler;
    s1 := Step(s, Command(1, Click(element), false));
    assert s1 == SendInWindow(s, "computeElementLayout", true, Aside, Layout(element), Reply(1));
    s2 := Viewed(s1, element);
  }

  /** The element is in view: what it is is asked for. */
  lemma Viewed(s: State, element: string) returns (t: State)
    requires !s.crashed && s.alive && s.top.Some? && s.last == 1 && s.pending == map[1 := Handler(Layout(element), Reply(1))]
    ensures t == Step(s, Dispatch(1, IN_VIEW)) && !t.crashed && t.alive && t.last == 2
    ensures t.pending == map[2 := Handler(DialogState, Then(Guarded(Read("evaluateJavaScriptFunction", true)), Then(TagName(element), Reply(1))))]
  {
    hide Complete;
    t := Step(s, Dispatch(1, IN_VIEW));
    var held := s.(pending := s.pending - {1});
    assert held.pending == map[];
    var read, k := Read("evaluateJavaScriptFunction", true), Then(TagName(element), Reply(1));
    assert t == Execute(held, read, k) == ExecuteInWindow(held, read, k) == HandleUserPrompts(held, Then(Guarded(read), k));
  }

  lemma Deleting(s: State, element: string) returns (t: State)
    requires !s.crashed && s.alive && s.last == 2
    requires s.pending == map[2 := Handler(DialogState, Then(Guarded(Read("evaluateJavaScriptFunction", true)), Then(TagName(element), Reply(1))))]
    ensures t == Step(s, Delete(2)) && !t.crashed && t.top.None? && t.pending.Keys == {2, 3} && t.pending[2] == s.pending[2]
  {
    hide Complete;
    t := Step(s, Delete(2));
  }

  lemma ClickPlausible(s0: State, s1: State, s2: State, e1: Event, e2: Event, e3: Event)
    requires !s0.crashed && s1 == Step(s0, e1) && !s1.crashed && s2 == Step(s1, e2) && !s2.crashed
    requires e1.Command? && e1.request == 1 && e2.Dispatch? && e2.id in s1.pending && e3 == Delete(2)
    ensures Plausible(s0, {}, [e1, e2, e3])
  {
    hide Step;
    var events := [e1, e2, e3];
    assert Accepting({}, e1) == {1} && Accepting({1}, e2) == {1};
    assert Plausible(Step(s2, e3), Accepting({1}, e3), events[1..][1..][1..]);
    assert Plausible(s2, {1}, events[1..][1..]);
    assert Plausible(s1, {1}, events[1..]);
  }

  // ----- Overlaps

  /** A command that waits for navigation and is overtaken by the end of its session crashes exactly when the wait succeeds. */
  lemma WaitingCrashes(window: Handle, behavior: PromptBehavior, command: Command, a: Response)
    ensures var f := Run(Fresh(window, behavior), [Command(1, command, true), Delete(2), Dispatch(1, a)]);
            f.crashed <==> !a.isError || a.error == NoSuchFrame
  {
    hide Run, Step;
    var s0 := Fresh(window, behavior);
    var s2 := WaitingDeleted(s0, command);
    WaitOver(s2, command, a);
    ThreeSteps(s0, Command(1, command, true), Delete(2), Dispatch(1, a));
  }

  lemma WaitingDeleted(s: State, command: Command) returns (t: State)
    requires !s.crashed && s.alive && s.top.Some? && s.last == 0 && s.pending == map[]
    ensures var s1 := Step(s, Command(1, command, true)); !s1.crashed && t == Step(s1, Delete(2))
    ensures !t.crashed && !t.alive && AllShaped(t) && 1 in t.pending && t.pending[1].kind == Waited && t.pending[1].k.Then?
    ensures t.pending[1].k == Then(AfterWait(command), if command.CloseWindow? then Then(Closed, Reply(1)) else Reply(1))
  {
    assert AllShaped(s);
    hide Complete, AllShaped;
    var s1 := Step(s, Command(1, command, true));
    StepShaped(s, Command(1, command, true));
    t := Step(s1, Delete(2));
    StepShaped(s1, Delete(2));
  }

  lemma WaitOver(s: State, command: Command, a: Response)
    requires !s.crashed && !s.alive && AllShaped(s) && 1 in s.pending && s.pending[1].kind == Waited
    requires s.pending[1].k == Then(AfterWait(command), if command.CloseWindow? then Then(Closed, Reply(1)) else Reply(1))
    ensures Step(s, Dispatch(1, a)).crashed <==> !a.isError || a.error == NoSuchFrame
  {
    hide Take, AllShaped, Sends, Goes;
    TakeWorks(s, 1, a);
    TailFacts(s.pending[1].k.next);
  }

  /** The browser resolves a frame. */
  function Resolved(frame: string): (a: Response)
  {
    Response(false, Some(map["result" := Str(frame)]), UnknownError, Success(Null), NoRect)
  }

  /** Going to the parent frame, overtaken by a navigation that leaves the frame, reads the unset frame. */
  lemma ParentFrameCrashes(window: Handle, behavior: PromptBehavior, id: Json, frame: string, m: string)
    requires FrameIdOk(id) && frame != ""
    ensures Run(Fresh(window, behavior),
                [Command(1, SwitchToFrame(id), false), Dispatch(1, NO_DIALOG), Dispatch(2, Resolved(frame)), Command(2, SwitchToParentFrame, false)]
                + [Command(3, Navigate(m), false), Dispatch(4, NO_DIALOG), Dispatch(5, NO_DIALOG), Dispatch(3, NO_DIALOG)]).crashed
  {
    hide Run, Step;
    var s0 := Fresh(window, behavior);
    var e1, e2, e3, e4 := Command(1, SwitchToFrame(id), false), Dispatch(1, NO_DIALOG), Dispatch(2, Resolved(frame)), Command(2, SwitchToParentFrame, false);
    var e5, e6, e7, e8 := Command(3, Navigate(m), false), Dispatch(4, NO_DIALOG), Dispatch(5, NO_DIALOG), Dispatch(3, NO_DIALOG);
    var s3 := InFrame(s0, id, frame);
    var s4 := AskingForParent(s3);
    FourSteps(s0, e1, e2, e3, e4);
    var s7 := Leaving(s4, m);
    NoFrameLeft(s7);
    FourSteps(s4, e5, e6, e7, e8);
    RunConcat(s0, [e1, e2, e3, e4], [e5, e6, e7, e8]);
  }

  /** The client goes into a frame. */
  lemma InFrame(s: State, id: Json, frame: string) returns (t: State)
    requires !s.crashed && s.alive && s.top.Some? && s.last == 0 && s.pending == map[] && FrameIdOk(id) && frame != ""
    ensures var s1 := Step(s, Command(1, SwitchToFrame(id), false));
            !s1.crashed && var s2 := Step(s1, Dispatch(1, NO_DIALOG)); !s2.crashed && t == Step(s2, Dispatch(2, Resolved(frame)))
    ensures !t.crashed && t.alive && t.top.Some? && t.last == 2 && t.pending == map[] && t.frame == Some(frame)
  {
    hide Step;
    var s1 := Asked(s, 1, SwitchToFrame(id));
    var s2 := Resolving(s1, id);
    t := Entered(s2, frame);
  }

  lemma Resolving(s: State, id: Json) returns (t: State)
    requires !s.crashed && s.alive && s.top.Some? && s.last == 1 && FrameIdOk(id)
    requires s.pending == map[1 := Handler(DialogState, Then(Guarded(SwitchToFrame(id)), Reply(1)))]
    ensures t == Step(s, Dispatch(1, NO_DIALOG)) && !t.crashed && t.alive && t.top == s.top && t.last == 2
    ensures t.pending == map[2 := Handler(FrameResolved(s.top.value), Reply(1))]
  {
    hide FrameIdOk;
    var held := s.(pending := s.pending - {1});
    assert held.pending == map[];
    t := Step(s, Dispatch(1, NO_DIALOG));
    assert t == Complete(held, Then(Guarded(SwitchToFrame(id)), Reply(1)), Success(Null)) == Body(held, SwitchToFrame(id), Reply(1));
  }

  lemma Entered(s: State, frame: string) returns (t: State)
    requires !s.crashed && s.alive && s.top.Some? && s.last == 2 && s.pending == map[2 := Handler(FrameResolved(s.top.value), Reply(1))] && frame != ""
    ensures t == Step(s, Dispatch(2, Resolved(frame)))
    ensures !t.crashed && t.alive && t.top == s.top && t.last == 2 && t.pending == map[] && t.frame == Some(frame)
  {
    hide Execute, Body, WaitForNavigation, CloseDialog;
    t := Step(s, Dispatch(2, Resolved(frame)));
    assert s.pending - {2} == map[];
  }

  lemma AskingForParent(s: State) returns (t: State)
    requires !s.crashed && s.alive && s.top.Some? && s.last == 2 && s.pending == map[] && s.frame.Some?
    ensures t == Step(s, Command(2, SwitchToParentFrame, false)) && !t.crashed && t.alive && t.top.Some? && t.last == 3
    ensures t.pending == map[3 := Handler(DialogState, Then(Guarded(SwitchToParentFrame), Reply(2)))]
  {
    t := Step(s, Command(2, SwitchToParentFrame, false));
    assert t == ExecuteInWindow(s, SwitchToParentFrame, Reply(2)) == HandleUserPrompts(s, Then(Guarded(SwitchToParentFrame), Reply(2)));
  }

  /** A navigation is asked for and acknowledged. */
  lemma Leaving(s: State, m: string) returns (t: State)
    requires !s.crashed && s.alive && s.top.Some? && s.last == 3
    requires s.pending == map[3 := Handler(DialogState, Then(Guarded(SwitchToParentFrame), Reply(2)))]
    ensures var s1 := Step(s, Command(3, Navigate(m), false));
            !s1.crashed && var s2 := Step(s1, Dispatch(4, NO_DIALOG)); !s2.crashed && t == Step(s2, Dispatch(5, NO_DIALOG))
    ensures !t.crashed && t.frame.None? && 3 in t.pending && t.pending[3] == s.pending[3]
  {
    hide Step;
    var s1 := Asked(s, 3, Navigate(m));
    var s2 := Navigating(s1, m);
    t := Acknowledged(s2);
  }

  lemma Navigating(s: State, m: string) returns (t: State)
    requires !s.crashed && s.top.Some? && s.last == 4 && 3 in s.pending && 4 in s.pending
    requires s.pending[4] == Handler(DialogState, Then(Guarded(Navigate(m)), Reply(3)))
    ensures t == Step(s, Dispatch(4, NO_DIALOG)) && !t.crashed
    ensures 3 in t.pending && t.pending[3] == s.pending[3] && 5 in t.pending && t.pending[5] == Handler(Navigated, Reply(3))
  {
    var held := s.(pending := s.pending - {4});
    t := Step(s, Dispatch(4, NO_DIALOG));
    assert t == Complete(held, Then(Guarded(Navigate(m)), Reply(3)), Success(Null)) == Body(held, Navigate(m), Reply(3));
  }

  lemma Acknowledged(s: State) returns (t: State)
    requires !s.crashed && 3 in s.pending && 5 in s.pending && s.pending[5] == Handler(Navigated, Reply(3))
    ensures t == Step(s, Dispatch(5, NO_DIALOG)) && !t.crashed && t.frame.None? && 3 in t.pending && t.pending[3] == s.pending[3]
  {
    hide Execute, Body, WaitForNavigation, CloseDialog;
    t := Step(s, Dispatch(5, NO_DIALOG));
  }

  lemma NoFrameLeft(s: State)
    requires !s.crashed && s.frame.None? && 3 in s.pending && s.pending[3] == Handler(DialogState, Then(Guarded(SwitchToParentFrame), Reply(2)))
    ensures Step(s, Dispatch(3, NO_DIALOG)).crashed
  {
    var held := s.(pending := s.pending - {3});
    assert Step(s, Dispatch(3, NO_DIALOG)) == Complete(held, Then(Guarded(SwitchToParentFrame), Reply(2)), Success(Null))
                                           == Body(held, SwitchToParentFrame, Reply(2));
  }
}
