/**
 Which runs never read anything unset: commands may overlap unless one of them
 closes a window, deletes the session or goes to the parent frame. One at a
 time, the current frame also belongs to the current window.
 */
module SessionWindows {
  import opened Wrappers
  import opened Json
  import opened Session
  import opened SessionLedger
  import opened SessionSteps

  // ----- Overlapping commands

  /** A pending handler has what it is going to read. */
  ghost predicate Fed(s: State, h: Handler)
  {
    (s.top.None? ==> Windowless(h)) && (Waits(h) ==> s.alive) && (WantsFrame(h.k) ==> s.frame.Some?)
  }

  ghost predicate Safe(s: State)
  {
    && !s.crashed && AllShaped(s)
    && (forall id :: id in s.pending ==> Fed(s, s.pending[id]))
    && (forall id, id' :: id in s.pending && id' in s.pending && Exclusive(s.pending[id].k) ==> id == id')
  }

  ghost predicate NoneExclusive(s: State)
  {
    forall id :: id in s.pending ==> !Exclusive(s.pending[id].k)
  }

  /** Closing a window, deleting the session and going to the parent frame are done alone; otherwise requests may overlap. */
  ghost predicate Courteous(s: State, e: Event)
  {
    match e
    case Command(_, command, _) => NoneExclusive(s) && (Alone(command) ==> s.pending == map[])
    case Delete(_) => s.pending == map[]
    case Dispatch(id, _) => id in s.pending
    case Disconnect(order) => Distinct(order) && forall i :: 0 <= i < |order| ==> order[i] in s.pending
    case _ => true
  }

  lemma FedNotStarved(s: State, h: Handler, a: Response)
    requires ShapedHandler(h) && Fed(s, h)
    ensures !StarvedBy(s, h, a)
  {
    if Tail(h.k) {
      TailFacts(h.k);
    }
  }

  lemma {:induction false} WantsFrameAlone(k: Completion)
    ensures WantsFrame(k) ==> Exclusive(k)
  {
    if k.Then? {
      WantsFrameAlone(k.next);
    }
  }

  /** The handlers that were pending before are fed in `t` as well. */
  lemma StillFed(s: State, t: State, rest: map<nat, Handler>)
    requires forall id :: id in rest ==> Fed(s, rest[id]) && !Exclusive(rest[id].k)
    requires rest == map[] || (t.alive == s.alive && (t.top.None? ==> s.top.None?))
    ensures forall id :: id in rest ==> Fed(t, rest[id])
  {
    forall id | id in rest ensures Fed(t, rest[id]) {
      WantsFrameAlone(rest[id].k);
    }
  }

  /** One more handler beside the rest. */
  lemma SendsSafe(s: State, t: State, l: License)
    requires !t.crashed && AllShaped(s) && Sends(s, t, l) && l.framed && (forall id :: id in s.pending ==> Fed(t, s.pending[id]))
    requires NoneExclusive(s) && (l.exclusive ==> s.pending == map[])
    ensures Safe(t)
  {
    hide Exclusive, ShapedHandler, WantsFrame, Waits, Windowless;
    assert AllShaped(t) by { SendsShaped(s, t, l); }
  }

  lemma TakeSafe(s: State, id: nat, a: Response)
    requires Safe(s) && id in s.pending
    ensures Safe(Take(s, id, a))
    ensures forall i :: i in s.pending && i != id ==> i in Take(s, id, a).pending
  {
    hide Take, StarvedBy, Windowless, Waits, WantsFrame, Exclusive, ShapedHandler;
    var h, t := s.pending[id], Take(s, id, a);
    TakeWorks(s, id, a);
    FedNotStarved(s, h, a);
    var held := s.(pending := s.pending - {id});
    assert forall i :: i in held.pending ==> i in s.pending && !Exclusive(held.pending[i].k);
    if Exclusive(h.k) {
      assert forall i :: i in s.pending ==> i == id;
      assert held.pending == map[];
    }
    StillFed(s, t, held.pending);
    SendsSafe(held, t, LicenseOf(s, h, a));
  }

  lemma {:induction false} FlushSafe(s: State, order: seq<nat>)
    requires Safe(s) && Distinct(order) && forall i :: 0 <= i < |order| ==> order[i] in s.pending
    ensures Safe(Flush(s, order))
    decreases |order|
  {
    hide Safe, Take;
    if order != [] {
      var t := Take(s, order[0], DISCONNECTED);
      assert !s.crashed && !t.crashed by { TakeSafe(s, order[0], DISCONNECTED); NotCrashed(s); NotCrashed(t); }
      TakeSafe(s, order[0], DISCONNECTED);
      forall i | 0 <= i < |order[1..]| ensures order[1..][i] in t.pending {
        assert order[1..][i] == order[i + 1] && order[i + 1] != order[0];
      }
      FlushSafe(t, order[1..]);
    }
  }

  lemma NotCrashed(s: State)
    requires Safe(s)
    ensures !s.crashed
  {
  }

  /** The browser's own state does not matter. */
  lemma SafeBrowser(s: State, t: State)
    requires Safe(s) && t.crashed == s.crashed && t.pending == s.pending && t.alive == s.alive && t.top == s.top && t.frame == s.frame
    ensures Safe(t)
  {
  }

  lemma StepSafe(s: State, e: Event)
    requires Safe(s) && Courteous(s, e)
    ensures Safe(Step(s, e))
  {
    hide Sends, Take, Complete, HandleCommand, HandleDelete, Flush, Exclusive, ShapedHandler, Fed;
    match e {
      case Refuse(request, error) =>
        ReplyOnly(s, request, Fail(error));
        SafeBrowser(s, Step(s, e));
      case Command(request, command, waits) =>
        CommandWorks(s, request, command, waits);
        StillFed(s, Step(s, e), s.pending);
        SendsSafe(s, Step(s, e), License(Alone(command), false, false, true, true));
      case Delete(request) =>
        DeleteWorks(s, request);
        SendsSafe(s, Step(s, e), License(true, false, false, false, true));
      case Dispatch(id, a) =>
        SafeBrowser(s, s.(dialog := false));
        TakeSafe(s.(dialog := false), id, a);
        TakeSafe(s, id, a);
      case Disconnect(order) =>
        SafeBrowser(s, s.(connected := false));
        FlushSafe(s.(connected := false), order);
      case OpenDialog => SafeBrowser(s, s.(dialog := true));
    }
  }

  ghost predicate CourteousRun(s: State, events: seq<Event>)
    decreases |events|
  {
    events == [] || s.crashed || (Courteous(s, events[0]) && CourteousRun(Step(s, events[0]), events[1..]))
  }

  lemma {:induction false} RunSafe(s: State, events: seq<Event>)
    requires Safe(s) && CourteousRun(s, events)
    ensures Safe(Run(s, events))
    decreases |events|
  {
    hide Step, Safe;
    if events != [] && !s.crashed {
      StepSafe(s, events[0]);
      RunSafe(Step(s, events[0]), events[1..]);
    }
  }

  /** Overlaps without those three kinds of requests never crash, whatever the browser answers. */
  lemma OverlapIsSafe(window: Handle, behavior: PromptBehavior, events: seq<Event>)
    requires CourteousRun(Fresh(window, behavior), events)
    ensures !Run(Fresh(window, behavior), events).crashed
  {
    hide Run;
    RunSafe(Fresh(window, behavior), events);
  }

  // ----- One command at a time

  /** The current frame, if any, is one the browser resolved in the current window. */
  ghost predicate FrameOk(s: State)
  {
    s.top.Some? && s.frame.Some? ==> (s.top.value, s.frame.value) in s.resolved
  }

  /** At most one command is pending, and a frame being resolved is one of the current window. */
  ghost predicate Solo(s: State)
  {
    && Safe(s) && FrameOk(s)
    && (forall id, id' :: id in s.pending && id' in s.pending ==> id == id')
    && (forall id :: id in s.pending && s.pending[id].kind.FrameResolved? ==> s.top == Some(s.pending[id].kind.window))
  }

  /** The client sends a command only when every earlier one is answered; the browser answers what is pending. */
  ghost predicate InTurn(s: State, e: Event)
  {
    match e
    case Dispatch(id, _) => id in s.pending
    case Disconnect(order) => |order| <= 1 && forall id :: id in order <==> id in s.pending
    case OpenDialog => true
    case _ => s.pending == map[]  // a request
  }

  lemma SendsSolo(s: State, t: State, l: License)
    requires s.pending == map[] && Sends(s, t, l) && Safe(t) && FrameOk(t)
    ensures Solo(t)
  {
    hide Safe, ShapedHandler, Windowless, Exclusive, WantsFrame;
  }

  lemma TakeSolo(s: State, id: nat, a: Response)
    requires Solo(s) && id in s.pending
    ensures Solo(Take(s, id, a))
  {
    hide Take, StarvedBy, Sends, Fed, AllShaped, Exclusive;
    TakeSafe(s, id, a);
    TakeWorks(s, id, a);
    var held := s.(pending := s.pending - {id});
    assert held.pending == map[];
    SendsSolo(held, Take(s, id, a), LicenseOf(s, s.pending[id], a));
  }

  lemma StepSolo(s: State, e: Event)
    requires Solo(s) && InTurn(s, e)
    ensures Solo(Step(s, e))
  {
    hide Take, Complete, HandleCommand, HandleDelete, Sends, Safe;
    var pending := s.pending;
    assert Courteous(s, e) by { TurnIsCourteous(s, e); }
    StepSafe(s, e);
    NotCrashed(s);
    match e {
      case Refuse(request, error) => ReplyOnly(s, request, Fail(error));
      case Command(request, command, waits) =>
        CommandWorks(s, request, command, waits);
        SendsSolo(s, Step(s, e), License(Alone(command), false, false, true, true));
      case Delete(request) =>
        DeleteWorks(s, request);
        SendsSolo(s, Step(s, e), License(true, false, false, false, true));
      case Dispatch(id, a) =>
        var t := s.(dialog := false);
        SafeBrowser(s, t);
        TakeSolo(t, id, a);
        TakeSolo(s, id, a);
      case Disconnect(order) =>
        var t := s.(connected := false);
        SafeBrowser(s, t);
        if order == [] {
          assert forall id :: id in s.pending ==> id in order;
        } else {
          assert order[0] in order;
          TakeSolo(t, order[0], DISCONNECTED);
          assert order[1..] == [];
          assert Flush(t, order) == Flush(Take(t, order[0], DISCONNECTED), []);
        }
      case OpenDialog => SafeBrowser(s, s.(dialog := true));
    }
  }

  lemma TurnIsCourteous(s: State, e: Event)
    requires InTurn(s, e)
    ensures Courteous(s, e)
  {
    if e.Disconnect? {
      assert forall i :: 0 <= i < |e.order| ==> e.order[i] in e.order;
    }
  }

  ghost predicate TurnByTurn(s: State, events: seq<Event>)
    decreases |events|
  {
    events == [] || s.crashed || (InTurn(s, events[0]) && TurnByTurn(Step(s, events[0]), events[1..]))
  }

  lemma {:induction false} SoloRun(s: State, events: seq<Event>)
    requires Solo(s) && TurnByTurn(s, events)
    ensures Solo(Run(s, events))
    decreases |events|
  {
    hide Step, Solo;
    if events != [] && !s.crashed {
      StepSolo(s, events[0]);
      SoloRun(Step(s, events[0]), events[1..]);
    }
  }

  /**
   In every run of one command at a time nothing unset is read, and whenever a
   window is set the frame is none or one the browser resolved in that window.
   */
  lemma RunSolo(window: Handle, behavior: PromptBehavior, events: seq<Event>)
    requires TurnByTurn(Fresh(window, behavior), events)
    ensures var s := Run(Fresh(window, behavior), events); !s.crashed && FrameOk(s)
  {
    hide Run;
    SoloRun(Fresh(window, behavior), events);
  }

  /** A browser that answers "no dialog". */
  const NO_DIALOG := Response(false, Some(map["result" := Bool(false)]), UnknownError, Success(Null), NoRect)

  /** Asks about prompts first, in a window and outside any frame. */
  predicate AsksFirst(command: Command) {
    Guardable(command) && !command.SwitchToParentFrame? && (command.SwitchToFrame? ==> !command.id.Null?)
  }

  /** Turns matter: whatever guarded command is overtaken by the closing of its window reads the unset window. */
  lemma OverlapCrashes(window: Handle, behavior: PromptBehavior, command: Command)
    requires AsksFirst(command)
    ensures Run(Fresh(window, behavior),
                [Command(1, command, false), Command(2, CloseWindow, false), Dispatch(2, NO_DIALOG), Dispatch(1, NO_DIALOG)]).crashed
  {
    hide Run, Step;
    var s0 := Fresh(window, behavior);
    var s1 := Asked(s0, 1, command);
    var s2 := Asked(s1, 2, CloseWindow);
    Closing(s2);
    Overtaken(Step(s2, Dispatch(2, NO_DIALOG)), command);
    FourSteps(s0, Command(1, command, false), Command(2, CloseWindow, false), Dispatch(2, NO_DIALOG), Dispatch(1, NO_DIALOG));
  }

  /** A guarded command is accepted and asks about prompts. */
  lemma Asked(s: State, request: Request, command: Command) returns (t: State)
    requires !s.crashed && s.alive && s.top.Some? && AllShaped(s) && AsksFirst(command)
    ensures t == Step(s, Command(request, command, false)) && !t.crashed && AllShaped(t)
    ensures t.alive && t.top == s.top && t.last == s.last + 1 && t.connected == s.connected
    ensures var k := if command.CloseWindow? then Then(Closed, Reply(request)) else Reply(request);
            t.pending == s.pending[s.last + 1 := Handler(DialogState, Then(Guarded(command), k))]
  {
    hide AllShaped;
    t := Step(s, Command(request, command, false));
    var k := if command.CloseWindow? then Then(Closed, Reply(request)) else Reply(request);
    assert Execute(s, command, k) == ExecuteInWindow(s, command, k);
    assert ExecuteInWindow(s, command, k) == HandleUserPrompts(s, Then(Guarded(command), k));
    StepShaped(s, Command(request, command, false));
  }

  lemma Closing(s: State)
    requires !s.crashed && AllShaped(s) && s.top.Some? && 1 in s.pending && 2 in s.pending && s.last == 2
    requires s.pending[2].kind == DialogState && s.pending[2].k == Then(Guarded(CloseWindow), Then(Closed, Reply(2)))
    ensures var t := Step(s, Dispatch(2, NO_DIALOG));
            !t.crashed && t.top == None && 1 in t.pending && t.pending[1] == s.pending[1] && AllShaped(t)
  {
    hide AllShaped;
    var held := s.(pending := s.pending - {2});
    assert Complete(held, Then(Guarded(CloseWindow), Then(Closed, Reply(2))), Success(Null)) == Body(held, CloseWindow, Then(Closed, Reply(2)));
    StepShaped(s, Dispatch(2, NO_DIALOG));
  }

  lemma Overtaken(s: State, command: Command)
    requires !s.crashed && AllShaped(s) && s.top.None? && 1 in s.pending
    requires s.pending[1].kind == DialogState && s.pending[1].k.Then? && s.pending[1].k.frame == Guarded(command)
    ensures Step(s, Dispatch(1, NO_DIALOG)).crashed
  {
    hide Take, AllShaped, Sends, Goes;
    TakeWorks(s, 1, NO_DIALOG);
  }

  lemma FourSteps(s: State, e1: Event, e2: Event, e3: Event, e4: Event)
    requires !s.crashed && !Step(s, e1).crashed && !Step(Step(s, e1), e2).crashed && !Step(Step(Step(s, e1), e2), e3).crashed
    ensures Run(s, [e1, e2, e3, e4]) == Step(Step(Step(Step(s, e1), e2), e3), e4)
  {
    hide Step;
    var events := [e1, e2, e3, e4];
    var s1 := Step(s, e1);
    var s2 := Step(s1, e2);
    var s3 := Step(s2, e3);
    assert Run(s3, events[1..][1..][1..]) == Step(s3, e4);
    assert Run(s2, events[1..][1..]) == Step(s3, e4);
    assert Run(s1, events[1..]) == Step(s3, e4);
  }
}
