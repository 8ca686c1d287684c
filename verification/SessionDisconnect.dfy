/** Exactly which requests a lost browser leaves unanswered, and when losing it crashes the program. */
module SessionDisconnect {
  import opened Wrappers
  import opened Json
  import opened Session
  import opened SessionLedger
  import opened SessionSteps

  /** A failure does not end this while a window is set: it still closes the alert it wants to report, or presses the mouse. */
  predicate Insists(k: Completion)
  {
    k.Then? && (k.frame.ThenDismiss? || k.frame.ThenAccept? || k.frame.TagName? || Insists(k.next))
  }

  /** A failure reads the window that is not set. */
  ghost predicate Dies(s: State, k: Completion)
  {
    s.top.None? && Presses(k)
  }

  /** What a failure handed to `k` comes to: a crash, one more message, or the answer. */
  ghost predicate Settles(s: State, t: State, k: Completion)
  {
    if Dies(s, k) then t.crashed
    else
      && !t.crashed && t.top == s.top && t.connected == s.connected
      && if s.top.Some? && Insists(k) then Forwarded(s, t, Owner(k)) else Answered(s, t, Owner(k))
  }

  /** Closing windows ends once the browser is gone. */
  lemma {:induction false} TailEnds(s: State, k: Completion, r: Result)
    requires !s.crashed && !s.connected && Tail(k) && (r.Fail? || FirstHandle(r.value).None?)
    ensures !Insists(k) && !Presses(k) && Settles(s, Complete(s, k, r), k)
    decreases k
  {
    if k.Then? {
      match k.frame {
        case Connected => TailEnds(s, k.next, Success(Array([])));
        case CloseAll =>
          TailEnds(s, k.next, r);
          TailEnds(s, k.next, Success(Null));
        case Closed =>
          TailEnds(s, k.next, r);
          TailEnds(s.(alive := false), k.next, r);
      }
    }
  }

  lemma {:induction false} FailureEnds(s: State, k: Completion, r: Result)
    requires !s.crashed && !s.connected && Shaped(k) && r.Fail?
    ensures Settles(s, Complete(s, k, r), k)
    decreases k
  {
    hide Execute, Body, WaitForNavigation, Settles;
    if Tail(k) {
      TailEnds(s, k, r);
    } else {
      var next := k.next;
      if Reports(k) {
        FailureEnds(s, next, Fail(NoSuchWindow));
        ReportEnds(s, k, r);
      } else if k.frame.TagName? {
        TagEnds(s, k, r);
      } else {
        FailureEnds(s, next, if k.frame.ReportAlert? then Fail(UnexpectedAlertOpen) else r);
        PassedEnds(s, k, Complete(s, k, r));
      }
    }
  }

  /** Frames that hand a failure on. */
  lemma PassedEnds(s: State, k: Completion, t: State)
    requires k.Then? && !Reports(k) && !k.frame.TagName? && Settles(s, t, k.next)
    ensures Settles(s, t, k)
  {
  }

  lemma ReportEnds(s: State, k: Completion, r: Result)
    requires !s.crashed && !s.connected && Reports(k) && r.Fail? && Settles(s, Complete(s, k.next, Fail(NoSuchWindow)), k.next)
    ensures Settles(s, Complete(s, k, r), k)
  {
    hide Complete, Answered;
    var m := if k.frame.ThenDismiss? then "dismissCurrentJavaScriptDialog" else "acceptCurrentJavaScriptDialog";
    ReportCloses(s, k, r, m);
    assert Owner(Then(Notified(r), k.next)) == Owner(k);
  }

  /** Reporting an alert closes the dialog first, or fails for want of a window. */
  lemma ReportCloses(s: State, k: Completion, r: Result, m: string)
    requires Reports(k) && r.Fail? && m == if k.frame.ThenDismiss? then "dismissCurrentJavaScriptDialog" else "acceptCurrentJavaScriptDialog"
    ensures Complete(s, k, r) == CloseDialog(s, m, Then(Notified(r), k.next))
    ensures Complete(s, Then(Notified(r), k.next), Fail(NoSuchWindow)) == Complete(s, k.next, Fail(NoSuchWindow))
  {
    hide Execute, Body, WaitForNavigation, CloseDialog, Send, SendInWindow;
  }

  lemma TagEnds(s: State, k: Completion, r: Result)
    requires !s.crashed && !s.connected && k.Then? && k.frame.TagName? && r.Fail?
    ensures Settles(s, Complete(s, k, r), k)
  {
    hide Execute, Body, WaitForNavigation, CloseDialog;
  }

  lemma HandlerEnds(s: State, h: Handler)
    requires !s.crashed && !s.connected && ShapedHandler(h)
    ensures Settles(s, RunHandler(s, h, DISCONNECTED), h.k)
  {
    hide Complete, Settles;
    FailureEnds(s, h.k, Fail(UnknownError));
    if h.kind.ContextClosed? {
      TailEnds(s, h.k, Success(Array([])));
    }
  }

  /** Answers are never taken back, and nobody else pending has been touched. */
  ghost predicate Follows(s: State, f: State, left: set<nat>)
  {
    && |s.replies| <= |f.replies| && f.replies[..|s.replies|] == s.replies
    && forall id :: id in left ==> id in s.pending && id in f.pending && f.pending[id] == s.pending[id]
  }

  lemma AnsweredStays(s: State, f: State, left: set<nat>, request: Request)
    requires Follows(s, f, left) && Replied(s, request)
    ensures Replied(f, request)
  {
    var i :| 0 <= i < |s.replies| && s.replies[i].request == request;
    assert f.replies[i] == s.replies[i];
  }

  /** The handler keeps its request pending. */
  ghost predicate Keeps(s: State, k: Completion)
  {
    s.top.Some? && Insists(k)
  }

  /** One handler called, the others untouched. */
  lemma TakeEnds(s: State, accepted: set<Request>, id: nat)
    requires !s.crashed && !s.connected && AllShaped(s) && Ledger(s, accepted) && id in s.pending
    ensures var t := Take(s, id, DISCONNECTED);
            var request := Owner(s.pending[id].k);
            && (t.crashed <==> Dies(s, s.pending[id].k))
            && (!t.crashed ==>
                  && t.top == s.top && !t.connected && AllShaped(t) && Ledger(t, accepted)
                  && Follows(s, t, s.pending.Keys - {id})
                  && (if Keeps(s, s.pending[id].k) then t.last == s.last + 1 && t.last in t.pending && Owner(t.pending[t.last].k) == request
                      else Replied(t, request)))
  {
    hide RunHandler, Ledger, AllShaped, StarvedBy;
    var held := s.(pending := s.pending - {id});
    assert ShapedHandler(s.pending[id]) by { ShapedAt(s, id); }
    HandlerEnds(held, s.pending[id]);
    TakeWorks(s, id, DISCONNECTED);
    var t := Take(s, id, DISCONNECTED);
    if !t.crashed {
      TakeKeepsLedger(s, accepted, id, DISCONNECTED);
      if !Keeps(s, s.pending[id].k) {
        assert t.replies[|s.replies|].request == Owner(s.pending[id].k);
      }
    }
  }

  lemma ShapedAt(s: State, id: nat)
    requires AllShaped(s) && id in s.pending
    ensures ShapedHandler(s.pending[id])
  {
  }

  lemma LedgerFacts(s: State, accepted: set<Request>, id: nat)
    requires Ledger(s, accepted) && id in s.pending
    ensures id <= s.last && !Replied(s, Owner(s.pending[id].k))
  {
  }

  /** One of the listed handlers dies. */
  ghost predicate SomeDies(s: State, order: seq<nat>)
  {
    exists i :: 0 <= i < |order| && order[i] in s.pending && Dies(s, s.pending[order[i]].k)
  }

  /** The listed requests are told apart by whether their handlers keep them. */
  ghost predicate Told(s: State, f: State, order: seq<nat>)
  {
    forall i :: 0 <= i < |order| && order[i] in s.pending ==>
      (Replied(f, Owner(s.pending[order[i]].k)) <==> !Keeps(s, s.pending[order[i]].k))
  }

  lemma {:induction false} FlushEnds(s: State, accepted: set<Request>, order: seq<nat>)
    requires !s.crashed && !s.connected && AllShaped(s) && Ledger(s, accepted)
    requires SessionLedger.Distinct(order) && forall i :: 0 <= i < |order| ==> order[i] in s.pending
    ensures Flush(s, order).crashed <==> SomeDies(s, order)
    ensures !Flush(s, order).crashed ==> Follows(s, Flush(s, order), s.pending.Keys - set id | id in order) && Told(s, Flush(s, order), order)
    decreases |order|
  {
    hide Ledger, AllShaped, Take, Insists, Presses;
    if order != [] {
      var id, rest := order[0], order[1..];
      TakeEnds(s, accepted, id);
      var t := Take(s, id, DISCONNECTED);
      FlushCrashed(t, rest);
      if !t.crashed {
        forall i | 0 <= i < |rest| ensures rest[i] in t.pending && t.pending[rest[i]] == s.pending[rest[i]] {
          assert rest[i] == order[i + 1] && order[i + 1] != order[0];
        }
        FlushEnds(t, accepted, rest);
        DiesAlike(s, t, order);
        if !Flush(t, rest).crashed {
          FirstTold(s, accepted, order, t, Flush(s, order));
          RestTold(s, order, t, Flush(s, order));
        }
      }
    }
  }

  lemma DiesAlike(s: State, t: State, order: seq<nat>)
    requires order != [] && order[0] in s.pending && !Dies(s, s.pending[order[0]].k) && t.top == s.top
    requires forall i :: 0 <= i < |order[1..]| ==> order[1..][i] in t.pending && order[1..][i] in s.pending && t.pending[order[1..][i]] == s.pending[order[1..][i]]
    ensures SomeDies(s, order) <==> SomeDies(t, order[1..])
  {
    hide Presses;
    if SomeDies(t, order[1..]) {
      var i :| 0 <= i < |order[1..]| && order[1..][i] in t.pending && Dies(t, t.pending[order[1..][i]].k);
      assert order[i + 1] == order[1..][i];
    }
    if SomeDies(s, order) {
      var i :| 0 <= i < |order| && order[i] in s.pending && Dies(s, s.pending[order[i]].k);
      assert order[1..][i - 1] == order[i];
    }
  }

  lemma RestTold(s: State, order: seq<nat>, t: State, f: State)
    requires order != [] && order[0] in s.pending && t.top == s.top && Told(t, f, order[1..])
    requires forall i :: 0 <= i < |order[1..]| ==> order[1..][i] in t.pending && order[1..][i] in s.pending && t.pending[order[1..][i]] == s.pending[order[1..][i]]
    requires Replied(f, Owner(s.pending[order[0]].k)) <==> !Keeps(s, s.pending[order[0]].k)
    ensures Told(s, f, order)
  {
    hide Insists, Replied;
    forall i | 0 <= i < |order| && order[i] in s.pending
      ensures Replied(f, Owner(s.pending[order[i]].k)) <==> !Keeps(s, s.pending[order[i]].k)
    {
      if i > 0 {
        assert order[1..][i - 1] == order[i];
      }
    }
  }

  /** The first handler's request: answered now and for good, or pending under a number the flush does not list. */
  lemma FirstTold(s: State, accepted: set<Request>, order: seq<nat>, t: State, f: State)
    requires Ledger(s, accepted) && Ledger(t, accepted) && order != [] && order[0] in s.pending && !f.crashed
    requires forall i :: 0 <= i < |order| ==> order[i] in s.pending
    requires Follows(t, f, t.pending.Keys - set id | id in order[1..]) && f == Flush(t, order[1..])
    requires SessionLedger.Distinct(order[1..]) && forall i :: 0 <= i < |order[1..]| ==> order[1..][i] in t.pending
    requires var request := Owner(s.pending[order[0]].k);
             if Keeps(s, s.pending[order[0]].k) then t.last == s.last + 1 && t.last in t.pending && Owner(t.pending[t.last].k) == request
             else Replied(t, request)
    ensures Replied(f, Owner(s.pending[order[0]].k)) <==> !Keeps(s, s.pending[order[0]].k)
  {
    hide Flush, Keeps, Ledger, Replied;
    var rest := order[1..];
    var left := t.pending.Keys - set id | id in rest;
    if Keeps(s, s.pending[order[0]].k) {
      FlushKeepsLedger(t, accepted, rest);
      forall i | 0 <= i < |rest| ensures rest[i] <= s.last {
        LedgerFacts(s, accepted, order[i + 1]);
      }
      assert t.last in left;
      LedgerFacts(f, accepted, t.last);
    } else {
      AnsweredStays(t, f, left, Owner(s.pending[order[0]].k));
    }
  }

  /**
   When the browser goes away the program crashes exactly when no window is set
   and a click is still to press the mouse. Otherwise a pending request is
   answered exactly when no window is set or its handler does not insist on one
   more message; the others stay pending.
   */
  lemma DisconnectAnswers(s: State, accepted: set<Request>, order: seq<nat>)
    requires !s.crashed && AllShaped(s) && Ledger(s, accepted) && Possible(s, accepted, Disconnect(order))
    ensures var f := Step(s, Disconnect(order));
            && (f.crashed <==> s.top.None? && exists id :: id in s.pending && Presses(s.pending[id].k))
            && (!f.crashed ==>
                  Ledger(f, accepted) &&
                  forall id :: id in s.pending ==> (Replied(f, Owner(s.pending[id].k)) <==> s.top.None? || !Insists(s.pending[id].k)))
  {
    hide Ledger, AllShaped, Insists, Flush, Presses;
    var off := s.(connected := false);
    BrowserOnly(s, off, accepted);
    assert AllShaped(off) by { ShapedSame(s, off); }
    assert forall i :: 0 <= i < |order| ==> order[i] in order;
    FlushEnds(off, accepted, order);
    forall id | id in s.pending
      ensures exists i :: 0 <= i < |order| && order[i] == id
    {
      assert id in order;
    }
    if !Flush(off, order).crashed {
      FlushKeepsLedger(off, accepted, order);
      forall id | id in s.pending
        ensures Replied(Flush(off, order), Owner(s.pending[id].k)) <==> s.top.None? || !Insists(s.pending[id].k)
      {
        var i :| 0 <= i < |order| && order[i] == id;
      }
    }
  }

  lemma ShapedSame(s: State, t: State)
    requires AllShaped(s) && t.pending == s.pending
    ensures AllShaped(t)
  {
  }

  /** The same at the end of any run of a new session, whatever the browser says and however commands overlap. */
  lemma DisconnectAfterRun(window: Handle, behavior: PromptBehavior, events: seq<Event>, order: seq<nat>)
    requires Plausible(Fresh(window, behavior), {}, events)
    requires var s := Run(Fresh(window, behavior), events); !s.crashed && Possible(s, AllAccepted({}, events), Disconnect(order))
    ensures var s := Run(Fresh(window, behavior), events);
            var f := Step(s, Disconnect(order));
            && (f.crashed <==> s.top.None? && exists id :: id in s.pending && Presses(s.pending[id].k))
            && (!f.crashed ==>
                  forall id :: id in s.pending ==> (Replied(f, Owner(s.pending[id].k)) <==> s.top.None? || !Insists(s.pending[id].k)))
  {
    hide Step, Insists, Presses, Run;
    var s0 := Fresh(window, behavior);
    FreshKeepsLedger(window, behavior, events);
    assert AllShaped(s0);
    RunShaped(s0, events);
    DisconnectAnswers(Run(s0, events), AllAccepted({}, events), order);
  }
}
