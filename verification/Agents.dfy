/**
 The agents of the jsc shell: Worker and Workers (one lock, one condition),
 and the start handshake of agent.start, as a machine whose steps are the
 critical sections. A wait releases the lock and joins the wait set; a notified
 or spuriously woken thread runs its test again in a later step.
 */
module Agents {
  import opened Wrappers

  type Tid = nat

  /** A shared buffer and the index sent with it. */
  datatype Message = Message(buffer: nat, index: int)

  datatype Broadcast = Broadcast(sender: Tid, message: Message)

  // ----- Threads

  datatype Pc =
    | Running                // in script
    | MessageWait            // asleep in Worker::dequeue
    | MessageWoken           // woken there, test not yet repeated
    | ReportWait             // asleep in Workers::getReport
    | ReportWoken
    | StartTest(child: Tid)  // in agent.start, about to test didStart
    | StartWait(child: Tid)  // asleep on didStartCondition
    | Created                // a new thread before its Worker exists
    | Registered             // Worker constructed, starter not yet notified
    | Left                   // Worker destroyed

  /** A thread with its Worker's queue; `received`, `joinedAt` and `leftAt` are history. */
  datatype Thread = Thread(
    pc: Pc,
    queue: seq<Message>,
    received: seq<Message>,  // what dequeue returned
    joinedAt: nat,           // length of the log when the worker registered
    leftAt: nat)             // and when it left
  {
    predicate Listed() {
      pc != Created && pc != Left
    }
  }

  datatype State = State(
    threads: map<Tid, Thread>,
    workers: set<Tid>,                // m_workers
    reports: seq<string>,             // m_reports
    didStart: set<Tid>,               // the flag of each start, by child
    log: seq<Broadcast>,              // history: broadcasts in lock order,
    reported: seq<string>,            // reports made,
    taken: seq<string>,               // reports handed out,
    startedAt: map<(Tid, Tid), nat>)  // length of the log when agent.start returned, by starter and child

  datatype Step =
    | Register(t: Tid)
    | Announce(t: Tid)
    | Leave(t: Tid)
    | Send(t: Tid, message: Message)
    | Dequeue(t: Tid)          // entering dequeue or repeating its test
    | Report(t: Tid, text: string)
    | GetReport(t: Tid)        // entering getReport or repeating its test
    | TryGetReport(t: Tid)
    | Start(t: Tid, child: Tid)
    | TestStarted(t: Tid)
    | Wake(t: Tid)             // a spurious wakeup

  /** The main thread has registered its worker. */
  function Init(main: Tid): (s: State)
  {
    State(map[main := Thread(Running, [], [], 0, 0)], {main}, [], {}, [], [], [], map[])
  }

  // ----- The steps

  /** m_condition.notifyAll(), seen by one thread: both kinds of waiters share the condition. */
  function Notified(pc: Pc): (r: Pc)
  {
    if pc == MessageWait then MessageWoken else if pc == ReportWait then ReportWoken else pc
  }

  /** A queue after a broadcast that does or does not include its worker. */
  function Delivered(queue: seq<Message>, included: bool, message: Message): (r: seq<Message>)
  {
    if included then queue + [message] else queue
  }

  /** Workers::broadcast, seen by one thread. */
  function Reached(s: State, u: Tid, sender: Tid, message: Message): (th: Thread)
    requires u in s.threads
  {
    var th := s.threads[u];
    th.(pc := Notified(th.pc), queue := Delivered(th.queue, u in s.workers && u != sender, message))
  }

  predicate Enabled(s: State, step: Step)
  {
    step.t in s.threads &&
    var pc := s.threads[step.t].pc;
    match step
    case Register(t) => pc == Created
    case Announce(t) => pc == Registered
    case Dequeue(t) => pc == Running || pc == MessageWoken
    case GetReport(t) => pc == Running || pc == ReportWoken
    case Start(t, child) => pc == Running && child !in s.threads
    case TestStarted(t) => pc.StartTest?
    case Wake(t) => pc == MessageWait || pc == ReportWait || pc.StartWait?
    case _ => pc == Running  // Leave, Send, Report, TryGetReport
  }

  function Next(s: State, step: Step): (r: State)
    requires Enabled(s, step)
  {
    var me := s.threads[step.t];
    match step
    case Register(t) =>
      s.(workers := s.workers + {t}, threads := s.threads[t := Thread(Registered, [], [], |s.log|, 0)])
    case Announce(t) =>
      // didStart = true; didStartCondition.notifyOne(): only the starter can be waiting on it.
      s.(didStart := s.didStart + {t},
         threads := map u | u in s.threads ::
           if u == t then me.(pc := Running)
           else if s.threads[u].pc == StartWait(t) then s.threads[u].(pc := StartTest(t))
           else s.threads[u])
    case Leave(t) =>
      s.(workers := s.workers - {t}, threads := s.threads[t := me.(pc := Left, leftAt := |s.log|)])
    case Send(t, message) =>
      s.(threads := map u | u in s.threads :: Reached(s, u, t, message), log := s.log + [Broadcast(t, message)])
    case Dequeue(t) =>
      if me.queue == [] then s.(threads := s.threads[t := me.(pc := MessageWait)])
      else s.(threads := s.threads[t := me.(pc := Running, queue := me.queue[1..], received := me.received + [me.queue[0]])])
    case Report(t, text) =>
      s.(reports := s.reports + [text], reported := s.reported + [text],
         threads := map u | u in s.threads :: s.threads[u].(pc := Notified(s.threads[u].pc)))
    case GetReport(t) =>
      if s.reports == [] then s.(threads := s.threads[t := me.(pc := ReportWait)])
      else s.(threads := s.threads[t := me.(pc := Running)], reports := s.reports[1..], taken := s.taken + [s.reports[0]])
    case TryGetReport(t) =>
      if s.reports == [] then s else s.(reports := s.reports[1..], taken := s.taken + [s.reports[0]])
    case Start(t, child) =>
      s.(threads := s.threads[child := Thread(Created, [], [], 0, 0)][t := me.(pc := StartTest(child))])
    case TestStarted(t) =>
      if me.pc.child in s.didStart
      then s.(threads := s.threads[t := me.(pc := Running)], startedAt := s.startedAt[(t, me.pc.child) := |s.log|])
      else s.(threads := s.threads[t := me.(pc := StartWait(me.pc.child))])
    case Wake(t) =>
      s.(threads := s.threads[t := me.(pc := if me.pc.StartWait? then StartTest(me.pc.child) else Notified(me.pc))])
  }

  /** The state after `steps`, or nothing if one of them was not possible. */
  function Run(s: State, steps: seq<Step>): (r: Option<State>)
    decreases |steps|
  {
    if steps == [] then Some(s)
    else if Enabled(s, steps[0]) then Run(Next(s, steps[0]), steps[1..])
    else None
  }

  // ----- What every step keeps

  /** The messages of the broadcasts `t` did not send itself. */
  function ToReceive(log: seq<Broadcast>, t: Tid): (r: seq<Message>)
  {
    if log == [] then []
    else ToReceive(log[..|log| - 1], t) + if log[|log| - 1].sender == t then [] else [log[|log| - 1].message]
  }

  /** Delivery: what a worker took and what is in its queue is what others broadcast since it joined, up to its leaving, in lock order. */
  ghost predicate Delivery(t: Tid, th: Thread, log: seq<Broadcast>)
  {
    && (th.Listed() ==> th.joinedAt <= |log| && th.received + th.queue == ToReceive(log[th.joinedAt..], t))
    && (th.pc == Left ==> th.joinedAt <= th.leftAt <= |log| && th.received + th.queue == ToReceive(log[th.joinedAt..th.leftAt], t))
  }

  /** Nobody sleeps on a condition that already holds. */
  ghost predicate NotStuck(th: Thread, reports: seq<string>, didStart: set<Tid>)
  {
    && (th.pc == MessageWait ==> th.queue == [])
    && (th.pc == ReportWait ==> reports == [])
    && (th.pc.StartWait? ==> th.pc.child !in didStart)
  }

  ghost predicate ThreadOk(s: State, t: Tid)
    requires t in s.threads
  {
    var th := s.threads[t];
    && (t in s.workers <==> th.Listed())
    && (t in s.didStart ==> th.pc != Created)
    && (th.pc.StartTest? || th.pc.StartWait? ==> th.pc.child != t)
    && Delivery(t, th, s.log)
    && NotStuck(th, s.reports, s.didStart)
  }

  /** agent.start returned only after the child had registered. */
  ghost predicate StartOk(s: State, start: (Tid, Tid))
    requires start in s.startedAt
  {
    start.0 != start.1 && start.1 in s.threads && s.threads[start.1].pc != Created
    && s.threads[start.1].joinedAt <= s.startedAt[start] <= |s.log|
  }

  ghost predicate Inv(s: State)
  {
    && (forall t :: t in s.threads ==> ThreadOk(s, t))
    && (forall t :: t in s.workers || t in s.didStart ==> t in s.threads)
    && (forall k :: k in s.startedAt ==> StartOk(s, k))
    && s.taken + s.reports == s.reported
  }

  lemma InitInv(main: Tid)
    ensures Inv(Init(main))
  {
  }

  /** One more broadcast is due to everyone but its sender. */
  lemma ToReceiveSnoc(log: seq<Broadcast>, b: Broadcast, from: nat, t: Tid)
    requires from <= |log|
    ensures ToReceive((log + [b])[from..], t) == ToReceive(log[from..], t) + if b.sender == t then [] else [b.message]
  {
    var more := (log + [b])[from..];
    assert more[..|more| - 1] == log[from..] && more[|more| - 1] == b;
  }

  lemma SendKeepsThread(s: State, t: Tid, message: Message, u: Tid)
    requires Inv(s) && Enabled(s, Send(t, message)) && u in s.threads
    ensures ThreadOk(Next(s, Send(t, message)), u)
  {
    assert ThreadOk(s, u) && ThreadOk(s, t);
    var r := Next(s, Send(t, message));
    var th := s.threads[u];
    if th.Listed() {
      ToReceiveSnoc(s.log, Broadcast(t, message), th.joinedAt, u);
    } else if th.pc == Left {
      assert r.log[th.joinedAt..th.leftAt] == s.log[th.joinedAt..th.leftAt];
    }
  }

  lemma DequeueKeepsThread(s: State, t: Tid, u: Tid)
    requires Inv(s) && Enabled(s, Dequeue(t)) && u in s.threads
    ensures ThreadOk(Next(s, Dequeue(t)), u)
  {
    assert ThreadOk(s, u) && ThreadOk(s, t);
    var q := s.threads[t].queue;
    if q != [] {
      assert s.threads[t].received + q == (s.threads[t].received + [q[0]]) + q[1..];
    }
  }

  lemma LeaveKeepsThread(s: State, t: Tid, u: Tid)
    requires Inv(s) && Enabled(s, Leave(t)) && u in s.threads
    ensures ThreadOk(Next(s, Leave(t)), u)
  {
    assert ThreadOk(s, u) && ThreadOk(s, t);
    var th := s.threads[t];
    assert s.log[th.joinedAt..] == s.log[th.joinedAt..|s.log|];
  }

  lemma RegisterKeepsThread(s: State, t: Tid, u: Tid)
    requires Inv(s) && Enabled(s, Register(t)) && u in s.threads
    ensures ThreadOk(Next(s, Register(t)), u)
  {
    assert ThreadOk(s, u) && ThreadOk(s, t);
    assert s.log[|s.log|..] == [];
  }

  lemma ReportsKeepThread(s: State, step: Step, u: Tid)
    requires Inv(s) && Enabled(s, step) && u in s.threads
    requires step.Report? || step.GetReport? || step.TryGetReport?
    ensures ThreadOk(Next(s, step), u)
  {
    assert ThreadOk(s, u) && ThreadOk(s, step.t);
  }

  lemma AnnounceKeepsThread(s: State, t: Tid, u: Tid)
    requires Inv(s) && Enabled(s, Announce(t)) && u in s.threads
    ensures ThreadOk(Next(s, Announce(t)), u)
  {
    assert ThreadOk(s, u) && ThreadOk(s, t);
  }

  lemma StartKeepsThread(s: State, step: Step, u: Tid)
    requires Inv(s) && Enabled(s, step) && u in Next(s, step).threads
    requires step.Start? || step.TestStarted? || step.Wake?
    ensures ThreadOk(Next(s, step), u)
  {
    assert ThreadOk(s, step.t);
    if u in s.threads {
      assert ThreadOk(s, u);
    }
  }

  lemma StepKeepsThread(s: State, step: Step, u: Tid)
    requires Inv(s) && Enabled(s, step) && u in Next(s, step).threads
    ensures ThreadOk(Next(s, step), u)
  {
    match step {
      case Send(t, message) => SendKeepsThread(s, t, message, u);
      case Dequeue(t) => DequeueKeepsThread(s, t, u);
      case Leave(t) => LeaveKeepsThread(s, t, u);
      case Register(t) => RegisterKeepsThread(s, t, u);
      case Announce(t) => AnnounceKeepsThread(s, t, u);
      case Report(_, _) => ReportsKeepThread(s, step, u);
      case GetReport(_) => ReportsKeepThread(s, step, u);
      case TryGetReport(_) => ReportsKeepThread(s, step, u);
      case _ => StartKeepsThread(s, step, u);
    }
  }

  /** A registered thread stays known, with the place it joined at. */
  lemma ThreadPersists(s: State, step: Step, u: Tid)
    requires Enabled(s, step) && u in s.threads && s.threads[u].pc != Created
    ensures var r := Next(s, step);
            u in r.threads && r.threads[u].pc != Created && r.threads[u].joinedAt == s.threads[u].joinedAt && |s.log| <= |r.log|
  {
  }

  /** A start is recorded when its test succeeds, at the length of the log. */
  lemma RecordedStart(s: State, step: Step, k: (Tid, Tid))
    requires Enabled(s, step) && k in Next(s, step).startedAt
    ensures (k in s.startedAt && Next(s, step).startedAt[k] == s.startedAt[k])
            || (k.0 == step.t && k.1 in s.didStart && Next(s, step).startedAt[k] == |s.log| && s.threads[step.t].pc == StartTest(k.1))
  {
  }

  lemma StepKeepsStart(s: State, step: Step, k: (Tid, Tid))
    requires Inv(s) && Enabled(s, step)
    ensures k in Next(s, step).startedAt ==> StartOk(Next(s, step), k)
  {
    hide Next, NotStuck, Enabled;
    if k in Next(s, step).startedAt {
      RecordedStart(s, step, k);
      assert k in s.startedAt ==> StartOk(s, k);
      assert k.1 in s.didStart ==> ThreadOk(s, k.1);
      assert step.t in s.threads ==> ThreadOk(s, step.t);
      ThreadPersists(s, step, k.1);
    }
  }

  lemma StepKeepsReports(s: State, step: Step)
    requires Inv(s) && Enabled(s, step)
    ensures var r := Next(s, step); r.taken + r.reports == r.reported
  {
    hide ThreadOk, StartOk;
    if s.reports != [] {
      assert s.taken + s.reports == (s.taken + [s.reports[0]]) + s.reports[1..];
    }
  }

  lemma StepKeepsMembers(s: State, step: Step)
    requires Inv(s) && Enabled(s, step)
    ensures var r := Next(s, step); forall t :: t in r.workers || t in r.didStart ==> t in r.threads
  {
    hide ThreadOk, StartOk;
  }

  lemma StepKeepsInv(s: State, step: Step)
    requires Inv(s) && Enabled(s, step)
    ensures Inv(Next(s, step))
  {
    hide Next, ThreadOk, StartOk, Enabled;
    var r := Next(s, step);
    forall u | u in r.threads ensures ThreadOk(r, u) { StepKeepsThread(s, step, u); }
    forall k | k in r.startedAt ensures StartOk(r, k) { StepKeepsStart(s, step, k); }
    StepKeepsReports(s, step);
    StepKeepsMembers(s, step);
  }

  /** Every run, of any number of threads and in any interleaving, keeps the invariant. */
  lemma {:induction false} RunKeepsInv(s: State, steps: seq<Step>)
    requires Inv(s) && Run(s, steps).Some?
    ensures Inv(Run(s, steps).value)
    decreases |steps|
  {
    if steps != [] {
      StepKeepsInv(s, steps[0]);
      RunKeepsInv(Next(s, steps[0]), steps[1..]);
    }
  }

  lemma {:induction false} RunSnoc(s: State, steps: seq<Step>, step: Step)
    requires Run(s, steps).Some? && Enabled(Run(s, steps).value, step)
    ensures Run(s, steps + [step]) == Some(Next(Run(s, steps).value, step))
    decreases |steps|
  {
    hide Next, Enabled;
    if steps == [] {
      assert [step][1..] == [];
      assert Run(Next(s, step), []) == Some(Next(s, step));
    } else {
      assert (steps + [step])[1..] == steps[1..] + [step];
      RunSnoc(Next(s, steps[0]), steps[1..], step);
    }
  }

  // ----- What the invariant means for a script

  /** The broadcast at `i` sits in what is due at the place the earlier ones leave it. */
  lemma {:induction false} ToReceiveAt(log: seq<Broadcast>, i: nat, t: Tid)
    requires i < |log| && log[i].sender != t
    ensures var n := |ToReceive(log[..i], t)|; n < |ToReceive(log, t)| && ToReceive(log, t)[n] == log[i].message
  {
    var init := log[..|log| - 1];
    if i < |init| {
      ToReceiveAt(init, i, t);
      assert init[..i] == log[..i];
    }
  }

  /** A thread asleep in dequeue has been handed everything other threads ever broadcast to it. */
  lemma SleeperHasEverything(main: Tid, steps: seq<Step>, t: Tid)
    requires Run(Init(main), steps).Some?
    requires var s := Run(Init(main), steps).value; t in s.threads && s.threads[t].pc == MessageWait
    ensures var s := Run(Init(main), steps).value;
            s.threads[t].joinedAt <= |s.log| && s.threads[t].received == ToReceive(s.log[s.threads[t].joinedAt..], t)
  {
    InitInv(main);
    RunKeepsInv(Init(main), steps);
    var s := Run(Init(main), steps).value;
    assert ThreadOk(s, t);
  }

  lemma ToReceiveWithin(log: seq<Broadcast>, from: nat, i: nat, end: nat, t: Tid)
    requires from <= i < end <= |log| && log[i].sender != t
    ensures var n := |ToReceive(log[from..i], t)|;
            n < |ToReceive(log[from..end], t)| && ToReceive(log[from..end], t)[n] == log[i].message
  {
    var part := log[from..end];
    assert part[..i - from] == log[from..i];
    ToReceiveAt(part, i - from, t);
  }

  /** All that was ever put in the queue of `th`, taken out or not. */
  function Inbox(th: Thread): (r: seq<Message>)
  {
    th.received + th.queue
  }

  /** The broadcast at `i` is in the inbox of `t`, behind exactly the earlier ones due to `t`, or `t` had left before it. */
  ghost predicate Hears(s: State, t: Tid, i: nat)
    requires i < |s.log|
  {
    t in s.threads && s.threads[t].joinedAt <= i &&
    var th := s.threads[t];
    var n := |ToReceive(s.log[th.joinedAt..i], t)|;
    (th.pc == Left && th.leftAt <= i)
    || (n < |Inbox(th)| && Inbox(th)[n] == s.log[i].message)
  }

  lemma JoinedHears(s: State, t: Tid, i: nat)
    requires Inv(s) && t in s.threads && s.threads[t].pc != Created && s.threads[t].joinedAt <= i < |s.log| && s.log[i].sender != t
    ensures Hears(s, t, i)
  {
    assert ThreadOk(s, t);
    var th := s.threads[t];
    if th.pc != Left {
      assert s.log[th.joinedAt..|s.log|] == s.log[th.joinedAt..];
      ToReceiveWithin(s.log, th.joinedAt, i, |s.log|, t);
    } else if i < th.leftAt {
      ToReceiveWithin(s.log, th.joinedAt, i, th.leftAt, t);
    }
  }

  /**
   Once agent.start has returned, every later broadcast of the starter reaches
   the queue of the child, at its place in lock order, unless the child had left by then.
   */
  lemma StartedChildHears(main: Tid, steps: seq<Step>, starter: Tid, child: Tid, i: nat)
    requires Run(Init(main), steps).Some?
    requires var s := Run(Init(main), steps).value;
             (starter, child) in s.startedAt && s.startedAt[(starter, child)] <= i < |s.log| && s.log[i].sender == starter
    ensures Hears(Run(Init(main), steps).value, child, i)
  {
    InitInv(main);
    RunKeepsInv(Init(main), steps);
    var s := Run(Init(main), steps).value;
    assert StartOk(s, (starter, child));
    JoinedHears(s, child, i);
  }
}
