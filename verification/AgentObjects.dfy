/**
 The objects of the jsc shell's agents: the list of workers with their queues,
 and the reports. Every method is one critical section and performs the
 matching step, so the objects run through states of the machine only.
 */
module AgentObjects {
  import opened Wrappers
  import opened Agents

  class Worker {
    var messages: seq<Message>
    ghost const tid: Tid

    constructor (ghost tid: Tid)
      ensures messages == [] && this.tid == tid
    {
      messages := [];
      this.tid := tid;
    }
  }

  function Without<T>(s: seq<T>, i: nat): (r: seq<T>)
    requires i < |s|
  {
    s[..i] + s[i + 1..]
  }

  lemma WithoutAt<T>(s: seq<T>, i: nat)
    requires i < |s|
    ensures |Without(s, i)| == |s| - 1
    ensures forall j :: 0 <= j < |s| - 1 ==> Without(s, i)[j] == if j < i then s[j] else s[j + 1]
  {
  }

  lemma LeaveChanges(s: State, t: Tid)
    requires Enabled(s, Leave(t))
    ensures var r := Next(s, Leave(t));
            && r.workers == s.workers - {t} && r.reports == s.reports
            && forall u :: u in s.threads && u != t ==> u in r.threads && r.threads[u].queue == s.threads[u].queue
  {
  }

  lemma SendChanges(s: State, t: Tid, message: Message)
    requires Enabled(s, Send(t, message))
    ensures var r := Next(s, Send(t, message));
            && r.workers == s.workers && r.reports == s.reports
            && forall u :: u in s.threads && u in s.workers ==>
                 u in r.threads && r.threads[u].queue == Delivered(s.threads[u].queue, u != t, message)
  {
  }

  class Workers {
    var workers: seq<Worker>
    var reports: seq<string>
    /** The run so far and the state it has come to. */
    ghost var main: Tid
    ghost var steps: seq<Step>
    ghost var state: State

    /** The objects show the state: who is listed, what is queued for them, and the reports. */
    ghost predicate Shows(s: State)
      reads this, workers
    {
      Lists(workers, s) && reports == s.reports
    }

    static ghost predicate Lists(workers: seq<Worker>, s: State)
      reads workers
    {
      && (forall i, j :: 0 <= i < j < |workers| ==> workers[i].tid != workers[j].tid)
      && (forall i :: 0 <= i < |workers| ==>
            workers[i].tid in s.workers && workers[i].tid in s.threads && workers[i].messages == s.threads[workers[i].tid].queue)
      && (forall t :: t in s.workers ==> exists i :: 0 <= i < |workers| && workers[i].tid == t)
    }

    static lemma Unlinked(all: seq<Worker>, i: nat, s: State, r: State)
      requires Lists(all, s) && i < |all| && r.workers == s.workers - {all[i].tid}
      requires forall u :: u in s.threads && u != all[i].tid ==> u in r.threads && r.threads[u].queue == s.threads[u].queue
      ensures Lists(Without(all, i), r)
      ensures forall w :: w in Without(all, i) <==> w in all && w != all[i]
    {
      WithoutAt(all, i);
      hide Without;
      var rest := Without(all, i);
      forall t | t in r.workers ensures exists j :: 0 <= j < |rest| && rest[j].tid == t {
        var j :| 0 <= j < |all| && all[j].tid == t;
        assert rest[if j < i then j else j - 1] == all[j];
      }
      forall w | w in all && w != all[i] ensures w in rest {
        var j :| 0 <= j < |all| && all[j] == w;
        assert rest[if j < i then j else j - 1] == w;
      }
    }

    ghost predicate Valid()
      reads this, workers
    {
      Run(Init(main), steps) == Some(state) && Shows(state)
    }

    /** The list with the worker of the main thread. */
    constructor (worker: Worker)
      requires worker.messages == []
      ensures Valid() && main == worker.tid && steps == [] && workers == [worker]
    {
      workers, reports := [worker], [];
      main, steps, state := worker.tid, [], Init(worker.tid);
      new;
      assert workers[0].tid == main;
    }

    /** What the run has come to is an invariant state. */
    lemma Reached()
      requires Valid()
      ensures Inv(state)
    {
      InitInv(main);
      RunKeepsInv(Init(main), steps);
    }

    ghost method Record(step: Step)
      requires Run(Init(main), steps) == Some(state) && Enabled(state, step)
      modifies this`steps, this`state
      ensures steps == old(steps) + [step] && state == Next(old(state), step) && Run(Init(main), steps) == Some(state)
    {
      RunSnoc(Init(main), steps, step);
      steps, state := steps + [step], Next(state, step);
    }

    /** A new Worker puts itself at the end of the list. */
    method Append(worker: Worker)
      requires Valid() && worker.messages == [] && Enabled(state, Register(worker.tid))
      modifies this
      ensures Valid() && main == old(main) && steps == old(steps) + [Register(worker.tid)] && workers == old(workers) + [worker]
    {
      Reached();
      assert ThreadOk(state, worker.tid);
      ghost var before := state;
      Record(Register(worker.tid));
      workers := workers + [worker];
      forall t | t in state.workers ensures exists i :: 0 <= i < |workers| && workers[i].tid == t {
        if t in before.workers {
          var i :| 0 <= i < |old(workers)| && old(workers)[i].tid == t;
          assert workers[i].tid == t;
        } else {
          assert workers[|workers| - 1].tid == t;
        }
      }
    }

    /** A Worker that goes unlinks itself; RELEASE_ASSERT(isOnList()) is the precondition. */
    method Remove(worker: Worker)
      requires Valid() && worker in workers && Enabled(state, Leave(worker.tid))
      modifies this
      ensures Valid() && main == old(main) && steps == old(steps) + [Leave(worker.tid)]
      ensures forall w :: w in workers <==> w in old(workers) && w != worker
      ensures exists i: nat :: i < |old(workers)| && old(workers)[i] == worker && workers == Without(old(workers), i)
    {
      hide Next, Enabled, Run, Lists;
      var i := 0;
      while workers[i] != worker
        invariant i < |workers| && worker !in workers[..i]
        decreases |workers| - i
      {
        i := i + 1;
      }
      LeaveChanges(state, worker.tid);
      Unlinked(workers, i, state, Next(state, Leave(worker.tid)));
      Record(Leave(worker.tid));
      workers := Without(workers, i);
    }

    /** Walks the list and enqueues in every worker but the current one. */
    method Broadcast(current: Worker, message: Message)
      requires Valid() && current in workers && Enabled(state, Send(current.tid, message))
      modifies this`steps, this`state, workers
      ensures Valid() && steps == old(steps) + [Send(current.tid, message)]
    {
      hide Next, Enabled, Run;
      EnqueueAll(workers, current, message);
      SendChanges(state, current.tid, message);
      Record(Send(current.tid, message));
    }

    static method EnqueueAll(workers: seq<Worker>, current: Worker, message: Message)
      requires forall i, j :: 0 <= i < j < |workers| ==> workers[i] != workers[j]
      modifies workers
      ensures forall i :: 0 <= i < |workers| ==> workers[i].messages == Delivered(old(workers[i].messages), workers[i] != current, message)
    {
      var i := 0;
      while i < |workers|
        invariant i <= |workers|
        invariant forall j :: 0 <= j < |workers| ==>
          workers[j].messages == Delivered(old(workers[j].messages), j < i && workers[j] != current, message)
      {
        if workers[i] != current {
          workers[i].messages := workers[i].messages + [message];
        }
        i := i + 1;
      }
    }

    /** One test of the loop in Worker::dequeue: the oldest message, or asleep with nothing to take. */
    method Dequeue(worker: Worker) returns (message: Option<Message>)
      requires Valid() && worker in workers && Enabled(state, Step.Dequeue(worker.tid))
      modifies this`steps, this`state, worker
      ensures Valid() && steps == old(steps) + [Step.Dequeue(worker.tid)]
      ensures worker.tid in state.threads && (message.None? <==> state.threads[worker.tid].pc == MessageWait)
      ensures message.Some? ==> state.threads[worker.tid].received == old(state.threads[worker.tid].received) + [message.value]
    {
      hide Run;
      Record(Step.Dequeue(worker.tid));
      if worker.messages == [] {
        message := None;
      } else {
        message := Some(worker.messages[0]);
        worker.messages := worker.messages[1..];
      }
    }

    method Report(ghost t: Tid, text: string)
      requires Valid() && Enabled(state, Step.Report(t, text))
      modifies this
      ensures Valid() && main == old(main) && workers == old(workers) && steps == old(steps) + [Step.Report(t, text)]
    {
      Record(Step.Report(t, text));
      reports := reports + [text];
    }

    method TryGetReport(ghost t: Tid) returns (text: Option<string>)
      requires Valid() && Enabled(state, Step.TryGetReport(t))
      modifies this
      ensures Valid() && main == old(main) && workers == old(workers) && steps == old(steps) + [Step.TryGetReport(t)]
      ensures state.taken == old(state.taken) + if text.Some? then [text.value] else []
    {
      Record(Step.TryGetReport(t));
      if reports == [] {
        return None;
      }
      text := Some(reports[0]);
      reports := reports[1..];
    }

    /** One test of the loop in getReport: the oldest report, or asleep with none there. */
    method GetReport(ghost t: Tid) returns (text: Option<string>)
      requires Valid() && Enabled(state, Step.GetReport(t))
      modifies this
      ensures Valid() && main == old(main) && workers == old(workers) && steps == old(steps) + [Step.GetReport(t)]
      ensures state.taken == old(state.taken) + if text.Some? then [text.value] else []
      ensures t in state.threads && (text.None? <==> state.threads[t].pc == ReportWait)
    {
      Record(Step.GetReport(t));
      if reports == [] {
        return None;
      }
      text := Some(reports[0]);
      reports := reports[1..];
    }

    /** The start handshake and wake-ups happen outside these objects. */
    ghost method Elsewhere(step: Step)
      requires Valid() && Enabled(state, step) && (step.Start? || step.Announce? || step.TestStarted? || step.Wake?)
      modifies this`steps, this`state
      ensures Valid() && steps == old(steps) + [step]
    {
      hide Run;
      Record(step);
    }

    /** Every step the machine can take is performed by one of these sections, called by the thread whose Worker is given. */
    method Perform(step: Step, worker: Worker)
      requires Valid() && Enabled(state, step) && worker.tid == step.t
      requires if step.t in state.workers then worker in workers else worker.messages == []
      modifies this, workers
      ensures Valid() && main == old(main) && steps == old(steps) + [step]
    {
      hide Next, Run, Shows;
      OnList(step);
      match step {
        case Register(_) => Append(worker);
        case Leave(_) => Remove(worker);
        case Send(_, message) => Broadcast(worker, message);
        case Dequeue(_) => var _ := Dequeue(worker);
        case Report(t, text) => Report(t, text);
        case GetReport(t) => var _ := GetReport(t);
        case TryGetReport(t) => var _ := TryGetReport(t);
        case _ => Elsewhere(step);
      }
    }

    /** A thread that can leave, send or dequeue has its Worker on the list, and one that is to register has not. */
    lemma OnList(step: Step)
      requires Valid() && Enabled(state, step)
      ensures step.Leave? || step.Send? || step.Dequeue? ==> step.t in state.workers
      ensures step.Register? ==> step.t !in state.workers
    {
      Reached();
      assert ThreadOk(state, step.t);
    }

    /** Whatever critical sections have run: queues and reports are exact, and nobody sleeps who has something to take. */
    lemma Exact(worker: Worker)
      requires Valid() && worker in workers
      ensures worker.tid in state.threads && state.threads[worker.tid].joinedAt <= |state.log|
      ensures var th := state.threads[worker.tid];
              && th.received + worker.messages == ToReceive(state.log[th.joinedAt..], worker.tid)
              && (th.pc == MessageWait ==> worker.messages == []) && (th.pc == ReportWait ==> reports == [])
      ensures state.taken + reports == state.reported
    {
      Reached();
      assert ThreadOk(state, worker.tid);
    }
  }
}
