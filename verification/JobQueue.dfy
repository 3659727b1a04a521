/**
  The server's job queue: any number of pushing threads, one worker thread, one terminating
  thread. Each action is one critical section of queue_mtx_ or one effect outside it.
 */
module JobQueue {

  /** Asleep(true) has been notified and will test the wait predicate. */
  datatype Worker = Asleep(notified: bool) | Performing | Returned | Exited

  datatype State<J> = State(
    jobs: seq<J>,           // the front stays queued while the worker performs it unlocked
    running: bool,
    worker: Worker,
    notifications: nat,     // pushes between their critical section and notify_one
    stopping: bool,         // Terminate between its critical section and notify_one
    rejecting: seq<J>,      // pushes that found the queue stopped and have not cancelled yet
    pushed: seq<J>, accepted: seq<J>, done: seq<J>, cancelled: seq<J>)  // histories

  datatype Action<J> =
    | Push(job: J) | Notify | Reject(index: nat)
    | Wake | Return | Pop
    | Terminate | NotifyStop

  function Start<J>(): State<J> {
    State([], true, Asleep(true), 0, false, [], [], [], [], [])
  }

  function Woken(w: Worker): Worker {
    if w.Asleep? then Asleep(true) else w
  }

  function Without<J>(s: seq<J>, i: nat): seq<J>
    requires i < |s|
  {
    s[..i] + s[i + 1..]
  }

  /** An action that is not enabled changes nothing, so every action sequence is a run. */
  function Step<J>(q: State<J>, a: Action<J>): State<J> {
    match a
    case Push(job) =>
      if q.running
      then q.(jobs := q.jobs + [job], notifications := q.notifications + 1,
              pushed := q.pushed + [job], accepted := q.accepted + [job])
      else q.(rejecting := q.rejecting + [job], pushed := q.pushed + [job])
    case Notify =>
      if q.notifications == 0 then q
      else q.(notifications := q.notifications - 1, worker := Woken(q.worker))
    case Reject(i) =>
      if i >= |q.rejecting| then q
      else q.(rejecting := Without(q.rejecting, i), cancelled := q.cancelled + [q.rejecting[i]])
    case Wake =>
      if !q.worker.Asleep? then q
      else if !q.running then q.(worker := Exited, cancelled := q.cancelled + q.jobs, jobs := [])
      else if q.jobs == [] then q.(worker := Asleep(false))
      else q.(worker := Performing)
    case Return =>
      if !q.worker.Performing? then q else q.(worker := Returned)
    case Pop =>
      if !q.worker.Returned? || q.jobs == [] then q
      else q.(worker := Asleep(true), done := q.done + [q.jobs[0]], jobs := q.jobs[1..])
    case Terminate =>
      if !q.running then q else q.(running := false, stopping := true)
    case NotifyStop =>
      if !q.stopping then q else q.(stopping := false, worker := Woken(q.worker))
  }

  function Run<J>(actions: seq<Action<J>>): State<J> {
    if actions == [] then Start()
    else Step(Run(actions[..|actions| - 1]), actions[|actions| - 1])
  }

  class Queue<J> {
    var jobs: seq<J>
    var running: bool
    var worker: Worker
    var notifications: nat
    var stopping: bool
    var rejecting: seq<J>
    ghost var pushed: seq<J>
    ghost var accepted: seq<J>
    var done: seq<J>
    var cancelled: seq<J>

    ghost function Value(): State<J>
      reads this
    {
      State(jobs, running, worker, notifications, stopping, rejecting, pushed, accepted, done, cancelled)
    }

    constructor StartWorkerThread()
      ensures Value() == Start()
    {
      jobs, running, worker, notifications, stopping := [], true, Asleep(true), 0, false;
      rejecting, pushed, accepted, done, cancelled := [], [], [], [], [];
    }

    /** The critical section; `queued` tells the caller whether to notify or to cancel the job itself. */
    method Push(job: J) returns (queued: bool)
      modifies this
      ensures queued == old(running)
      ensures Value() == Step(old(Value()), Action.Push(job))
    {
      pushed := pushed + [job];
      if running == false {
        rejecting := rejecting + [job];
        return false;
      }
      jobs := jobs + [job];
      accepted := accepted + [job];
      notifications := notifications + 1;
      return true;
    }

    /** The worker holds the lock and evaluates its predicate; once stopped it drains without unlocking. */
    method WorkerWake()
      requires worker.Asleep?
      modifies this
      ensures Value() == Step(old(Value()), Wake)
    {
      if !(|jobs| != 0 || !running) {
        worker := Asleep(false);
      } else if !running {
        while |jobs| != 0
          invariant cancelled + jobs == old(cancelled) + old(jobs)
          invariant Value() == old(Value()).(cancelled := cancelled, jobs := jobs)
          decreases |jobs|
        {
          cancelled := cancelled + [jobs[0]];
          jobs := jobs[1..];
        }
        worker := Exited;
      } else {
        worker := Performing;
      }
    }

    method WorkerPop()
      requires worker.Returned? && jobs != []
      modifies this
      ensures Value() == Step(old(Value()), Pop)
    {
      done := done + [jobs[0]];
      jobs := jobs[1..];
      worker := Asleep(true);
    }

    method Terminate() returns (first: bool)
      modifies this
      ensures first == old(running)
      ensures Value() == Step(old(Value()), Action.Terminate)
    {
      if running == false {
        return false;
      }
      running := false;
      stopping := true;
      return true;
    }
  }

  /** While a job is performed it is the front; the worker leaves only a stopped, emptied queue; a running queue has
      turned nobody away. */
  ghost predicate HoldsFront<J>(q: State<J>) {
    && (q.worker.Performing? || q.worker.Returned? ==> q.jobs != [])
    && (q.worker.Exited? ==> q.jobs == [] && !q.running)
    && (q.running ==> !q.stopping && q.rejecting == [])
  }

  /** No lost wakeup: a worker asleep with something to do has a notification on its way. */
  ghost predicate WillWake<J>(q: State<J>) {
    q.worker == Asleep(false) && (q.jobs != [] || !q.running) ==> q.notifications > 0 || q.stopping
  }

  /** Jobs are performed in push order. */
  ghost predicate InPushOrder<J>(q: State<J>) {
    && q.done <= q.accepted <= q.pushed
    && (!q.worker.Exited? ==> q.accepted == q.done + q.jobs)
    && (q.running ==> q.accepted == q.pushed)
  }

  /** Nothing pushed is lost or doubled. */
  ghost predicate Conserves<J>(q: State<J>) {
    multiset(q.pushed) == multiset(q.done) + multiset(q.jobs) + multiset(q.rejecting) + multiset(q.cancelled)
  }

  ghost predicate Inv<J>(q: State<J>) {
    HoldsFront(q) && WillWake(q) && InPushOrder(q) && Conserves(q)
  }

  lemma TakeOut<J>(s: seq<J>, i: nat)
    requires i < |s|
    ensures multiset(s) == multiset(Without(s, i)) + multiset{s[i]}
  {
    assert s == s[..i] + [s[i]] + s[i + 1..];
  }

  lemma RejectConserves<J>(q: State<J>, i: nat)
    requires Conserves(q)
    ensures Conserves(Step(q, Reject(i)))
  {
    if i < |q.rejecting| {
      TakeOut(q.rejecting, i);
    }
  }

  lemma PopConserves<J>(q: State<J>)
    requires Conserves(q)
    ensures Conserves(Step(q, Pop))
  {
    if q.jobs != [] {
      TakeOut(q.jobs, 0);
      assert Without(q.jobs, 0) == q.jobs[1..];
    }
  }

  lemma StepConserves<J>(q: State<J>, a: Action<J>)
    requires Conserves(q)
    ensures Conserves(Step(q, a))
  {
    match a
    case Reject(i) => RejectConserves(q, i);
    case Pop => PopConserves(q);
    case _ =>
  }

  lemma StepKeepsOrder<J>(q: State<J>, a: Action<J>)
    requires HoldsFront(q) && InPushOrder(q)
    ensures InPushOrder(Step(q, a))
  {
    if a.Pop? && q.jobs != [] {
      assert q.jobs == [q.jobs[0]] + q.jobs[1..];
    }
  }

  lemma StepKeepsFront<J>(q: State<J>, a: Action<J>)
    requires HoldsFront(q) && WillWake(q)
    ensures HoldsFront(Step(q, a)) && WillWake(Step(q, a))
  {
  }

  lemma StepKeepsInv<J>(q: State<J>, a: Action<J>)
    requires Inv(q)
    ensures Inv(Step(q, a))
  {
    StepKeepsFront(q, a);
    StepConserves(q, a);
    StepKeepsOrder(q, a);
  }

  lemma {:induction false} Always<J>(actions: seq<Action<J>>)
    ensures Inv(Run(actions))
  {
    if actions != [] {
      Always(actions[..|actions| - 1]);
      StepKeepsInv(Run(actions[..|actions| - 1]), actions[|actions| - 1]);
    }
  }

  /** Once the worker has exited and every push has returned, each push was performed exactly once:
      uncancelled for a prefix of the pushes, cancelled for all others. */
  lemma EveryJobOnce<J>(actions: seq<Action<J>>)
    requires Run(actions).worker.Exited? && Run(actions).rejecting == []
    ensures var q := Run(actions);
            q.done <= q.pushed && multiset(q.pushed) == multiset(q.done) + multiset(q.cancelled)
  {
    Always(actions);
  }

  /** How many jobs have been started uncancelled. */
  function Started<J>(q: State<J>): nat {
    |q.done| + if q.worker.Performing? || q.worker.Returned? then 1 else 0
  }

  /** Once Terminate has cleared the flag no further job starts uncancelled. */
  lemma NoStartAfterTerminate<J>(actions: seq<Action<J>>, a: Action<J>)
    requires !Run(actions).running
    ensures Started(Run(actions + [a])) == Started(Run(actions)) && !Run(actions + [a]).running
  {
    Always(actions);
    assert (actions + [a])[..|actions|] == actions;
  }

  /** An action of a thread already inside the protocol that changes the state. */
  ghost predicate CanAct<J>(q: State<J>, a: Action<J>) {
    && (a.Notify? || a.NotifyStop? || a.Return? || a.Pop? || (a.Wake? && q.worker == Asleep(true)))
    && Step(q, a) != q
  }

  /** The worker is never stuck: it exited, or is rightly idle, or some action is due. */
  lemma WorkerNeverStuck<J>(actions: seq<Action<J>>)
    ensures var q := Run(actions);
            q.worker.Exited? || (q.worker == Asleep(false) && q.running && q.jobs == []) || exists a :: CanAct(q, a)
  {
    var q := Run(actions);
    Always(actions);
    match q.worker
    case Asleep(notified) =>
      if notified {
        assert CanAct(q, Wake);
      } else if q.jobs != [] || !q.running {
        assert CanAct(q, Notify) || CanAct(q, NotifyStop);
      }
    case Performing => assert CanAct(q, Return);
    case Returned => assert CanAct(q, Pop);
    case Exited =>
  }

  /** What is left for the worker once Terminate has cleared the flag. */
  function StepsToExit(w: Worker): nat {
    match w
    case Performing => 4
    case Returned => 3
    case Asleep(notified) => if notified then 1 else 2
    case Exited => 0
  }

  /** Termination of join: after Terminate, no action moves the worker away from its exit and each of its own moves it
      closer. */
  lemma ExitApproaches<J>(actions: seq<Action<J>>, a: Action<J>)
    requires !Run(actions).running
    ensures var q, q' := Run(actions), Run(actions + [a]);
            && StepsToExit(q'.worker) <= StepsToExit(q.worker)
            && (CanAct(q, a) && q'.worker != q.worker ==> StepsToExit(q'.worker) < StepsToExit(q.worker))
  {
    Always(actions);
    assert (actions + [a])[..|actions|] == actions;
  }

  lemma RunMore<J>(actions: seq<Action<J>>, a: Action<J>)
    ensures Run(actions + [a]) == Step(Run(actions), a)
  {
    hide Step;
    assert (actions + [a])[..|actions|] == actions;
  }

  /** Actions of threads already inside the protocol. */
  predicate Finishes<J>(a: Action<J>) { a.Notify? || a.NotifyStop? || a.Return? || a.Pop? || a.Wake? }

  lemma NextToExit<J>(q: State<J>) returns (a: Action<J>)
    requires HoldsFront(q) && WillWake(q) && !q.running && !q.worker.Exited?
    ensures Finishes(a) && !Step(q, a).running && StepsToExit(Step(q, a).worker) < StepsToExit(q.worker)
  {
    a := match q.worker
      case Asleep(notified) => if notified then Wake else if q.notifications > 0 then Notify else NotifyStop
      case Performing => Return
      case _ => Pop;
  }

  lemma {:induction false} StoppedWorkerExits<J>(actions: seq<Action<J>>) returns (more: seq<Action<J>>)
    requires !Run(actions).running
    ensures forall a | a in more :: Finishes(a)
    ensures Run(actions + more).worker.Exited?
    decreases StepsToExit(Run(actions).worker)
  {
    hide Run, Step, Conserves, InPushOrder, StepsToExit;
    if Run(actions).worker.Exited? {
      more := [];
      assert actions + more == actions;
    } else {
      Always(actions);
      var a := NextToExit(Run(actions));
      RunMore(actions, a);
      var rest := StoppedWorkerExits(actions + [a]);
      more := [a] + rest;
      assert actions + more == actions + [a] + rest;
    }
  }

  /** Terminate can always be joined: the threads inside the protocol lead the worker to its exit, and by then every job
      not yet started is cancelled. */
  lemma TerminateEnds<J>(actions: seq<Action<J>>) returns (more: seq<Action<J>>)
    ensures forall a | a in more :: Finishes(a)
    ensures var q := Run(actions + [Action.Terminate] + more);
            q.worker.Exited? && !q.running && q.jobs == []
  {
    RunMore(actions, Action.Terminate);
    more := StoppedWorkerExits(actions + [Action.Terminate]);
    Always(actions + [Action.Terminate] + more);
    hide Run;
  }
}
