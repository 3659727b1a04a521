/** Liveness of one channel: what is pushed is sent, and what is sent and not lost is run, by worker steps and
    deliveries in any order. */
module Progress {
  import opened SerialQueue
  import JobQueue
  import opened P = Pipeline

  /** The channel is up and referenced: neither Disable nor the last release has happened. */
  predicate Open<J>(c: Channel<J>) { c.server.phase.Up? && c.server.alive }

  /** A step of a thread that is at work already, or of the network: no push, loss, shutdown or release. */
  predicate Works<J>(a: Action<J>) {
    match a
    case Queue(act) => act.Notify? || act.Wake? || act.Pop?
    case Stamp => true
    case Send => true
    case Deliver(_) => true
    case _ => false
  }

  /** Such a step that does something. */
  ghost predicate Due<J>(c: Channel<J>, a: Action<J>) { Works(a) && Step(c, a) != c }

  /** How far the worker is from having popped the job it is at. */
  function Stage<J>(s: Server<J>): nat {
    match s.queue.worker
    case Asleep(notified) => if notified then 5 else 4
    case Performing => if s.stamp.None? then 3 else 2
    case Returned => 0
    case Exited => 0
  }

  /** Bounds the steps that can be due until all is done. */
  function Left<J>(c: Channel<J>): nat {
    2 * c.server.queue.notifications + 6 * |c.server.queue.jobs| + |c.wire.inFlight| + Stage(c.server)
  }

  lemma DueWorkShrinks<J>(c: Channel<J>, a: Action<J>)
    requires Inv(c) && Open(c) && Due(c, a) && !a.Send? && !a.Deliver?
    ensures Open(Step(c, a)) && Left(Step(c, a)) < Left(c)
  {
    hide JobQueue.Conserves, JobQueue.InPushOrder, Numbered, Carried;
  }

  lemma SendShrinks<J>(c: Channel<J>)
    requires Inv(c) && Open(c) && Due(c, Send)
    ensures Open(Step(c, Send)) && Left(Step(c, Send)) < Left(c)
  {
    hide JobQueue.Conserves, JobQueue.InPushOrder, Numbered;
  }

  lemma DeliverShrinks<J>(c: Channel<J>, n: nat)
    requires Inv(c) && Open(c) && Due(c, Deliver(n))
    ensures Open(Step(c, Deliver(n))) && Left(Step(c, Deliver(n))) < Left(c)
  {
    hide JobQueue.Conserves, JobQueue.InPushOrder, Numbered, Carried, Pushed;
  }

  /** Each due step uses up some of what is left. */
  lemma DueShrinks<J>(actions: seq<Action<J>>, a: Action<J>)
    requires Open(Run(actions)) && Due(Run(actions), a)
    ensures Open(Run(actions + [a])) && Left(Run(actions + [a])) < Left(Run(actions))
  {
    Always(actions);
    assert (actions + [a])[..|actions|] == actions;
    match a
    case Send => SendShrinks(Run(actions));
    case Deliver(n) => DeliverShrinks(Run(actions), n);
    case _ => DueWorkShrinks(Run(actions), a);
  }

  /** A push adds its own share: one notification, one job. */
  lemma PushAddsItsShare<J>(actions: seq<Action<J>>, job: J)
    requires Open(Run(actions))
    ensures var c := Run(actions + [Queue(JobQueue.Push(job))]);
            Open(c) && Left(c) == Left(Run(actions)) + 8
  {
    Always(actions);
    assert (actions + [Queue(JobQueue.Push(job))])[..|actions|] == actions;
    hide JobQueue.Conserves, Numbered, Carried;
  }

  /** While a job is queued or performed, the worker is not stuck. */
  lemma WorkIsDue<J>(actions: seq<Action<J>>)
    requires Open(Run(actions)) && Run(actions).server.queue.jobs != []
    ensures exists a :: Due(Run(actions), a) && !a.Deliver?
  {
    var c := Run(actions);
    Always(actions);
    hide JobQueue.Conserves, Numbered, Carried, Run;
    match c.server.queue.worker
    case Asleep(notified) => assert Due(c, Queue(JobQueue.Wake));
    case Performing => assert Due(c, Stamp) || Due(c, Send);
    case Returned => assert Due(c, Queue(JobQueue.Pop));
    case Exited =>
  }

  predicate NothingLostUpTo<J>(w: Wire<J>, n: nat) { forall m: nat | m <= n :: m !in w.lost }

  /** With nothing in flight the client has run what was sent, up to the first loss. */
  lemma RunsUpToLoss<J>(c: Channel<J>, n: nat)
    requires Inv(c) && c.wire.inFlight == {}
    ensures n < |c.wire.client.ran| <==> n < |c.server.sent| && NothingLostUpTo(c.wire, n)
  {
    var w := c.wire;
    var next := w.client.next;
    RanWasSent(c);
    if n < next {
      forall m: nat | m <= n ensures m !in w.lost {
        NextIsLeastMissing(w.arrived, m);
        var i :| 0 <= i < |w.arrived| && w.arrived[i].serial == m;
      }
    } else if n < |c.server.sent| {
      NextIsLeastMissing(w.arrived, next);
      assert !HasArrived(w, next);
    }
  }

  /** Everything pushed has been sent, and everything sent has been run, up to the first loss. */
  ghost predicate Settled<J>(c: Channel<J>) {
    && Commands(c.server.sent) == c.server.queue.pushed && c.wire.client.ran <= c.server.sent
    && (forall n: nat :: n < |c.wire.client.ran| <==> n < |c.server.sent| && NothingLostUpTo(c.wire, n))
    && (c.wire.lost == {} ==> Commands(c.wire.client.ran) == c.server.queue.pushed)
  }

  lemma DrainedIsSettled<J>(c: Channel<J>)
    requires Inv(c) && Open(c) && c.server.queue.jobs == [] && c.wire.inFlight == {}
    ensures Settled(c)
  {
    forall n: nat ensures n < |c.wire.client.ran| <==> n < |c.server.sent| && NothingLostUpTo(c.wire, n) {
      RunsUpToLoss(c, n);
    }
    RanWasSent(c);
    hide Carried, NothingLostUpTo, JobQueue.Conserves;
    if c.wire.lost == {} && |c.wire.client.ran| < |c.server.sent| {
      NoneLost(c.wire, |c.wire.client.ran|);
    }
  }

  lemma NoneLost<J>(w: Wire<J>, n: nat)
    requires w.lost == {}
    ensures NothingLostUpTo(w, n)
  {
  }

  /** When nothing is due, all is done. */
  lemma NothingDueIsSettled<J>(actions: seq<Action<J>>)
    requires Open(Run(actions)) && forall a :: !Due(Run(actions), a)
    ensures Settled(Run(actions))
  {
    var c := Run(actions);
    Always(actions);
    if c.server.queue.jobs != [] {
      WorkIsDue(actions);
    }
    if n :| n in c.wire.inFlight {
      assert Due(c, Deliver(n)) by { InFlightIsDue(c, n); }
    }
    DrainedIsSettled(c);
  }

  lemma InFlightIsDue<J>(c: Channel<J>, n: nat)
    requires Inv(c) && n in c.wire.inFlight
    ensures Due(c, Deliver(n))
  {
    assert n !in Step(c, Deliver(n)).wire.inFlight;
  }

  /** Each of these steps is due when it is taken. */
  ghost predicate AllDue<J>(actions: seq<Action<J>>, more: seq<Action<J>>) {
    more == [] ||
    (AllDue(actions, more[..|more| - 1]) && Due(Run(actions + more[..|more| - 1]), more[|more| - 1]))
  }

  lemma DueKeepsHistory<J>(c: Channel<J>, a: Action<J>)
    requires Works(a)
    ensures Step(c, a).server.queue.pushed == c.server.queue.pushed && Step(c, a).wire.lost == c.wire.lost
  {
  }

  /** Whatever the order, due steps come to an end. */
  lemma {:induction false} EveryScheduleEnds<J>(actions: seq<Action<J>>, more: seq<Action<J>>)
    requires Open(Run(actions)) && AllDue(actions, more)
    ensures var c, d := Run(actions), Run(actions + more);
            && Open(d) && |more| + Left(d) <= Left(c)
            && d.server.queue.pushed == c.server.queue.pushed && d.wire.lost == c.wire.lost
  {
    hide Step, Left, Run;
    if more == [] {
      assert actions + more == actions;
    } else {
      var front, last := more[..|more| - 1], more[|more| - 1];
      EveryScheduleEnds(actions, front);
      assert actions + more == actions + front + [last];
      DueShrinks(actions + front, last);
      DueKeepsHistory(Run(actions + front), last);
      RunMore(actions + front, last);
    }
  }

  lemma RunMore<J>(actions: seq<Action<J>>, a: Action<J>)
    ensures Run(actions + [a]) == Step(Run(actions), a)
  {
    hide Step;
    assert (actions + [a])[..|actions|] == actions;
  }

  /** And when it has ended, all is done. */
  lemma EveryScheduleSettles<J>(actions: seq<Action<J>>, more: seq<Action<J>>)
    requires Open(Run(actions)) && AllDue(actions, more) && forall a :: !Due(Run(actions + more), a)
    ensures Settled(Run(actions + more)) && |more| <= Left(Run(actions))
    ensures Run(actions + more).server.queue.pushed == Run(actions).server.queue.pushed
  {
    EveryScheduleEnds(actions, more);
    NothingDueIsSettled(actions + more);
    hide Settled, AllDue, Due, Open;
  }

  /**
    From every state of a run in which the channel is up and referenced, steps that are due, without pushes, losses or
    shutdown, lead to a state in which every push has been sent and, if nothing was lost, run by the client.
   */
  lemma {:induction false} EveryPushRuns<J>(actions: seq<Action<J>>) returns (more: seq<Action<J>>)
    requires Open(Run(actions))
    ensures AllDue(actions, more) && Settled(Run(actions + more))
    ensures var c, d := Run(actions), Run(actions + more);
            && d.server.queue.pushed == c.server.queue.pushed && d.wire.lost == c.wire.lost
            && (c.wire.lost == {} ==> Commands(d.wire.client.ran) == c.server.queue.pushed)
    decreases Left(Run(actions))
  {
    hide Run, Step, Left;
    if a :| Due(Run(actions), a) {
      DueShrinks(actions, a);
      var rest := EveryPushRuns(actions + [a]);
      more := [a] + rest;
      DueFirst(actions, a, rest);
      RunMore(actions, a);
      DueKeepsHistory(Run(actions), a);
      assert actions + more == actions + [a] + rest;
    } else {
      more := [];
      NothingDueIsSettled(actions);
      assert actions + [] == actions;
    }
  }

  lemma {:induction false} DueFirst<J>(actions: seq<Action<J>>, a: Action<J>, rest: seq<Action<J>>)
    requires Due(Run(actions), a) && AllDue(actions + [a], rest)
    ensures AllDue(actions, [a] + rest)
  {
    hide Due, Run;
    var all := [a] + rest;
    if rest == [] {
      assert all[..|all| - 1] == [] && actions + [] == actions && all[|all| - 1] == a;
    } else {
      var front := rest[..|rest| - 1];
      assert all[..|all| - 1] == [a] + front && actions + ([a] + front) == actions + [a] + front;
      DueFirst(actions, a, front);
    }
  }

  // ---- shutdown ----

  function StepsToClose<J>(s: Server<J>): nat {
    if s.phase.Down? then 0
    else 1 + 2 * JobQueue.StepsToExit(s.queue.worker)
         - (if s.queue.worker.Performing? && s.stamp.Some? then 1 else 0)
  }

  lemma NextToClose<J>(s: Server<J>) returns (a: Action<J>)
    requires ServerInv(s) && s.phase.Joining?
    ensures !a.Lose? && !a.Deliver? && !a.Disable? && (a.Queue? ==> JobQueue.Finishes(a.act))
    ensures !ServerStep(s, a).phase.Up? && StepsToClose(ServerStep(s, a)) < StepsToClose(s)
  {
    hide Numbered, JobQueue.Conserves, JobQueue.InPushOrder;
    a := match s.queue.worker
      case Asleep(notified) =>
        Queue(if notified then JobQueue.Wake
              else if s.queue.notifications > 0 then JobQueue.Notify else JobQueue.NotifyStop)
      case Performing => if s.stamp.Some? then Send else if s.alive then Stamp else Skip
      case Returned => Queue(JobQueue.Pop)
      case Exited => Join;
  }

  lemma {:induction false} JoiningEnds<J>(actions: seq<Action<J>>) returns (more: seq<Action<J>>)
    requires !Run(actions).server.phase.Up?
    ensures Run(actions + more).server.phase.Down?
    decreases StepsToClose(Run(actions).server)
  {
    hide Run, ServerStep, StepsToClose, ServerInv, Carried;
    var s := Run(actions).server;
    if s.phase.Down? {
      more := [];
      assert actions + more == actions;
    } else {
      Always(actions);
      var a := NextToClose(s);
      RunMore(actions, a);
      var rest := JoiningEnds(actions + [a]);
      more := [a] + rest;
      assert actions + more == actions + [a] + rest;
    }
  }

  /** Disable can always be completed: the worker exits and is joined, and every serial taken has been sent. */
  lemma DisableEnds<J>(actions: seq<Action<J>>) returns (more: seq<Action<J>>)
    ensures var s := Run(actions + [Disable] + more).server;
            s.phase.Down? && !s.calls && s.queue.worker.Exited? && s.stamp.None? && |s.sent| == s.serial
  {
    RunMore(actions, Disable);
    more := JoiningEnds(actions + [Disable]);
    Always(actions + [Disable] + more);
    hide Run;
  }
}
