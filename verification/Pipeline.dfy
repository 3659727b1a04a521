/**
  One channel end to end: the server's job queue, the serials its worker stamps, the call
  queue, the network, and the client's serial command queue.
 */
module Pipeline {
  import opened Options
  import opened SerialQueue
  import JobQueue

  datatype Phase = Up | Joining | Down

  /** The server side: JobQueue, Channel and AsyncGrpcQueue. */
  datatype Server<J> = Server(
    queue: JobQueue.State<J>,
    stamp: Option<nat>,     // the serial of the request the worker is building
    serial: nat,            // serials_[kRequest]
    alive: bool,            // a strong reference to the channel is left
    phase: Phase,
    calls: bool,            // AsyncGrpcQueue::enabled_
    sent: seq<Item<J>>)

  /** The network, carrying sent requests by index, and the client's queue. `arrived` and `lost` are history. */
  datatype Wire<J> = Wire(inFlight: set<nat>, arrived: seq<Item<J>>, lost: set<nat>, client: State<J>)

  datatype Channel<J> = Channel(server: Server<J>, wire: Wire<J>)

  datatype Action<J> =
    | Queue(act: JobQueue.Action<J>)
    | Stamp                 // the job locks the channel and builds its SerialRequestContext
    | Skip                  // the job finds the channel gone
    | Send                  // AsyncGrpcQueue::Push
    | Disable               // Channel::Disable enters: JobQueue::Terminate
    | Join                  // thread_.join() returned: AsyncGrpcQueue::Terminate
    | Release               // the last strong reference to the channel goes
    | Deliver(serial: nat)
    | Lose(serial: nat)

  function Start<J>(): Channel<J> {
    Channel(Server(JobQueue.Start(), None, 0, true, Up, true, []), Wire({}, [], {}, Init()))
  }

  /** Actions of the job queue alone; Return and Terminate happen only as part of Skip, Send and Disable. */
  predicate Internal<J>(a: JobQueue.Action<J>) {
    !a.Return? && !a.Terminate?
  }

  function ServerStep<J>(s: Server<J>, a: Action<J>): Server<J> {
    match a
    case Queue(act) =>
      if Internal(act) then s.(queue := JobQueue.Step(s.queue, act)) else s
    case Stamp =>
      if !s.queue.worker.Performing? || s.stamp.Some? || !s.alive then s
      else s.(stamp := Some(s.serial), serial := s.serial + 1)
    case Skip =>
      if !s.queue.worker.Performing? || s.stamp.Some? || s.alive then s
      else s.(queue := JobQueue.Step(s.queue, JobQueue.Return))
    case Send =>
      if s.stamp.None? || s.queue.jobs == [] then s
      else s.(queue := JobQueue.Step(s.queue, JobQueue.Return), stamp := None,
              sent := if s.calls then s.sent + [Item(s.stamp.value, s.queue.jobs[0])] else s.sent)
    case Disable =>
      if !s.phase.Up? then s else s.(phase := Joining, queue := JobQueue.Step(s.queue, JobQueue.Terminate))
    case Join =>
      if !s.phase.Joining? || !s.queue.worker.Exited? then s else s.(phase := Down, calls := false)
    case Release =>
      // a job past its weak_ptr::lock holds the channel
      if s.stamp.Some? then s else s.(alive := false)
    case _ => s
  }

  function WireStep<J>(w: Wire<J>, sent: seq<Item<J>>, a: Action<J>): Wire<J> {
    match a
    case Deliver(n) =>
      if n !in w.inFlight || n >= |sent| then w
      else Wire(w.inFlight - {n}, w.arrived + [sent[n]], w.lost, Pushed(w.client, sent[n]))
    case Lose(n) => if n !in w.inFlight then w else w.(inFlight := w.inFlight - {n}, lost := w.lost + {n})
    case _ => w
  }

  /** An action that is not enabled changes nothing, so every action sequence is a run. */
  function Step<J>(c: Channel<J>, a: Action<J>): Channel<J> {
    var server := ServerStep(c.server, a);
    var wire := WireStep(c.wire, c.server.sent, a);
    Channel(server,
            if |server.sent| > |c.server.sent| then wire.(inFlight := wire.inFlight + {|c.server.sent|}) else wire)
  }

  function Run<J>(actions: seq<Action<J>>): Channel<J> {
    if actions == [] then Start()
    else Step(Run(actions[..|actions| - 1]), actions[|actions| - 1])
  }

  function Commands<J>(items: seq<Item<J>>): (jobs: seq<J>)
    ensures |jobs| == |items| && forall i | 0 <= i < |items| :: jobs[i] == items[i].command
  {
    seq(|items|, i requires 0 <= i < |items| => items[i].command)
  }

  ghost predicate Lifecycle<J>(s: Server<J>) {
    && (s.queue.running <==> s.phase.Up?)
    && (s.calls <==> !s.phase.Down?)
    && (s.phase.Down? ==> s.queue.worker.Exited?)
    && (s.stamp.Some? ==> s.queue.worker.Performing? && s.alive)
  }

  /** Serials are stamped in job order without gaps. */
  ghost predicate Numbered<J>(s: Server<J>) {
    && (forall i | 0 <= i < |s.sent| :: s.sent[i].serial == i)
    && Commands(s.sent) <= s.queue.accepted
    && s.serial == |s.sent| + (if s.stamp.Some? then 1 else 0)
    && (s.stamp.Some? ==> s.stamp.value == |s.sent|)
    && (s.alive ==> |s.sent| == |s.queue.done| + (if s.queue.worker.Returned? then 1 else 0))
  }

  predicate HasArrived<J>(w: Wire<J>, n: nat) { exists i :: 0 <= i < |w.arrived| && w.arrived[i].serial == n }

  /** Each sent request is in flight, or arrived once, or lost. */
  ghost predicate Carried<J>(w: Wire<J>, sent: seq<Item<J>>) {
    && w.client == Received(w.arrived)
    && Distinct(w.arrived)
    && (forall n | n in w.inFlight :: n < |sent|)
    && (forall i | 0 <= i < |w.arrived| :: w.arrived[i].serial < |sent|
          && w.arrived[i] == sent[w.arrived[i].serial] && w.arrived[i].serial !in w.inFlight + w.lost)
    && (forall n | n in w.lost :: n < |sent| && n !in w.inFlight)
    && (forall n: nat | n < |sent| :: n in w.inFlight || n in w.lost || HasArrived(w, n))
  }

  ghost predicate Inv<J>(c: Channel<J>) {
    ServerInv(c.server) && Carried(c.wire, c.server.sent)
  }

  lemma QueueStepKeepsNumbers<J>(s: Server<J>, act: JobQueue.Action<J>)
    requires JobQueue.Inv(s.queue) && Numbered(s) && Lifecycle(s) && Internal(act)
    ensures Numbered(s.(queue := JobQueue.Step(s.queue, act)))
  {
    assert s.queue.accepted <= JobQueue.Step(s.queue, act).accepted;
  }

  lemma QueueStepKeepsLifecycle<J>(s: Server<J>, act: JobQueue.Action<J>)
    requires JobQueue.HoldsFront(s.queue) && Lifecycle(s) && Internal(act)
    ensures Lifecycle(s.(queue := JobQueue.Step(s.queue, act)))
  {
  }

  lemma SendKeepsNumbers<J>(s: Server<J>)
    requires JobQueue.Inv(s.queue) && Numbered(s) && Lifecycle(s)
    ensures Numbered(ServerStep(s, Send))
  {
    if s.stamp.Some? && s.queue.jobs != [] {
      assert s.queue.accepted[|s.queue.done|] == s.queue.jobs[0];
      assert Commands(ServerStep(s, Send).sent) == Commands(s.sent) + [s.queue.jobs[0]];
    }
  }

  ghost predicate ServerInv<J>(s: Server<J>) {
    JobQueue.Inv(s.queue) && Lifecycle(s) && Numbered(s)
  }

  lemma JobStepKeepsInv<J>(s: Server<J>, act: JobQueue.Action<J>)
    requires ServerInv(s) && Internal(act)
    ensures ServerInv(ServerStep(s, Queue(act)))
  {
    JobQueue.StepKeepsInv(s.queue, act);
    QueueStepKeepsNumbers(s, act);
    QueueStepKeepsLifecycle(s, act);
  }

  lemma SendKeepsInv<J>(s: Server<J>)
    requires ServerInv(s)
    ensures ServerInv(ServerStep(s, Send))
  {
    JobQueue.StepKeepsInv(s.queue, JobQueue.Return);
    SendKeepsNumbers(s);
  }

  lemma SkipKeepsInv<J>(s: Server<J>)
    requires ServerInv(s)
    ensures ServerInv(ServerStep(s, Skip))
  {
    JobQueue.StepKeepsInv(s.queue, JobQueue.Return);
    hide JobQueue.Inv;
  }

  lemma DisableKeepsInv<J>(s: Server<J>)
    requires ServerInv(s)
    ensures ServerInv(ServerStep(s, Disable))
  {
    JobQueue.StepKeepsInv(s.queue, JobQueue.Terminate);
    hide JobQueue.Inv;
  }

  lemma ServerStepKeepsInv<J>(s: Server<J>, a: Action<J>)
    requires ServerInv(s)
    ensures ServerInv(ServerStep(s, a))
  {
    match a
    case Queue(act) => if Internal(act) { JobStepKeepsInv(s, act); }
    case Skip => SkipKeepsInv(s);
    case Send => SendKeepsInv(s);
    case Disable => DisableKeepsInv(s);
    case _ =>
  }

  lemma SentGrows<J>(s: Server<J>, a: Action<J>)
    ensures s.sent <= ServerStep(s, a).sent && |ServerStep(s, a).sent| <= |s.sent| + 1
  {
  }

  lemma DeliverKeepsInv<J>(w: Wire<J>, sent: seq<Item<J>>, n: nat)
    requires Carried(w, sent) && forall i | 0 <= i < |sent| :: sent[i].serial == i
    requires n in w.inFlight
    ensures Carried(WireStep(w, sent, Deliver(n)), sent)
  {
    hide Pushed;
    var t := WireStep(w, sent, Deliver(n));
    assert t.arrived[..|w.arrived|] == w.arrived;
    forall k: nat | k < |sent| ensures k in t.inFlight || k in t.lost || HasArrived(t, k) {
      if k == n {
        assert t.arrived[|w.arrived|].serial == n;
      } else if HasArrived(w, k) {
        var i :| 0 <= i < |w.arrived| && w.arrived[i].serial == k;
        assert t.arrived[i].serial == k;
      }
    }
  }

  lemma LoseKeepsInv<J>(w: Wire<J>, sent: seq<Item<J>>, n: nat)
    requires Carried(w, sent) && n in w.inFlight
    ensures Carried(WireStep(w, sent, Lose(n)), sent)
  {
    var t := WireStep(w, sent, Lose(n));
    assert forall k :: HasArrived(t, k) == HasArrived(w, k);
  }

  lemma WireStepKeepsInv<J>(w: Wire<J>, sent: seq<Item<J>>, a: Action<J>)
    requires Carried(w, sent) && forall i | 0 <= i < |sent| :: sent[i].serial == i
    ensures Carried(WireStep(w, sent, a), sent)
  {
    assert forall n | n in w.inFlight :: n < |sent|;
    hide Carried;
    match a
    case Deliver(n) => if n in w.inFlight { DeliverKeepsInv(w, sent, n); }
    case Lose(n) => if n in w.inFlight { LoseKeepsInv(w, sent, n); }
    case _ =>
  }

  lemma StepKeepsInv<J>(c: Channel<J>, a: Action<J>)
    requires Inv(c)
    ensures Inv(Step(c, a))
  {
    ServerStepKeepsInv(c.server, a);
    SentGrows(c.server, a);
    SentIsNumbered(c.server);
    hide ServerInv, ServerStep;
    WireStepKeepsInv(c.wire, c.server.sent, a);
    var wire := WireStep(c.wire, c.server.sent, a);
    hide WireStep;
    MoreSent(wire, c.server.sent, ServerStep(c.server, a).sent);
  }

  lemma SentIsNumbered<J>(s: Server<J>)
    requires ServerInv(s)
    ensures forall i | 0 <= i < |s.sent| :: s.sent[i].serial == i
  {
  }

  /** A request that was just sent is in flight. */
  lemma MoreSent<J>(w: Wire<J>, before: seq<Item<J>>, sent: seq<Item<J>>)
    requires Carried(w, before) && before <= sent && |sent| <= |before| + 1
    ensures Carried(if |sent| > |before| then w.(inFlight := w.inFlight + {|before|}) else w, sent)
  {
    var t := if |sent| > |before| then w.(inFlight := w.inFlight + {|before|}) else w;
    assert forall k :: HasArrived(t, k) == HasArrived(w, k);
  }

  lemma {:induction false} Always<J>(actions: seq<Action<J>>)
    ensures Inv(Run(actions))
  {
    if actions != [] {
      Always(actions[..|actions| - 1]);
      StepKeepsInv(Run(actions[..|actions| - 1]), actions[|actions| - 1]);
    }
  }

  lemma RanWasSent<J>(c: Channel<J>)
    requires Inv(c)
    ensures InOrder(c.wire.client) && c.wire.client.ran <= c.server.sent
    ensures forall i | 0 <= i < |c.wire.client.list| :: c.wire.client.list[i].serial < |c.server.sent|
  {
    var st := c.wire.client;
    DistinctGivesOrder(c.wire.arrived);
    forall x | x in st.ran || x in st.list ensures x.serial < |c.server.sent| && x == c.server.sent[x.serial] {
      ArrivedOnce(c.wire.arrived, x);
    }
    forall i | 0 <= i < |st.list| ensures st.list[i].serial < |c.server.sent| {
      assert st.list[i] in st.list;
    }
    if st.ran != [] {
      assert st.ran[|st.ran| - 1] in st.ran;
    }
    forall i | 0 <= i < |st.ran| ensures st.ran[i] == c.server.sent[i] {
      assert st.ran[i] in st.ran;
    }
  }

  /**
    The main guarantee: on every interleaving of pushes, worker steps, shutdown, losses and
    deliveries in any order, the client has run a prefix of what was pushed, in push order.
   */
  lemma ReplayIsPrefix<J>(actions: seq<Action<J>>)
    ensures var c := Run(actions);
            && Commands(c.wire.client.ran) <= Commands(c.server.sent)
            && Commands(c.server.sent) <= c.server.queue.pushed
  {
    Always(actions);
    RanWasSent(Run(actions));
  }

  lemma {:induction false} AscendingGap<J>(list: seq<Item<J>>, low: nat, k: nat)
    requires Ascending(list) && k < |list| && forall i | 0 <= i < |list| :: low < list[i].serial
    ensures low + k < list[k].serial
  {
    if k > 0 {
      AscendingGap(list, low, k - 1);
    }
  }

  /** Once everything sent has been delivered, it has all been run and nothing waits. */
  lemma AllDeliveredAllRun<J>(actions: seq<Action<J>>)
    requires |Run(actions).wire.arrived| == |Run(actions).server.sent|
    ensures Run(actions).wire.client.ran == Run(actions).server.sent
    ensures Run(actions).wire.client.list == []
  {
    var c := Run(actions);
    var st := c.wire.client;
    Always(actions);
    RanWasSent(c);
    ReceiveConserves(c.wire.arrived);
    assert |st.ran| + |st.list| == |multiset(st.ran) + multiset(st.list)| == |multiset(c.wire.arrived)|
        == |c.server.sent|;
    if st.list != [] {
      AscendingGap(st.list, st.next, |st.list| - 1);
    }
  }

  /** When moreover the channel is up and its queue drained, the client has run every push. */
  lemma NothingMissing<J>(actions: seq<Action<J>>)
    requires var c := Run(actions);
             && c.server.phase.Up? && c.server.alive && c.server.queue.jobs == []
             && |c.wire.arrived| == |c.server.sent|
    ensures Commands(Run(actions).wire.client.ran) == Run(actions).server.queue.pushed
  {
    Always(actions);
    AllDeliveredAllRun(actions);
  }

  /**
    Shutdown order: the job queue is joined before the call queue stops, so every serial taken
    is sent, and the client never waits behind a gap of the server's making.
   */
  lemma NoSerialWithheld<J>(actions: seq<Action<J>>)
    ensures var s := Run(actions).server;
            if s.stamp.Some? then s.calls && s.stamp.value == |s.sent| && s.serial == |s.sent| + 1
            else s.serial == |s.sent|
  {
    Always(actions);
  }
}
