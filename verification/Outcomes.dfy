/** What each session request is answered with, from the requests alone. */
module Outcomes {
  import opened Options
  import S = SerialQueue
  import Q = ClientSession
  import L = SessionLifecycle
  import opened R = Responses

  // ---- the requests of a run ----

  /** What an action does to sessions. */
  function ForSessions(a: Action): seq<L.Action> {
    match a
    case Enable => [L.Enable]
    case Disable => [L.Disable]
    case NewSession => [L.NewSession]
    case Clear(id) => [L.Clear(id)]
    case Event(_, _, _) => []
  }

  function SessionActions(actions: seq<Action>): seq<L.Action> {
    if actions == [] then []
    else SessionActions(actions[..|actions| - 1]) + ForSessions(actions[|actions| - 1])
  }

  function SessionAt(actions: seq<Action>): Option<nat> { L.CurrentSession(SessionActions(actions)) }

  /** A request with its metadata, and the session that was current when it came. */
  datatype Request = Request(m: Metadata, current: Option<nat>)

  /** The requests that have come, in order. Call i takes request i, and the call after the last one is listening. */
  function Requests(actions: seq<Action>): seq<Request> {
    if actions == [] then []
    else
      var front, last := actions[..|actions| - 1], actions[|actions| - 1];
      if last.Event? && last.ok && last.c == |Requests(front)| && !Closed(front)
      then Requests(front) + [Request(last.m, SessionAt(front))]
      else Requests(front)
  }

  /** The listening call has been given up. */
  predicate Closed(actions: seq<Action>) {
    actions != [] &&
    var front, last := actions[..|actions| - 1], actions[|actions| - 1];
    Closed(front) || (last.Event? && !last.ok && last.c == |Requests(front)|)
  }

  /** All three entries are there, and the session named is the current one. */
  predicate Accepted(r: Request) {
    r.m.session.Some? && r.m.serial.Some? && r.m.channel.Some? && r.current == r.m.session
  }

  /** The accepted requests of session k, each under the channel and serial of its own metadata. */
  function ArrivalsOf(rs: seq<Request>, k: nat): seq<Q.Arrival<nat>> {
    if rs == [] then []
    else
      var n := |rs| - 1;
      ArrivalsOf(rs[..n], k)
      + if Accepted(rs[n]) && rs[n].current == Some(k)
        then [Q.Arrival(rs[n].m.channel.value, S.Item(rs[n].m.serial.value, n))] else []
  }

  function CallsIn(log: seq<Q.Arrival<nat>>): seq<nat> {
    if log == [] then [] else [log[0].item.command] + CallsIn(log[1..])
  }

  /** What replay runs of session k, in order. */
  function Replay(rs: seq<Request>, k: nat): seq<nat> { CallsIn(Q.Log(ArrivalsOf(rs, k))) }

  /** The calls of session k among these, in order. */
  function OfSession(calls: seq<nat>, rs: seq<Request>, k: nat): seq<nat> {
    if calls == [] then []
    else
      var c := calls[|calls| - 1];
      OfSession(calls[..|calls| - 1], rs, k) + if c < |rs| && rs[c].current == Some(k) then [c] else []
  }

  function Answer(call: Call): Option<Outcome> {
    match call
    case Finishing(outcome) => Some(outcome)
    case Deleted(last) => last
    case _ => None
  }

  predicate Replayed(rs: seq<Request>, i: nat)
    requires i < |rs|
  {
    rs[i].current.Some? && i in Replay(rs, rs[i].current.value)
  }

  /** What call i has come to. */
  predicate Told(call: Call, rs: seq<Request>, i: nat, current: Option<nat>)
    requires i < |rs|
  {
    if !Accepted(rs[i]) then Answer(call) == Some(Rejected)
    else if Replayed(rs, i) then Answer(call) == Some(Executed)
    else if current == rs[i].current
    then call == Queued(rs[i].m.session.value, rs[i].m.channel.value, rs[i].m.serial.value)
    else Answer(call) == Some(Cancelled)
  }

  // ---- invariant ----

  ghost predicate Numbered(s: State, rs: seq<Request>, closed: bool) {
    && |s.calls| == |rs| + 1 && s.calls[|rs|] == (if closed then Deleted(None) else Listening)
    && (forall c | c in s.ran :: c < |rs|)
  }

  /** Sessions still to come have other ids. */
  ghost predicate Past(life: L.Life, rs: seq<Request>) {
    && (forall i | 0 <= i < |rs| && rs[i].current.Some? :: rs[i].current.value < life.nextId)
    && (life.current.Some? ==> life.current.value.id < life.nextId)
  }

  ghost predicate QueuesReplay(s: State, rs: seq<Request>) {
    && s.queues == (if s.life.current.Some? then Q.Received(ArrivalsOf(rs, s.life.current.value.id)) else map[])
    && (forall k :: OfSession(s.ran, rs, k) == Replay(rs, k))
  }

  ghost predicate AllTold(s: State, rs: seq<Request>)
    requires |s.calls| >= |rs|
  {
    forall i | 0 <= i < |rs| :: Told(s.calls[i], rs, i, CurrentId(s.life))
  }

  ghost predicate Faithful(s: State, rs: seq<Request>, closed: bool) {
    Numbered(s, rs, closed) && Past(s.life, rs) && QueuesReplay(s, rs) && AllTold(s, rs)
  }

  // ---- the end of a session ----

  lemma {:induction false} NoArrivals(rs: seq<Request>, k: nat)
    requires forall i | 0 <= i < |rs| :: rs[i].current != Some(k)
    ensures ArrivalsOf(rs, k) == []
  {
    if rs != [] {
      NoArrivals(rs[..|rs| - 1], k);
    }
  }

  lemma EndKeeps(s: State, rs: seq<Request>, closed: bool, life: L.Life)
    requires Inv(s) && Faithful(s, rs, closed) && Past(life, rs) && life.nextId >= s.life.nextId
    requires life.current.Some? ==> life.current.value.id >= s.life.nextId
    ensures Faithful(Dropped(s).(life := life), rs, closed)
  {
    var t := Dropped(s).(life := life);
    DropAnswersAll(s);
    hide Inv, Replayed, Dropped;
    assert s.calls[|rs|] == t.calls[|rs|];
    if life.current.Some? {
      NoArrivals(rs, life.current.value.id);
    }
    forall i | 0 <= i < |rs| ensures Told(t.calls[i], rs, i, CurrentId(life)) {
      assert Told(s.calls[i], rs, i, CurrentId(s.life));
    }
    hide Told, OfSession, Replay;
    assert t.queues == map[] by { DroppedQueues(s); }
  }

  lemma DroppedQueues(s: State)
    ensures Dropped(s).queues == map[]
  {
    hide Cancel;
  }

  lemma LifeMovesOn(s: State, rs: seq<Request>, closed: bool, life: L.Life)
    requires Faithful(s, rs, closed) && life.nextId == s.life.nextId && life.current == s.life.current
    ensures Faithful(s.(life := life), rs, closed)
  {
    hide Told, OfSession, Replay;
  }

  // ---- a call that ends, or stops listening ----

  lemma ReturnKeeps(s: State, rs: seq<Request>, closed: bool, c: nat)
    requires Faithful(s, rs, closed) && HasTag(s, c)
    ensures Faithful(Gone(s, c), rs, closed || s.calls[c].Listening?)
    ensures s.calls[c].Listening? ==> c == |rs| && !closed
  {
    hide OfSession, Replay, Replayed;
    var t := Gone(s, c);
    if c < |rs| {
      assert Told(s.calls[c], rs, c, CurrentId(s.life));
    }
    forall i | 0 <= i < |rs| ensures Told(t.calls[i], rs, i, CurrentId(s.life)) {
      assert Told(s.calls[i], rs, i, CurrentId(s.life));
    }
    hide Told;
  }

  // ---- a request ----

  lemma ArrivalsMore(rs: seq<Request>, r: Request, k: nat)
    ensures ArrivalsOf(rs + [r], k) == ArrivalsOf(rs, k)
              + if Accepted(r) && r.current == Some(k)
                then [Q.Arrival(r.m.channel.value, S.Item(r.m.serial.value, |rs|))] else []
  {
    assert (rs + [r])[..|rs|] == rs;
  }

  lemma {:induction false} OfSessionMore(calls: seq<nat>, rs: seq<Request>, r: Request, k: nat)
    requires forall j | 0 <= j < |calls| :: calls[j] < |rs|
    ensures OfSession(calls, rs + [r], k) == OfSession(calls, rs, k)
  {
    if calls != [] {
      OfSessionMore(calls[..|calls| - 1], rs, r, k);
    }
  }

  lemma {:induction false} OfSessionConcat(a: seq<nat>, b: seq<nat>, rs: seq<Request>, k: nat)
    ensures OfSession(a + b, rs, k) == OfSession(a, rs, k) + OfSession(b, rs, k)
  {
    if b == [] {
      assert a + b == a;
    } else {
      assert (a + b)[..|a + b| - 1] == a + b[..|b| - 1];
      OfSessionConcat(a, b[..|b| - 1], rs, k);
    }
  }

  lemma {:induction false} OfSessionWhole(calls: seq<nat>, rs: seq<Request>, of: nat, k: nat)
    requires forall c | c in calls :: c < |rs| && rs[c].current == Some(of)
    ensures OfSession(calls, rs, k) == if k == of then calls else []
  {
    if calls != [] {
      assert calls[|calls| - 1] in calls;
      OfSessionWhole(calls[..|calls| - 1], rs, of, k);
      assert calls == calls[..|calls| - 1] + [calls[|calls| - 1]];
    }
  }

  lemma {:induction false} OfSessionIn(calls: seq<nat>, rs: seq<Request>, k: nat, c: nat)
    requires c in OfSession(calls, rs, k)
    ensures c in calls
  {
    if c != calls[|calls| - 1] {
      OfSessionIn(calls[..|calls| - 1], rs, k, c);
    }
  }

  lemma {:induction false} CallsConcat(a: seq<Q.Arrival<nat>>, b: seq<Q.Arrival<nat>>)
    ensures CallsIn(a + b) == CallsIn(a) + CallsIn(b)
  {
    if a == [] {
      assert a + b == b;
    } else {
      assert (a + b)[1..] == a[1..] + b;
      CallsConcat(a[1..], b);
    }
  }

  lemma {:induction false} CallsTagged(ch: nat, items: seq<S.Item<nat>>)
    ensures CallsIn(Q.Tagged(ch, items)) == Numbers(items)
  {
    if items != [] {
      assert Q.Tagged(ch, items)[1..] == Q.Tagged(ch, items[1..]);
      CallsTagged(ch, items[1..]);
    }
  }

  /** One more arrival on the log. */
  lemma LogMore(arrivals: seq<Q.Arrival<nat>>, a: Q.Arrival<nat>)
    ensures CallsIn(Q.Log(arrivals + [a]))
         == CallsIn(Q.Log(arrivals)) + Numbers(S.NewlyRun(Q.QueueOf(Q.Received(arrivals), a.channel), a.item))
    ensures Q.Received(arrivals + [a]) == Q.PushedCommand(Q.Received(arrivals), a)
  {
    assert (arrivals + [a])[..|arrivals|] == arrivals;
    var run := S.NewlyRun(Q.QueueOf(Q.Received(arrivals), a.channel), a.item);
    CallsConcat(Q.Log(arrivals), Q.Tagged(a.channel, run));
    CallsTagged(a.channel, run);
    hide S.NewlyRun, Q.PushedCommand;
  }

  lemma {:induction false} NumbersAmong(items: seq<S.Item<nat>>, c: nat)
    ensures c in Numbers(items) <==> Among(items, c)
  {
    if items != [] {
      AmongRest(items, c);
      NumbersAmong(items[1..], c);
    }
  }

  /** A rejected request changes nothing of what is replayed. */
  lemma RejectionKeeps(s: State, rs: seq<Request>, m: Metadata)
    requires Faithful(s, rs, false)
    requires !Accepted(Request(m, CurrentId(s.life)))
    ensures Faithful(Registered(s, |rs|, Finishing(Rejected)), rs + [Request(m, CurrentId(s.life))], false)
  {
    var r := Request(m, CurrentId(s.life));
    var t, more := Registered(s, |rs|, Finishing(Rejected)), rs + [r];
    forall k ensures Replay(more, k) == Replay(rs, k) && ArrivalsOf(more, k) == ArrivalsOf(rs, k)
                  && OfSession(s.ran, more, k) == OfSession(s.ran, rs, k) {
      ArrivalsMore(rs, r, k);
      assert ArrivalsOf(rs, k) + [] == ArrivalsOf(rs, k);
      assert forall j | 0 <= j < |s.ran| :: s.ran[j] in s.ran;
      OfSessionMore(s.ran, rs, r, k);
    }
    hide Replay, OfSession, ArrivalsOf;
    forall i | 0 <= i < |more| ensures Told(t.calls[i], more, i, CurrentId(t.life)) {
      if i < |rs| {
        assert Told(s.calls[i], rs, i, CurrentId(s.life));
      }
    }
    hide Told;
  }

  /** The state after the request of call |rs| was accepted and pushed. */
  function AcceptedState(s: State, rs: seq<Request>, m: Metadata): State
    requires Complete(m) && |s.calls| > |rs|
  {
    Push(Registered(s, |rs|, Queued(m.session.value, m.channel.value, m.serial.value)),
         m.channel.value, S.Item(m.serial.value, |rs|))
  }

  /** Calls that wait, or the new one. */
  predicate Waiting(s: State, rs: seq<Request>, run: seq<nat>) {
    |s.calls| > |rs| && forall c | c in run :: c <= |rs| && (c < |rs| ==> s.calls[c].Queued?)
  }

  /** The items that the push runs. */
  function RunBy(s: State, rs: seq<Request>, m: Metadata): seq<S.Item<nat>>
    requires Complete(m)
  {
    S.NewlyRun(Q.QueueOf(s.queues, m.channel.value), S.Item(m.serial.value, |rs|))
  }

  lemma AcceptedPush(s: State, rs: seq<Request>, m: Metadata)
    requires Inv(s) && Numbered(s, rs, false) && Accepted(Request(m, CurrentId(s.life)))
    ensures var t, run, item := AcceptedState(s, rs, m), Numbers(RunBy(s, rs, m)), S.Item(m.serial.value, |rs|);
            && Waiting(s, rs, run)
            && t.life == s.life && |t.calls| == |s.calls| + 1 && t.ran == s.ran + run
            && t.queues == Q.PushedCommand(s.queues, Q.Arrival(m.channel.value, item))
            && (forall c | 0 <= c <= |s.calls| ::
                  t.calls[c] == if c in run then Finishing(Executed)
                                else if c == |rs| then Queued(m.session.value, m.channel.value, m.serial.value)
                                else if c == |s.calls| then Listening else s.calls[c])
  {
    hide Owes, OwesAllBut, Push, S.NewlyRun, TagsMatch, AnswersMatch, OneListens, Q.PushedCommand, Numbers, Among;
    var judged := Queued(m.session.value, m.channel.value, m.serial.value);
    var u := Registered(s, |rs|, judged);
    RegistrationKeeps(s, |rs|, judged);
    RegistrationOwes(s, |rs|, judged);
    PushAnswers(u, m.channel.value, S.Item(m.serial.value, |rs|));
    forall c ensures c in Numbers(RunBy(s, rs, m)) <==> Among(RunBy(s, rs, m), c) {
      NumbersAmong(RunBy(s, rs, m), c);
    }
    QueuedAmong(u, RunBy(s, rs, m));
  }

  lemma QueuedAmong(s: State, items: seq<S.Item<nat>>)
    requires AllQueued(s, items)
    ensures forall c: nat | Among(items, c) :: c < |s.calls| && s.calls[c].Queued?
  {
  }

  lemma AcceptanceRuns(s: State, rs: seq<Request>, m: Metadata)
    requires Inv(s) && Faithful(s, rs, false) && Accepted(Request(m, CurrentId(s.life)))
    ensures var more, k, run := rs + [Request(m, CurrentId(s.life))], m.session.value, Numbers(RunBy(s, rs, m));
            && Replay(more, k) == Replay(rs, k) + run
            && AcceptedState(s, rs, m).queues == Q.Received(ArrivalsOf(more, k))
  {
    hide Inv, Push, S.NewlyRun, Q.PushedCommand, Numbers, AllTold, OfSession, ArrivalsOf, Q.Received, AcceptedState;
    var r, k := Request(m, CurrentId(s.life)), m.session.value;
    AcceptedPush(s, rs, m);
    ArrivalsMore(rs, r, k);
    LogMore(ArrivalsOf(rs, k), Q.Arrival(m.channel.value, S.Item(m.serial.value, |rs|)));
  }

  lemma ReplayedBefore(s: State, rs: seq<Request>, k: nat, c: nat)
    requires Numbered(s, rs, false) && QueuesReplay(s, rs) && c in Replay(rs, k)
    ensures c < |rs|
  {
    assert OfSession(s.ran, rs, k) == Replay(rs, k);
    OfSessionIn(s.ran, rs, k, c);
  }

  /** A call that waits belongs to an accepted request of the current session. */
  lemma WaitsForCurrent(s: State, rs: seq<Request>, c: nat)
    requires QueuedAreCurrent(s) && |s.calls| > |rs| && AllTold(s, rs) && c < |rs| && s.calls[c].Queued?
    ensures Accepted(rs[c]) && rs[c].current == CurrentId(s.life)
  {
    hide Replay;
    assert Told(s.calls[c], rs, c, CurrentId(s.life));
  }

  lemma RunsAreOfSession(s: State, rs: seq<Request>, r: Request, run: seq<nat>)
    requires QueuedAreCurrent(s) && Waiting(s, rs, run) && AllTold(s, rs)
    requires Accepted(r) && r.current == CurrentId(s.life)
    ensures forall c | c in run ::
              c < |rs + [r]| && (rs + [r])[c].current == CurrentId(s.life) && Accepted((rs + [r])[c])
  {
    hide AllTold;
    forall c | c in run && c < |rs| ensures Accepted(rs[c]) && rs[c].current == CurrentId(s.life) {
      WaitsForCurrent(s, rs, c);
    }
  }

  /** Replay goes on with these calls, in their session. */
  ghost predicate ReplaysMore(rs: seq<Request>, r: Request, run: seq<nat>) {
    forall k: nat :: Replay(rs + [r], k) == Replay(rs, k) + if r.current == Some(k) then run else []
  }

  lemma AcceptanceReplays(s: State, rs: seq<Request>, r: Request, run: seq<nat>)
    requires Numbered(s, rs, false) && QueuesReplay(s, rs) && Accepted(r)
    requires forall c | c in run :: c < |rs + [r]| && (rs + [r])[c].current == r.current
    requires Replay(rs + [r], r.current.value) == Replay(rs, r.current.value) + run
    ensures ReplaysMore(rs, r, run)
    ensures forall k :: OfSession(s.ran + run, rs + [r], k) == Replay(rs + [r], k)
  {
    ReplayOfOthers(rs, r, run);
    hide Replay;
    forall k ensures OfSession(s.ran + run, rs + [r], k) == Replay(rs + [r], k) {
      SessionRuns(s.ran, run, rs, r, k);
      assert OfSession(s.ran, rs, k) == Replay(rs, k);
    }
  }

  lemma ReplayOfOthers(rs: seq<Request>, r: Request, run: seq<nat>)
    requires Accepted(r) && Replay(rs + [r], r.current.value) == Replay(rs, r.current.value) + run
    ensures ReplaysMore(rs, r, run)
  {
    forall k: nat ensures Replay(rs + [r], k) == Replay(rs, k) + if r.current == Some(k) then run else [] {
      ArrivalsMore(rs, r, k);
      assert ArrivalsOf(rs, k) + [] == ArrivalsOf(rs, k) && Replay(rs, k) + [] == Replay(rs, k);
    }
  }

  lemma SessionRuns(ran: seq<nat>, run: seq<nat>, rs: seq<Request>, r: Request, k: nat)
    requires (forall c | c in ran :: c < |rs|) && r.current.Some?
    requires forall c | c in run :: c < |rs + [r]| && (rs + [r])[c].current == r.current
    ensures OfSession(ran + run, rs + [r], k) == OfSession(ran, rs, k) + if r.current == Some(k) then run else []
  {
    assert forall j | 0 <= j < |ran| :: ran[j] in ran;
    OfSessionMore(ran, rs, r, k);
    OfSessionConcat(ran, run, rs + [r], k);
    OfSessionWhole(run, rs + [r], r.current.value, k);
  }

  lemma ToldStill(call: Call, rs: seq<Request>, r: Request, run: seq<nat>, i: nat, current: Option<nat>)
    requires ReplaysMore(rs, r, run) && i < |rs| && i !in run && Told(call, rs, i, current)
    ensures Told(call, rs + [r], i, current)
  {
    hide Replay;
  }

  lemma ToldExecuted(rs: seq<Request>, r: Request, run: seq<nat>, i: nat)
    requires ReplaysMore(rs, r, run) && i < |rs + [r]| && i in run
    requires Accepted((rs + [r])[i]) && (rs + [r])[i].current == r.current
    ensures Told(Finishing(Executed), rs + [r], i, r.current)
  {
    hide Replay;
  }

  lemma ToldQueued(rs: seq<Request>, r: Request, run: seq<nat>)
    requires ReplaysMore(rs, r, run) && Accepted(r) && |rs| !in run
    requires |rs| !in Replay(rs, r.current.value)
    ensures Told(Queued(r.m.session.value, r.m.channel.value, r.m.serial.value), rs + [r], |rs|, r.current)
  {
    hide Replay;
  }

  lemma AcceptanceTold(s: State, t: State, rs: seq<Request>, r: Request, run: seq<nat>)
    requires Faithful(s, rs, false) && Accepted(r) && r.current == CurrentId(s.life) && ReplaysMore(rs, r, run)
    requires forall c | c in run ::
               c < |rs + [r]| && (rs + [r])[c].current == CurrentId(s.life) && Accepted((rs + [r])[c])
    requires |t.calls| == |s.calls| + 1 && t.life == s.life
    requires forall c | 0 <= c < |s.calls| :: t.calls[c] == if c in run then Finishing(Executed)
               else if c == |rs| then Queued(r.m.session.value, r.m.channel.value, r.m.serial.value) else s.calls[c]
    ensures AllTold(t, rs + [r])
  {
    hide Replay, Told, ReplaysMore, QueuesReplay;
    forall i: nat | i < |rs + [r]| ensures Told(t.calls[i], rs + [r], i, CurrentId(t.life)) {
      if i in run {
        ToldExecuted(rs, r, run, i);
      } else if i < |rs| {
        assert Told(s.calls[i], rs, i, CurrentId(s.life));
        ToldStill(s.calls[i], rs, r, run, i, CurrentId(s.life));
      } else {
        if |rs| in Replay(rs, r.current.value) { ReplayedBefore(s, rs, r.current.value, |rs|); }
        ToldQueued(rs, r, run);
      }
    }
  }

  lemma AcceptanceKeeps(s: State, rs: seq<Request>, m: Metadata)
    requires Inv(s) && Faithful(s, rs, false) && Accepted(Request(m, CurrentId(s.life)))
    ensures Faithful(AcceptedState(s, rs, m), rs + [Request(m, CurrentId(s.life))], false)
  {
    hide Replay, OfSession, ArrivalsOf, AcceptedState, AllTold, Q.PushedCommand, Numbers, RunBy, Q.Received, Owes,
      TagsMatch, AnswersMatch, OneListens;
    var t, r, run := AcceptedState(s, rs, m), Request(m, CurrentId(s.life)), Numbers(RunBy(s, rs, m));
    AcceptedPush(s, rs, m);
    AcceptanceRuns(s, rs, m);
    RunsAreOfSession(s, rs, r, run);
    AcceptanceReplays(s, rs, r, run);
    AcceptanceTold(s, t, rs, r, run);
    hide ReplaysMore, Waiting;
    forall c | c in t.ran ensures c < |rs + [r]| {
      assert c in s.ran || c in run;
    }
  }

  // ---- whole runs ----

  lemma LifeOfStep(s: State, a: Action, l: L.State)
    requires Inv(s) && l.life == s.life
    ensures Step(s, a).life == if a.Event? then l.life else L.Step(l, ForSessions(a)[0]).life
  {
    hide Inv, Dropped;
    DropAnswersAll(s);
    if a.Event? { EventKeepsLife(s, a.c, a.ok, a.m); }
  }

  lemma {:induction false} LifeOfRun(actions: seq<Action>)
    ensures Run(actions).life == L.Run(SessionActions(actions)).life
  {
    hide Inv, Step, L.Step;
    if actions != [] {
      var front, last := actions[..|actions| - 1], actions[|actions| - 1];
      var before := SessionActions(front);
      LifeOfRun(front);
      Always(front);
      LifeOfStep(Run(front), last, L.Run(before));
      if last.Event? {
        assert SessionActions(actions) == before;
      } else {
        assert (before + ForSessions(last))[..|before|] == before;
      }
    }
  }

  lemma CurrentOfRun(actions: seq<Action>)
    ensures CurrentId(Run(actions).life) == SessionAt(actions)
  {
    LifeOfRun(actions);
    L.LifeIsAsked(SessionActions(actions));
    hide Run, L.Run, SessionActions;
  }

  lemma EventFaithful(s: State, rs: seq<Request>, closed: bool, c: nat, ok: bool, m: Metadata)
    requires Inv(s) && Faithful(s, rs, closed)
    ensures var t, hears := Step(s, Event(c, ok, m)), c == |rs| && !closed;
            if hears && ok then Faithful(t, rs + [Request(m, CurrentId(s.life))], false)
            else Faithful(t, rs, closed || (hears && !ok))
  {
    assert s.tags[c] == (if HasTag(s, c) then 1 else 0);
    assert s.tags[|rs|] == (if HasTag(s, |rs|) then 1 else 0);
    hide Kept, Owes, AllTold, QueuesReplay, Past, Push, RunBy;
    if c in s.tags {
      if c == |rs| && ok {
        RequestFaithful(s, rs, m);
      } else {
        ReturnKeeps(s, rs, closed, c);
      }
    }
  }

  lemma RequestFaithful(s: State, rs: seq<Request>, m: Metadata)
    requires Inv(s) && Faithful(s, rs, false) && |rs| in s.tags
    ensures Faithful(Step(s, Event(|rs|, true, m)), rs + [Request(m, CurrentId(s.life))], false)
  {
    hide Inv, AllTold, QueuesReplay, Past, Push, RunBy;
    if Accepted(Request(m, CurrentId(s.life))) {
      AcceptanceKeeps(s, rs, m);
    } else {
      RejectionKeeps(s, rs, m);
    }
  }

  lemma LifeFaithful(s: State, rs: seq<Request>, closed: bool, a: Action)
    requires Inv(s) && Faithful(s, rs, closed) && !a.Event?
    ensures Faithful(Step(s, a), rs, closed)
  {
    hide Inv, Numbered, AllTold, QueuesReplay, Dropped;
    match a
    case Enable => LifeMovesOn(s, rs, closed, L.Enabled(s.life));
    case Disable => EndKeeps(s, rs, closed, L.Disabled(s.life));
    case NewSession => if s.life.enabled { EndKeeps(s, rs, closed, L.Reset(s.life)); }
    case Clear(id) =>
      if CurrentId(s.life) == Some(id) { EndKeeps(s, rs, closed, L.Cleared(s.life, id)); }
      else { LifeMovesOn(s, rs, closed, L.Cleared(s.life, id)); }
  }

  lemma {:induction false} AlwaysFaithful(actions: seq<Action>)
    ensures Faithful(Run(actions), Requests(actions), Closed(actions))
  {
    if actions == [] {
      assert forall k :: Replay([], k) == [];
    } else {
      var front, last := actions[..|actions| - 1], actions[|actions| - 1];
      AlwaysFaithful(front);
      Always(front);
      CurrentOfRun(front);
      hide Inv, Faithful, Step, SessionAt;
      match last
      case Event(c, ok, m) => EventFaithful(Run(front), Requests(front), Closed(front), c, ok, m);
      case _ => LifeFaithful(Run(front), Requests(front), Closed(front), last);
    }
  }

  /**
    On every run and for each session: the calls executed are exactly the commands that replay runs of the session's
    accepted requests, in that order.
   */
  lemma ExecutedAsReplayed(actions: seq<Action>, k: nat)
    ensures OfSession(Run(actions).ran, Requests(actions), k) == Replay(Requests(actions), k)
  {
    AlwaysFaithful(actions);
    hide OfSession, Replay, AllTold, Past, Numbered;
  }

  /**
    Every request is answered by what it is: rejected exactly when its metadata is incomplete or names another session
    than the current one; executed exactly when replay has run it; otherwise it waits while its session is current, and
    is cancelled once that has ended.
   */
  lemma AnswerIsTold(actions: seq<Action>, i: nat)
    requires i < |Requests(actions)|
    ensures i < |Run(actions).calls| && Told(Run(actions).calls[i], Requests(actions), i, SessionAt(actions))
  {
    AlwaysFaithful(actions);
    CurrentOfRun(actions);
    hide OfSession, Replay, QueuesReplay, Past;
  }

  lemma ReplayGrows(rs: seq<Request>, r: Request, k: nat)
    ensures Replay(rs, k) <= Replay(rs + [r], k)
  {
    ArrivalsMore(rs, r, k);
    if Accepted(r) && r.current == Some(k) {
      LogMore(ArrivalsOf(rs, k), Q.Arrival(r.m.channel.value, S.Item(r.m.serial.value, |rs|)));
    } else {
      assert ArrivalsOf(rs, k) + [] == ArrivalsOf(rs, k);
    }
    hide S.NewlyRun, ArrivalsOf, CallsIn, Q.Log;
  }

  lemma RequestsMore(actions: seq<Action>, a: Action)
    ensures var rs, more := Requests(actions), Requests(actions + [a]);
            more == rs || (a.Event? && |more| == |rs| + 1 && more == rs + [more[|rs|]]
                           && more[|rs|].current == SessionAt(actions))
    ensures a.Event? ==> SessionAt(actions + [a]) == SessionAt(actions)
  {
    assert (actions + [a])[..|actions|] == actions;
    if a.Event? { assert SessionActions(actions + [a]) == SessionActions(actions); }
    hide L.CurrentSession, SessionActions;
  }

  /** A call becomes cancelled only by an action that ends its session. */
  lemma CancelledAtEnd(actions: seq<Action>, a: Action, i: nat)
    requires i < |Requests(actions + [a])| && i < |Run(actions + [a]).calls|
    requires Answer(Run(actions + [a]).calls[i]) == Some(Cancelled)
    requires i < |Run(actions).calls| ==> Answer(Run(actions).calls[i]) != Some(Cancelled)
    ensures i < |Requests(actions)| && Requests(actions)[i].current == SessionAt(actions) != SessionAt(actions + [a])
  {
    hide Run, Replay, Requests, SessionAt;
    var rs, more := Requests(actions), Requests(actions + [a]);
    AnswerIsTold(actions + [a], i);
    RequestsMore(actions, a);
    if i < |rs| {
      AnswerIsTold(actions, i);
      if rs[i].current.Some? && |more| > |rs| { ReplayGrows(rs, more[|rs|], rs[i].current.value); }
    }
  }
}
