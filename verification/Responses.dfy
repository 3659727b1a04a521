/** Session requests on the client: each owes its server exactly one response. */
module Responses {
  import opened Options
  import S = SerialQueue
  import Q = ClientSession
  import L = SessionLifecycle

  datatype Outcome = Rejected | Executed | Cancelled

  /** The life of one caller object. Listening and Queued are one state of the source, told apart by who holds the
      object. */
  datatype Call =
    | Listening                                          // held by the completion queue, no request yet
    | Queued(session: nat, channel: nat, serial: nat)    // held by a command
    | Finishing(outcome: Outcome)                        // answered, held by the completion queue
    | Deleted(last: Option<Outcome>)

  /** A metadata entry that is missing or does not parse is None. */
  datatype Metadata = Metadata(session: Option<nat>, serial: Option<nat>, channel: Option<nat>)

  predicate Complete(m: Metadata) { m.session.Some? && m.serial.Some? && m.channel.Some? }

  /** What becomes of a request when it arrives. */
  function Judged(m: Metadata, current: Option<nat>): Call {
    if Complete(m) && current == m.session
    then Queued(m.session.value, m.channel.value, m.serial.value)
    else Finishing(Rejected)
  }

  class AsyncSessionServiceCaller {
    var state: Call

    constructor ()
      ensures state == Listening
    {
      state := Listening;
    }

    /** The results are meaningful only when every entry parses. */
    method IsSessionContext(m: Metadata) returns (valid: bool, session: nat, serial: nat, channel: nat)
      ensures valid == Complete(m)
      ensures valid ==> m == Metadata(Some(session), Some(serial), Some(channel))
    {
      valid, session, serial, channel := false, 0, 0, 0;
      if m.session.None? { return; }
      if m.serial.None? { return; }
      if m.channel.None? { return; }
      valid, session, serial, channel := true, m.session.value, m.serial.value, m.channel.value;
    }

    /** A request has arrived. A returned command is to be pushed to the current session. */
    method Process(m: Metadata, current: Option<nat>) returns (command: Option<(nat, nat)>)
      requires state == Listening
      modifies this
      ensures state == Judged(m, current)
      ensures command == if state.Queued? then Some((state.serial, state.channel)) else None
    {
      var valid, session, serial, channel := IsSessionContext(m);
      if !valid {
        state := Finishing(Rejected);
        return None;
      }
      if current.None? || current.value != session {
        state := Finishing(Rejected);
        return None;
      }
      state := Queued(session, channel, serial);
      return Some((serial, channel));
    }

    /** The queued command: run in order, or cancelled with its queue. */
    method Command(cancel: bool)
      requires state.Queued?
      modifies this
      ensures state == Finishing(if cancel then Cancelled else Executed)
    {
      if cancel {
        state := Finishing(Cancelled);
        return;
      }
      state := Finishing(Executed);
    }
  }

  /** `tags` is what the completion queue holds, `answers` counts Finish calls, `ran` is the calls executed, in order;
      `fault` records an answer given twice or outside the request's session, and any use of an object that is deleted
      or held by a command. */
  datatype State = State(life: L.Life, queues: Q.Queues<nat>, calls: seq<Call>,
                         tags: multiset<nat>, answers: multiset<nat>, ran: seq<nat>, open: bool, fault: bool)

  datatype Action =
    | Enable | Disable | NewSession | Clear(id: nat)
    | Event(c: nat, ok: bool, m: Metadata)    // the completion queue returns a tag, perhaps with a request

  function Start(): State { State(L.Started(), map[], [Listening], multiset{0}, multiset{}, [], true, false) }

  function CurrentId(l: L.Life): Option<nat> {
    if l.current.Some? then Some(l.current.value.id) else None
  }

  predicate Serves(l: L.Life, session: nat) {
    l.current.Some? && l.current.value.id == session && l.current.value.active
  }

  /** The command of call c runs with this outcome. */
  function Answer(s: State, c: nat, outcome: Outcome): State {
    if c < |s.calls| && s.calls[c].Queued? && (outcome.Executed? ==> Serves(s.life, s.calls[c].session))
    then s.(calls := s.calls[c := Finishing(outcome)],
            tags := s.tags + multiset{c}, answers := s.answers + multiset{c},
            ran := if outcome.Executed? then s.ran + [c] else s.ran)
    else s.(fault := true)
  }

  function AnswerAll(s: State, items: seq<S.Item<nat>>, outcome: Outcome): State
    decreases |items|
  {
    if items == [] then s else AnswerAll(Answer(s, items[0].command, outcome), items[1..], outcome)
  }

  function Push(s: State, channel: nat, item: S.Item<nat>): State {
    var run := S.NewlyRun(Q.QueueOf(s.queues, channel), item);
    AnswerAll(s, run, Executed).(queues := Q.PushedCommand(s.queues, Q.Arrival(channel, item)))
  }

  /** Destroying queues cancels what they hold, queue by queue in any order. */
  ghost function Cancel(s: State, queues: Q.Queues<nat>): State
    decreases |queues|
  {
    if queues == map[] then s
    else
      var ch :| ch in queues;
      Cancel(AnswerAll(s, queues[ch].list, Cancelled), queues - {ch})
  }

  /** The session object dies, with its queues. */
  ghost function Dropped(s: State): State { Cancel(s, s.queues).(queues := map[]) }

  /** The request that call c was listening for arrives; another call takes over listening. */
  function Arrived(s: State, c: nat, m: Metadata): State
    requires c < |s.calls|
  {
    var judged := Judged(m, CurrentId(s.life));
    var s1 := s.(calls := s.calls[c := judged] + [Listening], tags := s.tags + multiset{|s.calls|});
    if judged.Queued? then Push(s1, judged.channel, S.Item(judged.serial, c))
    else s1.(tags := s1.tags + multiset{c}, answers := s1.answers + multiset{c})
  }

  function Returned(s: State, c: nat, ok: bool, m: Metadata): State {
    if c >= |s.calls| || s.calls[c].Queued? || s.calls[c].Deleted? then s.(fault := true)
    else if s.calls[c].Finishing? then s.(calls := s.calls[c := Deleted(Some(s.calls[c].outcome))])
    else if ok then Arrived(s, c, m)
    else s.(calls := s.calls[c := Deleted(None)], open := false)
  }

  /** An action that is not enabled changes nothing, so every action sequence is a run. */
  ghost function Step(s: State, a: Action): State {
    match a
    case Enable => s.(life := L.Enabled(s.life))
    case Disable => Dropped(s).(life := L.Disabled(s.life))
    case NewSession => if s.life.enabled then Dropped(s).(life := L.Reset(s.life)) else s
    case Clear(id) => (if CurrentId(s.life) == Some(id) then Dropped(s) else s).(life := L.Cleared(s.life, id))
    case Event(c, ok, m) => if c in s.tags then Returned(s.(tags := s.tags - multiset{c}), c, ok, m) else s
  }

  ghost function Run(actions: seq<Action>): State {
    if actions == [] then Start() else Step(Run(actions[..|actions| - 1]), actions[|actions| - 1])
  }

  // ---- invariant ----

  predicate Waits(s: State, ch: nat, item: S.Item<nat>) {
    && item.command < |s.calls| && s.calls[item.command].Queued?
    && s.calls[item.command].channel == ch && s.calls[item.command].serial == item.serial
  }

  /** The queues hold each waiting call once, in its channel under its serial, and nothing else. */
  ghost predicate Owes(s: State, queues: Q.Queues<nat>) {
    forall ch, item :: multiset(Q.QueueOf(queues, ch).list)[item] == if Waits(s, ch, item) then 1 else 0
  }

  predicate HasTag(s: State, c: nat) { c < |s.calls| && (s.calls[c].Listening? || s.calls[c].Finishing?) }

  predicate HasAnswer(s: State, c: nat) {
    c < |s.calls| && (s.calls[c].Finishing? || (s.calls[c].Deleted? && s.calls[c].last.Some?))
  }

  ghost predicate TagsMatch(s: State) { forall c :: s.tags[c] == if HasTag(s, c) then 1 else 0 }

  ghost predicate AnswersMatch(s: State) { forall c :: s.answers[c] == if HasAnswer(s, c) then 1 else 0 }

  predicate QueuedAreCurrent(s: State) {
    forall c | 0 <= c < |s.calls| && s.calls[c].Queued? :: Serves(s.life, s.calls[c].session)
  }

  ghost predicate OneListens(s: State) {
    && (forall i, j | 0 <= i < |s.calls| && 0 <= j < |s.calls| ::
          s.calls[i].Listening? && s.calls[j].Listening? ==> i == j)
    && (s.open ==> exists i :: 0 <= i < |s.calls| && s.calls[i].Listening?)
  }

  ghost predicate Kept(s: State) {
    !s.fault && TagsMatch(s) && AnswersMatch(s) && QueuedAreCurrent(s) && OneListens(s)
    && (s.life.current.Some? ==> s.life.current.value.active)
  }

  ghost predicate Inv(s: State) { Kept(s) && Owes(s, s.queues) }

  // ---- answering ----

  predicate SeparateCommands(items: seq<S.Item<nat>>) {
    forall i, j | 0 <= i < j < |items| :: items[i].command != items[j].command
  }

  predicate AllQueued(s: State, items: seq<S.Item<nat>>) {
    forall i | 0 <= i < |items| :: items[i].command < |s.calls| && s.calls[items[i].command].Queued?
  }

  predicate Among(items: seq<S.Item<nat>>, c: nat) { exists i :: 0 <= i < |items| && items[i].command == c }

  /** Calls either stay as they were or, if they waited, are answered with this outcome. */
  ghost predicate OnlyAnswers(s: State, t: State, outcome: Outcome) {
    && |t.calls| == |s.calls|
    && (forall c | 0 <= c < |s.calls| ::
          t.calls[c] == s.calls[c] || (s.calls[c].Queued? && t.calls[c] == Finishing(outcome)))
  }

  function Numbers(items: seq<S.Item<nat>>): seq<nat> {
    if items == [] then [] else [items[0].command] + Numbers(items[1..])
  }

  lemma AnswerKeeps(s: State, c: nat, outcome: Outcome)
    requires Kept(s) && c < |s.calls| && s.calls[c].Queued?
    ensures Kept(Answer(s, c, outcome))
  {
    var t := Answer(s, c, outcome);
    forall i ensures t.tags[i] == (if HasTag(t, i) then 1 else 0)
                  && t.answers[i] == (if HasAnswer(t, i) then 1 else 0) {
      assert s.tags[i] == (if HasTag(s, i) then 1 else 0);
      assert s.answers[i] == (if HasAnswer(s, i) then 1 else 0);
    }
    if s.open {
      var i :| 0 <= i < |s.calls| && s.calls[i].Listening?;
      assert t.calls[i].Listening?;
    }
  }

  lemma AmongRest(items: seq<S.Item<nat>>, c: nat)
    requires items != []
    ensures Among(items, c) <==> items[0].command == c || Among(items[1..], c)
  {
    if i :| 0 < i < |items| && items[i].command == c {
      assert items[1..][i - 1].command == c;
    }
  }

  lemma RestQueued(s: State, items: seq<S.Item<nat>>, outcome: Outcome)
    requires items != [] && AllQueued(s, items) && SeparateCommands(items)
    ensures AllQueued(Answer(s, items[0].command, outcome), items[1..]) && SeparateCommands(items[1..])
  {
  }

  lemma {:induction false} AnswerAllKeeps(s: State, items: seq<S.Item<nat>>, outcome: Outcome)
    requires Kept(s) && AllQueued(s, items) && SeparateCommands(items)
    ensures var t := AnswerAll(s, items, outcome);
            && Kept(t) && t.life == s.life && t.queues == s.queues && |t.calls| == |s.calls|
            && (forall c | 0 <= c < |s.calls| ::
                  t.calls[c] == if Among(items, c) then Finishing(outcome) else s.calls[c])
    decreases |items|
  {
    if items != [] {
      var s1 := Answer(s, items[0].command, outcome);
      assert s.calls[items[0].command].Queued? && s1.life == s.life && s1.queues == s.queues
          && s1.calls == s.calls[items[0].command := Finishing(outcome)];
      AnswerKeeps(s, items[0].command, outcome);
      RestQueued(s, items, outcome);
      hide Kept, AllQueued, SeparateCommands, Answer, Among;
      AnswerAllKeeps(s1, items[1..], outcome);
      forall c: nat ensures Among(items, c) <==> items[0].command == c || Among(items[1..], c) {
        AmongRest(items, c);
      }
    }
  }

  lemma AnswerRuns(s: State, c: nat, outcome: Outcome)
    requires Kept(s) && c < |s.calls| && s.calls[c].Queued?
    ensures var t := Answer(s, c, outcome);
            Kept(t) && t.open == s.open && t.ran == if outcome.Executed? then s.ran + [c] else s.ran
  {
    AnswerKeeps(s, c, outcome);
    hide TagsMatch, AnswersMatch, OneListens;
  }

  /** Answering goes through the items in order. */
  lemma {:induction false} AnswerAllRuns(s: State, items: seq<S.Item<nat>>, outcome: Outcome)
    requires Kept(s) && AllQueued(s, items) && SeparateCommands(items)
    ensures var t := AnswerAll(s, items, outcome);
            t.open == s.open && t.ran == if outcome.Executed? then s.ran + Numbers(items) else s.ran
    decreases |items|
  {
    hide Kept, AllQueued, SeparateCommands, Answer;
    if items != [] {
      var s1 := Answer(s, items[0].command, outcome);
      FirstQueued(s, items);
      AnswerRuns(s, items[0].command, outcome);
      RestQueued(s, items, outcome);
      AnswerAllRuns(s1, items[1..], outcome);
      assert (s.ran + [items[0].command]) + Numbers(items[1..]) == s.ran + Numbers(items);
    } else {
      assert s.ran + [] == s.ran;
    }
  }

  lemma FirstQueued(s: State, items: seq<S.Item<nat>>)
    requires items != [] && AllQueued(s, items)
    ensures items[0].command < |s.calls| && s.calls[items[0].command].Queued?
  {
  }

  /** Items that wait, each counted once, are separate calls. */
  lemma WaitingAreSeparate(s: State, ch: nat, items: seq<S.Item<nat>>)
    requires forall item :: multiset(items)[item] <= if Waits(s, ch, item) then 1 else 0
    ensures AllQueued(s, items) && SeparateCommands(items)
  {
    forall i | 0 <= i < |items| ensures Waits(s, ch, items[i]) {
      assert items[i] in multiset(items);
    }
    forall i, j | 0 <= i < j < |items| ensures items[i].command != items[j].command {
      if items[i] == items[j] {
        S.CountedTwice(items, i, j);
      }
    }
  }

  /** Of what one channel owes, some is answered and the rest goes on waiting; other channels are untouched. */
  lemma AnswerSome(s: State, ch: nat, items: seq<S.Item<nat>>, rest: multiset<S.Item<nat>>, outcome: Outcome)
    requires Kept(s)
    requires forall item :: multiset(items)[item] + rest[item] == if Waits(s, ch, item) then 1 else 0
    ensures var t := AnswerAll(s, items, outcome);
            && Kept(t) && t.life == s.life && t.queues == s.queues && OnlyAnswers(s, t, outcome)
            && (forall item :: rest[item] == if Waits(t, ch, item) then 1 else 0)
            && (forall other, item | other != ch :: Waits(t, other, item) == Waits(s, other, item))
  {
    forall item ensures multiset(items)[item] <= if Waits(s, ch, item) then 1 else 0 {
      assert multiset(items)[item] + rest[item] == if Waits(s, ch, item) then 1 else 0;
    }
    WaitingAreSeparate(s, ch, items);
    AnswerAllKeeps(s, items, outcome);
    hide Kept;
    var t := AnswerAll(s, items, outcome);
    forall i | 0 <= i < |items| ensures Waits(s, ch, items[i]) {
      assert items[i] in multiset(items);
    }
    forall item ensures rest[item] == if Waits(t, ch, item) then 1 else 0 {
      assert multiset(items)[item] + rest[item] == if Waits(s, ch, item) then 1 else 0;
      if item in items {
        assert item in multiset(items) && Among(items, item.command);
      }
    }
  }

  // ---- steps ----

  /** A sweep erases queues with empty lists only. */
  lemma SweepKeepsLists(queues: Q.Queues<nat>, a: Q.Arrival<nat>, ch: nat)
    ensures Q.QueueOf(Q.PushedCommand(queues, a), ch).list == Q.Expected(queues, a, ch).list
  {
  }

  /** Before its push, everything that waits is in a queue except the new item. */
  ghost predicate OwesAllBut(s: State, ch: nat, item: S.Item<nat>) {
    forall other: nat, x :: multiset(Q.QueueOf(s.queues, other).list)[x]
                         == if Waits(s, other, x) && (other, x) != (ch, item) then 1 else 0
  }

  lemma PushSplits(s: State, ch: nat, item: S.Item<nat>)
    requires OwesAllBut(s, ch, item) && Waits(s, ch, item)
    ensures var before := Q.QueueOf(s.queues, ch);
            forall x :: multiset(S.NewlyRun(before, item))[x] + multiset(S.Pushed(before, item).list)[x]
                     == if Waits(s, ch, x) then 1 else 0
  {
    var before := Q.QueueOf(s.queues, ch);
    S.RunLeavesList(before, item);
    hide S.NewlyRun, S.Pushed;
    forall x ensures multiset(S.NewlyRun(before, item))[x] + multiset(S.Pushed(before, item).list)[x]
                  == if Waits(s, ch, x) then 1 else 0 {
      assert (multiset(S.NewlyRun(before, item)) + multiset(S.Pushed(before, item).list))[x]
          == (multiset(before.list) + multiset{item})[x];
      assert multiset(before.list)[x] == if Waits(s, ch, x) && (ch, x) != (ch, item) then 1 else 0;
    }
  }

  /** What a push answers, and with what. */
  lemma PushAnswers(s: State, ch: nat, item: S.Item<nat>)
    requires Kept(s) && Waits(s, ch, item) && OwesAllBut(s, ch, item)
    ensures var run, t := S.NewlyRun(Q.QueueOf(s.queues, ch), item), Push(s, ch, item);
            && t.queues == Q.PushedCommand(s.queues, Q.Arrival(ch, item)) && t.life == s.life && t.open == s.open
            && t.ran == s.ran + Numbers(run) && |t.calls| == |s.calls| && AllQueued(s, run)
            && (forall c | 0 <= c < |s.calls| ::
                  t.calls[c] == if Among(run, c) then Finishing(Executed) else s.calls[c])
  {
    var before := Q.QueueOf(s.queues, ch);
    var run, rest := S.NewlyRun(before, item), S.Pushed(before, item).list;
    PushSplits(s, ch, item);
    hide Kept, S.NewlyRun, S.Pushed;
    forall x ensures multiset(run)[x] <= if Waits(s, ch, x) then 1 else 0 {
      assert multiset(run)[x] + multiset(rest)[x] == if Waits(s, ch, x) then 1 else 0;
    }
    WaitingAreSeparate(s, ch, run);
    AnswerAllKeeps(s, run, Executed);
    AnswerAllRuns(s, run, Executed);
  }

  lemma PushKeeps(s: State, ch: nat, item: S.Item<nat>)
    requires Kept(s) && Waits(s, ch, item) && OwesAllBut(s, ch, item)
    ensures Inv(Push(s, ch, item)) && Push(s, ch, item).life == s.life
  {
    hide Kept;
    var before := Q.QueueOf(s.queues, ch);
    var run, rest := S.NewlyRun(before, item), S.Pushed(before, item).list;
    PushSplits(s, ch, item);
    AnswerSome(s, ch, run, multiset(rest), Executed);
    var t := Push(s, ch, item);
    KeptIgnoresQueues(AnswerAll(s, run, Executed), t.queues);
    hide AnswerAll;
    forall other: nat, x ensures multiset(Q.QueueOf(t.queues, other).list)[x] == if Waits(t, other, x) then 1 else 0 {
      SweepKeepsLists(s.queues, Q.Arrival(ch, item), other);
      hide Q.PushedCommand, S.Pushed;
      assert Waits(t, other, x) == Waits(AnswerAll(s, run, Executed), other, x);
      assert multiset(Q.QueueOf(s.queues, other).list)[x]
          == if Waits(s, other, x) && (other, x) != (ch, item) then 1 else 0;
    }
  }

  lemma KeptIgnoresQueues(s: State, queues: Q.Queues<nat>)
    requires Kept(s)
    ensures Kept(s.(queues := queues))
  {
    var t := s.(queues := queues);
    forall c ensures HasTag(t, c) == HasTag(s, c) && HasAnswer(t, c) == HasAnswer(s, c) {
    }
  }

  lemma {:induction false} CancelKeeps(s: State, queues: Q.Queues<nat>)
    requires Kept(s) && Owes(s, queues)
    ensures var t := Cancel(s, queues);
            && Kept(t) && t.life == s.life && Owes(t, map[]) && OnlyAnswers(s, t, Cancelled)
            && t.ran == s.ran && t.open == s.open
    decreases |queues|
  {
    if queues != map[] {
      hide Kept, Owes, AnswerAll;
      var ch :| ch in queues && Cancel(s, queues) == Cancel(AnswerAll(s, queues[ch].list, Cancelled), queues - {ch});
      CancelOne(s, queues, ch);
      CancelKeeps(AnswerAll(s, queues[ch].list, Cancelled), queues - {ch});
    }
  }

  lemma CancelOne(s: State, queues: Q.Queues<nat>, ch: nat)
    requires Kept(s) && Owes(s, queues) && ch in queues
    ensures var t := AnswerAll(s, queues[ch].list, Cancelled);
            && Kept(t) && t.life == s.life && OnlyAnswers(s, t, Cancelled) && t.ran == s.ran && t.open == s.open
            && Owes(t, queues - {ch})
  {
    hide Kept;
    var t := AnswerAll(s, queues[ch].list, Cancelled);
    forall item ensures multiset(queues[ch].list)[item] == if Waits(s, ch, item) then 1 else 0 {
      assert multiset(Q.QueueOf(queues, ch).list)[item] == if Waits(s, ch, item) then 1 else 0;
    }
    AnswerSome(s, ch, queues[ch].list, multiset{}, Cancelled);
    WaitingAreSeparate(s, ch, queues[ch].list);
    AnswerAllRuns(s, queues[ch].list, Cancelled);
    forall other, item ensures multiset(Q.QueueOf(queues - {ch}, other).list)[item]
                            == if Waits(t, other, item) then 1 else 0 {
      assert multiset(Q.QueueOf(queues, other).list)[item] == if Waits(s, other, item) then 1 else 0;
      assert other == ch ==> multiset{}[item] == if Waits(t, ch, item) then 1 else 0;
    }
  }

  lemma NothingOwed(s: State, ch: nat, item: S.Item<nat>)
    requires Owes(s, map[])
    ensures !Waits(s, ch, item)
  {
    var none: Q.Queues<nat> := map[];
    assert multiset(Q.QueueOf(none, ch).list)[item] == 0;
  }

  lemma NoneWaits(s: State)
    requires Owes(s, map[])
    ensures forall c | 0 <= c < |s.calls| :: !s.calls[c].Queued?
  {
    forall c | 0 <= c < |s.calls| ensures !s.calls[c].Queued? {
      if s.calls[c].Queued? {
        NothingOwed(s, s.calls[c].channel, S.Item(s.calls[c].serial, c));
      }
    }
  }

  /** When a session dies every call it still held is answered, and the next session starts with no queue. */
  lemma DropAnswersAll(s: State)
    requires Inv(s)
    ensures Inv(Dropped(s)) && Dropped(s).life == s.life && OnlyAnswers(s, Dropped(s), Cancelled)
    ensures Dropped(s).ran == s.ran && Dropped(s).open == s.open
    ensures forall c | 0 <= c < |Dropped(s).calls| :: !Dropped(s).calls[c].Queued?
  {
    CancelKeeps(s, s.queues);
    NoneWaits(Cancel(s, s.queues));
    KeptIgnoresQueues(Cancel(s, s.queues), map[]);
    hide Kept;
    assert forall ch, item :: Waits(Dropped(s), ch, item) == Waits(Cancel(s, s.queues), ch, item);
  }

  /** With no call waiting, or the current session unchanged, the life may move on. */
  lemma LifeMoves(s: State, life: L.Life)
    requires Inv(s) && (life.current.Some? ==> life.current.value.active)
    requires life.current == s.life.current || forall c | 0 <= c < |s.calls| :: !s.calls[c].Queued?
    ensures Inv(s.(life := life))
  {
    var t := s.(life := life);
    assert forall c :: HasTag(t, c) == HasTag(s, c) && HasAnswer(t, c) == HasAnswer(s, c);
    assert forall ch, item :: Waits(t, ch, item) == Waits(s, ch, item);
  }

  /** Call c, whose tag came back, is gone. */
  function Gone(s: State, c: nat): State
    requires c < |s.calls| && (s.calls[c].Listening? || s.calls[c].Finishing?)
  {
    if s.calls[c].Finishing? then
      s.(calls := s.calls[c := Deleted(Some(s.calls[c].outcome))], tags := s.tags - multiset{c})
    else s.(calls := s.calls[c := Deleted(None)], tags := s.tags - multiset{c}, open := false)
  }

  lemma GoneKeepsCounts(s: State, c: nat)
    requires TagsMatch(s) && AnswersMatch(s) && HasTag(s, c)
    ensures TagsMatch(Gone(s, c)) && AnswersMatch(Gone(s, c))
  {
    var t := Gone(s, c);
    forall i ensures t.tags[i] == (if HasTag(t, i) then 1 else 0)
                  && t.answers[i] == (if HasAnswer(t, i) then 1 else 0) {
      assert s.tags[i] == (if HasTag(s, i) then 1 else 0);
      assert s.answers[i] == (if HasAnswer(s, i) then 1 else 0);
    }
  }

  lemma GoneListens(s: State, c: nat)
    requires OneListens(s) && HasTag(s, c)
    ensures OneListens(Gone(s, c))
  {
    var t := Gone(s, c);
    if t.open {
      var i :| 0 <= i < |s.calls| && s.calls[i].Listening?;
      assert t.calls[i].Listening?;
    }
  }

  lemma GoneOwes(s: State, c: nat)
    requires Owes(s, s.queues) && HasTag(s, c)
    ensures Owes(Gone(s, c), s.queues)
  {
    assert forall ch, item :: Waits(Gone(s, c), ch, item) == Waits(s, ch, item);
  }

  lemma GoneKeeps(s: State, c: nat)
    requires Inv(s) && HasTag(s, c)
    ensures Inv(Gone(s, c))
  {
    hide TagsMatch, AnswersMatch, OneListens, Owes;
    GoneKeepsCounts(s, c);
    GoneListens(s, c);
    GoneOwes(s, c);
  }

  lemma EventKeeps(s: State, c: nat, ok: bool, m: Metadata)
    requires Inv(s) && c in s.tags
    ensures Inv(Step(s, Event(c, ok, m)))
  {
    assert s.tags[c] == (if HasTag(s, c) then 1 else 0);
    hide Inv;
    if s.calls[c].Listening? && ok {
      ArrivalKeeps(s, c, m);
    } else {
      GoneKeeps(s, c);
    }
  }

  /** The request of call c is judged and call |s.calls| starts to listen, before anything is pushed. */
  function Registered(s: State, c: nat, judged: Call): State
    requires c < |s.calls|
  {
    var t := s.(calls := s.calls[c := judged] + [Listening], tags := s.tags - multiset{c} + multiset{|s.calls|});
    if judged.Queued? then t else t.(tags := t.tags + multiset{c}, answers := t.answers + multiset{c})
  }

  lemma RegistrationKeeps(s: State, c: nat, judged: Call)
    requires Kept(s) && c < |s.calls| && s.calls[c].Listening?
    requires judged.Finishing? || (judged.Queued? && Serves(s.life, judged.session))
    ensures Kept(Registered(s, c, judged))
  {
    var u := Registered(s, c, judged);
    assert TagsMatch(u) && AnswersMatch(u) by {
      hide OneListens, QueuedAreCurrent;
      forall i ensures u.tags[i] == (if HasTag(u, i) then 1 else 0)
                    && u.answers[i] == (if HasAnswer(u, i) then 1 else 0) {
        assert s.tags[i] == (if HasTag(s, i) then 1 else 0);
        assert s.answers[i] == (if HasAnswer(s, i) then 1 else 0);
      }
    }
    assert u.calls[|s.calls|].Listening?;
  }

  /** The new call waits; everything that waited before is in its queue. */
  lemma RegistrationOwes(s: State, c: nat, judged: Call)
    requires Owes(s, s.queues) && c < |s.calls| && s.calls[c].Listening? && (judged.Queued? || judged.Finishing?)
    ensures var u := Registered(s, c, judged);
            if judged.Queued?
            then Waits(u, judged.channel, S.Item(judged.serial, c))
                 && OwesAllBut(u, judged.channel, S.Item(judged.serial, c))
            else Owes(u, u.queues)
  {
    var u := Registered(s, c, judged);
    forall ch: nat, x ensures multiset(Q.QueueOf(u.queues, ch).list)[x] == if Waits(s, ch, x) then 1 else 0 {
    }
    hide Owes;
    forall ch: nat, x ensures Waits(u, ch, x) ==
        (Waits(s, ch, x) || (judged.Queued? && ch == judged.channel && x == S.Item(judged.serial, c))) {
    }
    var item := S.Item(if judged.Queued? then judged.serial else 0, c);
    assert forall ch: nat :: !Waits(s, ch, item);
  }

  lemma ArrivalKeeps(s: State, c: nat, m: Metadata)
    requires Inv(s) && c < |s.calls| && s.calls[c].Listening?
    ensures Inv(Arrived(s.(tags := s.tags - multiset{c}), c, m))
    ensures Arrived(s.(tags := s.tags - multiset{c}), c, m).life == s.life
  {
    var judged := Judged(m, CurrentId(s.life));
    var u := Registered(s, c, judged);
    RegistrationKeeps(s, c, judged);
    RegistrationOwes(s, c, judged);
    hide Kept, Owes, OwesAllBut;
    if judged.Queued? {
      PushKeeps(u, judged.channel, S.Item(judged.serial, c));
    }
  }

  lemma StepInv(s: State, a: Action)
    requires Inv(s)
    ensures Inv(Step(s, a))
  {
    DropAnswersAll(s);
    match a {
      case Enable => LifeMoves(s, L.Enabled(s.life));
      case Disable => LifeMoves(Dropped(s), L.Disabled(s.life));
      case NewSession => if s.life.enabled { LifeMoves(Dropped(s), L.Reset(s.life)); }
      case Clear(id) =>
        if CurrentId(s.life) == Some(id) { LifeMoves(Dropped(s), L.Cleared(s.life, id)); }
        else { LifeMoves(s, L.Cleared(s.life, id)); }
      case Event(c, ok, m) => if c in s.tags { EventKeeps(s, c, ok, m); }
    }
  }

  lemma StartInv()
    ensures Inv(Start())
  {
    assert Start().calls[0].Listening?;
    assert forall ch, item :: !Waits(Start(), ch, item);
  }

  lemma {:induction false} Always(actions: seq<Action>)
    ensures Inv(Run(actions))
  {
    if actions == [] {
      StartInv();
    } else {
      Always(actions[..|actions| - 1]);
      StepInv(Run(actions[..|actions| - 1]), actions[|actions| - 1]);
    }
  }

  /**
    On every run, no call is answered twice, used after deletion, or executed outside its own current session.
    A call that is answered was answered exactly once; any other is listening, was never asked, or still waits.
   */
  lemma ExactlyOneResponse(actions: seq<Action>, c: nat)
    requires c < |Run(actions).calls|
    ensures var s := Run(actions);
            && !s.fault && s.answers[c] <= 1 && s.tags[c] <= 1
            && (s.answers[c] == 0 <==> s.calls[c].Listening? || s.calls[c].Queued? || s.calls[c] == Deleted(None))
            && (s.tags[c] == 1 <==> s.calls[c].Listening? || s.calls[c].Finishing?)
  {
    Always(actions);
    var s := Run(actions);
    assert s.tags[c] == (if HasTag(s, c) then 1 else 0);
    assert s.answers[c] == (if HasAnswer(s, c) then 1 else 0);
  }

  /** A call waits if and only if the current session's queue for its channel holds it, and then just once. */
  lemma PendingIsHeld(actions: seq<Action>, ch: nat, item: S.Item<nat>)
    ensures var s := Run(actions);
            && (item in Q.QueueOf(s.queues, ch).list <==> Waits(s, ch, item))
            && multiset(Q.QueueOf(s.queues, ch).list)[item] <= 1
            && (Waits(s, ch, item) ==> Serves(s.life, s.calls[item.command].session))
  {
    Always(actions);
    var s := Run(actions);
    assert multiset(Q.QueueOf(s.queues, ch).list)[item] == if Waits(s, ch, item) then 1 else 0;
    assert item in Q.QueueOf(s.queues, ch).list <==> item in multiset(Q.QueueOf(s.queues, ch).list);
  }

  /** Completion-queue events do not touch the session. */
  lemma EventKeepsLife(s: State, c: nat, ok: bool, m: Metadata)
    requires Inv(s)
    ensures Step(s, Event(c, ok, m)).life == s.life
  {
    if c in s.tags {
      assert s.tags[c] == (if HasTag(s, c) then 1 else 0);
      if s.calls[c].Listening? && ok {
        ArrivalKeeps(s, c, m);
      }
    }
  }

  /** The end of a session, by whatever call, leaves none of its requests unanswered. */
  lemma NoResponseOutlivesSession(actions: seq<Action>, a: Action, c: nat)
    requires c < |Run(actions).calls| && Run(actions).calls[c].Queued?
    requires CurrentId(Step(Run(actions), a).life) != CurrentId(Run(actions).life)
    ensures var t := Step(Run(actions), a);
            c < |t.calls| && t.calls[c] == Finishing(Cancelled) && t.answers[c] == 1
  {
    Always(actions);
    var s, t := Run(actions), Step(Run(actions), a);
    StepInv(s, a);
    DropAnswersAll(s);
    if a.Event? {
      EventKeepsLife(s, a.c, a.ok, a.m);
    }
    assert t.calls == Dropped(s).calls by { hide Inv, OnlyAnswers; }
    assert t.answers[c] == (if HasAnswer(t, c) then 1 else 0);
  }
}
