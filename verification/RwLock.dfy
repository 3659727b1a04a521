/**
  The writer-preferring readers-writer lock, for any number of threads that do not re-enter.
  Each action is one stretch of a thread between taking mtx_ and releasing it (by return or by
  going to sleep on the condition variable).
 */
module RwLock {

  /** Threads outside the protocol have no entry. A sleeping thread may have been notified. */
  datatype Pc = ReadWait(notified: bool) | Reading | WriteWait(notified: bool) | Writing

  datatype State = State(activeReaders: int, waitingWriters: int, writerActive: bool, pcs: map<nat, Pc>)

  datatype Action =
    | BeginRead(t: nat) | EndRead(t: nat)
    | BeginWrite(t: nat) | EndWrite(t: nat)
    | Wake(t: nat)  // a sleeper, notified or spuriously woken, re-evaluates its predicate

  function Start(): State { State(0, 0, false, map[]) }

  function NotifyAll(pcs: map<nat, Pc>): map<nat, Pc> {
    map t | t in pcs ::
      match pcs[t]
      case ReadWait(_) => ReadWait(true)
      case WriteWait(_) => WriteWait(true)
      case pc => pc
  }

  predicate MayRead(s: State) { s.waitingWriters == 0 && !s.writerActive }

  predicate MayWrite(s: State) { s.activeReaders == 0 && s.writerActive == false }

  function TryRead(s: State, t: nat): State {
    if MayRead(s)
    then s.(activeReaders := s.activeReaders + 1, pcs := s.pcs[t := Reading])
    else s.(pcs := s.pcs[t := ReadWait(false)])
  }

  function TryWrite(s: State, t: nat): State {
    if MayWrite(s)
    then s.(waitingWriters := s.waitingWriters - 1, writerActive := true, pcs := s.pcs[t := Writing])
    else s.(pcs := s.pcs[t := WriteWait(false)])
  }

  /** An action that is not enabled changes nothing, so every action sequence is a run. */
  function Step(s: State, a: Action): State {
    match a
    case BeginRead(t) =>
      if t in s.pcs then s else TryRead(s, t)
    case EndRead(t) =>
      if t !in s.pcs || !s.pcs[t].Reading? then s
      else
        var s' := s.(activeReaders := s.activeReaders - 1, pcs := s.pcs - {t});
        if s'.activeReaders == 0 then s'.(pcs := NotifyAll(s'.pcs)) else s'
    case BeginWrite(t) =>
      if t in s.pcs then s else TryWrite(s.(waitingWriters := s.waitingWriters + 1), t)
    case EndWrite(t) =>
      if t !in s.pcs || !s.pcs[t].Writing? then s
      else s.(writerActive := false, pcs := NotifyAll(s.pcs - {t}))
    case Wake(t) =>
      if t !in s.pcs then s
      else if s.pcs[t].ReadWait? then TryRead(s, t)
      else if s.pcs[t].WriteWait? then TryWrite(s, t)
      else s
  }

  function RunFrom(s: State, actions: seq<Action>): State {
    if actions == [] then s
    else Step(RunFrom(s, actions[..|actions| - 1]), actions[|actions| - 1])
  }

  function Run(actions: seq<Action>): State { RunFrom(Start(), actions) }

  class ReadersWriterLock {
    var activeReaders: int
    var waitingWriters: int
    var writerActive: bool
    ghost var pcs: map<nat, Pc>

    ghost function Value(): State
      reads this
    {
      State(activeReaders, waitingWriters, writerActive, pcs)
    }

    constructor ()
      ensures Value() == Start()
    {
      activeReaders, waitingWriters, writerActive, pcs := 0, 0, false, map[];
    }

    /** One evaluation of the wait in BeginRead; `entered` is false when the thread goes (back) to sleep. */
    method BeginRead(ghost t: nat) returns (entered: bool)
      requires t !in pcs || pcs[t].ReadWait?
      modifies this
      ensures Value() == Step(old(Value()), if t in old(pcs) then Wake(t) else Action.BeginRead(t))
      ensures entered <==> pcs[t].Reading?
    {
      entered := waitingWriters == 0 && !writerActive;
      if entered {
        activeReaders := activeReaders + 1;
        pcs := pcs[t := Reading];
      } else {
        pcs := pcs[t := ReadWait(false)];
      }
    }

    method EndRead(ghost t: nat)
      requires t in pcs && pcs[t].Reading?
      modifies this
      ensures Value() == Step(old(Value()), Action.EndRead(t))
    {
      activeReaders := activeReaders - 1;
      pcs := pcs - {t};
      if activeReaders == 0 {
        pcs := NotifyAll(pcs);
      }
    }

    /** BeginWrite up to its first wait, or (for a sleeper) one more evaluation of that wait. */
    method BeginWrite(ghost t: nat, first: bool) returns (entered: bool)
      requires if first then t !in pcs else t in pcs && pcs[t].WriteWait?
      modifies this
      ensures Value() == Step(old(Value()), if first then Action.BeginWrite(t) else Wake(t))
      ensures entered <==> pcs[t].Writing?
    {
      if first {
        waitingWriters := waitingWriters + 1;
      }
      entered := activeReaders == 0 && writerActive == false;
      if entered {
        waitingWriters := waitingWriters - 1;
        writerActive := true;
        pcs := pcs[t := Writing];
      } else {
        pcs := pcs[t := WriteWait(false)];
      }
    }

    method EndWrite(ghost t: nat)
      requires t in pcs && pcs[t].Writing?
      modifies this
      ensures Value() == Step(old(Value()), Action.EndWrite(t))
    {
      writerActive := false;
      pcs := NotifyAll(pcs - {t});
    }
  }

  function Readers(pcs: map<nat, Pc>): set<nat> { set t | t in pcs && pcs[t].Reading? }

  function Writers(pcs: map<nat, Pc>): set<nat> { set t | t in pcs && pcs[t].Writing? }

  function WaitingWriters(pcs: map<nat, Pc>): set<nat> { set t | t in pcs && pcs[t].WriteWait? }

  /** The counters count threads, and readers and writers exclude each other. */
  ghost predicate Safe(s: State) { Counted(s, Readers(s.pcs), Writers(s.pcs), WaitingWriters(s.pcs)) }

  ghost predicate Counted(s: State, readers: set<nat>, writers: set<nat>, waiting: set<nat>) {
    && s.activeReaders == |readers|
    && s.waitingWriters == |waiting|
    && (s.writerActive <==> writers != {})
    && |writers| <= 1
    && (writers == {} || readers == {})
  }

  /** No lost wakeup: a thread asleep and not notified has a false wait predicate. */
  ghost predicate NoLostWakeup(s: State) {
    && (forall t | t in s.pcs && s.pcs[t] == ReadWait(false) :: !MayRead(s))
    && (forall t | t in s.pcs && s.pcs[t] == WriteWait(false) :: !MayWrite(s))
  }

  lemma Assign(pcs: map<nat, Pc>, t: nat, pc: Pc)
    ensures Readers(pcs[t := pc]) == if pc.Reading? then Readers(pcs) + {t} else Readers(pcs) - {t}
    ensures Writers(pcs[t := pc]) == if pc.Writing? then Writers(pcs) + {t} else Writers(pcs) - {t}
    ensures WaitingWriters(pcs[t := pc])
         == if pc.WriteWait? then WaitingWriters(pcs) + {t} else WaitingWriters(pcs) - {t}
  {
  }

  lemma Leave(pcs: map<nat, Pc>, t: nat)
    ensures Readers(pcs - {t}) == Readers(pcs) - {t}
    ensures Writers(pcs - {t}) == Writers(pcs) - {t}
    ensures WaitingWriters(pcs - {t}) == WaitingWriters(pcs) - {t}
  {
  }

  lemma NotifyMovesNobody(pcs: map<nat, Pc>)
    ensures Readers(NotifyAll(pcs)) == Readers(pcs)
    ensures Writers(NotifyAll(pcs)) == Writers(pcs)
    ensures WaitingWriters(NotifyAll(pcs)) == WaitingWriters(pcs)
  {
  }

  lemma AtMostOne(s: set<nat>, t: nat)
    requires |s| <= 1 && t in s
    ensures s == {t}
  {
    assert |s - {t}| == 0;
  }

  lemma TryReadSafe(s: State, t: nat)
    requires Safe(s) && (t in s.pcs ==> s.pcs[t].ReadWait?)
    ensures Safe(TryRead(s, t))
  {
    assert t !in Readers(s.pcs) && t !in Writers(s.pcs) && t !in WaitingWriters(s.pcs);
    if MayRead(s) {
      Assign(s.pcs, t, Reading);
    } else {
      Assign(s.pcs, t, ReadWait(false));
    }
  }

  lemma FirstTryWriteSafe(s: State, t: nat)
    requires Safe(s) && t !in s.pcs
    ensures Safe(Step(s, BeginWrite(t)))
  {
    Assign(s.pcs, t, Step(s, BeginWrite(t)).pcs[t]);
    assert t !in Readers(s.pcs) && t !in Writers(s.pcs) && t !in WaitingWriters(s.pcs);
  }

  lemma WriterEnters(s: State, r: set<nat>, w: set<nat>, q: set<nat>, t: nat)
    requires Counted(s, r, w, q) && MayWrite(s) && t in q
    ensures Counted(TryWrite(s, t), r - {t}, w + {t}, q - {t})
  {
    assert r == {} && w == {};
  }

  lemma WriterWaits(s: State, r: set<nat>, w: set<nat>, q: set<nat>, t: nat)
    requires Counted(s, r, w, q) && !MayWrite(s) && t in q && t !in r && t !in w
    ensures Counted(TryWrite(s, t), r - {t}, w - {t}, q + {t})
  {
    assert r - {t} == r && w - {t} == w && q + {t} == q;
  }

  lemma NextTryWriteSafe(s: State, t: nat)
    requires Safe(s) && t in s.pcs && s.pcs[t].WriteWait?
    ensures Safe(TryWrite(s, t))
  {
    var r, w, q := Readers(s.pcs), Writers(s.pcs), WaitingWriters(s.pcs);
    assert t !in r && t !in w && t in q;
    hide Counted;
    if MayWrite(s) {
      Assign(s.pcs, t, Writing);
      WriterEnters(s, r, w, q, t);
    } else {
      Assign(s.pcs, t, WriteWait(false));
      WriterWaits(s, r, w, q, t);
    }
  }

  lemma EndSafe(s: State, t: nat)
    requires Safe(s) && t in s.pcs
    ensures s.pcs[t].Reading? ==> Safe(Step(s, EndRead(t)))
    ensures s.pcs[t].Writing? ==> Safe(Step(s, EndWrite(t)))
  {
    Leave(s.pcs, t);
    NotifyMovesNobody(s.pcs - {t});
    if s.pcs[t].Reading? {
      assert t in Readers(s.pcs) && t !in Writers(s.pcs) && t !in WaitingWriters(s.pcs);
    } else if s.pcs[t].Writing? {
      assert t in Writers(s.pcs) && t !in Readers(s.pcs) && t !in WaitingWriters(s.pcs);
      AtMostOne(Writers(s.pcs), t);
    }
  }

  lemma StepSafe(s: State, a: Action)
    requires Safe(s)
    ensures Safe(Step(s, a))
  {
    match a
    case BeginRead(t) => if t !in s.pcs { TryReadSafe(s, t); }
    case BeginWrite(t) => if t !in s.pcs { FirstTryWriteSafe(s, t); }
    case Wake(t) =>
      if t in s.pcs && s.pcs[t].ReadWait? {
        TryReadSafe(s, t);
      } else if t in s.pcs && s.pcs[t].WriteWait? {
        NextTryWriteSafe(s, t);
      }
    case EndRead(t) => if t in s.pcs { EndSafe(s, t); }
    case EndWrite(t) => if t in s.pcs { EndSafe(s, t); }
  }

  lemma StepKeepsWakeups(s: State, a: Action)
    requires Safe(s) && NoLostWakeup(s)
    ensures NoLostWakeup(Step(s, a))
  {
    match a
    case EndRead(t) =>
      if t in s.pcs && s.pcs[t].Reading? {
        assert t in Readers(s.pcs);
      }
    case Wake(t) =>
      if t in s.pcs && s.pcs[t].WriteWait? {
        assert t in WaitingWriters(s.pcs);
      }
    case _ =>
  }

  /** In every reachable state, whatever the interleaving and the spurious wakeups. */
  lemma {:induction false} Always(actions: seq<Action>)
    ensures Safe(Run(actions)) && NoLostWakeup(Run(actions))
  {
    if actions == [] {
      assert Readers(map[]) == {} && Writers(map[]) == {} && WaitingWriters(map[]) == {};
    } else {
      var n := |actions| - 1;
      Always(actions[..n]);
      StepSafe(Run(actions[..n]), actions[n]);
      StepKeepsWakeups(Run(actions[..n]), actions[n]);
    }
  }

  /** Mutual exclusion, thread by thread. */
  lemma MutualExclusion(actions: seq<Action>, t: nat, u: nat)
    requires t in Run(actions).pcs && Run(actions).pcs[t].Writing?
    requires u in Run(actions).pcs && u != t
    ensures !Run(actions).pcs[u].Writing? && !Run(actions).pcs[u].Reading?
  {
    var s := Run(actions);
    Always(actions);
    assert t in Writers(s.pcs);
    AtMostOne(Writers(s.pcs), t);
    assert u !in Writers(s.pcs) && u !in Readers(s.pcs);
  }

  lemma NobodyCounted(s: set<nat>)
    ensures |s| == 0 <==> s == {}
  {
  }

  /** Readers share: a thread that asks to read gets in at once if and only if no writer is in or waits, whoever else
      reads; those who read go on. */
  lemma ReaderEntersIff(actions: seq<Action>, t: nat)
    requires t !in Run(actions).pcs
    ensures var s, r := Run(actions), Step(Run(actions), BeginRead(t));
            var enters := Writers(s.pcs) == {} && WaitingWriters(s.pcs) == {};
            && Readers(r.pcs) == Readers(s.pcs) + (if enters then {t} else {})
            && r.pcs[t] == if enters then Reading else ReadWait(false)
  {
    Always(actions);
    NobodyCounted(WaitingWriters(Run(actions).pcs));
    Assign(Run(actions).pcs, t, Reading);
    Assign(Run(actions).pcs, t, ReadWait(false));
  }

  /** A thread that asks to write gets in at once if and only if nobody reads or writes. */
  lemma WriterEntersIff(actions: seq<Action>, t: nat)
    requires t !in Run(actions).pcs
    ensures var s, r := Run(actions), Step(Run(actions), BeginWrite(t));
            r.pcs[t] == if Readers(s.pcs) == {} && Writers(s.pcs) == {} then Writing else WriteWait(false)
  {
    Always(actions);
    NobodyCounted(Readers(Run(actions).pcs));
  }

  /** No deadlock: if any thread is inside, one of them leaves, or is awake and will get in. */
  lemma NoDeadlock(actions: seq<Action>)
    requires Run(actions).pcs != map[]
    ensures var s := Run(actions);
            exists t | t in s.pcs ::
              || s.pcs[t].Reading? || s.pcs[t].Writing?
              || (s.pcs[t] == ReadWait(true) && MayRead(s))
              || (s.pcs[t] == WriteWait(true) && MayWrite(s))
  {
    var s := Run(actions);
    Always(actions);
    if t :| t in s.pcs && (s.pcs[t].Reading? || s.pcs[t].Writing?) {
    } else {
      assert Readers(s.pcs) == {} && Writers(s.pcs) == {};
      if t :| t in s.pcs && s.pcs[t].WriteWait? {
        assert s.pcs[t] == WriteWait(true);
      } else {
        assert WaitingWriters(s.pcs) == {};
        var t :| t in s.pcs;
        assert s.pcs[t] == ReadWait(true);
      }
    }
  }

  /** Writer preference: while a writer waits, the set of active readers only shrinks. */
  lemma {:induction false} ReadersDrain(s: State, actions: seq<Action>)
    requires Safe(s)
    requires forall k | 0 <= k < |actions| :: RunFrom(s, actions[..k]).waitingWriters > 0
    ensures Safe(RunFrom(s, actions))
    ensures Readers(RunFrom(s, actions).pcs) <= Readers(s.pcs)
  {
    if actions != [] {
      var n := |actions| - 1;
      forall k | 0 <= k < n ensures RunFrom(s, actions[..n][..k]).waitingWriters > 0 {
        assert actions[..n][..k] == actions[..k];
      }
      ReadersDrain(s, actions[..n]);
      StepSafe(RunFrom(s, actions[..n]), actions[n]);
      NoReaderEnters(RunFrom(s, actions[..n]), actions[n]);
    }
  }

  lemma NoReaderEnters(s: State, a: Action)
    requires s.waitingWriters > 0
    ensures Readers(Step(s, a).pcs) <= Readers(s.pcs)
  {
  }

  // ---- without new arrivals every thread gets through ----

  function Inside(pcs: map<nat, Pc>): set<nat> { set t | t in pcs && (pcs[t].Reading? || pcs[t].Writing?) }

  function Awake(pcs: map<nat, Pc>): set<nat> {
    set t | t in pcs && (pcs[t] == ReadWait(true) || pcs[t] == WriteWait(true))
  }

  /** An action of a thread already inside the protocol, other than a spurious wakeup. */
  predicate Due(s: State, a: Action) {
    match a
    case EndRead(t) => t in s.pcs && s.pcs[t].Reading?
    case EndWrite(t) => t in s.pcs && s.pcs[t].Writing?
    case Wake(t) => t in s.pcs && (s.pcs[t] == ReadWait(true) || s.pcs[t] == WriteWait(true))
    case _ => false
  }

  /** Two per sleeping thread, one per thread inside. */
  function Work(pcs: map<nat, Pc>): int { 2 * |pcs| - |Inside(pcs)| }

  lemma SameSize(pcs: map<nat, Pc>)
    ensures |NotifyAll(pcs)| == |pcs| && Inside(NotifyAll(pcs)) == Inside(pcs)
  {
    assert NotifyAll(pcs).Keys == pcs.Keys;
    assert |NotifyAll(pcs)| == |NotifyAll(pcs).Keys| && |pcs| == |pcs.Keys|;
  }

  lemma LeaveWork(pcs: map<nat, Pc>, t: nat)
    requires t in Inside(pcs)
    ensures Work(pcs - {t}) == Work(pcs) - 1
  {
    assert (pcs - {t}).Keys == pcs.Keys - {t};
    assert Inside(pcs - {t}) == Inside(pcs) - {t};
    assert |pcs - {t}| == |(pcs - {t}).Keys| && |pcs| == |pcs.Keys|;
  }

  lemma EnterWork(pcs: map<nat, Pc>, t: nat, pc: Pc)
    requires t in pcs && t !in Inside(pcs)
    ensures |pcs[t := pc]| == |pcs|
    ensures Inside(pcs[t := pc]) == if pc.Reading? || pc.Writing? then Inside(pcs) + {t} else Inside(pcs)
  {
    assert pcs[t := pc].Keys == pcs.Keys;
    assert |pcs[t := pc]| == |pcs[t := pc].Keys| && |pcs| == |pcs.Keys|;
  }

  lemma SleepAgain(pcs: map<nat, Pc>, t: nat, pc: Pc)
    requires t in Awake(pcs) && (pc == ReadWait(false) || pc == WriteWait(false))
    ensures Awake(pcs[t := pc]) == Awake(pcs) - {t}
  {
  }

  lemma WakeCounts(pcs: map<nat, Pc>, t: nat, pc: Pc)
    requires t in Awake(pcs) && t !in Inside(pcs)
    requires pc.Reading? || pc.Writing? || pc == ReadWait(false) || pc == WriteWait(false)
    ensures || Work(pcs[t := pc]) < Work(pcs)
            || (Work(pcs[t := pc]) == Work(pcs) && Awake(pcs[t := pc]) < Awake(pcs))
  {
    EnterWork(pcs, t, pc);
    if !pc.Reading? && !pc.Writing? {
      SleepAgain(pcs, t, pc);
    }
    hide Awake, Inside;
  }

  /**
    Every due action shrinks (Work, Awake) lexicographically: without new arrivals and spurious
    wakeups the protocol cannot go on for ever, and by NoDeadlock it can only stop when empty.
   */
  lemma DueActionsRunOut(s: State, a: Action)
    requires Due(s, a)
    ensures var s' := Step(s, a);
            || Work(s'.pcs) < Work(s.pcs)
            || (Work(s'.pcs) == Work(s.pcs) && Awake(s'.pcs) < Awake(s.pcs))
  {
    match a
    case EndRead(t) =>
      LeaveWork(s.pcs, t);
      SameSize(s.pcs - {t});
      hide Awake, Inside, NotifyAll;
    case EndWrite(t) =>
      LeaveWork(s.pcs, t);
      SameSize(s.pcs - {t});
      hide Awake, Inside, NotifyAll;
    case Wake(t) =>
      var pc := Step(s, a).pcs[t];
      WakeCounts(s.pcs, t, pc);
  }

  lemma SomethingIsDue(actions: seq<Action>)
    ensures Run(actions).pcs == map[] || exists a :: Due(Run(actions), a)
  {
    var s := Run(actions);
    if s.pcs != map[] {
      NoDeadlock(actions);
      var t :| t in s.pcs && (s.pcs[t].Reading? || s.pcs[t].Writing?
        || s.pcs[t] == ReadWait(true) || s.pcs[t] == WriteWait(true));
      assert Due(s, if s.pcs[t].Reading? then EndRead(t) else if s.pcs[t].Writing? then EndWrite(t) else Wake(t));
    }
  }
}
