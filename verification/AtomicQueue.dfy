/** The queue that carries rendering commands, in atomic batches, from the update thread to the rendering thread. */
module AtomicQueue {

  datatype Entry<C> = Command(command: C) | CommitMark

  function Marks<C>(q: seq<Entry<C>>): nat {
    if q == [] then 0 else (if q[0].CommitMark? then 1 else 0) + Marks(q[1..])
  }

  function Commands<C>(q: seq<Entry<C>>): seq<C> {
    if q == [] then [] else (if q[0].Command? then [q[0].command] else []) + Commands(q[1..])
  }

  lemma {:induction false} Concat<C>(a: seq<Entry<C>>, b: seq<Entry<C>>)
    ensures Marks(a + b) == Marks(a) + Marks(b) && Commands(a + b) == Commands(a) + Commands(b)
  {
    if a == [] {
      assert a + b == b;
    } else {
      assert (a + b)[1..] == a[1..] + b;
      Concat(a[1..], b);
    }
  }

  lemma Associate<C>(a: seq<C>, b: seq<C>, c: seq<C>)
    ensures a + (b + c) == (a + b) + c
  {
  }

  /** The length of the first batch, its commit mark included. */
  function FirstBatch<C>(q: seq<Entry<C>>): (n: nat)
    requires Marks(q) > 0
    ensures 0 < n <= |q| && q[n - 1].CommitMark?
    ensures forall i | 0 <= i < n - 1 :: q[i].Command?
  {
    if q[0].CommitMark? then 1 else 1 + FirstBatch(q[1..])
  }

  /** Everything up to and including the last commit mark. */
  function Committed<C>(h: seq<Entry<C>>): seq<Entry<C>> {
    if h == [] || h[|h| - 1].CommitMark? then h else Committed(h[..|h| - 1])
  }

  class AtomicCommandQueue<C> {
    var queue: seq<Entry<C>>
    var commitCount: nat
    var executed: seq<C>
    var cancelled: seq<C>

    ghost predicate Valid()
      reads this
    {
      commitCount == Marks(queue)
    }

    constructor ()
      ensures Valid() && queue == [] && executed == [] && cancelled == []
    {
      queue, commitCount, executed, cancelled := [], 0, [], [];
    }

    method Push(command: C)
      requires Valid()
      modifies this`queue
      ensures Valid() && queue == old(queue) + [Command(command)]
    {
      Concat(queue, [Command(command)]);
      queue := queue + [Command(command)];
    }

    method Commit()
      requires Valid()
      modifies this`queue, this`commitCount
      ensures Valid() && queue == old(queue) + [CommitMark]
    {
      Concat(queue, [CommitMark]);
      commitCount := commitCount + 1;
      queue := queue + [CommitMark];
    }

    /** Runs the first batch, if there is a committed one. */
    method ExecuteOnce() returns (some: bool)
      requires Valid()
      modifies this`queue, this`commitCount, this`executed
      ensures Valid() && some == (old(commitCount) > 0)
      ensures !some ==> queue == old(queue) && executed == old(executed)
      ensures some ==> queue == old(queue)[FirstBatch(old(queue))..]
      ensures some ==> executed == old(executed) + Commands(old(queue)[..FirstBatch(old(queue))])
    {
      if commitCount == 0 {
        return false;
      }
      ghost var n, i := FirstBatch(queue), 0;
      while true
        invariant 0 <= i < n && queue == old(queue)[i..]
        invariant commitCount == old(commitCount) == Marks(queue)
        invariant executed == old(executed) + Commands(old(queue)[..i])
        decreases n - i
      {
        assert queue[0] == old(queue)[i];
        assert old(queue)[..i + 1] == old(queue)[..i] + [queue[0]];
        Concat(old(queue)[..i], [queue[0]]);
        if queue[0].CommitMark? {
          assert i == n - 1;
          commitCount := commitCount - 1;
          queue := queue[1..];
          return true;
        }
        executed := executed + [queue[0].command];
        queue := queue[1..];
        i := i + 1;
      }
    }

    /** The destructor: commit marks are dropped, remaining commands cancelled in order. */
    method Destroy()
      requires Valid()
      modifies this
      ensures Valid() && queue == [] && executed == old(executed)
      ensures cancelled == old(cancelled) + Commands(old(queue))
    {
      ghost var total, done := Commands(queue), [];
      while |queue| != 0
        invariant executed == old(executed)
        invariant cancelled == old(cancelled) + done && done + Commands(queue) == total
        decreases |queue|
      {
        ghost var one := if queue[0].Command? then [queue[0].command] else [];
        Associate(done, one, Commands(queue[1..]));
        done := done + one;
        if queue[0].Command? {
          cancelled := cancelled + [queue[0].command];
        }
        queue := queue[1..];
      }
      commitCount := 0;
    }

    /** Remote::UpdateScene: as many batches as are committed on entry. */
    method UpdateScene()
      requires Valid()
      modifies this`queue, this`commitCount, this`executed
      ensures Valid()
      ensures Committed(old(queue)) + queue == old(queue) && Marks(queue) == 0
      ensures executed == old(executed) + Commands(Committed(old(queue)))
    {
      var executeCount := commitCount;
      var i := 0;
      ghost var taken := [];
      while i < executeCount
        invariant 0 <= i <= executeCount
        invariant Valid() && commitCount == executeCount - i
        invariant taken + queue == old(queue) && Whole(taken)
        invariant executed == old(executed) + Commands(taken)
      {
        TakeBatch(taken, queue);
        taken := taken + queue[..FirstBatch(queue)];
        var some := ExecuteOnce();
        if some == false {
          break;
        }
        i := i + 1;
      }
      Concat(taken, queue);
      CommittedIs(taken, queue);
    }
  }

  /** A whole number of batches. */
  ghost predicate Whole<C>(q: seq<Entry<C>>) {
    q == [] || q[|q| - 1].CommitMark?
  }

  lemma {:induction false} OneMark<C>(batch: seq<Entry<C>>)
    requires batch != [] && batch[|batch| - 1].CommitMark?
    requires forall i | 0 <= i < |batch| - 1 :: batch[i].Command?
    ensures Marks(batch) == 1
  {
    if |batch| > 1 {
      OneMark(batch[1..]);
    }
  }

  lemma FirstBatchIsOne<C>(q: seq<Entry<C>>)
    requires Marks(q) > 0
    ensures Whole(q[..FirstBatch(q)]) && Marks(q[FirstBatch(q)..]) == Marks(q) - 1
  {
    var batch, rest := q[..FirstBatch(q)], q[FirstBatch(q)..];
    OneMark(batch);
    assert q == batch + rest;
    Concat(batch, rest);
  }

  lemma TakeBatch<C>(taken: seq<Entry<C>>, q: seq<Entry<C>>)
    requires Marks(q) > 0
    ensures var batch, rest := q[..FirstBatch(q)], q[FirstBatch(q)..];
            && (taken + batch) + rest == taken + q
            && Whole(taken + batch) && Marks(rest) == Marks(q) - 1
            && Commands(taken + batch) == Commands(taken) + Commands(batch)
  {
    var batch := q[..FirstBatch(q)];
    FirstBatchIsOne(q);
    Concat(taken, batch);
    assert batch[|batch| - 1] == (taken + batch)[|taken + batch| - 1];
  }

  lemma {:induction false} CommittedIs<C>(taken: seq<Entry<C>>, rest: seq<Entry<C>>)
    requires Whole(taken) && Marks(rest) == 0
    ensures Committed(taken + rest) == taken
  {
    if rest == [] {
      assert taken + rest == taken;
    } else {
      var front, last := rest[..|rest| - 1], rest[|rest| - 1];
      assert rest == front + [last];
      Concat(front, [last]);
      assert (taken + rest)[..|taken + rest| - 1] == taken + front;
      CommittedIs(taken, front);
    }
  }

  // ---- interleaved at lock granularity, one rendering thread ----

  /** Where the rendering thread is inside ExecuteOnce. */
  datatype Pc<C> =
    | Idle
    | Ready                // saw a commit, has not locked the queue yet
    | Running(command: C)  // took the front by reference and unlocked
    | Ran(command: C)      // Execute returned, about to lock again

  datatype Shared<C> = Shared(
    queue: seq<Entry<C>>, commitCount: int,
    pc: Pc<C>, todo: nat,   // iterations UpdateScene has left
    fault: bool,            // front() taken on an empty list, or ExecuteOnce returned false
    pushed: seq<Entry<C>>, atEntry: seq<Entry<C>>, taken: seq<Entry<C>>, executed: seq<C>)

  datatype Action<C> =
    | Push(command: C) | Commit                   // the update thread
    | BeginUpdate | BeginExecute | Lock | Execute // the rendering thread

  function Start<C>(): Shared<C> {
    Shared([], 0, Idle, 0, false, [], [], [], [])
  }

  /** The loop body of ExecuteOnce from the test of the front to the next unlock. */
  function Look<C>(s: Shared<C>): Shared<C> {
    if s.queue == [] then s.(fault := true)
    else if s.queue[0].CommitMark?
    then s.(commitCount := s.commitCount - 1, queue := s.queue[1..], taken := s.taken + [s.queue[0]],
            pc := Idle, todo := if s.todo > 0 then s.todo - 1 else 0)
    else s.(pc := Running(s.queue[0].command))
  }

  function Popped<C>(s: Shared<C>): Shared<C> {
    if s.queue == [] then s.(fault := true)
    else s.(queue := s.queue[1..], taken := s.taken + [s.queue[0]])
  }

  /** An action that is not enabled changes nothing, so every action sequence is a run. */
  function Step<C>(s: Shared<C>, a: Action<C>): Shared<C> {
    match a
    case Push(c) => s.(queue := s.queue + [Command(c)], pushed := s.pushed + [Command(c)])
    case Commit => s.(queue := s.queue + [CommitMark], pushed := s.pushed + [CommitMark],
                       commitCount := s.commitCount + 1)
    case BeginUpdate =>
      if !s.pc.Idle? || s.todo > 0 || s.commitCount < 0 then s
      else s.(todo := s.commitCount, atEntry := s.pushed)
    case BeginExecute =>
      if !s.pc.Idle? || s.todo == 0 then s
      else if s.commitCount == 0 then s.(todo := 0, fault := true)
      else s.(pc := Ready)
    case Lock =>
      if s.pc.Ready? then Look(s)
      else if s.pc.Ran? then Look(Popped(s))
      else s
    case Execute =>
      if !s.pc.Running? then s
      else s.(pc := Ran(s.pc.command), executed := s.executed + [s.pc.command])
  }

  function Run<C>(actions: seq<Action<C>>): Shared<C> {
    if actions == [] then Start()
    else Step(Run(actions[..|actions| - 1]), actions[|actions| - 1])
  }

  ghost predicate Accounted<C>(s: Shared<C>) {
    && s.taken + s.queue == s.pushed
    && s.atEntry <= s.pushed
    && s.commitCount == Marks(s.queue)
    && s.executed == (if s.pc.Ran? then Commands(s.taken) + [s.pc.command] else Commands(s.taken))
  }

  ghost predicate Controlled<C>(s: Shared<C>) {
    && !s.fault
    && (s.pc.Running? || s.pc.Ran? ==> s.queue != [] && s.queue[0] == Command(s.pc.command))
    && (!s.pc.Idle? ==> s.todo > 0)
    && (s.pc.Idle? ==> Whole(s.taken))
    && Marks(s.taken) + s.todo == Marks(s.atEntry)
    && s.todo <= Marks(s.queue)
  }

  ghost predicate Inv<C>(s: Shared<C>) {
    Accounted(s) && Controlled(s)
  }

  lemma AppendKeepsInv<C>(s: Shared<C>, e: Entry<C>)
    requires Inv(s)
    ensures Inv(Step(s, if e.Command? then Push(e.command) else Commit))
  {
    Concat(s.queue, [e]);
    assert s.taken + (s.queue + [e]) == s.pushed + [e];
  }

  lemma Take<C>(s: Shared<C>)
    requires s.queue != []
    ensures Marks(s.queue) == Marks([s.queue[0]]) + Marks(s.queue[1..])
    ensures Marks(s.taken + [s.queue[0]]) == Marks(s.taken) + Marks([s.queue[0]])
    ensures Commands(s.taken + [s.queue[0]]) == Commands(s.taken) + Commands([s.queue[0]])
    ensures (s.taken + [s.queue[0]]) + s.queue[1..] == s.taken + s.queue
  {
    assert s.queue == [s.queue[0]] + s.queue[1..];
    Concat([s.queue[0]], s.queue[1..]);
    Concat(s.taken, [s.queue[0]]);
  }

  /** What Look needs: the thread is inside ExecuteOnce and a commit mark lies ahead. */
  ghost predicate Looking<C>(s: Shared<C>) {
    && s.taken + s.queue == s.pushed && s.atEntry <= s.pushed
    && s.commitCount == Marks(s.queue) && s.executed == Commands(s.taken)
    && !s.fault && s.todo > 0
    && Marks(s.taken) + s.todo == Marks(s.atEntry) && s.todo <= Marks(s.queue)
  }

  lemma LookKeepsInv<C>(s: Shared<C>)
    requires Looking(s)
    ensures Inv(Look(s))
  {
    if s.queue != [] {
      Take(s);
    }
  }

  lemma PopLooks<C>(s: Shared<C>)
    requires Inv(s) && s.pc.Ran?
    ensures Looking(Popped(s))
  {
    Take(s);
  }

  lemma BeginKeepsInv<C>(s: Shared<C>)
    requires Inv(s)
    ensures Inv(Step(s, BeginUpdate))
  {
    Concat(s.taken, s.queue);
  }

  lemma StepKeepsInv<C>(s: Shared<C>, a: Action<C>)
    requires Inv(s)
    ensures Inv(Step(s, a))
  {
    match a
    case Push(c) => AppendKeepsInv(s, Command(c));
    case Commit => AppendKeepsInv(s, CommitMark);
    case BeginUpdate => BeginKeepsInv(s);
    case Lock =>
      if s.pc.Ran? {
        PopLooks(s);
        LookKeepsInv(Popped(s));
      } else if s.pc.Ready? {
        LookKeepsInv(s);
      }
    case _ =>
  }

  /** In every reachable state: the count equals the marks, executed and remaining entries make up
      the push history, and the front of an empty list is never taken. */
  lemma {:induction false} Always<C>(actions: seq<Action<C>>)
    ensures Inv(Run(actions))
  {
    if actions != [] {
      Always(actions[..|actions| - 1]);
      StepKeepsInv(Run(actions[..|actions| - 1]), actions[|actions| - 1]);
    }
  }

  lemma LongerHasMore<C>(a: seq<Entry<C>>, rest: seq<Entry<C>>)
    requires rest != [] && rest[|rest| - 1].CommitMark?
    ensures Marks(a + rest) > Marks(a)
  {
    var front, last := rest[..|rest| - 1], rest[|rest| - 1];
    assert rest == front + [last];
    Concat(front, [last]);
    Concat(a, rest);
  }

  lemma WholePrefix<C>(taken: seq<Entry<C>>, entry: seq<Entry<C>>)
    requires Whole(taken) && Marks(taken) == Marks(entry)
    requires taken <= entry || entry <= taken
    ensures taken == Committed(entry)
  {
    if |entry| < |taken| {
      assert taken == entry + taken[|entry|..];
      LongerHasMore(entry, taken[|entry|..]);
    } else {
      assert entry == taken + entry[|taken|..];
      Concat(taken, entry[|taken|..]);
      CommittedIs(taken, entry[|taken|..]);
    }
  }

  lemma WholeWhenIdle<C>(s: Shared<C>)
    requires Inv(s) && s.pc.Idle? && s.todo == 0
    ensures s.taken == Committed(s.atEntry) && s.executed == Commands(Committed(s.atEntry))
  {
    assert s.taken <= s.pushed && s.atEntry <= s.pushed;
    if |s.taken| <= |s.atEntry| {
      assert s.taken == s.pushed[..|s.taken|] == s.atEntry[..|s.taken|];
    } else {
      assert s.atEntry == s.pushed[..|s.atEntry|] == s.taken[..|s.atEntry|];
    }
    WholePrefix(s.taken, s.atEntry);
  }

  /**
    Frame atomicity: whenever UpdateScene has returned, what has been executed since the start is
    exactly the batches committed when it was entered, in order and complete, whatever the update
    thread pushed or committed meanwhile.
   */
  lemma FramesAreWhole<C>(actions: seq<Action<C>>)
    requires Run(actions).pc.Idle? && Run(actions).todo == 0
    ensures Run(actions).taken == Committed(Run(actions).atEntry)
    ensures Run(actions).executed == Commands(Committed(Run(actions).atEntry))
  {
    Always(actions);
    WholeWhenIdle(Run(actions));
  }

  /** Actions the rendering thread still needs to finish the ExecuteOnce it is in. */
  ghost function Distance<C>(s: Shared<C>): nat {
    if s.pc.Idle? || Marks(s.queue) == 0 then 0
    else 2 * FirstBatch(s.queue) - (if s.pc.Ran? then 1 else 0)
  }

  lemma {:induction false} FirstBatchAppend<C>(q: seq<Entry<C>>, e: Entry<C>)
    requires Marks(q) > 0
    ensures Marks(q + [e]) > 0 && FirstBatch(q + [e]) == FirstBatch(q)
  {
    Concat(q, [e]);
    if !q[0].CommitMark? {
      assert (q + [e])[1..] == q[1..] + [e];
      FirstBatchAppend(q[1..], e);
    }
  }

  /** ExecuteOnce ends at its first mark: concurrent pushes do not move it away, and two rendering
      actions in a row always bring it closer. */
  lemma ExecuteOnceEnds<C>(actions: seq<Action<C>>, a: Action<C>)
    requires !Run(actions).pc.Idle?
    ensures var s, s' := Run(actions), Step(Run(actions), a);
            && (a.Push? || a.Commit? ==> s'.pc == s.pc && Distance(s') == Distance(s))
            && (a.Execute? && s.pc.Running? ==> Distance(s') < Distance(s))
            && (a.Lock? && s.pc.Ran? ==> Distance(s') < Distance(s))
            && (a.Lock? && s.pc.Ready? ==> !s'.pc.Ready? && Distance(s') <= Distance(s))
  {
    var s := Run(actions);
    Always(actions);
    match a
    case Push(c) => FirstBatchAppend(s.queue, Command(c));
    case Commit => FirstBatchAppend(s.queue, CommitMark);
    case Lock =>
      if s.pc.Ran? {
        Take(s);
      }
    case _ =>
  }

  lemma TakenAndRest<C>(taken: seq<Entry<C>>, queue: seq<Entry<C>>, pushed: seq<Entry<C>>)
    requires taken + queue == pushed
    ensures Commands(pushed) == Commands(taken) + Commands(queue)
  {
    Concat(taken, queue);
  }

  /** Destroyed between frames, the queue has executed or cancels each pushed command exactly once, in order. */
  lemma ExecutedOrCancelled<C>(actions: seq<Action<C>>)
    requires Run(actions).pc.Idle?
    ensures Commands(Run(actions).pushed) == Run(actions).executed + Commands(Run(actions).queue)
  {
    var s := Run(actions);
    Always(actions);
    TakenAndRest(s.taken, s.queue, s.pushed);
  }

  // ---- UpdateScene always gets through ----

  function RunFrom<C>(s: Shared<C>, actions: seq<Action<C>>): Shared<C>
    decreases |actions|
  {
    if actions == [] then s else RunFrom(Step(s, actions[0]), actions[1..])
  }

  predicate OfRenderThread<C>(a: Action<C>) { !a.Push? && !a.Commit? }

  /** What the rendering thread does next inside UpdateScene. */
  function Onward<C>(s: Shared<C>): Action<C> {
    match s.pc
    case Idle => BeginExecute
    case Ready => Lock
    case Running(_) => Execute
    case Ran(_) => Lock
  }

  /** Bounds the actions left until UpdateScene returns. */
  function WorkLeft<C>(s: Shared<C>): nat {
    3 * |s.queue| + match s.pc
                    case Idle => 3
                    case Ready => 2
                    case Running(_) => 1
                    case Ran(_) => 0
  }

  lemma OnwardShrinks<C>(s: Shared<C>)
    requires Inv(s) && !(s.pc.Idle? && s.todo == 0)
    ensures var t := Step(s, Onward(s));
            WorkLeft(t) < WorkLeft(s) && t.pushed == s.pushed && t.atEntry == s.atEntry
  {
    hide Whole, Commands;
    assert s.commitCount == Marks(s.queue) && s.todo <= Marks(s.queue);
  }

  lemma {:induction false} UpdateSceneFinishes<C>(s: Shared<C>) returns (more: seq<Action<C>>)
    requires Inv(s)
    ensures forall a | a in more :: OfRenderThread(a)
    ensures var t := RunFrom(s, more);
            Inv(t) && t.pc.Idle? && t.todo == 0 && t.pushed == s.pushed && t.atEntry == s.atEntry
    decreases WorkLeft(s)
  {
    if s.pc.Idle? && s.todo == 0 {
      more := [];
    } else {
      hide Inv, Step, WorkLeft;
      StepKeepsInv(s, Onward(s));
      OnwardShrinks(s);
      var rest := UpdateSceneFinishes(Step(s, Onward(s)));
      more := [Onward(s)] + rest;
      assert more[1..] == rest;
    }
  }

  /** Called between frames, UpdateScene returns with exactly the batches executed that had been committed by then. */
  lemma UpdateSceneExecutes<C>(s: Shared<C>) returns (more: seq<Action<C>>)
    requires Inv(s) && s.pc.Idle? && s.todo == 0
    ensures forall a | a in more :: OfRenderThread(a)
    ensures var t := RunFrom(s, more);
            && Inv(t) && t.pc.Idle? && t.todo == 0 && t.pushed == s.pushed
            && t.taken == Committed(s.pushed) && t.executed == Commands(Committed(s.pushed))
  {
    hide Marks, Commands, Committed, FirstBatch;
    StepKeepsInv(s, BeginUpdate);
    var s1 := Step(s, BeginUpdate);
    assert s1.atEntry == s.pushed by { CountIsNat(s); }
    var rest := UpdateSceneFinishes(s1);
    more := [BeginUpdate] + rest;
    assert more[1..] == rest;
    WholeWhenIdle(RunFrom(s1, rest));
  }

  lemma CountIsNat<C>(s: Shared<C>)
    requires Inv(s)
    ensures s.commitCount >= 0
  {
  }
}
