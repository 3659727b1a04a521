/** The update thread, the queue and the render thread's UpdateScene together: what the scene shows whenever UpdateScene
    has returned. */
module RenderLoop {
  import opened Options
  import Scene
  import CommitEffect
  import opened F = Frame
  import opened Shown
  import Q = AtomicQueue
  import V = VertexArray

  type Entry = Q.Entry<Scene.Event>

  /** An event as it goes into the queue; calls on the update thread do not. */
  function EntryOf(e: Scene.Event): seq<Entry> {
    if e.CommitMark? then [Q.CommitMark] else if Scene.IsCommand(e) then [Q.Command(e)] else []
  }

  function Entries(log: seq<Scene.Event>): seq<Entry> {
    if log == [] then [] else Entries(log[..|log| - 1]) + EntryOf(log[|log| - 1])
  }

  /** `acts` is the run of the frame so far; `backlog` is what the current edit has still to push. */
  datatype System = System(acts: seq<Act>, queue: Q.Shared<Scene.Event>, backlog: seq<Entry>)

  datatype Move =
    | Edit(a: Scene.Action) | PushNext       // the update thread
    | Render(q: Q.Action<Scene.Event>)       // the render thread, inside UpdateScene
    | Draw(d: Act)                           // the render thread draws

  function Begin(): System { System([], Q.Start(), []) }

  /** The entries executed or dropped. */
  function Handled(q: Q.Shared<Scene.Event>): seq<Entry> {
    q.taken + if q.pc.Ran? then [Q.Command(q.pc.command)] else []
  }

  /** The way from x to behind the next queue entry. */
  function NextEntry(log: seq<Scene.Event>, x: nat): (n: nat)
    requires x <= |log|
    ensures x + n <= |log|
    decreases |log| - x
  {
    if x == |log| then 0 else if EntryOf(log[x]) != [] then 1 else 1 + NextEntry(log, x + 1)
  }

  function Executes(n: nat): seq<Act> { if n == 0 then [] else Executes(n - 1) + [Execute] }

  /** Once the queue has executed a command or dropped a mark, so has the frame. */
  function Followed(ls: Locations, s: System, q: Q.Shared<Scene.Event>): System {
    var f := F.Run(ls, s.acts);
    if |Handled(q)| > |Handled(s.queue)| && Behind(f)
    then System(s.acts + Executes(NextEntry(f.scene.log, Position(f))), q, s.backlog)
    else s.(queue := q)
  }

  function Pushed(s: System): System
    requires s.backlog != []
  {
    var e := s.backlog[0];
    s.(queue := Q.Step(s.queue, if e.Command? then Q.Push(e.command) else Q.Commit), backlog := s.backlog[1..])
  }

  function EditBegun(ls: Locations, s: System, a: Scene.Action): System {
    var before, after := F.Run(ls, s.acts).scene, Scene.Step(F.Run(ls, s.acts).scene, a);
    if |before.log| > |after.log| then s
    else System(s.acts + [F.Edit(a)], s.queue, Entries(after.log[|before.log|..]))
  }

  /** An action that is not enabled changes nothing, so every sequence is a run. An edit pushes its entries one by
      one. */
  function Moved(ls: Locations, s: System, m: Move): System {
    match m
    case Edit(a) => if s.backlog == [] then EditBegun(ls, s, a) else s
    case PushNext => if s.backlog == [] then s else Pushed(s)
    case Render(a) => if a.Push? || a.Commit? then s else Followed(ls, s, Q.Step(s.queue, a))
    case Draw(d) => if d.SetupTextures? || d.VisitUnits? then s.(acts := s.acts + [d]) else s
  }

  function Run(ls: Locations, moves: seq<Move>): System {
    if moves == [] then Begin() else Moved(ls, Run(ls, moves[..|moves| - 1]), moves[|moves| - 1])
  }

  // ---- invariant ----

  predicate IsEntry(e: Scene.Event) { EntryOf(e) != [] }

  /** The queue and the backlog hold the log, and the position is just behind what the queue has handled. */
  ghost predicate Aligned(log: seq<Scene.Event>, x: nat, q: Q.Shared<Scene.Event>, backlog: seq<Entry>) {
    && x <= |log|
    && q.pushed + backlog == Entries(log)
    && Entries(log[..x]) == Handled(q)
    && (x > 0 ==> IsEntry(log[x - 1]))
  }

  ghost predicate Coupled(ls: Locations, s: System) {
    var f := F.Run(ls, s.acts);
    Q.Inv(s.queue) && Aligned(f.scene.log, Position(f), s.queue, s.backlog)
  }

  lemma {:induction false} EntriesConcat(a: seq<Scene.Event>, b: seq<Scene.Event>)
    ensures Entries(a + b) == Entries(a) + Entries(b)
  {
    if b == [] {
      assert a + b == a;
    } else {
      assert (a + b)[..|a + b| - 1] == a + b[..|b| - 1];
      EntriesConcat(a, b[..|b| - 1]);
    }
  }

  lemma OneEntry(log: seq<Scene.Event>, e: Scene.Event)
    ensures Entries(log + [e]) == Entries(log) + EntryOf(e)
  {
    assert (log + [e])[..|log|] == log;
  }

  lemma SplitAt(log: seq<Scene.Event>, x: nat)
    requires x < |log|
    ensures Entries(log[..x + 1]) == Entries(log[..x]) + EntryOf(log[x])
    ensures Entries(log) == Entries(log[..x + 1]) + Entries(log[x + 1..])
  {
    hide Entries, EntryOf;
    assert log[..x + 1] == log[..x] + [log[x]] && log == log[..x + 1] + log[x + 1..];
    OneEntry(log[..x], log[x]);
    EntriesConcat(log[..x + 1], log[x + 1..]);
  }

  lemma WholeTake(log: seq<Scene.Event>)
    ensures log[..|log|] == log
  {
  }

  /** Walking to the next entry adds exactly that. */
  lemma {:induction false} NextEntryIs(log: seq<Scene.Event>, x: nat)
    requires x <= |log| && |Entries(log[..x])| < |Entries(log)|
    ensures var n := NextEntry(log, x);
            && n > 0 && IsEntry(log[x + n - 1])
            && Entries(log[..x + n]) == Entries(log[..x]) + [Entries(log)[|Entries(log[..x])|]]
    decreases |log| - x
  {
    hide Entries;
    if x == |log| {
      assert false by { WholeTake(log); }
    } else {
      SplitAt(log, x);
      if !IsEntry(log[x]) {
        assert Entries(log[..x]) + [] == Entries(log[..x]);
        NextEntryIs(log, x + 1);
      }
    }
  }

  lemma RunFrameMore(ls: Locations, acts: seq<Act>, a: Act)
    ensures F.Run(ls, acts + [a]) == Next(F.Run(ls, acts), ls, a)
  {
    hide Next;
    assert (acts + [a])[..|acts|] == acts;
  }

  lemma {:induction false} ExecutionReachesMark(ls: Locations, acts: seq<Act>, n: nat)
    requires Position(F.Run(ls, acts)) + n <= |F.Run(ls, acts).scene.log|
    ensures var f, g := F.Run(ls, acts), F.Run(ls, acts + Executes(n));
            g.scene == f.scene && Position(g) == Position(f) + n
  {
    hide F.Run;
    if n == 0 {
      assert acts + [] == acts;
    } else {
      ExecutionReachesMark(ls, acts, n - 1);
      assert acts + Executes(n) == acts + Executes(n - 1) + [Execute];
      RunFrameMore(ls, acts + Executes(n - 1), Execute);
      ExecutedFrame(F.Run(ls, acts + Executes(n - 1)), ls);
      hide ExecutedNext;
    }
  }

  /** r has handled what q has, or one entry more: the next one pushed. */
  predicate HandlesNext(q: Q.Shared<Scene.Event>, r: Q.Shared<Scene.Event>) {
    && (|Handled(r)| <= |Handled(q)| ==> Handled(r) == Handled(q))
    && (|Handled(r)| > |Handled(q)| ==>
          |Handled(q)| < |q.pushed| && Handled(r) == Handled(q) + [q.pushed[|Handled(q)|]])
  }

  lemma LookHandles(q: Q.Shared<Scene.Event>)
    requires q.taken + q.queue == q.pushed && !q.pc.Ran?
    ensures HandlesNext(q, Q.Look(q)) && Q.Look(q).pushed == q.pushed
  {
    if q.queue != [] {
      assert q.pushed[|q.taken|] == q.queue[0];
    }
    assert q.taken + [] == q.taken;
  }

  lemma MarkAhead(q: Q.Shared<Scene.Event>)
    requires Q.Inv(q) && q.pc.Ran?
    ensures |q.queue| > 1
  {
    Q.Take(q);
  }

  lemma PopHandles(q: Q.Shared<Scene.Event>)
    requires q.taken + q.queue == q.pushed && q.pc.Ran? && |q.queue| > 1 && q.queue[0] == Q.Command(q.pc.command)
    ensures HandlesNext(q, Q.Look(Q.Popped(q))) && Q.Look(Q.Popped(q)).pushed == q.pushed
  {
    var popped := Q.Popped(q).(pc := Q.Ready);
    assert popped.taken + popped.queue == q.taken + q.queue;
    assert Handled(popped) == Handled(q);
    LookHandles(popped);
    assert Handled(Q.Look(popped)) == Handled(Q.Look(Q.Popped(q)));
  }

  lemma HandlesOne(q: Q.Shared<Scene.Event>, a: Q.Action<Scene.Event>)
    requires Q.Inv(q) && !a.Push? && !a.Commit?
    ensures Q.Inv(Q.Step(q, a)) && Q.Step(q, a).pushed == q.pushed && HandlesNext(q, Q.Step(q, a))
  {
    Q.StepKeepsInv(q, a);
    assert q.taken + q.queue == q.pushed && q.taken + [] == q.taken;
    assert q.pc.Running? || q.pc.Ran? ==> q.queue != [] && q.queue[0] == Q.Command(q.pc.command);
    if q.pc.Ran? { MarkAhead(q); }
    hide Q.Inv;
    match a
    case Lock =>
      if q.pc.Ready? {
        LookHandles(q);
      } else if q.pc.Ran? {
        PopHandles(q);
      }
    case Execute =>
      if q.pc.Running? { assert q.pushed[|q.taken|] == q.queue[0]; }
    case _ =>
  }

  lemma PushAligned(log: seq<Scene.Event>, x: nat, s: System)
    requires s.backlog != [] && Q.Inv(s.queue) && Aligned(log, x, s.queue, s.backlog)
    ensures Q.Inv(Pushed(s).queue) && Aligned(log, x, Pushed(s).queue, Pushed(s).backlog) && Pushed(s).acts == s.acts
  {
    hide Entries, Q.Inv;
    var e := s.backlog[0];
    Q.AppendKeepsInv(s.queue, e);
    assert (s.queue.pushed + [e]) + s.backlog[1..] == s.queue.pushed + s.backlog;
  }

  lemma EditAligned(log: seq<Scene.Event>, more: seq<Scene.Event>, x: nat, q: Q.Shared<Scene.Event>)
    requires Aligned(log, x, q, []) && log <= more
    ensures Aligned(more, x, q, Entries(more[|log|..]))
  {
    hide Handled;
    assert more == log + more[|log|..] && more[..x] == log[..x];
    EntriesConcat(log, more[|log|..]);
    hide Entries;
    assert q.pushed + [] == q.pushed;
  }

  lemma FollowAligned(log: seq<Scene.Event>, x: nat, q: Q.Shared<Scene.Event>, r: Q.Shared<Scene.Event>,
                      backlog: seq<Entry>)
    requires Aligned(log, x, q, backlog) && r.pushed == q.pushed && HandlesNext(q, r)
    ensures Aligned(log, if |Handled(r)| > |Handled(q)| then x + NextEntry(log, x) else x, r, backlog)
  {
    hide Entries, Handled, NextEntry;
    if |Handled(r)| > |Handled(q)| {
      assert Entries(log)[|Handled(q)|] == q.pushed[|Handled(q)|];
      NextEntryIs(log, x);
    }
  }

  lemma FollowCoupled(ls: Locations, s: System, a: Q.Action<Scene.Event>)
    requires Coupled(ls, s) && !a.Push? && !a.Commit?
    ensures Coupled(ls, Followed(ls, s, Q.Step(s.queue, a)))
  {
    hide Q.Inv, Q.Step, Handled, F.Run, NextEntry, Executes, HandlesNext, Entries, IsEntry;
    var f, q := F.Run(ls, s.acts), Q.Step(s.queue, a);
    HandlesOne(s.queue, a);
    FollowAligned(f.scene.log, Position(f), s.queue, q, s.backlog);
    var n := NextEntry(f.scene.log, Position(f));
    hide Aligned;
    ExecutionReachesMark(ls, s.acts, n);
  }

  lemma EditCoupled(ls: Locations, s: System, a: Scene.Action)
    requires Coupled(ls, s) && s.backlog == []
    ensures Coupled(ls, EditBegun(ls, s, a))
  {
    var f := F.Run(ls, s.acts);
    FrameAlways(ls, s.acts);
    EditGrows(f.scene, a);
    RunFrameMore(ls, s.acts, F.Edit(a));
    EditFrame(f, a);
    EditAligned(f.scene.log, Scene.Step(f.scene, a).log, Position(f), s.queue);
    hide F.Run, Edited, Scene.Step, Scene.Inv, Aligned, Q.Inv, Entries, Scene.DeadIn;
  }

  lemma DrawCoupled(ls: Locations, s: System, d: Act)
    requires Coupled(ls, s) && (d.SetupTextures? || d.VisitUnits?)
    ensures Coupled(ls, s.(acts := s.acts + [d]))
  {
    FrameAlways(ls, s.acts);
    DrawingKeepsPrograms(F.Run(ls, s.acts), ls, d);
    RunFrameMore(ls, s.acts, d);
    hide F.Run, Scene.Inv, Q.Inv, Next, Aligned, Scene.DeadIn, Done;
  }

  lemma MoveCoupled(ls: Locations, s: System, m: Move)
    requires Coupled(ls, s)
    ensures Coupled(ls, Moved(ls, s, m))
  {
    hide F.Run, Followed, Pushed, EditBegun, Aligned, Q.Inv, Q.Step;
    match m
    case Edit(a) => if s.backlog == [] { EditCoupled(ls, s, a); }
    case PushNext =>
      if s.backlog != [] { PushAligned(F.Run(ls, s.acts).scene.log, Position(F.Run(ls, s.acts)), s); }
    case Render(a) => if !a.Push? && !a.Commit? { FollowCoupled(ls, s, a); }
    case Draw(d) => if d.SetupTextures? || d.VisitUnits? { DrawCoupled(ls, s, d); }
  }

  lemma EmptyQueue(q: Q.Shared<Scene.Event>)
    requires q == Q.Start()
    ensures Q.Inv(q) && q.pushed == [] && Handled(q) == []
  {
  }

  lemma BeginCoupled(ls: Locations)
    ensures Coupled(ls, Begin())
  {
    hide Q.Inv, Handled;
    EmptyQueue(Begin().queue);
    assert F.Run(ls, []) == F.Begin();
  }

  lemma {:induction false} AlwaysCoupled(ls: Locations, moves: seq<Move>)
    ensures Coupled(ls, Run(ls, moves))
  {
    hide Coupled, Moved;
    if moves == [] {
      BeginCoupled(ls);
    } else {
      AlwaysCoupled(ls, moves[..|moves| - 1]);
      MoveCoupled(ls, Run(ls, moves[..|moves| - 1]), moves[|moves| - 1]);
    }
  }

  // ---- what UpdateScene leaves ----

  predicate Returned(s: System) { s.queue.pc.Idle? && s.queue.todo == 0 }

  /** Whenever UpdateScene has returned, the frame stands behind the last mark that was in the queue when it began. */
  lemma FrameEndsAtMark(ls: Locations, moves: seq<Move>)
    requires Returned(Run(ls, moves))
    ensures var s := Run(ls, moves);
            var f := F.Run(ls, s.acts);
            && AtMark(f.scene.log, Position(f))
            && Entries(Done(f)) == Q.Committed(s.queue.atEntry)
  {
    hide F.Run, Run, Q.Committed, Q.Commands, Q.Marks;
    var s := Run(ls, moves);
    var f := F.Run(ls, s.acts);
    AlwaysCoupled(ls, moves);
    Q.WholeWhenIdle(s.queue);
    assert s.queue.taken + [] == s.queue.taken;
    if Position(f) > 0 {
      var n := Position(f) - 1;
      assert Done(f)[..n] == f.scene.log[..n] && Done(f)[n] == f.scene.log[n];
      assert Entries(Done(f)) == Entries(f.scene.log[..n]) + EntryOf(f.scene.log[n]);
    }
  }

  /**
    Whenever UpdateScene has returned, every technique, vertex array, unit and object shows what the edits before the
    last mark in the queue when UpdateScene began ask for.
   */
  lemma EveryFrameShows(ls: Locations, moves: seq<Move>)
    requires Returned(Run(ls, moves))
    ensures var s := Run(ls, moves);
            var f, e := F.Run(ls, s.acts), EditsBefore(ls, s.acts);
            && Behind(f) && e <= EditsOf(s.acts) && Scene.Run(e).log == Done(f)
            && Entries(Done(f)) == Q.Committed(s.queue.atEntry) && ShowsAll(f, e)
  {
    hide F.Run, Run, Scene.Run, EditsBefore, ShowsAll, Entries;
    FrameEndsAtMark(ls, moves);
    FrameShows(ls, Run(ls, moves).acts);
  }

  function Renders(actions: seq<Q.Action<Scene.Event>>): seq<Move> {
    if actions == [] then [] else [Render(actions[0])] + Renders(actions[1..])
  }

  lemma {:induction false} QueueOfRenders(ls: Locations, moves: seq<Move>, actions: seq<Q.Action<Scene.Event>>)
    requires forall a | a in actions :: Q.OfRenderThread(a)
    ensures Run(ls, moves + Renders(actions)).queue == Q.RunFrom(Run(ls, moves).queue, actions)
    decreases |actions|
  {
    hide Run, Q.Step;
    if actions == [] {
      assert moves + [] == moves;
    } else {
      assert moves + Renders(actions) == moves + [Render(actions[0])] + Renders(actions[1..]);
      QueueOfRenders(ls, moves + [Render(actions[0])], actions[1..]);
      RunMoves(ls, moves, Render(actions[0]));
      RenderSteps(ls, Run(ls, moves), actions[0]);
    }
  }

  lemma RenderSteps(ls: Locations, s: System, a: Q.Action<Scene.Event>)
    requires Q.OfRenderThread(a)
    ensures Moved(ls, s, Render(a)).queue == Q.Step(s.queue, a)
  {
    hide F.Run, Q.Step, Handled, NextEntry;
  }

  lemma RunMoves(ls: Locations, moves: seq<Move>, m: Move)
    ensures Run(ls, moves + [m]) == Moved(ls, Run(ls, moves), m)
  {
    hide Moved;
    assert (moves + [m])[..|moves|] == moves;
  }

  /** Called between frames, UpdateScene returns; then everything committed by then has been executed and is shown. */
  lemma UpdateSceneShows(ls: Locations, moves: seq<Move>) returns (actions: seq<Q.Action<Scene.Event>>)
    requires Returned(Run(ls, moves))
    ensures forall a | a in actions :: Q.OfRenderThread(a)
    ensures var s, t := Run(ls, moves), Run(ls, moves + Renders(actions));
            var f, e := F.Run(ls, t.acts), EditsBefore(ls, t.acts);
            && Returned(t) && Behind(f) && Entries(Done(f)) == Q.Committed(s.queue.pushed)
            && Scene.Run(e).log == Done(f) && ShowsAll(f, e)
  {
    hide F.Run, Run, Scene.Run, EditsBefore, ShowsAll, Entries, Q.Inv, Q.Committed, Q.Commands;
    AlwaysCoupled(ls, moves);
    actions := Q.UpdateSceneExecutes(Run(ls, moves).queue);
    QueueOfRenders(ls, moves, actions);
    var t := Run(ls, moves + Renders(actions));
    EveryFrameShows(ls, moves + Renders(actions));
    Q.WholeWhenIdle(t.queue);
  }

  lemma {:induction false} FewerEntries(log: seq<Scene.Event>, x: nat)
    requires x < |log| && IsEntry(log[|log| - 1])
    ensures |Entries(log[..x])| < |Entries(log)|
  {
    assert log == log[..x] + log[x..];
    EntriesConcat(log[..x], log[x..]);
    var rest := log[x..];
    assert Entries(rest) == Entries(rest[..|rest| - 1]) + EntryOf(rest[|rest| - 1]);
  }

  lemma CommittedReaches(q: seq<Entry>, x: nat)
    requires 0 < x <= |q| && q[x - 1].CommitMark?
    ensures x <= |Q.Committed(q)|
  {
    if !q[|q| - 1].CommitMark? {
      CommittedReaches(q[..|q| - 1], x);
    }
  }

  /** Each commit whose mark is among the entries q lies before the last mark among them. */
  lemma CommitInEntries(log: seq<Scene.Event>, q: seq<Entry>, x: nat)
    requires 0 < x <= |log| && log[x - 1] == Scene.CommitMark && q <= Entries(log) && |Entries(log[..x])| <= |q|
    ensures |Entries(log[..x])| <= |Q.Committed(q)|
  {
    SplitAt(log, x - 1);
    assert x - 1 + 1 == x;
    var n := |Entries(log[..x])|;
    hide Entries;
    assert q[n - 1] == Entries(log)[n - 1] == Q.CommitMark;
    CommittedReaches(q, n);
  }

  lemma CommitMarkIsEntry()
    ensures IsEntry(Scene.CommitMark)
  {
  }

  /** Whenever UpdateScene has returned, the frame is past each commit whose mark was in the queue when it began. */
  lemma UpdateScenePassesCommit(ls: Locations, moves: seq<Move>, x: nat)
    requires Returned(Run(ls, moves)) && x > 0
    requires var s := Run(ls, moves);
             && AtMark(F.Run(ls, s.acts).scene.log, x)
             && |Entries(F.Run(ls, s.acts).scene.log[..x])| <= |s.queue.atEntry|
    ensures x <= Position(F.Run(ls, Run(ls, moves).acts))
  {
    hide F.Run, Run, Q.Committed, Q.Marks, Q.Commands, Entries, Q.Whole, Handled, IsEntry, Q.Controlled;
    var s := Run(ls, moves);
    var f := F.Run(ls, s.acts);
    AlwaysCoupled(ls, moves);
    FrameEndsAtMark(ls, moves);
    assert s.queue.atEntry <= s.queue.pushed <= Entries(f.scene.log);
    CommitInEntries(f.scene.log, s.queue.atEntry, x);
    if Position(f) < x {
      CommitMarkIsEntry();
      assert f.scene.log[..x][..Position(f)] == Done(f);
      FewerEntries(f.scene.log[..x], Position(f));
    }
  }
}
