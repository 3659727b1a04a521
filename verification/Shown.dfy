/** What the render thread shows, in the terms of the update thread: each technique, vertex array, unit and object is as
    the edits before the last commit that reached it asked, among the commits executed. */
module Shown {
  import opened Options
  import opened Scene
  import opened CommitEffect
  import opened F = Frame
  import V = VertexArray
  import T = BaseTechnique
  import A = Asked
  import Y = Scenery

  // ---- what is shown depends on the executed entries only ----

  /** What these updates leave. The world decides nothing but uniforms. */
  function Left(us: seq<T.Update>): T.Rendering { T.Drained(T.UNDRAWN, us, T.World({}, {}, map[])) }

  lemma LeftMore(us: seq<T.Update>, u: T.Update)
    ensures Left(us + [u]) == T.Executed(Left(us), u, T.World({}, {}, map[]))
  {
    assert (us + [u])[..|us|] == us;
  }

  lemma AgreeLater(shown: map<nat, T.Texture>, asked: map<nat, T.Texture>, dead: set<nat>, later: set<nat>)
    requires T.TexturesAgree(shown, asked, dead) && dead <= later
    ensures T.TexturesAgree(shown, asked, later)
  {
  }

  lemma ShowsLater(r: T.Rendering, calls: seq<T.Call>, dead: set<nat>, later: set<nat>)
    requires T.Shows(r, calls, dead) && dead <= later
    ensures T.Shows(r, calls, later)
  {
  }

  /** The rendering state r is what these updates leave; textures up to bindings that are dead by now. */
  ghost predicate Rendered(r: T.Rendering, us: seq<T.Update>, dead: set<nat>) {
    T.SameBindings(r, Left(us)) && T.TexturesAgree(r.textures, Left(us).textures, dead)
  }

  lemma RenderedMore(r: T.Rendering, us: seq<T.Update>, dead: set<nat>, u: T.Update, w: T.World)
    requires Rendered(r, us, dead)
    ensures Rendered(T.Executed(r, u, w), us + [u], dead)
  {
    LeftMore(us, u);
    T.ExecutedBindings(r, Left(us), u, w, T.World({}, {}, map[]));
    T.ExecutedBindings(Left(us), r, u, T.World({}, {}, map[]), w);
    hide Left, T.Executed;
  }

  lemma EditGrows(s: State, a: Action)
    requires Inv(s)
    ensures s.log <= Scene.Step(s, a).log && s.dead <= Scene.Step(s, a).dead
  {
    hide Inv, Scene.Step, UpdatesOf, SnapshotsOf, ReachBy, PendingTechnique;
    EditLog(s, a, 0);
    TechniqueAfterEdit(s, a, 0);
  }

  lemma DoneStays(f: Frame, a: Action)
    requires Behind(f) && Inv(f.scene)
    ensures Behind(Edited(f, a)) && Done(Edited(f, a)) == Done(f) && f.scene.dead <= Edited(f, a).scene.dead
  {
    hide Inv, Scene.Step;
    EditGrows(f.scene, a);
  }

  lemma ExecuteRendered(f: Frame, ls: Locations, t: nat)
    requires Position(f) < |f.scene.log| && Rendered(RenderingOf(f, t), UpdatesOf(Done(f), t), f.scene.dead)
    ensures var g := ExecutedNext(f, ls);
            g.scene == f.scene && Behind(g) && Rendered(RenderingOf(g, t), UpdatesOf(Done(g), t), g.scene.dead)
  {
    hide ExecutedNext, RenderingOf, UpdatesOf, Rendered, T.Executed, LinkedIn, UploadTargets, RunsOf, GlOf;
    var e := f.scene.log[Position(f)];
    DoneMore(f, ls);
    ExecutedFrame(f, ls);
    OneMoreOf(Done(f), e, t);
    assert UpdatesOf(Done(f), t) + [] == UpdatesOf(Done(f), t);
    if e.UpdateTechnique? && e.technique == t {
      RenderedMore(RenderingOf(f, t), UpdatesOf(Done(f), t), f.scene.dead, e.update, WorldOf(f, ls));
    }
  }

  lemma SetupRendered(f: Frame, ls: Locations, u: nat, t: nat)
    requires Behind(f) && Rendered(RenderingOf(f, t), UpdatesOf(Done(f), t), f.scene.dead)
    ensures var g := Next(f, ls, SetupTextures(u));
            Rendered(RenderingOf(g, t), UpdatesOf(Done(g), t), g.scene.dead)
  {
  }

  lemma {:induction false} RenderingIsHistory(ls: Locations, acts: seq<Act>, t: nat)
    ensures Behind(F.Run(ls, acts))
    ensures var f := F.Run(ls, acts);
            Rendered(RenderingOf(f, t), UpdatesOf(Done(f), t), f.scene.dead)
  {
    if acts != [] {
      var n := |acts| - 1;
      var f := F.Run(ls, acts[..n]);
      RenderingIsHistory(ls, acts[..n], t);
      FrameAlways(ls, acts[..n]);
      hide Inv, Edited, ExecutedNext, DeadIn, UpdatesOf, Left, Done;
      match acts[n]
      case Edit(a) =>
        DoneStays(f, a);
        EditFrame(f, a);
        AgreeLater(RenderingOf(f, t).textures, Left(UpdatesOf(Done(f), t)).textures, f.scene.dead,
                   Edited(f, a).scene.dead);
      case Execute => if Position(f) < |f.scene.log| { ExecuteRendered(f, ls, t); }
      case SetupTextures(u) => SetupRendered(f, ls, u, t);
      case VisitUnits(_) =>
    }
  }

  lemma RenderedShows(r: T.Rendering, us: seq<T.Update>, calls: seq<T.Call>, dead: set<nat>)
    requires Rendered(r, us, dead) && T.Shows(Left(us), calls, dead)
    ensures T.Shows(r, calls, dead)
  {
    hide Left, T.LastDraw, T.IndexBuffer, T.BoundProgram, T.BoundVertexArray, T.BoundTexture, T.Draws;
    var l := Left(us).textures;
    forall b: nat | T.LiveBinding(T.BoundTexture(calls, b), dead) ensures b in r.textures {
      assert b in l && T.BoundTexture(calls, b) == Some(l[b]);
      assert b in T.LiveTextures(l, dead);
    }
  }

  lemma GlIsHistory(ls: Locations, acts: seq<Act>, v: nat)
    ensures var f := F.Run(ls, acts);
            Behind(f) && GlOf(f, v) == V.Played(RunsOf(Done(f), f.deaths, v))
  {
    ArrayIsMachine(ls, acts, v);
    V.GlIsPlayed(ArrayActs(ls, acts, v));
    hide V.Run, V.Played, ArrayActs;
  }

  // ---- what was asked for ----

  /** The edit a, made after these, is a commit that reaches technique t. */
  ghost predicate CommitsTechnique(edits: seq<Action>, a: Action, t: nat) {
    a.CommitObject? && Y.Commits(edits, a, a.virtualObject) && A.ReachesTechnique(edits, a.virtualObject, t)
  }

  ghost predicate CommitsArray(edits: seq<Action>, a: Action, v: nat) {
    a.CommitObject? && Y.Commits(edits, a, a.virtualObject) && A.ReachesArray(edits, a.virtualObject, v)
  }

  /** The calls made on technique t before the last commit that reached it. */
  ghost function CallsShown(edits: seq<Action>, t: nat): seq<T.Call> {
    if edits == [] then []
    else
      var front, last := edits[..|edits| - 1], edits[|edits| - 1];
      if CommitsTechnique(front, last, t) then A.CallsTo(front, t) else CallsShown(front, t)
  }

  /** The attribute calls made on vertex array v before the last commit that reached it. */
  ghost function SettersShown(edits: seq<Action>, v: nat): seq<V.Setter> {
    if edits == [] then []
    else
      var front, last := edits[..|edits| - 1], edits[|edits| - 1];
      if CommitsArray(front, last, v) then A.SettersOf(front, v) else SettersShown(front, v)
  }

  /** A commit reaches what the edits say. */
  lemma ReachedIffAsked(edits: seq<Action>, a: Action, id: nat)
    ensures id in ReachBy(Scene.Run(edits), a).techniques <==> CommitsTechnique(edits, a, id)
    ensures id in ReachBy(Scene.Run(edits), a).arrays <==> CommitsArray(edits, a, id)
  {
    var s := Scene.Run(edits);
    A.RunMirrors(edits);
    hide Scene.Run, ObjectReach, A.ReachesTechnique, A.ReachesArray, A.HasObject, A.SameLists, A.SameCalls,
      A.NothingEarly, Covers;
    if a.CommitObject? {
      A.ReachIsAsked(edits, a.virtualObject, id);
      NothingThere(s, a.virtualObject);
    }
  }

  lemma NothingThere(s: State, o: nat)
    ensures o !in s.objects ==> ObjectReach(s, o) == NOTHING
  {
  }

  function EditActs(edits: seq<Action>): seq<Act> {
    if edits == [] then [] else EditActs(edits[..|edits| - 1]) + [Edit(edits[|edits| - 1])]
  }

  lemma {:induction false} EditRun(edits: seq<Action>)
    ensures F.Run(map[], EditActs(edits)) == F.Frame(Scene.Run(edits), [], map[], map[], Y.EMPTY, map[])
  {
    if edits != [] {
      hide Scene.Step;
      var n := |edits| - 1;
      EditRun(edits[..n]);
      assert EditActs(edits)[..|EditActs(edits)| - 1] == EditActs(edits[..n]);
    }
  }

  /** Technique t, when nothing is ever executed. */
  function Unexecuted(s: State, t: nat): T.State {
    T.State(PendingTechnique(s, t), UpdatesOf(s.log, t), T.UNDRAWN, T.World(s.dead, {}, map[]), [], [], [])
  }

  lemma TechniqueUnexecuted(edits: seq<Action>, t: nat)
    ensures T.Tracked(Unexecuted(Scene.Run(edits), t))
  {
    var acts := EditActs(edits);
    EditRun(edits);
    TechniqueIsMachine(map[], acts, t);
    T.Always(map[], TechniqueActs(map[], acts, t));
    BareTracked(T.Run(map[], TechniqueActs(map[], acts, t)));
    var s := Scene.Run(edits);
    assert s.log[0..] == s.log && s.log[..0] == [];
    hide T.Run, TechniqueActs, EditActs, Scene.Run, T.Tracked, Bare, PendingTechnique, UpdatesOf;
  }

  lemma BareTracked(x: T.State)
    requires T.Tracked(x)
    ensures T.Tracked(Bare(x))
  {
  }

  /** After its commit nothing of a technique is damaged. */
  lemma CommitShown(x: T.State, calls: seq<T.Call>)
    requires T.Tracked(x) && T.AsCalled(x.pending, calls)
    ensures T.Shows(T.Ahead(T.Step(x, T.Commit)), calls, x.world.dead)
  {
    hide T.Ahead, T.CommandsOfCommit, T.TexturesAgree, T.AsCalled, T.Shows;
    T.CommitDrains(x);
    T.ShowsAsCalled(T.Ahead(T.Step(x, T.Commit)), x.pending, calls, x.world.dead);
  }

  lemma LeftShown(us: seq<T.Update>, w: T.World)
    ensures var r := T.Drained(T.UNDRAWN, us, w);
            T.SameBindings(r, Left(us)) && r.textures == Left(us).textures
  {
    T.BindingsIgnoreWorld(T.UNDRAWN, T.UNDRAWN, us, w, T.World({}, {}, map[]));
  }

  lemma {:induction false} LastCommitLeft(edits: seq<Action>, t: nat)
    ensures T.Shows(Left(UpdatesOf(Scene.Run(edits).log, t)), CallsShown(edits, t), Scene.Run(edits).dead)
  {
    if edits == [] {
      assert Left([]) == T.UNDRAWN;
    } else {
      hide Scene.Step, ReachBy, UpdatesOf, Left, T.Shows, CommitsTechnique;
      var front, last := edits[..|edits| - 1], edits[|edits| - 1];
      LastCommitLeft(front, t);
      ReachedIffAsked(front, last, t);
      if CommitsTechnique(front, last, t) {
        LastCommitReaches(front, last, t);
      } else {
        LastCommitPasses(front, last, t, CallsShown(front, t));
      }
    }
  }

  /** An edit that does not reach a technique leaves it as it is. */
  lemma LastCommitPasses(front: seq<Action>, last: Action, t: nat, calls: seq<T.Call>)
    requires t !in ReachBy(Scene.Run(front), last).techniques
    requires T.Shows(Left(UpdatesOf(Scene.Run(front).log, t)), calls, Scene.Run(front).dead)
    ensures var m := Scene.Step(Scene.Run(front), last);
            T.Shows(Left(UpdatesOf(m.log, t)), calls, m.dead)
  {
    hide Inv, Scene.Step, Scene.Run, ReachBy, UpdatesOf, SnapshotsOf, UpdatesIn, SnapshotsIn, PendingTechnique, Left,
      T.Shows, T.CommandsOfCommit;
    var s := Scene.Run(front);
    Scene.Always(front);
    EditLog(s, last, t);
    EditGrows(s, last);
    ReachedPushes(s, ReachBy(s, last), t);
    assert UpdatesOf(s.log, t) + [] == UpdatesOf(s.log, t);
    ShowsLater(Left(UpdatesOf(s.log, t)), calls, s.dead, Scene.Step(s, last).dead);
  }

  lemma PendingAsCalled(edits: seq<Action>, t: nat)
    ensures T.AsCalled(PendingTechnique(Scene.Run(edits), t), A.CallsTo(edits, t))
  {
    A.RunMirrors(edits);
    assert T.AsCalled(T.BLANK, []);
    hide Scene.Run, A.CallsTo, A.SameLists, T.AsCalled, V.AsSet, A.HasTechnique;
  }

  lemma LastCommitReaches(front: seq<Action>, last: Action, t: nat)
    requires t in ReachBy(Scene.Run(front), last).techniques
    ensures var m := Scene.Step(Scene.Run(front), last);
            T.Shows(Left(UpdatesOf(m.log, t)), A.CallsTo(front, t), m.dead)
  {
    hide Inv, Scene.Step, Scene.Run, ReachBy, UpdatesOf, SnapshotsOf, UpdatesIn, SnapshotsIn, PendingTechnique,
      T.AsCalled, T.CommandsOfCommit, T.PendingAfterCommit, T.Called, T.Tracked, T.Drained, Left, T.Shows, A.CallsTo;
    var s, m := Scene.Run(front), Scene.Step(Scene.Run(front), last);
    if !last.CommitObject? { NothingReached(s, last); }
    Scene.Always(front);
    EditLog(s, last, t);
    ReachedPushes(s, ReachBy(s, last), t);
    TechniqueAfterEdit(s, last, t);
    TechniqueUnexecuted(front, t);
    PendingAsCalled(front, t);
    var x := Unexecuted(s, t);
    CommitShown(x, A.CallsTo(front, t));
    LeftShown(T.Step(x, T.Commit).queue, x.world);
    SameShows(T.Ahead(T.Step(x, T.Commit)), Left(UpdatesOf(m.log, t)), A.CallsTo(front, t), m.dead);
  }

  lemma SameShows(r: T.Rendering, l: T.Rendering, calls: seq<T.Call>, dead: set<nat>)
    requires T.Shows(r, calls, dead) && T.SameBindings(r, l) && r.textures == l.textures
    ensures T.Shows(l, calls, dead)
  {
    hide T.LastDraw, T.IndexBuffer, T.BoundProgram, T.BoundVertexArray, T.BoundTexture, T.Draws;
  }

  // ---- vertex arrays ----

  /** The last change of attribute i in the queue is to d. */
  predicate Carried(queue: seq<V.Attributes>, d: V.GlAttrib, i: nat) {
    var last := V.LastChange(queue, i);
    && (d.pointer.None? ==> V.NoPointer(queue, i))
    && d == if last.Some? then V.GlAttrib(V.Entry(last.value, i).enabled, V.Entry(last.value, i).pointer)
            else V.GlAttrib(false, None)
  }

  lemma ArrayUnexecuted(edits: seq<Action>, v: nat, i: nat) returns (x: V.State)
    ensures V.Tracked(x, i) && x.runs == []
    ensures x.pending == PendingArray(Scene.Run(edits), v) && x.queue == SnapshotsOf(Scene.Run(edits).log, v)
  {
    var acts := EditActs(edits);
    EditRun(edits);
    ArrayIsMachine(map[], acts, v);
    x := V.Run(ArrayActs(map[], acts, v));
    V.Always(ArrayActs(map[], acts, v), i);
    var s := Scene.Run(edits);
    assert s.log[0..] == s.log && s.log[..0] == [];
    hide V.Run, ArrayActs, EditActs, Scene.Run, V.Tracked, PendingArray, SnapshotsOf;
  }

  lemma ClearedEntry(p: V.Pending, i: nat)
    requires V.Entry(p.attributes, i).damaged ==> p.damaged
    ensures V.Entry(V.PendingAfterCommit(p).attributes, i) == V.Entry(p.attributes, i).(damaged := false)
  {
  }

  lemma CommitCarried(x: V.State, setters: seq<V.Setter>, i: nat)
    requires V.Tracked(x, i) && x.runs == [] && V.AsSet(x.pending, setters, i)
    ensures Carried(x.queue + V.CommandsOfCommit(x.pending), V.At(V.Replayed(setters), i), i)
  {
    V.CommitTracked(x, i);
    ClearedEntry(x.pending, i);
    hide V.LastChange, V.NoPointer, V.Entry, V.PendingAfterCommit, V.CommandsOfCommit, V.Replayed;
    var y := V.Step(x, V.Commit);
    assert V.Snapshots(y.runs) + y.queue == y.queue;
  }

  lemma PendingAsSet(edits: seq<Action>, v: nat, i: nat)
    ensures V.AsSet(PendingArray(Scene.Run(edits), v), A.SettersOf(edits, v), i)
  {
    A.RunMirrors(edits);
    A.NothingSet(i);
    hide Scene.Run, A.SettersOf, A.SameLists, T.AsCalled, V.AsSet, A.HasArray;
  }

  lemma {:induction false} LastCommitCarried(edits: seq<Action>, v: nat, i: nat)
    ensures Carried(SnapshotsOf(Scene.Run(edits).log, v), V.At(V.Replayed(SettersShown(edits, v)), i), i)
  {
    if edits != [] {
      hide Scene.Step, ReachBy, SnapshotsOf, Carried, V.Replayed, V.At, CommitsArray;
      var front, last := edits[..|edits| - 1], edits[|edits| - 1];
      LastCommitCarried(front, v, i);
      ReachedIffAsked(front, last, v);
      if CommitsArray(front, last, v) {
        ArrayCommitReaches(front, last, v, i);
      } else {
        ArrayCommitPasses(front, last, v);
      }
    }
  }

  lemma ArrayCommitReaches(front: seq<Action>, last: Action, v: nat, i: nat)
    requires v in ReachBy(Scene.Run(front), last).arrays
    ensures var m := Scene.Step(Scene.Run(front), last);
            Carried(SnapshotsOf(m.log, v), V.At(V.Replayed(A.SettersOf(front, v)), i), i)
  {
    hide Inv, Scene.Step, Scene.Run, ReachBy, UpdatesOf, SnapshotsOf, UpdatesIn, SnapshotsIn, PendingArray, Carried,
      V.CommandsOfCommit, V.Tracked, V.AsSet, V.Replayed, A.SettersOf;
    var s := Scene.Run(front);
    Scene.Always(front);
    EditLog(s, last, v);
    ReachedPushes(s, ReachBy(s, last), v);
    var x := ArrayUnexecuted(front, v, i);
    PendingAsSet(front, v, i);
    CommitCarried(x, A.SettersOf(front, v), i);
  }

  lemma ArrayCommitPasses(front: seq<Action>, last: Action, v: nat)
    requires v !in ReachBy(Scene.Run(front), last).arrays
    ensures SnapshotsOf(Scene.Step(Scene.Run(front), last).log, v) == SnapshotsOf(Scene.Run(front).log, v)
  {
    hide Inv, Scene.Step, Scene.Run, ReachBy, UpdatesOf, SnapshotsOf, UpdatesIn, SnapshotsIn, PendingArray,
      V.CommandsOfCommit;
    var s := Scene.Run(front);
    Scene.Always(front);
    EditLog(s, last, v);
    ReachedPushes(s, ReachBy(s, last), v);
    assert SnapshotsOf(s.log, v) + [] == SnapshotsOf(s.log, v);
  }

  /** The executions of the snapshots of v, each as if every GlBufferData before it had taken effect at once. */
  function CalledRunsOf(log: seq<Event>, deaths: seq<set<nat>>, v: nat): seq<V.Execution>
    requires |deaths| == |log|
  {
    if log == [] then []
    else
      var n := |log| - 1;
      CalledRunsOf(log[..n], deaths[..n], v)
      + if log[n].UpdateAttributes? && log[n].vertexArray == v
        then [V.Execution(log[n].attributes, V.Buffers(deaths[n], DataTargets(log[..n])))] else []
  }

  /** The targets that matter to entry k are those of the last calls. */
  predicate TargetsAsCalled(log: seq<Event>, deaths: seq<set<nat>>, k: nat, i: nat)
    requires |deaths| == |log| && k < |log|
  {
    log[k].UpdateAttributes? && BufferOf(log[k].attributes, i, deaths[k]).Some? ==>
      var b := BufferOf(log[k].attributes, i, deaths[k]).value;
      Lookup(UploadTargets(log[..k]), b) == Lookup(DataTargets(log[..k]), b)
  }

  /** Two executions that do the same to attribute i. */
  predicate Alike(e: V.Execution, c: V.Execution, i: nat) {
    && e.attributes == c.attributes && V.Decides(e, i) == V.Decides(c, i)
    && (V.Decides(e, i) ==> (V.Binds(V.Entry(e.attributes, i).pointer.value, e.w.targets)
                             <==> V.Binds(V.Entry(e.attributes, i).pointer.value, c.w.targets)))
  }

  lemma DecisionMore(runs: seq<V.Execution>, e: V.Execution, i: nat)
    ensures V.LastDecision(runs + [e], i) == if V.Decides(e, i) then Some(e) else V.LastDecision(runs, i)
  {
    assert (runs + [e])[..|runs|] == runs;
  }

  predicate AlikeDecisions(a: Option<V.Execution>, b: Option<V.Execution>, i: nat) {
    && a.Some? == b.Some?
    && (a.Some? ==> Alike(a.value, b.value, i) && V.Decides(a.value, i))
  }

  lemma {:induction false} DecisionAsCalled(log: seq<Event>, deaths: seq<set<nat>>, v: nat, i: nat)
    requires |deaths| == |log| && forall k: nat | k < |log| :: TargetsAsCalled(log, deaths, k, i)
    ensures AlikeDecisions(V.LastDecision(RunsOf(log, deaths, v), i),
                           V.LastDecision(CalledRunsOf(log, deaths, v), i), i)
  {
    if log != [] {
      var n := |log| - 1;
      forall k: nat | k < n ensures TargetsAsCalled(log[..n], deaths[..n], k, i) {
        assert TargetsAsCalled(log, deaths, k, i) && log[..n][..k] == log[..k];
      }
      DecisionAsCalled(log[..n], deaths[..n], v, i);
      if log[n].UpdateAttributes? && log[n].vertexArray == v {
        var e := V.Execution(log[n].attributes, V.Buffers(deaths[n], UploadTargets(log[..n])));
        var c := V.Execution(log[n].attributes, V.Buffers(deaths[n], DataTargets(log[..n])));
        assert TargetsAsCalled(log, deaths, n, i);
        assert Alike(e, c, i);
        DecisionMore(RunsOf(log[..n], deaths[..n], v), e, i);
        DecisionMore(CalledRunsOf(log[..n], deaths[..n], v), c, i);
      } else {
        assert RunsOf(log, deaths, v) == RunsOf(log[..n], deaths[..n], v);
        assert CalledRunsOf(log, deaths, v) == CalledRunsOf(log[..n], deaths[..n], v);
      }
      hide UploadTargets, DataTargets, TargetsAsCalled, V.LastDecision, V.Decides, V.Binds, RunsOf, CalledRunsOf;
    }
  }

  lemma {:induction false} SnapshotsOfRuns(log: seq<Event>, deaths: seq<set<nat>>, v: nat)
    requires |deaths| == |log|
    ensures V.Snapshots(RunsOf(log, deaths, v)) == SnapshotsOf(log, v)
  {
    if log != [] {
      SnapshotsOfRuns(log[..|log| - 1], deaths[..|log| - 1], v);
    }
  }

  /** GL shows attribute d; its pointer is there if and only if it arrives in these executions. */
  predicate ShowsAttribute(g: V.GlAttrib, d: V.GlAttrib, runs: seq<V.Execution>, i: nat) {
    && g.enabled == d.enabled
    && (d.pointer.None? ==> g.pointer.None?)
    && (d.pointer.Some? ==> (g.pointer == d.pointer <==> V.Arrives(runs, i, d.pointer.value)))
  }

  lemma CarriedIsShown(runs: seq<V.Execution>, called: seq<V.Execution>, d: V.GlAttrib, i: nat)
    requires Carried(V.Snapshots(runs), d, i) && AlikeDecisions(V.LastDecision(runs, i), V.LastDecision(called, i), i)
    ensures ShowsAttribute(V.At(V.Played(runs), i), d, called, i)
  {
    V.PlayedAt(runs, i);
    if d.pointer.None? {
      V.NeverDecided(runs, i);
    }
    hide V.Played, V.LastChange, V.NoPointer, V.LastDecision, V.Snapshots;
  }

  // ---- units and objects ----

  /** The list of an object is as asked, for the units that are still alive; None before its first commit. */
  ghost predicate ShowsUnits(shown: Option<seq<nat>>, asked: Option<seq<nat>>, dead: set<nat>) {
    && shown.Some? == asked.Some?
    && (shown.Some? ==> A.Alive(shown.value, dead) == A.Alive(asked.value, dead)
                        && forall u | u in shown.value :: u in asked.value)
  }

  lemma UnitsLater(shown: Option<seq<nat>>, asked: Option<seq<nat>>, dead: set<nat>, later: set<nat>)
    requires ShowsUnits(shown, asked, dead) && dead <= later
    ensures ShowsUnits(shown, asked, later)
  {
    if shown.Some? {
      A.AliveLater(shown.value, dead, later);
      A.AliveLater(asked.value, dead, later);
    }
    hide A.Alive;
  }

  /** The rendering state of units and objects is what the executed entries have told them. */
  ghost predicate SceneryFrom(y: Y.Scenery, told: Y.Scenery, dead: set<nat>) {
    && y.techniques == told.techniques && y.poses == told.poses
    && (forall o :: ShowsUnits(Y.UnitsIn(y, o), Y.UnitsIn(told, o), dead))
  }

  lemma SceneryLater(y: Y.Scenery, told: Y.Scenery, dead: set<nat>, later: set<nat>)
    requires SceneryFrom(y, told, dead) && dead <= later
    ensures SceneryFrom(y, told, later)
  {
    hide ShowsUnits, Y.UnitsIn;
    forall o ensures ShowsUnits(Y.UnitsIn(y, o), Y.UnitsIn(told, o), later) {
      UnitsLater(Y.UnitsIn(y, o), Y.UnitsIn(told, o), dead, later);
    }
  }

  lemma ToldMore(y: Y.Scenery, told: Y.Scenery, dead: set<nat>, e: Event)
    requires SceneryFrom(y, told, dead)
    ensures SceneryFrom(Y.Presented(y, e), Y.Presented(told, e), dead)
  {
    hide A.Alive;
    forall o ensures ShowsUnits(Y.UnitsIn(Y.Presented(y, e), o), Y.UnitsIn(Y.Presented(told, e), o), dead) {
      assert ShowsUnits(Y.UnitsIn(y, o), Y.UnitsIn(told, o), dead);
    }
  }

  lemma VisitFrom(y: Y.Scenery, told: Y.Scenery, dead: set<nat>, o: nat)
    requires SceneryFrom(y, told, dead)
    ensures SceneryFrom(Visited(y, o, dead), told, dead)
  {
    if o in y.units {
      A.AliveLater(y.units[o], dead, dead);
      forall u: nat | u in A.Alive(y.units[o], dead) ensures u in y.units[o] { A.AliveIn(y.units[o], dead, u); }
    }
    hide A.Alive;
    forall x: nat ensures ShowsUnits(Y.UnitsIn(Visited(y, o, dead), x), Y.UnitsIn(told, x), dead) {
      assert ShowsUnits(Y.UnitsIn(y, x), Y.UnitsIn(told, x), dead);
    }
  }

  lemma {:induction false} SceneryIsHistory(ls: Locations, acts: seq<Act>)
    ensures Behind(F.Run(ls, acts))
    ensures var f := F.Run(ls, acts);
            SceneryFrom(f.scenery, Y.SceneryOf(Done(f)), f.scene.dead)
  {
    FrameAlways(ls, acts);
    if acts != [] {
      var n := |acts| - 1;
      var f := F.Run(ls, acts[..n]);
      SceneryIsHistory(ls, acts[..n]);
      FrameAlways(ls, acts[..n]);
      hide Inv, Edited, ExecutedNext, DeadIn, Y.SceneryOf, SceneryFrom, Done, Visited, Y.Presented;
      match acts[n]
      case Edit(a) =>
        DoneStays(f, a);
        EditFrame(f, a);
        SceneryLater(f.scenery, Y.SceneryOf(Done(f)), f.scene.dead, Edited(f, a).scene.dead);
      case Execute =>
        if Position(f) < |f.scene.log| {
          var e := f.scene.log[Position(f)];
          DoneMore(f, ls);
          SceneryMoves(f, ls);
          Y.MoreOf(Done(f), e);
          ToldMore(f.scenery, Y.SceneryOf(Done(f)), f.scene.dead, e);
        }
      case SetupTextures(u) => SetupIsTechniqueStep(f, ls, u, 0);
      case VisitUnits(o) => VisitFrom(f.scenery, Y.SceneryOf(Done(f)), f.scene.dead, o);
    }
  }

  lemma SceneryMoves(f: Frame, ls: Locations)
    requires Position(f) < |f.scene.log|
    ensures ExecutedNext(f, ls).scenery == Y.Presented(f.scenery, f.scene.log[Position(f)])
    ensures ExecutedNext(f, ls).programs == ProgramsAfter(f.programs, f.scene.log[Position(f)], f.scene.dead)
  {
    hide T.Executed, V.Executed, Y.Presented, ProgramsAfter;
  }

  // ---- whole runs ----

  function EditsOf(acts: seq<Act>): seq<Action> {
    if acts == [] then []
    else
      var last := acts[|acts| - 1];
      EditsOf(acts[..|acts| - 1]) + if last.Edit? then [last.a] else []
  }

  lemma {:induction false} SceneOfEdits(ls: Locations, acts: seq<Act>)
    ensures F.Run(ls, acts).scene == Scene.Run(EditsOf(acts))
  {
    if acts != [] {
      var n := |acts| - 1;
      SceneOfEdits(ls, acts[..n]);
      if acts[n].Edit? {
        RunMore(EditsOf(acts[..n]), acts[n].a);
      } else {
        assert EditsOf(acts) == EditsOf(acts[..n]);
      }
      hide Scene.Step, T.Executed, V.Executed;
    }
  }

  /** A buffer that was alive when the entry was executed was alive when it was pushed. */
  lemma RunTargets(ls: Locations, acts: seq<Act>, k: nat, i: nat)
    requires k < Position(F.Run(ls, acts))
    ensures Behind(F.Run(ls, acts))
    ensures TargetsAsCalled(Done(F.Run(ls, acts)), F.Run(ls, acts).deaths, k, i)
  {
    var f := F.Run(ls, acts);
    FrameAlways(ls, acts);
    SceneOfEdits(ls, acts);
    var log := f.scene.log;
    assert Done(f)[..k] == log[..k] && Done(f)[k] == log[k];
    if log[k].UpdateAttributes? && BufferOf(log[k].attributes, i, f.deaths[k]).Some? {
      assert DeadIn(log[..k]) <= f.deaths[k];
      assert BufferOf(log[k].attributes, i, DeadIn(log[..k])) == BufferOf(log[k].attributes, i, f.deaths[k]);
      TargetBeforePointer(EditsOf(acts), k, i);
    }
    hide Inv, F.Run, Scene.Run, DeadIn, UploadTargets, DataTargets;
  }

  /** What is executed of a run, for t, is what the edits e lead to. */
  lemma ShownByEdits(ls: Locations, acts: seq<Act>, e: seq<Action>, t: nat)
    requires Behind(F.Run(ls, acts)) && UpdatesOf(Done(F.Run(ls, acts)), t) == UpdatesOf(Scene.Run(e).log, t)
    requires Scene.Run(e).dead <= F.Run(ls, acts).scene.dead
    ensures T.Shows(RenderingOf(F.Run(ls, acts), t), CallsShown(e, t), F.Run(ls, acts).scene.dead)
  {
    hide F.Run, Scene.Run, UpdatesOf, Left, CallsShown, T.Shows, RenderingOf, Done, Rendered;
    var f := F.Run(ls, acts);
    var d := Left(UpdatesOf(Done(f), t));
    RenderingIsHistory(ls, acts, t);
    LastCommitLeft(e, t);
    ShowsLater(d, CallsShown(e, t), Scene.Run(e).dead, f.scene.dead);
    RenderedShows(RenderingOf(f, t), UpdatesOf(Done(f), t), CallsShown(e, t), f.scene.dead);
  }

  /** The executions so far of the snapshots of v, in terms of the calls. */
  function Executions(f: Frame, v: nat): seq<V.Execution>
    requires Behind(f)
  {
    CalledRunsOf(Done(f), f.deaths, v)
  }

  lemma ArrayShownByEdits(ls: Locations, acts: seq<Act>, e: seq<Action>, v: nat, i: nat)
    requires Behind(F.Run(ls, acts)) && SnapshotsOf(Done(F.Run(ls, acts)), v) == SnapshotsOf(Scene.Run(e).log, v)
    ensures var f := F.Run(ls, acts);
            ShowsAttribute(V.At(GlOf(f, v), i), V.At(V.Replayed(SettersShown(e, v)), i), Executions(f, v), i)
  {
    var f := F.Run(ls, acts);
    GlIsHistory(ls, acts, v);
    LastCommitCarried(e, v, i);
    SnapshotsOfRuns(Done(f), f.deaths, v);
    forall k: nat | k < |Done(f)| ensures TargetsAsCalled(Done(f), f.deaths, k, i) {
      RunTargets(ls, acts, k, i);
    }
    DecisionAsCalled(Done(f), f.deaths, v, i);
    hide F.Run, Scene.Run, SnapshotsOf, SettersShown, GlOf, Done, Carried, TargetsAsCalled, RunsOf, CalledRunsOf,
      V.Played, V.LastDecision, AlikeDecisions, ShowsAttribute, V.At, V.Replayed, V.Snapshots;
    CarriedIsShown(RunsOf(Done(f), f.deaths, v), CalledRunsOf(Done(f), f.deaths, v),
                   V.At(V.Replayed(SettersShown(e, v)), i), i);
  }

  /** The units, objects and poses that f shows are those the edits e ask for. */
  ghost predicate ShowsScenery(f: Frame, e: seq<Action>) {
    && (forall u :: Y.TechniqueIn(f.scenery, u) == Y.TechniqueShown(e, u))
    && (forall o :: ShowsUnits(Y.UnitsIn(f.scenery, o), Y.UnitsShown(e, o), f.scene.dead))
    && (forall o :: Y.PoseIn(f.scenery, o) == Y.PoseShown(e, o))
  }

  lemma SceneryShownByEdits(ls: Locations, acts: seq<Act>, e: seq<Action>)
    requires Behind(F.Run(ls, acts)) && Done(F.Run(ls, acts)) == Scene.Run(e).log
    ensures ShowsScenery(F.Run(ls, acts), e)
  {
    hide F.Run, Scene.Run, Y.SceneryOf, Y.TechniqueShown, Y.UnitsShown, Y.PoseShown, ShowsUnits, Done;
    var f := F.Run(ls, acts);
    SceneryIsHistory(ls, acts);
    Y.SceneryIsAsked(e);
    forall o: nat ensures ShowsUnits(Y.UnitsIn(f.scenery, o), Y.UnitsShown(e, o), f.scene.dead) {
      assert Y.UnitsIn(Y.SceneryOf(Scene.Run(e).log), o) == Y.UnitsShown(e, o);
      hide Y.UnitsIn;
    }
    forall u: nat ensures Y.TechniqueIn(f.scenery, u) == Y.TechniqueShown(e, u)
                       && Y.PoseIn(f.scenery, u) == Y.PoseShown(e, u) {
      assert Y.TechniqueIn(Y.SceneryOf(Scene.Run(e).log), u) == Y.TechniqueShown(e, u);
      assert Y.PoseIn(Y.SceneryOf(Scene.Run(e).log), u) == Y.PoseShown(e, u);
    }
  }

  // ---- programs ----

  /** The first link command of p among these entries. */
  predicate FirstLink(log: seq<Event>, p: nat, k: nat) {
    && k < |log| && log[k].Link? && log[k].program == p
    && forall j | 0 <= j < k :: !(log[j].Link? && log[j].program == p)
  }

  /** Each program that has been linked was made from the shaders of its first link that were alive then. */
  ghost predicate ProgramsFrom(f: Frame)
    requires Behind(f)
  {
    && (forall p :: p in f.programs <==> HasLink(Done(f), p))
    && (forall p, k: nat | FirstLink(Done(f), p, k) ::
          p in f.programs && f.programs[p] == A.Alive(Done(f)[k].shaders, f.deaths[k]))
  }

  lemma ProgramMoves(f: Frame, ls: Locations)
    requires Position(f) < |f.scene.log| && ProgramsFrom(f)
    ensures Behind(ExecutedNext(f, ls)) && ProgramsFrom(ExecutedNext(f, ls))
  {
    var g, n := ExecutedNext(f, ls), Position(f);
    var e := f.scene.log[n];
    DoneMore(f, ls);
    SceneryMoves(f, ls);
    hide ExecutedNext, Done, LinkedIn, UploadTargets, RunsOf, A.Alive, HasLink, FirstLink;
    assert Done(g)[..n] == Done(f);
    forall p: nat ensures HasLink(Done(g), p) <==> HasLink(Done(f), p) || (e.Link? && e.program == p) {
      HasLinkMore(Done(g), p);
    }
    forall p: nat, k: nat | FirstLink(Done(g), p, k)
      ensures p in g.programs && g.programs[p] == A.Alive(Done(g)[k].shaders, g.deaths[k]) {
      FirstLinkMore(Done(f), e, p, k);
    }
  }

  lemma FirstLinkMore(log: seq<Event>, e: Event, p: nat, k: nat)
    requires FirstLink(log + [e], p, k)
    ensures if k < |log| then FirstLink(log, p, k) && log[k] == (log + [e])[k]
            else k == |log| && e.Link? && e.program == p && !HasLink(log, p)
  {
    assert forall j | 0 <= j < |log| :: (log + [e])[j] == log[j];
  }

  lemma {:induction false} ProgramsAreHistory(ls: Locations, acts: seq<Act>)
    ensures Behind(F.Run(ls, acts)) && ProgramsFrom(F.Run(ls, acts))
  {
    FrameAlways(ls, acts);
    if acts != [] {
      var n := |acts| - 1;
      var f := F.Run(ls, acts[..n]);
      ProgramsAreHistory(ls, acts[..n]);
      FrameAlways(ls, acts[..n]);
      hide Inv, Edited, ExecutedNext, DeadIn, HasLink, FirstLink, A.Alive, Done;
      match acts[n]
      case Edit(a) =>
        DoneStays(f, a);
        EditFrame(f, a);
      case Execute => if Position(f) < |f.scene.log| { ProgramMoves(f, ls); }
      case SetupTextures(u) => DrawingKeepsPrograms(f, ls, acts[n]);
      case VisitUnits(o) => DrawingKeepsPrograms(f, ls, acts[n]);
    }
  }

  lemma DrawingKeepsPrograms(f: Frame, ls: Locations, a: Act)
    requires Behind(f) && (a.SetupTextures? || a.VisitUnits?)
    ensures var g := Next(f, ls, a);
            && Behind(g) && Done(g) == Done(f) && g.scene == f.scene && g.deaths == f.deaths
            && g.programs == f.programs
  {
    hide Visited;
  }

  lemma {:induction false} FirstLinkExists(log: seq<Event>, p: nat) returns (k: nat)
    requires HasLink(log, p)
    ensures FirstLink(log, p, k) && Y.LinksIn(log, p) != [] && Y.LinksIn(log, p)[0] == log[k].shaders
  {
    var n := |log| - 1;
    if HasLink(log[..n], p) {
      k := FirstLinkExists(log[..n], p);
      assert forall j | 0 <= j <= k :: log[..n][j] == log[j];
    } else {
      k := n;
      forall j | 0 <= j < n ensures !(log[j].Link? && log[j].program == p) {
        assert log[..n][j] == log[j];
      }
      NoLinks(log[..n], p);
    }
  }

  lemma HasLinkMore(log: seq<Event>, p: nat)
    requires log != []
    ensures var n := |log| - 1;
            HasLink(log, p) <==> HasLink(log[..n], p) || (log[n].Link? && log[n].program == p)
  {
    var n := |log| - 1;
    if m :| 0 <= m < n && log[..n][m].Link? && log[..n][m].program == p {
      assert log[m] == log[..n][m];
    }
    if m :| 0 <= m < n && log[m].Link? && log[m].program == p {
      assert log[m] == log[..n][m];
    }
  }

  lemma {:induction false} NoLinks(log: seq<Event>, p: nat)
    requires !HasLink(log, p)
    ensures Y.LinksIn(log, p) == []
  {
    if log != [] {
      HasLinkMore(log, p);
      NoLinks(log[..|log| - 1], p);
    }
  }

  /** In every state, a program in use was made at the first link of it that was executed, from the shaders attached
      before that link, those that were alive then. */
  lemma FrameShowsProgram(ls: Locations, acts: seq<Act>, p: nat)
    requires p in F.Run(ls, acts).programs
    ensures Behind(F.Run(ls, acts)) && Y.LinksAsked(EditsOf(acts), p) != []
    ensures var f := F.Run(ls, acts);
            exists k: nat :: FirstLink(Done(f), p, k)
                     && f.programs[p] == A.Alive(Y.LinksAsked(EditsOf(acts), p)[0], f.deaths[k])
  {
    var f := F.Run(ls, acts);
    ProgramsAreHistory(ls, acts);
    SceneOfEdits(ls, acts);
    hide F.Run, Scene.Run, HasLink, A.Alive, Y.LinksIn, Y.LinksAsked, Y.Attached, Y.LinkWanted, A.HasProgram,
      FirstLink;
    var k := FirstLinkExists(Done(f), p);
    Y.LinksAreAsked(EditsOf(acts), p);
    Y.LinksPrefix(f.scene.log, Position(f), p);
  }

  // ---- uniforms ----

  /** The uniforms executed so far, in order, of each command whose program was alive when it was executed and had been
      asked to link before it was pushed. */
  function UniformWrites(log: seq<Event>, deaths: seq<set<nat>>, ls: Locations, t: nat): seq<T.Write>
    requires |deaths| == |log|
  {
    if log == [] then []
    else
      var n := |log| - 1;
      UniformWrites(log[..n], deaths[..n], ls, t) + WritesAt(log[..n], log[n], deaths[n], ls, t)
  }

  predicate IsUniforms(e: Event, t: nat) { e.UpdateTechnique? && e.technique == t && e.update.AddUniforms? }

  function WritesAt(before: seq<Event>, e: Event, dead: set<nat>, ls: Locations, t: nat): seq<T.Write> {
    if IsUniforms(e, t) && e.update.issuedFor !in dead && LinkAsked(e.update.issuedFor) in before
    then T.WritesOf(T.World({}, {}, ls), e.update.issuedFor, e.update.uniforms) else []
  }

  lemma {:induction false} WritesIgnoreWorld(w: T.World, program: nat, us: seq<T.Uniform>)
    ensures T.WritesOf(w, program, us) == T.WritesOf(T.World({}, {}, w.locations), program, us)
  {
    if us != [] {
      WritesIgnoreWorld(w, program, us[1..]);
    }
  }

  lemma {:induction false} LinkedMeansLink(log: seq<Event>, p: nat)
    ensures p in LinkedIn(log) <==> HasLink(log, p)
  {
    if log != [] {
      LinkedMeansLink(log[..|log| - 1], p);
      HasLinkMore(log, p);
    }
  }

  lemma FirstTargeted(x: T.State, u: T.Update)
    requires T.UniformsInv(x) && u.AddUniforms? && |x.queue| > 0 && x.queue[0] == u
    ensures x.rendering.program == Some(u.issuedFor)
  {
  }

  /** A uniform command about to be executed finds the program it was issued for. */
  lemma UniformsFindProgram(ls: Locations, acts: seq<Act>, t: nat)
    requires Behind(F.Run(ls, acts)) && Position(F.Run(ls, acts)) < |F.Run(ls, acts).scene.log|
    requires IsUniforms(F.Run(ls, acts).scene.log[Position(F.Run(ls, acts))], t)
    ensures var f := F.Run(ls, acts);
            RenderingOf(f, t).program == Some(f.scene.log[Position(f)].update.issuedFor)
  {
    hide F.Run, T.Run, TechniqueActs, LinkedIn, UpdatesOf, SnapshotsOf, PendingTechnique, RenderingOf, T.UniformsInv;
    var f := F.Run(ls, acts);
    TechniqueIsMachine(ls, acts, t);
    T.AlwaysUniforms(ls, TechniqueActs(ls, acts, t));
    RestLess(f.scene.log, Position(f), t);
    FirstTargeted(T.Run(ls, TechniqueActs(ls, acts, t)), f.scene.log[Position(f)].update);
  }

  /** If that program is alive, it is linked if and only if a link was asked for. */
  lemma UniformsFindLink(ls: Locations, acts: seq<Act>, t: nat)
    requires Behind(F.Run(ls, acts)) && Position(F.Run(ls, acts)) < |F.Run(ls, acts).scene.log|
    requires IsUniforms(F.Run(ls, acts).scene.log[Position(F.Run(ls, acts))], t)
    requires F.Run(ls, acts).scene.log[Position(F.Run(ls, acts))].update.issuedFor !in F.Run(ls, acts).scene.dead
    ensures var f := F.Run(ls, acts);
            var p := f.scene.log[Position(f)].update.issuedFor;
            p in LinkedIn(Done(f)) <==> LinkAsked(p) in Done(f)
  {
    hide F.Run, Scene.Run, LinkedIn, HasLink, DeadIn, Inv;
    var f := F.Run(ls, acts);
    var p := f.scene.log[Position(f)].update.issuedFor;
    SceneOfEdits(ls, acts);
    assert f.scene.dead == DeadIn(f.scene.log) by { FrameAlways(ls, acts); DeadOfInv(f); }
    LinkedMeansLink(Done(f), p);
    DeadGrows(f.scene.log, Position(f));
    LinkedBeforeUniformsIff(EditsOf(acts), Position(f));
  }

  lemma DeadOfInv(f: Frame)
    requires FrameInv(f)
    ensures f.scene.dead == DeadIn(f.scene.log)
  {
  }

  lemma ExecuteUniforms(ls: Locations, acts: seq<Act>, t: nat)
    requires Behind(F.Run(ls, acts)) && Position(F.Run(ls, acts)) < |F.Run(ls, acts).scene.log|
    ensures var f := F.Run(ls, acts);
            RenderingOf(ExecutedNext(f, ls), t).uniforms
            == T.Written(RenderingOf(f, t).uniforms, WritesAt(Done(f), f.scene.log[Position(f)], f.scene.dead, ls, t))
  {
    hide F.Run, ExecutedNext, RenderingOf, LinkedIn, Done, T.WritesOf;
    var f := F.Run(ls, acts);
    var e := f.scene.log[Position(f)];
    ExecutedFrame(f, ls);
    if IsUniforms(e, t) {
      UniformsFindProgram(ls, acts, t);
      if e.update.issuedFor !in f.scene.dead { UniformsFindLink(ls, acts, t); }
      WritesIgnoreWorld(WorldOf(f, ls), e.update.issuedFor, e.update.uniforms);
    }
  }

  lemma UniformWritesMore(log: seq<Event>, deaths: seq<set<nat>>, e: Event, dead: set<nat>, ls: Locations, t: nat)
    requires |deaths| == |log|
    ensures T.Written(map[], UniformWrites(log + [e], deaths + [dead], ls, t))
         == T.Written(T.Written(map[], UniformWrites(log, deaths, ls, t)), WritesAt(log, e, dead, ls, t))
  {
    assert (log + [e])[..|log|] == log && (deaths + [dead])[..|log|] == deaths;
    T.WrittenConcat(map[], UniformWrites(log, deaths, ls, t), WritesAt(log, e, dead, ls, t));
    hide T.Written, WritesAt;
  }

  /** In every state the uniform map of a technique holds these writes and no other, later ones over earlier. */
  lemma {:induction false} FrameShowsUniforms(ls: Locations, acts: seq<Act>, t: nat)
    ensures Behind(F.Run(ls, acts))
    ensures var f := F.Run(ls, acts);
            RenderingOf(f, t).uniforms == T.Written(map[], UniformWrites(Done(f), f.deaths, ls, t))
  {
    FrameAlways(ls, acts);
    if acts != [] {
      var n := |acts| - 1;
      var f := F.Run(ls, acts[..n]);
      FrameAlways(ls, acts[..n]);
      FrameShowsUniforms(ls, acts[..n], t);
      hide Inv, Edited, ExecutedNext, DeadIn, T.Written, LinkedIn, UploadTargets, RunsOf, WritesAt, UniformWrites,
        T.Executed, Done;
      match acts[n]
      case Edit(a) =>
        DoneStays(f, a);
        EditFrame(f, a);
      case Execute =>
        if Position(f) < |f.scene.log| {
          ExecuteUniforms(ls, acts[..n], t);
          DoneMore(f, ls);
          UniformWritesMore(Done(f), f.deaths, f.scene.log[Position(f)], f.scene.dead, ls, t);
        }
      case SetupTextures(u) => SetupUniforms(f, ls, u, t);
      case VisitUnits(_) =>
    }
  }

  lemma SetupUniforms(f: Frame, ls: Locations, u: nat, t: nat)
    requires Behind(f)
    ensures var g := Next(f, ls, SetupTextures(u));
            Behind(g) && Done(g) == Done(f) && RenderingOf(g, t).uniforms == RenderingOf(f, t).uniforms
  {
  }

  // ---- the edits up to a mark ----

  /** All edits made before the log grew beyond its first x entries. */
  function EditsUntil(edits: seq<Action>, x: nat): seq<Action> {
    if edits == [] || |Scene.Run(edits).log| <= x then edits else EditsUntil(edits[..|edits| - 1], x)
  }

  /** The log up to x ends with a commit mark, or is empty. */
  predicate AtMark(log: seq<Event>, x: nat) { x <= |log| && (x == 0 || log[x - 1] == CommitMark) }

  lemma CommitMarksLast(s: State, o: nat, order: seq<nat>)
    requires Inv(s) && Covers(s, order)
    ensures var t := ObjectCommitted(s, o, order);
            s.log <= t.log && forall i | |s.log| <= i < |t.log| - 1 :: t.log[i] != CommitMark
  {
    if o in s.objects {
      UnitsInv(s, s.objects[o], order);
      hide Inv, Covers, UnitsCommitted, Living;
      ObjectPushes(s, o, order);
    }
  }

  /** An edit adds at most one mark, behind what else it adds. */
  lemma MarkIsLast(s: State, a: Action)
    requires Inv(s)
    ensures var t := Scene.Step(s, a);
            s.log <= t.log && forall i | |s.log| <= i < |t.log| - 1 :: t.log[i] != CommitMark
  {
    hide Inv, Covers, ObjectCommitted, T.Called, V.Set;
    match a
    case CommitObject(o, order) => if Covers(s, order) { CommitMarksLast(s, o, order); }
    case _ =>
  }

  lemma {:induction false} MarkedEdits(edits: seq<Action>, x: nat)
    requires AtMark(Scene.Run(edits).log, x)
    ensures EditsUntil(edits, x) <= edits && Scene.Run(EditsUntil(edits, x)).log == Scene.Run(edits).log[..x]
    ensures Scene.Run(EditsUntil(edits, x)).dead <= Scene.Run(edits).dead
  {
    hide Inv;
    var log := Scene.Run(edits).log;
    if |log| <= x {
      assert log[..x] == log;
    } else if edits != [] {
      var front, last := edits[..|edits| - 1], edits[|edits| - 1];
      var s := Scene.Run(front);
      Scene.Always(front);
      MarkIsLast(s, last);
      EditGrows(s, last);
      hide Scene.Step;
      assert x <= |s.log|;
      assert s.log[..x] == log[..x];
      MarkedEdits(front, x);
    }
  }

  /** The edits before the commit mark the render thread stands behind. */
  function EditsBefore(ls: Locations, acts: seq<Act>): seq<Action> {
    EditsUntil(EditsOf(acts), Position(F.Run(ls, acts)))
  }

  /** f shows what the edits e ask for: every technique what was called before the last commit that reached it, every
      attribute what was set before the last commit that reached its vertex array, units and objects likewise. */
  ghost predicate ShowsAll(f: Frame, e: seq<Action>)
    requires Behind(f)
  {
    && (forall t :: T.Shows(RenderingOf(f, t), CallsShown(e, t), f.scene.dead))
    && (forall v, i ::
          ShowsAttribute(V.At(GlOf(f, v), i), V.At(V.Replayed(SettersShown(e, v)), i), Executions(f, v), i))
    && ShowsScenery(f, e)
  }

  /**
    Whatever the update thread does meanwhile: whenever the render thread stands behind a commit mark, everything shows
    what the edits before that mark ask for. The pointer of an attribute is there if and only if, among the executions
    so far, the last one into a live buffer that GL did not reject was of this pointer, with the last data given to its
    buffer before it given for the array target.
   */
  lemma FrameShows(ls: Locations, acts: seq<Act>)
    requires AtMark(F.Run(ls, acts).scene.log, Position(F.Run(ls, acts)))
    ensures var f, e := F.Run(ls, acts), EditsBefore(ls, acts);
            e <= EditsOf(acts) && Scene.Run(e).log == Done(f) && ShowsAll(f, e)
  {
    hide F.Run, Scene.Run, T.Shows, ShowsAttribute, EditsUntil, RenderingOf, GlOf, Executions, ShowsScenery,
      CallsShown, SettersShown, V.At, V.Replayed;
    var f, e := F.Run(ls, acts), EditsBefore(ls, acts);
    SceneOfEdits(ls, acts);
    MarkedEdits(EditsOf(acts), Position(f));
    forall t: nat ensures T.Shows(RenderingOf(f, t), CallsShown(e, t), f.scene.dead) {
      ShownByEdits(ls, acts, e, t);
    }
    forall v: nat, i: nat
      ensures ShowsAttribute(V.At(GlOf(f, v), i), V.At(V.Replayed(SettersShown(e, v)), i), Executions(f, v), i) {
      ArrayShownByEdits(ls, acts, e, v, i);
    }
    SceneryShownByEdits(ls, acts, e);
  }

  // ---- one commit ----

  lemma {:induction false} EditsConcat(a: seq<Act>, b: seq<Act>)
    ensures EditsOf(a + b) == EditsOf(a) + EditsOf(b)
  {
    if b == [] {
      assert a + b == a;
    } else {
      assert (a + b)[..|a + b| - 1] == a + b[..|b| - 1];
      EditsConcat(a, b[..|b| - 1]);
    }
  }

  lemma {:induction false} EditsGrow(edits: seq<Action>, more: seq<Action>)
    ensures Scene.Run(edits).log <= Scene.Run(edits + more).log && Scene.Run(edits).dead <= Scene.Run(edits + more).dead
  {
    hide Inv, Scene.Run, Scene.Step;
    if more == [] {
      assert edits + more == edits;
    } else {
      var front, last := more[..|more| - 1], more[|more| - 1];
      assert edits + more == edits + front + [last];
      EditsGrow(edits, front);
      RunMore(edits + front, last);
      Scene.Always(edits + front);
      EditGrows(Scene.Run(edits + front), last);
    }
  }

  /** The log of a run of acts, split behind the commit of o in it. */
  lemma SplitAtCommit(ls: Locations, acts: seq<Act>, o: nat, order: seq<nat>, more: seq<Act>)
    requires Covers(F.Run(ls, acts).scene, order)
    ensures var f, g := F.Run(ls, acts), F.Run(ls, acts + [Edit(CommitObject(o, order))] + more);
            var s, e := ObjectCommitted(f.scene, o, order), EditsOf(acts) + [CommitObject(o, order)];
            && Scene.Run(EditsOf(acts)) == f.scene && Scene.Run(e) == s
            && s.log <= g.scene.log && s.dead <= g.scene.dead
  {
    var commit, e := CommitObject(o, order), EditsOf(acts) + [CommitObject(o, order)];
    SceneOfEdits(ls, acts);
    SceneOfEdits(ls, acts + [Edit(commit)] + more);
    EditsConcat(acts + [Edit(commit)], more);
    EditsConcat(acts, [Edit(commit)]);
    assert EditsOf([Edit(commit)]) == [commit] by { assert [Edit(commit)][..0] == []; }
    RunMore(EditsOf(acts), commit);
    CommitStep(Scene.Run(EditsOf(acts)), o, order);
    EditsGrow(e, EditsOf(more));
    hide F.Run, Scene.Run, Scene.Step, ObjectCommitted, Covers;
  }

  lemma AskedAtCommit(edits: seq<Action>, o: nat, order: seq<nat>, id: nat)
    requires Covers(Scene.Run(edits), order) && A.HasObject(edits, o)
    ensures var e := edits + [CommitObject(o, order)];
            && (A.ReachesTechnique(edits, o, id) ==> CallsShown(e, id) == A.CallsTo(edits, id))
            && (A.ReachesArray(edits, o, id) ==> SettersShown(e, id) == A.SettersOf(edits, id))
            && (A.ReachesUnit(edits, o, id) ==> Y.TechniqueShown(e, id) == A.TechniqueOf(edits, id))
            && Y.UnitsShown(e, o) == Some(A.Alive(A.UnitsAdded(edits, o), A.Gone(edits)))
  {
    assert (edits + [CommitObject(o, order)])[..|edits|] == edits;
    hide Scene.Run, Covers, A.ReachesTechnique, A.ReachesArray, A.Alive, A.UnitsAdded, A.Gone, A.TechniqueOf;
  }

  /** Between the mark of the commit and where the render thread is now lies nothing for id. */
  lemma SameSinceMark(log: seq<Event>, done: seq<Event>, id: nat)
    requires log <= done
    ensures UpdatesOf(done[|log|..], id) == [] ==> UpdatesOf(done, id) == UpdatesOf(log, id)
    ensures SnapshotsOf(done[|log|..], id) == [] ==> SnapshotsOf(done, id) == SnapshotsOf(log, id)
  {
    assert done == log + done[|log|..];
    OfConcat(log, done[|log|..], id);
    assert UpdatesOf(log, id) + [] == UpdatesOf(log, id) && SnapshotsOf(log, id) + [] == SnapshotsOf(log, id);
  }

  predicate TellsUnit(log: seq<Event>, u: nat) {
    exists k :: 0 <= k < |log| && log[k].SetTechnique? && log[k].renderingUnit == u
  }

  predicate TellsObject(log: seq<Event>, o: nat) {
    exists k :: 0 <= k < |log| && log[k].SetUnits? && log[k].virtualObject == o
  }

  lemma {:induction false} UntoldSince(log: seq<Event>, since: seq<Event>, id: nat)
    ensures !TellsUnit(since, id) ==>
              Y.TechniqueIn(Y.SceneryOf(log + since), id) == Y.TechniqueIn(Y.SceneryOf(log), id)
    ensures !TellsObject(since, id) ==> Y.UnitsIn(Y.SceneryOf(log + since), id) == Y.UnitsIn(Y.SceneryOf(log), id)
  {
    if since == [] {
      assert log + since == log;
    } else {
      var n := |since| - 1;
      assert (log + since)[..|log + since| - 1] == log + since[..n];
      UntoldSince(log, since[..n], id);
      if TellsUnit(since[..n], id) {
        var k :| 0 <= k < n && since[..n][k].SetTechnique? && since[..n][k].renderingUnit == id;
        assert since[k] == since[..n][k];
      }
      if TellsObject(since[..n], id) {
        var k :| 0 <= k < n && since[..n][k].SetUnits? && since[..n][k].virtualObject == id;
        assert since[k] == since[..n][k];
      }
      hide Y.SceneryOf;
      MoreOfSince(log, since, id);
    }
  }

  lemma MoreOfSince(log: seq<Event>, since: seq<Event>, id: nat)
    requires since != []
    ensures Y.SceneryOf(log + since) == Y.Presented(Y.SceneryOf(log + since[..|since| - 1]), since[|since| - 1])
  {
    assert (log + since)[..|log + since| - 1] == log + since[..|since| - 1];
  }

  /** A unit or object that the executed entries have told nothing since the edits e. */
  lemma SceneryShownSince(ls: Locations, acts: seq<Act>, e: seq<Action>, id: nat)
    requires Behind(F.Run(ls, acts)) && Scene.Run(e).log <= Done(F.Run(ls, acts))
    ensures var f := F.Run(ls, acts);
            var since := Done(f)[|Scene.Run(e).log|..];
            && (!TellsUnit(since, id) ==> Y.TechniqueIn(f.scenery, id) == Y.TechniqueShown(e, id))
            && (!TellsObject(since, id) ==> ShowsUnits(Y.UnitsIn(f.scenery, id), Y.UnitsShown(e, id), f.scene.dead))
  {
    hide F.Run, Scene.Run, Y.SceneryOf, Y.TechniqueShown, Y.UnitsShown, Y.PoseShown, ShowsUnits, Done, TellsUnit,
      TellsObject;
    var f := F.Run(ls, acts);
    var log := Scene.Run(e).log;
    SceneryIsHistory(ls, acts);
    Y.SceneryIsAsked(e);
    assert Done(f) == log + Done(f)[|log|..];
    UntoldSince(log, Done(f)[|log|..], id);
    assert Y.TechniqueIn(Y.SceneryOf(log), id) == Y.TechniqueShown(e, id);
    assert Y.UnitsIn(Y.SceneryOf(log), id) == Y.UnitsShown(e, id);
    assert ShowsUnits(Y.UnitsIn(f.scenery, id), Y.UnitsIn(Y.SceneryOf(Done(f)), id), f.scene.dead);
    assert Y.TechniqueIn(f.scenery, id) == Y.TechniqueIn(Y.SceneryOf(Done(f)), id);
  }

  /** The run of acts with the commit of o behind it. */
  function WithCommit(acts: seq<Act>, o: nat, order: seq<nat>, more: seq<Act>): seq<Act> {
    acts + [Edit(CommitObject(o, order))] + more
  }

  /**
    Commit an object and let the render thread get past the mark of that commit, however far, while edits, further
    commits, deaths and drawing go on as they like. Each technique, vertex array and unit that the object reached, and
    the object itself, shows what the edits before the commit asked for, unless a command of it has been executed since.
   */
  lemma FrameShowsCommit(ls: Locations, acts: seq<Act>, o: nat, order: seq<nat>, more: seq<Act>, id: nat, i: nat)
    requires Covers(F.Run(ls, acts).scene, order) && A.HasObject(EditsOf(acts), o)
    requires |ObjectCommitted(F.Run(ls, acts).scene, o, order).log|
             <= Position(F.Run(ls, WithCommit(acts, o, order, more)))
    ensures Behind(F.Run(ls, WithCommit(acts, o, order, more)))
    ensures var f, g, e := F.Run(ls, acts), F.Run(ls, WithCommit(acts, o, order, more)), EditsOf(acts);
            var since := Done(g)[|ObjectCommitted(f.scene, o, order).log|..];
            && (A.ReachesTechnique(e, o, id) && UpdatesOf(since, id) == [] ==>
                  T.Shows(RenderingOf(g, id), A.CallsTo(e, id), g.scene.dead))
            && (A.ReachesArray(e, o, id) && SnapshotsOf(since, id) == [] ==>
                  ShowsAttribute(V.At(GlOf(g, id), i), V.At(V.Replayed(A.SettersOf(e, id)), i), Executions(g, id), i))
            && (A.ReachesUnit(e, o, id) && !TellsUnit(since, id) ==>
                  Y.TechniqueIn(g.scenery, id) == A.TechniqueOf(e, id))
            && (!TellsObject(since, o) ==>
                  ShowsUnits(Y.UnitsIn(g.scenery, o), Some(A.Alive(A.UnitsAdded(e, o), A.Gone(e))), g.scene.dead))
  {
    hide F.Run, Scene.Run, T.Shows, ShowsAttribute, RenderingOf, GlOf, Executions, ObjectCommitted, Covers, UpdatesOf,
      SnapshotsOf, CallsShown, SettersShown, Inv, DeadIn, A.ReachesTechnique, A.ReachesArray, A.ReachesUnit, A.Alive,
      A.CallsTo, A.SettersOf, A.TechniqueOf, A.UnitsAdded, A.Gone, Y.TechniqueShown, Y.UnitsShown, ShowsUnits, V.At,
      V.Replayed, TellsUnit, TellsObject, A.HasObject;
    var f, all := F.Run(ls, acts), WithCommit(acts, o, order, more);
    var e := EditsOf(acts) + [CommitObject(o, order)];
    var g, s := F.Run(ls, all), ObjectCommitted(F.Run(ls, acts).scene, o, order);
    FrameAlways(ls, all);
    SplitAtCommit(ls, acts, o, order, more);
    AskedAtCommit(EditsOf(acts), o, order, id);
    assert s.log <= Done(g);
    SameSinceMark(s.log, Done(g), id);
    SceneryShownSince(ls, all, e, id);
    SceneryShownSince(ls, all, e, o);
    if UpdatesOf(Done(g), id) == UpdatesOf(s.log, id) { ShownByEdits(ls, all, e, id); }
    if SnapshotsOf(Done(g), id) == SnapshotsOf(s.log, id) { ArrayShownByEdits(ls, all, e, id, i); }
  }
}
