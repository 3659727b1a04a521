/** The whole scene: edits and recursive commits on the update thread, execution on the render thread. Each technique
    and each vertex array in it behaves as it does alone. */
module Frame {
  import opened Options
  import opened Scene
  import opened CommitEffect
  import V = VertexArray
  import T = BaseTechnique
  import A = Asked
  import Y = Scenery

  type Locations = map<(nat, string), int>

  /** `deaths` is history: for each entry of the scene's log that has been executed, the resources destroyed by then. */
  datatype Frame = Frame(
    scene: State, deaths: seq<set<nat>>, renderings: map<nat, T.Rendering>, gls: map<nat, V.Gl>,
    scenery: Y.Scenery,                // the rendering state of units and objects
    programs: map<nat, seq<nat>>)      // the shaders attached to each program that has been linked

  datatype Act =
    | Edit(a: Action)            // the update thread
    | Execute                    // the render thread takes the next entry
    | SetupTextures(t: nat)      // the render thread draws with a technique
    | VisitUnits(o: nat)         // the render thread draws an object: units that are gone leave its list

  function Begin(): Frame { Frame(Scene.Start(), [], map[], map[], Y.EMPTY, map[]) }

  /** How far into the log the render thread has got. */
  function Position(f: Frame): nat { |f.deaths| }

  predicate Behind(f: Frame) { Position(f) <= |f.scene.log| }

  function Done(f: Frame): seq<Event>
    requires Behind(f)
  {
    f.scene.log[..Position(f)]
  }

  function Rest(f: Frame): seq<Event>
    requires Behind(f)
  {
    f.scene.log[Position(f)..]
  }

  function RenderingOf(f: Frame, t: nat): T.Rendering { if t in f.renderings then f.renderings[t] else T.UNDRAWN }
  function GlOf(f: Frame, v: nat): V.Gl { if v in f.gls then f.gls[v] else map[] }

  function PendingTechnique(s: State, t: nat): T.Pending { if t in s.techniques then s.techniques[t] else T.BLANK }
  function PendingArray(s: State, v: nat): V.Pending {
    if v in s.vertexArrays then s.vertexArrays[v] else V.Pending(map[], false)
  }

  /** The programs that have been linked by executing these entries. */
  function LinkedIn(log: seq<Event>): set<nat> {
    if log == [] then {}
    else
      var before, last := LinkedIn(log[..|log| - 1]), log[|log| - 1];
      if last.Link? then before + {last.program} else before
  }

  function WorldOf(f: Frame, ls: Locations): T.World
    requires Behind(f)
  {
    T.World(f.scene.dead, LinkedIn(Done(f)), ls)
  }

  function BuffersOf(f: Frame): V.Buffers
    requires Behind(f)
  {
    V.Buffers(f.scene.dead, UploadTargets(Done(f)))
  }

  /** A program is made once, from the shaders alive when its first link command is executed. */
  function ProgramsAfter(programs: map<nat, seq<nat>>, e: Event, dead: set<nat>): map<nat, seq<nat>> {
    if e.Link? && e.program !in programs then programs[e.program := A.Alive(e.shaders, dead)] else programs
  }

  function Visited(y: Y.Scenery, o: nat, dead: set<nat>): Y.Scenery {
    if o in y.units then y.(units := y.units[o := A.Alive(y.units[o], dead)]) else y
  }

  function ExecutedNext(f: Frame, ls: Locations): Frame
    requires Position(f) < |f.scene.log|
  {
    var e := f.scene.log[Position(f)];
    var g := f.(deaths := f.deaths + [f.scene.dead], scenery := Y.Presented(f.scenery, e),
                programs := ProgramsAfter(f.programs, e, f.scene.dead));
    if e.UpdateTechnique? then
      g.(renderings := f.renderings[e.technique := T.Executed(RenderingOf(f, e.technique), e.update, WorldOf(f, ls))])
    else if e.UpdateAttributes? then
      g.(gls := f.gls[e.vertexArray := V.Executed(GlOf(f, e.vertexArray), e.attributes, BuffersOf(f))])
    else g
  }

  function Edited(f: Frame, a: Action): Frame { f.(scene := Scene.Step(f.scene, a)) }

  /** An action that is not enabled changes nothing, so every action sequence is a run. */
  function Next(f: Frame, ls: Locations, a: Act): Frame {
    match a
    case Edit(a) => Edited(f, a)
    case Execute => if Position(f) < |f.scene.log| then ExecutedNext(f, ls) else f
    case SetupTextures(t) =>
      var r := RenderingOf(f, t);
      f.(renderings := f.renderings[t := r.(textures := T.LiveTextures(r.textures, f.scene.dead))])
    case VisitUnits(o) => f.(scenery := Visited(f.scenery, o, f.scene.dead))
  }

  function Run(ls: Locations, acts: seq<Act>): Frame {
    if acts == [] then Begin() else Next(Run(ls, acts[..|acts| - 1]), ls, acts[|acts| - 1])
  }

  // ---- each technique and vertex array is the stand-alone machine ----

  /** The executions of the snapshots of v. */
  function RunsOf(log: seq<Event>, deaths: seq<set<nat>>, v: nat): seq<V.Execution>
    requires |deaths| == |log|
  {
    if log == [] then []
    else
      var n := |log| - 1;
      RunsOf(log[..n], deaths[..n], v)
      + if log[n].UpdateAttributes? && log[n].vertexArray == v
        then [V.Execution(log[n].attributes, V.Buffers(deaths[n], UploadTargets(log[..n])))] else []
  }

  function TechniqueState(f: Frame, ls: Locations, t: nat): T.State
    requires Behind(f)
  {
    T.State(PendingTechnique(f.scene, t), UpdatesOf(Rest(f), t), RenderingOf(f, t), WorldOf(f, ls), [], [], [])
  }

  function ArrayState(f: Frame, v: nat): V.State
    requires Behind(f)
  {
    V.State(PendingArray(f.scene, v), SnapshotsOf(Rest(f), v), GlOf(f, v), BuffersOf(f), [],
            RunsOf(Done(f), f.deaths, v))
  }

  // ---- the history, cut where the render thread is ----

  lemma {:induction false} OfConcat(a: seq<Event>, b: seq<Event>, id: nat)
    ensures UpdatesOf(a + b, id) == UpdatesOf(a, id) + UpdatesOf(b, id)
    ensures SnapshotsOf(a + b, id) == SnapshotsOf(a, id) + SnapshotsOf(b, id)
  {
    if b == [] {
      assert a + b == a;
    } else {
      OfConcat(a, b[..|b| - 1], id);
      assert (a + b)[..|a + b| - 1] == a + b[..|b| - 1];
    }
  }

  /** What is added to the history is added to what the render thread has still to do. */
  lemma AddedToRest(log: seq<Event>, more: seq<Event>, at: nat, id: nat, us: seq<T.Update>, vs: seq<V.Attributes>)
    requires log <= more && at <= |log|
    requires UpdatesOf(more, id) == UpdatesOf(log, id) + us && SnapshotsOf(more, id) == SnapshotsOf(log, id) + vs
    ensures UpdatesOf(more[at..], id) == UpdatesOf(log[at..], id) + us
    ensures SnapshotsOf(more[at..], id) == SnapshotsOf(log[at..], id) + vs
    ensures more[..at] == log[..at]
  {
    assert log == log[..at] + log[at..] && more == log[..at] + more[at..] && more[..at] == log[..at];
    OfConcat(log[..at], log[at..], id);
    OfConcat(log[..at], more[at..], id);
    hide UpdatesOf, SnapshotsOf;
    CutTail(UpdatesOf(log[..at], id), UpdatesOf(log[at..], id), UpdatesOf(more[at..], id), us);
    CutTail(SnapshotsOf(log[..at], id), SnapshotsOf(log[at..], id), SnapshotsOf(more[at..], id), vs);
  }

  lemma CutTail<X>(p: seq<X>, rest: seq<X>, more: seq<X>, added: seq<X>)
    requires p + more == (p + rest) + added
    ensures more == rest + added
  {
    assert (p + more)[|p|..] == more && ((p + rest) + added)[|p|..] == rest + added;
  }

  // ---- edits ----

  /** What an edit commits. */
  function ReachBy(s: State, a: Action): Reach {
    match a
    case CommitObject(o, order) => if Covers(s, order) then ObjectReach(s, o) else NOTHING
    case _ => NOTHING
  }

  lemma CommitLogGrows(s: State, o: nat, order: seq<nat>)
    requires Inv(s) && Covers(s, order)
    ensures s.log <= ObjectCommitted(s, o, order).log
  {
    if o in s.objects {
      UnitsInv(s, s.objects[o], order);
      hide Inv, Covers, UnitsCommitted, Living;
    }
  }

  lemma CommitLog(s: State, o: nat, order: seq<nat>, id: nat)
    requires Inv(s) && Covers(s, order)
    ensures var t := ObjectCommitted(s, o, order);
            && s.log <= t.log
            && UpdatesOf(t.log, id) == UpdatesOf(s.log, id) + UpdatesIn(s, ObjectReach(s, o), id)
            && SnapshotsOf(t.log, id) == SnapshotsOf(s.log, id) + SnapshotsIn(s, ObjectReach(s, o), id)
  {
    CommitLogGrows(s, o, order);
    ObjectEffect(s, o, order);
    hide Inv, Covers, ObjectReach, ObjectCommitted, UpdatesOf, SnapshotsOf, UpdatesIn, SnapshotsIn;
  }

  lemma NothingIn(s: State, id: nat)
    ensures UpdatesIn(s, NOTHING, id) == [] && SnapshotsIn(s, NOTHING, id) == []
  {
  }

  lemma EditLog(s: State, a: Action, id: nat)
    requires Inv(s)
    ensures var t := Scene.Step(s, a);
            && s.log <= t.log
            && UpdatesOf(t.log, id) == UpdatesOf(s.log, id) + UpdatesIn(s, ReachBy(s, a), id)
            && SnapshotsOf(t.log, id) == SnapshotsOf(s.log, id) + SnapshotsIn(s, ReachBy(s, a), id)
  {
    NothingIn(s, id);
    hide Inv, Covers, ObjectReach, ObjectCommitted, UpdatesOf, SnapshotsOf, UpdatesIn, SnapshotsIn, T.Called, V.Set;
    match a
    case GlBufferData(b, target) => OneMoreOf(s.log, DataSet(b, target), id);
    case GlLinkProgram(p) => if p in s.programs { OneMoreOf(s.log, LinkAsked(p), id); }
    case ChangeTexture(t) => OneMoreOf(s.log, TextureChanged(t), id);
    case Destroy(x) => OneMoreOf(s.log, Release(x), id);
    case Move(o, pose) =>
      OneMoreOf(s.log, SetPose(o, pose), id);
      OneMoreOf(s.log + [SetPose(o, pose)], CommitMark, id);
    case CommitObject(o, order) => if Covers(s, order) { CommitLog(s, o, order, id); }
    case _ =>
  }

  lemma PendingAfterObject(s: State, o: nat, order: seq<nat>, id: nat)
    requires Covers(s, order)
    ensures var m, r := ObjectCommitted(s, o, order), ObjectReach(s, o);
            && m.dead == s.dead
            && PendingTechnique(m, id) == (if id in r.techniques
                                           then T.PendingAfterCommit(PendingTechnique(s, id), s.dead)
                                           else PendingTechnique(s, id))
            && PendingArray(m, id) == (if id in r.arrays then V.PendingAfterCommit(PendingArray(s, id))
                                       else PendingArray(s, id))
  {
    hide Covers, ObjectReach, ObjectCommitted, UpdatesOf, SnapshotsOf, Flushes;
    ObjectEffect(s, o, order);
  }

  /** An edit calls one technique, commits those it reaches, or leaves a technique alone. */
  lemma TechniqueAfterEdit(s: State, a: Action, t: nat)
    ensures PendingTechnique(Scene.Step(s, a), t) ==
            if a.CallTechnique? && a.technique == t && t in s.techniques then T.Called(s.techniques[t], a.call)
            else if t in ReachBy(s, a).techniques then T.PendingAfterCommit(PendingTechnique(s, t), s.dead)
            else PendingTechnique(s, t)
    ensures Scene.Step(s, a).dead == if a.Destroy? then s.dead + {a.id} else s.dead
  {
    hide Covers, ObjectReach, ObjectCommitted, T.Called, T.PendingAfterCommit, V.Set;
    match a
    case CommitObject(o, order) => if Covers(s, order) { PendingAfterObject(s, o, order, t); }
    case _ =>
  }

  lemma ArrayAfterEdit(s: State, a: Action, v: nat)
    ensures PendingArray(Scene.Step(s, a), v) ==
            if a.SetAttribute? && a.vertexArray == v && v in s.vertexArrays then V.Set(s.vertexArrays[v], a.setter)
            else if v in ReachBy(s, a).arrays then V.PendingAfterCommit(PendingArray(s, v))
            else PendingArray(s, v)
  {
    hide Covers, ObjectReach, ObjectCommitted, T.Called, V.PendingAfterCommit, V.Set;
    match a
    case CommitObject(o, order) => if Covers(s, order) { PendingAfterObject(s, o, order, v); }
    case _ =>
  }

  /** What an edit is for the stand-alone technique t. */
  function ForTechnique(s: State, a: Action, t: nat): Option<T.Action> {
    if a.CallTechnique? && a.technique == t && t in s.techniques then Some(T.Do(a.call))
    else if t in ReachBy(s, a).techniques then Some(T.Commit)
    else if a.Destroy? then Some(T.Destroy(a.id))
    else None
  }

  function ForArray(s: State, a: Action, v: nat): Option<V.Action> {
    if a.SetAttribute? && a.vertexArray == v && v in s.vertexArrays then Some(V.Call(a.setter))
    else if v in ReachBy(s, a).arrays then Some(V.Commit)
    else if a.Destroy? then Some(V.Destroy(a.id))
    else None
  }

  function TechniqueMoved(x: T.State, b: Option<T.Action>): T.State { if b.Some? then Bare(T.Step(x, b.value)) else x }
  function ArrayMoved(x: V.State, b: Option<V.Action>): V.State { if b.Some? then Bald(V.Step(x, b.value)) else x }

  /** Without the histories that no step reads. */
  function Bare(x: T.State): T.State { x.(calls := [], flushed := [], writes := []) }
  function Bald(x: V.State): V.State { x.(setters := []) }

  lemma EditFrame(f: Frame, a: Action)
    ensures var g := Edited(f, a);
            && g.scene == Scene.Step(f.scene, a) && g.deaths == f.deaths && g.renderings == f.renderings
            && g.gls == f.gls && g.scenery == f.scenery && g.programs == f.programs
  {
    hide Scene.Step;
  }

  /** From f to g the log has grown by us for t, and the render thread has not moved. */
  lemma TechniqueGrows(f: Frame, g: Frame, ls: Locations, t: nat, us: seq<T.Update>, vs: seq<V.Attributes>)
    requires Behind(f) && f.scene.log <= g.scene.log && g.deaths == f.deaths && g.renderings == f.renderings
    requires UpdatesOf(g.scene.log, t) == UpdatesOf(f.scene.log, t) + us
    requires SnapshotsOf(g.scene.log, t) == SnapshotsOf(f.scene.log, t) + vs
    ensures var x := TechniqueState(f, ls, t);
            TechniqueState(g, ls, t) == T.State(PendingTechnique(g.scene, t), x.queue + us, x.rendering,
                                                x.world.(dead := g.scene.dead), [], [], [])
  {
    hide UpdatesOf, SnapshotsOf, LinkedIn, PendingTechnique;
    AddedToRest(f.scene.log, g.scene.log, Position(f), t, us, vs);
  }

  lemma ArrayGrows(f: Frame, g: Frame, v: nat, us: seq<T.Update>, vs: seq<V.Attributes>)
    requires Behind(f) && f.scene.log <= g.scene.log && g.deaths == f.deaths && g.gls == f.gls
    requires UpdatesOf(g.scene.log, v) == UpdatesOf(f.scene.log, v) + us
    requires SnapshotsOf(g.scene.log, v) == SnapshotsOf(f.scene.log, v) + vs
    ensures var x := ArrayState(f, v);
            ArrayState(g, v)
            == V.State(PendingArray(g.scene, v), x.queue + vs, x.gl, x.w.(dead := g.scene.dead), [], x.runs)
  {
    hide UpdatesOf, SnapshotsOf, UploadTargets, RunsOf, PendingArray;
    AddedToRest(f.scene.log, g.scene.log, Position(f), v, us, vs);
  }

  lemma ReachedPushes(s: State, r: Reach, t: nat)
    ensures UpdatesIn(s, r, t) == if t in r.techniques then T.CommandsOfCommit(PendingTechnique(s, t), s.dead) else []
    ensures SnapshotsIn(s, r, t) == if t in r.arrays then V.CommandsOfCommit(PendingArray(s, t)) else []
  {
  }

  lemma NothingReached(s: State, a: Action)
    requires !a.CommitObject?
    ensures ReachBy(s, a) == NOTHING
  {
  }

  lemma TechniqueFields(f: Frame, ls: Locations, t: nat)
    requires Behind(f)
    ensures var x := TechniqueState(f, ls, t);
            && x.pending == PendingTechnique(f.scene, t) && x.world.dead == f.scene.dead
            && x.calls == [] && x.flushed == [] && x.writes == []
            && (t in f.scene.techniques ==> f.scene.techniques[t] == x.pending)
  {
  }

  lemma ArrayFields(f: Frame, v: nat)
    requires Behind(f)
    ensures var x := ArrayState(f, v);
            && x.pending == PendingArray(f.scene, v) && x.w.dead == f.scene.dead && x.setters == []
            && (v in f.scene.vertexArrays ==> f.scene.vertexArrays[v] == x.pending)
  {
  }

  lemma EditIsTechniqueStep(f: Frame, ls: Locations, a: Action, t: nat)
    requires Behind(f) && Inv(f.scene)
    ensures Behind(Edited(f, a))
    ensures TechniqueState(Edited(f, a), ls, t) == TechniqueMoved(TechniqueState(f, ls, t), ForTechnique(f.scene, a, t))
  {
    hide Inv, Scene.Step, Edited, ReachBy, UpdatesIn, SnapshotsIn, UpdatesOf, SnapshotsOf, PendingTechnique,
      PendingArray, TechniqueState, T.Called, T.CommandsOfCommit, T.PendingAfterCommit, V.CommandsOfCommit;
    var s, g := f.scene, Edited(f, a);
    var r := ReachBy(s, a);
    EditFrame(f, a);
    EditLog(s, a, t);
    TechniqueAfterEdit(s, a, t);
    TechniqueGrows(f, g, ls, t, UpdatesIn(s, r, t), SnapshotsIn(s, r, t));
    ReachedPushes(s, r, t);
    var x := TechniqueState(f, ls, t);
    TechniqueFields(f, ls, t);
    assert x.queue + [] == x.queue;
    if !a.CommitObject? { NothingReached(s, a); }
  }

  lemma EditIsArrayStep(f: Frame, a: Action, v: nat)
    requires Behind(f) && Inv(f.scene)
    ensures Behind(Edited(f, a))
    ensures ArrayState(Edited(f, a), v) == ArrayMoved(ArrayState(f, v), ForArray(f.scene, a, v))
  {
    hide Inv, Scene.Step, Edited, ReachBy, UpdatesIn, SnapshotsIn, UpdatesOf, SnapshotsOf, PendingTechnique,
      PendingArray, ArrayState, V.Set, V.CommandsOfCommit, V.PendingAfterCommit, T.CommandsOfCommit;
    var s, g := f.scene, Edited(f, a);
    var r := ReachBy(s, a);
    EditFrame(f, a);
    EditLog(s, a, v);
    TechniqueAfterEdit(s, a, v);
    ArrayAfterEdit(s, a, v);
    ArrayGrows(f, g, v, UpdatesIn(s, r, v), SnapshotsIn(s, r, v));
    ReachedPushes(s, r, v);
    var x := ArrayState(f, v);
    ArrayFields(f, v);
    assert x.queue + [] == x.queue;
    if !a.CommitObject? { NothingReached(s, a); }
  }

  // ---- execution ----

  lemma RestLess(log: seq<Event>, at: nat, id: nat)
    requires at < |log|
    ensures var e := log[at];
            && UpdatesOf(log[at..], id)
               == (if e.UpdateTechnique? && e.technique == id then [e.update] else []) + UpdatesOf(log[at + 1..], id)
            && SnapshotsOf(log[at..], id)
               == (if e.UpdateAttributes? && e.vertexArray == id then [e.attributes] else [])
                  + SnapshotsOf(log[at + 1..], id)
  {
    assert log[at..] == [log[at]] + log[at + 1..];
    OfConcat([log[at]], log[at + 1..], id);
    OneMoreOf([], log[at], id);
    assert [] + [log[at]] == [log[at]];
  }

  lemma DoneMore(f: Frame, ls: Locations)
    requires Position(f) < |f.scene.log|
    ensures var e, g := f.scene.log[Position(f)], ExecutedNext(f, ls);
            && g.scene == f.scene && g.deaths == f.deaths + [f.scene.dead] && Done(g) == Done(f) + [e]
            && LinkedIn(Done(g)) == LinkedIn(Done(f)) + (if e.Link? then {e.program} else {})
            && UploadTargets(Done(g))
               == (if e.Upload? then UploadTargets(Done(f))[e.buffer := e.target] else UploadTargets(Done(f)))
            && (forall v :: RunsOf(Done(g), g.deaths, v) == RunsOf(Done(f), f.deaths, v)
                  + if e.UpdateAttributes? && e.vertexArray == v then [V.Execution(e.attributes, BuffersOf(f))] else [])
  {
    hide T.Executed, V.Executed;
    var g := ExecutedNext(f, ls);
    var n := Position(f);
    assert Done(g)[..n] == Done(f) && g.deaths[..n] == f.deaths && Done(g)[n] == f.scene.log[n];
  }

  /** What an entry is for the stand-alone technique t. */
  function EntryForTechnique(e: Event, t: nat): Option<T.Action> {
    if e.UpdateTechnique? && e.technique == t then Some(T.ExecuteNext)
    else if e.Link? then Some(T.Link(e.program))
    else None
  }

  function EntryForArray(e: Event, v: nat): Option<V.Action> {
    if e.UpdateAttributes? && e.vertexArray == v then Some(V.ExecuteNext)
    else if e.Upload? then Some(V.Upload(e.buffer, e.target))
    else None
  }

  lemma ExecutedFrame(f: Frame, ls: Locations)
    requires Position(f) < |f.scene.log|
    ensures var e, g := f.scene.log[Position(f)], ExecutedNext(f, ls);
            && g.scene == f.scene && g.deaths == f.deaths + [f.scene.dead]
            && (forall t :: RenderingOf(g, t) ==
                  if e.UpdateTechnique? && e.technique == t then T.Executed(RenderingOf(f, t), e.update, WorldOf(f, ls))
                  else RenderingOf(f, t))
            && (forall v :: GlOf(g, v) ==
                  if e.UpdateAttributes? && e.vertexArray == v then V.Executed(GlOf(f, v), e.attributes, BuffersOf(f))
                  else GlOf(f, v))
  {
    hide T.Executed, V.Executed, WorldOf, BuffersOf;
  }

  /** The stand-alone states after an entry, part by part. */
  lemma TechniqueMoves(f: Frame, ls: Locations, t: nat)
    requires Position(f) < |f.scene.log|
    ensures var e, x, g := f.scene.log[Position(f)], TechniqueState(f, ls, t), ExecutedNext(f, ls);
            var y := TechniqueState(g, ls, t);
            && x.queue == (if e.UpdateTechnique? && e.technique == t then [e.update] else []) + y.queue
            && y == T.State(x.pending, y.queue, RenderingOf(g, t),
                            x.world.(linked := x.world.linked + if e.Link? then {e.program} else {}), [], [], [])
            && x.rendering == RenderingOf(f, t) && x.world == WorldOf(f, ls)
            && x.calls == [] && x.flushed == [] && x.writes == []
  {
    DoneMore(f, ls);
    hide ExecutedNext, UpdatesOf, SnapshotsOf, RunsOf, LinkedIn, UploadTargets, PendingTechnique, RenderingOf, GlOf;
    RestLess(f.scene.log, Position(f), t);
  }

  lemma ExecuteIsTechniqueStep(f: Frame, ls: Locations, t: nat)
    requires Position(f) < |f.scene.log|
    ensures TechniqueState(ExecutedNext(f, ls), ls, t)
         == TechniqueMoved(TechniqueState(f, ls, t), EntryForTechnique(f.scene.log[Position(f)], t))
  {
    ExecutedFrame(f, ls);
    TechniqueMoves(f, ls, t);
    hide ExecutedNext, T.Executed, RenderingOf, GlOf, T.WritesBy, TechniqueState, WorldOf, BuffersOf;
    var e, x, y := f.scene.log[Position(f)], TechniqueState(f, ls, t), TechniqueState(ExecutedNext(f, ls), ls, t);
    assert [] + y.queue == y.queue && x.world.linked + {} == x.world.linked;
    if e.UpdateTechnique? && e.technique == t {
      assert x.queue[0] == e.update && x.queue[1..] == y.queue;
    }
  }

  lemma ArrayMoves(f: Frame, ls: Locations, v: nat)
    requires Position(f) < |f.scene.log|
    ensures var e, x, g := f.scene.log[Position(f)], ArrayState(f, v), ExecutedNext(f, ls);
            var y := ArrayState(g, v);
            && x.queue == (if e.UpdateAttributes? && e.vertexArray == v then [e.attributes] else []) + y.queue
            && y == V.State(x.pending, y.queue, GlOf(g, v),
                            x.w.(targets := if e.Upload? then x.w.targets[e.buffer := e.target] else x.w.targets), [],
                            x.runs + if e.UpdateAttributes? && e.vertexArray == v
                                     then [V.Execution(e.attributes, x.w)] else [])
            && x.gl == GlOf(f, v) && x.w == BuffersOf(f) && x.setters == []
  {
    DoneMore(f, ls);
    hide ExecutedNext, UpdatesOf, SnapshotsOf, RunsOf, LinkedIn, UploadTargets, PendingArray, RenderingOf, GlOf;
    RestLess(f.scene.log, Position(f), v);
  }

  lemma ExecuteIsArrayStep(f: Frame, ls: Locations, v: nat)
    requires Position(f) < |f.scene.log|
    ensures ArrayState(ExecutedNext(f, ls), v)
         == ArrayMoved(ArrayState(f, v), EntryForArray(f.scene.log[Position(f)], v))
  {
    ExecutedFrame(f, ls);
    ArrayMoves(f, ls, v);
    hide ExecutedNext, V.Executed, RenderingOf, GlOf, ArrayState, WorldOf, BuffersOf;
    var e, x, y := f.scene.log[Position(f)], ArrayState(f, v), ArrayState(ExecutedNext(f, ls), v);
    assert [] + y.queue == y.queue && x.runs + [] == x.runs;
    if e.UpdateAttributes? && e.vertexArray == v {
      assert x.queue[0] == e.attributes && x.queue[1..] == y.queue;
    }
  }

  // ---- whole runs ----

  /** What an act is for the stand-alone technique t. */
  function ActForTechnique(f: Frame, a: Act, t: nat): Option<T.Action> {
    match a
    case Edit(a) => ForTechnique(f.scene, a, t)
    case Execute =>
      if Position(f) < |f.scene.log| then EntryForTechnique(f.scene.log[Position(f)], t) else None
    case SetupTextures(u) => if u == t then Some(T.SetupTextures) else None
    case VisitUnits(_) => None
  }

  function ActForArray(f: Frame, a: Act, v: nat): Option<V.Action> {
    match a
    case Edit(a) => ForArray(f.scene, a, v)
    case Execute => if Position(f) < |f.scene.log| then EntryForArray(f.scene.log[Position(f)], v) else None
    case _ => None
  }

  function Optional<X>(x: Option<X>): seq<X> { if x.Some? then [x.value] else [] }

  /** A run of the scene, seen by technique t. */
  function TechniqueActs(ls: Locations, acts: seq<Act>, t: nat): seq<T.Action> {
    if acts == [] then []
    else
      var front, last := acts[..|acts| - 1], acts[|acts| - 1];
      TechniqueActs(ls, front, t) + Optional(ActForTechnique(Run(ls, front), last, t))
  }

  function ArrayActs(ls: Locations, acts: seq<Act>, v: nat): seq<V.Action> {
    if acts == [] then []
    else
      var front, last := acts[..|acts| - 1], acts[|acts| - 1];
      ArrayActs(ls, front, v) + Optional(ActForArray(Run(ls, front), last, v))
  }

  /** In every state of a run: the scene's invariant, and every entry was executed when it had been in the log, so that
      what was dead when it was pushed was dead when it was executed. */
  ghost predicate FrameInv(f: Frame) {
    && Inv(f.scene) && Behind(f)
    && (forall k | 0 <= k < Position(f) :: DeadIn(f.scene.log[..k]) <= f.deaths[k])
  }

  lemma {:induction false} DeadGrows(log: seq<Event>, k: nat)
    requires k <= |log|
    ensures DeadIn(log[..k]) <= DeadIn(log)
  {
    if k < |log| {
      DeadGrows(log[..|log| - 1], k);
      assert log[..|log| - 1][..k] == log[..k];
    } else {
      assert log[..k] == log;
    }
  }

  lemma EditKeepsInv(f: Frame, a: Action)
    requires FrameInv(f)
    ensures FrameInv(Edited(f, a))
  {
    hide Inv, Scene.Step, DeadIn, UpdatesOf, SnapshotsOf;
    StepInv(f.scene, a);
    EditLog(f.scene, a, 0);
    var g := Edited(f, a);
    forall k | 0 <= k < Position(f) ensures g.scene.log[..k] == f.scene.log[..k] {
    }
  }

  lemma ExecuteKeepsInv(f: Frame, ls: Locations)
    requires FrameInv(f) && Position(f) < |f.scene.log|
    ensures FrameInv(ExecutedNext(f, ls))
  {
    hide T.Executed, V.Executed, LinkedIn, UploadTargets;
    assert f.scene.dead == DeadIn(f.scene.log);
    DeadGrows(f.scene.log, Position(f));
  }

  lemma {:induction false} FrameAlways(ls: Locations, acts: seq<Act>)
    ensures FrameInv(Run(ls, acts))
  {
    if acts == [] {
      Scene.Always([]);
    } else {
      var n := |acts| - 1;
      var f := Run(ls, acts[..n]);
      FrameAlways(ls, acts[..n]);
      hide Inv, Edited, ExecutedNext, DeadIn;
      match acts[n]
      case Edit(a) => EditKeepsInv(f, a);
      case Execute => if Position(f) < |f.scene.log| { ExecuteKeepsInv(f, ls); }
      case _ =>
    }
  }

  lemma SetupIsTechniqueStep(f: Frame, ls: Locations, u: nat, t: nat)
    requires Behind(f)
    ensures var g := Next(f, ls, SetupTextures(u));
            && g.scene == f.scene && g.deaths == f.deaths && g.gls == f.gls
            && TechniqueState(g, ls, t)
               == TechniqueMoved(TechniqueState(f, ls, t), if u == t then Some(T.SetupTextures) else None)
  {
  }

  lemma BareStep(x: T.State, b: T.Action)
    ensures Bare(T.Step(Bare(x), b)) == Bare(T.Step(x, b))
  {
    hide T.Called, T.CommandsOfCommit, T.PendingAfterCommit, T.Executed, T.WritesBy, T.LiveTextures;
  }

  lemma BaldStep(x: V.State, b: V.Action)
    ensures Bald(V.Step(Bald(x), b)) == Bald(V.Step(x, b))
  {
    hide V.Set, V.CommandsOfCommit, V.PendingAfterCommit, V.Executed;
  }

  lemma TechniqueOneMore(ls: Locations, actions: seq<T.Action>, b: Option<T.Action>)
    ensures Bare(T.Run(ls, actions + Optional(b))) == TechniqueMoved(Bare(T.Run(ls, actions)), b)
  {
    hide T.Step;
    if b.Some? {
      assert (actions + [b.value])[..|actions|] == actions;
      BareStep(T.Run(ls, actions), b.value);
    } else {
      assert actions + [] == actions;
    }
  }

  lemma ArrayOneMore(actions: seq<V.Action>, b: Option<V.Action>)
    ensures Bald(V.Run(actions + Optional(b))) == ArrayMoved(Bald(V.Run(actions)), b)
  {
    hide V.Step;
    if b.Some? {
      assert (actions + [b.value])[..|actions|] == actions;
      BaldStep(V.Run(actions), b.value);
    } else {
      assert actions + [] == actions;
    }
  }

  lemma NextIsTechniqueStep(f: Frame, ls: Locations, a: Act, t: nat)
    requires FrameInv(f) && Behind(Next(f, ls, a))
    ensures TechniqueState(Next(f, ls, a), ls, t) == TechniqueMoved(TechniqueState(f, ls, t), ActForTechnique(f, a, t))
  {
    hide Inv, Edited, ExecutedNext, TechniqueState, TechniqueMoved, ForTechnique, EntryForTechnique, DeadIn;
    match a
    case Edit(e) => EditIsTechniqueStep(f, ls, e, t);
    case Execute =>
      if Position(f) < |f.scene.log| { ExecuteIsTechniqueStep(f, ls, t); } else { Unmoved(f, ls, t, 0); }
    case SetupTextures(u) => SetupIsTechniqueStep(f, ls, u, t);
    case VisitUnits(o) => VisitChangesNothing(f, ls, o, t, 0);
  }

  lemma Unmoved(f: Frame, ls: Locations, t: nat, v: nat)
    requires Behind(f)
    ensures TechniqueMoved(TechniqueState(f, ls, t), None) == TechniqueState(f, ls, t)
    ensures ArrayMoved(ArrayState(f, v), None) == ArrayState(f, v)
  {
  }

  lemma NextIsArrayStep(f: Frame, ls: Locations, a: Act, v: nat)
    requires FrameInv(f) && Behind(Next(f, ls, a))
    ensures ArrayState(Next(f, ls, a), v) == ArrayMoved(ArrayState(f, v), ActForArray(f, a, v))
  {
    hide Inv, Edited, ExecutedNext, ArrayMoved, ForArray, EntryForArray, DeadIn;
    match a
    case Edit(e) => EditIsArrayStep(f, e, v);
    case Execute =>
      if Position(f) < |f.scene.log| { ExecuteIsArrayStep(f, ls, v); } else { Unmoved(f, ls, 0, v); }
    case SetupTextures(u) =>
      SetupIsTechniqueStep(f, ls, u, 0);
      Unmoved(f, ls, 0, v);
    case VisitUnits(o) => VisitChangesNothing(f, ls, o, 0, v);
  }

  /** Nothing for techniques and vertex arrays. */
  lemma VisitChangesNothing(f: Frame, ls: Locations, o: nat, t: nat, v: nat)
    requires Behind(f)
    ensures var g := Next(f, ls, VisitUnits(o));
            && g.scene == f.scene && g.deaths == f.deaths && g.renderings == f.renderings && g.gls == f.gls
            && TechniqueState(g, ls, t) == TechniqueMoved(TechniqueState(f, ls, t), None)
            && ArrayState(g, v) == ArrayMoved(ArrayState(f, v), None)
  {
    hide Visited;
  }

  /** Whatever else goes on in the scene, a technique goes through a run of the stand-alone machine. */
  lemma {:induction false} TechniqueIsMachine(ls: Locations, acts: seq<Act>, t: nat)
    ensures Behind(Run(ls, acts))
    ensures Bare(T.Run(ls, TechniqueActs(ls, acts, t))) == TechniqueState(Run(ls, acts), ls, t)
  {
    FrameAlways(ls, acts);
    if acts != [] {
      var n := |acts| - 1;
      var f := Run(ls, acts[..n]);
      FrameAlways(ls, acts[..n]);
      TechniqueIsMachine(ls, acts[..n], t);
      hide Inv, Next, TechniqueState, TechniqueMoved, ActForTechnique, T.Run, Bare, DeadIn;
      NextIsTechniqueStep(f, ls, acts[n], t);
      TechniqueOneMore(ls, TechniqueActs(ls, acts[..n], t), ActForTechnique(f, acts[n], t));
    }
  }

  lemma {:induction false} ArrayIsMachine(ls: Locations, acts: seq<Act>, v: nat)
    ensures Behind(Run(ls, acts))
    ensures Bald(V.Run(ArrayActs(ls, acts, v))) == ArrayState(Run(ls, acts), v)
  {
    FrameAlways(ls, acts);
    if acts != [] {
      var n := |acts| - 1;
      var f := Run(ls, acts[..n]);
      FrameAlways(ls, acts[..n]);
      ArrayIsMachine(ls, acts[..n], v);
      hide Inv, Next, ArrayState, ArrayMoved, ActForArray, V.Run, Bald, DeadIn;
      NextIsArrayStep(f, ls, acts[n], v);
      ArrayOneMore(ArrayActs(ls, acts[..n], v), ActForArray(f, acts[n], v));
    }
  }
}
