/** What units, objects and programs are told by the commands a commit pushes. */
module Scenery {
  import opened Options
  import opened Scene
  import opened CommitEffect
  import opened Asked
  import V = VertexArray
  import T = BaseTechnique

  /** The rendering state of units and objects: the technique of each unit, the units and the pose of each object. An
      object without units has not been committed. */
  datatype Scenery = Scenery(techniques: map<nat, Option<nat>>, units: map<nat, seq<nat>>, poses: map<nat, Pose>)

  const EMPTY := Scenery(map[], map[], map[])

  /** What executing an entry does to it. */
  function Presented(y: Scenery, e: Event): Scenery {
    match e
    case SetTechnique(u, weak) => y.(techniques := y.techniques[u := weak])
    case SetUnits(o, us) => y.(units := y.units[o := us])
    case SetPose(o, pose) => y.(poses := y.poses[o := pose])
    case _ => y
  }

  function SceneryOf(log: seq<Event>): Scenery {
    if log == [] then EMPTY else Presented(SceneryOf(log[..|log| - 1]), log[|log| - 1])
  }

  function TechniqueIn(y: Scenery, u: nat): Option<nat> { if u in y.techniques then y.techniques[u] else None }
  function UnitsIn(y: Scenery, o: nat): Option<seq<nat>> { if o in y.units then Some(y.units[o]) else None }
  function PoseIn(y: Scenery, o: nat): Pose { if o in y.poses then y.poses[o] else UNMOVED }

  /** The shaders carried by each link command of p, in order. */
  function LinksIn(log: seq<Event>, p: nat): seq<seq<nat>> {
    if log == [] then []
    else
      var last := log[|log| - 1];
      LinksIn(log[..|log| - 1], p) + if last.Link? && last.program == p then [last.shaders] else []
  }

  lemma MoreOf(log: seq<Event>, e: Event)
    ensures SceneryOf(log + [e]) == Presented(SceneryOf(log), e)
    ensures forall p :: LinksIn(log + [e], p)
                     == if e.Link? && e.program == p then LinksIn(log, p) + [e.shaders] else LinksIn(log, p)
  {
    assert (log + [e])[..|log|] == log;
  }

  // ---- what says nothing about them ----

  ghost predicate Quiet(s: State, m: State) {
    && SceneryOf(m.log) == SceneryOf(s.log) && (forall p :: LinksIn(m.log, p) == LinksIn(s.log, p))
    && m.programs == s.programs && m.dead == s.dead
  }

  predicate SaysNothing(e: Event) { !e.SetTechnique? && !e.SetUnits? && !e.SetPose? && !e.Link? }

  lemma PushQuiet(s: State, e: Event)
    requires SaysNothing(e)
    ensures Quiet(s, Pushed(s, e))
  {
    MoreOf(s.log, e);
    hide SceneryOf, LinksIn;
  }

  lemma BufferQuiet(s: State, b: nat)
    ensures Quiet(s, BufferCommitted(s, b))
  {
    hide SceneryOf, LinksIn;
    if b in s.damagedBuffers { PushQuiet(s, Upload(b, s.damagedBuffers[b])); }
  }

  lemma {:induction false} ShadersQuiet(s: State, shaders: seq<nat>)
    ensures Quiet(s, ShadersCommitted(s, shaders))
  {
    hide SceneryOf, LinksIn;
    if shaders != [] {
      var n := |shaders| - 1;
      ShadersQuiet(s, shaders[..n]);
      PushQuiet(ShadersCommitted(s, shaders[..n]), Compile(shaders[n]));
    }
  }

  lemma {:induction false} AttributeBuffersQuiet(s: State, attributes: V.Attributes, order: seq<nat>)
    ensures Quiet(s, AttributeBuffersCommitted(s, attributes, order))
  {
    hide SceneryOf, LinksIn, BufferOf;
    if order != [] {
      var n := |order| - 1;
      var b := BufferOf(attributes, order[n], s.dead);
      AttributeBuffersQuiet(s, attributes, order[..n]);
      if b.Some? { BufferQuiet(AttributeBuffersCommitted(s, attributes, order[..n]), b.value); }
    }
  }

  lemma VertexArrayQuiet(s: State, v: nat, order: seq<nat>)
    ensures Quiet(s, VertexArrayCommitted(s, v, order))
  {
    hide SceneryOf, LinksIn, AttributeBuffersCommitted;
    if v in s.vertexArrays && s.vertexArrays[v].damaged {
      var attributes := s.vertexArrays[v].attributes;
      AttributeBuffersQuiet(s, attributes, order);
      PushQuiet(AttributeBuffersCommitted(s, attributes, order), UpdateAttributes(v, attributes));
    }
  }

  lemma BindingQuiet(s: State, t: T.Texture)
    ensures Quiet(s, BindingCommitted(s, t))
  {
    hide SceneryOf, LinksIn;
    var s1 := if T.Locks(t.texture, s.dead) then TextureCommitted(s, t.texture.value) else s;
    if T.Locks(t.texture, s.dead) { PushQuiet(s, UpdateTexture(t.texture.value)); }
    if T.Locks(t.sampler, s.dead) { PushQuiet(s1, UpdateSampler(t.sampler.value)); }
  }

  lemma {:induction false} TexturesQuiet(s: State, textures: map<nat, T.Texture>, order: seq<nat>)
    ensures Quiet(s, TexturesCommitted(s, textures, order))
  {
    hide SceneryOf, LinksIn, BindingCommitted;
    if order != [] {
      var n := |order| - 1;
      TexturesQuiet(s, textures, order[..n]);
      if order[n] in textures { BindingQuiet(TexturesCommitted(s, textures, order[..n]), textures[order[n]]); }
    }
  }

  lemma {:induction false} UpdatesQuiet(s: State, t: nat, us: seq<T.Update>)
    ensures Quiet(s, UpdatesPushed(s, t, us))
  {
    hide SceneryOf, LinksIn;
    if us != [] {
      var n := |us| - 1;
      UpdatesQuiet(s, t, us[..n]);
      PushQuiet(UpdatesPushed(s, t, us[..n]), UpdateTechnique(t, us[n]));
    }
  }

  // ---- programs ----

  predicate WantsLink(s: State, p: nat) { p in s.programs && s.programs[p].shouldLink }

  /** m comes from s by committing the programs ps: each of them that wants it has been linked, with its shaders. */
  ghost predicate ProgramsLinked(s: State, m: State, ps: set<nat>) {
    && m.dead == s.dead && m.programs.Keys == s.programs.Keys
    && (forall p :: LinksIn(m.log, p)
          == if p in ps && WantsLink(s, p) then LinksIn(s.log, p) + [s.programs[p].shaders] else LinksIn(s.log, p))
    && (forall p | p in s.programs ::
          m.programs[p] == if p in ps && WantsLink(s, p) then Program([], false) else s.programs[p])
  }

  lemma LinkedTrans(s: State, m: State, n: State, a: set<nat>, b: set<nat>)
    requires ProgramsLinked(s, m, a) && ProgramsLinked(m, n, b)
    ensures ProgramsLinked(s, n, a + b)
  {
    hide LinksIn;
    forall p ensures LinksIn(n.log, p)
        == if p in a + b && WantsLink(s, p) then LinksIn(s.log, p) + [s.programs[p].shaders] else LinksIn(s.log, p) {
      assert WantsLink(m, p) <==> WantsLink(s, p) && p !in a;
    }
  }

  lemma QuietLinks(s: State, m: State)
    requires Quiet(s, m)
    ensures ProgramsLinked(s, m, {})
  {
    hide LinksIn, SceneryOf;
  }

  lemma ProgramLinks(s: State, p: nat)
    ensures ProgramsLinked(s, ProgramCommitted(s, p), {p})
    ensures SceneryOf(ProgramCommitted(s, p).log) == SceneryOf(s.log)
  {
    hide LinksIn, SceneryOf, ShadersCommitted;
    if WantsLink(s, p) {
      var shaders := s.programs[p].shaders;
      ShadersQuiet(s, shaders);
      MoreOf(ShadersCommitted(s, shaders).log, Link(p, shaders));
    }
  }

  /** The live program of a technique. */
  function ProgramPart(p: T.Pending, dead: set<nat>): set<nat> {
    if T.Locks(p.program, dead) then {p.program.value} else {}
  }

  lemma DependenciesLink(s: State, p: T.Pending, order: seq<nat>)
    ensures ProgramsLinked(s, DependenciesCommitted(s, p, order), ProgramPart(p, s.dead))
    ensures SceneryOf(DependenciesCommitted(s, p, order).log) == SceneryOf(s.log)
  {
    hide LinksIn, SceneryOf, ProgramCommitted, VertexArrayCommitted, TexturesCommitted, BufferCommitted;
    var s1 := LockedProgramCommitted(s, p.program);
    var s2 := LockedVertexArrayCommitted(s1, p.vertexArray, order);
    var s3 := TexturesCommitted(s2, p.textures, order);
    if T.Locks(p.program, s.dead) { ProgramLinks(s, p.program.value); }
    if T.Locks(p.vertexArray, s1.dead) { VertexArrayQuiet(s1, p.vertexArray.value, order); }
    TexturesQuiet(s2, p.textures, order);
    if p.draw.Elements? && T.Locks(p.elementArrayBuffer, s3.dead) { BufferQuiet(s3, p.elementArrayBuffer.value); }
  }

  lemma TechniqueLinks(s: State, t: nat, order: seq<nat>)
    ensures var ps := if t in s.techniques then ProgramPart(s.techniques[t], s.dead) else {};
            ProgramsLinked(s, TechniqueCommitted(s, t, order), ps)
    ensures SceneryOf(TechniqueCommitted(s, t, order).log) == SceneryOf(s.log)
  {
    hide LinksIn, SceneryOf, DependenciesCommitted, UpdatesPushed, T.CommandsOfCommit, T.PendingAfterCommit;
    if t in s.techniques {
      var p := s.techniques[t];
      DependenciesLink(s, p, order);
      UpdatesQuiet(DependenciesCommitted(s, p, order), t, T.CommandsOfCommit(p, s.dead));
    }
  }

  // ---- units ----

  /** The live program of the live technique of unit u. */
  function UnitPrograms(s: State, u: nat): set<nat> {
    if u in s.units && T.Locks(s.units[u], s.dead) && s.units[u].value in s.techniques
    then ProgramPart(s.techniques[s.units[u].value], s.dead) else {}
  }

  function UnitsPrograms(s: State, us: seq<nat>): set<nat> {
    if us == [] then {}
    else
      var before, last := UnitsPrograms(s, us[..|us| - 1]), us[|us| - 1];
      if last in s.dead then before else before + UnitPrograms(s, last)
  }

  /** m comes from s by committing these units: each has been given its pending technique. */
  ghost predicate Given(s: State, m: State, us: set<nat>) {
    && m.units == s.units
    && SceneryOf(m.log).units == SceneryOf(s.log).units && SceneryOf(m.log).poses == SceneryOf(s.log).poses
    && (forall u :: TechniqueIn(SceneryOf(m.log), u)
          == if u in us && u in s.units then s.units[u] else TechniqueIn(SceneryOf(s.log), u))
  }

  lemma UnitGiven(s: State, u: nat, order: seq<nat>)
    requires Covers(s, order)
    ensures ProgramsLinked(s, UnitCommitted(s, u, order), UnitPrograms(s, u))
    ensures Given(s, UnitCommitted(s, u, order), {u})
  {
    hide LinksIn, SceneryOf, TechniqueCommitted, Covers;
    if u in s.units {
      var t := s.units[u];
      var m := if T.Locks(t, s.dead) then TechniqueCommitted(s, t.value, order) else s;
      if T.Locks(t, s.dead) {
        TechniqueLinks(s, t.value, order);
        TechniqueKeepsUnits(s, t.value, order);
      }
      MoreOf(m.log, SetTechnique(u, t));
    }
  }

  lemma TechniqueKeepsUnits(s: State, t: nat, order: seq<nat>)
    requires Covers(s, order)
    ensures TechniqueCommitted(s, t, order).units == s.units
  {
    TechniqueEffect(s, t, order);
    EffectFrame(s, TechniqueCommitted(s, t, order), TechniqueReach(s, t));
    hide TechniqueCommitted, Effect;
  }

  /** Commits on the way change no unit's program. */
  lemma UnitProgramsStay(s: State, m: State, r: Reach, u: nat)
    requires Effect(s, m, r)
    ensures UnitPrograms(m, u) == UnitPrograms(s, u)
  {
    hide UpdatesOf, SnapshotsOf, Flushes;
  }

  function LiveSet(us: seq<nat>, dead: set<nat>): set<nat> { set u | u in us && u !in dead }

  lemma {:induction false} UnitsGiven(s: State, us: seq<nat>, order: seq<nat>)
    requires Covers(s, order)
    ensures var m := UnitsCommitted(s, us, order);
            ProgramsLinked(s, m, UnitsPrograms(s, us)) && Given(s, m, LiveSet(us, s.dead))
  {
    hide LinksIn, SceneryOf, Covers, UnitCommitted, Effect, UnitPrograms;
    if us != [] {
      var n := |us| - 1;
      var m := UnitsCommitted(s, us[..n], order);
      UnitsGiven(s, us[..n], order);
      UnitsEffect(s, us[..n], order);
      assert LiveSet(us, s.dead) == LiveSet(us[..n], s.dead) + if us[n] in s.dead then {} else {us[n]} by {
        assert us == us[..n] + [us[n]];
      }
      if us[n] !in s.dead {
        UnitGiven(m, us[n], order);
        UnitProgramsStay(s, m, UnitsReach(s, us[..n]), us[n]);
        LinkedTrans(s, m, UnitCommitted(m, us[n], order), UnitsPrograms(s, us[..n]), UnitPrograms(s, us[n]));
      }
    }
  }

  /** The commit of an object, told by its edits. */
  lemma ObjectGiven(s: State, o: nat, order: seq<nat>)
    requires Covers(s, order) && o in s.objects
    ensures var m := ObjectCommitted(s, o, order);
            && ProgramsLinked(s, m, UnitsPrograms(s, s.objects[o]))
            && SceneryOf(m.log).units == SceneryOf(s.log).units[o := Living(s.objects[o], s.dead)]
            && SceneryOf(m.log).poses == SceneryOf(s.log).poses
            && (forall u :: TechniqueIn(SceneryOf(m.log), u)
                  == if u in s.objects[o] && u !in s.dead && u in s.units then s.units[u]
                     else TechniqueIn(SceneryOf(s.log), u))
  {
    hide LinksIn, SceneryOf, Covers, UnitsCommitted, Living, UnitsPrograms;
    var living := Living(s.objects[o], s.dead);
    var m := UnitsCommitted(s, s.objects[o], order);
    UnitsGiven(s, s.objects[o], order);
    MoreOf(m.log, SetUnits(o, living));
    MoreOf(m.log + [SetUnits(o, living)], CommitMark);
  }

  // ---- what the edits ask for ----

  /** The edit a, made after these, commits object o. */
  predicate Commits(edits: seq<Action>, a: Action, o: nat) {
    a.CommitObject? && a.virtualObject == o && HasObject(edits, o) && Covers(Run(edits), a.order)
  }

  /** The technique made last for unit u, at the last commit that reached u. */
  function TechniqueShown(edits: seq<Action>, u: nat): Option<nat> {
    if edits == [] then None
    else
      var front, last := edits[..|edits| - 1], edits[|edits| - 1];
      if last.CommitObject? && Commits(front, last, last.virtualObject) && ReachesUnit(front, last.virtualObject, u)
      then TechniqueOf(front, u) else TechniqueShown(front, u)
  }

  /** The units added to object o and alive, at its last commit. */
  function UnitsShown(edits: seq<Action>, o: nat): Option<seq<nat>> {
    if edits == [] then None
    else
      var front, last := edits[..|edits| - 1], edits[|edits| - 1];
      if Commits(front, last, o) then Some(Alive(UnitsAdded(front, o), Gone(front))) else UnitsShown(front, o)
  }

  /** The pose object o was moved to last. */
  function PoseShown(edits: seq<Action>, o: nat): Pose {
    if edits == [] then UNMOVED
    else
      var last := edits[|edits| - 1];
      if last.Move? && last.virtualObject == o then last.pose else PoseShown(edits[..|edits| - 1], o)
  }

  /** The edit a commits program p, and a link was asked for since the last one. */
  ghost predicate LinksNow(edits: seq<Action>, a: Action, p: nat) {
    a.CommitObject? && Commits(edits, a, a.virtualObject) && ReachesProgram(edits, a.virtualObject, p)
    && LinkWanted(edits, p)
  }

  ghost predicate LinkWanted(edits: seq<Action>, p: nat)
    decreases |edits|, 0
  {
    edits != [] &&
    var front, last := edits[..|edits| - 1], edits[|edits| - 1];
    if last == GlLinkProgram(p) && HasProgram(front, p) then true
    else LinkWanted(front, p) && !(last.CommitObject? && Commits(front, last, last.virtualObject)
                                   && ReachesProgram(front, last.virtualObject, p))
  }

  /** The shaders attached to p since it was linked last, in call order. */
  ghost function Attached(edits: seq<Action>, p: nat): seq<nat> {
    if edits == [] then []
    else
      var front, last := edits[..|edits| - 1], edits[|edits| - 1];
      if LinksNow(front, last, p) then []
      else if last.GlAttachShader? && last.program == p && HasProgram(front, p) then Attached(front, p) + [last.shader]
      else Attached(front, p)
  }

  /** The links of p, each with the shaders attached since the one before. */
  ghost function LinksAsked(edits: seq<Action>, p: nat): seq<seq<nat>> {
    if edits == [] then []
    else
      var front, last := edits[..|edits| - 1], edits[|edits| - 1];
      if LinksNow(front, last, p) then LinksAsked(front, p) + [Attached(front, p)] else LinksAsked(front, p)
  }

  // ---- which programs a commit reaches ----

  lemma {:induction false} UnitsProgramsHas(s: State, us: seq<nat>, p: nat)
    ensures p in UnitsPrograms(s, us) <==> exists u :: u in us && u !in s.dead && p in UnitPrograms(s, u)
  {
    if us != [] {
      var n := |us| - 1;
      UnitsProgramsHas(s, us[..n], p);
      assert us == us[..n] + [us[n]];
      hide UnitPrograms;
    }
  }

  lemma UnitProgramsHas(s: State, u: nat, p: nat)
    ensures p in UnitPrograms(s, u) <==> exists t :: LeadsTo(s, u, t) && Lives(s.techniques[t].program, s.dead, p)
  {
    if u in s.units && T.Locks(s.units[u], s.dead) && s.units[u].value in s.techniques {
      assert LeadsTo(s, u, s.units[u].value);
    }
  }

  lemma ProgramsAsked(s: State, edits: seq<Action>, o: nat, us: seq<nat>, p: nat)
    requires Agrees(s, edits, o, us) && SameCalls(s, edits) && s.dead == Gone(edits)
    ensures p in UnitsPrograms(s, us) <==> ReachesProgram(edits, o, p)
  {
    hide UnitsPrograms, UnitPrograms, Lives, TechniqueOf, Gone, ReachesUnit, CallsTo, T.BoundProgram, V.AsSet;
    UnitsProgramsHas(s, us, p);
    forall t | t in s.techniques ensures s.techniques[t].program == T.BoundProgram(CallsTo(edits, t)) {
      assert T.AsCalled(s.techniques[t], CallsTo(edits, t));
    }
    hide T.AsCalled;
    if p in UnitsPrograms(s, us) {
      var u :| u in us && u !in s.dead && p in UnitPrograms(s, u);
      UnitProgramsHas(s, u, p);
      var t :| LeadsTo(s, u, t) && Lives(s.techniques[t].program, s.dead, p);
      assert ReachesUnit(edits, o, u) && ReachesTechnique(edits, o, t);
    }
    if ReachesProgram(edits, o, p) {
      var t :| ReachesTechnique(edits, o, t) && Lives(T.BoundProgram(CallsTo(edits, t)), Gone(edits), p);
      var u :| ReachesUnit(edits, o, u) && Lives(TechniqueOf(edits, u), Gone(edits), t);
      assert LeadsTo(s, u, t);
      UnitProgramsHas(s, u, p);
    }
  }

  lemma ListAgrees(s: State, edits: seq<Action>, o: nat)
    requires Mirrors(s, edits) && o in s.objects
    ensures Agrees(s, edits, o, s.objects[o])
  {
    forall u: nat ensures u in s.objects[o] && u !in s.dead <==> ReachesUnit(edits, o, u) {
      ListedIffAdded(s, edits, o, u);
    }
    forall u: nat, t: nat | ReachesUnit(edits, o, u)
      ensures LeadsTo(s, u, t) <==> Lives(TechniqueOf(edits, u), Gone(edits), t) {
      LeadsToIffMade(s, edits, o, u, t);
    }
  }

  // ---- units, objects and poses are as asked ----

  ghost predicate SceneryAsked(log: seq<Event>, edits: seq<Action>) {
    && (forall u :: TechniqueIn(SceneryOf(log), u) == TechniqueShown(edits, u))
    && (forall o :: UnitsIn(SceneryOf(log), o) == UnitsShown(edits, o))
    && (forall o :: PoseIn(SceneryOf(log), o) == PoseShown(edits, o))
  }

  lemma ShownMore(edits: seq<Action>, a: Action, x: nat)
    ensures TechniqueShown(edits + [a], x)
         == if a.CommitObject? && Commits(edits, a, a.virtualObject) && ReachesUnit(edits, a.virtualObject, x)
            then TechniqueOf(edits, x) else TechniqueShown(edits, x)
    ensures UnitsShown(edits + [a], x)
         == if Commits(edits, a, x) then Some(Alive(UnitsAdded(edits, x), Gone(edits))) else UnitsShown(edits, x)
    ensures PoseShown(edits + [a], x)
         == if a.Move? && a.virtualObject == x then a.pose else PoseShown(edits, x)
  {
    assert (edits + [a])[..|edits|] == edits;
  }

  lemma CommitSceneryAsked(s: State, a: Action, edits: seq<Action>)
    requires s == Run(edits) && Mirrors(s, edits) && SceneryAsked(s.log, edits)
    requires TakesCommit(s, a)
    ensures SceneryAsked(ObjectCommitted(s, a.virtualObject, a.order).log, edits + [a])
  {
    hide Run, SceneryOf, TechniqueShown, UnitsShown, PoseShown, ObjectCommitted, Covers, Living, Alive, UnitsAdded,
      Gone, TechniqueOf, HasObject, UnitsPrograms, ProgramsLinked, SameCalls, NothingEarly;
    var o := a.virtualObject;
    var m := ObjectCommitted(s, o, a.order);
    ObjectGiven(s, o, a.order);
    LivingIsAlive(s.objects[o], s.dead);
    forall u: nat ensures TechniqueIn(SceneryOf(m.log), u) == TechniqueShown(edits + [a], u) {
      ShownMore(edits, a, u);
      ListedIffAdded(s, edits, o, u);
      AddedExist(edits, o, u);
      assert TechniqueIn(SceneryOf(s.log), u) == TechniqueShown(edits, u);
      hide TechniqueIn;
    }
    forall x: nat ensures UnitsIn(SceneryOf(m.log), x) == UnitsShown(edits + [a], x)
                       && PoseIn(SceneryOf(m.log), x) == PoseShown(edits + [a], x) {
      ShownMore(edits, a, x);
      assert UnitsIn(SceneryOf(s.log), x) == UnitsShown(edits, x);
      assert PoseIn(SceneryOf(s.log), x) == PoseShown(edits, x);
    }
  }

  lemma OtherSceneryAsked(s: State, a: Action, edits: seq<Action>)
    requires SceneryAsked(s.log, edits) && s == Run(edits) && Mirrors(s, edits)
    requires !TakesCommit(s, a)
    ensures SceneryAsked(Step(s, a).log, edits + [a])
  {
    hide Run, SceneryOf, TechniqueShown, UnitsShown, PoseShown, Covers, Living, Alive, UnitsAdded, Gone, TechniqueOf,
      HasObject, SameLists, SameCalls, NothingEarly;
    var m := Step(s, a);
    OtherLog(s, a);
    hide Step;
    forall x: nat ensures TechniqueIn(SceneryOf(m.log), x) == TechniqueShown(edits + [a], x)
                       && UnitsIn(SceneryOf(m.log), x) == UnitsShown(edits + [a], x)
                       && PoseIn(SceneryOf(m.log), x) == PoseShown(edits + [a], x) {
      ShownMore(edits, a, x);
      assert TechniqueIn(SceneryOf(s.log), x) == TechniqueShown(edits, x);
      assert UnitsIn(SceneryOf(s.log), x) == UnitsShown(edits, x);
      assert PoseIn(SceneryOf(s.log), x) == PoseShown(edits, x);
    }
  }

  /** Edits other than commits push nothing about units, and about objects only poses. */
  lemma OtherLog(s: State, a: Action)
    requires !TakesCommit(s, a)
    ensures SceneryOf(Step(s, a).log) == (if a.Move? then Presented(SceneryOf(s.log), SetPose(a.virtualObject, a.pose))
                                          else SceneryOf(s.log))
    ensures forall p :: LinksIn(Step(s, a).log, p) == LinksIn(s.log, p)
  {
    hide SceneryOf, LinksIn, Covers, T.Called, V.Set, ObjectCommitted;
    if a.CommitObject? { IdleCommit(s, a); }
    match a
    case GlBufferData(b, target) => MoreOf(s.log, DataSet(b, target));
    case GlLinkProgram(p) => MoreOf(s.log, LinkAsked(p));
    case ChangeTexture(t) => MoreOf(s.log, TextureChanged(t));
    case Destroy(id) => MoreOf(s.log, Release(id));
    case Move(o, pose) =>
      MoreOf(s.log, SetPose(o, pose));
      MoreOf(s.log + [SetPose(o, pose)], CommitMark);
    case _ =>
  }

  /** Executed in a row, the commands pushed so far tell each unit the technique made last for it at the last commit
      that reached it, each object the units added to it and alive at its last commit, and its last pose. */
  lemma {:induction false} SceneryIsAsked(edits: seq<Action>)
    ensures SceneryAsked(Run(edits).log, edits)
  {
    hide SceneryAsked, Mirrors, Run, Step;
    if edits == [] {
      NothingAsked();
    } else {
      var front, last := edits[..|edits| - 1], edits[|edits| - 1];
      SceneryIsAsked(front);
      RunMirrors(front);
      assert front + [last] == edits;
      RunMore(front, last);
      if TakesCommit(Run(front), last) {
        CommitSceneryAsked(Run(front), last, front);
        CommitStep(Run(front), last.virtualObject, last.order);
      } else {
        OtherSceneryAsked(Run(front), last, front);
      }
    }
  }

  predicate TakesCommit(s: State, a: Action) { a.CommitObject? && a.virtualObject in s.objects && Covers(s, a.order) }

  lemma NothingAsked()
    ensures SceneryAsked(Run([]).log, [])
    ensures forall p :: LinksAsAsked(Run([]), [], p)
  {
  }

  // ---- links are as asked ----

  ghost predicate LinksAsAsked(s: State, edits: seq<Action>, p: nat) {
    && LinksIn(s.log, p) == LinksAsked(edits, p)
    && (p in s.programs <==> HasProgram(edits, p))
    && (p in s.programs ==> s.programs[p] == Program(Attached(edits, p), LinkWanted(edits, p)))
    && (p !in s.programs ==> Attached(edits, p) == [] && !LinkWanted(edits, p))
  }

  lemma LinksMore(edits: seq<Action>, a: Action, p: nat)
    ensures LinksAsked(edits + [a], p)
         == if LinksNow(edits, a, p) then LinksAsked(edits, p) + [Attached(edits, p)] else LinksAsked(edits, p)
    ensures Attached(edits + [a], p)
         == if LinksNow(edits, a, p) then []
            else if a.GlAttachShader? && a.program == p && HasProgram(edits, p) then Attached(edits, p) + [a.shader]
            else Attached(edits, p)
    ensures LinkWanted(edits + [a], p)
       <==> (a == GlLinkProgram(p) && HasProgram(edits, p)) || (LinkWanted(edits, p) && !LinksNow(edits, a, p))
    ensures HasProgram(edits + [a], p) <==> HasProgram(edits, p) || a == NewProgram(p)
  {
    assert (edits + [a])[..|edits|] == edits;
  }

  lemma CommitLinksAsAsked(s: State, a: Action, edits: seq<Action>, p: nat)
    requires s == Run(edits) && Mirrors(s, edits) && LinksAsAsked(s, edits, p)
    requires TakesCommit(s, a)
    ensures LinksAsAsked(ObjectCommitted(s, a.virtualObject, a.order), edits + [a], p)
  {
    hide Run, SceneryOf, LinksIn, ObjectCommitted, Covers, Living, UnitsPrograms, Agrees, LinksAsked, Attached,
      LinkWanted, HasProgram, HasObject, ReachesProgram, SameLists, NothingEarly, TechniqueIn;
    LinksMore(edits, a, p);
    ObjectGiven(s, a.virtualObject, a.order);
    ListAgrees(s, edits, a.virtualObject);
    assert s.dead == Gone(edits) by { DeadIsGone(s, edits); }
    ProgramsAsked(s, edits, a.virtualObject, s.objects[a.virtualObject], p);
    hide SameCalls, Gone;
  }

  lemma DeadIsGone(s: State, edits: seq<Action>)
    requires Mirrors(s, edits)
    ensures s.dead == Gone(edits)
  {
  }

  lemma OtherLinksAsAsked(s: State, a: Action, edits: seq<Action>, p: nat)
    requires s == Run(edits) && Mirrors(s, edits) && LinksAsAsked(s, edits, p)
    requires !TakesCommit(s, a)
    ensures LinksAsAsked(Step(s, a), edits + [a], p)
  {
    hide Run, SceneryOf, LinksIn, ObjectCommitted, Covers, LinksAsked, Attached, LinkWanted, HasProgram, HasObject,
      ReachesProgram, SameLists, SameCalls, NothingEarly, V.Set, T.Called;
    LinksMore(edits, a, p);
    OtherLog(s, a);
    if a.CommitObject? {
      IdleCommit(s, a);
    }
  }

  lemma IdleCommit(s: State, a: Action)
    requires a.CommitObject? && !TakesCommit(s, a)
    ensures Step(s, a) == s
  {
    hide Covers;
  }

  /** On every run: the link commands of a program are those its edits ask for, each carrying exactly the shaders
      attached since the one before, in call order. */
  lemma {:induction false} LinksAreAsked(edits: seq<Action>, p: nat)
    ensures LinksAsAsked(Run(edits), edits, p)
  {
    hide LinksAsAsked, Mirrors, Run, Step;
    if edits == [] {
      NothingAsked();
    } else {
      var front, last := edits[..|edits| - 1], edits[|edits| - 1];
      LinksAreAsked(front, p);
      RunMirrors(front);
      assert front + [last] == edits;
      RunMore(front, last);
      if TakesCommit(Run(front), last) {
        CommitLinksAsAsked(Run(front), last, front, p);
        CommitStep(Run(front), last.virtualObject, last.order);
      } else {
        OtherLinksAsAsked(Run(front), last, front, p);
      }
    }
  }

  lemma {:induction false} LinksPrefix(log: seq<Event>, k: nat, p: nat)
    requires k <= |log|
    ensures LinksIn(log[..k], p) <= LinksIn(log, p)
  {
    if k == |log| {
      assert log[..k] == log;
    } else {
      LinksPrefix(log[..|log| - 1], k, p);
      assert log[..|log| - 1][..k] == log[..k];
    }
  }

  lemma LinkIsAsked(edits: seq<Action>, k: nat)
    requires k < |Run(edits).log| && Run(edits).log[k].Link?
    ensures var log := Run(edits).log;
            var p, j := log[k].program, |LinksIn(log[..k], log[k].program)|;
            j < |LinksAsked(edits, p)| && log[k].shaders == LinksAsked(edits, p)[j]
  {
    hide LinksIn, SceneryOf, LinksAsked, Attached, LinkWanted, Run, HasProgram;
    var log := Run(edits).log;
    var p := log[k].program;
    LinksAreAsked(edits, p);
    LinksPrefix(log, k + 1, p);
    assert log[..k + 1] == log[..k] + [log[k]];
    MoreOf(log[..k], log[k]);
  }

  lemma CompiledBefore(edits: seq<Action>, k: nat, shader: nat)
    requires var log := Run(edits).log;
             k < |log| && log[k].Link? && shader in log[k].shaders && shader !in DeadIn(log[..k])
    ensures Compile(shader) in Run(edits).log[..k]
  {
    hide Run, DeadIn;
    var log := Run(edits).log;
    var i :| 0 <= i < |log[k].shaders| && log[k].shaders[i] == shader;
    CompileBeforeLink(edits, k, i);
    var j :| 0 <= j < k && log[j] == Compile(shader);
    assert log[..k][j] == log[j];
  }

  /** On every run: the link command at k carries what was attached since the link before, and each of these shaders
      that was alive at the push is compiled before it. */
  lemma LinkCarriesAttached(edits: seq<Action>, k: nat)
    requires k < |Run(edits).log| && Run(edits).log[k].Link?
    ensures var log := Run(edits).log;
            var p, j := log[k].program, |LinksIn(log[..k], log[k].program)|;
            && j < |LinksAsked(edits, p)| && log[k].shaders == LinksAsked(edits, p)[j]
            && (forall shader | shader in LinksAsked(edits, p)[j] && shader !in DeadIn(log[..k]) ::
                  Compile(shader) in log[..k])
  {
    hide Run, DeadIn, LinksIn, LinksAsked;
    LinkIsAsked(edits, k);
    var log := Run(edits).log;
    forall shader | shader in log[k].shaders && shader !in DeadIn(log[..k]) ensures Compile(shader) in log[..k] {
      CompiledBefore(edits, k, shader);
    }
  }
}
