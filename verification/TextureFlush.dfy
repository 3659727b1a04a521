/** Which textures a commit updates: those called for since the last commit that reached them, and no other. */
module TextureFlush {
  import opened Options
  import opened Scene
  import opened CommitEffect
  import opened Asked
  import Y = Scenery
  import V = VertexArray
  import T = BaseTechnique

  /** How many update commands of texture x have been pushed. */
  function Updates(log: seq<Event>, x: nat): nat {
    if log == [] then 0 else Updates(log[..|log| - 1], x) + if log[|log| - 1] == UpdateTexture(x) then 1 else 0
  }

  lemma UpdatesMore(log: seq<Event>, e: Event)
    ensures forall x :: Updates(log + [e], x) == Updates(log, x) + if e == UpdateTexture(x) then 1 else 0
  {
    assert (log + [e])[..|log|] == log;
  }

  /** m comes from s by committing the textures xs: those with pending calls have been updated once. */
  ghost predicate Flushed(s: State, m: State, xs: set<nat>) {
    && m.dead == s.dead && m.dirtyTextures == s.dirtyTextures - xs
    && (forall x :: Updates(m.log, x) == Updates(s.log, x) + if x in xs && x in s.dirtyTextures then 1 else 0)
  }

  lemma FlushedTrans(s: State, m: State, n: State, a: set<nat>, b: set<nat>)
    requires Flushed(s, m, a) && Flushed(m, n, b)
    ensures Flushed(s, n, a + b)
  {
    hide Updates;
  }

  lemma PushOther(s: State, e: Event)
    requires !e.UpdateTexture?
    ensures Flushed(s, Pushed(s, e), {})
  {
    UpdatesMore(s.log, e);
    hide Updates;
  }

  // ---- what flushes no texture ----

  lemma BufferFlushes(s: State, b: nat)
    ensures Flushed(s, BufferCommitted(s, b), {})
  {
    hide Updates;
    if b in s.damagedBuffers { PushOther(s, Upload(b, s.damagedBuffers[b])); }
  }

  lemma {:induction false} ShadersFlush(s: State, shaders: seq<nat>)
    ensures Flushed(s, ShadersCommitted(s, shaders), {})
  {
    hide Updates;
    if shaders != [] {
      var n := |shaders| - 1;
      ShadersFlush(s, shaders[..n]);
      PushOther(ShadersCommitted(s, shaders[..n]), Compile(shaders[n]));
    }
  }

  lemma ProgramFlushes(s: State, p: nat)
    ensures Flushed(s, ProgramCommitted(s, p), {})
  {
    hide Updates, ShadersCommitted;
    if p in s.programs && s.programs[p].shouldLink {
      var shaders := s.programs[p].shaders;
      ShadersFlush(s, shaders);
      PushOther(ShadersCommitted(s, shaders), Link(p, shaders));
    }
  }

  lemma {:induction false} AttributeBuffersFlush(s: State, attributes: V.Attributes, order: seq<nat>)
    ensures Flushed(s, AttributeBuffersCommitted(s, attributes, order), {})
  {
    hide Updates, BufferOf;
    if order != [] {
      var n := |order| - 1;
      var b := BufferOf(attributes, order[n], s.dead);
      AttributeBuffersFlush(s, attributes, order[..n]);
      if b.Some? { BufferFlushes(AttributeBuffersCommitted(s, attributes, order[..n]), b.value); }
    }
  }

  lemma VertexArrayFlushes(s: State, v: nat, order: seq<nat>)
    ensures Flushed(s, VertexArrayCommitted(s, v, order), {})
  {
    hide Updates, AttributeBuffersCommitted;
    if v in s.vertexArrays && s.vertexArrays[v].damaged {
      var attributes := s.vertexArrays[v].attributes;
      AttributeBuffersFlush(s, attributes, order);
      PushOther(AttributeBuffersCommitted(s, attributes, order), UpdateAttributes(v, attributes));
    }
  }

  lemma {:induction false} UpdatesFlush(s: State, t: nat, us: seq<T.Update>)
    ensures Flushed(s, UpdatesPushed(s, t, us), {})
  {
    hide Updates;
    if us != [] {
      var n := |us| - 1;
      UpdatesFlush(s, t, us[..n]);
      PushOther(UpdatesPushed(s, t, us[..n]), UpdateTechnique(t, us[n]));
    }
  }

  // ---- what does ----

  function LiveTexture(t: T.Texture, dead: set<nat>): set<nat> {
    if T.Locks(t.texture, dead) then {t.texture.value} else {}
  }

  lemma BindingFlushes(s: State, t: T.Texture)
    ensures Flushed(s, BindingCommitted(s, t), LiveTexture(t, s.dead))
  {
    hide Updates;
    var s1 := if T.Locks(t.texture, s.dead) then TextureCommitted(s, t.texture.value) else s;
    if T.Locks(t.texture, s.dead) { UpdatesMore(s.log, UpdateTexture(t.texture.value)); }
    if T.Locks(t.sampler, s.dead) { PushOther(s1, UpdateSampler(t.sampler.value)); }
  }

  /** The live textures of the bindings visited so far. */
  function Visited(textures: map<nat, T.Texture>, order: seq<nat>, dead: set<nat>): set<nat> {
    if order == [] then {}
    else
      var before, last := Visited(textures, order[..|order| - 1], dead), order[|order| - 1];
      before + if last in textures then LiveTexture(textures[last], dead) else {}
  }

  lemma {:induction false} TexturesFlush(s: State, textures: map<nat, T.Texture>, order: seq<nat>)
    ensures Flushed(s, TexturesCommitted(s, textures, order), Visited(textures, order, s.dead))
  {
    hide Updates, BindingCommitted, LiveTexture;
    if order != [] {
      var n := |order| - 1;
      var t := TexturesCommitted(s, textures, order[..n]);
      TexturesFlush(s, textures, order[..n]);
      if order[n] in textures {
        BindingFlushes(t, textures[order[n]]);
        FlushedTrans(s, t, BindingCommitted(t, textures[order[n]]), Visited(textures, order[..n], s.dead),
                     LiveTexture(textures[order[n]], s.dead));
      }
    }
  }

  lemma {:induction false} VisitedHas(textures: map<nat, T.Texture>, order: seq<nat>, dead: set<nat>, x: nat)
    ensures x in Visited(textures, order, dead)
       <==> exists b :: b in order && b in textures && Lives(textures[b].texture, dead, x)
  {
    if order != [] {
      var n := |order| - 1;
      VisitedHas(textures, order[..n], dead, x);
      assert order == order[..n] + [order[n]];
    }
  }

  /** The live textures bound to a technique. */
  function TexturesOf(p: T.Pending, dead: set<nat>): set<nat> {
    set b | b in p.textures && T.Locks(p.textures[b].texture, dead) :: p.textures[b].texture.value
  }

  lemma AllVisited(p: T.Pending, order: seq<nat>, dead: set<nat>)
    requires forall b | b in p.textures :: b in order
    ensures Visited(p.textures, order, dead) == TexturesOf(p, dead)
  {
    forall x: nat ensures x in Visited(p.textures, order, dead) <==> x in TexturesOf(p, dead) {
      VisitedHas(p.textures, order, dead, x);
    }
    hide Visited;
  }

  lemma DependenciesFlush(s: State, p: T.Pending, order: seq<nat>)
    requires forall b | b in p.textures :: b in order
    ensures Flushed(s, DependenciesCommitted(s, p, order), TexturesOf(p, s.dead))
  {
    hide Updates, ProgramCommitted, VertexArrayCommitted, TexturesCommitted, BufferCommitted, Visited, TexturesOf;
    var s1 := LockedProgramCommitted(s, p.program);
    var s2 := LockedVertexArrayCommitted(s1, p.vertexArray, order);
    var s3 := TexturesCommitted(s2, p.textures, order);
    if T.Locks(p.program, s.dead) { ProgramFlushes(s, p.program.value); }
    if T.Locks(p.vertexArray, s1.dead) { VertexArrayFlushes(s1, p.vertexArray.value, order); }
    TexturesFlush(s2, p.textures, order);
    AllVisited(p, order, s2.dead);
    if p.draw.Elements? && T.Locks(p.elementArrayBuffer, s3.dead) { BufferFlushes(s3, p.elementArrayBuffer.value); }
  }

  lemma TechniqueFlushes(s: State, t: nat, order: seq<nat>)
    requires Covers(s, order)
    ensures Flushed(s, TechniqueCommitted(s, t, order),
                    if t in s.techniques then TexturesOf(s.techniques[t], s.dead) else {})
  {
    hide Updates, DependenciesCommitted, UpdatesPushed, T.CommandsOfCommit, T.PendingAfterCommit, TexturesOf;
    if t in s.techniques {
      var p := s.techniques[t];
      DependenciesFlush(s, p, order);
      UpdatesFlush(DependenciesCommitted(s, p, order), t, T.CommandsOfCommit(p, s.dead));
    }
  }

  function UnitTextures(s: State, u: nat): set<nat> {
    if u in s.units && T.Locks(s.units[u], s.dead) && s.units[u].value in s.techniques
    then TexturesOf(s.techniques[s.units[u].value], s.dead) else {}
  }

  function UnitsTextures(s: State, us: seq<nat>): set<nat> {
    if us == [] then {}
    else
      var before, last := UnitsTextures(s, us[..|us| - 1]), us[|us| - 1];
      if last in s.dead then before else before + UnitTextures(s, last)
  }

  lemma UnitFlushes(s: State, u: nat, order: seq<nat>)
    requires Covers(s, order)
    ensures Flushed(s, UnitCommitted(s, u, order), UnitTextures(s, u))
  {
    hide Updates, TechniqueCommitted, Covers, TexturesOf;
    if u in s.units {
      var t := s.units[u];
      var m := if T.Locks(t, s.dead) then TechniqueCommitted(s, t.value, order) else s;
      if T.Locks(t, s.dead) { TechniqueFlushes(s, t.value, order); }
      PushOther(m, SetTechnique(u, t));
    }
  }

  lemma UnitTexturesStay(s: State, m: State, r: Reach, u: nat)
    requires Effect(s, m, r)
    ensures UnitTextures(m, u) == UnitTextures(s, u)
  {
    hide UpdatesOf, SnapshotsOf, Flushes;
  }

  lemma {:induction false} UnitsFlush(s: State, us: seq<nat>, order: seq<nat>)
    requires Covers(s, order)
    ensures Flushed(s, UnitsCommitted(s, us, order), UnitsTextures(s, us))
  {
    hide Updates, Covers, UnitCommitted, Effect, UnitTextures;
    if us != [] {
      var n := |us| - 1;
      var m := UnitsCommitted(s, us[..n], order);
      UnitsFlush(s, us[..n], order);
      UnitsEffect(s, us[..n], order);
      if us[n] !in s.dead {
        UnitFlushes(m, us[n], order);
        UnitTexturesStay(s, m, UnitsReach(s, us[..n]), us[n]);
        FlushedTrans(s, m, UnitCommitted(m, us[n], order), UnitsTextures(s, us[..n]), UnitTextures(s, us[n]));
      }
    }
  }

  lemma ObjectFlushes(s: State, o: nat, order: seq<nat>)
    requires Covers(s, order) && o in s.objects
    ensures Flushed(s, ObjectCommitted(s, o, order), UnitsTextures(s, s.objects[o]))
  {
    hide Updates, Covers, UnitsCommitted, Living, UnitsTextures;
    var living := Living(s.objects[o], s.dead);
    var m := UnitsCommitted(s, s.objects[o], order);
    UnitsFlush(s, s.objects[o], order);
    PushOther(m, SetUnits(o, living));
    PushOther(Pushed(m, SetUnits(o, living)), CommitMark);
  }

  // ---- what the edits ask for ----

  predicate BoundTo(calls: seq<T.Call>, b: nat, dead: set<nat>, x: nat) {
    T.BoundTexture(calls, b).Some? && Lives(T.BoundTexture(calls, b).value.texture, dead, x)
  }

  ghost predicate Binds(edits: seq<Action>, t: nat, x: nat) {
    exists b :: BoundTo(CallsTo(edits, t), b, Gone(edits), x)
  }

  /** A live texture bound last to some unit of a technique that a commit of o reaches. */
  ghost predicate ReachesTexture(edits: seq<Action>, o: nat, x: nat) {
    exists t :: ReachesTechnique(edits, o, t) && Binds(edits, t, x)
  }

  ghost predicate CommitsTexture(edits: seq<Action>, a: Action, x: nat) {
    a.CommitObject? && Y.Commits(edits, a, a.virtualObject) && ReachesTexture(edits, a.virtualObject, x)
  }

  /** Texture x has been called since the last commit that reached it. */
  ghost predicate Changed(edits: seq<Action>, x: nat) {
    edits != [] &&
    var front, last := edits[..|edits| - 1], edits[|edits| - 1];
    last == ChangeTexture(x) || (Changed(front, x) && !CommitsTexture(front, last, x))
  }

  /** How many commits have reached texture x after calls on it. */
  ghost function UpdatesAsked(edits: seq<Action>, x: nat): nat {
    if edits == [] then 0
    else
      var front, last := edits[..|edits| - 1], edits[|edits| - 1];
      UpdatesAsked(front, x) + if CommitsTexture(front, last, x) && Changed(front, x) then 1 else 0
  }

  lemma {:induction false} UnitsTexturesHas(s: State, us: seq<nat>, x: nat)
    ensures x in UnitsTextures(s, us) <==> exists u :: u in us && u !in s.dead && x in UnitTextures(s, u)
  {
    if us != [] {
      var n := |us| - 1;
      UnitsTexturesHas(s, us[..n], x);
      assert us == us[..n] + [us[n]];
      hide UnitTextures;
    }
  }

  lemma TexturesOfHas(p: T.Pending, calls: seq<T.Call>, dead: set<nat>, x: nat)
    requires T.AsCalled(p, calls)
    ensures x in TexturesOf(p, dead) <==> exists b :: BoundTo(calls, b, dead, x)
  {
    hide T.BoundTexture, T.LastDraw, T.IndexBuffer, T.BoundProgram, T.BoundVertexArray, T.Draws;
    forall b: nat ensures BoundTo(calls, b, dead, x) <==> b in p.textures && Lives(p.textures[b].texture, dead, x) {
      assert T.TextureAt(p.textures, b) == T.BoundTexture(calls, b);
    }
    hide BoundTo;
    if x in TexturesOf(p, dead) {
      var b :| b in p.textures && T.Locks(p.textures[b].texture, dead) && p.textures[b].texture.value == x;
      assert BoundTo(calls, b, dead, x);
    }
  }

  lemma UnitTexturesHas(s: State, u: nat, x: nat)
    ensures x in UnitTextures(s, u) <==> exists t :: LeadsTo(s, u, t) && x in TexturesOf(s.techniques[t], s.dead)
  {
    hide TexturesOf;
    if u in s.units && T.Locks(s.units[u], s.dead) && s.units[u].value in s.techniques {
      assert LeadsTo(s, u, s.units[u].value);
    }
  }

  lemma TexturesAsked(s: State, edits: seq<Action>, o: nat, us: seq<nat>, x: nat)
    requires Agrees(s, edits, o, us) && SameCalls(s, edits) && s.dead == Gone(edits)
    ensures x in UnitsTextures(s, us) <==> ReachesTexture(edits, o, x)
  {
    hide UnitsTextures, UnitTextures, TexturesOf, Lives, TechniqueOf, Gone, ReachesUnit, CallsTo, BoundTo, V.AsSet,
      T.AsCalled;
    UnitsTexturesHas(s, us, x);
    forall t | t in s.techniques ensures x in TexturesOf(s.techniques[t], s.dead) <==> Binds(edits, t, x) {
      TexturesOfHas(s.techniques[t], CallsTo(edits, t), Gone(edits), x);
    }
    if x in UnitsTextures(s, us) {
      var u :| u in us && u !in s.dead && x in UnitTextures(s, u);
      UnitTexturesHas(s, u, x);
      var t :| LeadsTo(s, u, t) && x in TexturesOf(s.techniques[t], s.dead);
      assert ReachesUnit(edits, o, u) && ReachesTechnique(edits, o, t);
    }
    if ReachesTexture(edits, o, x) {
      var t :| ReachesTechnique(edits, o, t) && Binds(edits, t, x);
      var u :| ReachesUnit(edits, o, u) && Lives(TechniqueOf(edits, u), Gone(edits), t);
      assert LeadsTo(s, u, t);
      UnitTexturesHas(s, u, x);
    }
  }

  ghost predicate FlushesAsAsked(s: State, edits: seq<Action>, x: nat) {
    Updates(s.log, x) == UpdatesAsked(edits, x) && (x in s.dirtyTextures <==> Changed(edits, x))
  }

  lemma AskedMore(edits: seq<Action>, a: Action, x: nat)
    ensures Changed(edits + [a], x) <==> a == ChangeTexture(x) || (Changed(edits, x) && !CommitsTexture(edits, a, x))
    ensures UpdatesAsked(edits + [a], x)
         == UpdatesAsked(edits, x) + if CommitsTexture(edits, a, x) && Changed(edits, x) then 1 else 0
  {
    assert (edits + [a])[..|edits|] == edits;
  }

  lemma CommitAsAsked(s: State, a: Action, edits: seq<Action>, x: nat)
    requires s == Run(edits) && Mirrors(s, edits) && FlushesAsAsked(s, edits, x) && Y.TakesCommit(s, a)
    ensures FlushesAsAsked(ObjectCommitted(s, a.virtualObject, a.order), edits + [a], x)
  {
    hide Run, Updates, ObjectCommitted, Covers, UnitsTextures, Agrees, UpdatesAsked, Changed, HasObject, ReachesTexture,
      SameLists, NothingEarly;
    AskedMore(edits, a, x);
    ObjectFlushes(s, a.virtualObject, a.order);
    Y.ListAgrees(s, edits, a.virtualObject);
    assert s.dead == Gone(edits) by { Y.DeadIsGone(s, edits); }
    TexturesAsked(s, edits, a.virtualObject, s.objects[a.virtualObject], x);
    hide SameCalls, Gone;
  }

  lemma OtherAsAsked(s: State, a: Action, edits: seq<Action>, x: nat)
    requires s == Run(edits) && Mirrors(s, edits) && FlushesAsAsked(s, edits, x) && !Y.TakesCommit(s, a)
    ensures FlushesAsAsked(Step(s, a), edits + [a], x)
  {
    hide Run, Updates, ObjectCommitted, Covers, UpdatesAsked, Changed, HasObject, ReachesTexture, SameLists, SameCalls,
      NothingEarly, V.Set, T.Called;
    AskedMore(edits, a, x);
    if a.CommitObject? { Y.IdleCommit(s, a); }
    match a
    case GlBufferData(b, target) => UpdatesMore(s.log, DataSet(b, target));
    case GlLinkProgram(p) => UpdatesMore(s.log, LinkAsked(p));
    case ChangeTexture(t) => UpdatesMore(s.log, TextureChanged(t));
    case Destroy(id) => UpdatesMore(s.log, Release(id));
    case Move(o, pose) =>
      UpdatesMore(s.log, SetPose(o, pose));
      UpdatesMore(s.log + [SetPose(o, pose)], CommitMark);
    case _ =>
  }

  /** On every run: a commit pushes an update of a texture if and only if it reaches the texture and there have been
      calls on it since the last commit that did. */
  lemma {:induction false} UpdatesAreAsked(edits: seq<Action>, x: nat)
    ensures FlushesAsAsked(Run(edits), edits, x)
  {
    hide FlushesAsAsked, Mirrors, Run, Step;
    if edits == [] {
      assert FlushesAsAsked(Run(edits), edits, x) by { NothingYet(x); }
    } else {
      var front, last := edits[..|edits| - 1], edits[|edits| - 1];
      UpdatesAreAsked(front, x);
      RunMirrors(front);
      assert front + [last] == edits;
      RunMore(front, last);
      if Y.TakesCommit(Run(front), last) {
        CommitAsAsked(Run(front), last, front, x);
        CommitStep(Run(front), last.virtualObject, last.order);
      } else {
        OtherAsAsked(Run(front), last, front, x);
      }
    }
  }

  lemma NothingYet(x: nat)
    ensures FlushesAsAsked(Run([]), [], x)
  {
  }

  // ---- the calls noted in the log ----

  /** The calls among the events. */
  function CallsNoted(log: seq<Event>): seq<Event> {
    if log == [] then []
    else
      var last := log[|log| - 1];
      CallsNoted(log[..|log| - 1]) + if last.DataSet? || last.LinkAsked? || last.TextureChanged? then [last] else []
  }

  function Noted(edits: seq<Action>): seq<Event> {
    if edits == [] then []
    else
      var front, last := edits[..|edits| - 1], edits[|edits| - 1];
      Noted(front) +
      match last
      case GlBufferData(b, target) => [DataSet(b, target)]
      case GlLinkProgram(p) => if HasProgram(front, p) then [LinkAsked(p)] else []
      case ChangeTexture(x) => [TextureChanged(x)]
      case _ => []
  }

  lemma NotedMore(log: seq<Event>, e: Event)
    ensures CallsNoted(log + [e])
         == CallsNoted(log) + if e.DataSet? || e.LinkAsked? || e.TextureChanged? then [e] else []
  {
    assert (log + [e])[..|log|] == log;
  }

  lemma {:induction false} NothingNoted(log: seq<Event>, more: seq<Event>)
    requires log <= more && forall i | |log| <= i < |more| :: IsCommand(more[i]) || more[i].CommitMark?
    ensures CallsNoted(more) == CallsNoted(log)
  {
    if |more| > |log| {
      NothingNoted(log, more[..|more| - 1]);
      assert CallsNoted(more[..|more| - 1]) + [] == CallsNoted(more[..|more| - 1]);
    } else {
      assert more == log;
    }
  }

  lemma CommitNotes(s: State, o: nat, order: seq<nat>)
    requires Inv(s) && Covers(s, order)
    ensures CallsNoted(ObjectCommitted(s, o, order).log) == CallsNoted(s.log)
  {
    if o in s.objects {
      UnitsInv(s, s.objects[o], order);
      hide Inv, Covers, UnitsCommitted, Living;
      ObjectPushes(s, o, order);
      NothingNoted(s.log, ObjectCommitted(s, o, order).log);
    }
  }

  lemma StepNotes(s: State, a: Action, edits: seq<Action>)
    requires Inv(s) && SameKeys(s, edits) && CallsNoted(s.log) == Noted(edits)
    ensures CallsNoted(Step(s, a).log) == Noted(edits + [a])
  {
    hide Inv, Covers, ObjectCommitted, CallsNoted, HasObject, HasUnit, HasTechnique, HasArray, HasProgram, V.Set,
      T.Called;
    assert (edits + [a])[..|edits|] == edits;
    assert Noted(edits) + [] == Noted(edits);
    match a
    case GlBufferData(b, target) => NotedMore(s.log, DataSet(b, target));
    case GlLinkProgram(p) => NotedMore(s.log, LinkAsked(p));
    case ChangeTexture(t) => NotedMore(s.log, TextureChanged(t));
    case Destroy(id) => NotedMore(s.log, Release(id));
    case Move(o, pose) =>
      NotedMore(s.log, SetPose(o, pose));
      NotedMore(s.log + [SetPose(o, pose)], CommitMark);
    case CommitObject(o, order) => if Covers(s, order) { CommitNotes(s, o, order); }
    case _ =>
  }

  /** The calls that the log of a run notes, and on which the order of its commands is stated, are those made. */
  lemma {:induction false} CallsAreNoted(edits: seq<Action>)
    ensures CallsNoted(Run(edits).log) == Noted(edits)
  {
    if edits != [] {
      var front, last := edits[..|edits| - 1], edits[|edits| - 1];
      CallsAreNoted(front);
      Always(front);
      RunMirrors(front);
      hide Inv, SameKeys, SameLists, SameCalls, NothingEarly, Step, Noted, CallsNoted;
      StepNotes(Run(front), last, front);
      assert front + [last] == edits;
    }
  }
}
