/** Exactly what the recursive commit of a virtual object changes: which resources, what it pushes for each, and which
    buffer data it flushes. */
module CommitEffect {
  import opened Options
  import opened Scene
  import V = VertexArray
  import T = BaseTechnique

  // ---- what a commit reaches ----

  /** The techniques and vertex arrays that are committed, and the element buffers committed for drawing. */
  datatype Reach = Reach(techniques: set<nat>, arrays: set<nat>, buffers: set<nat>)

  const NOTHING := Reach({}, {}, {})

  function Joined(a: Reach, b: Reach): Reach {
    Reach(a.techniques + b.techniques, a.arrays + b.arrays, a.buffers + b.buffers)
  }

  /** The live vertex array of a technique. */
  function ArrayPart(p: T.Pending, dead: set<nat>): Reach {
    Reach({}, if T.Locks(p.vertexArray, dead) then {p.vertexArray.value} else {}, {})
  }

  /** The live buffer a technique takes its indices from. */
  function BufferPart(p: T.Pending, dead: set<nat>): Reach {
    Reach({}, {}, if p.draw.Elements? && T.Locks(p.elementArrayBuffer, dead) then {p.elementArrayBuffer.value} else {})
  }

  function TechniqueReach(s: State, t: nat): Reach {
    if t !in s.techniques then NOTHING
    else
      var p := s.techniques[t];
      Joined(Joined(ArrayPart(p, s.dead), BufferPart(p, s.dead)), Reach({t}, {}, {}))
  }

  function UnitReach(s: State, u: nat): Reach {
    if u in s.units && T.Locks(s.units[u], s.dead) then TechniqueReach(s, s.units[u].value) else NOTHING
  }

  function UnitsReach(s: State, us: seq<nat>): Reach {
    if us == [] then NOTHING
    else
      var before, last := UnitsReach(s, us[..|us| - 1]), us[|us| - 1];
      if last in s.dead then before else Joined(before, UnitReach(s, last))
  }

  function ObjectReach(s: State, o: nat): Reach {
    if o in s.objects then UnitsReach(s, s.objects[o]) else NOTHING
  }

  // ---- what the history holds for one resource ----

  function UpdatesOf(log: seq<Event>, t: nat): seq<T.Update> {
    if log == [] then []
    else
      var last := log[|log| - 1];
      UpdatesOf(log[..|log| - 1], t) + if last.UpdateTechnique? && last.technique == t then [last.update] else []
  }

  function SnapshotsOf(log: seq<Event>, v: nat): seq<V.Attributes> {
    if log == [] then []
    else
      var last := log[|log| - 1];
      SnapshotsOf(log[..|log| - 1], v)
      + if last.UpdateAttributes? && last.vertexArray == v then [last.attributes] else []
  }

  lemma OneMoreOf(log: seq<Event>, e: Event, id: nat)
    ensures UpdatesOf(log + [e], id)
         == UpdatesOf(log, id) + if e.UpdateTechnique? && e.technique == id then [e.update] else []
    ensures SnapshotsOf(log + [e], id)
         == SnapshotsOf(log, id) + if e.UpdateAttributes? && e.vertexArray == id then [e.attributes] else []
  {
    assert (log + [e])[..|log|] == log;
  }

  // ---- the effect ----

  predicate HoldsBuffer(s: State, v: nat, b: nat) {
    v in s.vertexArrays && Points(s.vertexArrays[v].attributes, s.dead, b)
  }

  /** Some attribute has a live pointer to b. */
  predicate Points(attributes: V.Attributes, dead: set<nat>, b: nat) {
    exists i :: i in attributes && BufferOf(attributes, i, dead) == Some(b)
  }

  /** The data of b goes with this commit: b is drawn from, or a damaged vertex array points into it. */
  predicate Flushes(s: State, r: Reach, b: nat) {
    b in r.buffers || exists v :: v in r.arrays && FlushedBy(s, v, b)
  }

  predicate FlushedBy(s: State, v: nat, b: nat) { HoldsBuffer(s, v, b) && s.vertexArrays[v].damaged }

  function TechniqueAfter(s: State, r: Reach, t: nat): T.Pending
    requires t in s.techniques
  {
    if t in r.techniques then T.PendingAfterCommit(s.techniques[t], s.dead) else s.techniques[t]
  }

  function ArrayAfter(s: State, r: Reach, v: nat): V.Pending
    requires v in s.vertexArrays
  {
    if v in r.arrays then V.PendingAfterCommit(s.vertexArrays[v]) else s.vertexArrays[v]
  }

  function UpdatesIn(s: State, r: Reach, t: nat): seq<T.Update> {
    if t in s.techniques && t in r.techniques then T.CommandsOfCommit(s.techniques[t], s.dead) else []
  }

  function SnapshotsIn(s: State, r: Reach, v: nat): seq<V.Attributes> {
    if v in s.vertexArrays && v in r.arrays then V.CommandsOfCommit(s.vertexArrays[v]) else []
  }

  ghost predicate TechniquesCommitted(s: State, m: State, r: Reach) {
    && m.techniques.Keys == s.techniques.Keys
    && (forall t | t in s.techniques :: m.techniques[t] == TechniqueAfter(s, r, t))
    && (forall t :: UpdatesOf(m.log, t) == UpdatesOf(s.log, t) + UpdatesIn(s, r, t))
  }

  ghost predicate ArraysCommitted(s: State, m: State, r: Reach) {
    && m.vertexArrays.Keys == s.vertexArrays.Keys
    && (forall v | v in s.vertexArrays :: m.vertexArrays[v] == ArrayAfter(s, r, v))
    && (forall v :: SnapshotsOf(m.log, v) == SnapshotsOf(s.log, v) + SnapshotsIn(s, r, v))
  }

  ghost predicate BuffersCommitted(s: State, m: State, r: Reach) {
    forall b :: Lookup(m.damagedBuffers, b) == if Flushes(s, r, b) then None else Lookup(s.damagedBuffers, b)
  }

  /** m comes from s by committing what r reaches: every technique and vertex array of r once, no other. */
  ghost predicate Effect(s: State, m: State, r: Reach) {
    && m.dead == s.dead && m.units == s.units
    && TechniquesCommitted(s, m, r) && ArraysCommitted(s, m, r) && BuffersCommitted(s, m, r)
  }

  // ---- composition ----

  /** A second commit in a row has nothing to do. */
  lemma CommittedTwice(p: T.Pending, dead: set<nat>)
    ensures var q := T.PendingAfterCommit(p, dead);
            T.PendingAfterCommit(q, dead) == q && T.CommandsOfCommit(q, dead) == []
  {
  }

  lemma UpdatesTwice(s: State, m: State, a: Reach, b: Reach, t: nat)
    requires m.dead == s.dead && TechniquesCommitted(s, m, a)
    ensures UpdatesIn(s, Joined(a, b), t) == UpdatesIn(s, a, t) + UpdatesIn(m, b, t)
  {
    hide UpdatesOf, T.CommandsOfCommit, T.PendingAfterCommit;
    if t in s.techniques { CommittedTwice(s.techniques[t], s.dead); }
  }

  lemma TechniquesTrans(s: State, m: State, n: State, a: Reach, b: Reach)
    requires m.dead == s.dead && TechniquesCommitted(s, m, a) && TechniquesCommitted(m, n, b)
    ensures TechniquesCommitted(s, n, Joined(a, b))
  {
    hide UpdatesOf, T.CommandsOfCommit, T.PendingAfterCommit;
    forall t ensures UpdatesIn(s, Joined(a, b), t) == UpdatesIn(s, a, t) + UpdatesIn(m, b, t) {
      UpdatesTwice(s, m, a, b, t);
    }
    forall t | t in s.techniques ensures n.techniques[t] == TechniqueAfter(s, Joined(a, b), t) {
      CommittedTwice(s.techniques[t], s.dead);
    }
    hide UpdatesIn, TechniqueAfter;
    forall t ensures UpdatesOf(n.log, t) == UpdatesOf(s.log, t) + UpdatesIn(s, Joined(a, b), t) {
      assert UpdatesOf(n.log, t) == UpdatesOf(m.log, t) + UpdatesIn(m, b, t);
    }
  }

  lemma ArraysTrans(s: State, m: State, n: State, a: Reach, b: Reach)
    requires ArraysCommitted(s, m, a) && ArraysCommitted(m, n, b)
    ensures ArraysCommitted(s, n, Joined(a, b))
  {
    forall v ensures SnapshotsIn(s, Joined(a, b), v) == SnapshotsIn(s, a, v) + SnapshotsIn(m, b, v) {
    }
    hide SnapshotsIn, SnapshotsOf;
    forall v ensures SnapshotsOf(n.log, v) == SnapshotsOf(s.log, v) + SnapshotsIn(s, Joined(a, b), v) {
      assert SnapshotsOf(n.log, v) == SnapshotsOf(m.log, v) + SnapshotsIn(m, b, v);
    }
  }

  /** A commit changes no pointer. */
  lemma CommitKeepsPointers(p: V.Pending, dead: set<nat>, b: nat)
    ensures Points(V.PendingAfterCommit(p).attributes, dead, b) == Points(p.attributes, dead, b)
  {
    var q := V.PendingAfterCommit(p);
    forall i ensures BufferOf(q.attributes, i, dead) == BufferOf(p.attributes, i, dead)
                  && (i in q.attributes <==> i in p.attributes) {
    }
  }

  lemma FlushedLater(s: State, m: State, r: Reach, v: nat, b: nat)
    requires m.dead == s.dead && ArraysCommitted(s, m, r)
    ensures FlushedBy(m, v, b) <==> FlushedBy(s, v, b) && v !in r.arrays
  {
    if v in s.vertexArrays {
      CommitKeepsPointers(s.vertexArrays[v], s.dead, b);
    }
    hide Points;
  }

  lemma BuffersTrans(s: State, m: State, n: State, a: Reach, b: Reach)
    requires m.dead == s.dead && ArraysCommitted(s, m, a) && BuffersCommitted(s, m, a) && BuffersCommitted(m, n, b)
    ensures BuffersCommitted(s, n, Joined(a, b))
  {
    forall c ensures Flushes(s, Joined(a, b), c) <==> Flushes(s, a, c) || Flushes(m, b, c) {
      forall v ensures FlushedBy(m, v, c) <==> FlushedBy(s, v, c) && v !in a.arrays {
        FlushedLater(s, m, a, v, c);
      }
      hide FlushedBy;
    }
    hide Flushes;
  }

  lemma Compose(s: State, m: State, n: State, a: Reach, b: Reach)
    requires Effect(s, m, a) && Effect(m, n, b)
    ensures Effect(s, n, Joined(a, b))
  {
    TechniquesTrans(s, m, n, a, b);
    ArraysTrans(s, m, n, a, b);
    BuffersTrans(s, m, n, a, b);
  }

  lemma JoinNothing(a: Reach)
    ensures Joined(NOTHING, a) == a == Joined(a, NOTHING)
  {
  }

  // ---- the pieces ----

  /** An event for no technique and no vertex array. */
  predicate IsAside(e: Event) { !e.UpdateTechnique? && !e.UpdateAttributes? }

  /** m differs from s by such events, and in nothing that techniques, vertex arrays or buffers see. */
  ghost predicate Aside(s: State, m: State) {
    && m == s.(log := m.log, programs := m.programs, committedShaders := m.committedShaders,
               dirtyTextures := m.dirtyTextures, objects := m.objects)
    && (forall id :: UpdatesOf(m.log, id) == UpdatesOf(s.log, id) && SnapshotsOf(m.log, id) == SnapshotsOf(s.log, id))
  }

  lemma PushAside(s: State, e: Event)
    requires IsAside(e)
    ensures Aside(s, Pushed(s, e))
  {
    forall id ensures UpdatesOf(s.log + [e], id) == UpdatesOf(s.log, id)
                   && SnapshotsOf(s.log + [e], id) == SnapshotsOf(s.log, id) {
      OneMoreOf(s.log, e, id);
    }
  }

  lemma {:induction false} ShadersAside(s: State, shaders: seq<nat>)
    ensures Aside(s, ShadersCommitted(s, shaders))
  {
    if shaders != [] {
      var n := |shaders| - 1;
      var t := ShadersCommitted(s, shaders[..n]);
      ShadersAside(s, shaders[..n]);
      PushAside(t, Compile(shaders[n]));
      hide UpdatesOf, SnapshotsOf;
    }
  }

  lemma ProgramAside(s: State, p: nat)
    ensures Aside(s, ProgramCommitted(s, p))
  {
    if p in s.programs && s.programs[p].shouldLink {
      var shaders := s.programs[p].shaders;
      ShadersAside(s, shaders);
      PushAside(ShadersCommitted(s, shaders), Link(p, shaders));
    }
    hide UpdatesOf, SnapshotsOf, ShadersCommitted;
  }

  lemma BindingAside(s: State, t: T.Texture)
    ensures Aside(s, BindingCommitted(s, t))
  {
    var s1 := if T.Locks(t.texture, s.dead) then TextureCommitted(s, t.texture.value) else s;
    if T.Locks(t.texture, s.dead) {
      PushAside(s, UpdateTexture(t.texture.value));
    }
    if T.Locks(t.sampler, s.dead) {
      PushAside(s1, UpdateSampler(t.sampler.value));
    }
    hide UpdatesOf, SnapshotsOf;
  }

  lemma {:induction false} TexturesAside(s: State, textures: map<nat, T.Texture>, order: seq<nat>)
    ensures Aside(s, TexturesCommitted(s, textures, order))
  {
    if order != [] {
      var n := |order| - 1;
      var t := TexturesCommitted(s, textures, order[..n]);
      TexturesAside(s, textures, order[..n]);
      if order[n] in textures {
        BindingAside(t, textures[order[n]]);
      }
      hide UpdatesOf, SnapshotsOf, BindingCommitted;
    }
  }

  lemma AsideEffect(s: State, m: State)
    requires Aside(s, m)
    ensures Effect(s, m, NOTHING)
  {
    hide UpdatesOf, SnapshotsOf, FlushedBy;
  }

  lemma Elsewhere(s: State, m: State, r: Reach)
    requires m.techniques == s.techniques && m.vertexArrays == s.vertexArrays && r.techniques == {} && r.arrays == {}
    requires forall id :: UpdatesOf(m.log, id) == UpdatesOf(s.log, id)
                              && SnapshotsOf(m.log, id) == SnapshotsOf(s.log, id)
    ensures TechniquesCommitted(s, m, r) && ArraysCommitted(s, m, r)
  {
    hide UpdatesOf, SnapshotsOf;
  }

  lemma OneBuffer(s: State, b: nat, c: nat)
    ensures Flushes(s, Reach({}, {}, {b}), c) <==> c == b
  {
  }

  lemma BufferEffect(s: State, b: nat)
    ensures Effect(s, BufferCommitted(s, b), Reach({}, {}, {b}))
  {
    hide UpdatesOf, SnapshotsOf, Flushes, TechniquesCommitted, ArraysCommitted;
    if b in s.damagedBuffers { PushAside(s, Upload(b, s.damagedBuffers[b])); }
    Elsewhere(s, BufferCommitted(s, b), Reach({}, {}, {b}));
    forall c ensures Flushes(s, Reach({}, {}, {b}), c) <==> c == b { OneBuffer(s, b, c); }
  }

  /** The live buffers of the attributes visited so far. */
  function BuffersOf(attributes: V.Attributes, order: seq<nat>, dead: set<nat>): set<nat> {
    set k | 0 <= k < |order| && BufferOf(attributes, order[k], dead).Some? :: BufferOf(attributes, order[k], dead).value
  }

  lemma BuffersOfMore(attributes: V.Attributes, order: seq<nat>, dead: set<nat>)
    requires order != []
    ensures var n := |order| - 1;
            var b := BufferOf(attributes, order[n], dead);
            BuffersOf(attributes, order, dead)
            == BuffersOf(attributes, order[..n], dead) + if b.Some? then {b.value} else {}
  {
    var n := |order| - 1;
    assert forall k | 0 <= k < n :: order[..n][k] == order[k];
    hide BufferOf;
  }

  lemma {:induction false} AttributeBuffersEffect(s: State, attributes: V.Attributes, order: seq<nat>)
    ensures Effect(s, AttributeBuffersCommitted(s, attributes, order),
                   Reach({}, {}, BuffersOf(attributes, order, s.dead)))
  {
    if order == [] {
      AsideEffect(s, s);
    } else {
      var n := |order| - 1;
      var t, u := AttributeBuffersCommitted(s, attributes, order[..n]), AttributeBuffersCommitted(s, attributes, order);
      var before, b := Reach({}, {}, BuffersOf(attributes, order[..n], s.dead)), BufferOf(attributes, order[n], s.dead);
      AttributeBuffersEffect(s, attributes, order[..n]);
      BuffersOfMore(attributes, order, s.dead);
      hide TechniquesCommitted, ArraysCommitted, BuffersCommitted, BuffersOf, BufferOf;
      if b.Some? {
        BufferEffect(t, b.value);
        assert u == BufferCommitted(t, b.value);
        hide Effect, AttributeBuffersCommitted, BufferCommitted;
        Compose(s, t, u, before, Reach({}, {}, {b.value}));
        assert Joined(before, Reach({}, {}, {b.value})) == Reach({}, {}, BuffersOf(attributes, order, s.dead));
      }
    }
  }

  /** A vertex array and the buffers it points into. */
  lemma VertexArrayEffect(s: State, v: nat, order: seq<nat>)
    requires Covers(s, order)
    ensures Effect(s, VertexArrayCommitted(s, v, order), Reach({}, {v}, {}))
  {
    if v in s.vertexArrays && s.vertexArrays[v].damaged {
      var p := s.vertexArrays[v];
      var m, n := AttributeBuffersCommitted(s, p.attributes, order), VertexArrayCommitted(s, v, order);
      AttributeBuffersEffect(s, p.attributes, order);
      AttributeBuffersFrame(s, p.attributes, order);
      DamagedArray(s, m, n, v, order);
    } else {
      UndamagedArray(s, v);
    }
  }

  lemma {:induction false} AttributeBuffersFrame(s: State, attributes: V.Attributes, order: seq<nat>)
    ensures var m := AttributeBuffersCommitted(s, attributes, order);
            m == s.(log := m.log, damagedBuffers := m.damagedBuffers)
  {
    if order != [] {
      AttributeBuffersFrame(s, attributes, order[..|order| - 1]);
    }
  }

  lemma UndamagedArray(s: State, v: nat)
    requires v !in s.vertexArrays || !s.vertexArrays[v].damaged
    ensures Effect(s, s, Reach({}, {v}, {}))
  {
    hide UpdatesOf, SnapshotsOf, Points;
  }

  /** The buffers visited are the buffers pointed into. */
  lemma CoveredBuffers(s: State, v: nat, order: seq<nat>, b: nat)
    requires Covers(s, order) && v in s.vertexArrays
    ensures b in BuffersOf(s.vertexArrays[v].attributes, order, s.dead) <==> HoldsBuffer(s, v, b)
  {
    var attributes := s.vertexArrays[v].attributes;
    if i :| i in attributes && BufferOf(attributes, i, s.dead) == Some(b) {
      assert i in order;
      var k :| 0 <= k < |order| && order[k] == i;
      assert BufferOf(attributes, order[k], s.dead) == Some(b);
    }
    if b in BuffersOf(attributes, order, s.dead) {
      var k :| 0 <= k < |order| && BufferOf(attributes, order[k], s.dead) == Some(b);
      assert order[k] in attributes;
    }
  }

  lemma DamagedArray(s: State, m: State, n: State, v: nat, order: seq<nat>)
    requires Covers(s, order) && v in s.vertexArrays && s.vertexArrays[v].damaged
    requires var attributes := s.vertexArrays[v].attributes;
             && Effect(s, m, Reach({}, {}, BuffersOf(attributes, order, s.dead)))
             && m == s.(log := m.log, damagedBuffers := m.damagedBuffers)
             && n == Pushed(m, UpdateAttributes(v, attributes))
                       .(vertexArrays := s.vertexArrays[v := V.PendingAfterCommit(s.vertexArrays[v])])
    ensures Effect(s, n, Reach({}, {v}, {}))
  {
    var r := Reach({}, {v}, {});
    forall id ensures UpdatesOf(n.log, id) == UpdatesOf(s.log, id)
                   && SnapshotsOf(n.log, id) == SnapshotsOf(s.log, id) + SnapshotsIn(s, r, id) {
      OneMoreOf(m.log, UpdateAttributes(v, s.vertexArrays[v].attributes), id);
      assert UpdatesOf(m.log, id) == UpdatesOf(s.log, id) + [];
      assert SnapshotsOf(m.log, id) == SnapshotsOf(s.log, id) + [];
    }
    forall b ensures Lookup(n.damagedBuffers, b) == if Flushes(s, r, b) then None else Lookup(s.damagedBuffers, b) {
      CoveredBuffers(s, v, order, b);
      assert Flushes(s, r, b) <==> FlushedBy(s, v, b);
      assert forall a :: !FlushedBy(s, a, b) || a in s.vertexArrays;
    }
    hide UpdatesOf, SnapshotsOf, Flushes, BuffersOf;
  }

  lemma {:induction false} UpdatesPushedOf(s: State, t: nat, us: seq<T.Update>, id: nat)
    ensures var m := UpdatesPushed(s, t, us);
            && m == s.(log := m.log)
            && UpdatesOf(m.log, id) == UpdatesOf(s.log, id) + (if id == t then us else [])
            && SnapshotsOf(m.log, id) == SnapshotsOf(s.log, id)
  {
    if us != [] {
      var n := |us| - 1;
      UpdatesPushedOf(s, t, us[..n], id);
      OneMoreOf(UpdatesPushed(s, t, us[..n]).log, UpdateTechnique(t, us[n]), id);
      assert us == us[..n] + [us[n]];
    }
  }

  function OwnUpdatesPushed(s: State, t: nat): State
    requires t in s.techniques
  {
    var p := s.techniques[t];
    UpdatesPushed(s, t, T.CommandsOfCommit(p, s.dead))
      .(techniques := s.techniques[t := T.PendingAfterCommit(p, s.dead)])
  }

  lemma OwnUpdatesFrame(s: State, t: nat, id: nat)
    requires t in s.techniques
    ensures var m := OwnUpdatesPushed(s, t);
            && m == s.(log := m.log, techniques := s.techniques[t := T.PendingAfterCommit(s.techniques[t], s.dead)])
            && UpdatesOf(m.log, id) == UpdatesOf(s.log, id) + UpdatesIn(s, Reach({t}, {}, {}), id)
            && SnapshotsOf(m.log, id) == SnapshotsOf(s.log, id)
  {
    var us := T.CommandsOfCommit(s.techniques[t], s.dead);
    UpdatesPushedOf(s, t, us, id);
    hide UpdatesOf, SnapshotsOf, UpdatesPushed, T.CommandsOfCommit, T.PendingAfterCommit;
  }

  /** The technique's own updates. */
  lemma OwnUpdatesEffect(s: State, t: nat)
    requires t in s.techniques
    ensures Effect(s, OwnUpdatesPushed(s, t), Reach({t}, {}, {}))
  {
    var m, r := OwnUpdatesPushed(s, t), Reach({t}, {}, {});
    hide OwnUpdatesPushed, UpdatesOf, SnapshotsOf, FlushedBy, UpdatesIn, T.PendingAfterCommit;
    OwnUpdatesFrame(s, t, t);
    assert TechniquesCommitted(s, m, r) by {
      forall id ensures UpdatesOf(m.log, id) == UpdatesOf(s.log, id) + UpdatesIn(s, r, id) {
        OwnUpdatesFrame(s, t, id);
      }
    }
    assert ArraysCommitted(s, m, r) by {
      forall id ensures SnapshotsOf(m.log, id) == SnapshotsOf(s.log, id) { OwnUpdatesFrame(s, t, id); }
    }
  }

  lemma EffectFrame(s: State, m: State, r: Reach)
    requires Effect(s, m, r)
    ensures m.dead == s.dead && m.units == s.units && (r.techniques == {} ==> m.techniques == s.techniques)
  {
    hide UpdatesOf, SnapshotsOf, Flushes;
  }

  lemma CoversStays(s: State, m: State, r: Reach, order: seq<nat>)
    requires Effect(s, m, r) && Covers(s, order)
    ensures Covers(m, order)
  {
    hide UpdatesOf, SnapshotsOf, Flushes;
    forall v, i | v in m.vertexArrays && i in m.vertexArrays[v].attributes ensures i in order {
      assert i in s.vertexArrays[v].attributes;
    }
    forall t, b | t in m.techniques && b in m.techniques[t].textures ensures b in order {
      assert b in s.techniques[t].textures;
    }
  }

  /** From s by way of m to n. */
  lemma Then(s: State, m: State, n: State, a: Reach, b: Reach, order: seq<nat>)
    requires Effect(s, m, a) && Effect(m, n, b) && Covers(s, order)
    ensures Effect(s, n, Joined(a, b)) && Covers(n, order)
  {
    Compose(s, m, n, a, b);
    CoversStays(s, n, Joined(a, b), order);
  }

  lemma LockedPieces(s: State, p: T.Pending, order: seq<nat>)
    requires Covers(s, order)
    ensures Effect(s, LockedProgramCommitted(s, p.program), NOTHING)
    ensures Effect(s, LockedVertexArrayCommitted(s, p.vertexArray, order), ArrayPart(p, s.dead))
    ensures Effect(s, TexturesCommitted(s, p.textures, order), NOTHING)
    ensures Effect(s, ElementBufferCommitted(s, p), BufferPart(p, s.dead))
  {
    AsideEffect(s, s);
    TexturesAside(s, p.textures, order);
    AsideEffect(s, TexturesCommitted(s, p.textures, order));
    if T.Locks(p.program, s.dead) {
      ProgramAside(s, p.program.value);
      AsideEffect(s, ProgramCommitted(s, p.program.value));
    }
    hide Effect, Aside;
    if T.Locks(p.vertexArray, s.dead) {
      VertexArrayEffect(s, p.vertexArray.value, order);
    }
    if p.draw.Elements? && T.Locks(p.elementArrayBuffer, s.dead) {
      BufferEffect(s, p.elementArrayBuffer.value);
    }
  }

  lemma DependenciesEffect(s: State, p: T.Pending, order: seq<nat>)
    requires Covers(s, order)
    ensures var m := DependenciesCommitted(s, p, order);
            Covers(m, order) && Effect(s, m, Joined(ArrayPart(p, s.dead), BufferPart(p, s.dead)))
  {
    var s1 := LockedProgramCommitted(s, p.program);
    var s2 := LockedVertexArrayCommitted(s1, p.vertexArray, order);
    var s3 := TexturesCommitted(s2, p.textures, order);
    var s4 := ElementBufferCommitted(s3, p);
    assert DependenciesCommitted(s, p, order) == s4;
    var va, eb := ArrayPart(p, s.dead), BufferPart(p, s.dead);
    JoinNothing(va);
    hide Covers, Effect, LockedProgramCommitted, LockedVertexArrayCommitted, TexturesCommitted, ElementBufferCommitted,
      ArrayPart, BufferPart, Joined, DependenciesCommitted;
    LockedPieces(s, p, order);
    CoversStays(s, s1, NOTHING, order);
    EffectFrame(s, s1, NOTHING);
    LockedPieces(s1, p, order);
    Then(s, s1, s2, NOTHING, va, order);
    EffectFrame(s, s2, va);
    LockedPieces(s2, p, order);
    Then(s, s2, s3, va, NOTHING, order);
    EffectFrame(s, s3, va);
    LockedPieces(s3, p, order);
    Then(s, s3, s4, va, eb, order);
  }

  lemma TechniqueEffect(s: State, t: nat, order: seq<nat>)
    requires Covers(s, order)
    ensures Effect(s, TechniqueCommitted(s, t, order), TechniqueReach(s, t))
            && Covers(TechniqueCommitted(s, t, order), order)
  {
    if t in s.techniques {
      var p := s.techniques[t];
      var m, n := DependenciesCommitted(s, p, order), TechniqueCommitted(s, t, order);
      var r := Joined(ArrayPart(p, s.dead), BufferPart(p, s.dead));
      DependenciesEffect(s, p, order);
      EffectFrame(s, m, r);
      assert n == OwnUpdatesPushed(m, t) by { hide DependenciesCommitted, Effect, UpdatesPushed; }
      OwnUpdatesEffect(m, t);
      hide Covers, Effect, DependenciesCommitted, OwnUpdatesPushed, TechniqueCommitted, ArrayPart, BufferPart, Joined;
      Then(s, m, n, r, Reach({t}, {}, {}), order);
    } else {
      AsideEffect(s, s);
    }
  }

  /** A commit does not change what a commit reaches. */
  lemma ReachStays(s: State, m: State, r: Reach, u: nat)
    requires Effect(s, m, r)
    ensures UnitReach(m, u) == UnitReach(s, u)
  {
    hide UpdatesOf, SnapshotsOf, Flushes;
  }

  lemma UnitEffect(s: State, u: nat, order: seq<nat>)
    requires Covers(s, order)
    ensures Effect(s, UnitCommitted(s, u, order), UnitReach(s, u)) && Covers(UnitCommitted(s, u, order), order)
  {
    AsideEffect(s, s);
    if u in s.units {
      var t := s.units[u];
      var m, n := if T.Locks(t, s.dead) then TechniqueCommitted(s, t.value, order) else s, UnitCommitted(s, u, order);
      var r := UnitReach(s, u);
      PushAside(m, SetTechnique(u, t));
      AsideEffect(m, Pushed(m, SetTechnique(u, t)));
      JoinNothing(r);
      assert n == Pushed(m, SetTechnique(u, t));
      hide Covers, Effect, TechniqueCommitted, Aside, Joined, TechniqueReach, UnitCommitted, Pushed;
      if T.Locks(t, s.dead) {
        TechniqueEffect(s, t.value, order);
      }
      Then(s, m, n, r, NOTHING, order);
    }
  }

  lemma {:induction false} UnitsEffect(s: State, us: seq<nat>, order: seq<nat>)
    requires Covers(s, order)
    ensures Effect(s, UnitsCommitted(s, us, order), UnitsReach(s, us)) && Covers(UnitsCommitted(s, us, order), order)
  {
    if us == [] {
      AsideEffect(s, s);
    } else {
      var n := |us| - 1;
      var m := UnitsCommitted(s, us[..n], order);
      UnitsEffect(s, us[..n], order);
      assert m.dead == s.dead;
      if us[n] !in s.dead {
        UnitEffect(m, us[n], order);
        ReachStays(s, m, UnitsReach(s, us[..n]), us[n]);
        hide Covers, Effect, UnitCommitted;
        Then(s, m, UnitCommitted(m, us[n], order), UnitsReach(s, us[..n]), UnitReach(s, us[n]), order);
      }
    }
  }

  /** The commit of a virtual object does what it reaches says, for each resource once. */
  lemma ObjectEffect(s: State, o: nat, order: seq<nat>)
    requires Covers(s, order)
    ensures Effect(s, ObjectCommitted(s, o, order), ObjectReach(s, o))
  {
    AsideEffect(s, s);
    if o in s.objects {
      var living := Living(s.objects[o], s.dead);
      var m := UnitsCommitted(s, s.objects[o], order);
      var n := Pushed(m, SetUnits(o, living));
      UnitsEffect(s, s.objects[o], order);
      PushAside(m, SetUnits(o, living));
      PushAside(n, CommitMark);
      assert Aside(m, ObjectCommitted(s, o, order)) by { hide UnitsCommitted, UpdatesOf, SnapshotsOf, Living; }
      AsideEffect(m, ObjectCommitted(s, o, order));
      hide Covers, Effect, UnitsCommitted, Aside;
      Compose(s, m, ObjectCommitted(s, o, order), ObjectReach(s, o), NOTHING);
    }
  }

  // ---- which data a commit flushes ----

  /** A vertex array's commit flushes the data of a live buffer it points into if and only if the array is damaged, or
      there was none to flush. */
  lemma VertexArrayFlushesIff(s: State, v: nat, order: seq<nat>, i: nat)
    requires Covers(s, order) && v in s.vertexArrays && i in s.vertexArrays[v].attributes
    requires BufferOf(s.vertexArrays[v].attributes, i, s.dead).Some?
    ensures var b := BufferOf(s.vertexArrays[v].attributes, i, s.dead).value;
            b !in VertexArrayCommitted(s, v, order).damagedBuffers
            <==> s.vertexArrays[v].damaged || b !in s.damagedBuffers
  {
    var b := BufferOf(s.vertexArrays[v].attributes, i, s.dead).value;
    VertexArrayEffect(s, v, order);
    assert HoldsBuffer(s, v, b);
    assert Flushes(s, Reach({}, {v}, {}), b) <==> FlushedBy(s, v, b);
  }

  /**
    On every run, the commit of an object uploads the pending data of buffer b if and only if a technique it reaches
    takes its indices from b, or a vertex array it reaches points into b and is damaged. A vertex array that is bound
    but undamaged leaves new data of its buffers behind.
   */
  lemma CommitFlushesIff(actions: seq<Action>, o: nat, order: seq<nat>, b: nat)
    requires Covers(Run(actions), order) && b in Run(actions).damagedBuffers
    ensures var s, t := Run(actions), Step(Run(actions), CommitObject(o, order));
            Uploaded(t.log, b) <==> Flushes(s, ObjectReach(s, o), b)
  {
    var s := Run(actions);
    Always(actions);
    StepInv(s, CommitObject(o, order));
    ObjectEffect(s, o, order);
    hide Flushes, ObjectReach, Ordered;
  }

  lemma ReachMore(s: State, us: seq<nat>, u: nat)
    ensures UnitsReach(s, us + [u])
         == if u in s.dead then UnitsReach(s, us) else Joined(UnitsReach(s, us), UnitReach(s, u))
  {
    assert (us + [u])[..|us|] == us;
  }

  lemma {:induction false} LivingReach(s: State, us: seq<nat>)
    ensures UnitsReach(s, Living(us, s.dead)) == UnitsReach(s, us)
  {
    if us != [] {
      var n := |us| - 1;
      LivingReach(s, us[..n]);
      assert us == us[..n] + [us[n]];
      ReachMore(s, us[..n], us[n]);
      ReachMore(s, Living(us[..n], s.dead), us[n]);
    }
  }

  lemma {:induction false} SameReach(s: State, m: State, us: seq<nat>)
    requires m.dead == s.dead && forall u :: UnitReach(m, u) == UnitReach(s, u)
    ensures UnitsReach(m, us) == UnitsReach(s, us)
  {
    if us != [] {
      SameReach(s, m, us[..|us| - 1]);
    }
  }

  /** A commit drops dead units from the object's list, and the next commit reaches the same. */
  lemma ReachAfterCommit(s: State, o: nat, order: seq<nat>)
    requires Covers(s, order)
    ensures ObjectReach(ObjectCommitted(s, o, order), o) == ObjectReach(s, o)
  {
    var m := ObjectCommitted(s, o, order);
    ObjectEffect(s, o, order);
    EffectFrame(s, m, ObjectReach(s, o));
    forall u ensures UnitReach(m, u) == UnitReach(s, u) { ReachStays(s, m, ObjectReach(s, o), u); }
    if o in s.objects {
      assert m.objects == s.objects[o := Living(s.objects[o], s.dead)];
      SameReach(s, m, m.objects[o]);
      LivingReach(s, s.objects[o]);
    }
  }

  lemma ReachedAreUndamaged(s: State, m: State, r: Reach, b: nat)
    requires Effect(s, m, r)
    ensures Flushes(m, r, b) <==> b in r.buffers
  {
    forall v | v in r.arrays ensures !FlushedBy(m, v, b) {
      FlushedLater(s, m, r, v, b);
    }
    hide FlushedBy;
  }

  lemma NewDataIrrelevant(s: State, b: nat, target: nat, o: nat, c: nat)
    ensures var t := Step(s, GlBufferData(b, target));
            ObjectReach(t, o) == ObjectReach(s, o) && forall r :: Flushes(t, r, c) == Flushes(s, r, c)
  {
    var t := Step(s, GlBufferData(b, target));
    assert forall u :: UnitReach(t, u) == UnitReach(s, u);
    if o in s.objects {
      SameReach(s, t, s.objects[o]);
    }
    assert forall v :: FlushedBy(t, v, c) == FlushedBy(s, v, c);
    hide FlushedBy, UnitsReach;
  }

  /** New data right after a commit of the object: the next commit uploads it if and only if it is drawn from. Vertex
      arrays never bring it. */
  lemma NewDataUploadedIff(actions: seq<Action>, o: nat, order: seq<nat>, b: nat, target: nat)
    requires Covers(Run(actions), order)
    ensures var more := actions + [CommitObject(o, order), GlBufferData(b, target), CommitObject(o, order)];
            Uploaded(Run(more).log, b) <==> b in ObjectReach(Run(actions), o).buffers
  {
    var a1 := actions + [CommitObject(o, order)];
    var a2 := a1 + [GlBufferData(b, target)];
    var s := Run(actions);
    var s1 := ObjectCommitted(s, o, order);
    var s2 := Step(s1, GlBufferData(b, target));
    assert a1[..|actions|] == actions && a2[..|a1|] == a1 && Run(a1) == s1 && Run(a2) == s2;
    var more := actions + [CommitObject(o, order), GlBufferData(b, target), CommitObject(o, order)];
    assert more[..|a2|] == a2 && Run(more) == Step(s2, CommitObject(o, order));
    ObjectEffect(s, o, order);
    CoversStays(s, s1, ObjectReach(s, o), order);
    ReachAfterCommit(s, o, order);
    ReachedAreUndamaged(s, s1, ObjectReach(s, o), b);
    NewDataIrrelevant(s1, b, target, o, b);
    assert Covers(s2, order) && b in s2.damagedBuffers;
    CommitFlushesIff(a2, o, order, b);
  }

  /** An object whose technique has a vertex array with one attribute, which points into a buffer with data. */
  function Setup(p: V.Pointer, b: nat, target: nat): seq<Action> {
    [NewObject(0), NewUnit(1, 0), NewTechnique(2, 1), NewVertexArray(3), CallTechnique(2, T.BindVertexArray(Some(3)))]
    + [GlBufferData(b, target), SetAttribute(3, V.GlVertexAttribPointer(0, p))]
  }

  lemma RunMore(actions: seq<Action>, a: Action)
    ensures Run(actions + [a]) == Step(Run(actions), a)
  {
    assert (actions + [a])[..|actions|] == actions;
  }

  lemma SetupStart()
    ensures var a4 := [NewObject(0), NewUnit(1, 0), NewTechnique(2, 1), NewVertexArray(3)];
            Run(a4) == State({}, map[], {}, map[], map[3 := V.Pending(map[], false)], {}, map[2 := T.BLANK],
                             map[1 := Some(2)],
                             map[0 := [1]], [])
  {
    var a1: seq<Action> := [NewObject(0)];
    var a2 := a1 + [NewUnit(1, 0)];
    var a3 := a2 + [NewTechnique(2, 1)];
    assert [] + [NewObject(0)] == a1;
    assert a3 + [NewVertexArray(3)] == [NewObject(0), NewUnit(1, 0), NewTechnique(2, 1), NewVertexArray(3)];
    RunMore([], NewObject(0));
    RunMore(a1, NewUnit(1, 0));
    RunMore(a2, NewTechnique(2, 1));
    RunMore(a3, NewVertexArray(3));
    assert Run([]) == Start();
    hide Run;
    assert Run(a1) == Start().(objects := map[0 := []]);
    var empty: seq<nat> := [];
    assert empty + [1] == [1] && map[0 := empty][0 := [1 as nat]] == map[0 := [1]];
    assert Run(a2) == Start().(objects := map[0 := [1]], units := map[1 := None]);
  }

  lemma SetupRun(p: V.Pointer, b: nat, target: nat)
    ensures var s := Run(Setup(p, b, target));
            && s.dead == {} && s.objects == map[0 := [1]] && s.units == map[1 := Some(2)]
            && s.techniques == map[2 := T.BLANK.(vertexArray := Some(3), vertexArrayDamaged := true)]
            && s.vertexArrays == map[3 := V.Pending(map[0 := V.Attrib(Some(p), false, true)], true)]
            && s.damagedBuffers == map[b := target]
  {
    var a4 := [NewObject(0), NewUnit(1, 0), NewTechnique(2, 1), NewVertexArray(3)];
    var bind, setter := CallTechnique(2, T.BindVertexArray(Some(3))), SetAttribute(3, V.GlVertexAttribPointer(0, p));
    SetupStart();
    RunMore(a4, bind);
    RunMore(a4 + [bind], GlBufferData(b, target));
    RunMore(a4 + [bind] + [GlBufferData(b, target)], setter);
    assert Setup(p, b, target) == a4 + [bind] + [GlBufferData(b, target)] + [setter];
    hide Run;
    var s5 := Run(a4 + [bind]);
    assert s5.techniques == map[2 := T.BLANK.(vertexArray := Some(3), vertexArrayDamaged := true)];
    assert s5.(techniques := Run(a4).techniques) == Run(a4);
  }

  lemma SetupReach(s: State, p: V.Pointer, b: nat)
    requires s.dead == {} && s.objects == map[0 := [1]] && s.units == map[1 := Some(2)] && p.buffer == Some(b)
    requires s.techniques == map[2 := T.BLANK.(vertexArray := Some(3), vertexArrayDamaged := true)]
    requires s.vertexArrays == map[3 := V.Pending(map[0 := V.Attrib(Some(p), false, true)], true)]
    ensures ObjectReach(s, 0) == Reach({2}, {3}, {}) && HoldsBuffer(s, 3, b) && Flushes(s, ObjectReach(s, 0), b)
  {
    var t := s.techniques[2];
    assert ArrayPart(t, s.dead) == Reach({}, {3}, {}) && BufferPart(t, s.dead) == NOTHING;
    JoinNothing(Reach({}, {3}, {}));
    var unit := UnitReach(s, 1);
    assert unit.techniques == {2} && unit.arrays == {3} && unit.buffers == {};
    ReachMore(s, [], 1);
    assert [] + [1] == [1];
    JoinNothing(unit);
    assert BufferOf(s.vertexArrays[3].attributes, 0, s.dead) == Some(b);
    assert FlushedBy(s, 3, b);
  }

  lemma HoldsStays(s: State, m: State, r: Reach, v: nat, b: nat)
    requires Effect(s, m, r)
    ensures HoldsBuffer(m, v, b) == HoldsBuffer(s, v, b)
  {
    if v in s.vertexArrays {
      CommitKeepsPointers(s.vertexArrays[v], s.dead, b);
    }
    hide Points, UpdatesOf, SnapshotsOf, Flushes;
  }

  lemma {:induction false} DataKept(log: seq<Event>, more: seq<Event>)
    requires log <= more && forall i | |log| <= i < |more| :: !more[i].DataSet?
    ensures DataTargets(more) == DataTargets(log)
  {
    if |more| > |log| {
      DataKept(log, more[..|more| - 1]);
    } else {
      assert more == log;
    }
  }

  /** Where a commit leaves no data of b behind, the pending data has been uploaded, for its target. */
  lemma PendingDataUploaded(actions: seq<Action>, o: nat, order: seq<nat>, b: nat)
    requires o in Run(actions).objects && Covers(Run(actions), order) && b in Run(actions).damagedBuffers
    requires Uploaded(Step(Run(actions), CommitObject(o, order)).log, b)
    ensures Lookup(UploadTargets(Step(Run(actions), CommitObject(o, order)).log), b)
         == Some(Run(actions).damagedBuffers[b])
  {
    var s, t := Run(actions), Step(Run(actions), CommitObject(o, order));
    hide Step, Run;
    Always(actions);
    StepInv(s, CommitObject(o, order));
    CommitIsOneBatch(actions, o, order);
    DataKept(s.log, t.log);
    UploadedTarget(t.log, b);
  }

  /** Data, attribute, commit, new data, commit: the first data is uploaded and the second never is, although the buffer
      is alive and the vertex array in use points into it. */
  lemma SecondDataIsLeftBehind(p: V.Pointer, b: nat, target: nat)
    requires p.buffer == Some(b)
    ensures var commit := CommitObject(0, [0]);
            var first := Run(Setup(p, b, target) + [commit]);
            var second := Run(Setup(p, b, target) + [commit, GlBufferData(b, target), commit]);
            && Lookup(UploadTargets(first.log), b) == Some(target) && Uploaded(first.log, b)
            && HoldsBuffer(second, 3, b) && b !in second.dead && !Uploaded(second.log, b)
  {
    var setup, commit := Setup(p, b, target), CommitObject(0, [0]);
    var s := Run(setup);
    SetupRun(p, b, target);
    SetupReach(s, p, b);
    assert 0 in [0] && Covers(s, [0]);
    hide Setup, Run;
    RunMore(setup, commit);
    CommitFlushesIff(setup, 0, [0], b);
    PendingDataUploaded(setup, 0, [0], b);
    NewDataUploadedIff(setup, 0, [0], b, target);
    SecondDataRun(setup, [0], b, target);
  }

  lemma SecondDataRun(setup: seq<Action>, order: seq<nat>, b: nat, target: nat)
    requires Covers(Run(setup), order) && HoldsBuffer(Run(setup), 3, b)
    ensures var second := Run(setup + [CommitObject(0, order), GlBufferData(b, target), CommitObject(0, order)]);
            HoldsBuffer(second, 3, b) && second.dead == Run(setup).dead
  {
    var commit := CommitObject(0, order);
    var s := Run(setup);
    var s1 := ObjectCommitted(s, 0, order);
    var s2 := Step(s1, GlBufferData(b, target));
    RunMore(setup, commit);
    RunMore(setup + [commit], GlBufferData(b, target));
    RunMore(setup + [commit] + [GlBufferData(b, target)], commit);
    assert setup + [commit] + [GlBufferData(b, target)] + [commit] == setup + [commit, GlBufferData(b, target), commit];
    ObjectEffect(s, 0, order);
    CoversStays(s, s1, ObjectReach(s, 0), order);
    HoldsStays(s, s1, ObjectReach(s, 0), 3, b);
    assert Covers(s2, order) && HoldsBuffer(s2, 3, b) == HoldsBuffer(s1, 3, b);
    ObjectEffect(s2, 0, order);
    HoldsStays(s2, ObjectCommitted(s2, 0, order), ObjectReach(s2, 0), 3, b);
  }
}
