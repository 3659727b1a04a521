/** The recursive commit of a virtual object and the order of the commands it pushes. */
module Scene {
  import opened Options
  import VertexArray
  import BaseTechnique

  /** Where a virtual object stands, and its quaternion. */
  datatype Pose = Pose(position: (real, real, real), rotation: (real, real, real, real))

  const UNMOVED := Pose((0.0, 0.0, 0.0), (1.0, 0.0, 0.0, 0.0))

  /** The history of a session: the three requests whose answer is awaited, and every queue entry. */
  datatype Event =
    | DataSet(buffer: nat, target: nat)  // GlBufferData was called
    | LinkAsked(program: nat)            // GlLinkProgram was called
    | TextureChanged(texture: nat)       // an image or mipmap call was made
    | Upload(buffer: nat, target: nat)
    | Compile(shader: nat)
    | Link(program: nat, shaders: seq<nat>)
    | UpdateAttributes(vertexArray: nat, attributes: VertexArray.Attributes)
    | UpdateTexture(texture: nat)
    | UpdateSampler(sampler: nat)
    | UpdateTechnique(technique: nat, update: BaseTechnique.Update)
    | SetTechnique(renderingUnit: nat, weak: Option<nat>)
    | SetUnits(virtualObject: nat, units: seq<nat>)
    | SetPose(virtualObject: nat, pose: Pose)
    | Release(id: nat)                   // pushed by a destructor
    | CommitMark

  datatype Program = Program(shaders: seq<nat>, shouldLink: bool)

  /** Pending state of all resources; `dead` holds the ids whose weak pointers no longer lock. A damaged buffer has the
      target of its pending data. */
  datatype State = State(
    dead: set<nat>,
    damagedBuffers: map<nat, nat>,
    committedShaders: set<nat>,
    programs: map<nat, Program>,
    vertexArrays: map<nat, VertexArray.Pending>,
    dirtyTextures: set<nat>,
    techniques: map<nat, BaseTechnique.Pending>,
    units: map<nat, Option<nat>>,
    objects: map<nat, seq<nat>>,
    log: seq<Event>)

  function Pushed(s: State, e: Event): State { s.(log := s.log + [e]) }

  function BufferCommitted(s: State, b: nat): State {
    if b !in s.damagedBuffers then s
    else Pushed(s, Upload(b, s.damagedBuffers[b])).(damagedBuffers := s.damagedBuffers - {b})
  }

  function ShaderCommitted(s: State, shader: nat): State {
    if shader in s.committedShaders then s
    else Pushed(s, Compile(shader)).(committedShaders := s.committedShaders + {shader})
  }

  function ShadersCommitted(s: State, shaders: seq<nat>): State {
    if shaders == [] then s
    else
      var before, last := ShadersCommitted(s, shaders[..|shaders| - 1]), shaders[|shaders| - 1];
      if last in s.dead then before else ShaderCommitted(before, last)
  }

  function ProgramCommitted(s: State, p: nat): State {
    if p !in s.programs || s.programs[p].shouldLink == false then s
    else
      var shaders := s.programs[p].shaders;
      Pushed(ShadersCommitted(s, shaders), Link(p, shaders)).(programs := s.programs[p := Program([], false)])
  }

  /** The buffer an attribute's weak pointer locks to. */
  function BufferOf(attributes: VertexArray.Attributes, i: nat, dead: set<nat>): Option<nat> {
    var a := VertexArray.Entry(attributes, i);
    if a.pointer.Some? && VertexArray.Locks(a.pointer.value, dead) then a.pointer.value.buffer else None
  }

  /** `order` is the iteration order of the hash maps: any sequence that covers their keys. */
  function AttributeBuffersCommitted(s: State, attributes: VertexArray.Attributes, order: seq<nat>): State {
    if order == [] then s
    else
      var before := AttributeBuffersCommitted(s, attributes, order[..|order| - 1]);
      var b := BufferOf(attributes, order[|order| - 1], s.dead);
      if b.None? then before else BufferCommitted(before, b.value)
  }

  function VertexArrayCommitted(s: State, v: nat, order: seq<nat>): State {
    if v !in s.vertexArrays || s.vertexArrays[v].damaged == false then s
    else
      var p := s.vertexArrays[v];
      Pushed(AttributeBuffersCommitted(s, p.attributes, order), UpdateAttributes(v, p.attributes))
        .(vertexArrays := s.vertexArrays[v := VertexArray.PendingAfterCommit(p)])
  }

  function TextureCommitted(s: State, t: nat): State {
    if t !in s.dirtyTextures then s
    else Pushed(s, UpdateTexture(t)).(dirtyTextures := s.dirtyTextures - {t})
  }

  function BindingCommitted(s: State, t: BaseTechnique.Texture): State {
    var s1 := if BaseTechnique.Locks(t.texture, s.dead) then TextureCommitted(s, t.texture.value) else s;
    if BaseTechnique.Locks(t.sampler, s.dead) then Pushed(s1, UpdateSampler(t.sampler.value)) else s1
  }

  function TexturesCommitted(s: State, textures: map<nat, BaseTechnique.Texture>, order: seq<nat>): State {
    if order == [] then s
    else
      var before, last := TexturesCommitted(s, textures, order[..|order| - 1]), order[|order| - 1];
      if last in textures then BindingCommitted(before, textures[last]) else before
  }

  function UpdatesPushed(s: State, t: nat, us: seq<BaseTechnique.Update>): State {
    if us == [] then s
    else Pushed(UpdatesPushed(s, t, us[..|us| - 1]), UpdateTechnique(t, us[|us| - 1]))
  }

  function LockedProgramCommitted(s: State, program: Option<nat>): State {
    if BaseTechnique.Locks(program, s.dead) then ProgramCommitted(s, program.value) else s
  }

  function LockedVertexArrayCommitted(s: State, va: Option<nat>, order: seq<nat>): State {
    if BaseTechnique.Locks(va, s.dead) then VertexArrayCommitted(s, va.value, order) else s
  }

  function ElementBufferCommitted(s: State, p: BaseTechnique.Pending): State {
    if p.draw.Elements? && BaseTechnique.Locks(p.elementArrayBuffer, s.dead)
    then BufferCommitted(s, p.elementArrayBuffer.value) else s
  }

  /** The resources a technique commits before its own state. */
  function DependenciesCommitted(s: State, p: BaseTechnique.Pending, order: seq<nat>): State {
    var s1 := LockedProgramCommitted(s, p.program);
    var s2 := LockedVertexArrayCommitted(s1, p.vertexArray, order);
    ElementBufferCommitted(TexturesCommitted(s2, p.textures, order), p)
  }

  function TechniqueCommitted(s: State, t: nat, order: seq<nat>): State {
    if t !in s.techniques then s
    else
      var p := s.techniques[t];
      UpdatesPushed(DependenciesCommitted(s, p, order), t, BaseTechnique.CommandsOfCommit(p, s.dead))
        .(techniques := s.techniques[t := BaseTechnique.PendingAfterCommit(p, s.dead)])
  }

  function UnitCommitted(s: State, u: nat, order: seq<nat>): State {
    if u !in s.units then s
    else
      var t := s.units[u];
      var s1 := if BaseTechnique.Locks(t, s.dead) then TechniqueCommitted(s, t.value, order) else s;
      Pushed(s1, SetTechnique(u, t))
  }

  function Living(ids: seq<nat>, dead: set<nat>): seq<nat> {
    if ids == [] then []
    else
      var before, last := Living(ids[..|ids| - 1], dead), ids[|ids| - 1];
      if last in dead then before else before + [last]
  }

  function UnitsCommitted(s: State, us: seq<nat>, order: seq<nat>): State {
    if us == [] then s
    else
      var before, last := UnitsCommitted(s, us[..|us| - 1], order), us[|us| - 1];
      if last in s.dead then before else UnitCommitted(before, last, order)
  }

  /** VirtualObject::Commit: dead units are erased from the list on the way. */
  function ObjectCommitted(s: State, o: nat, order: seq<nat>): State {
    if o !in s.objects then s
    else
      var living := Living(s.objects[o], s.dead);
      var s1 := UnitsCommitted(s, s.objects[o], order);
      Pushed(Pushed(s1, SetUnits(o, living)), CommitMark).(objects := s.objects[o := living])
  }

  /** The resources of a session and the commit methods that walk them. */
  class Resources {
    var dead: set<nat>
    var damagedBuffers: map<nat, nat>
    var committedShaders: set<nat>
    var programs: map<nat, Program>
    var vertexArrays: map<nat, VertexArray.Pending>
    var dirtyTextures: set<nat>
    var techniques: map<nat, BaseTechnique.Pending>
    var units: map<nat, Option<nat>>
    var objects: map<nat, seq<nat>>
    var log: seq<Event>

    ghost function Value(): State
      reads this
    {
      State(dead, damagedBuffers, committedShaders, programs, vertexArrays, dirtyTextures, techniques, units,
            objects, log)
    }

    method CommitBuffer(b: nat)
      modifies this`log, this`damagedBuffers
      ensures Value() == BufferCommitted(old(Value()), b)
    {
      if b !in damagedBuffers {
        return;
      }
      log := log + [Upload(b, damagedBuffers[b])];
      damagedBuffers := damagedBuffers - {b};
    }

    method CommitShader(shader: nat)
      modifies this`log, this`committedShaders
      ensures Value() == ShaderCommitted(old(Value()), shader)
    {
      if shader in committedShaders {
        return;
      }
      committedShaders := committedShaders + {shader};
      log := log + [Compile(shader)];
    }

    method CommitProgram(p: nat)
      requires p in programs
      modifies this`log, this`committedShaders, this`programs
      ensures Value() == ProgramCommitted(old(Value()), p)
    {
      if programs[p].shouldLink == false {
        return;
      }
      var shaders := programs[p].shaders;
      var i := 0;
      while i < |shaders|
        invariant 0 <= i <= |shaders| && Value() == ShadersCommitted(old(Value()), shaders[..i])
        invariant programs == old(programs)
      {
        assert shaders[..i + 1][..i] == shaders[..i];
        if shaders[i] !in dead {
          CommitShader(shaders[i]);
        }
        i := i + 1;
      }
      assert shaders[..i] == shaders;
      log := log + [Link(p, shaders)];
      programs := programs[p := Program([], false)];
    }

    method CommitVertexArray(v: nat, order: seq<nat>)
      requires v in vertexArrays
      modifies this`log, this`damagedBuffers, this`vertexArrays
      ensures Value() == VertexArrayCommitted(old(Value()), v, order)
    {
      if vertexArrays[v].damaged == false {
        return;
      }
      var attributes := vertexArrays[v].attributes;
      var i := 0;
      while i < |order|
        invariant 0 <= i <= |order| && Value() == AttributeBuffersCommitted(old(Value()), attributes, order[..i])
        invariant vertexArrays == old(vertexArrays)
      {
        assert order[..i + 1][..i] == order[..i];
        var b := BufferOf(attributes, order[i], dead);
        if b.Some? {
          CommitBuffer(b.value);
        }
        i := i + 1;
      }
      assert order[..i] == order;
      log := log + [UpdateAttributes(v, attributes)];
      vertexArrays := vertexArrays[v := VertexArray.PendingAfterCommit(vertexArrays[v])];
    }

    method CommitTextures(textures: map<nat, BaseTechnique.Texture>, order: seq<nat>)
      modifies this`log, this`dirtyTextures
      ensures Value() == TexturesCommitted(old(Value()), textures, order)
    {
      var i := 0;
      while i < |order|
        invariant 0 <= i <= |order| && Value() == TexturesCommitted(old(Value()), textures, order[..i])
      {
        assert order[..i + 1][..i] == order[..i];
        if order[i] in textures {
          var t := textures[order[i]];
          if BaseTechnique.Locks(t.texture, dead) && t.texture.value in dirtyTextures {
            log := log + [UpdateTexture(t.texture.value)];
            dirtyTextures := dirtyTextures - {t.texture.value};
          }
          if BaseTechnique.Locks(t.sampler, dead) {
            log := log + [UpdateSampler(t.sampler.value)];
          }
        }
        i := i + 1;
      }
      assert order[..i] == order;
    }

    method PushUpdates(t: nat, us: seq<BaseTechnique.Update>)
      modifies this`log
      ensures Value() == UpdatesPushed(old(Value()), t, us)
    {
      var i := 0;
      while i < |us|
        invariant 0 <= i <= |us| && Value() == UpdatesPushed(old(Value()), t, us[..i])
      {
        assert us[..i + 1][..i] == us[..i];
        log := log + [UpdateTechnique(t, us[i])];
        i := i + 1;
      }
      assert us[..i] == us;
    }

    method CommitDependencies(p: BaseTechnique.Pending, order: seq<nat>)
      modifies this`log, this`damagedBuffers, this`committedShaders, this`programs, this`vertexArrays,
               this`dirtyTextures
      ensures Value() == DependenciesCommitted(old(Value()), p, order)
    {
      if BaseTechnique.Locks(p.program, dead) && p.program.value in programs {
        CommitProgram(p.program.value);
      }
      assert Value() == LockedProgramCommitted(old(Value()), p.program);
      if BaseTechnique.Locks(p.vertexArray, dead) && p.vertexArray.value in vertexArrays {
        CommitVertexArray(p.vertexArray.value, order);
      }
      assert Value()
          == LockedVertexArrayCommitted(LockedProgramCommitted(old(Value()), p.program), p.vertexArray, order);
      CommitTextures(p.textures, order);
      if p.draw.Elements? && BaseTechnique.Locks(p.elementArrayBuffer, dead) {
        CommitBuffer(p.elementArrayBuffer.value);
      }
    }

    method CommitTechnique(t: nat, order: seq<nat>)
      requires t in techniques
      modifies this`log, this`damagedBuffers, this`committedShaders, this`programs, this`vertexArrays,
               this`dirtyTextures, this`techniques
      ensures Value() == TechniqueCommitted(old(Value()), t, order)
    {
      var p := techniques[t];
      CommitDependencies(p, order);
      PushUpdates(t, BaseTechnique.CommandsOfCommit(p, dead));
      techniques := techniques[t := BaseTechnique.PendingAfterCommit(p, dead)];
    }

    method CommitUnit(u: nat, order: seq<nat>)
      requires u in units
      modifies this`log, this`damagedBuffers, this`committedShaders, this`programs, this`vertexArrays,
               this`dirtyTextures, this`techniques
      ensures Value() == UnitCommitted(old(Value()), u, order)
    {
      var t := units[u];
      if BaseTechnique.Locks(t, dead) && t.value in techniques {
        CommitTechnique(t.value, order);
      }
      log := log + [SetTechnique(u, t)];
    }

    /** The walk erases units whose weak pointer no longer locks. */
    method CommitObject(o: nat, order: seq<nat>)
      requires o in objects
      modifies this`log, this`damagedBuffers, this`committedShaders, this`programs, this`vertexArrays,
               this`dirtyTextures, this`techniques, this`objects
      ensures Value() == ObjectCommitted(old(Value()), o, order)
    {
      var us := objects[o];
      var kept, i := [], 0;
      while i < |us|
        invariant 0 <= i <= |us| && kept == Living(us[..i], dead)
        invariant Value() == UnitsCommitted(old(Value()), us[..i], order)
        invariant objects == old(objects)
      {
        assert us[..i + 1][..i] == us[..i];
        if us[i] !in dead {
          if us[i] in units {
            CommitUnit(us[i], order);
          }
          kept := kept + [us[i]];
        }
        i := i + 1;
      }
      assert us[..i] == us;
      log := log + [SetUnits(o, kept)] + [CommitMark];
      objects := objects[o := kept];
    }
  }

  // ---- what order the history must have ----

  predicate IsData(e: Event, b: nat) { e.DataSet? && e.buffer == b }
  predicate IsUpload(e: Event, b: nat) { e.Upload? && e.buffer == b }

  /** For each buffer with a GlBufferData in the history, the target of the last one. */
  function DataTargets(log: seq<Event>): map<nat, nat> {
    if log == [] then map[]
    else
      var before, last := DataTargets(log[..|log| - 1]), log[|log| - 1];
      if last.DataSet? then before[last.buffer := last.target] else before
  }

  /** For each buffer with an upload in the history, the target of the last one. */
  function UploadTargets(log: seq<Event>): map<nat, nat> {
    if log == [] then map[]
    else
      var before, last := UploadTargets(log[..|log| - 1]), log[|log| - 1];
      if last.Upload? then before[last.buffer := last.target] else before
  }

  function Lookup(targets: map<nat, nat>, b: nat): Option<nat> { if b in targets then Some(targets[b]) else None }

  /** The resources destroyed in this history. */
  function DeadIn(log: seq<Event>): set<nat> {
    if log == [] then {}
    else
      var before, last := DeadIn(log[..|log| - 1]), log[|log| - 1];
      if last.Release? then before + {last.id} else before
  }

  /** Since the last GlBufferData of b there has been an upload of b. */
  predicate Uploaded(log: seq<Event>, b: nat) {
    log == [] || IsUpload(log[|log| - 1], b)
    || (!IsData(log[|log| - 1], b) && Uploaded(log[..|log| - 1], b))
  }

  /** Since the last GlLinkProgram of p there has been a link command of p. */
  predicate Linked(log: seq<Event>, p: nat) {
    log == [] || (log[|log| - 1].Link? && log[|log| - 1].program == p)
    || (log[|log| - 1] != LinkAsked(p) && Linked(log[..|log| - 1], p))
  }

  /** Since the last call on texture t there has been its update. */
  predicate TextureCurrent(log: seq<Event>, t: nat) {
    log == [] || log[|log| - 1] == UpdateTexture(t)
    || (log[|log| - 1] != TextureChanged(t) && TextureCurrent(log[..|log| - 1], t))
  }

  predicate BindingJustified(before: seq<Event>, t: BaseTechnique.Texture, dead: set<nat>) {
    && (BaseTechnique.Locks(t.texture, dead) ==> TextureCurrent(before, t.texture.value))
    && (BaseTechnique.Locks(t.sampler, dead) ==> UpdateSampler(t.sampler.value) in before)
  }

  ghost predicate UpdateJustified(before: seq<Event>, u: BaseTechnique.Update, dead: set<nat>) {
    && (u.AddUniforms? && u.issuedFor !in dead ==> Linked(before, u.issuedFor))
    && (u.SetDraw? && u.draw.Elements? && BaseTechnique.Locks(u.elementArrayBuffer, dead) ==>
          Uploaded(before, u.elementArrayBuffer.value))
    && (u.SetTextures? ==> forall b | b in u.textures :: BindingJustified(before, u.textures[b], dead))
  }

  /** What a command's execution relies on has been pushed before it. */
  ghost predicate Justified(before: seq<Event>, e: Event, dead: set<nat>) {
    match e
    case Link(p, shaders) =>
      && LinkAsked(p) in before
      && (forall k | 0 <= k < |shaders| && shaders[k] !in dead :: Compile(shaders[k]) in before)
    case UpdateAttributes(_, attributes) =>
      forall i: nat :: BufferOf(attributes, i, dead).Some? ==> Uploaded(before, BufferOf(attributes, i, dead).value)
    case UpdateTechnique(_, update) => UpdateJustified(before, update, dead)
    case Upload(b, target) => Lookup(DataTargets(before), b) == Some(target)
    case _ => true
  }

  /** Every entry is justified by those before it, as far as resources go that were alive when it was pushed. */
  ghost predicate Ordered(log: seq<Event>) {
    log == [] || (Ordered(log[..|log| - 1]) && Justified(log[..|log| - 1], log[|log| - 1], DeadIn(log[..|log| - 1])))
  }

  ghost predicate Inv(s: State) {
    && Ordered(s.log) && s.dead == DeadIn(s.log)
    && (forall b: nat :: b !in s.damagedBuffers <==> Uploaded(s.log, b))
    && (forall b | b in s.damagedBuffers :: Lookup(DataTargets(s.log), b) == Some(s.damagedBuffers[b]))
    && (forall shader | shader in s.committedShaders :: Compile(shader) in s.log)
    && (forall t: nat | t !in s.dirtyTextures :: TextureCurrent(s.log, t))
    && (forall p: nat | p !in s.programs || !s.programs[p].shouldLink :: Linked(s.log, p))
    && (forall p: nat | p in s.programs && s.programs[p].shouldLink :: LinkAsked(p) in s.log)
  }

  lemma Snoc(log: seq<Event>, e: Event)
    ensures (log + [e])[..|log|] == log && (log + [e])[|log|] == e
    ensures forall x :: x in log + [e] <==> x in log || x == e
  {
  }

  /** What one more entry does to each of the histories. */
  lemma OneMore(log: seq<Event>, e: Event)
    ensures forall b :: Uploaded(log + [e], b) <==> IsUpload(e, b) || (!IsData(e, b) && Uploaded(log, b))
    ensures DataTargets(log + [e]) == if e.DataSet? then DataTargets(log)[e.buffer := e.target] else DataTargets(log)
    ensures UploadTargets(log + [e])
         == if e.Upload? then UploadTargets(log)[e.buffer := e.target] else UploadTargets(log)
    ensures DeadIn(log + [e]) == if e.Release? then DeadIn(log) + {e.id} else DeadIn(log)
    ensures forall t :: TextureCurrent(log + [e], t)
                   <==> e == UpdateTexture(t) || (e != TextureChanged(t) && TextureCurrent(log, t))
    ensures forall p :: Linked(log + [e], p) <==> (e.Link? && e.program == p) || (e != LinkAsked(p) && Linked(log, p))
    ensures Ordered(log + [e]) <==> Ordered(log) && Justified(log, e, DeadIn(log))
    ensures forall x :: x in log + [e] <==> x in log || x == e
  {
    Snoc(log, e);
  }

  predicate IsCommand(e: Event) { !e.DataSet? && !e.LinkAsked? && !e.TextureChanged? && !e.CommitMark? }

  /** t came from s by pushing commands, without a mark and without touching the units. */
  predicate Pushes(s: State, t: State) {
    && s.log <= t.log && (forall i | |s.log| <= i < |t.log| :: IsCommand(t.log[i]))
    && t.dead == s.dead && t.units == s.units && t.objects == s.objects
  }

  /** Moreover it damaged nothing and asked for no link. */
  predicate Settles(s: State, t: State) {
    && Pushes(s, t)
    && t.damagedBuffers.Keys <= s.damagedBuffers.Keys && t.dirtyTextures <= s.dirtyTextures
    && s.committedShaders <= t.committedShaders
    && t.programs.Keys == s.programs.Keys
    && (forall p | p in s.programs && !s.programs[p].shouldLink :: !t.programs[p].shouldLink)
  }

  lemma SettlesTrans(s: State, t: State, u: State)
    requires Settles(s, t) && Settles(t, u)
    ensures Settles(s, u)
  {
    assert u.log[..|t.log|] == t.log;
  }

  lemma PushInv(s: State, e: Event)
    requires Inv(s) && Justified(s.log, e, s.dead) && IsCommand(e) && !e.Upload? && !e.Release?
    ensures Inv(Pushed(s, e)) && Settles(s, Pushed(s, e))
  {
    OneMore(s.log, e);
    hide Uploaded, TextureCurrent, Linked, DataTargets, UploadTargets, DeadIn, Ordered, Justified;
  }

  /** A command that relies on nothing. */
  predicate IsPlain(e: Event) {
    IsCommand(e) && !e.Link? && !e.UpdateAttributes? && !e.UpdateTechnique? && !e.Upload? && !e.Release?
  }

  lemma PushPlain(s: State, e: Event)
    requires Inv(s) && IsPlain(e)
    ensures Inv(Pushed(s, e)) && Settles(s, Pushed(s, e))
  {
    PushInv(s, e);
  }

  lemma BufferInv(s: State, b: nat)
    requires Inv(s)
    ensures Inv(BufferCommitted(s, b)) && Settles(s, BufferCommitted(s, b))
            && b !in BufferCommitted(s, b).damagedBuffers
  {
    hide Uploaded, TextureCurrent, Linked, DataTargets, UploadTargets, DeadIn, Ordered;
    if b in s.damagedBuffers {
      OneMore(s.log, Upload(b, s.damagedBuffers[b]));
    }
  }

  lemma ShaderInv(s: State, shader: nat)
    requires Inv(s)
    ensures Inv(ShaderCommitted(s, shader)) && Settles(s, ShaderCommitted(s, shader))
    ensures shader in ShaderCommitted(s, shader).committedShaders
  {
    if shader !in s.committedShaders {
      PushInv(s, Compile(shader));
      Snoc(s.log, Compile(shader));
    }
  }

  lemma {:induction false} ShadersInv(s: State, shaders: seq<nat>)
    requires Inv(s)
    ensures var t := ShadersCommitted(s, shaders);
            && Inv(t) && Settles(s, t)
            && t == s.(log := t.log, committedShaders := t.committedShaders)
            && forall k | 0 <= k < |shaders| && shaders[k] !in s.dead :: shaders[k] in t.committedShaders
  {
    hide Inv;
    if shaders != [] {
      var n := |shaders| - 1;
      var t := ShadersCommitted(s, shaders[..n]);
      ShadersInv(s, shaders[..n]);
      ShaderInv(t, shaders[n]);
      SettlesTrans(s, t, ShaderCommitted(t, shaders[n]));
    }
  }

  lemma LinkInv(s: State, p: nat, shaders: seq<nat>)
    requires Inv(s) && p in s.programs && s.programs[p].shouldLink
    requires forall k | 0 <= k < |shaders| && shaders[k] !in s.dead :: shaders[k] in s.committedShaders
    ensures var t := Pushed(s, Link(p, shaders)).(programs := s.programs[p := Program([], false)]);
            Inv(t) && Settles(s, t)
  {
    hide Uploaded, TextureCurrent, Linked, DataTargets, UploadTargets, DeadIn, Ordered;
    PushInv(s, Link(p, shaders));
    OneMore(s.log, Link(p, shaders));
  }

  lemma ProgramInv(s: State, p: nat)
    requires Inv(s)
    ensures var t := ProgramCommitted(s, p);
            && Inv(t) && Settles(s, t) && (p in t.programs ==> !t.programs[p].shouldLink)
            && t.vertexArrays == s.vertexArrays && t.techniques == s.techniques
  {
    hide Inv;
    if p in s.programs && s.programs[p].shouldLink {
      var shaders := s.programs[p].shaders;
      var t := ShadersCommitted(s, shaders);
      ShadersInv(s, shaders);
      LinkInv(t, p, shaders);
      SettlesTrans(s, t, ProgramCommitted(s, p));
    }
  }

  lemma {:induction false} AttributeBuffersInv(s: State, attributes: VertexArray.Attributes, order: seq<nat>)
    requires Inv(s)
    ensures var t := AttributeBuffersCommitted(s, attributes, order);
            && Inv(t) && Settles(s, t)
            && t == s.(log := t.log, damagedBuffers := t.damagedBuffers)
            && forall k | 0 <= k < |order| && BufferOf(attributes, order[k], s.dead).Some? ::
                 BufferOf(attributes, order[k], s.dead).value !in t.damagedBuffers
  {
    hide Inv;
    if order != [] {
      var n := |order| - 1;
      var t := AttributeBuffersCommitted(s, attributes, order[..n]);
      AttributeBuffersInv(s, attributes, order[..n]);
      var b := BufferOf(attributes, order[n], s.dead);
      if b.Some? {
        BufferInv(t, b.value);
        SettlesTrans(s, t, BufferCommitted(t, b.value));
      }
    }
  }

  /** The order visits every attribute of every vertex array and every texture binding of every technique. */
  predicate Covers(s: State, order: seq<nat>) {
    && (forall v, i | v in s.vertexArrays && i in s.vertexArrays[v].attributes :: i in order)
    && (forall t, b | t in s.techniques && b in s.techniques[t].textures :: b in order)
  }

  lemma UpdateAttributesInv(s: State, v: nat, attributes: VertexArray.Attributes)
    requires Inv(s)
    requires forall i: nat | BufferOf(attributes, i, s.dead).Some? ::
               BufferOf(attributes, i, s.dead).value !in s.damagedBuffers
    ensures Inv(Pushed(s, UpdateAttributes(v, attributes))) && Settles(s, Pushed(s, UpdateAttributes(v, attributes)))
  {
    PushInv(s, UpdateAttributes(v, attributes));
  }

  lemma VertexArraysIrrelevant(s: State, vertexArrays: map<nat, VertexArray.Pending>)
    requires Inv(s)
    ensures Inv(s.(vertexArrays := vertexArrays))
  {
  }

  lemma VertexArrayInv(s: State, v: nat, order: seq<nat>)
    requires Inv(s) && Covers(s, order)
    ensures var t := VertexArrayCommitted(s, v, order);
            Inv(t) && Settles(s, t) && Covers(t, order) && t.programs == s.programs && t.techniques == s.techniques
  {
    hide Inv;
    if v in s.vertexArrays && s.vertexArrays[v].damaged {
      var attributes := s.vertexArrays[v].attributes;
      var t := AttributeBuffersCommitted(s, attributes, order);
      AttributeBuffersInv(s, attributes, order);
      forall i: nat | BufferOf(attributes, i, s.dead).Some?
        ensures BufferOf(attributes, i, s.dead).value !in t.damagedBuffers
      {
        assert i in order;
        var k :| 0 <= k < |order| && order[k] == i;
      }
      UpdateAttributesInv(t, v, attributes);
      SettlesTrans(s, t, Pushed(t, UpdateAttributes(v, attributes)));
      VertexArraysIrrelevant(Pushed(t, UpdateAttributes(v, attributes)),
                             VertexArrayCommitted(s, v, order).vertexArrays);
    }
  }

  lemma TextureInv(s: State, t: nat)
    requires Inv(s)
    ensures var u := TextureCommitted(s, t);
            Inv(u) && Settles(s, u) && t !in u.dirtyTextures && u == s.(log := u.log, dirtyTextures := u.dirtyTextures)
  {
    if t in s.dirtyTextures {
      PushPlain(s, UpdateTexture(t));
      Snoc(s.log, UpdateTexture(t));
    }
  }

  /** The live texture and sampler of a binding have been committed. */
  predicate BindingReady(s: State, t: BaseTechnique.Texture) {
    && (BaseTechnique.Locks(t.texture, s.dead) ==> t.texture.value !in s.dirtyTextures)
    && (BaseTechnique.Locks(t.sampler, s.dead) ==> UpdateSampler(t.sampler.value) in s.log)
  }

  lemma BindingStaysReady(s: State, u: State, t: BaseTechnique.Texture)
    requires BindingReady(s, t) && Settles(s, u)
    ensures BindingReady(u, t)
  {
    assert u.log == s.log + u.log[|s.log|..];
  }

  lemma BindingInv(s: State, t: BaseTechnique.Texture)
    requires Inv(s)
    ensures var u := BindingCommitted(s, t);
            Inv(u) && Settles(s, u) && BindingReady(u, t) && u == s.(log := u.log, dirtyTextures := u.dirtyTextures)
  {
    hide Inv;
    var s1 := if BaseTechnique.Locks(t.texture, s.dead) then TextureCommitted(s, t.texture.value) else s;
    if BaseTechnique.Locks(t.texture, s.dead) {
      TextureInv(s, t.texture.value);
    }
    if BaseTechnique.Locks(t.sampler, s.dead) {
      PushPlain(s1, UpdateSampler(t.sampler.value));
      Snoc(s1.log, UpdateSampler(t.sampler.value));
      SettlesTrans(s, s1, Pushed(s1, UpdateSampler(t.sampler.value)));
    }
  }

  lemma {:induction false} TexturesInv(s: State, textures: map<nat, BaseTechnique.Texture>, order: seq<nat>)
    requires Inv(s)
    ensures var u := TexturesCommitted(s, textures, order);
            && Inv(u) && Settles(s, u) && u == s.(log := u.log, dirtyTextures := u.dirtyTextures)
            && (forall b | b in textures && b in order :: BindingReady(u, textures[b]))
  {
    hide Inv;
    if order != [] {
      var n := |order| - 1;
      var t, u := TexturesCommitted(s, textures, order[..n]), TexturesCommitted(s, textures, order);
      TexturesInv(s, textures, order[..n]);
      if order[n] in textures {
        BindingInv(t, textures[order[n]]);
        SettlesTrans(s, t, u);
      }
      forall b | b in textures && b in order ensures BindingReady(u, textures[b]) {
        if b in order[..n] {
          BindingStaysReady(t, u, textures[b]);
        }
      }
    }
  }

  /** What an update relies on has been committed: link, element buffer, textures and samplers. */
  predicate Answerable(s: State, u: BaseTechnique.Update) {
    && (u.AddUniforms? && u.issuedFor !in s.dead ==>
          u.issuedFor !in s.programs || !s.programs[u.issuedFor].shouldLink)
    && (u.SetDraw? && u.draw.Elements? && BaseTechnique.Locks(u.elementArrayBuffer, s.dead) ==>
          u.elementArrayBuffer.value !in s.damagedBuffers)
    && (u.SetTextures? ==> forall b | b in u.textures :: BindingReady(s, u.textures[b]))
  }

  lemma UpdateInv(s: State, t: nat, u: BaseTechnique.Update)
    requires Inv(s) && Answerable(s, u)
    ensures Inv(Pushed(s, UpdateTechnique(t, u))) && Settles(s, Pushed(s, UpdateTechnique(t, u)))
  {
    PushInv(s, UpdateTechnique(t, u));
  }

  lemma StaysAnswerable(s: State, v: State, u: BaseTechnique.Update)
    requires Answerable(s, u) && Settles(s, v) && v == s.(log := v.log)
    ensures Answerable(v, u)
  {
    if u.SetTextures? {
      forall b | b in u.textures ensures BindingReady(v, u.textures[b]) {
        BindingStaysReady(s, v, u.textures[b]);
      }
    }
  }

  lemma {:induction false} UpdatesInv(s: State, t: nat, us: seq<BaseTechnique.Update>)
    requires Inv(s) && forall k | 0 <= k < |us| :: Answerable(s, us[k])
    ensures var u := UpdatesPushed(s, t, us);
            Inv(u) && Settles(s, u) && u == s.(log := u.log)
  {
    hide Inv;
    if us != [] {
      var n := |us| - 1;
      var v := UpdatesPushed(s, t, us[..n]);
      UpdatesInv(s, t, us[..n]);
      StaysAnswerable(s, v, us[n]);
      UpdateInv(v, t, us[n]);
      SettlesTrans(s, v, Pushed(v, UpdateTechnique(t, us[n])));
    }
  }

  /** t is a state a part of a technique's commit may lead to from s. */
  ghost predicate Reaches(s: State, t: State, order: seq<nat>) {
    Inv(t) && Covers(t, order) && Settles(s, t) && t.techniques == s.techniques
  }

  predicate LinkSettled(s: State, program: Option<nat>) {
    BaseTechnique.Locks(program, s.dead) && program.value in s.programs ==> !s.programs[program.value].shouldLink
  }

  lemma ReachesTrans(s: State, t: State, u: State, order: seq<nat>, program: Option<nat>)
    requires Reaches(s, t, order) && Reaches(t, u, order)
    ensures Reaches(s, u, order) && (LinkSettled(t, program) ==> LinkSettled(u, program))
  {
    hide Inv;
    SettlesTrans(s, t, u);
  }

  lemma ProgramPart(s: State, program: Option<nat>, order: seq<nat>)
    requires Inv(s) && Covers(s, order)
    ensures Reaches(s, LockedProgramCommitted(s, program), order)
    ensures LinkSettled(LockedProgramCommitted(s, program), program)
  {
    hide Inv;
    if BaseTechnique.Locks(program, s.dead) {
      ProgramInv(s, program.value);
    }
  }

  lemma VertexArrayPart(s: State, va: Option<nat>, order: seq<nat>)
    requires Inv(s) && Covers(s, order)
    ensures Reaches(s, LockedVertexArrayCommitted(s, va, order), order)
  {
    hide Inv;
    if BaseTechnique.Locks(va, s.dead) {
      VertexArrayInv(s, va.value, order);
    }
  }

  lemma TexturesPart(s: State, textures: map<nat, BaseTechnique.Texture>, order: seq<nat>)
    requires Inv(s) && Covers(s, order)
    requires textures.Keys <= set b | b in order
    ensures Reaches(s, TexturesCommitted(s, textures, order), order)
    ensures TexturesReady(TexturesCommitted(s, textures, order), textures)
  {
    hide Inv;
    TexturesInv(s, textures, order);
  }

  predicate TexturesReady(s: State, textures: map<nat, BaseTechnique.Texture>) {
    forall b | b in textures :: BindingReady(s, textures[b])
  }

  predicate ElementsReady(s: State, p: BaseTechnique.Pending) {
    p.draw.Elements? && BaseTechnique.Locks(p.elementArrayBuffer, s.dead) ==>
      p.elementArrayBuffer.value !in s.damagedBuffers
  }

  lemma TexturesStayReady(s: State, t: State, textures: map<nat, BaseTechnique.Texture>)
    requires TexturesReady(s, textures) && Settles(s, t)
    ensures TexturesReady(t, textures)
  {
    forall b | b in textures ensures BindingReady(t, textures[b]) {
      BindingStaysReady(s, t, textures[b]);
    }
  }

  lemma ElementBufferPart(s: State, p: BaseTechnique.Pending, order: seq<nat>)
    requires Inv(s) && Covers(s, order)
    ensures Reaches(s, ElementBufferCommitted(s, p), order) && ElementsReady(ElementBufferCommitted(s, p), p)
  {
    if p.draw.Elements? && BaseTechnique.Locks(p.elementArrayBuffer, s.dead) {
      BufferInv(s, p.elementArrayBuffer.value);
    }
  }

  lemma DependenciesInv(s: State, p: BaseTechnique.Pending, order: seq<nat>)
    requires Inv(s) && Covers(s, order) && p.textures.Keys <= set b | b in order
    ensures var t := DependenciesCommitted(s, p, order);
            Reaches(s, t, order) && LinkSettled(t, p.program) && TexturesReady(t, p.textures) && ElementsReady(t, p)
  {
    hide Inv, Covers, Settles, LinkSettled, TexturesReady, ElementsReady;
    var s1 := LockedProgramCommitted(s, p.program);
    var s2 := LockedVertexArrayCommitted(s1, p.vertexArray, order);
    var s3 := TexturesCommitted(s2, p.textures, order);
    var s4 := ElementBufferCommitted(s3, p);
    ProgramPart(s, p.program, order);
    VertexArrayPart(s1, p.vertexArray, order);
    ReachesTrans(s, s1, s2, order, p.program);
    TexturesPart(s2, p.textures, order);
    ReachesTrans(s1, s2, s3, order, p.program);
    ReachesTrans(s, s2, s3, order, p.program);
    ElementBufferPart(s3, p, order);
    TexturesStayReady(s3, s4, p.textures);
    ReachesTrans(s2, s3, s4, order, p.program);
    ReachesTrans(s, s3, s4, order, p.program);
  }

  lemma TechniquesIrrelevant(s: State, techniques: map<nat, BaseTechnique.Pending>)
    requires Inv(s)
    ensures Inv(s.(techniques := techniques))
  {
  }

  lemma PartAnswerable(s: State, p: BaseTechnique.Pending, u: BaseTechnique.Update)
    requires LinkSettled(s, p.program) && TexturesReady(s, p.textures) && ElementsReady(s, p)
    requires u in BaseTechnique.DrawPart(p) || u in BaseTechnique.ProgramPart(p)
          || u in BaseTechnique.VertexArrayPart(p)
          || u in BaseTechnique.TexturePart(p) || u in BaseTechnique.UniformPart(p, s.dead)
    ensures Answerable(s, u)
  {
    hide BindingReady;
  }

  lemma UpdatesAnswerable(s: State, p: BaseTechnique.Pending)
    requires LinkSettled(s, p.program) && TexturesReady(s, p.textures) && ElementsReady(s, p)
    ensures var us := BaseTechnique.CommandsOfCommit(p, s.dead);
            forall k | 0 <= k < |us| :: Answerable(s, us[k])
  {
    var us := BaseTechnique.CommandsOfCommit(p, s.dead);
    forall u | u in us ensures Answerable(s, u) {
      hide TexturesReady, BindingReady;
      assert u in BaseTechnique.DrawPart(p) || u in BaseTechnique.ProgramPart(p)
          || u in BaseTechnique.VertexArrayPart(p)
          || u in BaseTechnique.TexturePart(p) || u in BaseTechnique.UniformPart(p, s.dead);
      PartAnswerable(s, p, u);
    }
    hide Answerable, BaseTechnique.CommandsOfCommit;
    assert forall k | 0 <= k < |us| :: us[k] in us;
  }

  lemma TechniqueInv(s: State, t: nat, order: seq<nat>)
    requires Inv(s) && Covers(s, order)
    ensures var u := TechniqueCommitted(s, t, order);
            Inv(u) && Settles(s, u) && Covers(u, order)
  {
    hide Inv;
    if t in s.techniques {
      var p := s.techniques[t];
      var us := BaseTechnique.CommandsOfCommit(p, s.dead);
      var u := DependenciesCommitted(s, p, order);
      DependenciesInv(s, p, order);
      UpdatesAnswerable(u, p);
      UpdatesInv(u, t, us);
      SettlesTrans(s, u, UpdatesPushed(u, t, us));
      TechniquesIrrelevant(UpdatesPushed(u, t, us), TechniqueCommitted(s, t, order).techniques);
    }
  }

  lemma UnitInv(s: State, u: nat, order: seq<nat>)
    requires Inv(s) && Covers(s, order)
    ensures var t := UnitCommitted(s, u, order);
            Inv(t) && Settles(s, t) && Covers(t, order)
  {
    hide Inv;
    if u in s.units {
      var t := s.units[u];
      var s1 := if BaseTechnique.Locks(t, s.dead) then TechniqueCommitted(s, t.value, order) else s;
      if BaseTechnique.Locks(t, s.dead) {
        TechniqueInv(s, t.value, order);
      }
      PushPlain(s1, SetTechnique(u, t));
      SettlesTrans(s, s1, Pushed(s1, SetTechnique(u, t)));
    }
  }

  lemma {:induction false} UnitsInv(s: State, us: seq<nat>, order: seq<nat>)
    requires Inv(s) && Covers(s, order)
    ensures var t := UnitsCommitted(s, us, order);
            Inv(t) && Settles(s, t) && Covers(t, order)
  {
    hide Inv;
    if us != [] {
      var n := |us| - 1;
      var t := UnitsCommitted(s, us[..n], order);
      UnitsInv(s, us[..n], order);
      if us[n] !in s.dead {
        UnitInv(t, us[n], order);
        SettlesTrans(s, t, UnitCommitted(t, us[n], order));
      }
    }
  }

  // ---- whole runs ----

  datatype Action =
    | GlBufferData(buffer: nat, target: nat)
    | NewProgram(program: nat)
    | GlAttachShader(program: nat, shader: nat)
    | GlLinkProgram(program: nat)
    | NewVertexArray(vertexArray: nat)
    | SetAttribute(vertexArray: nat, setter: VertexArray.Setter)
    | ChangeTexture(texture: nat)
    | NewTechnique(technique: nat, renderingUnit: nat)
    | CallTechnique(technique: nat, call: BaseTechnique.Call)
    | NewUnit(renderingUnit: nat, virtualObject: nat)
    | NewObject(virtualObject: nat)
    | CommitObject(virtualObject: nat, order: seq<nat>)
    | Move(virtualObject: nat, pose: Pose)
    | Destroy(id: nat)  // the last strong reference goes; ids are never reused

  function Start(): State {
    State({}, map[], {}, map[], map[], {}, map[], map[], map[], [])
  }

  /** An action that is not enabled changes nothing, so every action sequence is a run. */
  function Step(s: State, a: Action): State {
    match a
    case GlBufferData(b, target) => Pushed(s, DataSet(b, target)).(damagedBuffers := s.damagedBuffers[b := target])
    case NewProgram(p) => if p in s.programs then s else s.(programs := s.programs[p := Program([], false)])
    case GlAttachShader(p, shader) =>
      if p !in s.programs then s
      else s.(programs := s.programs[p := s.programs[p].(shaders := s.programs[p].shaders + [shader])])
    case GlLinkProgram(p) =>
      if p !in s.programs then s
      else Pushed(s, LinkAsked(p)).(programs := s.programs[p := s.programs[p].(shouldLink := true)])
    case NewVertexArray(v) =>
      if v in s.vertexArrays then s else s.(vertexArrays := s.vertexArrays[v := VertexArray.Pending(map[], false)])
    case SetAttribute(v, setter) =>
      if v !in s.vertexArrays then s
      else s.(vertexArrays := s.vertexArrays[v := VertexArray.Set(s.vertexArrays[v], setter)])
    case ChangeTexture(t) => Pushed(s, TextureChanged(t)).(dirtyTextures := s.dirtyTextures + {t})
    case NewTechnique(t, u) =>
      if t in s.techniques || u !in s.units then s
      else s.(techniques := s.techniques[t := BaseTechnique.BLANK], units := s.units[u := Some(t)])
    case CallTechnique(t, call) =>
      if t !in s.techniques then s
      else s.(techniques := s.techniques[t := BaseTechnique.Called(s.techniques[t], call)])
    case NewUnit(u, o) =>
      if u in s.units || o !in s.objects then s
      else s.(units := s.units[u := None], objects := s.objects[o := s.objects[o] + [u]])
    case NewObject(o) => if o in s.objects then s else s.(objects := s.objects[o := []])
    case CommitObject(o, order) => if Covers(s, order) then ObjectCommitted(s, o, order) else s
    case Move(o, pose) => Pushed(Pushed(s, SetPose(o, pose)), CommitMark)
    case Destroy(id) => Pushed(s, Release(id)).(dead := s.dead + {id})
  }

  function Run(actions: seq<Action>): State {
    if actions == [] then Start()
    else Step(Run(actions[..|actions| - 1]), actions[|actions| - 1])
  }

  lemma PushMark(s: State)
    requires Inv(s)
    ensures Inv(Pushed(s, CommitMark))
  {
    OneMore(s.log, CommitMark);
    hide Uploaded, TextureCurrent, Linked, DataTargets, UploadTargets, DeadIn, Ordered;
  }

  lemma ObjectInv(s: State, o: nat, order: seq<nat>)
    requires Inv(s) && Covers(s, order)
    ensures Inv(ObjectCommitted(s, o, order))
  {
    hide Inv;
    if o in s.objects {
      var t := UnitsCommitted(s, s.objects[o], order);
      var living := Living(s.objects[o], s.dead);
      UnitsInv(s, s.objects[o], order);
      PushPlain(t, SetUnits(o, living));
      PushMark(Pushed(t, SetUnits(o, living)));
      ObjectsIrrelevant(Pushed(Pushed(t, SetUnits(o, living)), CommitMark), ObjectCommitted(s, o, order).objects);
    }
  }

  lemma ObjectsIrrelevant(s: State, objects: map<nat, seq<nat>>)
    requires Inv(s)
    ensures Inv(s.(objects := objects))
  {
  }

  lemma DestroyInv(s: State, id: nat)
    requires Inv(s)
    ensures Inv(Step(s, Destroy(id)))
  {
    OneMore(s.log, Release(id));
    hide Uploaded, TextureCurrent, Linked, DataTargets, UploadTargets, DeadIn, Ordered;
  }

  lemma DataInv(s: State, b: nat, target: nat)
    requires Inv(s)
    ensures Inv(Step(s, GlBufferData(b, target)))
  {
    OneMore(s.log, DataSet(b, target));
    hide Uploaded, TextureCurrent, Linked, DataTargets, UploadTargets, DeadIn, Ordered;
  }

  lemma LinkAskedInv(s: State, p: nat)
    requires Inv(s)
    ensures Inv(Step(s, GlLinkProgram(p)))
  {
    OneMore(s.log, LinkAsked(p));
    hide Uploaded, TextureCurrent, Linked, DataTargets, UploadTargets, DeadIn, Ordered;
  }

  lemma TextureChangedInv(s: State, t: nat)
    requires Inv(s)
    ensures Inv(Step(s, ChangeTexture(t)))
  {
    OneMore(s.log, TextureChanged(t));
    hide Uploaded, TextureCurrent, Linked, DataTargets, UploadTargets, DeadIn, Ordered;
  }

  lemma MoveInv(s: State, o: nat, pose: Pose)
    requires Inv(s)
    ensures Inv(Step(s, Move(o, pose)))
  {
    hide Inv;
    PushPlain(s, SetPose(o, pose));
    PushMark(Pushed(s, SetPose(o, pose)));
  }

  /** The calls that push nothing. */
  lemma QuietStepInv(s: State, a: Action)
    requires Inv(s) && !a.GlBufferData? && !a.GlLinkProgram? && !a.ChangeTexture?
    requires !a.CommitObject? && !a.Move? && !a.Destroy?
    ensures Inv(Step(s, a))
  {
    hide Uploaded, TextureCurrent, Linked, DataTargets, UploadTargets, DeadIn, Ordered, Covers, ObjectCommitted;
  }

  lemma StepInv(s: State, a: Action)
    requires Inv(s)
    ensures Inv(Step(s, a))
  {
    hide Inv, ObjectCommitted, Covers;
    match a
    case GlBufferData(b, target) => DataInv(s, b, target);
    case GlLinkProgram(p) => LinkAskedInv(s, p);
    case ChangeTexture(t) => TextureChangedInv(s, t);
    case CommitObject(o, order) => if Covers(s, order) { ObjectInv(s, o, order); }
    case Move(o, pose) => MoveInv(s, o, pose);
    case Destroy(id) => DestroyInv(s, id);
    case _ => QuietStepInv(s, a);
  }

  lemma {:induction false} Always(actions: seq<Action>)
    ensures Inv(Run(actions))
  {
    if actions != [] {
      Always(actions[..|actions| - 1]);
      StepInv(Run(actions[..|actions| - 1]), actions[|actions| - 1]);
    }
  }

  lemma {:induction false} OrderedAt(log: seq<Event>, k: nat)
    requires Ordered(log) && k < |log|
    ensures Justified(log[..k], log[k], DeadIn(log[..k]))
  {
    var n := |log| - 1;
    if k < n {
      OrderedAt(log[..n], k);
      assert log[..n][..k] == log[..k];
    }
  }

  /** On every run. The deaths that count are those before the entry was pushed. */
  lemma JustifiedOnRuns(actions: seq<Action>, k: nat)
    requires k < |Run(actions).log|
    ensures var log := Run(actions).log;
            Justified(log[..k], log[k], DeadIn(log[..k]))
  {
    Always(actions);
    OrderedAt(Run(actions).log, k);
  }

  lemma {:induction false} UploadedMeans(log: seq<Event>, b: nat, j: nat)
    requires Uploaded(log, b) && j < |log| && IsData(log[j], b)
    ensures exists m :: j < m < |log| && IsUpload(log[m], b)
  {
    var n := |log| - 1;
    if !IsUpload(log[n], b) {
      UploadedMeans(log[..n], b, j);
    }
  }

  lemma {:induction false} LinkedMeans(log: seq<Event>, p: nat, j: nat)
    requires Linked(log, p) && j < |log| && log[j] == LinkAsked(p)
    ensures exists m :: j < m < |log| && log[m].Link? && log[m].program == p
  {
    var n := |log| - 1;
    if !(log[n].Link? && log[n].program == p) {
      LinkedMeans(log[..n], p, j);
    }
  }

  /** On every run: the compile command of a shader precedes every link command of a program it is attached to, if the
      shader was alive when the link command was pushed. */
  lemma CompileBeforeLink(actions: seq<Action>, k: nat, i: nat)
    requires var log := Run(actions).log;
             k < |log| && log[k].Link? && i < |log[k].shaders| && log[k].shaders[i] !in DeadIn(log[..k])
    ensures var log := Run(actions).log;
            exists j :: 0 <= j < k && log[j] == Compile(log[k].shaders[i])
  {
    var log := Run(actions).log;
    JustifiedOnRuns(actions, k);
    assert Compile(log[k].shaders[i]) in log[..k];
    var j :| 0 <= j < k && log[..k][j] == Compile(log[k].shaders[i]);
    assert log[j] == Compile(log[k].shaders[i]);
  }

  /** On every run: between any GlBufferData of a buffer and an attribute command that points into it, pushed while it
      was alive, lies an upload. */
  lemma UploadBeforePointer(actions: seq<Action>, k: nat, i: nat, j: nat)
    requires var log := Run(actions).log;
             && k < |log| && log[k].UpdateAttributes?
             && BufferOf(log[k].attributes, i, DeadIn(log[..k])).Some?
             && j < k && IsData(log[j], BufferOf(log[k].attributes, i, DeadIn(log[..k])).value)
    ensures var log := Run(actions).log;
            exists m :: j < m < k && IsUpload(log[m], BufferOf(log[k].attributes, i, DeadIn(log[..k])).value)
  {
    var log := Run(actions).log;
    var b := BufferOf(log[k].attributes, i, DeadIn(log[..k])).value;
    JustifiedOnRuns(actions, k);
    assert log[..k][j] == log[j];
    UploadedMeans(log[..k], b, j);
    var m :| j < m < k && IsUpload(log[..k][m], b);
    assert IsUpload(log[m], b);
  }

  /** What has been uploaded has the target of the last data. */
  lemma {:induction false} UploadedTarget(log: seq<Event>, b: nat)
    requires Ordered(log) && Uploaded(log, b)
    ensures Lookup(UploadTargets(log), b) == Lookup(DataTargets(log), b)
  {
    if log != [] && !IsUpload(log[|log| - 1], b) {
      UploadedTarget(log[..|log| - 1], b);
    }
  }

  lemma {:induction false} OrderedTake(log: seq<Event>, k: nat)
    requires Ordered(log) && k <= |log|
    ensures Ordered(log[..k])
  {
    if k == |log| {
      assert log[..k] == log;
    } else {
      OrderedTake(log[..|log| - 1], k);
      assert log[..|log| - 1][..k] == log[..k];
    }
  }

  /** On every run: when an attribute command is executed, a buffer it points into, alive when the command was pushed,
      has got its GL name if and only if GlBufferData had been called for it by then, and the last call's target. */
  lemma TargetBeforePointer(actions: seq<Action>, k: nat, i: nat)
    requires var log := Run(actions).log;
             && k < |log| && log[k].UpdateAttributes? && BufferOf(log[k].attributes, i, DeadIn(log[..k])).Some?
    ensures var log := Run(actions).log;
            var b := BufferOf(log[k].attributes, i, DeadIn(log[..k])).value;
            Lookup(UploadTargets(log[..k]), b) == Lookup(DataTargets(log[..k]), b)
  {
    var log := Run(actions).log;
    JustifiedOnRuns(actions, k);
    Always(actions);
    OrderedTake(log, k);
    UploadedTarget(log[..k], BufferOf(log[k].attributes, i, DeadIn(log[..k])).value);
  }

  /** On every run: between any GlLinkProgram of a program and a uniform command issued for it, pushed while it was
      alive, lies a link command. */
  lemma LinkBeforeUniforms(actions: seq<Action>, k: nat, j: nat)
    requires var log := Run(actions).log;
             && k < |log| && log[k].UpdateTechnique? && log[k].update.AddUniforms?
             && log[k].update.issuedFor !in DeadIn(log[..k])
             && j < k && log[j] == LinkAsked(log[k].update.issuedFor)
    ensures var log := Run(actions).log;
            exists m :: j < m < k && log[m].Link? && log[m].program == log[k].update.issuedFor
  {
    var log := Run(actions).log;
    var p := log[k].update.issuedFor;
    JustifiedOnRuns(actions, k);
    assert log[..k][j] == LinkAsked(p);
    LinkedMeans(log[..k], p, j);
    var m :| j < m < k && log[..k][m].Link? && log[..k][m].program == p;
    assert log[m].Link? && log[m].program == p;
  }

  predicate HasLink(log: seq<Event>, p: nat) { exists m :: 0 <= m < |log| && log[m].Link? && log[m].program == p }

  /** On every run: when a uniform command is executed, the program it was issued for, alive when the command was
      pushed, has been linked if and only if GlLinkProgram had been called for it by then. */
  lemma LinkedBeforeUniformsIff(actions: seq<Action>, k: nat)
    requires var log := Run(actions).log;
             && k < |log| && log[k].UpdateTechnique? && log[k].update.AddUniforms?
             && log[k].update.issuedFor !in DeadIn(log[..k])
    ensures var log := Run(actions).log;
            HasLink(log[..k], log[k].update.issuedFor) <==> LinkAsked(log[k].update.issuedFor) in log[..k]
  {
    var log := Run(actions).log;
    var p := log[k].update.issuedFor;
    if m :| 0 <= m < k && log[..k][m].Link? && log[..k][m].program == p {
      JustifiedOnRuns(actions, m);
      assert log[m] == log[..k][m];
      var j :| 0 <= j < m && log[..m][j] == LinkAsked(p);
      assert log[..k][j] == LinkAsked(p);
    }
    if j :| 0 <= j < k && log[..k][j] == LinkAsked(p) {
      LinkBeforeUniforms(actions, k, j);
      var m :| j < m < k && log[m].Link? && log[m].program == p;
      assert log[..k][m] == log[m];
    }
  }

  lemma {:induction false} CurrentMeans(log: seq<Event>, t: nat, j: nat)
    requires TextureCurrent(log, t) && j < |log| && log[j] == TextureChanged(t)
    ensures exists m :: j < m < |log| && log[m] == UpdateTexture(t)
  {
    var n := |log| - 1;
    if log[n] != UpdateTexture(t) {
      CurrentMeans(log[..n], t, j);
    }
  }

  /** On every run: between any GlBufferData of a buffer and a draw command that takes its indices, pushed while it was
      alive, lies an upload. */
  lemma UploadBeforeDraw(actions: seq<Action>, k: nat, j: nat)
    requires var log := Run(actions).log;
             && k < |log| && log[k].UpdateTechnique? && log[k].update.SetDraw? && log[k].update.draw.Elements?
             && BaseTechnique.Locks(log[k].update.elementArrayBuffer, DeadIn(log[..k]))
             && j < k && IsData(log[j], log[k].update.elementArrayBuffer.value)
    ensures var log := Run(actions).log;
            exists m :: j < m < k && IsUpload(log[m], log[k].update.elementArrayBuffer.value)
  {
    var log := Run(actions).log;
    var b := log[k].update.elementArrayBuffer.value;
    JustifiedOnRuns(actions, k);
    assert log[..k][j] == log[j];
    UploadedMeans(log[..k], b, j);
    var m :| j < m < k && IsUpload(log[..k][m], b);
    assert IsUpload(log[m], b);
  }

  /** On every run: between any call on a texture and a command that binds it, pushed while it was alive, lies its
      update. */
  lemma TextureBeforeBinding(actions: seq<Action>, k: nat, b: nat, j: nat)
    requires var log := Run(actions).log;
             && k < |log| && log[k].UpdateTechnique? && log[k].update.SetTextures? && b in log[k].update.textures
             && BaseTechnique.Locks(log[k].update.textures[b].texture, DeadIn(log[..k]))
             && j < k && log[j] == TextureChanged(log[k].update.textures[b].texture.value)
    ensures var log := Run(actions).log;
            exists m :: j < m < k && log[m] == UpdateTexture(log[k].update.textures[b].texture.value)
  {
    var log := Run(actions).log;
    var t := log[k].update.textures[b].texture.value;
    JustifiedOnRuns(actions, k);
    assert BindingJustified(log[..k], log[k].update.textures[b], DeadIn(log[..k]));
    assert log[..k][j] == TextureChanged(t);
    CurrentMeans(log[..k], t, j);
    var m :| j < m < k && log[..k][m] == UpdateTexture(t);
    assert log[m] == UpdateTexture(t);
  }

  /** On every run: a sampler alive when its binding was pushed has been given its name and parameters before. */
  lemma SamplerBeforeBinding(actions: seq<Action>, k: nat, b: nat)
    requires var log := Run(actions).log;
             && k < |log| && log[k].UpdateTechnique? && log[k].update.SetTextures? && b in log[k].update.textures
             && BaseTechnique.Locks(log[k].update.textures[b].sampler, DeadIn(log[..k]))
    ensures var log := Run(actions).log;
            exists m :: 0 <= m < k && log[m] == UpdateSampler(log[k].update.textures[b].sampler.value)
  {
    var log := Run(actions).log;
    var sampler := log[k].update.textures[b].sampler.value;
    JustifiedOnRuns(actions, k);
    assert BindingJustified(log[..k], log[k].update.textures[b], DeadIn(log[..k]));
    var m :| 0 <= m < k && log[..k][m] == UpdateSampler(sampler);
    assert log[m] == UpdateSampler(sampler);
  }

  /** The object's own command and the mark come after whatever its units push. */
  lemma ObjectPushes(s: State, o: nat, order: seq<nat>)
    requires o in s.objects && Pushes(s, UnitsCommitted(s, s.objects[o], order))
    ensures var t := ObjectCommitted(s, o, order);
            && s.log < t.log && t.log[|t.log| - 1] == CommitMark
            && (forall i | |s.log| <= i < |t.log| - 1 :: IsCommand(t.log[i]))
  {
    hide UnitsCommitted, Living;
  }

  lemma CommitStep(s: State, o: nat, order: seq<nat>)
    requires Covers(s, order)
    ensures Step(s, CommitObject(o, order)) == ObjectCommitted(s, o, order)
  {
    hide ObjectCommitted, Covers;
  }

  /** A whole recursive commit is one batch: its commands, the mark last and no other. */
  lemma CommitIsOneBatch(actions: seq<Action>, o: nat, order: seq<nat>)
    requires o in Run(actions).objects && Covers(Run(actions), order)
    ensures var s, t := Run(actions), Step(Run(actions), CommitObject(o, order));
            && s.log < t.log && t.log[|t.log| - 1] == CommitMark
            && (forall i | |s.log| <= i < |t.log| - 1 :: IsCommand(t.log[i]))
  {
    hide Run, Inv, Covers, UnitsCommitted, ObjectCommitted;
    var s := Run(actions);
    Always(actions);
    UnitsInv(s, s.objects[o], order);
    ObjectPushes(s, o, order);
    CommitStep(s, o, order);
    hide Step, Settles, Pushes;
  }
}
