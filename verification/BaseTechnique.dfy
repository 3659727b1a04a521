/** The base technique: damage flags for draw call, program, vertex array and textures; coalesced uniforms. */
module BaseTechnique {
  import opened Options
  import AtomicQueue

  type Uint32 = n: nat | n < 0x1_0000_0000

  /** The draw method together with the member of the argument union it selects. */
  datatype Draw =
    | NoDraw
    | Arrays(mode: nat, count: int, first: int)
    | Elements(mode: nat, count: int, kind: nat, offset: nat)

  datatype Texture = Texture(name: string, texture: Option<nat>, sampler: Option<nat>, target: nat)

  /** `shape` stands for type, count and transpose, which are only copied. */
  datatype Uniform = Uniform(location: Uint32, name: string, col: nat, row: nat, shape: int, value: int)

  /** An entry of the rendering map; its name is never set. */
  datatype Slot = Slot(location: Uint32, col: nat, row: nat, shape: int, value: int)

  datatype Pending = Pending(
    draw: Draw, elementArrayBuffer: Option<nat>, drawDamaged: bool,
    vertexArray: Option<nat>, vertexArrayDamaged: bool,
    program: Option<nat>, programDamaged: bool,
    textures: map<nat, Texture>, textureDamaged: bool,
    uniforms: seq<Uniform>)

  datatype Rendering = Rendering(
    draw: Draw, elementArrayBuffer: Option<nat>, vertexArray: Option<nat>, program: Option<nat>,
    textures: map<nat, Texture>, uniforms: map<nat, Slot>)

  /** `issuedFor` is history: the pending program at the commit. No command reads it. */
  datatype Update =
    | SetDraw(draw: Draw, elementArrayBuffer: Option<nat>)
    | SetProgram(program: Option<nat>)
    | SetVertexArray(vertexArray: Option<nat>)
    | SetTextures(textures: map<nat, Texture>)
    | AddUniforms(uniforms: seq<Uniform>, issuedFor: nat)

  datatype Call =
    | BindProgram(program: Option<nat>)
    | BindVertexArray(vertexArray: Option<nat>)
    | BindTexture(binding: nat, texture: Texture)
    | GlDrawArrays(mode: nat, first: int, count: int)
    | GlDrawElements(mode: nat, count: int, kind: nat, offset: nat, buffer: Option<nat>)
    | GlUniform(uniform: Uniform)

  const BLANK := Pending(NoDraw, None, false, None, false, None, false, map[], false, [])

  const UNDRAWN := Rendering(NoDraw, None, None, None, map[], map[])

  predicate Acceptable(u: Uniform) {
    0 < u.col <= 4 && 0 < u.row <= 4
  }

  function Called(p: Pending, c: Call): Pending {
    match c
    case BindProgram(program) => p.(program := program, programDamaged := true)
    case BindVertexArray(va) => p.(vertexArray := va, vertexArrayDamaged := true)
    case BindTexture(b, t) => p.(textures := p.textures[b := t], textureDamaged := true)
    case GlDrawArrays(mode, first, count) => p.(draw := Arrays(mode, count, first), drawDamaged := true)
    case GlDrawElements(mode, count, kind, offset, buffer) =>
      p.(draw := Elements(mode, count, kind, offset), elementArrayBuffer := buffer, drawDamaged := true)
    case GlUniform(u) => if Acceptable(u) then p.(uniforms := p.uniforms + [u]) else p
  }

  /** weak_ptr::lock, given the resources already destroyed. */
  predicate Locks(weak: Option<nat>, dead: set<nat>) {
    weak.Some? && weak.value !in dead
  }

  predicate Flushes(p: Pending, dead: set<nat>) {
    Locks(p.program, dead) && p.uniforms != []
  }

  function DrawPart(p: Pending): seq<Update> {
    if p.drawDamaged then [SetDraw(p.draw, p.elementArrayBuffer)] else []
  }

  function ProgramPart(p: Pending): seq<Update> {
    if p.programDamaged then [SetProgram(p.program)] else []
  }

  function VertexArrayPart(p: Pending): seq<Update> {
    if p.vertexArrayDamaged then [SetVertexArray(p.vertexArray)] else []
  }

  function TexturePart(p: Pending): seq<Update> {
    if p.textureDamaged then [SetTextures(p.textures)] else []
  }

  function UniformPart(p: Pending, dead: set<nat>): seq<Update> {
    if Flushes(p, dead) then [AddUniforms(p.uniforms, p.program.value)] else []
  }

  /** The commands a commit pushes, in this order. */
  function CommandsOfCommit(p: Pending, dead: set<nat>): seq<Update> {
    DrawPart(p) + ProgramPart(p) + VertexArrayPart(p) + TexturePart(p) + UniformPart(p, dead)
  }

  function PendingAfterCommit(p: Pending, dead: set<nat>): Pending {
    p.(drawDamaged := false, programDamaged := false, vertexArrayDamaged := false, textureDamaged := false,
       uniforms := if Flushes(p, dead) then [] else p.uniforms)
  }

  /** What execution depends on besides the rendering state. */
  datatype World = World(
    dead: set<nat>,                         // resources destroyed
    linked: set<nat>,                       // programs with a nonzero program_id
    locations: map<(nat, string), int>)     // glGetUniformLocation, -1 when absent

  function ToInt32(n: Uint32): int {
    if n < 0x8000_0000 then n else n - 0x1_0000_0000
  }

  /** Where a uniform goes in a program; None when the location is negative. */
  function Resolved(w: World, program: nat, u: Uniform): Option<Uint32> {
    var location :=
      if u.name == "" then ToInt32(u.location)
      else if (program, u.name) in w.locations then w.locations[(program, u.name)] else -1;
    if 0 <= location < 0x8000_0000 then Some(location) else None
  }

  datatype Write = Write(location: Uint32, uniform: Uniform)

  function WritesOf(w: World, program: nat, us: seq<Uniform>): seq<Write> {
    if us == [] then []
    else
      var location := Resolved(w, program, us[0]);
      (if location.Some? then [Write(location.value, us[0])] else []) + WritesOf(w, program, us[1..])
  }

  function SlotOf(x: Write): Slot {
    Slot(x.location, x.uniform.col, x.uniform.row, x.uniform.shape, x.uniform.value)
  }

  function Written(slots: map<nat, Slot>, writes: seq<Write>): map<nat, Slot> {
    if writes == [] then slots
    else Written(slots, writes[..|writes| - 1])[writes[|writes| - 1].location := SlotOf(writes[|writes| - 1])]
  }

  /** The writes an update makes to the uniform map. */
  function WritesBy(r: Rendering, u: Update, w: World): seq<Write> {
    if u.AddUniforms? && Locks(r.program, w.dead) && r.program.value in w.linked
    then WritesOf(w, r.program.value, u.uniforms)
    else []
  }

  function Executed(r: Rendering, u: Update, w: World): Rendering {
    match u
    case SetDraw(draw, buffer) => r.(draw := draw, elementArrayBuffer := buffer)
    case SetProgram(program) => r.(program := program)
    case SetVertexArray(va) => r.(vertexArray := va)
    case SetTextures(textures) => r.(textures := textures)
    case AddUniforms(_, _) => r.(uniforms := Written(r.uniforms, WritesBy(r, u, w)))
  }

  /** SetupTextures drops bindings whose texture or sampler is gone. */
  function LiveTextures(textures: map<nat, Texture>, dead: set<nat>): map<nat, Texture> {
    map b | b in textures && Locks(textures[b].texture, dead) && Locks(textures[b].sampler, dead) :: textures[b]
  }

  class GlBaseTechnique {
    const updateRenderingQueue: AtomicQueue.AtomicCommandQueue<Update>
    var draw: Draw
    var elementArrayBuffer: Option<nat>
    var drawDamaged: bool
    var vertexArray: Option<nat>
    var vertexArrayDamaged: bool
    var program: Option<nat>
    var programDamaged: bool
    var textures: map<nat, Texture>
    var textureDamaged: bool
    var uniforms: seq<Uniform>

    ghost function Value(): Pending
      reads this
    {
      Pending(draw, elementArrayBuffer, drawDamaged, vertexArray, vertexArrayDamaged,
              program, programDamaged, textures, textureDamaged, uniforms)
    }

    constructor (queue: AtomicQueue.AtomicCommandQueue<Update>)
      ensures Value() == BLANK && updateRenderingQueue == queue
    {
      updateRenderingQueue := queue;
      draw, elementArrayBuffer, drawDamaged := NoDraw, None, false;
      vertexArray, vertexArrayDamaged, program, programDamaged := None, false, None, false;
      textures, textureDamaged, uniforms := map[], false, [];
    }

    method Bind(call: Call)
      requires call.BindProgram? || call.BindVertexArray? || call.BindTexture?
      modifies this
      ensures Value() == Called(old(Value()), call)
    {
      match call
      case BindProgram(p) =>
        program := p;
        programDamaged := true;
      case BindVertexArray(va) =>
        vertexArray := va;
        vertexArrayDamaged := true;
      case BindTexture(binding, texture) =>
        textures := textures[binding := texture];
        textureDamaged := true;
    }

    method DrawArrays(mode: nat, first: int, count: int)
      modifies this
      ensures Value() == Called(old(Value()), GlDrawArrays(mode, first, count))
    {
      draw := Arrays(mode, count, first);
      drawDamaged := true;
    }

    method DrawElements(mode: nat, count: int, kind: nat, offset: nat, buffer: Option<nat>)
      modifies this
      ensures Value() == Called(old(Value()), GlDrawElements(mode, count, kind, offset, buffer))
    {
      draw := Elements(mode, count, kind, offset);
      elementArrayBuffer := buffer;
      drawDamaged := true;
    }

    method SetUniform(u: Uniform)
      modifies this
      ensures Value() == Called(old(Value()), GlUniform(u))
    {
      if !(0 < u.col && u.col <= 4 && 0 < u.row && u.row <= 4) {
        return;
      }
      uniforms := uniforms + [u];
    }

    /** The resources committed first are the business of the scene. */
    method Commit(dead: set<nat>)
      requires updateRenderingQueue.Valid()
      modifies this, updateRenderingQueue
      ensures updateRenderingQueue.Valid() && Value() == PendingAfterCommit(old(Value()), dead)
      ensures var p := old(Value());
              updateRenderingQueue.queue
              == old(updateRenderingQueue.queue) + Entries(DrawPart(p)) + Entries(ProgramPart(p))
                 + Entries(VertexArrayPart(p)) + Entries(TexturePart(p)) + Entries(UniformPart(p, dead))
    {
      PushIf(drawDamaged, SetDraw(draw, elementArrayBuffer));
      drawDamaged := false;
      PushIf(programDamaged, SetProgram(program));
      programDamaged := false;
      PushIf(vertexArrayDamaged, SetVertexArray(vertexArray));
      vertexArrayDamaged := false;
      PushIf(textureDamaged, SetTextures(textures));
      textureDamaged := false;
      if Locks(program, dead) && |uniforms| > 0 {
        PushIf(true, AddUniforms(uniforms, program.value));
        uniforms := [];
      } else {
        assert updateRenderingQueue.queue + [] == updateRenderingQueue.queue;
      }
    }

    method PushIf(damaged: bool, u: Update)
      requires updateRenderingQueue.Valid()
      modifies updateRenderingQueue
      ensures updateRenderingQueue.Valid()
      ensures updateRenderingQueue.queue == old(updateRenderingQueue.queue) + Entries(if damaged then [u] else [])
    {
      if damaged {
        updateRenderingQueue.Push(u);
      }
    }
  }

  ghost function Entries(us: seq<Update>): (es: seq<AtomicQueue.Entry<Update>>)
    ensures |es| == |us| && forall i | 0 <= i < |us| :: es[i] == AtomicQueue.Command(us[i])
  {
    seq(|us|, i requires 0 <= i < |us| => AtomicQueue.Command(us[i]))
  }

  lemma WritesTail(w: World, program: nat, us: seq<Uniform>, i: nat, before: seq<Write>)
    requires i < |us|
    ensures var location, rest := Resolved(w, program, us[i]), WritesOf(w, program, us[i + 1..]);
            before + WritesOf(w, program, us[i..])
            == (if location.Some? then before + [Write(location.value, us[i])] else before) + rest
  {
    assert us[i..][1..] == us[i + 1..];
  }

  lemma WrittenSnoc(slots: map<nat, Slot>, writes: seq<Write>, x: Write)
    ensures Written(slots, writes + [x]) == Written(slots, writes)[x.location := SlotOf(x)]
  {
    assert (writes + [x])[..|writes|] == writes;
  }

  /** The body of the uniform update command. */
  method ApplyUniforms(r: Rendering, us: seq<Uniform>, w: World) returns (slots: map<nat, Slot>)
    ensures slots == Executed(r, AddUniforms(us, 0), w).uniforms
  {
    slots := r.uniforms;
    if !Locks(r.program, w.dead) || r.program.value !in w.linked {
      return;
    }
    var program := r.program.value;
    ghost var writes: seq<Write> := [];
    var i := 0;
    assert us[0..] == us && [] + WritesOf(w, program, us) == WritesOf(w, program, us);
    while i < |us|
      invariant 0 <= i <= |us|
      invariant slots == Written(r.uniforms, writes)
      invariant writes + WritesOf(w, program, us[i..]) == WritesOf(w, program, us)
    {
      var u := us[i];
      WritesTail(w, program, us, i, writes);
      hide WritesOf, Written;
      i := i + 1;
      var location := ToInt32(u.location);
      if u.name != "" {
        location := if (program, u.name) in w.locations then w.locations[(program, u.name)] else -1;
      }
      assert Resolved(w, program, u) == if 0 <= location < 0x8000_0000 then Some(location) else None;
      if location < 0 || 0x8000_0000 <= location {
        continue;
      }
      if location !in slots {
        slots := slots[location := Slot(location, 0, 0, 0, 0)];
      }
      slots := slots[location := Slot(location, u.col, u.row, u.shape, u.value)];
      WrittenSnoc(r.uniforms, writes, Write(location, u));
      writes := writes + [Write(location, u)];
    }
    assert us[|us|..] == [];
    assert writes + [] == writes;
  }

  // ---- whole runs ----

  datatype State = State(
    pending: Pending, queue: seq<Update>, rendering: Rendering, world: World,
    // histories
    calls: seq<Call>,
    flushed: seq<Uniform>,  // uniforms handed to commands
    writes: seq<Write>)     // writes made to the rendering map

  datatype Action =
    | Do(call: Call)
    | Commit
    | ExecuteNext
    | SetupTextures         // during Render
    | Destroy(id: nat)
    | Link(program: nat)

  function Start(locations: map<(nat, string), int>): State {
    State(BLANK, [], UNDRAWN, World({}, {}, locations), [], [], [])
  }

  function Step(s: State, a: Action): State {
    match a
    case Do(call) =>
      s.(pending := Called(s.pending, call), calls := s.calls + [call])
    case Commit =>
      s.(pending := PendingAfterCommit(s.pending, s.world.dead),
         queue := s.queue + CommandsOfCommit(s.pending, s.world.dead),
         flushed := if Flushes(s.pending, s.world.dead) then s.flushed + s.pending.uniforms else s.flushed)
    case ExecuteNext =>
      if s.queue == [] then s
      else s.(queue := s.queue[1..], rendering := Executed(s.rendering, s.queue[0], s.world),
              writes := s.writes + WritesBy(s.rendering, s.queue[0], s.world))
    case SetupTextures => s.(rendering := s.rendering.(textures := LiveTextures(s.rendering.textures, s.world.dead)))
    case Destroy(id) => s.(world := s.world.(dead := s.world.dead + {id}))
    case Link(p) => s.(world := s.world.(linked := s.world.linked + {p}))
  }

  function Run(locations: map<(nat, string), int>, actions: seq<Action>): State {
    if actions == [] then Start(locations)
    else Step(Run(locations, actions[..|actions| - 1]), actions[|actions| - 1])
  }

  // ---- the calls made, without the pending state ----

  /** The program bound last. */
  function BoundProgram(calls: seq<Call>): Option<nat> {
    if calls == [] then None
    else
      var last := calls[|calls| - 1];
      if last.BindProgram? then last.program else BoundProgram(calls[..|calls| - 1])
  }

  /** The vertex array bound last. */
  function BoundVertexArray(calls: seq<Call>): Option<nat> {
    if calls == [] then None
    else
      var last := calls[|calls| - 1];
      if last.BindVertexArray? then last.vertexArray else BoundVertexArray(calls[..|calls| - 1])
  }

  /** What was bound last to texture unit b. */
  function BoundTexture(calls: seq<Call>, b: nat): Option<Texture> {
    if calls == [] then None
    else
      var last := calls[|calls| - 1];
      if last.BindTexture? && last.binding == b then Some(last.texture) else BoundTexture(calls[..|calls| - 1], b)
  }

  /** The last draw call. */
  function LastDraw(calls: seq<Call>): Option<Call> {
    if calls == [] then None
    else
      var last := calls[|calls| - 1];
      if last.GlDrawArrays? || last.GlDrawElements? then Some(last) else LastDraw(calls[..|calls| - 1])
  }

  /** The buffer named by the last indexed draw call. */
  function IndexBuffer(calls: seq<Call>): Option<nat> {
    if calls == [] then None
    else
      var last := calls[|calls| - 1];
      if last.GlDrawElements? then last.buffer else IndexBuffer(calls[..|calls| - 1])
  }

  /** The uniforms of a supported shape, in call order. */
  function Issued(calls: seq<Call>): seq<Uniform> {
    if calls == [] then []
    else
      var last := calls[|calls| - 1];
      Issued(calls[..|calls| - 1]) + if last.GlUniform? && Acceptable(last.uniform) then [last.uniform] else []
  }

  /** The drawing is that of the call, argument by argument. */
  predicate Draws(d: Draw, call: Option<Call>) {
    match call
    case Some(GlDrawArrays(mode, first, count)) =>
      d.Arrays? && d.mode == mode && d.first == first && d.count == count
    case Some(GlDrawElements(mode, count, kind, offset, _)) =>
      d.Elements? && d.mode == mode && d.count == count && d.kind == kind && d.offset == offset
    case _ => d.NoDraw?
  }

  function TextureAt(textures: map<nat, Texture>, b: nat): Option<Texture> {
    if b in textures then Some(textures[b]) else None
  }

  /** Every pending field but the uniforms is what the calls say. */
  ghost predicate AsCalled(p: Pending, calls: seq<Call>) {
    && Draws(p.draw, LastDraw(calls)) && p.elementArrayBuffer == IndexBuffer(calls)
    && p.program == BoundProgram(calls) && p.vertexArray == BoundVertexArray(calls)
    && (forall b: nat :: TextureAt(p.textures, b) == BoundTexture(calls, b))
  }

  lemma CallAsCalled(p: Pending, calls: seq<Call>, c: Call)
    requires AsCalled(p, calls)
    ensures AsCalled(Called(p, c), calls + [c])
  {
    assert (calls + [c])[..|calls|] == calls;
  }

  /** On every run the pending state is what the calls made so far say: the last program and vertex array bound, for
      each texture unit the last binding, the last draw call and the index buffer of the last indexed one. */
  lemma {:induction false} PendingIsCalled(locations: map<(nat, string), int>, actions: seq<Action>)
    ensures AsCalled(Run(locations, actions).pending, Run(locations, actions).calls)
  {
    if actions != [] {
      var s, a := Run(locations, actions[..|actions| - 1]), actions[|actions| - 1];
      PendingIsCalled(locations, actions[..|actions| - 1]);
      if a.Do? {
        CallAsCalled(s.pending, s.calls, a.call);
      }
    }
  }

  /** The rendering state shows the calls; texture bindings with a dead texture or sampler may be missing. */
  ghost predicate Shows(r: Rendering, calls: seq<Call>, dead: set<nat>) {
    && Draws(r.draw, LastDraw(calls)) && r.elementArrayBuffer == IndexBuffer(calls)
    && r.program == BoundProgram(calls) && r.vertexArray == BoundVertexArray(calls)
    && (forall b: nat | b in r.textures :: BoundTexture(calls, b) == Some(r.textures[b]))
    && (forall b: nat | LiveBinding(BoundTexture(calls, b), dead) :: b in r.textures)
  }

  predicate LiveBinding(t: Option<Texture>, dead: set<nat>) {
    t.Some? && Locks(t.value.texture, dead) && Locks(t.value.sampler, dead)
  }

  lemma ShowsAsCalled(r: Rendering, p: Pending, calls: seq<Call>, dead: set<nat>)
    requires AsCalled(p, calls) && TexturesAgree(r.textures, p.textures, dead)
    requires r.draw == p.draw && r.elementArrayBuffer == p.elementArrayBuffer
    requires r.program == p.program && r.vertexArray == p.vertexArray
    ensures Shows(r, calls, dead)
  {
    hide LastDraw, IndexBuffer, BoundProgram, BoundVertexArray, BoundTexture, Draws;
    forall b: nat ensures b in r.textures ==> BoundTexture(calls, b) == Some(r.textures[b])
                  ensures LiveBinding(BoundTexture(calls, b), dead) ==> b in r.textures {
      assert TextureAt(p.textures, b) == BoundTexture(calls, b);
      assert b in LiveTextures(p.textures, dead) <==> LiveBinding(BoundTexture(calls, b), dead);
    }
  }

  /** The rendering state after running a list of commands. */
  function Drained(r: Rendering, queue: seq<Update>, w: World): Rendering {
    if queue == [] then r
    else Executed(Drained(r, queue[..|queue| - 1], w), queue[|queue| - 1], w)
  }

  function Ahead(s: State): Rendering { Drained(s.rendering, s.queue, s.world) }

  lemma {:induction false} DrainFront(r: Rendering, queue: seq<Update>, w: World)
    requires queue != []
    ensures Drained(Executed(r, queue[0], w), queue[1..], w) == Drained(r, queue, w)
  {
    if |queue| > 1 {
      var n := |queue| - 1;
      assert queue[1..][..n - 1] == queue[..n][1..];
      DrainFront(r, queue[..n], w);
    }
  }

  lemma {:induction false} DrainConcat(r: Rendering, a: seq<Update>, b: seq<Update>, w: World)
    ensures Drained(r, a + b, w) == Drained(Drained(r, a, w), b, w)
  {
    if b == [] {
      assert a + b == a;
    } else {
      assert (a + b)[..|a + b| - 1] == a + b[..|b| - 1];
      DrainConcat(r, a, b[..|b| - 1], w);
    }
  }

  /** All but the uniform map. */
  predicate SameBindings(a: Rendering, b: Rendering) {
    a.draw == b.draw && a.elementArrayBuffer == b.elementArrayBuffer && a.vertexArray == b.vertexArray
    && a.program == b.program
  }

  lemma ExecutedBindings(r: Rendering, r': Rendering, u: Update, w: World, w': World)
    requires SameBindings(r, r')
    ensures SameBindings(Executed(r, u, w), Executed(r', u, w'))
    ensures Executed(r, u, w).textures == (if u.SetTextures? then u.textures else r.textures)
  {
  }

  lemma {:induction false} BindingsIgnoreWorld(r: Rendering, r': Rendering, queue: seq<Update>, w: World, w': World)
    requires SameBindings(r, r')
    ensures SameBindings(Drained(r, queue, w), Drained(r', queue, w'))
    ensures var t, t' := Drained(r, queue, w).textures, Drained(r', queue, w').textures;
            t' == t || (t == r.textures && t' == r'.textures)
  {
    if queue != [] {
      var n := |queue| - 1;
      BindingsIgnoreWorld(r, r', queue[..n], w, w');
      ExecutedBindings(Drained(r, queue[..n], w), Drained(r', queue[..n], w'), queue[n], w, w');
      ExecutedBindings(Drained(r', queue[..n], w'), Drained(r, queue[..n], w), queue[n], w', w);
    }
  }

  /** Equal as far as bindings with a live texture and sampler go, with nothing but asked-for bindings. */
  predicate TexturesAgree(shown: map<nat, Texture>, asked: map<nat, Texture>, dead: set<nat>) {
    && (forall b | b in shown :: b in asked && shown[b] == asked[b])
    && (forall b | b in LiveTextures(asked, dead) :: b in shown)
  }

  predicate Tracked(s: State) {
    var p, r := s.pending, Ahead(s);
    && (!p.drawDamaged ==> r.draw == p.draw && r.elementArrayBuffer == p.elementArrayBuffer)
    && (!p.programDamaged ==> r.program == p.program)
    && (!p.vertexArrayDamaged ==> r.vertexArray == p.vertexArray)
    && (!p.textureDamaged ==> TexturesAgree(r.textures, p.textures, s.world.dead))
  }

  lemma DrainOptional(r: Rendering, b: bool, u: Update, w: World)
    ensures Drained(r, if b then [u] else [], w) == if b then Executed(r, u, w) else r
  {
    assert [u][..0] == [];
  }

  lemma DrainParts(r: Rendering, p: Pending, w: World)
    ensures Drained(r, CommandsOfCommit(p, w.dead), w)
         == Drained(Drained(Drained(Drained(Drained(r, DrawPart(p), w), ProgramPart(p), w),
              VertexArrayPart(p), w), TexturePart(p), w), UniformPart(p, w.dead), w)
  {
    DrainConcat(r, DrawPart(p) + ProgramPart(p) + VertexArrayPart(p) + TexturePart(p), UniformPart(p, w.dead), w);
    DrainConcat(r, DrawPart(p) + ProgramPart(p) + VertexArrayPart(p), TexturePart(p), w);
    DrainConcat(r, DrawPart(p) + ProgramPart(p), VertexArrayPart(p), w);
    DrainConcat(r, DrawPart(p), ProgramPart(p), w);
  }

  lemma CommitDrained(r: Rendering, p: Pending, w: World)
    ensures var r' := Drained(r, CommandsOfCommit(p, w.dead), w);
            && (if p.drawDamaged then r'.draw == p.draw && r'.elementArrayBuffer == p.elementArrayBuffer
                else r'.draw == r.draw && r'.elementArrayBuffer == r.elementArrayBuffer)
            && r'.program == (if p.programDamaged then p.program else r.program)
            && r'.vertexArray == (if p.vertexArrayDamaged then p.vertexArray else r.vertexArray)
            && r'.textures == (if p.textureDamaged then p.textures else r.textures)
            && (Flushes(p, w.dead) && r'.program == p.program && p.program.value in w.linked ==>
                  r'.uniforms == Written(r.uniforms, WritesOf(w, p.program.value, p.uniforms)))
            && (!Flushes(p, w.dead) ==> r'.uniforms == r.uniforms)
  {
    var r1 := Drained(r, DrawPart(p), w);
    var r2 := Drained(r1, ProgramPart(p), w);
    var r3 := Drained(r2, VertexArrayPart(p), w);
    var r4 := Drained(r3, TexturePart(p), w);
    DrainParts(r, p, w);
    DrainOptional(r, p.drawDamaged, SetDraw(p.draw, p.elementArrayBuffer), w);
    DrainOptional(r1, p.programDamaged, SetProgram(p.program), w);
    DrainOptional(r2, p.vertexArrayDamaged, SetVertexArray(p.vertexArray), w);
    DrainOptional(r3, p.textureDamaged, SetTextures(p.textures), w);
    if Flushes(p, w.dead) {
      DrainOptional(r4, true, AddUniforms(p.uniforms, p.program.value), w);
    }
  }

  lemma CommitTracked(s: State)
    requires Tracked(s)
    ensures Tracked(Step(s, Commit))
  {
    var commands := CommandsOfCommit(s.pending, s.world.dead);
    DrainConcat(s.rendering, s.queue, commands, s.world);
    CommitDrained(Ahead(s), s.pending, s.world);
    assert Ahead(Step(s, Commit)) == Drained(Ahead(s), commands, s.world);
    hide Drained, CommandsOfCommit, Executed;
  }

  lemma CallTracked(s: State, call: Call)
    requires Tracked(s)
    ensures Tracked(Step(s, Do(call)))
  {
    assert Ahead(Step(s, Do(call))) == Ahead(s);
  }

  lemma StepTracked(s: State, a: Action)
    requires Tracked(s)
    ensures Tracked(Step(s, a))
  {
    match a
    case Do(call) => CallTracked(s, call);
    case Commit => CommitTracked(s);
    case ExecuteNext =>
      if s.queue != [] { DrainFront(s.rendering, s.queue, s.world); }
    case _ =>
      BindingsIgnoreWorld(s.rendering, Step(s, a).rendering, s.queue, s.world, Step(s, a).world);
  }

  lemma {:induction false} Always(locations: map<(nat, string), int>, actions: seq<Action>)
    ensures Tracked(Run(locations, actions))
  {
    if actions != [] {
      Always(locations, actions[..|actions| - 1]);
      StepTracked(Run(locations, actions[..|actions| - 1]), actions[|actions| - 1]);
    }
  }

  /**
    Refinement: on any run, once a commit has been drained the rendering state shows exactly what the calls before that
    commit asked for, whichever of it was damaged; textures up to dead bindings.
    The uniforms flushed to a live and linked program are written on top of the earlier ones, in call order.
   */
  lemma CommitAndDrain(locations: map<(nat, string), int>, actions: seq<Action>)
    ensures var s, t := Run(locations, actions), Step(Run(locations, actions), Commit);
            var p := s.pending.program;
            && Shows(Ahead(t), s.calls, s.world.dead)
            && (Flushes(s.pending, s.world.dead) && p.value in s.world.linked ==>
                  Ahead(t).uniforms == Written(Ahead(s).uniforms, WritesOf(s.world, p.value, s.pending.uniforms)))
  {
    var s := Run(locations, actions);
    hide Run, Shows;
    Always(locations, actions);
    PendingIsCalled(locations, actions);
    CommitDrains(s);
    ShowsAsCalled(Ahead(Step(s, Commit)), s.pending, s.calls, s.world.dead);
  }

  lemma CommitDrains(s: State)
    requires Tracked(s)
    ensures var r := Ahead(Step(s, Commit));
            && r.draw == s.pending.draw && r.elementArrayBuffer == s.pending.elementArrayBuffer
            && r.program == s.pending.program && r.vertexArray == s.pending.vertexArray
            && TexturesAgree(r.textures, s.pending.textures, s.world.dead)
            && (Flushes(s.pending, s.world.dead) && s.pending.program.value in s.world.linked ==>
                  r.uniforms == Written(Ahead(s).uniforms,
                                        WritesOf(s.world, s.pending.program.value, s.pending.uniforms)))
  {
    CommitTracked(s);
    DrainConcat(s.rendering, s.queue, CommandsOfCommit(s.pending, s.world.dead), s.world);
    CommitDrained(Ahead(s), s.pending, s.world);
    hide Drained, CommandsOfCommit, Executed, WritesOf, Written, TexturesAgree;
  }

  // ---- uniforms ----

  /** Every queued uniform update will find the program it was issued for. */
  predicate WellTargeted(program: Option<nat>, queue: seq<Update>)
    decreases |queue|
  {
    queue == [] ||
    match queue[0]
    case AddUniforms(_, p) => program == Some(p) && WellTargeted(program, queue[1..])
    case SetProgram(p) => WellTargeted(p, queue[1..])
    case _ => WellTargeted(program, queue[1..])
  }

  function LastProgram(program: Option<nat>, queue: seq<Update>): Option<nat>
    decreases |queue|
  {
    if queue == [] then program
    else LastProgram(if queue[0].SetProgram? then queue[0].program else program, queue[1..])
  }

  lemma {:induction false} TargetsConcat(program: Option<nat>, a: seq<Update>, b: seq<Update>)
    ensures WellTargeted(program, a + b) <==> WellTargeted(program, a) && WellTargeted(LastProgram(program, a), b)
    ensures LastProgram(program, a + b) == LastProgram(LastProgram(program, a), b)
    decreases |a|
  {
    if a == [] {
      assert a + b == b;
    } else {
      assert (a + b)[1..] == a[1..] + b;
      TargetsConcat(if a[0].SetProgram? then a[0].program else program, a[1..], b);
    }
  }

  ghost predicate UniformsInv(s: State) {
    && Issued(s.calls) == s.flushed + s.pending.uniforms
    && WellTargeted(s.rendering.program, s.queue)
    && (!s.pending.programDamaged ==> LastProgram(s.rendering.program, s.queue) == s.pending.program)
    && s.rendering.uniforms == Written(map[], s.writes)
  }

  lemma {:induction false} WrittenConcat(slots: map<nat, Slot>, a: seq<Write>, b: seq<Write>)
    ensures Written(slots, a + b) == Written(Written(slots, a), b)
  {
    if b == [] {
      assert a + b == a;
    } else {
      assert (a + b)[..|a + b| - 1] == a + b[..|b| - 1];
      WrittenConcat(slots, a, b[..|b| - 1]);
    }
  }

  lemma CommitTargets(program: Option<nat>, p: Pending, dead: set<nat>)
    requires !p.programDamaged ==> program == p.program
    ensures WellTargeted(program, CommandsOfCommit(p, dead))
    ensures LastProgram(program, CommandsOfCommit(p, dead)) == p.program
  {
    TargetsConcat(program, DrawPart(p) + ProgramPart(p) + VertexArrayPart(p) + TexturePart(p), UniformPart(p, dead));
    TargetsConcat(program, DrawPart(p) + ProgramPart(p) + VertexArrayPart(p), TexturePart(p));
    TargetsConcat(program, DrawPart(p) + ProgramPart(p), VertexArrayPart(p));
    TargetsConcat(program, DrawPart(p), ProgramPart(p));
  }

  lemma CallKeepsUniforms(s: State, call: Call)
    requires UniformsInv(s)
    ensures UniformsInv(Step(s, Do(call)))
  {
    assert (s.calls + [call])[..|s.calls|] == s.calls;
    if call.GlUniform? {
      assert s.flushed + (s.pending.uniforms + [call.uniform]) == Issued(s.calls) + [call.uniform];
    }
  }

  lemma CommitKeepsUniforms(s: State)
    requires UniformsInv(s)
    ensures UniformsInv(Step(s, Commit))
  {
    TargetsConcat(s.rendering.program, s.queue, CommandsOfCommit(s.pending, s.world.dead));
    CommitTargets(LastProgram(s.rendering.program, s.queue), s.pending, s.world.dead);
    assert Issued(s.calls) + [] == Issued(s.calls);
  }

  lemma ExecuteKeepsUniforms(s: State)
    requires UniformsInv(s)
    ensures UniformsInv(Step(s, ExecuteNext))
  {
    if s.queue != [] {
      WrittenConcat(map[], s.writes, WritesBy(s.rendering, s.queue[0], s.world));
      assert s.writes + [] == s.writes;
    }
  }

  lemma StepKeepsUniforms(s: State, a: Action)
    requires UniformsInv(s)
    ensures UniformsInv(Step(s, a))
  {
    match a
    case Do(call) => CallKeepsUniforms(s, call);
    case Commit => CommitKeepsUniforms(s);
    case ExecuteNext => ExecuteKeepsUniforms(s);
    case _ =>
  }

  lemma {:induction false} AlwaysUniforms(locations: map<(nat, string), int>, actions: seq<Action>)
    ensures UniformsInv(Run(locations, actions))
  {
    if actions != [] {
      AlwaysUniforms(locations, actions[..|actions| - 1]);
      StepKeepsUniforms(Run(locations, actions[..|actions| - 1]), actions[|actions| - 1]);
    }
  }

  /** No uniform is lost or reordered before it is flushed: those issued without a live program stay pending. */
  lemma UniformsKept(locations: map<(nat, string), int>, actions: seq<Action>)
    ensures var s := Run(locations, actions);
            && Issued(s.calls) == s.flushed + s.pending.uniforms
            && (!Locks(s.pending.program, s.world.dead) ==> Step(s, Commit).pending.uniforms == s.pending.uniforms)
  {
    AlwaysUniforms(locations, actions);
  }

  /**
    A uniform update always executes with the program it was issued for in the rendering state; it
    writes all its resolvable uniforms if that program is still alive and linked, and nothing otherwise.
   */
  lemma UniformsReachTheirProgram(locations: map<(nat, string), int>, actions: seq<Action>)
    requires Run(locations, actions).queue != [] && Run(locations, actions).queue[0].AddUniforms?
    ensures var s, s' := Run(locations, actions), Step(Run(locations, actions), ExecuteNext);
            var p := s.queue[0].issuedFor;
            && s.rendering.program == Some(p)
            && s'.writes == s.writes + if p !in s.world.dead && p in s.world.linked
                                       then WritesOf(s.world, p, s.queue[0].uniforms) else []
  {
    AlwaysUniforms(locations, actions);
  }

  /** A program that is linked after the commit: the uniform is gone from pending and queue, and was never written. */
  lemma UniformBeforeLinkIsLost(locations: map<(nat, string), int>, p: nat, u: Uniform)
    requires Acceptable(u) && Resolved(World({}, {p}, locations), p, u).Some?
    ensures var bind, uniform := Do(BindProgram(Some(p))), Do(GlUniform(u));
            var s := Run(locations, [bind, uniform, Commit, ExecuteNext, ExecuteNext, Link(p)]);
            && s.queue == [] && s.pending.uniforms == [] && Issued(s.calls) == [u]
            && s.rendering.program == Some(p) && p !in s.world.dead && p in s.world.linked
            && WritesOf(s.world, p, Issued(s.calls)) != [] && s.writes == [] && s.rendering.uniforms == map[]
  {
    hide Run, CommandsOfCommit, Step, Called, Issued, WritesOf;
    var bind, uniform := Do(BindProgram(Some(p))), Do(GlUniform(u));
    var s3 := Step(Step(Step(Start(locations), bind), uniform), Commit);
    SixSteps(locations, bind, uniform, Commit, ExecuteNext, ExecuteNext, Link(p));
    OneUniformCommitted(locations, p, u);
    LostOnTheWay(s3, p, u);
    TwoCalls(bind.call, uniform.call);
    OneWrite(World({}, {p}, locations), p, u);
    assert {} + {p} == {p};
  }

  lemma OneWrite(w: World, p: nat, u: Uniform)
    requires Resolved(w, p, u).Some?
    ensures WritesOf(w, p, [u]) != []
  {
  }

  lemma OneUniformCommitted(locations: map<(nat, string), int>, p: nat, u: Uniform)
    requires Acceptable(u)
    ensures var bind, uniform := Do(BindProgram(Some(p))), Do(GlUniform(u));
            var s := Step(Step(Step(Start(locations), bind), uniform), Commit);
            && s.queue == [SetProgram(Some(p)), AddUniforms([u], p)] && s.pending.uniforms == []
            && s.calls == [bind.call, uniform.call]
            && s.rendering == UNDRAWN && s.world == World({}, {}, locations) && s.writes == []
  {
    hide CommandsOfCommit;
    var bind, uniform := Do(BindProgram(Some(p))), Do(GlUniform(u));
    var s2 := Step(Step(Start(locations), bind), uniform);
    assert s2.pending == BLANK.(program := Some(p), programDamaged := true, uniforms := [u]);
    CommitOfOne(s2, p, u);
    assert s2.calls == [bind.call, uniform.call];
  }

  lemma SixSteps(locations: map<(nat, string), int>, a: Action, b: Action, c: Action, d: Action, e: Action, f: Action)
    ensures Run(locations, [a, b, c, d, e, f]) == Step(Step(Step(Step(Step(Step(Start(locations), a), b), c), d), e), f)
  {
    hide Step;
    var all := [a, b, c, d, e, f];
    assert all[..5] == [a, b, c, d, e] && all[..5][..4] == [a, b, c, d] && all[..5][..4][..3] == [a, b, c];
    assert [a, b, c][..2] == [a, b] && [a, b][..1] == [a] && [a][..0] == [];
    assert Run(locations, [a]) == Step(Start(locations), a);
    assert Run(locations, [a, b]) == Step(Run(locations, [a]), b);
    assert Run(locations, [a, b, c]) == Step(Run(locations, [a, b]), c);
    assert Run(locations, [a, b, c, d]) == Step(Run(locations, [a, b, c]), d);
    assert Run(locations, [a, b, c, d, e]) == Step(Run(locations, [a, b, c, d]), e);
  }

  lemma TwoCalls(bind: Call, uniform: Call)
    requires bind.BindProgram? && uniform.GlUniform? && Acceptable(uniform.uniform)
    ensures Issued([bind, uniform]) == [uniform.uniform]
  {
    assert [bind, uniform][..1] == [bind] && [bind][..0] == [];
    assert Issued([bind]) == [];
  }

  lemma LostOnTheWay(s: State, p: nat, u: Uniform)
    requires s.queue == [SetProgram(Some(p)), AddUniforms([u], p)] && p !in s.world.linked
    ensures var t := Step(Step(Step(s, ExecuteNext), ExecuteNext), Link(p));
            && t == s.(queue := [], rendering := t.rendering, world := t.world)
            && t.rendering == s.rendering.(program := Some(p)) && t.world == s.world.(linked := s.world.linked + {p})
  {
    assert s.queue[1..] == [AddUniforms([u], p)] && s.writes + [] == s.writes;
  }

  lemma CommitOfOne(s: State, p: nat, u: Uniform)
    requires s.pending == BLANK.(program := Some(p), programDamaged := true, uniforms := [u]) && s.world.dead == {}
    ensures CommandsOfCommit(s.pending, s.world.dead) == [SetProgram(Some(p)), AddUniforms([u], p)]
  {
  }

  /** x is the last write to its location. */
  ghost predicate LastTo(writes: seq<Write>, k: int, location: nat) {
    && 0 <= k < |writes| && writes[k].location == location
    && forall j | k < j < |writes| :: writes[j].location != location
  }

  lemma {:induction false} LastWriteWins(writes: seq<Write>, location: nat)
    ensures location in Written(map[], writes) <==> exists k :: LastTo(writes, k, location)
    ensures forall k | LastTo(writes, k, location) :: Written(map[], writes)[location] == SlotOf(writes[k])
  {
    if writes != [] {
      var n := |writes| - 1;
      LastWriteWins(writes[..n], location);
      if writes[n].location == location {
        assert LastTo(writes, n, location);
      } else {
        assert forall k :: LastTo(writes, k, location) <==> LastTo(writes[..n], k, location);
      }
    }
  }

  /** The rendering map holds, under each location ever written, the last value written there, and each key is its
      entry's location. */
  lemma UniformMap(locations: map<(nat, string), int>, actions: seq<Action>, location: nat)
    ensures var s := Run(locations, actions);
            && (location in s.rendering.uniforms <==> exists k :: LastTo(s.writes, k, location))
            && (forall k | LastTo(s.writes, k, location) :: s.rendering.uniforms[location] == SlotOf(s.writes[k]))
            && (location in s.rendering.uniforms ==> s.rendering.uniforms[location].location == location)
  {
    AlwaysUniforms(locations, actions);
    LastWriteWins(Run(locations, actions).writes, location);
  }
}
