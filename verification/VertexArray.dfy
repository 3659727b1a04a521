/** The vertex array: per-attribute damage tracking between the pending state and GL. */
module VertexArray {
  import opened Options
  import AtomicQueue

  /** The arguments of glVertexAttribPointer. `buffer` is the id behind the weak pointer, if it had one. */
  datatype Pointer = Pointer(buffer: Option<nat>, size: int, kind: nat, normalized: bool, stride: int, offset: nat)

  /** `pointer` is set once the attribute is filled. */
  datatype Attrib = Attrib(pointer: Option<Pointer>, enabled: bool, damaged: bool)

  type Attributes = map<nat, Attrib>

  datatype Pending = Pending(attributes: Attributes, damaged: bool)

  datatype Setter =
    | GlEnableVertexAttribArray(index: nat)
    | GlDisableVertexAttribArray(index: nat)
    | GlVertexAttribPointer(index: nat, pointer: Pointer)

  const BLANK := Attrib(None, false, false)

  function Entry(attributes: Attributes, i: nat): Attrib {
    if i in attributes then attributes[i] else BLANK
  }

  function Changed(a: Attrib, s: Setter): Attrib {
    match s
    case GlEnableVertexAttribArray(_) => a.(enabled := true, damaged := true)
    case GlDisableVertexAttribArray(_) => a.(enabled := false, damaged := true)
    case GlVertexAttribPointer(_, p) => a.(pointer := Some(p), damaged := true)
  }

  function Set(p: Pending, s: Setter): Pending {
    Pending(p.attributes[s.index := Changed(Entry(p.attributes, s.index), s)], true)
  }

  /** The snapshot an update command captures, if the commit pushes one. */
  function CommandsOfCommit(p: Pending): seq<Attributes> {
    if p.damaged then [p.attributes] else []
  }

  function Cleared(attributes: Attributes): Attributes {
    map i | i in attributes :: attributes[i].(damaged := false)
  }

  function PendingAfterCommit(p: Pending): Pending {
    if p.damaged then Pending(Cleared(p.attributes), false) else p
  }

  /** One attribute of the GL vertex array object; the default is disabled and pointing nowhere. */
  datatype GlAttrib = GlAttrib(enabled: bool, pointer: Option<Pointer>)

  type Gl = map<nat, GlAttrib>

  function At(gl: Gl, i: nat): GlAttrib {
    if i in gl then gl[i] else GlAttrib(false, None)
  }

  const ARRAY_BUFFER: nat := 0x8892
  const ELEMENT_ARRAY_BUFFER: nat := 0x8893

  /** What execution depends on besides GL: the buffers destroyed, and for each buffer that an upload has given a name
      the target of its last upload. */
  datatype Buffers = Buffers(dead: set<nat>, targets: map<nat, nat>)

  /** weak_ptr::lock, given the buffers already destroyed. */
  predicate Locks(p: Pointer, dead: set<nat>) {
    p.buffer.Some? && p.buffer.value !in dead
  }

  /** Binding the buffer of p under its own target makes it the array buffer. Without a name it is bound as 0. */
  predicate Binds(p: Pointer, targets: map<nat, nat>) {
    p.buffer.Some? && p.buffer.value in targets && targets[p.buffer.value] == ARRAY_BUFFER
  }

  /**
    glVertexAttribPointer after that. While no buffer is bound as array buffer GL accepts a null offset, which leaves
    the attribute without a buffer, and rejects any other.
   */
  function Pointed(g: Option<Pointer>, p: Pointer, targets: map<nat, nat>): Option<Pointer> {
    if Binds(p, targets) then Some(p) else if p.offset == 0 then None else g
  }

  function Updated(g: GlAttrib, a: Attrib, w: Buffers): GlAttrib {
    if !a.damaged then g
    else
      GlAttrib(a.enabled,
               if a.pointer.Some? && Locks(a.pointer.value, w.dead) then Pointed(g.pointer, a.pointer.value, w.targets)
               else g.pointer)
  }

  /** What an update command does. */
  function Executed(gl: Gl, attributes: Attributes, w: Buffers): Gl {
    map i | i in gl.Keys + attributes.Keys :: Updated(At(gl, i), Entry(attributes, i), w)
  }

  class GlVertexArray {
    const updateRenderingQueue: AtomicQueue.AtomicCommandQueue<Attributes>
    var attributes: Attributes
    var damaged: bool

    ghost function Value(): Pending
      reads this
    {
      Pending(attributes, damaged)
    }

    constructor (queue: AtomicQueue.AtomicCommandQueue<Attributes>)
      ensures Value() == Pending(map[], false) && updateRenderingQueue == queue
    {
      updateRenderingQueue, attributes, damaged := queue, map[], false;
    }

    method EnableVertexAttribArray(index: nat)
      modifies this
      ensures Value() == Set(old(Value()), GlEnableVertexAttribArray(index))
    {
      InsertIfAbsent(index);
      attributes := attributes[index := attributes[index].(enabled := true, damaged := true)];
      damaged := true;
    }

    method DisableVertexAttribArray(index: nat)
      modifies this
      ensures Value() == Set(old(Value()), GlDisableVertexAttribArray(index))
    {
      InsertIfAbsent(index);
      attributes := attributes[index := attributes[index].(enabled := false, damaged := true)];
      damaged := true;
    }

    method VertexAttribPointer(index: nat, pointer: Pointer)
      modifies this
      ensures Value() == Set(old(Value()), GlVertexAttribPointer(index, pointer))
    {
      InsertIfAbsent(index);
      attributes := attributes[index := attributes[index].(pointer := Some(pointer), damaged := true)];
      damaged := true;
    }

    /** map::insert keeps an existing entry. */
    method InsertIfAbsent(index: nat)
      modifies this`attributes
      ensures attributes == old(attributes)[index := Entry(old(attributes), index)]
    {
      if index !in attributes {
        attributes := attributes[index := BLANK];
      }
    }

    /** The buffers committed first are the business of the scene. */
    method Commit()
      requires updateRenderingQueue.Valid()
      modifies this, updateRenderingQueue
      ensures updateRenderingQueue.Valid() && Value() == PendingAfterCommit(old(Value()))
      ensures updateRenderingQueue.queue == old(updateRenderingQueue.queue)
                + (if old(damaged) then [AtomicQueue.Command(old(attributes))] else [])
    {
      if damaged == false {
        return;
      }
      updateRenderingQueue.Push(attributes);
      damaged := false;
      var todo := attributes.Keys;
      while todo != {}
        invariant todo <= attributes.Keys == old(attributes).Keys
        invariant forall i | i in attributes ::
          attributes[i] == if i in todo then old(attributes)[i] else old(attributes)[i].(damaged := false)
        invariant damaged == false && updateRenderingQueue.Valid()
        invariant updateRenderingQueue.queue == old(updateRenderingQueue.queue) + [AtomicQueue.Command(old(attributes))]
        decreases |todo|
      {
        var i :| i in todo;
        todo := todo - {i};
        attributes := attributes[i := attributes[i].(damaged := false)];
      }
      assert attributes == Cleared(old(attributes));
    }
  }

  class VertexArrayObject {
    var gl: Gl

    /** The body of the update command, in whatever order the attribute map is visited. */
    method Update(attributes: Attributes, w: Buffers)
      modifies this
      ensures forall i :: At(gl, i) == At(Executed(old(gl), attributes, w), i)
    {
      var todo := attributes.Keys;
      while todo != {}
        invariant todo <= attributes.Keys
        invariant forall i ::
          At(gl, i) == if i in todo then At(old(gl), i) else Updated(At(old(gl), i), Entry(attributes, i), w)
        decreases |todo|
      {
        var i :| i in todo;
        todo := todo - {i};
        var a, g := attributes[i], At(gl, i);
        if a.damaged {
          gl := gl[i := g.(enabled := a.enabled)];
          if a.pointer.Some? && Locks(a.pointer.value, w.dead) {
            gl := gl[i := gl[i].(pointer := Pointed(gl[i].pointer, a.pointer.value, w.targets))];
          }
        }
      }
    }
  }

  // ---- whole runs: the damage-only update refines replaying every setter ----

  /** A command executed, with the buffers as they were then. */
  datatype Execution = Execution(attributes: Attributes, w: Buffers)

  /** `runs` is history: the executions so far. */
  datatype State = State(
    pending: Pending, queue: seq<Attributes>, gl: Gl, w: Buffers, setters: seq<Setter>, runs: seq<Execution>)

  datatype Action =
    | Call(s: Setter) | Commit | ExecuteNext
    | Upload(buffer: nat, target: nat)    // the render thread runs an upload of the buffer
    | Destroy(buffer: nat)

  function Start(): State { State(Pending(map[], false), [], map[], Buffers({}, map[]), [], []) }

  function Step(s: State, a: Action): State {
    match a
    case Call(setter) => s.(pending := Set(s.pending, setter), setters := s.setters + [setter])
    case Commit => s.(pending := PendingAfterCommit(s.pending), queue := s.queue + CommandsOfCommit(s.pending))
    case ExecuteNext =>
      if s.queue == [] then s
      else s.(queue := s.queue[1..], gl := Executed(s.gl, s.queue[0], s.w),
              runs := s.runs + [Execution(s.queue[0], s.w)])
    case Upload(b, target) => s.(w := s.w.(targets := s.w.targets[b := target]))
    case Destroy(b) => s.(w := s.w.(dead := s.w.dead + {b}))
  }

  function Run(actions: seq<Action>): State {
    if actions == [] then Start()
    else Step(Run(actions[..|actions| - 1]), actions[|actions| - 1])
  }

  /** The reference: every setter goes to GL at once. */
  function Replayed(setters: seq<Setter>): Gl {
    if setters == [] then map[]
    else
      var before, s := Replayed(setters[..|setters| - 1]), setters[|setters| - 1];
      var g := At(before, s.index);
      match s
      case GlEnableVertexAttribArray(i) => before[i := g.(enabled := true)]
      case GlDisableVertexAttribArray(i) => before[i := g.(enabled := false)]
      case GlVertexAttribPointer(i, p) => before[i := g.(pointer := Some(p))]
  }

  /** GL after these executions. */
  function Played(runs: seq<Execution>): Gl {
    if runs == [] then map[]
    else Executed(Played(runs[..|runs| - 1]), runs[|runs| - 1].attributes, runs[|runs| - 1].w)
  }

  /** The queue, executed now. */
  function Now(queue: seq<Attributes>, w: Buffers): (runs: seq<Execution>)
    ensures |runs| == |queue| && forall k | 0 <= k < |queue| :: runs[k] == Execution(queue[k], w)
  {
    seq(|queue|, k requires 0 <= k < |queue| => Execution(queue[k], w))
  }

  /** All executions, once the queue is drained, and GL then. */
  function AllRuns(s: State): seq<Execution> { s.runs + Now(s.queue, s.w) }

  function Ahead(s: State): Gl { Played(AllRuns(s)) }

  // ---- which execution decides an attribute ----

  predicate Carries(attributes: Attributes, i: nat) { Entry(attributes, i).damaged }

  /** The last change of attribute i. */
  function LastChange(queue: seq<Attributes>, i: nat): Option<Attributes> {
    if queue == [] then None
    else if Carries(queue[|queue| - 1], i) then Some(queue[|queue| - 1])
    else LastChange(queue[..|queue| - 1], i)
  }

  function Snapshots(runs: seq<Execution>): (queue: seq<Attributes>)
    ensures |queue| == |runs| && forall k | 0 <= k < |runs| :: queue[k] == runs[k].attributes
  {
    seq(|runs|, k requires 0 <= k < |runs| => runs[k].attributes)
  }

  /** The execution sets or clears the pointer of attribute i: it carries one into a live buffer, and GL does not
      reject it. */
  predicate Decides(e: Execution, i: nat) {
    var a := Entry(e.attributes, i);
    && a.damaged && a.pointer.Some? && Locks(a.pointer.value, e.w.dead)
    && (Binds(a.pointer.value, e.w.targets) || a.pointer.value.offset == 0)
  }

  function LastDecision(runs: seq<Execution>, i: nat): Option<Execution> {
    if runs == [] then None
    else if Decides(runs[|runs| - 1], i) then Some(runs[|runs| - 1])
    else LastDecision(runs[..|runs| - 1], i)
  }

  /** The last execution that was not rejected is of pointer p, and found its buffer bound as array buffer. */
  predicate Arrives(runs: seq<Execution>, i: nat, p: Pointer) {
    var e := LastDecision(runs, i);
    e.Some? && Entry(e.value.attributes, i).pointer == Some(p) && Binds(p, e.value.w.targets)
  }

  lemma {:induction false} PlayedAt(runs: seq<Execution>, i: nat)
    ensures var g, last := At(Played(runs), i), LastChange(Snapshots(runs), i);
            && g.enabled == (last.Some? && Entry(last.value, i).enabled)
            && (forall p :: g.pointer == Some(p) <==> Arrives(runs, i, p))
  {
    if runs != [] {
      PlayedAt(runs[..|runs| - 1], i);
      assert Snapshots(runs)[..|runs| - 1] == Snapshots(runs[..|runs| - 1]);
    }
  }

  // ---- invariant ----

  /** The pending entry is what the setters asked for. */
  predicate AsSet(p: Pending, setters: seq<Setter>, i: nat) {
    var a, d := Entry(p.attributes, i), At(Replayed(setters), i);
    a.enabled == d.enabled && a.pointer == d.pointer
  }

  lemma SetAsSet(p: Pending, setters: seq<Setter>, setter: Setter, i: nat)
    requires AsSet(p, setters, i)
    ensures AsSet(Set(p, setter), setters + [setter], i)
  {
    assert (setters + [setter])[..|setters|] == setters;
  }

  /** The pending entry is what the setters asked for. Unless it is damaged, the last change that was pushed carries
      it. */
  ghost predicate Tracked(s: State, i: nat) {
    var a := Entry(s.pending.attributes, i);
    var last := LastChange(Snapshots(s.runs) + s.queue, i);
    && AsSet(s.pending, s.setters, i)
    && (a.damaged ==> s.pending.damaged)
    && (a.pointer.None? ==> NoPointer(Snapshots(s.runs) + s.queue, i))
    && (!a.damaged ==> if last.Some? then Entry(last.value, i) == a.(damaged := true) else a == BLANK)
  }

  predicate NoPointer(queue: seq<Attributes>, i: nat) {
    forall k | 0 <= k < |queue| :: Entry(queue[k], i).pointer.None?
  }

  lemma CallTracked(s: State, setter: Setter, i: nat)
    requires Tracked(s, i)
    ensures Tracked(Step(s, Call(setter)), i)
  {
    assert (s.setters + [setter])[..|s.setters|] == s.setters;
  }

  lemma CommitTracked(s: State, i: nat)
    requires Tracked(s, i)
    ensures Tracked(Step(s, Commit), i) && !Entry(Step(s, Commit).pending.attributes, i).damaged
  {
    var pushed := Snapshots(s.runs) + s.queue;
    if s.pending.damaged {
      var more := pushed + [s.pending.attributes];
      assert Snapshots(s.runs) + (s.queue + [s.pending.attributes]) == more && more[..|pushed|] == pushed;
    } else {
      assert s.queue + [] == s.queue;
    }
  }

  lemma ExecuteTracked(s: State, i: nat)
    requires Tracked(s, i) && s.queue != []
    ensures Tracked(Step(s, ExecuteNext), i)
  {
    assert Snapshots(s.runs + [Execution(s.queue[0], s.w)]) + s.queue[1..] == Snapshots(s.runs) + s.queue;
  }

  lemma StepTracked(s: State, a: Action, i: nat)
    requires Tracked(s, i)
    ensures Tracked(Step(s, a), i)
  {
    match a
    case Call(setter) => CallTracked(s, setter, i);
    case Commit => CommitTracked(s, i);
    case ExecuteNext => if s.queue != [] { ExecuteTracked(s, i); }
    case _ =>
  }

  lemma {:induction false} Always(actions: seq<Action>, i: nat)
    ensures Tracked(Run(actions), i)
  {
    if actions != [] {
      Always(actions[..|actions| - 1], i);
      StepTracked(Run(actions[..|actions| - 1]), actions[|actions| - 1], i);
    }
  }

  /** GL is what the executions so far have made of it. */
  lemma {:induction false} GlIsPlayed(actions: seq<Action>)
    ensures Run(actions).gl == Played(Run(actions).runs)
  {
    if actions != [] {
      var n := |actions| - 1;
      var s := Run(actions[..n]);
      GlIsPlayed(actions[..n]);
      if actions[n].ExecuteNext? && s.queue != [] {
        assert (s.runs + [Execution(s.queue[0], s.w)])[..|s.runs|] == s.runs;
      }
    }
  }

  lemma {:induction false} NeverDecided(runs: seq<Execution>, i: nat)
    requires NoPointer(Snapshots(runs), i)
    ensures LastDecision(runs, i) == None
  {
    if runs != [] {
      var n := |runs| - 1;
      var before := Snapshots(runs[..n]);
      assert Snapshots(runs)[n] == runs[n].attributes && Snapshots(runs)[..n] == before;
      forall k | 0 <= k < |before| ensures Entry(before[k], i).pointer.None? {
        assert before[k] == Snapshots(runs)[k];
      }
      NeverDecided(runs[..n], i);
    }
  }

  /**
    Refinement: after any run of setters, commits, executions, uploads and buffer deaths, a commit and a drain leave
    every attribute enabled or not as replaying all setters would. A pointer that was asked for is there if and only if
    the last execution for the attribute that GL did not reject was of this pointer, its buffer bound as array buffer.
   */
  lemma CommitAndDrainReplay(actions: seq<Action>, i: nat)
    ensures var s := Step(Run(actions), Commit);
            var g, d := At(Ahead(s), i), At(Replayed(s.setters), i);
            && g.enabled == d.enabled
            && (g == d <==> d.pointer.None? || Arrives(AllRuns(s), i, d.pointer.value))
  {
    hide Played, Replayed, LastDecision, LastChange, Decides, Step, Run;
    Always(actions, i);
    CommitTracked(Run(actions), i);
    Shown(Step(Run(actions), Commit), i);
  }

  /** An undamaged attribute, once the queue is drained. */
  lemma Shown(s: State, i: nat)
    requires Tracked(s, i) && !Entry(s.pending.attributes, i).damaged
    ensures var g, d := At(Ahead(s), i), At(Replayed(s.setters), i);
            && g.enabled == d.enabled
            && (g == d <==> d.pointer.None? || Arrives(AllRuns(s), i, d.pointer.value))
  {
    hide Played, Replayed, LastDecision, LastChange, Decides;
    var runs := AllRuns(s);
    assert Snapshots(runs) == Snapshots(s.runs) + s.queue;
    PlayedAt(runs, i);
    if At(Replayed(s.setters), i).pointer.None? {
      NeverDecided(runs, i);
    }
  }

  /** All of GL equals the replay if and only if every pointer that was asked for arrives. */
  lemma CommitAndDrainReplayExactly(actions: seq<Action>)
    ensures var s := Step(Run(actions), Commit);
            (forall i: nat :: At(Ahead(s), i) == At(Replayed(s.setters), i))
            <==> (forall i: nat | At(Replayed(s.setters), i).pointer.Some? :: ArrivesAsAsked(s, i))
  {
    forall i: nat
      ensures var s := Step(Run(actions), Commit);
              At(Ahead(s), i) == At(Replayed(s.setters), i)
              <==> (At(Replayed(s.setters), i).pointer.Some? ==> ArrivesAsAsked(s, i))
    {
      CommitAndDrainReplay(actions, i);
    }
  }

  predicate ArrivesAsAsked(s: State, i: nat) {
    var p := At(Replayed(s.setters), i).pointer;
    p.Some? && Arrives(AllRuns(s), i, p.value)
  }

  predicate IsLastCarrier(runs: seq<Execution>, k: nat, i: nat) {
    && k < |runs| && Carries(runs[k].attributes, i)
    && forall j | k < j < |runs| :: !Carries(runs[j].attributes, i)
  }

  /** The last change of an attribute decides, unless its buffer is dead or GL rejects it; then those before it do. */
  lemma {:induction false} LastChangeDecides(runs: seq<Execution>, k: nat, i: nat, p: Pointer)
    requires IsLastCarrier(runs, k, i) && Entry(runs[k].attributes, i).pointer == Some(p)
    ensures Arrives(runs, i, p) <==>
              if Locks(p, runs[k].w.dead) && (Binds(p, runs[k].w.targets) || p.offset == 0)
              then Binds(p, runs[k].w.targets)
              else Arrives(runs[..k], i, p)
  {
    var n := |runs| - 1;
    if k < n {
      assert !Carries(runs[n].attributes, i);
      LastChangeDecides(runs[..n], k, i, p);
      assert runs[..n][..k] == runs[..k];
    }
  }

  /** A live buffer without data: the pointer is lost, and data that comes later does not bring it back. */
  lemma PointerBeforeDataIsLost(p: Pointer, b: nat)
    requires p.buffer == Some(b)
    ensures var s := Run([Call(GlVertexAttribPointer(0, p)), Commit, ExecuteNext, Upload(b, ARRAY_BUFFER)]);
            && s.queue == [] && !s.pending.damaged
            && At(Replayed(s.setters), 0).pointer == Some(p) && Locks(p, s.w.dead) && Binds(p, s.w.targets)
            && At(s.gl, 0).pointer == None
  {
    hide Run, Executed;
    var setter := Call(GlVertexAttribPointer(0, p));
    FourSteps(setter, Commit, ExecuteNext, Upload(b, ARRAY_BUFFER));
    PointerQueued(Start(), p);
    UnboundIsLost(Step(Step(Start(), setter), Commit), p);
  }

  lemma PointerQueued(s: State, p: Pointer)
    requires s == Start().(w := s.w)
    ensures var t := Step(Step(s, Call(GlVertexAttribPointer(0, p))), Commit);
            && t.queue == [map[0 := Attrib(Some(p), false, true)]] && t.gl == map[] && t.w == s.w && !t.pending.damaged
            && At(Replayed(t.setters), 0).pointer == Some(p)
  {
    var setter := GlVertexAttribPointer(0, p);
    assert Step(s, Call(setter)).setters == [setter] && [setter][..0] == [];
  }

  lemma UnboundIsLost(s: State, p: Pointer)
    requires s.queue == [map[0 := Attrib(Some(p), false, true)]] && s.gl == map[] && !Binds(p, s.w.targets)
    ensures var t := Step(s, ExecuteNext);
            At(t.gl, 0).pointer == None && t == s.(queue := [], gl := t.gl, runs := t.runs)
  {
  }

  lemma FourSteps(a: Action, b: Action, c: Action, d: Action)
    ensures Run([a, b, c, d]) == Step(Step(Step(Step(Start(), a), b), c), d)
  {
    var all := [a, b, c, d];
    assert all[..3] == [a, b, c] && [a, b, c][..2] == [a, b] && [a, b][..1] == [a] && [a][..0] == [];
    assert Run([a]) == Step(Start(), a);
    assert Run([a, b]) == Step(Run([a]), b);
    assert Run([a, b, c]) == Step(Run([a, b]), c);
  }

  /** A live buffer whose data was given for another target: it has a name, and still the pointer is lost. */
  lemma PointerWithoutArrayDataIsLost(p: Pointer, b: nat)
    requires p.buffer == Some(b)
    ensures var s := Run([Upload(b, ELEMENT_ARRAY_BUFFER), Call(GlVertexAttribPointer(0, p)), Commit, ExecuteNext]);
            && s.queue == [] && !s.pending.damaged
            && At(Replayed(s.setters), 0).pointer == Some(p) && Locks(p, s.w.dead) && b in s.w.targets
            && At(s.gl, 0).pointer == None
  {
    hide Run, Executed;
    var upload, setter := Upload(b, ELEMENT_ARRAY_BUFFER), Call(GlVertexAttribPointer(0, p));
    FourSteps(upload, setter, Commit, ExecuteNext);
    PointerQueued(Step(Start(), upload), p);
    UnboundIsLost(Step(Step(Step(Start(), upload), setter), Commit), p);
  }

  /** A commit without damage pushes nothing, and every attribute is enabled as asked already. */
  lemma SkippedCommitKeepsAttributes(actions: seq<Action>, i: nat)
    requires !Run(actions).pending.damaged
    ensures Step(Run(actions), Commit) == Run(actions)
    ensures var s := Run(actions);
            At(Ahead(s), i).enabled == At(Replayed(s.setters), i).enabled
  {
    assert Run(actions).queue + [] == Run(actions).queue;
    CommitAndDrainReplay(actions, i);
  }
}
