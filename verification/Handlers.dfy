/** The request handlers: they look resources up in the pool and use them without a check. */
module Handlers {
  import opened Options
  import C = Container

  datatype Kind =
    | VirtualObject | RenderingUnit | GlBaseTechnique | GlBuffer | GlShader
    | GlProgram | GlTexture | GlSampler | GlVertexArray

  datatype Ref = Ref(kind: Kind, id: nat)

  /** Resources a handler merely passes on, as weak pointers, may be missing; only `parent` and `receiver` are used. */
  datatype Request = New(target: Ref, parent: Option<Ref>) | Call(receiver: Ref) | Delete(target: Ref)

  /** Virtual objects live in the loop-intensive container, everything else in find-by-id containers. */
  datatype Pool = Pool(objects: C.Shared, tables: set<Ref>)

  function EmptyPool(): Pool { Pool(C.Shared(C.Empty(), C.Idle, map[]), {}) }

  // ---- a lookup, with the render thread running ForEach beside it ----

  function Loops(k: nat): seq<C.Action> { seq(k, i => C.LoopStep) }

  function After(loop: C.Loop, k: nat): C.Loop {
    if k == 0 then loop
    else
      match After(loop, k - 1)
      case Idle => C.Locked
      case Locked => C.Merging
      case Merging => C.Purging
      case Purging => C.Visiting
      case Visiting => C.Idle
  }

  /** How long the write lock still keeps a reader out. */
  function Wait(loop: C.Loop): nat {
    match loop
    case Locked => 3
    case Merging => 2
    case Purging => 1
    case _ => 0
  }

  /** Between the two sections of Get the render thread takes k steps, and then as many as the lock makes Get wait
      for. */
  function GetActions(loop: C.Loop, id: nat, k: nat): seq<C.Action> {
    [C.BeginGet(0, id), C.SearchFresh(0)] + Loops(k + Wait(After(loop, k))) + [C.SearchMain(0)]
  }

  function Got(s: C.Shared, id: nat, k: nat): C.Shared { C.RunFrom(s, GetActions(s.loop, id, k)) }

  predicate Finds(s: C.Shared) { 0 in s.getters && s.getters[0].Returned? && s.getters[0].result.Found? }

  /** The pool after a lookup; None when the handler would go on to use what is not there. */
  function LookedUp(p: Pool, r: Ref, k: nat): Option<Pool> {
    if r.kind.VirtualObject? then
      var s := Got(p.objects, r.id, k);
      if Finds(s) then Some(p.(objects := s.(getters := map[]))) else None
    else if r in p.tables then Some(p) else None
  }

  // ---- handlers ----

  function Object(r: Ref): C.Resource { C.Resource(r.id, 0) }

  function Added(p: Pool, r: Ref): Pool {
    if r.kind.VirtualObject? then p.(objects := C.Step(p.objects, C.AddResource(Object(r))))
    else p.(tables := p.tables + {r})
  }

  function Removed(p: Pool, r: Ref): Pool {
    if r.kind.VirtualObject? then p.(objects := C.Step(p.objects, C.Schedule(r.id)))
    else p.(tables := p.tables - {r})
  }

  function Handled(p: Pool, q: Request, k: nat): Option<Pool> {
    match q
    case New(t, None) => Some(Added(p, t))
    case New(t, Some(parent)) =>
      var found := LookedUp(p, parent, k);
      if found.Some? then Some(Added(found.value, t)) else None
    case Call(r) => LookedUp(p, r, k)
    case Delete(t) => Some(Removed(p, t))
  }

  class FindByIdContainer<K(==), R> {
    var table: map<K, R>

    constructor ()
      ensures table == map[]
    {
      table := map[];
    }

    /** An entry already there is kept. */
    method Add(id: K, r: R)
      modifies this
      ensures table == if id in old(table) then old(table) else old(table)[id := r]
    {
      if id !in table {
        table := table[id := r];
      }
    }

    method Get(id: K) returns (result: Option<R>)
      ensures result == if id in table then Some(table[id]) else None
    {
      if id !in table {
        return None;
      }
      return Some(table[id]);
    }

    method ScheduleRemove(id: K)
      modifies this
      ensures table == old(table) - {id}
    {
      table := table - {id};
    }
  }

  class ResourcePool {
    const objects: C.LoopContainer
    const tables: FindByIdContainer<Ref, C.Resource>

    ghost function Value(): Pool
      reads objects, tables
    {
      Pool(C.Shared(objects.Value(), C.Idle, map[]), tables.table.Keys)
    }

    constructor ()
      ensures fresh(objects) && fresh(tables) && Value() == EmptyPool()
    {
      objects := new C.LoopContainer();
      tables := new FindByIdContainer<Ref, C.Resource>();
    }

    method Lookup(r: Ref) returns (found: bool)
      ensures LookedUp(Value(), r, 0) == if found then Some(Value()) else None
    {
      if r.kind.VirtualObject? {
        var result := objects.Get(r.id);
        found := result.Found?;
        QuietGet(Value().objects, r.id);
      } else {
        var result := tables.Get(r);
        found := result.Some?;
      }
    }

    /** A handler, with no ForEach under way. Where `ok` is false the code uses a null pointer or an end iterator. */
    method Handle(q: Request) returns (ok: bool)
      modifies objects, tables
      ensures var after := Handled(old(Value()), q, 0);
              ok == after.Some? && Value() == if ok then after.value else old(Value())
    {
      match q {
        case New(t, parent) =>
          if parent.Some? {
            ok := Lookup(parent.value);
            if !ok { return; }
          }
          if t.kind.VirtualObject? { objects.Add(Object(t)); } else { tables.Add(t, Object(t)); }
          ok := true;
        case Call(r) =>
          ok := Lookup(r);
        case Delete(t) =>
          if t.kind.VirtualObject? { objects.ScheduleRemove(t.id); } else { tables.ScheduleRemove(t); }
          ok := true;
      }
    }
  }

  lemma QuietGet(s: C.Shared, id: nat)
    requires s.getters == map[] && s.loop.Idle?
    ensures var t := Got(s, id, 0);
            && t.(getters := map[]) == s
            && (Finds(t) <==> id in C.Ids(s.c.newcomers) || id in C.Ids(s.c.resources))
  {
    C.FirstFinds(s.c.newcomers, id);
    C.FirstFinds(s.c.resources, id);
    var one := [C.BeginGet(0, id), C.SearchFresh(0)];
    var actions := GetActions(s.loop, id, 0);
    assert actions == one + [C.SearchMain(0)] && actions[..2] == one;
    SearchedFresh(s, id);
    assert Got(s, id, 0) == C.Step(C.RunFrom(s, one), C.SearchMain(0));
  }

  lemma SearchedFresh(s: C.Shared, id: nat)
    ensures C.RunFrom(s, [C.BeginGet(0, id), C.SearchFresh(0)])
         == C.Step(C.Step(s, C.BeginGet(0, id)), C.SearchFresh(0))
  {
    var one := [C.BeginGet(0, id), C.SearchFresh(0)];
    assert one[..1] == [C.BeginGet(0, id)] && one[..1][..0] == [];
    assert C.RunFrom(s, one[..1]) == C.Step(s, C.BeginGet(0, id));
  }

  // ---- runs of handlers ----

  /** The handler thread runs a request, or the render thread does the next section of ForEach. */
  datatype Event = Handle(request: Request, k: nat) | Render

  function Ran(events: seq<Event>): Option<Pool> {
    if events == [] then Some(EmptyPool())
    else
      var before, last := Ran(events[..|events| - 1]), events[|events| - 1];
      if before.None? then None
      else if last.Render? then Some(before.value.(objects := C.Step(before.value.objects, C.LoopStep)))
      else Handled(before.value, last.request, last.k)
  }

  function Requests(events: seq<Event>): seq<Request> {
    if events == [] then []
    else
      var last := events[|events| - 1];
      Requests(events[..|events| - 1]) + if last.Render? then [] else [last.request]
  }

  predicate Creates(q: Request, r: Ref) { q.New? && q.target == r }
  predicate Deletes(q: Request, r: Ref) { q.Delete? && q.target == r }
  predicate Uses(q: Request, r: Ref) { (q.New? && q.parent == Some(r)) || (q.Call? && q.receiver == r) }

  ghost predicate Created(past: seq<Request>, r: Ref) { exists i :: 0 <= i < |past| && Creates(past[i], r) }
  ghost predicate Gone(past: seq<Request>, r: Ref) { exists i :: 0 <= i < |past| && Deletes(past[i], r) }

  /** A request may follow these: it uses what exists, creates what never existed, deletes what was created. */
  ghost predicate Follows(past: seq<Request>, q: Request) {
    forall r :: && (Uses(q, r) ==> Created(past, r) && !Gone(past, r))
                && (Creates(q, r) ==> !Created(past, r))
                && (Deletes(q, r) ==> Created(past, r))
  }

  ghost predicate Sound(past: seq<Request>) {
    forall i | 0 <= i < |past| :: Follows(past[..i], past[i])
  }

  ghost predicate Holds(s: C.Shared, past: seq<Request>) {
    && (forall x | x in s.c.newcomers || x in s.c.resources ::
          x.payload == 0 && Created(past, Ref(VirtualObject, x.id)))
    && (forall id | id in s.c.removing :: Gone(past, Ref(VirtualObject, id)))
    && (forall id: nat | Created(past, Ref(VirtualObject, id)) && !Gone(past, Ref(VirtualObject, id)) ::
          C.Resource(id, 0) in s.c.newcomers || C.Resource(id, 0) in s.c.resources)
  }

  ghost predicate PoolHolds(p: Pool, past: seq<Request>) {
    && p.objects.getters == map[] && Holds(p.objects, past)
    && (forall r: Ref | !r.kind.VirtualObject? && Created(past, r) && !Gone(past, r) :: r in p.tables)
  }

  /** Whatever sections of ForEach and Get run, the container holds what it should. */
  lemma SectionKeepsHolds(s: C.Shared, a: C.Action, past: seq<Request>)
    requires Holds(s, past) && !a.AddResource? && !a.Schedule?
    ensures Holds(C.Step(s, a), past)
  {
    if a.LoopStep? {
      forall x ensures x in C.Without(s.c.resources, s.c.removing) <==> x in s.c.resources && x.id !in s.c.removing {
        C.WithoutMembers(s.c.resources, s.c.removing, x);
      }
    }
  }

  lemma {:induction false} SectionsKeepHolds(s: C.Shared, actions: seq<C.Action>, past: seq<Request>)
    requires Holds(s, past) && forall i | 0 <= i < |actions| :: !actions[i].AddResource? && !actions[i].Schedule?
    ensures Holds(C.RunFrom(s, actions), past)
  {
    if actions != [] {
      var n := |actions| - 1;
      SectionsKeepHolds(s, actions[..n], past);
      SectionKeepsHolds(C.RunFrom(s, actions[..n]), actions[n], past);
    }
  }

  lemma {:induction false} LoopsRun(s: C.Shared, actions: seq<C.Action>, k: nat)
    ensures var t := C.RunFrom(s, actions + Loops(k));
            t.loop == After(C.RunFrom(s, actions).loop, k) && t.getters == C.RunFrom(s, actions).getters
  {
    if k == 0 {
      assert actions + Loops(0) == actions;
    } else {
      LoopsRun(s, actions, k - 1);
      assert (actions + Loops(k))[..|actions| + k - 1] == actions + Loops(k - 1);
    }
  }

  lemma {:induction false} AfterAdds(loop: C.Loop, a: nat, b: nat)
    ensures After(loop, a + b) == After(After(loop, a), b)
  {
    if b > 0 {
      AfterAdds(loop, a, b - 1);
    }
  }

  lemma WaitEnds(loop: C.Loop)
    ensures Wait(After(loop, Wait(loop))) == 0
  {
    assert After(loop, 3) == After(After(loop, 1), 2) by { AfterAdds(loop, 1, 2); }
    assert After(loop, 2) == After(After(loop, 1), 1) by { AfterAdds(loop, 1, 1); }
  }

  /** A Get always comes back: the write lock is held for three sections at most. */
  lemma GetReturns(s: C.Shared, id: nat, k: nat)
    requires s.getters == map[]
    ensures 0 in Got(s, id, k).getters && Got(s, id, k).getters[0].Returned?
  {
    var one := [C.BeginGet(0, id), C.SearchFresh(0)];
    var n := k + Wait(After(s.loop, k));
    var actions := GetActions(s.loop, id, k);
    var t := C.RunFrom(s, one);
    SearchedFresh(s, id);
    LoopsRun(s, one, n);
    AfterAdds(s.loop, k, Wait(After(s.loop, k)));
    WaitEnds(After(s.loop, k));
    assert actions[..|actions| - 1] == one + Loops(n);
  }

  lemma LookupSucceeds(p: Pool, r: Ref, k: nat, past: seq<Request>)
    requires PoolHolds(p, past) && Created(past, r) && !Gone(past, r)
    ensures LookedUp(p, r, k).Some? && PoolHolds(LookedUp(p, r, k).value, past)
  {
    if r.kind.VirtualObject? {
      var actions := GetActions(p.objects.loop, r.id, k);
      GetReturns(p.objects, r.id, k);
      C.GetNeverMisses(p.objects, actions, 0, Object(r));
      SectionsKeepHolds(p.objects, actions, past);
    }
  }

  lemma CreatedMore(past: seq<Request>, q: Request, r: Ref)
    ensures Created(past + [q], r) <==> Created(past, r) || Creates(q, r)
    ensures Gone(past + [q], r) <==> Gone(past, r) || Deletes(q, r)
  {
    var more := past + [q];
    assert more[|past|] == q;
    assert forall i | 0 <= i < |past| :: more[i] == past[i];
    if Created(past, r) {
      var i :| 0 <= i < |past| && Creates(past[i], r);
      assert Creates(more[i], r);
    }
    if Gone(past, r) {
      var i :| 0 <= i < |past| && Deletes(past[i], r);
      assert Deletes(more[i], r);
    }
  }

  /** Deleted implies created: so a resource being created was not deleted either. */
  lemma {:induction false} GoneWasCreated(past: seq<Request>, r: Ref)
    requires Sound(past) && Gone(past, r)
    ensures Created(past, r)
  {
    var i :| 0 <= i < |past| && Deletes(past[i], r);
    assert Created(past[..i], r);
    var j :| 0 <= j < i && Creates(past[..i][j], r);
    assert Creates(past[j], r);
  }

  lemma HandleKeeps(p: Pool, past: seq<Request>, q: Request, k: nat)
    requires Sound(past) && PoolHolds(p, past) && Follows(past, q)
    ensures Handled(p, q, k).Some? && PoolHolds(Handled(p, q, k).value, past + [q])
  {
    forall r: Ref ensures (Created(past + [q], r) <==> Created(past, r) || Creates(q, r))
                       && (Gone(past + [q], r) <==> Gone(past, r) || Deletes(q, r)) {
      CreatedMore(past, q, r);
    }
    hide Created, Gone;
    match q
    case New(t, parent) =>
      var p1 := p;
      if parent.Some? {
        assert Uses(q, parent.value);
        LookupSucceeds(p, parent.value, k, past);
        p1 := LookedUp(p, parent.value, k).value;
      }
      assert Creates(q, t);
    case Call(r) =>
      assert Uses(q, r);
      LookupSucceeds(p, r, k, past);
    case Delete(t) =>
  }

  /** Where requests come in a sound order, no handler ever uses a resource that is not there,
      however the sections of ForEach fall between and inside the handlers. */
  lemma {:induction false} LookupsNeverFail(events: seq<Event>)
    requires Sound(Requests(events))
    ensures Ran(events).Some? && PoolHolds(Ran(events).value, Requests(events))
  {
    if events != [] {
      var n := |events| - 1;
      var before, last := Requests(events[..n]), events[n];
      assert Sound(before) by {
        forall i | 0 <= i < |before| ensures Follows(before[..i], before[i]) {
          assert Requests(events)[..i] == before[..i] && Requests(events)[i] == before[i];
        }
      }
      LookupsNeverFail(events[..n]);
      if last.Render? {
        SectionKeepsHolds(Ran(events[..n]).value.objects, C.LoopStep, before);
        assert Requests(events) == before;
      } else {
        assert Requests(events)[..|before|] == before;
        HandleKeeps(Ran(events[..n]).value, before, last.request, last.k);
      }
    }
  }

  // ---- the exact condition ----

  /** However ForEach is interleaved, no handler of these requests fails. */
  ghost predicate AlwaysFound(past: seq<Request>) {
    forall events | Requests(events) == past :: Ran(events).Some?
  }

  /** Ids are not reused and only what was created is deleted. */
  ghost predicate Orderly(past: seq<Request>) {
    forall i, r | 0 <= i < |past| ::
      && (Creates(past[i], r) ==> !Created(past[..i], r))
      && (Deletes(past[i], r) ==> Created(past[..i], r))
  }

  function Pass(): seq<Event> { [Render, Render, Render, Render, Render] }

  /** A whole ForEach after every request. */
  function Paced(past: seq<Request>): seq<Event> {
    if past == [] then [] else Paced(past[..|past| - 1]) + [Handle(past[|past| - 1], 0)] + Pass()
  }

  /** The pool holds what was created and not deleted, and nothing else. */
  ghost predicate Exact(p: Pool, past: seq<Request>) {
    && p.objects.getters == map[] && p.objects.loop.Idle? && p.objects.c.newcomers == [] && p.objects.c.removing == {}
    && (forall x | x in p.objects.c.resources ::
          Created(past, Ref(VirtualObject, x.id)) && !Gone(past, Ref(VirtualObject, x.id)))
    && (forall r | r in p.tables :: !r.kind.VirtualObject? && Created(past, r) && !Gone(past, r))
  }

  function Swept(p: Pool): Pool { p.(objects := p.objects.(c := C.Purged(C.Merged(p.objects.c)))) }

  lemma RenderOnce(events: seq<Event>)
    ensures Requests(events + [Render]) == Requests(events)
    ensures Ran(events + [Render]) ==
            if Ran(events).Some? then Some(Ran(events).value.(objects := Looped(Ran(events).value.objects)))
            else None
  {
    assert (events + [Render])[..|events|] == events;
  }

  function Looped(s: C.Shared): C.Shared { C.Step(s, C.LoopStep) }

  lemma FiveSections(s: C.Shared)
    requires s.loop.Idle?
    ensures Looped(Looped(Looped(Looped(Looped(s))))) == s.(c := C.Purged(C.Merged(s.c)))
  {
  }

  lemma PassSweeps(events: seq<Event>)
    requires Ran(events).Some? ==> Ran(events).value.objects.loop.Idle?
    ensures Ran(events + Pass()) == if Ran(events).Some? then Some(Swept(Ran(events).value)) else None
    ensures Requests(events + Pass()) == Requests(events)
  {
    hide Requests, Ran, Looped;
    var e1 := events + [Render];
    var e2 := e1 + [Render];
    var e3 := e2 + [Render];
    var e4 := e3 + [Render];
    RenderOnce(events);
    RenderOnce(e1);
    RenderOnce(e2);
    RenderOnce(e3);
    RenderOnce(e4);
    assert events + Pass() == e4 + [Render];
    if Ran(events).Some? {
      FiveSections(Ran(events).value.objects);
    }
  }

  lemma QuietLookup(p: Pool, past: seq<Request>, r: Ref)
    requires Exact(p, past)
    ensures LookedUp(p, r, 0).Some? ==> LookedUp(p, r, 0).value == p && Created(past, r) && !Gone(past, r)
  {
    if r.kind.VirtualObject? {
      QuietGet(p.objects, r.id);
    }
  }

  lemma SweptHolds(p: Pool, x: C.Resource)
    ensures var c := p.objects.c;
            x in Swept(p).objects.c.resources <==> (x in c.resources || x in c.newcomers) && x.id !in c.removing
  {
    C.WithoutMembers(p.objects.c.resources + p.objects.c.newcomers, p.objects.c.removing, x);
  }

  /** After a handler and a whole ForEach the pool is exact again; a handler that returned used only what was there. */
  lemma SweptExact(p: Pool, past: seq<Request>, q: Request)
    requires Exact(p, past) && Handled(p, q, 0).Some? && (forall r | Gone(past, r) :: Created(past, r))
    requires forall r | Creates(q, r) :: !Created(past, r)
    ensures Exact(Swept(Handled(p, q, 0).value), past + [q])
    ensures Handled(p, q, 0).value.objects.loop.Idle?
    ensures forall r | Uses(q, r) :: Created(past, r) && !Gone(past, r)
  {
    forall r: Ref ensures (Created(past + [q], r) <==> Created(past, r) || Creates(q, r))
                       && (Gone(past + [q], r) <==> Gone(past, r) || Deletes(q, r)) {
      CreatedMore(past, q, r);
    }
    if q.New? && q.parent.Some? { QuietLookup(p, past, q.parent.value); }
    if q.Call? { QuietLookup(p, past, q.receiver); }
    hide Created, Gone, LookedUp;
    var p1 := Handled(p, q, 0).value;
    assert p1 == if q.New? then Added(p, q.target) else if q.Delete? then Removed(p, q.target) else p;
    forall x | x in Swept(p1).objects.c.resources
      ensures Created(past + [q], Ref(VirtualObject, x.id)) && !Gone(past + [q], Ref(VirtualObject, x.id)) {
      SweptHolds(p1, x);
    }
  }

  lemma {:induction false} OrderlyPrefix(past: seq<Request>)
    requires Orderly(past) && past != []
    ensures Orderly(past[..|past| - 1])
  {
    var front := past[..|past| - 1];
    assert forall i | 0 <= i < |front| :: front[i] == past[i] && front[..i] == past[..i];
  }

  lemma OrderlyGone(past: seq<Request>, r: Ref)
    requires Orderly(past) && Gone(past, r)
    ensures Created(past, r)
  {
    var i :| 0 <= i < |past| && Deletes(past[i], r);
    var j :| 0 <= j < i && Creates(past[..i][j], r);
    assert Creates(past[j], r);
  }

  /** With a whole ForEach after each request, the first unsound request fails. */
  lemma {:induction false} PacedRun(past: seq<Request>)
    requires Orderly(past)
    ensures Requests(Paced(past)) == past
    ensures Ran(Paced(past)).Some? ==> Sound(past) && Exact(Ran(Paced(past)).value, past)
  {
    hide Orderly, Sound, Exact, Handled, Swept, Ran, Requests;
    if past == [] {
      NothingPaced();
    } else {
      var n := |past| - 1;
      var front, q := past[..n], past[n];
      assert past == front + [q];
      OrderlyPrefix(past);
      PacedRun(front);
      HandleOnce(Paced(front), q);
      if Ran(Paced(front)).Some? && Ran(Paced(front) + [Handle(q, 0)]).Some? {
        PacedStep(Ran(Paced(front)).value, front, q);
      }
      PassSweeps(Paced(front) + [Handle(q, 0)]);
    }
  }

  lemma NothingPaced()
    ensures Requests(Paced([])) == [] && Ran(Paced([])).Some? && Sound([]) && Exact(Ran(Paced([])).value, [])
  {
  }

  lemma HandleOnce(events: seq<Event>, q: Request)
    ensures Requests(events + [Handle(q, 0)]) == Requests(events) + [q]
    ensures Ran(events + [Handle(q, 0)])
         == if Ran(events).Some? then Handled(Ran(events).value, q, 0) else None
  {
    assert (events + [Handle(q, 0)])[..|events|] == events;
  }

  lemma PacedStep(p: Pool, front: seq<Request>, q: Request)
    requires Orderly(front + [q]) && Sound(front) && Exact(p, front) && Handled(p, q, 0).Some?
    ensures Exact(Swept(Handled(p, q, 0).value), front + [q]) && Sound(front + [q])
    ensures Handled(p, q, 0).value.objects.loop.Idle?
  {
    assert (front + [q])[..|front|] == front && (front + [q])[|front|] == q;
    OrderlyPrefix(front + [q]);
    forall r | Gone(front, r) ensures Created(front, r) { OrderlyGone(front, r); }
    forall r | Creates(q, r) ensures !Created(front, r) {
    }
    SweptExact(p, front, q);
    hide Orderly, Exact, Handled, Swept, Created, Gone;
    SoundMore(front, q);
  }

  lemma SoundMore(past: seq<Request>, q: Request)
    requires Sound(past) && Follows(past, q)
    ensures Sound(past + [q])
  {
    var more := past + [q];
    forall i | 0 <= i < |more| ensures Follows(more[..i], more[i]) {
      assert more[..i] == past[..i];
    }
  }

  /** The exact condition: no interleaving lets a handler fail if and only if each request uses what was created
      before it and not deleted before it. */
  lemma AlwaysFoundIffSound(past: seq<Request>)
    requires Orderly(past)
    ensures AlwaysFound(past) <==> Sound(past)
  {
    if Sound(past) {
      forall events | Requests(events) == past ensures Ran(events).Some? {
        LookupsNeverFail(events);
      }
    }
    if AlwaysFound(past) {
      PacedRun(past);
      assert Ran(Paced(past)).Some?;
    }
  }
}
