/** The loop-intensive resource container: a main list, a list of newcomers and a set of ids to remove. */
module Container {

  datatype Resource = Resource(id: nat, payload: int)

  /** NoSuchElement: the search ends on end() of the main list, which the code then dereferences. */
  datatype Lookup = Found(resource: Resource) | NoSuchElement

  datatype Contents = Contents(resources: seq<Resource>, newcomers: seq<Resource>, removing: set<nat>)

  function Empty(): Contents { Contents([], [], {}) }

  function Without(rs: seq<Resource>, ids: set<nat>): seq<Resource> {
    if rs == [] then []
    else (if rs[0].id in ids then [] else [rs[0]]) + Without(rs[1..], ids)
  }

  function Ids(rs: seq<Resource>): set<nat> {
    set i | 0 <= i < |rs| :: rs[i].id
  }

  /** What the container stands for: the resources added and not scheduled for removal, in insertion order. */
  function View(c: Contents): seq<Resource> {
    Without(c.resources + c.newcomers, c.removing)
  }

  /** The first two critical sections of ForEach. */
  function Merged(c: Contents): Contents {
    c.(resources := c.resources + c.newcomers, newcomers := [])
  }

  function Purged(c: Contents): Contents {
    c.(resources := Without(c.resources, c.removing), removing := {})
  }

  lemma {:induction false} WithoutConcat(a: seq<Resource>, b: seq<Resource>, ids: set<nat>)
    ensures Without(a + b, ids) == Without(a, ids) + Without(b, ids)
  {
    if a == [] {
      assert a + b == b;
    } else {
      assert (a + b)[1..] == a[1..] + b;
      WithoutConcat(a[1..], b, ids);
    }
  }

  lemma {:induction false} WithoutMembers(rs: seq<Resource>, ids: set<nat>, r: Resource)
    ensures r in Without(rs, ids) <==> r in rs && r.id !in ids
  {
    if rs != [] {
      WithoutMembers(rs[1..], ids, r);
      assert rs == [rs[0]] + rs[1..];
    }
  }

  lemma {:induction false} WithoutTwice(rs: seq<Resource>, a: set<nat>, b: set<nat>)
    ensures Without(Without(rs, a), b) == Without(rs, a + b)
  {
    if rs != [] {
      WithoutTwice(rs[1..], a, b);
      WithoutConcat(if rs[0].id in a then [] else [rs[0]], Without(rs[1..], a), b);
    }
  }

  lemma {:induction false} WithoutNothing(rs: seq<Resource>)
    ensures Without(rs, {}) == rs
  {
    if rs != [] {
      WithoutNothing(rs[1..]);
    }
  }

  class LoopContainer {
    var resources: seq<Resource>
    var newcomers: seq<Resource>
    var removing: set<nat>

    ghost function Value(): Contents
      reads this
    {
      Contents(resources, newcomers, removing)
    }

    constructor ()
      ensures Value() == Empty()
    {
      resources, newcomers, removing := [], [], {};
    }

    method Add(r: Resource)
      modifies this
      ensures Value() == old(Value()).(newcomers := old(newcomers) + [r])
    {
      newcomers := newcomers + [r];
    }

    method ScheduleRemove(id: nat)
      modifies this
      ensures Value() == old(Value()).(removing := old(removing) + {id})
    {
      removing := removing + {id};
    }

    /** find_if: the index of the first match, or the length. */
    static method FindIf(rs: seq<Resource>, id: nat) returns (k: nat)
      ensures k <= |rs| && (forall i | 0 <= i < k :: rs[i].id != id)
      ensures k < |rs| ==> rs[k].id == id
    {
      k := 0;
      while k < |rs| && rs[k].id != id
        invariant k <= |rs| && forall i | 0 <= i < k :: rs[i].id != id
      {
        k := k + 1;
      }
    }

    /** The newcomers are searched first, then the main list. */
    method Get(id: nat) returns (result: Lookup)
      ensures result.Found? <==> id in Ids(newcomers) || id in Ids(resources)
      ensures result.Found? ==> result.resource.id == id
      ensures result.Found? ==> result.resource in if id in Ids(newcomers) then newcomers else resources
    {
      var k := FindIf(newcomers, id);
      if k != |newcomers| {
        return Found(newcomers[k]);
      }
      k := FindIf(resources, id);
      if k != |resources| {
        return Found(resources[k]);
      }
      return NoSuchElement;
    }

    method MergeNewcomers()
      modifies this
      ensures Value() == Merged(old(Value()))
    {
      ghost var was := newcomers;
      while |newcomers| != 0
        invariant resources + newcomers == old(resources) + old(newcomers)
        invariant removing == old(removing)
        decreases |newcomers|
      {
        resources := resources + [newcomers[0]];
        newcomers := newcomers[1..];
      }
    }

    /** remove_if followed by erase. */
    method Purge()
      modifies this
      ensures Value() == Purged(old(Value()))
    {
      var kept, i := [], 0;
      while i < |resources|
        invariant 0 <= i <= |resources|
        invariant resources == old(resources) && removing == old(removing) && newcomers == old(newcomers)
        invariant kept + Without(resources[i..], removing) == Without(resources, removing)
      {
        if resources[i].id !in removing {
          kept := kept + [resources[i]];
        }
        assert resources[i..][1..] == resources[i + 1..];
        i := i + 1;
      }
      resources := kept;
      removing := {};
    }

    /** `visited` lists the calls of the visitor. */
    method ForEach() returns (visited: seq<Resource>)
      modifies this
      ensures visited == View(old(Value()))
      ensures View(Value()) == View(old(Value())) && newcomers == [] && removing == {}
    {
      MergeNewcomers();
      Purge();
      visited := [];
      var i := 0;
      while i < |resources|
        invariant 0 <= i <= |resources| && visited == resources[..i]
      {
        visited := visited + [resources[i]];
        i := i + 1;
      }
      WithoutNothing(resources);
      assert resources + newcomers == resources;
    }
  }

  // ---- operations taken whole: an insertion-ordered set ----

  datatype Op = Add(r: Resource) | ScheduleRemove(id: nat) | ForEach

  function Apply(c: Contents, op: Op): Contents {
    match op
    case Add(r) => c.(newcomers := c.newcomers + [r])
    case ScheduleRemove(id) => c.(removing := c.removing + {id})
    case ForEach => Purged(Merged(c))
  }

  function ApplyAll(ops: seq<Op>): Contents {
    if ops == [] then Empty() else Apply(ApplyAll(ops[..|ops| - 1]), ops[|ops| - 1])
  }

  function Edited(list: seq<Resource>, op: Op): seq<Resource> {
    match op
    case Add(r) => list + [r]
    case ScheduleRemove(id) => Without(list, {id})
    case ForEach => list
  }

  /** The reference: a plain list. */
  function Reference(ops: seq<Op>): seq<Resource> {
    if ops == [] then [] else Edited(Reference(ops[..|ops| - 1]), ops[|ops| - 1])
  }

  function AddedIds(ops: seq<Op>): seq<nat> {
    if ops == [] then []
    else AddedIds(ops[..|ops| - 1]) + if ops[|ops| - 1].Add? then [ops[|ops| - 1].r.id] else []
  }

  /** Resource ids come from a counter, and only an added resource is removed. */
  ghost predicate FreshIds(ops: seq<Op>) {
    ops == [] ||
    var before := ops[..|ops| - 1];
    var last := ops[|ops| - 1];
    && FreshIds(before)
    && (last.Add? ==> last.r.id !in AddedIds(before))
    && (last.ScheduleRemove? ==> last.id in AddedIds(before))
  }

  lemma {:induction false} RemovingWereAdded(ops: seq<Op>)
    requires FreshIds(ops)
    ensures forall id | id in ApplyAll(ops).removing :: id in AddedIds(ops)
  {
    if ops != [] {
      RemovingWereAdded(ops[..|ops| - 1]);
    }
  }

  /** ForEach leaves the view as it is and empties both side collections. */
  lemma ForEachKeepsView(c: Contents)
    ensures var c' := Purged(Merged(c));
            View(c') == View(c) && c'.resources == View(c) && c'.newcomers == [] && c'.removing == {}
  {
    var kept := Without(c.resources + c.newcomers, c.removing);
    WithoutNothing(kept);
    assert kept + [] == kept;
  }

  /** The lazy container refines the list: between any operations its view is the reference list. */
  lemma {:induction false} RefinesList(ops: seq<Op>)
    requires FreshIds(ops)
    ensures View(ApplyAll(ops)) == Reference(ops)
  {
    if ops != [] {
      var before, last := ops[..|ops| - 1], ops[|ops| - 1];
      var c := ApplyAll(before);
      RefinesList(before);
      RemovingWereAdded(before);
      match last
      case Add(r) =>
        assert c.resources + (c.newcomers + [r]) == c.resources + c.newcomers + [r];
        WithoutConcat(c.resources + c.newcomers, [r], c.removing);
      case ScheduleRemove(id) =>
        WithoutTwice(c.resources + c.newcomers, c.removing, {id});
      case ForEach =>
        ForEachKeepsView(c);
    }
  }

  // ---- interleaved at lock granularity ----

  /** Section of the one ForEach in progress; the write lock is held in Locked, Merged and Purged. */
  datatype Loop = Idle | Locked | Merging | Purging | Visiting

  /** A Get in progress: before its first section, between its two, or finished. */
  datatype Getter = Searching(id: nat) | MissedFresh(id: nat) | Returned(id: nat, result: Lookup)

  datatype Shared = Shared(c: Contents, loop: Loop, getters: map<nat, Getter>)

  datatype Action =
    | AddResource(r: Resource)
    | Schedule(id: nat)
    | LoopStep              // the render thread's next section of ForEach
    | BeginGet(g: nat, id: nat)
    | SearchFresh(g: nat)   // under new_resources_mtx_
    | SearchMain(g: nat)    // under the read lock

  function First(rs: seq<Resource>, id: nat): Lookup {
    if rs == [] then NoSuchElement
    else if rs[0].id == id then Found(rs[0])
    else First(rs[1..], id)
  }

  function LoopNext(s: Shared): Shared {
    match s.loop
    case Idle => s.(loop := Locked)
    case Locked => s.(loop := Merging, c := Merged(s.c))
    case Merging => s.(loop := Purging, c := Purged(s.c))
    case Purging => s.(loop := Visiting)
    case Visiting => s.(loop := Idle)
  }

  function Step(s: Shared, a: Action): Shared {
    match a
    case AddResource(r) => s.(c := s.c.(newcomers := s.c.newcomers + [r]))
    case Schedule(id) => s.(c := s.c.(removing := s.c.removing + {id}))
    case LoopStep => LoopNext(s)
    case BeginGet(g, id) =>
      if g in s.getters then s else s.(getters := s.getters[g := Searching(id)])
    case SearchFresh(g) =>
      if g !in s.getters || !s.getters[g].Searching? then s
      else
        var id := s.getters[g].id;
        var result := First(s.c.newcomers, id);
        s.(getters := s.getters[g := if result.Found? then Returned(id, result) else MissedFresh(id)])
    case SearchMain(g) =>
      // the read lock is not granted while ForEach holds the write lock
      if g !in s.getters || !s.getters[g].MissedFresh? || s.loop.Locked? || s.loop.Merging? || s.loop.Purging? then s
      else
        var id := s.getters[g].id;
        s.(getters := s.getters[g := Returned(id, First(s.c.resources, id))])
  }

  function RunFrom(s: Shared, actions: seq<Action>): Shared {
    if actions == [] then s
    else Step(RunFrom(s, actions[..|actions| - 1]), actions[|actions| - 1])
  }

  lemma {:induction false} FirstFinds(rs: seq<Resource>, id: nat)
    ensures First(rs, id).Found? <==> id in Ids(rs)
    ensures First(rs, id).Found? ==> First(rs, id).resource.id == id && First(rs, id).resource in rs
  {
    if rs != [] {
      FirstFinds(rs[1..], id);
      if id in Ids(rs[1..]) {
        var i :| 0 <= i < |rs[1..]| && rs[1..][i].id == id;
        assert rs[i + 1].id == id;
      }
      if id in Ids(rs) && rs[0].id != id {
        var i :| 0 <= i < |rs| && rs[i].id == id;
        assert rs[1..][i - 1].id == id;
      }
    }
  }

  /** r is in, alone under its id and not scheduled, and getter g has not yet missed it. */
  ghost predicate Reachable(s: Shared, g: nat, r: Resource) {
    && r.id !in s.c.removing
    && (r in s.c.newcomers || r in s.c.resources)
    && Alone(s.c.newcomers, r) && Alone(s.c.resources, r)
    && (g in s.getters ==>
          && s.getters[g].id == r.id
          && (s.getters[g].MissedFresh? ==> r in s.c.resources)
          && (s.getters[g].Returned? ==> s.getters[g].result == Found(r)))
  }

  ghost predicate Alone(rs: seq<Resource>, r: Resource) {
    forall x | x in rs && x.id == r.id :: x == r
  }

  /** What other threads may do meanwhile: anything but schedule or re-add the id. */
  predicate Harmless(a: Action, g: nat, r: Resource) {
    && a != Schedule(r.id)
    && (a.AddResource? ==> a.r.id != r.id)
    && (a.BeginGet? && a.g == g ==> a.id == r.id)
  }

  lemma FirstFindsAlone(rs: seq<Resource>, r: Resource)
    requires Alone(rs, r)
    ensures First(rs, r.id) == if r in rs then Found(r) else NoSuchElement
  {
    FirstFinds(rs, r.id);
    if r in rs {
      var i :| 0 <= i < |rs| && rs[i] == r;
      assert r.id in Ids(rs);
    }
  }

  lemma StepKeepsReachable(s: Shared, a: Action, g: nat, r: Resource)
    requires Reachable(s, g, r) && Harmless(a, g, r)
    ensures Reachable(Step(s, a), g, r)
  {
    match a
    case LoopStep =>
      forall x ensures x in Without(s.c.resources, s.c.removing) <==> x in s.c.resources && x.id !in s.c.removing {
        WithoutMembers(s.c.resources, s.c.removing, x);
      }
    case SearchFresh(_) => FirstFindsAlone(s.c.newcomers, r);
    case SearchMain(_) => FirstFindsAlone(s.c.resources, r);
    case _ =>
  }

  /**
    Get never misses: from a state where r is in and not scheduled, a Get of its id that starts
    now and overlaps any actions of other threads, none of which schedules that id, finds it,
    although the two collections are never locked together.
   */
  lemma {:induction false} GetNeverMisses(s: Shared, actions: seq<Action>, g: nat, r: Resource)
    requires Reachable(s, g, r) && g !in s.getters
    requires forall k | 0 <= k < |actions| :: Harmless(actions[k], g, r)
    ensures Reachable(RunFrom(s, actions), g, r)
    ensures var s' := RunFrom(s, actions);
            g in s'.getters && s'.getters[g].Returned? ==> s'.getters[g].result == Found(r)
  {
    if actions != [] {
      var n := |actions| - 1;
      GetNeverMisses(s, actions[..n], g, r);
      StepKeepsReachable(RunFrom(s, actions[..n]), actions[n], g, r);
    }
  }

  /** The sections of ForEach: merging never changes the view; purging keeps it if and only if
      no scheduled newcomer slipped in after the merge. */
  lemma PurgeLosesRemovalsExactly(c: Contents)
    ensures View(Merged(c)) == View(c)
    ensures View(Purged(c)) == View(c) <==> Ids(c.newcomers) !! c.removing
  {
    assert (c.resources + c.newcomers) + [] == c.resources + c.newcomers;
    WithoutConcat(c.resources, c.newcomers, c.removing);
    WithoutNothing(Without(c.resources, c.removing) + c.newcomers);
    KeepsAllExactly(c.newcomers, c.removing);
    var kept := Without(c.resources, c.removing);
    assert (kept + c.newcomers)[|kept|..] == c.newcomers;
    assert (kept + Without(c.newcomers, c.removing))[|kept|..] == Without(c.newcomers, c.removing);
  }

  lemma {:induction false} KeepsAllExactly(rs: seq<Resource>, ids: set<nat>)
    ensures |Without(rs, ids)| <= |rs|
    ensures Without(rs, ids) == rs <==> Ids(rs) !! ids
  {
    if rs != [] {
      KeepsAllExactly(rs[1..], ids);
      assert Ids(rs) == {rs[0].id} + Ids(rs[1..]) by {
        assert forall i | 0 < i < |rs| :: rs[i] == rs[1..][i - 1];
        assert forall i | 0 <= i < |rs[1..]| :: rs[1..][i] == rs[i + 1];
      }
      if rs[0].id !in ids {
        assert rs == [rs[0]] + rs[1..];
        assert Without(rs, ids)[1..] == Without(rs[1..], ids);
      }
    }
  }

  // ---- the view over whole interleaved runs ----

  function Begin(): Shared { Shared(Empty(), Idle, map[]) }

  function Run(actions: seq<Action>): Shared { RunFrom(Begin(), actions) }

  /** The additions and removals of a run. */
  function Edits(actions: seq<Action>): seq<Op> {
    if actions == [] then []
    else
      var before := Edits(actions[..|actions| - 1]);
      match actions[|actions| - 1]
      case AddResource(r) => before + [Add(r)]
      case Schedule(id) => before + [ScheduleRemove(id)]
      case _ => before
  }

  /** The container is the plain list of its additions and removals. */
  ghost predicate ViewIsReference(actions: seq<Action>) {
    View(Run(actions).c) == Reference(Edits(actions))
  }

  ghost predicate AlwaysReference(actions: seq<Action>) {
    forall k | 0 <= k <= |actions| :: ViewIsReference(actions[..k])
  }

  /** The action is the purging section, and a newcomer is scheduled that the merging section has missed. */
  predicate LosesRemoval(s: Shared, a: Action) {
    a.LoopStep? && s.loop.Merging? && !(Ids(s.c.newcomers) !! s.c.removing)
  }

  ghost predicate LosesNothing(actions: seq<Action>) {
    forall k | 0 <= k < |actions| :: !LosesRemoval(Run(actions[..k]), actions[k])
  }

  /** One more action. */
  lemma RunMore(actions: seq<Action>, a: Action)
    ensures Run(actions + [a]) == Step(Run(actions), a)
    ensures Edits(actions + [a]) == Edits(actions)
                                    + (if a.AddResource? then [Add(a.r)]
                                       else if a.Schedule? then [ScheduleRemove(a.id)] else [])
  {
    assert (actions + [a])[..|actions|] == actions;
  }

  lemma EditsMore(edits: seq<Op>, op: Op)
    ensures Reference(edits + [op]) == Edited(Reference(edits), op)
    ensures FreshIds(edits + [op]) <==>
              && FreshIds(edits) && (op.Add? ==> op.r.id !in AddedIds(edits))
              && (op.ScheduleRemove? ==> op.id in AddedIds(edits))
    ensures AddedIds(edits + [op]) == AddedIds(edits) + if op.Add? then [op.r.id] else []
  {
    assert (edits + [op])[..|edits|] == edits;
  }

  lemma {:induction false} ScheduledWereAdded(actions: seq<Action>)
    requires FreshIds(Edits(actions))
    ensures forall id | id in Run(actions).c.removing :: id in AddedIds(Edits(actions))
  {
    if actions != [] {
      var front, last := actions[..|actions| - 1], actions[|actions| - 1];
      assert actions == front + [last];
      RunMore(front, last);
      if last.AddResource? {
        EditsMore(Edits(front), Add(last.r));
      } else if last.Schedule? {
        EditsMore(Edits(front), ScheduleRemove(last.id));
      }
      hide Edits, FreshIds, AddedIds, RunFrom;
      ScheduledWereAdded(front);
    }
  }

  lemma ViewAfterEdit(c: Contents, a: Action)
    requires a.AddResource? ==> a.r.id !in c.removing
    ensures a.AddResource? ==> View(c.(newcomers := c.newcomers + [a.r])) == View(c) + [a.r]
    ensures a.Schedule? ==> View(c.(removing := c.removing + {a.id})) == Without(View(c), {a.id})
  {
    if a.AddResource? {
      assert c.resources + (c.newcomers + [a.r]) == c.resources + c.newcomers + [a.r];
      WithoutConcat(c.resources + c.newcomers, [a.r], c.removing);
    } else if a.Schedule? {
      WithoutTwice(c.resources + c.newcomers, c.removing, {a.id});
    }
  }

  /** From a right view one action leads to a right view if and only if it loses no removal. */
  lemma StepKeepsViewExactly(front: seq<Action>, a: Action)
    requires FreshIds(Edits(front + [a])) && ViewIsReference(front)
    ensures ViewIsReference(front + [a]) <==> !LosesRemoval(Run(front), a)
  {
    var c := Run(front).c;
    RunMore(front, a);
    if a.AddResource? || a.Schedule? {
      EditsMore(Edits(front), if a.AddResource? then Add(a.r) else ScheduleRemove(a.id));
      ScheduledWereAdded(front);
      ViewAfterEdit(c, a);
    } else {
      PurgeLosesRemovalsExactly(c);
    }
    hide Edits, FreshIds, AddedIds, RunFrom, Reference, Without, Ids, View;
  }

  lemma AlwaysMore(front: seq<Action>, a: Action)
    ensures AlwaysReference(front + [a]) <==> AlwaysReference(front) && ViewIsReference(front + [a])
    ensures LosesNothing(front + [a]) <==> LosesNothing(front) && !LosesRemoval(Run(front), a)
    ensures AlwaysReference(front) ==> ViewIsReference(front)
  {
    hide ViewIsReference, LosesRemoval, RunFrom;
    var n, all := |front|, front + [a];
    assert forall k | 0 <= k <= n :: front[..k] == all[..k];
    assert all[..n] == front == front[..n] && all[..n + 1] == all;
    if AlwaysReference(front) {
      assert ViewIsReference(front[..n]);
      if ViewIsReference(all) {
        forall k | 0 <= k <= n + 1 ensures ViewIsReference(all[..k]) {
          if k <= n { assert ViewIsReference(front[..k]); }
        }
      }
    }
    if AlwaysReference(all) {
      assert ViewIsReference(all[..n + 1]);
      forall k | 0 <= k <= n ensures ViewIsReference(front[..k]) {
        assert ViewIsReference(all[..k]);
      }
    }
  }

  /**
    The container is its reference list after every action of an interleaved run if and only if no purging section
    meets a newcomer that is scheduled for removal.
   */
  lemma {:induction false} AlwaysReferenceIff(actions: seq<Action>)
    requires FreshIds(Edits(actions))
    ensures AlwaysReference(actions) <==> LosesNothing(actions)
  {
    if actions == [] {
      assert actions[..0] == [] && ViewIsReference([]);
    } else {
      var front, last := actions[..|actions| - 1], actions[|actions| - 1];
      assert actions == front + [last];
      RunMore(front, last);
      if last.AddResource? || last.Schedule? {
        EditsMore(Edits(front), if last.AddResource? then Add(last.r) else ScheduleRemove(last.id));
      }
      hide ViewIsReference, LosesRemoval, AlwaysReference, LosesNothing, FreshIds, Edits, RunFrom;
      AlwaysReferenceIff(front);
      AlwaysMore(front, last);
      if ViewIsReference(front) {
        StepKeepsViewExactly(front, last);
      }
    }
  }

  /** A run that loses a removal: the resource is added and scheduled between the two sections, and stays for good. */
  lemma RemovalLost(r: Resource)
    ensures var actions := [LoopStep, LoopStep, AddResource(r), Schedule(r.id), LoopStep];
            && FreshIds(Edits(actions)) && Reference(Edits(actions)) == []
            && View(Run(actions).c) == [r] && Run(actions).c.removing == {}
  {
    hide Reference, FreshIds, Step, Run, RunFrom, Edits;
    var a4 := [LoopStep, LoopStep, AddResource(r), Schedule(r.id)];
    AddedBetween(r);
    AddedEdits(r);
    RunMore(a4, LoopStep);
    assert Edits(a4 + [LoopStep]) == Edits(a4);
    assert [LoopStep, LoopStep, AddResource(r), Schedule(r.id), LoopStep] == a4 + [LoopStep];
    PurgesNothing(Run(a4), r);
  }

  /** Added and scheduled between the two sections. */
  lemma AddedBetween(r: Resource)
    ensures var a4 := [LoopStep, LoopStep, AddResource(r), Schedule(r.id)];
            && Run(a4).c == Contents([], [r], {r.id}) && Run(a4).loop == Merging
            && Edits(a4) == [Add(r), ScheduleRemove(r.id)]
  {
    var a2 := [LoopStep] + [LoopStep];
    var a3 := a2 + [AddResource(r)];
    RunMore([], LoopStep);
    RunMore([LoopStep], LoopStep);
    RunMore(a2, AddResource(r));
    RunMore(a3, Schedule(r.id));
    assert [LoopStep, LoopStep, AddResource(r), Schedule(r.id)] == a3 + [Schedule(r.id)];
    assert [] + [LoopStep] == [LoopStep] && [] + [r] == [r];
    hide FreshIds, Reference;
  }

  lemma PurgesNothing(s: Shared, r: Resource)
    requires s.c == Contents([], [r], {r.id}) && s.loop == Merging
    ensures View(Step(s, LoopStep).c) == [r] && Step(s, LoopStep).c.removing == {}
  {
    WithoutNothing([r]);
    assert [] + [r] == [r];
  }

  lemma AddedEdits(r: Resource)
    ensures FreshIds([Add(r), ScheduleRemove(r.id)]) && Reference([Add(r), ScheduleRemove(r.id)]) == []
  {
    EditsMore([], Add(r));
    EditsMore([Add(r)], ScheduleRemove(r.id));
    assert [] + [Add(r)] == [Add(r)] && [Add(r)] + [ScheduleRemove(r.id)] == [Add(r), ScheduleRemove(r.id)];
    assert [] + [r] == [r] && Without([r], {r.id}) == [];
  }
}
