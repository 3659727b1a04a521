/** What the edits of a scene ask for, told from the edits alone, and the pending state that follows from them. */
module Asked {
  import opened Options
  import opened Scene
  import opened CommitEffect
  import V = VertexArray
  import T = BaseTechnique

  // ---- the edits made ----

  predicate HasObject(edits: seq<Action>, o: nat) {
    edits != [] && (edits[|edits| - 1] == NewObject(o) || HasObject(edits[..|edits| - 1], o))
  }

  predicate HasUnit(edits: seq<Action>, u: nat) {
    edits != [] &&
    var front, last := edits[..|edits| - 1], edits[|edits| - 1];
    HasUnit(front, u) || (last.NewUnit? && last.renderingUnit == u && HasObject(front, last.virtualObject))
  }

  predicate HasTechnique(edits: seq<Action>, t: nat) {
    edits != [] &&
    var front, last := edits[..|edits| - 1], edits[|edits| - 1];
    HasTechnique(front, t) || (last.NewTechnique? && last.technique == t && HasUnit(front, last.renderingUnit))
  }

  predicate HasArray(edits: seq<Action>, v: nat) {
    edits != [] && (edits[|edits| - 1] == NewVertexArray(v) || HasArray(edits[..|edits| - 1], v))
  }

  predicate HasProgram(edits: seq<Action>, p: nat) {
    edits != [] && (edits[|edits| - 1] == NewProgram(p) || HasProgram(edits[..|edits| - 1], p))
  }

  /** The resources destroyed. */
  function Gone(edits: seq<Action>): set<nat> {
    if edits == [] then {}
    else
      var front, last := edits[..|edits| - 1], edits[|edits| - 1];
      Gone(front) + if last.Destroy? then {last.id} else {}
  }

  /** The units added to object o, in order. */
  function UnitsAdded(edits: seq<Action>, o: nat): seq<nat> {
    if edits == [] then []
    else
      var front, last := edits[..|edits| - 1], edits[|edits| - 1];
      UnitsAdded(front, o)
      + if last.NewUnit? && last.virtualObject == o && HasObject(front, o) && !HasUnit(front, last.renderingUnit)
        then [last.renderingUnit] else []
  }

  /** The technique made for unit u last. */
  function TechniqueOf(edits: seq<Action>, u: nat): Option<nat> {
    if edits == [] then None
    else
      var front, last := edits[..|edits| - 1], edits[|edits| - 1];
      if last.NewTechnique? && last.renderingUnit == u && HasUnit(front, u) && !HasTechnique(front, last.technique)
      then Some(last.technique) else TechniqueOf(front, u)
  }

  /** The calls made on technique t, in order. */
  function CallsTo(edits: seq<Action>, t: nat): seq<T.Call> {
    if edits == [] then []
    else
      var front, last := edits[..|edits| - 1], edits[|edits| - 1];
      CallsTo(front, t)
      + if last.CallTechnique? && last.technique == t && HasTechnique(front, t) then [last.call] else []
  }

  /** The attribute calls made on vertex array v, in order. */
  function SettersOf(edits: seq<Action>, v: nat): seq<V.Setter> {
    if edits == [] then []
    else
      var front, last := edits[..|edits| - 1], edits[|edits| - 1];
      SettersOf(front, v)
      + if last.SetAttribute? && last.vertexArray == v && HasArray(front, v) then [last.setter] else []
  }

  /** Those still alive, in order. */
  function Alive(ids: seq<nat>, dead: set<nat>): seq<nat> {
    if ids == [] then [] else (if ids[0] in dead then [] else [ids[0]]) + Alive(ids[1..], dead)
  }

  predicate Lives(weak: Option<nat>, dead: set<nat>, id: nat) { weak == Some(id) && id !in dead }

  // ---- what a commit of object o then reaches ----

  predicate ReachesUnit(edits: seq<Action>, o: nat, u: nat) { u in UnitsAdded(edits, o) && u !in Gone(edits) }

  ghost predicate ReachesTechnique(edits: seq<Action>, o: nat, t: nat) {
    exists u :: ReachesUnit(edits, o, u) && Lives(TechniqueOf(edits, u), Gone(edits), t)
  }

  /** The vertex array bound last to a technique it reaches. */
  ghost predicate ReachesArray(edits: seq<Action>, o: nat, v: nat) {
    exists t :: ReachesTechnique(edits, o, t) && Lives(T.BoundVertexArray(CallsTo(edits, t)), Gone(edits), v)
  }

  /** The program bound last to a technique it reaches. */
  ghost predicate ReachesProgram(edits: seq<Action>, o: nat, p: nat) {
    exists t :: ReachesTechnique(edits, o, t) && Lives(T.BoundProgram(CallsTo(edits, t)), Gone(edits), p)
  }

  predicate DrawsIndexed(calls: seq<T.Call>) { T.LastDraw(calls).Some? && T.LastDraw(calls).value.GlDrawElements? }

  /** The buffer from which a technique it reaches takes its indices. */
  ghost predicate ReachesIndices(edits: seq<Action>, o: nat, b: nat) {
    exists t :: ReachesTechnique(edits, o, t) && DrawsIndexed(CallsTo(edits, t))
             && Lives(T.IndexBuffer(CallsTo(edits, t)), Gone(edits), b)
  }

  // ---- the pending state follows ----

  lemma {:induction false} AliveIn(ids: seq<nat>, dead: set<nat>, u: nat)
    ensures u in Alive(ids, dead) <==> u in ids && u !in dead
  {
    if ids != [] {
      AliveIn(ids[1..], dead, u);
    }
  }

  lemma {:induction false} AliveConcat(a: seq<nat>, b: seq<nat>, dead: set<nat>)
    ensures Alive(a + b, dead) == Alive(a, dead) + Alive(b, dead)
  {
    if a == [] {
      assert a + b == b;
    } else {
      assert (a + b)[1..] == a[1..] + b;
      AliveConcat(a[1..], b, dead);
    }
  }

  lemma {:induction false} AliveLater(ids: seq<nat>, dead: set<nat>, later: set<nat>)
    requires dead <= later
    ensures Alive(Alive(ids, dead), later) == Alive(ids, later)
  {
    if ids != [] {
      AliveLater(ids[1..], dead, later);
      AliveConcat(if ids[0] in dead then [] else [ids[0]], Alive(ids[1..], dead), later);
    }
  }

  lemma {:induction false} LivingIsAlive(ids: seq<nat>, dead: set<nat>)
    ensures Living(ids, dead) == Alive(ids, dead)
  {
    if ids != [] {
      var n := |ids| - 1;
      LivingIsAlive(ids[..n], dead);
      AliveConcat(ids[..n], [ids[n]], dead);
      assert ids == ids[..n] + [ids[n]];
    }
  }

  ghost predicate SameKeys(s: State, edits: seq<Action>) {
    && (forall o :: o in s.objects <==> HasObject(edits, o)) && (forall u :: u in s.units <==> HasUnit(edits, u))
    && (forall t :: t in s.techniques <==> HasTechnique(edits, t))
    && (forall v :: v in s.vertexArrays <==> HasArray(edits, v))
    && (forall p :: p in s.programs <==> HasProgram(edits, p))
  }

  /** Objects and units are as the edits say; an object may still list units that are dead. */
  ghost predicate SameLists(s: State, edits: seq<Action>) {
    && s.dead == Gone(edits)
    && (forall o | o in s.objects :: Alive(s.objects[o], s.dead) == Alive(UnitsAdded(edits, o), s.dead))
    && (forall u | u in s.units :: s.units[u] == TechniqueOf(edits, u))
  }

  ghost predicate SameCalls(s: State, edits: seq<Action>) {
    && (forall t | t in s.techniques :: T.AsCalled(s.techniques[t], CallsTo(edits, t)))
    && (forall v, i | v in s.vertexArrays :: V.AsSet(s.vertexArrays[v], SettersOf(edits, v), i))
  }

  /** What is not there yet has been asked for nothing. */
  ghost predicate NothingEarly(edits: seq<Action>) {
    && (forall o :: !HasObject(edits, o) ==> UnitsAdded(edits, o) == [])
    && (forall u :: !HasUnit(edits, u) ==> TechniqueOf(edits, u) == None)
    && (forall t :: !HasTechnique(edits, t) ==> CallsTo(edits, t) == [])
    && (forall v :: !HasArray(edits, v) ==> SettersOf(edits, v) == [])
  }

  ghost predicate Mirrors(s: State, edits: seq<Action>) {
    SameKeys(s, edits) && SameLists(s, edits) && SameCalls(s, edits) && NothingEarly(edits)
  }

  // What one more edit adds to each of these.

  lemma KeysMore(edits: seq<Action>, a: Action)
    ensures forall x :: HasObject(edits + [a], x) <==> HasObject(edits, x) || a == NewObject(x)
    ensures forall x :: HasUnit(edits + [a], x)
                   <==> HasUnit(edits, x) || (a.NewUnit? && a.renderingUnit == x && HasObject(edits, a.virtualObject))
    ensures forall x :: HasTechnique(edits + [a], x)
                   <==> HasTechnique(edits, x)
                        || (a.NewTechnique? && a.technique == x && HasUnit(edits, a.renderingUnit))
    ensures forall x :: HasArray(edits + [a], x) <==> HasArray(edits, x) || a == NewVertexArray(x)
    ensures forall x :: HasProgram(edits + [a], x) <==> HasProgram(edits, x) || a == NewProgram(x)
  {
    assert (edits + [a])[..|edits|] == edits;
  }

  lemma ListsMore(edits: seq<Action>, a: Action, x: nat)
    ensures UnitsAdded(edits + [a], x)
         == if a.NewUnit? && a.virtualObject == x && HasObject(edits, x) && !HasUnit(edits, a.renderingUnit)
            then UnitsAdded(edits, x) + [a.renderingUnit] else UnitsAdded(edits, x)
    ensures TechniqueOf(edits + [a], x)
         == if a.NewTechnique? && a.renderingUnit == x && HasUnit(edits, x) && !HasTechnique(edits, a.technique)
            then Some(a.technique) else TechniqueOf(edits, x)
    ensures Gone(edits + [a]) == if a.Destroy? then Gone(edits) + {a.id} else Gone(edits)
  {
    assert (edits + [a])[..|edits|] == edits;
  }

  lemma CallsMore(edits: seq<Action>, a: Action, x: nat)
    ensures CallsTo(edits + [a], x)
         == if a.CallTechnique? && a.technique == x && HasTechnique(edits, x)
            then CallsTo(edits, x) + [a.call] else CallsTo(edits, x)
    ensures SettersOf(edits + [a], x)
         == if a.SetAttribute? && a.vertexArray == x && HasArray(edits, x)
            then SettersOf(edits, x) + [a.setter] else SettersOf(edits, x)
  {
    assert (edits + [a])[..|edits|] == edits;
  }

  lemma EarlyMore(edits: seq<Action>, a: Action)
    requires NothingEarly(edits)
    ensures NothingEarly(edits + [a])
  {
    hide HasObject, HasUnit, HasTechnique, HasArray, HasProgram, Gone, UnitsAdded, TechniqueOf, CallsTo, SettersOf;
    KeysMore(edits, a);
    forall x: nat ensures !HasObject(edits + [a], x) ==> UnitsAdded(edits + [a], x) == []
                  ensures !HasUnit(edits + [a], x) ==> TechniqueOf(edits + [a], x) == None {
      ListsMore(edits, a, x);
    }
    forall x: nat ensures !HasTechnique(edits + [a], x) ==> CallsTo(edits + [a], x) == []
                  ensures !HasArray(edits + [a], x) ==> SettersOf(edits + [a], x) == [] {
      CallsMore(edits, a, x);
    }
  }

  // ---- a commit ----

  lemma CommitProgramsKeys(s: State, o: nat, order: seq<nat>)
    requires Inv(s) && Covers(s, order)
    ensures ObjectCommitted(s, o, order).programs.Keys == s.programs.Keys
  {
    if o in s.objects {
      UnitsInv(s, s.objects[o], order);
      hide Inv, Covers, UnitsCommitted, Living;
    }
  }

  lemma CommitObjects(s: State, o: nat, order: seq<nat>)
    ensures ObjectCommitted(s, o, order).objects
         == if o in s.objects then s.objects[o := Living(s.objects[o], s.dead)] else s.objects
  {
    hide UnitsCommitted, Living;
  }

  /** m differs from s in damage, and by dead units dropped from lists. */
  ghost predicate Settled(s: State, m: State) {
    && m.objects.Keys == s.objects.Keys && m.units == s.units && m.techniques.Keys == s.techniques.Keys
    && m.vertexArrays.Keys == s.vertexArrays.Keys && m.programs.Keys == s.programs.Keys && m.dead == s.dead
    && (forall o | o in s.objects :: Alive(m.objects[o], s.dead) == Alive(s.objects[o], s.dead))
    && (forall t | t in s.techniques :: SameAsked(s.techniques[t], m.techniques[t]))
    && (forall v | v in s.vertexArrays :: SameSet(s.vertexArrays[v], m.vertexArrays[v]))
  }

  predicate SameAsked(p: T.Pending, q: T.Pending) {
    && q.draw == p.draw && q.elementArrayBuffer == p.elementArrayBuffer && q.program == p.program
    && q.vertexArray == p.vertexArray && q.textures == p.textures
  }

  ghost predicate SameSet(p: V.Pending, q: V.Pending) {
    forall i :: V.Entry(q.attributes, i).enabled == V.Entry(p.attributes, i).enabled
             && V.Entry(q.attributes, i).pointer == V.Entry(p.attributes, i).pointer
  }

  lemma CommitSettles(s: State, o: nat, order: seq<nat>)
    requires Inv(s) && Covers(s, order)
    ensures Settled(s, ObjectCommitted(s, o, order))
  {
    hide Inv, Covers, ObjectCommitted, ObjectReach, UpdatesOf, SnapshotsOf, Flushes, Alive, Living;
    ObjectEffect(s, o, order);
    CommitProgramsKeys(s, o, order);
    CommitObjects(s, o, order);
    if o in s.objects {
      LivingIsAlive(s.objects[o], s.dead);
      AliveLater(s.objects[o], s.dead, s.dead);
    }
  }

  lemma SettledMirrors(s: State, m: State, edits: seq<Action>)
    requires Mirrors(s, edits) && Settled(s, m)
    ensures Mirrors(m, edits)
  {
    hide HasObject, HasUnit, HasTechnique, HasArray, HasProgram, Gone, UnitsAdded, TechniqueOf, CallsTo, SettersOf,
      Alive;
    forall t | t in m.techniques ensures T.AsCalled(m.techniques[t], CallsTo(edits, t)) {
      AskedAsCalled(s.techniques[t], m.techniques[t], CallsTo(edits, t));
    }
    forall v, i: nat | v in m.vertexArrays ensures V.AsSet(m.vertexArrays[v], SettersOf(edits, v), i) {
      assert V.AsSet(s.vertexArrays[v], SettersOf(edits, v), i);
    }
    hide T.AsCalled;
  }

  lemma AskedAsCalled(p: T.Pending, q: T.Pending, calls: seq<T.Call>)
    requires T.AsCalled(p, calls) && SameAsked(p, q)
    ensures T.AsCalled(q, calls)
  {
  }

  // ---- the other edits ----

  // What such an edit does to one resource.

  lemma StepTechnique(s: State, a: Action, t: nat)
    requires !a.CommitObject?
    ensures var m := Step(s, a).techniques;
            && (t in m <==> t in s.techniques || (a.NewTechnique? && a.technique == t && a.renderingUnit in s.units))
            && (t in m ==> m[t] == if t !in s.techniques then T.BLANK
                                   else if a.CallTechnique? && a.technique == t then T.Called(s.techniques[t], a.call)
                                   else s.techniques[t])
  {
    hide V.Set, T.Called, ObjectCommitted, Covers;
  }

  lemma StepArray(s: State, a: Action, v: nat)
    requires !a.CommitObject?
    ensures var m := Step(s, a).vertexArrays;
            && (v in m <==> v in s.vertexArrays || a == NewVertexArray(v))
            && (v in m ==> m[v] == if v !in s.vertexArrays then V.Pending(map[], false)
                                   else if a.SetAttribute? && a.vertexArray == v then V.Set(s.vertexArrays[v], a.setter)
                                   else s.vertexArrays[v])
  {
    hide V.Set, T.Called, ObjectCommitted, Covers;
  }

  lemma StepObject(s: State, a: Action, o: nat)
    requires !a.CommitObject?
    ensures var m := Step(s, a).objects;
            && (o in m <==> o in s.objects || a == NewObject(o))
            && (o in m ==> m[o] == if o !in s.objects then []
                                   else if a.NewUnit? && a.virtualObject == o && a.renderingUnit !in s.units
                                   then s.objects[o] + [a.renderingUnit] else s.objects[o])
    ensures Step(s, a).dead == if a.Destroy? then s.dead + {a.id} else s.dead
  {
    hide V.Set, T.Called, ObjectCommitted, Covers;
  }

  lemma StepUnit(s: State, a: Action, u: nat)
    requires !a.CommitObject?
    ensures var m := Step(s, a).units;
            && (u in m <==> u in s.units || (a.NewUnit? && a.renderingUnit == u && a.virtualObject in s.objects))
            && (u in m ==> m[u] == if u !in s.units then None
                                   else if a.NewTechnique? && a.renderingUnit == u && a.technique !in s.techniques
                                   then Some(a.technique) else s.units[u])
  {
    hide V.Set, T.Called, ObjectCommitted, Covers;
  }

  lemma StepProgram(s: State, a: Action, p: nat)
    requires !a.CommitObject?
    ensures p in Step(s, a).programs <==> p in s.programs || a == NewProgram(p)
  {
    hide V.Set, T.Called, ObjectCommitted, Covers;
  }

  lemma KeysStep(s: State, a: Action, edits: seq<Action>)
    requires SameKeys(s, edits) && !a.CommitObject?
    ensures SameKeys(Step(s, a), edits + [a])
  {
    hide HasObject, HasUnit, HasTechnique, HasArray, HasProgram, Gone, UnitsAdded, TechniqueOf, CallsTo, SettersOf,
      Step;
    KeysMore(edits, a);
    forall x: nat ensures x in Step(s, a).objects <==> HasObject(edits + [a], x) { StepObject(s, a, x); }
    forall x: nat ensures x in Step(s, a).units <==> HasUnit(edits + [a], x) { StepUnit(s, a, x); }
    forall x: nat ensures x in Step(s, a).techniques <==> HasTechnique(edits + [a], x) { StepTechnique(s, a, x); }
    forall x: nat ensures x in Step(s, a).vertexArrays <==> HasArray(edits + [a], x) { StepArray(s, a, x); }
    forall x: nat ensures x in Step(s, a).programs <==> HasProgram(edits + [a], x) { StepProgram(s, a, x); }
  }

  lemma ObjectStep(s: State, a: Action, edits: seq<Action>, o: nat)
    requires SameKeys(s, edits) && SameLists(s, edits) && NothingEarly(edits) && !a.CommitObject?
    ensures var t := Step(s, a);
            o in t.objects ==> Alive(t.objects[o], t.dead) == Alive(UnitsAdded(edits + [a], o), t.dead)
  {
    hide HasObject, HasUnit, HasTechnique, HasArray, HasProgram, Gone, UnitsAdded, TechniqueOf, CallsTo, SettersOf,
      Step, Alive;
    StepObject(s, a, o);
    ListsMore(edits, a, o);
    if o in s.objects {
      AliveLater(s.objects[o], s.dead, Step(s, a).dead);
      AliveLater(UnitsAdded(edits, o), s.dead, Step(s, a).dead);
      if a.NewUnit? {
        AliveConcat(s.objects[o], [a.renderingUnit], s.dead);
        AliveConcat(UnitsAdded(edits, o), [a.renderingUnit], s.dead);
      }
    }
  }

  lemma ListsStep(s: State, a: Action, edits: seq<Action>)
    requires SameKeys(s, edits) && SameLists(s, edits) && NothingEarly(edits) && !a.CommitObject?
    ensures SameLists(Step(s, a), edits + [a])
  {
    hide HasObject, HasUnit, HasTechnique, HasArray, HasProgram, Gone, UnitsAdded, TechniqueOf, CallsTo, SettersOf,
      Step, Alive;
    StepObject(s, a, 0);
    ListsMore(edits, a, 0);
    var t := Step(s, a);
    forall o: nat | o in t.objects ensures Alive(t.objects[o], t.dead) == Alive(UnitsAdded(edits + [a], o), t.dead) {
      ObjectStep(s, a, edits, o);
    }
    forall u: nat | u in t.units ensures t.units[u] == TechniqueOf(edits + [a], u) {
      StepUnit(s, a, u);
      ListsMore(edits, a, u);
    }
  }

  lemma TechniquesStep(s: State, a: Action, edits: seq<Action>, t: nat)
    requires SameKeys(s, edits) && SameCalls(s, edits) && NothingEarly(edits) && !a.CommitObject?
    ensures t in Step(s, a).techniques ==> T.AsCalled(Step(s, a).techniques[t], CallsTo(edits + [a], t))
  {
    assert T.AsCalled(T.BLANK, []);
    hide HasObject, HasUnit, HasTechnique, HasArray, HasProgram, Gone, UnitsAdded, TechniqueOf, CallsTo, SettersOf,
      Step, T.Called, T.AsCalled, V.AsSet;
    StepTechnique(s, a, t);
    CallsMore(edits, a, t);
    if a.CallTechnique? && a.technique == t && t in s.techniques {
      T.CallAsCalled(s.techniques[t], CallsTo(edits, t), a.call);
    }
  }

  lemma ArraysStep(s: State, a: Action, edits: seq<Action>, v: nat, i: nat)
    requires SameKeys(s, edits) && SameCalls(s, edits) && NothingEarly(edits) && !a.CommitObject?
    ensures v in Step(s, a).vertexArrays ==> V.AsSet(Step(s, a).vertexArrays[v], SettersOf(edits + [a], v), i)
  {
    hide HasObject, HasUnit, HasTechnique, HasArray, HasProgram, Gone, UnitsAdded, TechniqueOf, CallsTo, SettersOf,
      Step, V.Set, T.AsCalled, V.AsSet;
    NothingSet(i);
    StepArray(s, a, v);
    CallsMore(edits, a, v);
    if a.SetAttribute? && a.vertexArray == v && v in s.vertexArrays {
      V.SetAsSet(s.vertexArrays[v], SettersOf(edits, v), a.setter, i);
    }
  }

  lemma NothingSet(i: nat)
    ensures V.AsSet(V.Pending(map[], false), [], i)
  {
  }

  lemma CallsStep(s: State, a: Action, edits: seq<Action>)
    requires SameKeys(s, edits) && SameCalls(s, edits) && NothingEarly(edits) && !a.CommitObject?
    ensures SameCalls(Step(s, a), edits + [a])
  {
    hide HasObject, HasUnit, HasTechnique, HasArray, HasProgram, Gone, UnitsAdded, TechniqueOf, CallsTo, SettersOf,
      Step, T.AsCalled, V.AsSet;
    forall t: nat ensures t in Step(s, a).techniques ==> T.AsCalled(Step(s, a).techniques[t], CallsTo(edits + [a], t)) {
      TechniquesStep(s, a, edits, t);
    }
    forall v: nat, i: nat
      ensures v in Step(s, a).vertexArrays ==> V.AsSet(Step(s, a).vertexArrays[v], SettersOf(edits + [a], v), i) {
      ArraysStep(s, a, edits, v, i);
    }
  }

  /** A commit makes, adds, calls and destroys nothing. */
  lemma CommitAsksNothing(m: State, edits: seq<Action>, o: nat, order: seq<nat>)
    requires Mirrors(m, edits)
    ensures Mirrors(m, edits + [CommitObject(o, order)])
  {
    hide HasObject, HasUnit, HasTechnique, HasArray, HasProgram, Gone, UnitsAdded, TechniqueOf, CallsTo, SettersOf,
      T.AsCalled, V.AsSet, Alive;
    var a := CommitObject(o, order);
    KeysMore(edits, a);
    ListsMore(edits, a, 0);
    EarlyMore(edits, a);
    forall x: nat ensures UnitsAdded(edits + [a], x) == UnitsAdded(edits, x)
                       && TechniqueOf(edits + [a], x) == TechniqueOf(edits, x) {
      ListsMore(edits, a, x);
    }
    forall x: nat ensures CallsTo(edits + [a], x) == CallsTo(edits, x)
                       && SettersOf(edits + [a], x) == SettersOf(edits, x) {
      CallsMore(edits, a, x);
    }
  }

  lemma StepMirrors(s: State, a: Action, edits: seq<Action>)
    requires Inv(s) && Mirrors(s, edits)
    ensures Mirrors(Step(s, a), edits + [a])
  {
    hide Inv, Covers, ObjectCommitted, SameKeys, SameLists, SameCalls, NothingEarly;
    if a.CommitObject? {
      if Covers(s, a.order) {
        CommitSettles(s, a.virtualObject, a.order);
        hide Settled;
        SettledMirrors(s, ObjectCommitted(s, a.virtualObject, a.order), edits);
      }
      CommitAsksNothing(Step(s, a), edits, a.virtualObject, a.order);
    } else {
      KeysStep(s, a, edits);
      ListsStep(s, a, edits);
      CallsStep(s, a, edits);
      EarlyMore(edits, a);
    }
  }

  lemma StartMirrors()
    ensures Mirrors(Start(), [])
  {
  }

  /** The pending state of a scene is what its edits say, apart from what the commits have made of damage. */
  lemma {:induction false} RunMirrors(edits: seq<Action>)
    ensures Mirrors(Run(edits), edits)
  {
    hide Inv, Mirrors, Step;
    if edits == [] {
      StartMirrors();
    } else {
      var front, last := edits[..|edits| - 1], edits[|edits| - 1];
      RunMirrors(front);
      Always(front);
      StepMirrors(Run(front), last, front);
      assert front + [last] == edits;
    }
  }

  // ---- what is reached follows ----

  lemma {:induction false} UnitsReachHas(s: State, us: seq<nat>, t: nat)
    ensures t in UnitsReach(s, us).techniques
       <==> exists u :: u in us && u !in s.dead && t in UnitReach(s, u).techniques
    ensures t in UnitsReach(s, us).arrays <==> exists u :: u in us && u !in s.dead && t in UnitReach(s, u).arrays
    ensures t in UnitsReach(s, us).buffers <==> exists u :: u in us && u !in s.dead && t in UnitReach(s, u).buffers
  {
    if us != [] {
      var n := |us| - 1;
      UnitsReachHas(s, us[..n], t);
      assert us == us[..n] + [us[n]];
      hide UnitReach;
    }
  }

  lemma {:induction false} AddedExist(edits: seq<Action>, o: nat, u: nat)
    ensures u in UnitsAdded(edits, o) ==> HasUnit(edits, u) && HasObject(edits, o)
  {
    if edits != [] {
      AddedExist(edits[..|edits| - 1], o, u);
    }
  }

  lemma {:induction false} MadeExist(edits: seq<Action>, u: nat)
    ensures TechniqueOf(edits, u).Some? ==> HasTechnique(edits, TechniqueOf(edits, u).value)
  {
    if edits != [] {
      MadeExist(edits[..|edits| - 1], u);
    }
  }

  /** The technique a unit's weak pointer leads to. */
  predicate LeadsTo(s: State, u: nat, t: nat) { u in s.units && Lives(s.units[u], s.dead, t) && t in s.techniques }

  lemma UnitReachHas(s: State, u: nat, id: nat)
    ensures id in UnitReach(s, u).techniques <==> LeadsTo(s, u, id)
    ensures id in UnitReach(s, u).arrays
       <==> exists t :: LeadsTo(s, u, t) && Lives(s.techniques[t].vertexArray, s.dead, id)
    ensures id in UnitReach(s, u).buffers
       <==> exists t :: LeadsTo(s, u, t) && s.techniques[t].draw.Elements?
                     && Lives(s.techniques[t].elementArrayBuffer, s.dead, id)
  {
    if u in s.units && T.Locks(s.units[u], s.dead) && s.units[u].value in s.techniques {
      assert LeadsTo(s, u, s.units[u].value);
    }
  }

  /** A live unit in the object's list is one that was added. */
  lemma ListedIffAdded(s: State, edits: seq<Action>, o: nat, u: nat)
    requires Mirrors(s, edits)
    ensures o in s.objects && u in s.objects[o] && u !in s.dead <==> ReachesUnit(edits, o, u)
  {
    AddedExist(edits, o, u);
    AliveIn(UnitsAdded(edits, o), s.dead, u);
    if o in s.objects {
      AliveIn(s.objects[o], s.dead, u);
    }
    hide SameCalls, NothingEarly, Alive, UnitsAdded, Gone;
  }

  lemma LeadsToIffMade(s: State, edits: seq<Action>, o: nat, u: nat, t: nat)
    requires Mirrors(s, edits) && ReachesUnit(edits, o, u)
    ensures LeadsTo(s, u, t) <==> Lives(TechniqueOf(edits, u), Gone(edits), t)
  {
    AddedExist(edits, o, u);
    MadeExist(edits, u);
    hide SameCalls, NothingEarly, Alive, UnitsAdded, Gone, TechniqueOf, HasUnit, HasTechnique;
  }

  /** What a commit reaches follows from the edits. */
  lemma ReachIsAsked(edits: seq<Action>, o: nat, id: nat)
    ensures id in ObjectReach(Run(edits), o).techniques <==> ReachesTechnique(edits, o, id)
    ensures id in ObjectReach(Run(edits), o).arrays <==> ReachesArray(edits, o, id)
    ensures id in ObjectReach(Run(edits), o).buffers <==> ReachesIndices(edits, o, id)
  {
    var s := Run(edits);
    RunMirrors(edits);
    hide Run, UnitsReach, UnitReach;
    var us := if o in s.objects then s.objects[o] else [];
    forall u: nat ensures u in us && u !in s.dead <==> ReachesUnit(edits, o, u) { ListedIffAdded(s, edits, o, u); }
    forall u: nat, t: nat | ReachesUnit(edits, o, u)
      ensures LeadsTo(s, u, t) <==> Lives(TechniqueOf(edits, u), Gone(edits), t) {
      LeadsToIffMade(s, edits, o, u, t);
    }
    TechniquesAsked(s, edits, o, us, id);
    ArraysAsked(s, edits, o, us, id);
    IndicesAsked(s, edits, o, us, id);
    assert o !in s.objects ==> UnitsReach(s, us) == NOTHING by { NothingListed(s); }
  }

  lemma NothingListed(s: State)
    ensures UnitsReach(s, []) == NOTHING
  {
  }

  /** The units listed and alive are those reached, and lead where they were made to lead. */
  ghost predicate Agrees(s: State, edits: seq<Action>, o: nat, us: seq<nat>) {
    && (forall u :: u in us && u !in s.dead <==> ReachesUnit(edits, o, u))
    && (forall u, t | ReachesUnit(edits, o, u) :: LeadsTo(s, u, t) <==> Lives(TechniqueOf(edits, u), Gone(edits), t))
  }

  lemma TechniquesAsked(s: State, edits: seq<Action>, o: nat, us: seq<nat>, t: nat)
    requires Agrees(s, edits, o, us)
    ensures t in UnitsReach(s, us).techniques <==> ReachesTechnique(edits, o, t)
  {
    UnitsReachHas(s, us, t);
    forall u: nat ensures t in UnitReach(s, u).techniques <==> LeadsTo(s, u, t) { UnitReachHas(s, u, t); }
    hide UnitsReach, UnitReach, LeadsTo, Lives, TechniqueOf, Gone, ReachesUnit;
  }

  lemma ArraysAsked(s: State, edits: seq<Action>, o: nat, us: seq<nat>, v: nat)
    requires Agrees(s, edits, o, us) && SameCalls(s, edits) && s.dead == Gone(edits)
    ensures v in UnitsReach(s, us).arrays <==> ReachesArray(edits, o, v)
  {
    hide UnitsReach, UnitReach, Lives, TechniqueOf, Gone, ReachesUnit, CallsTo, T.BoundVertexArray, V.AsSet;
    UnitsReachHas(s, us, v);
    forall t | t in s.techniques ensures s.techniques[t].vertexArray == T.BoundVertexArray(CallsTo(edits, t)) {
      assert T.AsCalled(s.techniques[t], CallsTo(edits, t));
    }
    hide T.AsCalled;
    if v in UnitsReach(s, us).arrays {
      var u :| u in us && u !in s.dead && v in UnitReach(s, u).arrays;
      UnitReachHas(s, u, v);
      var t :| LeadsTo(s, u, t) && Lives(s.techniques[t].vertexArray, s.dead, v);
      assert ReachesUnit(edits, o, u) && ReachesTechnique(edits, o, t);
    }
    if ReachesArray(edits, o, v) {
      var t :| ReachesTechnique(edits, o, t) && Lives(T.BoundVertexArray(CallsTo(edits, t)), Gone(edits), v);
      var u :| ReachesUnit(edits, o, u) && Lives(TechniqueOf(edits, u), Gone(edits), t);
      assert LeadsTo(s, u, t);
      UnitReachHas(s, u, v);
    }
  }

  lemma IndicesAsked(s: State, edits: seq<Action>, o: nat, us: seq<nat>, b: nat)
    requires Agrees(s, edits, o, us) && SameCalls(s, edits) && s.dead == Gone(edits)
    ensures b in UnitsReach(s, us).buffers <==> ReachesIndices(edits, o, b)
  {
    hide UnitsReach, UnitReach, Lives, TechniqueOf, Gone, ReachesUnit, CallsTo, T.IndexBuffer, T.LastDraw, V.AsSet;
    UnitsReachHas(s, us, b);
    forall t | t in s.techniques
      ensures s.techniques[t].elementArrayBuffer == T.IndexBuffer(CallsTo(edits, t))
      ensures s.techniques[t].draw.Elements? <==> DrawsIndexed(CallsTo(edits, t)) {
      assert T.AsCalled(s.techniques[t], CallsTo(edits, t));
    }
    hide T.AsCalled, DrawsIndexed;
    if b in UnitsReach(s, us).buffers {
      var u :| u in us && u !in s.dead && b in UnitReach(s, u).buffers;
      UnitReachHas(s, u, b);
      var t :| LeadsTo(s, u, t) && s.techniques[t].draw.Elements?
            && Lives(s.techniques[t].elementArrayBuffer, s.dead, b);
      assert ReachesUnit(edits, o, u) && ReachesTechnique(edits, o, t);
    }
    if ReachesIndices(edits, o, b) {
      var t :| ReachesTechnique(edits, o, t) && DrawsIndexed(CallsTo(edits, t))
            && Lives(T.IndexBuffer(CallsTo(edits, t)), Gone(edits), b);
      var u :| ReachesUnit(edits, o, u) && Lives(TechniqueOf(edits, u), Gone(edits), t);
      assert LeadsTo(s, u, t);
      UnitReachHas(s, u, b);
    }
  }

  // ---- every commit can be made ----

  lemma {:induction false} Listed(ids: set<nat>) returns (order: seq<nat>)
    ensures forall i :: i in order <==> i in ids
  {
    if ids == {} {
      order := [];
    } else {
      var i :| i in ids;
      var rest := Listed(ids - {i});
      order := [i] + rest;
    }
  }

  /** In every state some order visits all attributes and texture units. */
  lemma SomeOrderCovers(s: State)
    ensures exists order :: Covers(s, order)
  {
    var attributes := set v, i | v in s.vertexArrays && i in s.vertexArrays[v].attributes :: i;
    var bindings := set t, b | t in s.techniques && b in s.techniques[t].textures :: b;
    var order := Listed(attributes + bindings);
    assert Covers(s, order);
  }
}
