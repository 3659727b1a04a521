/** The current session of the client, its discovery broadcast and its keepalive call. */
module SessionLifecycle {
  import opened Options

  datatype Session = Session(id: nat, active: bool, keepalive: Option<nat>)

  datatype Life = Life(enabled: bool, broadcasting: bool, nextId: nat, current: Option<Session>)

  /** A keepalive call: waiting for its request, attached to a session or being examined, answered, gone. */
  datatype CallState = Listening | Processing | Finishing | Deleted

  function Started(): Life { Life(false, false, 1, None) }

  function Enabled(l: Life): Life {
    var l1 := l.(enabled := true);
    if l1.current.None? then l1.(broadcasting := true) else l1
  }

  function Disabled(l: Life): Life {
    l.(enabled := false, broadcasting := false, current := None)
  }

  function Reset(l: Life): Life {
    if !l.enabled then l
    else l.(current := Some(Session(l.nextId, true, None)), nextId := l.nextId + 1, broadcasting := false)
  }

  function Cleared(l: Life, id: nat): Life {
    var l1 := if l.current.Some? && l.current.value.id == id then l.(current := None) else l;
    if l1.current.None? && l1.enabled then l1.(broadcasting := true) else l1
  }

  predicate Acceptable(l: Life) { l.current.None? && l.enabled }

  /** Whether a keepalive request for session id is attached. */
  predicate Attaches(l: Life, id: nat) {
    l.current.Some? && l.current.value.id == id && l.current.value.active && l.current.value.keepalive.None?
  }

  function Attached(l: Life, id: nat, k: nat): Life {
    if Attaches(l, id) then l.(current := Some(l.current.value.(keepalive := Some(k)))) else l
  }

  class AsyncSessionKeepaliveCaller {
    const number: nat
    var state: CallState

    constructor (number: nat)
      ensures this.number == number && state == Processing
    {
      this.number, state := number, Processing;
    }

    /** Answering twice would hand the call's tag to the completion queue twice. */
    method Finish()
      requires state == Processing
      modifies this
      ensures state == Finishing
    {
      state := Finishing;
    }
  }

  class ClientSession {
    const id: nat
    var active: bool
    var keepaliveCaller: AsyncSessionKeepaliveCaller?

    ghost predicate Valid()
      reads this, keepaliveCaller
    {
      keepaliveCaller != null ==> active && keepaliveCaller.state == Processing
    }

    ghost function Value(): Session
      reads this
    {
      Session(id, active, if keepaliveCaller == null then None else Some(keepaliveCaller.number))
    }

    constructor (id: nat)
      ensures Valid() && Value() == Session(id, true, None)
    {
      this.id, active, keepaliveCaller := id, true, null;
    }

    /** The attached keepalive, if any, is answered here and forgotten. */
    method Shutdown()
      requires Valid()
      modifies this, keepaliveCaller
      ensures Valid() && Value() == Session(id, false, None)
      ensures old(keepaliveCaller) != null ==> old(keepaliveCaller).state == Finishing
    {
      active := false;
      if keepaliveCaller != null {
        keepaliveCaller.Finish();
        keepaliveCaller := null;
      }
    }

    method SetKeepaliveCaller(caller: AsyncSessionKeepaliveCaller) returns (attached: bool)
      requires Valid() && caller.state == Processing
      modifies this
      ensures Valid() && attached == (old(active) && old(keepaliveCaller) == null)
      ensures Value() == if attached then old(Value()).(keepalive := Some(caller.number)) else old(Value())
      ensures attached ==> keepaliveCaller == caller
    {
      if !active || keepaliveCaller != null {
        return false;
      }
      keepaliveCaller := caller;
      return true;
    }
  }

  class Remote {
    var sessionIsEnabled: bool
    var broadcasting: bool
    var nextId: nat
    var currentSession: ClientSession?

    ghost predicate Valid()
      reads this, currentSession, if currentSession == null then null else currentSession.keepaliveCaller
    {
      currentSession != null ==> currentSession.Valid() && currentSession.active
    }

    ghost function Value(): Life
      reads this, currentSession
    {
      Life(sessionIsEnabled, broadcasting, nextId,
           if currentSession == null then None else Some(currentSession.Value()))
    }

    constructor ()
      ensures Valid() && Value() == Started()
    {
      sessionIsEnabled, broadcasting, nextId, currentSession := false, false, 1, null;
    }

    method EnableSession()
      requires Valid()
      modifies this
      ensures Valid() && Value() == Enabled(old(Value()))
    {
      sessionIsEnabled := true;
      if currentSession == null {
        broadcasting := true;
      }
    }

    method DisableSession()
      requires Valid()
      modifies this, currentSession, if currentSession == null then null else currentSession.keepaliveCaller
      ensures Valid() && Value() == Disabled(old(Value()))
      ensures old(currentSession != null && currentSession.keepaliveCaller != null) ==>
                old(currentSession.keepaliveCaller).state == Finishing
    {
      sessionIsEnabled := false;
      broadcasting := false;
      if currentSession != null {
        currentSession.Shutdown();
        currentSession := null;
      }
    }

    /** The previous session is dropped without Shutdown: its keepalive keeps the state it had. */
    method ResetSession() returns (session: ClientSession?)
      requires Valid()
      modifies this
      ensures Valid() && Value() == Reset(old(Value()))
      ensures session == if old(sessionIsEnabled) then currentSession else null
      ensures old(sessionIsEnabled) ==> fresh(currentSession)
    {
      if !sessionIsEnabled {
        return null;
      }
      var created := new ClientSession(nextId);
      nextId := nextId + 1;
      currentSession := created;
      broadcasting := false;
      return created;
    }

    method ClearSession(id: nat)
      requires Valid()
      modifies this, currentSession, if currentSession == null then null else currentSession.keepaliveCaller
      ensures Valid() && Value() == Cleared(old(Value()), id)
      ensures old(currentSession != null && currentSession.id == id && currentSession.keepaliveCaller != null) ==>
                old(currentSession.keepaliveCaller).state == Finishing
    {
      if currentSession != null && currentSession.id == id {
        currentSession.Shutdown();
        currentSession := null;
      }
      if currentSession == null && sessionIsEnabled {
        broadcasting := true;
      }
    }

    method IsNewSessionAcceptable() returns (acceptable: bool)
      ensures acceptable == Acceptable(Value())
    {
      acceptable := currentSession == null && sessionIsEnabled;
    }
  }

  // ---- whole runs ----

  /** `fault` records a second answer to one call. */
  datatype State = State(life: Life, calls: map<nat, CallState>, fault: bool, ids: seq<nat>)

  datatype Action =
    | Enable | Disable | NewSession | Clear(id: nat)
    | Listen(k: nat)
    | Arrive(k: nat, id: nat)       // the keepalive request for session id
    | Event(k: nat, ok: bool)       // the completion queue returns the call's tag

  function Start(): State { State(Started(), map[], false, []) }

  function Answered(s: State, k: nat): State {
    if k in s.calls && s.calls[k].Processing? then s.(calls := s.calls[k := Finishing]) else s.(fault := true)
  }

  /** Session::Shutdown as far as calls go. */
  function ShutDown(s: State): State {
    if s.life.current.Some? && s.life.current.value.keepalive.Some?
    then Answered(s, s.life.current.value.keepalive.value)
    else s
  }

  /** An action that is not enabled changes nothing, so every action sequence is a run. */
  function Step(s: State, a: Action): State {
    match a
    case Enable => s.(life := Enabled(s.life))
    case Disable => ShutDown(s).(life := Disabled(s.life))
    case NewSession => s.(life := Reset(s.life), ids := if s.life.enabled then s.ids + [s.life.nextId] else s.ids)
    case Clear(id) =>
      (if s.life.current.Some? && s.life.current.value.id == id then ShutDown(s) else s).(life := Cleared(s.life, id))
    case Listen(k) => if k in s.calls then s else s.(calls := s.calls[k := Listening])
    case Arrive(k, id) =>
      if k !in s.calls || !s.calls[k].Listening? then s
      else
        var s1 := s.(calls := s.calls[k := Processing]);
        if Attaches(s.life, id) then s1.(life := Attached(s.life, id, k)) else Answered(s1, k)
    case Event(k, ok) =>
      // only a listening or an answered call has a tag outstanding
      if k !in s.calls || !(s.calls[k].Finishing? || (s.calls[k].Listening? && !ok)) then s
      else s.(calls := s.calls[k := Deleted])
  }

  function RunFrom(s: State, actions: seq<Action>): State {
    if actions == [] then s
    else Step(RunFrom(s, actions[..|actions| - 1]), actions[|actions| - 1])
  }

  function Run(actions: seq<Action>): State { RunFrom(Start(), actions) }

  predicate Inv(s: State) {
    && !s.fault
    && (s.life.broadcasting <==> Acceptable(s.life))
    && (s.life.current.Some? ==> s.life.current.value.active)
    && (s.life.current.Some? && s.life.current.value.keepalive.Some? ==>
          s.life.current.value.keepalive.value in s.calls
          && s.calls[s.life.current.value.keepalive.value].Processing?)
    && (s.life.current.Some? ==> s.ids != [] && s.ids[|s.ids| - 1] == s.life.current.value.id)
    && (forall i, j | 0 <= i < j < |s.ids| :: s.ids[i] < s.ids[j])
    && (forall i | 0 <= i < |s.ids| :: 0 < s.ids[i] < s.life.nextId)
    && s.life.nextId > 0
  }

  lemma StepInv(s: State, a: Action)
    requires Inv(s)
    ensures Inv(Step(s, a))
  {
  }

  lemma {:induction false} Always(actions: seq<Action>)
    ensures Inv(Run(actions))
  {
    if actions != [] {
      Always(actions[..|actions| - 1]);
      StepInv(Run(actions[..|actions| - 1]), actions[|actions| - 1]);
    }
  }

  /** On every run the broadcast is on exactly when a probe for a new session is accepted, the current
      session is active and the latest created, ids increase from 1, and no keepalive is answered twice. */
  lemma Lifecycle(actions: seq<Action>)
    ensures var s := Run(actions);
            && (s.life.broadcasting <==> s.life.enabled && s.life.current.None?)
            && (s.life.current.Some? ==>
                  (s.life.current.value.active && s.ids != [] && s.life.current.value.id == s.ids[|s.ids| - 1]))
            && (forall i, j | 0 <= i < j < |s.ids| :: 0 < s.ids[i] < s.ids[j])
            && !s.fault
  {
    Always(actions);
  }

  // ---- what the calls made amount to ----

  /** Enabled last, not disabled. */
  predicate IsOn(actions: seq<Action>) {
    actions != [] &&
    match actions[|actions| - 1]
    case Enable => true
    case Disable => false
    case _ => IsOn(actions[..|actions| - 1])
  }

  /** How many sessions have been created. */
  function Opened(actions: seq<Action>): nat {
    if actions == [] then 0
    else
      var front, last := actions[..|actions| - 1], actions[|actions| - 1];
      Opened(front) + if last.NewSession? && IsOn(front) then 1 else 0
  }

  /** The number of the session that is current: the latest created, until it is disabled or cleared by its id. */
  function CurrentSession(actions: seq<Action>): Option<nat> {
    if actions == [] then None
    else
      var front, last := actions[..|actions| - 1], actions[|actions| - 1];
      if last.NewSession? && IsOn(front) then Some(Opened(front) + 1)
      else if last.Disable? || (last.Clear? && CurrentSession(front) == Some(last.id)) then None
      else CurrentSession(front)
  }

  predicate Awaits(actions: seq<Action>, k: nat) { k in Run(actions).calls && Run(actions).calls[k].Listening? }

  /** The keepalive of the current session: the first that asked for it by its number. */
  function Holder(actions: seq<Action>): Option<nat> {
    if actions == [] then None
    else
      var front, last := actions[..|actions| - 1], actions[|actions| - 1];
      if (last.NewSession? && IsOn(front)) || CurrentSession(actions) == None then None
      else if last.Arrive? && Awaits(front, last.k) && CurrentSession(front) == Some(last.id) && Holder(front) == None
      then Some(last.k)
      else Holder(front)
  }

  /** On every run the whole life follows from the calls: ids count from 1, and the broadcast fills every gap. */
  lemma {:induction false} LifeIsAsked(actions: seq<Action>)
    ensures var current := CurrentSession(actions);
            Run(actions).life == Life(IsOn(actions), IsOn(actions) && current.None?, Opened(actions) + 1,
                                      if current.Some? then Some(Session(current.value, true, Holder(actions)))
                                      else None)
  {
    if actions != [] {
      LifeIsAsked(actions[..|actions| - 1]);
    }
  }

  /** A keepalive request waits if and only if it names the current session and is the first to do so; any other is
      answered at once. */
  lemma ArrivalWaitsIff(actions: seq<Action>, k: nat, id: nat)
    requires Awaits(actions, k)
    ensures var t := Step(Run(actions), Arrive(k, id));
            && k in t.calls && (t.calls[k].Processing? || t.calls[k].Finishing?)
            && (t.calls[k].Processing? <==> CurrentSession(actions) == Some(id) && Holder(actions) == None)
  {
    LifeIsAsked(actions);
  }

  /** Clearing by any id but the current one ends nothing. */
  lemma StaleClearHarmless(actions: seq<Action>, id: nat)
    requires Run(actions).life.current.Some? && Run(actions).life.current.value.id != id
    ensures Step(Run(actions), Clear(id)) == Run(actions)
  {
    Always(actions);
  }

  /** An attached keepalive leaves its state exactly when its session is the current one and is ended by Disable or
      its own Clear. */
  lemma KeepaliveAnsweredExactly(actions: seq<Action>, k: nat, a: Action)
    requires k in Run(actions).calls && Run(actions).calls[k].Processing?
    ensures var s, t := Run(actions), Step(Run(actions), a);
            t.calls[k] != Processing <==>
              && s.life.current.Some? && s.life.current.value.keepalive == Some(k)
              && (a.Disable? || (a.Clear? && a.id == s.life.current.value.id))
  {
    Always(actions);
  }

  /** Orphaned(s, k): attached, but to no current session. */
  predicate Orphaned(s: State, k: nat) {
    && k in s.calls && s.calls[k].Processing?
    && (s.life.current.None? || s.life.current.value.keepalive != Some(k))
  }

  /** A keepalive attached to no current session stays that way. */
  lemma StaysOrphaned(s: State, k: nat, a: Action)
    requires Orphaned(s, k)
    ensures Orphaned(Step(s, a), k)
  {
  }

  /** A session replaced by NewSession takes its keepalive with it: the call is never answered, whatever follows. */
  lemma {:induction false} ReplacedKeepaliveNeverAnswered(actions: seq<Action>, k: nat, later: seq<Action>)
    requires var s := Run(actions);
             s.life.enabled && s.life.current.Some? && s.life.current.value.keepalive == Some(k)
    ensures Orphaned(RunFrom(Step(Run(actions), NewSession), later), k)
  {
    if later == [] {
      Always(actions);
    } else {
      ReplacedKeepaliveNeverAnswered(actions, k, later[..|later| - 1]);
      StaysOrphaned(RunFrom(Step(Run(actions), NewSession), later[..|later| - 1]), k, later[|later| - 1]);
      hide Orphaned, Step;
    }
  }
}
