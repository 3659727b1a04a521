/** From the wrappers of the server's application to the handlers of the client, over all channels of a session. */
module EndToEnd {
  import opened Options
  import opened Handlers
  import S = SerialQueue
  import Q = ClientSession
  import P = Pipeline

  // ---- the server's application ----

  class SessionSerial {
    var resource: nat
    var channel: nat

    constructor ()
      ensures resource == 1 && channel == 1
    {
      resource, channel := 1, 1;
    }

    method NextResourceSerial() returns (serial: nat)
      modifies this`resource
      ensures serial == old(resource) && resource == old(resource) + 1
    {
      serial := resource;
      resource := resource + 1;
    }

    method NextChannelSerial() returns (serial: nat)
      modifies this`channel
      ensures serial == old(channel) && channel == old(channel) + 1
    {
      serial := channel;
      channel := channel + 1;
    }
  }

  type Pushed = map<nat, seq<Request>>

  function PushedOn(pushed: Pushed, channel: nat): seq<Request> {
    if channel in pushed then pushed[channel] else []
  }

  /** Wrapper objects by the resource they stand for, each with its channel: constructed and not initialised, or
      usable. */
  datatype App = App(next: nat, made: map<Ref, nat>, live: map<Ref, nat>, pushed: Pushed)

  datatype Act =
    | Construct(channel: nat, kind: Kind)          // takes a resource serial
    | Init(target: Ref, parent: Option<Ref>)       // pushes New
    | Use(receiver: Ref)
    | Destruct(target: Ref)                        // pushes Delete

  function Push(pushed: Pushed, channel: nat, q: Request): Pushed {
    pushed[channel := PushedOn(pushed, channel) + [q]]
  }

  /** Init takes whatever parent the application names; that only existing wrappers are used C++ object lifetime
      enforces. */
  function Acted(s: App, a: Act): App {
    match a
    case Construct(ch, kind) => s.(next := s.next + 1, made := s.made[Ref(kind, s.next) := ch])
    case Init(t, parent) =>
      if t !in s.made then s
      else s.(made := s.made - {t}, live := s.live[t := s.made[t]], pushed := Push(s.pushed, s.made[t], New(t, parent)))
    case Use(r) => if r !in s.live then s else s.(pushed := Push(s.pushed, s.live[r], Call(r)))
    case Destruct(t) =>
      if t !in s.live then s
      else s.(live := s.live - {t}, pushed := Push(s.pushed, s.live[t], Delete(t)))
  }

  function Application(acts: seq<Act>): App {
    if acts == [] then App(1, map[], map[], map[])
    else Acted(Application(acts[..|acts| - 1]), acts[|acts| - 1])
  }

  ghost predicate CreatedAt(pushed: Pushed, channel: nat, r: Ref) { Created(PushedOn(pushed, channel), r) }
  ghost predicate GoneAt(pushed: Pushed, channel: nat, r: Ref) { Gone(PushedOn(pushed, channel), r) }

  /** No resource is created on two channels. */
  ghost predicate OneCreator(pushed: Pushed) {
    forall a, b, r | CreatedAt(pushed, a, r) && CreatedAt(pushed, b, r) :: a == b
  }

  ghost predicate EachSound(pushed: Pushed) { forall c :: Sound(PushedOn(pushed, c)) }

  ghost predicate EachOrderly(pushed: Pushed) { forall c :: Orderly(PushedOn(pushed, c)) }

  /** A wrapper is usable exactly while its resource is created and not deleted on its channel. */
  ghost predicate AppInv(s: App) {
    && EachOrderly(s.pushed) && OneCreator(s.pushed)
    && (forall r | r in s.made :: r.id < s.next && forall c :: !CreatedAt(s.pushed, c, r))
    && (forall c, r | CreatedAt(s.pushed, c, r) :: r.id < s.next)
    && (forall c, r :: CreatedAt(s.pushed, c, r) && !GoneAt(s.pushed, c, r) <==> r in s.live && s.live[r] == c)
  }

  /** When a wrapper is initialised under a parent, the parent is a usable wrapper of the same channel. */
  predicate NamesLiveParent(s: App, a: Act) {
    a.Init? && a.target in s.made && a.parent.Some? ==>
      a.parent.value in s.live && s.live[a.parent.value] == s.made[a.target]
  }

  ghost predicate Disciplined(acts: seq<Act>) {
    forall k | 0 <= k < |acts| :: NamesLiveParent(Application(acts[..k]), acts[k])
  }

  lemma SoundLess(past: seq<Request>, q: Request)
    requires Sound(past + [q])
    ensures Sound(past) && Follows(past, q)
  {
    var more := past + [q];
    assert more[..|past|] == past && more[|past|] == q;
    forall i | 0 <= i < |past| ensures Follows(past[..i], past[i]) {
      assert more[..i] == past[..i] && more[i] == past[i];
    }
  }

  lemma OrderlyMore(past: seq<Request>, q: Request)
    requires Orderly(past)
    requires forall r :: (Creates(q, r) ==> !Created(past, r)) && (Deletes(q, r) ==> Created(past, r))
    ensures Orderly(past + [q])
  {
    var more := past + [q];
    assert forall i | 0 <= i <= |past| :: more[..i] == past[..i];
    assert past[..|past|] == past;
  }

  lemma PushSoundIff(pushed: Pushed, ch: nat, q: Request)
    ensures EachSound(Push(pushed, ch, q)) <==> EachSound(pushed) && Follows(PushedOn(pushed, ch), q)
  {
    hide Sound, Follows;
    assert PushedOn(Push(pushed, ch, q), ch) == PushedOn(pushed, ch) + [q];
    assert forall c | c != ch :: PushedOn(Push(pushed, ch, q), c) == PushedOn(pushed, c);
    if EachSound(pushed) && Follows(PushedOn(pushed, ch), q) {
      SoundMore(PushedOn(pushed, ch), q);
      forall c ensures Sound(PushedOn(Push(pushed, ch, q), c)) {
        assert c != ch ==> Sound(PushedOn(pushed, c));
      }
    }
    if EachSound(Push(pushed, ch, q)) {
      SoundLess(PushedOn(pushed, ch), q);
      forall c ensures Sound(PushedOn(pushed, c)) {
        assert Sound(PushedOn(Push(pushed, ch, q), c));
      }
    }
  }

  lemma PushCreates(pushed: Pushed, ch: nat, q: Request, c: nat, r: Ref)
    ensures CreatedAt(Push(pushed, ch, q), c, r) <==> CreatedAt(pushed, c, r) || (c == ch && Creates(q, r))
    ensures GoneAt(Push(pushed, ch, q), c, r) <==> GoneAt(pushed, c, r) || (c == ch && Deletes(q, r))
  {
    CreatedMore(PushedOn(pushed, ch), q, r);
  }

  /** One push, with the wrappers changed to match. */
  ghost predicate Matches(s: App, t: App, ch: nat, q: Request) {
    && t.next == s.next && t.pushed == Push(s.pushed, ch, q)
    && (forall r | Creates(q, r) :: r in s.made && r !in t.made)
    && (forall r | r in t.made :: r in s.made)
    && (forall r | Deletes(q, r) :: r in s.live && s.live[r] == ch)
    && (forall r :: r in t.live <==> (r in s.live && !Deletes(q, r)) || Creates(q, r))
    && (forall r | r in t.live :: t.live[r] == if Creates(q, r) then ch else s.live[r])
  }

  lemma PushKeepsOrderly(pushed: Pushed, ch: nat, q: Request)
    requires EachOrderly(pushed)
    requires forall r :: (Creates(q, r) ==> !CreatedAt(pushed, ch, r)) && (Deletes(q, r) ==> CreatedAt(pushed, ch, r))
    ensures EachOrderly(Push(pushed, ch, q))
  {
    forall r ensures (Creates(q, r) ==> !Created(PushedOn(pushed, ch), r))
                  && (Deletes(q, r) ==> Created(PushedOn(pushed, ch), r)) {
      assert CreatedAt(pushed, ch, r) == Created(PushedOn(pushed, ch), r);
    }
    OrderlyMore(PushedOn(pushed, ch), q);
    hide Orderly;
    assert forall c | c != ch :: PushedOn(Push(pushed, ch, q), c) == PushedOn(pushed, c);
  }

  lemma PushKeepsInv(s: App, t: App, ch: nat, q: Request)
    requires AppInv(s) && Matches(s, t, ch, q)
    ensures AppInv(t)
  {
    PushKeepsOrderly(s.pushed, ch, q);
    forall r | Creates(q, r) ensures !GoneAt(s.pushed, ch, r) {
      assert !CreatedAt(s.pushed, ch, r);
      if GoneAt(s.pushed, ch, r) { OrderlyGone(PushedOn(s.pushed, ch), r); }
    }
    forall c: nat, r: Ref
      ensures CreatedAt(t.pushed, c, r) <==> CreatedAt(s.pushed, c, r) || (c == ch && Creates(q, r))
      ensures GoneAt(t.pushed, c, r) <==> GoneAt(s.pushed, c, r) || (c == ch && Deletes(q, r)) {
      PushCreates(s.pushed, ch, q, c, r);
    }
    hide CreatedAt, GoneAt, Push, PushedOn, EachOrderly;
  }

  /** The request an action pushes, and where. */
  function Issues(s: App, a: Act): Option<(nat, Request)> {
    match a
    case Construct(_, _) => None
    case Init(t, parent) => if t in s.made then Some((s.made[t], New(t, parent))) else None
    case Use(r) => if r in s.live then Some((s.live[r], Call(r))) else None
    case Destruct(t) => if t in s.live then Some((s.live[t], Delete(t))) else None
  }

  lemma ActKeepsInv(s: App, a: Act)
    requires AppInv(s)
    ensures AppInv(Acted(s, a))
  {
    var pushes := Issues(s, a);
    if pushes.Some? {
      PushKeepsInv(s, Acted(s, a), pushes.value.0, pushes.value.1);
    }
  }

  /** A request of an existing wrapper may follow; a new one may follow if and only if its parent is usable on its
      channel. */
  lemma ActFollowsIff(s: App, a: Act)
    requires AppInv(s) && Issues(s, a).Some?
    ensures Follows(PushedOn(s.pushed, Issues(s, a).value.0), Issues(s, a).value.1) <==> NamesLiveParent(s, a)
  {
    var ch, q := Issues(s, a).value.0, Issues(s, a).value.1;
    var past := PushedOn(s.pushed, ch);
    forall r: Ref ensures Created(past, r) == CreatedAt(s.pushed, ch, r) && Gone(past, r) == GoneAt(s.pushed, ch, r) {
    }
    assert forall r :: Created(past, r) && !Gone(past, r) <==> r in s.live && s.live[r] == ch;
    hide Created, Gone, CreatedAt, GoneAt, EachOrderly, OneCreator;
    if a.Init? && a.parent.Some? {
      assert Uses(q, a.parent.value);
    }
  }

  lemma ActSoundIff(s: App, a: Act)
    requires AppInv(s)
    ensures EachSound(Acted(s, a).pushed) <==> EachSound(s.pushed) && NamesLiveParent(s, a)
  {
    var pushes := Issues(s, a);
    if pushes.Some? {
      ActFollowsIff(s, a);
      PushSoundIff(s.pushed, pushes.value.0, pushes.value.1);
    }
  }

  /** No resource has two creators, ids are not reused, and only what was created is deleted, whatever the application
      does. */
  lemma {:induction false} ApplicationIsOrderly(acts: seq<Act>)
    ensures AppInv(Application(acts))
  {
    if acts != [] {
      ApplicationIsOrderly(acts[..|acts| - 1]);
      ActKeepsInv(Application(acts[..|acts| - 1]), acts[|acts| - 1]);
    }
  }

  lemma DisciplinedStep(acts: seq<Act>)
    requires acts != []
    ensures var n := |acts| - 1;
            Disciplined(acts) <==> Disciplined(acts[..n]) && NamesLiveParent(Application(acts[..n]), acts[n])
  {
    var n := |acts| - 1;
    hide NamesLiveParent, Application;
    forall k | 0 <= k < n
      ensures NamesLiveParent(Application(acts[..n][..k]), acts[..n][k])
              == NamesLiveParent(Application(acts[..k]), acts[k]) {
      assert acts[..n][..k] == acts[..k];
    }
  }

  /** Each channel's requests are sound if and only if the application only names usable parents of the same channel. */
  lemma {:induction false} ApplicationSoundIff(acts: seq<Act>)
    ensures EachSound(Application(acts).pushed) <==> Disciplined(acts)
  {
    if acts == [] {
      assert forall c :: PushedOn(Application(acts).pushed, c) == [];
    } else {
      var n := |acts| - 1;
      ApplicationSoundIff(acts[..n]);
      ApplicationIsOrderly(acts[..n]);
      ActSoundIff(Application(acts[..n]), acts[n]);
      DisciplinedStep(acts);
      assert Application(acts) == Acted(Application(acts[..n]), acts[n]);
      hide NamesLiveParent, Disciplined, EachSound, AppInv, Acted;
    }
  }

  // ---- what is pushed is what was called ----

  /** How many wrappers have been constructed; they are numbered from 1. */
  function Constructed(acts: seq<Act>): nat {
    if acts == [] then 0
    else Constructed(acts[..|acts| - 1]) + if acts[|acts| - 1].Construct? then 1 else 0
  }

  /** The channel wrapper r was constructed on. */
  function HomeOf(acts: seq<Act>, r: Ref): Option<nat> {
    if acts == [] then None
    else
      var front, last := acts[..|acts| - 1], acts[|acts| - 1];
      if last.Construct? && r == Ref(last.kind, Constructed(front) + 1) then Some(last.channel) else HomeOf(front, r)
  }

  predicate Initialised(acts: seq<Act>, r: Ref) {
    acts != [] &&
    var front, last := acts[..|acts| - 1], acts[|acts| - 1];
    Initialised(front, r) || (last.Init? && last.target == r && HomeOf(front, r).Some?)
  }

  predicate Destructed(acts: seq<Act>, r: Ref) {
    acts != [] &&
    var front, last := acts[..|acts| - 1], acts[|acts| - 1];
    Destructed(front, r) || (last.Destruct? && last.target == r && Initialised(front, r))
  }

  predicate Usable(acts: seq<Act>, r: Ref) { Initialised(acts, r) && !Destructed(acts, r) }

  /** The requests that the calls on wrappers of this channel amount to, in call order. */
  function Called(acts: seq<Act>, channel: nat): seq<Request> {
    if acts == [] then []
    else
      var front, last := acts[..|acts| - 1], acts[|acts| - 1];
      Called(front, channel) +
      match last
      case Construct(_, _) => []
      case Init(t, parent) =>
        if HomeOf(front, t) == Some(channel) && !Initialised(front, t) then [New(t, parent)] else []
      case Use(r) => if HomeOf(front, r) == Some(channel) && Usable(front, r) then [Call(r)] else []
      case Destruct(t) => if HomeOf(front, t) == Some(channel) && Usable(front, t) then [Delete(t)] else []
  }

  lemma CalledMore(acts: seq<Act>, a: Act)
    ensures Constructed(acts + [a]) == Constructed(acts) + if a.Construct? then 1 else 0
    ensures forall r :: HomeOf(acts + [a], r)
                     == if a.Construct? && r == Ref(a.kind, Constructed(acts) + 1) then Some(a.channel)
                        else HomeOf(acts, r)
    ensures forall r :: Initialised(acts + [a], r)
                   <==> Initialised(acts, r) || (a.Init? && a.target == r && HomeOf(acts, r).Some?)
    ensures forall r :: Destructed(acts + [a], r)
                   <==> Destructed(acts, r) || (a.Destruct? && a.target == r && Initialised(acts, r))
  {
    assert (acts + [a])[..|acts|] == acts;
  }

  lemma RequestMore(acts: seq<Act>, a: Act, ch: nat)
    ensures Called(acts + [a], ch)
         == if a.Init? && HomeOf(acts, a.target) == Some(ch) && !Initialised(acts, a.target)
            then Called(acts, ch) + [New(a.target, a.parent)]
            else if a.Use? && HomeOf(acts, a.receiver) == Some(ch) && Usable(acts, a.receiver)
            then Called(acts, ch) + [Call(a.receiver)]
            else if a.Destruct? && HomeOf(acts, a.target) == Some(ch) && Usable(acts, a.target)
            then Called(acts, ch) + [Delete(a.target)]
            else Called(acts, ch)
  {
    assert (acts + [a])[..|acts|] == acts;
    assert Called(acts, ch) + [] == Called(acts, ch);
    hide HomeOf, Usable, Initialised;
  }

  ghost predicate WrappersAsCalled(s: App, acts: seq<Act>) {
    && s.next == Constructed(acts) + 1
    && (forall r :: HomeOf(acts, r).Some? ==> r.id <= Constructed(acts))
    && (forall r :: Initialised(acts, r) ==> HomeOf(acts, r).Some?)
    && (forall r :: Destructed(acts, r) ==> Initialised(acts, r))
    && (forall r :: r in s.made <==> HomeOf(acts, r).Some? && !Initialised(acts, r))
    && (forall r :: r in s.live <==> Usable(acts, r))
    && (forall r | r in s.made :: HomeOf(acts, r) == Some(s.made[r]))
    && (forall r | r in s.live :: HomeOf(acts, r) == Some(s.live[r]))
  }

  lemma WrappersStep(s: App, a: Act, acts: seq<Act>)
    requires WrappersAsCalled(s, acts)
    ensures WrappersAsCalled(Acted(s, a), acts + [a])
  {
    hide HomeOf, Initialised, Destructed, Constructed, Push;
    CalledMore(acts, a);
  }

  lemma PushedStep(s: App, a: Act, acts: seq<Act>, ch: nat)
    requires WrappersAsCalled(s, acts) && PushedOn(s.pushed, ch) == Called(acts, ch)
    ensures PushedOn(Acted(s, a).pushed, ch) == Called(acts + [a], ch)
  {
    hide HomeOf, Initialised, Destructed, Constructed, Called;
    RequestMore(acts, a, ch);
  }

  /** On every run a channel has been handed exactly the requests that the calls on its wrappers amount to, in order. */
  lemma {:induction false} PushedAsCalled(acts: seq<Act>, ch: nat)
    ensures WrappersAsCalled(Application(acts), acts) && PushedOn(Application(acts).pushed, ch) == Called(acts, ch)
  {
    if acts != [] {
      var front, last := acts[..|acts| - 1], acts[|acts| - 1];
      PushedAsCalled(front, ch);
      hide WrappersAsCalled, Acted, Called;
      WrappersStep(Application(front), last, front);
      PushedStep(Application(front), last, front, ch);
      assert front + [last] == acts;
    }
  }

  // ---- the client runs the channels interleaved ----

  datatype Issue = Issue(channel: nat, request: Request)

  function All(log: seq<Issue>): (qs: seq<Request>)
    ensures |qs| == |log| && forall i | 0 <= i < |log| :: qs[i] == log[i].request
  {
    seq(|log|, i requires 0 <= i < |log| => log[i].request)
  }

  function On(log: seq<Issue>, channel: nat): seq<Request> {
    if log == [] then []
    else
      var last := log[|log| - 1];
      On(log[..|log| - 1], channel) + if last.channel == channel then [last.request] else []
  }

  /** On every channel, the log runs a prefix of what was pushed. */
  ghost predicate Interleaves(log: seq<Issue>, pushed: Pushed) {
    forall c :: On(log, c) <= PushedOn(pushed, c)
  }

  lemma {:induction false} OnHas(log: seq<Issue>, i: nat)
    requires i < |log|
    ensures log[i].request in On(log, log[i].channel)
  {
    if i < |log| - 1 {
      OnHas(log[..|log| - 1], i);
    }
  }

  lemma {:induction false} OnIsIn(log: seq<Issue>, c: nat, q: Request)
    requires q in On(log, c)
    ensures q in All(log)
  {
    var front := log[..|log| - 1];
    if q in On(front, c) {
      OnIsIn(front, c, q);
      var i :| 0 <= i < |front| && All(front)[i] == q;
      assert All(log)[i] == q;
    } else {
      assert All(log)[|log| - 1] == q;
    }
  }

  lemma CreatedOn(log: seq<Issue>, c: nat, r: Ref)
    requires Created(On(log, c), r)
    ensures Created(All(log), r)
  {
    var i :| 0 <= i < |On(log, c)| && Creates(On(log, c)[i], r);
    OnIsIn(log, c, On(log, c)[i]);
  }

  /** Whatever the log creates or deletes, it does on some channel. */
  lemma ChannelOfCreation(log: seq<Issue>, r: Ref) returns (c: nat)
    requires Created(All(log), r)
    ensures Created(On(log, c), r)
  {
    var i :| 0 <= i < |log| && Creates(All(log)[i], r);
    c := log[i].channel;
    OnHas(log, i);
  }

  lemma ChannelOfDeletion(log: seq<Issue>, r: Ref) returns (c: nat)
    requires Gone(All(log), r)
    ensures Gone(On(log, c), r)
  {
    var i :| 0 <= i < |log| && Deletes(All(log)[i], r);
    c := log[i].channel;
    OnHas(log, i);
  }

  lemma PrefixHas(a: seq<Request>, b: seq<Request>, r: Ref)
    requires a <= b
    ensures Created(a, r) ==> Created(b, r)
    ensures Gone(a, r) ==> Gone(b, r)
  {
    assert forall i | 0 <= i < |a| :: a[i] == b[i];
    if Created(a, r) {
      var i :| 0 <= i < |a| && Creates(a[i], r);
      assert Creates(b[i], r);
    }
    if Gone(a, r) {
      var i :| 0 <= i < |a| && Deletes(a[i], r);
      assert Deletes(b[i], r);
    }
  }

  /** What channel c creates is created and deleted on channel c only. */
  lemma OwnedByChannel(log: seq<Issue>, pushed: Pushed, c: nat, r: Ref)
    requires Interleaves(log, pushed) && EachSound(pushed) && OneCreator(pushed) && CreatedAt(pushed, c, r)
    ensures Created(All(log), r) ==> Created(On(log, c), r)
    ensures Gone(All(log), r) ==> Gone(On(log, c), r)
  {
    if Created(All(log), r) {
      var other := ChannelOfCreation(log, r);
      PrefixHas(On(log, other), PushedOn(pushed, other), r);
      assert CreatedAt(pushed, other, r);
    }
    if Gone(All(log), r) {
      var other := ChannelOfDeletion(log, r);
      PrefixHas(On(log, other), PushedOn(pushed, other), r);
      GoneWasCreated(PushedOn(pushed, other), r);
      assert CreatedAt(pushed, other, r);
    }
  }

  /** A request that may follow on its channel may follow in the interleaving. */
  lemma FollowsInLog(log: seq<Issue>, e: Issue, pushed: Pushed)
    requires Interleaves(log, pushed) && Interleaves(log + [e], pushed) && EachSound(pushed) && OneCreator(pushed)
    ensures Follows(All(log), e.request)
  {
    var c, q := e.channel, e.request;
    var mine, whole := On(log, c), PushedOn(pushed, c);
    assert (log + [e])[..|log|] == log;
    assert On(log + [e], c) == mine + [q] <= whole;
    assert whole[..|mine|] == mine && whole[|mine|] == q;
    assert Follows(mine, q) by { assert Sound(whole); }
    hide EachSound, OneCreator, Interleaves, Sound;
    forall r ensures (Uses(q, r) ==> Created(All(log), r) && !Gone(All(log), r))
                  && (Creates(q, r) ==> !Created(All(log), r))
                  && (Deletes(q, r) ==> Created(All(log), r)) {
      if Creates(q, r) || Uses(q, r) || Deletes(q, r) {
        assert CreatedAt(pushed, c, r) by {
          PrefixHas(mine, whole, r);
          assert Creates(q, r) ==> Creates(whole[|mine|], r);
        }
        OwnedByChannel(log, pushed, c, r);
        hide Created, Gone;
        if !Creates(q, r) { CreatedOn(log, c, r); }
      }
    }
  }

  lemma {:induction false} InterleavingIsSound(log: seq<Issue>, pushed: Pushed)
    requires Interleaves(log, pushed) && EachSound(pushed) && OneCreator(pushed)
    ensures Sound(All(log))
  {
    if log != [] {
      var n := |log| - 1;
      assert log == log[..n] + [log[n]];
      forall c ensures On(log[..n], c) <= PushedOn(pushed, c) {
        assert On(log[..n], c) <= On(log, c);
      }
      InterleavingIsSound(log[..n], pushed);
      FollowsInLog(log[..n], log[n], pushed);
      SoundMore(All(log[..n]), log[n].request);
      assert All(log) == All(log[..n]) + [log[n].request];
    }
  }

  /** No interleaving of channel prefixes, and no timing of ForEach, makes a handler fail. */
  ghost predicate Safe(pushed: Pushed) {
    forall log | Interleaves(log, pushed) :: AlwaysFound(All(log))
  }

  function Tagged(c: nat, qs: seq<Request>): (log: seq<Issue>)
    ensures |log| == |qs| && forall i | 0 <= i < |qs| :: log[i] == Issue(c, qs[i])
  {
    seq(|qs|, i requires 0 <= i < |qs| => Issue(c, qs[i]))
  }

  lemma {:induction false} OnTagged(c: nat, qs: seq<Request>, d: nat)
    ensures On(Tagged(c, qs), d) == if c == d then qs else []
  {
    if qs != [] {
      var n := |qs| - 1;
      OnTagged(c, qs[..n], d);
      var log, front := Tagged(c, qs), Tagged(c, qs[..n]);
      assert log[..n] == front && log[n] == Issue(c, qs[n]) && qs == qs[..n] + [qs[n]];
      hide Tagged;
      assert On(log, d) == On(front, d) + if c == d then [qs[n]] else [];
    }
  }

  /**
    The exact condition on the server: handlers are safe for every delivery if and only if every single channel
    creates a resource before using it and does not use it after deleting it. Order across channels cannot help.
   */
  lemma SafeIffEachChannelSound(pushed: Pushed)
    requires OneCreator(pushed) && forall c :: Orderly(PushedOn(pushed, c))
    ensures Safe(pushed) <==> EachSound(pushed)
  {
    if EachSound(pushed) {
      forall log | Interleaves(log, pushed) ensures AlwaysFound(All(log)) {
        InterleavingIsSound(log, pushed);
        forall events | Requests(events) == All(log) ensures Ran(events).Some? {
          LookupsNeverFail(events);
        }
      }
    }
    if Safe(pushed) {
      forall c ensures Sound(PushedOn(pushed, c)) {
        var log := Tagged(c, PushedOn(pushed, c));
        forall d ensures On(log, d) <= PushedOn(pushed, d) { OnTagged(c, PushedOn(pushed, c), d); }
        assert All(log) == PushedOn(pushed, c);
        AlwaysFoundIffSound(PushedOn(pushed, c));
      }
    }
  }

  /** A parent on another channel: the child's channel may be delivered alone, and its handler finds no parent. */
  lemma ParentOnOtherChannelFails()
    ensures var parent, child := Ref(VirtualObject, 1), Ref(RenderingUnit, 2);
            !Safe(map[1 := [New(parent, None)], 2 := [New(child, Some(parent))]])
  {
    var parent, child := Ref(VirtualObject, 1), Ref(RenderingUnit, 2);
    var q := New(child, Some(parent));
    var pushed: Pushed := map[1 := [New(parent, None)], 2 := [q]];
    var log := [Issue(2, q)];
    assert log == Tagged(2, [q]);
    forall c ensures On(log, c) <= PushedOn(pushed, c) { OnTagged(2, [q], c); }
    var events := [Handle(q, 0)];
    assert events[..0] == [] && Requests(events) == [q];
    assert All(log) == [q];
    QuietGet(EmptyPool().objects, 1);
    assert Ran(events).None?;
  }

  // ---- what the session hands to the handlers ----

  /** The handlers run by a session, in order, each with its channel. */
  function Log(arrivals: seq<Q.Arrival<Request>>): seq<Issue> { Issued(Q.Log(arrivals)) }

  function Issued(ran: seq<Q.Arrival<Request>>): (log: seq<Issue>)
    ensures |log| == |ran| && forall i | 0 <= i < |ran| :: log[i] == Issue(ran[i].channel, ran[i].item.command)
  {
    seq(|ran|, i requires 0 <= i < |ran| => Issue(ran[i].channel, ran[i].item.command))
  }

  lemma {:induction false} OnIssued(ran: seq<Q.Arrival<Request>>, c: nat)
    ensures On(Issued(ran), c) == P.Commands(Q.On(ran, c))
  {
    if ran != [] {
      var n := |ran| - 1;
      OnIssued(ran[..n], c);
      assert Issued(ran)[..n] == Issued(ran[..n]);
    }
  }

  /** With any number of channels, a channel of distinct serials runs a prefix of what its own serial queue would run,
      and all of that exactly when the session did not forget it before a serial that arrived later. */
  lemma LogOfAnyChannel(arrivals: seq<Q.Arrival<Request>>, c: nat)
    requires S.Distinct(Q.On(arrivals, c))
    ensures On(Log(arrivals), c) <= P.Commands(Q.Lone(arrivals, c).ran)
    ensures On(Log(arrivals), c) == P.Commands(Q.Lone(arrivals, c).ran) <==> forall k :: !Q.Misses(arrivals, c, k)
  {
    OnIssued(Q.Log(arrivals), c);
    Q.ReplayInSession(arrivals, c);
    var mine, lone := Q.RanOn(arrivals, c), Q.Lone(arrivals, c).ran;
    assert P.Commands(mine) == P.Commands(lone)[..|mine|];
    assert |mine| == |lone| ==> mine == lone;
  }

  /** With at most 100 channels, the log of a channel is what its own serial queue runs. */
  lemma LogOfChannel(arrivals: seq<Q.Arrival<Request>>, c: nat)
    requires |Q.Channels(arrivals)| <= Q.MAX_QUEUES
    ensures On(Log(arrivals), c) == P.Commands(S.Received(Q.On(arrivals, c)).ran)
  {
    OnIssued(Q.Log(arrivals), c);
    Q.FewChannelsNeverForgotten(arrivals, c);
    Q.ServedUnlessForgotten(arrivals, c);
  }

  /** On each channel the session receives what that channel's network delivered, from a run of its pipeline
      whose jobs the application pushed. */
  ghost predicate Carries(pushed: Pushed, pipes: map<nat, seq<P.Action<Request>>>, arrivals: seq<Q.Arrival<Request>>) {
    forall c ::
      var channel := P.Run(if c in pipes then pipes[c] else []);
      channel.wire.arrived == Q.On(arrivals, c) && channel.server.queue.pushed <= PushedOn(pushed, c)
  }

  /** Replay on all channels at once: on each, the handlers have run a prefix of what the application issued. */
  lemma ReplayInterleaves(pushed: Pushed, pipes: map<nat, seq<P.Action<Request>>>, arrivals: seq<Q.Arrival<Request>>)
    requires Carries(pushed, pipes, arrivals)
    ensures Interleaves(Log(arrivals), pushed)
  {
    forall c ensures On(Log(arrivals), c) <= PushedOn(pushed, c) {
      var actions := if c in pipes then pipes[c] else [];
      P.Always(actions);
      P.ReplayIsPrefix(actions);
      assert P.Run(actions).wire.client == Q.Lone(arrivals, c);
      LogOfAnyChannel(arrivals, c);
    }
  }

  /** The exact condition on the application: its handlers are safe under every delivery and every timing if and only
      if it only ever names usable parents of the same channel. */
  lemma ApplicationSafeIff(acts: seq<Act>)
    ensures Safe(Application(acts).pushed) <==> Disciplined(acts)
  {
    ApplicationIsOrderly(acts);
    ApplicationSoundIff(acts);
    SafeIffEachChannelSound(Application(acts).pushed);
  }

  /**
    The whole path: however a disciplined application uses its wrappers, however workers, networks, shutdowns and the
    sweeps of the session interleave on any number of channels, and wherever the sections of ForEach fall, every
    handler the client runs finds the resource it uses.
   */
  lemma HandlersFindTheirResources(acts: seq<Act>, pipes: map<nat, seq<P.Action<Request>>>,
                                   arrivals: seq<Q.Arrival<Request>>, events: seq<Event>)
    requires Disciplined(acts)
    requires Carries(Application(acts).pushed, pipes, arrivals)
    requires Requests(events) == All(Log(arrivals))
    ensures Ran(events).Some?
  {
    ApplicationIsOrderly(acts);
    ApplicationSoundIff(acts);
    ReplayInterleaves(Application(acts).pushed, pipes, arrivals);
    InterleavingIsSound(Log(arrivals), Application(acts).pushed);
    LookupsNeverFail(events);
  }
}
