/** The per-channel command queues of a client session. */
module ClientSession {
  import opened SerialQueue

  type Queues<C> = map<nat, State<C>>

  const MAX_QUEUES := 100

  datatype Arrival<C> = Arrival(channel: nat, item: Item<C>)

  /** The state a channel's next command meets: a missing queue is created empty. */
  function QueueOf<C>(queues: Queues<C>, channel: nat): State<C> {
    if channel in queues then queues[channel] else Init()
  }

  function Delivered<C>(queues: Queues<C>, a: Arrival<C>): Queues<C> {
    queues[a.channel := Pushed(QueueOf(queues, a.channel), a.item)]
  }

  /** Above the limit every queue whose list is empty is erased, with its next serial. */
  function Swept<C>(queues: Queues<C>): Queues<C> {
    if |queues| > MAX_QUEUES then map c | c in queues && queues[c].list != [] :: queues[c] else queues
  }

  function PushedCommand<C>(queues: Queues<C>, a: Arrival<C>): Queues<C> {
    Swept(Delivered(queues, a))
  }

  function Received<C>(arrivals: seq<Arrival<C>>): Queues<C> {
    if arrivals == [] then map[]
    else PushedCommand(Received(arrivals[..|arrivals| - 1]), arrivals[|arrivals| - 1])
  }

  /** What arrived on one channel, in arrival order. */
  function On<C>(arrivals: seq<Arrival<C>>, channel: nat): seq<Item<C>> {
    if arrivals == [] then []
    else
      var last := arrivals[|arrivals| - 1];
      On(arrivals[..|arrivals| - 1], channel) + if last.channel == channel then [last.item] else []
  }

  function Channels<C>(arrivals: seq<Arrival<C>>): set<nat> {
    set i | 0 <= i < |arrivals| :: arrivals[i].channel
  }

  class CommandQueues<C> {
    var queues: Queues<C>

    constructor ()
      ensures queues == map[]
    {
      queues := map[];
    }

    method PushCommand(serial: nat, channel: nat, command: C)
      modifies this
      ensures queues == PushedCommand(old(queues), Arrival(channel, Item(serial, command)))
    {
      if channel !in queues {
        queues := queues[channel := Init()];
      }
      queues := queues[channel := Pushed(queues[channel], Item(serial, command))];
      ghost var delivered := Delivered(old(queues), Arrival(channel, Item(serial, command)));
      assert queues == delivered;
      if |queues| > MAX_QUEUES {
        var todo := queues.Keys;
        while todo != {}
          invariant todo <= queues.Keys <= delivered.Keys
          invariant forall c | c in queues :: queues[c] == delivered[c]
          invariant forall c | c in delivered && c !in todo :: c in queues <==> delivered[c].list != []
          decreases |todo|
        {
          var c :| c in todo;
          todo := todo - {c};
          if queues[c].list == [] {
            queues := queues - {c};
          }
        }
        assert queues == Swept(delivered);
      }
    }
  }

  /** What channel c should meet after a push, were it alone in the session. */
  function Expected<C>(queues: Queues<C>, a: Arrival<C>, c: nat): State<C> {
    if c == a.channel then Pushed(QueueOf(queues, c), a.item) else QueueOf(queues, c)
  }

  /** The sweep runs and finds channel c drained with some serial already consumed. */
  predicate Forgets<C(==)>(queues: Queues<C>, a: Arrival<C>, c: nat) {
    |Delivered(queues, a)| > MAX_QUEUES && Expected(queues, a, c).list == [] && Expected(queues, a, c) != Init()
  }

  /** One push: a channel is left as if it were alone if and only if the sweep does not forget it. */
  lemma SweepForgetsExactly<C>(queues: Queues<C>, a: Arrival<C>, c: nat)
    ensures QueueOf(PushedCommand(queues, a), c) == Expected(queues, a, c) <==> !Forgets(queues, a, c)
  {
    assert QueueOf(Delivered(queues, a), c) == Expected(queues, a, c);
  }

  /** The k-th arrival makes the session forget channel c. */
  ghost predicate ForgottenAt<C>(arrivals: seq<Arrival<C>>, c: nat, k: nat) {
    k < |arrivals| && Forgets(Received(arrivals[..k]), arrivals[k], c)
  }

  ghost predicate NeverForgotten<C>(arrivals: seq<Arrival<C>>, c: nat) {
    forall k :: !ForgottenAt(arrivals, c, k)
  }

  lemma NeverForgottenStep<C>(arrivals: seq<Arrival<C>>, c: nat)
    requires arrivals != []
    ensures var n := |arrivals| - 1;
            NeverForgotten(arrivals, c)
            <==> NeverForgotten(arrivals[..n], c) && !Forgets(Received(arrivals[..n]), arrivals[n], c)
  {
    var n := |arrivals| - 1;
    hide Forgets, Received;
    assert forall k | 0 <= k < n :: arrivals[..n][..k] == arrivals[..k];
    assert forall k | 0 <= k < n :: ForgottenAt(arrivals[..n], c, k) <==> ForgottenAt(arrivals, c, k);
    assert ForgottenAt(arrivals, c, n) <==> Forgets(Received(arrivals[..n]), arrivals[n], c);
  }

  /** At every moment of the run the channel's queue is the one its own arrivals alone would give. */
  ghost predicate AlwaysIndependent<C>(arrivals: seq<Arrival<C>>, c: nat) {
    QueueOf(Received(arrivals), c) == SerialQueue.Received(On(arrivals, c)) &&
    (arrivals == [] || AlwaysIndependent(arrivals[..|arrivals| - 1], c))
  }

  lemma OnStep<C>(arrivals: seq<Arrival<C>>, c: nat)
    requires arrivals != []
    ensures var n := |arrivals| - 1;
            var before := SerialQueue.Received(On(arrivals[..n], c));
            SerialQueue.Received(On(arrivals, c))
            == if arrivals[n].channel == c then Pushed(before, arrivals[n].item) else before
  {
    var n := |arrivals| - 1;
    var before := On(arrivals[..n], c);
    if arrivals[n].channel == c {
      assert (before + [arrivals[n].item])[..|before|] == before;
    } else {
      assert On(arrivals, c) == before;
    }
  }

  /** A whole run: a channel is independent of all others throughout if and only if no sweep forgets it. */
  lemma {:induction false} IndependentIffNeverForgotten<C>(arrivals: seq<Arrival<C>>, c: nat)
    ensures AlwaysIndependent(arrivals, c) <==> NeverForgotten(arrivals, c)
  {
    if arrivals != [] {
      var n := |arrivals| - 1;
      IndependentIffNeverForgotten(arrivals[..n], c);
      NeverForgottenStep(arrivals, c);
      SweepForgetsExactly(Received(arrivals[..n]), arrivals[n], c);
      OnStep(arrivals, c);
    }
  }

  lemma {:induction false} KeysAreChannels<C>(arrivals: seq<Arrival<C>>)
    ensures Received(arrivals).Keys <= Channels(arrivals)
  {
    if arrivals != [] {
      var n := |arrivals| - 1;
      KeysAreChannels(arrivals[..n]);
      assert Channels(arrivals[..n]) <= Channels(arrivals);
    }
  }

  lemma SubsetSmaller(a: set<nat>, b: set<nat>)
    requires a <= b
    ensures |a| <= |b|
  {
    assert |b| == |a| + |b - a| by { assert b == a + (b - a); }
  }

  lemma {:induction false} FewChannelsNeverForgotten<C>(arrivals: seq<Arrival<C>>, c: nat)
    requires |Channels(arrivals)| <= MAX_QUEUES
    ensures NeverForgotten(arrivals, c)
  {
    if arrivals != [] {
      var n := |arrivals| - 1;
      assert Channels(arrivals[..n]) <= Channels(arrivals);
      SubsetSmaller(Channels(arrivals[..n]), Channels(arrivals));
      FewChannelsNeverForgotten(arrivals[..n], c);
      NeverForgottenStep(arrivals, c);
      KeysAreChannels(arrivals[..n]);
      assert arrivals[n].channel in Channels(arrivals);
      SubsetSmaller(Delivered(Received(arrivals[..n]), arrivals[n]).Keys, Channels(arrivals));
    }
  }

  /**
    With at most 100 channels the session is exactly one independent serial queue per channel:
    no interleaving with other channels changes what a channel runs or when.
   */
  lemma ChannelsIndependent<C>(arrivals: seq<Arrival<C>>, c: nat)
    requires |Channels(arrivals)| <= MAX_QUEUES
    ensures QueueOf(Received(arrivals), c) == SerialQueue.Received(On(arrivals, c))
  {
    FewChannelsNeverForgotten(arrivals, c);
    IndependentIffNeverForgotten(arrivals, c);
  }

  /** The exact guarantee of replay on a channel of such a session. */
  lemma ChannelReplay<C>(arrivals: seq<Arrival<C>>, c: nat)
    requires |Channels(arrivals)| <= MAX_QUEUES
    ensures InOrder(QueueOf(Received(arrivals), c)) <==> Distinct(On(arrivals, c))
  {
    ChannelsIndependent(arrivals, c);
    InOrderIffDistinct(On(arrivals, c));
  }

  // ---- what a session runs, with any number of channels ----

  function Tagged<C>(channel: nat, items: seq<Item<C>>): (log: seq<Arrival<C>>)
    ensures |log| == |items| && forall i | 0 <= i < |items| :: log[i] == Arrival(channel, items[i])
  {
    seq(|items|, i requires 0 <= i < |items| => Arrival(channel, items[i]))
  }

  /** Everything the session has run, in order, each with its channel. Sweeps do not touch it. */
  function Log<C>(arrivals: seq<Arrival<C>>): seq<Arrival<C>> {
    if arrivals == [] then []
    else
      var n := |arrivals| - 1;
      var a := arrivals[n];
      Log(arrivals[..n]) + Tagged(a.channel, NewlyRun(QueueOf(Received(arrivals[..n]), a.channel), a.item))
  }

  /** What channel c has run. */
  function RanOn<C>(arrivals: seq<Arrival<C>>, c: nat): seq<Item<C>> { On(Log(arrivals), c) }

  /** The queue that would serve channel c, were it alone. */
  function Lone<C>(arrivals: seq<Arrival<C>>, c: nat): State<C> { SerialQueue.Received(On(arrivals, c)) }

  lemma {:induction false} OnConcat<C>(a: seq<Arrival<C>>, b: seq<Arrival<C>>, c: nat)
    ensures On(a + b, c) == On(a, c) + On(b, c)
  {
    if b == [] {
      assert a + b == a;
    } else {
      OnConcat(a, b[..|b| - 1], c);
      assert (a + b)[..|a + b| - 1] == a + b[..|b| - 1];
    }
  }

  lemma {:induction false} OnTagged<C>(channel: nat, items: seq<Item<C>>, c: nat)
    ensures On(Tagged(channel, items), c) == if channel == c then items else []
  {
    if items != [] {
      var n := |items| - 1;
      OnTagged(channel, items[..n], c);
      var log, front := Tagged(channel, items), Tagged(channel, items[..n]);
      assert log[..n] == front && log[n] == Arrival(channel, items[n]) && items == items[..n] + [items[n]];
      hide Tagged;
      assert On(log, c) == On(front, c) + if channel == c then [items[n]] else [];
    }
  }

  lemma RanOnStep<C>(arrivals: seq<Arrival<C>>, c: nat)
    requires arrivals != []
    ensures var n := |arrivals| - 1;
            var a := arrivals[n];
            RanOn(arrivals, c) == RanOn(arrivals[..n], c)
              + if a.channel == c then NewlyRun(QueueOf(Received(arrivals[..n]), c), a.item) else []
  {
    var n := |arrivals| - 1;
    var a := arrivals[n];
    var run := NewlyRun(QueueOf(Received(arrivals[..n]), a.channel), a.item);
    hide NewlyRun, Received;
    OnTagged(a.channel, run, c);
    OnConcat(Log(arrivals[..n]), Tagged(a.channel, run), c);
  }

  /** Channel c is served as if it were alone. */
  ghost predicate Served<C>(arrivals: seq<Arrival<C>>, c: nat) {
    QueueOf(Received(arrivals), c) == Lone(arrivals, c) && RanOn(arrivals, c) == Lone(arrivals, c).ran
  }

  /** The queue has run nothing and holds positive serials only. */
  predicate WaitsForZero<C(==)>(q: State<C>) {
    q.next == 0 && q.ran == [] && forall i | 0 <= i < |q.list| :: q.list[i].serial > 0
  }

  /** Channel c was forgotten when f serials had run: its new queue waits for serial 0, which is gone. */
  ghost predicate Stalled<C>(arrivals: seq<Arrival<C>>, c: nat, f: nat) {
    var q := QueueOf(Received(arrivals), c);
    && WaitsForZero(q)
    && |RanOn(arrivals, c)| == f > 0 && RanOn(arrivals, c) <= Lone(arrivals, c).ran
  }

  lemma DistinctPrefix<C>(arrivals: seq<Arrival<C>>, c: nat)
    requires arrivals != [] && Distinct(On(arrivals, c))
    ensures var n := |arrivals| - 1;
            && Distinct(On(arrivals[..n], c))
            && (arrivals[n].channel == c ==>
                  forall i | 0 <= i < |On(arrivals[..n], c)| ::
                      On(arrivals[..n], c)[i].serial != arrivals[n].item.serial)
  {
    var n := |arrivals| - 1;
    var before, all := On(arrivals[..n], c), On(arrivals, c);
    assert forall i | 0 <= i < |before| :: all[i] == before[i];
    if arrivals[n].channel == c {
      assert all[|before|] == arrivals[n].item;
    }
  }

  /** What the sweep makes of a queue. */
  lemma SweepLeaves<C>(queues: Queues<C>, a: Arrival<C>, c: nat)
    ensures QueueOf(PushedCommand(queues, a), c)
         == if Forgets(queues, a, c) then Init() else Expected(queues, a, c)
  {
    assert QueueOf(Delivered(queues, a), c) == Expected(queues, a, c);
  }

  lemma ServedPush<C>(arrivals: seq<Arrival<C>>, c: nat)
    requires arrivals != [] && Served(arrivals[..|arrivals| - 1], c)
    ensures Expected(Received(arrivals[..|arrivals| - 1]), arrivals[|arrivals| - 1], c) == Lone(arrivals, c)
    ensures RanOn(arrivals, c) == Lone(arrivals, c).ran
  {
    OnStep(arrivals, c);
    RanOnStep(arrivals, c);
    hide RanOn, Pushed, SerialQueue.Received, Received, On;
  }

  lemma ServedOn<C>(arrivals: seq<Arrival<C>>, c: nat)
    requires arrivals != [] && Served(arrivals[..|arrivals| - 1], c)
    requires !Forgets(Received(arrivals[..|arrivals| - 1]), arrivals[|arrivals| - 1], c)
    ensures Served(arrivals, c)
  {
    ServedPush(arrivals, c);
    SweepLeaves(Received(arrivals[..|arrivals| - 1]), arrivals[|arrivals| - 1], c);
    hide On, RanOn, Lone, PushedCommand, Expected, Delivered, Forgets;
  }

  /** Served until now: served on, or forgotten now. */
  lemma ServedStep<C>(arrivals: seq<Arrival<C>>, c: nat)
    requires arrivals != [] && Distinct(On(arrivals, c)) && Served(arrivals[..|arrivals| - 1], c)
    ensures var n := |arrivals| - 1;
            if Forgets(Received(arrivals[..n]), arrivals[n], c) then Stalled(arrivals, c, Lone(arrivals, c).next)
            else Served(arrivals, c)
  {
    var n := |arrivals| - 1;
    var queues, a := Received(arrivals[..n]), arrivals[n];
    ServedPush(arrivals, c);
    DistinctGivesOrder(On(arrivals, c));
    SweepLeaves(queues, a, c);
    assert Received(arrivals) == PushedCommand(queues, a);
    hide On, RanOn, Lone, Received, PushedCommand, Expected, Delivered;
  }

  /** A queue that waits for serial 0 runs nothing of a positive serial. */
  lemma PositiveWaits<C>(q: State<C>, item: Item<C>)
    requires WaitsForZero(q) && item.serial > 0
    ensures NewlyRun(q, item) == [] && WaitsForZero(Pushed(q, item)) && Pushed(q, item).list != []
  {
    InsertedMembers(q.list, item);
  }

  lemma ZeroStaysAwaited<C>(queues: Queues<C>, a: Arrival<C>, c: nat)
    requires WaitsForZero(QueueOf(queues, c)) && (a.channel == c ==> a.item.serial > 0)
    ensures WaitsForZero(QueueOf(PushedCommand(queues, a), c)) && !Forgets(queues, a, c)
    ensures a.channel == c ==> NewlyRun(QueueOf(queues, c), a.item) == []
  {
    SweepLeaves(queues, a, c);
    if a.channel == c {
      PositiveWaits(QueueOf(queues, c), a.item);
    }
    hide PushedCommand, Pushed, NewlyRun;
  }

  /** Serial 0 has come and gone, so only positive ones are left. */
  lemma ZeroIsGone<C>(arrivals: seq<Arrival<C>>, c: nat, f: nat)
    requires arrivals != [] && Distinct(On(arrivals, c)) && Stalled(arrivals[..|arrivals| - 1], c, f)
    ensures arrivals[|arrivals| - 1].channel == c ==> arrivals[|arrivals| - 1].item.serial > 0
    ensures Lone(arrivals[..|arrivals| - 1], c).ran <= Lone(arrivals, c).ran
  {
    var n := |arrivals| - 1;
    OnStep(arrivals, c);
    DistinctPrefix(arrivals, c);
    DistinctGivesOrder(On(arrivals[..n], c));
    PushConserves(Lone(arrivals[..n], c), arrivals[n].item);
    NextIsLeastMissing(On(arrivals[..n], c), 0);
    hide RanOn, Received, SerialQueue.Received, On, Pushed;
  }

  /** Nothing runs any more, and there is nothing left to forget. */
  lemma StalledStep<C>(arrivals: seq<Arrival<C>>, c: nat, f: nat)
    requires arrivals != [] && Distinct(On(arrivals, c)) && Stalled(arrivals[..|arrivals| - 1], c, f)
    ensures Stalled(arrivals, c, f) && RanOn(arrivals, c) == RanOn(arrivals[..|arrivals| - 1], c)
    ensures !Forgets(Received(arrivals[..|arrivals| - 1]), arrivals[|arrivals| - 1], c)
  {
    var n := |arrivals| - 1;
    var queues, a := Received(arrivals[..n]), arrivals[n];
    ZeroIsGone(arrivals, c, f);
    RanOnStep(arrivals, c);
    assert Received(arrivals) == PushedCommand(queues, a);
    hide On, RanOn, Lone, Received, PushedCommand, Forgets, QueueOf, NewlyRun, WaitsForZero;
    ZeroStaysAwaited(queues, a, c);
  }

  lemma InsertedMembers<C>(list: seq<Item<C>>, item: Item<C>)
    ensures Inserted(list, item) != []
    ensures forall i | 0 <= i < |Inserted(list, item)| ::
              Inserted(list, item)[i] == item || Inserted(list, item)[i] in list
  {
    InsertConserves(list, item);
    forall x | x in Inserted(list, item) ensures x == item || x in list {
      assert x in multiset(Inserted(list, item));
    }
  }

  lemma {:induction false} ServedUnlessForgotten<C>(arrivals: seq<Arrival<C>>, c: nat)
    requires NeverForgotten(arrivals, c)
    ensures Served(arrivals, c)
  {
    if arrivals != [] {
      NeverForgottenStep(arrivals, c);
      ServedUnlessForgotten(arrivals[..|arrivals| - 1], c);
      ServedOn(arrivals, c);
    }
  }

  /** Forgetting happens once, to a channel that was served until then. */
  lemma ForgottenWasServed<C>(arrivals: seq<Arrival<C>>, c: nat)
    requires arrivals != [] && Distinct(On(arrivals, c))
    requires Forgets(Received(arrivals[..|arrivals| - 1]), arrivals[|arrivals| - 1], c)
    ensures Served(arrivals[..|arrivals| - 1], c)
    decreases |arrivals|, 0
  {
    var front := arrivals[..|arrivals| - 1];
    DistinctPrefix(arrivals, c);
    hide Forgets, Stalled, On, RanOn, Received;
    forall j ensures !ForgottenAt(front, c, j) {
      if ForgottenAt(front, c, j) {
        StalledSinceForgotten(front, c, j);
        StalledStep(arrivals, c, Lone(front[..j + 1], c).next);
      }
    }
    ServedUnlessForgotten(front, c);
  }

  /** After it the channel is stalled. */
  lemma {:induction false} StalledSinceForgotten<C>(arrivals: seq<Arrival<C>>, c: nat, k: nat)
    requires Distinct(On(arrivals, c)) && ForgottenAt(arrivals, c, k)
    ensures Stalled(arrivals, c, Lone(arrivals[..k + 1], c).next)
    ensures RanOn(arrivals, c) == RanOn(arrivals[..k + 1], c) == Lone(arrivals[..k + 1], c).ran
    decreases |arrivals|, 1
  {
    var n := |arrivals| - 1;
    DistinctPrefix(arrivals, c);
    if k == n {
      assert arrivals[..k + 1] == arrivals;
      ForgottenWasServed(arrivals, c);
      ServedStep(arrivals, c);
      ServedPush(arrivals, c);
    } else {
      assert arrivals[..n][..k] == arrivals[..k] && arrivals[..n][..k + 1] == arrivals[..k + 1];
      hide Forgets, Stalled, On, RanOn, Received;
      StalledSinceForgotten(arrivals[..n], c, k);
      StalledStep(arrivals, c, Lone(arrivals[..k + 1], c).next);
    }
  }

  /** After the arrival that makes the session forget c, the serial c would run next arrives. */
  ghost predicate Misses<C>(arrivals: seq<Arrival<C>>, c: nat, k: nat) {
    ForgottenAt(arrivals, c, k) && Awaited(arrivals, c, k, Lone(arrivals[..k + 1], c).next)
  }

  ghost predicate Awaited<C>(arrivals: seq<Arrival<C>>, c: nat, k: nat, serial: nat) {
    exists j :: k < j < |arrivals| && arrivals[j].channel == c && arrivals[j].item.serial == serial
  }

  lemma {:induction false} OnFinds<C>(arrivals: seq<Arrival<C>>, c: nat, serial: nat)
    ensures (exists i :: 0 <= i < |On(arrivals, c)| && On(arrivals, c)[i].serial == serial)
       <==> exists j :: 0 <= j < |arrivals| && arrivals[j].channel == c && arrivals[j].item.serial == serial
  {
    if arrivals != [] {
      var n := |arrivals| - 1;
      var before, all := On(arrivals[..n], c), On(arrivals, c);
      OnFinds(arrivals[..n], c, serial);
      assert forall j | 0 <= j < n :: arrivals[..n][j] == arrivals[j];
      assert forall i | 0 <= i < |before| :: all[i] == before[i];
      assert arrivals[n].channel == c ==> all[|before|] == arrivals[n].item;
      hide On;
      if i :| 0 <= i < |all| && all[i].serial == serial {
        assert i < |before| ==> before[i].serial == serial;
      }
    }
  }

  lemma {:induction false} DistinctTake<C>(arrivals: seq<Arrival<C>>, c: nat, k: nat)
    requires k <= |arrivals| && Distinct(On(arrivals, c))
    ensures Distinct(On(arrivals[..k], c))
  {
    if k == |arrivals| {
      assert arrivals[..k] == arrivals;
    } else {
      var n := |arrivals| - 1;
      DistinctPrefix(arrivals, c);
      DistinctTake(arrivals[..n], c, k);
      assert arrivals[..n][..k] == arrivals[..k];
    }
  }

  /** A stalled channel has run all that the lone queue would have if and only if the next serial never arrived. */
  lemma StalledCompleteIff<C>(arrivals: seq<Arrival<C>>, c: nat, k: nat)
    requires Distinct(On(arrivals, c)) && ForgottenAt(arrivals, c, k)
    ensures RanOn(arrivals, c) == Lone(arrivals, c).ran <==> !Misses(arrivals, c, k)
  {
    var f, lone := Lone(arrivals[..k + 1], c).next, Lone(arrivals, c);
    StalledSinceForgotten(arrivals, c, k);
    DistinctTake(arrivals, c, k + 1);
    DistinctGivesOrder(On(arrivals, c));
    NextIsLeastMissing(On(arrivals, c), f);
    NextIsLeastMissing(On(arrivals[..k + 1], c), f);
    OnFinds(arrivals, c, f);
    OnFinds(arrivals[..k + 1], c, f);
    assert forall j | 0 <= j <= k :: arrivals[..k + 1][j] == arrivals[j];
  }

  /**
    Replay in a session with any number of channels. Where serials are distinct, a channel always runs a prefix of what
    it would run alone, in order; it runs all of that if and only if the serial it was waiting for when the session
    forgot it, should that have happened, does not arrive afterwards.
   */
  lemma ReplayInSession<C>(arrivals: seq<Arrival<C>>, c: nat)
    requires Distinct(On(arrivals, c))
    ensures RanOn(arrivals, c) <= Lone(arrivals, c).ran
    ensures forall i | 0 <= i < |RanOn(arrivals, c)| :: RanOn(arrivals, c)[i].serial == i
    ensures RanOn(arrivals, c) == Lone(arrivals, c).ran <==> forall k :: !Misses(arrivals, c, k)
  {
    DistinctGivesOrder(On(arrivals, c));
    if k :| ForgottenAt(arrivals, c, k) {
      StalledSinceForgotten(arrivals, c, k);
    } else {
      ServedUnlessForgotten(arrivals, c);
    }
    forall k | ForgottenAt(arrivals, c, k)
      ensures RanOn(arrivals, c) == Lone(arrivals, c).ran <==> !Misses(arrivals, c, k) {
      StalledCompleteIff(arrivals, c, k);
    }
  }

  /** From the moment it is forgotten a channel runs nothing more, whatever arrives and however often the session
      sweeps. */
  lemma ForgottenChannelStalls<C>(arrivals: seq<Arrival<C>>, c: nat, k: nat)
    requires Distinct(On(arrivals, c)) && ForgottenAt(arrivals, c, k)
    ensures RanOn(arrivals, c) == RanOn(arrivals[..k + 1], c)
  {
    StalledSinceForgotten(arrivals, c, k);
  }

  // ---- a session that forgets ----

  /** One command of serial 0 on each of the first k channels. */
  function Firsts<C>(k: nat, x: C): seq<Arrival<C>> {
    if k == 0 then [] else Firsts(k - 1, x) + [Arrival(k - 1, Item(0, x))]
  }

  /** The queues of the first k channels, each with its one command run. */
  function Drained<C>(k: nat, x: C): Queues<C> {
    if k == 0 then map[] else Drained(k - 1, x)[k - 1 := State(1, [], [Item(0, x)])]
  }

  lemma {:induction false} DrainedKeys<C>(k: nat, x: C)
    ensures |Drained(k, x)| == k && forall c: nat :: c in Drained(k, x) <==> c < k
    ensures forall c | c in Drained(k, x) :: Drained(k, x)[c] == State(1, [], [Item(0, x)])
  {
    if k > 0 {
      DrainedKeys(k - 1, x);
      assert Drained(k, x).Keys == Drained(k - 1, x).Keys + {k - 1};
      assert |Drained(k, x)| == |Drained(k, x).Keys| && |Drained(k - 1, x)| == |Drained(k - 1, x).Keys|;
    }
  }

  lemma FirstDelivered<C>(k: nat, x: C)
    ensures Delivered(Drained(k, x), Arrival(k, Item(0, x))) == Drained(k + 1, x)
  {
    DrainedKeys(k, x);
    FirstRuns(x);
  }

  lemma FirstRuns<C>(x: C)
    ensures Pushed(Init(), Item(0, x)) == State(1, [], [Item(0, x)])
  {
    var ran: seq<Item<C>> := [];
    assert ran + [Item(0, x)] == [Item(0, x)];
  }

  /** Up to 100 channels the session keeps a drained queue for each. */
  lemma {:induction false} FirstsReceived<C>(k: nat, x: C)
    requires k <= MAX_QUEUES
    ensures Received(Firsts(k, x)) == Drained(k, x)
  {
    if k > 0 {
      FirstsLength(k - 1, x);
      assert Firsts(k, x)[..k - 1] == Firsts(k - 1, x);
      FirstsReceived(k - 1, x);
      FirstDelivered(k - 1, x);
      DrainedKeys(k, x);
      hide Drained, Delivered;
    }
  }

  lemma {:induction false} FirstsOnZero<C>(k: nat, x: C)
    ensures On(Firsts(k, x), 0) == if k > 0 then [Item(0, x)] else []
  {
    if k > 0 {
      FirstsLength(k - 1, x);
      assert Firsts(k, x)[..k - 1] == Firsts(k - 1, x);
      FirstsOnZero(k - 1, x);
    }
  }

  lemma {:induction false} FirstsLength<C>(k: nat, x: C)
    ensures |Firsts(k, x)| == k
  {
    if k > 0 {
      FirstsLength(k - 1, x);
    }
  }

  /** The arrival on channel 100 makes the session forget channel 0. */
  lemma ForgetsZero<C>(x: C, later: seq<Arrival<C>>)
    ensures ForgottenAt(Firsts(MAX_QUEUES + 1, x) + later, 0, MAX_QUEUES)
  {
    hide Drained, Delivered, Received, Pushed;
    var k := MAX_QUEUES;
    var arrivals := Firsts(k + 1, x) + later;
    FirstsLength(k, x);
    assert arrivals[..k] == Firsts(k, x) && arrivals[k] == Arrival(k, Item(0, x));
    hide Firsts;
    FirstsReceived(k, x);
    FirstDelivered(k, x);
    DrainedKeys(k, x);
    DrainedKeys(k + 1, x);
  }

  /** 101 channels run one command each, and the session sweeps; the second command of channel 0 then never runs. */
  lemma SecondCommandIsLost<C>(x: C)
    ensures var arrivals := Firsts(MAX_QUEUES + 1, x) + [Arrival(0, Item(1, x))];
            && Distinct(On(arrivals, 0))
            && RanOn(arrivals, 0) == [Item(0, x)] && Lone(arrivals, 0).ran == [Item(0, x), Item(1, x)]
  {
    var firsts, second := Firsts(MAX_QUEUES + 1, x), Arrival(0, Item(1, x));
    var arrivals := firsts + [second];
    FirstsLength(MAX_QUEUES + 1, x);
    FirstsOnZero(MAX_QUEUES + 1, x);
    ForgetsZero(x, [second]);
    hide Firsts, Drained, ForgottenAt, Received, RanOn;
    assert arrivals[..MAX_QUEUES + 1] == firsts;
    assert On(arrivals, 0) == [Item(0, x), Item(1, x)];
    TwoRun(x);
    StalledSinceForgotten(arrivals, 0, MAX_QUEUES);
  }

  lemma TwoRun<C>(x: C)
    ensures SerialQueue.Received([Item(0, x)]) == State(1, [], [Item(0, x)])
    ensures SerialQueue.Received([Item(0, x), Item(1, x)]) == State(2, [], [Item(0, x), Item(1, x)])
  {
    var one := [Item(0, x)];
    FirstRuns(x);
    assert one[..0] == [] && [Item(0, x), Item(1, x)][..1] == one;
    assert one + [Item(1, x)] == [Item(0, x), Item(1, x)];
  }
}
