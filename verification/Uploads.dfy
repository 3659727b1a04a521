/** Which uploads the render thread is handed, from the calls made on buffers alone. */
module Uploads {
  import opened Options
  import opened BufferOwnership

  datatype Sent = Transfer(buffer: nat, bytes: seq<Byte>, target: int, usage: int) | Deletion(buffer: nat)

  /** The buffer has been made and not destroyed. */
  predicate Exists(actions: seq<Action>, id: nat) {
    actions != [] &&
    var last := actions[|actions| - 1];
    last == New(id) || (last != Destroy(id) && Exists(actions[..|actions| - 1], id))
  }

  /** What was given last to the buffer, if anything was since its last commit. */
  function Given(actions: seq<Action>, id: nat): Option<Sent> {
    if actions == [] then None
    else
      var front, last := actions[..|actions| - 1], actions[|actions| - 1];
      if last.Data? && last.id == id && Exists(front, id) then Some(Transfer(id, last.bytes, last.target, last.usage))
      else if last == Commit(id) || last == Destroy(id) then None
      else Given(front, id)
  }

  /** What is sent to the render thread, in order: at a commit what was given last, at the end a deletion. */
  function SentBy(actions: seq<Action>): seq<Sent> {
    if actions == [] then []
    else
      var front, last := actions[..|actions| - 1], actions[|actions| - 1];
      SentBy(front) +
      match last
      case Commit(id) => if Given(front, id).Some? then [Given(front, id).value] else []
      case Destroy(id) => if Exists(front, id) then [Deletion(id)] else []
      case _ => []
  }

  /** The contents of the GL buffers once these have been executed. */
  function Uploaded(sent: seq<Sent>): map<nat, seq<Byte>> {
    if sent == [] then map[]
    else
      var before, last := Uploaded(sent[..|sent| - 1]), sent[|sent| - 1];
      match last
      case Transfer(id, bytes, _, _) => before[id := bytes]
      case Deletion(id) => before - {id}
  }

  function Told(c: BufferCommand, bytes: seq<Byte>): Sent {
    match c
    case Upload(id, _, _, target, usage) => Transfer(id, bytes, target, usage)
    case Delete(id) => Deletion(id)
  }

  ghost predicate PendingAsGiven(s: State, actions: seq<Action>) {
    && (forall id :: id in s.pendings <==> Exists(actions, id))
    && (forall id | id in s.pendings :: id in s.latest)
    && (forall id :: Given(actions, id) ==
          if id in s.pendings && s.pendings[id].damaged
          then Some(Transfer(id, s.latest[id], s.pendings[id].target, s.pendings[id].usage)) else None)
  }

  ghost predicate QueueAsSent(s: State, actions: seq<Action>) {
    && |s.promised| == |s.queue| && s.taken + |s.queue| == |SentBy(actions)|
    && (forall i | 0 <= i < |s.queue| :: Told(s.queue[i], s.promised[i]) == SentBy(actions)[s.taken + i])
  }

  lemma More(actions: seq<Action>, a: Action)
    ensures forall id :: Exists(actions + [a], id) <==> a == New(id) || (a != Destroy(id) && Exists(actions, id))
    ensures forall id :: Given(actions + [a], id)
                      == if a.Data? && a.id == id && Exists(actions, id)
                         then Some(Transfer(id, a.bytes, a.target, a.usage))
                         else if a == Commit(id) || a == Destroy(id) then None else Given(actions, id)
    ensures SentBy(actions + [a])
         == if a.Commit? && Given(actions, a.id).Some? then SentBy(actions) + [Given(actions, a.id).value]
            else if a.Destroy? && Exists(actions, a.id) then SentBy(actions) + [Deletion(a.id)]
            else SentBy(actions)
  {
    assert (actions + [a])[..|actions|] == actions;
    assert SentBy(actions) + [] == SentBy(actions);
  }

  lemma PendingStep(s: State, a: Action, actions: seq<Action>)
    requires PendingAsGiven(s, actions)
    ensures PendingAsGiven(Step(s, a), actions + [a])
  {
    hide Exists, Given, SentBy, HeapAfterData, Freed, Content, Assigned;
    More(actions, a);
  }

  lemma QueueStep(s: State, a: Action, actions: seq<Action>)
    requires PendingAsGiven(s, actions) && QueueAsSent(s, actions)
    ensures QueueAsSent(Step(s, a), actions + [a])
  {
    hide Exists, Given, SentBy, HeapAfterData, Freed, Content, Assigned;
    More(actions, a);
  }

  lemma {:induction false} AlwaysAsSent(actions: seq<Action>)
    ensures PendingAsGiven(Run(actions), actions) && QueueAsSent(Run(actions), actions)
  {
    if actions != [] {
      var front, last := actions[..|actions| - 1], actions[|actions| - 1];
      AlwaysAsSent(front);
      hide Step, PendingAsGiven, QueueAsSent;
      PendingStep(Run(front), last, front);
      QueueStep(Run(front), last, front);
      assert front + [last] == actions;
    }
  }

  /** On every run the commands waiting are what was sent and not yet taken: each upload is for the buffer that was
      committed, with the bytes, target and usage given to it last, still behind its pointer. */
  lemma QueuedAsSent(actions: seq<Action>, i: nat)
    requires i < |Run(actions).queue|
    ensures var s := Run(actions);
            && s.taken + |s.queue| == |SentBy(actions)|
            && Told(s.queue[i], if s.queue[i].Upload? then Content(s.heap, s.queue[i].data, s.queue[i].size) else [])
               == SentBy(actions)[s.taken + i]
  {
    AlwaysAsSent(actions);
    Always(actions);
    hide Content;
  }

  lemma {:induction false} SentGrows(actions: seq<Action>)
    requires actions != []
    ensures SentBy(actions[..|actions| - 1]) <= SentBy(actions)
  {
  }

  lemma UploadedMore(sent: seq<Sent>, n: nat)
    requires n < |sent|
    ensures Uploaded(sent[..n + 1]) == match sent[n]
                                       case Transfer(id, bytes, _, _) => Uploaded(sent[..n])[id := bytes]
                                       case Deletion(id) => Uploaded(sent[..n]) - {id}
  {
    assert sent[..n + 1][..n] == sent[..n];
  }

  ghost predicate GlAsSent(s: State, sent: seq<Sent>) { s.taken <= |sent| && s.gpu == Uploaded(sent[..s.taken]) }

  lemma GlFront(s: State, actions: seq<Action>)
    requires QueueAsSent(s, actions) && Inv(s) && s.queue != [] && GlAsSent(s, SentBy(actions))
    ensures GlAsSent(FrontStep(s, false), SentBy(actions))
  {
    hide SentBy, Uploaded, Content, Freed, BookOf, FreedOnce, Latest;
    UploadedMore(SentBy(actions), s.taken);
    FrontIsTold(s, actions);
  }

  lemma GlStep(s: State, a: Action, actions: seq<Action>)
    requires QueueAsSent(s, actions) && Inv(s) && GlAsSent(s, SentBy(actions)) && !a.Cancel?
    ensures GlAsSent(Step(s, a), SentBy(actions))
  {
    if a.Execute? {
      if s.queue != [] { GlFront(s, actions); }
    } else {
      hide SentBy, Uploaded, HeapAfterData, PendingAfterData, Freed, Assigned, Inv;
    }
  }

  lemma LongerSent(s: State, sent: seq<Sent>, more: seq<Sent>)
    requires GlAsSent(s, sent) && sent <= more
    ensures GlAsSent(s, more)
  {
    assert more[..s.taken] == sent[..s.taken];
  }

  /** Unless the queue is destroyed, each GL buffer holds what was sent to it last, among what has been taken. */
  lemma {:induction false} GlHoldsWhatWasSent(actions: seq<Action>)
    requires Cancel !in actions
    ensures var s := Run(actions);
            s.taken <= |SentBy(actions)| && s.gpu == Uploaded(SentBy(actions)[..s.taken])
  {
    hide SentBy, Uploaded, Inv, PendingAsGiven, QueueAsSent, Step;
    if actions == [] {
      NothingSent();
    } else {
      var front, last := actions[..|actions| - 1], actions[|actions| - 1];
      GlHoldsWhatWasSent(front);
      AlwaysAsSent(front);
      Always(front);
      SentGrows(actions);
      GlStep(Run(front), last, front);
      LongerSent(Run(actions), SentBy(front), SentBy(actions));
    }
  }

  lemma NothingSent()
    ensures GlAsSent(Run([]), SentBy([]))
  {
  }

  lemma FrontIsTold(s: State, actions: seq<Action>)
    requires QueueAsSent(s, actions) && Inv(s) && s.queue != []
    ensures Told(s.queue[0], if s.queue[0].Upload? then Content(s.heap, s.queue[0].data, s.queue[0].size) else [])
         == SentBy(actions)[s.taken]
    ensures s.promised != []
  {
    hide Content, SentBy;
  }
}
