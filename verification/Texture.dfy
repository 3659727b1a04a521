/** A texture collects image calls until a commit, and generates mipmaps after them. */
module Texture {

  datatype Data<A> = Image2D(args: A) | SubImage2D(args: A)

  datatype GlCall<A> = Upload(data: Data<A>) | GenerateMipmap(target: nat)

  /** Target 0 stands for no mipmap call since the last commit. */
  datatype Pending<A> = Pending(data: seq<Data<A>>, mipmap: nat)

  /** What a commit's command captures. */
  datatype Command<A> = Command(data: seq<Data<A>>, mipmap: nat)

  function Called<A>(p: Pending<A>, call: GlCall<A>): Pending<A> {
    match call
    case Upload(d) => p.(data := p.data + [d])
    case GenerateMipmap(t) => p.(mipmap := t)
  }

  function CommandsOfCommit<A>(p: Pending<A>): seq<Command<A>> {
    if p.data == [] && p.mipmap == 0 then [] else [Command(p.data, p.mipmap)]
  }

  function Uploads<A>(data: seq<Data<A>>): (calls: seq<GlCall<A>>)
    ensures |calls| == |data| && forall i | 0 <= i < |data| :: calls[i] == Upload(data[i])
  {
    seq(|data|, i requires 0 <= i < |data| => Upload(data[i]))
  }

  /** The GL calls a command makes. */
  function Effects<A>(c: Command<A>): seq<GlCall<A>> {
    Uploads(c.data) + if c.mipmap != 0 then [GenerateMipmap(c.mipmap)] else []
  }

  class GlTexture<A> {
    var dataCommands: seq<Data<A>>
    var generateMipmapTarget: nat
    var queue: seq<Command<A>>
    var textureId: nat
    var log: seq<GlCall<A>>

    ghost function Value(): State<A>
      reads this
    {
      State(Pending(dataCommands, generateMipmapTarget), queue, log)
    }

    constructor ()
      ensures Value() == Start() && textureId == 0
    {
      dataCommands, generateMipmapTarget, queue, textureId, log := [], 0, [], 0, [];
    }

    method GlTexImage2D(args: A)
      modifies this
      ensures Value() == Step(old(Value()), Issue(Upload(Image2D(args)))) && textureId == old(textureId)
    {
      dataCommands := dataCommands + [Image2D(args)];
    }

    method GlTexSubImage2D(args: A)
      modifies this
      ensures Value() == Step(old(Value()), Issue(Upload(SubImage2D(args)))) && textureId == old(textureId)
    {
      dataCommands := dataCommands + [SubImage2D(args)];
    }

    method GlGenerateMipmap(target: nat)
      modifies this
      ensures Value() == Step(old(Value()), Issue(GenerateMipmap(target))) && textureId == old(textureId)
    {
      generateMipmapTarget := target;
    }

    method Commit()
      modifies this
      ensures Value() == Step(old(Value()), Action.Commit) && textureId == old(textureId)
    {
      if dataCommands == [] && generateMipmapTarget == 0 {
        return;
      }
      queue := queue + [Command(dataCommands, generateMipmapTarget)];
      dataCommands := [];
      generateMipmapTarget := 0;
    }

    /** The render thread runs the first queued command; `name` is what glGenTextures hands out. */
    method ExecuteFirst(name: nat)
      requires queue != [] && name != 0
      modifies this
      ensures Value() == Step(old(Value()), Execute)
      ensures textureId == if old(textureId) == 0 then name else old(textureId)
    {
      var c := queue[0];
      queue := queue[1..];
      if textureId == 0 {
        textureId := name;
      }
      var i := 0;
      while i < |c.data|
        invariant 0 <= i <= |c.data|
        invariant log == old(log) + Uploads(c.data)[..i]
        invariant queue == old(queue)[1..] && textureId == if old(textureId) == 0 then name else old(textureId)
        invariant dataCommands == old(dataCommands) && generateMipmapTarget == old(generateMipmapTarget)
      {
        log := log + [Upload(c.data[i])];
        i := i + 1;
      }
      if c.mipmap != 0 {
        log := log + [GenerateMipmap(c.mipmap)];
      }
    }
  }

  // ---- whole runs ----

  datatype State<A> = State(pending: Pending<A>, queue: seq<Command<A>>, log: seq<GlCall<A>>)

  datatype Action<A> = Issue(call: GlCall<A>) | Commit | Execute

  function Start<A>(): State<A> { State(Pending([], 0), [], []) }

  function Step<A>(s: State<A>, a: Action<A>): State<A> {
    match a
    case Issue(call) => s.(pending := Called(s.pending, call))
    case Commit => s.(pending := Pending([], 0), queue := s.queue + CommandsOfCommit(s.pending))
    case Execute => if s.queue == [] then s else s.(queue := s.queue[1..], log := s.log + Effects(s.queue[0]))
  }

  function Run<A>(actions: seq<Action<A>>): State<A> {
    if actions == [] then Start() else Step(Run(actions[..|actions| - 1]), actions[|actions| - 1])
  }

  /** The calls since the last commit. */
  function Open<A>(actions: seq<Action<A>>): seq<GlCall<A>> {
    if actions == [] then []
    else
      var before := Open(actions[..|actions| - 1]);
      match actions[|actions| - 1]
      case Issue(call) => before + [call]
      case Commit => []
      case Execute => before
  }

  /** The calls of each commit, commit by commit. */
  function Commits<A>(actions: seq<Action<A>>): seq<seq<GlCall<A>>> {
    if actions == [] then []
    else
      var before := Commits(actions[..|actions| - 1]);
      if actions[|actions| - 1].Commit? then before + [Open(actions[..|actions| - 1])] else before
  }

  function Flat<A>(parts: seq<seq<GlCall<A>>>): seq<GlCall<A>> {
    if parts == [] then [] else Flat(parts[..|parts| - 1]) + parts[|parts| - 1]
  }

  function AllEffects<A>(queue: seq<Command<A>>): seq<GlCall<A>> {
    if queue == [] then [] else Effects(queue[0]) + AllEffects(queue[1..])
  }

  /** The image calls among these, in order. */
  function ImageCalls<A>(calls: seq<GlCall<A>>): seq<GlCall<A>> {
    if calls == [] then []
    else
      var last := calls[|calls| - 1];
      ImageCalls(calls[..|calls| - 1]) + if last.Upload? then [last] else []
  }

  /** The target of the last mipmap call, 0 if there is none. */
  function MipmapTarget<A>(calls: seq<GlCall<A>>): nat {
    if calls == [] then 0
    else
      var last := calls[|calls| - 1];
      if last.GenerateMipmap? then last.target else MipmapTarget(calls[..|calls| - 1])
  }

  /** Uploads keep their order; of the mipmap calls only the last one counts, and it moves to the end. */
  function Deferred<A>(calls: seq<GlCall<A>>): seq<GlCall<A>> {
    ImageCalls(calls) + if MipmapTarget(calls) != 0 then [GenerateMipmap(MipmapTarget(calls))] else []
  }

  function Collected<A>(calls: seq<GlCall<A>>): Pending<A> {
    if calls == [] then Pending([], 0) else Called(Collected(calls[..|calls| - 1]), calls[|calls| - 1])
  }

  /** What is collected is the image calls and the last mipmap target. */
  lemma {:induction false} CollectedIs<A>(calls: seq<GlCall<A>>)
    ensures Uploads(Collected(calls).data) == ImageCalls(calls) && Collected(calls).mipmap == MipmapTarget(calls)
    ensures Effects(Command(Collected(calls).data, Collected(calls).mipmap)) == Deferred(calls)
  {
    if calls != [] {
      CollectedIs(calls[..|calls| - 1]);
    }
  }

  function DeferredParts<A>(parts: seq<seq<GlCall<A>>>): seq<seq<GlCall<A>>> {
    seq(|parts|, i requires 0 <= i < |parts| => Deferred(parts[i]))
  }

  lemma Associate<A>(a: seq<GlCall<A>>, b: seq<GlCall<A>>, c: seq<GlCall<A>>)
    ensures a + (b + c) == (a + b) + c
  {
  }

  lemma {:induction false} AllEffectsMore<A>(queue: seq<Command<A>>, more: seq<Command<A>>)
    ensures AllEffects(queue + more) == AllEffects(queue) + AllEffects(more)
  {
    if queue == [] {
      assert queue + more == more;
    } else {
      hide Effects;
      AllEffectsMore(queue[1..], more);
      Associate(Effects(queue[0]), AllEffects(queue[1..]), AllEffects(more));
      assert (queue + more)[1..] == queue[1..] + more;
    }
  }

  lemma CommitDefers<A>(calls: seq<GlCall<A>>)
    ensures AllEffects(CommandsOfCommit(Collected(calls))) == Deferred(calls)
  {
    var commands := CommandsOfCommit(Collected(calls));
    CollectedIs(calls);
    if commands != [] {
      assert commands[1..] == [];
    }
  }

  /** Over any run, what was executed and then what is queued is, commit by commit, the deferred form of its calls. */
  lemma {:induction false} Replayed<A>(actions: seq<Action<A>>)
    ensures var s := Run(actions);
            && s.pending == Collected(Open(actions))
            && s.log + AllEffects(s.queue) == Flat(DeferredParts(Commits(actions)))
  {
    if actions != [] {
      var n := |actions| - 1;
      var s := Run(actions[..n]);
      var open := Open(actions[..n]);
      Replayed(actions[..n]);
      match actions[n]
      case Issue(call) =>
        assert (open + [call])[..|open|] == open;
      case Commit =>
        var parts := Commits(actions[..n]);
        AllEffectsMore(s.queue, CommandsOfCommit(s.pending));
        CommitDefers(open);
        assert DeferredParts(parts + [open])[..|parts|] == DeferredParts(parts);
      case Execute =>
        if s.queue != [] {
          assert s.log + (Effects(s.queue[0]) + AllEffects(s.queue[1..]))
              == (s.log + Effects(s.queue[0])) + AllEffects(s.queue[1..]);
        }
    }
  }

  /** The mipmap call, if there is one, is the last call of its commit and names a target. */
  predicate MipmapLast<A>(calls: seq<GlCall<A>>) {
    forall i | 0 <= i < |calls| :: calls[i].GenerateMipmap? ==> i == |calls| - 1 && calls[i].target != 0
  }

  predicate OnlyUploads<A>(calls: seq<GlCall<A>>) {
    forall i | 0 <= i < |calls| :: calls[i].Upload?
  }

  lemma {:induction false} ImageCallsShape<A>(calls: seq<GlCall<A>>)
    ensures |ImageCalls(calls)| <= |calls| && OnlyUploads(ImageCalls(calls))
    ensures MipmapTarget(calls) != 0 ==> |ImageCalls(calls)| < |calls|
    ensures |ImageCalls(calls)| == |calls| ==> OnlyUploads(calls)
    ensures OnlyUploads(calls) ==> ImageCalls(calls) == calls && MipmapTarget(calls) == 0
  {
    if calls != [] {
      var n := |calls| - 1;
      ImageCallsShape(calls[..n]);
      assert calls == calls[..n] + [calls[n]];
      if OnlyUploads(calls) {
        assert OnlyUploads(calls[..n]);
      }
    }
  }

  lemma LastMipmapKeepsOrder<A>(calls: seq<GlCall<A>>)
    requires MipmapLast(calls) && calls != []
    ensures Deferred(calls) == calls
  {
    var n := |calls| - 1;
    assert OnlyUploads(calls[..n]);
    ImageCallsShape(calls[..n]);
    assert calls == calls[..n] + [calls[n]];
  }

  lemma KeptOrderMeansLast<A>(calls: seq<GlCall<A>>)
    requires Deferred(calls) == calls
    ensures MipmapLast(calls)
  {
    var images := ImageCalls(calls);
    ImageCallsShape(calls);
    hide ImageCalls, MipmapTarget;
    assert forall i | 0 <= i < |images| :: calls[i] == images[i];
  }

  /** One commit reaches GL in the order it was called if and only if no call follows its mipmap call. */
  lemma DeferredInOrderIff<A>(calls: seq<GlCall<A>>)
    ensures |Deferred(calls)| <= |calls|
    ensures Deferred(calls) == calls <==> MipmapLast(calls)
  {
    ImageCallsShape(calls);
    if MipmapLast(calls) && calls != [] { LastMipmapKeepsOrder(calls); }
    if Deferred(calls) == calls { KeptOrderMeansLast(calls); }
    hide Deferred, MipmapLast;
  }

  lemma {:induction false} FlatLength<A>(a: seq<seq<GlCall<A>>>, b: seq<seq<GlCall<A>>>)
    requires |a| == |b| && forall i | 0 <= i < |a| :: |a[i]| <= |b[i]|
    ensures |Flat(a)| <= |Flat(b)|
    ensures Flat(a) == Flat(b) <==> a == b
  {
    if a != [] {
      var n := |a| - 1;
      FlatLength(a[..n], b[..n]);
      assert a == a[..n] + [a[n]] && b == b[..n] + [b[n]];
      if Flat(a) == Flat(b) {
        assert Flat(a)[..|Flat(a[..n])|] == Flat(a[..n]) && Flat(b)[..|Flat(b[..n])|] == Flat(b[..n]);
        assert Flat(a)[|Flat(a[..n])|..] == a[n] && Flat(b)[|Flat(b[..n])|..] == b[n];
      }
    }
  }

  /**
    After any run that ends drained, GL has seen exactly the committed calls in the order they were made if and only
    if in every commit nothing follows the mipmap call. Otherwise mipmaps are generated later than asked, or once
    instead of twice.
   */
  lemma CallsReachGlInOrderIff<A>(actions: seq<Action<A>>)
    requires Run(actions).queue == []
    ensures Run(actions).log == Flat(Commits(actions)) <==>
            forall calls | calls in Commits(actions) :: MipmapLast(calls)
  {
    var parts := Commits(actions);
    Replayed(actions);
    assert Run(actions).log + [] == Run(actions).log;
    forall i | 0 <= i < |parts| ensures |Deferred(parts[i])| <= |parts[i]|
                                     && (Deferred(parts[i]) == parts[i] <==> MipmapLast(parts[i])) {
      DeferredInOrderIff(parts[i]);
    }
    FlatLength(DeferredParts(parts), parts);
    assert DeferredParts(parts) == parts <==> forall i | 0 <= i < |parts| :: Deferred(parts[i]) == parts[i];
  }
}
