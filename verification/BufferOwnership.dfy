/** Who owns the heap blocks that carry buffer data from GlBufferData to the upload. */
module BufferOwnership {
  import AtomicQueue
  import opened Ledger

  newtype Byte = x: int | 0 <= x < 256

  /** The C heap. `fault` records a free of a block not allocated or a copy past the end of one. */
  datatype Heap = Heap(blocks: map<nat, seq<Byte>>, next: nat, freed: seq<nat>, fault: bool)

  function Freed(h: Heap, b: nat): Heap {
    if b == NULL then h
    else if b in h.blocks then h.(blocks := h.blocks - {b}, freed := h.freed + [b])
    else h.(fault := true)
  }

  /** realloc(b, size), always moving; the old bytes it copies are overwritten at once and not modelled. */
  function Reallocated(h: Heap, b: nat, size: nat): Heap {
    var h' := Freed(h, b);
    h'.(blocks := h'.blocks[h'.next := seq(size, _ => 0)], next := h'.next + 1)
  }

  function Copied(h: Heap, b: nat, bytes: seq<Byte>): Heap {
    if bytes == [] then h
    else if b in h.blocks && |bytes| <= |h.blocks[b]|
    then h.(blocks := h.blocks[b := bytes + h.blocks[b][|bytes|..]])
    else h.(fault := true)
  }

  /** The first `size` bytes behind a pointer. */
  function Content(h: Heap, b: nat, size: nat): seq<Byte> {
    if b in h.blocks && size <= |h.blocks[b]| then h.blocks[b][..size] else []
  }

  datatype Pending = Pending(data: nat, size: nat, alloc: nat, target: int, usage: int, damaged: bool)

  const NOTHING := Pending(NULL, 0, 0, 0, 0, false)

  datatype BufferCommand = Upload(buffer: nat, data: nat, size: nat, target: int, usage: int) | Delete(buffer: nat)

  function HeapAfterData(h: Heap, p: Pending, bytes: seq<Byte>): Heap {
    if |bytes| > p.alloc then Copied(Reallocated(h, p.data, |bytes|), h.next, bytes) else Copied(h, p.data, bytes)
  }

  function PendingAfterData(h: Heap, p: Pending, bytes: seq<Byte>, target: int, usage: int): Pending {
    if |bytes| > p.alloc then Pending(h.next, |bytes|, |bytes|, target, usage, true)
    else Pending(p.data, |bytes|, p.alloc, target, usage, true)
  }

  /** Commit moves the pending block into a command. */
  function CommandsOfCommit(id: nat, p: Pending): seq<BufferCommand> {
    if p.damaged then [Upload(id, p.data, p.size, p.target, p.usage)] else []
  }

  function PendingAfterCommit(p: Pending): Pending {
    if p.damaged then p.(data := NULL, alloc := 0, size := 0, damaged := false) else p
  }

  /** What GlBufferData relies on: the pointer is null or an allocated block of `alloc` bytes. */
  ghost predicate PendingOk(h: Heap, p: Pending) {
    && p.size <= p.alloc
    && (p.data == NULL ==> p.alloc == 0)
    && (p.data != NULL ==> p.damaged && p.data in h.blocks && |h.blocks[p.data]| == p.alloc)
  }

  class CHeap {
    var blocks: map<nat, seq<Byte>>
    var next: nat
    var freed: seq<nat>

    ghost function Value(): Heap
      reads this
    {
      Heap(blocks, next, freed, false)
    }

    constructor ()
      ensures Value() == Heap(map[], 1, [], false)
    {
      blocks, next, freed := map[], 1, [];
    }

    method Free(b: nat)
      requires b == NULL || b in blocks
      modifies this
      ensures Value() == Freed(old(Value()), b)
    {
      if b != NULL {
        blocks := blocks - {b};
        freed := freed + [b];
      }
    }

    method Realloc(b: nat, size: nat) returns (moved: nat)
      requires b == NULL || b in blocks
      modifies this
      ensures moved == old(next) && Value() == Reallocated(old(Value()), b, size)
    {
      Free(b);
      moved := next;
      blocks := blocks[next := seq(size, _ => 0)];
      next := next + 1;
    }

    method Memcpy(b: nat, bytes: seq<Byte>)
      requires bytes == [] || (b in blocks && |bytes| <= |blocks[b]|)
      modifies this
      ensures Value() == Copied(old(Value()), b, bytes)
    {
      var i := 0;
      assert bytes != [] ==> bytes[..0] + blocks[b][0..] == blocks[b];
      while i < |bytes|
        invariant 0 <= i <= |bytes| && next == old(next) && freed == old(freed)
        invariant bytes == [] ==> blocks == old(blocks)
        invariant bytes != [] ==> b in blocks && |blocks[b]| == |old(blocks)[b]|
        invariant bytes != [] ==> blocks == old(blocks)[b := bytes[..i] + old(blocks)[b][i..]]
      {
        ghost var was := blocks[b];
        blocks := blocks[b := blocks[b][i := bytes[i]]];
        assert blocks[b] == bytes[..i + 1] + old(blocks)[b][i + 1..];
        i := i + 1;
      }
      assert bytes[..|bytes|] == bytes;
    }
  }

  class GlBuffer {
    const id: nat
    const heap: CHeap
    const updateRenderingQueue: AtomicQueue.AtomicCommandQueue<BufferCommand>
    var data: nat
    var size: nat
    var alloc: nat
    var target: int
    var usage: int
    var dataDamaged: bool

    ghost function Value(): Pending
      reads this
    {
      Pending(data, size, alloc, target, usage, dataDamaged)
    }

    ghost predicate Valid()
      reads this, heap, updateRenderingQueue
    {
      updateRenderingQueue.Valid() && PendingOk(heap.Value(), Value()) && heap.next > NULL
    }

    constructor (id: nat, heap: CHeap, queue: AtomicQueue.AtomicCommandQueue<BufferCommand>)
      requires queue.Valid() && heap.next > NULL
      ensures Valid() && Value() == NOTHING
      ensures this.id == id && this.heap == heap && this.updateRenderingQueue == queue
    {
      this.id, this.heap, this.updateRenderingQueue := id, heap, queue;
      data, size, alloc, target, usage, dataDamaged := NULL, 0, 0, 0, 0, false;
    }

    method GlBufferData(bytes: seq<Byte>, target: int, usage: int)
      requires Valid()
      modifies this, heap
      ensures Valid()
      ensures heap.Value() == HeapAfterData(old(heap.Value()), old(Value()), bytes)
      ensures Value() == PendingAfterData(old(heap.Value()), old(Value()), bytes, target, usage)
    {
      if |bytes| > alloc {
        data := heap.Realloc(data, |bytes|);
        alloc := |bytes|;
      }
      heap.Memcpy(data, bytes);
      size := |bytes|;
      this.target := target;
      this.usage := usage;
      dataDamaged := true;
    }

    method Commit()
      requires Valid()
      modifies this, updateRenderingQueue
      ensures Valid() && Value() == PendingAfterCommit(old(Value()))
      ensures updateRenderingQueue.queue == old(updateRenderingQueue.queue)
                + (if old(dataDamaged) then [AtomicQueue.Command(CommandsOfCommit(id, old(Value()))[0])] else [])
    {
      if dataDamaged == false {
        return;
      }
      updateRenderingQueue.Push(Upload(id, data, size, target, usage));
      data := NULL;
      alloc := 0;
      size := 0;
      dataDamaged := false;
    }

    /** The destructor. */
    method Destroy()
      requires Valid()
      modifies this, heap, updateRenderingQueue
      ensures heap.Value() == Freed(old(heap.Value()), old(data)) && data == NULL
      ensures updateRenderingQueue.queue == old(updateRenderingQueue.queue) + [AtomicQueue.Command(Delete(id))]
    {
      updateRenderingQueue.Push(Delete(id));
      heap.Free(data);
      data := NULL;
    }
  }

  // ---- any number of buffers, over whole runs ----

  datatype State = State(
    heap: Heap,
    pendings: map<nat, Pending>,    // the buffers alive
    queue: seq<BufferCommand>,
    gpu: map<nat, seq<Byte>>,
    // histories
    latest: map<nat, seq<Byte>>,    // data of the last GlBufferData
    promised: seq<seq<Byte>>,       // that data at the commit of each queued command
    taken: nat,                     // commands already run or cancelled
    owner: map<nat, Owner>)         // who holds each block; commands count from the first ever pushed

  datatype Action =
    | New(id: nat)
    | Data(id: nat, bytes: seq<Byte>, target: int, usage: int)
    | Commit(id: nat)
    | Destroy(id: nat)
    | Execute   // the rendering thread runs the front command
    | Cancel    // the queue is destroyed and cancels the front command

  function Start(): State {
    State(Heap(map[], 1, [], false), map[], [], map[], map[], [], 0, map[])
  }

  function Assigned(owner: map<nat, Owner>, b: nat, o: Owner): map<nat, Owner> {
    if b == NULL then owner else owner[b := o]
  }

  function DataStep(s: State, id: nat, bytes: seq<Byte>, target: int, usage: int): State
    requires id in s.pendings
  {
    var p := s.pendings[id];
    var p' := PendingAfterData(s.heap, p, bytes, target, usage);
    s.(heap := HeapAfterData(s.heap, p, bytes), pendings := s.pendings[id := p'], latest := s.latest[id := bytes],
       owner := if p'.data == p.data then s.owner else Assigned(s.owner - {p.data}, p'.data, PendingOf(id)))
  }

  function CommitStep(s: State, id: nat): State
    requires id in s.pendings
  {
    var p := s.pendings[id];
    if !p.damaged then s
    else
      s.(pendings := s.pendings[id := PendingAfterCommit(p)],
         queue := s.queue + CommandsOfCommit(id, p),
         promised := s.promised + [if id in s.latest then s.latest[id] else []],
         owner := Assigned(s.owner, p.data, CommandAt(s.taken + |s.queue|)))
  }

  function DestroyStep(s: State, id: nat): State
    requires id in s.pendings
  {
    var b := s.pendings[id].data;
    s.(heap := Freed(s.heap, b), pendings := s.pendings - {id}, owner := s.owner - {b},
       queue := s.queue + [Delete(id)], promised := s.promised + [[]])
  }

  function FrontStep(s: State, cancel: bool): State
    requires s.queue != [] && s.promised != []
  {
    var rest := s.(queue := s.queue[1..], promised := s.promised[1..], taken := s.taken + 1);
    match s.queue[0]
    case Upload(id, data, size, _, _) =>
      rest.(heap := Freed(s.heap, data), owner := s.owner - {data},
            gpu := if cancel then s.gpu else s.gpu[id := Content(s.heap, data, size)])
    case Delete(id) => rest.(gpu := s.gpu - {id})
  }

  /** An action that is not enabled changes nothing, so every action sequence is a run. */
  function Step(s: State, a: Action): State {
    match a
    case New(id) => if id in s.pendings then s
      else s.(pendings := s.pendings[id := NOTHING], latest := s.latest[id := []])
    case Data(id, bytes, target, usage) => if id in s.pendings then DataStep(s, id, bytes, target, usage) else s
    case Commit(id) => if id in s.pendings then CommitStep(s, id) else s
    case Destroy(id) => if id in s.pendings then DestroyStep(s, id) else s
    case Execute => if s.queue == [] || s.promised == [] then s else FrontStep(s, false)
    case Cancel => if s.queue == [] || s.promised == [] then s else FrontStep(s, true)
  }

  function Run(actions: seq<Action>): State {
    if actions == [] then Start()
    else Step(Run(actions[..|actions| - 1]), actions[|actions| - 1])
  }

  function BlockOf(c: BufferCommand): nat {
    if c.Upload? then c.data else NULL
  }

  /** Who holds what in a state. */
  function BookOf(s: State): Book {
    Book(s.heap.blocks.Keys, s.owner,
         map id | id in s.pendings && s.pendings[id].data != NULL :: s.pendings[id].data,
         seq(|s.queue|, i requires 0 <= i < |s.queue| => BlockOf(s.queue[i])),
         s.taken)
  }

  /** Every address handed out is either allocated or was freed, exactly once. */
  ghost predicate FreedOnce(h: Heap) {
    && !h.fault && h.next > NULL
    && (forall b | b in h.blocks :: NULL < b < h.next)
    && (forall i | 0 <= i < |h.freed| :: NULL < h.freed[i] < h.next && h.freed[i] !in h.blocks)
    && (forall i, j | 0 <= i < j < |h.freed| :: h.freed[i] != h.freed[j])
    && (forall b | NULL < b < h.next :: b in h.blocks || b in h.freed)
  }

  ghost predicate Latest(s: State) {
    forall id | id in s.pendings ::
      && id in s.latest && PendingOk(s.heap, s.pendings[id])
      && (s.pendings[id].damaged ==> Content(s.heap, s.pendings[id].data, s.pendings[id].size) == s.latest[id])
  }

  ghost predicate Promised(s: State) {
    && |s.promised| == |s.queue|
    && (forall i | 0 <= i < |s.queue| && s.queue[i].Upload? ::
          Content(s.heap, s.queue[i].data, s.queue[i].size) == s.promised[i])
  }

  ghost predicate Inv(s: State) {
    Balanced(BookOf(s)) && FreedOnce(s.heap) && Latest(s) && Promised(s)
  }

  lemma FreedKeepsHeap(h: Heap, b: nat)
    requires FreedOnce(h) && (b == NULL || b in h.blocks)
    ensures FreedOnce(Freed(h, b))
  {
    if b != NULL {
      var f := Freed(h, b).freed;
      assert f[|h.freed|] == b;
      forall c | NULL < c < h.next ensures c in Freed(h, b).blocks || c in f {
        assert c in h.freed ==> c in f;
      }
    }
  }

  /** All other blocks keep their bytes. */
  ghost predicate LeavesOthers(h: Heap, h': Heap, b: nat, b': nat) {
    && (forall c | c in h.blocks && c != b :: c in h'.blocks && h'.blocks[c] == h.blocks[c])
    && (forall c | c in h'.blocks :: c == b' || (c in h.blocks && c != b))
  }

  /** What GlBufferData does to the heap and to its buffer. */
  ghost predicate StoredWell(h: Heap, p: Pending, h': Heap, p': Pending, bytes: seq<Byte>) {
    && FreedOnce(h') && PendingOk(h', p')
    && LeavesOthers(h, h', p.data, p'.data)
    && Content(h', p'.data, p'.size) == bytes
  }

  lemma ReallocKeepsHeap(h: Heap, b: nat, size: nat)
    requires FreedOnce(h) && (b == NULL || b in h.blocks)
    ensures FreedOnce(Reallocated(h, b, size))
  {
    FreedKeepsHeap(h, b);
  }

  lemma CopyKeepsHeap(h: Heap, b: nat, bytes: seq<Byte>)
    requires FreedOnce(h) && b in h.blocks && |bytes| <= |h.blocks[b]|
    ensures FreedOnce(Copied(h, b, bytes)) && Content(Copied(h, b, bytes), b, |bytes|) == bytes
    ensures LeavesOthers(h, Copied(h, b, bytes), b, b) && |Copied(h, b, bytes).blocks[b]| == |h.blocks[b]|
  {
  }

  lemma DataStoresWellGrowing(h: Heap, p: Pending, bytes: seq<Byte>, target: int, usage: int)
    requires FreedOnce(h) && PendingOk(h, p) && |bytes| > p.alloc
    ensures StoredWell(h, p, HeapAfterData(h, p, bytes), PendingAfterData(h, p, bytes, target, usage), bytes)
  {
    ReallocKeepsHeap(h, p.data, |bytes|);
    CopyKeepsHeap(Reallocated(h, p.data, |bytes|), h.next, bytes);
  }

  lemma DataStoresWell(h: Heap, p: Pending, bytes: seq<Byte>, target: int, usage: int)
    requires FreedOnce(h) && PendingOk(h, p)
    ensures StoredWell(h, p, HeapAfterData(h, p, bytes), PendingAfterData(h, p, bytes, target, usage), bytes)
  {
    if |bytes| > p.alloc {
      DataStoresWellGrowing(h, p, bytes, target, usage);
    }
  }

  function ReleasedIfHeld(k: Book, id: nat): Book {
    if id in k.held then Released(k, id) else k
  }

  lemma ReleaseIfHeldBalances(k: Book, id: nat)
    requires Balanced(k)
    ensures Balanced(ReleasedIfHeld(k, id)) && id !in ReleasedIfHeld(k, id).held
    ensures ReleasedIfHeld(k, id).blocks <= k.blocks
  {
    if id in k.held {
      ReleaseBalances(k, id);
    }
  }

  lemma AddressesAfterData(h: Heap, p: Pending, bytes: seq<Byte>)
    requires PendingOk(h, p) && NULL !in h.blocks && h.next !in h.blocks
    ensures HeapAfterData(h, p, bytes).blocks.Keys
         == if |bytes| > p.alloc then h.blocks.Keys - {p.data} + {h.next} else h.blocks.Keys
  {
  }

  lemma BookAfterGrowing(s: State, id: nat, bytes: seq<Byte>, target: int, usage: int)
    requires id in s.pendings && PendingOk(s.heap, s.pendings[id]) && |bytes| > s.pendings[id].alloc
    requires NULL !in s.heap.blocks && NULL !in s.owner && s.heap.next != NULL && s.heap.next !in s.heap.blocks
    ensures BookOf(DataStep(s, id, bytes, target, usage)) == Acquired(ReleasedIfHeld(BookOf(s), id), id, s.heap.next)
  {
    var p, k', k := s.pendings[id], BookOf(DataStep(s, id, bytes, target, usage)), BookOf(s);
    AddressesAfterData(s.heap, p, bytes);
    hide HeapAfterData, PendingOk;
    var r := ReleasedIfHeld(k, id);
    assert r.blocks == s.heap.blocks.Keys - {p.data};
    assert r.owner == s.owner - {p.data};
    assert k'.held == r.held[id := s.heap.next];
  }

  lemma BookAfterFitting(s: State, id: nat, bytes: seq<Byte>, target: int, usage: int)
    requires id in s.pendings && PendingOk(s.heap, s.pendings[id]) && |bytes| <= s.pendings[id].alloc
    requires NULL !in s.heap.blocks && s.heap.next !in s.heap.blocks
    ensures BookOf(DataStep(s, id, bytes, target, usage)) == BookOf(s)
  {
    AddressesAfterData(s.heap, s.pendings[id], bytes);
    hide HeapAfterData, PendingOk;
    assert BookOf(DataStep(s, id, bytes, target, usage)).held == BookOf(s).held;
  }

  lemma BookAfterData(s: State, id: nat, bytes: seq<Byte>, target: int, usage: int)
    requires id in s.pendings && PendingOk(s.heap, s.pendings[id])
    requires NULL !in s.heap.blocks && NULL !in s.owner && s.heap.next != NULL && s.heap.next !in s.heap.blocks
    ensures BookOf(DataStep(s, id, bytes, target, usage))
         == if |bytes| > s.pendings[id].alloc then Acquired(ReleasedIfHeld(BookOf(s), id), id, s.heap.next)
            else BookOf(s)
  {
    hide BookOf, DataStep, PendingOk, Acquired;
    if |bytes| > s.pendings[id].alloc {
      BookAfterGrowing(s, id, bytes, target, usage);
    } else {
      BookAfterFitting(s, id, bytes, target, usage);
    }
  }

  lemma BookAfterCommit(s: State, id: nat)
    requires id in s.pendings && s.pendings[id].damaged
    ensures BookOf(CommitStep(s, id))
         == if s.pendings[id].data != NULL then HandedOver(BookOf(s), id) else QueuedNothing(BookOf(s))
  {
    var k' := BookOf(CommitStep(s, id));
    assert k'.queued == BookOf(s).queued + [s.pendings[id].data];
    assert k'.held == BookOf(s).held - {id};
  }

  lemma BookAfterDestroy(s: State, id: nat)
    requires id in s.pendings && PendingOk(s.heap, s.pendings[id])
    requires NULL !in s.heap.blocks && NULL !in s.owner
    ensures BookOf(DestroyStep(s, id)) == QueuedNothing(ReleasedIfHeld(BookOf(s), id))
  {
    var k', r := BookOf(DestroyStep(s, id)), ReleasedIfHeld(BookOf(s), id);
    assert k'.queued == BookOf(s).queued + [NULL];
    assert k'.held == r.held;
    assert k'.blocks == r.blocks;
    assert k'.owner == r.owner;
  }

  lemma BookAfterFront(s: State, cancel: bool)
    requires s.queue != [] && s.promised != []
    requires NULL !in s.heap.blocks && NULL !in s.owner
    ensures BookOf(FrontStep(s, cancel)) == Consumed(BookOf(s))
  {
    var k', r := BookOf(FrontStep(s, cancel)), Consumed(BookOf(s));
    assert k'.queued == BookOf(s).queued[1..];
    assert k'.blocks == r.blocks;
    assert k'.owner == r.owner;
  }

  lemma DataKeepsBook(s: State, id: nat, bytes: seq<Byte>, target: int, usage: int)
    requires Balanced(BookOf(s)) && FreedOnce(s.heap) && id in s.pendings && PendingOk(s.heap, s.pendings[id])
    ensures Balanced(BookOf(DataStep(s, id, bytes, target, usage)))
  {
    BookAfterData(s, id, bytes, target, usage);
    if |bytes| > s.pendings[id].alloc {
      ReleaseIfHeldBalances(BookOf(s), id);
      AcquireBalances(ReleasedIfHeld(BookOf(s), id), id, s.heap.next);
    }
  }

  lemma CommitKeepsBook(s: State, id: nat)
    requires Balanced(BookOf(s)) && id in s.pendings
    ensures Balanced(BookOf(CommitStep(s, id)))
  {
    if s.pendings[id].damaged {
      BookAfterCommit(s, id);
      if s.pendings[id].data != NULL {
        HandOverBalances(BookOf(s), id);
      } else {
        QueueNothingBalances(BookOf(s));
      }
    }
  }

  lemma DestroyKeepsBook(s: State, id: nat)
    requires Balanced(BookOf(s)) && id in s.pendings && PendingOk(s.heap, s.pendings[id])
    ensures Balanced(BookOf(DestroyStep(s, id)))
  {
    BookAfterDestroy(s, id);
    ReleaseIfHeldBalances(BookOf(s), id);
    QueueNothingBalances(ReleasedIfHeld(BookOf(s), id));
  }

  lemma FrontKeepsBook(s: State, cancel: bool)
    requires Balanced(BookOf(s)) && s.queue != [] && s.promised != []
    ensures Balanced(BookOf(FrontStep(s, cancel)))
  {
    BookAfterFront(s, cancel);
    ConsumeBalances(BookOf(s));
  }

  /** A block belongs to the pending state of a buffer. */
  predicate Pends(s: State, id: nat, b: nat) {
    b != NULL && id in s.pendings && s.pendings[id].data == b
  }

  /** A block belongs to a queued command. */
  predicate Queued(s: State, i: int, b: nat) {
    b != NULL && 0 <= i < |s.queue| && s.queue[i].Upload? && s.queue[i].data == b
  }

  /** No two of a buffer's pending block and the queued blocks are the same. */
  ghost predicate Apart(s: State) {
    && (forall id, b | Pends(s, id, b) :: b in s.heap.blocks)
    && (forall i, b | Queued(s, i, b) :: b in s.heap.blocks)
    && (forall id, id', b | Pends(s, id, b) && Pends(s, id', b) :: id == id')
    && (forall i, i', b | Queued(s, i, b) && Queued(s, i', b) :: i == i')
    && (forall id, i, b | Pends(s, id, b) :: !Queued(s, i, b))
  }

  lemma BookApart(s: State)
    requires Balanced(BookOf(s))
    ensures Apart(s)
  {
    var k := BookOf(s);
    forall id, b | Pends(s, id, b) ensures b in k.owner && k.owner[b] == PendingOf(id) {
      assert k.held[id] == b;
    }
    forall i, b | Queued(s, i, b) ensures b in k.owner && k.owner[b] == CommandAt(s.taken + i) {
      assert k.queued[i] == b;
    }
  }

  lemma DataKeepsBytes(s: State, id: nat, bytes: seq<Byte>, target: int, usage: int)
    requires Apart(s) && FreedOnce(s.heap) && Latest(s) && Promised(s) && id in s.pendings
    ensures Latest(DataStep(s, id, bytes, target, usage)) && Promised(DataStep(s, id, bytes, target, usage))
  {
    var s' := DataStep(s, id, bytes, target, usage);
    var p := s.pendings[id];
    DataStoresWell(s.heap, p, bytes, target, usage);
    forall k | k in s.pendings && k != id && s.pendings[k].data != NULL
      ensures s.pendings[k].data != p.data && s.pendings[k].data in s.heap.blocks
    {
      assert Pends(s, k, s.pendings[k].data);
      assert p.data != NULL ==> Pends(s, id, p.data);
    }
    assert p.data != NULL ==> Pends(s, id, p.data);
    forall i | 0 <= i < |s.queue| && s.queue[i].Upload?
      ensures Content(s'.heap, s.queue[i].data, s.queue[i].size) == Content(s.heap, s.queue[i].data, s.queue[i].size)
    {
      QueuedBytesKept(s, s'.heap, i, p.data, s'.pendings[id].data);
    }
  }

  lemma QueuedBytesKept(s: State, h': Heap, i: nat, b: nat, b': nat)
    requires Apart(s) && LeavesOthers(s.heap, h', b, b') && FreedOnce(s.heap) && FreedOnce(h')
    requires i < |s.queue| && s.queue[i].Upload? && !Queued(s, i, b)
    ensures Content(h', s.queue[i].data, s.queue[i].size) == Content(s.heap, s.queue[i].data, s.queue[i].size)
  {
    var c := s.queue[i].data;
    if c != NULL {
      assert Queued(s, i, c);
    }
  }

  lemma PendingBytesKept(s: State, h': Heap, id: nat, b: nat, b': nat)
    requires Apart(s) && LeavesOthers(s.heap, h', b, b') && FreedOnce(s.heap) && FreedOnce(h')
    requires id in s.pendings && !Pends(s, id, b)
    ensures Content(h', s.pendings[id].data, s.pendings[id].size)
            == Content(s.heap, s.pendings[id].data, s.pendings[id].size)
    ensures PendingOk(s.heap, s.pendings[id]) ==> PendingOk(h', s.pendings[id])
  {
    var c := s.pendings[id].data;
    if c != NULL {
      assert Pends(s, id, c);
    }
  }

  lemma CommitKeepsBytes(s: State, id: nat)
    requires Latest(s) && Promised(s) && id in s.pendings
    ensures Latest(CommitStep(s, id)) && Promised(CommitStep(s, id))
  {
  }

  lemma DestroyKeepsBytes(s: State, id: nat)
    requires Apart(s) && FreedOnce(s.heap) && Latest(s) && Promised(s) && id in s.pendings
    ensures FreedOnce(DestroyStep(s, id).heap)
    ensures Latest(DestroyStep(s, id)) && Promised(DestroyStep(s, id))
  {
    var b := s.pendings[id].data;
    assert b != NULL ==> Pends(s, id, b);
    FreedKeepsHeap(s.heap, b);
    forall k | k in s.pendings && k != id
      ensures Content(Freed(s.heap, b), s.pendings[k].data, s.pendings[k].size)
           == Content(s.heap, s.pendings[k].data, s.pendings[k].size)
      ensures PendingOk(Freed(s.heap, b), s.pendings[k])
    {
      PendingBytesKept(s, Freed(s.heap, b), k, b, NULL);
    }
    forall i | 0 <= i < |s.queue| && s.queue[i].Upload?
      ensures Content(Freed(s.heap, b), s.queue[i].data, s.queue[i].size)
           == Content(s.heap, s.queue[i].data, s.queue[i].size)
    {
      QueuedBytesKept(s, Freed(s.heap, b), i, b, NULL);
    }
  }

  lemma FrontKeepsBytes(s: State, cancel: bool)
    requires Apart(s) && FreedOnce(s.heap) && Latest(s) && Promised(s) && s.queue != []
    ensures FreedOnce(FrontStep(s, cancel).heap)
    ensures Latest(FrontStep(s, cancel)) && Promised(FrontStep(s, cancel))
  {
    if s.queue[0].Upload? {
      var b := s.queue[0].data;
      assert b != NULL ==> Queued(s, 0, b);
      FreedKeepsHeap(s.heap, b);
      forall k | k in s.pendings
        ensures Content(Freed(s.heap, b), s.pendings[k].data, s.pendings[k].size)
             == Content(s.heap, s.pendings[k].data, s.pendings[k].size)
        ensures PendingOk(Freed(s.heap, b), s.pendings[k])
      {
        PendingBytesKept(s, Freed(s.heap, b), k, b, NULL);
      }
      forall i | 0 < i < |s.queue| && s.queue[i].Upload?
        ensures Content(Freed(s.heap, b), s.queue[i].data, s.queue[i].size)
             == Content(s.heap, s.queue[i].data, s.queue[i].size)
      {
        QueuedBytesKept(s, Freed(s.heap, b), i, b, NULL);
      }
    }
  }

  lemma StepKeepsInv(s: State, a: Action)
    requires Inv(s)
    ensures Inv(Step(s, a))
  {
    BookApart(s);
    match a
    case New(id) =>
      BookAfterNew(s, id);
      NewKeepsBytes(s, id);
    case Data(id, bytes, target, usage) =>
      if id in s.pendings {
        DataKeepsBook(s, id, bytes, target, usage);
        DataKeepsBytes(s, id, bytes, target, usage);
        DataStoresWell(s.heap, s.pendings[id], bytes, target, usage);
      }
    case Commit(id) =>
      if id in s.pendings {
        CommitKeepsBook(s, id);
        CommitKeepsBytes(s, id);
      }
    case Destroy(id) =>
      if id in s.pendings {
        DestroyKeepsBook(s, id);
        DestroyKeepsBytes(s, id);
      }
    case Execute =>
      if s.queue != [] {
        FrontKeepsBook(s, false);
        FrontKeepsBytes(s, false);
      }
    case Cancel =>
      if s.queue != [] {
        FrontKeepsBook(s, true);
        FrontKeepsBytes(s, true);
      }
  }

  lemma BookAfterNew(s: State, id: nat)
    ensures BookOf(Step(s, New(id))) == BookOf(s)
  {
  }

  lemma NewKeepsBytes(s: State, id: nat)
    requires Latest(s) && Promised(s)
    ensures Latest(Step(s, New(id))) && Promised(Step(s, New(id)))
  {
  }

  lemma {:induction false} Always(actions: seq<Action>)
    ensures Inv(Run(actions))
  {
    if actions != [] {
      Always(actions[..|actions| - 1]);
      StepKeepsInv(Run(actions[..|actions| - 1]), actions[|actions| - 1]);
    }
  }

  lemma SomeOwner(s: State, b: nat)
    requires Balanced(BookOf(s)) && b in s.heap.blocks
    ensures (exists id :: Pends(s, id, b)) || (exists i :: Queued(s, i, b))
  {
    var k := BookOf(s);
    assert HasIt(k, b, k.owner[b]);
    match k.owner[b]
    case PendingOf(id) => assert Pends(s, id, b);
    case CommandAt(i) => assert Queued(s, i - s.taken, b);
  }

  /** On every run each allocated block has exactly one owner: one buffer's pending state or one queued command. */
  lemma OneOwnerPerBlock(actions: seq<Action>, b: nat)
    ensures var s := Run(actions);
            && (b in s.heap.blocks <==> (exists id :: Pends(s, id, b)) || (exists i :: Queued(s, i, b)))
            && (forall id, id' | Pends(s, id, b) && Pends(s, id', b) :: id == id')
            && (forall i, i' | Queued(s, i, b) && Queued(s, i', b) :: i == i')
            && (forall id, i | Pends(s, id, b) :: !Queued(s, i, b))
  {
    Always(actions);
    BookApart(Run(actions));
    if b in Run(actions).heap.blocks {
      SomeOwner(Run(actions), b);
    }
  }

  /** No run frees a block twice, frees a foreign pointer or copies past a block. */
  lemma NoFault(actions: seq<Action>)
    ensures var h := Run(actions).heap;
            && !h.fault
            && (forall i, j | 0 <= i < j < |h.freed| :: h.freed[i] != h.freed[j])
            && (forall i | 0 <= i < |h.freed| :: h.freed[i] !in h.blocks)
  {
    Always(actions);
  }

  /** When all buffers are destroyed and the queue has run or cancelled everything, every block was freed. */
  lemma NoLeak(actions: seq<Action>)
    requires Run(actions).pendings == map[] && Run(actions).queue == []
    ensures var h := Run(actions).heap;
            h.blocks == map[] && forall b | NULL < b < h.next :: b in h.freed
  {
    Always(actions);
    var k := BookOf(Run(actions));
    forall b ensures b !in k.blocks { EmptyLedgerEmptyHeap(k, b); }
    assert k.blocks == {};
  }

  /** The upload that runs next transfers exactly the data of the last GlBufferData before its commit. */
  lemma UploadsCommittedData(actions: seq<Action>)
    requires Run(actions).queue != [] && Run(actions).queue[0].Upload?
    ensures var s := Run(actions);
            s.promised != [] && Step(s, Execute).gpu == s.gpu[s.queue[0].buffer := s.promised[0]]
  {
    Always(actions);
  }

  /** Size never exceeds the allocation while data is pending. */
  lemma SizeFits(actions: seq<Action>, id: nat)
    requires id in Run(actions).pendings
    ensures var s := Run(actions);
            var p := s.pendings[id];
            p.size <= p.alloc && (p.data != NULL ==> p.data in s.heap.blocks && |s.heap.blocks[p.data]| == p.alloc)
  {
    Always(actions);
  }
}
