/** A ledger of which heap block is held by which pending state or queued command. */
module Ledger {

  const NULL: nat := 0

  /** Commands are counted from the first one ever queued. */
  datatype Owner = PendingOf(id: nat) | CommandAt(index: nat)

  /** `held` maps a buffer to its pending block; `queued` lists the block of each queued command, or NULL. */
  datatype Book = Book(blocks: set<nat>, owner: map<nat, Owner>, held: map<nat, nat>, queued: seq<nat>, taken: nat)

  predicate HasIt(k: Book, b: nat, o: Owner) {
    match o
    case PendingOf(id) => id in k.held && k.held[id] == b
    case CommandAt(i) => k.taken <= i < k.taken + |k.queued| && k.queued[i - k.taken] == b
  }

  /** The owner table covers exactly the allocated blocks and is right in both directions. */
  ghost predicate Balanced(k: Book) {
    && k.owner.Keys == k.blocks && NULL !in k.blocks
    && (forall b | b in k.owner :: HasIt(k, b, k.owner[b]))
    && (forall id | id in k.held :: k.held[id] in k.owner && k.owner[k.held[id]] == PendingOf(id))
    && (forall i | 0 <= i < |k.queued| && k.queued[i] != NULL ::
          k.queued[i] in k.owner && k.owner[k.queued[i]] == CommandAt(k.taken + i))
  }

  function Acquired(k: Book, id: nat, b: nat): Book {
    k.(blocks := k.blocks + {b}, owner := k.owner[b := PendingOf(id)], held := k.held[id := b])
  }

  function Released(k: Book, id: nat): Book
    requires id in k.held
  {
    var b := k.held[id];
    k.(blocks := k.blocks - {b}, owner := k.owner - {b}, held := k.held - {id})
  }

  function HandedOver(k: Book, id: nat): Book
    requires id in k.held
  {
    var b := k.held[id];
    k.(owner := k.owner[b := CommandAt(k.taken + |k.queued|)], held := k.held - {id}, queued := k.queued + [b])
  }

  function QueuedNothing(k: Book): Book {
    k.(queued := k.queued + [NULL])
  }

  function Consumed(k: Book): Book
    requires k.queued != []
  {
    var b := k.queued[0];
    k.(blocks := k.blocks - {b}, owner := k.owner - {b}, queued := k.queued[1..], taken := k.taken + 1)
  }

  lemma AcquireBalances(k: Book, id: nat, b: nat)
    requires Balanced(k) && id !in k.held && b != NULL && b !in k.blocks
    ensures Balanced(Acquired(k, id, b))
  {
    var k' := Acquired(k, id, b);
    assert forall c | c in k.owner :: HasIt(k', c, k.owner[c]);
  }

  lemma ReleaseBalances(k: Book, id: nat)
    requires Balanced(k) && id in k.held
    ensures Balanced(Released(k, id))
  {
    var k' := Released(k, id);
    forall c | c in k'.owner ensures HasIt(k', c, k'.owner[c]) {
      assert HasIt(k, c, k.owner[c]);
    }
  }

  lemma HandOverBalances(k: Book, id: nat)
    requires Balanced(k) && id in k.held
    ensures Balanced(HandedOver(k, id))
  {
    var k' := HandedOver(k, id);
    forall c | c in k'.owner ensures HasIt(k', c, k'.owner[c]) {
      assert HasIt(k, c, k.owner[c]);
    }
  }

  lemma QueueNothingBalances(k: Book)
    requires Balanced(k)
    ensures Balanced(QueuedNothing(k))
  {
    var k' := QueuedNothing(k);
    forall c | c in k'.owner ensures HasIt(k', c, k'.owner[c]) {
      assert HasIt(k, c, k.owner[c]);
    }
  }

  lemma ConsumeBalances(k: Book)
    requires Balanced(k) && k.queued != []
    ensures Balanced(Consumed(k))
  {
    var k' := Consumed(k);
    forall c | c in k'.owner ensures HasIt(k', c, k'.owner[c]) {
      assert HasIt(k, c, k.owner[c]);
    }
  }

  /** A balanced book gives each allocated block exactly one owner. */
  lemma OneOwner(k: Book, b: nat, o: Owner, o': Owner)
    requires Balanced(k) && b != NULL && HasIt(k, b, o) && HasIt(k, b, o')
    ensures o == o' && b in k.blocks
  {
  }

  /** With nothing held and nothing queued, no block is allocated. */
  lemma EmptyLedgerEmptyHeap(k: Book, b: nat)
    requires Balanced(k) && k.held == map[] && k.queued == []
    ensures b !in k.blocks
  {
    if b in k.owner {
      assert false;
    }
  }
}
