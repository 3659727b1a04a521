/** Replays the commands of one channel in the order of their serial numbers. */
module SerialQueue {

  datatype Item<C> = Item(serial: nat, command: C)

  /** `ran` logs every Execute call, in order; it stands for what the commands did. */
  datatype State<C> = State(next: nat, list: seq<Item<C>>, ran: seq<Item<C>>)

  function Init<C>(): State<C> { State(0, [], []) }

  /** Walks from the back over larger serials, so an equal serial lands behind the pending one. */
  function Inserted<C>(list: seq<Item<C>>, item: Item<C>): seq<Item<C>> {
    if list != [] && item.serial < list[|list| - 1].serial
    then Inserted(list[..|list| - 1], item) + [list[|list| - 1]]
    else list + [item]
  }

  function Consumed<C>(st: State<C>): State<C>
    decreases |st.list|
  {
    if st.list == [] || st.list[0].serial != st.next then st
    else Consumed(State(st.next + 1, st.list[1..], st.ran + [st.list[0]]))
  }

  function Pushed<C>(st: State<C>, item: Item<C>): State<C> {
    if item.serial < st.next then st.(ran := st.ran + [item])
    else if item.serial == st.next then Consumed(State(st.next + 1, st.list, st.ran + [item]))
    else st.(list := Inserted(st.list, item))
  }

  /** The queue after the given arrivals. */
  function Received<C>(arrivals: seq<Item<C>>): State<C> {
    if arrivals == [] then Init()
    else Pushed(Received(arrivals[..|arrivals| - 1]), arrivals[|arrivals| - 1])
  }

  class SerialCommandQueue<C> {
    var nextSerial: nat
    var list: seq<Item<C>>
    var ran: seq<Item<C>>
    var cancelled: seq<Item<C>>

    ghost function Value(): State<C>
      reads this
    {
      State(nextSerial, list, ran)
    }

    constructor ()
      ensures Value() == Init() && cancelled == []
    {
      nextSerial, list, ran, cancelled := 0, [], [], [];
    }

    method Push(serial: nat, command: C)
      modifies this
      ensures Value() == Pushed(old(Value()), Item(serial, command))
      ensures cancelled == old(cancelled)
    {
      if serial < nextSerial {
        ran := ran + [Item(serial, command)];
      } else if serial == nextSerial {
        ran := ran + [Item(serial, command)];
        nextSerial := nextSerial + 1;
        Consume();
      } else {
        Insert(serial, command);
      }
    }

    method IsEmpty() returns (empty: bool)
      ensures empty <==> list == []
    {
      empty := |list| == 0;
    }

    method Consume()
      modifies this
      ensures Value() == Consumed(old(Value()))
      ensures cancelled == old(cancelled)
    {
      while |list| != 0
        invariant Consumed(Value()) == Consumed(old(Value()))
        invariant cancelled == old(cancelled)
        decreases |list|
      {
        if list[0].serial != nextSerial {
          break;
        }
        ran := ran + [list[0]];
        nextSerial := nextSerial + 1;
        list := list[1..];
      }
    }

    method Insert(serial: nat, command: C)
      modifies this`list
      ensures list == Inserted(old(list), Item(serial, command))
    {
      var it := |list|;
      assert list[..it] == list && list[it..] == [];
      while it != 0 && serial < list[it - 1].serial
        invariant 0 <= it <= |list|
        invariant Inserted(list, Item(serial, command))
               == Inserted(list[..it], Item(serial, command)) + list[it..]
      {
        assert list[..it][..it - 1] == list[..it - 1];
        assert [list[it - 1]] + list[it..] == list[it - 1..];
        it := it - 1;
      }
      list := list[..it] + [Item(serial, command)] + list[it..];
    }

    /** The destructor: every command still waiting is cancelled, front to back. */
    method Destroy()
      modifies this
      ensures list == [] && ran == old(ran) && nextSerial == old(nextSerial)
      ensures cancelled == old(cancelled) + old(list)
    {
      while |list| != 0
        invariant cancelled + list == old(cancelled) + old(list)
        invariant ran == old(ran) && nextSerial == old(nextSerial)
        decreases |list|
      {
        cancelled := cancelled + [list[0]];
        list := list[1..];
      }
    }
  }

  /** No two items carry the same serial. */
  ghost predicate Distinct<C>(items: seq<Item<C>>) {
    forall i, j | 0 <= i < j < |items| :: items[i].serial != items[j].serial
  }

  /** What the queue promises: 0, 1, 2, ... ran in that order; the rest waits, strictly sorted, behind a gap. */
  ghost predicate InOrder<C>(st: State<C>) {
    && |st.ran| == st.next
    && (forall i | 0 <= i < |st.ran| :: st.ran[i].serial == i)
    && Ascending(st.list)
    && (forall i | 0 <= i < |st.list| :: st.next < st.list[i].serial)
  }

  ghost predicate Ascending<C>(list: seq<Item<C>>) {
    forall i, j | 0 <= i < j < |list| :: list[i].serial < list[j].serial
  }

  lemma {:induction false} InsertConserves<C>(list: seq<Item<C>>, item: Item<C>)
    ensures multiset(Inserted(list, item)) == multiset(list) + multiset{item}
  {
    if list != [] && item.serial < list[|list| - 1].serial {
      InsertConserves(list[..|list| - 1], item);
      assert list == list[..|list| - 1] + [list[|list| - 1]];
    }
  }

  lemma {:induction false} InsertAscends<C>(list: seq<Item<C>>, item: Item<C>)
    requires Ascending(list) && forall i | 0 <= i < |list| :: list[i].serial != item.serial
    ensures Ascending(Inserted(list, item))
    ensures forall x | x in Inserted(list, item) :: x == item || x in list
  {
    if list != [] && item.serial < list[|list| - 1].serial {
      var front := Inserted(list[..|list| - 1], item);
      InsertAscends(list[..|list| - 1], item);
      assert forall i | 0 <= i < |front| :: front[i] in front;
    }
  }

  lemma {:induction false} ConsumeConserves<C>(st: State<C>)
    ensures st.ran <= Consumed(st).ran
    ensures multiset(Consumed(st).ran) + multiset(Consumed(st).list) == multiset(st.ran) + multiset(st.list)
    decreases |st.list|
  {
    if st.list != [] && st.list[0].serial == st.next {
      assert st.list == [st.list[0]] + st.list[1..];
      ConsumeConserves(State(st.next + 1, st.list[1..], st.ran + [st.list[0]]));
    }
  }

  /** A push loses nothing and runs nothing twice, whatever serials arrive. */
  lemma PushConserves<C>(st: State<C>, item: Item<C>)
    ensures st.ran <= Pushed(st, item).ran
    ensures multiset(Pushed(st, item).ran) + multiset(Pushed(st, item).list)
         == multiset(st.ran) + multiset(st.list) + multiset{item}
  {
    if item.serial == st.next {
      ConsumeConserves(State(st.next + 1, st.list, st.ran + [item]));
    } else if item.serial > st.next {
      InsertConserves(st.list, item);
    }
  }

  /** What a push executes, at once and by consuming the list. */
  function NewlyRun<C>(before: State<C>, item: Item<C>): (run: seq<Item<C>>)
    ensures before.ran + run == Pushed(before, item).ran
  {
    PushConserves(before, item);
    Pushed(before, item).ran[|before.ran|..]
  }

  lemma Cancelled<C>(common: multiset<C>, a: multiset<C>, b: multiset<C>)
    requires common + a == common + b
    ensures a == b
  {
    assert (common + a) - common == a && (common + b) - common == b;
  }

  /** A push executes exactly what leaves the list, the pushed item counted as put there first. */
  lemma RunLeavesList<C>(before: State<C>, item: Item<C>)
    ensures multiset(NewlyRun(before, item)) + multiset(Pushed(before, item).list)
         == multiset(before.list) + multiset{item}
  {
    PushConserves(before, item);
    var after, run := Pushed(before, item), NewlyRun(before, item);
    var taken := multiset(run) + multiset(after.list);
    assert multiset(after.ran) == multiset(before.ran) + multiset(run) by { assert after.ran == before.ran + run; }
    assert multiset(before.ran) + taken == multiset(after.ran) + multiset(after.list);
    assert multiset(before.ran) + multiset(before.list) + multiset{item}
        == multiset(before.ran) + (multiset(before.list) + multiset{item});
    Cancelled(multiset(before.ran), taken, multiset(before.list) + multiset{item});
  }

  lemma {:induction false} ReceiveConserves<C>(arrivals: seq<Item<C>>)
    ensures multiset(Received(arrivals).ran) + multiset(Received(arrivals).list) == multiset(arrivals)
  {
    if arrivals != [] {
      var n := |arrivals| - 1;
      assert arrivals == arrivals[..n] + [arrivals[n]];
      ReceiveConserves(arrivals[..n]);
      PushConserves(Received(arrivals[..n]), arrivals[n]);
    }
  }

  lemma {:induction false} ConsumeInOrder<C>(st: State<C>)
    requires |st.ran| == st.next && forall i | 0 <= i < |st.ran| :: st.ran[i].serial == i
    requires Ascending(st.list) && forall i | 0 <= i < |st.list| :: st.next <= st.list[i].serial
    ensures InOrder(Consumed(st))
    decreases |st.list|
  {
    if st.list != [] && st.list[0].serial == st.next {
      ConsumeInOrder(State(st.next + 1, st.list[1..], st.ran + [st.list[0]]));
    }
  }

  lemma PushInOrder<C>(st: State<C>, item: Item<C>)
    requires InOrder(st) && st.next <= item.serial
    requires forall i | 0 <= i < |st.list| :: st.list[i].serial != item.serial
    ensures InOrder(Pushed(st, item))
  {
    if item.serial == st.next {
      ConsumeInOrder(State(st.next + 1, st.list, st.ran + [item]));
    } else {
      InsertAscends(st.list, item);
      forall x | x in Inserted(st.list, item) ensures st.next < x.serial {
      }
    }
  }

  /** Every arrival is in the log or still waits, and nothing else is. */
  lemma ArrivedOnce<C>(arrivals: seq<Item<C>>, item: Item<C>)
    ensures item in arrivals <==> item in Received(arrivals).ran || item in Received(arrivals).list
  {
    ReceiveConserves(arrivals);
    assert item in arrivals <==> item in multiset(arrivals);
    assert item in Received(arrivals).ran <==> item in multiset(Received(arrivals).ran);
    assert item in Received(arrivals).list <==> item in multiset(Received(arrivals).list);
  }

  lemma {:induction false} DistinctGivesOrder<C>(arrivals: seq<Item<C>>)
    requires Distinct(arrivals)
    ensures InOrder(Received(arrivals))
  {
    if arrivals != [] {
      var n := |arrivals| - 1;
      var before, item := Received(arrivals[..n]), arrivals[n];
      DistinctGivesOrder(arrivals[..n]);
      if item.serial < before.next {
        ArrivedOnce(arrivals[..n], before.ran[item.serial]);
        assert false;
      }
      forall i | 0 <= i < |before.list| ensures before.list[i].serial != item.serial {
        ArrivedOnce(arrivals[..n], before.list[i]);
      }
      PushInOrder(before, item);
    }
  }

  lemma {:induction false} CountedOnce<C>(items: seq<Item<C>>, x: Item<C>)
    requires Distinct(items)
    ensures multiset(items)[x] <= 1
  {
    if items != [] {
      assert items == [items[0]] + items[1..];
      CountedOnce(items[1..], x);
      assert items[0] !in items[1..];
    }
  }

  lemma CountedTwice<C>(items: seq<Item<C>>, i: nat, j: nat)
    requires i < j < |items| && items[i] == items[j]
    ensures multiset(items)[items[i]] >= 2
  {
    assert items == items[..j] + items[j..];
    assert items[..j][i] in multiset(items[..j]) && items[j..][0] in multiset(items[j..]);
  }

  /** Distinctness is a property of the multiset of items. */
  lemma DistinctPermutes<C>(a: seq<Item<C>>, b: seq<Item<C>>)
    requires Distinct(a) && multiset(a) == multiset(b)
    ensures Distinct(b)
  {
    forall i, j | 0 <= i < j < |b| ensures b[i].serial != b[j].serial {
      if b[i] == b[j] {
        CountedOnce(a, b[i]);
        CountedTwice(b, i, j);
      } else {
        assert b[i] in multiset(a) && b[j] in multiset(a);
        var k :| 0 <= k < |a| && a[k] == b[i];
        var l :| 0 <= l < |a| && a[l] == b[j];
      }
    }
  }

  /** The promise is kept for an arrival sequence if and only if no serial arrives twice. */
  lemma InOrderIffDistinct<C>(arrivals: seq<Item<C>>)
    ensures InOrder(Received(arrivals)) <==> Distinct(arrivals)
  {
    var st := Received(arrivals);
    if Distinct(arrivals) {
      DistinctGivesOrder(arrivals);
    } else if InOrder(st) {
      ReceiveConserves(arrivals);
      DistinctPermutes(st.ran + st.list, arrivals);
    }
  }

  /** next is the least serial that has not arrived. */
  lemma NextIsLeastMissing<C>(arrivals: seq<Item<C>>, serial: nat)
    requires Distinct(arrivals)
    ensures var next := Received(arrivals).next;
            && (serial < next ==> exists i :: 0 <= i < |arrivals| && arrivals[i].serial == serial)
            && (serial == next ==> forall i | 0 <= i < |arrivals| :: arrivals[i].serial != serial)
  {
    DistinctGivesOrder(arrivals);
    var st := Received(arrivals);
    if serial < st.next {
      ArrivedOnce(arrivals, st.ran[serial]);
    } else {
      forall i | 0 <= i < |arrivals| && arrivals[i].serial == st.next ensures false {
        ArrivedOnce(arrivals, arrivals[i]);
      }
    }
  }

  lemma EmptyWithoutMembers<C>(items: seq<Item<C>>)
    ensures items == [] || exists x :: x in items
  {
    assert items == [] || items[0] in items;
  }

  lemma {:induction false} AscendingUnique<C>(a: seq<Item<C>>, b: seq<Item<C>>)
    requires Ascending(a) && Ascending(b) && forall x :: x in a <==> x in b
    ensures a == b
  {
    EmptyWithoutMembers(a);
    EmptyWithoutMembers(b);
    if a != [] && b != [] {
      assert a[0] in b && b[0] in a;
      assert a[0] == b[0];
      forall x ensures x in a[1..] <==> x in b[1..] {
        assert x in a <==> x == a[0] || x in a[1..];
        assert x in b <==> x == b[0] || x in b[1..];
        assert a[0] !in a[1..] && b[0] !in b[1..];
      }
      AscendingUnique(a[1..], b[1..]);
      assert a == [a[0]] + a[1..] && b == [b[0]] + b[1..];
    }
  }

  predicate Holds<C(==)>(st: State<C>, x: Item<C>) {
    x in st.ran || x in st.list
  }

  lemma SameNext<C>(a: State<C>, b: State<C>)
    requires InOrder(a) && InOrder(b)
    ensures b.next < a.next ==> exists x :: Holds(a, x) && !Holds(b, x)
  {
    if b.next < a.next {
      assert Holds(a, a.ran[b.next]) && !Holds(b, a.ran[b.next]);
    }
  }

  /** An ordered state is determined by the items it holds. */
  lemma InOrderUnique<C>(a: State<C>, b: State<C>)
    requires InOrder(a) && InOrder(b) && forall x :: Holds(a, x) <==> Holds(b, x)
    ensures a == b
  {
    SameNext(a, b);
    SameNext(b, a);
    forall i | 0 <= i < a.next ensures a.ran[i] == b.ran[i] {
      assert Holds(a, a.ran[i]);
    }
    forall x ensures x in a.list <==> x in b.list {
      assert Holds(a, x) <==> Holds(b, x);
    }
    AscendingUnique(a.list, b.list);
  }

  /** The state depends on the set of arrivals only, never on the order the network chose. */
  lemma OrderOfArrivalIrrelevant<C>(xs: seq<Item<C>>, ys: seq<Item<C>>)
    requires Distinct(xs) && multiset(xs) == multiset(ys)
    ensures Received(xs) == Received(ys)
  {
    DistinctPermutes(xs, ys);
    DistinctGivesOrder(xs);
    DistinctGivesOrder(ys);
    forall x ensures Holds(Received(xs), x) <==> Holds(Received(ys), x) {
      ArrivedOnce(xs, x);
      ArrivedOnce(ys, x);
      assert x in xs <==> x in multiset(xs);
      assert x in ys <==> x in multiset(ys);
    }
    InOrderUnique(Received(xs), Received(ys));
  }

  /** Commands whose serials all stay above zero are never run by a fresh queue. */
  lemma {:induction false} NothingRunsWithoutSerialZero<C>(arrivals: seq<Item<C>>)
    requires forall i | 0 <= i < |arrivals| :: arrivals[i].serial > 0
    ensures Received(arrivals).ran == [] && Received(arrivals).next == 0
  {
    if arrivals != [] {
      NothingRunsWithoutSerialZero(arrivals[..|arrivals| - 1]);
    }
  }

  lemma {:induction false} InsertKeepsSmallerFront<C>(list: seq<Item<C>>, item: Item<C>)
    requires list != [] && list[0].serial <= item.serial
    ensures Inserted(list, item)[..1] == list[..1]
  {
    if item.serial < list[|list| - 1].serial {
      InsertKeepsSmallerFront(list[..|list| - 1], item);
    }
  }

  /** How a repeated serial breaks the queue: once it is the front of the list, the front never moves again. */
  lemma StuckFrontStays<C>(st: State<C>, item: Item<C>)
    requires st.list != [] && st.list[0].serial < st.next
    ensures var st' := Pushed(st, item);
            st'.list != [] && st'.list[0] == st.list[0] && st'.list[0].serial < st'.next
  {
    if st.next < item.serial {
      InsertKeepsSmallerFront(st.list, item);
      assert Inserted(st.list, item)[..1][0] == st.list[..1][0];
    }
  }
}
