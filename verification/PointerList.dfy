/**
 The circular doubly linked list of list.c, on the heap.  A list of n items is a ring of
 n + 1 nodes, node 0 being the end marker; every method changes pointers as the source
 does and is tied to the sequence operations of module `Lists`.
 */
module PointerList {
  import opened Sequences
  import opened Ticks
  import L = Lists

  class ListItem {
    var value: Tick
    var next: ListItem
    var prev: ListItem
    var container: RingList?

    /** `vListInitialiseItem`; the source leaves the links of a free item unset. */
    constructor (value: Tick)
      ensures this.value == value && container == null && next == this && prev == this
    {
      this.value, container, next, prev := value, null, this, this;
    }
  }

  function After(i: nat, n: nat): nat {
    if i + 1 < n then i + 1 else 0
  }

  function Before(i: nat, n: nat): nat {
    if i == 0 && n > 0 then n - 1 else if i == 0 then 0 else i - 1
  }

  /** The nodes are linked in this order, both ways and round. */
  ghost predicate Ring(q: seq<ListItem>)
    reads q
  {
    && |q| > 0
    && (forall i {:trigger q[i].next} :: 0 <= i < |q| ==> q[i].next == q[After(i, |q|)])
    && (forall i {:trigger q[i].prev} :: 0 <= i < |q| ==> q[i].prev == q[Before(i, |q|)])
  }

  /** The entries of the nodes behind the end marker. */
  ghost function Entries(q: seq<ListItem>): (s: seq<L.Entry<ListItem>>)
    requires |q| > 0
    reads q
    ensures |s| == |q| - 1
    ensures forall i {:trigger s[i]} :: 0 <= i < |s| ==> s[i] == L.Entry(q[i + 1], q[i + 1].value)
  {
    seq(|q| - 1, i requires 0 <= i < |q| - 1 reads q => L.Entry(q[i + 1], q[i + 1].value))
  }

  class RingList {
    const end: ListItem
    var index: ListItem
    var count: nat
    ghost var nodes: seq<ListItem>  // the ring from the end marker on
    ghost var at: nat               // which node the index is on

    ghost predicate Valid()
      reads this, nodes
    {
      && |nodes| == count + 1
      && nodes[0] == end
      && at < |nodes| && nodes[at] == index
      && Distinct(nodes)
      && Ring(nodes)
      && (forall i :: 0 < i < |nodes| ==> nodes[i].container == this)
      && end.container == null && end.value == MAX_DELAY
    }

    /** The sequence this ring stands for. */
    ghost function Contents(): (l: L.List<ListItem>)
      requires |nodes| > 0
      reads this, nodes
    {
      L.List(Entries(nodes), at)
    }

    /** `vListInitialise`. */
    constructor ()
      ensures Valid() && Contents() == L.Empty() && fresh(end)
    {
      var e := new ListItem(MAX_DELAY);
      end, index, count := e, e, 0;
      nodes, at := [e], 0;
      new;
      assert end.value == MAX_DELAY;
    }

    /** Put an item behind node k: four pointer writes, the container and the count. */
    method Link(before: ListItem, item: ListItem, ghost k: nat)
      requires Valid() && k < |nodes| && nodes[k] == before && item !in nodes
      modifies this, nodes, item
      ensures Valid() && item in nodes
      ensures Contents() == L.InsertAt(old(Contents()), k, L.Entry(item, old(item.value)))
    {
      hide Entries, PutBehind, L.InsertAt, Ring, Distinct;
      ghost var s := Contents();
      ghost var was, q := nodes, PutBehind(nodes, k, item);
      Splice(before, item, was, k);
      count := count + 1;
      nodes := q;
      at := if k < at then at + 1 else at;
      assert q[k + 1] == item;
      EntriesSpliced(was, k, item, q, s);
    }

    method Splice(before: ListItem, item: ListItem, ghost was: seq<ListItem>, ghost k: nat)
      requires Ring(was) && Distinct(was)
      requires k < |was| && was[k] == before && item !in was
      modifies was`next, was`prev, item`next, item`prev, item`container
      ensures item.container == this
      ensures Ring(PutBehind(was, k, item)) && Distinct(PutBehind(was, k, item))
    {
      hide PutBehind;
      assert before.next == was[After(k, |was|)];
      item.next := before.next;
      item.prev := before;
      before.next.prev := item;
      before.next := item;
      item.container := this;
      SpliceDistinct(was, k, item, PutBehind(was, k, item));
      SpliceRing(was, k, item, PutBehind(was, k, item));
    }

    /** `vListInsert`: stable sorted insertion.  The walk stops at the end marker at the
        latest, because its value is larger than any value that gets this far. */
    method Insert(item: ListItem)
      requires Valid() && item !in nodes
      modifies this, nodes, item
      ensures Valid() && item in nodes
      ensures Contents() == L.Insert(old(Contents()), L.Entry(item, old(item.value)))
    {
      var it := end;
      ghost var k := 0;
      ghost var s := Contents().entries;
      if item.value == MAX_DELAY {
        it, k := end.prev, count;
      } else {
        while it.next.value <= item.value
          invariant k <= count && nodes[k] == it
          invariant forall i :: 0 <= i < k ==> s[i].value <= item.value
          decreases count - k
        {
          it, k := it.next, k + 1;
        }
      }
      PositionIs(s, item.value, k);
      Link(it, item, k);
    }

    /** `vListInsertEnd`: in front of the node the index is on. */
    method InsertEnd(item: ListItem)
      requires Valid() && item !in nodes
      modifies this, nodes, item
      ensures Valid() && item in nodes
      ensures Contents() == L.InsertEnd(old(Contents()), L.Entry(item, old(item.value)))
    {
      Link(index.prev, item, if at == 0 then count else at - 1);
    }

    /** `uxListRemove` of an item of this list. */
    method Remove(item: ListItem, ghost k: nat) returns (left: nat)
      requires Valid() && k < count && nodes[k + 1] == item
      modifies this, nodes
      ensures Valid() && item !in nodes && item.container == null
      ensures Contents() == L.RemoveAt(old(Contents()), k)
      ensures left == |Contents().entries|
    {
      hide Entries, CutOut, L.RemoveAt, Ring, Distinct;
      ghost var s := Contents();
      ghost var was, q := nodes, CutOut(nodes, k + 1);
      Unsplice(item, was, k + 1);
      if index == item {
        index := item.prev;
      }
      at := if k < at then at - 1 else at;
      assert q[0] == end && q[at] == index;
      item.container := null;
      count := count - 1;
      left := count;
      nodes := q;
      forall i | 0 < i < |q|
        ensures q[i].container == this
      {
        assert q[i] == was[if i < k + 1 then i else i + 1];
      }
      EntriesCut(was, k + 1, q, s);
    }

    static method Unsplice(item: ListItem, ghost was: seq<ListItem>, ghost k: nat)
      requires Ring(was) && Distinct(was)
      requires 0 < k < |was| && was[k] == item
      modifies was`next, was`prev
      ensures Ring(CutOut(was, k)) && Distinct(CutOut(was, k)) && item !in CutOut(was, k)
      ensures item.prev == was[k - 1]
      ensures forall i :: 0 <= i < |was| && was[i] == item ==> i == k
    {
      hide CutOut;
      assert item.next == was[After(k, |was|)] && item.prev == was[k - 1];
      item.next.prev := item.prev;
      item.prev.next := item.next;
      CutDistinct(was, k, CutOut(was, k));
      CutRing(was, k, CutOut(was, k));
    }

    /** `listGET_OWNER_OF_NEXT_ENTRY`. */
    method Next() returns (item: ListItem)
      requires Valid() && count > 0
      modifies this`index, this`at
      ensures Valid() && nodes == old(nodes)
      ensures Contents() == L.Next(old(Contents()))
      ensures item == index && [item] == L.Visits(old(Contents()), 1)
    {
      ghost var was := Contents();
      index := index.next;
      at := if at + 1 < |nodes| then at + 1 else 0;
      if index == end {
        index := index.next;
        at := 1;
      }
      item := index;
      assert Contents() == L.Next(was);
      assert L.Visits(L.Next(was), 0) == [];
    }
  }

  /** q is `was` with `item` put behind node k. */
  ghost predicate IsSplice(was: seq<ListItem>, k: nat, item: ListItem, q: seq<ListItem>)
    requires k < |was|
  {
    && |q| == |was| + 1
    && (forall i {:trigger q[i]} :: 0 <= i < |q| ==>
          q[i] == if i <= k then was[i] else if i == k + 1 then item else was[i - 1])
  }

  ghost function PutBehind(was: seq<ListItem>, k: nat, item: ListItem): (q: seq<ListItem>)
    requires k < |was|
    ensures IsSplice(was, k, item, q)
  {
    was[..k + 1] + [item] + was[k + 1..]
  }

  lemma EntriesSpliced(was: seq<ListItem>, k: nat, item: ListItem, q: seq<ListItem>, l: L.List<ListItem>)
    requires k < |was| && IsSplice(was, k, item, q) && l.entries == Entries(was)
    ensures var r := L.InsertAt(l, k, L.Entry(item, item.value));
            Entries(q) == r.entries && r.index == if k < l.index then l.index + 1 else l.index
  {
    hide Entries;
  }

  lemma SpliceDistinct(was: seq<ListItem>, k: nat, item: ListItem, q: seq<ListItem>)
    requires k < |was| && item !in was && Distinct(was) && IsSplice(was, k, item, q)
    ensures Distinct(q)
  {
    assert forall i :: 0 <= i < |was| ==> was[i] in was;
  }

  lemma SpliceRing(was: seq<ListItem>, k: nat, item: ListItem, q: seq<ListItem>)
    requires k < |was| && IsSplice(was, k, item, q)
    requires was[k].next == item && item.prev == was[k]
    requires item.next == was[After(k, |was|)] && item.next.prev == item
    requires forall i {:trigger was[i].next} :: 0 <= i < |was| && i != k ==> was[i].next == was[After(i, |was|)]
    requires forall i {:trigger was[i].prev} :: 0 <= i < |was| && i != After(k, |was|) ==>
                was[i].prev == was[Before(i, |was|)]
    ensures Ring(q)
  {
    forall i | 0 <= i < |q|
      ensures q[i].next == q[After(i, |q|)] && q[i].prev == q[Before(i, |q|)]
    {
      if i <= k {
        assert q[i] == was[i];
      } else if i > k + 1 {
        assert q[i] == was[i - 1];
      }
    }
  }

  /** q is `was` without node k. */
  ghost predicate IsCut(was: seq<ListItem>, k: nat, q: seq<ListItem>)
    requires k < |was|
  {
    && |q| == |was| - 1
    && (forall i {:trigger q[i]} :: 0 <= i < |q| ==> q[i] == was[if i < k then i else i + 1])
  }

  ghost function CutOut(was: seq<ListItem>, k: nat): (q: seq<ListItem>)
    requires k < |was|
    ensures IsCut(was, k, q)
  {
    was[..k] + was[k + 1..]
  }

  lemma EntriesCut(was: seq<ListItem>, k: nat, q: seq<ListItem>, l: L.List<ListItem>)
    requires 0 < k < |was| && IsCut(was, k, q) && l.entries == Entries(was)
    ensures var r := L.RemoveAt(l, k - 1);
            Entries(q) == r.entries && r.index == if k - 1 < l.index then l.index - 1 else l.index
  {
    hide Entries;
  }

  lemma CutDistinct(was: seq<ListItem>, k: nat, q: seq<ListItem>)
    requires k < |was| && Distinct(was) && IsCut(was, k, q)
    ensures Distinct(q) && was[k] !in q
  {
  }

  lemma CutRing(was: seq<ListItem>, k: nat, q: seq<ListItem>)
    requires 0 < k < |was| && IsCut(was, k, q)
    requires was[k - 1].next == was[After(k, |was|)] && was[After(k, |was|)].prev == was[k - 1]
    requires forall i {:trigger was[i].next} :: 0 <= i < |was| && i != k - 1 ==> was[i].next == was[After(i, |was|)]
    requires forall i {:trigger was[i].prev} :: 0 <= i < |was| && i != After(k, |was|) ==>
                was[i].prev == was[Before(i, |was|)]
    ensures Ring(q)
  {
    forall i | 0 <= i < |q|
      ensures q[i].next == q[After(i, |q|)] && q[i].prev == q[Before(i, |q|)]
    {
      if i < k {
        assert q[i] == was[i];
      } else {
        assert q[i] == was[i + 1];
      }
    }
  }

  /** A prefix of entries that are not larger, ending the list or in front of a larger one,
      is the insertion point. */
  lemma {:induction false} PositionIs(s: seq<L.Entry<ListItem>>, value: nat, k: nat)
    requires k <= |s|
    requires forall i :: 0 <= i < k ==> s[i].value <= value
    requires k < |s| ==> value < s[k].value
    ensures L.Position(s, value) == k
  {
    if k > 0 {
      PositionIs(s[1..], value, k - 1);
    }
  }
}
