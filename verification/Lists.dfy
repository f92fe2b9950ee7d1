/**
 The value model of `List_t`: the entries from the one after the end marker
 round to the one before it, and where `pxIndex` points.  Index 0 is the end
 marker; index i > 0 is entry i - 1.
 */
module Lists {
  import opened Sequences

  datatype Entry<T> = Entry(owner: T, value: nat)

  datatype List<T> = List(entries: seq<Entry<T>>, index: nat)

  const EMPTY_INDEX: nat := 0

  function Empty<T>(): List<T> {
    List([], EMPTY_INDEX)
  }

  ghost predicate Valid<T>(l: List<T>) {
    && l.index <= |l.entries|
    && NoDup(l.entries)
  }

  /** No owner has two entries. */
  ghost predicate NoDup<T>(s: seq<Entry<T>>) {
    forall i, j :: 0 <= i < j < |s| ==> s[i].owner != s[j].owner
  }

  ghost predicate Sorted<T>(s: seq<Entry<T>>) {
    forall i, j :: 0 <= i < j < |s| ==> s[i].value <= s[j].value
  }

  ghost predicate Has<T>(s: seq<Entry<T>>, t: T) {
    exists e :: e in s && e.owner == t
  }

  /** Where a stable sorted insertion of `value` goes: after every entry that is
      not larger. */
  function Position<T>(s: seq<Entry<T>>, value: nat): (k: nat)
    ensures k <= |s|
    ensures forall i :: 0 <= i < k ==> s[i].value <= value
    ensures k < |s| ==> value < s[k].value
  {
    if s != [] && s[0].value <= value then 1 + Position(s[1..], value) else 0
  }

  function InsertAt<T>(l: List<T>, k: nat, e: Entry<T>): List<T>
    requires k <= |l.entries|
  {
    List(l.entries[..k] + [e] + l.entries[k..], if k < l.index then l.index + 1 else l.index)
  }

  /** `vListInsert`. */
  function Insert<T>(l: List<T>, e: Entry<T>): List<T> {
    InsertAt(l, Position(l.entries, e.value), e)
  }

  /** `vListInsertEnd`: just before the index, which is the very end only while
      the index is on the end marker. */
  function InsertEnd<T>(l: List<T>, e: Entry<T>): List<T> {
    if l.index == 0 || |l.entries| < l.index then List(l.entries + [e], 0) else InsertAt(l, l.index - 1, e)
  }

  /** `uxListRemove` of entry k; an index on that entry steps back. */
  function RemoveAt<T>(l: List<T>, k: nat): List<T>
    requires k < |l.entries|
  {
    List(l.entries[..k] + l.entries[k + 1..], if k < l.index then l.index - 1 else l.index)
  }

  function Find<T(==)>(s: seq<Entry<T>>, t: T): (k: nat)
    ensures k <= |s|
    ensures forall i :: 0 <= i < k ==> s[i].owner != t
    ensures k < |s| ==> s[k].owner == t
  {
    if s == [] || s[0].owner == t then 0 else 1 + Find(s[1..], t)
  }

  function Remove<T(==)>(l: List<T>, t: T): List<T> {
    var k := Find(l.entries, t);
    if k < |l.entries| then RemoveAt(l, k) else l
  }

  /** `listGET_OWNER_OF_NEXT_ENTRY`: step the index, skipping the end marker. */
  function Next<T>(l: List<T>): List<T>
    requires l.entries != []
  {
    List(l.entries, if l.index < |l.entries| then l.index + 1 else 1)
  }

  /** The owners the next n traversal steps return. */
  function Visits<T>(l: List<T>, n: nat): (r: seq<T>)
    requires n == 0 || l.entries != []
    requires l.index <= |l.entries|
    ensures |r| == n
    decreases n
  {
    if n == 0 then [] else
    var m := Next(l);
    [m.entries[m.index - 1].owner] + Visits(m, n - 1)
  }

  function Owners<T>(s: seq<Entry<T>>): (r: seq<T>)
    ensures |r| == |s|
    ensures forall i :: 0 <= i < |s| ==> r[i] == s[i].owner
  {
    seq(|s|, i requires 0 <= i < |s| => s[i].owner)
  }

  lemma InsertAtKeeps<T>(l: List<T>, k: nat, e: Entry<T>)
    requires Valid(l) && k <= |l.entries| && !Has(l.entries, e.owner)
    ensures Valid(InsertAt(l, k, e))
    ensures forall x :: x in InsertAt(l, k, e).entries <==> x in l.entries || x == e
  {
    var s := l.entries;
    assert s == s[..k] + s[k..];
    assert forall x :: x in s <==> x in s[..k] || x in s[k..];
    InsertNoDup(s, k, e);
  }

  lemma InsertNoDup<T>(s: seq<Entry<T>>, k: nat, e: Entry<T>)
    requires NoDup(s) && k <= |s| && !Has(s, e.owner)
    ensures NoDup(s[..k] + [e] + s[k..])
  {
    var r := s[..k] + [e] + s[k..];
    forall i, j | 0 <= i < j < |r|
      ensures r[i].owner != r[j].owner
    {
      assert forall i :: 0 <= i < |s| ==> s[i] in s;
      assert r[i] == if i < k then s[i] else if i == k then e else s[i - 1];
      assert r[j] == if j < k then s[j] else if j == k then e else s[j - 1];
    }
  }

  /** Insertion keeps the list sorted and everything already there in order. */
  lemma InsertKeeps<T>(l: List<T>, e: Entry<T>)
    requires Valid(l) && Sorted(l.entries) && !Has(l.entries, e.owner)
    ensures Valid(Insert(l, e)) && Sorted(Insert(l, e).entries)
    ensures forall x :: x in Insert(l, e).entries <==> x in l.entries || x == e
  {
    hide Has;
    InsertAtKeeps(l, Position(l.entries, e.value), e);
  }

  lemma InsertEndKeeps<T>(l: List<T>, e: Entry<T>)
    requires Valid(l) && !Has(l.entries, e.owner)
    ensures Valid(InsertEnd(l, e))
    ensures forall x :: x in InsertEnd(l, e).entries <==> x in l.entries || x == e
  {
    var k := if l.index == 0 then |l.entries| else l.index - 1;
    InsertAtKeeps(l, k, e);
    assert InsertEnd(l, e) == InsertAt(l, k, e);
  }

  lemma RemoveValid<T>(l: List<T>, t: T)
    requires Valid(l)
    ensures Valid(Remove(l, t))
  {
    var s, r, k := l.entries, Remove(l, t).entries, Find(l.entries, t);
    if k < |s| {
      assert forall i :: 0 <= i < |r| ==> r[i] == s[if i < k then i else i + 1];
    }
  }

  lemma RemoveSorted<T>(l: List<T>, t: T)
    requires Sorted(l.entries)
    ensures Sorted(Remove(l, t).entries)
  {
    var s, r, k := l.entries, Remove(l, t).entries, Find(l.entries, t);
    if k < |s| {
      assert forall i :: 0 <= i < |r| ==> r[i] == s[if i < k then i else i + 1];
    }
  }

  lemma RemoveEntries<T>(l: List<T>, t: T)
    requires Valid(l)
    ensures forall x :: x in Remove(l, t).entries <==> x in l.entries && x.owner != t
  {
    var s, k := l.entries, Find(l.entries, t);
    if k < |s| {
      CutMembers(s, k);
      OthersDiffer(s, k);
    }
  }

  lemma OthersDiffer<T>(s: seq<Entry<T>>, k: nat)
    requires NoDup(s) && k < |s|
    ensures forall x :: x in s[..k] || x in s[k + 1..] ==> x.owner != s[k].owner
  {
  }

  /** The entries in the order a traversal meets them. */
  function Rotation<T>(l: List<T>): (r: seq<Entry<T>>)
    requires l.index <= |l.entries|
    ensures |r| == |l.entries|
  {
    l.entries[l.index..] + l.entries[..l.index]
  }

  /** n steps over n entries visit every entry once, starting after the index and
      ending on it. */
  lemma VisitsRotate<T>(l: List<T>)
    requires Valid(l)
    ensures Visits(l, |l.entries|) == Owners(Rotation(l))
  {
    forall j | 0 <= j < |l.entries|
      ensures Visits(l, |l.entries|)[j] == Owners(Rotation(l))[j]
    {
      VisitAt(l, |l.entries|, j);
    }
  }

  lemma {:induction false} VisitAt<T>(l: List<T>, n: nat, j: nat)
    requires Valid(l) && j < n && j < |l.entries|
    ensures Visits(l, n)[j] == Rotation(l)[j].owner
    decreases j
  {
    var m := Next(l);
    if j > 0 {
      VisitAt(m, n - 1, j - 1);
    }
  }

  /** One full round of the list: everything after the index, then up to it. */
  ghost function Round<T>(l: List<T>): seq<T>
    requires Valid(l)
  {
    Visits(l, |l.entries|)
  }

  lemma RotationAppended<T>(l: List<T>, e: Entry<T>)
    requires l.index <= |l.entries|
    ensures InsertEnd(l, e).index <= |InsertEnd(l, e).entries|
    ensures l.index == 0 ==> Rotation(InsertEnd(l, e)) == Rotation(l) + [e]
    ensures l.index > 0 ==>
              var n, r := |l.entries|, Rotation(l);
              Rotation(InsertEnd(l, e)) == r[..n - 1] + [e] + r[n - 1..]
  {
    var s, i := l.entries, l.index;
    if i > 0 {
      var t := InsertEnd(l, e).entries;
      assert t[i + 1..] == s[i..];
      assert t[..i + 1] == s[..i - 1] + [e] + s[i - 1..i];
    }
  }

  lemma OwnersConcat<T>(a: seq<Entry<T>>, b: seq<Entry<T>>)
    ensures Owners(a + b) == Owners(a) + Owners(b)
  {
  }

  /** Where a newly appended entry comes in the round: last if the index was on the
      end marker, otherwise last but one, in front of the entry visited most
      recently. */
  lemma AppendedVisit<T>(l: List<T>, e: Entry<T>)
    requires Valid(l) && !Has(l.entries, e.owner)
    ensures Valid(InsertEnd(l, e)) && |Round(l)| == |l.entries|
    ensures l.index == 0 ==> Round(InsertEnd(l, e)) == Round(l) + [e.owner]
    ensures l.index > 0 ==>
              var n := |l.entries|;
              Round(InsertEnd(l, e)) == Round(l)[..n - 1] + [e.owner] + Round(l)[n - 1..]
  {
    hide NoDup, InsertEnd;
    var n, r := |l.entries|, Rotation(l);
    InsertEndKeeps(l, e);
    VisitsRotate(l);
    VisitsRotate(InsertEnd(l, e));
    RotationAppended(l, e);
    assert Owners([e]) == [e.owner];
    if l.index == 0 {
      OwnersConcat(r, [e]);
    } else {
      OwnersConcat(r[..n - 1] + [e], r[n - 1..]);
      OwnersConcat(r[..n - 1], [e]);
      assert r[..n - 1] + r[n - 1..] == r;
      OwnersConcat(r[..n - 1], r[n - 1..]);
    }
  }

  /** So a newcomer is the last visited exactly when the index is on the end marker. */
  lemma AppendedLast<T>(l: List<T>, e: Entry<T>)
    requires Valid(l) && !Has(l.entries, e.owner)
    ensures Valid(InsertEnd(l, e))
    ensures Round(InsertEnd(l, e))[|l.entries|] == e.owner <==> l.index == 0
  {
    AppendedVisit(l, e);
    VisitsRotate(l);
    if l.index > 0 {
      assert Round(l)[|l.entries| - 1] == l.entries[l.index - 1].owner;
    }
  }

  /** An entry the index is on keeps a newcomer from being visited last. */
  lemma AppendedIsNotAlwaysLast()
    ensures var l := Next(InsertEnd(Empty(), Entry(0, 0)));
            Visits(InsertEnd(l, Entry(1, 0)), 2) == [1, 0]
  {
    var l := Next(InsertEnd(Empty(), Entry(0, 0)));
    assert l == List([Entry(0, 0)], 1);
    var m := InsertEnd(l, Entry(1, 0));
    assert m == List([Entry(1, 0), Entry(0, 0)], 2);
    assert Next(m).index == 1 && Next(Next(m)).index == 2;
    assert Visits(Next(Next(m)), 0) == [];
    assert Visits(Next(m), 1) == [0];
  }
}
