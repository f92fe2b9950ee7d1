/**
 Choosing the next task, and listing all of them.
 */
module KernelSelection {
  import opened Sequences
  import opened Lists
  import opened Kernel
  import opened KernelInvariants
  import opened KernelRuns

  // ---- the port-optimised selection refines the generic one ------------------------------

  lemma {:induction false} HighestBitIs(top: set<nat>, n: nat, p: nat)
    requires p < n && p in top && forall q :: p < q < n ==> q !in top
    ensures HighestBit(top, n) == p
  {
    if n - 1 != p {
      HighestBitIs(top, n - 1, p);
    }
  }

  lemma {:induction false} ScanDownIs(lists: StateLists, from: Priority)
    ensures var p := ScanDown(lists, from);
            && p <= from
            && (forall q :: p < q <= from ==> lists[q].entries == [])
            && ((exists q :: 0 <= q <= from && lists[q].entries != []) ==> lists[p].entries != [])
  {
    if lists[from].entries == [] && from > 0 {
      ScanDownIs(lists, from - 1);
    }
  }

  /** While any task is ready, the highest one bit names the list the downward scan finds:
      the highest priority with a ready task. */
  lemma FastSelectionIsTheScan(s: State)
    requires TopExact(s.lists, s.top)
    requires exists q: nat :: q < PRIORITIES && s.lists[q].entries != []
    ensures var p := HighestBit(s.top, PRIORITIES);
            && p < PRIORITIES && p == ScanDown(s.lists, 31)
            && s.lists[p].entries != []
            && (forall q :: p < q < PRIORITIES ==> s.lists[q].entries == [])
  {
    ScanDownIs(s.lists, 31);
    HighestBitIs(s.top, PRIORITIES, ScanDown(s.lists, 31));
  }

  /** In every run the switch picks a task of the highest ready priority, and moves on round
      that ready list. */
  lemma SwitchPicksHighest(s: State, steps: seq<Step>)
    requires Inv(s) && CanRun(s, steps)
    requires var r := Run(s, steps); r.locks == 0 && exists t :: IsReady(r, t)
    ensures var r := Run(s, steps);
            var next := SwitchContext(r).running;
            && Inv(r) && IsReady(r, next)
            && (forall t :: IsReady(r, t) ==> PrioOf(r, t) <= PrioOf(r, next))
            && r.lists[PrioOf(r, next)].entries != []
            && next == Visits(r.lists[PrioOf(r, next)], 1)[0]
  {
    hide Apply;
    RunKeeps(s, steps);
    var r := Run(s, steps);
    forall t | IsReady(r, t)
      ensures r.lists[PrioOf(r, t)].entries != []
    {
      assert Has(r.lists[r.home[t]].entries, t);
    }
    FastSelectionIsTheScan(r);
    var p := HighestBit(r.top, PRIORITIES);
    var l := Next(r.lists[p]);
    assert l.entries[l.index - 1] in r.lists[p].entries;
    assert Visits(r.lists[p], 1) == [l.entries[l.index - 1].owner] + Visits(l, 0);
  }

  // ---- the bit cleared after a timed-out mutex wait ---------------------------------------

  /** `vTaskPriorityDisinheritAfterTimeout` clears the bit of the new priority.  When it
      moves a ready holder, the bitmap stays right exactly if the holder was not alone in
      its ready list. */
  lemma DisinheritBitExactly(s: State, t: Task, base: Priority, highest: Priority)
    requires Inv(s) && IsReady(s, t)
    requires PrioOf(s, t) != if base < highest then highest else base
    ensures var r := DisinheritAfterTimeout(s, t, base, 1, highest);
            TopExact(r.lists, r.top) <==> |s.lists[PrioOf(s, t)].entries| > 1
  {
    hide Timely, Events, Counted, Linked, Placed, Remove, InsertEnd, Unlink;
    var use := if base < highest then highest else base;
    var p := PrioOf(s, t);
    var u := UnlinkAndReset(s, t, use);
    RemoveOne(s, t);
    var v := u.(prio := s.prio[t := use]);
    AddReadyTopOnly(v, t);
    assert p in AddReady(v, t).top;
  }

  /** So a timed-out wait keeps the scheduler's invariant exactly where it does not leave the
      holder's old ready list empty. */
  lemma DisinheritKeepsExactly(s: State, t: Task, base: Priority, held: nat, highest: Priority)
    requires Inv(s) && Live(s, t)
    ensures Inv(DisinheritAfterTimeout(s, t, base, held, highest)) <==> !SpoilsBitmap(s, t, base, held, highest)
  {
    hide Linked, TopExact, Placed, Counted, Events, OnTime, Reprioritise;
    if SpoilsBitmap(s, t, base, held, highest) {
      DisinheritBitExactly(s, t, base, highest);
    } else {
      DisinheritKeeps(s, t, base, held, highest);
    }
  }

  lemma RemoveOne(s: State, t: Task)
    requires IsLinked(s) && IsReady(s, t)
    ensures var p, u := PrioOf(s, t), Unlink(s, t);
            && |u.lists[p].entries| == |s.lists[p].entries| - 1
            && (forall i: ListId :: i != p ==> u.lists[i] == s.lists[i])
            && u.top == s.top
  {
    var l := s.lists[PrioOf(s, t)];
    assert Has(l.entries, t);
    assert Find(l.entries, t) < |l.entries|;
  }

  lemma AddReadyTopOnly(s: State, t: Task)
    ensures var r := AddReady(s, t);
            && r.top == s.top + {PrioOf(s, t)}
            && r.lists[PrioOf(s, t)].entries != []
            && (forall i: ListId :: i != PrioOf(s, t) ==> r.lists[i] == s.lists[i])
  {
  }

  // ---- the list of all tasks ------------------------------------------------------------------

  /** `prvListTasksWithinSingleList`: one step past the index, then once round. */
  function Listing(l: List<Task>): seq<Task>
    requires l.index <= |l.entries|
  {
    if l.entries == [] then [] else Visits(Next(l), |l.entries|)
  }

  /** The order in which `uxTaskGetSystemState` goes through the state lists. */
  function Order(i: nat): ListId
    requires i < LISTS
  {
    if i < PRIORITIES then PRIORITIES - 1 - i else i
  }

  function Report(lists: StateLists, k: nat): seq<Task>
    requires k <= LISTS
    requires forall i: ListId :: lists[i].index <= |lists[i].entries|
  {
    if k == 0 then [] else Report(lists, k - 1) + Listing(lists[Order(k - 1)])
  }

  /** Each task is in exactly one of the state lists, once, and if that is a ready list then it
      is the one of the task's priority; the counter counts the tasks. */
  ghost predicate Partitioned(s: State) {
    && (forall i: ListId :: NoDup(s.lists[i].entries))
    && (forall t, i: ListId :: Has(s.lists[i].entries, t) <==> t in s.home && s.home[t] == i)
    && (forall t :: t in s.home && s.home[t] < PRIORITIES ==> s.home[t] == PrioOf(s, t))
    && s.count == |s.home|
  }

  lemma InvPartitions(s: State)
    requires Inv(s)
    ensures Partitioned(s)
  {
    hide Inv, Linked, NoDup, Has;
    InvParts(s);
    LinkedLists(s.lists, s.home);
  }

  lemma InvParts(s: State)
    requires Inv(s)
    ensures Linked(s.lists, s.home) && s.count == |s.home|
    ensures forall t :: t in s.home && s.home[t] < PRIORITIES ==> s.home[t] == PrioOf(s, t)
  {
    hide TopExact, Events, OnTime, Linked, Released;
  }

  /** So it is in every run. */
  lemma TasksArePartitioned(s: State, steps: seq<Step>)
    requires Inv(s) && CanRun(s, steps)
    ensures Partitioned(Run(s, steps))
  {
    hide Inv, Partitioned;
    RunKeeps(s, steps);
    InvPartitions(Run(s, steps));
  }

  lemma LinkedLists(lists: StateLists, home: map<Task, ListId>)
    requires Linked(lists, home)
    ensures forall i: ListId :: NoDup(lists[i].entries)
    ensures forall t, i: ListId :: Has(lists[i].entries, t) <==> t in home && home[t] == i
  {
    hide NoDup;
    forall i: ListId
      ensures NoDup(lists[i].entries)
    {
      assert Valid(lists[i]);
    }
  }

  lemma ListingExact(l: List<Task>)
    requires Valid(l)
    ensures Distinct(Listing(l)) && |Listing(l)| == |l.entries|
    ensures forall t :: t in Listing(l) <==> Has(l.entries, t)
  {
    if l.entries != [] {
      var m := Next(l);
      VisitsRotate(m);
      var r := m.entries[m.index..] + m.entries[..m.index];
      assert forall e :: e in r <==> e in l.entries;
      assert forall i :: 0 <= i < |r| ==> r[i] == l.entries[if i < |r| - m.index then i + m.index else i - (|r| - m.index)];
    }
  }

  lemma ListingHome(lists: StateLists, home: map<Task, ListId>, l: ListId)
    requires Linked(lists, home)
    ensures Distinct(Listing(lists[l]))
    ensures forall t :: t in Listing(lists[l]) <==> t in home && home[t] == l
  {
    ListingExact(lists[l]);
  }

  lemma LinkedIndexes(lists: StateLists, home: map<Task, ListId>)
    requires Linked(lists, home)
    ensures forall i: ListId :: lists[i].index <= |lists[i].entries|
  {
  }

  lemma {:induction false} ReportExact(lists: StateLists, home: map<Task, ListId>, k: nat)
    requires Linked(lists, home) && k <= LISTS
    ensures forall i: ListId :: lists[i].index <= |lists[i].entries|
    ensures Distinct(Report(lists, k))
    ensures forall t :: t in Report(lists, k) <==> t in home && Place(home[t]) < k
    decreases k
  {
    hide Linked, Distinct, Listing;
    LinkedIndexes(lists, home);
    if k == 0 {
      assert Distinct<Task>([]) by { NothingTwice(); }
    } else {
      var l := Order(k - 1);
      ReportExact(lists, home, k - 1);
      ListingHome(lists, home, l);
      assert forall i: ListId :: Place(i) == k - 1 <==> i == l;
      DistinctConcat(Report(lists, k - 1), Listing(lists[l]));
    }
  }

  /** The turn at which list i is reported. */
  function Place(i: ListId): nat {
    if i < PRIORITIES then PRIORITIES - 1 - i else i
  }

  lemma NothingTwice()
    ensures Distinct<Task>([])
  {
  }

  /** The report lists every task exactly once, and `uxCurrentNumberOfTasks` is the number of
      its lines. */
  lemma ReportIsEveryTaskOnce(s: State)
    requires Inv(s)
    ensures forall i: ListId :: s.lists[i].index <= |s.lists[i].entries|
    ensures var q := Report(s.lists, LISTS);
            && Distinct(q) && |q| == s.count
            && (forall t :: t in q <==> t in s.home)
  {
    hide Linked, TopExact, Placed, Events, OnTime, Report, Distinct;
    ReportExact(s.lists, s.home, LISTS);
    DistinctSize(Report(s.lists, LISTS), s.home.Keys);
  }
}
