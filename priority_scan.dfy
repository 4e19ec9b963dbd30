/**
 * The scan getByPriority performs in both revisions of the priority
 * policy (scheduler/src/sched_Priority.c and src/sched_Priority.c): age
 * every ready PCB in list order and keep the first one with the
 * numerically smallest current priority. The revisions differ only in
 * the aging rule, which is a parameter here.
 */
module PriorityScan {
  import opened Wrappers
  import opened ProcessModel
  import opened SchedUtils
  import LinkedList

  /** The current priority kept in the PCB's priority state; the base priority when there is none. */
  function CurrPriority(p: Pcb): int {
    if p.args.ProcPrior? || p.args.ProcLegacyPrior? then p.args.currPriority else p.priority
  }

  /** Every listed handle names a PCB of the arena. */
  predicate InArena(items: seq<Handle>, pcbs: seq<Pcb>) {
    forall h :: h in items ==> h < |pcbs|
  }

  /** The arena after the scan has aged the first `n` items of the list. */
  function AgedUpTo(items: seq<Handle>, pcbs: seq<Pcb>, age: Pcb -> Pcb, n: nat): (r: seq<Pcb>)
    requires n <= |items| && InArena(items, pcbs)
    ensures |r| == |pcbs|
    decreases n
  {
    if n == 0 then pcbs
    else
      var prev := AgedUpTo(items, pcbs, age, n - 1);
      var h := items[n - 1];
      assert h in items;
      prev[h := age(prev[h])]
  }

  /** After `n` items of a list without repeats, exactly those items have been aged, each once. */
  lemma {:induction false} AgedUpToAt(items: seq<Handle>, pcbs: seq<Pcb>, age: Pcb -> Pcb, n: nat, h: Handle)
    requires n <= |items| && LinkedList.Distinct(items) && InArena(items, pcbs) && h < |pcbs|
    ensures AgedUpTo(items, pcbs, age, n)[h] == (if h in items[..n] then age(pcbs[h]) else pcbs[h])
  {
    if n > 0 {
      AgedUpToAt(items, pcbs, age, n - 1, h);
      assert items[..n] == items[..n - 1] + [items[n - 1]];
      assert items[n - 1] !in items[..n - 1] by {
        LinkedList.DistinctNotBefore(items, 0, n - 1);
        assert items[0..n - 1] == items[..n - 1];
      }
      if h == items[n - 1] {
        assert items[n - 1] in items;
        AgedUpToAt(items, pcbs, age, n - 1, items[n - 1]);
      }
    }
  }

  /** Once the scan is over, each listed PCB is aged once and the rest are untouched. */
  lemma AgedEverywhere(items: seq<Handle>, pcbs: seq<Pcb>, age: Pcb -> Pcb)
    requires LinkedList.Distinct(items) && InArena(items, pcbs)
    ensures forall g :: 0 <= g < |pcbs| ==>
      AgedUpTo(items, pcbs, age, |items|)[g] == (if g in items then age(pcbs[g]) else pcbs[g])
  {
    assert items[..|items|] == items;
    forall g | 0 <= g < |pcbs|
      ensures AgedUpTo(items, pcbs, age, |items|)[g] == (if g in items then age(pcbs[g]) else pcbs[g])
    {
      AgedUpToAt(items, pcbs, age, |items|, g);
    }
  }

  /** The current priority of each item once aged, in list order. */
  function AgedPriorities(items: seq<Handle>, pcbs: seq<Pcb>, age: Pcb -> Pcb): (r: seq<int>)
    requires InArena(items, pcbs)
    ensures |r| == |items|
    ensures forall k :: 0 <= k < |items| ==>
      items[k] in items && r[k] == CurrPriority(age(pcbs[items[k]]))
  {
    seq(|items|, k requires 0 <= k < |items| => assert items[k] in items; CurrPriority(age(pcbs[items[k]])))
  }

  /** The PCB getByPriority returns: the first one with the smallest aged priority. */
  function PriorityPick(items: seq<Handle>, pcbs: seq<Pcb>, age: Pcb -> Pcb): (h: Handle)
    requires items != [] && InArena(items, pcbs)
    ensures h in items && h < |pcbs|
  {
    var j := FirstMin(AgedPriorities(items, pcbs, age));
    assert items[j] in items;
    items[j]
  }

  /**
   * After aging, no listed PCB has a better current priority than the
   * pick, and every PCB before it in the list has a strictly worse one.
   */
  lemma PickIsFirstBest(items: seq<Handle>, pcbs: seq<Pcb>, age: Pcb -> Pcb)
    requires items != [] && InArena(items, pcbs)
    ensures var h := PriorityPick(items, pcbs, age);
      forall k :: 0 <= k < |items| ==>
        items[k] in items && CurrPriority(age(pcbs[h])) <= CurrPriority(age(pcbs[items[k]]))
    ensures var h := PriorityPick(items, pcbs, age);
      forall j :: 0 <= j < LinkedList.IndexOf(items, h) ==>
        CurrPriority(age(pcbs[h])) < CurrPriority(age(pcbs[items[j]]))
  {
    var vals := AgedPriorities(items, pcbs, age);
    var j := FirstMin(vals);
    assert items[j] in items;
    LinkedList.IndexOfFirst(items, j);
  }

  /** What the scan knows after `i` items: the arena so far and the candidate so far. */
  ghost predicate Scanned(items: seq<Handle>, pcbs: seq<Pcb>, age: Pcb -> Pcb,
                          i: nat, cur: seq<Pcb>, pick: Option<Handle>, best: nat)
    requires InArena(items, pcbs)
  {
    i <= |items| &&
    cur == AgedUpTo(items, pcbs, age, i) &&
    (pick.None? <==> i == 0) &&
    (i > 0 ==> best < i && best == FirstMin(AgedPriorities(items, pcbs, age)[..i]) && pick == Some(items[best]))
  }

  /**
   * getByPriority: every listed PCB is aged in list order, and the first
   * one with the numerically smallest current priority is the candidate;
   * there is none only for an empty list.
   */
  method GetByPriority(items: seq<Handle>, pcbs: seq<Pcb>, age: Pcb -> Pcb)
    returns (pick: Option<Handle>, pcbs': seq<Pcb>)
    requires LinkedList.Distinct(items) && InArena(items, pcbs)
    ensures pick.None? <==> items == []
    ensures pick.Some? ==> pick.value == PriorityPick(items, pcbs, age)
    ensures pcbs' == AgedUpTo(items, pcbs, age, |items|)
  {
    ghost var best: nat := 0;
    pick := None;
    pcbs' := pcbs;
    var i := 0;
    ScannedNone(items, pcbs, age);
    while i < |items|
      invariant Scanned(items, pcbs, age, i, pcbs', pick, best)
      decreases |items| - i
    {
      pick, pcbs', best := Visit(items, pcbs, age, i, pcbs', pick, best);
      i := i + 1;
    }
    ScannedAll(items, pcbs, age, pcbs', pick, best);
  }

  /** Before the scan, nothing is aged and there is no candidate. */
  lemma ScannedNone(items: seq<Handle>, pcbs: seq<Pcb>, age: Pcb -> Pcb)
    requires InArena(items, pcbs)
    ensures Scanned(items, pcbs, age, 0, pcbs, None, 0)
  {
  }

  /** A scan over the whole list has aged every PCB and found the pick. */
  lemma ScannedAll(items: seq<Handle>, pcbs: seq<Pcb>, age: Pcb -> Pcb, cur: seq<Pcb>, pick: Option<Handle>, best: nat)
    requires InArena(items, pcbs) && Scanned(items, pcbs, age, |items|, cur, pick, best)
    ensures pick.None? <==> items == []
    ensures pick.Some? ==> pick.value == PriorityPick(items, pcbs, age)
    ensures cur == AgedUpTo(items, pcbs, age, |items|)
  {
    assert AgedPriorities(items, pcbs, age)[..|items|] == AgedPriorities(items, pcbs, age);
  }

  /**
   * The body of getByPriority's loop: age item `i`, and make it the
   * candidate when it is strictly better than the candidate so far.
   */
  method Visit(items: seq<Handle>, pcbs: seq<Pcb>, age: Pcb -> Pcb,
               i: nat, cur: seq<Pcb>, pick: Option<Handle>, ghost best: nat)
    returns (pick': Option<Handle>, cur': seq<Pcb>, ghost best': nat)
    requires LinkedList.Distinct(items) && InArena(items, pcbs) && i < |items|
    requires Scanned(items, pcbs, age, i, cur, pick, best)
    ensures Scanned(items, pcbs, age, i + 1, cur', pick', best')
  {
    ghost var vals := AgedPriorities(items, pcbs, age);
    var h := items[i];
    AgedStep(items, pcbs, age, i);
    cur' := cur[h := age(cur[h])];
    assert CurrPriority(cur'[h]) == vals[i];
    FirstMinStep(vals, i);
    if i > 0 {
      BestStillAged(items, pcbs, age, best, i);
    }
    if pick.None? || CurrPriority(cur'[h]) < CurrPriority(cur'[pick.value]) {
      pick', best' := Some(h), i;
    } else {
      pick', best' := pick, best;
    }
  }

  /** The item read at step `i` is still unaged, and aging it gives the next stage of the scan. */
  lemma AgedStep(items: seq<Handle>, pcbs: seq<Pcb>, age: Pcb -> Pcb, i: nat)
    requires LinkedList.Distinct(items) && InArena(items, pcbs) && i < |items|
    ensures items[i] < |pcbs|
    ensures var prev := AgedUpTo(items, pcbs, age, i);
      prev[items[i]] == pcbs[items[i]] &&
      AgedUpTo(items, pcbs, age, i + 1) == prev[items[i] := age(prev[items[i]])]
  {
    assert items[i] in items;
    LinkedList.DistinctNotBefore(items, 0, i);
    assert items[0..i] == items[..i];
    AgedUpToAt(items, pcbs, age, i, items[i]);
  }

  /** An item already scanned keeps its aged PCB for the rest of the scan. */
  lemma BestStillAged(items: seq<Handle>, pcbs: seq<Pcb>, age: Pcb -> Pcb, best: nat, i: nat)
    requires LinkedList.Distinct(items) && InArena(items, pcbs) && best < i < |items|
    ensures items[best] < |pcbs|
    ensures AgedUpTo(items, pcbs, age, i + 1)[items[best]] == age(pcbs[items[best]])
  {
    assert items[best] in items;
    assert items[..i + 1][best] == items[best];
    AgedUpToAt(items, pcbs, age, i + 1, items[best]);
  }
}
