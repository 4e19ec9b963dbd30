/**
 * The multi-level queue of src/sched_MLQ.c, which the scheduler/src engine
 * uses: fixed levels, about 80% of the dispatches for the round-robin
 * (high) group and 20% for the FCFS (low) group.
 */
module Mlq {
  import opened Wrappers
  import opened ProcessModel
  import opened SchedUtils
  import LinkedList
  import Levels

  /** The two groups of levels. */
  datatype Group = HighGroup | LowGroup

  /**
   * Whether the high group's turn has come: before any dispatch, or while
   * it has had less than 80% of them (`hpq_time < 0.8 * total_time`).
   */
  predicate HighTurn(hpq: int, lpq: int) {
    var total := hpq + lpq;
    total == 0 || 5 * hpq < 4 * total
  }

  /**
   * The group schedMLQ serves: the high group on its turn and when it has
   * work, else the low group when it has work, else the high group when
   * it has work; none when every level is empty.
   */
  function ChosenGroup(levels: seq<seq<Handle>>, high: nat, hpq: int, lpq: int): (g: Option<Group>)
    requires high <= |levels|
    ensures g.None? <==> forall j :: 0 <= j < |levels| ==> levels[j] == []
    ensures g == Some(HighGroup) ==> Levels.FirstNonEmpty(levels, 0, high).Some?
    ensures g == Some(LowGroup) ==> Levels.FirstNonEmpty(levels, high, |levels|).Some?
    ensures g == Some(LowGroup) && Levels.FirstNonEmpty(levels, 0, high).Some? ==> !HighTurn(hpq, lpq)
    ensures g == Some(HighGroup) && Levels.FirstNonEmpty(levels, high, |levels|).Some? ==> HighTurn(hpq, lpq)
  {
    var hpqBusy := Levels.FirstNonEmpty(levels, 0, high).Some?;
    var lpqBusy := Levels.FirstNonEmpty(levels, high, |levels|).Some?;
    if HighTurn(hpq, lpq) && hpqBusy then Some(HighGroup)
    else if lpqBusy then Some(LowGroup)
    else if hpqBusy then Some(HighGroup)
    else None
  }

  /**
   * While both groups have work, the high group's share of dispatches
   * stays within one dispatch of 80%: `5 * hpq - 4 * total` stays in
   * [-4, 1] from the start, where both counters are zero.
   */
  lemma ShareStaysNearEightyPercent(levels: seq<seq<Handle>>, high: nat, hpq: int, lpq: int)
    requires high <= |levels|
    requires Levels.FirstNonEmpty(levels, 0, high).Some? && Levels.FirstNonEmpty(levels, high, |levels|).Some?
    requires -4 <= 5 * hpq - 4 * (hpq + lpq) <= 1
    ensures var g := ChosenGroup(levels, high, hpq, lpq);
      var hpq' := hpq + (if g == Some(HighGroup) then 1 else 0);
      var lpq' := lpq + (if g == Some(LowGroup) then 1 else 0);
      g.Some? && -4 <= 5 * hpq' - 4 * (hpq' + lpq') <= 1
  {
  }

  /**
   * Every queued PCB carries the MLQ state naming the level it is queued
   * at, and waits for the CPU; no level holds a PCB twice. A PCB is
   * therefore queued at one level at most.
   */
  ghost predicate Placed(levels: seq<seq<Handle>>, pcbs: seq<Pcb>) {
    (forall i :: 0 <= i < |levels| ==> LinkedList.Distinct(levels[i])) &&
    forall i :: 0 <= i < |levels| ==> forall h :: h in levels[i] ==>
      h < |pcbs| && pcbs[h].args.ProcMlq? && pcbs[h].args.queue == i && HasCpuHead(pcbs[h])
  }

  /** Placed PCBs are what the level policies need: arena PCBs waiting for the CPU. */
  lemma PlacedLevelsOk(levels: seq<seq<Handle>>, pcbs: seq<Pcb>)
    requires Placed(levels, pcbs)
    ensures Levels.LevelsOk(levels, pcbs)
  {
  }

  /**
   * MLQ_enqueue of a PCB queued nowhere, at the level its state names:
   * every PCB stays placed, that level is the only one it is now in, and
   * it is the only PCB added.
   */
  lemma EnqueueKeepsPlaced(levels: seq<seq<Handle>>, pcbs: seq<Pcb>, h: Handle, p: Pcb)
    requires Placed(levels, pcbs) && h < |pcbs| && p.args.ProcMlq? && 0 <= p.args.queue < |levels| && HasCpuHead(p)
    requires forall i :: 0 <= i < |levels| ==> h !in levels[i]
    ensures var q := p.args.queue;
      Placed(levels[q := levels[q] + [h]], pcbs[h := p]) &&
      Levels.Members(levels[q := levels[q] + [h]]) == Levels.Members(levels) + {h}
  {
    var q := p.args.queue;
    var levels' := levels[q := levels[q] + [h]];
    assert multiset(levels[q] + [h]) == multiset(levels[q]) + multiset{h};
    assert forall g :: g in levels'[q] ==> g == h || g in levels[q];
    Levels.MembersPush(levels, q, h);
  }

  /** A PCB queued nowhere can change freely without disturbing the placement. */
  lemma PlacedIgnoresUnqueued(levels: seq<seq<Handle>>, pcbs: seq<Pcb>, h: Handle, p: Pcb)
    requires Placed(levels, pcbs) && h < |pcbs|
    requires forall i :: 0 <= i < |levels| ==> h !in levels[i]
    ensures Placed(levels, pcbs[h := p])
  {
  }

  /**
   * Removing the head of a level for dispatch keeps every other PCB
   * placed; the dispatched one is queued nowhere afterwards and is the
   * only PCB removed.
   */
  lemma DispatchKeepsPlaced(levels: seq<seq<Handle>>, pcbs: seq<Pcb>, k: nat, p: Pcb)
    requires Placed(levels, pcbs) && k < |levels| && levels[k] != []
    ensures levels[k][0] < |pcbs|
    ensures Placed(levels[k := levels[k][1..]], pcbs[levels[k][0] := p])
    ensures var l := levels[k := levels[k][1..]]; forall i :: 0 <= i < |l| ==> levels[k][0] !in l[i]
    ensures Levels.Members(levels[k := levels[k][1..]]) == Levels.Members(levels) - {levels[k][0]}
  {
    var h := levels[k][0];
    assert h in levels[k];
    assert levels[k] == [h] + levels[k][1..];
    assert multiset(levels[k]) == multiset{h} + multiset(levels[k][1..]);
    assert LinkedList.Distinct(levels[k][1..]) by {
      forall x ensures multiset(levels[k][1..])[x] <= 1 {
        assert multiset(levels[k])[x] <= 1;
      }
    }
    assert h !in levels[k][1..] by {
      assert multiset(levels[k])[h] <= 1;
    }
    assert forall g :: g in levels[k][1..] ==> g in levels[k];
    Levels.MembersPop(levels, k);
  }

  /**
   * The dispatcher's scheduler arguments for MLQ (SchedMLQArgs): the
   * levels, their policies and the size of the high group, plus the two
   * dispatch counters, which the source keeps as static variables of
   * schedMLQ.
   */
  class MlqState {
    var levels: seq<seq<Handle>>
    const policies: seq<Levels.LevelPolicy>
    const high: nat
    var hpqTime: int
    var lpqTime: int

    /** MAX_PRIORITY levels, the first `high` of them round robin. */
    ghost predicate Valid()
      reads this
    {
      |levels| == |policies| == MAX_PRIORITY && high == Levels.HighLevels(MAX_PRIORITY) &&
      Levels.WellLaid(policies, high)
    }

    /** MLQArgs: empty levels laid out from `quantum`, both counters at zero. */
    constructor(quantum: int)
      ensures Valid()
      ensures levels == seq(MAX_PRIORITY, _ => []) && hpqTime == 0 && lpqTime == 0
      ensures policies == Levels.LevelPolicies(MAX_PRIORITY, quantum)
    {
      var h, p := Levels.Layout(MAX_PRIORITY, quantum);
      Levels.LayoutIsLevelPolicies(MAX_PRIORITY, quantum, p);
      high := h;
      policies := p;
      levels := seq(MAX_PRIORITY, _ => []);
      hpqTime, lpqTime := 0, 0;
    }

    /** MLQ_enqueue: the PCB goes to the back of the level its own state names; nothing else changes. */
    method Enqueue(pcbs: seq<Pcb>, h: Handle)
      requires Valid() && h < |pcbs| && pcbs[h].args.ProcMlq?
      requires 0 <= pcbs[h].args.queue < MAX_PRIORITY && h !in levels[pcbs[h].args.queue]
      modifies this
      ensures Valid() && hpqTime == old(hpqTime) && lpqTime == old(lpqTime)
      ensures levels == old(levels)[pcbs[h].args.queue := old(levels)[pcbs[h].args.queue] + [h]]
    {
      var q := pcbs[h].args.queue;
      levels := levels[q := LinkedList.PushBack(levels[q], h, false).value];
    }

    /**
     * MLQ_dispatcher: the first non-empty level of `[lo, hi)` runs its
     * policy, the level is stored back, and the group's counter goes up
     * by one. The level also becomes the engine's `ready` list
     * (`shown`). Nothing happens when the range is empty.
     */
    method Dispatch(pcbs: seq<Pcb>, running: array<Option<Handle>>, lo: nat, hi: nat, highGroup: bool)
      returns (pcbs': seq<Pcb>, shown: Option<seq<Handle>>)
      requires Valid() && lo <= hi <= MAX_PRIORITY && Levels.LevelsOk(levels, pcbs)
      requires Levels.FirstNonEmpty(levels, lo, hi).Some? ==> None in running[..]
      modifies this, running
      ensures Valid()
      ensures Levels.FirstNonEmpty(old(levels), lo, hi).None? ==>
        levels == old(levels) && hpqTime == old(hpqTime) && lpqTime == old(lpqTime) &&
        pcbs' == pcbs && running[..] == old(running[..]) && shown == None
      ensures Levels.FirstNonEmpty(old(levels), lo, hi).Some? ==>
        var k := Levels.FirstNonEmpty(old(levels), lo, hi).value;
        var h := old(levels)[k][0];
        h in old(levels)[k] && levels == old(levels)[k := old(levels)[k][1..]] && shown == Some(levels[k]) &&
        running[..] == Occupy(old(running[..]), h) &&
        pcbs' == pcbs[h := Levels.LevelDispatched(policies[k], pcbs[h])] &&
        hpqTime == old(hpqTime) + (if highGroup then 1 else 0) &&
        lpqTime == old(lpqTime) + (if highGroup then 0 else 1)
    {
      var i := lo;
      while i < hi
        invariant lo <= i <= hi
        invariant Levels.FirstNonEmpty(levels, lo, hi) == Levels.FirstNonEmpty(levels, i, hi)
        invariant levels == old(levels) && hpqTime == old(hpqTime) && lpqTime == old(lpqTime)
        invariant running[..] == old(running[..])
        decreases hi - i
      {
        if levels[i] != [] {
          pcbs', shown := RunLevel(pcbs, running, i, highGroup);
          return;
        }
        i := i + 1;
      }
      return pcbs, None;
    }

    /** The body of MLQ_dispatcher's branch: run level `k` through `os->ready` and count it. */
    method RunLevel(pcbs: seq<Pcb>, running: array<Option<Handle>>, k: nat, highGroup: bool)
      returns (pcbs': seq<Pcb>, shown: Option<seq<Handle>>)
      requires Valid() && k < MAX_PRIORITY && levels[k] != [] && Levels.LevelsOk(levels, pcbs)
      requires None in running[..]
      modifies this, running
      ensures Valid()
      ensures var h := old(levels)[k][0];
        h in old(levels)[k] && levels == old(levels)[k := old(levels)[k][1..]] && shown == Some(levels[k]) &&
        running[..] == Occupy(old(running[..]), h) &&
        pcbs' == pcbs[h := Levels.LevelDispatched(policies[k], pcbs[h])] &&
        hpqTime == old(hpqTime) + (if highGroup then 1 else 0) &&
        lpqTime == old(lpqTime) + (if highGroup then 0 else 1)
    {
      assert levels[k][0] in levels[k];
      var ready';
      ready', pcbs' := Levels.RunPolicy(policies[k], levels[k], pcbs, running);
      levels := levels[k := ready'];
      if highGroup {
        hpqTime := hpqTime + 1;
      } else {
        lpqTime := lpqTime + 1;
      }
      shown := Some(ready');
    }

    /**
     * The scan of schedMLQ that tells whether each group has work: a group
     * is empty exactly when all its levels are.
     */
    method GroupsEmpty() returns (hpqEmpty: bool, lpqEmpty: bool)
      requires Valid()
      ensures hpqEmpty <==> Levels.FirstNonEmpty(levels, 0, high).None?
      ensures lpqEmpty <==> Levels.FirstNonEmpty(levels, high, |levels|).None?
    {
      hpqEmpty, lpqEmpty := true, true;
      var i := 0;
      while i < |levels|
        invariant 0 <= i <= |levels|
        invariant hpqEmpty <==> forall j :: 0 <= j < i && j < high ==> levels[j] == []
        invariant lpqEmpty <==> forall j :: high <= j < i ==> levels[j] == []
      {
        if levels[i] != [] {
          if i < high {
            hpqEmpty := false;
          } else {
            lpqEmpty := false;
          }
        }
        i := i + 1;
      }
    }

    /**
     * schedMLQ: dispatch once from the group ChosenGroup names, through
     * its first non-empty level; nothing happens when every level is
     * empty.
     */
    method Schedule(pcbs: seq<Pcb>, running: array<Option<Handle>>)
      returns (pcbs': seq<Pcb>, shown: Option<seq<Handle>>)
      requires Valid() && Levels.LevelsOk(levels, pcbs)
      requires ChosenGroup(levels, high, hpqTime, lpqTime).Some? ==> None in running[..]
      modifies this, running
      ensures Valid()
      ensures var g := ChosenGroup(old(levels), high, old(hpqTime), old(lpqTime));
        g.None? ==>
          levels == old(levels) && hpqTime == old(hpqTime) && lpqTime == old(lpqTime) &&
          pcbs' == pcbs && running[..] == old(running[..]) && shown == None
      ensures var g := ChosenGroup(old(levels), high, old(hpqTime), old(lpqTime));
        g.Some? ==>
          var k := (if g == Some(HighGroup) then Levels.FirstNonEmpty(old(levels), 0, high)
                    else Levels.FirstNonEmpty(old(levels), high, MAX_PRIORITY)).value;
          var h := old(levels)[k][0];
          h in old(levels)[k] && levels == old(levels)[k := old(levels)[k][1..]] && shown == Some(levels[k]) &&
          running[..] == Occupy(old(running[..]), h) &&
          pcbs' == pcbs[h := Levels.LevelDispatched(policies[k], pcbs[h])] &&
          hpqTime == old(hpqTime) + (if g == Some(HighGroup) then 1 else 0) &&
          lpqTime == old(lpqTime) + (if g == Some(LowGroup) then 1 else 0)
    {
      var shouldHpq := HighTurn(hpqTime, lpqTime);
      var hpqEmpty, lpqEmpty := GroupsEmpty();
      if shouldHpq && !hpqEmpty {
        pcbs', shown := Dispatch(pcbs, running, 0, high, true);
      } else if !lpqEmpty {
        pcbs', shown := Dispatch(pcbs, running, high, MAX_PRIORITY, false);
      } else if !hpqEmpty {
        pcbs', shown := Dispatch(pcbs, running, 0, high, true);
      } else {
        pcbs', shown := pcbs, None;
      }
    }
  }
}
