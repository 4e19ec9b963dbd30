/**
 * The multi-level feedback queue of scheduler/src/sched_MLFQ.c: a PCB that
 * used up its quantum sinks one level, one that waited long enough rises
 * one level, and the first non-empty level is served.
 */
module Mlfq {
  import opened Wrappers
  import opened ProcessModel
  import opened SchedUtils
  import LinkedList
  import Levels

  /**
   * Every queued PCB carries ProcMLFQArgs naming the level it is queued
   * at, and waits for the CPU; no level holds a PCB twice. A PCB is
   * therefore queued at one level at most.
   */
  ghost predicate Placed(levels: seq<seq<Handle>>, pcbs: seq<Pcb>) {
    (forall i :: 0 <= i < |levels| ==> LinkedList.Distinct(levels[i])) &&
    forall i :: 0 <= i < |levels| ==> forall h :: h in levels[i] ==>
      h < |pcbs| && pcbs[h].args.ProcMlfq? && pcbs[h].args.queue == i && HasCpuHead(pcbs[h])
  }

  /**
   * Aging changes only the policy state of PCBs, and only of queued ones:
   * every PCB keeps its identity, bursts and statistics.
   */
  ghost predicate OnlyQueuedAged(levels: seq<seq<Handle>>, pcbs: seq<Pcb>, pcbs': seq<Pcb>) {
    |pcbs'| == |pcbs| &&
    (forall g :: 0 <= g < |pcbs| ==> pcbs'[g].(args := pcbs[g].args) == pcbs[g]) &&
    forall g :: 0 <= g < |pcbs| && g !in Levels.Members(levels) ==> pcbs'[g] == pcbs[g]
  }

  /** The PCB is queued nowhere. */
  ghost predicate Unqueued(levels: seq<seq<Handle>>, h: Handle) {
    forall i :: 0 <= i < |levels| ==> h !in levels[i]
  }

  /** The PCB with its level index replaced. */
  function AtLevel(p: Pcb, q: int): (r: Pcb)
    requires p.args.ProcMlfq?
    ensures r.args == ProcMlfq(q, p.args.lastAging) && r.(args := p.args) == p
  {
    p.(args := ProcMlfq(q, p.args.lastAging))
  }

  /** The PCB with its aging time replaced. */
  function AgedAt(p: Pcb, timer: int): (r: Pcb)
    requires p.args.ProcMlfq?
    ensures r.args == ProcMlfq(p.args.queue, timer) && r.(args := p.args) == p
  {
    p.(args := ProcMlfq(p.args.queue, timer))
  }

  /**
   * promote_process: a queued PCB above level 0 moves to the back of the
   * level above and its index goes down by one; at level 0 nothing
   * changes.
   */
  function Promoted(levels: seq<seq<Handle>>, pcbs: seq<Pcb>, h: Handle): (r: (seq<seq<Handle>>, seq<Pcb>))
    requires Placed(levels, pcbs) && h < |pcbs| && pcbs[h].args.ProcMlfq?
    requires 0 <= pcbs[h].args.queue < |levels| && h in levels[pcbs[h].args.queue]
    ensures |r.0| == |levels| && |r.1| == |pcbs| && Placed(r.0, r.1)
    ensures Levels.Members(r.0) == Levels.Members(levels) && OnlyQueuedAged(levels, pcbs, r.1)
    ensures pcbs[h].args.queue == 0 ==> r == (levels, pcbs)
    ensures pcbs[h].args.queue > 0 ==>
      var q := pcbs[h].args.queue;
      r.0 == levels[q := LinkedList.Detach(levels[q], h)][q - 1 := levels[q - 1] + [h]] &&
      r.1 == pcbs[h := AtLevel(pcbs[h], q - 1)]
  {
    var q := pcbs[h].args.queue;
    if q == 0 then (levels, pcbs)
    else
      PromoteKeepsPlaced(levels, pcbs, h);
      Levels.LevelInMembers(levels, q);
      Levels.MembersMove(levels, q, q - 1, h);
      var to := LinkedList.PushBack(levels[q - 1], h, false).value;
      (levels[q := LinkedList.Detach(levels[q], h)][q - 1 := to], pcbs[h := AtLevel(pcbs[h], q - 1)])
  }

  /** Moving a PCB one level up keeps every PCB at the level its state names. */
  lemma PromoteKeepsPlaced(levels: seq<seq<Handle>>, pcbs: seq<Pcb>, h: Handle)
    requires Placed(levels, pcbs) && h < |pcbs| && pcbs[h].args.ProcMlfq?
    requires 0 < pcbs[h].args.queue < |levels| && h in levels[pcbs[h].args.queue]
    ensures var q := pcbs[h].args.queue;
      h !in levels[q - 1] &&
      Placed(levels[q := LinkedList.Detach(levels[q], h)][q - 1 := levels[q - 1] + [h]], pcbs[h := AtLevel(pcbs[h], q - 1)])
  {
    var q := pcbs[h].args.queue;
    LinkedList.DetachRemoves(levels[q], h);
    var d := LinkedList.Detach(levels[q], h);
    assert forall g :: g in d ==> g in levels[q];
    var levels' := levels[q := d][q - 1 := levels[q - 1] + [h]];
    var pcbs' := pcbs[h := AtLevel(pcbs[h], q - 1)];
    assert LinkedList.Distinct(levels[q - 1] + [h]) by {
      assert multiset(levels[q - 1] + [h]) == multiset(levels[q - 1]) + multiset{h};
    }
    forall i | 0 <= i < |levels'|
      ensures forall g :: g in levels'[i] ==>
        g < |pcbs'| && pcbs'[g].args.ProcMlfq? && pcbs'[g].args.queue == i && HasCpuHead(pcbs'[g])
    {
      if i == q - 1 {
        assert forall g :: g in levels'[i] ==> g == h || g in levels[q - 1];
      }
    }
  }

  /** Promotion moves a PCB between levels; no PCB is lost or added. */
  lemma PromotedKeepsAll(levels: seq<seq<Handle>>, pcbs: seq<Pcb>, h: Handle)
    requires Placed(levels, pcbs) && h < |pcbs| && pcbs[h].args.ProcMlfq?
    requires 0 <= pcbs[h].args.queue < |levels| && h in levels[pcbs[h].args.queue]
    ensures Levels.Queued(Promoted(levels, pcbs, h).0) == Levels.Queued(levels)
  {
    var q := pcbs[h].args.queue;
    var r := Promoted(levels, pcbs, h).0;
    if q > 0 {
      var moved := levels[q := LinkedList.Detach(levels[q], h)][q - 1 := levels[q - 1] + [h]];
      assert r == moved;
      Levels.MoveKeepsQueued(levels, q, q - 1, h);
      assert Levels.Queued(moved) == Levels.Queued(levels);
      assert Levels.Queued(r) == Levels.Queued(levels);
    } else {
      assert r == levels;
    }
  }

  /**
   * The PCB qualifies for aging (MLFQ_aging): it is below level 0 and,
   * counted as unsigned differences, both the time since its last ready
   * enqueue and the time since it last aged reach the threshold.
   */
  predicate Due(p: Pcb, timer: int, threshold: int) {
    p.args.ProcMlfq? && p.args.queue > 0 &&
    ElapsedU32(timer, p.stats.lastReadyEnqueue) >= threshold &&
    ElapsedU32(timer, p.args.lastAging) >= threshold
  }

  /** The position, from `j` on, of the first PCB of the level that qualifies for aging. */
  function FirstDue(items: seq<Handle>, pcbs: seq<Pcb>, timer: int, threshold: int, j: nat): (k: Option<nat>)
    requires j <= |items| && forall h :: h in items ==> h < |pcbs|
    ensures k.Some? ==> j <= k.value < |items| && items[k.value] in items && Due(pcbs[items[k.value]], timer, threshold)
    ensures forall m :: j <= m < (if k.Some? then k.value else |items|) ==>
      items[m] in items && !Due(pcbs[items[m]], timer, threshold)
    decreases |items| - j
  {
    if j == |items| then None
    else
      assert items[j] in items;
      if Due(pcbs[items[j]], timer, threshold) then Some(j)
      else FirstDue(items, pcbs, timer, threshold, j + 1)
  }

  /**
   * One level of MLFQ_aging: the first PCB of level `i` that qualifies is
   * promoted and its aging time recorded. The scan then ends, since the
   * promoted PCB is now last in the level above.
   */
  function AgeLevel(levels: seq<seq<Handle>>, pcbs: seq<Pcb>, i: nat, timer: int, threshold: int)
    : (r: (seq<seq<Handle>>, seq<Pcb>))
    requires Placed(levels, pcbs) && 1 <= i < |levels|
    ensures |r.0| == |levels| && |r.1| == |pcbs| && Placed(r.0, r.1)
    ensures Levels.Queued(r.0) == Levels.Queued(levels) && Levels.Members(r.0) == Levels.Members(levels) &&
      OnlyQueuedAged(levels, pcbs, r.1)
  {
    match FirstDue(levels[i], pcbs, timer, threshold, 0)
    case None => (levels, pcbs)
    case Some(j) =>
      var h := levels[i][j];
      Levels.LevelInMembers(levels, i);
      var moved := Promoted(levels, pcbs, h);
      PromotedKeepsAll(levels, pcbs, h);
      AgedAtKeepsPlaced(moved.0, moved.1, h, timer);
      (moved.0, moved.1[h := AgedAt(moved.1[h], timer)])
  }

  /** Recording an aging time keeps every PCB where it was. */
  lemma AgedAtKeepsPlaced(levels: seq<seq<Handle>>, pcbs: seq<Pcb>, h: Handle, timer: int)
    requires Placed(levels, pcbs) && h < |pcbs| && pcbs[h].args.ProcMlfq?
    ensures Placed(levels, pcbs[h := AgedAt(pcbs[h], timer)])
  {
  }

  /** MLFQ_aging from level `i` on: AgeLevel for every level from `i` to the last, in order. */
  function AgedFrom(levels: seq<seq<Handle>>, pcbs: seq<Pcb>, i: nat, timer: int, threshold: int)
    : (r: (seq<seq<Handle>>, seq<Pcb>))
    requires Placed(levels, pcbs) && 1 <= i <= |levels|
    ensures |r.0| == |levels| && |r.1| == |pcbs| && Placed(r.0, r.1)
    ensures Levels.Queued(r.0) == Levels.Queued(levels) && Levels.Members(r.0) == Levels.Members(levels) &&
      OnlyQueuedAged(levels, pcbs, r.1)
    ensures RaisedAtMostOne(pcbs, r.1, i)
    decreases |levels| - i
  {
    if i == |levels| then (levels, pcbs)
    else
      var next := AgeLevel(levels, pcbs, i, timer, threshold);
      var rest := AgedFrom(next.0, next.1, i + 1, timer, threshold);
      AgeLevelRaisesOne(levels, pcbs, i, timer, threshold);
      RaisedCompose(pcbs, next.1, rest.1, i);
      rest
  }

  /** The level a PCB's MLFQ state names; -1 for a PCB without one. */
  function LevelOf(p: Pcb): int {
    if p.args.ProcMlfq? then p.args.queue else -1
  }

  /** From `pcbs` to `pcbs'` at most PCBs of level `i` moved, each to level `i - 1`. */
  ghost predicate RaisedFrom(pcbs: seq<Pcb>, pcbs': seq<Pcb>, i: int) {
    |pcbs'| == |pcbs| &&
    forall g :: 0 <= g < |pcbs| ==>
      LevelOf(pcbs'[g]) == LevelOf(pcbs[g]) || (LevelOf(pcbs[g]) == i && LevelOf(pcbs'[g]) == i - 1)
  }

  /** From `pcbs` to `pcbs'` no PCB above level `i` moved, and every other rose at most one level. */
  ghost predicate RaisedAtMostOne(pcbs: seq<Pcb>, pcbs': seq<Pcb>, i: int) {
    |pcbs'| == |pcbs| &&
    forall g :: 0 <= g < |pcbs| ==>
      (LevelOf(pcbs[g]) < i ==> LevelOf(pcbs'[g]) == LevelOf(pcbs[g])) &&
      (LevelOf(pcbs[g]) >= i ==> LevelOf(pcbs'[g]) == LevelOf(pcbs[g]) || LevelOf(pcbs'[g]) == LevelOf(pcbs[g]) - 1)
  }

  /** One level of aging moves at most one PCB, from level `i` to level `i - 1`. */
  lemma AgeLevelRaisesOne(levels: seq<seq<Handle>>, pcbs: seq<Pcb>, i: nat, timer: int, threshold: int)
    requires Placed(levels, pcbs) && 1 <= i < |levels|
    ensures RaisedFrom(pcbs, AgeLevel(levels, pcbs, i, timer, threshold).1, i)
  {
    match FirstDue(levels[i], pcbs, timer, threshold, 0)
    case None =>
    case Some(j) =>
      var h := levels[i][j];
      assert h in levels[i];
      var moved := Promoted(levels, pcbs, h);
      assert moved.1 == pcbs[h := AtLevel(pcbs[h], i - 1)];
  }

  /** Aging level `i` and then the levels after it raises a PCB at most one level. */
  lemma RaisedCompose(p0: seq<Pcb>, p1: seq<Pcb>, p2: seq<Pcb>, i: int)
    requires RaisedFrom(p0, p1, i) && RaisedAtMostOne(p1, p2, i + 1)
    ensures RaisedAtMostOne(p0, p2, i)
  {
    forall g | 0 <= g < |p0|
      ensures (LevelOf(p0[g]) < i ==> LevelOf(p2[g]) == LevelOf(p0[g])) &&
        (LevelOf(p0[g]) >= i ==> LevelOf(p2[g]) == LevelOf(p0[g]) || LevelOf(p2[g]) == LevelOf(p0[g]) - 1)
    {
      assert LevelOf(p1[g]) < i + 1 ==> LevelOf(p2[g]) == LevelOf(p1[g]);
    }
  }

  /**
   * MLFQ_aging scans the levels in ascending order, so a promoted PCB,
   * now last in the level above, is not reached again: in one pass every
   * queued PCB stays or rises exactly one level, and level 0 stays.
   */
  lemma AgingRisesAtMostOneLevel(levels: seq<seq<Handle>>, pcbs: seq<Pcb>, timer: int, threshold: int)
    requires Placed(levels, pcbs) && 1 <= |levels|
    ensures var r := AgedFrom(levels, pcbs, 1, timer, threshold);
      forall g :: g in Levels.Members(levels) ==>
        g < |pcbs| && pcbs[g].args.ProcMlfq? && r.1[g].args.ProcMlfq? &&
        (r.1[g].args.queue == pcbs[g].args.queue || r.1[g].args.queue == pcbs[g].args.queue - 1) &&
        (pcbs[g].args.queue == 0 ==> r.1[g].args.queue == 0)
  {
    var r := AgedFrom(levels, pcbs, 1, timer, threshold);
    forall g | g in Levels.Members(levels)
      ensures g < |pcbs| && pcbs[g].args.ProcMlfq? && r.1[g].args.ProcMlfq? &&
        (r.1[g].args.queue == pcbs[g].args.queue || r.1[g].args.queue == pcbs[g].args.queue - 1) &&
        (pcbs[g].args.queue == 0 ==> r.1[g].args.queue == 0)
    {
      var k :| 0 <= k < |levels| && g in levels[k];
      assert g in Levels.Members(r.0);
      var k' :| 0 <= k' < |r.0| && g in r.0[k'];
    }
  }

  /**
   * A PCB at level 0 is never promoted by aging: it is not Due, so
   * promotion leaves the level-0 PCBs where they are.
   */
  lemma TopLevelNeverDue(p: Pcb, timer: int, threshold: int)
    requires p.args.ProcMlfq? && p.args.queue == 0
    ensures !Due(p, timer, threshold)
  {
  }

  /**
   * A promoted PCB rises exactly one level and has just aged, so with a
   * positive threshold it does not qualify again in the same tick.
   */
  lemma PromotedOnceThisTick(levels: seq<seq<Handle>>, pcbs: seq<Pcb>, i: nat, timer: int, threshold: int)
    requires Placed(levels, pcbs) && 1 <= i < |levels| && threshold > 0
    requires FirstDue(levels[i], pcbs, timer, threshold, 0).Some?
    ensures var h := levels[i][FirstDue(levels[i], pcbs, timer, threshold, 0).value];
      var r := AgeLevel(levels, pcbs, i, timer, threshold);
      h < |r.1| && r.1[h].args == ProcMlfq(i - 1, timer) && h in r.0[i - 1] &&
      !Due(r.1[h], timer, threshold)
  {
    var h := levels[i][FirstDue(levels[i], pcbs, timer, threshold, 0).value];
    assert h in levels[i];
    assert ElapsedU32(timer, timer) == 0;
  }

  /**
   * Removing the head of a level for dispatch keeps every other PCB where
   * it was: the dispatched one is queued nowhere afterwards.
   */
  lemma DispatchKeepsPlaced(levels: seq<seq<Handle>>, pcbs: seq<Pcb>, k: nat, p: Pcb)
    requires Placed(levels, pcbs) && k < |levels| && levels[k] != []
    requires levels[k][0] < |pcbs|
    ensures Placed(levels[k := levels[k][1..]], pcbs[levels[k][0] := p])
    ensures Unqueued(levels[k := levels[k][1..]], levels[k][0])
    ensures Levels.Members(levels[k := levels[k][1..]]) == Levels.Members(levels) - {levels[k][0]}
  {
    var h := levels[k][0];
    assert levels[k] == [h] + levels[k][1..];
    assert multiset(levels[k]) == multiset{h} + multiset(levels[k][1..]);
    assert LinkedList.Distinct(levels[k][1..]) by {
      forall x ensures multiset(levels[k][1..])[x] <= 1 {
        assert multiset(levels[k])[x] <= 1;
      }
    }
    assert h !in levels[k][1..] by {
      assert multiset(levels[k])[h] <= 1;
    }
    assert forall g :: g in levels[k][1..] ==> g in levels[k];
    Levels.MembersPop(levels, k);
  }

  /** A PCB queued nowhere can change freely without disturbing the placement. */
  lemma PlacedIgnoresUnqueued(levels: seq<seq<Handle>>, pcbs: seq<Pcb>, h: Handle, p: Pcb)
    requires Placed(levels, pcbs) && h < |pcbs| && Unqueued(levels, h)
    ensures Placed(levels, pcbs[h := p])
  {
  }

  /**
   * SchedMLFQArgs: the levels, their policies, the size of the round-robin
   * group and the aging threshold.
   */
  class MlfqState {
    var levels: seq<seq<Handle>>
    const policies: seq<Levels.LevelPolicy>
    const high: nat
    const agingThreshold: int

    /** MLFQ_QUEUES levels, the first `high` of them round robin. */
    ghost predicate Valid()
      reads this
    {
      |levels| == |policies| == MLFQ_QUEUES && high == Levels.HighLevels(MLFQ_QUEUES) &&
      Levels.WellLaid(policies, high)
    }

    /** MLFQArgs: empty levels laid out from `quantum`, and the threshold kept. */
    constructor(quantum: int, threshold: int)
      ensures Valid() && levels == seq(MLFQ_QUEUES, _ => []) && agingThreshold == threshold
      ensures policies == Levels.LevelPolicies(MLFQ_QUEUES, quantum)
    {
      var h, p := Levels.Layout(MLFQ_QUEUES, quantum);
      Levels.LayoutIsLevelPolicies(MLFQ_QUEUES, quantum, p);
      high := h;
      policies := p;
      agingThreshold := threshold;
      levels := seq(MLFQ_QUEUES, _ => []);
    }

    /** promote_process on a queued PCB. */
    method Promote(pcbs: seq<Pcb>, h: Handle) returns (pcbs': seq<Pcb>)
      requires Valid() && Placed(levels, pcbs) && h < |pcbs| && pcbs[h].args.ProcMlfq?
      requires 0 <= pcbs[h].args.queue < |levels| && h in levels[pcbs[h].args.queue]
      modifies this
      ensures Valid() && (levels, pcbs') == Promoted(old(levels), pcbs, h)
    {
      var q := pcbs[h].args.queue;
      if q > 0 {
        PromoteKeepsPlaced(levels, pcbs, h);
        levels := levels[q := LinkedList.Detach(levels[q], h)];
        pcbs' := pcbs[h := AtLevel(pcbs[h], q - 1)];
        levels := levels[q - 1 := LinkedList.PushBack(levels[q - 1], h, false).value];
      } else {
        pcbs' := pcbs;
      }
    }

    /** One level of MLFQ_aging: scan until the first PCB that qualifies, promote it, and stop. */
    method AgeOneLevel(pcbs: seq<Pcb>, i: nat, timer: int) returns (pcbs': seq<Pcb>)
      requires Valid() && Placed(levels, pcbs) && 1 <= i < |levels|
      modifies this
      ensures Valid() && (levels, pcbs') == AgeLevel(old(levels), pcbs, i, timer, agingThreshold)
    {
      var j := 0;
      while j < |levels[i]|
        invariant 0 <= j <= |levels[i]| && levels == old(levels)
        invariant FirstDue(levels[i], pcbs, timer, agingThreshold, 0) == FirstDue(levels[i], pcbs, timer, agingThreshold, j)
        decreases |levels[i]| - j
      {
        var h := levels[i][j];
        assert h in levels[i];
        if pcbs[h].args.queue > 0 {
          if ElapsedU32(timer, pcbs[h].stats.lastReadyEnqueue) >= agingThreshold &&
             ElapsedU32(timer, pcbs[h].args.lastAging) >= agingThreshold {
            pcbs' := Promote(pcbs, h);
            AgedAtKeepsPlaced(levels, pcbs', h, timer);
            pcbs' := pcbs'[h := AgedAt(pcbs'[h], timer)];
            return;
          }
        }
        j := j + 1;
      }
      pcbs' := pcbs;
    }

    /** MLFQ_aging: every level but the first, in order. */
    method Aging(pcbs: seq<Pcb>, timer: int) returns (pcbs': seq<Pcb>)
      requires Valid() && Placed(levels, pcbs)
      modifies this
      ensures Valid() && (levels, pcbs') == AgedFrom(old(levels), pcbs, 1, timer, agingThreshold)
    {
      pcbs' := pcbs;
      var i := 1;
      while i < |levels|
        invariant 1 <= i <= |levels| && Valid() && Placed(levels, pcbs')
        invariant AgedFrom(levels, pcbs', i, timer, agingThreshold) == AgedFrom(old(levels), pcbs, 1, timer, agingThreshold)
        decreases |levels| - i
      {
        pcbs' := AgeOneLevel(pcbs', i, timer);
        i := i + 1;
      }
    }

    /**
     * MLFQ_enqueue, as meant: a PCB that used its quantum sinks one level
     * unless it is already at the bottom, its flag is cleared, and it
     * goes to the back of its level. Every PCB stays queued exactly once.
     */
    method Enqueue(pcbs: seq<Pcb>, h: Handle) returns (pcbs': seq<Pcb>)
      requires Valid() && Placed(levels, pcbs) && h < |pcbs| && pcbs[h].args.ProcMlfq? && HasCpuHead(pcbs[h])
      requires 0 <= pcbs[h].args.queue < MLFQ_QUEUES && Unqueued(levels, h)
      modifies this
      ensures Valid() && Placed(levels, pcbs')
      ensures var q := pcbs[h].args.queue;
        var q' := if pcbs[h].quantumUsed && q < MLFQ_QUEUES - 1 then q + 1 else q;
        levels == old(levels)[q' := old(levels)[q'] + [h]] &&
        pcbs' == pcbs[h := AtLevel(pcbs[h], q').(quantumUsed := false)]
      ensures Levels.Queued(levels) == Levels.Queued(old(levels)) + 1
    {
      var q := pcbs[h].args.queue;
      if pcbs[h].quantumUsed {
        if q < MLFQ_QUEUES - 1 {
          q := q + 1;
        }
      }
      pcbs' := pcbs[h := AtLevel(pcbs[h], q).(quantumUsed := false)];
      Levels.PushKeepsQueued(levels, q, h);
      EnqueueKeepsPlaced(levels, pcbs, h, q);
      levels := levels[q := LinkedList.PushBack(levels[q], h, false).value];
    }

    /**
     * schedMLFQ: age, then the first non-empty level runs its policy and
     * is stored back; it also becomes the engine's `ready` list (`shown`).
     * With every level empty only the aging happens.
     */
    method Schedule(pcbs: seq<Pcb>, running: array<Option<Handle>>, timer: int)
      returns (pcbs': seq<Pcb>, shown: Option<seq<Handle>>)
      requires Valid() && Placed(levels, pcbs)
      requires Levels.FirstNonEmpty(levels, 0, MLFQ_QUEUES).Some? ==> None in running[..]
      modifies this, running
      ensures Valid() && Placed(levels, pcbs')
      ensures var aged := AgedFrom(old(levels), pcbs, 1, timer, agingThreshold);
        Levels.FirstNonEmpty(aged.0, 0, MLFQ_QUEUES).None? ==>
          levels == aged.0 && pcbs' == aged.1 && running[..] == old(running[..]) && shown == None
      ensures var aged := AgedFrom(old(levels), pcbs, 1, timer, agingThreshold);
        var k := Levels.FirstNonEmpty(aged.0, 0, MLFQ_QUEUES);
        k.Some? ==>
          None in old(running[..]) &&
          var h := aged.0[k.value][0];
          h in aged.0[k.value] && levels == aged.0[k.value := aged.0[k.value][1..]] &&
          running[..] == Occupy(old(running[..]), h) && shown == Some(levels[k.value]) &&
          pcbs' == aged.1[h := Levels.LevelDispatched(policies[k.value], aged.1[h])]
    {
      ghost var before := levels;
      var aged := Aging(pcbs, timer);
      Levels.QueuedEmpty(before);
      Levels.QueuedEmpty(levels);
      pcbs', shown := ServeFirst(aged, running);
    }

    /** The loop of schedMLFQ: the first non-empty level is served and stored back. */
    method ServeFirst(pcbs: seq<Pcb>, running: array<Option<Handle>>)
      returns (pcbs': seq<Pcb>, shown: Option<seq<Handle>>)
      requires Valid() && Placed(levels, pcbs)
      requires Levels.FirstNonEmpty(levels, 0, MLFQ_QUEUES).Some? ==> None in running[..]
      modifies this, running
      ensures Valid() && Placed(levels, pcbs')
      ensures Levels.FirstNonEmpty(old(levels), 0, MLFQ_QUEUES).None? ==>
        levels == old(levels) && pcbs' == pcbs && running[..] == old(running[..]) && shown == None
      ensures var k := Levels.FirstNonEmpty(old(levels), 0, MLFQ_QUEUES);
        k.Some? ==>
          var h := old(levels)[k.value][0];
          h in old(levels)[k.value] && levels == old(levels)[k.value := old(levels)[k.value][1..]] &&
          running[..] == Occupy(old(running[..]), h) && shown == Some(levels[k.value]) &&
          pcbs' == pcbs[h := Levels.LevelDispatched(policies[k.value], pcbs[h])]
    {
      var i := 0;
      while i < |levels|
        invariant 0 <= i <= |levels| && levels == old(levels) && running[..] == old(running[..])
        invariant Levels.FirstNonEmpty(levels, 0, MLFQ_QUEUES) == Levels.FirstNonEmpty(levels, i, MLFQ_QUEUES)
        decreases |levels| - i
      {
        if levels[i] != [] {
          assert levels[i][0] in levels[i];
          var ready';
          ready', pcbs' := Levels.RunPolicy(policies[i], levels[i], pcbs, running);
          DispatchKeepsPlaced(levels, pcbs, i, pcbs'[levels[i][0]]);
          levels := levels[i := ready'];
          shown := Some(ready');
          return;
        }
        i := i + 1;
      }
      return pcbs, None;
    }
  }

  /**
   * What MLFQ_enqueue, as meant, does to the levels and the arena: the PCB
   * joins the back of its level, one lower when it used its quantum and is
   * not at the bottom, with its flag cleared. The engine routes through
   * this; MlfqState.Enqueue implements it.
   */
  function Enqueued(levels: seq<seq<Handle>>, pcbs: seq<Pcb>, h: Handle): (r: (seq<seq<Handle>>, seq<Pcb>))
    requires |levels| == MLFQ_QUEUES && h < |pcbs| && pcbs[h].args.ProcMlfq? && 0 <= pcbs[h].args.queue < MLFQ_QUEUES
    ensures |r.0| == |levels| && |r.1| == |pcbs|
  {
    var q := pcbs[h].args.queue;
    var q' := if pcbs[h].quantumUsed && q < MLFQ_QUEUES - 1 then q + 1 else q;
    (levels[q' := levels[q'] + [h]], pcbs[h := AtLevel(pcbs[h], q').(quantumUsed := false)])
  }

  /**
   * Enqueuing an unqueued PCB that waits for the CPU keeps every PCB
   * placed, adds exactly it to the queued ones, and changes no other PCB.
   */
  lemma EnqueuedPlaces(levels: seq<seq<Handle>>, pcbs: seq<Pcb>, h: Handle)
    requires |levels| == MLFQ_QUEUES && Placed(levels, pcbs) && h < |pcbs| && pcbs[h].args.ProcMlfq? && HasCpuHead(pcbs[h])
    requires 0 <= pcbs[h].args.queue < MLFQ_QUEUES && Unqueued(levels, h)
    ensures var r := Enqueued(levels, pcbs, h);
      Placed(r.0, r.1) && Levels.Members(r.0) == Levels.Members(levels) + {h} &&
      Levels.Queued(r.0) == Levels.Queued(levels) + 1 &&
      r.1[h].args.ProcMlfq? && 0 <= r.1[h].args.queue < MLFQ_QUEUES && h in r.0[r.1[h].args.queue] &&
      !r.1[h].quantumUsed && r.1[h].(args := pcbs[h].args, quantumUsed := pcbs[h].quantumUsed) == pcbs[h] &&
      forall g :: 0 <= g < |pcbs| && g != h ==> r.1[g] == pcbs[g]
  {
    var q := pcbs[h].args.queue;
    var q' := if pcbs[h].quantumUsed && q < MLFQ_QUEUES - 1 then q + 1 else q;
    EnqueueKeepsPlaced(levels, pcbs, h, q');
    Levels.MembersPush(levels, q', h);
    Levels.PushKeepsQueued(levels, q', h);
  }

  /** Queuing an unqueued PCB at the level its new state names keeps every PCB placed. */
  lemma EnqueueKeepsPlaced(levels: seq<seq<Handle>>, pcbs: seq<Pcb>, h: Handle, q: nat)
    requires Placed(levels, pcbs) && h < |pcbs| && pcbs[h].args.ProcMlfq? && HasCpuHead(pcbs[h])
    requires q < |levels| && Unqueued(levels, h)
    ensures Placed(levels[q := levels[q] + [h]], pcbs[h := AtLevel(pcbs[h], q).(quantumUsed := false)])
  {
    var levels' := levels[q := levels[q] + [h]];
    assert multiset(levels[q] + [h]) == multiset(levels[q]) + multiset{h};
    assert forall g :: g in levels'[q] ==> g == h || g in levels[q];
  }
}

/**
 * MLFQ_enqueue and demote_process as scheduler/src/sched_MLFQ.c writes
 * them, over list heads that keep their own `size` field (the field
 * schedMLFQ tests). Two defects show here; the class above models the
 * behaviour they were evidently meant to have.
 */
module MlfqAsWritten {
  import opened Wrappers
  import opened ProcessModel
  import opened SchedUtils
  import LinkedList
  import Mlfq

  /** A ListHead: the items in order and the separately kept `size`. */
  datatype ListHead = ListHead(items: seq<Handle>, size: int)

  /** The size field agrees with the items. */
  predicate Counted(l: ListHead) {
    l.size == |l.items|
  }

  /**
   * List_detach on an item whose links are clear: a member is unlinked,
   * a non-member leaves the items alone (neither `first` nor `last` is
   * the item), and either way `size` goes down by one.
   */
  function DetachAsWritten(l: ListHead, h: Handle): (r: ListHead)
    ensures r.size == l.size - 1
    ensures h !in l.items ==> r.items == l.items
    ensures h in l.items ==> r.items == LinkedList.Detach(l.items, h)
  {
    if h in l.items then ListHead(LinkedList.Detach(l.items, h), l.size - 1)
    else ListHead(l.items, l.size - 1)
  }

  /** List_pushBack of an unlinked item that is not yet a member. */
  function PushBackSized(l: ListHead, h: Handle): (r: ListHead)
    requires h !in l.items
    ensures r.items == l.items + [h] && r.size == l.size + 1
    ensures Counted(l) ==> Counted(r)
  {
    ListHead(LinkedList.PushBack(l.items, h, false).value, l.size + 1)
  }

  /**
   * MLFQ_enqueue as written, for a PCB just taken off a core (its links
   * clear, queued nowhere): with quantum_used it goes through
   * demote_process, which detaches it from the level it is not in and
   * pushes it only when it is above the bottom level; otherwise it is
   * pushed at its own level.
   */
  function EnqueueAsWritten(levels: seq<ListHead>, pcbs: seq<Pcb>, h: Handle): (r: (seq<ListHead>, seq<Pcb>))
    requires |levels| == MLFQ_QUEUES && h < |pcbs| && pcbs[h].args.ProcMlfq?
    requires 0 <= pcbs[h].args.queue < MLFQ_QUEUES
    requires forall i :: 0 <= i < |levels| ==> h !in levels[i].items
    ensures |r.0| == |levels| && |r.1| == |pcbs|
  {
    var p := pcbs[h];
    var q := p.args.queue;
    if p.quantumUsed then
      if q < MLFQ_QUEUES - 1 then
        var off := levels[q := DetachAsWritten(levels[q], h)];
        (off[q + 1 := PushBackSized(off[q + 1], h)], pcbs[h := Mlfq.AtLevel(p, q + 1).(quantumUsed := false)])
      else (levels, pcbs[h := p.(quantumUsed := false)])
    else (levels[q := PushBackSized(levels[q], h)], pcbs)
  }

  /**
   * Demoting a PCB that came off a core leaves the level it left one
   * short: its `size` reads one less than the items it holds.
   */
  lemma DemoteMiscountsLevel(levels: seq<ListHead>, pcbs: seq<Pcb>, h: Handle)
    requires |levels| == MLFQ_QUEUES && h < |pcbs| && pcbs[h].args.ProcMlfq?
    requires 0 <= pcbs[h].args.queue < MLFQ_QUEUES - 1 && pcbs[h].quantumUsed
    requires forall i :: 0 <= i < |levels| ==> h !in levels[i].items
    requires forall i :: 0 <= i < |levels| ==> Counted(levels[i])
    ensures var q := pcbs[h].args.queue;
      var l := EnqueueAsWritten(levels, pcbs, h).0[q];
      l.items == levels[q].items && l.size == |l.items| - 1
  {
  }

  /** The first level whose `size` is positive: the one schedMLFQ serves. */
  function FirstSized(levels: seq<ListHead>, i: nat): (k: Option<nat>)
    requires i <= |levels|
    ensures k.Some? ==> i <= k.value < |levels| && levels[k.value].size > 0
    ensures forall j :: i <= j < (if k.Some? then k.value else |levels|) ==> levels[j].size <= 0
    decreases |levels| - i
  {
    if i == |levels| then None
    else if levels[i].size > 0 then Some(i)
    else FirstSized(levels, i + 1)
  }

  /** A PCB at level 0 with its quantum unused, and one coming off a core with its quantum used. */
  function TwoAtTop(): (pcbs: seq<Pcb>)
    ensures |pcbs| == 2 && pcbs[0].quantumUsed && !pcbs[1].quantumUsed
  {
    var p := Pcb(1, 0, 0, true, [Burst(CPU, 3)], ProcMlfq(0, 0), InitStats(), 0, 0);
    [p, p.(pid := 2, quantumUsed := false)]
  }

  /**
   * PCB 1 waits at level 0 while PCB 0, which shared that level, comes
   * back with its quantum used. After the enqueue level 0 still holds
   * PCB 1 but its size reads 0, so schedMLFQ serves level 1 before it.
   */
  lemma MiscountHidesPcb()
    ensures var levels := [ListHead([1], 1), ListHead([], 0), ListHead([], 0)];
      var r := EnqueueAsWritten(levels, TwoAtTop(), 0).0;
      r[0] == ListHead([1], 0) && r[1] == ListHead([0], 1) &&
      FirstSized(r, 0) == Some(1)
  {
    var levels := [ListHead([1], 1), ListHead([], 0), ListHead([], 0)];
    var r := EnqueueAsWritten(levels, TwoAtTop(), 0).0;
    assert r[0] == ListHead([1], 0);
    assert FirstSized(r, 0) == FirstSized(r, 1);
  }

  /**
   * A PCB at the bottom level that used its quantum is pushed nowhere:
   * demote_process does nothing and MLFQ_enqueue pushes only in the
   * other branch, so the PCB leaves the scheduler altogether.
   */
  lemma BottomLevelLosesPcb(levels: seq<ListHead>, pcbs: seq<Pcb>, h: Handle)
    requires |levels| == MLFQ_QUEUES && h < |pcbs| && pcbs[h].args.ProcMlfq?
    requires pcbs[h].args.queue == MLFQ_QUEUES - 1 && pcbs[h].quantumUsed
    requires forall i :: 0 <= i < |levels| ==> h !in levels[i].items
    ensures var r := EnqueueAsWritten(levels, pcbs, h).0;
      r == levels && forall i :: 0 <= i < |r| ==> h !in r[i].items
  {
  }
}
