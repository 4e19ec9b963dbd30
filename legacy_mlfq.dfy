/**
 * The multi-level feedback queue of the src engine (src/sched_MLFQ.c).
 * A PCB's level is its `priority` field; promotion and demotion only move
 * that field, and aging promotes every PCB that waited longer than AGING.
 * The engine's setScheduler refuses MLFQ, so nothing here is reached from
 * src/fake_os.c.
 */
module LegacyMlfq {
  import opened Wrappers
  import opened ProcessModel
  import opened SchedUtils
  import Levels
  import MlfqAsWritten
  import LinkedList

  type ListHead = MlfqAsWritten.ListHead

  /** MLFQArgs: two round-robin levels, the second with the quantum grown by 40%, then one FCFS level. */
  function MlfqLayout(quantum: int): (r: seq<Levels.LevelPolicy>)
    ensures |r| == MLFQ_QUEUES
    ensures r[0] == Levels.LevelRR(quantum) && r[1] == Levels.LevelRR(Levels.Grow(quantum)) && r[2] == Levels.LevelFcfs
  {
    Levels.HighLevelsOfConstants();
    Levels.LevelPolicies(MLFQ_QUEUES, quantum)
  }

  /** promote_process: under MLFQ a PCB above level 0 rises one level and its promotion count is cleared. */
  function Promote(p: Pcb, scheduler: LegacySchedulerType): (r: Pcb)
    ensures r.(priority := p.priority, promotion := p.promotion) == p
    ensures scheduler == LegacyMlfq && p.priority > 0 ==> r.priority == p.priority - 1 && r.promotion == 0
    ensures !(scheduler == LegacyMlfq && p.priority > 0) ==> r == p
  {
    if scheduler == LegacyMlfq && p.priority > 0 then p.(priority := p.priority - 1, promotion := 0) else p
  }

  /** demote_process: under MLFQ a PCB above the bottom level sinks one level and its promotion count is cleared. */
  function Demote(p: Pcb, scheduler: LegacySchedulerType): (r: Pcb)
    ensures r.(priority := p.priority, promotion := p.promotion) == p
    ensures scheduler == LegacyMlfq && p.priority < MLFQ_QUEUES - 1 ==> r.priority == p.priority + 1 && r.promotion == 0
    ensures !(scheduler == LegacyMlfq && p.priority < MLFQ_QUEUES - 1) ==> r == p
  {
    if scheduler == LegacyMlfq && p.priority < MLFQ_QUEUES - 1 then p.(priority := p.priority + 1, promotion := 0) else p
  }

  /** A PCB whose level is in range keeps it in range through promotion and demotion. */
  lemma LevelStaysInRange(p: Pcb, scheduler: LegacySchedulerType)
    requires 0 <= p.priority < MLFQ_QUEUES
    ensures 0 <= Promote(p, scheduler).priority < MLFQ_QUEUES
    ensures 0 <= Demote(p, scheduler).priority < MLFQ_QUEUES
  {
  }

  /** Under MLFQ, away from the edges, promotion undoes demotion and demotion undoes promotion. */
  lemma PromoteUndoesDemote(p: Pcb)
    ensures 0 <= p.priority < MLFQ_QUEUES - 1 ==>
      Promote(Demote(p, LegacyMlfq), LegacyMlfq) == p.(promotion := 0)
    ensures 0 < p.priority <= MLFQ_QUEUES - 1 ==>
      Demote(Promote(p, LegacyMlfq), LegacyMlfq) == p.(promotion := 0)
  {
  }

  /**
   * The aging test of aging_proc: the signed timer minus the unsigned
   * enqueue time is an unsigned difference, compared strictly with AGING.
   */
  predicate AgingDue(p: Pcb, timer: int) {
    ElapsedU32(timer, p.lastEnqueued) > AGING
  }

  /** What aging_proc does to one listed PCB. */
  function Aged(p: Pcb, timer: int, scheduler: LegacySchedulerType): (r: Pcb)
    ensures AgingDue(p, timer) ==> r == Promote(p, scheduler)
    ensures !AgingDue(p, timer) ==> r == p
  {
    if AgingDue(p, timer) then Promote(p, scheduler) else p
  }

  /** An aging pass lifts a due PCB exactly one level, never past level 0, and changes nothing else. */
  lemma AgedRisesOneLevel(p: Pcb, timer: int)
    requires 0 <= p.priority < MLFQ_QUEUES
    ensures var r := Aged(p, timer, LegacyMlfq);
      0 <= r.priority < MLFQ_QUEUES &&
      r.priority == (if AgingDue(p, timer) && p.priority > 0 then p.priority - 1 else p.priority) &&
      r.(priority := p.priority, promotion := p.promotion) == p
  {
  }

  /**
   * A PCB links into one list at a time through its embedded ListItem: no
   * level holds a PCB twice and no two levels share one.
   */
  ghost predicate Disjoint(levels: seq<seq<Handle>>) {
    (forall i :: 0 <= i < |levels| ==> LinkedList.Distinct(levels[i])) &&
    forall i, j, h :: 0 <= i < j < |levels| && h in levels[i] ==> h !in levels[j]
  }

  /** The PCB is listed at one of the first `n` levels. */
  function InLevels(levels: seq<seq<Handle>>, h: Handle, n: nat): bool
    requires n <= |levels|
  {
    n > 0 && (h in levels[n - 1] || InLevels(levels, h, n - 1))
  }

  /** A PCB of level `i` is listed at none of the levels before it. */
  lemma {:induction false} NotEarlier(levels: seq<seq<Handle>>, h: Handle, i: nat, n: nat)
    requires Disjoint(levels) && n <= i < |levels| && h in levels[i]
    ensures !InLevels(levels, h, n)
  {
    if n > 0 {
      NotEarlier(levels, h, i, n - 1);
    }
  }

  /** Every listed handle names a PCB of the arena. */
  predicate InArena(levels: seq<seq<Handle>>, pcbs: seq<Pcb>) {
    forall i :: 0 <= i < |levels| ==> forall h :: h in levels[i] ==> h < |pcbs|
  }

  /** The loop invariant of aging_proc: the listed PCBs visited so far have aged once, the rest are untouched. */
  ghost predicate AgedSoFar(levels: seq<seq<Handle>>, pcbs: seq<Pcb>, cur: seq<Pcb>, i: nat, j: nat, timer: int, scheduler: LegacySchedulerType)
    requires i < |levels| && j <= |levels[i]|
  {
    |cur| == |pcbs| &&
    forall g :: 0 <= g < |pcbs| ==>
      cur[g] == (if InLevels(levels, g, i) || g in levels[i][..j] then Aged(pcbs[g], timer, scheduler) else pcbs[g])
  }

  /**
   * aging_proc: under MLFQ every PCB listed at any level is aged once, in
   * place; the lists keep their order, since a PCB's level is only a
   * field. Under any other policy nothing changes.
   */
  method AgingProc(levels: seq<seq<Handle>>, pcbs: seq<Pcb>, timer: int, scheduler: LegacySchedulerType)
    returns (pcbs': seq<Pcb>)
    requires Disjoint(levels) && InArena(levels, pcbs)
    ensures |pcbs'| == |pcbs|
    ensures forall g :: 0 <= g < |pcbs| ==>
      pcbs'[g] == (if scheduler == LegacyMlfq && InLevels(levels, g, |levels|) then Aged(pcbs[g], timer, scheduler) else pcbs[g])
  {
    pcbs' := pcbs;
    if scheduler != LegacyMlfq {
      return;
    }
    var i := 0;
    while i < |levels|
      invariant 0 <= i <= |levels| && |pcbs'| == |pcbs|
      invariant forall g :: 0 <= g < |pcbs| ==>
        pcbs'[g] == (if InLevels(levels, g, i) then Aged(pcbs[g], timer, scheduler) else pcbs[g])
      decreases |levels| - i
    {
      pcbs' := AgeLevel(levels, pcbs, pcbs', i, timer, scheduler);
      i := i + 1;
    }
  }

  /** One level of aging_proc: walk the list from `first`, aging each PCB. */
  method AgeLevel(levels: seq<seq<Handle>>, pcbs: seq<Pcb>, cur: seq<Pcb>, i: nat, timer: int, scheduler: LegacySchedulerType)
    returns (cur': seq<Pcb>)
    requires Disjoint(levels) && InArena(levels, pcbs) && i < |levels| && |cur| == |pcbs|
    requires forall g :: 0 <= g < |pcbs| ==>
      cur[g] == (if InLevels(levels, g, i) then Aged(pcbs[g], timer, scheduler) else pcbs[g])
    ensures |cur'| == |pcbs|
    ensures forall g :: 0 <= g < |pcbs| ==>
      cur'[g] == (if InLevels(levels, g, i + 1) then Aged(pcbs[g], timer, scheduler) else pcbs[g])
  {
    cur' := cur;
    var items := levels[i];
    var j := 0;
    while j < |items|
      invariant 0 <= j <= |items| && AgedSoFar(levels, pcbs, cur', i, j, timer, scheduler)
      decreases |items| - j
    {
      var h := items[j];
      assert h in levels[i];
      NotEarlier(levels, h, i, i);
      LinkedList.DistinctNotBefore(items, 0, j);
      assert items[0..j] == items[..j];
      assert items[..j + 1] == items[..j] + [h];
      cur' := cur'[h := Aged(cur'[h], timer, scheduler)];
      j := j + 1;
    }
    assert items[..|items|] == items;
  }

  /**
   * What a level reads as once schedMLFQ has served it without the
   * write-back: the served PCB is still `first`, but its `next` was
   * cleared when the engine's copy of the list head popped it, so a walk
   * from `first` sees only it; `size` is untouched.
   */
  function StaleLevel(l: ListHead): (r: ListHead)
    requires l.items != []
    ensures r == MlfqAsWritten.ListHead([l.items[0]], l.size)
  {
    MlfqAsWritten.ListHead([l.items[0]], l.size)
  }

  /** Every level's first listed PCB (if any) is in the arena and waits for the CPU. */
  predicate HeadsOk(levels: seq<ListHead>, pcbs: seq<Pcb>) {
    forall i :: 0 <= i < |levels| ==>
      levels[i].items != [] ==> levels[i].items[0] < |pcbs| && HasCpuHead(pcbs[levels[i].items[0]])
  }

  /** SchedMLFQArgs: the level list heads and, per level, its policy. */
  class LegacyMlfqState {
    var levels: seq<ListHead>
    const policies: seq<Levels.LevelPolicy>

    ghost predicate Valid()
      reads this
    {
      |levels| == MLFQ_QUEUES && |policies| == MLFQ_QUEUES
    }

    /** MLFQArgs: empty levels and the layout of MlfqLayout. */
    constructor(quantum: int)
      ensures Valid() && levels == seq(MLFQ_QUEUES, _ => MlfqAsWritten.ListHead([], 0))
      ensures policies == MlfqLayout(quantum)
    {
      var h, p := Levels.Layout(MLFQ_QUEUES, quantum);
      Levels.LayoutIsLevelPolicies(MLFQ_QUEUES, quantum, p);
      policies := p;
      levels := seq(MLFQ_QUEUES, _ => MlfqAsWritten.ListHead([], 0));
    }

    /**
     * schedMLFQ as written: the first level whose `size` is positive is
     * copied into the engine's ready list and its policy runs on that
     * copy, which ends up as the rest of the level (`ready'`). The level
     * itself is not stored back, so it reads as StaleLevel afterwards. A
     * level whose size is positive but whose walk is empty makes the
     * policy return at once.
     */
    method ScheduleAsWritten(pcbs: seq<Pcb>, running: array<Option<Handle>>)
      returns (ready': Option<seq<Handle>>, pcbs': seq<Pcb>)
      requires Valid() && HeadsOk(levels, pcbs)
      requires MlfqAsWritten.FirstSized(levels, 0).Some? ==> None in running[..]
      modifies this, running
      ensures Valid()
      ensures var k := MlfqAsWritten.FirstSized(old(levels), 0);
        k.None? ==> levels == old(levels) && pcbs' == pcbs && running[..] == old(running[..]) && ready' == None
      ensures var k := MlfqAsWritten.FirstSized(old(levels), 0);
        k.Some? && old(levels)[k.value].items == [] ==>
          levels == old(levels) && pcbs' == pcbs && running[..] == old(running[..]) && ready' == Some([])
      ensures var k := MlfqAsWritten.FirstSized(old(levels), 0);
        k.Some? && old(levels)[k.value].items != [] ==>
          var h := old(levels)[k.value].items[0];
          h < |pcbs| &&
          levels == old(levels)[k.value := StaleLevel(old(levels)[k.value])] &&
          ready' == Some(old(levels)[k.value].items[1..]) &&
          running[..] == Occupy(old(running[..]), h) &&
          pcbs' == pcbs[h := Levels.LevelDispatched(policies[k.value], pcbs[h])]
    {
      var i := 0;
      while i < |levels|
        invariant 0 <= i <= |levels| && levels == old(levels) && running[..] == old(running[..])
        invariant MlfqAsWritten.FirstSized(levels, 0) == MlfqAsWritten.FirstSized(levels, i)
        decreases |levels| - i
      {
        if levels[i].size > 0 {
          var copy := levels[i].items;
          if copy == [] {
            return Some([]), pcbs;
          }
          var rest;
          rest, pcbs' := Levels.RunPolicy(policies[i], copy, pcbs, running);
          levels := levels[i := StaleLevel(levels[i])];
          return Some(rest), pcbs';
        }
        i := i + 1;
      }
      return None, pcbs;
    }

    /**
     * schedMLFQ with the write-back the scheduler/src revision has: the
     * served level becomes the rest of the list with one less in `size`,
     * so a level whose size agrees with its items keeps agreeing.
     */
    method Schedule(pcbs: seq<Pcb>, running: array<Option<Handle>>)
      returns (ready': Option<seq<Handle>>, pcbs': seq<Pcb>)
      requires Valid() && HeadsOk(levels, pcbs)
      requires MlfqAsWritten.FirstSized(levels, 0).Some? ==> None in running[..]
      modifies this, running
      ensures Valid()
      ensures var k := MlfqAsWritten.FirstSized(old(levels), 0);
        k.None? ==> levels == old(levels) && pcbs' == pcbs && running[..] == old(running[..]) && ready' == None
      ensures var k := MlfqAsWritten.FirstSized(old(levels), 0);
        k.Some? && old(levels)[k.value].items == [] ==>
          levels == old(levels) && pcbs' == pcbs && running[..] == old(running[..]) && ready' == Some([])
      ensures var k := MlfqAsWritten.FirstSized(old(levels), 0);
        k.Some? && old(levels)[k.value].items != [] ==>
          var h := old(levels)[k.value].items[0];
          var rest := old(levels)[k.value].items[1..];
          h < |pcbs| &&
          levels == old(levels)[k.value := MlfqAsWritten.ListHead(rest, old(levels)[k.value].size - 1)] &&
          ready' == Some(rest) &&
          running[..] == Occupy(old(running[..]), h) &&
          pcbs' == pcbs[h := Levels.LevelDispatched(policies[k.value], pcbs[h])]
    {
      var i := 0;
      while i < |levels|
        invariant 0 <= i <= |levels| && levels == old(levels) && running[..] == old(running[..])
        invariant MlfqAsWritten.FirstSized(levels, 0) == MlfqAsWritten.FirstSized(levels, i)
        decreases |levels| - i
      {
        if levels[i].size > 0 {
          var copy := levels[i].items;
          if copy == [] {
            return Some([]), pcbs;
          }
          var rest;
          rest, pcbs' := Levels.RunPolicy(policies[i], copy, pcbs, running);
          levels := levels[i := MlfqAsWritten.ListHead(rest, levels[i].size - 1)];
          return Some(rest), pcbs';
        }
        i := i + 1;
      }
      return None, pcbs;
    }
  }

  /**
   * Without the write-back the served level still reads as non-empty
   * with the served PCB first, and it is still the first level with a
   * positive size, so the next schedMLFQ serves the same PCB again while
   * it is on a core.
   */
  lemma StaleLevelServedAgain(levels: seq<ListHead>, k: nat)
    requires MlfqAsWritten.FirstSized(levels, 0) == Some(k) && levels[k].items != []
    ensures var after := levels[k := StaleLevel(levels[k])];
      MlfqAsWritten.FirstSized(after, 0) == Some(k) && after[k].items[0] == levels[k].items[0]
  {
    var after := levels[k := StaleLevel(levels[k])];
    FirstSizedSame(levels, after, 0, k);
  }

  /**
   * With the write-back, a served level whose size agreed with its items
   * keeps agreeing, and the served PCB is no longer listed there.
   */
  lemma WriteBackKeepsCount(levels: seq<ListHead>, k: nat)
    requires k < |levels| && levels[k].items != [] && MlfqAsWritten.Counted(levels[k])
    requires LinkedList.Distinct(levels[k].items)
    ensures var l := MlfqAsWritten.ListHead(levels[k].items[1..], levels[k].size - 1);
      MlfqAsWritten.Counted(l) && levels[k].items[0] !in l.items
  {
    var items := levels[k].items;
    LinkedList.DistinctNotBefore(items, 0, 0);
    assert items == [items[0]] + items[1..];
    assert multiset(items) == multiset{items[0]} + multiset(items[1..]);
    assert multiset(items)[items[0]] <= 1;
  }

  /** Two level arrays with the same sizes at and before `k` agree on the first sized level. */
  lemma {:induction false} FirstSizedSame(a: seq<ListHead>, b: seq<ListHead>, i: nat, k: nat)
    requires |a| == |b| && i <= k < |a| && MlfqAsWritten.FirstSized(a, i) == Some(k)
    requires forall j :: i <= j <= k ==> a[j].size == b[j].size
    ensures MlfqAsWritten.FirstSized(b, i) == Some(k)
    decreases k - i
  {
    if i < k {
      FirstSizedSame(a, b, i + 1, k);
    }
  }
}
