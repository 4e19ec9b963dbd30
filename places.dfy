/**
 * Where a PCB is during the simulation, and where enqueueProcess (and the
 * inline routing of the older simStep) sends it once a burst is over.
 *
 * A PCB is always in exactly one place: queued for the CPU, waiting for
 * I/O, on a core, done, or in transit between two of these inside one
 * step. Consistent ties the engine's lists, the MLQ/MLFQ levels and the
 * cores to that place; the lemmas below show that every single move the
 * engine makes keeps it.
 */
module Places {
  import opened Wrappers
  import opened ProcessModel
  import opened SchedUtils
  import LinkedList
  import Levels
  import Mlq
  import Mlfq
  import LegacyPriority
  import opened Engine

  /** The place of a PCB. */
  datatype Loc = Queued | Waiting | OnCore(core: nat) | Transit | Done

  /** What each place demands of the PCB's next burst. */
  predicate Fits(p: Pcb, l: Loc) {
    match l
    case Queued => HasCpuHead(p)
    case OnCore(_) => HasCpuHead(p)
    case Waiting => HasIoHead(p)
    case Done => p.events == []
    case Transit => true
  }

  /** Where enqueueProcess sends a PCB, by its next burst. */
  function Destination(p: Pcb): (l: Loc)
    ensures Fits(p, l) && (l == Queued || l == Waiting || l == Done)
    ensures l == Done <==> p.events == []
  {
    if p.events == [] then Done else if p.events[0].kind == IO then Waiting else Queued
  }

  /**
   * The families of policies, by where a PCB waiting for the CPU is kept
   * and which per-process state every PCB carries.
   */
  datatype Family = PlainFamily | PriorFamily | LegacyPriorFamily | MlqFamily | MlfqFamily

  /** MLQ and MLFQ keep their own levels instead of the ready list. */
  predicate Leveled(fam: Family) {
    fam == MlqFamily || fam == MlfqFamily
  }

  /** The number of levels the family keeps. */
  function LevelCount(fam: Family): nat {
    if fam == MlqFamily then MAX_PRIORITY else if fam == MlfqFamily then MLFQ_QUEUES else 0
  }

  /** The per-process state a family's policy reads. */
  predicate ArgsOk(fam: Family, p: Pcb) {
    match fam
    case PlainFamily => true
    case PriorFamily => p.args.ProcPrior?
    case LegacyPriorFamily => p.args.ProcLegacyPrior?
    case MlqFamily => p.args.ProcMlq? && 0 <= p.args.queue < MAX_PRIORITY
    case MlfqFamily => p.args.ProcMlfq? && 0 <= p.args.queue < MLFQ_QUEUES
  }

  /**
   * Who routes a PCB: enqueueProcess of scheduler/src/fake_os.c; the older
   * simStep after an I/O burst (afterCpu false) or a CPU burst (afterCpu
   * true); and the older createPcb, which records no ready enqueue.
   */
  datatype Router = Newer | Older(afterCpu: bool) | OlderAdmission

  /** A statistics update by the routing revision. */
  function Stamped(router: Router, s: Stats, kind: StatKind, timer: int): (r: Stats)
    ensures kind == CompleteTime ==> r.complete == timer && r.turnaround == timer - s.arrival
    ensures kind == ReadyEnqueue ==> r == s.(lastReadyEnqueue := timer)
  {
    if router == Newer then UpdateStats(s, kind, timer)
    else
      match LegacyUpdateStats(s, kind, timer)
      case Ok(v) => v
      case Err(_) => s
  }

  /** The record a PCB waiting for the CPU gets, if its router records one. */
  function EnqueueStamp(router: Router, s: Stats, timer: int): (r: Stats)
    ensures r == (if router == OlderAdmission then s else s.(lastReadyEnqueue := timer))
  {
    if router == OlderAdmission then s else Stamped(router, s, ReadyEnqueue, timer)
  }

  /** The engine's lists and the arena of PCBs. */
  datatype Queues = Queues(
    pcbs: seq<Pcb>,
    ready: seq<Handle>,
    waiting: seq<Handle>,
    levels: seq<seq<Handle>>,
    terminated: seq<Stats>)

  /**
   * Routing a PCB whose burst has just ended (or that has just been
   * created): with no burst left its statistics get the completion and go
   * to the terminated records; a PCB facing I/O goes to the back of the
   * waiting list (the older revision resetting the priority state after a
   * CPU burst); a PCB facing the CPU goes to the back of the ready list, or
   * to its MLQ level, or to its MLFQ level one lower when it used its
   * quantum, and gets its enqueue time.
   */
  function Routed(q: Queues, h: Handle, fam: Family, router: Router, timer: int): (r: Queues)
    requires h < |q.pcbs| && |q.levels| == LevelCount(fam) && ArgsOk(fam, q.pcbs[h])
    ensures |r.pcbs| == |q.pcbs| && |r.levels| == |q.levels|
    ensures forall g :: 0 <= g < |q.pcbs| && g != h ==> r.pcbs[g] == q.pcbs[g]
    ensures r.pcbs[h].pid == q.pcbs[h].pid && r.pcbs[h].events == q.pcbs[h].events && ArgsOk(fam, r.pcbs[h])
    ensures q.pcbs[h].events == [] ==>
      r == q.(pcbs := r.pcbs, terminated := q.terminated + [r.pcbs[h].stats]) &&
      r.pcbs[h] == q.pcbs[h].(stats := r.pcbs[h].stats) &&
      r.pcbs[h].stats.complete == timer && r.pcbs[h].stats.turnaround == timer - q.pcbs[h].stats.arrival
    ensures HasIoHead(q.pcbs[h]) ==>
      r == q.(pcbs := r.pcbs, waiting := q.waiting + [h]) &&
      r.pcbs[h].(args := q.pcbs[h].args) == q.pcbs[h] &&
      (router != Older(true) ==> r.pcbs[h] == q.pcbs[h])
    ensures HasCpuHead(q.pcbs[h]) ==>
      r.waiting == q.waiting && r.terminated == q.terminated &&
      r.pcbs[h].stats == EnqueueStamp(router, q.pcbs[h].stats, timer)
    ensures HasCpuHead(q.pcbs[h]) && !Leveled(fam) ==>
      r.ready == q.ready + [h] && r.levels == q.levels && r.pcbs[h] == q.pcbs[h].(stats := r.pcbs[h].stats)
    ensures HasCpuHead(q.pcbs[h]) && Leveled(fam) ==>
      r.ready == q.ready && 0 <= r.pcbs[h].args.queue < |q.levels| &&
      r.levels == q.levels[r.pcbs[h].args.queue := q.levels[r.pcbs[h].args.queue] + [h]]
    ensures HasCpuHead(q.pcbs[h]) && fam == MlqFamily ==> r.pcbs[h] == q.pcbs[h].(stats := r.pcbs[h].stats)
    ensures HasCpuHead(q.pcbs[h]) && fam == MlfqFamily ==>
      !r.pcbs[h].quantumUsed && r.pcbs[h].args.lastAging == q.pcbs[h].args.lastAging &&
      r.pcbs[h].args.queue ==
        (if q.pcbs[h].quantumUsed && q.pcbs[h].args.queue < MLFQ_QUEUES - 1 then q.pcbs[h].args.queue + 1
         else q.pcbs[h].args.queue)
  {
    var p := q.pcbs[h];
    if p.events == [] then
      var s := Stamped(router, p.stats, CompleteTime, timer);
      q.(pcbs := q.pcbs[h := p.(stats := s)], terminated := q.terminated + [s])
    else if p.events[0].kind == IO then
      var p' := if router == Older(true) && LegacyPriority.IsPriorPcb(p) then LegacyPriority.ResetAging(p) else p;
      q.(pcbs := q.pcbs[h := p'], waiting := q.waiting + [h])
    else if fam == MlqFamily then
      var k := p.args.queue;
      q.(pcbs := q.pcbs[h := p.(stats := EnqueueStamp(router, p.stats, timer))], levels := q.levels[k := q.levels[k] + [h]])
    else if fam == MlfqFamily then
      var e := Mlfq.Enqueued(q.levels, q.pcbs, h);
      q.(pcbs := e.1[h := e.1[h].(stats := EnqueueStamp(router, e.1[h].stats, timer))], levels := e.0)
    else
      q.(pcbs := q.pcbs[h := p.(stats := EnqueueStamp(router, p.stats, timer))], ready := q.ready + [h])
  }

  // ---------------------------------------------------------------------
  // Consistency of the places with the lists, the levels and the cores
  // ---------------------------------------------------------------------

  /** Every PCB has a non-zero pid, bursts that fit its place and the state its family reads. */
  ghost predicate PcbsFit(pcbs: seq<Pcb>, loc: seq<Loc>, fam: Family) {
    |loc| == |pcbs| &&
    forall h :: 0 <= h < |loc| ==> pcbs[h].pid > 0 && Fits(pcbs[h], loc[h]) && ArgsOk(fam, pcbs[h])
  }

  /** A core holds a PCB exactly when that PCB's place names the core. */
  ghost predicate CoresAgree(slots: seq<Option<Handle>>, loc: seq<Loc>) {
    (forall i :: 0 <= i < |slots| && slots[i].Some? ==> slots[i].value < |loc| && loc[slots[i].value] == OnCore(i)) &&
    (forall h :: 0 <= h < |loc| && loc[h].OnCore? ==> loc[h].core < |slots| && slots[loc[h].core] == Some(h))
  }

  /** A list holds, once each, exactly the PCBs whose place is `at`. */
  ghost predicate ListAgrees(l: seq<Handle>, at: Loc, loc: seq<Loc>) {
    LinkedList.Distinct(l) &&
    (forall h :: h in l ==> h < |loc| && loc[h] == at) &&
    (forall h :: 0 <= h < |loc| && loc[h] == at ==> h in l)
  }

  /** The levels are placed and hold exactly the queued PCBs. */
  ghost predicate LevelsAgree(levels: seq<seq<Handle>>, pcbs: seq<Pcb>, loc: seq<Loc>, fam: Family) {
    (fam == MlqFamily ==> Mlq.Placed(levels, pcbs)) &&
    (fam == MlfqFamily ==> Mlfq.Placed(levels, pcbs)) &&
    (forall h :: h in Levels.Members(levels) ==> h < |loc| && loc[h] == Queued) &&
    (forall h :: 0 <= h < |loc| && loc[h] == Queued ==> h in Levels.Members(levels))
  }

  /**
   * The queued PCBs: the ready list, or for MLQ and MLFQ the levels; there
   * the ready list is only the copy of a level the policy last served.
   */
  ghost predicate QueuedAgree(q: Queues, loc: seq<Loc>, fam: Family) {
    |q.levels| == LevelCount(fam) &&
    if Leveled(fam) then
      LevelsAgree(q.levels, q.pcbs, loc, fam) && forall h :: h in q.ready ==> h < |q.pcbs|
    else
      ListAgrees(q.ready, Queued, loc)
  }

  /** The engine's state agrees with the place of every PCB. */
  ghost predicate Consistent(q: Queues, slots: seq<Option<Handle>>, loc: seq<Loc>, fam: Family) {
    PcbsFit(q.pcbs, loc, fam) && CoresAgree(slots, loc) &&
    ListAgrees(q.waiting, Waiting, loc) && QueuedAgree(q, loc, fam)
  }

  /** No PCB is between two places. */
  ghost predicate Settled(loc: seq<Loc>) {
    forall h :: 0 <= h < |loc| ==> loc[h] != Transit
  }

  /** Putting a PCB anywhere but in transit keeps every PCB settled. */
  lemma SettledPut(loc: seq<Loc>, h: Handle, l: Loc)
    requires Settled(loc) && h < |loc| && !l.Transit?
    ensures Settled(loc[h := l])
  {
  }

  /** What the engine's loops read off a consistent state. */
  lemma ConsistentFacts(q: Queues, slots: seq<Option<Handle>>, loc: seq<Loc>, fam: Family)
    requires Consistent(q, slots, loc, fam)
    ensures SlotsInArena(slots, q.pcbs) && DistinctOccupants(slots)
    ensures forall i :: 0 <= i < |slots| && slots[i].Some? ==>
      q.pcbs[slots[i].value].pid > 0 && HasCpuHead(q.pcbs[slots[i].value])
    ensures forall h :: h in q.waiting ==> h < |q.pcbs| && HasIoHead(q.pcbs[h]) && ArgsOk(fam, q.pcbs[h])
    ensures forall h :: h in q.ready ==> h < |q.pcbs|
    ensures !Leveled(fam) ==> forall h :: h in q.ready ==> HasCpuHead(q.pcbs[h])
  {
    forall i, j | 0 <= i < j < |slots| && slots[i].Some? && slots[j].Some?
      ensures slots[i].value != slots[j].value
    {
      assert loc[slots[i].value] == OnCore(i) && loc[slots[j].value] == OnCore(j);
    }
    forall i | 0 <= i < |slots| && slots[i].Some?
      ensures q.pcbs[slots[i].value].pid > 0 && HasCpuHead(q.pcbs[slots[i].value])
    {
      assert Fits(q.pcbs[slots[i].value], loc[slots[i].value]);
    }
    forall h | h in q.waiting ensures h < |q.pcbs| && HasIoHead(q.pcbs[h]) && ArgsOk(fam, q.pcbs[h]) {
      assert Fits(q.pcbs[h], loc[h]);
    }
    if !Leveled(fam) {
      forall h | h in q.ready ensures HasCpuHead(q.pcbs[h]) {
        assert Fits(q.pcbs[h], loc[h]);
      }
    }
  }

  /** A list without repeats stays so when an item it lacks is pushed at the back. */
  lemma DistinctPush(l: seq<Handle>, x: Handle)
    requires LinkedList.Distinct(l) && x !in l
    ensures LinkedList.Distinct(l + [x])
  {
    assert multiset(l + [x]) == multiset(l) + multiset{x};
  }

  /** A handle in no list of the levels is not a member. */
  lemma NotMemberUnqueued(levels: seq<seq<Handle>>, h: Handle)
    requires h !in Levels.Members(levels)
    ensures forall i :: 0 <= i < |levels| ==> h !in levels[i]
  {
    forall i | 0 <= i < |levels| ensures h !in levels[i] {
      Levels.LevelInMembers(levels, i);
    }
  }

  /** The placement of the MLQ or MLFQ levels reads only the state and the bursts of the PCBs. */
  lemma PlacedOnArgs(levels: seq<seq<Handle>>, pcbs: seq<Pcb>, pcbs': seq<Pcb>, fam: Family)
    requires |pcbs'| == |pcbs|
    requires forall g :: 0 <= g < |pcbs| ==> pcbs'[g].args == pcbs[g].args && pcbs'[g].events == pcbs[g].events
    ensures fam == MlqFamily && Mlq.Placed(levels, pcbs) ==> Mlq.Placed(levels, pcbs')
    ensures fam == MlfqFamily && Mlfq.Placed(levels, pcbs) ==> Mlfq.Placed(levels, pcbs')
  {
  }

  /** Detaching an item keeps every other item; from a list without repeats it removes that item. */
  lemma DetachMembers(l: seq<Handle>, x: Handle)
    requires x in l
    ensures forall g :: g != x ==> (g in LinkedList.Detach(l, x) <==> g in l)
    ensures LinkedList.Distinct(l) ==> x !in LinkedList.Detach(l, x) && LinkedList.Distinct(LinkedList.Detach(l, x))
  {
    LinkedList.DetachRemoves(l, x);
    var d := LinkedList.Detach(l, x);
    forall g | g != x ensures g in d <==> g in l {
      assert g in d <==> multiset(d)[g] > 0;
      assert g in l <==> multiset(l)[g] > 0;
    }
  }

  /**
   * Routing touches the lists only by appending the routed PCB: to the
   * waiting list exactly when it faces I/O, to the ready list when it
   * faces the CPU under a ready-list policy.
   */
  lemma RoutedLists(q: Queues, h: Handle, fam: Family, router: Router, timer: int)
    requires h < |q.pcbs| && |q.levels| == LevelCount(fam) && ArgsOk(fam, q.pcbs[h])
    ensures var r := Routed(q, h, fam, router, timer);
      (forall g :: g != h ==> (g in r.waiting <==> g in q.waiting)) &&
      (h in r.waiting <==> h in q.waiting || HasIoHead(q.pcbs[h])) &&
      (!Leveled(fam) && HasCpuHead(q.pcbs[h]) ==> h in r.ready) &&
      q.ready <= r.ready && q.terminated <= r.terminated
  {
  }

  // ---------------------------------------------------------------------
  // The moves of one step
  // ---------------------------------------------------------------------

  /**
   * Changing a PCB that is not queued, in a way that keeps its pid, the
   * fit of its bursts to its place and its family's state, keeps the state
   * consistent.
   */
  lemma RetouchKeeps(q: Queues, slots: seq<Option<Handle>>, loc: seq<Loc>, fam: Family, h: Handle, p: Pcb)
    requires Consistent(q, slots, loc, fam) && h < |loc| && loc[h] != Queued
    requires p.pid > 0 && Fits(p, loc[h]) && ArgsOk(fam, p)
    ensures Consistent(q.(pcbs := q.pcbs[h := p]), slots, loc, fam)
  {
    if Leveled(fam) {
      NotMemberUnqueued(q.levels, h);
      if fam == MlqFamily {
        Mlq.PlacedIgnoresUnqueued(q.levels, q.pcbs, h, p);
      } else {
        Mlfq.PlacedIgnoresUnqueued(q.levels, q.pcbs, h, p);
      }
    }
  }

  /** An I/O burst is over: the PCB leaves the waiting list. */
  lemma LeaveWaiting(q: Queues, slots: seq<Option<Handle>>, loc: seq<Loc>, fam: Family, h: Handle)
    requires Consistent(q, slots, loc, fam) && h < |loc| && loc[h] == Waiting
    ensures h in q.waiting
    ensures Consistent(q.(waiting := LinkedList.Detach(q.waiting, h)), slots, loc[h := Transit], fam)
  {
    var d := LinkedList.Detach(q.waiting, h);
    var loc' := loc[h := Transit];
    var q' := q.(waiting := d);
    assert h in q.waiting;
    DetachMembers(q.waiting, h);
    assert ListAgrees(d, Waiting, loc');
    assert PcbsFit(q'.pcbs, loc', fam) by {
      forall g | 0 <= g < |loc'| ensures Fits(q'.pcbs[g], loc'[g]) {
        assert g != h ==> loc'[g] == loc[g];
      }
    }
    assert CoresAgree(slots, loc');
    assert QueuedAgree(q', loc', fam);
  }

  /** An I/O burst is over: the PCB leaves the waiting list, changed as given. */
  lemma WaitingToTransit(q: Queues, slots: seq<Option<Handle>>, loc: seq<Loc>, fam: Family, h: Handle, p: Pcb)
    requires Consistent(q, slots, loc, fam) && h < |loc| && loc[h] == Waiting
    requires p.pid > 0 && ArgsOk(fam, p)
    ensures h in q.waiting
    ensures Consistent(q.(pcbs := q.pcbs[h := p], waiting := LinkedList.Detach(q.waiting, h)), slots, loc[h := Transit], fam)
  {
    LeaveWaiting(q, slots, loc, fam, h);
    var q1 := q.(waiting := LinkedList.Detach(q.waiting, h));
    RetouchKeeps(q1, slots, loc[h := Transit], fam, h, p);
    assert q1.(pcbs := q1.pcbs[h := p]) == q.(pcbs := q.pcbs[h := p], waiting := LinkedList.Detach(q.waiting, h));
  }

  /** A CPU burst is over: the PCB leaves its core, changed as given. */
  lemma CoreToTransit(q: Queues, slots: seq<Option<Handle>>, loc: seq<Loc>, fam: Family, i: nat, p: Pcb)
    requires Consistent(q, slots, loc, fam) && i < |slots| && slots[i].Some?
    requires p.pid > 0 && ArgsOk(fam, p)
    ensures slots[i].value < |loc| && loc[slots[i].value] == OnCore(i)
    ensures var h := slots[i].value;
      Consistent(q.(pcbs := q.pcbs[h := p]), slots[i := None], loc[h := Transit], fam)
  {
    var h := slots[i].value;
    var loc' := loc[h := Transit];
    var slots' := slots[i := None];
    forall j | 0 <= j < |slots'| && slots'[j].Some?
      ensures slots'[j].value < |loc'| && loc'[slots'[j].value] == OnCore(j)
    {
      assert j != i && slots[j].Some?;
      assert loc[slots[j].value] == OnCore(j);
    }
    if Leveled(fam) {
      NotMemberUnqueued(q.levels, h);
      if fam == MlqFamily {
        Mlq.PlacedIgnoresUnqueued(q.levels, q.pcbs, h, p);
      } else {
        Mlfq.PlacedIgnoresUnqueued(q.levels, q.pcbs, h, p);
      }
    }
  }

  /** A PCB in transit is in no list, no level and on no core. */
  lemma TransitNowhere(q: Queues, slots: seq<Option<Handle>>, loc: seq<Loc>, fam: Family, h: Handle)
    requires Consistent(q, slots, loc, fam) && h < |loc| && loc[h] == Transit
    ensures h !in q.waiting && (!Leveled(fam) ==> h !in q.ready)
    ensures Leveled(fam) ==> h !in Levels.Members(q.levels) && forall i :: 0 <= i < |q.levels| ==> h !in q.levels[i]
    ensures forall i :: 0 <= i < |slots| ==> slots[i] != Some(h)
  {
    if Leveled(fam) {
      NotMemberUnqueued(q.levels, h);
    }
  }

  /** A finished PCB is done: its place changes, and nothing else but its record. */
  lemma RoutedDone(q: Queues, slots: seq<Option<Handle>>, loc: seq<Loc>, fam: Family, h: Handle, router: Router, timer: int)
    requires Consistent(q, slots, loc, fam) && h < |loc| && loc[h] == Transit && q.pcbs[h].events == []
    ensures Consistent(Routed(q, h, fam, router, timer), slots, loc[h := Done], fam)
  {
    var r := Routed(q, h, fam, router, timer);
    TransitNowhere(q, slots, loc, fam, h);
    assert r.pcbs == q.pcbs[h := r.pcbs[h]];
    if fam == MlqFamily {
      Mlq.PlacedIgnoresUnqueued(q.levels, q.pcbs, h, r.pcbs[h]);
    } else if fam == MlfqFamily {
      Mlfq.PlacedIgnoresUnqueued(q.levels, q.pcbs, h, r.pcbs[h]);
    }
  }

  /** A PCB facing I/O is waiting, at the back of the waiting list. */
  lemma RoutedToWaiting(q: Queues, slots: seq<Option<Handle>>, loc: seq<Loc>, fam: Family, h: Handle, router: Router, timer: int)
    requires Consistent(q, slots, loc, fam) && h < |loc| && loc[h] == Transit && HasIoHead(q.pcbs[h])
    ensures Consistent(Routed(q, h, fam, router, timer), slots, loc[h := Waiting], fam)
  {
    var r := Routed(q, h, fam, router, timer);
    TransitNowhere(q, slots, loc, fam, h);
    assert r.pcbs == q.pcbs[h := r.pcbs[h]];
    DistinctPush(q.waiting, h);
    if fam == MlqFamily {
      Mlq.PlacedIgnoresUnqueued(q.levels, q.pcbs, h, r.pcbs[h]);
    } else if fam == MlfqFamily {
      Mlfq.PlacedIgnoresUnqueued(q.levels, q.pcbs, h, r.pcbs[h]);
    }
  }

  /** A PCB facing the CPU is queued, at the back of the ready list. */
  lemma RoutedToReady(q: Queues, slots: seq<Option<Handle>>, loc: seq<Loc>, fam: Family, h: Handle, router: Router, timer: int)
    requires Consistent(q, slots, loc, fam) && h < |loc| && loc[h] == Transit && HasCpuHead(q.pcbs[h]) && !Leveled(fam)
    ensures Consistent(Routed(q, h, fam, router, timer), slots, loc[h := Queued], fam)
  {
    var r := Routed(q, h, fam, router, timer);
    TransitNowhere(q, slots, loc, fam, h);
    assert r.pcbs == q.pcbs[h := r.pcbs[h]];
    DistinctPush(q.ready, h);
  }

  /** A PCB facing the CPU under MLQ or MLFQ is queued, at the back of its level. */
  lemma RoutedToLevel(q: Queues, slots: seq<Option<Handle>>, loc: seq<Loc>, fam: Family, h: Handle, router: Router, timer: int)
    requires Consistent(q, slots, loc, fam) && h < |loc| && loc[h] == Transit && HasCpuHead(q.pcbs[h]) && Leveled(fam)
    ensures Consistent(Routed(q, h, fam, router, timer), slots, loc[h := Queued], fam)
  {
    var r := Routed(q, h, fam, router, timer);
    TransitNowhere(q, slots, loc, fam, h);
    assert r.pcbs == q.pcbs[h := r.pcbs[h]];
    if fam == MlqFamily {
      Mlq.EnqueueKeepsPlaced(q.levels, q.pcbs, h, r.pcbs[h]);
    } else {
      Mlfq.EnqueuedPlaces(q.levels, q.pcbs, h);
      var e := Mlfq.Enqueued(q.levels, q.pcbs, h);
      assert r.levels == e.0;
      PlacedOnArgs(e.0, e.1, r.pcbs, fam);
    }
  }

  /**
   * Routing a PCB in transit puts it where its next burst says: every
   * list, level and core still agrees with every place.
   */
  lemma RoutedKeeps(q: Queues, slots: seq<Option<Handle>>, loc: seq<Loc>, fam: Family, h: Handle, router: Router, timer: int)
    requires Consistent(q, slots, loc, fam) && h < |loc| && loc[h] == Transit
    ensures Consistent(Routed(q, h, fam, router, timer), slots, loc[h := Destination(q.pcbs[h])], fam)
  {
    var p := q.pcbs[h];
    if p.events == [] {
      RoutedDone(q, slots, loc, fam, h, router, timer);
    } else if HasIoHead(p) {
      RoutedToWaiting(q, slots, loc, fam, h, router, timer);
    } else if !Leveled(fam) {
      RoutedToReady(q, slots, loc, fam, h, router, timer);
    } else {
      RoutedToLevel(q, slots, loc, fam, h, router, timer);
    }
  }

  /** Two PCBs facing the same kind of burst fit the same places. */
  lemma FitsByHead(p: Pcb, p': Pcb, l: Loc)
    requires HeadKind(p') == HeadKind(p)
    ensures Fits(p', l) <==> Fits(p, l)
  {
  }

  /** A policy that keeps every PCB's identity, bursts' kinds and family state keeps every PCB fitting. */
  lemma ShapeKeepsFit(pcbs: seq<Pcb>, pcbs': seq<Pcb>, loc: seq<Loc>, loc': seq<Loc>, fam: Family, h: Handle)
    requires PcbsFit(pcbs, loc, fam) && ShapeKept(pcbs, pcbs') && h < |loc|
    requires forall g :: 0 <= g < |pcbs'| ==> ArgsOk(fam, pcbs'[g])
    requires |loc'| == |loc| && loc'[h].OnCore? && loc[h] == Queued
    requires forall g :: 0 <= g < |loc| && g != h ==> loc'[g] == loc[g]
    ensures PcbsFit(pcbs', loc', fam)
  {
    forall g | 0 <= g < |loc'| ensures pcbs'[g].pid > 0 && Fits(pcbs'[g], loc'[g]) {
      FitsByHead(pcbs[g], pcbs'[g], loc'[g]);
    }
  }

  /** Taking the first free core for a queued PCB keeps the cores in agreement with the places. */
  lemma OccupyAgrees(slots: seq<Option<Handle>>, loc: seq<Loc>, h: Handle)
    requires CoresAgree(slots, loc) && None in slots && h < |loc| && !loc[h].OnCore?
    ensures CoresAgree(Occupy(slots, h), loc[h := OnCore(FirstNull(slots))])
  {
    var k := FirstNull(slots);
    var slots' := Occupy(slots, h);
    var loc' := loc[h := OnCore(k)];
    assert slots' == slots[k := Some(h)];
    forall i | 0 <= i < |slots'| && slots'[i].Some?
      ensures slots'[i].value < |loc'| && loc'[slots'[i].value] == OnCore(i)
    {
      if i != k {
        assert slots[i].Some? && loc[slots[i].value] == OnCore(i);
      }
    }
  }

  /**
   * A ready-list policy dispatching h: h leaves the ready list and takes
   * the first free core, every PCB keeps its identity, the kind of its
   * next burst and its family state, and the state stays consistent.
   */
  lemma ReadyDispatchKeeps(q: Queues, q': Queues, slots: seq<Option<Handle>>, loc: seq<Loc>, fam: Family, h: Handle)
    requires Consistent(q, slots, loc, fam) && !Leveled(fam) && h in q.ready && None in slots
    requires q' == q.(pcbs := q'.pcbs, ready := q'.ready)
    requires ShapeKept(q.pcbs, q'.pcbs) && forall g :: 0 <= g < |q'.pcbs| ==> ArgsOk(fam, q'.pcbs[g])
    requires multiset(q'.ready) == multiset(q.ready) - multiset{h}
    ensures h < |loc| && loc[h] == Queued
    ensures Consistent(q', Occupy(slots, h), loc[h := OnCore(FirstNull(slots))], fam)
  {
    var loc' := loc[h := OnCore(FirstNull(slots))];
    ShapeKeepsFit(q.pcbs, q'.pcbs, loc, loc', fam, h);
    OccupyAgrees(slots, loc, h);
    LinkedList.DistinctPart(q.ready, q'.ready, [h]);
    forall g | g in q'.ready ensures g < |loc'| && loc'[g] == Queued {
      assert multiset(q'.ready)[g] > 0;
      assert g in q.ready;
      assert multiset(q.ready)[h] <= 1;
    }
    forall g | 0 <= g < |loc'| && loc'[g] == Queued ensures g in q'.ready {
      assert g in q.ready && g != h;
      assert multiset(q.ready)[g] > 0;
    }
  }

  /**
   * MLQ or MLFQ dispatching h: h leaves the levels and takes the first
   * free core, the levels stay placed and lose exactly h, and the state
   * stays consistent.
   */
  lemma LevelDispatchKeeps(q: Queues, q': Queues, slots: seq<Option<Handle>>, loc: seq<Loc>, fam: Family, h: Handle)
    requires Consistent(q, slots, loc, fam) && Leveled(fam) && h in Levels.Members(q.levels) && None in slots
    requires q' == q.(pcbs := q'.pcbs, ready := q'.ready, levels := q'.levels)
    requires ShapeKept(q.pcbs, q'.pcbs) && forall g :: 0 <= g < |q'.pcbs| ==> ArgsOk(fam, q'.pcbs[g])
    requires |q'.levels| == |q.levels| && Levels.Members(q'.levels) == Levels.Members(q.levels) - {h}
    requires fam == MlqFamily ==> Mlq.Placed(q'.levels, q'.pcbs)
    requires fam == MlfqFamily ==> Mlfq.Placed(q'.levels, q'.pcbs)
    requires forall g :: g in q'.ready ==> g < |q'.pcbs|
    ensures h < |loc| && loc[h] == Queued
    ensures Consistent(q', Occupy(slots, h), loc[h := OnCore(FirstNull(slots))], fam)
  {
    var loc' := loc[h := OnCore(FirstNull(slots))];
    ShapeKeepsFit(q.pcbs, q'.pcbs, loc, loc', fam, h);
    OccupyAgrees(slots, loc, h);
  }

  /**
   * MLFQ aging that dispatches nothing: the levels stay placed and keep
   * their members, and the state stays consistent.
   */
  lemma ReshuffleKeeps(q: Queues, q': Queues, slots: seq<Option<Handle>>, loc: seq<Loc>, fam: Family)
    requires Consistent(q, slots, loc, fam) && fam == MlfqFamily
    requires q' == q.(pcbs := q'.pcbs, levels := q'.levels)
    requires ShapeKept(q.pcbs, q'.pcbs) && forall g :: 0 <= g < |q'.pcbs| ==> ArgsOk(fam, q'.pcbs[g])
    requires |q'.levels| == |q.levels| && Levels.Members(q'.levels) == Levels.Members(q.levels)
    requires Mlfq.Placed(q'.levels, q'.pcbs)
    ensures Consistent(q', slots, loc, fam)
  {
    forall g | 0 <= g < |loc| ensures q'.pcbs[g].pid > 0 && Fits(q'.pcbs[g], loc[g]) {
      FitsByHead(q.pcbs[g], q'.pcbs[g], loc[g]);
    }
  }
}
