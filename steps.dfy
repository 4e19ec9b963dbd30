/**
 * The remaining moves of a simulation step, stated over values: admitting
 * a new PCB, one call of each policy, and the run counters advancing. Each
 * lemma shows that the move keeps the engine consistent with the places
 * (Places.Consistent); the engine classes call them after the
 * corresponding operation. The free-core count and the backlog are what
 * the scheduling loop of simStep is judged by.
 */
module Steps {
  import opened Wrappers
  import opened ProcessModel
  import opened SchedUtils
  import LinkedList
  import Levels
  import Sjf
  import Priority
  import LegacyPriority
  import Mlq
  import Mlfq
  import opened Engine
  import opened Places

  // ---------------------------------------------------------------------
  // Free cores and the backlog
  // ---------------------------------------------------------------------

  /** The number of free cores. */
  function FreeCount(slots: seq<Option<Handle>>): (n: nat)
    ensures n <= |slots|
    ensures n == 0 <==> None !in slots
  {
    if slots == [] then 0
    else
      assert slots == [slots[0]] + slots[1..];
      (if slots[0].None? then 1 else 0) + FreeCount(slots[1..])
  }

  /** Taking a free core leaves one fewer. */
  lemma {:induction false} OccupyFrees(slots: seq<Option<Handle>>, h: Handle)
    requires None in slots
    ensures FreeCount(Occupy(slots, h)) == FreeCount(slots) - 1
  {
    if slots[0] == None {
      assert Occupy(slots, h)[1..] == slots[1..];
    } else {
      assert None in slots[1..] by {
        var k :| 0 <= k < |slots| && slots[k] == None;
        assert slots[1..][k - 1] == None;
      }
      OccupyFrees(slots[1..], h);
      assert Occupy(slots, h)[1..] == Occupy(slots[1..], h);
    }
  }

  /** PCBs waiting for the CPU: on the ready list, or on the levels for MLQ and MLFQ. */
  ghost predicate Backlog(q: Queues, fam: Family) {
    if Leveled(fam) then Levels.Members(q.levels) != {} else q.ready != []
  }

  /** In a consistent state there is a backlog exactly when some PCB is queued. */
  lemma BacklogByPlaces(q: Queues, slots: seq<Option<Handle>>, loc: seq<Loc>, fam: Family)
    requires Consistent(q, slots, loc, fam)
    ensures Backlog(q, fam) <==> exists h :: 0 <= h < |loc| && loc[h] == Queued
  {
    if Backlog(q, fam) {
      if Leveled(fam) {
        var h :| h in Levels.Members(q.levels);
        assert loc[h] == Queued;
      } else {
        assert q.ready[0] in q.ready;
      }
    }
  }

  /** With the levels kept, MLQ or MLFQ has a backlog exactly when some level is non-empty. */
  lemma LevelBacklog(q: Queues, fam: Family)
    requires Leveled(fam)
    ensures Backlog(q, fam) <==> Levels.FirstNonEmpty(q.levels, 0, |q.levels|).Some?
  {
    Levels.MembersEmpty(q.levels);
  }

  /**
   * What one call of a policy achieves: with a PCB waiting for the CPU,
   * one more core is taken; with none, no core is and none is left
   * waiting.
   */
  ghost predicate Progress(q: Queues, slots: seq<Option<Handle>>, q': Queues, slots': seq<Option<Handle>>, fam: Family) {
    (Backlog(q, fam) ==> FreeCount(slots') == FreeCount(slots) - 1) &&
    (!Backlog(q, fam) ==> slots' == slots && !Backlog(q', fam))
  }

  /** A policy call that serves a PCB exactly when one waits for the CPU makes progress. */
  lemma ServedProgress(q: Queues, slots: seq<Option<Handle>>, q': Queues, slots': seq<Option<Handle>>, fam: Family,
                       served: bool, h: Handle)
    requires served <==> Backlog(q, fam)
    requires served ==> None in slots && slots' == Occupy(slots, h)
    requires !served ==> slots' == slots && !Backlog(q', fam)
    ensures Progress(q, slots, q', slots', fam)
  {
    if served {
      OccupyFrees(slots, h);
    }
  }

  /**
   * The main loop of scheduler/src/fake_os.c stops: no core holds a PCB and
   * the ready list, the waiting list and the processes still to arrive are
   * all empty.
   */
  predicate Stops(q: Queues, slots: seq<Option<Handle>>, processes: seq<FakeProcess>) {
    (forall i :: 0 <= i < |slots| ==> slots[i].None?) && q.ready == [] && q.waiting == [] && processes == []
  }

  /**
   * When the loop stops after a step that kept every core busy while any
   * PCB waited for the CPU, every PCB has terminated: none is left behind
   * on the levels, which the loop does not look at.
   */
  lemma StoppedMeansDone(q: Queues, slots: seq<Option<Handle>>, loc: seq<Loc>, fam: Family, processes: seq<FakeProcess>)
    requires Consistent(q, slots, loc, fam) && Settled(loc) && |slots| >= 1
    requires SlotsInArena(slots, q.pcbs) && (Backlog(q, fam) ==> AllBusy(slots, q.pcbs))
    requires Stops(q, slots, processes)
    ensures forall h :: 0 <= h < |loc| ==> loc[h] == Done
  {
    assert !AllBusy(slots, q.pcbs) by {
      assert slots[0].None?;
    }
    assert !Backlog(q, fam);
    forall h | 0 <= h < |loc| ensures loc[h] == Done {
      assert loc[h] != Transit && loc[h] != Waiting && loc[h] != Queued;
    }
  }

  // ---------------------------------------------------------------------
  // Admission
  // ---------------------------------------------------------------------

  /** A list of handles below `n` is empty when `n` is 0. */
  lemma BoundedList(l: seq<Handle>, n: nat)
    requires forall h :: h in l ==> h < n
    ensures l != [] ==> n > 0
  {
    if l != [] {
      assert l[0] in l;
    }
  }

  /** Before any PCB is created nothing is listed, queued or running. */
  lemma NothingCreated(q: Queues, slots: seq<Option<Handle>>, loc: seq<Loc>, fam: Family)
    requires Consistent(q, slots, loc, fam) && q.pcbs == []
    ensures loc == [] && q.ready == [] && q.waiting == []
    ensures forall i :: 0 <= i < |slots| ==> slots[i].None?
  {
    ConsistentFacts(q, slots, loc, fam);
    BoundedList(q.ready, |q.pcbs|);
    BoundedList(q.waiting, |q.pcbs|);
  }

  /** Empty lists, free cores and empty levels agree with an empty arena under any policy. */
  lemma FreshStart(q: Queues, slots: seq<Option<Handle>>, fam: Family)
    requires q.pcbs == [] && q.ready == [] && q.waiting == []
    requires forall i :: 0 <= i < |slots| ==> slots[i].None?
    requires |q.levels| == LevelCount(fam) && forall k :: 0 <= k < |q.levels| ==> q.levels[k] == []
    ensures Consistent(q, slots, [], fam)
  {
    assert Levels.Members(q.levels) == {};
  }

  /** A settled engine is settled again once the PCB it admitted has been routed. */
  lemma AdmittedSettles(loc: seq<Loc>, p: Pcb)
    requires Settled(loc)
    ensures (loc + [Transit])[|loc| := Destination(p)] == loc + [Destination(p)]
    ensures Settled(loc + [Destination(p)])
  {
  }

  /** A settled engine is settled again once the PCB that left its place has been routed. */
  lemma RoutedSettles(loc: seq<Loc>, h: Handle, p: Pcb)
    requires Settled(loc) && h < |loc|
    ensures Settled(loc[h := Transit][h := Destination(p)])
  {
  }

  /** A PCB added to the arena is in transit until it is routed. */
  lemma AdmitKeeps(q: Queues, slots: seq<Option<Handle>>, loc: seq<Loc>, fam: Family, p: Pcb)
    requires Consistent(q, slots, loc, fam) && p.pid > 0 && ArgsOk(fam, p)
    ensures Consistent(q.(pcbs := q.pcbs + [p]), slots, loc + [Transit], fam)
  {
    var q' := q.(pcbs := q.pcbs + [p]);
    var loc' := loc + [Transit];
    assert forall h :: 0 <= h < |q.pcbs| ==> q'.pcbs[h] == q.pcbs[h];
    assert forall h :: 0 <= h < |loc| ==> loc'[h] == loc[h];
    if Leveled(fam) {
      assert forall h :: h in Levels.Members(q.levels) ==> h < |loc|;
    }
  }

  // ---------------------------------------------------------------------
  // One call of a policy
  // ---------------------------------------------------------------------

  /**
   * FCFS and round robin take the head of the ready list to the first free
   * core, changed as given.
   */
  lemma HeadDispatchKeeps(q: Queues, slots: seq<Option<Handle>>, loc: seq<Loc>, fam: Family, p: Pcb)
    requires Consistent(q, slots, loc, fam) && !Leveled(fam) && q.ready != [] && None in slots
    requires q.ready[0] < |q.pcbs| && p.pid == q.pcbs[q.ready[0]].pid && HasCpuHead(p) && ArgsOk(fam, p)
    ensures var h := q.ready[0];
      Consistent(q.(pcbs := q.pcbs[h := p], ready := q.ready[1..]), Occupy(slots, h), loc[h := OnCore(FirstNull(slots))], fam)
  {
    var h := q.ready[0];
    assert h in q.ready;
    ConsistentFacts(q, slots, loc, fam);
    var q' := q.(pcbs := q.pcbs[h := p], ready := q.ready[1..]);
    assert q.ready == [h] + q.ready[1..];
    assert multiset(q'.ready) == multiset(q.ready) - multiset{h};
    assert ShapeKept(q.pcbs, q'.pcbs);
    ReadyDispatchKeeps(q, q', slots, loc, fam, h);
  }

  /** The ready PCBs under the priority policy are the ones schedPriority reads. */
  lemma PriorReady(q: Queues, slots: seq<Option<Handle>>, loc: seq<Loc>)
    requires Consistent(q, slots, loc, PriorFamily)
    ensures LinkedList.Distinct(q.ready) && Priority.ReadyOk(q.ready, q.pcbs)
  {
    ConsistentFacts(q, slots, loc, PriorFamily);
  }

  /** A schedPriority call keeps the priority state of every PCB. */
  lemma PriorityDispatchKeeps(q: Queues, slots: seq<Option<Handle>>, loc: seq<Loc>, timer: int, cfg: Priority.PriorConfig)
    requires Consistent(q, slots, loc, PriorFamily) && q.ready != [] && None in slots
    ensures LinkedList.Distinct(q.ready) && Priority.ReadyOk(q.ready, q.pcbs)
    ensures var h := Priority.PriorityPick(q.ready, q.pcbs, timer, cfg.agingThreshold);
      Consistent(q.(pcbs := Priority.Scheduled(q.ready, q.pcbs, timer, cfg), ready := LinkedList.Detach(q.ready, h)),
                 Occupy(slots, h), loc[h := OnCore(FirstNull(slots))], PriorFamily)
  {
    PriorReady(q, slots, loc);
    var h := Priority.PriorityPick(q.ready, q.pcbs, timer, cfg.agingThreshold);
    var r := Priority.Scheduled(q.ready, q.pcbs, timer, cfg);
    Priority.ScheduledEffect(q.ready, q.pcbs, timer, cfg);
    LinkedList.DetachRemoves(q.ready, h);
    PriorityArgsKept(q, slots, loc, timer, cfg);
    ReadyDispatchKeeps(q, q.(pcbs := r, ready := LinkedList.Detach(q.ready, h)), slots, loc, PriorFamily, h);
  }

  /** Every PCB keeps its priority state through a Priority.SchedPriority pass. */
  lemma PriorityArgsKept(q: Queues, slots: seq<Option<Handle>>, loc: seq<Loc>, timer: int, cfg: Priority.PriorConfig)
    requires Consistent(q, slots, loc, PriorFamily) && q.ready != []
    ensures LinkedList.Distinct(q.ready) && Priority.ReadyOk(q.ready, q.pcbs)
    ensures var r := Priority.Scheduled(q.ready, q.pcbs, timer, cfg);
      forall g :: 0 <= g < |r| ==> ArgsOk(PriorFamily, r[g])
  {
    ConsistentFacts(q, slots, loc, PriorFamily);
    PriorReady(q, slots, loc);
    var r := Priority.Scheduled(q.ready, q.pcbs, timer, cfg);
    Priority.ScheduledEffect(q.ready, q.pcbs, timer, cfg);
    forall g | 0 <= g < |r| ensures ArgsOk(PriorFamily, r[g]) {
      assert ArgsOk(PriorFamily, q.pcbs[g]);
    }
  }

  /** The same for the older schedPriority, which keeps the older priority state. */
  lemma LegacyPriorityDispatchKeeps(q: Queues, slots: seq<Option<Handle>>, loc: seq<Loc>, timer: int, cfg: LegacyPriority.LegacyPriorConfig)
    requires Consistent(q, slots, loc, LegacyPriorFamily) && q.ready != [] && None in slots
    ensures LinkedList.Distinct(q.ready) && LegacyPriority.ReadyOk(q.ready, q.pcbs)
    ensures var h := LegacyPriority.PriorityPick(q.ready, q.pcbs, timer);
      Consistent(q.(pcbs := LegacyPriority.Scheduled(q.ready, q.pcbs, timer, cfg), ready := LinkedList.Detach(q.ready, h)),
                 Occupy(slots, h), loc[h := OnCore(FirstNull(slots))], LegacyPriorFamily)
  {
    ConsistentFacts(q, slots, loc, LegacyPriorFamily);
    var h := LegacyPriority.PriorityPick(q.ready, q.pcbs, timer);
    var r := LegacyPriority.Scheduled(q.ready, q.pcbs, timer, cfg);
    LegacyPriority.ScheduledEffect(q.ready, q.pcbs, timer, cfg);
    LinkedList.DetachRemoves(q.ready, h);
    LegacyPriorityArgsKept(q, slots, loc, timer, cfg);
    ReadyDispatchKeeps(q, q.(pcbs := r, ready := LinkedList.Detach(q.ready, h)), slots, loc, LegacyPriorFamily, h);
  }

  /** Every PCB keeps its legacypriority state through a LegacyPriority.SchedPriority pass. */
  lemma LegacyPriorityArgsKept(q: Queues, slots: seq<Option<Handle>>, loc: seq<Loc>, timer: int, cfg: LegacyPriority.LegacyPriorConfig)
    requires Consistent(q, slots, loc, LegacyPriorFamily) && q.ready != []
    ensures LinkedList.Distinct(q.ready) && LegacyPriority.ReadyOk(q.ready, q.pcbs)
    ensures var r := LegacyPriority.Scheduled(q.ready, q.pcbs, timer, cfg);
      forall g :: 0 <= g < |r| ==> ArgsOk(LegacyPriorFamily, r[g])
  {
    ConsistentFacts(q, slots, loc, LegacyPriorFamily);
    
    var r := LegacyPriority.Scheduled(q.ready, q.pcbs, timer, cfg);
    LegacyPriority.ScheduledEffect(q.ready, q.pcbs, timer, cfg);
    forall g | 0 <= g < |r| ensures ArgsOk(LegacyPriorFamily, r[g]) {
      assert ArgsOk(LegacyPriorFamily, q.pcbs[g]);
    }
  }

  /** A policy that only reorders and dispatches from the ready list keeps the state consistent. */
  lemma PlainDispatchKeeps(q: Queues, ready': seq<Handle>, pcbs': seq<Pcb>, slots: seq<Option<Handle>>, loc: seq<Loc>, h: Handle)
    requires Consistent(q, slots, loc, PlainFamily) && h in q.ready && None in slots
    requires ShapeKept(q.pcbs, pcbs') && multiset(ready') == multiset(q.ready) - multiset{h}
    ensures h < |loc| && loc[h] == Queued
    ensures Consistent(q.(pcbs := pcbs', ready := ready'), Occupy(slots, h), loc[h := OnCore(FirstNull(slots))], PlainFamily)
  {
    ReadyDispatchKeeps(q, q.(pcbs := pcbs', ready := ready'), slots, loc, PlainFamily, h);
  }

  /** The head of MLQ level `k` goes to the first free core; the level, stored back, becomes the ready copy. */
  lemma MlqDispatchKeeps(q: Queues, slots: seq<Option<Handle>>, loc: seq<Loc>, k: nat, policy: Levels.LevelPolicy)
    requires Consistent(q, slots, loc, MlqFamily) && k < |q.levels| && q.levels[k] != [] && None in slots
    ensures q.levels[k][0] < |q.pcbs| && HasCpuHead(q.pcbs[q.levels[k][0]])
    ensures var h := q.levels[k][0];
      var levels' := q.levels[k := q.levels[k][1..]];
      Consistent(q.(pcbs := q.pcbs[h := Levels.LevelDispatched(policy, q.pcbs[h])], ready := levels'[k], levels := levels'),
                 Occupy(slots, h), loc[h := OnCore(FirstNull(slots))], MlqFamily)
  {
    var h := q.levels[k][0];
    assert h in q.levels[k];
    Levels.LevelInMembers(q.levels, k);
    var p := Levels.LevelDispatched(policy, q.pcbs[h]);
    var levels' := q.levels[k := q.levels[k][1..]];
    Mlq.DispatchKeepsPlaced(q.levels, q.pcbs, k, p);
    var q' := q.(pcbs := q.pcbs[h := p], ready := levels'[k], levels := levels');
    assert ShapeKept(q.pcbs, q'.pcbs);
    assert forall g :: 0 <= g < |q'.pcbs| ==> ArgsOk(MlqFamily, q'.pcbs[g]) by {
      forall g | 0 <= g < |q'.pcbs| ensures ArgsOk(MlqFamily, q'.pcbs[g]) {
        assert ArgsOk(MlqFamily, q.pcbs[g]);
      }
    }
    assert forall g :: g in q'.ready ==> g in q.levels[k];
    LevelDispatchKeeps(q, q', slots, loc, MlqFamily, h);
  }

  /** MLFQ aging moves queued PCBs between levels and keeps the state consistent. */
  lemma MlfqAgedKeeps(q: Queues, slots: seq<Option<Handle>>, loc: seq<Loc>, timer: int, threshold: int)
    requires Consistent(q, slots, loc, MlfqFamily)
    ensures Mlfq.Placed(q.levels, q.pcbs) && |q.levels| == MLFQ_QUEUES
    ensures var aged := Mlfq.AgedFrom(q.levels, q.pcbs, 1, timer, threshold);
      Consistent(q.(pcbs := aged.1, levels := aged.0), slots, loc, MlfqFamily)
  {
    var aged := Mlfq.AgedFrom(q.levels, q.pcbs, 1, timer, threshold);
    var q' := q.(pcbs := aged.1, levels := aged.0);
    forall g | 0 <= g < |q.pcbs| ensures q'.pcbs[g].pid == q.pcbs[g].pid && HeadKind(q'.pcbs[g]) == HeadKind(q.pcbs[g]) {
      assert q'.pcbs[g].(args := q.pcbs[g].args) == q.pcbs[g];
    }
    forall g | 0 <= g < |q'.pcbs| ensures ArgsOk(MlfqFamily, q'.pcbs[g]) {
      if g in Levels.Members(q.levels) {
        var i :| 0 <= i < |aged.0| && g in aged.0[i];
      } else {
        assert ArgsOk(MlfqFamily, q.pcbs[g]);
      }
    }
    ReshuffleKeeps(q, q', slots, loc, MlfqFamily);
  }

  /** The head of MLFQ level `k` goes to the first free core; the level, stored back, becomes the ready copy. */
  lemma MlfqDispatchKeeps(q: Queues, slots: seq<Option<Handle>>, loc: seq<Loc>, k: nat, policy: Levels.LevelPolicy)
    requires Consistent(q, slots, loc, MlfqFamily) && k < |q.levels| && q.levels[k] != [] && None in slots
    ensures q.levels[k][0] < |q.pcbs| && HasCpuHead(q.pcbs[q.levels[k][0]])
    ensures var h := q.levels[k][0];
      var levels' := q.levels[k := q.levels[k][1..]];
      Consistent(q.(pcbs := q.pcbs[h := Levels.LevelDispatched(policy, q.pcbs[h])], ready := levels'[k], levels := levels'),
                 Occupy(slots, h), loc[h := OnCore(FirstNull(slots))], MlfqFamily)
  {
    var h := q.levels[k][0];
    assert h in q.levels[k];
    Levels.LevelInMembers(q.levels, k);
    var p := Levels.LevelDispatched(policy, q.pcbs[h]);
    var levels' := q.levels[k := q.levels[k][1..]];
    Mlfq.DispatchKeepsPlaced(q.levels, q.pcbs, k, p);
    var q' := q.(pcbs := q.pcbs[h := p], ready := levels'[k], levels := levels');
    assert ShapeKept(q.pcbs, q'.pcbs);
    assert forall g :: 0 <= g < |q'.pcbs| ==> ArgsOk(MlfqFamily, q'.pcbs[g]) by {
      forall g | 0 <= g < |q'.pcbs| ensures ArgsOk(MlfqFamily, q'.pcbs[g]) {
        assert ArgsOk(MlfqFamily, q.pcbs[g]);
      }
    }
    assert forall g :: g in q'.ready ==> g in q.levels[k];
    LevelDispatchKeeps(q, q', slots, loc, MlfqFamily, h);
  }

  // ---------------------------------------------------------------------
  // increaseDuration
  // ---------------------------------------------------------------------

  /** Changing only run counters keeps the state consistent. */
  lemma DurationsKeep(q: Queues, slots: seq<Option<Handle>>, loc: seq<Loc>, fam: Family, pcbs': seq<Pcb>)
    requires Consistent(q, slots, loc, fam) && |pcbs'| == |q.pcbs|
    requires forall g :: 0 <= g < |q.pcbs| ==> pcbs'[g].(duration := q.pcbs[g].duration) == q.pcbs[g]
    ensures Consistent(q.(pcbs := pcbs'), slots, loc, fam)
  {
    forall g | 0 <= g < |q.pcbs| ensures pcbs'[g].args == q.pcbs[g].args && pcbs'[g].events == q.pcbs[g].events {
      assert pcbs'[g].(duration := q.pcbs[g].duration) == q.pcbs[g];
    }
    PlacedOnArgs(q.levels, q.pcbs, pcbs', fam);
  }

  // ---------------------------------------------------------------------
  // Arrivals and the admission checks of createPcb
  // ---------------------------------------------------------------------

  /** The processes due at `timer`, in list order. */
  function Arriving(ps: seq<FakeProcess>, timer: int): (r: seq<FakeProcess>)
    ensures |r| <= |ps|
    decreases |ps|
  {
    if ps == [] then []
    else Arriving(ps[..|ps| - 1], timer) + (if ps[|ps| - 1].arrival == timer then [ps[|ps| - 1]] else [])
  }

  /** The processes not yet due, in list order. */
  function Staying(ps: seq<FakeProcess>, timer: int): (r: seq<FakeProcess>)
    ensures |r| <= |ps|
    decreases |ps|
  {
    if ps == [] then []
    else Staying(ps[..|ps| - 1], timer) + (if ps[|ps| - 1].arrival != timer then [ps[|ps| - 1]] else [])
  }

  /** The processes due are exactly those with this arrival time, and the others stay. */
  lemma {:induction false} ArrivalMembers(ps: seq<FakeProcess>, timer: int)
    ensures forall x :: x in Arriving(ps, timer) <==> x in ps && x.arrival == timer
    ensures forall x :: x in Staying(ps, timer) <==> x in ps && x.arrival != timer
    decreases |ps|
  {
    if ps != [] {
      var init := ps[..|ps| - 1];
      ArrivalMembers(init, timer);
      assert ps == init + [ps[|ps| - 1]];
    }
  }

  /** Every process either arrives or stays, and none is lost or doubled. */
  lemma {:induction false} ArrivalsSplit(ps: seq<FakeProcess>, timer: int)
    ensures multiset(Arriving(ps, timer)) + multiset(Staying(ps, timer)) == multiset(ps)
    decreases |ps|
  {
    if ps != [] {
      var init := ps[..|ps| - 1];
      ArrivalsSplit(init, timer);
      assert ps == init + [ps[|ps| - 1]];
    }
  }

  /** Why createPcb aborts: the assertions it makes, in the order it makes them. */
  datatype AdmitError = TimeMismatch | PidTaken | NoEvents

  /** The pid is used by a PCB on a core, on the ready list or on the waiting list. */
  ghost predicate PidInUse(slots: seq<Option<Handle>>, q: Queues, pid: int) {
    (exists i :: 0 <= i < |slots| && slots[i].Some? && slots[i].value < |q.pcbs| && q.pcbs[slots[i].value].pid == pid) ||
    (exists g :: g in q.ready && g < |q.pcbs| && q.pcbs[g].pid == pid) ||
    (exists g :: g in q.waiting && g < |q.pcbs| && q.pcbs[g].pid == pid)
  }

  /** The verdict of createPcb's checks on a process to admit at `timer`. */
  ghost function AdmitVerdict(p: FakeProcess, timer: int, slots: seq<Option<Handle>>, q: Queues): (e: Option<AdmitError>)
    ensures e.None? <==> p.arrival == timer && !PidInUse(slots, q, p.pid) && p.events != []
    ensures e == Some(TimeMismatch) <==> p.arrival != timer
    ensures e == Some(PidTaken) <==> p.arrival == timer && PidInUse(slots, q, p.pid)
  {
    if p.arrival != timer then Some(TimeMismatch)
    else if PidInUse(slots, q, p.pid) then Some(PidTaken)
    else if p.events == [] then Some(NoEvents)
    else None
  }

  /** The first loop of createPcb: does a core hold a PCB with this pid? */
  method PidOnCores(running: array<Option<Handle>>, pcbs: seq<Pcb>, pid: int) returns (taken: bool)
    requires SlotsInArena(running[..], pcbs)
    ensures taken <==> exists i :: 0 <= i < running.Length && running[i].Some? && pcbs[running[i].value].pid == pid
  {
    var i := 0;
    while i < running.Length
      invariant 0 <= i <= running.Length
      invariant forall j :: 0 <= j < i && running[j].Some? ==> pcbs[running[j].value].pid != pid
    {
      if running[i].Some? && pcbs[running[i].value].pid == pid {
        return true;
      }
      i := i + 1;
    }
    return false;
  }

  /** The list loops of createPcb: does a listed PCB have this pid? */
  method PidListed(l: seq<Handle>, pcbs: seq<Pcb>, pid: int) returns (taken: bool)
    requires forall g :: g in l ==> g < |pcbs|
    ensures taken <==> exists g :: g in l && pcbs[g].pid == pid
  {
    var aux := l;
    while aux != []
      invariant forall g :: g in aux ==> g in l
      invariant (exists g :: g in l && pcbs[g].pid == pid) <==> (exists g :: g in aux && pcbs[g].pid == pid)
      decreases |aux|
    {
      assert aux[0] in aux;
      if pcbs[aux[0]].pid == pid {
        return true;
      }
      assert forall g :: g in aux ==> g == aux[0] || g in aux[1..];
      aux := aux[1..];
    }
    return false;
  }

  /**
   * The assertions of createPcb, in their order, as a verdict: the arrival
   * time first, then the pid on the cores, the ready and the waiting list,
   * then the bursts.
   */
  method AdmitChecks(p: FakeProcess, timer: int, running: array<Option<Handle>>,
                     pcbs: seq<Pcb>, ready: seq<Handle>, waiting: seq<Handle>, ghost q: Queues)
    returns (err: Option<AdmitError>)
    requires q.pcbs == pcbs && q.ready == ready && q.waiting == waiting
    requires SlotsInArena(running[..], pcbs)
    requires (forall g :: g in ready ==> g < |pcbs|) && (forall g :: g in waiting ==> g < |pcbs|)
    ensures err == AdmitVerdict(p, timer, running[..], q)
  {
    if p.arrival != timer {
      return Some(TimeMismatch);
    }
    var onCore := PidOnCores(running, pcbs, p.pid);
    var inReady := PidListed(ready, pcbs, p.pid);
    var inWaiting := PidListed(waiting, pcbs, p.pid);
    if onCore || inReady || inWaiting {
      return Some(PidTaken);
    }
    if p.events == [] {
      return Some(NoEvents);
    }
    return None;
  }
}
