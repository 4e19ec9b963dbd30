/** Priority scheduling with aging (scheduler/src/sched_Priority.c). */
module Priority {
  import opened Wrappers
  import opened ProcessModel
  import opened SchedUtils
  import LinkedList
  import PriorityScan

  /** SchedPriorArgs. */
  datatype PriorConfig = PriorConfig(preemptive: bool, quantum: int, agingThreshold: int)

  /**
   * PriorArgs: only PRIORITY_PREEMPTIVE cuts bursts, and only it keeps
   * the quantum; the aging threshold is kept as given.
   */
  function PriorArgs(quantum: int, agingThreshold: int, scheduler: SchedulerType): (c: PriorConfig)
    ensures c.preemptive <==> scheduler == PriorityPreemptive
    ensures c.quantum == (if scheduler == PriorityPreemptive then quantum else 0)
    ensures c.agingThreshold == agingThreshold
  {
    var preemptive := scheduler == PriorityPreemptive;
    PriorConfig(preemptive, if preemptive then quantum else 0, agingThreshold)
  }

  /** A PCB this policy can work on: it carries ProcPriorArgs. */
  predicate IsPriorPcb(p: Pcb) {
    p.args.ProcPrior?
  }

  /** resetAging: the current priority goes back to the base priority. */
  function ResetAging(p: Pcb): (r: Pcb)
    requires IsPriorPcb(p)
    ensures IsPriorPcb(r) && r.args.currPriority == p.priority
    ensures r.args.lastAging == p.args.lastAging && r.(args := p.args) == p
  {
    p.(args := ProcPrior(p.args.lastAging, p.priority))
  }

  /**
   * When agingProc moves a PCB up: it is below HIGH, and both the time
   * since it was enqueued and the time since it last aged, as unsigned
   * differences, reach the threshold.
   */
  predicate AgingDue(p: Pcb, timer: int, threshold: int) {
    IsPriorPcb(p) && p.args.currPriority > HIGH &&
    ElapsedU32(timer, p.stats.lastReadyEnqueue) >= threshold &&
    ElapsedU32(timer, p.args.lastAging) >= threshold
  }

  /**
   * agingProc: one step better when due, with the aging time recorded. A
   * PCB without ProcPriorArgs is left alone; the policy never sees one.
   */
  function Aged(p: Pcb, timer: int, threshold: int): (r: Pcb)
    ensures r.(args := p.args) == p && r.events == p.events && r.stats == p.stats
    ensures IsPriorPcb(r) <==> IsPriorPcb(p)
    ensures !AgingDue(p, timer, threshold) ==> r == p
    ensures AgingDue(p, timer, threshold) ==>
      r.args == ProcPrior(timer, p.args.currPriority - 1) && r.args.currPriority >= HIGH
  {
    if AgingDue(p, timer, threshold) then
      p.(args := ProcPrior(timer, p.args.currPriority - 1))
    else p
  }

  /** With a positive threshold a PCB ages at most once in a tick. */
  lemma AgingOncePerTick(p: Pcb, timer: int, threshold: int)
    requires IsPriorPcb(p) && threshold > 0
    ensures Aged(Aged(p, timer, threshold), timer, threshold) == Aged(p, timer, threshold)
  {
    var q := Aged(p, timer, threshold);
    if AgingDue(p, timer, threshold) {
      assert ElapsedU32(timer, q.args.lastAging) == 0;
    }
  }

  /** agingProc as the scan applies it at this tick. */
  function Ager(timer: int, threshold: int): Pcb -> Pcb {
    p => Aged(p, timer, threshold)
  }

  /** Every ready PCB is one this policy works on. */
  predicate ReadyOk(items: seq<Handle>, pcbs: seq<Pcb>) {
    forall h :: h in items ==> h < |pcbs| && IsPriorPcb(pcbs[h]) && HasCpuHead(pcbs[h])
  }

  /** The PCB schedPriority dispatches. */
  function PriorityPick(ready: seq<Handle>, pcbs: seq<Pcb>, timer: int, threshold: int): (h: Handle)
    requires ready != [] && ReadyOk(ready, pcbs)
    ensures h in ready && h < |pcbs|
  {
    PriorityScan.PriorityPick(ready, pcbs, Ager(timer, threshold))
  }

  /**
   * After aging, no ready PCB has a better current priority than the one
   * dispatched, and every PCB ahead of it has a strictly worse one.
   */
  lemma PickIsFirstBest(ready: seq<Handle>, pcbs: seq<Pcb>, timer: int, threshold: int)
    requires ready != [] && ReadyOk(ready, pcbs)
    ensures var h := PriorityPick(ready, pcbs, timer, threshold);
      forall k :: 0 <= k < |ready| ==>
        ready[k] in ready &&
        Aged(pcbs[h], timer, threshold).args.currPriority <= Aged(pcbs[ready[k]], timer, threshold).args.currPriority
    ensures var h := PriorityPick(ready, pcbs, timer, threshold);
      forall j :: 0 <= j < LinkedList.IndexOf(ready, h) ==>
        Aged(pcbs[h], timer, threshold).args.currPriority < Aged(pcbs[ready[j]], timer, threshold).args.currPriority
  {
    PriorityScan.PickIsFirstBest(ready, pcbs, Ager(timer, threshold));
  }

  /** What dispatch does to the chosen PCB: stats, the cut when preemptive, and the reset. */
  function Dispatched(p: Pcb, cfg: PriorConfig, timer: int): (r: Pcb)
    requires IsPriorPcb(p) && HasCpuHead(p)
    ensures IsPriorPcb(r) && r.args.currPriority == p.priority && r.args.lastAging == p.args.lastAging
    ensures r.stats == UpdateStats(p.stats, WaitingTime, timer)
    ensures cfg.preemptive ==> r.events == Preempt(p, cfg.quantum).events && r.quantumUsed == Preempt(p, cfg.quantum).quantumUsed
    ensures !cfg.preemptive ==> r.events == p.events && r.quantumUsed == p.quantumUsed
    ensures r.pid == p.pid && r.priority == p.priority && r.duration == p.duration
    ensures HeadKind(r) == HeadKind(p)
  {
    var p2 := p.(stats := UpdateStats(p.stats, WaitingTime, timer));
    ResetAging(if cfg.preemptive then Preempt(p2, cfg.quantum) else p2)
  }

  /**
   * The arena after a schedPriority pass on a non-empty ready list: every
   * ready PCB aged, and the chosen one dispatched and reset.
   */
  function Scheduled(ready: seq<Handle>, pcbs: seq<Pcb>, timer: int, cfg: PriorConfig): (r: seq<Pcb>)
    requires ready != [] && LinkedList.Distinct(ready) && ReadyOk(ready, pcbs)
    ensures |r| == |pcbs|
  {
    var h := PriorityPick(ready, pcbs, timer, cfg.agingThreshold);
    var aged := PriorityScan.AgedUpTo(ready, pcbs, Ager(timer, cfg.agingThreshold), |ready|);
    assert ready[..|ready|] == ready;
    PriorityScan.AgedUpToAt(ready, pcbs, Ager(timer, cfg.agingThreshold), |ready|, h);
    aged[h := Dispatched(aged[h], cfg, timer)]
  }

  /**
   * What a schedPriority pass does to the arena: the chosen PCB has its
   * dispatch recorded and its priority reset to the base one (keeping the
   * aging time of this pass), every other ready PCB is aged once, the rest
   * are untouched, and every PCB keeps its identity and the kind of its
   * next burst.
   */
  lemma ScheduledEffect(ready: seq<Handle>, pcbs: seq<Pcb>, timer: int, cfg: PriorConfig)
    requires ready != [] && LinkedList.Distinct(ready) && ReadyOk(ready, pcbs)
    ensures ShapeKept(pcbs, Scheduled(ready, pcbs, timer, cfg))
    ensures var h := PriorityPick(ready, pcbs, timer, cfg.agingThreshold);
      var r := Scheduled(ready, pcbs, timer, cfg);
      r[h].args == ProcPrior(Aged(pcbs[h], timer, cfg.agingThreshold).args.lastAging, pcbs[h].priority) &&
      r[h].stats == UpdateStats(pcbs[h].stats, WaitingTime, timer)
    ensures forall g :: 0 <= g < |pcbs| && g != PriorityPick(ready, pcbs, timer, cfg.agingThreshold) ==>
      Scheduled(ready, pcbs, timer, cfg)[g] == (if g in ready then Aged(pcbs[g], timer, cfg.agingThreshold) else pcbs[g])
  {
    var h := PriorityPick(ready, pcbs, timer, cfg.agingThreshold);
    PriorityScan.AgedEverywhere(ready, pcbs, Ager(timer, cfg.agingThreshold));
    var r := Scheduled(ready, pcbs, timer, cfg);
    forall g | 0 <= g < |pcbs| ensures r[g].pid == pcbs[g].pid && HeadKind(r[g]) == HeadKind(pcbs[g]) {
    }
  }

  /**
   * schedPriority: nothing happens on an empty ready list. Otherwise every
   * ready PCB is aged, the chosen one is detached and put on the first
   * free core with its dispatch recorded, its burst is cut in the
   * preemptive form, and its priority goes back to the base one.
   */
  method SchedPriority(ready: seq<Handle>, pcbs: seq<Pcb>, running: array<Option<Handle>>, timer: int, cfg: PriorConfig)
    returns (ready': seq<Handle>, pcbs': seq<Pcb>)
    requires LinkedList.Distinct(ready) && ReadyOk(ready, pcbs)
    requires ready != [] ==> None in running[..]
    modifies running
    ensures ready == [] ==> ready' == [] && pcbs' == pcbs && running[..] == old(running[..])
    ensures ready != [] ==>
      var h := PriorityPick(ready, pcbs, timer, cfg.agingThreshold);
      running[..] == Occupy(old(running[..]), h) &&
      ready' == LinkedList.Detach(ready, h) &&
      pcbs' == Scheduled(ready, pcbs, timer, cfg)
  {
    if ready == [] {
      return ready, pcbs;
    }
    var pick, aged := PriorityScan.GetByPriority(ready, pcbs, Ager(timer, cfg.agingThreshold));
    var h := pick.value;
    ready' := LinkedList.Detach(ready, h);
    ScheduledFromScan(ready, pcbs, timer, cfg, aged);
    pcbs' := DispatchChosen(running, aged, h, timer, cfg);
  }

  /** The arena the scan leaves, with the chosen PCB dispatched, is Scheduled's. */
  lemma ScheduledFromScan(ready: seq<Handle>, pcbs: seq<Pcb>, timer: int, cfg: PriorConfig, aged: seq<Pcb>)
    requires ready != [] && LinkedList.Distinct(ready) && ReadyOk(ready, pcbs)
    requires aged == PriorityScan.AgedUpTo(ready, pcbs, Ager(timer, cfg.agingThreshold), |ready|)
    ensures var h := PriorityPick(ready, pcbs, timer, cfg.agingThreshold);
      h < |aged| && IsPriorPcb(aged[h]) && HasCpuHead(aged[h]) &&
      Scheduled(ready, pcbs, timer, cfg) == aged[h := Dispatched(aged[h], cfg, timer)]
  {
    assert ready[..|ready|] == ready;
    PriorityScan.AgedUpToAt(ready, pcbs, Ager(timer, cfg.agingThreshold), |ready|, PriorityPick(ready, pcbs, timer, cfg.agingThreshold));
  }

  /** The tail of schedPriority: dispatch, the cut when preemptive, and the reset. */
  method DispatchChosen(running: array<Option<Handle>>, base: seq<Pcb>, h: Handle, timer: int, cfg: PriorConfig)
    returns (pcbs': seq<Pcb>)
    requires None in running[..] && h < |base| && IsPriorPcb(base[h]) && HasCpuHead(base[h])
    modifies running
    ensures running[..] == Occupy(old(running[..]), h)
    ensures pcbs' == base[h := Dispatched(base[h], cfg, timer)]
  {
    pcbs' := Dispatcher(running, base, h, timer);
    var p := pcbs'[h];
    if cfg.preemptive {
      p := Preempt(p, cfg.quantum);
    }
    pcbs' := pcbs'[h := ResetAging(p)];
  }
}
