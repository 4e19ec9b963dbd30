/**
 * Priority scheduling with aging in the src engine (src/sched_Priority.c).
 * The aging threshold lives in each PCB's own priority state. The source
 * subtracts the unsigned `last_aging` from the timer, an unsigned
 * difference; it is written here as the plain difference, which is the
 * same value as long as `last_aging` is never ahead of the timer: it
 * starts at 0 and is only ever set to the current time.
 */
module LegacyPriority {
  import opened Wrappers
  import opened ProcessModel
  import opened SchedUtils
  import LinkedList
  import PriorityScan

  /** SchedPriorArgs of the src engine: no aging threshold. */
  datatype LegacyPriorConfig = LegacyPriorConfig(preemptive: bool, quantum: int)

  /** PriorArgs: only the preemptive priority policy cuts bursts and keeps the quantum. */
  function PriorArgs(quantum: int, scheduler: LegacySchedulerType): (c: LegacyPriorConfig)
    ensures c.preemptive <==> scheduler == LegacyPriorityPreemptive
    ensures c.quantum == (if scheduler == LegacyPriorityPreemptive then quantum else 0)
  {
    var preemptive := scheduler == LegacyPriorityPreemptive;
    LegacyPriorConfig(preemptive, if preemptive then quantum else 0)
  }

  /** A PCB this policy can work on: it carries the src engine's ProcPriorArgs. */
  predicate IsPriorPcb(p: Pcb) {
    p.args.ProcLegacyPrior?
  }

  /** resetAging: the current priority goes back to the base priority; nothing else changes. */
  function ResetAging(p: Pcb): (r: Pcb)
    requires IsPriorPcb(p)
    ensures IsPriorPcb(r) && r.args.currPriority == p.priority
    ensures r.args.lastAging == p.args.lastAging && r.args.agingThreshold == p.args.agingThreshold
    ensures r.(args := p.args) == p
  {
    p.(args := ProcLegacyPrior(p.args.lastAging, p.priority, p.args.agingThreshold))
  }

  /** When agingProc moves a PCB up: its threshold has passed since it last aged and it is below HIGH. */
  predicate AgingDue(p: Pcb, timer: int) {
    IsPriorPcb(p) && timer - p.args.lastAging >= p.args.agingThreshold && p.args.currPriority > HIGH
  }

  /** agingProc: one step better when due, with the aging time recorded. */
  function Aged(p: Pcb, timer: int): (r: Pcb)
    ensures r.(args := p.args) == p
    ensures IsPriorPcb(r) <==> IsPriorPcb(p)
    ensures !AgingDue(p, timer) ==> r == p
    ensures AgingDue(p, timer) ==>
      r.args == ProcLegacyPrior(timer, p.args.currPriority - 1, p.args.agingThreshold) && r.args.currPriority >= HIGH
  {
    if AgingDue(p, timer) then
      p.(args := ProcLegacyPrior(timer, p.args.currPriority - 1, p.args.agingThreshold))
    else p
  }

  /**
   * Aging never makes a PCB worse and never lifts it past HIGH: a PCB at
   * HIGH or better is left alone.
   */
  lemma AgingBounded(p: Pcb, timer: int)
    requires IsPriorPcb(p)
    ensures Aged(p, timer).args.currPriority <= p.args.currPriority
    ensures p.args.currPriority <= HIGH ==> Aged(p, timer) == p
    ensures p.args.currPriority > HIGH ==> Aged(p, timer).args.currPriority >= HIGH
  {
  }

  /** With a positive threshold a PCB ages at most once in a tick. */
  lemma AgingOncePerTick(p: Pcb, timer: int)
    requires IsPriorPcb(p) && p.args.agingThreshold > 0
    ensures Aged(Aged(p, timer), timer) == Aged(p, timer)
  {
    var q := Aged(p, timer);
    if AgingDue(p, timer) {
      assert timer - q.args.lastAging == 0;
    }
  }

  /** agingProc as the scan applies it at this tick. */
  function Ager(timer: int): Pcb -> Pcb {
    p => Aged(p, timer)
  }

  /** Every ready PCB is one this policy works on. */
  predicate ReadyOk(items: seq<Handle>, pcbs: seq<Pcb>) {
    forall h :: h in items ==> h < |pcbs| && IsPriorPcb(pcbs[h]) && HasCpuHead(pcbs[h])
  }

  /** The PCB schedPriority dispatches. */
  function PriorityPick(ready: seq<Handle>, pcbs: seq<Pcb>, timer: int): (h: Handle)
    requires ready != [] && ReadyOk(ready, pcbs)
    ensures h in ready && h < |pcbs|
  {
    PriorityScan.PriorityPick(ready, pcbs, Ager(timer))
  }

  /**
   * After aging, no ready PCB has a better current priority than the one
   * dispatched, and every PCB ahead of it has a strictly worse one.
   */
  lemma PickIsFirstBest(ready: seq<Handle>, pcbs: seq<Pcb>, timer: int)
    requires ready != [] && ReadyOk(ready, pcbs)
    ensures var h := PriorityPick(ready, pcbs, timer);
      forall k :: 0 <= k < |ready| ==>
        ready[k] in ready &&
        Aged(pcbs[h], timer).args.currPriority <= Aged(pcbs[ready[k]], timer).args.currPriority
    ensures var h := PriorityPick(ready, pcbs, timer);
      forall j :: 0 <= j < LinkedList.IndexOf(ready, h) ==>
        Aged(pcbs[h], timer).args.currPriority < Aged(pcbs[ready[j]], timer).args.currPriority
  {
    PriorityScan.PickIsFirstBest(ready, pcbs, Ager(timer));
  }

  /**
   * What dispatch does to the chosen PCB: schedule records the waiting
   * time, the preemptive form cuts the burst, and the priority is reset.
   */
  function Dispatched(p: Pcb, cfg: LegacyPriorConfig, timer: int): (r: Pcb)
    requires IsPriorPcb(p) && HasCpuHead(p)
    ensures IsPriorPcb(r) && r.args.currPriority == p.priority
    ensures r.args.lastAging == p.args.lastAging && r.args.agingThreshold == p.args.agingThreshold
    ensures LegacyUpdateStats(p.stats, WaitingTime, timer) == Ok(r.stats)
    ensures cfg.preemptive ==> r.events == Preempt(p, cfg.quantum).events && r.quantumUsed == Preempt(p, cfg.quantum).quantumUsed
    ensures !cfg.preemptive ==> r.events == p.events && r.quantumUsed == p.quantumUsed
    ensures r.pid == p.pid && r.priority == p.priority && r.duration == p.duration
    ensures HeadKind(r) == HeadKind(p)
  {
    var p2 := p.(stats := UpdateStats(p.stats, WaitingTime, timer));
    ResetAging(if cfg.preemptive then Preempt(p2, cfg.quantum) else p2)
  }

  /**
   * The arena after a schedPriority pass on a non-empty ready list: every
   * ready PCB aged, and the chosen one dispatched and reset.
   */
  function Scheduled(ready: seq<Handle>, pcbs: seq<Pcb>, timer: int, cfg: LegacyPriorConfig): (r: seq<Pcb>)
    requires ready != [] && LinkedList.Distinct(ready) && ReadyOk(ready, pcbs)
    ensures |r| == |pcbs|
  {
    var h := PriorityPick(ready, pcbs, timer);
    var aged := PriorityScan.AgedUpTo(ready, pcbs, Ager(timer), |ready|);
    assert ready[..|ready|] == ready;
    PriorityScan.AgedUpToAt(ready, pcbs, Ager(timer), |ready|, h);
    aged[h := Dispatched(aged[h], cfg, timer)]
  }

  /**
   * What a schedPriority pass does to the arena: the chosen PCB has its
   * dispatch recorded and its priority reset to the base one, every other
   * ready PCB is aged once, the rest are untouched, and every PCB keeps
   * its identity and the kind of its next burst.
   */
  lemma ScheduledEffect(ready: seq<Handle>, pcbs: seq<Pcb>, timer: int, cfg: LegacyPriorConfig)
    requires ready != [] && LinkedList.Distinct(ready) && ReadyOk(ready, pcbs)
    ensures ShapeKept(pcbs, Scheduled(ready, pcbs, timer, cfg))
    ensures var h := PriorityPick(ready, pcbs, timer);
      var r := Scheduled(ready, pcbs, timer, cfg);
      r[h].args == ProcLegacyPrior(Aged(pcbs[h], timer).args.lastAging, pcbs[h].priority, pcbs[h].args.agingThreshold) &&
      r[h].stats == UpdateStats(pcbs[h].stats, WaitingTime, timer)
    ensures forall g :: 0 <= g < |pcbs| && g != PriorityPick(ready, pcbs, timer) ==>
      Scheduled(ready, pcbs, timer, cfg)[g] == (if g in ready then Aged(pcbs[g], timer) else pcbs[g])
  {
    var h := PriorityPick(ready, pcbs, timer);
    PriorityScan.AgedEverywhere(ready, pcbs, Ager(timer));
    var r := Scheduled(ready, pcbs, timer, cfg);
    forall g | 0 <= g < |pcbs| ensures r[g].pid == pcbs[g].pid && HeadKind(r[g]) == HeadKind(pcbs[g]) {
    }
  }

  /**
   * schedPriority: nothing happens on an empty ready list. Otherwise every
   * ready PCB is aged, the chosen one is detached and scheduled on the
   * first free core, its burst is cut in the preemptive form, and its
   * priority goes back to the base one.
   */
  method SchedPriority(ready: seq<Handle>, pcbs: seq<Pcb>, running: array<Option<Handle>>, timer: int, cfg: LegacyPriorConfig)
    returns (ready': seq<Handle>, pcbs': seq<Pcb>)
    requires LinkedList.Distinct(ready) && ReadyOk(ready, pcbs)
    requires ready != [] ==> None in running[..]
    modifies running
    ensures ready == [] ==> ready' == [] && pcbs' == pcbs && running[..] == old(running[..])
    ensures ready != [] ==>
      var h := PriorityPick(ready, pcbs, timer);
      running[..] == Occupy(old(running[..]), h) &&
      ready' == LinkedList.Detach(ready, h) &&
      pcbs' == Scheduled(ready, pcbs, timer, cfg)
  {
    if ready == [] {
      return ready, pcbs;
    }
    var pick, aged := PriorityScan.GetByPriority(ready, pcbs, Ager(timer));
    var h := pick.value;
    ready' := LinkedList.Detach(ready, h);
    ScheduledFromScan(ready, pcbs, timer, cfg, aged);
    pcbs' := DispatchChosen(running, aged, h, timer, cfg);
  }

  /** The arena the scan leaves, with the chosen PCB dispatched, is Scheduled's. */
  lemma ScheduledFromScan(ready: seq<Handle>, pcbs: seq<Pcb>, timer: int, cfg: LegacyPriorConfig, aged: seq<Pcb>)
    requires ready != [] && LinkedList.Distinct(ready) && ReadyOk(ready, pcbs)
    requires aged == PriorityScan.AgedUpTo(ready, pcbs, Ager(timer), |ready|)
    ensures var h := PriorityPick(ready, pcbs, timer);
      h < |aged| && IsPriorPcb(aged[h]) && HasCpuHead(aged[h]) &&
      Scheduled(ready, pcbs, timer, cfg) == aged[h := Dispatched(aged[h], cfg, timer)]
  {
    assert ready[..|ready|] == ready;
    PriorityScan.AgedUpToAt(ready, pcbs, Ager(timer), |ready|, PriorityPick(ready, pcbs, timer));
  }

  /** The tail of schedPriority: schedule, the cut when preemptive, and the reset. */
  method DispatchChosen(running: array<Option<Handle>>, base: seq<Pcb>, h: Handle, timer: int, cfg: LegacyPriorConfig)
    returns (pcbs': seq<Pcb>)
    requires None in running[..] && h < |base| && IsPriorPcb(base[h]) && HasCpuHead(base[h])
    modifies running
    ensures running[..] == Occupy(old(running[..]), h)
    ensures pcbs' == base[h := Dispatched(base[h], cfg, timer)]
  {
    pcbs' := Dispatcher(running, base, h, timer);
    var p := pcbs'[h];
    if cfg.preemptive {
      p := Preempt(p, cfg.quantum);
    }
    pcbs' := pcbs'[h := ResetAging(p)];
  }
}
