/**
 * Shortest job first of the src engine (src/sched_SJF.c). The choice is
 * made as in the scheduler/src revision, with two differences: the
 * estimate observes the PCB's run counter `duration` rather than the
 * length of its next burst, and the dispatch records no statistics and
 * does not mark a cut burst as a used quantum.
 */
module LegacySjf {
  import opened Wrappers
  import opened ProcessModel
  import opened SchedUtils
  import LinkedList
  import Sjf

  /**
   * The estimate of prediction: `w * min(duration, quantum) + (1 - w) *
   * previousPrediction`. The run counter is capped at the quantum even
   * when the quantum is zero. With a weight between 0 and 1 the estimate
   * lies between the capped counter and the previous prediction.
   */
  function LegacyPrediction(p: Pcb, quantum: int, w: real): (r: real)
    ensures 0.0 <= w <= 1.0 ==>
      Between(r, (if p.duration < quantum then p.duration else quantum) as real, Sjf.PrevPrediction(p))
    ensures w == 0.0 ==> r == Sjf.PrevPrediction(p)
  {
    Blended((if p.duration < quantum then p.duration else quantum) as real, Sjf.PrevPrediction(p), w);
    w * ((if p.duration < quantum then p.duration else quantum) as real) + (1.0 - w) * Sjf.PrevPrediction(p)
  }

  function LegacyEstimator(quantum: int, w: real): Pcb -> real {
    p => LegacyPrediction(p, quantum, w)
  }

  /**
   * The two revisions' estimates agree for a PCB whose run counter equals
   * the length of its next burst and a non-zero quantum; with a zero
   * quantum the older one observes nothing of the burst.
   */
  lemma EstimatesCompared(p: Pcb, quantum: int, w: real)
    ensures quantum != 0 && p.duration == HeadLength(p) ==>
      LegacyPrediction(p, quantum, w) == Sjf.NewPrediction(p, quantum, w)
    ensures quantum == 0 && p.duration >= 0 ==>
      LegacyPrediction(p, quantum, w) == (1.0 - w) * Sjf.PrevPrediction(p)
  {
  }

  /** The cut of the older schedSJF: sched_preemption's split, without the used-quantum mark. */
  function Split(p: Pcb, quantum: int): (r: Pcb)
    requires HasCpuHead(p)
    ensures p.events[0].duration > quantum ==>
      r.events == [Burst(CPU, quantum), Burst(CPU, p.events[0].duration - quantum)] + p.events[1..]
    ensures p.events[0].duration <= quantum ==> r == p
    ensures r.(events := p.events) == p
    ensures HasCpuHead(r) && CpuDemand(r.events) == CpuDemand(p.events)
  {
    Preempt(p, quantum).(quantumUsed := p.quantumUsed)
  }

  /**
   * schedSJF of the src engine: nothing on an empty ready list; otherwise
   * the pick is detached (after sorting, without prediction), takes the
   * first free core, and in the preemptive form has its burst split at
   * the quantum. No statistics are recorded.
   */
  method SchedSJF(ready: seq<Handle>, pcbs: seq<Pcb>, running: array<Option<Handle>>, cfg: Sjf.SjfConfig, w: real)
    returns (ready': seq<Handle>, pcbs': seq<Pcb>)
    requires LinkedList.Distinct(ready)
    requires forall h :: h in ready ==> h < |pcbs| && HasCpuHead(pcbs[h])
    requires ready != [] ==> None in running[..]
    modifies running
    ensures ready == [] ==> ready' == [] && pcbs' == pcbs && running[..] == old(running[..])
    ensures ready != [] ==>
      var h := Sjf.SjfPick(ready, pcbs, cfg, LegacyEstimator(cfg.quantum, w));
      var base := Sjf.Chosen(ready, pcbs, cfg, LegacyEstimator(cfg.quantum, w));
      h < |base| && HasCpuHead(base[h]) &&
      running[..] == Occupy(old(running[..]), h) &&
      multiset(ready') == multiset(ready) - multiset{h} &&
      (cfg.prediction ==> ready' == LinkedList.Detach(ready, h)) &&
      (!cfg.prediction ==> LinkedList.SortedBy(ready', HeadKey(pcbs)) && LinkedList.StableSortOf([h] + ready', ready, HeadKey(pcbs))) &&
      pcbs' == base[h := if cfg.preemptive then Split(base[h], cfg.quantum) else base[h]]
    ensures ShapeKept(pcbs, pcbs')
  {
    if ready == [] {
      return ready, pcbs;
    }
    var h, queue, base := Sjf.Choose(ready, pcbs, cfg, LegacyEstimator(cfg.quantum, w));
    LinkedList.DetachRemoves(queue, h);
    ready' := LinkedList.Detach(queue, h);
    if !cfg.prediction {
      Sjf.SortedTail(queue, HeadKey(pcbs));
    }
    assert base[h].(args := pcbs[h].args, duration := pcbs[h].duration) == pcbs[h];
    TakeFreeCore(running, h);
    pcbs' := base;
    if cfg.preemptive {
      pcbs' := pcbs'[h := Split(pcbs'[h], cfg.quantum)];
    }
    SplitShape(pcbs, base, h, cfg.quantum, cfg.preemptive);
  }

  /** Scanning and dispatching keep every PCB's identity and next-burst kind. */
  lemma SplitShape(pcbs: seq<Pcb>, base: seq<Pcb>, h: Handle, quantum: int, cut: bool)
    requires |base| == |pcbs| && h < |base| && HasCpuHead(base[h])
    requires forall g :: 0 <= g < |pcbs| ==> base[g].(args := pcbs[g].args, duration := pcbs[g].duration) == pcbs[g]
    ensures ShapeKept(pcbs, base[h := if cut then Split(base[h], quantum) else base[h]])
  {
    var r := base[h := if cut then Split(base[h], quantum) else base[h]];
    forall g | 0 <= g < |pcbs| ensures r[g].pid == pcbs[g].pid && HeadKind(r[g]) == HeadKind(pcbs[g]) {
      assert base[g].(args := pcbs[g].args, duration := pcbs[g].duration) == pcbs[g];
    }
  }
}
