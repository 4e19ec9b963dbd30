/** Round robin (src/sched_RR.c), used by both engines and by MLQ/MLFQ levels. */
module RoundRobin {
  import opened Wrappers
  import opened ProcessModel
  import opened SchedUtils
  import LinkedList

  /** RRArgs: the quantum applies only when the policy asked for is RR. */
  function RRArgs(quantum: int, scheduler: SchedulerType): (q: int)
    ensures scheduler == RR ==> q == quantum
    ensures scheduler != RR ==> q == 0
  {
    if scheduler == RR then quantum else 0
  }

  /**
   * schedRR: the head of the ready list has its run counter reset, its
   * CPU burst cut at the quantum, and takes the first free core. No
   * statistics are taken.
   */
  method SchedRR(ready: seq<Handle>, pcbs: seq<Pcb>, running: array<Option<Handle>>, quantum: int)
    returns (ready': seq<Handle>, pcbs': seq<Pcb>)
    requires ready != [] ==> None in running[..] && ready[0] < |pcbs| && HasCpuHead(pcbs[ready[0]])
    modifies running
    ensures ready == [] ==> ready' == [] && pcbs' == pcbs && running[..] == old(running[..])
    ensures ready != [] ==>
      ready' == ready[1..] &&
      pcbs' == pcbs[ready[0] := Preempt(pcbs[ready[0]].(duration := 0), quantum)] &&
      running[..] == Occupy(old(running[..]), ready[0])
  {
    if ready == [] {
      return ready, pcbs;
    }
    var p := LinkedList.PopFront(ready);
    var h := p.0;
    ready' := p.1;
    pcbs' := pcbs[h := Preempt(pcbs[h].(duration := 0), quantum)];
    TakeFreeCore(running, h);
  }

  /** The burst a round-robin dispatch starts is never longer than the quantum, and no CPU time is lost. */
  lemma RRDispatchBounded(p: Pcb, quantum: int)
    requires HasCpuHead(p)
    ensures var r := Preempt(p.(duration := 0), quantum);
      r.events[0].duration <= quantum && CpuDemand(r.events) == CpuDemand(p.events) && r.pid == p.pid
  {
  }
}
