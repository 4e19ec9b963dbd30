/** First come, first served (src/sched_FCFS.c), used by both engines. */
module Fcfs {
  import opened Wrappers
  import opened ProcessModel
  import opened SchedUtils
  import LinkedList

  /**
   * schedFCFS: the head of the ready list goes to the first free core with
   * its run counter reset. Nothing is split and no statistics are taken.
   */
  method SchedFCFS(ready: seq<Handle>, pcbs: seq<Pcb>, running: array<Option<Handle>>)
    returns (ready': seq<Handle>, pcbs': seq<Pcb>)
    requires ready != [] ==> None in running[..] && ready[0] < |pcbs|
    modifies running
    ensures ready == [] ==> ready' == [] && pcbs' == pcbs && running[..] == old(running[..])
    ensures ready != [] ==>
      ready' == ready[1..] &&
      pcbs' == pcbs[ready[0] := pcbs[ready[0]].(duration := 0)] &&
      running[..] == Occupy(old(running[..]), ready[0])
  {
    if ready == [] {
      return ready, pcbs;
    }
    var p := LinkedList.PopFront(ready);
    var h := p.0;
    ready' := p.1;
    pcbs' := pcbs[h := pcbs[h].(duration := 0)];
    TakeFreeCore(running, h);
  }
}
