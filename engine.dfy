/**
 * What both fake_os.c revisions do on every tick, stated over values: the
 * core scan of cpuFull, the run counters increaseDuration advances, the
 * integer sums of calculateStatistics, where enqueueProcess sends a PCB,
 * and the waiting and running scans of simStep. The engine classes
 * (FakeOs, LegacyOs) run these as loops and are specified by them.
 *
 * A PCB is always in exactly one place (Loc): queued for the CPU, waiting
 * for I/O, on a core, done, or in transit between two of these inside one
 * step. Consistent ties the lists, the levels and the cores to that place.
 */
module Engine {
  import opened Wrappers
  import opened ProcessModel
  import opened SchedUtils

  // ---------------------------------------------------------------------
  // cpuFull and increaseDuration
  // ---------------------------------------------------------------------

  /** Every occupied core holds a PCB of the arena. */
  predicate SlotsInArena(slots: seq<Option<Handle>>, pcbs: seq<Pcb>) {
    forall i :: 0 <= i < |slots| && slots[i].Some? ==> slots[i].value < |pcbs|
  }

  /** No PCB is on two cores. */
  predicate DistinctOccupants(slots: seq<Option<Handle>>) {
    forall i, j :: 0 <= i < j < |slots| && slots[i].Some? && slots[j].Some? ==> slots[i].value != slots[j].value
  }

  /** What cpuFull tests: every core holds a PCB, and none of them has pid 0. */
  predicate AllBusy(slots: seq<Option<Handle>>, pcbs: seq<Pcb>)
    requires SlotsInArena(slots, pcbs)
  {
    forall i :: 0 <= i < |slots| ==> slots[i].Some? && pcbs[slots[i].value].pid != 0
  }

  /** cpuFull: 1 exactly when every core holds a PCB with a non-zero pid. */
  method CpuFull(running: array<Option<Handle>>, pcbs: seq<Pcb>) returns (full: bool)
    requires SlotsInArena(running[..], pcbs)
    ensures full <==> AllBusy(running[..], pcbs)
  {
    var i := 0;
    while i < running.Length
      invariant 0 <= i <= running.Length
      invariant forall j :: 0 <= j < i ==> running[j].Some? && pcbs[running[j].value].pid != 0
    {
      if running[i].None? || pcbs[running[i].value].pid == 0 {
        return false;
      }
      i := i + 1;
    }
    return true;
  }

  /**
   * With pids starting at 1, "not full" is exactly "some core is free",
   * which is what every dispatch needs.
   */
  lemma NotFullHasFreeCore(slots: seq<Option<Handle>>, pcbs: seq<Pcb>)
    requires SlotsInArena(slots, pcbs)
    requires forall i :: 0 <= i < |slots| && slots[i].Some? ==> pcbs[slots[i].value].pid > 0
    ensures !AllBusy(slots, pcbs) <==> None in slots
  {
    if None in slots {
      var k :| 0 <= k < |slots| && slots[k] == None;
      assert slots[k].None?;
    }
  }

  /**
   * A PCB with pid 0 on the only core makes the engine believe a core is
   * free when none is, so the dispatch that follows would find no free
   * core: the argument rests on pids starting at 1.
   */
  lemma PidZeroLooksFree(p: Pcb)
    requires p.pid == 0
    ensures SlotsInArena([Some(0)], [p]) && !AllBusy([Some(0)], [p]) && None !in [Some(0 as Handle)]
  {
    assert [p][[Some(0 as Handle)][0].value].pid == 0;
  }

  /** The index of the first free core from `i` on (the number of cores when none is free). */
  function GapFrom(slots: seq<Option<Handle>>, i: nat): (g: nat)
    requires i <= |slots|
    ensures i <= g <= |slots| && (g < |slots| ==> slots[g].None?)
    ensures forall j :: i <= j < g ==> slots[j].Some?
    decreases |slots| - i
  {
    if i == |slots| || slots[i].None? then i else GapFrom(slots, i + 1)
  }

  /** The cores increaseDuration looks at: those before the first free one. */
  function Gap(slots: seq<Option<Handle>>): nat {
    GapFrom(slots, 0)
  }

  /** The PCBs whose run counter increaseDuration advances. */
  predicate Reached(slots: seq<Option<Handle>>, pcbs: seq<Pcb>, h: Handle)
    requires h < |pcbs|
  {
    GapFrom(slots, 0) <= |slots| && Some(h) in slots[..GapFrom(slots, 0)] && pcbs[h].pid != 0
  }

  /**
   * increaseDuration: the scan stops at the first free core, and every PCB
   * with a non-zero pid before it runs one tick longer. Nothing else
   * changes.
   */
  method IncreaseDuration(running: array<Option<Handle>>, pcbs: seq<Pcb>) returns (pcbs': seq<Pcb>)
    requires SlotsInArena(running[..], pcbs) && DistinctOccupants(running[..])
    ensures |pcbs'| == |pcbs|
    ensures forall h :: 0 <= h < |pcbs| ==>
      pcbs'[h] == if Reached(running[..], pcbs, h) then pcbs[h].(duration := pcbs[h].duration + 1) else pcbs[h]
  {
    ghost var slots := running[..];
    pcbs' := pcbs;
    var i := 0;
    while i < running.Length && running[i].Some?
      invariant 0 <= i <= Gap(slots) && |pcbs'| == |pcbs|
      invariant forall j :: 0 <= j < i ==> slots[j].Some?
      invariant forall h :: 0 <= h < |pcbs| ==>
        pcbs'[h] == if Some(h) in slots[..i] && pcbs[h].pid != 0 then pcbs[h].(duration := pcbs[h].duration + 1) else pcbs[h]
      decreases running.Length - i
    {
      var h := running[i].value;
      assert slots[..i + 1] == slots[..i] + [Some(h)];
      assert Some(h) !in slots[..i] by {
        forall j | 0 <= j < i ensures slots[..i][j] != Some(h) {
          assert slots[j].Some? && slots[i].Some?;
        }
      }
      if pcbs'[h].pid != 0 {
        pcbs' := pcbs'[h := pcbs'[h].(duration := pcbs'[h].duration + 1)];
      }
      i := i + 1;
    }
    assert i == Gap(slots);
  }

  /** With no free core, increaseDuration reaches every running PCB with a non-zero pid. */
  lemma NoGapReachesAll(slots: seq<Option<Handle>>, pcbs: seq<Pcb>, h: Handle)
    requires None !in slots && h < |pcbs|
    ensures Reached(slots, pcbs, h) <==> Some(h) in slots && pcbs[h].pid != 0
  {
    assert forall j :: 0 <= j < |slots| ==> slots[j] in slots;
    assert Gap(slots) == |slots|;
    assert slots[..|slots|] == slots;
  }

  /**
   * A free first core hides the second one from increaseDuration: the PCB
   * running there is not advanced.
   */
  lemma GapHidesLaterCore(p: Pcb)
    requires p.pid == 1
    ensures !Reached([None, Some(0)], [p], 0) && Some(0 as Handle) in [None, Some(0 as Handle)]
  {
    assert GapFrom([None, Some(0 as Handle)], 0) == 0;
  }

  // ---------------------------------------------------------------------
  // calculateStatistics
  // ---------------------------------------------------------------------

  /** The integer sums calculateStatistics builds over terminated_stats. */
  datatype Totals = Totals(turnaround: int, waiting: int, response: int, count: nat)

  /** The sums over a list of records: turnaround as completion minus arrival. */
  function Summed(records: seq<Stats>): (t: Totals)
    ensures t.count == |records|
  {
    if records == [] then Totals(0, 0, 0, 0)
    else
      var t := Summed(records[..|records| - 1]);
      var s := records[|records| - 1];
      Totals(t.turnaround + (s.complete - s.arrival), t.waiting + s.waiting, t.response + s.response, t.count + 1)
  }

  /** Two lists summed separately add up to the sums over both. */
  lemma {:induction false} SummedAppend(a: seq<Stats>, b: seq<Stats>)
    ensures Summed(a + b) == Totals(Summed(a).turnaround + Summed(b).turnaround, Summed(a).waiting + Summed(b).waiting,
                                    Summed(a).response + Summed(b).response, |a| + |b|)
    decreases |b|
  {
    if b != [] {
      assert (a + b)[..|a + b| - 1] == a + b[..|b| - 1];
      SummedAppend(a, b[..|b| - 1]);
    } else {
      assert a + b == a;
    }
  }

  /** One more terminated process adds its own times to the sums. */
  lemma SummedOneMore(records: seq<Stats>, s: Stats)
    ensures Summed(records + [s]) ==
      Totals(Summed(records).turnaround + (s.complete - s.arrival), Summed(records).waiting + s.waiting,
             Summed(records).response + s.response, |records| + 1)
  {
    assert (records + [s])[..|records|] == records;
  }

  /**
   * The loop of calculateStatistics over terminated_stats, keeping the
   * integer sums and the count (the averages it prints from them are not
   * modelled).
   */
  method CalculateStatistics(records: seq<Stats>) returns (t: Totals)
    ensures t == Summed(records)
  {
    t := Totals(0, 0, 0, 0);
    var i := 0;
    while i < |records|
      invariant 0 <= i <= |records| && t == Summed(records[..i])
    {
      assert records[..i + 1][..i] == records[..i];
      var s := records[i];
      t := Totals(t.turnaround + (s.complete - s.arrival), t.waiting + s.waiting, t.response + s.response, t.count + 1);
      i := i + 1;
    }
    assert records[..i] == records;
  }
}
