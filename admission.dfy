/**
 * Admission as both fake_os.c revisions do it, stated over values: the
 * PCB createPcb builds from a process read from the traces (its policy
 * state depending on the revision and the installed kind of scheduler),
 * where it is routed, and the admissions of one step over the list of
 * processes to come.
 */
module Admission {
  import opened Wrappers
  import opened ProcessModel
  import opened SchedUtils
  import Mlfq
  import opened Places
  import opened Steps

  /**
   * Who builds the PCB: the newer engine with its installed kind, or the
   * older one with its kind (none before setScheduler) and the aging
   * threshold its priority policy reads.
   */
  datatype Maker =
    | NewerMaker(kind: SchedulerType)
    | OlderMaker(legacy: Option<LegacySchedulerType>, threshold: int)

  /** Where a kind of scheduler keeps the PCBs waiting for the CPU, and what state they carry. */
  function FamilyOf(kind: SchedulerType): Family {
    match kind
    case Priority => PriorFamily
    case PriorityPreemptive => PriorFamily
    case Mlq => MlqFamily
    case Mlfq => MlfqFamily
    case _ => PlainFamily
  }

  /**
   * The per-process state setArgs gives a new PCB: a zero prediction for
   * the predicting SJF forms, the trace's priority for the priority
   * policy and as the MLQ level, the top level for MLFQ.
   */
  function ArgsFor(kind: SchedulerType, p: FakeProcess): ProcArgs {
    match kind
    case SjfPredict => ProcSjf(0.0)
    case SjfPredictPreemptive => ProcSjf(0.0)
    case Priority => ProcPrior(0, p.priority)
    case PriorityPreemptive => ProcPrior(0, p.priority)
    case Mlq => ProcMlq(p.priority)
    case Mlfq => ProcMlfq(0, 0)
    case _ => NoArgs
  }

  /** Where an older kind of scheduler keeps the PCBs waiting for the CPU, and what state they carry. */
  function LegacyFamilyOf(kind: Option<LegacySchedulerType>): Family {
    if kind == Some(LegacyPriority) || kind == Some(LegacyPriorityPreemptive) then LegacyPriorFamily else PlainFamily
  }

  /**
   * The per-process state the older engine gives a new PCB: a zero
   * prediction for the predicting SJF forms; for the priority policy the
   * current priority createPcb sets to the trace's priority, no aging yet,
   * and the aging threshold.
   */
  function LegacyArgsFor(kind: Option<LegacySchedulerType>, p: FakeProcess, threshold: int): ProcArgs {
    match kind
    case Some(LegacySjfPredict) => ProcSjf(0.0)
    case Some(LegacySjfPredictPreemptive) => ProcSjf(0.0)
    case Some(LegacyPriority) => ProcLegacyPrior(0, p.priority, threshold)
    case Some(LegacyPriorityPreemptive) => ProcLegacyPrior(0, p.priority, threshold)
    case _ => NoArgs
  }

  /** The family of the maker's policy. */
  function MakerFamily(m: Maker): Family {
    match m
    case NewerMaker(kind) => FamilyOf(kind)
    case OlderMaker(kind, _) => LegacyFamilyOf(kind)
  }

  /** The router of the maker's createPcb: the older one records no ready enqueue. */
  function MakerRouter(m: Maker): Router {
    if m.NewerMaker? then Newer else OlderAdmission
  }

  /** The per-process state the maker gives a new PCB. */
  function MakerArgs(m: Maker, p: FakeProcess): ProcArgs {
    match m
    case NewerMaker(kind) => ArgsFor(kind, p)
    case OlderMaker(kind, threshold) => LegacyArgsFor(kind, p, threshold)
  }

  /** What the engine admits: pids start at 1 and priorities are ProcessPriority values. */
  predicate Admissible(p: FakeProcess) {
    p.pid >= 1 && 0 <= p.priority < MAX_PRIORITY
  }

  /**
   * The PCB createPcb builds: the process's pid, bursts and priority, a
   * zero run counter, no used quantum, its policy state, and statistics
   * that are zero but for the arrival time.
   */
  function NewPcb(m: Maker, p: FakeProcess, timer: int): (r: Pcb)
    ensures r.pid == p.pid && r.events == p.events && r.priority == p.priority
    ensures r.duration == 0 && !r.quantumUsed && r.args == MakerArgs(m, p)
    ensures r.stats == InitStats().(arrival := timer)
  {
    Pcb(p.pid, p.priority, 0, false, p.events, MakerArgs(m, p), Stamped(MakerRouter(m), InitStats(), ArrivalTime, timer), 0, 0)
  }

  /** An admissible process yields a PCB with a valid pid and the state its policy reads. */
  lemma NewPcbFits(m: Maker, p: FakeProcess, timer: int)
    requires Admissible(p)
    ensures NewPcb(m, p, timer).pid > 0 && ArgsOk(MakerFamily(m), NewPcb(m, p, timer))
  {
  }

  /** What routing the PCB `h` needs: it is in the arena, on no list and at no level. */
  ghost predicate CanRoute(q: Queues, h: Handle, fam: Family) {
    h < |q.pcbs| && ArgsOk(fam, q.pcbs[h]) && |q.levels| == LevelCount(fam) &&
    h !in q.waiting && (!Leveled(fam) ==> h !in q.ready) &&
    (fam == MlfqFamily ==> Mlfq.Placed(q.levels, q.pcbs) && Mlfq.Unqueued(q.levels, h)) &&
    (fam == MlqFamily ==> forall i :: 0 <= i < |q.levels| ==> h !in q.levels[i])
  }

  /** A PCB in transit can be routed. */
  lemma RoutePre(q: Queues, slots: seq<Option<Handle>>, loc: seq<Loc>, fam: Family, h: Handle)
    requires Consistent(q, slots, loc, fam) && h < |loc| && loc[h] == Transit
    ensures CanRoute(q, h, fam)
  {
    TransitNowhere(q, slots, loc, fam, h);
  }

  /**
   * The admissions of one step: each process due at `timer`, in list
   * order, becomes the next PCB of the arena and is routed by its first
   * burst; the other processes are passed over.
   */
  ghost function Admitted(q: Queues, ps: seq<FakeProcess>, m: Maker, timer: int): (r: Queues)
    requires |q.levels| == LevelCount(MakerFamily(m)) && forall k :: 0 <= k < |ps| ==> Admissible(ps[k])
    ensures |r.levels| == |q.levels|
    decreases |ps|
  {
    if ps == [] then q
    else
      var r := Admitted(q, ps[..|ps| - 1], m, timer);
      var x := ps[|ps| - 1];
      if x.arrival != timer then r
      else
        NewPcbFits(m, x, timer);
        Routed(r.(pcbs := r.pcbs + [NewPcb(m, x, timer)]), |r.pcbs|, MakerFamily(m), MakerRouter(m), timer)
  }

  /**
   * The admissions leave the PCBs already in the arena alone, and the new
   * ones take the next handles, in arrival order, with the pid and the
   * bursts of the processes due.
   */
  lemma {:induction false} AdmittedNew(q: Queues, ps: seq<FakeProcess>, m: Maker, timer: int)
    requires |q.levels| == LevelCount(MakerFamily(m)) && forall k :: 0 <= k < |ps| ==> Admissible(ps[k])
    ensures var r := Admitted(q, ps, m, timer);
      var due := Arriving(ps, timer);
      |r.pcbs| == |q.pcbs| + |due| &&
      (forall g :: 0 <= g < |q.pcbs| ==> r.pcbs[g] == q.pcbs[g]) &&
      forall k :: 0 <= k < |due| ==> r.pcbs[|q.pcbs| + k].pid == due[k].pid && r.pcbs[|q.pcbs| + k].events == due[k].events
    decreases |ps|
  {
    if ps != [] {
      var init := ps[..|ps| - 1];
      AdmittedNew(q, init, m, timer);
      var x := ps[|ps| - 1];
      if x.arrival == timer {
        var r := Admitted(q, init, m, timer);
        NewPcbFits(m, x, timer);
        var r' := r.(pcbs := r.pcbs + [NewPcb(m, x, timer)]);
        assert forall g :: 0 <= g < |r.pcbs| ==> r'.pcbs[g] == r.pcbs[g];
      }
    }
  }

  /** The admissions over one more process: a process not due changes nothing. */
  lemma AdmittedStep(q: Queues, ps: seq<FakeProcess>, i: nat, m: Maker, timer: int)
    requires i < |ps| && |q.levels| == LevelCount(MakerFamily(m)) && forall k :: 0 <= k < |ps| ==> Admissible(ps[k])
    ensures ArgsOk(MakerFamily(m), NewPcb(m, ps[i], timer))
    ensures var r := Admitted(q, ps[..i], m, timer);
      Admitted(q, ps[..i + 1], m, timer) ==
      if ps[i].arrival != timer then r
      else Routed(r.(pcbs := r.pcbs + [NewPcb(m, ps[i], timer)]), |r.pcbs|, MakerFamily(m), MakerRouter(m), timer)
  {
    NewPcbFits(m, ps[i], timer);
    assert ps[..i + 1][..i] == ps[..i];
  }

  /** The arrival scan keeps its invariant over one more process, due or not. */
  lemma ScanAdvance(q0: Queues, ps: seq<FakeProcess>, i: nat, m: Maker, timer: int,
                    procs: seq<FakeProcess>, before: Queues, procs': seq<FakeProcess>, after: Queues, k: nat)
    requires i < |ps| && |q0.levels| == LevelCount(MakerFamily(m)) && forall j :: 0 <= j < |ps| ==> Admissible(ps[j])
    requires procs == Staying(ps[..i], timer) + ps[i..] && k == |Staying(ps[..i], timer)|
    requires before == Admitted(q0, ps[..i], m, timer)
    requires ps[i].arrival != timer ==> procs' == procs && after == before
    requires ps[i].arrival == timer ==>
      ArgsOk(MakerFamily(m), NewPcb(m, ps[i], timer)) && k < |procs| &&
      procs' == procs[..k] + procs[k + 1..] &&
      after == Routed(before.(pcbs := before.pcbs + [NewPcb(m, ps[i], timer)]), |before.pcbs|, MakerFamily(m), MakerRouter(m), timer)
    ensures procs' == Staying(ps[..i + 1], timer) + ps[i + 1..]
    ensures |Staying(ps[..i + 1], timer)| == if ps[i].arrival == timer then k else k + 1
    ensures after == Admitted(q0, ps[..i + 1], m, timer)
  {
    ScanOne(ps, i, timer);
    AdmittedStep(q0, ps, i, m, timer);
  }

  /** One more process looked at by the arrival scan: it either arrives or stays, at the end of its list. */
  lemma ScanOne(ps: seq<FakeProcess>, i: nat, timer: int)
    requires i < |ps|
    ensures var st := Staying(ps[..i], timer);
      var l := st + ps[i..];
      l[|st|] == ps[i] &&
      (ps[i].arrival == timer ==> Staying(ps[..i + 1], timer) == st && l[..|st|] + l[|st| + 1..] == st + ps[i + 1..]) &&
      (ps[i].arrival != timer ==> Staying(ps[..i + 1], timer) == st + [ps[i]] && l == st + [ps[i]] + ps[i + 1..])
  {
    assert ps[..i + 1][..i] == ps[..i];
    assert ps[i..] == [ps[i]] + ps[i + 1..];
  }
}
