/**
 * The engine of src/fake_os.c, the older revision: the same lists, cores,
 * clock and busy-time counter as scheduler/src/fake_os.c, with its own
 * rules. setScheduler knows no MLQ and refuses MLFQ; createPcb records no
 * ready enqueue; there is no enqueueProcess, and simStep routes a PCB
 * itself, resetting the priority state of a PCB that leaves a core for
 * I/O; statistics follow the older procUpdateStats; and the policy is
 * called only once one is installed. Every method keeps the engine
 * consistent with the place of every PCB (Places.Consistent over the
 * ghost `loc`) and is specified by the value functions of Places, Scans,
 * Steps and Admission.
 */
module LegacyOs {
  import opened Wrappers
  import opened ProcessModel
  import opened SchedUtils
  import LinkedList
  import Fcfs
  import RoundRobin
  import Sjf
  import LegacySjf
  import LegacyPriority
  import opened Engine
  import opened Places
  import opened Scans
  import opened Steps
  import opened Admission

  /** The policy the older setScheduler installs (`schedule_fn`) with its arguments (`schedule_args`). */
  datatype Policy =
    | UseFcfs
    | UseSjf(sjf: Sjf.SjfConfig)
    | UsePriority(prior: LegacyPriority.LegacyPriorConfig)
    | UseRR(quantum: int)

  /** The policy function each older kind of scheduler installs. */
  predicate Installs(kind: LegacySchedulerType, policy: Policy) {
    match policy
    case UseFcfs => kind == LegacyFcfs
    case UseSjf(_) => kind == LegacySjfPredict || kind == LegacySjfPredictPreemptive || kind == LegacySjfPure || kind == LegacySrtf
    case UsePriority(_) => kind == LegacyPriority || kind == LegacyPriorityPreemptive
    case UseRR(_) => kind == LegacyRR
  }

  /**
   * The switch of the older setScheduler: the policy function and its
   * arguments, or nothing for MLFQ, which it refuses. The SJF arguments
   * are given, and RRArgs keeps the quantum, the kind being RR.
   */
  function PolicyFor(kind: LegacySchedulerType, quantum: int, sjf: Sjf.SjfConfig): (r: Option<Policy>)
    ensures r.None? <==> kind == LegacyMlfq
    ensures r.Some? ==> Installs(kind, r.value)
    ensures r.Some? && r.value.UseSjf? ==> r.value.sjf == sjf
    ensures r.Some? && r.value.UsePriority? ==> r.value.prior == LegacyPriority.PriorArgs(quantum, kind)
    ensures r.Some? && r.value.UseRR? ==> r.value.quantum == quantum
  {
    match kind
    case LegacyFcfs => Some(UseFcfs)
    case LegacySjfPredict => Some(UseSjf(sjf))
    case LegacySjfPredictPreemptive => Some(UseSjf(sjf))
    case LegacySjfPure => Some(UseSjf(sjf))
    case LegacySrtf => Some(UseSjf(sjf))
    case LegacyPriority => Some(UsePriority(LegacyPriority.PriorArgs(quantum, kind)))
    case LegacyPriorityPreemptive => Some(UsePriority(LegacyPriority.PriorArgs(quantum, kind)))
    case LegacyRR => Some(UseRR(quantum))
    case LegacyMlfq => None
  }

  /**
   * One older schedSJF call on a non-empty ready list, before and after:
   * the PCB Sjf.SjfPick names under the older estimate takes the first
   * free core and leaves the ready list (detached when predicting, the
   * rest sorted by next burst otherwise), and the arena is the one
   * Sjf.Chosen gives with that PCB's burst split in the preemptive forms;
   * nothing else changes.
   */
  ghost predicate SjfDispatched(q: Queues, slots: seq<Option<Handle>>, loc: seq<Loc>,
                                q': Queues, slots': seq<Option<Handle>>, loc': seq<Loc>,
                                cfg: Sjf.SjfConfig, w: real)
  {
    q.ready != [] && None in slots &&
    (forall g :: g in q.ready ==> g < |q.pcbs| && HasCpuHead(q.pcbs[g])) &&
    var est := LegacySjf.LegacyEstimator(cfg.quantum, w);
    var h := Sjf.SjfPick(q.ready, q.pcbs, cfg, est);
    var base := Sjf.Chosen(q.ready, q.pcbs, cfg, est);
    h < |base| && HasCpuHead(base[h]) &&
    q'.waiting == q.waiting && q'.terminated == q.terminated && q'.levels == q.levels &&
    multiset(q'.ready) == multiset(q.ready) - multiset{h} &&
    (cfg.prediction ==> q'.ready == LinkedList.Detach(q.ready, h)) &&
    (!cfg.prediction ==> LinkedList.SortedBy(q'.ready, HeadKey(q.pcbs)) && LinkedList.StableSortOf([h] + q'.ready, q.ready, HeadKey(q.pcbs))) &&
    q'.pcbs == base[h := if cfg.preemptive then LegacySjf.Split(base[h], cfg.quantum) else base[h]] &&
    slots' == Occupy(slots, h) && h < |loc| && loc' == loc[h := OnCore(FirstNull(slots))]
  }

  /**
   * What LegacySjf.SchedSJF promises, read back into the engine's lists:
   * the step is SjfDispatched (or changes nothing on an empty ready list),
   * keeps the places consistent and makes progress.
   */
  lemma SjfOutcome(q: Queues, slots: seq<Option<Handle>>, loc: seq<Loc>, cfg: Sjf.SjfConfig, w: real,
                   ready': seq<Handle>, pcbs': seq<Pcb>, slots': seq<Option<Handle>>, loc': seq<Loc>)
    requires Consistent(q, slots, loc, PlainFamily) && Settled(loc) && None in slots
    requires forall h :: h in q.ready ==> h < |q.pcbs| && HasCpuHead(q.pcbs[h])
    requires ShapeKept(q.pcbs, pcbs')
    requires q.ready == [] ==> ready' == [] && pcbs' == q.pcbs && slots' == slots && loc' == loc
    requires q.ready != [] ==>
      var est := LegacySjf.LegacyEstimator(cfg.quantum, w);
      var h := Sjf.SjfPick(q.ready, q.pcbs, cfg, est);
      var base := Sjf.Chosen(q.ready, q.pcbs, cfg, est);
      h < |base| && HasCpuHead(base[h]) &&
      slots' == Occupy(slots, h) &&
      multiset(ready') == multiset(q.ready) - multiset{h} &&
      (cfg.prediction ==> ready' == LinkedList.Detach(q.ready, h)) &&
      (!cfg.prediction ==> LinkedList.SortedBy(ready', HeadKey(q.pcbs)) && LinkedList.StableSortOf([h] + ready', q.ready, HeadKey(q.pcbs))) &&
      pcbs' == base[h := if cfg.preemptive then LegacySjf.Split(base[h], cfg.quantum) else base[h]] &&
      h < |loc| && loc' == loc[h := OnCore(FirstNull(slots))]
    ensures var q' := q.(pcbs := pcbs', ready := ready');
      Consistent(q', slots', loc', PlainFamily) && Settled(loc') &&
      (q.ready == [] ==> q' == q) &&
      (q.ready != [] ==> SjfDispatched(q, slots, loc, q', slots', loc', cfg, w)) &&
      Progress(q, slots, q', slots', PlainFamily)
  {
    var q' := q.(pcbs := pcbs', ready := ready');
    var h := 0;
    if q.ready != [] {
      h := Sjf.SjfPick(q.ready, q.pcbs, cfg, LegacySjf.LegacyEstimator(cfg.quantum, w));
      assert q.ready[0] in q.ready;
      PlainDispatchKeeps(q, ready', pcbs', slots, loc, h);
      SettledPut(loc, h, OnCore(FirstNull(slots)));
    } else {
      assert q' == q;
    }
    ServedProgress(q, slots, q', slots', PlainFamily, q.ready != [], h);
  }

  /**
   * What LegacyPriority.SchedPriority promises, read back into the engine's lists:
   * the places stay consistent and settled, and the call makes progress.
   */
  lemma PriorityOutcome(q: Queues, slots: seq<Option<Handle>>, loc: seq<Loc>, timer: int, cfg: LegacyPriority.LegacyPriorConfig,
                        ready': seq<Handle>, pcbs': seq<Pcb>, slots': seq<Option<Handle>>, loc': seq<Loc>)
    requires Consistent(q, slots, loc, LegacyPriorFamily) && Settled(loc) && None in slots
    requires q.ready == [] ==> ready' == [] && pcbs' == q.pcbs && slots' == slots && loc' == loc
    requires q.ready != [] ==>
      LinkedList.Distinct(q.ready) && LegacyPriority.ReadyOk(q.ready, q.pcbs) &&
      var h := LegacyPriority.PriorityPick(q.ready, q.pcbs, timer);
      slots' == Occupy(slots, h) && ready' == LinkedList.Detach(q.ready, h) &&
      pcbs' == LegacyPriority.Scheduled(q.ready, q.pcbs, timer, cfg) && h < |loc| && loc' == loc[h := OnCore(FirstNull(slots))]
    ensures var q' := q.(pcbs := pcbs', ready := ready');
      Consistent(q', slots', loc', LegacyPriorFamily) && Settled(loc') && Progress(q, slots, q', slots', LegacyPriorFamily)
  {
    var q' := q.(pcbs := pcbs', ready := ready');
    var h := 0;
    if q.ready != [] {
      h := LegacyPriority.PriorityPick(q.ready, q.pcbs, timer);
      LegacyPriorityDispatchKeeps(q, slots, loc, timer, cfg);
      SettledPut(loc, h, OnCore(FirstNull(slots)));
    } else {
      assert q' == q;
    }
    ServedProgress(q, slots, q', slots', LegacyPriorFamily, q.ready != [], h);
  }

  class LegacyOS {
    const cores: nat
    /** One slot per core: the PCB it runs, if any. */
    const running: array<Option<Handle>>
    /** Every PCB created so far; terminated ones stay, marked Done in `loc`. */
    var pcbs: seq<Pcb>
    var ready: seq<Handle>
    var waiting: seq<Handle>
    /** The processes read from the traces that have not arrived yet. */
    var processes: seq<FakeProcess>
    var terminated: seq<Stats>
    var timer: int
    var cpuBusy: int
    /** `os->scheduler`; none until setScheduler, when `schedule_fn` is still null. */
    var scheduler: Option<LegacySchedulerType>
    var policy: Policy
    /** PREDICTION_WEIGHT, and the aging threshold the priority policy reads in each PCB. */
    const w: real
    const threshold: int
    /** The place of every PCB. */
    ghost var loc: seq<Loc>

    /** The family of the installed policy. */
    function Fam(): Family
      reads this
    {
      LegacyFamilyOf(scheduler)
    }

    /** How this engine's createPcb builds a PCB. */
    function Builder(): Maker
      reads this
    {
      OlderMaker(scheduler, threshold)
    }

    /** The engine's lists as a value; this revision keeps no levels. */
    ghost function Snapshot(): Queues
      reads this
    {
      Queues(pcbs, ready, waiting, [], terminated)
    }

    /** What no method changes unless it says so. */
    ghost function Setting(): (Option<LegacySchedulerType>, Policy)
      reads this
    {
      (scheduler, policy)
    }

    /** The engine is consistent: its policy and processes are as installed, and every PCB is where its place says. */
    ghost predicate Sane()
      reads this, running
    {
      Installed() && Consistent(Snapshot(), running[..], loc, Fam())
    }

    /** The installed policy matches its kind and the processes to come are admissible. */
    ghost predicate Installed()
      reads this, running
    {
      cores >= 1 && running.Length == cores &&
      (scheduler.Some? ==> Installs(scheduler.value, policy)) &&
      (forall k :: 0 <= k < |processes| ==> Admissible(processes[k]))
    }

    /** Between two steps no PCB is in transit. */
    ghost predicate Valid()
      reads this, running
    {
      Sane() && Settled(loc)
    }

    /** FakeOS_init: free cores, empty lists, the clock and the busy time at zero, no policy. */
    constructor(cores: nat, w: real, threshold: int)
      requires cores >= 1
      ensures Valid() && fresh(running)
      ensures this.cores == cores && this.w == w && this.threshold == threshold
      ensures running[..] == seq(cores, _ => None) && scheduler == None
      ensures pcbs == [] && ready == [] && waiting == [] && processes == [] && terminated == []
      ensures timer == 0 && cpuBusy == 0
    {
      this.cores := cores;
      running := new Option<Handle>[cores](_ => None);
      pcbs, ready, waiting, processes, terminated := [], [], [], [], [];
      timer, cpuBusy := 0, 0;
      scheduler, policy := None, UseFcfs;
      this.w, this.threshold := w, threshold;
      loc := [];
      new;
    }

    /**
     * FakeOS_setScheduler of the older revision: installs the policy of
     * `kind`, or refuses MLFQ ("not implemented") and changes nothing. It
     * is called before any PCB exists.
     */
    method SetScheduler(kind: LegacySchedulerType, quantum: int, sjf: Sjf.SjfConfig) returns (ok: bool)
      requires Valid() && pcbs == []
      modifies this
      ensures Valid() && (ok <==> kind != LegacyMlfq)
      ensures ok ==> scheduler == Some(kind) && Some(policy) == PolicyFor(kind, quantum, sjf)
      ensures !ok ==> Setting() == old(Setting())
      ensures pcbs == [] && ready == old(ready) && waiting == old(waiting) && terminated == old(terminated)
      ensures processes == old(processes) && timer == old(timer) && cpuBusy == old(cpuBusy)
      ensures running[..] == old(running[..]) && loc == old(loc)
    {
      var chosen := PolicyFor(kind, quantum, sjf);
      if chosen.None? {
        return false;
      }
      NothingCreated(Snapshot(), running[..], loc, Fam());
      scheduler, policy := Some(kind), chosen.value;
      FreshStart(Snapshot(), running[..], Fam());
      ok := true;
    }

    /** FakeOS_createProcess, once the trace is read: the process joins the ones to come. */
    method AddProcess(p: FakeProcess)
      requires Valid() && Admissible(p)
      modifies this
      ensures Valid() && processes == old(processes) + [p]
      ensures Snapshot() == old(Snapshot()) && Setting() == old(Setting()) && loc == old(loc)
      ensures timer == old(timer) && cpuBusy == old(cpuBusy)
    {
      processes := processes + [p];
    }

    /**
     * The routing simStep and createPcb do inline: the PCB whose burst has
     * just ended (or that has just been created) goes where its next burst
     * sends it, as Places.Routed states for the older revision.
     */
    method Reroute(h: Handle, router: Router)
      requires Sane() && router != Newer && h < |loc| && loc[h] == Transit
      modifies this
      ensures Sane() && Setting() == old(Setting())
      ensures h < |old(pcbs)| && Snapshot() == Routed(old(Snapshot()), h, Fam(), router, timer)
      ensures loc == old(loc)[h := Destination(old(pcbs)[h])]
      ensures processes == old(processes) && timer == old(timer) && cpuBusy == old(cpuBusy)
    {
      ghost var q0, slots, fam, loc0 := Snapshot(), running[..], Fam(), loc;
      assert CanRoute(q0, h, fam) by {
        RoutePre(q0, slots, loc, fam, h);
      }
      ghost var loc' := loc[h := Destination(pcbs[h])];
      Route(h, router);
      loc := loc';
      assert running[..] == slots && Fam() == fam;
      assert Consistent(Snapshot(), slots, loc', fam) by {
        RoutedKeeps(q0, slots, loc0, fam, h, router, timer);
      }
    }

    /**
     * The relinking itself: with no burst left the completion is recorded
     * and the statistics go to the terminated records; before I/O the PCB
     * goes to the back of the waiting list, its priority reset when it
     * comes off a core; before the CPU to the back of the ready list, with
     * the enqueue time except at admission.
     */
    method Route(h: Handle, router: Router)
      requires router != Newer && CanRoute(Snapshot(), h, Fam())
      modifies this
      ensures Setting() == old(Setting()) && loc == old(loc)
      ensures Snapshot() == Routed(old(Snapshot()), h, Fam(), router, timer)
      ensures processes == old(processes) && timer == old(timer) && cpuBusy == old(cpuBusy)
    {
      var p := pcbs[h];
      if p.events == [] {
        var s := LegacyUpdateStats(p.stats, CompleteTime, timer).value;
        terminated := terminated + [s];
        pcbs := pcbs[h := p.(stats := s)];
      } else if p.events[0].kind == IO {
        if router == Older(true) && LegacyPriority.IsPriorPcb(p) {
          pcbs := pcbs[h := LegacyPriority.ResetAging(p)];
        }
        waiting := LinkedList.PushBack(waiting, h, false).value;
      } else {
        ready := LinkedList.PushBack(ready, h, false).value;
        if router != OlderAdmission {
          pcbs := pcbs[h := p.(stats := LegacyUpdateStats(p.stats, ReadyEnqueue, timer).value)];
        }
      }
    }

    /**
     * FakeOS_createPcb of the older revision: the checks in their order
     * (the arrival time, the pid against the cores, the ready list and the
     * waiting list, then the bursts); an abort is returned as the failed
     * check and changes nothing. Otherwise the new PCB, its current
     * priority the trace's, joins the arena and is routed by its first
     * burst without an enqueue time.
     */
    method CreatePcb(p: FakeProcess) returns (err: Option<AdmitError>)
      requires Sane() && Settled(loc) && Admissible(p)
      modifies this
      ensures Sane() && Settled(loc) && Setting() == old(Setting())
      ensures err == AdmitVerdict(p, old(timer), running[..], old(Snapshot()))
      ensures err.Some? ==> Snapshot() == old(Snapshot()) && loc == old(loc)
      ensures err.None? ==>
        var pcb := NewPcb(Builder(), p, timer);
        Snapshot() == Routed(old(Snapshot()).(pcbs := old(pcbs) + [pcb]), |old(pcbs)|, Fam(), OlderAdmission, timer) &&
        loc == old(loc) + [Destination(pcb)]
      ensures processes == old(processes) && timer == old(timer) && cpuBusy == old(cpuBusy)
    {
      ConsistentFacts(Snapshot(), running[..], loc, Fam());
      err := Steps.AdmitChecks(p, timer, running, pcbs, ready, waiting, Snapshot());
      if err.Some? {
        return;
      }
      var pcb := NewPcb(Builder(), p, timer);
      NewPcbFits(Builder(), p, timer);
      AdmitAndRoute(pcb);
    }

    /** The new PCB joins the arena and goes where its first burst sends it. */
    method AdmitAndRoute(pcb: Pcb)
      requires Sane() && Settled(loc) && pcb.pid > 0 && ArgsOk(Fam(), pcb)
      modifies this
      ensures Sane() && Settled(loc) && Setting() == old(Setting())
      ensures Snapshot() == Routed(old(Snapshot()).(pcbs := old(pcbs) + [pcb]), |old(pcbs)|, Fam(), OlderAdmission, timer)
      ensures loc == old(loc) + [Destination(pcb)]
      ensures processes == old(processes) && timer == old(timer) && cpuBusy == old(cpuBusy)
    {
      ghost var loc0 := loc;
      Admit(pcb);
      Reroute(|pcbs| - 1, OlderAdmission);
      AdmittedSettles(loc0, pcb);
    }

    /** The new PCB joins the arena, in transit. */
    method Admit(pcb: Pcb)
      requires Sane() && pcb.pid > 0 && ArgsOk(Fam(), pcb)
      modifies this
      ensures Sane() && Setting() == old(Setting())
      ensures pcbs == old(pcbs) + [pcb] && loc == old(loc) + [Transit]
      ensures Snapshot() == old(Snapshot()).(pcbs := old(pcbs) + [pcb])
      ensures processes == old(processes) && timer == old(timer) && cpuBusy == old(cpuBusy)
    {
      ghost var q0, slots, fam, loc0 := Snapshot(), running[..], Fam(), loc;
      pcbs := pcbs + [pcb];
      loc := loc + [Transit];
      assert running[..] == slots && Fam() == fam && Snapshot() == q0.(pcbs := q0.pcbs + [pcb]);
      assert Consistent(Snapshot(), slots, loc, fam) by {
        AdmitKeeps(q0, slots, loc0, fam, pcb);
      }
    }

    /**
     * The arrival scan of simStep: every process due now leaves the list
     * of processes to come, in list order, and createPcb admits it; the
     * others stay in their order. The first abort of createPcb ends the
     * scan.
     */
    method Arrivals() returns (err: Option<AdmitError>)
      requires Sane() && Settled(loc)
      modifies this
      ensures Sane() && Settled(loc) && Setting() == old(Setting())
      ensures err.None? ==>
        processes == Staying(old(processes), timer) && Snapshot() == Admitted(old(Snapshot()), old(processes), Builder(), timer)
      ensures timer == old(timer) && cpuBusy == old(cpuBusy)
    {
      ghost var ps, q0, m := processes, Snapshot(), Builder();
      ghost var i: nat := 0;
      var k: nat := 0;
      err := None;
      while k < |processes|
        invariant Arriving(i, k, ps, q0, m)
        invariant Setting() == old(Setting()) && timer == old(timer) && cpuBusy == old(cpuBusy)
        decreases |ps| - i
      {
        err, k := ScanProcess(k, q0, ps, i, m);
        if err.Some? {
          return;
        }
        i := i + 1;
      }
      assert ps[..i] == ps;
    }

    /**
     * The arrival scan before the `i`-th of the processes `ps` it started
     * from, with the cursor at `k`: the processes passed that are not due
     * stay in order ahead of the ones not reached, and the state is the one
     * the due ones' admission gives.
     */
    ghost predicate Arriving(i: nat, k: nat, ps: seq<FakeProcess>, q0: Queues, m: Maker)
      reads this, running
    {
      Sane() && Settled(loc) && Builder() == m &&
      i <= |ps| && q0.levels == [] && (forall j :: 0 <= j < |ps| ==> Admissible(ps[j])) &&
      processes == Staying(ps[..i], timer) + ps[i..] && k == |Staying(ps[..i], timer)| &&
      Snapshot() == Admitted(q0, ps[..i], m, timer)
    }

    /**
     * One round of the arrival scan, at the `k`-th process to come, the
     * `i`-th of the list `ps` the scan started from: a process due is
     * detached and admitted, and the cursor stays; any other is passed.
     */
    method ScanProcess(k: nat, ghost q0: Queues, ghost ps: seq<FakeProcess>, ghost i: nat, ghost m: Maker)
      returns (err: Option<AdmitError>, k': nat)
      requires i < |ps| && Arriving(i, k, ps, q0, m)
      modifies this
      ensures Sane() && Settled(loc) && Setting() == old(Setting()) && timer == old(timer) && cpuBusy == old(cpuBusy)
      ensures err.None? ==> Arriving(i + 1, k', ps, q0, m)
    {
      ghost var procs, before := processes, Snapshot();
      assert k < |processes| && processes[k] == ps[i] by {
        ScanOne(ps, i, timer);
      }
      k' := k;
      err := None;
      if processes[k].arrival == timer {
        err := AdmitNext(k);
        if err.Some? {
          return;
        }
      } else {
        k' := k + 1;
      }
      ScanAdvance(q0, ps, i, m, timer, procs, before, processes, Snapshot(), k);
    }

    /** The arrival of the `k`-th process to come: it leaves that list and createPcb admits it. */
    method AdmitNext(k: nat) returns (err: Option<AdmitError>)
      requires Sane() && Settled(loc) && k < |processes|
      modifies this
      ensures Sane() && Settled(loc) && Setting() == old(Setting())
      ensures processes == old(processes)[..k] + old(processes)[k + 1..]
      ensures err.None? ==>
        old(processes)[k].arrival == timer ==>
        Snapshot() == Routed(old(Snapshot()).(pcbs := old(pcbs) + [NewPcb(Builder(), old(processes)[k], timer)]),
                             |old(pcbs)|, Fam(), OlderAdmission, timer)
      ensures timer == old(timer) && cpuBusy == old(cpuBusy)
    {
      var p := TakeProcess(k);
      err := CreatePcb(p);
    }

    /** List_detach on the processes to come: the `k`-th leaves, the others keep their order. */
    method TakeProcess(k: nat) returns (p: FakeProcess)
      requires Sane() && k < |processes|
      modifies this
      ensures Sane() && Admissible(p) && p == old(processes)[k]
      ensures processes == old(processes)[..k] + old(processes)[k + 1..]
      ensures Snapshot() == old(Snapshot()) && Setting() == old(Setting()) && loc == old(loc)
      ensures timer == old(timer) && cpuBusy == old(cpuBusy)
    {
      p := processes[k];
      processes := processes[..k] + processes[k + 1..];
      assert forall j :: 0 <= j < |processes| ==> processes[j] in old(processes);
    }

    /**
     * The waiting scan of simStep: every waiting PCB's I/O burst ticks, and
     * a PCB whose burst is over leaves the waiting list and is routed, as
     * Scans.WaitingPass states for the older revision.
     */
    method ScanWaiting()
      requires Sane() && Settled(loc)
      modifies this
      ensures Sane() && Settled(loc) && Setting() == old(Setting())
      ensures Todo(old(Snapshot()), old(waiting), Fam()) &&
        Snapshot() == WaitingPass(old(Snapshot()), old(waiting), Fam(), Older(false), timer)
      ensures processes == old(processes) && timer == old(timer) && cpuBusy == old(cpuBusy)
    {
      ghost var q0, fam := Snapshot(), Fam();
      ConsistentTodo(q0, running[..], loc, fam);
      ghost var target := WaitingPass(q0, waiting, fam, Older(false), timer);
      var cursor := waiting;
      while cursor != []
        invariant Sane() && Settled(loc) && Setting() == old(Setting()) && fam == Fam()
        invariant processes == old(processes) && timer == old(timer) && cpuBusy == old(cpuBusy)
        invariant Todo(Snapshot(), cursor, fam) && WaitingPass(Snapshot(), cursor, fam, Older(false), timer) == target
        decreases Pending(cursor, pcbs)
      {
        cursor := VisitWaiting(cursor, fam);
      }
    }

    /**
     * One visit of the waiting scan, at `cursor[0]`: the burst ticks; when
     * it is over the PCB leaves the waiting list and is routed, and the
     * scan visits it again if it was pushed behind the rest.
     */
    method VisitWaiting(cursor: seq<Handle>, ghost fam: Family) returns (cursor': seq<Handle>)
      requires Sane() && Settled(loc) && fam == Fam() && Todo(Snapshot(), cursor, fam) && cursor != []
      modifies this
      ensures Sane() && Settled(loc) && Setting() == old(Setting())
      ensures processes == old(processes) && timer == old(timer) && cpuBusy == old(cpuBusy)
      ensures Todo(Snapshot(), cursor', fam) && Pending(cursor', pcbs) < Pending(cursor, old(pcbs))
      ensures WaitingPass(Snapshot(), cursor', fam, Older(false), timer) == WaitingPass(old(Snapshot()), cursor, fam, Older(false), timer)
    {
      ghost var q := Snapshot();
      var h := cursor[0];
      TickStep(q, cursor, fam);
      FinishStep(q, cursor, fam, Older(false), timer);
      var p := Ticked(pcbs[h]);
      if p.events[0].duration != 0 {
        TickWaiting(h, p);
        cursor' := cursor[1..];
      } else {
        FinishWaiting(h, Popped(p));
        cursor' := Rest(cursor, Popped(p));
      }
    }

    /** The I/O burst of a waiting PCB ticks and has time left. */
    method TickWaiting(h: Handle, p: Pcb)
      requires Sane() && h in waiting && h < |pcbs| && p.pid == pcbs[h].pid && p.args == pcbs[h].args && HasIoHead(p)
      modifies this
      ensures Sane() && Setting() == old(Setting()) && loc == old(loc)
      ensures Snapshot() == old(Snapshot()).(pcbs := old(pcbs)[h := p])
      ensures processes == old(processes) && timer == old(timer) && cpuBusy == old(cpuBusy)
    {
      ghost var q0, slots, fam, loc0 := Snapshot(), running[..], Fam(), loc;
      assert h < |loc| && loc[h] == Waiting && ArgsOk(fam, p) by {
        ConsistentFacts(q0, slots, loc0, fam);
      }
      pcbs := pcbs[h := p];
      assert running[..] == slots && Fam() == fam && Snapshot() == q0.(pcbs := q0.pcbs[h := p]);
      assert Consistent(Snapshot(), slots, loc, fam) by {
        RetouchKeeps(q0, slots, loc0, fam, h, p);
      }
    }

    /** The I/O burst of a waiting PCB is over: it leaves the waiting list and is routed. */
    method FinishWaiting(h: Handle, p: Pcb)
      requires Sane() && Settled(loc) && h in waiting && h < |pcbs|
      requires p.pid == pcbs[h].pid && p.args == pcbs[h].args
      modifies this
      ensures Sane() && Settled(loc) && Setting() == old(Setting())
      ensures Snapshot() ==
        Routed(old(Snapshot()).(pcbs := old(pcbs)[h := p], waiting := LinkedList.Detach(old(waiting), h)), h, Fam(), Older(false), timer)
      ensures processes == old(processes) && timer == old(timer) && cpuBusy == old(cpuBusy)
    {
      ghost var loc0 := loc;
      LeaveWaitingList(h, p);
      Reroute(h, Older(false));
      RoutedSettles(loc0, h, p);
    }

    /** The PCB leaves the waiting list, changed as given, and is in transit. */
    method LeaveWaitingList(h: Handle, p: Pcb)
      requires Sane() && h in waiting && h < |pcbs| && p.pid == pcbs[h].pid && p.args == pcbs[h].args
      modifies this
      ensures Sane() && Setting() == old(Setting()) && h < |loc| && loc == old(loc)[h := Transit]
      ensures Snapshot() == old(Snapshot()).(pcbs := old(pcbs)[h := p], waiting := LinkedList.Detach(old(waiting), h))
      ensures processes == old(processes) && timer == old(timer) && cpuBusy == old(cpuBusy)
    {
      ghost var q0, slots, fam, loc0 := Snapshot(), running[..], Fam(), loc;
      assert h < |loc| && loc[h] == Waiting && ArgsOk(fam, p) by {
        ConsistentFacts(q0, slots, loc0, fam);
      }
      pcbs := pcbs[h := p];
      waiting := LinkedList.Detach(waiting, h);
      loc := loc[h := Transit];
      assert running[..] == slots && Fam() == fam;
      assert Consistent(Snapshot(), slots, loc, fam) by {
        WaitingToTransit(q0, slots, loc0, fam, h, p);
      }
    }

    /**
     * The running scan of simStep: every core in use ticks the CPU burst of
     * its PCB; a PCB whose burst is over is routed and its core freed, as
     * Scans.RunningPass states for the older revision. The flag says
     * whether any core was in use (`cpu_using`).
     */
    method ScanRunning() returns (busy: bool)
      requires Sane() && Settled(loc)
      modifies this, running
      ensures Sane() && Settled(loc) && Setting() == old(Setting())
      ensures CoresOk(old(Snapshot()), old(running[..]), Fam()) &&
        var r := RunningPass(old(Snapshot()), old(running[..]), 0, Fam(), Older(true), timer);
        Snapshot() == r.0 && running[..] == r.1 && busy == r.2
      ensures processes == old(processes) && timer == old(timer) && cpuBusy == old(cpuBusy)
    {
      ghost var q0, slots0, fam := Snapshot(), running[..], Fam();
      SaneCores();
      ghost var target := ScanFrom(q0, slots0, 0, false, fam, Older(true), timer);
      busy := false;
      var i := 0;
      while i < cores
        invariant 0 <= i <= cores && Scanning(i, busy, target, fam)
        invariant Setting() == old(Setting()) && processes == old(processes) && timer == old(timer) && cpuBusy == old(cpuBusy)
      {
        var used := VisitCore(i, fam, Snapshot(), running[..], busy, target);
        busy := busy || used;
        i := i + 1;
      }
    }

    /** The running scan before core `i`: the scan from core `i` on, with `busy` so far, ends in `target`. */
    ghost predicate Scanning(i: nat, busy: bool, target: (Queues, seq<Option<Handle>>, bool), fam: Family)
      reads this, running
    {
      i <= cores && Sane() && Settled(loc) && fam == Fam() && CoresOk(Snapshot(), running[..], fam) &&
      ScanFrom(Snapshot(), running[..], i, busy, fam, Older(true), timer) == target
    }

    /** A consistent engine's cores hold distinct PCBs, each with a CPU burst at its head. */
    lemma SaneCores()
      requires Sane()
      ensures CoresOk(Snapshot(), running[..], Fam())
    {
      ConsistentCores(Snapshot(), running[..], loc, Fam());
    }

    /** One visit of the running scan, at core `i`. */
    method VisitCore(i: nat, ghost fam: Family, ghost q0: Queues, ghost slots: seq<Option<Handle>>, ghost busy: bool,
                     ghost target: (Queues, seq<Option<Handle>>, bool))
      returns (used: bool)
      requires i < cores && Scanning(i, busy, target, fam) && q0 == Snapshot() && slots == running[..]
      modifies this, running
      ensures Sane() && Settled(loc) && Setting() == old(Setting())
      ensures processes == old(processes) && timer == old(timer) && cpuBusy == old(cpuBusy)
      ensures var v := CoreVisit(q0, slots, i, fam, Older(true), timer);
        Snapshot() == v.0 && running[..] == v.1 && used == InUse(slots, q0.pcbs, i)
      ensures Scanning(i + 1, busy || used, target, fam)
    {
      ScanFromStep(q0, slots, i, busy, fam, Older(true), timer);
      var slot := running[i];
      used := slot.Some? && pcbs[slot.value].pid != 0;
      if used {
        var h := slot.value;
        CoreStep(q0, slots, i, fam, Older(true), timer);
        var p := Ticked(pcbs[h]);
        if p.events[0].duration != 0 {
          TickCore(i, h, p);
        } else {
          FinishCore(i, h, Popped(p));
        }
      }
    }

    /** The CPU burst on core `i` ticks and has time left. */
    method TickCore(i: nat, h: Handle, p: Pcb)
      requires Sane() && i < running.Length && running[i] == Some(h) && h < |pcbs|
      requires p.pid == pcbs[h].pid && p.args == pcbs[h].args && HasCpuHead(p)
      modifies this
      ensures Sane() && Setting() == old(Setting()) && loc == old(loc)
      ensures Snapshot() == old(Snapshot()).(pcbs := old(pcbs)[h := p])
      ensures processes == old(processes) && timer == old(timer) && cpuBusy == old(cpuBusy)
    {
      ghost var q0, slots, fam, loc0 := Snapshot(), running[..], Fam(), loc;
      assert h < |loc| && loc[h] == OnCore(i) && ArgsOk(fam, p) by {
        ConsistentFacts(q0, slots, loc0, fam);
      }
      pcbs := pcbs[h := p];
      assert running[..] == slots && Fam() == fam && Snapshot() == q0.(pcbs := q0.pcbs[h := p]);
      assert Consistent(Snapshot(), slots, loc, fam) by {
        RetouchKeeps(q0, slots, loc0, fam, h, p);
      }
    }

    /** The CPU burst on core `i` is over: the PCB is routed and the core freed. */
    method FinishCore(i: nat, h: Handle, p: Pcb)
      requires Sane() && Settled(loc) && i < running.Length && running[i] == Some(h) && h < |pcbs|
      requires p.pid == pcbs[h].pid && p.args == pcbs[h].args
      modifies this, running
      ensures Sane() && Settled(loc) && Setting() == old(Setting())
      ensures Snapshot() == Routed(old(Snapshot()).(pcbs := old(pcbs)[h := p]), h, Fam(), Older(true), timer)
      ensures running[..] == old(running[..])[i := None]
      ensures processes == old(processes) && timer == old(timer) && cpuBusy == old(cpuBusy)
    {
      ghost var loc0 := loc;
      LeaveCore(i, h, p);
      Reroute(h, Older(true));
      RoutedSettles(loc0, h, p);
    }

    /** The PCB leaves core `i`, changed as given, and is in transit. */
    method LeaveCore(i: nat, h: Handle, p: Pcb)
      requires Sane() && i < running.Length && running[i] == Some(h) && h < |pcbs|
      requires p.pid == pcbs[h].pid && p.args == pcbs[h].args
      modifies this, running
      ensures Sane() && Setting() == old(Setting()) && h < |loc| && loc == old(loc)[h := Transit]
      ensures Snapshot() == old(Snapshot()).(pcbs := old(pcbs)[h := p])
      ensures running[..] == old(running[..])[i := None]
      ensures processes == old(processes) && timer == old(timer) && cpuBusy == old(cpuBusy)
    {
      ghost var q0, slots, fam, loc0 := Snapshot(), running[..], Fam(), loc;
      assert h < |loc| && ArgsOk(fam, p) by {
        ConsistentFacts(q0, slots, loc0, fam);
      }
      pcbs := pcbs[h := p];
      running[i] := None;
      loc := loc[h := Transit];
      assert running[..] == slots[i := None] && Fam() == fam;
      assert Consistent(Snapshot(), running[..], loc, fam) by {
        CoreToTransit(q0, slots, loc0, fam, i, p);
      }
    }

    /**
     * schedFCFS as the older engine calls it: the head of the ready list
     * takes the first free core with its run counter reset; nothing
     * happens on an empty ready list.
     */
    method RunFcfs()
      requires Sane() && Settled(loc) && scheduler.Some? && policy.UseFcfs? && None in running[..]
      modifies this, running
      ensures Sane() && Settled(loc) && Setting() == old(Setting())
      ensures processes == old(processes) && timer == old(timer) && cpuBusy == old(cpuBusy)
      ensures old(ready) == [] ==> Snapshot() == old(Snapshot()) && running[..] == old(running[..]) && loc == old(loc)
      ensures old(ready) != [] ==>
        var h := old(ready)[0];
        h < |old(pcbs)| &&
        Snapshot() == old(Snapshot()).(pcbs := old(pcbs)[h := old(pcbs)[h].(duration := 0)], ready := old(ready)[1..]) &&
        running[..] == Occupy(old(running[..]), h) && loc == old(loc)[h := OnCore(FirstNull(old(running[..])))]
      ensures Progress(old(Snapshot()), old(running[..]), Snapshot(), running[..], Fam())
    {
      ghost var q0, slots, fam, loc0 := Snapshot(), running[..], Fam(), loc;
      ConsistentFacts(q0, slots, loc0, fam);
      if ready != [] {
        assert ready[0] in ready;
      }
      var ready', pcbs' := Fcfs.SchedFCFS(ready, pcbs, running);
      ghost var loc' := loc0;
      if q0.ready != [] {
        var h := q0.ready[0];
        loc' := loc0[h := OnCore(FirstNull(slots))];
        HeadDispatchKeeps(q0, slots, loc0, fam, q0.pcbs[h].(duration := 0));
      }
      Commit(ready', pcbs', loc');
      ServedProgress(q0, slots, Snapshot(), running[..], fam, q0.ready != [], if q0.ready != [] then q0.ready[0] else 0);
    }

    /**
     * schedRR as the older engine calls it: the head of the ready list
     * takes the first free core with its run counter reset and its CPU
     * burst cut at the quantum.
     */
    method RunRR()
      requires Sane() && Settled(loc) && scheduler.Some? && policy.UseRR? && None in running[..]
      modifies this, running
      ensures Sane() && Settled(loc) && Setting() == old(Setting())
      ensures processes == old(processes) && timer == old(timer) && cpuBusy == old(cpuBusy)
      ensures old(ready) == [] ==> Snapshot() == old(Snapshot()) && running[..] == old(running[..]) && loc == old(loc)
      ensures old(ready) != [] ==>
        var h := old(ready)[0];
        h < |old(pcbs)| && HasCpuHead(old(pcbs)[h]) &&
        Snapshot() == old(Snapshot()).(pcbs := old(pcbs)[h := Preempt(old(pcbs)[h].(duration := 0), policy.quantum)],
                                       ready := old(ready)[1..]) &&
        running[..] == Occupy(old(running[..]), h) && loc == old(loc)[h := OnCore(FirstNull(old(running[..])))]
      ensures Progress(old(Snapshot()), old(running[..]), Snapshot(), running[..], Fam())
    {
      ghost var q0, slots, fam, loc0 := Snapshot(), running[..], Fam(), loc;
      ConsistentFacts(q0, slots, loc0, fam);
      if ready != [] {
        assert ready[0] in ready;
      }
      var ready', pcbs' := RoundRobin.SchedRR(ready, pcbs, running, policy.quantum);
      ghost var loc' := loc0;
      if q0.ready != [] {
        var h := q0.ready[0];
        loc' := loc0[h := OnCore(FirstNull(slots))];
        HeadDispatchKeeps(q0, slots, loc0, fam, Preempt(q0.pcbs[h].(duration := 0), policy.quantum));
      }
      Commit(ready', pcbs', loc');
      ServedProgress(q0, slots, Snapshot(), running[..], fam, q0.ready != [], if q0.ready != [] then q0.ready[0] else 0);
    }

    /**
     * The older schedSJF as the engine calls it, with its arguments and
     * the prediction weight: the chosen PCB takes the first free core and
     * leaves the ready list, as LegacySjf.SchedSJF states.
     */
    method RunSjf(ghost q0: Queues, ghost slots: seq<Option<Handle>>, ghost loc0: seq<Loc>)
      requires Sane() && Settled(loc) && scheduler.Some? && policy.UseSjf? && None in running[..]
      requires q0 == Snapshot() && slots == running[..] && loc0 == loc
      modifies this, running
      ensures Sane() && Settled(loc) && Setting() == old(Setting())
      ensures processes == old(processes) && timer == old(timer) && cpuBusy == old(cpuBusy)
      ensures q0.ready == [] ==> Snapshot() == q0 && running[..] == slots && loc == loc0
      ensures q0.ready != [] ==> SjfDispatched(q0, slots, loc0, Snapshot(), running[..], loc, policy.sjf, w)
      ensures Progress(q0, slots, Snapshot(), running[..], Fam())
    {
      ConsistentFacts(q0, slots, loc0, PlainFamily);
      var ready', pcbs' := LegacySjf.SchedSJF(ready, pcbs, running, policy.sjf, w);
      ghost var loc' := loc0;
      if q0.ready != [] {
        loc' := loc0[Sjf.SjfPick(q0.ready, q0.pcbs, policy.sjf, LegacySjf.LegacyEstimator(policy.sjf.quantum, w)) :=
                     OnCore(FirstNull(slots))];
      }
      SjfOutcome(q0, slots, loc0, policy.sjf, w, ready', pcbs', running[..], loc');
      Commit(ready', pcbs', loc');
    }

    /**
     * The older schedPriority as the engine calls it: every ready PCB
     * ages, the chosen one takes the first free core and leaves the ready
     * list, as LegacyPriority.SchedPriority states.
     */
    method RunPriority(ghost q0: Queues, ghost slots: seq<Option<Handle>>, ghost loc0: seq<Loc>)
      requires Sane() && Settled(loc) && scheduler.Some? && policy.UsePriority? && None in running[..]
      requires q0 == Snapshot() && slots == running[..] && loc0 == loc
      modifies this, running
      ensures Sane() && Settled(loc) && Setting() == old(Setting())
      ensures processes == old(processes) && timer == old(timer) && cpuBusy == old(cpuBusy)
      ensures q0.ready == [] ==> Snapshot() == q0 && running[..] == slots && loc == loc0
      ensures q0.ready != [] ==>
        LinkedList.Distinct(q0.ready) && LegacyPriority.ReadyOk(q0.ready, q0.pcbs) &&
        var h := LegacyPriority.PriorityPick(q0.ready, q0.pcbs, timer);
        Snapshot() == q0.(pcbs := LegacyPriority.Scheduled(q0.ready, q0.pcbs, timer, policy.prior),
                          ready := LinkedList.Detach(q0.ready, h)) &&
        running[..] == Occupy(slots, h) && loc == loc0[h := OnCore(FirstNull(slots))]
      ensures Progress(q0, slots, Snapshot(), running[..], Fam())
    {
      ConsistentFacts(q0, slots, loc0, LegacyPriorFamily);
      var ready', pcbs' := LegacyPriority.SchedPriority(ready, pcbs, running, timer, policy.prior);
      ghost var loc' := loc0;
      if q0.ready != [] {
        loc' := loc0[LegacyPriority.PriorityPick(q0.ready, q0.pcbs, timer) := OnCore(FirstNull(slots))];
      }
      PriorityOutcome(q0, slots, loc0, timer, policy.prior, ready', pcbs', running[..], loc');
      Commit(ready', pcbs', loc');
    }

    /**
     * One call of `schedule_fn` with its arguments. With a PCB waiting for
     * the CPU one more core is taken; with none, no core is and none is
     * left waiting. What each policy does is stated by its Run method.
     */
    method Schedule()
      requires Sane() && Settled(loc) && scheduler.Some? && None in running[..]
      modifies this, running
      ensures Sane() && Settled(loc) && Setting() == old(Setting())
      ensures processes == old(processes) && timer == old(timer) && cpuBusy == old(cpuBusy)
      ensures Progress(old(Snapshot()), old(running[..]), Snapshot(), running[..], Fam())
    {
      match policy {
        case UseFcfs => RunFcfs();
        case UseRR(_) => RunRR();
        case UseSjf(_) => RunSjf(Snapshot(), running[..], loc);
        case UsePriority(_) => RunPriority(Snapshot(), running[..], loc);
      }
    }

    /** The lists and the places a policy call leaves, written back. */
    method Commit(ready': seq<Handle>, pcbs': seq<Pcb>, ghost loc': seq<Loc>)
      requires Installed() && Consistent(Snapshot().(pcbs := pcbs', ready := ready'), running[..], loc', Fam())
      modifies this
      ensures Sane() && Setting() == old(Setting()) && loc == loc'
      ensures Snapshot() == old(Snapshot()).(pcbs := pcbs', ready := ready')
      ensures processes == old(processes) && timer == old(timer) && cpuBusy == old(cpuBusy)
    {
      ready, pcbs := ready', pcbs';
      loc := loc';
    }

    /**
     * The scheduling loop of simStep: `cores` rounds, each calling the
     * policy if one is installed and cpuFull does not say every core is
     * busy. Without a policy nothing changes; with one, afterwards either
     * every core is busy or no PCB waits for the CPU.
     */
    method ScheduleRound()
      requires Valid()
      modifies this, running
      ensures Valid() && Setting() == old(Setting())
      ensures processes == old(processes) && timer == old(timer) && cpuBusy == old(cpuBusy)
      ensures scheduler.None? ==> Snapshot() == old(Snapshot()) && running[..] == old(running[..]) && loc == old(loc)
      ensures SlotsInArena(running[..], pcbs)
      ensures scheduler.Some? && Backlog(Snapshot(), Fam()) ==> AllBusy(running[..], pcbs)
    {
      var i := 0;
      while i < cores
        invariant 0 <= i <= cores
        invariant Valid() && Setting() == old(Setting())
        invariant processes == old(processes) && timer == old(timer) && cpuBusy == old(cpuBusy)
        invariant scheduler.None? ==> Snapshot() == old(Snapshot()) && running[..] == old(running[..]) && loc == old(loc)
        invariant scheduler.Some? && Backlog(Snapshot(), Fam()) ==> FreeCount(running[..]) <= cores - i
      {
        if scheduler.Some? {
          ConsistentFacts(Snapshot(), running[..], loc, Fam());
          NotFullHasFreeCore(running[..], pcbs);
          var full := CpuFull(running, pcbs);
          if !full {
            Schedule();
          }
        }
        i := i + 1;
      }
      ConsistentFacts(Snapshot(), running[..], loc, Fam());
      NotFullHasFreeCore(running[..], pcbs);
    }

    /** increaseDuration on the engine: the run counters advance, nothing else changes. */
    method IncreaseRunning()
      requires Valid()
      modifies this
      ensures Valid() && Setting() == old(Setting()) && loc == old(loc)
      ensures processes == old(processes) && timer == old(timer) && cpuBusy == old(cpuBusy)
      ensures Snapshot() == old(Snapshot()).(pcbs := pcbs) && |pcbs| == |old(pcbs)|
      ensures forall h :: 0 <= h < |pcbs| ==>
        pcbs[h] == if Reached(running[..], old(pcbs), h) then old(pcbs)[h].(duration := old(pcbs)[h].duration + 1) else old(pcbs)[h]
    {
      ghost var q0 := Snapshot();
      ConsistentFacts(q0, running[..], loc, Fam());
      var pcbs' := IncreaseDuration(running, pcbs);
      DurationsKeep(q0, running[..], loc, Fam(), pcbs');
      pcbs := pcbs';
    }

    /** `cpu_busy_time++` when the running scan found a core in use. */
    method CountBusy(busy: bool)
      requires Valid()
      modifies this
      ensures Valid() && Setting() == old(Setting()) && Snapshot() == old(Snapshot()) && loc == old(loc)
      ensures processes == old(processes) && timer == old(timer)
      ensures cpuBusy == old(cpuBusy) + (if busy then 1 else 0)
    {
      if busy {
        cpuBusy := cpuBusy + 1;
      }
    }

    /** `++timer`, closing the step. */
    method Tick()
      requires Valid()
      modifies this
      ensures Valid() && Setting() == old(Setting()) && Snapshot() == old(Snapshot()) && loc == old(loc)
      ensures processes == old(processes) && cpuBusy == old(cpuBusy) && timer == old(timer) + 1
    {
      timer := timer + 1;
    }

    /**
     * The two scans of simStep and the busy-time count: the time rises by
     * one exactly when some core held a PCB.
     */
    method ScanCores()
      requires Valid()
      modifies this, running
      ensures Valid() && Setting() == old(Setting())
      ensures processes == old(processes) && timer == old(timer)
      ensures cpuBusy == old(cpuBusy) + (if Occupied(old(running[..])) then 1 else 0)
      ensures Todo(old(Snapshot()), old(waiting), old(Fam())) &&
        var w := WaitingPass(old(Snapshot()), old(waiting), old(Fam()), Older(false), timer);
        CoresOk(w, old(running[..]), old(Fam())) &&
        var r := RunningPass(w, old(running[..]), 0, old(Fam()), Older(true), timer);
        Snapshot() == r.0 && running[..] == r.1
    {
      ScanWaiting();
      BusyIffOccupied(Snapshot(), running[..], loc, Fam(), Older(true), timer);
      var busy := ScanRunning();
      CountBusy(busy);
    }

    /**
     * The end of simStep: increaseDuration and the clock. When the main
     * loop's test then fails, every PCB has terminated.
     */
    method EndStep()
      requires Valid() && SlotsInArena(running[..], pcbs)
      requires scheduler.Some? && Backlog(Snapshot(), Fam()) ==> AllBusy(running[..], pcbs)
      modifies this
      ensures Valid() && Setting() == old(Setting())
      ensures processes == old(processes) && cpuBusy == old(cpuBusy) && timer == old(timer) + 1
      ensures SlotsInArena(running[..], pcbs) && (scheduler.Some? && Backlog(Snapshot(), Fam()) ==> AllBusy(running[..], pcbs))
      ensures Stops(Snapshot(), running[..], processes) ==> forall h :: 0 <= h < |loc| ==> loc[h] == Done
    {
      ghost var q0 := Snapshot();
      IncreaseRunning();
      assert Backlog(Snapshot(), Fam()) == Backlog(q0, Fam());
      Tick();
      if Stops(Snapshot(), running[..], processes) {
        StoppedMeansDone(Snapshot(), running[..], loc, Fam(), processes);
      }
    }

    /**
     * FakeOS_simStep of the older revision: arrivals, the waiting scan,
     * the running scan, the busy-time count, the scheduling loop (only
     * with a policy installed), increaseDuration and the clock. An arrival
     * that breaks an admission rule stops the step.
     */
    method SimStep() returns (err: Option<AdmitError>)
      requires Valid()
      modifies this, running
      ensures Valid() && Setting() == old(Setting())
      ensures err.Some? ==> timer == old(timer) && cpuBusy == old(cpuBusy) && running[..] == old(running[..])
      ensures err.None? ==>
        processes == Staying(old(processes), old(timer)) && timer == old(timer) + 1 &&
        cpuBusy == old(cpuBusy) + (if Occupied(old(running[..])) then 1 else 0)
      ensures err.None? ==>
        SlotsInArena(running[..], pcbs) && (scheduler.Some? && Backlog(Snapshot(), Fam()) ==> AllBusy(running[..], pcbs))
      ensures err.None? && Stops(Snapshot(), running[..], processes) ==> forall h :: 0 <= h < |loc| ==> loc[h] == Done
    {
      err := Arrivals();
      if err.Some? {
        return;
      }
      ScanCores();
      ScheduleRound();
      EndStep();
    }
  }
}
