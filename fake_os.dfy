/**
 * The engine of scheduler/src/fake_os.c: a FakeOS with its cores, its
 * ready, waiting and arrival lists, its terminated records, its clock and
 * its busy-time counter, and the policy setScheduler installs. Every
 * method keeps the engine consistent with the place of every PCB
 * (Places.Consistent over the ghost `loc`) and is specified by the value
 * functions of Places, Scans and Steps.
 */
module FakeOs {
  import opened Wrappers
  import opened ProcessModel
  import opened SchedUtils
  import LinkedList
  import Levels
  import Fcfs
  import RoundRobin
  import Sjf
  import Priority
  import Mlq
  import Mlfq
  import opened Engine
  import opened Places
  import opened Scans
  import opened Steps
  import opened Admission

  /** The policy setScheduler installs (`schedule_fn`) with its arguments (`schedule_args`). */
  datatype Policy =
    | UseFcfs
    | UseSjf(sjf: Sjf.SjfConfig)
    | UsePriority(prior: Priority.PriorConfig)
    | UseRR(quantum: int)
    | UseMlq
    | UseMlfq

  /** The policy function each kind of scheduler installs. */
  predicate Installs(kind: SchedulerType, policy: Policy) {
    match policy
    case UseFcfs => kind == SchedulerType.Fcfs || kind == FcfsPreemptive
    case UseSjf(_) => kind == SjfPredict || kind == SjfPredictPreemptive || kind == SjfPure || kind == Srtf
    case UsePriority(_) => kind == SchedulerType.Priority || kind == PriorityPreemptive
    case UseRR(_) => kind == RR
    case UseMlq => kind == SchedulerType.Mlq
    case UseMlfq => kind == SchedulerType.Mlfq
  }

  /**
   * The switch of setScheduler: the policy function and its arguments,
   * built from the quantum and the aging threshold `quantum * AGING_FACTOR`.
   */
  function PolicyFor(kind: SchedulerType, quantum: int, threshold: int): (r: Policy)
    ensures Installs(kind, r)
    ensures r.UseSjf? ==> r.sjf == Sjf.SJFArgs(quantum, kind)
    ensures r.UsePriority? ==> r.prior == Priority.PriorArgs(quantum, threshold, kind)
    ensures r.UseRR? ==> r.quantum == quantum
  {
    match kind
    case Fcfs => UseFcfs
    case FcfsPreemptive => UseFcfs
    case SjfPredict => UseSjf(Sjf.SJFArgs(quantum, kind))
    case SjfPredictPreemptive => UseSjf(Sjf.SJFArgs(quantum, kind))
    case SjfPure => UseSjf(Sjf.SJFArgs(quantum, kind))
    case Srtf => UseSjf(Sjf.SJFArgs(quantum, kind))
    case Priority => UsePriority(Priority.PriorArgs(quantum, threshold, kind))
    case PriorityPreemptive => UsePriority(Priority.PriorArgs(quantum, threshold, kind))
    case RR => UseRR(RoundRobin.RRArgs(quantum, kind))
    case Mlq => UseMlq
    case Mlfq => UseMlfq
  }


  /**
   * One schedSJF call on a non-empty ready list, before and after: the
   * PCB Sjf.SjfPick names takes the first free core and leaves the ready
   * list (detached when predicting, the rest sorted by next burst
   * otherwise), and the arena is the one Sjf.Chosen gives with that PCB
   * dispatched; nothing else changes.
   */
  ghost predicate SjfDispatched(q: Queues, slots: seq<Option<Handle>>, loc: seq<Loc>,
                                q': Queues, slots': seq<Option<Handle>>, loc': seq<Loc>,
                                cfg: Sjf.SjfConfig, w: real, timer: int)
  {
    q.ready != [] && None in slots &&
    (forall g :: g in q.ready ==> g < |q.pcbs| && HasCpuHead(q.pcbs[g])) &&
    var h := Sjf.SjfPick(q.ready, q.pcbs, cfg, Sjf.Estimator(cfg.quantum, w));
    var base := Sjf.Chosen(q.ready, q.pcbs, cfg, Sjf.Estimator(cfg.quantum, w));
    q'.waiting == q.waiting && q'.terminated == q.terminated && q'.levels == q.levels &&
    multiset(q'.ready) == multiset(q.ready) - multiset{h} &&
    (cfg.prediction ==> q'.ready == LinkedList.Detach(q.ready, h)) &&
    (!cfg.prediction ==> LinkedList.SortedBy(q'.ready, HeadKey(q.pcbs)) && LinkedList.StableSortOf([h] + q'.ready, q.ready, HeadKey(q.pcbs))) &&
    q'.pcbs == base[h := Sjf.Dispatched(base[h], cfg, timer)] &&
    slots' == Occupy(slots, h) && h < |loc| && loc' == loc[h := OnCore(FirstNull(slots))]
  }

  /**
   * What Sjf.SchedSJF promises, read back into the engine's lists: the
   * step is SjfDispatched (or changes nothing on an empty ready list),
   * keeps the places consistent and makes progress.
   */
  lemma SjfOutcome(q: Queues, slots: seq<Option<Handle>>, loc: seq<Loc>, cfg: Sjf.SjfConfig, w: real, timer: int,
                   ready': seq<Handle>, pcbs': seq<Pcb>, slots': seq<Option<Handle>>, loc': seq<Loc>)
    requires Consistent(q, slots, loc, PlainFamily) && Settled(loc) && None in slots
    requires forall h :: h in q.ready ==> h < |q.pcbs| && HasCpuHead(q.pcbs[h])
    requires ShapeKept(q.pcbs, pcbs')
    requires q.ready == [] ==> ready' == [] && pcbs' == q.pcbs && slots' == slots && loc' == loc
    requires q.ready != [] ==>
      var h := Sjf.SjfPick(q.ready, q.pcbs, cfg, Sjf.Estimator(cfg.quantum, w));
      var base := Sjf.Chosen(q.ready, q.pcbs, cfg, Sjf.Estimator(cfg.quantum, w));
      slots' == Occupy(slots, h) &&
      multiset(ready') == multiset(q.ready) - multiset{h} &&
      (cfg.prediction ==> ready' == LinkedList.Detach(q.ready, h)) &&
      (!cfg.prediction ==> LinkedList.SortedBy(ready', HeadKey(q.pcbs)) && LinkedList.StableSortOf([h] + ready', q.ready, HeadKey(q.pcbs))) &&
      pcbs' == base[h := Sjf.Dispatched(base[h], cfg, timer)] &&
      h < |loc| && loc' == loc[h := OnCore(FirstNull(slots))]
    ensures var q' := q.(pcbs := pcbs', ready := ready');
      Consistent(q', slots', loc', PlainFamily) && Settled(loc') &&
      (q.ready == [] ==> q' == q) &&
      (q.ready != [] ==> SjfDispatched(q, slots, loc, q', slots', loc', cfg, w, timer)) &&
      Progress(q, slots, q', slots', PlainFamily)
  {
    var q' := q.(pcbs := pcbs', ready := ready');
    var h := 0;
    if q.ready != [] {
      h := Sjf.SjfPick(q.ready, q.pcbs, cfg, Sjf.Estimator(cfg.quantum, w));
      assert q.ready[0] in q.ready;
      PlainDispatchKeeps(q, ready', pcbs', slots, loc, h);
      SettledPut(loc, h, OnCore(FirstNull(slots)));
    } else {
      assert q' == q;
    }
    ServedProgress(q, slots, q', slots', PlainFamily, q.ready != [], h);
  }

  /**
   * What Priority.SchedPriority promises, read back into the engine's lists:
   * the places stay consistent and settled, and the call makes progress.
   */
  lemma PriorityOutcome(q: Queues, slots: seq<Option<Handle>>, loc: seq<Loc>, timer: int, cfg: Priority.PriorConfig,
                        ready': seq<Handle>, pcbs': seq<Pcb>, slots': seq<Option<Handle>>, loc': seq<Loc>)
    requires Consistent(q, slots, loc, PriorFamily) && Settled(loc) && None in slots
    requires q.ready == [] ==> ready' == [] && pcbs' == q.pcbs && slots' == slots && loc' == loc
    requires q.ready != [] ==>
      LinkedList.Distinct(q.ready) && Priority.ReadyOk(q.ready, q.pcbs) &&
      var h := Priority.PriorityPick(q.ready, q.pcbs, timer, cfg.agingThreshold);
      slots' == Occupy(slots, h) && ready' == LinkedList.Detach(q.ready, h) &&
      pcbs' == Priority.Scheduled(q.ready, q.pcbs, timer, cfg) && h < |loc| && loc' == loc[h := OnCore(FirstNull(slots))]
    ensures var q' := q.(pcbs := pcbs', ready := ready');
      Consistent(q', slots', loc', PriorFamily) && Settled(loc') && Progress(q, slots, q', slots', PriorFamily)
  {
    var q' := q.(pcbs := pcbs', ready := ready');
    var h := 0;
    if q.ready != [] {
      h := Priority.PriorityPick(q.ready, q.pcbs, timer, cfg.agingThreshold);
      PriorityDispatchKeeps(q, slots, loc, timer, cfg);
      SettledPut(loc, h, OnCore(FirstNull(slots)));
    } else {
      assert q' == q;
    }
    ServedProgress(q, slots, q', slots', PriorFamily, q.ready != [], h);
  }

  /**
   * One dispatch from level `k` of MLQ or MLFQ, before and after: the head
   * of the level takes the first free core under the level's policy, the
   * level keeps the rest and is also the engine's ready list; nothing else
   * changes.
   */
  ghost predicate LevelServed(q: Queues, slots: seq<Option<Handle>>, loc: seq<Loc>,
                              q': Queues, slots': seq<Option<Handle>>, loc': seq<Loc>,
                              k: nat, policy: Levels.LevelPolicy)
  {
    k < |q.levels| && q.levels[k] != [] && None in slots &&
    var h := q.levels[k][0];
    h < |q.pcbs| && h < |loc| && HasCpuHead(q.pcbs[h]) &&
    q'.levels == q.levels[k := q.levels[k][1..]] && q'.ready == q'.levels[k] &&
    q'.pcbs == q.pcbs[h := Levels.LevelDispatched(policy, q.pcbs[h])] &&
    q'.waiting == q.waiting && q'.terminated == q.terminated &&
    slots' == Occupy(slots, h) && loc' == loc[h := OnCore(FirstNull(slots))]
  }

  /** The MLQ level schedMLQ serves: the first non-empty one of the group whose turn it is. */
  function MlqLevel(levels: seq<seq<Handle>>, high: nat, hpq: int, lpq: int): (k: Option<nat>)
    requires high <= |levels| == MAX_PRIORITY
    ensures k.None? <==> forall j :: 0 <= j < |levels| ==> levels[j] == []
    ensures k.Some? ==> k.value < |levels| && levels[k.value] != []
  {
    var g := Mlq.ChosenGroup(levels, high, hpq, lpq);
    if g.None? then None
    else if g == Some(Mlq.HighGroup) then Levels.FirstNonEmpty(levels, 0, high)
    else Levels.FirstNonEmpty(levels, high, MAX_PRIORITY)
  }

  /** Where the PCBs are after schedMLQ: the head of the level served is on the first free core. */
  ghost function MlqLoc(q: Queues, slots: seq<Option<Handle>>, loc: seq<Loc>, high: nat, hpq: int, lpq: int): seq<Loc>
    requires high <= |q.levels| == MAX_PRIORITY && None in slots
  {
    var k := MlqLevel(q.levels, high, hpq, lpq);
    if k.Some? && q.levels[k.value][0] < |loc| then loc[q.levels[k.value][0] := OnCore(FirstNull(slots))] else loc
  }

  /**
   * One call of schedMLQ from queues `q` to `q'`: with some level
   * non-empty, the level MlqLevel picks is served (LevelServed); with all
   * empty nothing changes.
   */
  ghost predicate MlqServed(q: Queues, slots: seq<Option<Handle>>, loc: seq<Loc>,
                            q': Queues, slots': seq<Option<Handle>>, loc': seq<Loc>,
                            high: nat, hpq: int, lpq: int, policies: seq<Levels.LevelPolicy>)
  {
    high <= |q.levels| == MAX_PRIORITY &&
    var k := MlqLevel(q.levels, high, hpq, lpq);
    (k.None? ==> q' == q && slots' == slots && loc' == loc) &&
    (k.Some? ==> k.value < |policies| && LevelServed(q, slots, loc, q', slots', loc', k.value, policies[k.value]))
  }

  /**
   * What Mlq.MlqState.Schedule promises, read back into the engine's
   * lists: the step is MlqServed, keeps the places consistent and makes
   * progress.
   */
  lemma MlqOutcome(q: Queues, slots: seq<Option<Handle>>, loc: seq<Loc>, high: nat, hpq: int, lpq: int,
                   policies: seq<Levels.LevelPolicy>, levels': seq<seq<Handle>>, pcbs': seq<Pcb>,
                   ready': seq<Handle>, slots': seq<Option<Handle>>)
    requires Consistent(q, slots, loc, MlqFamily) && Settled(loc) && None in slots
    requires high <= |q.levels| == |policies| == MAX_PRIORITY
    requires var g := Mlq.ChosenGroup(q.levels, high, hpq, lpq);
      (g.None? ==> levels' == q.levels && pcbs' == q.pcbs && slots' == slots && ready' == q.ready) &&
      (g.Some? ==>
        var k := (if g == Some(Mlq.HighGroup) then Levels.FirstNonEmpty(q.levels, 0, high)
                  else Levels.FirstNonEmpty(q.levels, high, MAX_PRIORITY)).value;
        var h := q.levels[k][0];
        levels' == q.levels[k := q.levels[k][1..]] && ready' == levels'[k] && slots' == Occupy(slots, h) &&
        h < |q.pcbs| && pcbs' == q.pcbs[h := Levels.LevelDispatched(policies[k], q.pcbs[h])])
    ensures var q' := q.(pcbs := pcbs', ready := ready', levels := levels');
      var loc' := MlqLoc(q, slots, loc, high, hpq, lpq);
      Consistent(q', slots', loc', MlqFamily) && Settled(loc') && MlqServed(q, slots, loc, q', slots', loc', high, hpq, lpq, policies) &&
      Progress(q, slots, q', slots', MlqFamily)
  {
    var k := MlqLevel(q.levels, high, hpq, lpq);
    var q' := q.(pcbs := pcbs', ready := ready', levels := levels');
    var loc' := MlqLoc(q, slots, loc, high, hpq, lpq);
    LevelBacklog(q, MlqFamily);
    var h := 0;
    if k.Some? {
      h := q.levels[k.value][0];
      MlqDispatchKeeps(q, slots, loc, k.value, policies[k.value]);
      SettledPut(loc, h, OnCore(FirstNull(slots)));
      assert loc' == loc[h := OnCore(FirstNull(slots))];
      assert LevelServed(q, slots, loc, q', slots', loc', k.value, policies[k.value]);
    } else {
      assert q' == q && loc' == loc;
    }
    ServedProgress(q, slots, q', slots', MlqFamily, k.Some?, h);
  }

  /** Where the PCBs are after schedMLFQ: the head of the first non-empty aged level is on the first free core. */
  ghost function MlfqLoc(q: Queues, slots: seq<Option<Handle>>, loc: seq<Loc>, timer: int, threshold: int): seq<Loc>
    requires Mlfq.Placed(q.levels, q.pcbs) && |q.levels| == MLFQ_QUEUES && None in slots
  {
    var aged := Mlfq.AgedFrom(q.levels, q.pcbs, 1, timer, threshold);
    var k := Levels.FirstNonEmpty(aged.0, 0, MLFQ_QUEUES);
    if k.Some? && k.value < |aged.0| && aged.0[k.value] != [] && aged.0[k.value][0] < |loc| then loc[aged.0[k.value][0] := OnCore(FirstNull(slots))]
    else loc
  }

  /**
   * One call of schedMLFQ from queues `q` to `q'`: the levels age, then
   * with some level non-empty the first one is served (LevelServed); with
   * all empty only the aging happens.
   */
  ghost predicate MlfqServed(q: Queues, slots: seq<Option<Handle>>, loc: seq<Loc>,
                             q': Queues, slots': seq<Option<Handle>>, loc': seq<Loc>,
                             timer: int, threshold: int, policies: seq<Levels.LevelPolicy>)
  {
    Mlfq.Placed(q.levels, q.pcbs) && |q.levels| == MLFQ_QUEUES &&
    var aged := Mlfq.AgedFrom(q.levels, q.pcbs, 1, timer, threshold);
    var k := Levels.FirstNonEmpty(aged.0, 0, MLFQ_QUEUES);
    var qa := q.(pcbs := aged.1, levels := aged.0);
    (k.None? ==> q' == qa && slots' == slots && loc' == loc) &&
    (k.Some? ==> k.value < |policies| && LevelServed(qa, slots, loc, q', slots', loc', k.value, policies[k.value]))
  }

  /**
   * What Mlfq.MlfqState.Schedule promises, read back into the engine's
   * lists: the step is MlfqServed, keeps the places consistent and makes
   * progress.
   */
  lemma MlfqOutcome(q: Queues, slots: seq<Option<Handle>>, loc: seq<Loc>, timer: int, threshold: int,
                    policies: seq<Levels.LevelPolicy>, levels': seq<seq<Handle>>, pcbs': seq<Pcb>,
                    ready': seq<Handle>, slots': seq<Option<Handle>>)
    requires Consistent(q, slots, loc, MlfqFamily) && Settled(loc) && None in slots && |policies| == MLFQ_QUEUES
    requires Mlfq.Placed(q.levels, q.pcbs) && |q.levels| == MLFQ_QUEUES
    requires var aged := Mlfq.AgedFrom(q.levels, q.pcbs, 1, timer, threshold);
      var k := Levels.FirstNonEmpty(aged.0, 0, MLFQ_QUEUES);
      (k.None? ==> levels' == aged.0 && pcbs' == aged.1 && slots' == slots && ready' == q.ready) &&
      (k.Some? ==>
        var h := aged.0[k.value][0];
        levels' == aged.0[k.value := aged.0[k.value][1..]] && slots' == Occupy(slots, h) &&
        ready' == levels'[k.value] && h < |aged.1| && pcbs' == aged.1[h := Levels.LevelDispatched(policies[k.value], aged.1[h])])
    ensures var q' := q.(pcbs := pcbs', ready := ready', levels := levels');
      var loc' := MlfqLoc(q, slots, loc, timer, threshold);
      Consistent(q', slots', loc', MlfqFamily) && Settled(loc') && MlfqServed(q, slots, loc, q', slots', loc', timer, threshold, policies) &&
      Progress(q, slots, q', slots', MlfqFamily)
  {
    MlfqAgedKeeps(q, slots, loc, timer, threshold);
    var aged := Mlfq.AgedFrom(q.levels, q.pcbs, 1, timer, threshold);
    var qa := q.(pcbs := aged.1, levels := aged.0);
    var k := Levels.FirstNonEmpty(aged.0, 0, MLFQ_QUEUES);
    var q' := q.(pcbs := pcbs', ready := ready', levels := levels');
    BacklogByPlaces(q, slots, loc, MlfqFamily);
    BacklogByPlaces(qa, slots, loc, MlfqFamily);
    LevelBacklog(qa, MlfqFamily);
    var loc' := MlfqLoc(q, slots, loc, timer, threshold);
    var h := 0;
    if k.Some? {
      h := aged.0[k.value][0];
      MlfqDispatchKeeps(qa, slots, loc, k.value, policies[k.value]);
      SettledPut(loc, h, OnCore(FirstNull(slots)));
      assert loc' == loc[h := OnCore(FirstNull(slots))];
      assert LevelServed(qa, slots, loc, q', slots', loc', k.value, policies[k.value]);
    } else {
      assert q' == qa && loc' == loc;
    }
    ServedProgress(q, slots, q', slots', MlfqFamily, k.Some?, h);
  }


  class FakeOS {
    const cores: nat
    /** One slot per core: the PCB it runs, if any. */
    const running: array<Option<Handle>>
    /** Every PCB created so far; terminated ones stay, marked Done in `loc`. */
    var pcbs: seq<Pcb>
    var ready: seq<Handle>
    var waiting: seq<Handle>
    /** The processes read from the traces that have not arrived yet. */
    var processes: seq<FakeProcess>
    var terminated: seq<Stats>
    var timer: int
    var cpuBusy: int
    var scheduler: Option<SchedulerType>
    var policy: Policy
    /** The arguments of MLQ and MLFQ, which keep their own levels. */
    var mlq: Mlq.MlqState?
    var mlfq: Mlfq.MlfqState?
    /** PREDICTION_WEIGHT and AGING_FACTOR. */
    const w: real
    const agingFactor: int
    /** The place of every PCB. */
    ghost var loc: seq<Loc>

    /** The family of the installed policy. */
    function Fam(): Family
      reads this
    {
      if scheduler.Some? then FamilyOf(scheduler.value) else PlainFamily
    }

    /** The levels of MLQ or MLFQ, when that is the policy. */
    ghost function LevelsNow(): seq<seq<Handle>>
      reads this, mlq, mlfq
    {
      if scheduler == Some(SchedulerType.Mlq) && mlq != null then mlq.levels
      else if scheduler == Some(SchedulerType.Mlfq) && mlfq != null then mlfq.levels
      else []
    }

    /** The engine's lists as a value. */
    ghost function Snapshot(): Queues
      reads this, mlq, mlfq
    {
      Queues(pcbs, ready, waiting, LevelsNow(), terminated)
    }

    /** What no method changes unless it says so. */
    ghost function Setting(): (Option<SchedulerType>, Policy, Mlq.MlqState?, Mlfq.MlfqState?)
      reads this
    {
      (scheduler, policy, mlq, mlfq)
    }

    /**
     * The engine is consistent: the installed policy matches its kind,
     * its levels exist, the processes to come are admissible, and every
     * PCB is where its place says.
     */
    ghost predicate Sane()
      reads this, running, mlq, mlfq
    {
      Installed() && Consistent(Snapshot(), running[..], loc, Fam())
    }

    /** The installed policy matches its kind, its levels exist, and the processes to come are admissible. */
    ghost predicate Installed()
      reads this, running, mlq, mlfq
    {
      cores >= 1 && running.Length == cores &&
      (scheduler.Some? ==> Installs(scheduler.value, policy)) &&
      (scheduler == Some(SchedulerType.Mlq) ==> mlq != null && mlq.Valid()) &&
      (scheduler == Some(SchedulerType.Mlfq) ==> mlfq != null && mlfq.Valid()) &&
      (forall k :: 0 <= k < |processes| ==> Admissible(processes[k]))
    }

    /** Between two steps no PCB is in transit. */
    ghost predicate Valid()
      reads this, running, mlq, mlfq
    {
      Sane() && Settled(loc)
    }

    /** FakeOS_init: free cores, empty lists, the clock and the busy time at zero, no policy. */
    constructor(cores: nat, w: real, agingFactor: int)
      requires cores >= 1
      ensures Valid() && fresh(running)
      ensures this.cores == cores && this.w == w && this.agingFactor == agingFactor
      ensures running[..] == seq(cores, _ => None) && scheduler == None
      ensures pcbs == [] && ready == [] && waiting == [] && processes == [] && terminated == []
      ensures timer == 0 && cpuBusy == 0
    {
      this.cores := cores;
      running := new Option<Handle>[cores](_ => None);
      pcbs, ready, waiting, processes, terminated := [], [], [], [], [];
      timer, cpuBusy := 0, 0;
      scheduler, policy := None, UseFcfs;
      mlq, mlfq := null, null;
      this.w, this.agingFactor := w, agingFactor;
      loc := [];
      new;
    }

    /**
     * FakeOS_setScheduler: installs the policy of `kind` and, for MLQ and
     * MLFQ, their empty levels laid out from the quantum. It is called
     * before any PCB exists.
     */
    method SetScheduler(kind: SchedulerType, quantum: int)
      requires Valid() && pcbs == []
      modifies this
      ensures Valid() && scheduler == Some(kind) && policy == PolicyFor(kind, quantum, quantum * agingFactor)
      ensures kind == SchedulerType.Mlq ==>
        fresh(mlq) && mlq.levels == seq(MAX_PRIORITY, _ => []) && mlq.hpqTime == 0 && mlq.lpqTime == 0 &&
        mlq.policies == Levels.LevelPolicies(MAX_PRIORITY, quantum)
      ensures kind == SchedulerType.Mlfq ==>
        fresh(mlfq) && mlfq.levels == seq(MLFQ_QUEUES, _ => []) && mlfq.agingThreshold == quantum * agingFactor &&
        mlfq.policies == Levels.LevelPolicies(MLFQ_QUEUES, quantum)
      ensures pcbs == [] && ready == old(ready) && waiting == old(waiting) && terminated == old(terminated)
      ensures processes == old(processes) && timer == old(timer) && cpuBusy == old(cpuBusy)
    {
      NothingCreated(Snapshot(), running[..], loc, Fam());
      Install(kind, quantum);
      FreshStart(Snapshot(), running[..], Fam());
    }

    /** The field updates of FakeOS_setScheduler. */
    method Install(kind: SchedulerType, quantum: int)
      modifies this
      ensures scheduler == Some(kind) && policy == PolicyFor(kind, quantum, quantum * agingFactor)
      ensures kind == SchedulerType.Mlq ==>
        fresh(mlq) && mlq.Valid() && mlq.levels == seq(MAX_PRIORITY, _ => []) && mlq.hpqTime == 0 && mlq.lpqTime == 0 &&
        mlq.policies == Levels.LevelPolicies(MAX_PRIORITY, quantum)
      ensures kind == SchedulerType.Mlfq ==>
        fresh(mlfq) && mlfq.Valid() && mlfq.levels == seq(MLFQ_QUEUES, _ => []) && mlfq.agingThreshold == quantum * agingFactor &&
        mlfq.policies == Levels.LevelPolicies(MLFQ_QUEUES, quantum)
      ensures pcbs == old(pcbs) && ready == old(ready) && waiting == old(waiting) && terminated == old(terminated)
      ensures processes == old(processes) && timer == old(timer) && cpuBusy == old(cpuBusy) && loc == old(loc)
    {
      var threshold := quantum * agingFactor;
      if kind == SchedulerType.Mlq {
        mlq := new Mlq.MlqState(quantum);
      } else if kind == SchedulerType.Mlfq {
        mlfq := new Mlfq.MlfqState(quantum, threshold);
      }
      policy := PolicyFor(kind, quantum, threshold);
      scheduler := Some(kind);
    }

    /** FakeOS_createProcess, once the trace is read: the process joins the ones to come. */
    method AddProcess(p: FakeProcess)
      requires Valid() && Admissible(p)
      modifies this
      ensures Valid() && processes == old(processes) + [p]
      ensures Snapshot() == old(Snapshot()) && Setting() == old(Setting()) && loc == old(loc)
      ensures timer == old(timer) && cpuBusy == old(cpuBusy)
    {
      processes := processes + [p];
    }

    /**
     * FakeOS_enqueueProcess: the PCB whose burst has just ended (or that
     * has just been created) goes where its next burst sends it, the
     * routing Places.Routed states for the newer engine.
     */
    method EnqueueProcess(h: Handle)
      requires Sane() && scheduler.Some? && h < |loc| && loc[h] == Transit
      modifies this, mlq, mlfq
      ensures Sane() && Setting() == old(Setting())
      ensures h < |old(pcbs)| && Snapshot() == Routed(old(Snapshot()), h, Fam(), Newer, timer)
      ensures loc == old(loc)[h := Destination(old(pcbs)[h])]
      ensures processes == old(processes) && timer == old(timer) && cpuBusy == old(cpuBusy)
      ensures scheduler == Some(SchedulerType.Mlq) ==> mlq.hpqTime == old(mlq.hpqTime) && mlq.lpqTime == old(mlq.lpqTime)
    {
      ghost var q0, slots, fam, loc0 := Snapshot(), running[..], Fam(), loc;
      RoutePre(q0, slots, loc, fam, h);
      RoutedKeeps(q0, slots, loc0, fam, h, Newer, timer);
      Route(h);
      Store(pcbs, waiting, loc0[h := Destination(q0.pcbs[h])]);
    }

    /**
     * FakeOS_createPcb: createPcb's checks in their order (the arrival
     * time, then the pid against the cores, the ready list and the waiting
     * list, then the bursts); an abort is returned as the failed check and
     * changes nothing. Otherwise the new PCB joins the arena and is routed
     * by its first burst.
     */
    method CreatePcb(p: FakeProcess) returns (err: Option<AdmitError>)
      requires Sane() && Settled(loc) && scheduler.Some? && Admissible(p)
      modifies this, mlq, mlfq
      ensures Sane() && Settled(loc) && Setting() == old(Setting())
      ensures err == AdmitVerdict(p, old(timer), running[..], old(Snapshot()))
      ensures err.Some? ==> Snapshot() == old(Snapshot()) && loc == old(loc)
      ensures err.None? ==>
        var pcb := NewPcb(NewerMaker(scheduler.value), p, timer);
        Snapshot() == Routed(old(Snapshot()).(pcbs := old(pcbs) + [pcb]), |old(pcbs)|, Fam(), Newer, timer) &&
        loc == old(loc) + [Destination(pcb)]
      ensures processes == old(processes) && timer == old(timer) && cpuBusy == old(cpuBusy)
    {
      ConsistentFacts(Snapshot(), running[..], loc, Fam());
      err := Steps.AdmitChecks(p, timer, running, pcbs, ready, waiting, Snapshot());
      if err.Some? {
        return;
      }
      var pcb := NewPcb(NewerMaker(scheduler.value), p, timer);
      NewPcbFits(NewerMaker(scheduler.value), p, timer);
      AdmitAndRoute(pcb);
    }

    /**
     * The arrival scan of FakeOS_simStep: every process due now leaves the
     * list of processes to come, in list order, and createPcb admits it;
     * the others stay in their order. The first abort of createPcb ends
     * the scan.
     */
    method Arrivals() returns (err: Option<AdmitError>)
      requires Sane() && Settled(loc) && scheduler.Some?
      modifies this, mlq, mlfq
      ensures Sane() && Settled(loc) && Setting() == old(Setting())
      ensures err.None? ==>
        processes == Staying(old(processes), timer) &&
        Snapshot() == Admitted(old(Snapshot()), old(processes), NewerMaker(scheduler.value), timer)
      ensures timer == old(timer) && cpuBusy == old(cpuBusy)
    {
      ghost var ps, q0, kind := processes, Snapshot(), scheduler.value;
      ghost var i: nat := 0;
      var k: nat := 0;
      err := None;
      while k < |processes|
        invariant Arriving(i, k, ps, q0, kind)
        invariant Setting() == old(Setting()) && timer == old(timer) && cpuBusy == old(cpuBusy)
        decreases |ps| - i
      {
        err, k := ScanProcess(k, q0, ps, i, kind);
        if err.Some? {
          return;
        }
        i := i + 1;
      }
      ArrivingDone(i, k, ps, q0, kind);
    }

    /** The arrival scan ends once the cursor passes the list: every process has been visited. */
    lemma ArrivingDone(i: nat, k: nat, ps: seq<FakeProcess>, q0: Queues, kind: SchedulerType)
      requires Arriving(i, k, ps, q0, kind) && k >= |processes|
      ensures i == |ps| && processes == Staying(ps, timer)
      ensures Snapshot() == Admitted(q0, ps, NewerMaker(kind), timer)
    {
      assert ps[..i] == ps;
    }

    /**
     * The arrival scan before the `i`-th of the processes `ps` it started
     * from, with the cursor at `k`: the processes passed that are not due
     * stay in order ahead of the ones not reached, and the state is the one
     * the due ones' admission gives.
     */
    ghost predicate Arriving(i: nat, k: nat, ps: seq<FakeProcess>, q0: Queues, kind: SchedulerType)
      reads this, running, mlq, mlfq
    {
      Sane() && Settled(loc) && scheduler == Some(kind) &&
      i <= |ps| && |q0.levels| == LevelCount(FamilyOf(kind)) && (forall j :: 0 <= j < |ps| ==> Admissible(ps[j])) &&
      processes == Staying(ps[..i], timer) + ps[i..] && k == |Staying(ps[..i], timer)| &&
      Snapshot() == Admitted(q0, ps[..i], NewerMaker(kind), timer)
    }

    /**
     * One round of the arrival scan, at the `k`-th process to come, the
     * `i`-th of the list `ps` the scan started from: a process due is
     * detached and admitted, and the cursor stays; any other is passed.
     */
    method ScanProcess(k: nat, ghost q0: Queues, ghost ps: seq<FakeProcess>, ghost i: nat, ghost kind: SchedulerType)
      returns (err: Option<AdmitError>, k': nat)
      requires i < |ps| && Arriving(i, k, ps, q0, kind)
      modifies this, mlq, mlfq
      ensures Sane() && Settled(loc) && Setting() == old(Setting()) && timer == old(timer) && cpuBusy == old(cpuBusy)
      ensures err.None? ==> Arriving(i + 1, k', ps, q0, kind)
    {
      ghost var procs, before := processes, Snapshot();
      assert k < |processes| && processes[k] == ps[i] by {
        ScanOne(ps, i, timer);
      }
      k' := k;
      err := None;
      if processes[k].arrival == timer {
        err := AdmitNext(k);
        if err.Some? {
          return;
        }
      } else {
        k' := k + 1;
      }
      ScanAdvance(q0, ps, i, NewerMaker(kind), timer, procs, before, processes, Snapshot(), k);
    }

    /** The arrival of the `k`-th process to come: it leaves that list and createPcb admits it. */
    method AdmitNext(k: nat) returns (err: Option<AdmitError>)
      requires Sane() && Settled(loc) && scheduler.Some? && k < |processes|
      modifies this, mlq, mlfq
      ensures Sane() && Settled(loc) && Setting() == old(Setting())
      ensures processes == old(processes)[..k] + old(processes)[k + 1..]
      ensures err.None? ==>
        old(processes)[k].arrival == timer ==>
        Snapshot() == Routed(old(Snapshot()).(pcbs := old(pcbs) + [NewPcb(NewerMaker(scheduler.value), old(processes)[k], timer)]),
                             |old(pcbs)|, Fam(), Newer, timer)
      ensures timer == old(timer) && cpuBusy == old(cpuBusy)
    {
      var p := TakeProcess(k);
      err := CreatePcb(p);
    }

    /** List_detach on the processes to come: the `k`-th leaves, the others keep their order. */
    method TakeProcess(k: nat) returns (p: FakeProcess)
      requires Sane() && k < |processes|
      modifies this
      ensures Sane() && Admissible(p) && p == old(processes)[k]
      ensures processes == old(processes)[..k] + old(processes)[k + 1..]
      ensures Snapshot() == old(Snapshot()) && Setting() == old(Setting()) && loc == old(loc)
      ensures timer == old(timer) && cpuBusy == old(cpuBusy)
    {
      p := processes[k];
      processes := processes[..k] + processes[k + 1..];
      assert forall j :: 0 <= j < |processes| ==> processes[j] in old(processes);
    }

    /**
     * The waiting scan of FakeOS_simStep: every waiting PCB's I/O burst
     * ticks, and a PCB whose burst is over leaves the waiting list and is
     * routed, as Scans.WaitingPass states.
     */
    method ScanWaiting()
      requires Sane() && Settled(loc) && scheduler.Some?
      modifies this, mlq, mlfq
      ensures Sane() && Settled(loc) && Setting() == old(Setting())
      ensures Todo(old(Snapshot()), old(waiting), Fam()) &&
        Snapshot() == WaitingPass(old(Snapshot()), old(waiting), Fam(), Newer, timer)
      ensures processes == old(processes) && timer == old(timer) && cpuBusy == old(cpuBusy)
    {
      ghost var q0, fam := Snapshot(), Fam();
      ConsistentTodo(q0, running[..], loc, fam);
      ghost var target := WaitingPass(q0, waiting, fam, Newer, timer);
      var cursor := waiting;
      while cursor != []
        invariant Sane() && Settled(loc) && Setting() == old(Setting()) && fam == Fam()
        invariant processes == old(processes) && timer == old(timer) && cpuBusy == old(cpuBusy)
        invariant Todo(Snapshot(), cursor, fam) && WaitingPass(Snapshot(), cursor, fam, Newer, timer) == target
        decreases Pending(cursor, pcbs)
      {
        cursor := VisitWaiting(cursor, fam);
      }
    }

    /**
     * One visit of the waiting scan, at `cursor[0]`: the burst ticks; when
     * it is over the PCB leaves the waiting list and is routed, and the
     * scan visits it again if it was pushed behind the rest.
     */
    method VisitWaiting(cursor: seq<Handle>, ghost fam: Family) returns (cursor': seq<Handle>)
      requires Sane() && Settled(loc) && scheduler.Some? && fam == Fam() && Todo(Snapshot(), cursor, fam) && cursor != []
      modifies this, mlq, mlfq
      ensures Sane() && Settled(loc) && Setting() == old(Setting())
      ensures processes == old(processes) && timer == old(timer) && cpuBusy == old(cpuBusy)
      ensures Todo(Snapshot(), cursor', fam) && Pending(cursor', pcbs) < Pending(cursor, old(pcbs))
      ensures WaitingPass(Snapshot(), cursor', fam, Newer, timer) == WaitingPass(old(Snapshot()), cursor, fam, Newer, timer)
    {
      ghost var q := Snapshot();
      var h := cursor[0];
      TickStep(q, cursor, fam);
      FinishStep(q, cursor, fam, Newer, timer);
      var p := Ticked(pcbs[h]);
      if p.events[0].duration != 0 {
        TickWaiting(h, p);
        cursor' := cursor[1..];
      } else {
        FinishWaiting(h, Popped(p));
        cursor' := Rest(cursor, Popped(p));
      }
    }

    /** The I/O burst of a waiting PCB ticks and has time left. */
    method TickWaiting(h: Handle, p: Pcb)
      requires Sane() && h in waiting && h < |pcbs| && p.pid == pcbs[h].pid && p.args == pcbs[h].args && HasIoHead(p)
      modifies this
      ensures Sane() && Setting() == old(Setting()) && loc == old(loc)
      ensures Snapshot() == old(Snapshot()).(pcbs := old(pcbs)[h := p])
      ensures processes == old(processes) && timer == old(timer) && cpuBusy == old(cpuBusy)
    {
      ghost var q0, slots, fam, loc0 := Snapshot(), running[..], Fam(), loc;
      assert h < |loc| && loc[h] == Waiting && ArgsOk(fam, p) by {
        ConsistentFacts(q0, slots, loc0, fam);
      }
      pcbs := pcbs[h := p];
      assert running[..] == slots && Fam() == fam && Snapshot() == q0.(pcbs := q0.pcbs[h := p]);
      assert Consistent(Snapshot(), slots, loc, fam) by {
        RetouchKeeps(q0, slots, loc0, fam, h, p);
      }
    }

    /** The I/O burst of a waiting PCB is over: it leaves the waiting list and is routed. */
    method FinishWaiting(h: Handle, p: Pcb)
      requires Sane() && Settled(loc) && scheduler.Some? && h in waiting && h < |pcbs|
      requires p.pid == pcbs[h].pid && p.args == pcbs[h].args
      modifies this, mlq, mlfq
      ensures Sane() && Settled(loc) && Setting() == old(Setting())
      ensures Snapshot() ==
        Routed(old(Snapshot()).(pcbs := old(pcbs)[h := p], waiting := LinkedList.Detach(old(waiting), h)), h, Fam(), Newer, timer)
      ensures processes == old(processes) && timer == old(timer) && cpuBusy == old(cpuBusy)
    {
      ghost var loc0 := loc;
      LeaveWaitingList(h, p);
      EnqueueProcess(h);
      RoutedSettles(loc0, h, p);
    }

    /** The PCB leaves the waiting list, changed as given, and is in transit. */
    method LeaveWaitingList(h: Handle, p: Pcb)
      requires Sane() && h in waiting && h < |pcbs| && p.pid == pcbs[h].pid && p.args == pcbs[h].args
      modifies this
      ensures Sane() && Setting() == old(Setting()) && h < |loc| && loc == old(loc)[h := Transit]
      ensures Snapshot() == old(Snapshot()).(pcbs := old(pcbs)[h := p], waiting := LinkedList.Detach(old(waiting), h))
      ensures processes == old(processes) && timer == old(timer) && cpuBusy == old(cpuBusy)
    {
      ghost var q0, slots, fam, loc0 := Snapshot(), running[..], Fam(), loc;
      ConsistentFacts(q0, slots, loc0, fam);
      assert ArgsOk(fam, q0.pcbs[h]);
      WaitingToTransit(q0, slots, loc0, fam, h, p);
      Store(pcbs[h := p], LinkedList.Detach(waiting, h), loc[h := Transit]);
    }

    /**
     * The running scan of FakeOS_simStep: every core in use ticks the CPU
     * burst of its PCB; a PCB whose burst is over is routed and its core
     * freed, as Scans.RunningPass states. The flag says whether any core
     * was in use.
     */
    method ScanRunning() returns (busy: bool)
      requires Sane() && Settled(loc) && scheduler.Some?
      modifies this, mlq, mlfq, running
      ensures Sane() && Settled(loc) && Setting() == old(Setting())
      ensures CoresOk(old(Snapshot()), old(running[..]), Fam()) &&
        var r := RunningPass(old(Snapshot()), old(running[..]), 0, Fam(), Newer, timer);
        Snapshot() == r.0 && running[..] == r.1 && busy == r.2
      ensures processes == old(processes) && timer == old(timer) && cpuBusy == old(cpuBusy)
    {
      ghost var q0, slots0, fam := Snapshot(), running[..], Fam();
      SaneCores();
      ghost var target := ScanFrom(q0, slots0, 0, false, fam, Newer, timer);
      busy := false;
      var i := 0;
      while i < cores
        invariant 0 <= i <= cores && Scanning(i, busy, target, fam)
        invariant Setting() == old(Setting()) && processes == old(processes) && timer == old(timer) && cpuBusy == old(cpuBusy)
      {
        var used := VisitCore(i, fam, Snapshot(), running[..], busy, target);
        busy := busy || used;
        i := i + 1;
      }
    }

    /** The running scan before core `i`: the scan from core `i` on, with `busy` so far, ends in `target`. */
    ghost predicate Scanning(i: nat, busy: bool, target: (Queues, seq<Option<Handle>>, bool), fam: Family)
      reads this, running, mlq, mlfq
    {
      i <= cores && Sane() && Settled(loc) && scheduler.Some? && fam == Fam() && CoresOk(Snapshot(), running[..], fam) &&
      ScanFrom(Snapshot(), running[..], i, busy, fam, Newer, timer) == target
    }

    /** A consistent engine's cores hold distinct PCBs, each with a CPU burst at its head. */
    lemma SaneCores()
      requires Sane()
      ensures CoresOk(Snapshot(), running[..], Fam())
    {
      ConsistentCores(Snapshot(), running[..], loc, Fam());
    }

    /** One visit of the running scan, at core `i`. */
    method VisitCore(i: nat, ghost fam: Family, ghost q0: Queues, ghost slots: seq<Option<Handle>>, ghost busy: bool,
                     ghost target: (Queues, seq<Option<Handle>>, bool))
      returns (used: bool)
      requires i < cores && Scanning(i, busy, target, fam) && q0 == Snapshot() && slots == running[..]
      modifies this, mlq, mlfq, running
      ensures Sane() && Settled(loc) && Setting() == old(Setting())
      ensures processes == old(processes) && timer == old(timer) && cpuBusy == old(cpuBusy)
      ensures var v := CoreVisit(q0, slots, i, fam, Newer, timer);
        Snapshot() == v.0 && running[..] == v.1 && used == InUse(slots, q0.pcbs, i)
      ensures Scanning(i + 1, busy || used, target, fam)
    {
      ScanFromStep(q0, slots, i, busy, fam, Newer, timer);
      var slot := running[i];
      used := slot.Some? && pcbs[slot.value].pid != 0;
      if used {
        var h := slot.value;
        CoreStep(q0, slots, i, fam, Newer, timer);
        var p := Ticked(pcbs[h]);
        if p.events[0].duration != 0 {
          TickCore(i, h, p);
        } else {
          FinishCore(i, h, Popped(p));
        }
      }
    }

    /** The CPU burst on core `i` ticks and has time left. */
    method TickCore(i: nat, h: Handle, p: Pcb)
      requires Sane() && i < running.Length && running[i] == Some(h) && h < |pcbs|
      requires p.pid == pcbs[h].pid && p.args == pcbs[h].args && HasCpuHead(p)
      modifies this
      ensures Sane() && Setting() == old(Setting()) && loc == old(loc)
      ensures Snapshot() == old(Snapshot()).(pcbs := old(pcbs)[h := p])
      ensures processes == old(processes) && timer == old(timer) && cpuBusy == old(cpuBusy)
    {
      ghost var q0, slots, fam, loc0 := Snapshot(), running[..], Fam(), loc;
      assert h < |loc| && loc[h] == OnCore(i) && ArgsOk(fam, p) by {
        ConsistentFacts(q0, slots, loc0, fam);
      }
      pcbs := pcbs[h := p];
      assert running[..] == slots && Fam() == fam && Snapshot() == q0.(pcbs := q0.pcbs[h := p]);
      assert Consistent(Snapshot(), slots, loc, fam) by {
        RetouchKeeps(q0, slots, loc0, fam, h, p);
      }
    }

    /** The CPU burst on core `i` is over: the PCB is routed and the core freed. */
    method FinishCore(i: nat, h: Handle, p: Pcb)
      requires Sane() && Settled(loc) && scheduler.Some? && i < running.Length && running[i] == Some(h) && h < |pcbs|
      requires p.pid == pcbs[h].pid && p.args == pcbs[h].args
      modifies this, mlq, mlfq, running
      ensures Sane() && Settled(loc) && Setting() == old(Setting())
      ensures Snapshot() == Routed(old(Snapshot()).(pcbs := old(pcbs)[h := p]), h, Fam(), Newer, timer)
      ensures running[..] == old(running[..])[i := None]
      ensures processes == old(processes) && timer == old(timer) && cpuBusy == old(cpuBusy)
    {
      ghost var loc0 := loc;
      LeaveCore(i, h, p);
      EnqueueProcess(h);
      RoutedSettles(loc0, h, p);
    }

    /** The PCB leaves core `i`, changed as given, and is in transit. */
    method LeaveCore(i: nat, h: Handle, p: Pcb)
      requires Sane() && i < running.Length && running[i] == Some(h) && h < |pcbs|
      requires p.pid == pcbs[h].pid && p.args == pcbs[h].args
      modifies this, running
      ensures Sane() && Setting() == old(Setting()) && h < |loc| && loc == old(loc)[h := Transit]
      ensures Snapshot() == old(Snapshot()).(pcbs := old(pcbs)[h := p])
      ensures running[..] == old(running[..])[i := None]
      ensures processes == old(processes) && timer == old(timer) && cpuBusy == old(cpuBusy)
    {
      ghost var q0, slots, fam, loc0 := Snapshot(), running[..], Fam(), loc;
      ConsistentFacts(q0, slots, loc0, fam);
      assert ArgsOk(fam, q0.pcbs[h]);
      CoreToTransit(q0, slots, loc0, fam, i, p);
      FreeSlot(i);
      Store(pcbs[h := p], waiting, loc[h := Transit]);
    }

    /** Core `i` becomes free. */
    method FreeSlot(i: nat)
      requires i < running.Length
      modifies running
      ensures running[..] == old(running[..])[i := None]
    {
      running[i] := None;
    }

    /** The arena, the waiting list and the places a step leaves, written back. */
    method Store(pcbs': seq<Pcb>, waiting': seq<Handle>, ghost loc': seq<Loc>)
      requires Installed() && Consistent(Snapshot().(pcbs := pcbs', waiting := waiting'), running[..], loc', Fam())
      modifies this
      ensures Sane() && Setting() == old(Setting()) && loc == loc'
      ensures Snapshot() == old(Snapshot()).(pcbs := pcbs', waiting := waiting')
      ensures processes == old(processes) && timer == old(timer) && cpuBusy == old(cpuBusy)
    {
      pcbs, waiting := pcbs', waiting';
      loc := loc';
    }

    /**
     * schedFCFS as the engine calls it: the head of the ready list takes
     * the first free core with its run counter reset; nothing happens on an
     * empty ready list.
     */
    method RunFcfs()
      requires Sane() && Settled(loc) && scheduler.Some? && policy.UseFcfs? && None in running[..]
      modifies this, running
      ensures Sane() && Settled(loc) && Setting() == old(Setting())
      ensures processes == old(processes) && timer == old(timer) && cpuBusy == old(cpuBusy)
      ensures old(ready) == [] ==> Snapshot() == old(Snapshot()) && running[..] == old(running[..]) && loc == old(loc)
      ensures old(ready) != [] ==>
        var h := old(ready)[0];
        h < |old(pcbs)| &&
        Snapshot() == old(Snapshot()).(pcbs := old(pcbs)[h := old(pcbs)[h].(duration := 0)], ready := old(ready)[1..]) &&
        running[..] == Occupy(old(running[..]), h) && loc == old(loc)[h := OnCore(FirstNull(old(running[..])))]
      ensures Progress(old(Snapshot()), old(running[..]), Snapshot(), running[..], Fam())
    {
      ghost var q0, slots, fam, loc0 := Snapshot(), running[..], Fam(), loc;
      ConsistentFacts(q0, slots, loc0, fam);
      if ready != [] {
        assert ready[0] in ready;
      }
      var ready', pcbs' := Fcfs.SchedFCFS(ready, pcbs, running);
      ghost var loc' := loc0;
      if q0.ready != [] {
        var h := q0.ready[0];
        loc' := loc0[h := OnCore(FirstNull(slots))];
        HeadDispatchKeeps(q0, slots, loc0, fam, q0.pcbs[h].(duration := 0));
      }
      Commit(ready', pcbs', loc');
      ServedProgress(q0, slots, Snapshot(), running[..], fam, q0.ready != [], if q0.ready != [] then q0.ready[0] else 0);
    }

    /**
     * schedRR as the engine calls it: the head of the ready list takes the
     * first free core with its run counter reset and its CPU burst cut at
     * the quantum.
     */
    method RunRR()
      requires Sane() && Settled(loc) && scheduler.Some? && policy.UseRR? && None in running[..]
      modifies this, running
      ensures Sane() && Settled(loc) && Setting() == old(Setting())
      ensures processes == old(processes) && timer == old(timer) && cpuBusy == old(cpuBusy)
      ensures old(ready) == [] ==> Snapshot() == old(Snapshot()) && running[..] == old(running[..]) && loc == old(loc)
      ensures old(ready) != [] ==>
        var h := old(ready)[0];
        h < |old(pcbs)| && HasCpuHead(old(pcbs)[h]) &&
        Snapshot() == old(Snapshot()).(pcbs := old(pcbs)[h := Preempt(old(pcbs)[h].(duration := 0), policy.quantum)],
                                       ready := old(ready)[1..]) &&
        running[..] == Occupy(old(running[..]), h) && loc == old(loc)[h := OnCore(FirstNull(old(running[..])))]
      ensures Progress(old(Snapshot()), old(running[..]), Snapshot(), running[..], Fam())
    {
      ghost var q0, slots, fam, loc0 := Snapshot(), running[..], Fam(), loc;
      ConsistentFacts(q0, slots, loc0, fam);
      if ready != [] {
        assert ready[0] in ready;
      }
      var ready', pcbs' := RoundRobin.SchedRR(ready, pcbs, running, policy.quantum);
      ghost var loc' := loc0;
      if q0.ready != [] {
        var h := q0.ready[0];
        loc' := loc0[h := OnCore(FirstNull(slots))];
        HeadDispatchKeeps(q0, slots, loc0, fam, Preempt(q0.pcbs[h].(duration := 0), policy.quantum));
      }
      Commit(ready', pcbs', loc');
      ServedProgress(q0, slots, Snapshot(), running[..], fam, q0.ready != [], if q0.ready != [] then q0.ready[0] else 0);
    }

    /**
     * schedSJF as the engine calls it, with its arguments and the
     * prediction weight: the chosen PCB takes the first free core and
     * leaves the ready list, as Sjf.SchedSJF states.
     */
    method RunSjf(ghost q0: Queues, ghost slots: seq<Option<Handle>>, ghost loc0: seq<Loc>)
      requires Sane() && Settled(loc) && scheduler.Some? && policy.UseSjf? && None in running[..]
      requires q0 == Snapshot() && slots == running[..] && loc0 == loc
      modifies this, running
      ensures Sane() && Settled(loc) && Setting() == old(Setting())
      ensures processes == old(processes) && timer == old(timer) && cpuBusy == old(cpuBusy)
      ensures q0.ready == [] ==> Snapshot() == q0 && running[..] == slots && loc == loc0
      ensures q0.ready != [] ==> SjfDispatched(q0, slots, loc0, Snapshot(), running[..], loc, policy.sjf, w, timer)
      ensures Progress(q0, slots, Snapshot(), running[..], Fam())
    {
      ConsistentFacts(q0, slots, loc0, PlainFamily);
      var ready', pcbs' := Sjf.SchedSJF(ready, pcbs, running, timer, policy.sjf, w);
      ghost var loc' := loc0;
      if q0.ready != [] {
        loc' := loc0[Sjf.SjfPick(q0.ready, q0.pcbs, policy.sjf, Sjf.Estimator(policy.sjf.quantum, w)) := OnCore(FirstNull(slots))];
      }
      SjfOutcome(q0, slots, loc0, policy.sjf, w, timer, ready', pcbs', running[..], loc');
      Commit(ready', pcbs', loc');
    }

    /**
     * schedPriority as the engine calls it: every ready PCB ages, the
     * chosen one takes the first free core and leaves the ready list, as
     * Priority.SchedPriority states.
     */
    method RunPriority(ghost q0: Queues, ghost slots: seq<Option<Handle>>, ghost loc0: seq<Loc>)
      requires Sane() && Settled(loc) && scheduler.Some? && policy.UsePriority? && None in running[..]
      requires q0 == Snapshot() && slots == running[..] && loc0 == loc
      modifies this, running
      ensures Sane() && Settled(loc) && Setting() == old(Setting())
      ensures processes == old(processes) && timer == old(timer) && cpuBusy == old(cpuBusy)
      ensures q0.ready == [] ==> Snapshot() == q0 && running[..] == slots && loc == loc0
      ensures q0.ready != [] ==>
        LinkedList.Distinct(q0.ready) && Priority.ReadyOk(q0.ready, q0.pcbs) &&
        var h := Priority.PriorityPick(q0.ready, q0.pcbs, timer, policy.prior.agingThreshold);
        Snapshot() == q0.(pcbs := Priority.Scheduled(q0.ready, q0.pcbs, timer, policy.prior),
                          ready := LinkedList.Detach(q0.ready, h)) &&
        running[..] == Occupy(slots, h) && loc == loc0[h := OnCore(FirstNull(slots))]
      ensures Progress(q0, slots, Snapshot(), running[..], Fam())
    {
      PriorReady(q0, slots, loc0);
      var ready', pcbs' := Priority.SchedPriority(ready, pcbs, running, timer, policy.prior);
      ghost var loc' := loc0;
      if q0.ready != [] {
        loc' := loc0[Priority.PriorityPick(q0.ready, q0.pcbs, timer, policy.prior.agingThreshold) := OnCore(FirstNull(slots))];
      }
      PriorityOutcome(q0, slots, loc0, timer, policy.prior, ready', pcbs', running[..], loc');
      Commit(ready', pcbs', loc');
    }

    /**
     * schedMLQ as the engine calls it: the group Mlq.ChosenGroup names
     * serves the head of its first non-empty level and counts the
     * dispatch; nothing happens when every level is empty.
     */
    method RunMlq(ghost q0: Queues, ghost slots: seq<Option<Handle>>, ghost loc0: seq<Loc>)
      requires Sane() && Settled(loc) && scheduler == Some(SchedulerType.Mlq) && None in running[..]
      requires q0 == Snapshot() && slots == running[..] && loc0 == loc
      modifies this, running, mlq
      ensures Sane() && Settled(loc) && Setting() == old(Setting())
      ensures processes == old(processes) && timer == old(timer) && cpuBusy == old(cpuBusy)
      ensures MlqServed(q0, slots, loc0, Snapshot(), running[..], loc, mlq.high, old(mlq.hpqTime), old(mlq.lpqTime), mlq.policies)
      ensures var g := Mlq.ChosenGroup(q0.levels, mlq.high, old(mlq.hpqTime), old(mlq.lpqTime));
        mlq.hpqTime == old(mlq.hpqTime) + (if g == Some(Mlq.HighGroup) then 1 else 0) &&
        mlq.lpqTime == old(mlq.lpqTime) + (if g == Some(Mlq.LowGroup) then 1 else 0)
      ensures Progress(q0, slots, Snapshot(), running[..], Fam())
    {
      Mlq.PlacedLevelsOk(mlq.levels, pcbs);
      ghost var hpq, lpq := mlq.hpqTime, mlq.lpqTime;
      var pcbs', shown := mlq.Schedule(pcbs, running);
      var ready' := if shown.Some? then shown.value else ready;
      MlqOutcome(q0, slots, loc0, mlq.high, hpq, lpq, mlq.policies, mlq.levels, pcbs', ready', running[..]);
      Commit(ready', pcbs', MlqLoc(q0, slots, loc0, mlq.high, hpq, lpq));
    }

    /**
     * schedMLFQ as the engine calls it: the levels age, then the first
     * non-empty level serves its head; with every level empty only the
     * aging happens.
     */
    method RunMlfq(ghost q0: Queues, ghost slots: seq<Option<Handle>>, ghost loc0: seq<Loc>)
      requires Sane() && Settled(loc) && scheduler == Some(SchedulerType.Mlfq) && None in running[..]
      requires q0 == Snapshot() && slots == running[..] && loc0 == loc
      modifies this, running, mlfq
      ensures Sane() && Settled(loc) && Setting() == old(Setting())
      ensures processes == old(processes) && timer == old(timer) && cpuBusy == old(cpuBusy)
      ensures MlfqServed(q0, slots, loc0, Snapshot(), running[..], loc, timer, mlfq.agingThreshold, mlfq.policies)
      ensures Progress(q0, slots, Snapshot(), running[..], Fam())
    {
      MlfqAgedKeeps(q0, slots, loc0, timer, mlfq.agingThreshold);
      var pcbs', shown := mlfq.Schedule(pcbs, running, timer);
      var ready' := if shown.Some? then shown.value else ready;
      MlfqOutcome(q0, slots, loc0, timer, mlfq.agingThreshold, mlfq.policies, mlfq.levels, pcbs', ready', running[..]);
      Commit(ready', pcbs', MlfqLoc(q0, slots, loc0, timer, mlfq.agingThreshold));
    }

    /**
     * One call of `schedule_fn` with its arguments. With a PCB waiting for
     * the CPU one more core is taken; with none, no core is and none is
     * left waiting. What each policy does is stated by its Run method.
     */
    method Schedule()
      requires Sane() && Settled(loc) && scheduler.Some? && None in running[..]
      modifies this, running, mlq, mlfq
      ensures Sane() && Settled(loc) && Setting() == old(Setting())
      ensures processes == old(processes) && timer == old(timer) && cpuBusy == old(cpuBusy)
      ensures Progress(old(Snapshot()), old(running[..]), Snapshot(), running[..], Fam())
    {
      match policy {
        case UseFcfs => RunFcfs();
        case UseRR(_) => RunRR();
        case UseSjf(_) => RunSjf(Snapshot(), running[..], loc);
        case UsePriority(_) => RunPriority(Snapshot(), running[..], loc);
        case UseMlq => RunMlq(Snapshot(), running[..], loc);
        case UseMlfq => RunMlfq(Snapshot(), running[..], loc);
      }
    }

    /** The lists and the places a policy call leaves, written back. */
    method Commit(ready': seq<Handle>, pcbs': seq<Pcb>, ghost loc': seq<Loc>)
      requires Installed() && Consistent(Snapshot().(pcbs := pcbs', ready := ready'), running[..], loc', Fam())
      modifies this
      ensures Sane() && Setting() == old(Setting()) && loc == loc'
      ensures Snapshot() == old(Snapshot()).(pcbs := pcbs', ready := ready')
      ensures processes == old(processes) && timer == old(timer) && cpuBusy == old(cpuBusy)
    {
      ready, pcbs := ready', pcbs';
      loc := loc';
    }

    /**
     * The scheduling loop of FakeOS_simStep: `cores` rounds, each calling
     * the policy unless cpuFull says every core is busy. Afterwards either
     * every core is busy or no PCB waits for the CPU.
     */
    method ScheduleRound()
      requires Valid() && scheduler.Some?
      modifies this, running, mlq, mlfq
      ensures Valid() && Setting() == old(Setting())
      ensures processes == old(processes) && timer == old(timer) && cpuBusy == old(cpuBusy)
      ensures SlotsInArena(running[..], pcbs) && (Backlog(Snapshot(), Fam()) ==> AllBusy(running[..], pcbs))
    {
      var i := 0;
      while i < cores
        invariant 0 <= i <= cores
        invariant Valid() && Setting() == old(Setting())
        invariant processes == old(processes) && timer == old(timer) && cpuBusy == old(cpuBusy)
        invariant Backlog(Snapshot(), Fam()) ==> FreeCount(running[..]) <= cores - i
      {
        ConsistentFacts(Snapshot(), running[..], loc, Fam());
        NotFullHasFreeCore(running[..], pcbs);
        var full := CpuFull(running, pcbs);
        if !full {
          Schedule();
        }
        i := i + 1;
      }
      ConsistentFacts(Snapshot(), running[..], loc, Fam());
      NotFullHasFreeCore(running[..], pcbs);
    }

    /** increaseDuration on the engine: the run counters advance, nothing else changes. */
    method IncreaseRunning()
      requires Valid()
      modifies this
      ensures Valid() && Setting() == old(Setting()) && loc == old(loc)
      ensures processes == old(processes) && timer == old(timer) && cpuBusy == old(cpuBusy)
      ensures Snapshot() == old(Snapshot()).(pcbs := pcbs) && |pcbs| == |old(pcbs)|
      ensures forall h :: 0 <= h < |pcbs| ==>
        pcbs[h] == if Reached(running[..], old(pcbs), h) then old(pcbs)[h].(duration := old(pcbs)[h].duration + 1) else old(pcbs)[h]
    {
      ghost var q0 := Snapshot();
      ConsistentFacts(q0, running[..], loc, Fam());
      var pcbs' := IncreaseDuration(running, pcbs);
      DurationsKeep(q0, running[..], loc, Fam(), pcbs');
      pcbs := pcbs';
    }

    /** `cpu_busy_time++` when the running scan found a core in use. */
    method CountBusy(busy: bool)
      requires Valid()
      modifies this
      ensures Valid() && Setting() == old(Setting()) && Snapshot() == old(Snapshot()) && loc == old(loc)
      ensures processes == old(processes) && timer == old(timer)
      ensures cpuBusy == old(cpuBusy) + (if busy then 1 else 0)
    {
      if busy {
        cpuBusy := cpuBusy + 1;
      }
    }

    /** `++timer`, closing the step. */
    method Tick()
      requires Valid()
      modifies this
      ensures Valid() && Setting() == old(Setting()) && Snapshot() == old(Snapshot()) && loc == old(loc)
      ensures processes == old(processes) && cpuBusy == old(cpuBusy) && timer == old(timer) + 1
    {
      timer := timer + 1;
    }

    /**
     * The two scans of FakeOS_simStep and the busy-time count: the time
     * rises by one exactly when some core held a PCB.
     */
    method ScanCores()
      requires Valid() && scheduler.Some?
      modifies this, running, mlq, mlfq
      ensures Valid() && Setting() == old(Setting())
      ensures processes == old(processes) && timer == old(timer)
      ensures cpuBusy == old(cpuBusy) + (if Occupied(old(running[..])) then 1 else 0)
      ensures Todo(old(Snapshot()), old(waiting), old(Fam())) &&
        var w := WaitingPass(old(Snapshot()), old(waiting), old(Fam()), Newer, timer);
        CoresOk(w, old(running[..]), old(Fam())) &&
        var r := RunningPass(w, old(running[..]), 0, old(Fam()), Newer, timer);
        Snapshot() == r.0 && running[..] == r.1
    {
      ScanWaiting();
      BusyIffOccupied(Snapshot(), running[..], loc, Fam(), Newer, timer);
      var busy := ScanRunning();
      CountBusy(busy);
    }

    /**
     * The end of FakeOS_simStep: increaseDuration and the clock. When the
     * main loop then stops, every PCB has terminated.
     */
    method EndStep()
      requires Valid() && SlotsInArena(running[..], pcbs) && (Backlog(Snapshot(), Fam()) ==> AllBusy(running[..], pcbs))
      modifies this
      ensures Valid() && Setting() == old(Setting())
      ensures processes == old(processes) && cpuBusy == old(cpuBusy) && timer == old(timer) + 1
      ensures SlotsInArena(running[..], pcbs) && (Backlog(Snapshot(), Fam()) ==> AllBusy(running[..], pcbs))
      ensures Stops(Snapshot(), running[..], processes) ==> forall h :: 0 <= h < |loc| ==> loc[h] == Done
    {
      ghost var q0 := Snapshot();
      IncreaseRunning();
      assert Backlog(Snapshot(), Fam()) == Backlog(q0, Fam());
      Tick();
      if Stops(Snapshot(), running[..], processes) {
        StoppedMeansDone(Snapshot(), running[..], loc, Fam(), processes);
      }
    }

    /**
     * FakeOS_simStep: arrivals, the waiting scan, the running scan, the
     * busy-time count, the scheduling loop, increaseDuration and the clock.
     * An arrival that breaks an admission rule stops the step.
     */
    method SimStep() returns (err: Option<AdmitError>)
      requires Valid() && scheduler.Some?
      modifies this, running, mlq, mlfq
      ensures Valid() && Setting() == old(Setting())
      ensures err.Some? ==> timer == old(timer) && cpuBusy == old(cpuBusy) && running[..] == old(running[..])
      ensures err.None? ==>
        processes == Staying(old(processes), old(timer)) && timer == old(timer) + 1 &&
        cpuBusy == old(cpuBusy) + (if Occupied(old(running[..])) then 1 else 0)
      ensures err.None? ==> SlotsInArena(running[..], pcbs) && (Backlog(Snapshot(), Fam()) ==> AllBusy(running[..], pcbs))
      ensures err.None? && Stops(Snapshot(), running[..], processes) ==> forall h :: 0 <= h < |loc| ==> loc[h] == Done
    {
      err := Arrivals();
      if err.Some? {
        return;
      }
      ScanCores();
      ScheduleRound();
      EndStep();
    }

    /**
     * The test of the main loop: the simulation goes on while some core
     * holds a PCB or the ready list, the waiting list or the processes to
     * come are not empty.
     */
    method Continues() returns (more: bool)
      requires Valid()
      ensures more <==> !Stops(Snapshot(), running[..], processes)
    {
      var idle := true;
      var i := 0;
      while i < cores
        invariant 0 <= i <= cores
        invariant idle <==> forall j :: 0 <= j < i ==> running[j].None?
      {
        if running[i].Some? {
          idle := false;
        }
        i := i + 1;
      }
      more := !idle || ready != [] || waiting != [] || processes != [];
    }

    /** The new PCB joins the arena and goes where its first burst sends it. */
    method AdmitAndRoute(pcb: Pcb)
      requires Sane() && Settled(loc) && scheduler.Some? && pcb.pid > 0 && ArgsOk(Fam(), pcb)
      modifies this, mlq, mlfq
      ensures Sane() && Settled(loc) && Setting() == old(Setting())
      ensures Snapshot() == Routed(old(Snapshot()).(pcbs := old(pcbs) + [pcb]), |old(pcbs)|, Fam(), Newer, timer)
      ensures loc == old(loc) + [Destination(pcb)]
      ensures processes == old(processes) && timer == old(timer) && cpuBusy == old(cpuBusy)
    {
      ghost var loc0 := loc;
      Admit(pcb);
      EnqueueProcess(|pcbs| - 1);
      AdmittedSettles(loc0, pcb);
    }

    /** The new PCB joins the arena, in transit. */
    method Admit(pcb: Pcb)
      requires Sane() && pcb.pid > 0 && ArgsOk(Fam(), pcb)
      modifies this
      ensures Sane() && Setting() == old(Setting())
      ensures pcbs == old(pcbs) + [pcb] && loc == old(loc) + [Transit]
      ensures Snapshot() == old(Snapshot()).(pcbs := old(pcbs) + [pcb])
      ensures ready == old(ready) && waiting == old(waiting) && terminated == old(terminated)
      ensures processes == old(processes) && timer == old(timer) && cpuBusy == old(cpuBusy)
    {
      ghost var q0, slots, fam, loc0 := Snapshot(), running[..], Fam(), loc;
      pcbs := pcbs + [pcb];
      loc := loc + [Transit];
      assert running[..] == slots && Fam() == fam && Snapshot() == q0.(pcbs := q0.pcbs + [pcb]);
      assert Consistent(Snapshot(), slots, loc, fam) by {
        AdmitKeeps(q0, slots, loc0, fam, pcb);
      }
    }

    /** The routing itself, by the PCB's next burst and the policy. */
    method Route(h: Handle)
      requires scheduler.Some? && CanRoute(Snapshot(), h, Fam())
      requires scheduler == Some(SchedulerType.Mlq) ==> mlq != null && mlq.Valid()
      requires scheduler == Some(SchedulerType.Mlfq) ==> mlfq != null && mlfq.Valid()
      modifies this, mlq, mlfq
      ensures Setting() == old(Setting()) && loc == old(loc)
      ensures Snapshot() == Routed(old(Snapshot()), h, Fam(), Newer, timer)
      ensures scheduler == Some(SchedulerType.Mlq) ==>
        mlq.Valid() && mlq.hpqTime == old(mlq.hpqTime) && mlq.lpqTime == old(mlq.lpqTime)
      ensures scheduler == Some(SchedulerType.Mlfq) ==> mlfq.Valid()
      ensures processes == old(processes) && timer == old(timer) && cpuBusy == old(cpuBusy)
    {
      if HasCpuHead(pcbs[h]) && scheduler == Some(SchedulerType.Mlfq) {
        RouteMlfq(h);
      } else if HasCpuHead(pcbs[h]) && scheduler == Some(SchedulerType.Mlq) {
        RouteMlq(h);
      } else {
        RouteList(h);
      }
    }

    /** enqueueProcess when no level is involved: to the terminated records, the waiting list or the ready list. */
    method RouteList(h: Handle)
      requires scheduler.Some? && h < |pcbs| && |LevelsNow()| == LevelCount(Fam()) && ArgsOk(Fam(), pcbs[h])
      requires h !in waiting && (HasCpuHead(pcbs[h]) ==> !Leveled(Fam()) && h !in ready)
      modifies this
      ensures Setting() == old(Setting()) && loc == old(loc)
      ensures Snapshot() == Routed(old(Snapshot()), h, Fam(), Newer, timer)
      ensures processes == old(processes) && timer == old(timer) && cpuBusy == old(cpuBusy)
    {
      var p := pcbs[h];
      if p.events == [] {
        var s := UpdateStats(p.stats, CompleteTime, timer);
        terminated := terminated + [s];
        pcbs := pcbs[h := p.(stats := s)];
      } else if p.events[0].kind == IO {
        waiting := LinkedList.PushBack(waiting, h, false).value;
      } else {
        ready := LinkedList.PushBack(ready, h, false).value;
        pcbs := pcbs[h := p.(stats := UpdateStats(p.stats, ReadyEnqueue, timer))];
      }
    }

    /** enqueueProcess under MLQ: MLQ_enqueue, then the enqueue time. */
    method RouteMlq(h: Handle)
      requires scheduler == Some(SchedulerType.Mlq) && mlq != null && mlq.Valid()
      requires h < |pcbs| && HasCpuHead(pcbs[h]) && ArgsOk(MlqFamily, pcbs[h])
      requires forall i :: 0 <= i < |mlq.levels| ==> h !in mlq.levels[i]
      modifies this, mlq
      ensures Setting() == old(Setting()) && loc == old(loc)
      ensures mlq.Valid() && mlq.hpqTime == old(mlq.hpqTime) && mlq.lpqTime == old(mlq.lpqTime)
      ensures Snapshot() == Routed(old(Snapshot()), h, MlqFamily, Newer, timer)
      ensures processes == old(processes) && timer == old(timer) && cpuBusy == old(cpuBusy)
    {
      var p := pcbs[h];
      mlq.Enqueue(pcbs, h);
      pcbs := pcbs[h := p.(stats := UpdateStats(p.stats, ReadyEnqueue, timer))];
    }

    /** enqueueProcess under MLFQ: MLFQ_enqueue, then the enqueue time. */
    method RouteMlfq(h: Handle)
      requires scheduler == Some(SchedulerType.Mlfq) && mlfq != null && mlfq.Valid()
      requires h < |pcbs| && HasCpuHead(pcbs[h]) && ArgsOk(MlfqFamily, pcbs[h])
      requires Mlfq.Placed(mlfq.levels, pcbs) && Mlfq.Unqueued(mlfq.levels, h)
      modifies this, mlfq
      ensures Setting() == old(Setting()) && loc == old(loc)
      ensures mlfq.Valid()
      ensures Snapshot() == Routed(old(Snapshot()), h, MlfqFamily, Newer, timer)
      ensures processes == old(processes) && timer == old(timer) && cpuBusy == old(cpuBusy)
    {
      var pcbs' := mlfq.Enqueue(pcbs, h);
      pcbs := pcbs'[h := pcbs'[h].(stats := UpdateStats(pcbs'[h].stats, ReadyEnqueue, timer))];
    }
  }
}
