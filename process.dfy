/**
 * Processes, their bursts, their per-policy state and their statistics
 * (include/fake_process.h, and the statistics dispatch of both fake_os.c
 * revisions).
 */
module ProcessModel {
  import opened Wrappers

  /** The resource a burst uses. */
  datatype Resource = CPU | IO

  /** A `ProcessEvent`: one burst of `duration` ticks on a resource. */
  datatype Burst = Burst(kind: Resource, duration: int)

  /** `ProcessPriority`: numerically lower is better. */
  const REALTIME: int := 0
  const HIGH: int := 1
  const NORMAL: int := 2
  const IDLE: int := 3
  const BATCH: int := 4
  const MAX_PRIORITY: nat := 5

  /** The number of MLFQ levels, and the age after which src/sched_MLFQ.c promotes (include/fake_os.h). */
  const MLFQ_QUEUES: nat := 3
  const AGING: int := 50

  /** `ProcStatsType`. */
  datatype StatKind = ArrivalTime | WaitingTime | ReadyEnqueue | TurnaroundTime | ResponseTime | CompleteTime

  /**
   * `ProcessStats`. The response time is recorded once, at the first
   * dispatch; `responded` says whether that has happened.
   */
  datatype Stats = Stats(
    arrival: int,
    waiting: int,
    lastReadyEnqueue: int,
    turnaround: int,
    response: int,
    responded: bool,
    complete: int)

  /** The per-process policy state behind `pcb->args`. */
  datatype ProcArgs =
    | NoArgs
      /** ProcSJFArgs. */
    | ProcSjf(previousPrediction: real)
      /** ProcPriorArgs of scheduler/src. */
    | ProcPrior(lastAging: int, currPriority: int)
      /** The MLQ per-process state: the level the process belongs to. */
    | ProcMlq(queue: int)
      /** ProcMLFQArgs of scheduler/src. */
    | ProcMlfq(queue: int, lastAging: int)
      /** The per-process priority state read by src/sched_Priority.c. */
    | ProcLegacyPrior(lastAging: int, currPriority: int, agingThreshold: int)

  /**
   * A `FakePCB`. src/sched_MLFQ.c reads `priority` as the level and keeps
   * `promotion` and `last_enqueued_time` (here `lastEnqueued`); nothing
   * else touches those two.
   */
  datatype Pcb = Pcb(
    pid: int,
    priority: int,
    duration: int,
    quantumUsed: bool,
    events: seq<Burst>,
    args: ProcArgs,
    stats: Stats,
    promotion: int,
    lastEnqueued: int)

  /**
   * The policies the scheduler/src engine offers, in the order of its
   * command-line codes.
   */
  datatype SchedulerType =
    | Fcfs | FcfsPreemptive | SjfPredict | SjfPredictPreemptive | SjfPure | Srtf
    | Priority | PriorityPreemptive | RR | Mlq | Mlfq

  /** The policies of the src engine (include/fake_os.h). */
  datatype LegacySchedulerType =
    | LegacyFcfs | LegacySjfPredict | LegacySjfPredictPreemptive | LegacySjfPure | LegacySrtf
    | LegacyPriority | LegacyPriorityPreemptive | LegacyRR | LegacyMlfq

  /** A `FakeProcess` as read from a trace: what admission needs of it. */
  datatype FakeProcess = FakeProcess(pid: int, arrival: int, priority: int, events: seq<Burst>)

  /** The burst a PCB is in, if any. */
  predicate HasCpuHead(p: Pcb) {
    p.events != [] && p.events[0].kind == CPU
  }

  predicate HasIoHead(p: Pcb) {
    p.events != [] && p.events[0].kind == IO
  }

  /** FakeProcess_initiStats: every field zero. */
  function InitStats(): (s: Stats)
    ensures s.arrival == 0 && s.waiting == 0 && s.turnaround == 0 && s.response == 0 && !s.responded
  {
    Stats(0, 0, 0, 0, 0, false, 0)
  }

  function SetArrival(s: Stats, timer: int): Stats {
    s.(arrival := timer)
  }

  function SetLastEnqueued(s: Stats, timer: int): Stats {
    s.(lastReadyEnqueue := timer)
  }

  /** The time since the last ready enqueue is added to the waiting time. */
  function AddWaiting(s: Stats, timer: int): Stats {
    s.(waiting := s.waiting + (timer - s.lastReadyEnqueue))
  }

  /** The first call records the time since arrival; later calls change nothing. */
  function SetResponse(s: Stats, timer: int): Stats {
    if s.responded then s else s.(response := timer - s.arrival, responded := true)
  }

  function SetComplete(s: Stats, timer: int): Stats {
    s.(complete := timer)
  }

  function SetTurnaround(s: Stats, timer: int): Stats {
    s.(turnaround := timer - s.arrival)
  }

  /**
   * FakeOS_procUpdateStats of scheduler/src/fake_os.c: COMPLETE_TIME falls
   * through into TURNAROUND_TIME and WAITING_TIME into RESPONSE_TIME.
   */
  function UpdateStats(s: Stats, kind: StatKind, timer: int): (r: Stats)
    ensures kind == ArrivalTime ==> r == s.(arrival := timer)
    ensures kind == ReadyEnqueue ==> r == s.(lastReadyEnqueue := timer)
    ensures kind == CompleteTime ==> r.complete == timer && r.turnaround == r.complete - r.arrival
    ensures kind == TurnaroundTime ==> r.turnaround == timer - r.arrival && r.complete == s.complete
    ensures kind == WaitingTime ==> r.waiting == s.waiting + (timer - s.lastReadyEnqueue)
    ensures kind in {WaitingTime, ResponseTime} ==>
      r.responded && r.response == (if s.responded then s.response else timer - s.arrival)
    ensures r.arrival == (if kind == ArrivalTime then timer else s.arrival)
    ensures kind == CompleteTime ==> r.(complete := s.complete, turnaround := s.turnaround) == s
    ensures kind == TurnaroundTime ==> r.(turnaround := s.turnaround) == s
    ensures kind == WaitingTime ==> r.(waiting := s.waiting, response := s.response, responded := s.responded) == s
    ensures kind == ResponseTime ==> r.(response := s.response, responded := s.responded) == s
  {
    match kind
    case ArrivalTime => SetArrival(s, timer)
    case ReadyEnqueue => SetLastEnqueued(s, timer)
    case CompleteTime => SetTurnaround(SetComplete(s, timer), timer)
    case TurnaroundTime => SetTurnaround(s, timer)
    case WaitingTime => SetResponse(AddWaiting(s, timer), timer)
    case ResponseTime => SetResponse(s, timer)
  }

  /** Why src/fake_os.c refuses a statistics update. */
  datatype StatError = IllegalStatType

  /**
   * FakeOS_procUpdateStats of src/fake_os.c: no fallthrough, and the
   * stand-alone TURNAROUND_TIME and RESPONSE_TIME requests reach the
   * "illegal stat type" assertion.
   */
  function LegacyUpdateStats(s: Stats, kind: StatKind, timer: int): (r: Result<Stats, StatError>)
    ensures r.Err? <==> kind in {TurnaroundTime, ResponseTime}
    ensures r.Ok? && kind == CompleteTime ==> r.value.complete == timer && r.value.turnaround == timer - s.arrival
    ensures r.Ok? && kind == WaitingTime ==>
      r.value.waiting == s.waiting + (timer - s.lastReadyEnqueue) && r.value.responded
  {
    match kind
    case ArrivalTime => Ok(SetArrival(s, timer))
    case ReadyEnqueue => Ok(SetLastEnqueued(s, timer))
    case CompleteTime => Ok(SetTurnaround(SetComplete(s, timer), timer))
    case WaitingTime => Ok(SetResponse(AddWaiting(s, timer), timer))
    case _ => Err(IllegalStatType)
  }

  /** Both revisions agree on every request the older one accepts. */
  lemma LegacyUpdateStatsAgrees(s: Stats, kind: StatKind, timer: int)
    ensures LegacyUpdateStats(s, kind, timer).Ok? ==> LegacyUpdateStats(s, kind, timer).value == UpdateStats(s, kind, timer)
  {
  }

  /** The response time is captured once: a second dispatch leaves it alone. */
  lemma ResponseCapturedOnce(s: Stats, t1: int, t2: int)
    ensures UpdateStats(UpdateStats(s, WaitingTime, t1), WaitingTime, t2).response == UpdateStats(s, WaitingTime, t1).response
  {
  }

  /**
   * A process that arrives at `a`, is enqueued at `e`, dispatched at `d`
   * (with `a <= e <= d`) and completes at `c`: the four records give a
   * turnaround of `c - a`, a waiting time of `d - e` and a response time
   * of `d - a`.
   */
  lemma {:induction false} LifecycleStats(a: int, e: int, d: int, c: int)
    requires a <= e <= d <= c
    ensures var s := UpdateStats(UpdateStats(UpdateStats(UpdateStats(InitStats(), ArrivalTime, a), ReadyEnqueue, e), WaitingTime, d), CompleteTime, c);
      s.turnaround == c - a && s.waiting == d - e && s.response == d - a && s.turnaround >= s.waiting >= 0
  {
  }

  /**
   * An unsigned 32-bit difference, as when a signed tick count is
   * compared with an `unsigned int` timestamp.
   */
  function ElapsedU32(now: int, since: int): (r: int)
    ensures 0 <= r < 0x1_0000_0000
  {
    (now - since) % 0x1_0000_0000
  }

  /** The unsigned difference differs from the plain one by a multiple of 2^32. */
  lemma ElapsedU32Congruent(now: int, since: int)
    ensures exists m: int {:trigger m * 0x1_0000_0000} :: ElapsedU32(now, since) == (now - since) + m * 0x1_0000_0000
  {
    var m := -((now - since) / 0x1_0000_0000);
    assert ElapsedU32(now, since) == (now - since) + m * 0x1_0000_0000;
  }

  /** For timestamps in order and in range the unsigned difference is the plain one. */
  lemma ElapsedU32Plain(now: int, since: int)
    requires 0 <= since <= now < 0x1_0000_0000
    ensures ElapsedU32(now, since) == now - since
  {
  }

  /** A timestamp later than now reads as a huge elapsed time. */
  lemma ElapsedU32Future(now: int, since: int)
    requires 0 <= now < since < 0x1_0000_0000
    ensures ElapsedU32(now, since) == 0x1_0000_0000 - (since - now)
  {
  }
}
