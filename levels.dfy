/**
 * The level layout MLQArgs (src/sched_MLQ.c) and both MLFQArgs
 * (scheduler/src/sched_MLFQ.c, src/sched_MLFQ.c) build: about 70% of the
 * levels, and never all of them, run round robin with a quantum growing by
 * 40% from one level to the next; the rest run first come, first served.
 */
module Levels {
  import opened Wrappers
  import opened ProcessModel
  import opened SchedUtils
  import Fcfs
  import RoundRobin
  import LinkedList

  /** The policy of one level with its arguments: the schedule_fn/schedule_args pair. */
  datatype LevelPolicy = LevelRR(quantum: int) | LevelFcfs

  /**
   * `(int)(n * 0.70)`, decremented when it would cover every level: the
   * truncated 70% share, which for a positive count is always below it.
   */
  function HighLevels(n: nat): (h: int)
    ensures n > 0 ==> 0 <= h < n && 10 * h <= 7 * n < 10 * (h + 1)
    ensures n == 0 ==> h == -1
  {
    var h := n * 7 / 10;
    if h == n then h - 1 else h
  }

  /** With the constants of the sources: 3 of the MAX_PRIORITY levels and 2 of the MLFQ_QUEUES levels are round robin. */
  lemma HighLevelsOfConstants()
    ensures HighLevels(MAX_PRIORITY) == 3
    ensures HighLevels(MLFQ_QUEUES) == 2
  {
  }

  /**
   * `quantum += quantum * 0.40`: 1.4 times the quantum, the fraction
   * dropped toward zero by the conversion back to int.
   */
  function Grow(q: int): (r: int)
    ensures q >= 0 ==> 5 * r <= 7 * q < 5 * r + 5
    ensures q < 0 ==> 5 * r - 5 < 7 * q <= 5 * r
  {
    if q >= 0 then q + (2 * q) / 5 else -((-q) + (2 * (-q)) / 5)
  }

  /**
   * The grown quantum is 1.4 times the old one truncated toward zero, so a
   * non-negative quantum never shrinks, and one of at least 3 grows.
   */
  lemma GrowTruncates(q: int)
    ensures q >= 0 ==> 0 <= 5 * Grow(q) <= 7 * q < 5 * (Grow(q) + 1)
    ensures q < 0 ==> 5 * (Grow(q) - 1) < 7 * q <= 5 * Grow(q) <= 0
    ensures q >= 0 ==> Grow(q) >= q && (q >= 3 ==> Grow(q) > q)
  {
  }

  /** The quantum of round-robin level `i`. */
  function QuantumAt(q: int, i: nat): int {
    if i == 0 then q else Grow(QuantumAt(q, i - 1))
  }

  /** The layout of `n` levels whose first round-robin level has quantum `q`. */
  function LevelPolicies(n: nat, q: int): (r: seq<LevelPolicy>)
    ensures |r| == n
  {
    seq(n, i requires 0 <= i < n => if i < HighLevels(n) then LevelRR(QuantumAt(q, i)) else LevelFcfs)
  }

  /**
   * The two loops of MLQArgs/MLFQArgs: round-robin levels first, each
   * with the quantum of the one before grown by 40%, then FCFS levels.
   */
  method Layout(n: nat, quantum: int) returns (high: int, policies: seq<LevelPolicy>)
    requires n > 0
    ensures high == HighLevels(n) && 0 <= high < n
    ensures |policies| == n
    ensures forall i :: 0 <= i < high ==> policies[i] == LevelRR(QuantumAt(quantum, i))
    ensures forall i :: high <= i < n ==> policies[i] == LevelFcfs
  {
    high := HighLevels(n);
    policies := [];
    var q := quantum;
    var i := 0;
    while i < high
      invariant 0 <= i <= high && |policies| == i && q == QuantumAt(quantum, i)
      invariant forall j :: 0 <= j < i ==> policies[j] == LevelRR(QuantumAt(quantum, j))
    {
      policies := policies + [LevelRR(q)];
      q := Grow(q);
      i := i + 1;
    }
    while i < n
      invariant high <= i <= n && |policies| == i
      invariant forall j :: 0 <= j < high ==> policies[j] == LevelRR(QuantumAt(quantum, j))
      invariant forall j :: high <= j < i ==> policies[j] == LevelFcfs
    {
      policies := policies + [LevelFcfs];
      i := i + 1;
    }
  }

  /** The layout built by the loops is the one LevelPolicies describes. */
  lemma LayoutIsLevelPolicies(n: nat, quantum: int, policies: seq<LevelPolicy>)
    requires n > 0 && |policies| == n
    requires forall i :: 0 <= i < HighLevels(n) ==> policies[i] == LevelRR(QuantumAt(quantum, i))
    requires forall i :: HighLevels(n) <= i < n ==> policies[i] == LevelFcfs
    ensures policies == LevelPolicies(n, quantum)
  {
  }

  /**
   * From a non-negative quantum, lower levels never get a shorter one; from
   * a quantum of at least 3 each level's is strictly longer.
   */
  lemma {:induction false} QuantaGrow(q: int, i: nat, j: nat)
    requires q >= 0 && i <= j
    ensures 0 <= QuantumAt(q, i) <= QuantumAt(q, j)
    ensures q >= 3 && i < j ==> QuantumAt(q, i) < QuantumAt(q, j)
    decreases j
  {
    if i < j {
      QuantaGrow(q, i, j - 1);
      QuantaGrow(q, 0, j - 1);
      GrowTruncates(QuantumAt(q, j - 1));
    } else if i > 0 {
      QuantaGrow(q, 0, i - 1);
      GrowTruncates(QuantumAt(q, i - 1));
    }
  }

  /** A level that round robin runs: true exactly for the first HighLevels(n) levels. */
  predicate WellLaid(policies: seq<LevelPolicy>, high: int) {
    forall i :: 0 <= i < |policies| ==> (policies[i].LevelRR? <==> i < high)
  }

  /**
   * One dispatch from a level: the PCB's run counter is reset and, on a
   * round-robin level, its CPU burst is cut at the level's quantum.
   */
  function LevelDispatched(policy: LevelPolicy, p: Pcb): (r: Pcb)
    requires HasCpuHead(p)
    ensures r.pid == p.pid && r.duration == 0 && r.args == p.args && r.stats == p.stats
    ensures HasCpuHead(r) && CpuDemand(r.events) == CpuDemand(p.events)
    ensures policy.LevelFcfs? ==> r == p.(duration := 0)
    ensures policy.LevelRR? ==> r.events[0].duration <= policy.quantum
  {
    match policy
    case LevelRR(q) => Preempt(p.(duration := 0), q)
    case LevelFcfs => p.(duration := 0)
  }

  /**
   * The bottom level of any layout runs FCFS, so a dispatch from it never
   * marks a used quantum: a PCB that reaches the bottom level with the
   * mark cleared keeps it cleared for as long as it stays there.
   */
  lemma BottomLevelKeepsMark(n: nat, q: int, p: Pcb)
    requires n > 0 && HasCpuHead(p)
    ensures LevelPolicies(n, q)[n - 1] == LevelFcfs
    ensures LevelDispatched(LevelPolicies(n, q)[n - 1], p).quantumUsed == p.quantumUsed
  {
    assert HighLevels(n) <= n - 1;
  }

  /**
   * `(*schedule_fn[i])(os, schedule_args[i])` on a level swapped into
   * `os->ready`: round robin or FCFS takes the head of the level.
   */
  method RunPolicy(policy: LevelPolicy, ready: seq<Handle>, pcbs: seq<Pcb>, running: array<Option<Handle>>)
    returns (ready': seq<Handle>, pcbs': seq<Pcb>)
    requires ready != [] && ready[0] < |pcbs| && HasCpuHead(pcbs[ready[0]]) && None in running[..]
    modifies running
    ensures ready' == ready[1..] && running[..] == Occupy(old(running[..]), ready[0])
    ensures pcbs' == pcbs[ready[0] := LevelDispatched(policy, pcbs[ready[0]])]
  {
    match policy {
      case LevelRR(q) =>
        ready', pcbs' := RoundRobin.SchedRR(ready, pcbs, running, q);
      case LevelFcfs =>
        ready', pcbs' := Fcfs.SchedFCFS(ready, pcbs, running);
    }
  }

  /** The index of the first non-empty level in `[lo, hi)`. */
  function FirstNonEmpty(levels: seq<seq<Handle>>, lo: nat, hi: nat): (k: Option<nat>)
    requires lo <= hi <= |levels|
    ensures k.Some? ==> lo <= k.value < hi && levels[k.value] != []
    ensures k.Some? ==> forall j :: lo <= j < k.value ==> levels[j] == []
    ensures k.None? ==> forall j :: lo <= j < hi ==> levels[j] == []
    decreases hi - lo
  {
    if lo == hi then None
    else if levels[lo] != [] then Some(lo)
    else FirstNonEmpty(levels, lo + 1, hi)
  }

  /** Every queued PCB is in the arena and waits for the CPU. */
  predicate LevelsOk(levels: seq<seq<Handle>>, pcbs: seq<Pcb>) {
    forall i :: 0 <= i < |levels| ==> forall h :: h in levels[i] ==> h < |pcbs| && HasCpuHead(pcbs[h])
  }

  /** How many PCBs are queued over all levels. */
  function Queued(levels: seq<seq<Handle>>): nat {
    QueuedUpTo(levels, |levels|)
  }

  /** How many PCBs are queued at the first `n` levels. */
  function QueuedUpTo(levels: seq<seq<Handle>>, n: nat): nat
    requires n <= |levels|
  {
    if n == 0 then 0 else QueuedUpTo(levels, n - 1) + |levels[n - 1]|
  }

  /** Replacing one level changes the count by exactly the change in that level's length. */
  lemma QueuedUpdate(levels: seq<seq<Handle>>, i: nat, l: seq<Handle>)
    requires i < |levels|
    ensures Queued(levels[i := l]) + |levels[i]| == Queued(levels) + |l|
  {
    QueuedUpToUpdate(levels, i, l, |levels|);
  }

  lemma {:induction false} QueuedUpToUpdate(levels: seq<seq<Handle>>, i: nat, l: seq<Handle>, n: nat)
    requires i < |levels| && n <= |levels|
    ensures QueuedUpTo(levels[i := l], n) + (if i < n then |levels[i]| else 0) ==
            QueuedUpTo(levels, n) + (if i < n then |l| else 0)
  {
    if n > 0 {
      QueuedUpToUpdate(levels, i, l, n - 1);
    }
  }

  /** Moving one PCB from a level to the back of another keeps the count. */
  lemma MoveKeepsQueued(levels: seq<seq<Handle>>, from: nat, to: nat, h: Handle)
    requires from < |levels| && to < |levels| && from != to && h in levels[from]
    ensures Queued(levels[from := LinkedList.Detach(levels[from], h)][to := levels[to] + [h]]) == Queued(levels)
  {
    var d := LinkedList.Detach(levels[from], h);
    QueuedUpdate(levels, from, d);
    var mid := levels[from := d];
    assert mid[to] == levels[to];
    QueuedUpdate(mid, to, levels[to] + [h]);
  }

  /** Adding a PCB at the back of a level adds one to the count. */
  lemma PushKeepsQueued(levels: seq<seq<Handle>>, q: nat, h: Handle)
    requires q < |levels|
    ensures Queued(levels[q := levels[q] + [h]]) == Queued(levels) + 1
  {
    QueuedUpdate(levels, q, levels[q] + [h]);
  }

  /** Nothing is queued exactly when every level is empty. */
  lemma QueuedEmpty(levels: seq<seq<Handle>>)
    ensures Queued(levels) == 0 <==> FirstNonEmpty(levels, 0, |levels|).None?
  {
    QueuedUpToEmpty(levels, |levels|);
  }

  lemma {:induction false} QueuedUpToEmpty(levels: seq<seq<Handle>>, n: nat)
    requires n <= |levels|
    ensures QueuedUpTo(levels, n) == 0 <==> forall j :: 0 <= j < n ==> levels[j] == []
  {
    if n > 0 {
      QueuedUpToEmpty(levels, n - 1);
    }
  }

  /** The PCBs queued at some level. */
  ghost function Members(levels: seq<seq<Handle>>): set<Handle> {
    set k, h | 0 <= k < |levels| && h in levels[k] :: h
  }

  /** Pushing a PCB at the back of a level adds exactly it to the members. */
  lemma MembersPush(levels: seq<seq<Handle>>, q: nat, h: Handle)
    requires q < |levels|
    ensures Members(levels[q := levels[q] + [h]]) == Members(levels) + {h}
  {
    var levels' := levels[q := levels[q] + [h]];
    forall g ensures g in Members(levels') <==> g in Members(levels) + {h} {
      if g in Members(levels) {
        var k :| 0 <= k < |levels| && g in levels[k];
        assert g in levels'[k];
      }
      if g in Members(levels') {
        var k :| 0 <= k < |levels'| && g in levels'[k];
        if k != q || g != h {
          assert g in levels[k];
        }
      }
      if g == h {
        assert h in levels'[q];
      }
    }
  }

  /**
   * Taking the head off a level removes exactly it from the members, when
   * it is queued nowhere else.
   */
  lemma MembersPop(levels: seq<seq<Handle>>, k: nat)
    requires k < |levels| && levels[k] != [] && levels[k][0] !in levels[k][1..]
    requires forall j :: 0 <= j < |levels| && j != k ==> levels[k][0] !in levels[j]
    ensures Members(levels[k := levels[k][1..]]) == Members(levels) - {levels[k][0]}
    ensures forall g :: g in levels[k][1..] ==> g in Members(levels[k := levels[k][1..]])
  {
    var h := levels[k][0];
    var levels' := levels[k := levels[k][1..]];
    assert levels[k] == [h] + levels[k][1..];
    forall g ensures g in Members(levels') <==> g in Members(levels) - {h} {
      if g in Members(levels) - {h} {
        var j :| 0 <= j < |levels| && g in levels[j];
        assert g in levels'[j];
      }
      if g in Members(levels') {
        var j :| 0 <= j < |levels'| && g in levels'[j];
        assert g in levels[j];
      }
    }
    forall g | g in levels[k][1..] ensures g in Members(levels') {
      assert g in levels'[k];
    }
  }

  /**
   * Moving a PCB from one level to the back of another keeps the members,
   * when the level it leaves does not hold it twice.
   */
  lemma MembersMove(levels: seq<seq<Handle>>, from: nat, to: nat, h: Handle)
    requires from < |levels| && to < |levels| && from != to && h in levels[from]
    ensures Members(levels[from := LinkedList.Detach(levels[from], h)][to := levels[to] + [h]]) == Members(levels)
  {
    var d := LinkedList.Detach(levels[from], h);
    var levels' := levels[from := d][to := levels[to] + [h]];
    LinkedList.DetachRemoves(levels[from], h);
    forall g ensures g in Members(levels') <==> g in Members(levels) {
      if g in Members(levels) {
        var j :| 0 <= j < |levels| && g in levels[j];
        if g == h {
          assert g in levels'[to];
        } else if j == from {
          assert multiset(d)[g] > 0;
          assert g in levels'[j];
        } else if j == to {
          assert g in levels'[to];
        } else {
          assert g in levels'[j];
        }
        assert g in Members(levels');
      }
      if g in Members(levels') {
        var j :| 0 <= j < |levels'| && g in levels'[j];
        if j == from {
          assert multiset(levels[from])[g] > 0;
          assert g in levels[from];
        } else if j == to {
          assert g == h || g in levels[to];
        } else {
          assert g in levels[j];
        }
        assert g in Members(levels);
      }
    }
  }

  /** Every PCB of a level is a member. */
  lemma LevelInMembers(levels: seq<seq<Handle>>, k: nat)
    requires k < |levels|
    ensures forall g :: g in levels[k] ==> g in Members(levels)
  {
  }

  /** Nothing is queued exactly when no level holds a PCB. */
  lemma MembersEmpty(levels: seq<seq<Handle>>)
    ensures Members(levels) == {} <==> FirstNonEmpty(levels, 0, |levels|).None?
  {
    if FirstNonEmpty(levels, 0, |levels|).Some? {
      var k := FirstNonEmpty(levels, 0, |levels|).value;
      assert levels[k][0] in levels[k];
      assert levels[k][0] in Members(levels);
    } else {
      assert forall g :: g !in Members(levels);
    }
  }
}
