/** Shortest job first in its four forms (scheduler/src/sched_SJF.c). */
module Sjf {
  import opened Wrappers
  import opened ProcessModel
  import opened SchedUtils
  import LinkedList

  /** SchedSJFArgs: which of the four forms runs. */
  datatype SjfConfig = SjfConfig(quantum: int, prediction: bool, preemptive: bool)

  /**
   * SJFArgs: the predicting forms estimate the next burst, the preemptive
   * ones (SJF_PREDICT_PREEMPTIVE and SRTF) cut it at the quantum, which is
   * zero for the others.
   */
  function SJFArgs(quantum: int, scheduler: SchedulerType): (c: SjfConfig)
    ensures c.prediction <==> scheduler in {SjfPredict, SjfPredictPreemptive}
    ensures c.preemptive <==> scheduler in {SjfPredictPreemptive, Srtf}
    ensures c.quantum == (if c.preemptive then quantum else 0)
  {
    var preemptive := scheduler == SjfPredictPreemptive || scheduler == Srtf;
    SjfConfig(if preemptive then quantum else 0, scheduler == SjfPredict || scheduler == SjfPredictPreemptive, preemptive)
  }

  /** The observed burst the estimate uses: capped at a non-zero quantum. */
  function CapBurst(d: int, quantum: int): (c: int)
    ensures quantum == 0 ==> c == d
    ensures quantum != 0 ==> c <= quantum && c <= d && (c == d || c == quantum)
  {
    if quantum != 0 then (if d < quantum then d else quantum) else d
  }

  /** `previousPrediction`, zero for a PCB that has none yet. */
  function PrevPrediction(p: Pcb): real {
    if p.args.ProcSjf? then p.args.previousPrediction else 0.0
  }

  /**
   * The exponential average `w * burst + (1 - w) * previous`, the burst
   * being the length of the next CPU burst capped at a non-zero quantum.
   * With a weight between 0 and 1 the estimate lies between the observed
   * burst and the previous prediction, and a weight of 1 forgets the past.
   */
  function NewPrediction(p: Pcb, quantum: int, w: real): (r: real)
    ensures 0.0 <= w <= 1.0 ==> Between(r, CapBurst(HeadLength(p), quantum) as real, PrevPrediction(p))
    ensures w == 1.0 ==> r == CapBurst(HeadLength(p), quantum) as real
    ensures w == 0.0 ==> r == PrevPrediction(p)
  {
    Blended(CapBurst(HeadLength(p), quantum) as real, PrevPrediction(p), w);
    w * (CapBurst(HeadLength(p), quantum) as real) + (1.0 - w) * PrevPrediction(p)
  }

  /** The estimate the scan computes for each PCB. */
  function Estimator(quantum: int, w: real): Pcb -> real {
    p => NewPrediction(p, quantum, w)
  }

  /** The estimate of every PCB of `items`, in list order. */
  function Predictions(items: seq<Handle>, pcbs: seq<Pcb>, est: Pcb -> real): (r: seq<real>)
    requires forall h :: h in items ==> h < |pcbs|
    ensures |r| == |items|
    ensures forall k :: 0 <= k < |items| ==> items[k] in items && r[k] == est(pcbs[items[k]])
  {
    seq(|items|, k requires 0 <= k < |items| => assert items[k] in items; est(pcbs[items[k]]))
  }

  /** Item `k` beats every estimate before it, so the scan records it as the new shortest. */
  predicate Improves(vals: seq<real>, k: nat)
    requires k < |vals|
  {
    forall j :: 0 <= j < k ==> vals[k] < vals[j]
  }

  /**
   * The arena after the scan has seen the first `n` items: each item that
   * improved on the shortest estimate so far has its estimate stored.
   */
  function Recorded(items: seq<Handle>, pcbs: seq<Pcb>, vals: seq<real>, n: nat): (r: seq<Pcb>)
    requires n <= |items| == |vals|
    requires forall h :: h in items ==> h < |pcbs|
    ensures |r| == |pcbs|
    decreases n
  {
    if n == 0 then pcbs
    else
      var prev := Recorded(items, pcbs, vals, n - 1);
      assert items[n - 1] in items;
      if Improves(vals, n - 1) then prev[items[n - 1] := prev[items[n - 1]].(args := ProcSjf(vals[n - 1]))]
      else prev
  }

  /** The scan stores estimates only, and only in PCBs among the items it has seen. */
  lemma {:induction false} RecordedFrame(items: seq<Handle>, pcbs: seq<Pcb>, vals: seq<real>, n: nat)
    requires n <= |items| == |vals|
    requires forall h :: h in items ==> h < |pcbs|
    ensures var r := Recorded(items, pcbs, vals, n);
      (forall h :: 0 <= h < |pcbs| ==> r[h].(args := pcbs[h].args) == pcbs[h]) &&
      forall h :: 0 <= h < |pcbs| && h !in items[..n] ==> r[h] == pcbs[h]
    decreases n
  {
    if n > 0 {
      RecordedFrame(items, pcbs, vals, n - 1);
      assert items[..n] == items[..n - 1] + [items[n - 1]];
      assert items[n - 1] in items;
    }
  }

  /** By the time item `i` is read, the scan has not touched it. */
  lemma NotYetRecorded(items: seq<Handle>, pcbs: seq<Pcb>, vals: seq<real>, i: nat)
    requires LinkedList.Distinct(items) && i < |items| == |vals|
    requires forall h :: h in items ==> h < |pcbs|
    ensures items[i] in items && Recorded(items, pcbs, vals, i)[items[i]] == pcbs[items[i]]
  {
    LinkedList.DistinctNotBefore(items, 0, i);
    assert items[0..i] == items[..i];
    RecordedFrame(items, pcbs, vals, i);
  }

  /**
   * prediction: every item's estimate is computed in list order; each one
   * strictly below the shortest so far is stored in its PCB and becomes
   * the candidate. The candidate at the end is the first item with the
   * smallest estimate. Both revisions scan this way; they differ in the
   * estimate `est`.
   */
  method Prediction(items: seq<Handle>, pcbs: seq<Pcb>, est: Pcb -> real)
    returns (pick: Option<Handle>, pcbs': seq<Pcb>)
    requires LinkedList.Distinct(items)
    requires forall h :: h in items ==> h < |pcbs|
    ensures pick.None? <==> items == []
    ensures pick.Some? ==> pick.value == items[FirstMinReal(Predictions(items, pcbs, est))]
    ensures pcbs' == Recorded(items, pcbs, Predictions(items, pcbs, est), |items|)
  {
    ghost var vals := Predictions(items, pcbs, est);
    var shortPrediction: Option<real> := None;
    ghost var best: nat := 0;
    pick := None;
    pcbs' := pcbs;
    var i := 0;
    while i < |items|
      invariant ScanState(items, pcbs, vals, i, pcbs', shortPrediction, pick, best)
      decreases |items| - i
    {
      var h := items[i];
      ScanAdvance(items, pcbs, vals, i, pcbs', shortPrediction, pick, best);
      var newPrediction := est(pcbs'[h]);
      if shortPrediction.None? || newPrediction < shortPrediction.value {
        shortPrediction, pick, best := Some(newPrediction), Some(h), i;
        pcbs' := pcbs'[h := pcbs'[h].(args := ProcSjf(newPrediction))];
      }
      i := i + 1;
    }
    ScanDone(items, pcbs, vals, pcbs', shortPrediction, pick, best);
  }

  /** A scan that has seen every item has found the first smallest estimate. */
  lemma ScanDone(items: seq<Handle>, pcbs: seq<Pcb>, vals: seq<real>, cur: seq<Pcb>,
                 shortPrediction: Option<real>, pick: Option<Handle>, best: nat)
    requires |items| == |vals| && forall h :: h in items ==> h < |pcbs|
    requires ScanState(items, pcbs, vals, |items|, cur, shortPrediction, pick, best)
    ensures pick.None? <==> items == []
    ensures pick.Some? ==> pick.value == items[FirstMinReal(vals)]
    ensures cur == Recorded(items, pcbs, vals, |items|)
  {
    if items != [] {
      var m := FirstMinReal(vals);
      assert vals[m] <= vals[best] && vals[best] <= vals[m];
    }
  }

  /** `vals[best]` is the smallest of the first `n` values and every value before it is larger. */
  predicate FirstMinAt(vals: seq<real>, n: nat, best: nat)
    requires best < n <= |vals|
  {
    (forall k :: 0 <= k < n ==> vals[best] <= vals[k]) && forall k :: 0 <= k < best ==> vals[best] < vals[k]
  }

  /** What the scan knows after `i` items: the arena so far, the shortest estimate and its PCB. */
  ghost predicate ScanState(items: seq<Handle>, pcbs: seq<Pcb>, vals: seq<real>, i: nat, cur: seq<Pcb>,
                            shortPrediction: Option<real>, pick: Option<Handle>, best: nat)
    requires |items| == |vals| && forall h :: h in items ==> h < |pcbs|
  {
    i <= |items| && cur == Recorded(items, pcbs, vals, i) &&
    (shortPrediction.None? <==> i == 0) && (pick.None? <==> i == 0) &&
    (i > 0 ==> best < i && FirstMinAt(vals, i, best) && shortPrediction == Some(vals[best]) && pick == Some(items[best]))
  }

  /**
   * One step of prediction's loop: item `i` is still as it was, and storing
   * its estimate exactly when it beats the shortest so far gives the state
   * after `i + 1` items.
   */
  lemma ScanAdvance(items: seq<Handle>, pcbs: seq<Pcb>, vals: seq<real>, i: nat, cur: seq<Pcb>,
                    shortPrediction: Option<real>, pick: Option<Handle>, best: nat)
    requires LinkedList.Distinct(items) && i < |items| == |vals|
    requires forall h :: h in items ==> h < |pcbs|
    requires ScanState(items, pcbs, vals, i, cur, shortPrediction, pick, best)
    ensures items[i] < |cur| && cur[items[i]] == pcbs[items[i]]
    ensures var h := items[i];
      if shortPrediction.None? || vals[i] < shortPrediction.value then
        ScanState(items, pcbs, vals, i + 1, cur[h := cur[h].(args := ProcSjf(vals[i]))], Some(vals[i]), Some(h), i)
      else ScanState(items, pcbs, vals, i + 1, cur, shortPrediction, pick, best)
  {
    NotYetRecorded(items, pcbs, vals, i);
    RecordedStep(items, pcbs, vals, i);
    if i > 0 && vals[i] < vals[best] {
      assert Improves(vals, i) by {
        forall j | 0 <= j < i ensures vals[i] < vals[j] {
          assert vals[best] <= vals[j];
        }
      }
    }
  }

  /** One more item: the arena changes only when that item improves on every earlier estimate. */
  lemma RecordedStep(items: seq<Handle>, pcbs: seq<Pcb>, vals: seq<real>, i: nat)
    requires i < |items| == |vals| && forall h :: h in items ==> h < |pcbs|
    ensures items[i] < |pcbs|
    ensures var prev := Recorded(items, pcbs, vals, i);
      Recorded(items, pcbs, vals, i + 1) ==
        if Improves(vals, i) then prev[items[i] := prev[items[i]].(args := ProcSjf(vals[i]))] else prev
  {
    assert items[i] in items;
  }

  /** Item `i` improves on every earlier estimate exactly when it is below the first smallest of them. */
  lemma ImprovesIffBelowMin(vals: seq<real>, i: nat)
    requires 0 < i < |vals|
    ensures FirstMinReal(vals[..i]) < i
    ensures Improves(vals, i) <==> vals[i] < vals[FirstMinReal(vals[..i])]
  {
    var b := FirstMinReal(vals[..i]);
    assert vals[..i][b] == vals[b];
    if vals[i] < vals[b] {
      forall j | 0 <= j < i ensures vals[i] < vals[j] {
        assert vals[..i][j] == vals[j];
      }
    }
  }

  /** The next-burst lengths of `items`, in list order. */
  function HeadLengths(items: seq<Handle>, pcbs: seq<Pcb>): (r: seq<int>)
    ensures |r| == |items|
    ensures forall k :: 0 <= k < |items| ==> r[k] == HeadKey(pcbs)(items[k])
  {
    seq(|items|, k requires 0 <= k < |items| => HeadKey(pcbs)(items[k]))
  }

  /** An index that is a smallest value with every earlier value larger is FirstMin's answer. */
  lemma {:induction false} FirstMinUnique(vals: seq<int>, j: nat)
    requires j < |vals|
    requires forall k :: 0 <= k < |vals| ==> vals[j] <= vals[k]
    requires forall k :: 0 <= k < j ==> vals[j] < vals[k]
    ensures FirstMin(vals) == j
  {
    var m := FirstMin(vals);
    assert vals[m] <= vals[j] && vals[j] <= vals[m];
  }

  /** The PCB SJF dispatches: the first smallest estimate, or the first shortest next burst. */
  function SjfPick(ready: seq<Handle>, pcbs: seq<Pcb>, cfg: SjfConfig, est: Pcb -> real): (h: Handle)
    requires ready != []
    requires forall h :: h in ready ==> h < |pcbs| && HasCpuHead(pcbs[h])
    ensures h in ready
  {
    if cfg.prediction then ready[FirstMinReal(Predictions(ready, pcbs, est))]
    else ready[FirstMin(HeadLengths(ready, pcbs))]
  }

  /** The dispatched PCB: dispatch recorded, and the burst cut when preemptive. */
  function Dispatched(p: Pcb, cfg: SjfConfig, timer: int): Pcb
    requires HasCpuHead(p)
  {
    var p2 := p.(stats := UpdateStats(p.stats, WaitingTime, timer));
    if cfg.preemptive then Preempt(p2, cfg.quantum) else p2
  }

  /**
   * With prediction, the dispatched PCB has the smallest estimate of the
   * ready list and every PCB before it a strictly larger one.
   */
  lemma PickIsFirstShortest(ready: seq<Handle>, pcbs: seq<Pcb>, cfg: SjfConfig, est: Pcb -> real)
    requires ready != [] && cfg.prediction
    requires forall h :: h in ready ==> h < |pcbs| && HasCpuHead(pcbs[h])
    ensures var h := SjfPick(ready, pcbs, cfg, est);
      (forall k :: 0 <= k < |ready| ==> ready[k] in ready && est(pcbs[h]) <= est(pcbs[ready[k]])) &&
      forall k :: 0 <= k < LinkedList.IndexOf(ready, h) ==> ready[k] in ready && est(pcbs[h]) < est(pcbs[ready[k]])
  {
    LinkedList.IndexOfFirst(ready, FirstMinReal(Predictions(ready, pcbs, est)));
  }

  /**
   * The arena once the candidate is chosen: with the estimates stored and
   * the candidate's run counter reset when predicting.
   */
  function Chosen(ready: seq<Handle>, pcbs: seq<Pcb>, cfg: SjfConfig, est: Pcb -> real): (r: seq<Pcb>)
    requires ready != []
    requires forall h :: h in ready ==> h < |pcbs| && HasCpuHead(pcbs[h])
    ensures |r| == |pcbs|
    ensures forall h :: 0 <= h < |pcbs| ==> r[h].(args := pcbs[h].args, duration := pcbs[h].duration) == pcbs[h]
  {
    if cfg.prediction then
      var scanned := Recorded(ready, pcbs, Predictions(ready, pcbs, est), |ready|);
      var h := SjfPick(ready, pcbs, cfg, est);
      RecordedFrame(ready, pcbs, Predictions(ready, pcbs, est), |ready|);
      scanned[h := scanned[h].(duration := 0)]
    else pcbs
  }

  /**
   * The choice schedSJF makes before detaching: by estimate (storing the
   * estimates and resetting the chosen PCB's run counter) or by sorting
   * the ready list and taking its head.
   */
  method Choose(ready: seq<Handle>, pcbs: seq<Pcb>, cfg: SjfConfig, est: Pcb -> real)
    returns (h: Handle, queue: seq<Handle>, base: seq<Pcb>)
    requires ready != [] && LinkedList.Distinct(ready)
    requires forall h :: h in ready ==> h < |pcbs| && HasCpuHead(pcbs[h])
    ensures h == SjfPick(ready, pcbs, cfg, est) && h in queue
    ensures multiset(queue) == multiset(ready) && LinkedList.Distinct(queue)
    ensures cfg.prediction ==> queue == ready
    ensures !cfg.prediction ==> LinkedList.StableSortOf(queue, ready, HeadKey(pcbs)) && queue[0] == h
    ensures base == Chosen(ready, pcbs, cfg, est)
  {
    queue := ready;
    if cfg.prediction {
      var pick;
      pick, base := Prediction(ready, pcbs, est);
      h := pick.value;
      base := base[h := base[h].(duration := 0)];
    } else {
      queue := LinkedList.Sort(ready, HeadKey(pcbs));
      h := queue[0];
      LinkedList.SortedHeadIsFirstMinimum(queue, ready, HeadKey(pcbs));
      var vals := HeadLengths(ready, pcbs);
      var j := LinkedList.IndexOf(ready, h);
      forall k | 0 <= k < |vals| ensures vals[j] <= vals[k] {
        assert ready[k] in ready;
      }
      FirstMinUnique(vals, j);
      base := pcbs;
      assert multiset(queue)[h] > 0;
    }
    assert LinkedList.Distinct(queue) by {
      forall x ensures multiset(queue)[x] <= 1 {
        assert multiset(ready)[x] <= 1;
      }
    }
  }

  /**
   * schedSJF: nothing happens on an empty ready list. Otherwise the
   * predicting forms take the first smallest estimate and leave the order
   * of the rest alone; the pure forms sort the ready list by next burst
   * (stably) and take its head. The PCB is detached, dispatched and, in
   * the preemptive forms, has its burst cut at the quantum.
   */
  method SchedSJF(ready: seq<Handle>, pcbs: seq<Pcb>, running: array<Option<Handle>>, timer: int, cfg: SjfConfig, w: real)
    returns (ready': seq<Handle>, pcbs': seq<Pcb>)
    requires LinkedList.Distinct(ready)
    requires forall h :: h in ready ==> h < |pcbs| && HasCpuHead(pcbs[h])
    requires ready != [] ==> None in running[..]
    modifies running
    ensures ready == [] ==> ready' == [] && pcbs' == pcbs && running[..] == old(running[..])
    ensures ready != [] ==>
      var h := SjfPick(ready, pcbs, cfg, Estimator(cfg.quantum, w));
      var base := Chosen(ready, pcbs, cfg, Estimator(cfg.quantum, w));
      running[..] == Occupy(old(running[..]), h) &&
      multiset(ready') == multiset(ready) - multiset{h} &&
      (cfg.prediction ==> ready' == LinkedList.Detach(ready, h)) &&
      (!cfg.prediction ==> LinkedList.SortedBy(ready', HeadKey(pcbs)) && LinkedList.StableSortOf([h] + ready', ready, HeadKey(pcbs))) &&
      pcbs' == base[h := Dispatched(base[h], cfg, timer)]
    ensures ShapeKept(pcbs, pcbs')
  {
    if ready == [] {
      return ready, pcbs;
    }
    var h, queue, base := Choose(ready, pcbs, cfg, Estimator(cfg.quantum, w));
    LinkedList.DetachRemoves(queue, h);
    ready' := LinkedList.Detach(queue, h);
    if !cfg.prediction {
      SortedTail(queue, HeadKey(pcbs));
    }
    pcbs' := DispatchChosen(running, base, h, timer, cfg);
    ChosenShape(ready, pcbs, cfg, Estimator(cfg.quantum, w), h, timer);
  }

  /** Choosing and dispatching keeps every PCB's identity and next-burst kind. */
  lemma ChosenShape(ready: seq<Handle>, pcbs: seq<Pcb>, cfg: SjfConfig, est: Pcb -> real, h: Handle, timer: int)
    requires ready != [] && h in ready
    requires forall h :: h in ready ==> h < |pcbs| && HasCpuHead(pcbs[h])
    ensures h < |pcbs| && HasCpuHead(Chosen(ready, pcbs, cfg, est)[h])
    ensures var base := Chosen(ready, pcbs, cfg, est);
      ShapeKept(pcbs, base[h := Dispatched(base[h], cfg, timer)])
  {
    var base := Chosen(ready, pcbs, cfg, est);
    assert base[h].(args := pcbs[h].args, duration := pcbs[h].duration) == pcbs[h];
  }

  /** The tail of schedSJF: dispatch, then the cut at the quantum in the preemptive forms. */
  method DispatchChosen(running: array<Option<Handle>>, base: seq<Pcb>, h: Handle, timer: int, cfg: SjfConfig)
    returns (pcbs': seq<Pcb>)
    requires None in running[..] && h < |base| && HasCpuHead(base[h])
    modifies running
    ensures running[..] == Occupy(old(running[..]), h)
    ensures pcbs' == base[h := Dispatched(base[h], cfg, timer)]
  {
    pcbs' := Dispatcher(running, base, h, timer);
    if cfg.preemptive {
      pcbs' := pcbs'[h := Preempt(pcbs'[h], cfg.quantum)];
    }
  }

  /** Removing the head keeps a list sorted, and putting it back gives the list again. */
  lemma SortedTail(s: seq<Handle>, key: Handle -> int)
    requires s != [] && LinkedList.SortedBy(s, key)
    ensures LinkedList.SortedBy(LinkedList.Detach(s, s[0]), key)
    ensures [s[0]] + LinkedList.Detach(s, s[0]) == s
  {
    assert LinkedList.Detach(s, s[0]) == s[1..];
  }
}
