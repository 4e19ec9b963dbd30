/**
 * The two scans of simStep, stated over values: the waiting scan ticks the
 * I/O burst of every waiting PCB and routes those whose burst is over;
 * the running scan does the same for the CPU burst of every occupied core
 * and frees the core. Both fake_os.c revisions scan this way; they differ
 * only in how they route (Places.Router).
 */
module Scans {
  import opened Wrappers
  import opened ProcessModel
  import opened SchedUtils
  import LinkedList
  import opened Engine
  import opened Places

  /** One tick of the burst in progress: `--(e->duration)`. */
  function Ticked(p: Pcb): (r: Pcb)
    requires p.events != []
    ensures r.(events := p.events) == p && |r.events| == |p.events| && r.events[1..] == p.events[1..]
    ensures r.events[0] == Burst(p.events[0].kind, p.events[0].duration - 1)
  {
    p.(events := [Burst(p.events[0].kind, p.events[0].duration - 1)] + p.events[1..])
  }

  /** List_popFront on the bursts: the burst that is over is dropped. */
  function Popped(p: Pcb): (r: Pcb)
    requires p.events != []
    ensures r.(events := p.events) == p && r.events == p.events[1..]
  {
    p.(events := p.events[1..])
  }

  // ---------------------------------------------------------------------
  // The waiting scan
  // ---------------------------------------------------------------------

  /** What the scan measures: one for the visit plus the bursts left. */
  function Weight(h: Handle, pcbs: seq<Pcb>): nat {
    1 + (if h < |pcbs| then |pcbs[h].events| else 0)
  }

  /** The work left to the scan: it shrinks at every visit. */
  function Pending(todo: seq<Handle>, pcbs: seq<Pcb>): nat {
    if todo == [] then 0 else Weight(todo[0], pcbs) + Pending(todo[1..], pcbs)
  }

  lemma {:induction false} PendingFrame(todo: seq<Handle>, pcbs: seq<Pcb>, pcbs': seq<Pcb>)
    requires forall g :: g in todo ==> Weight(g, pcbs') == Weight(g, pcbs)
    ensures Pending(todo, pcbs') == Pending(todo, pcbs)
  {
    if todo != [] {
      assert todo[0] in todo;
      assert forall g :: g in todo[1..] ==> g in todo;
      PendingFrame(todo[1..], pcbs, pcbs');
    }
  }

  lemma {:induction false} PendingAppend(todo: seq<Handle>, x: Handle, pcbs: seq<Pcb>)
    ensures Pending(todo + [x], pcbs) == Pending(todo, pcbs) + Weight(x, pcbs)
  {
    if todo == [] {
      assert [x][1..] == [];
    } else {
      assert (todo + [x])[1..] == todo[1..] + [x];
      PendingAppend(todo[1..], x, pcbs);
    }
  }

  /** The PCBs the waiting scan has still to visit: waiting for I/O, each listed once. */
  ghost predicate Todo(q: Queues, todo: seq<Handle>, fam: Family) {
    LinkedList.Distinct(todo) && LinkedList.Distinct(q.waiting) && |q.levels| == LevelCount(fam) &&
    forall g :: g in todo ==> g < |q.pcbs| && g in q.waiting && HasIoHead(q.pcbs[g]) && ArgsOk(fam, q.pcbs[g])
  }

  /** The rest of a list without repeats has no repeats and lacks the head. */
  lemma DistinctTail(todo: seq<Handle>)
    requires LinkedList.Distinct(todo) && todo != []
    ensures LinkedList.Distinct(todo[1..]) && todo[0] !in todo[1..]
    ensures forall g :: g in todo[1..] ==> g in todo && g != todo[0]
  {
    assert todo == [todo[0]] + todo[1..];
    assert multiset(todo) == multiset{todo[0]} + multiset(todo[1..]);
    assert multiset(todo)[todo[0]] <= 1;
    assert LinkedList.Distinct(todo[1..]) by {
      forall x ensures multiset(todo[1..])[x] <= 1 {
        assert multiset(todo)[x] <= 1;
      }
    }
  }

  /** A burst with ticks left: the PCB stays waiting and the scan moves on. */
  lemma TickStep(q: Queues, todo: seq<Handle>, fam: Family)
    requires Todo(q, todo, fam) && todo != []
    ensures todo[0] < |q.pcbs|
    ensures var q1 := q.(pcbs := q.pcbs[todo[0] := Ticked(q.pcbs[todo[0]])]);
      Todo(q1, todo[1..], fam) && Pending(todo[1..], q1.pcbs) < Pending(todo, q.pcbs)
  {
    var h := todo[0];
    assert h in todo;
    DistinctTail(todo);
    var q1 := q.(pcbs := q.pcbs[h := Ticked(q.pcbs[h])]);
    PendingFrame(todo[1..], q.pcbs, q1.pcbs);
  }

  /** The PCBs the scan visits again: one whose I/O burst was followed by another, unless it was last. */
  function Rest(todo: seq<Handle>, p: Pcb): seq<Handle>
    requires todo != []
  {
    if todo[1..] != [] && HasIoHead(p) then todo[1..] + [todo[0]] else todo[1..]
  }

  /** The state after the burst of the visited PCB is over and it is routed. */
  function Finished(q: Queues, todo: seq<Handle>, fam: Family, router: Router, timer: int): (r: Queues)
    requires Todo(q, todo, fam) && todo != []
    ensures |r.pcbs| == |q.pcbs| && |r.levels| == |q.levels|
  {
    var h := todo[0];
    assert h in todo;
    var p := Popped(Ticked(q.pcbs[h]));
    Routed(q.(pcbs := q.pcbs[h := p], waiting := LinkedList.Detach(q.waiting, h)), h, fam, router, timer)
  }

  /** What routing the visited PCB leaves for the rest of the scan. */
  lemma FinishedFacts(q: Queues, todo: seq<Handle>, fam: Family, router: Router, timer: int)
    requires Todo(q, todo, fam) && todo != []
    ensures todo[0] < |q.pcbs|
    ensures var q1 := Finished(q, todo, fam, router, timer);
      var p := Popped(Ticked(q.pcbs[todo[0]]));
      LinkedList.Distinct(q1.waiting) && |q1.levels| == LevelCount(fam) &&
      (forall g :: g in todo[1..] ==> g < |q.pcbs| && g in q1.waiting && q1.pcbs[g] == q.pcbs[g]) &&
      (HasIoHead(p) ==> todo[0] in q1.waiting && q1.pcbs[todo[0]].events == p.events && ArgsOk(fam, q1.pcbs[todo[0]])) &&
      (!HasIoHead(p) ==> todo[0] !in q1.waiting)
  {
    var h := todo[0];
    assert h in todo;
    DistinctTail(todo);
    var p := Popped(Ticked(q.pcbs[h]));
    var q0 := q.(pcbs := q.pcbs[h := p], waiting := LinkedList.Detach(q.waiting, h));
    DetachMembers(q.waiting, h);
    RoutedLists(q0, h, fam, router, timer);
    if HasIoHead(p) {
      DistinctPush(q0.waiting, h);
    }
  }

  /** After the routing, the rest of the scan visits only PCBs still waiting. */
  lemma FinishTodo(q: Queues, todo: seq<Handle>, fam: Family, router: Router, timer: int)
    requires Todo(q, todo, fam) && todo != []
    ensures todo[0] < |q.pcbs|
    ensures Todo(Finished(q, todo, fam, router, timer), Rest(todo, Popped(Ticked(q.pcbs[todo[0]]))), fam)
  {
    var h := todo[0];
    DistinctTail(todo);
    FinishedFacts(q, todo, fam, router, timer);
    var p := Popped(Ticked(q.pcbs[h]));
    var rest := Rest(todo, p);
    var q1 := Finished(q, todo, fam, router, timer);
    if rest != todo[1..] {
      DistinctPush(todo[1..], h);
    }
    forall g | g in rest ensures g < |q1.pcbs| && g in q1.waiting && HasIoHead(q1.pcbs[g]) && ArgsOk(fam, q1.pcbs[g]) {
      if g != h {
        assert g in todo[1..];
        assert g in todo;
      }
    }
  }

  /** After the routing, less is left to the scan. */
  lemma FinishPending(q: Queues, todo: seq<Handle>, fam: Family, router: Router, timer: int)
    requires Todo(q, todo, fam) && todo != []
    ensures todo[0] < |q.pcbs|
    ensures Pending(Rest(todo, Popped(Ticked(q.pcbs[todo[0]]))), Finished(q, todo, fam, router, timer).pcbs) < Pending(todo, q.pcbs)
  {
    var h := todo[0];
    DistinctTail(todo);
    FinishedFacts(q, todo, fam, router, timer);
    var q1 := Finished(q, todo, fam, router, timer);
    PendingFrame(todo[1..], q.pcbs, q1.pcbs);
    if Rest(todo, Popped(Ticked(q.pcbs[h]))) != todo[1..] {
      PendingAppend(todo[1..], h, q1.pcbs);
    }
  }

  /** A burst that is over: the scan goes on with the rest, visiting the PCB again when it waits once more. */
  lemma FinishStep(q: Queues, todo: seq<Handle>, fam: Family, router: Router, timer: int)
    requires Todo(q, todo, fam) && todo != []
    ensures todo[0] < |q.pcbs|
    ensures var q1 := Finished(q, todo, fam, router, timer);
      var rest := Rest(todo, Popped(Ticked(q.pcbs[todo[0]])));
      Todo(q1, rest, fam) && Pending(rest, q1.pcbs) < Pending(todo, q.pcbs)
  {
    FinishTodo(q, todo, fam, router, timer);
    FinishPending(q, todo, fam, router, timer);
  }

  /**
   * The waiting scan of simStep from the PCB `todo[0]` on: tick its I/O
   * burst; when the burst is over drop it, detach the PCB from the
   * waiting list and route it. The scan reads the next PCB before the
   * routing, so a PCB that waits again is pushed behind the PCBs still to
   * visit and is visited again in the same step.
   */
  function WaitingPass(q: Queues, todo: seq<Handle>, fam: Family, router: Router, timer: int): (r: Queues)
    requires Todo(q, todo, fam)
    ensures |r.pcbs| == |q.pcbs| && |r.levels| == |q.levels|
    decreases Pending(todo, q.pcbs)
  {
    if todo == [] then q
    else
      var h := todo[0];
      TickStep(q, todo, fam);
      FinishStep(q, todo, fam, router, timer);
      var p := Ticked(q.pcbs[h]);
      if p.events[0].duration != 0 then
        WaitingPass(q.(pcbs := q.pcbs[h := p]), todo[1..], fam, router, timer)
      else
        WaitingPass(Finished(q, todo, fam, router, timer), Rest(todo, Popped(p)), fam, router, timer)
  }

  /**
   * The scan changes only the PCBs it visits, keeps every other PCB's
   * membership of the waiting list, and only adds to the ready list and
   * the terminated records.
   */
  lemma {:induction false} WaitingPassFrame(q: Queues, todo: seq<Handle>, fam: Family, router: Router, timer: int)
    requires Todo(q, todo, fam)
    ensures var r := WaitingPass(q, todo, fam, router, timer);
      (forall g :: 0 <= g < |q.pcbs| && g !in todo ==> r.pcbs[g] == q.pcbs[g] && (g in r.waiting <==> g in q.waiting)) &&
      q.ready <= r.ready && q.terminated <= r.terminated
    decreases Pending(todo, q.pcbs)
  {
    if todo != [] {
      var h := todo[0];
      TickStep(q, todo, fam);
      FinishStep(q, todo, fam, router, timer);
      DistinctTail(todo);
      var p := Ticked(q.pcbs[h]);
      if p.events[0].duration != 0 {
        WaitingPassFrame(q.(pcbs := q.pcbs[h := p]), todo[1..], fam, router, timer);
      } else {
        var q1 := Finished(q, todo, fam, router, timer);
        DetachMembers(q.waiting, h);
        RoutedLists(q.(pcbs := q.pcbs[h := Popped(p)], waiting := LinkedList.Detach(q.waiting, h)), h, fam, router, timer);
        WaitingPassFrame(q1, Rest(todo, Popped(p)), fam, router, timer);
      }
    }
  }

  /** A waiting PCB whose I/O burst has ticks left this step is ticked once and stays waiting. */
  lemma {:induction false} WaitingPassTicks(q: Queues, todo: seq<Handle>, fam: Family, router: Router, timer: int, g: Handle)
    requires Todo(q, todo, fam) && g in todo && q.pcbs[g].events[0].duration != 1
    ensures var r := WaitingPass(q, todo, fam, router, timer);
      r.pcbs[g] == Ticked(q.pcbs[g]) && g in r.waiting
    decreases Pending(todo, q.pcbs)
  {
    var h := todo[0];
    TickStep(q, todo, fam);
    FinishStep(q, todo, fam, router, timer);
    DistinctTail(todo);
    var p := Ticked(q.pcbs[h]);
    if h == g {
      WaitingPassFrame(q.(pcbs := q.pcbs[h := p]), todo[1..], fam, router, timer);
    } else if p.events[0].duration != 0 {
      WaitingPassTicks(q.(pcbs := q.pcbs[h := p]), todo[1..], fam, router, timer, g);
    } else {
      WaitingPassTicks(Finished(q, todo, fam, router, timer), Rest(todo, Popped(p)), fam, router, timer, g);
    }
  }

  /**
   * A waiting PCB whose I/O burst ends this step and whose next burst is
   * on the CPU ends the scan on the ready list (for the policies that use
   * one), no longer waiting.
   */
  lemma {:induction false} WaitingPassReadies(q: Queues, todo: seq<Handle>, fam: Family, router: Router, timer: int, g: Handle)
    requires Todo(q, todo, fam) && g in todo && !Leveled(fam)
    requires q.pcbs[g].events[0].duration == 1 && HasCpuHead(Popped(q.pcbs[g]))
    ensures var r := WaitingPass(q, todo, fam, router, timer);
      g in r.ready && g !in r.waiting && r.pcbs[g].events == q.pcbs[g].events[1..]
    decreases Pending(todo, q.pcbs)
  {
    var h := todo[0];
    TickStep(q, todo, fam);
    FinishStep(q, todo, fam, router, timer);
    DistinctTail(todo);
    var p := Ticked(q.pcbs[h]);
    if h == g {
      var q1 := Finished(q, todo, fam, router, timer);
      var q0 := q.(pcbs := q.pcbs[h := Popped(p)], waiting := LinkedList.Detach(q.waiting, h));
      assert HasCpuHead(q0.pcbs[h]);
      DetachMembers(q.waiting, h);
      RoutedLists(q0, h, fam, router, timer);
      assert h !in q1.waiting && h in q1.ready;
      WaitingPassFrame(q1, todo[1..], fam, router, timer);
      assert q1.ready <= WaitingPass(q1, todo[1..], fam, router, timer).ready;
    } else if p.events[0].duration != 0 {
      WaitingPassReadies(q.(pcbs := q.pcbs[h := p]), todo[1..], fam, router, timer, g);
    } else {
      WaitingPassReadies(Finished(q, todo, fam, router, timer), Rest(todo, Popped(p)), fam, router, timer, g);
    }
  }

  /** Two waiting PCBs, the first with an I/O burst of 5 queued behind one that ends now. */
  ghost predicate TwoWaiting(a: Pcb, b: Pcb) {
    a.events == [Burst(IO, 1), Burst(IO, 5)] && b.events == [Burst(IO, 3)]
  }

  lemma TwoWaitingTodo(a: Pcb, b: Pcb, order: seq<Handle>)
    requires TwoWaiting(a, b) && (order == [0, 1] || order == [1, 0])
    ensures Todo(Queues([a, b], [], order, [], []), order, PlainFamily)
  {
    assert multiset(order) == multiset{0, 1};
  }

  /**
   * With the PCB first in the waiting list, the I/O burst that follows the
   * one ending now is ticked in the same step: 4 ticks are left of 5.
   */
  lemma NextIoBurstTickedAtOnce(a: Pcb, b: Pcb)
    requires TwoWaiting(a, b)
    ensures var q := Queues([a, b], [], [0, 1], [], []);
      Todo(q, [0, 1], PlainFamily) && WaitingPass(q, [0, 1], PlainFamily, Newer, 0).pcbs[0].events == [Burst(IO, 4)]
  {
    var q := Queues([a, b], [], [0, 1], [], []);
    FirstWaitsAgain(a, b);
    var q1 := Finished(q, [0, 1], PlainFamily, Newer, 0);
    WaitingPassTicks(q1, [1, 0], PlainFamily, Newer, 0, 0);
  }

  /** The first visit of that scan: the PCB is routed back to the waiting list and queued for a second visit. */
  lemma FirstWaitsAgain(a: Pcb, b: Pcb)
    requires TwoWaiting(a, b)
    ensures var q := Queues([a, b], [], [0, 1], [], []);
      Todo(q, [0, 1], PlainFamily) &&
      var q1 := Finished(q, [0, 1], PlainFamily, Newer, 0);
      Todo(q1, [1, 0], PlainFamily) && q1.pcbs[0].events == [Burst(IO, 5)] &&
      WaitingPass(q, [0, 1], PlainFamily, Newer, 0) == WaitingPass(q1, [1, 0], PlainFamily, Newer, 0)
  {
    var q := Queues([a, b], [], [0, 1], [], []);
    TwoWaitingTodo(a, b, [0, 1]);
    var p := Popped(Ticked(a));
    assert Ticked(a).events[0].duration == 0;
    assert p.events == [Burst(IO, 5)] && HasIoHead(p);
    assert Rest([0, 1], p) == [1, 0];
    PassFinishes(q, [0, 1], PlainFamily, Newer, 0);
    FinishedFacts(q, [0, 1], PlainFamily, Newer, 0);
  }

  /** The scan when the visited PCB's burst is over: it goes on from the routed state. */
  lemma PassFinishes(q: Queues, todo: seq<Handle>, fam: Family, router: Router, timer: int)
    requires Todo(q, todo, fam) && todo != []
    requires todo[0] < |q.pcbs| && q.pcbs[todo[0]].events[0].duration == 1
    ensures var rest := Rest(todo, Popped(Ticked(q.pcbs[todo[0]])));
      var q1 := Finished(q, todo, fam, router, timer);
      Todo(q1, rest, fam) && WaitingPass(q, todo, fam, router, timer) == WaitingPass(q1, rest, fam, router, timer)
  {
    FinishStep(q, todo, fam, router, timer);
  }

  /** With the PCB last in the waiting list, the I/O burst that follows is not ticked in this step. */
  lemma NextIoBurstWaitsWhenLast(a: Pcb, b: Pcb)
    requires TwoWaiting(a, b)
    ensures var q := Queues([a, b], [], [1, 0], [], []);
      Todo(q, [1, 0], PlainFamily) && WaitingPass(q, [1, 0], PlainFamily, Newer, 0).pcbs[0].events == [Burst(IO, 5)]
  {
    var r := Queues([a, b], [], [1, 0], [], []);
    TwoWaitingTodo(a, b, [1, 0]);
    TickStep(r, [1, 0], PlainFamily);
    var r1 := r.(pcbs := r.pcbs[1 := Ticked(b)]);
    assert Ticked(b).events[0].duration == 2;
    assert [1 as Handle, 0][1..] == [0];
    assert WaitingPass(r, [1, 0], PlainFamily, Newer, 0) == WaitingPass(r1, [0], PlainFamily, Newer, 0);
    FinishStep(r1, [0], PlainFamily, Newer, 0);
    assert Ticked(a).events[0].duration == 0;
    assert Rest([0], Popped(Ticked(a))) == [];
    assert WaitingPass(r1, [0], PlainFamily, Newer, 0) == Finished(r1, [0], PlainFamily, Newer, 0);
  }

  // ---------------------------------------------------------------------
  // The running scan
  // ---------------------------------------------------------------------

  /** The cores the running scan reads: each occupied one holds an arena PCB in a CPU burst, none twice. */
  ghost predicate CoresOk(q: Queues, slots: seq<Option<Handle>>, fam: Family) {
    |q.levels| == LevelCount(fam) && DistinctOccupants(slots) &&
    forall i :: 0 <= i < |slots| && slots[i].Some? ==>
      slots[i].value < |q.pcbs| && HasCpuHead(q.pcbs[slots[i].value]) && ArgsOk(fam, q.pcbs[slots[i].value])
  }

  /** A core in use: it holds a PCB with a non-zero pid. */
  predicate InUse(slots: seq<Option<Handle>>, pcbs: seq<Pcb>, j: int) {
    0 <= j < |slots| && slots[j].Some? && slots[j].value < |pcbs| && pcbs[slots[j].value].pid != 0
  }

  /** Visiting core `i` leaves the later cores as the scan expects them. */
  lemma CoreStep(q: Queues, slots: seq<Option<Handle>>, i: nat, fam: Family, router: Router, timer: int)
    requires i < |slots| && CoresOk(q, slots, fam) && slots[i].Some?
    ensures slots[i].value < |q.pcbs| && HasCpuHead(q.pcbs[slots[i].value])
    ensures var h := slots[i].value;
      CoresOk(q.(pcbs := q.pcbs[h := Ticked(q.pcbs[h])]), slots, fam) &&
      CoresOk(Routed(q.(pcbs := q.pcbs[h := Popped(Ticked(q.pcbs[h]))]), h, fam, router, timer), slots[i := None], fam)
  {
    OthersElsewhere(slots, i);
    CoreFinishOk(q, slots, i, fam, router, timer);
  }

  /** No core but `i` holds the PCB on core `i`. */
  lemma OthersElsewhere(slots: seq<Option<Handle>>, i: nat)
    requires i < |slots| && DistinctOccupants(slots) && slots[i].Some?
    ensures forall j :: 0 <= j < |slots| && slots[j].Some? && j != i ==> slots[j].value != slots[i].value
  {
    forall j | 0 <= j < |slots| && slots[j].Some? && j != i ensures slots[j].value != slots[i].value {
      if j < i {
        assert slots[j].value != slots[i].value;
      } else {
        assert slots[i].value != slots[j].value;
      }
    }
  }

  /** Freeing core `i` and routing its PCB leaves the other cores as the scan expects them. */
  lemma CoreFinishOk(q: Queues, slots: seq<Option<Handle>>, i: nat, fam: Family, router: Router, timer: int)
    requires i < |slots| && CoresOk(q, slots, fam) && slots[i].Some?
    requires forall j :: 0 <= j < |slots| && slots[j].Some? && j != i ==> slots[j].value != slots[i].value
    ensures var h := slots[i].value;
      CoresOk(Routed(q.(pcbs := q.pcbs[h := Popped(Ticked(q.pcbs[h]))]), h, fam, router, timer), slots[i := None], fam)
  {
    var h := slots[i].value;
    var slots' := slots[i := None];
    var r := Routed(q.(pcbs := q.pcbs[h := Popped(Ticked(q.pcbs[h]))]), h, fam, router, timer);
    forall j | 0 <= j < |slots'| && slots'[j].Some?
      ensures slots'[j].value < |r.pcbs| && HasCpuHead(r.pcbs[slots'[j].value]) && ArgsOk(fam, r.pcbs[slots'[j].value])
    {
      assert j != i && slots'[j] == slots[j];
      assert r.pcbs[slots[j].value] == q.pcbs[slots[j].value];
    }
    assert DistinctOccupants(slots') by {
      forall a, b | 0 <= a < b < |slots'| && slots'[a].Some? && slots'[b].Some?
        ensures slots'[a].value != slots'[b].value
      {
        assert slots[a].Some? && slots[b].Some?;
      }
    }
  }

  /**
   * One visit of the running scan, at core `i`: a core that is free or
   * holds pid 0 is skipped; otherwise the CPU burst of its PCB is ticked
   * and, when it is over, dropped, the PCB routed and the core freed.
   */
  function CoreVisit(q: Queues, slots: seq<Option<Handle>>, i: nat, fam: Family, router: Router, timer: int)
    : (r: (Queues, seq<Option<Handle>>))
    requires i < |slots| && CoresOk(q, slots, fam)
    ensures CoresOk(r.0, r.1, fam) && |r.1| == |slots| && |r.0.pcbs| == |q.pcbs|
  {
    if !InUse(slots, q.pcbs, i) then (q, slots)
    else
      var h := slots[i].value;
      CoreStep(q, slots, i, fam, router, timer);
      var p := Ticked(q.pcbs[h]);
      if p.events[0].duration != 0 then (q.(pcbs := q.pcbs[h := p]), slots)
      else (Routed(q.(pcbs := q.pcbs[h := Popped(p)]), h, fam, router, timer), slots[i := None])
  }

  /**
   * What a visit changes: only the PCB on core `i`, which keeps its pid,
   * and only core `i`, which is freed when its burst ends. A burst with
   * ticks left is ticked once and the PCB keeps its core.
   */
  lemma CoreVisitEffect(q: Queues, slots: seq<Option<Handle>>, i: nat, fam: Family, router: Router, timer: int)
    requires i < |slots| && CoresOk(q, slots, fam)
    ensures var v := CoreVisit(q, slots, i, fam, router, timer);
      (forall g :: 0 <= g < |q.pcbs| ==> v.0.pcbs[g].pid == q.pcbs[g].pid) &&
      (forall g :: 0 <= g < |q.pcbs| && slots[i] != Some(g) ==> v.0.pcbs[g] == q.pcbs[g]) &&
      (forall j :: 0 <= j < |slots| && j != i ==> v.1[j] == slots[j]) &&
      (v.1[i] == slots[i] || v.1[i] == None) &&
      (InUse(slots, q.pcbs, i) ==>
        var h := slots[i].value;
        HasCpuHead(q.pcbs[h]) &&
        (q.pcbs[h].events[0].duration != 1 ==> v.0.pcbs[h] == Ticked(q.pcbs[h]) && v.1 == slots) &&
        (q.pcbs[h].events[0].duration == 1 ==> v.1 == slots[i := None]))
  {
    if InUse(slots, q.pcbs, i) {
      CoreStep(q, slots, i, fam, router, timer);
    }
  }

  /**
   * The running scan of simStep from core `i` on: every core is visited
   * in order. The flag says whether any core was in use.
   */
  function RunningPass(q: Queues, slots: seq<Option<Handle>>, i: nat, fam: Family, router: Router, timer: int)
    : (r: (Queues, seq<Option<Handle>>, bool))
    requires i <= |slots| && CoresOk(q, slots, fam)
    ensures |r.1| == |slots| && |r.0.pcbs| == |q.pcbs|
    decreases |slots| - i
  {
    if i == |slots| then (q, slots, false)
    else
      var v := CoreVisit(q, slots, i, fam, router, timer);
      var r := RunningPass(v.0, v.1, i + 1, fam, router, timer);
      (r.0, r.1, r.2 || InUse(slots, q.pcbs, i))
  }

  /** The scan from core `i` on, with `busy` the flag of the cores before `i`. */
  function ScanFrom(q: Queues, slots: seq<Option<Handle>>, i: nat, busy: bool, fam: Family, router: Router, timer: int)
    : (r: (Queues, seq<Option<Handle>>, bool))
    requires i <= |slots| && CoresOk(q, slots, fam)
    ensures |r.1| == |slots| && |r.0.pcbs| == |q.pcbs|
    ensures busy ==> r.2
    ensures i == |slots| ==> r == (q, slots, busy)
  {
    var r := RunningPass(q, slots, i, fam, router, timer);
    (r.0, r.1, busy || r.2)
  }

  /** The scan from core `i` is the visit of core `i` followed by the scan from core `i + 1`. */
  lemma ScanFromStep(q: Queues, slots: seq<Option<Handle>>, i: nat, busy: bool, fam: Family, router: Router, timer: int)
    requires i < |slots| && CoresOk(q, slots, fam)
    ensures var v := CoreVisit(q, slots, i, fam, router, timer);
      ScanFrom(q, slots, i, busy, fam, router, timer) ==
      ScanFrom(v.0, v.1, i + 1, busy || InUse(slots, q.pcbs, i), fam, router, timer)
  {
  }

  /** The scan keeps every pid, and changes a core only by freeing it, and only from `i` on. */
  lemma {:induction false} RunningPassShape(q: Queues, slots: seq<Option<Handle>>, i: nat, fam: Family, router: Router, timer: int)
    requires i <= |slots| && CoresOk(q, slots, fam)
    ensures var r := RunningPass(q, slots, i, fam, router, timer);
      (forall g :: 0 <= g < |q.pcbs| ==> r.0.pcbs[g].pid == q.pcbs[g].pid) &&
      forall j :: 0 <= j < |slots| ==> r.1[j] == slots[j] || (i <= j && r.1[j] == None)
    decreases |slots| - i
  {
    if i < |slots| {
      var v := CoreVisit(q, slots, i, fam, router, timer);
      CoreVisitEffect(q, slots, i, fam, router, timer);
      RunningPassShape(v.0, v.1, i + 1, fam, router, timer);
    }
  }

  /** The scan reports a core in use exactly when one of the cores it visits is. */
  lemma {:induction false} RunningPassBusy(q: Queues, slots: seq<Option<Handle>>, i: nat, fam: Family, router: Router, timer: int)
    requires i <= |slots| && CoresOk(q, slots, fam)
    ensures RunningPass(q, slots, i, fam, router, timer).2 <==> exists j :: i <= j < |slots| && InUse(slots, q.pcbs, j)
    decreases |slots| - i
  {
    if i < |slots| && !InUse(slots, q.pcbs, i) {
      assert CoreVisit(q, slots, i, fam, router, timer) == (q, slots);
      RunningPassBusy(q, slots, i + 1, fam, router, timer);
      assert forall j :: i <= j < |slots| && InUse(slots, q.pcbs, j) ==> i + 1 <= j;
    }
  }

  /** The scan changes no PCB that is on none of the cores it visits. */
  lemma {:induction false} RunningPassFrame(q: Queues, slots: seq<Option<Handle>>, i: nat, fam: Family, router: Router, timer: int, g: Handle)
    requires i <= |slots| && CoresOk(q, slots, fam) && g < |q.pcbs|
    requires forall j :: i <= j < |slots| ==> slots[j] != Some(g)
    ensures RunningPass(q, slots, i, fam, router, timer).0.pcbs[g] == q.pcbs[g]
    decreases |slots| - i
  {
    if i < |slots| {
      var v := CoreVisit(q, slots, i, fam, router, timer);
      CoreVisitEffect(q, slots, i, fam, router, timer);
      RunningPassFrame(v.0, v.1, i + 1, fam, router, timer, g);
    }
  }

  /**
   * What the scan does to a core in use: a CPU burst with ticks left is
   * ticked once and the PCB stays on its core; a burst that ends frees the
   * core.
   */
  lemma {:induction false} RunningPassAt(q: Queues, slots: seq<Option<Handle>>, i: nat, fam: Family, router: Router, timer: int, j: nat)
    requires i <= j && CoresOk(q, slots, fam) && InUse(slots, q.pcbs, j)
    ensures var h := slots[j].value;
      var r := RunningPass(q, slots, i, fam, router, timer);
      HasCpuHead(q.pcbs[h]) &&
      (q.pcbs[h].events[0].duration != 1 ==> r.0.pcbs[h] == Ticked(q.pcbs[h]) && r.1[j] == Some(h)) &&
      (q.pcbs[h].events[0].duration == 1 ==> r.1[j] == None)
    decreases |slots| - i, 1
  {
    if i < j {
      RunningPassAtOther(q, slots, i, fam, router, timer, j);
    } else {
      RunningPassAtHere(q, slots, i, fam, router, timer);
    }
  }

  /** Visiting an earlier core leaves core `j` and its PCB for the rest of the scan. */
  lemma {:induction false} RunningPassAtOther(q: Queues, slots: seq<Option<Handle>>, i: nat, fam: Family, router: Router, timer: int, j: nat)
    requires i < j && CoresOk(q, slots, fam) && InUse(slots, q.pcbs, j)
    ensures var h := slots[j].value;
      var r := RunningPass(q, slots, i, fam, router, timer);
      HasCpuHead(q.pcbs[h]) &&
      (q.pcbs[h].events[0].duration != 1 ==> r.0.pcbs[h] == Ticked(q.pcbs[h]) && r.1[j] == Some(h)) &&
      (q.pcbs[h].events[0].duration == 1 ==> r.1[j] == None)
    decreases |slots| - i, 0
  {
    var h := slots[j].value;
    var v := CoreVisit(q, slots, i, fam, router, timer);
    CoreVisitEffect(q, slots, i, fam, router, timer);
    assert slots[i] != Some(h) by {
      if slots[i].Some? {
        assert slots[i].value != slots[j].value;
      }
    }
    assert v.1[j] == slots[j] && v.0.pcbs[h] == q.pcbs[h];
    assert InUse(v.1, v.0.pcbs, j);
    RunningPassAt(v.0, v.1, i + 1, fam, router, timer, j);
  }

  /** The visit of core `i` itself, and the rest of the scan leaving its outcome alone. */
  lemma RunningPassAtHere(q: Queues, slots: seq<Option<Handle>>, i: nat, fam: Family, router: Router, timer: int)
    requires CoresOk(q, slots, fam) && InUse(slots, q.pcbs, i)
    ensures var h := slots[i].value;
      var r := RunningPass(q, slots, i, fam, router, timer);
      HasCpuHead(q.pcbs[h]) &&
      (q.pcbs[h].events[0].duration != 1 ==> r.0.pcbs[h] == Ticked(q.pcbs[h]) && r.1[i] == Some(h)) &&
      (q.pcbs[h].events[0].duration == 1 ==> r.1[i] == None)
  {
    var h := slots[i].value;
    var v := CoreVisit(q, slots, i, fam, router, timer);
    CoreVisitEffect(q, slots, i, fam, router, timer);
    RunningPassKeepsBefore(v.0, v.1, i + 1, fam, router, timer, i);
    if q.pcbs[h].events[0].duration != 1 {
      forall m | i + 1 <= m < |slots| ensures v.1[m] != Some(h) {
        if slots[m].Some? {
          assert slots[i].value != slots[m].value;
        }
      }
      RunningPassFrame(v.0, v.1, i + 1, fam, router, timer, h);
    }
  }

  /** The scan from core `i` on leaves the cores before `i` alone. */
  lemma {:induction false} RunningPassKeepsBefore(q: Queues, slots: seq<Option<Handle>>, i: nat, fam: Family, router: Router, timer: int, j: nat)
    requires i <= |slots| && CoresOk(q, slots, fam) && j < i
    ensures RunningPass(q, slots, i, fam, router, timer).1[j] == slots[j]
    decreases |slots| - i
  {
    if i < |slots| {
      var v := CoreVisit(q, slots, i, fam, router, timer);
      CoreVisitEffect(q, slots, i, fam, router, timer);
      RunningPassKeepsBefore(v.0, v.1, i + 1, fam, router, timer, j);
    }
  }

  // ---------------------------------------------------------------------
  // What a consistent engine gives the scans
  // ---------------------------------------------------------------------

  /** In a consistent state the whole waiting list is there to visit. */
  lemma ConsistentTodo(q: Queues, slots: seq<Option<Handle>>, loc: seq<Loc>, fam: Family)
    requires Consistent(q, slots, loc, fam)
    ensures Todo(q, q.waiting, fam)
  {
    ConsistentFacts(q, slots, loc, fam);
  }

  /** In a consistent state every occupied core holds a distinct PCB in its CPU burst. */
  lemma ConsistentCores(q: Queues, slots: seq<Option<Handle>>, loc: seq<Loc>, fam: Family)
    requires Consistent(q, slots, loc, fam)
    ensures CoresOk(q, slots, fam)
  {
    ConsistentFacts(q, slots, loc, fam);
  }

  /** Some core holds a PCB. */
  predicate Occupied(slots: seq<Option<Handle>>) {
    exists j :: 0 <= j < |slots| && slots[j].Some?
  }

  /** With pids starting at 1 the running scan reports a core in use exactly when some core holds a PCB. */
  lemma BusyIffOccupied(q: Queues, slots: seq<Option<Handle>>, loc: seq<Loc>, fam: Family, router: Router, timer: int)
    requires Consistent(q, slots, loc, fam)
    ensures CoresOk(q, slots, fam) && (RunningPass(q, slots, 0, fam, router, timer).2 <==> Occupied(slots))
  {
    ConsistentFacts(q, slots, loc, fam);
    ConsistentCores(q, slots, loc, fam);
    RunningPassBusy(q, slots, 0, fam, router, timer);
    if Occupied(slots) {
      var j :| 0 <= j < |slots| && slots[j].Some?;
      assert InUse(slots, q.pcbs, j);
    }
  }
}
