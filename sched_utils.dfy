/**
 * What every policy shares (scheduler/src/sched_utils.c; the older
 * src/sched_utils.c has the same three routines, with `dispatcher` named
 * `schedule`): putting a PCB on the first free core, splitting a CPU
 * burst at the quantum, and comparing PCBs by their next CPU burst.
 */
module SchedUtils {
  import opened Wrappers
  import opened ProcessModel

  /** A PCB is named by its index in the arena of all PCBs ever created. */
  type Handle = nat

  /** `x` lies between `a` and `b`, whichever of the two is smaller. */
  predicate Between(x: real, a: real, b: real) {
    (a <= x <= b) || (b <= x <= a)
  }

  /** A weighted average `w * a + (1 - w) * b` with `0 <= w <= 1` lies between `a` and `b`. */
  lemma Blended(a: real, b: real, w: real)
    ensures 0.0 <= w <= 1.0 ==> Between(w * a + (1.0 - w) * b, a, b)
  {
    if 0.0 <= w <= 1.0 {
      var lo, hi := if a <= b then a else b, if a <= b then b else a;
      ProductNonNegative(w, hi - lo);
      ProductNonNegative(1.0 - w, hi - lo);
    }
  }

  lemma ProductNonNegative(x: real, y: real)
    requires x >= 0.0 && y >= 0.0
    ensures x * y >= 0.0
  {
  }

  /** The index of the first free core. */
  function FirstNull(slots: seq<Option<Handle>>): (i: nat)
    requires None in slots
    ensures i < |slots| && slots[i] == None
    ensures forall j :: 0 <= j < i ==> slots[j].Some?
  {
    if slots[0] == None then 0
    else
      assert None in slots[1..] by {
        var k :| 0 <= k < |slots| && slots[k] == None;
        assert slots[1..][k - 1] == None;
      }
      1 + FirstNull(slots[1..])
  }

  /** The running processes, core by core. */
  function Occupants(slots: seq<Option<Handle>>): (r: seq<Handle>)
    ensures |r| <= |slots|
  {
    if slots == [] then []
    else (if slots[0].Some? then [slots[0].value] else []) + Occupants(slots[1..])
  }

  lemma {:induction false} OccupantsMember(slots: seq<Option<Handle>>, h: Handle)
    ensures h in Occupants(slots) <==> Some(h) in slots
  {
    if slots != [] {
      OccupantsMember(slots[1..], h);
      assert slots == [slots[0]] + slots[1..];
    }
  }

  /** The cores once `h` is put on the first free one. */
  function Occupy(slots: seq<Option<Handle>>, h: Handle): (r: seq<Option<Handle>>)
    requires None in slots
    ensures |r| == |slots|
  {
    slots[FirstNull(slots) := Some(h)]
  }

  /** Occupying a core adds exactly `h` to the running processes. */
  lemma {:induction false} OccupyAdds(slots: seq<Option<Handle>>, h: Handle)
    requires None in slots
    ensures multiset(Occupants(Occupy(slots, h))) == multiset(Occupants(slots)) + multiset{h}
  {
    if slots[0] == None {
      assert Occupy(slots, h)[1..] == slots[1..];
    } else {
      assert None in slots[1..] by {
        var k :| 0 <= k < |slots| && slots[k] == None;
        assert slots[1..][k - 1] == None;
      }
      OccupyAdds(slots[1..], h);
      assert Occupy(slots, h)[1..] == Occupy(slots[1..], h);
    }
  }

  /** Freeing core `i` removes exactly its process from the running ones. */
  lemma {:induction false} FreeRemoves(slots: seq<Option<Handle>>, i: nat)
    requires i < |slots| && slots[i].Some?
    ensures multiset(Occupants(slots[i := None])) == multiset(Occupants(slots)) - multiset{slots[i].value}
    decreases |slots|, 1
  {
    var s' := slots[i := None];
    if i == 0 {
      assert s'[1..] == slots[1..];
      assert Occupants(s') == Occupants(slots[1..]);
      assert Occupants(slots) == [slots[0].value] + Occupants(slots[1..]);
    } else {
      FreeRemovesLater(slots, i);
    }
  }

  /** FreeRemoves for a core after the first: the first core's process is kept. */
  lemma {:induction false} FreeRemovesLater(slots: seq<Option<Handle>>, i: nat)
    requires 0 < i < |slots| && slots[i].Some?
    ensures multiset(Occupants(slots[i := None])) == multiset(Occupants(slots)) - multiset{slots[i].value}
    decreases |slots|, 0
  {
    var s' := slots[i := None];
    var v := slots[i].value;
    var hd := if slots[0].Some? then [slots[0].value] else [];
    var rest, rest' := Occupants(slots[1..]), Occupants(s'[1..]);
    assert multiset(rest') == multiset(rest) - multiset{v} by {
      assert s'[1..] == slots[1..][i - 1 := None];
      FreeRemoves(slots[1..], i - 1);
    }
    assert v in multiset(rest) by {
      assert slots[1..][i - 1] == slots[i];
      OccupantsMember(slots[1..], v);
    }
    assert Occupants(s') == hd + rest';
    assert Occupants(slots) == hd + rest;
  }

  /**
   * The scan `while (running[i]) ++i; running[i] = pcb;` that every policy
   * ends with. The source relies on a free core existing.
   */
  method TakeFreeCore(running: array<Option<Handle>>, h: Handle)
    requires None in running[..]
    modifies running
    ensures running[..] == Occupy(old(running[..]), h)
  {
    var i := 0;
    while running[i] != None
      invariant 0 <= i <= FirstNull(running[..])
      decreases FirstNull(running[..]) - i
    {
      i := i + 1;
    }
    running[i] := Some(h);
  }

  /**
   * dispatcher (scheduler/src) and schedule (src): the PCB takes the first
   * free core and its waiting time (and, the first time, its response
   * time) is recorded.
   */
  method Dispatcher(running: array<Option<Handle>>, pcbs: seq<Pcb>, h: Handle, timer: int) returns (pcbs': seq<Pcb>)
    requires None in running[..] && h < |pcbs|
    modifies running
    ensures running[..] == Occupy(old(running[..]), h)
    ensures pcbs' == pcbs[h := pcbs[h].(stats := UpdateStats(pcbs[h].stats, WaitingTime, timer))]
  {
    TakeFreeCore(running, h);
    pcbs' := pcbs[h := pcbs[h].(stats := UpdateStats(pcbs[h].stats, WaitingTime, timer))];
  }

  /** The CPU time a burst list still asks for. */
  function CpuDemand(events: seq<Burst>): int {
    if events == [] then 0
    else (if events[0].kind == CPU then events[0].duration else 0) + CpuDemand(events[1..])
  }

  /**
   * sched_preemption: a CPU burst longer than the quantum is split into a
   * burst of exactly the quantum followed by the rest, and the PCB is
   * marked as having used its quantum.
   */
  function Preempt(p: Pcb, quantum: int): (r: Pcb)
    requires HasCpuHead(p)
    ensures p.events[0].duration > quantum ==>
      r.events == [Burst(CPU, quantum), Burst(CPU, p.events[0].duration - quantum)] + p.events[1..] && r.quantumUsed
    ensures p.events[0].duration <= quantum ==> r == p
    ensures r.(events := p.events, quantumUsed := p.quantumUsed) == p
    ensures HasCpuHead(r) && r.events[0].duration <= quantum
    ensures CpuDemand(r.events) == CpuDemand(p.events)
  {
    var e := p.events[0];
    if e.duration > quantum then
      var events := [Burst(CPU, quantum), Burst(CPU, e.duration - quantum)] + p.events[1..];
      assert events[1..] == [Burst(CPU, e.duration - quantum)] + p.events[1..];
      assert events[1..][1..] == p.events[1..];
      p.(events := events, quantumUsed := true)
    else p
  }

  /** cmp: negative, zero or positive as `a`'s next CPU burst is shorter, equal or longer. */
  function Cmp(a: Pcb, b: Pcb): (r: int)
    requires HasCpuHead(a) && HasCpuHead(b)
    ensures r < 0 <==> a.events[0].duration < b.events[0].duration
    ensures r == 0 <==> a.events[0].duration == b.events[0].duration
    ensures r == HeadLength(a) - HeadLength(b)
  {
    a.events[0].duration - b.events[0].duration
  }

  /** The length of the next burst, zero when there is none. */
  function HeadLength(p: Pcb): int {
    if p.events == [] then 0 else p.events[0].duration
  }

  /** The sort key of a handle: the length of its PCB's next burst. */
  function HeadKey(pcbs: seq<Pcb>): Handle -> int {
    h => if 0 <= h < |pcbs| then HeadLength(pcbs[h]) else 0
  }

  /** The kind of the next burst, if any. */
  function HeadKind(p: Pcb): Option<Resource> {
    if p.events == [] then None else Some(p.events[0].kind)
  }

  /** A policy keeps every PCB's identity and the kind of its next burst. */
  ghost predicate ShapeKept(pcbs: seq<Pcb>, pcbs': seq<Pcb>) {
    |pcbs'| == |pcbs| &&
    forall h :: 0 <= h < |pcbs| ==> pcbs'[h].pid == pcbs[h].pid && HeadKind(pcbs'[h]) == HeadKind(pcbs[h])
  }

  /** The index of the first smallest value; earlier values are strictly larger. */
  function FirstMin(vals: seq<int>): (j: nat)
    requires |vals| > 0
    ensures j < |vals|
    ensures forall k :: 0 <= k < |vals| ==> vals[j] <= vals[k]
    ensures forall k :: 0 <= k < j ==> vals[j] < vals[k]
  {
    if |vals| == 1 then 0
    else
      var j := FirstMin(vals[..|vals| - 1]);
      if vals[|vals| - 1] < vals[j] then |vals| - 1 else j
  }

  /** One more value moves the first minimum there exactly when it is strictly smaller. */
  lemma FirstMinStep(vals: seq<int>, i: nat)
    requires i < |vals|
    ensures i > 0 ==> FirstMin(vals[..i]) < i
    ensures FirstMin(vals[..i + 1]) ==
      if i == 0 then 0
      else if vals[i] < vals[FirstMin(vals[..i])] then i else FirstMin(vals[..i])
  {
    assert vals[..i + 1][..i] == vals[..i];
    if i > 0 {
      assert vals[..i][FirstMin(vals[..i])] == vals[FirstMin(vals[..i])];
    }
  }

  /** The same over reals, for predicted burst lengths. */
  function FirstMinReal(vals: seq<real>): (j: nat)
    requires |vals| > 0
    ensures j < |vals|
    ensures forall k :: 0 <= k < |vals| ==> vals[j] <= vals[k]
    ensures forall k :: 0 <= k < j ==> vals[j] < vals[k]
  {
    if |vals| == 1 then 0
    else
      var j := FirstMinReal(vals[..|vals| - 1]);
      if vals[|vals| - 1] < vals[j] then |vals| - 1 else j
  }

  /** One more value moves the first minimum there exactly when it is strictly smaller. */
  lemma FirstMinRealStep(vals: seq<real>, i: nat)
    requires i < |vals|
    ensures i > 0 ==> FirstMinReal(vals[..i]) < i
    ensures FirstMinReal(vals[..i + 1]) ==
      if i == 0 then 0
      else if vals[i] < vals[FirstMinReal(vals[..i])] then i else FirstMinReal(vals[..i])
  {
    assert vals[..i + 1][..i] == vals[..i];
    if i > 0 {
      assert vals[..i][FirstMinReal(vals[..i])] == vals[FirstMinReal(vals[..i])];
    }
  }
}
