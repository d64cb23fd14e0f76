/** The integer part of `showResults` (script.js:460-487): the processes counted in the results
    and the total waiting and turnaround times.  JavaScript arithmetic on an unset completion
    time gives `NaN`, written `None` here. */
module Statistics {
  import opened Wrappers
  import opened Process

  /** `processes.filter(p => p.totalBurst > 0)` (script.js:466): the processes with a positive
      total burst, in their order. */
  function Counted(ps: seq<Proc>): (r: seq<Proc>)
    ensures |r| <= |ps|
  {
    if ps == [] then []
    else
      var init, p := ps[..|ps| - 1], ps[|ps| - 1];
      assert ps == init + [p];
      Counted(init) + (if p.totalBurst > 0 then [p] else [])
  }

  /** The filter keeps exactly the processes with a positive total burst. */
  lemma {:induction false} CountedMembers(ps: seq<Proc>)
    ensures forall p :: p in Counted(ps) <==> p in ps && p.totalBurst > 0
  {
    if ps != [] {
      var init, p := ps[..|ps| - 1], ps[|ps| - 1];
      CountedMembers(init);
      assert ps == init + [p];
    }
  }

  /** The filter keeps every copy of a process with a positive total burst and no copy of any
      other. */
  lemma {:induction false} CountedCounts(ps: seq<Proc>)
    ensures forall p :: multiset(Counted(ps))[p] == (if p.totalBurst > 0 then multiset(ps)[p] else 0)
  {
    if ps != [] {
      var init, p := ps[..|ps| - 1], ps[|ps| - 1];
      CountedCounts(init);
      assert ps == init + [p];
      assert multiset(ps) == multiset(init) + multiset{p};
    }
  }

  /** The filter keeps order: filtering a concatenation concatenates the filtered parts. */
  lemma {:induction false} CountedAppend(a: seq<Proc>, b: seq<Proc>)
    ensures Counted(a + b) == Counted(a) + Counted(b)
  {
    if b == [] {
      assert a + b == a;
    } else {
      var init, p := b[..|b| - 1], b[|b| - 1];
      var tail := if p.totalBurst > 0 then [p] else [];
      CountedAppend(a, init);
      assert (a + b)[..|a + b| - 1] == a + init;
      assert (a + b)[|a + b| - 1] == p;
      assert Counted(a + b) == Counted(a + init) + tail;
      assert Counted(b) == Counted(init) + tail;
    }
  }

  /** Well-formed processes, as every run builds, all pass the filter. */
  lemma {:induction false} CountedWellFormed(ps: seq<Proc>)
    requires forall k :: 0 <= k < |ps| ==> WellFormed(ps[k])
    ensures Counted(ps) == ps
  {
    if ps != [] {
      var init, p := ps[..|ps| - 1], ps[|ps| - 1];
      CountedWellFormed(init);
      SumPositive(p.bursts);
      assert ps == init + [p];
    }
  }

  /** Addition that propagates `NaN`. */
  function Plus(a: Option<int>, b: Option<int>): (r: Option<int>)
    ensures r.Some? <==> a.Some? && b.Some?
  {
    if a.Some? && b.Some? then Some(a.value + b.value) else None
  }

  /** `completionTime - arrivalTime - totalBurst` (script.js:467, 477). */
  function WaitingTime(p: Proc): Option<int>
  {
    if p.completionTime.Some? then Some(p.completionTime.value - p.arrivalTime - p.totalBurst) else None
  }

  /** `completionTime - arrivalTime` (script.js:468, 476). */
  function TurnaroundTime(p: Proc): Option<int>
  {
    if p.completionTime.Some? then Some(p.completionTime.value - p.arrivalTime) else None
  }

  /** `totalWT`: the waiting times of `vs` summed from 0, left to right. */
  function TotalWaiting(vs: seq<Proc>): Option<int>
  {
    if vs == [] then Some(0) else Plus(TotalWaiting(vs[..|vs| - 1]), WaitingTime(vs[|vs| - 1]))
  }

  /** `totalTAT`: the turnaround times of `vs` summed from 0, left to right. */
  function TotalTurnaround(vs: seq<Proc>): Option<int>
  {
    if vs == [] then Some(0) else Plus(TotalTurnaround(vs[..|vs| - 1]), TurnaroundTime(vs[|vs| - 1]))
  }

  /** The total bursts of `vs`, summed. */
  function TotalBurst(vs: seq<Proc>): int
  {
    if vs == [] then 0 else TotalBurst(vs[..|vs| - 1]) + vs[|vs| - 1].totalBurst
  }

  /** Both totals are numbers exactly when every process summed has a completion time. */
  lemma {:induction false} TotalsDefined(vs: seq<Proc>)
    ensures TotalWaiting(vs).Some? <==> forall k :: 0 <= k < |vs| ==> vs[k].completionTime.Some?
    ensures TotalTurnaround(vs).Some? <==> forall k :: 0 <= k < |vs| ==> vs[k].completionTime.Some?
  {
    if vs != [] {
      var init := vs[..|vs| - 1];
      TotalsDefined(init);
      assert forall k :: 0 <= k < |init| ==> init[k] == vs[k];
    }
  }

  /** The total turnaround is the total waiting plus the total burst, and one is `NaN` exactly
      when the other is. */
  lemma {:induction false} TurnaroundIsWaitingPlusBurst(vs: seq<Proc>)
    ensures TotalTurnaround(vs).Some? <==> TotalWaiting(vs).Some?
    ensures TotalTurnaround(vs).Some? ==> TotalTurnaround(vs).value == TotalWaiting(vs).value + TotalBurst(vs)
  {
    if vs != [] {
      TurnaroundIsWaitingPlusBurst(vs[..|vs| - 1]);
    }
  }
}
