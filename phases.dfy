/** What each phase of a tick does, stated against the phase functions of `Engine`. */
module PhaseLaws {
  import opened Wrappers
  import opened Timeline
  import opened Process
  import opened Engine

  // ---------------------------------------------------------------------------------------
  // Step 1: arrivals

  /** Exactly the processes below `n` that arrive now are marked as arrived. */
  lemma {:induction false} MarkArrivedSpec(ps: seq<Proc>, t: int, onOrBefore: bool, n: nat)
    requires n <= |ps|
    ensures forall i :: 0 <= i < n ==>
      MarkArrived(ps, t, onOrBefore, n)[i] == if ArrivesNow(ps[i], t, onOrBefore) then ps[i].(hasArrived := true) else ps[i]
  {
    if n > 0 {
      MarkArrivedSpec(ps, t, onOrBefore, n - 1);
    }
  }

  /** Arrivals mark exactly the processes that arrive now as arrived, and change nothing but the
      processes and the ready queue. */
  lemma ArriveMarks(s: State, onOrBefore: bool)
    requires Valid(s)
    ensures var r := Arrive(s, onOrBefore); var ps := s.processes;
      && r == s.(readyQueue := r.readyQueue, processes := r.processes)
      && |r.processes| == |ps|
      && (forall k :: 0 <= k < |ps| ==>
            r.processes[k] == if ArrivesNow(ps[k], s.currentTime, onOrBefore) then ps[k].(hasArrived := true) else ps[k])
  {
    MarkArrivedSpec(s.processes, s.currentTime, onOrBefore, |s.processes|);
  }

  /** Arrivals append every process that arrives now to the ready queue, each once and in
      process order, and nothing else. */
  lemma ArriveQueues(s: State, onOrBefore: bool)
    requires Valid(s)
    ensures var r := Arrive(s, onOrBefore); var n := |s.readyQueue|; var ps := s.processes; var t := s.currentTime;
      && n <= |r.readyQueue| && r.readyQueue[..n] == s.readyQueue
      && (forall i :: n <= i < |r.readyQueue| ==>
            r.readyQueue[i].Some? && r.readyQueue[i].value < |ps| && ArrivesNow(ps[r.readyQueue[i].value], t, onOrBefore))
      && (forall i, j :: n <= i < j < |r.readyQueue| && r.readyQueue[i].Some? && r.readyQueue[j].Some? ==>
            r.readyQueue[i].value < r.readyQueue[j].value)
      && (forall k :: 0 <= k < |ps| && ArrivesNow(ps[k], t, onOrBefore) ==> Some(k) in r.readyQueue[n..])
  {
    var ps := s.processes;
    var a := Arriving(ps, s.currentTime, onOrBefore, |ps|);
    ArrivingSpec(ps, s.currentTime, onOrBefore, |ps|);
    var r := Arrive(s, onOrBefore);
    assert r.readyQueue[|s.readyQueue|..] == Somes(a);
    forall k | 0 <= k < |ps| && ArrivesNow(ps[k], s.currentTime, onOrBefore)
      ensures Some(k) in r.readyQueue[|s.readyQueue|..]
    {
      var i :| 0 <= i < |a| && a[i] == k;
      assert Somes(a)[i] == Some(k);
    }
  }

  /** When no process arrives now, there is nothing to queue and nothing to mark. */
  lemma {:induction false} NoneArriving(ps: seq<Proc>, t: int, onOrBefore: bool, n: nat)
    requires n <= |ps|
    requires forall k :: 0 <= k < n ==> !ArrivesNow(ps[k], t, onOrBefore)
    ensures Arriving(ps, t, onOrBefore, n) == []
    ensures MarkArrived(ps, t, onOrBefore, n) == ps
  {
    if n > 0 {
      NoneArriving(ps, t, onOrBefore, n - 1);
    }
  }

  /** After the arrivals of a tick no process arrives at that tick any more, so running them a
      second time changes nothing: no process is queued twice by its arrival. */
  lemma ArriveIdempotent(s: State, onOrBefore: bool)
    requires Valid(s)
    ensures Arrive(Arrive(s, onOrBefore), onOrBefore) == Arrive(s, onOrBefore)
  {
    var r := Arrive(s, onOrBefore);
    ArriveMarks(s, onOrBefore);
    NoneArriving(r.processes, s.currentTime, onOrBefore, |r.processes|);
    assert r.readyQueue + Somes([]) == r.readyQueue;
  }

  // ---------------------------------------------------------------------------------------
  // Step 2: I/O completion

  /** No process appears twice in an I/O queue. */
  predicate Distinct(q: seq<nat>)
  {
    forall i, j :: 0 <= i < j < |q| ==> q[i] != q[j]
  }

  /** A process in I/O after step 2 at time `t`: when its I/O ends then, it moves on to its next
      burst, or completes at `t` when it has none left; otherwise it is as it was. */
  function AfterIo(p: Proc, t: int): Proc
  {
    if p.ioEndTime != t then p
    else if p.currentBurstIndex + 1 < |p.bursts| then
      p.(currentBurstIndex := p.currentBurstIndex + 1, remainingTime := p.bursts[p.currentBurstIndex + 1])
    else p.(currentBurstIndex := p.currentBurstIndex + 1, isCompleted := true, completionTime := Some(t))
  }

  /** The entries of `q` whose I/O is still running at `t`, in queue order. */
  function StillInIo(ps: seq<Proc>, q: seq<nat>, t: int): seq<nat>
    requires forall i :: 0 <= i < |q| ==> q[i] < |ps|
  {
    if q == [] then []
    else StillInIo(ps, q[..|q| - 1], t) + (if ps[q[|q| - 1]].ioEndTime != t then [q[|q| - 1]] else [])
  }

  /** The entries of `q` whose I/O ends at `t` with a burst still to run, in queue order. */
  function Returning(ps: seq<Proc>, q: seq<nat>, t: int): seq<nat>
    requires forall i :: 0 <= i < |q| ==> q[i] < |ps|
  {
    if q == [] then []
    else
      var p := ps[q[|q| - 1]];
      Returning(ps, q[..|q| - 1], t) + (if p.ioEndTime == t && p.currentBurstIndex + 1 < |p.bursts| then [q[|q| - 1]] else [])
  }

  lemma SomesSnoc(a: seq<nat>, k: nat)
    ensures Somes(a + [k]) == Somes(a) + [Some(k)]
  {
    assert (a + [k])[..|a|] == a;
  }

  /** One visit of the filter: process `k` is advanced past its I/O when it ends now, rejoins
      the ready queue when it then has a burst to run, and is kept in the I/O queue otherwise. */
  lemma IoVisitSpec(s: State, kept: seq<nat>, k: nat)
    requires k < |s.processes|
    ensures var (r, kept') := IoVisit(s, kept, k); var p := s.processes[k]; var t := s.currentTime;
      && kept' == kept + (if p.ioEndTime != t then [k] else [])
      && r.readyQueue == s.readyQueue + (if p.ioEndTime == t && p.currentBurstIndex + 1 < |p.bursts| then [Some(k)] else [])
      && r.processes == s.processes[k := AfterIo(p, t)]
      && r == s.(processes := r.processes, readyQueue := r.readyQueue)
  {
  }

  /** The filter over a queue without repeats advances exactly the processes in the queue, and
      changes nothing but the processes and the ready queue. */
  lemma {:induction false} IoFoldProcesses(s: State, q: seq<nat>)
    requires forall i :: 0 <= i < |q| ==> q[i] < |s.processes|
    requires Distinct(q)
    ensures var r := IoFold(s, q).0;
      && (forall k :: 0 <= k < |s.processes| ==> r.processes[k] == if k in q then AfterIo(s.processes[k], s.currentTime) else s.processes[k])
      && r == s.(processes := r.processes, readyQueue := r.readyQueue)
  {
    if q != [] {
      var q' := q[..|q| - 1];
      var k := q[|q| - 1];
      assert Distinct(q');
      IoFoldProcesses(s, q');
      assert q == q' + [k];
      var acc := IoFold(s, q');
      IoVisitSpec(acc.0, acc.1, k);
    }
  }

  /** The filter over a queue without repeats keeps, in order, the entries still in I/O, and
      appends the returning ones to the ready queue in queue order. */
  lemma {:induction false} IoFoldQueues(s: State, q: seq<nat>)
    requires forall i :: 0 <= i < |q| ==> q[i] < |s.processes|
    requires Distinct(q)
    ensures var r := IoFold(s, q);
      && r.1 == StillInIo(s.processes, q, s.currentTime)
      && r.0.readyQueue == s.readyQueue + Somes(Returning(s.processes, q, s.currentTime))
  {
    if q != [] {
      var q' := q[..|q| - 1];
      var k := q[|q| - 1];
      assert Distinct(q');
      IoFoldQueues(s, q');
      IoFoldProcesses(s, q');
      assert k !in q';
      var ps := s.processes;
      var t := s.currentTime;
      var acc := IoFold(s, q');
      IoVisitSpec(acc.0, acc.1, k);
      assert acc.0.processes[k] == ps[k];
      var ret := Returning(ps, q', t);
      var p := ps[k];
      if p.ioEndTime == t && p.currentBurstIndex + 1 < |p.bursts| {
        SomesSnoc(ret, k);
        assert Returning(ps, q, t) == ret + [k];
      } else {
        assert Returning(ps, q, t) == ret;
      }
    }
  }

  /** Step 2 in multiple-burst mode, when no process is queued for I/O twice: the I/O queue keeps
      the processes whose I/O is still running, in order; those whose I/O ends now and that
      have a burst left join the ready queue in I/O-queue order; the rest of those complete.
      No process outside the I/O queue changes.  In single-burst mode step 2 does nothing. */
  lemma FinishIoSpec(s: State)
    requires Valid(s) && Distinct(s.ioQueue)
    ensures var r := FinishIo(s); var ps := s.processes; var t := s.currentTime; var q := s.ioQueue;
      && (s.cfg.mode == Single ==> r == s)
      && (s.cfg.mode == Multiple ==>
            && r.ioQueue == StillInIo(ps, q, t)
            && r.readyQueue == s.readyQueue + Somes(Returning(ps, q, t))
            && |r.processes| == |ps|
            && (forall k :: 0 <= k < |ps| ==> r.processes[k] == if k in q then AfterIo(ps[k], t) else ps[k])
            && r == s.(processes := r.processes, readyQueue := r.readyQueue, ioQueue := r.ioQueue))
  {
    if s.cfg.mode == Multiple {
      IoFoldProcesses(s, s.ioQueue);
      IoFoldQueues(s, s.ioQueue);
    }
  }

  // ---------------------------------------------------------------------------------------
  // Dispatch and context switches

  /** `startContextSwitch` throws when a process has run and the ready-queue head is `null`; it
      starts a switch exactly when multiple-burst mode has a positive switch time, something is
      ready, the CPU was not idle and the head is not the process that ran last; in every other
      case it changes nothing. */
  lemma StartSwitchOutcome(s: State)
    requires Valid(s)
    ensures var (r, o) := StartSwitch(s);
      var eligible := s.cfg.mode == Multiple && s.cfg.contextSwitchTime > 0 && |s.readyQueue| > 0 && !s.cpuWasIdle;
      && (o == TypeError <==> eligible && s.lastExecuted.Some? && s.readyQueue[0].None?)
      && (o == Normal(true) <==>
            eligible && (s.readyQueue[0].None? ==> s.lastExecuted.None?) && (s.readyQueue[0].Some? ==> !HeadIsLast(s)))
      && (o != Normal(true) ==> r == s)
  {
  }

  /** A started switch lasts `contextSwitchTime` ticks from now: it is counted once, its CS
      segment closes the chart at the switch's end time and adds exactly that many ticks to the
      CS span and none to any other, and nothing else changes (the head stays queued until the
      switch ends). */
  lemma StartSwitchEffect(s: State, id: Label, isIdle: bool, isCS: bool)
    requires Valid(s) && StartSwitch(s).1 == Normal(true)
    ensures var r := StartSwitch(s).0; var cs := s.cfg.contextSwitchTime;
      && r.isInContextSwitch && r.contextSwitchEndTime == s.currentTime + cs
      && r.contextSwitches == s.contextSwitches + 1
      && |r.gantt| > 0 && SameKind(r.gantt[|r.gantt| - 1], ContextSwitch, false, true)
      && r.gantt[|r.gantt| - 1].end == r.contextSwitchEndTime
      && Span(r.gantt, id, isIdle, isCS) == Span(s.gantt, id, isIdle, isCS) + (if id == ContextSwitch && !isIdle && isCS then cs else 0)
      && r == s.(isInContextSwitch := true, contextSwitchEndTime := r.contextSwitchEndTime,
                 contextSwitches := r.contextSwitches, gantt := r.gantt, cpuWasIdle := false)
  {
    var endTime := s.currentTime + s.cfg.contextSwitchTime;
    RecordMergeRule(s.gantt, ContextSwitch, s.currentTime, false, true, Some(endTime));
    RecordSpan(s.gantt, ContextSwitch, s.currentTime, false, true, Some(endTime), id, isIdle, isCS);
  }

  /** Loading the ready-queue head: it leaves the queue and occupies the CPU with a full
      quantum; a `null` head throws; a real head becomes the last-run process and gets its
      response time, `respondAt - arrivalTime`, on its first dispatch only; no other process
      changes. */
  lemma LoadHeadSpec(s: State, respondAt: int)
    requires Valid(s) && |s.readyQueue| > 0
    ensures var r := LoadHead(s, respondAt); var head := s.readyQueue[0];
      && (r.threw <==> head.None?)
      && r.st.readyQueue == s.readyQueue[1..] && r.st.currentExecuting == head
      && r.st.quantumRemaining == s.cfg.timeQuantum
      && |r.st.processes| == |s.processes|
      && (head.None? ==> r.st.processes == s.processes && r.st.lastExecuted == s.lastExecuted && r.st.cpuWasIdle == s.cpuWasIdle)
      && (head.Some? ==>
            var k := head.value; var p := s.processes[k];
            && r.st.lastExecuted == Some(p.id) && !r.st.cpuWasIdle
            && r.st.processes[k].respondedOnce
            && r.st.processes[k].responseTime == (if p.respondedOnce then p.responseTime else Some(respondAt - p.arrivalTime))
            && r.st.processes[k] == p.(responseTime := r.st.processes[k].responseTime, respondedOnce := true)
            && (forall j :: 0 <= j < |s.processes| && j != k ==> r.st.processes[j] == s.processes[j]))
      && r.st == s.(currentExecuting := head, readyQueue := s.readyQueue[1..], quantumRemaining := s.cfg.timeQuantum,
                    processes := r.st.processes, lastExecuted := r.st.lastExecuted, cpuWasIdle := r.st.cpuWasIdle)
  {
  }

  /** A context switch is due before the head runs: multiple-burst mode with a positive switch
      time, a CPU that was not idle, and a head that is not the process that ran last (a `null`
      head only when nothing has run yet). */
  predicate SwitchDue(s: State)
    requires Valid(s) && |s.readyQueue| > 0
  {
    && s.cfg.mode == Multiple && s.cfg.contextSwitchTime > 0 && !s.cpuWasIdle
    && (s.readyQueue[0].None? ==> s.lastExecuted.None?)
    && (s.readyQueue[0].Some? ==> !HeadIsLast(s))
  }

  /** Dispatching onto a free CPU starts a context switch when one is due and otherwise loads the
      head at once; it throws without changing anything when a process has run and the head is
      `null`, and never throws on a real head. */
  lemma DispatchSpec(s: State)
    requires Valid(s) && |s.readyQueue| > 0
    ensures var r := Dispatch(s);
      && (s.readyQueue[0].Some? ==> !r.threw)
      && (s.lastExecuted.Some? && s.readyQueue[0].None? ==> r == Phase(s, true))
      && (!(s.lastExecuted.Some? && s.readyQueue[0].None?) ==>
            && (SwitchDue(s) ==> StartSwitch(s).1 == Normal(true) && r == Phase(StartSwitch(s).0, false))
            && (!SwitchDue(s) ==> r == LoadHead(s, s.currentTime)))
  {
    StartSwitchOutcome(s);
    LoadHeadSpec(s, s.currentTime);
  }

  /** A tick of a switch in progress advances the clock by one.  On its last tick the switch ends
      and the ready-queue head is loaded with its response time taken at the new time, or, with
      nothing ready, the CPU is marked idle; before that only the clock moves. */
  lemma SwitchTickSpec(s: State)
    requires Valid(s)
    ensures var r := SwitchTick(s); var t := s.currentTime;
      && (!r.threw ==> r.st.currentTime == t + 1)
      && (t + 1 < s.contextSwitchEndTime ==> r == Phase(s.(currentTime := t + 1), false))
      && (t + 1 >= s.contextSwitchEndTime && |s.readyQueue| == 0 ==>
            r == Phase(s.(isInContextSwitch := false, cpuWasIdle := true, currentTime := t + 1), false))
      && (t + 1 >= s.contextSwitchEndTime && |s.readyQueue| > 0 ==>
            && (r.threw <==> s.readyQueue[0].None?)
            && r.st.readyQueue == s.readyQueue[1..] && r.st.currentExecuting == s.readyQueue[0]
            && !r.st.isInContextSwitch
            && (!r.threw ==> r == Phase(LoadHead(s.(isInContextSwitch := false), t + 1).st.(currentTime := t + 1), false)))
  {
    if s.currentTime + 1 >= s.contextSwitchEndTime && |s.readyQueue| > 0 {
      LoadHeadSpec(s.(isInContextSwitch := false), s.currentTime + 1);
    }
  }

  // ---------------------------------------------------------------------------------------
  // The next event

  /** The earliest arrival among the first `n` processes is the minimum of their arrival times
      among those that have not arrived, and there is none exactly when all of them have. */
  lemma {:induction false} EarliestArrivalSpec(ps: seq<Proc>, n: nat)
    requires n <= |ps|
    ensures var m := EarliestArrival(ps, n);
      && (m.None? <==> forall k :: 0 <= k < n ==> ps[k].hasArrived)
      && (m.Some? ==> exists k :: 0 <= k < n && !ps[k].hasArrived && ps[k].arrivalTime == m.value)
      && (m.Some? ==> forall k :: 0 <= k < n && !ps[k].hasArrived ==> m.value <= ps[k].arrivalTime)
  {
    if n > 0 {
      EarliestArrivalSpec(ps, n - 1);
    }
  }

  /** Lowering `m` by the I/O end times of the first `n` entries gives their minimum together
      with `m`. */
  lemma {:induction false} EarliestIoEndSpec(ps: seq<Proc>, q: seq<nat>, m: Option<int>, n: nat)
    requires n <= |q|
    requires forall i :: 0 <= i < |q| ==> q[i] < |ps|
    ensures var r := EarliestIoEnd(ps, q, m, n);
      && (r.None? <==> m.None? && n == 0)
      && (r.Some? ==> (m == r || exists i :: 0 <= i < n && ps[q[i]].ioEndTime == r.value))
      && (r.Some? && m.Some? ==> r.value <= m.value)
      && (r.Some? ==> forall i :: 0 <= i < n ==> r.value <= ps[q[i]].ioEndTime)
  {
    if n > 0 {
      EarliestIoEndSpec(ps, q, m, n - 1);
    }
  }

  /** `nextEventTime` is the least time at which a process still to arrive arrives or, in
      multiple-burst mode, a pending I/O ends; it stays `Infinity` exactly when there is no such
      time. */
  lemma NextEventIsMinimum(s: State)
    requires Valid(s)
    ensures var e := NextEvent(s);
      && (e.None? <==> EventTimes(s) == {})
      && (e.Some? ==> e.value in EventTimes(s) && forall x :: x in EventTimes(s) ==> e.value <= x)
  {
    var ps := s.processes;
    var a := EarliestArrival(ps, |ps|);
    EarliestArrivalSpec(ps, |ps|);
    var arrivals := set k | 0 <= k < |ps| && !ps[k].hasArrived :: ps[k].arrivalTime;
    if a.Some? {
      var k :| 0 <= k < |ps| && !ps[k].hasArrived && ps[k].arrivalTime == a.value;
      assert a.value in arrivals;
    } else {
      assert arrivals == {};
    }
    if s.cfg.mode == Multiple {
      var q := s.ioQueue;
      var ends := set i | 0 <= i < |q| :: ps[q[i]].ioEndTime;
      assert EventTimes(s) == arrivals + ends;
      EarliestIoEndSpec(ps, q, a, |q|);
      var e := NextEvent(s);
      if e.Some? && e != a {
        var i :| 0 <= i < |q| && ps[q[i]].ioEndTime == e.value;
        assert e.value in ends;
      }
      if |q| > 0 {
        assert ps[q[0]].ioEndTime in ends;
      }
    } else {
      assert EventTimes(s) == arrivals;
    }
  }

  // ---------------------------------------------------------------------------------------
  // The idle skip and steps 5 to 7

  /** The idle skip moves the clock to `next`.  With no process in I/O the whole gap becomes idle
      time: one IDLE segment closes the chart at `next`, and the idle span and the idle
      counter both grow by the gap while no other span changes.  With a process in I/O only the
      clock moves. */
  lemma IdleSkipSpec(s: State, next: int, id: Label, isIdle: bool, isCS: bool)
    requires Valid(s) && s.currentTime <= next
    ensures var r := IdleSkip(s, next); var gap := next - s.currentTime;
      && r.currentTime == next
      && (s.cfg.mode == Multiple && |s.ioQueue| > 0 ==> r == s.(currentTime := next))
      && (!(s.cfg.mode == Multiple && |s.ioQueue| > 0) ==>
            && r.cpuIdleTime == s.cpuIdleTime + gap
            && |r.gantt| > 0 && SameKind(r.gantt[|r.gantt| - 1], Idle, true, false) && r.gantt[|r.gantt| - 1].end == next
            && Span(r.gantt, id, isIdle, isCS) == Span(s.gantt, id, isIdle, isCS) + (if id == Idle && isIdle && !isCS then gap else 0)
            && r == s.(gantt := r.gantt, cpuIdleTime := r.cpuIdleTime, currentTime := next))
  {
    RecordMergeRule(s.gantt, Idle, s.currentTime, true, false, Some(next));
    RecordSpan(s.gantt, Idle, s.currentTime, true, false, Some(next), id, isIdle, isCS);
  }

  /** Step 5 runs the current process for one tick exactly when it has quantum and work left:
      its remaining time and the quantum drop by one, it becomes the last-run process, and the
      chart is closed by a segment of that process ending one tick later, growing its span by
      one and no other.  Otherwise nothing changes. */
  lemma ExecuteSpec(s: State, id: Label, isIdle: bool, isCS: bool)
    requires Valid(s)
    ensures var r := Execute(s);
      var fires := s.quantumRemaining > 0 && s.currentExecuting.Some? && s.processes[s.currentExecuting.value].remainingTime > 0;
      && (!fires ==> r == s)
      && (fires ==>
            var k := s.currentExecuting.value; var p := s.processes[k];
            && |r.processes| == |s.processes|
            && r.processes[k] == p.(remainingTime := p.remainingTime - 1)
            && (forall j :: 0 <= j < |s.processes| && j != k ==> r.processes[j] == s.processes[j])
            && r.quantumRemaining == s.quantumRemaining - 1
            && r.lastExecuted == Some(p.id)
            && |r.gantt| > 0 && SameKind(r.gantt[|r.gantt| - 1], Process(p.id), false, false)
            && r.gantt[|r.gantt| - 1].end == s.currentTime + 1
            && Span(r.gantt, id, isIdle, isCS) == Span(s.gantt, id, isIdle, isCS) + (if id == Process(p.id) && !isIdle && !isCS then 1 else 0)
            && r == s.(gantt := r.gantt, processes := r.processes, quantumRemaining := r.quantumRemaining,
                       lastExecuted := r.lastExecuted, cpuWasIdle := false))
  {
    if s.quantumRemaining > 0 && s.currentExecuting.Some? && s.processes[s.currentExecuting.value].remainingTime > 0 {
      var p := s.processes[s.currentExecuting.value];
      RecordMergeRule(s.gantt, Process(p.id), s.currentTime, false, false, None);
      RecordSpan(s.gantt, Process(p.id), s.currentTime, false, false, None, id, isIdle, isCS);
    }
  }

  /** Step 6: when the current burst is done the CPU is freed without throwing; in multiple-burst
      mode with a burst left the process goes to the I/O queue tail and its I/O ends one tick
      after now plus its I/O time (0 when the field is absent); otherwise it completes one tick
      after now.  No other process and neither the ready queue nor the clock change. */
  lemma ResolveBurstEnd(s: State)
    requires Valid(s) && s.currentExecuting.Some? && s.processes[s.currentExecuting.value].remainingTime == 0
    ensures var r := Resolve(s); var k := s.currentExecuting.value; var p := s.processes[k];
      var toIo := s.cfg.mode == Multiple && p.currentBurstIndex + 1 < |p.bursts|;
      && !r.threw && r.st.currentExecuting.None?
      && |r.st.processes| == |s.processes|
      && (forall j :: 0 <= j < |s.processes| && j != k ==> r.st.processes[j] == s.processes[j])
      && (toIo ==> r.st.ioQueue == s.ioQueue + [k]
                   && r.st.processes[k] == p.(ioEndTime := s.currentTime + 1 + IoAt(p.ios, p.currentBurstIndex)))
      && (!toIo ==> r.st.ioQueue == s.ioQueue
                    && r.st.processes[k] == p.(isCompleted := true, completionTime := Some(s.currentTime + 1)))
      && r.st == s.(processes := r.st.processes, ioQueue := r.st.ioQueue, currentExecuting := None)
  {
  }

  /** Step 7: when the quantum is used up and no burst is done, the occupant of the CPU goes to
      the ready-queue tail, the rest of the queue keeping its order, and the CPU is freed; with a
      process on the CPU this never throws.  The source does not check that the CPU is occupied:
      an empty CPU pushes `null` and throws.  With quantum left and no burst done, nothing
      happens. */
  lemma ResolveQuantumEnd(s: State)
    requires Valid(s) && !(s.currentExecuting.Some? && s.processes[s.currentExecuting.value].remainingTime == 0)
    ensures var r := Resolve(s);
      && (s.quantumRemaining == 0 ==>
            && (r.threw <==> s.currentExecuting.None?)
            && r.st == s.(readyQueue := s.readyQueue + [s.currentExecuting], currentExecuting := None))
      && (s.quantumRemaining != 0 ==> r == Phase(s, false))
  {
  }

  /** A tick that starts a context switch goes on to steps 5 to 7 with an empty CPU; when the
      quantum of the process that ran before is used up (a round-robin preemption), step 7
      pushes `null` onto the ready queue and throws. */
  lemma SwitchOnSpentQuantumThrows(s: State)
    requires Valid(s) && |s.readyQueue| > 0 && s.readyQueue[0].Some?
    requires s.currentExecuting.None? && s.quantumRemaining == 0 && SwitchDue(s)
    ensures var d := Dispatch(s); var r := Resolve(Execute(d.st));
      && !d.threw && d.st.isInContextSwitch
      && r.threw && r.st.readyQueue == s.readyQueue + [None]
  {
    DispatchSpec(s);
    StartSwitchOutcome(s);
    StartSwitchEffect(s, ContextSwitch, false, true);
  }
}
