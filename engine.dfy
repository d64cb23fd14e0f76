/** The scheduler state and the phases of one `stepExecution` tick (script.js:201-395), as
    functions from the state before a phase to the state after it. */
module Engine {
  import opened Wrappers
  import opened Timeline
  import opened Process

  /** The values read from the form once per simulation. */
  datatype Config = Config(mode: Mode, timeQuantum: int, contextSwitchTime: int)

  /** The global variables of script.js that the engine reads and writes.  Queues hold indices
      into `processes` (the source holds references to the same objects); a `None` entry of the
      ready queue is a `null` the source pushed.  `lastExecuted` holds the id of
      `lastExecutedProcess`, the only property of it the source reads. */
  datatype State = State(
    cfg: Config,
    currentTime: int,
    processes: seq<Proc>,
    readyQueue: seq<Option<nat>>,
    ioQueue: seq<nat>,
    currentExecuting: Option<nat>,
    quantumRemaining: int,
    gantt: seq<Segment>,
    contextSwitches: int,
    cpuIdleTime: int,
    isInContextSwitch: bool,
    contextSwitchEndTime: int,
    cpuWasIdle: bool,
    lastExecuted: Option<nat>)

  /** A phase's resulting state, and whether it ended by throwing a `TypeError`. */
  datatype Phase = Phase(st: State, threw: bool)

  /** Every non-`null` entry of a ready queue is below `n`. */
  predicate RefsBelow(q: seq<Option<nat>>, n: nat)
  {
    forall i :: 0 <= i < |q| && q[i].Some? ==> q[i].value < n
  }

  lemma RefsAppend(a: seq<Option<nat>>, b: seq<Option<nat>>, n: nat)
    requires RefsBelow(a, n) && RefsBelow(b, n)
    ensures RefsBelow(a + b, n)
  {
    forall i | 0 <= i < |a + b| && (a + b)[i].Some? ensures (a + b)[i].value < n {
      if i >= |a| { assert (a + b)[i] == b[i - |a|]; }
    }
  }

  /** Every reference the state holds names one of its processes. */
  predicate Valid(s: State)
  {
    && RefsBelow(s.readyQueue, |s.processes|)
    && (forall i :: 0 <= i < |s.ioQueue| ==> s.ioQueue[i] < |s.processes|)
    && (s.currentExecuting.Some? ==> s.currentExecuting.value < |s.processes|)
  }

  /** `processes.every(p => p.isCompleted)`. */
  predicate AllCompleted(ps: seq<Proc>)
  {
    forall k :: 0 <= k < |ps| ==> ps[k].isCompleted
  }

  function Somes(ks: seq<nat>): (r: seq<Option<nat>>)
    ensures |r| == |ks| && forall i :: 0 <= i < |ks| ==> r[i] == Some(ks[i])
  {
    if ks == [] then [] else Somes(ks[..|ks| - 1]) + [Some(ks[|ks| - 1])]
  }

  // ---------------------------------------------------------------------------------------
  // Step 1: arrivals

  /** Process `p` joins the ready queue now: at its arrival tick during a step, or at any tick up
      to now when the simulation starts (`onOrBefore`). */
  predicate ArrivesNow(p: Proc, t: int, onOrBefore: bool)
  {
    !p.hasArrived && (if onOrBefore then p.arrivalTime <= t else p.arrivalTime == t)
  }

  /** The indices below `n` of the processes that arrive now, in process order. */
  function Arriving(ps: seq<Proc>, t: int, onOrBefore: bool, n: nat): seq<nat>
    requires n <= |ps|
  {
    if n == 0 then []
    else Arriving(ps, t, onOrBefore, n - 1) + (if ArrivesNow(ps[n - 1], t, onOrBefore) then [n - 1] else [])
  }

  /** The arriving indices are exactly the processes below `n` that arrive now, each once and in
      increasing order. */
  lemma {:induction false} ArrivingSpec(ps: seq<Proc>, t: int, onOrBefore: bool, n: nat)
    requires n <= |ps|
    ensures var a := Arriving(ps, t, onOrBefore, n);
      && (forall i :: 0 <= i < |a| ==> a[i] < n && ArrivesNow(ps[a[i]], t, onOrBefore))
      && (forall i, j :: 0 <= i < j < |a| ==> a[i] < a[j])
      && (forall k :: 0 <= k < n && ArrivesNow(ps[k], t, onOrBefore) ==> k in a)
  {
    if n > 0 {
      ArrivingSpec(ps, t, onOrBefore, n - 1);
    }
  }

  /** The processes with those below `n` that arrive now marked as arrived; the rest are
      untouched. */
  function MarkArrived(ps: seq<Proc>, t: int, onOrBefore: bool, n: nat): (r: seq<Proc>)
    requires n <= |ps|
    ensures |r| == |ps|
    ensures forall i :: n <= i < |ps| ==> r[i] == ps[i]
  {
    if n == 0 then ps
    else
      var m := MarkArrived(ps, t, onOrBefore, n - 1);
      if ArrivesNow(ps[n - 1], t, onOrBefore) then m[n - 1 := ps[n - 1].(hasArrived := true)] else m
  }

  /** Step 1 of a tick (script.js:225-228), and the initial arrivals (script.js:169-174). */
  function Arrive(s: State, onOrBefore: bool): (r: State)
    requires Valid(s)
    ensures Valid(r)
  {
    var ps := s.processes;
    ArrivingSpec(ps, s.currentTime, onOrBefore, |ps|);
    RefsAppend(s.readyQueue, Somes(Arriving(ps, s.currentTime, onOrBefore, |ps|)), |ps|);
    s.(readyQueue := s.readyQueue + Somes(Arriving(ps, s.currentTime, onOrBefore, |ps|)),
       processes := MarkArrived(ps, s.currentTime, onOrBefore, |ps|))
  }

  // ---------------------------------------------------------------------------------------
  // Step 2: I/O completion

  /** The I/O-queue filter callback for process `k` (script.js:233-247): the state after it,
      and the retained I/O queue extended by `k` when its I/O is still pending. */
  function IoVisit(s: State, kept: seq<nat>, k: nat): (State, seq<nat>)
    requires k < |s.processes|
  {
    var p := s.processes[k];
    if p.ioEndTime == s.currentTime then
      var p' := p.(currentBurstIndex := p.currentBurstIndex + 1);
      if p'.currentBurstIndex < |p'.bursts| then
        (s.(processes := s.processes[k := p'.(remainingTime := p'.bursts[p'.currentBurstIndex])],
            readyQueue := s.readyQueue + [Some(k)]), kept)
      else
        (s.(processes := s.processes[k := p'.(isCompleted := true, completionTime := Some(s.currentTime))]), kept)
    else (s, kept + [k])
  }

  /** The filter run over the I/O-queue entries `q`, in order. */
  function IoFold(s: State, q: seq<nat>): (r: (State, seq<nat>))
    requires forall i :: 0 <= i < |q| ==> q[i] < |s.processes|
    ensures |r.0.processes| == |s.processes|
    ensures r.0.cfg == s.cfg && r.0.currentTime == s.currentTime
  {
    if q == [] then (s, [])
    else
      var acc := IoFold(s, q[..|q| - 1]);
      IoVisit(acc.0, acc.1, q[|q| - 1])
  }

  /** Step 2 of a tick (script.js:231-249): multiple-burst mode only. */
  function FinishIo(s: State): (r: State)
    requires Valid(s)
    ensures Valid(r)
  {
    if s.cfg.mode == Multiple then
      var r := IoFold(s, s.ioQueue);
      IoFoldValid(s, s.ioQueue);
      r.0.(ioQueue := r.1)
    else s
  }

  lemma {:induction false} IoFoldValid(s: State, q: seq<nat>)
    requires Valid(s)
    requires forall i :: 0 <= i < |q| ==> q[i] < |s.processes|
    ensures Valid(IoFold(s, q).0)
    ensures forall i :: 0 <= i < |IoFold(s, q).1| ==> IoFold(s, q).1[i] < |s.processes|
  {
    if q != [] {
      IoFoldValid(s, q[..|q| - 1]);
    }
  }

  // ---------------------------------------------------------------------------------------
  // Dispatch

  /** `currentExecuting = readyQueue.shift()` and what follows it at every dispatch site
      (script.js:257-265, 283-291, 296-304, 309-317): the quantum is refilled and the response
      time recorded once, as `respondAt - arrivalTime`.  Shifting a `null` throws when its
      `respondedOnce` is read. */
  function LoadHead(s: State, respondAt: int): (r: Phase)
    requires Valid(s) && |s.readyQueue| > 0
    ensures Valid(r.st)
  {
    var head := s.readyQueue[0];
    var s1 := s.(currentExecuting := head, readyQueue := s.readyQueue[1..], quantumRemaining := s.cfg.timeQuantum);
    if head.None? then Phase(s1, true)
    else
      var k := head.value;
      var p := s.processes[k];
      var p' := if !p.respondedOnce then p.(responseTime := Some(respondAt - p.arrivalTime), respondedOnce := true) else p;
      Phase(s1.(processes := s.processes[k := p'], lastExecuted := Some(p.id), cpuWasIdle := false), false)
  }

  /** The ready-queue head is the process that ran last (the guard repeated at script.js:208
      and 282).  Reading the id of a `null` head throws. */
  predicate HeadIsLast(s: State)
    requires Valid(s) && |s.readyQueue| > 0 && s.readyQueue[0].Some?
  {
    s.lastExecuted.Some? && s.processes[s.readyQueue[0].value].id == s.lastExecuted.value
  }

  /** `startContextSwitch` (script.js:201-219): the state after it and its return value. */
  function StartSwitch(s: State): (r: (State, Outcome<bool>))
    requires Valid(s)
    ensures Valid(r.0)
  {
    if s.cfg.mode != Multiple || s.cfg.contextSwitchTime <= 0 || |s.readyQueue| == 0 || s.cpuWasIdle then
      (s, Normal(false))
    else if s.lastExecuted.Some? && s.readyQueue[0].None? then (s, TypeError)
    else if s.readyQueue[0].Some? && HeadIsLast(s) then (s, Normal(false))
    else
      var endTime := s.currentTime + s.cfg.contextSwitchTime;
      (s.(isInContextSwitch := true, contextSwitchEndTime := endTime,
          contextSwitches := s.contextSwitches + 1,
          gantt := Record(s.gantt, ContextSwitch, s.currentTime, false, true, Some(endTime)),
          cpuWasIdle := false), Normal(true))
  }

  /** Step 4 with a free CPU and a non-empty ready queue (script.js:278-319). */
  function Dispatch(s: State): (r: Phase)
    requires Valid(s) && |s.readyQueue| > 0
    ensures Valid(r.st)
  {
    if s.lastExecuted.Some? && s.readyQueue[0].None? then Phase(s, true)
    else if s.readyQueue[0].Some? && HeadIsLast(s) then LoadHead(s, s.currentTime)
    else if s.cfg.mode == Multiple && s.cfg.contextSwitchTime > 0 then
      var (s', started) := StartSwitch(s);
      if started.TypeError? then Phase(s', true)
      else if started.value then Phase(s', false)
      else LoadHead(s', s.currentTime)
    else LoadHead(s, s.currentTime)
  }

  // ---------------------------------------------------------------------------------------
  // Step 3: a context switch in progress

  /** Step 3 of a tick (script.js:252-270) up to, not including, its `saveState`. */
  function SwitchTick(s: State): (r: Phase)
    requires Valid(s)
    ensures Valid(r.st)
  {
    if s.currentTime + 1 >= s.contextSwitchEndTime then
      var s1 := s.(isInContextSwitch := false);
      if |s1.readyQueue| > 0 then
        var ph := LoadHead(s1, s.currentTime + 1);
        if ph.threw then ph else Phase(ph.st.(currentTime := s.currentTime + 1), false)
      else Phase(s1.(cpuWasIdle := true, currentTime := s.currentTime + 1), false)
    else Phase(s.(currentTime := s.currentTime + 1), false)
  }

  // ---------------------------------------------------------------------------------------
  // Step 4 with nothing ready: the next event and the idle skip

  /** `if (x < nextEventTime) nextEventTime = x`, with `None` for `Infinity`. */
  function Lower(m: Option<int>, x: int): Option<int>
  {
    if m.None? || x < m.value then Some(x) else m
  }

  /** The earliest arrival time among the first `n` processes that have not arrived. */
  function EarliestArrival(ps: seq<Proc>, n: nat): Option<int>
    requires n <= |ps|
  {
    if n == 0 then None
    else
      var m := EarliestArrival(ps, n - 1);
      if !ps[n - 1].hasArrived then Lower(m, ps[n - 1].arrivalTime) else m
  }

  /** `m` lowered by the I/O end times of the first `n` entries of `q`. */
  function EarliestIoEnd(ps: seq<Proc>, q: seq<nat>, m: Option<int>, n: nat): Option<int>
    requires n <= |q|
    requires forall i :: 0 <= i < |q| ==> q[i] < |ps|
  {
    if n == 0 then m else Lower(EarliestIoEnd(ps, q, m, n - 1), ps[q[n - 1]].ioEndTime)
  }

  /** `nextEventTime` (script.js:322-338). */
  function NextEvent(s: State): Option<int>
    requires Valid(s)
  {
    var a := EarliestArrival(s.processes, |s.processes|);
    if s.cfg.mode == Multiple then EarliestIoEnd(s.processes, s.ioQueue, a, |s.ioQueue|) else a
  }

  /** The times `nextEventTime` is the minimum of: arrivals still to come and, in multiple-burst
      mode, the end times of pending I/O. */
  function EventTimes(s: State): set<int>
    requires Valid(s)
  {
    (set k | 0 <= k < |s.processes| && !s.processes[k].hasArrived :: s.processes[k].arrivalTime)
    + (if s.cfg.mode == Multiple then set i | 0 <= i < |s.ioQueue| :: s.processes[s.ioQueue[i]].ioEndTime else {})
  }

  /** The jump to `next` (script.js:346-357): one merged IDLE segment and idle credit for the
      whole gap, unless a process is in I/O, when only the clock moves. */
  function IdleSkip(s: State, next: int): (r: State)
    requires Valid(s)
    ensures Valid(r)
  {
    var hasIO := s.cfg.mode == Multiple && |s.ioQueue| > 0;
    if hasIO then s.(currentTime := next)
    else s.(gantt := Record(s.gantt, Idle, s.currentTime, true, false, Some(next)),
             cpuIdleTime := s.cpuIdleTime + (next - s.currentTime),
             currentTime := next)
  }

  // ---------------------------------------------------------------------------------------
  // Steps 5 to 7

  /** Step 5 (script.js:366-372): run the current process for one tick. */
  function Execute(s: State): (r: State)
    requires Valid(s)
    ensures Valid(r)
  {
    if s.quantumRemaining > 0 && s.currentExecuting.Some? && s.processes[s.currentExecuting.value].remainingTime > 0 then
      var k := s.currentExecuting.value;
      var p := s.processes[k];
      s.(gantt := Record(s.gantt, Process(p.id), s.currentTime, false, false, None),
         processes := s.processes[k := p.(remainingTime := p.remainingTime - 1)],
         quantumRemaining := s.quantumRemaining - 1,
         lastExecuted := Some(p.id),
         cpuWasIdle := false)
    else s
  }

  /** Steps 6 and 7 (script.js:375-393): a finished burst goes to I/O or completes the process;
      an exhausted quantum sends the current occupant, even a `null` one, to the ready-queue
      tail, and then throws when the occupant is `null` (its id is read for the trace). */
  function Resolve(s: State): (r: Phase)
    requires Valid(s)
    ensures Valid(r.st)
  {
    if s.currentExecuting.Some? && s.processes[s.currentExecuting.value].remainingTime == 0 then
      var k := s.currentExecuting.value;
      var p := s.processes[k];
      if s.cfg.mode == Multiple && p.currentBurstIndex < |p.bursts| - 1 then
        var p' := p.(ioEndTime := s.currentTime + 1 + IoAt(p.ios, p.currentBurstIndex));
        Phase(s.(processes := s.processes[k := p'], ioQueue := s.ioQueue + [k], currentExecuting := None), false)
      else
        var p' := p.(isCompleted := true, completionTime := Some(s.currentTime + 1));
        Phase(s.(processes := s.processes[k := p'], currentExecuting := None), false)
    else if s.quantumRemaining == 0 then
      var s' := s.(readyQueue := s.readyQueue + [s.currentExecuting]);
      if s.currentExecuting.None? then Phase(s', true) else Phase(s'.(currentExecuting := None), false)
    else Phase(s, false)
  }
}
