/** The simulator as the source runs it: one object holding the global variables of script.js,
    whose methods change them step by step.  Every method is proved to leave the object in the
    state the corresponding function of the model computes. */
module Simulator {
  import opened Wrappers
  import opened Timeline
  import opened Process
  import opened Engine
  import opened History
  import opened Scheduler

  class Simulator {
    var mode: Mode
    var timeQuantum: int
    var contextSwitchTime: int
    var currentTime: int
    var processes: seq<Proc>
    var readyQueue: seq<Option<nat>>
    var ioQueue: seq<nat>
    var currentExecuting: Option<nat>
    var quantumRemaining: int
    var ganttChart: seq<Segment>
    var contextSwitches: int
    var cpuIdleTime: int
    var isInContextSwitch: bool
    var contextSwitchEndTime: int
    var cpuWasIdle: bool
    var lastExecutedProcess: Option<nat>
    var history: seq<Snapshot>
    var historyIndex: int

    /** The engine variables as a value. */
    function Live(): State
      reads this
    {
      State(Config(mode, timeQuantum, contextSwitchTime), currentTime, processes, readyQueue, ioQueue,
            currentExecuting, quantumRemaining, ganttChart, contextSwitches, cpuIdleTime,
            isInContextSwitch, contextSwitchEndTime, cpuWasIdle, lastExecutedProcess)
    }

    /** All variables, history included, as a value. */
    function Model(): Sim
      reads this
    {
      Sim(Live(), history, historyIndex)
    }

    ghost predicate Valid()
      reads this
    {
      Engine.Valid(Live())
    }

    /** The initial values of the globals (script.js:7-18). */
    constructor ()
      ensures Model() == Sim(State(Config(Single, 0, 0), 0, [], [], [], None, 0, [], 0, 0, false, 0, true, None), [], -1)
      ensures Valid()
    {
      mode, timeQuantum, contextSwitchTime := Single, 0, 0;
      currentTime, processes, readyQueue, ioQueue := 0, [], [], [];
      currentExecuting, quantumRemaining, ganttChart := None, 0, [];
      contextSwitches, cpuIdleTime := 0, 0;
      isInContextSwitch, contextSwitchEndTime, cpuWasIdle, lastExecutedProcess := false, 0, true, None;
      history, historyIndex := [], -1;
    }

    /** `mode = get('mode').value` (script.js:72), the form's mode selection. */
    method SelectMode(m: Mode)
      modifies this`mode
      ensures mode == m
    {
      mode := m;
    }

    /** `addToGantt` (script.js:189-199): stretch the last segment in place or push a new one. */
    method AddToGantt(id: Label, time: int, isIdle: bool, isCS: bool, explicitEnd: Option<int>)
      modifies this`ganttChart
      ensures ganttChart == Record(old(ganttChart), id, time, isIdle, isCS, explicitEnd)
    {
      var end := if explicitEnd.Some? then explicitEnd.value else time + 1;
      if |ganttChart| > 0 {
        var last := ganttChart[|ganttChart| - 1];
        if last.id == id && last.isIdle == isIdle && last.isContextSwitch == isCS && last.end == time {
          ganttChart := ganttChart[|ganttChart| - 1 := last.(end := end)];
          assert ganttChart == old(ganttChart)[..|ganttChart| - 1] + [last.(end := end)];
          return;
        }
      }
      ganttChart := ganttChart + [Segment(id, time, end, isIdle, isCS)];
    }

    /** Step 1 (script.js:225-228) or the initial arrivals (script.js:169-174). */
    method Admit(onOrBefore: bool)
      requires Valid()
      modifies this`processes, this`readyQueue
      ensures Live() == Arrive(old(Live()), onOrBefore)
      ensures Valid()
    {
      ghost var s0 := Live();
      ghost var ps0 := processes;
      var k := 0;
      while k < |processes|
        invariant 0 <= k <= |ps0| == |processes|
        invariant processes == MarkArrived(ps0, currentTime, onOrBefore, k)
        invariant readyQueue == s0.readyQueue + Somes(Arriving(ps0, currentTime, onOrBefore, k))
      {
        ArriveOne(k, onOrBefore, ps0, s0.readyQueue);
        k := k + 1;
      }
      assert s0.processes == ps0 && s0.currentTime == currentTime;
    }

    /** The arrival test for the process at index `k`: it joins the ready-queue tail. */
    method ArriveOne(k: nat, onOrBefore: bool, ghost ps0: seq<Proc>, ghost rq0: seq<Option<nat>>)
      requires k < |ps0| == |processes|
      requires processes == MarkArrived(ps0, currentTime, onOrBefore, k)
      requires readyQueue == rq0 + Somes(Arriving(ps0, currentTime, onOrBefore, k))
      modifies this`processes, this`readyQueue
      ensures processes == MarkArrived(ps0, currentTime, onOrBefore, k + 1)
      ensures readyQueue == rq0 + Somes(Arriving(ps0, currentTime, onOrBefore, k + 1))
    {
      var p := processes[k];
      assert p == ps0[k];
      ghost var a := Arriving(ps0, currentTime, onOrBefore, k);
      ghost var a' := Arriving(ps0, currentTime, onOrBefore, k + 1);
      if ArrivesNow(p, currentTime, onOrBefore) {
        readyQueue := readyQueue + [Some(k)];
        processes := processes[k := p.(hasArrived := true)];
        assert a' == a + [k];
        assert Somes(a') == Somes(a) + [Some(k)] by {
          assert a' != [] && a'[..|a'| - 1] == a;
        }
      } else {
        assert a' == a;
      }
    }

    /** The filter callback of step 2 (script.js:233-247) for I/O-queue entry `k`; `kept'` is
        `kept`, extended by `k` when its I/O is still pending. */
    method VisitIo(k: nat, kept: seq<nat>) returns (kept': seq<nat>)
      requires k < |processes|
      modifies this`processes, this`readyQueue
      ensures (Live(), kept') == IoVisit(old(Live()), kept, k)
    {
      var p := processes[k];
      kept' := kept;
      if p.ioEndTime == currentTime {
        p := p.(currentBurstIndex := p.currentBurstIndex + 1);
        if p.currentBurstIndex < |p.bursts| {
          p := p.(remainingTime := p.bursts[p.currentBurstIndex]);
          readyQueue := readyQueue + [Some(k)];
        } else {
          p := p.(isCompleted := true, completionTime := Some(currentTime));
        }
        processes := processes[k := p];
      } else {
        kept' := kept + [k];
      }
    }

    /** Step 2 (script.js:231-249): the filter over the I/O queue, run in place. */
    method FinishIoNow()
      requires Valid()
      modifies this`processes, this`readyQueue, this`ioQueue
      ensures Live() == FinishIo(old(Live()))
      ensures Valid()
    {
      if mode == Multiple {
        ghost var s0 := Live();
        var q := ioQueue;
        var kept: seq<nat> := [];
        var i := 0;
        while i < |q|
          invariant 0 <= i <= |q| && ioQueue == q && |processes| == |s0.processes|
          invariant Live() == IoFold(s0, q[..i]).0 && kept == IoFold(s0, q[..i]).1
        {
          assert q[..i + 1][..i] == q[..i];
          ghost var acc := IoFold(s0, q[..i]);
          assert IoFold(s0, q[..i + 1]) == IoVisit(acc.0, acc.1, q[i]);
          kept := VisitIo(q[i], kept);
          i := i + 1;
        }
        assert q[..|q|] == q;
        ioQueue := kept;
      }
    }

    /** `currentExecuting = readyQueue.shift()` and the bookkeeping of a dispatch; `threw` when
        the shifted entry is `null`. */
    method LoadHead(respondAt: int) returns (threw: bool)
      requires Valid() && |readyQueue| > 0
      modifies this`processes, this`readyQueue, this`currentExecuting, this`quantumRemaining,
               this`lastExecutedProcess, this`cpuWasIdle
      ensures Phase(Live(), threw) == Engine.LoadHead(old(Live()), respondAt)
    {
      Shift();
      if currentExecuting.None? {
        return true;
      }
      Respond(currentExecuting.value, respondAt);
      threw := false;
    }

    /** `currentExecuting = readyQueue.shift(); quantumRemaining = timeQuantum`. */
    method Shift()
      requires |readyQueue| > 0
      modifies this`readyQueue, this`currentExecuting, this`quantumRemaining
      ensures currentExecuting == old(readyQueue[0]) && readyQueue == old(readyQueue[1..])
      ensures quantumRemaining == timeQuantum
    {
      currentExecuting, readyQueue, quantumRemaining := readyQueue[0], readyQueue[1..], timeQuantum;
    }

    /** The response time of process `k`, recorded the first time it is dispatched, and the
        bookkeeping of a dispatch. */
    method Respond(k: nat, respondAt: int)
      requires k < |processes|
      modifies this`processes, this`lastExecutedProcess, this`cpuWasIdle
      ensures var p := old(processes[k]);
        && processes == old(processes)[k := if !p.respondedOnce then p.(responseTime := Some(respondAt - p.arrivalTime), respondedOnce := true) else p]
        && lastExecutedProcess == Some(p.id) && !cpuWasIdle
    {
      var p := processes[k];
      if !p.respondedOnce {
        p := p.(responseTime := Some(respondAt - p.arrivalTime), respondedOnce := true);
      }
      processes, lastExecutedProcess, cpuWasIdle := processes[k := p], Some(p.id), false;
    }

    /** `startContextSwitch()` (script.js:201-219). */
    method StartContextSwitch() returns (started: Outcome<bool>)
      requires Valid()
      modifies this`isInContextSwitch, this`contextSwitchEndTime, this`contextSwitches,
               this`ganttChart, this`cpuWasIdle
      ensures (Live(), started) == StartSwitch(old(Live()))
      ensures Valid()
    {
      if mode != Multiple { return Normal(false); }
      if contextSwitchTime <= 0 { return Normal(false); }
      if |readyQueue| == 0 { return Normal(false); }
      if cpuWasIdle { return Normal(false); }
      var nextProc := readyQueue[0];
      if lastExecutedProcess.Some? {
        if nextProc.None? { return TypeError; }
        if processes[nextProc.value].id == lastExecutedProcess.value { return Normal(false); }
      }
      BeginSwitch();
      AddToGantt(ContextSwitch, currentTime, false, true, Some(contextSwitchEndTime));
      cpuWasIdle := false;
      started := Normal(true);
    }

    /** The switch counters of `startContextSwitch()` (script.js:211-213). */
    method BeginSwitch()
      modifies this`isInContextSwitch, this`contextSwitchEndTime, this`contextSwitches
      ensures isInContextSwitch && contextSwitchEndTime == currentTime + contextSwitchTime
      ensures contextSwitches == old(contextSwitches) + 1
    {
      isInContextSwitch := true;
      contextSwitchEndTime := currentTime + contextSwitchTime;
      contextSwitches := contextSwitches + 1;
    }

    /** Step 3 (script.js:252-270) up to its `saveState`. */
    method ContextSwitchTick() returns (threw: bool)
      requires Valid()
      modifies this
      ensures history == old(history) && historyIndex == old(historyIndex)
      ensures Phase(Live(), threw) == SwitchTick(old(Live()))
      ensures Valid()
    {
      threw := false;
      if currentTime + 1 >= contextSwitchEndTime {
        isInContextSwitch := false;
        if |readyQueue| > 0 {
          threw := LoadHead(currentTime + 1);
          if threw { return; }
        } else {
          cpuWasIdle := true;
        }
      }
      currentTime := currentTime + 1;
    }

    /** Step 4 with a free CPU and a non-empty ready queue (script.js:278-319). */
    method DispatchFromReady() returns (threw: bool)
      requires Valid() && |readyQueue| > 0
      modifies this
      ensures history == old(history) && historyIndex == old(historyIndex)
      ensures Phase(Live(), threw) == Dispatch(old(Live()))
      ensures Valid()
    {
      var nextProc := readyQueue[0];
      if lastExecutedProcess.Some? && nextProc.None? {
        return true;
      }
      if lastExecutedProcess.Some? && processes[nextProc.value].id == lastExecutedProcess.value {
        threw := LoadHead(currentTime);
      } else if mode == Multiple && contextSwitchTime > 0 {
        var started := StartContextSwitch();
        if started.TypeError? {
          threw := true;
        } else if !started.value {
          threw := LoadHead(currentTime);
        } else {
          threw := false;
        }
      } else {
        threw := LoadHead(currentTime);
      }
    }

    /** `nextEventTime` (script.js:322-338), `None` standing for `Infinity`. */
    method FindNextEvent() returns (next: Option<int>)
      requires Valid()
      ensures next == NextEvent(Live())
    {
      next := None;
      var k := 0;
      while k < |processes|
        invariant 0 <= k <= |processes|
        invariant next == EarliestArrival(processes, k)
      {
        var p := processes[k];
        if !p.hasArrived && (next.None? || p.arrivalTime < next.value) {
          next := Some(p.arrivalTime);
        }
        k := k + 1;
      }
      if mode == Multiple {
        ghost var arrival := next;
        var i := 0;
        while i < |ioQueue|
          invariant 0 <= i <= |ioQueue|
          invariant next == EarliestIoEnd(processes, ioQueue, arrival, i)
        {
          var p := processes[ioQueue[i]];
          if next.None? || p.ioEndTime < next.value {
            next := Some(p.ioEndTime);
          }
          i := i + 1;
        }
      }
    }

    /** The jump to the next event (script.js:346-357): one `addToGantt('IDLE', t, true)` and one
        idle tick per skipped tick, unless a process is in I/O. */
    method SkipTo(next: int)
      requires Valid() && next > currentTime
      modifies this`ganttChart, this`cpuIdleTime, this`currentTime
      ensures Live() == IdleSkip(old(Live()), next)
      ensures Valid()
    {
      var hasIO := mode == Multiple && |ioQueue| > 0;
      if !hasIO {
        var t := currentTime;
        while t < next
          invariant currentTime == old(currentTime) <= t <= next
          invariant t == currentTime ==> ganttChart == old(ganttChart)
          invariant t > currentTime ==> ganttChart == Record(old(ganttChart), Idle, currentTime, true, false, Some(t))
          invariant cpuIdleTime == old(cpuIdleTime) + (t - currentTime)
        {
          AddToGantt(Idle, t, true, false, None);
          if t > currentTime {
            RecordRun(old(ganttChart), Idle, currentTime, t, true, false);
          } else {
            assert ganttChart == Record(old(ganttChart), Idle, currentTime, true, false, Some(t + 1));
          }
          cpuIdleTime := cpuIdleTime + 1;
          t := t + 1;
        }
      }
      currentTime := next;
    }

    /** Step 5 (script.js:366-372). */
    method ExecuteUnit()
      requires Valid()
      modifies this`ganttChart, this`processes, this`quantumRemaining, this`lastExecutedProcess, this`cpuWasIdle
      ensures Live() == Execute(old(Live()))
      ensures Valid()
    {
      if quantumRemaining > 0 && currentExecuting.Some? && processes[currentExecuting.value].remainingTime > 0 {
        var k := currentExecuting.value;
        var p := processes[k];
        AddToGantt(Process(p.id), currentTime, false, false, None);
        RunTick(k);
      }
    }

    /** One tick of process `k` on the CPU (script.js:368-371). */
    method RunTick(k: nat)
      requires k < |processes|
      modifies this`processes, this`quantumRemaining, this`lastExecutedProcess, this`cpuWasIdle
      ensures var p := old(processes[k]);
        && processes == old(processes)[k := p.(remainingTime := p.remainingTime - 1)]
        && quantumRemaining == old(quantumRemaining) - 1 && lastExecutedProcess == Some(p.id) && !cpuWasIdle
    {
      var p := processes[k];
      processes := processes[k := p.(remainingTime := p.remainingTime - 1)];
      quantumRemaining := quantumRemaining - 1;
      lastExecutedProcess := Some(p.id);
      cpuWasIdle := false;
    }

    /** Steps 6 and 7 (script.js:375-393). */
    method ResolveBurst() returns (threw: bool)
      requires Valid()
      modifies this`processes, this`ioQueue, this`readyQueue, this`currentExecuting
      ensures Phase(Live(), threw) == Resolve(old(Live()))
      ensures Valid()
    {
      threw := false;
      if currentExecuting.Some? && processes[currentExecuting.value].remainingTime == 0 {
        var k := currentExecuting.value;
        var p := processes[k];
        if mode == Multiple && p.currentBurstIndex < |p.bursts| - 1 {
          var ioTime := IoAt(p.ios, p.currentBurstIndex);
          processes := processes[k := p.(ioEndTime := currentTime + 1 + ioTime)];
          ioQueue := ioQueue + [k];
        } else {
          processes := processes[k := p.(isCompleted := true, completionTime := Some(currentTime + 1))];
        }
        currentExecuting := None;
      } else if quantumRemaining == 0 {
        readyQueue := readyQueue + [currentExecuting];
        if currentExecuting.None? {
          return true;
        }
        currentExecuting := None;
      }
    }

    /** `saveState()` (script.js:27-39), without the button update. */
    method SaveState() returns (threw: bool)
      requires Valid()
      modifies this`history, this`historyIndex
      ensures (Model(), threw) == Save(old(Model()))
      ensures Valid()
    {
      var snap := Capture(Live());
      if snap.None? {
        return true;
      }
      history := SliceTo(history, historyIndex + 1);
      history := history + [snap.value];
      historyIndex := historyIndex + 1;
      threw := false;
    }

    /** `restoreState(state)` (script.js:43-59), without the redraw. */
    method RestoreState(state: Snapshot)
      modifies this`currentTime, this`processes, this`readyQueue, this`ioQueue, this`currentExecuting,
               this`quantumRemaining, this`ganttChart, this`contextSwitches, this`cpuIdleTime,
               this`isInContextSwitch, this`contextSwitchEndTime, this`cpuWasIdle, this`lastExecutedProcess
      ensures Live() == Restore(state, old(Live()).cfg)
      ensures Valid()
    {
      var r := Restore(state, Config(mode, timeQuantum, contextSwitchTime));
      CopyQueues(r);
      CopyCounters(r);
      assert Live() == r;
    }

    /** The clock, the processes and the queues of `r`. */
    method CopyQueues(r: State)
      modifies this`currentTime, this`processes, this`readyQueue, this`ioQueue, this`currentExecuting,
               this`quantumRemaining
      ensures currentTime == r.currentTime && processes == r.processes && readyQueue == r.readyQueue
      ensures ioQueue == r.ioQueue && currentExecuting == r.currentExecuting && quantumRemaining == r.quantumRemaining
    {
      currentTime, processes, readyQueue, ioQueue := r.currentTime, r.processes, r.readyQueue, r.ioQueue;
      currentExecuting, quantumRemaining := r.currentExecuting, r.quantumRemaining;
    }

    /** The timeline, the counters and the flags of `r`. */
    method CopyCounters(r: State)
      modifies this`ganttChart, this`contextSwitches, this`cpuIdleTime, this`isInContextSwitch,
               this`contextSwitchEndTime, this`cpuWasIdle, this`lastExecutedProcess
      ensures ganttChart == r.gantt && contextSwitches == r.contextSwitches && cpuIdleTime == r.cpuIdleTime
      ensures isInContextSwitch == r.isInContextSwitch && contextSwitchEndTime == r.contextSwitchEndTime
      ensures cpuWasIdle == r.cpuWasIdle && lastExecutedProcess == r.lastExecuted
    {
      ganttChart, contextSwitches, cpuIdleTime := r.gantt, r.contextSwitches, r.cpuIdleTime;
      isInContextSwitch, contextSwitchEndTime := r.isInContextSwitch, r.contextSwitchEndTime;
      cpuWasIdle, lastExecutedProcess := r.cpuWasIdle, r.lastExecuted;
    }

    /** `previousStep()` (script.js:452-458), without the playback toggle. */
    method PreviousStep()
      modifies this
      ensures Model() == History.PreviousStep(old(Model()))
    {
      if historyIndex > 0 {
        historyIndex := historyIndex - 1;
        if historyIndex < |history| {
          RestoreState(history[historyIndex]);
        }
      }
    }

    /** `saveState()` at the end of a tick; `checkDone` adds the all-completed test of
        script.js:399. */
    method SaveAfterTick(checkDone: bool) returns (out: TickOutcome)
      requires Valid()
      modifies this`history, this`historyIndex
      ensures (Model(), out) == SaveAfter(old(Model()), old(Live()), checkDone)
      ensures Valid()
    {
      var threw := SaveState();
      out := if threw then TypeError else Normal(checkDone && AllCompleted(processes));
    }

    /** Steps 5 to 7 of a tick (script.js:366-393). */
    method RunAndResolve() returns (threw: bool)
      requires Valid()
      modifies this`ganttChart, this`processes, this`quantumRemaining, this`lastExecutedProcess, this`cpuWasIdle,
               this`ioQueue, this`readyQueue, this`currentExecuting
      ensures Phase(Live(), threw) == Resolve(Execute(old(Live())))
      ensures Valid()
    {
      ExecuteUnit();
      threw := ResolveBurst();
    }

    /** Steps 5 to 7 and the end of a tick (script.js:366-399). */
    method ExecuteAndAdvance() returns (out: TickOutcome)
      requires Valid()
      modifies this
      ensures (Model(), out) == Scheduler.ExecuteAndAdvance(old(Model()), old(Live()))
      ensures Valid()
    {
      var threw := RunAndResolve();
      if threw {
        return TypeError;
      }
      currentTime := currentTime + 1;
      assert Model() == old(Model()).(st := Resolve(Execute(old(Live()))).st.(currentTime := currentTime));
      out := SaveAfterTick(true);
    }

    /** Steps 3 to 7 of a tick (script.js:252-399). */
    method Schedule() returns (out: TickOutcome)
      requires Valid()
      modifies this
      ensures (Model(), out) == Scheduler.Schedule(old(Model()), old(Live()))
      ensures Valid()
    {
      if isInContextSwitch {
        var threw := ContextSwitchTick();
        if threw {
          return TypeError;
        }
        out := SaveAfterTick(false);
      } else if currentExecuting.None? && |readyQueue| > 0 {
        var threw := DispatchFromReady();
        if threw {
          return TypeError;
        }
        out := ExecuteAndAdvance();
      } else if currentExecuting.None? {
        var next := FindNextEvent();
        if next.None? {
          return Normal(true);
        }
        if next.value > currentTime {
          SkipTo(next.value);
          out := SaveAfterTick(false);
        } else {
          out := ExecuteAndAdvance();
        }
      } else {
        out := ExecuteAndAdvance();
      }
    }

    /** `stepExecution()` (script.js:221-400), without trace and redraw. */
    method StepExecution() returns (out: TickOutcome)
      requires Valid()
      modifies this
      ensures (Model(), out) == Step(old(Model()))
      ensures Valid()
    {
      if AllCompleted(processes) {
        return Normal(true);
      }
      Admit(false);
      FinishIoNow();
      out := Schedule();
    }

    /** One column of the process form (script.js:131-150): the positive burst fields, the I/O
        field after each of them but the last field, and the process unless its bursts sum
        to 0. */
    method ReadProcess(i: nat, inp: ProcessInput) returns (p: Option<Proc>)
      ensures p == MakeProc(mode, i, inp)
    {
      var row := RowFor(mode, inp.bursts);
      var bursts: seq<int> := [];
      var ios: seq<int> := [];
      if mode == Single {
        if |inp.bursts| > 0 && inp.bursts[0] > 0 {
          bursts := bursts + [inp.bursts[0]];
        }
        if |row| == 1 {
          assert row[0] == inp.bursts[0] && KeptBursts(row, 0) == [] && KeptIos(row, inp.ios, 0) == [];
        }
        assert bursts == KeptBursts(row, |row|) && ios == KeptIos(row, inp.ios, |row|);
      } else {
        bursts, ios := ReadFields(row, inp.ios);
      }
      var total := Sum(bursts);
      if total == 0 {
        return None;
      }
      p := Some(Proc(i + 1, inp.arrival, bursts, ios, 0, -1, bursts[0], total, false, false, None, false, None));
    }

    /** The loop over the burst fields of one column (script.js:137-144): each positive burst,
        and the I/O field after it unless it is the last burst field. */
    static method ReadFields(row: seq<int>, ioFields: seq<int>) returns (bursts: seq<int>, ios: seq<int>)
      ensures bursts == KeptBursts(row, |row|) && ios == KeptIos(row, ioFields, |row|)
    {
      bursts, ios := [], [];
      var b := 1;
      while b <= |row|
        invariant 1 <= b <= |row| + 1
        invariant bursts == KeptBursts(row, b - 1) && ios == KeptIos(row, ioFields, b - 1)
      {
        var burst := row[b - 1];
        if burst > 0 {
          bursts := bursts + [burst];
          if b < |row| {
            ios := ios + [IoAt(ioFields, b - 1)];
          }
        }
        b := b + 1;
      }
    }

    /** The loop over the process columns (script.js:130-155). */
    method BuildProcesses(inputs: seq<ProcessInput>) returns (ps: seq<Proc>)
      ensures ps == Built(mode, inputs, |inputs|)
    {
      ps := [];
      var i := 0;
      while i < |inputs|
        invariant 0 <= i <= |inputs|
        invariant ps == Built(mode, inputs, i)
      {
        var p := ReadProcess(i, inputs[i]);
        if p.Some? {
          ps := ps + [p.value];
        }
        i := i + 1;
      }
    }

    /** The reset, the processes, the sort and the idle lead-in of `startSimulation()`
        (script.js:123-166). */
    method Prepare(inputs: seq<ProcessInput>)
      modifies this
      ensures Live() == Prepared(old(Live()).cfg, inputs)
      ensures history == [] && historyIndex == -1
    {
      var built := BuildProcesses(inputs);
      Reset(SortByArrival(built));
      ghost var mid := Live();
      assert Prepared(old(Live()).cfg, inputs) == LeadIn(mid);
      LeadInNow();
    }

    /** The reset of `startSimulation()` (script.js:123-127), with the sorted processes in
        place. */
    method Reset(ps: seq<Proc>)
      modifies this`processes, this`readyQueue, this`ioQueue, this`ganttChart, this`currentExecuting,
               this`quantumRemaining, this`history, this`historyIndex, this`contextSwitches, this`cpuIdleTime,
               this`cpuWasIdle, this`isInContextSwitch, this`contextSwitchEndTime, this`currentTime,
               this`lastExecutedProcess
      ensures Live() == State(old(Live()).cfg, 0, ps, [], [], None, 0, [], 0, 0, false, 0, true, None)
      ensures history == [] && historyIndex == -1
    {
      ResetQueues(ps);
      ResetCounters();
    }

    /** The first half of the reset of `startSimulation()` (script.js:123-124), with the sorted
        processes in place. */
    method ResetQueues(ps: seq<Proc>)
      modifies this`processes, this`readyQueue, this`ioQueue, this`ganttChart, this`currentExecuting,
               this`quantumRemaining
      ensures processes == ps && readyQueue == [] && ioQueue == [] && ganttChart == []
      ensures currentExecuting == None && quantumRemaining == 0
    {
      processes, readyQueue, ioQueue, ganttChart := ps, [], [], [];
      currentExecuting, quantumRemaining := None, 0;
    }

    /** The second half of the reset (script.js:125-127). */
    method ResetCounters()
      modifies this`history, this`historyIndex, this`contextSwitches, this`cpuIdleTime, this`cpuWasIdle,
               this`isInContextSwitch, this`contextSwitchEndTime, this`currentTime, this`lastExecutedProcess
      ensures history == [] && historyIndex == -1
      ensures contextSwitches == 0 && cpuIdleTime == 0 && cpuWasIdle
      ensures !isInContextSwitch && contextSwitchEndTime == 0 && currentTime == 0 && lastExecutedProcess == None
    {
      history, historyIndex := [], -1;
      contextSwitches, cpuIdleTime, cpuWasIdle := 0, 0, true;
      isInContextSwitch, contextSwitchEndTime := false, 0;
      currentTime, lastExecutedProcess := 0, None;
    }

    /** The idle lead-in (script.js:158-166). */
    method LeadInNow()
      requires ganttChart == [] && currentTime == 0
      modifies this`ganttChart, this`cpuIdleTime, this`currentTime
      ensures Live() == LeadIn(old(Live()))
    {
      var firstArrival := if |processes| > 0 then processes[0].arrivalTime else 0;
      if firstArrival > 0 {
        IdleLeadIn(firstArrival);
        cpuIdleTime := cpuIdleTime + firstArrival;
        currentTime := firstArrival;
      }
    }

    /** The idle ticks before the first arrival (script.js:160-162): one merged IDLE segment
        from 0 to `firstArrival`. */
    method IdleLeadIn(firstArrival: int)
      requires ganttChart == [] && firstArrival > 0
      modifies this`ganttChart
      ensures ganttChart == Record([], Idle, 0, true, false, Some(firstArrival))
    {
      var t := 0;
      while t < firstArrival
        invariant 0 <= t <= firstArrival
        invariant t == 0 ==> ganttChart == []
        invariant t > 0 ==> ganttChart == Record([], Idle, 0, true, false, Some(t))
      {
        AddToGantt(Idle, t, true, false, None);
        if t > 0 {
          RecordRun([], Idle, 0, t, true, false);
        } else {
          assert ganttChart == Record([], Idle, 0, true, false, Some(1));
        }
        t := t + 1;
      }
    }

    /** `startSimulation()` (script.js:110-187) with the form already parsed, without the
        summary table and the redraw. */
    method StartSimulation(tq: int, cs: int, inputs: seq<ProcessInput>) returns (err: Option<ConfigError>)
      modifies this
      ensures (Model(), err) == Start(old(Model()), tq, cs, inputs)
      ensures err.None? ==> Valid()
    {
      timeQuantum := tq;
      contextSwitchTime := cs;
      var num := |inputs|;
      if num < 1 || num > 10 || tq < 1 {
        return Some(InvalidInput);
      }
      if cs < 0 {
        return Some(InvalidContextSwitchTime);
      }
      Prepare(inputs);
      Admit(true);
      var _ := SaveState();
      err := None;
    }
  }
}
