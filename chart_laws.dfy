/** The Gantt chart of every state a run reaches without a throw is run-length merged, its
    segments follow each other in time, and it ends by the clock, or, while a context switch
    runs, when the switch ends. */
module ChartLaws {
  import opened Wrappers
  import opened Timeline
  import opened Process
  import opened Engine
  import opened History
  import opened Scheduler
  import opened PhaseLaws
  import opened HistoryLaws
  import opened TickLaws
  import opened RunLaws

  /** Where the chart may end: by the clock, or, while a switch runs (and the CPU is empty), by
      the end of the switch. */
  predicate ChartEnd(g: seq<Segment>, currentTime: int, isInContextSwitch: bool, contextSwitchEndTime: int, cpuEmpty: bool)
  {
    if isInContextSwitch then cpuEmpty && EndsBy(g, contextSwitchEndTime) else EndsBy(g, currentTime)
  }

  /** The live chart is merged, in time order and ends where it may. */
  predicate ChartInOrder(s: State)
  {
    && Merged(s.gantt) && Chronological(s.gantt)
    && ChartEnd(s.gantt, s.currentTime, s.isInContextSwitch, s.contextSwitchEndTime, s.currentExecuting.None?)
  }

  /** The same for the chart of a snapshot. */
  predicate SnapInOrder(snap: Snapshot)
  {
    && Merged(snap.gantt) && Chronological(snap.gantt)
    && ChartEnd(snap.gantt, snap.currentTime, snap.isInContextSwitch, snap.contextSwitchEndTime, snap.executingId.None?)
  }

  /** The live chart and the chart of every snapshot are in order. */
  predicate AllInOrder(m: Sim)
  {
    ChartInOrder(m.st) && forall i :: 0 <= i < |m.history| ==> SnapInOrder(m.history[i])
  }

  /** Arrivals and I/O completions leave the chart, the clock, the switch and the CPU alone. */
  lemma ArriveFinishIoChart(s: State)
    requires Valid(s) && ChartInOrder(s)
    ensures ChartInOrder(FinishIo(Arrive(s, false)))
  {
    ArriveMarks(s, false);
    var a := Arrive(s, false);
    if s.cfg.mode == Multiple {
      IoFoldKeeps(a, a.ioQueue);
    }
  }

  /** Step 5 charts at most one tick of the running process, at the clock, and changes neither
      the clock, the switch nor the CPU's occupant. */
  lemma ExecuteChart(s: State)
    requires Valid(s) && ChartInOrder(s)
    ensures var e := Execute(s);
      && Merged(e.gantt) && Chronological(e.gantt)
      && e.currentTime == s.currentTime && e.isInContextSwitch == s.isInContextSwitch
      && e.contextSwitchEndTime == s.contextSwitchEndTime && e.currentExecuting == s.currentExecuting
      && ChartEnd(e.gantt, s.currentTime + 1, s.isInContextSwitch, s.contextSwitchEndTime, s.currentExecuting.None?)
  {
    var e := Execute(s);
    ExecuteSpec(s, Idle, true, false);
    if s.quantumRemaining > 0 && s.currentExecuting.Some? && s.processes[s.currentExecuting.value].remainingTime > 0 {
      var p := s.processes[s.currentExecuting.value];
      assert e.gantt == Record(s.gantt, Process(p.id), s.currentTime, false, false, None);
      RecordKeepsMerged(s.gantt, Process(p.id), s.currentTime, false, false, None);
      RecordKeepsChronological(s.gantt, Process(p.id), s.currentTime, false, false, None);
    }
  }

  /** Steps 6 and 7 leave the chart, the clock and the switch alone, and never put a process on
      an empty CPU. */
  lemma ResolveChart(s: State)
    requires Valid(s)
    ensures var r := Resolve(s).st;
      && r.gantt == s.gantt && r.currentTime == s.currentTime
      && r.isInContextSwitch == s.isInContextSwitch && r.contextSwitchEndTime == s.contextSwitchEndTime
      && (s.currentExecuting.None? ==> r.currentExecuting.None?)
  {
    if s.currentExecuting.Some? && s.processes[s.currentExecuting.value].remainingTime == 0 {
      ResolveBurstEnd(s);
    } else {
      ResolveQuantumEnd(s);
    }
  }

  /** Steps 5 to 7 and the clock advance keep the chart in order, unless they throw: one tick of
      the running process is charted at the clock, which then moves past it. */
  lemma ExecuteAndAdvanceChart(m: Sim, s: State)
    requires Valid(s) && ChartInOrder(s)
    ensures var (r, out) := Scheduler.ExecuteAndAdvance(m, s); out != TypeError ==> ChartInOrder(r.st)
  {
    var e := Execute(s);
    ExecuteChart(s);
    var ph := Resolve(e);
    ResolveChart(e);
    if !ph.threw {
      var s'' := ph.st.(currentTime := ph.st.currentTime + 1);
      assert ChartInOrder(s'');
      assert Scheduler.ExecuteAndAdvance(m, s) == SaveAfter(m, s'', true);
      SaveAfterShape(m, s'', true);
    }
  }

  /** A switch started outside a switch charts its whole length from the clock on, and leaves
      the CPU empty. */
  lemma StartSwitchChart(s: State)
    requires Valid(s) && ChartInOrder(s) && !s.isInContextSwitch && s.currentExecuting.None?
    ensures ChartInOrder(StartSwitch(s).0)
  {
    StartSwitchOutcome(s);
    if StartSwitch(s).1 == Normal(true) {
      var cs := s.cfg.contextSwitchTime;
      StartSwitchEffect(s, Idle, true, false);
      assert StartSwitch(s).0.gantt == Record(s.gantt, ContextSwitch, s.currentTime, false, true, Some(s.currentTime + cs));
      RecordKeepsMerged(s.gantt, ContextSwitch, s.currentTime, false, true, Some(s.currentTime + cs));
      RecordKeepsChronological(s.gantt, ContextSwitch, s.currentTime, false, true, Some(s.currentTime + cs));
    }
  }

  /** A dispatch with a free CPU outside a switch keeps the chart in order: either the head
      loads, or a switch starts and charts its whole length from the clock on. */
  lemma DispatchChart(s: State)
    requires Valid(s) && ChartInOrder(s) && !s.isInContextSwitch && s.currentExecuting.None? && |s.readyQueue| > 0
    ensures !Dispatch(s).threw ==> ChartInOrder(Dispatch(s).st)
  {
    LoadHeadSpec(s, s.currentTime);
    StartSwitchOutcome(s);
    StartSwitchChart(s);
  }

  /** A switch tick keeps the chart in order: the switch ends no later than the clock it
      leaves behind. */
  lemma SwitchTickChart(s: State)
    requires Valid(s) && ChartInOrder(s) && s.isInContextSwitch
    ensures !SwitchTick(s).threw ==> ChartInOrder(SwitchTick(s).st)
  {
    SwitchTickSpec(s);
    if s.currentTime + 1 >= s.contextSwitchEndTime && |s.readyQueue| > 0 {
      LoadHeadSpec(s.(isInContextSwitch := false), s.currentTime + 1);
    }
  }

  /** The jump to the next event keeps the chart in order: the idle segment, if any, runs from
      the clock to the event. */
  lemma IdleSkipChart(s: State, next: int)
    requires Valid(s) && ChartInOrder(s) && !s.isInContextSwitch && s.currentTime < next
    ensures ChartInOrder(IdleSkip(s, next))
  {
    if !(s.cfg.mode == Multiple && |s.ioQueue| > 0) {
      RecordKeepsMerged(s.gantt, Idle, s.currentTime, true, false, Some(next));
      RecordKeepsChronological(s.gantt, Idle, s.currentTime, true, false, Some(next));
    }
  }

  /** Steps 3 to 7 keep the chart in order unless they throw. */
  lemma ScheduleChart(m: Sim, s: State)
    requires Valid(s) && ChartInOrder(s)
    ensures var (r, out) := Schedule(m, s); out != TypeError ==> ChartInOrder(r.st)
  {
    if s.isInContextSwitch {
      SwitchTickChart(s);
      if !SwitchTick(s).threw {
        SaveAfterShape(m, SwitchTick(s).st, false);
      }
    } else if s.currentExecuting.None? && |s.readyQueue| > 0 {
      DispatchChart(s);
      if !Dispatch(s).threw {
        ExecuteAndAdvanceChart(m, Dispatch(s).st);
      }
    } else if s.currentExecuting.None? {
      var next := NextEvent(s);
      if next.Some? && next.value > s.currentTime {
        IdleSkipChart(s, next.value);
        SaveAfterShape(m, IdleSkip(s, next.value), false);
      } else if next.Some? {
        ExecuteAndAdvanceChart(m, s);
      }
    } else {
      ExecuteAndAdvanceChart(m, s);
    }
  }

  /** A snapshot of a state whose chart is in order has its chart in order. */
  lemma CaptureInOrder(s: State)
    requires Valid(s) && ChartInOrder(s) && Capture(s).Some?
    ensures SnapInOrder(Capture(s).value)
  {
  }

  /** A save keeps every chart in order when the new live chart is. */
  lemma SavedInOrder(m: Sim, r: Sim)
    requires AllInOrder(m) && Valid(r.st) && Saved(m, r) && ChartInOrder(r.st)
    ensures AllInOrder(r)
  {
    var h := r.history[..|r.history| - 1];
    var kept := SliceTo(m.history, m.historyIndex + 1);
    assert h == kept;
    CaptureInOrder(r.st);
    forall i | 0 <= i < |r.history| ensures SnapInOrder(r.history[i]) {
      if i < |h| {
        assert r.history[i] == h[i] == kept[i];
        assert kept[i] == m.history[i];
      }
    }
  }

  /** A tick that does not throw keeps the chart of the live state and of every snapshot in
      order. */
  lemma StepChart(m: Sim)
    requires Valid(m.st) && AllInOrder(m)
    ensures Step(m).1 != TypeError ==> AllInOrder(Step(m).0)
  {
    if !AllCompleted(m.st.processes) {
      var s2 := FinishIo(Arrive(m.st, false));
      ArriveFinishIoChart(m.st);
      ScheduleChart(m.(st := s2), s2);
      var r := Step(m).0;
      StepShape(m);
      if Step(m).1 != TypeError && !Unsaved(m, r) {
        SavedInOrder(m, r);
      }
    }
  }

  /** Going back restores a snapshot whose chart is in order; a snapshot taken during a switch
      has no process on the CPU, so none is restored. */
  lemma PreviousStepChart(m: Sim)
    requires AllInOrder(m)
    ensures AllInOrder(PreviousStep(m))
  {
  }

  /** A run whose charts start in order keeps them in order for as long as no press throws. */
  lemma {:induction false} RunChart(m: Sim, acts: seq<Action>)
    requires Valid(m.st) && AllInOrder(m)
    ensures NoThrow(Run(m, acts).1) ==> AllInOrder(Run(m, acts).0)
  {
    if acts != [] {
      var front := Run(m, acts[..|acts| - 1]);
      var last := Apply(front.0, acts[|acts| - 1]);
      assert Run(m, acts) == (last.0, front.1 + [last.1]);
      if NoThrow(front.1 + [last.1]) {
        assert NoThrow(front.1) by {
          forall i | 0 <= i < |front.1| ensures front.1[i] != TypeError {
            assert front.1[i] == (front.1 + [last.1])[i];
          }
        }
        assert last.1 == (front.1 + [last.1])[|front.1|];
        RunChart(m, acts[..|acts| - 1]);
        match acts[|acts| - 1]
        case StepPress => StepChart(front.0);
        case PreviousPress => PreviousStepChart(front.0);
      }
    }
  }

  /** A run starts with its chart in order: at most one IDLE segment, from 0 to the first
      arrival, where the clock then stands. */
  lemma StartChart(m: Sim, timeQuantum: int, contextSwitchTime: int, inputs: seq<ProcessInput>)
    requires Start(m, timeQuantum, contextSwitchTime, inputs).1.None?
    ensures var m0 := Start(m, timeQuantum, contextSwitchTime, inputs).0;
      Valid(m0.st) && AllInOrder(m0)
  {
    var cfg := Config(m.st.cfg.mode, timeQuantum, contextSwitchTime);
    var p := Prepared(cfg, inputs);
    var ps := SortByArrival(Built(cfg.mode, inputs, |inputs|));
    var first := if |ps| > 0 then ps[0].arrivalTime else 0;
    if first > 0 {
      RecordKeepsMerged([], Idle, 0, true, false, Some(first));
      RecordKeepsChronological([], Idle, 0, true, false, Some(first));
    }
    assert ChartInOrder(p);
    ArriveMarks(p, true);
    var s0 := Initial(cfg, inputs);
    assert ChartInOrder(s0);
    StartNoNull(m, timeQuantum, contextSwitchTime, inputs);
    assert Start(m, timeQuantum, contextSwitchTime, inputs).0 == Save(Sim(s0, [], -1)).0;
    CaptureInOrder(s0);
  }

  /** In every state a started run reaches before any press throws, the chart is run-length
      merged, its segments follow each other without overlap, and it ends by the clock, or by
      the end of the switch that is running. */
  lemma StartedRunChart(m: Sim, timeQuantum: int, contextSwitchTime: int, inputs: seq<ProcessInput>, acts: seq<Action>)
    requires Start(m, timeQuantum, contextSwitchTime, inputs).1.None?
    ensures var m0 := Start(m, timeQuantum, contextSwitchTime, inputs).0;
      && Valid(m0.st)
      && (NoThrow(Run(m0, acts).1) ==> ChartInOrder(Run(m0, acts).0.st))
  {
    StartChart(m, timeQuantum, contextSwitchTime, inputs);
    RunChart(Start(m, timeQuantum, contextSwitchTime, inputs).0, acts);
  }
}
