/** What every tick keeps: the configuration and the jobs, a clock that never goes back, and
    charts whose idle and context-switch time agree with the counters; what a saved tick does to
    the undo history, and that undoing it gives the state before it back. */
module RunLaws {
  import opened Wrappers
  import opened Timeline
  import opened Process
  import opened Engine
  import opened History
  import opened Scheduler
  import opened PhaseLaws
  import opened HistoryLaws
  import opened TickLaws
  import opened Statistics

  // ---------------------------------------------------------------------------------------
  // What a tick keeps

  /** The parts of a process no tick changes. */
  function Job(p: Proc): (nat, int, seq<int>, seq<int>, int)
  {
    (p.id, p.arrivalTime, p.bursts, p.ios, p.totalBurst)
  }

  /** The same processes in the same places, each with its id, arrival, bursts, I/O durations
      and total burst. */
  predicate SameJobs(a: seq<Proc>, b: seq<Proc>)
  {
    |a| == |b| && forall k :: 0 <= k < |a| ==> Job(a[k]) == Job(b[k])
  }

  /** The idle counter is the idle time on the chart, the context-switch time on the chart is
      one switch time per switch counted, and every completed process has a completion time. */
  predicate Accounts(s: State)
  {
    && Stamped(s.processes)
    && s.cpuIdleTime == Span(s.gantt, Idle, true, false)
    && Span(s.gantt, ContextSwitch, false, true) == s.contextSwitches * s.cfg.contextSwitchTime
  }

  /** The flags a run only ever sets stay set: arrived, completed and responded once. */
  predicate Progressed(p: Proc, q: Proc)
  {
    && (p.hasArrived ==> q.hasArrived)
    && (p.isCompleted ==> q.isCompleted)
    && (p.respondedOnce ==> q.respondedOnce)
  }

  /** From `s` to `r`: the configuration and the jobs stay, no process loses its arrived,
      completed or responded flag, the clock does not go back, and accounts that agree keep
      agreeing. */
  predicate Keeps(s: State, r: State)
  {
    && r.cfg == s.cfg
    && SameJobs(s.processes, r.processes)
    && (forall k :: 0 <= k < |s.processes| ==> Progressed(s.processes[k], r.processes[k]))
    && r.currentTime >= s.currentTime
    && (Accounts(s) ==> Accounts(r))
  }

  lemma KeepsTrans(a: State, b: State, c: State)
    requires Keeps(a, b) && Keeps(b, c)
    ensures Keeps(a, c)
  {
  }

  lemma ArriveKeeps(s: State, onOrBefore: bool)
    requires Valid(s)
    ensures Keeps(s, Arrive(s, onOrBefore))
  {
    ArriveMarks(s, onOrBefore);
  }

  /** The I/O filter changes only processes and the ready queue, and keeps every job. */
  lemma {:induction false} IoFoldKeeps(s: State, q: seq<nat>)
    requires forall i :: 0 <= i < |q| ==> q[i] < |s.processes|
    ensures var r := IoFold(s, q).0;
      && r == s.(processes := r.processes, readyQueue := r.readyQueue) && SameJobs(s.processes, r.processes)
      && (forall k :: 0 <= k < |s.processes| ==> Progressed(s.processes[k], r.processes[k]))
      && (Stamped(s.processes) ==> Stamped(r.processes))
  {
    if q != [] {
      IoFoldKeeps(s, q[..|q| - 1]);
      var acc := IoFold(s, q[..|q| - 1]);
      IoVisitSpec(acc.0, acc.1, q[|q| - 1]);
    }
  }

  lemma FinishIoKeeps(s: State)
    requires Valid(s)
    ensures Keeps(s, FinishIo(s))
  {
    if s.cfg.mode == Multiple {
      IoFoldKeeps(s, s.ioQueue);
    }
  }

  lemma LoadHeadKeeps(s: State, respondAt: int)
    requires Valid(s) && |s.readyQueue| > 0
    ensures Keeps(s, LoadHead(s, respondAt).st)
  {
    LoadHeadSpec(s, respondAt);
  }

  /** A started switch adds one switch time of chart and one to the counter. */
  lemma StartSwitchKeeps(s: State)
    requires Valid(s)
    ensures Keeps(s, StartSwitch(s).0)
  {
    StartSwitchOutcome(s);
    if StartSwitch(s).1 == Normal(true) {
      var r := StartSwitch(s).0;
      var cs := s.cfg.contextSwitchTime;
      StartSwitchEffect(s, Idle, true, false);
      StartSwitchEffect(s, ContextSwitch, false, true);
      assert r.contextSwitches * cs == s.contextSwitches * cs + cs;
    }
  }

  lemma DispatchKeeps(s: State)
    requires Valid(s) && |s.readyQueue| > 0
    ensures Keeps(s, Dispatch(s).st)
  {
    LoadHeadKeeps(s, s.currentTime);
    StartSwitchKeeps(s);
  }

  lemma SwitchTickKeeps(s: State)
    requires Valid(s)
    ensures Keeps(s, SwitchTick(s).st)
  {
    if s.currentTime + 1 >= s.contextSwitchEndTime && |s.readyQueue| > 0 {
      LoadHeadKeeps(s.(isInContextSwitch := false), s.currentTime + 1);
    }
  }

  lemma IdleSkipKeeps(s: State, next: int)
    requires Valid(s) && s.currentTime <= next
    ensures Keeps(s, IdleSkip(s, next))
  {
    IdleSkipSpec(s, next, Idle, true, false);
    IdleSkipSpec(s, next, ContextSwitch, false, true);
  }

  lemma ExecuteKeeps(s: State)
    requires Valid(s)
    ensures Keeps(s, Execute(s))
  {
    ExecuteSpec(s, Idle, true, false);
    ExecuteSpec(s, ContextSwitch, false, true);
  }

  lemma ResolveKeeps(s: State)
    requires Valid(s)
    ensures Keeps(s, Resolve(s).st)
  {
    if s.currentExecuting.Some? && s.processes[s.currentExecuting.value].remainingTime == 0 {
      ResolveBurstEnd(s);
    }
  }

  // ---------------------------------------------------------------------------------------
  // A tick and the undo history

  /** `m'` has neither a new snapshot nor a moved cursor. */
  predicate Unsaved(m: Sim, m': Sim)
  {
    m'.history == m.history && m'.historyIndex == m.historyIndex
  }

  /** `m'` is `m` after `saveState`: the snapshots after the cursor are dropped, a snapshot of
      the new live state is appended and the cursor is on it. */
  predicate Saved(m: Sim, m': Sim)
    requires Valid(m'.st)
  {
    && m'.historyIndex == m.historyIndex + 1
    && |m'.history| > 0
    && m'.history[..|m'.history| - 1] == SliceTo(m.history, m.historyIndex + 1)
    && Capture(m'.st) == Some(m'.history[|m'.history| - 1])
  }

  lemma SaveAfterShape(m: Sim, s: State, checkDone: bool)
    requires Valid(s)
    ensures var r := SaveAfter(m, s, checkDone).0; r.st == s && (Unsaved(m, r) || Saved(m, r))
  {
  }

  /** Steps 5 to 7 keep the configuration, the jobs and the accounts, and so does the clock
      advance after them. */
  lemma RunResolveKeeps(s: State)
    requires Valid(s)
    ensures var ph := Resolve(Execute(s));
      && Keeps(s, ph.st) && Keeps(s, ph.st.(currentTime := ph.st.currentTime + 1))
  {
    var e := Execute(s);
    var ph := Resolve(e);
    ExecuteKeeps(s);
    ResolveKeeps(e);
    KeepsTrans(s, e, ph.st);
    assert Keeps(ph.st, ph.st.(currentTime := ph.st.currentTime + 1));
    KeepsTrans(s, ph.st, ph.st.(currentTime := ph.st.currentTime + 1));
  }

  lemma ExecuteAndAdvanceShape(m: Sim, s: State)
    requires Valid(s)
    ensures var r := Scheduler.ExecuteAndAdvance(m, s).0;
      Keeps(s, r.st) && (Unsaved(m, r) || (Saved(m, r) && r.st.currentTime > s.currentTime))
  {
    var ph := Resolve(Execute(s));
    RunResolveKeeps(s);
    if ph.threw {
      assert Scheduler.ExecuteAndAdvance(m, s).0 == m.(st := ph.st);
    } else {
      var s'' := ph.st.(currentTime := ph.st.currentTime + 1);
      assert Scheduler.ExecuteAndAdvance(m, s) == SaveAfter(m, s'', true);
      SaveAfterShape(m, s'', true);
    }
  }

  /** Steps 3 to 7 keep the configuration, the jobs and the accounts; a tick that saves also
      moves the clock forward. */
  lemma ScheduleShape(m: Sim, s: State)
    requires Valid(s)
    ensures var r := Schedule(m, s).0;
      && Keeps(s, r.st)
      && (Unsaved(m, r) || (Saved(m, r) && r.st.currentTime > s.currentTime))
  {
    if s.isInContextSwitch {
      SwitchTickKeeps(s);
      SwitchTickSpec(s);
      SaveAfterShape(m, SwitchTick(s).st, false);
    } else if s.currentExecuting.None? && |s.readyQueue| > 0 {
      DispatchKeeps(s);
      var d := Dispatch(s).st;
      ExecuteAndAdvanceShape(m, d);
      KeepsTrans(s, d, Schedule(m, s).0.st);
    } else if s.currentExecuting.None? {
      var next := NextEvent(s);
      if next.Some? && next.value > s.currentTime {
        IdleSkipKeeps(s, next.value);
        SaveAfterShape(m, IdleSkip(s, next.value), false);
      } else if next.Some? {
        ExecuteAndAdvanceShape(m, s);
      }
    } else {
      ExecuteAndAdvanceShape(m, s);
    }
  }

  /** A tick keeps the configuration, every job and the agreement of the counters with the
      chart, and never moves the clock back.  It either leaves the undo history alone or saves
      exactly one snapshot of its new state at the cursor, and a tick that saves moves the clock
      forward. */
  lemma StepShape(m: Sim)
    requires Valid(m.st)
    ensures var r := Step(m).0;
      && Keeps(m.st, r.st)
      && (Unsaved(m, r) || (Saved(m, r) && r.st.currentTime > m.st.currentTime))
  {
    if !AllCompleted(m.st.processes) {
      var s1 := Arrive(m.st, false);
      var s2 := FinishIo(s1);
      ArriveKeeps(m.st, false);
      FinishIoKeeps(s1);
      KeepsTrans(m.st, s1, s2);
      ScheduleShape(m.(st := s2), s2);
      KeepsTrans(m.st, s2, Step(m).0.st);
    }
  }

  /** Previous right after a save gives back exactly the state before it, when the cursor's
      snapshot was that state (as it is after every save), the processes have distinct non-zero
      ids and the ready queue holds no `null`. */
  lemma UndoSave(m: Sim, r: Sim)
    requires Valid(m.st) && CursorOk(m) && m.historyIndex >= 0
    requires Capture(m.st) == Some(m.history[m.historyIndex])
    requires UniqueIds(m.st.processes) && forall k :: 0 <= k < |m.st.processes| ==> m.st.processes[k].id != 0
    requires NoNull(m.st.readyQueue)
    requires Valid(r.st) && Saved(m, r) && r.st.cfg == m.st.cfg
    ensures var back := PreviousStep(r);
      back.st == m.st && back.historyIndex == m.historyIndex && back.history[..m.historyIndex + 1] == m.history[..m.historyIndex + 1]
  {
    var i := m.historyIndex;
    assert r.history[..|r.history| - 1] == m.history[..i + 1];
    assert r.history[i] == r.history[..|r.history| - 1][i];
    RestoreCapture(m.st);
  }

  /** Previous right after a tick that saved gives back exactly the state before the tick, under
      the conditions of `UndoSave`. */
  lemma UndoStep(m: Sim)
    requires Valid(m.st) && CursorOk(m) && m.historyIndex >= 0
    requires Capture(m.st) == Some(m.history[m.historyIndex])
    requires UniqueIds(m.st.processes) && forall k :: 0 <= k < |m.st.processes| ==> m.st.processes[k].id != 0
    requires NoNull(m.st.readyQueue)
    requires Step(m).0.historyIndex != m.historyIndex
    ensures PreviousStep(Step(m).0).st == m.st && PreviousStep(Step(m).0).historyIndex == m.historyIndex
  {
    StepShape(m);
    UndoSave(m, Step(m).0);
  }

  // ---------------------------------------------------------------------------------------
  // Accounts over a whole run

  /** A snapshot whose counters agree with its chart under the configuration `cfg`. */
  predicate SnapAccounts(snap: Snapshot, cfg: Config)
  {
    && Stamped(snap.processes)
    && snap.cpuIdleTime == Span(snap.gantt, Idle, true, false)
    && Span(snap.gantt, ContextSwitch, false, true) == snap.contextSwitches * cfg.contextSwitchTime
  }

  /** The live state and every snapshot in the history agree with their charts. */
  predicate AllAccounts(m: Sim)
  {
    && Accounts(m.st)
    && forall i :: 0 <= i < |m.history| ==> SnapAccounts(m.history[i], m.st.cfg)
  }

  /** A save keeps every account in order when the new live state's accounts are. */
  lemma SavedAccounts(m: Sim, r: Sim)
    requires CursorOk(m) && AllAccounts(m)
    requires Valid(r.st) && Saved(m, r) && r.st.cfg == m.st.cfg && Accounts(r.st)
    ensures CursorOk(r) && AllAccounts(r)
  {
    var h := r.history[..|r.history| - 1];
    assert h == m.history[..m.historyIndex + 1];
    forall i | 0 <= i < |r.history| ensures SnapAccounts(r.history[i], r.st.cfg) {
      if i < |h| {
        assert r.history[i] == h[i] == m.history[i];
      }
    }
  }

  /** A tick keeps every account in order, in the live state and in the history. */
  lemma StepAccounts(m: Sim)
    requires Valid(m.st) && CursorOk(m) && AllAccounts(m)
    ensures CursorOk(Step(m).0) && AllAccounts(Step(m).0)
  {
    var r := Step(m).0;
    StepShape(m);
    if !Unsaved(m, r) {
      SavedAccounts(m, r);
    }
  }

  /** Going back keeps every account in order: it restores a snapshot whose counters agree with
      its chart. */
  lemma PreviousStepAccounts(m: Sim)
    requires CursorOk(m) && AllAccounts(m)
    ensures CursorOk(PreviousStep(m)) && AllAccounts(PreviousStep(m))
  {
  }

  /** Every state of a run whose accounts start in order keeps them in order. */
  lemma {:induction false} RunAccounts(m: Sim, acts: seq<Action>)
    requires Valid(m.st) && CursorOk(m) && AllAccounts(m)
    ensures CursorOk(Run(m, acts).0) && AllAccounts(Run(m, acts).0)
  {
    if acts != [] {
      RunAccounts(m, acts[..|acts| - 1]);
      var m' := Run(m, acts[..|acts| - 1]).0;
      match acts[|acts| - 1]
      case StepPress => StepAccounts(m');
      case PreviousPress => PreviousStepAccounts(m');
    }
  }

  /** The processes a run starts with have none completed. */
  lemma StartStamped(mode: Mode, inputs: seq<ProcessInput>)
    ensures Stamped(SortByArrival(Built(mode, inputs, |inputs|)))
  {
    var built := Built(mode, inputs, |inputs|);
    BuiltMade(mode, inputs, |inputs|);
    SortKeepsFresh(built);
  }

  /** The idle lead-in is counted as idle time. */
  lemma PreparedAccounts(cfg: Config, inputs: seq<ProcessInput>)
    ensures Accounts(Prepared(cfg, inputs))
  {
    var ps := SortByArrival(Built(cfg.mode, inputs, |inputs|));
    var first := if |ps| > 0 then ps[0].arrivalTime else 0;
    StartStamped(cfg.mode, inputs);
    RecordSpan([], Idle, 0, true, false, Some(first), Idle, true, false);
    RecordSpan([], Idle, 0, true, false, Some(first), ContextSwitch, false, true);
  }

  /** A run starts with its accounts in order. */
  lemma StartAccounts(m: Sim, timeQuantum: int, contextSwitchTime: int, inputs: seq<ProcessInput>)
    requires Start(m, timeQuantum, contextSwitchTime, inputs).1.None?
    ensures var m0 := Start(m, timeQuantum, contextSwitchTime, inputs).0;
      Valid(m0.st) && CursorOk(m0) && AllAccounts(m0)
  {
    var cfg := Config(m.st.cfg.mode, timeQuantum, contextSwitchTime);
    var p := Prepared(cfg, inputs);
    PreparedAccounts(cfg, inputs);
    ArriveKeeps(p, true);
    var s0 := Initial(cfg, inputs);
    assert Start(m, timeQuantum, contextSwitchTime, inputs).0 == Save(Sim(s0, [], -1)).0;
  }

  /** In every state a started run reaches, whatever Step and Previous presses it takes, the idle
      counter is the idle time on the chart and the chart's context-switch time is one switch
      time per switch counted. */
  lemma StartedRunAccounts(m: Sim, timeQuantum: int, contextSwitchTime: int, inputs: seq<ProcessInput>, acts: seq<Action>)
    requires Start(m, timeQuantum, contextSwitchTime, inputs).1.None?
    ensures var m0 := Start(m, timeQuantum, contextSwitchTime, inputs).0;
      Valid(m0.st) && Accounts(Run(m0, acts).0.st)
  {
    StartAccounts(m, timeQuantum, contextSwitchTime, inputs);
    RunAccounts(Start(m, timeQuantum, contextSwitchTime, inputs).0, acts);
  }

  // ---------------------------------------------------------------------------------------
  // Results

  /** Once every process of a state whose accounts are in order has completed, the totals the
      results show are numbers, and the total turnaround is the total waiting plus the total
      burst of the counted processes. */
  lemma CompletedTotals(s: State)
    requires Accounts(s) && AllCompleted(s.processes)
    ensures var vs := Counted(s.processes);
      && TotalWaiting(vs).Some? && TotalTurnaround(vs).Some?
      && TotalTurnaround(vs).value == TotalWaiting(vs).value + TotalBurst(vs)
  {
    var vs := Counted(s.processes);
    CountedMembers(s.processes);
    forall k | 0 <= k < |vs| ensures vs[k].completionTime.Some? {
      assert vs[k] in s.processes;
    }
    TotalsDefined(vs);
    TurnaroundIsWaitingPlusBurst(vs);
  }

  /** In a started run, whatever Step and Previous presses it takes, once every process has
      completed the results' totals are numbers, related by the total burst. */
  lemma StartedRunTotals(m: Sim, timeQuantum: int, contextSwitchTime: int, inputs: seq<ProcessInput>, acts: seq<Action>)
    requires Start(m, timeQuantum, contextSwitchTime, inputs).1.None?
    ensures var m0 := Start(m, timeQuantum, contextSwitchTime, inputs).0;
      && Valid(m0.st)
      && var ps := Run(m0, acts).0.st.processes; var vs := Counted(ps);
      AllCompleted(ps) ==>
        && TotalWaiting(vs).Some? && TotalTurnaround(vs).Some?
        && TotalTurnaround(vs).value == TotalWaiting(vs).value + TotalBurst(vs)
  {
    StartedRunAccounts(m, timeQuantum, contextSwitchTime, inputs, acts);
    var st := Run(Start(m, timeQuantum, contextSwitchTime, inputs).0, acts).0.st;
    if AllCompleted(st.processes) {
      CompletedTotals(st);
    }
  }
}
