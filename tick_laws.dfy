/** What a whole tick and a whole run promise, built from the laws of the phases and of the undo
    history. */
module TickLaws {
  import opened Wrappers
  import opened Timeline
  import opened Process
  import opened Engine
  import opened History
  import opened Scheduler
  import opened PhaseLaws
  import opened HistoryLaws

  // ---------------------------------------------------------------------------------------
  // Where a tick can throw

  /** The ready queue holds no `null`. */
  predicate NoNull(q: seq<Option<nat>>)
  {
    forall i :: 0 <= i < |q| ==> q[i].Some?
  }

  /** Saving a state whose ready queue holds no `null` never throws and keeps the state. */
  lemma SaveAfterOk(m: Sim, s: State, checkDone: bool)
    requires Valid(s) && NoNull(s.readyQueue)
    ensures var (r, out) := SaveAfter(m, s, checkDone); out != TypeError && r.st == s
  {
  }

  lemma {:induction false} IoFoldNoNull(s: State, q: seq<nat>)
    requires forall i :: 0 <= i < |q| ==> q[i] < |s.processes|
    requires NoNull(s.readyQueue)
    ensures NoNull(IoFold(s, q).0.readyQueue)
  {
    if q != [] {
      IoFoldNoNull(s, q[..|q| - 1]);
      var acc := IoFold(s, q[..|q| - 1]);
      IoVisitSpec(acc.0, acc.1, q[|q| - 1]);
    }
  }

  /** Arrivals and I/O completions queue only real processes. */
  lemma ArriveFinishIoNoNull(s: State)
    requires Valid(s) && NoNull(s.readyQueue)
    ensures NoNull(FinishIo(Arrive(s, false)).readyQueue)
  {
    ArriveQueues(s, false);
    var a := Arrive(s, false);
    assert NoNull(a.readyQueue) by {
      forall i | 0 <= i < |a.readyQueue| ensures a.readyQueue[i].Some? {
        if i < |s.readyQueue| {
          assert a.readyQueue[i] == a.readyQueue[..|s.readyQueue|][i];
        }
      }
    }
    if s.cfg.mode == Multiple {
      IoFoldNoNull(a, a.ioQueue);
    }
  }

  /** The ready queue holds one `null`, at its tail: what step 7 leaves when it throws. */
  predicate NullAtTail(q: seq<Option<nat>>)
  {
    |q| > 0 && q[|q| - 1].None? && NoNull(q[..|q| - 1])
  }

  /** Without a `null` in the ready queue, steps 6 and 7 throw exactly on an empty CPU with a
      spent quantum, leaving one `null` at the queue tail, and otherwise leave none. */
  lemma ResolveOk(s: State)
    requires Valid(s) && NoNull(s.readyQueue)
    ensures var ph := Resolve(s);
      && (ph.threw <==> s.currentExecuting.None? && s.quantumRemaining == 0)
      && (ph.threw ==> NullAtTail(ph.st.readyQueue))
      && (!ph.threw ==> NoNull(ph.st.readyQueue))
  {
    var ph := Resolve(s);
    if s.currentExecuting.Some? && s.processes[s.currentExecuting.value].remainingTime == 0 {
      ResolveBurstEnd(s);
    } else {
      ResolveQuantumEnd(s);
      if ph.threw {
        assert ph.st.readyQueue[..|ph.st.readyQueue| - 1] == s.readyQueue;
      }
    }
  }

  /** Without a `null` in the ready queue, steps 5 to 7 and the save that ends the tick throw
      exactly when step 7 meets an empty CPU with a spent quantum; they then leave one `null` at
      the queue tail and otherwise none. */
  lemma ExecuteAndAdvanceOk(m: Sim, s: State)
    requires Valid(s) && NoNull(s.readyQueue)
    ensures var (r, out) := Scheduler.ExecuteAndAdvance(m, s);
      && (out == TypeError <==> s.currentExecuting.None? && s.quantumRemaining == 0)
      && (out == TypeError ==> NullAtTail(r.st.readyQueue))
      && (out != TypeError ==> NoNull(r.st.readyQueue))
  {
    var e := Execute(s);
    ExecuteSpec(s, Idle, true, false);
    assert e.readyQueue == s.readyQueue && e.currentExecuting == s.currentExecuting;
    assert s.currentExecuting.None? ==> e.quantumRemaining == s.quantumRemaining;
    ResolveOk(e);
    var ph := Resolve(e);
    if !ph.threw {
      SaveAfterOk(m, ph.st.(currentTime := ph.st.currentTime + 1), true);
    }
  }

  /** Dispatching a real head never throws and leaves no `null` behind. */
  lemma DispatchOk(s: State)
    requires Valid(s) && |s.readyQueue| > 0 && NoNull(s.readyQueue)
    ensures !Dispatch(s).threw && NoNull(Dispatch(s).st.readyQueue)
  {
    DispatchSpec(s);
    LoadHeadSpec(s, s.currentTime);
    if SwitchDue(s) {
      StartSwitchEffect(s, Idle, true, false);
    }
  }

  /** A tick of a switch in progress never throws on a ready queue without `null`. */
  lemma SwitchTickOk(s: State)
    requires Valid(s) && NoNull(s.readyQueue)
    ensures !SwitchTick(s).threw && NoNull(SwitchTick(s).st.readyQueue)
  {
    SwitchTickSpec(s);
  }

  /** Steps 3 to 7 on a ready queue without `null` either leave none in it without throwing, or
      throw with one `null` at the queue tail. */
  lemma ScheduleOk(m: Sim, s: State)
    requires Valid(s) && NoNull(s.readyQueue)
    ensures var (r, out) := Schedule(m, s);
      && (out == TypeError ==> NullAtTail(r.st.readyQueue))
      && (out != TypeError ==> NoNull(r.st.readyQueue))
  {
    if s.isInContextSwitch {
      SwitchTickOk(s);
      SaveAfterOk(m, SwitchTick(s).st, false);
    } else if s.currentExecuting.None? && |s.readyQueue| > 0 {
      DispatchOk(s);
      ExecuteAndAdvanceOk(m, Dispatch(s).st);
    } else if s.currentExecuting.None? {
      var next := NextEvent(s);
      if next.Some? && next.value > s.currentTime {
        SaveAfterOk(m, IdleSkip(s, next.value), false);
      } else if next.Some? {
        ExecuteAndAdvanceOk(m, s);
      }
    } else {
      ExecuteAndAdvanceOk(m, s);
    }
  }

  /** From a ready queue without `null`, a tick that does not throw leaves none in it, and a tick
      that throws has just pushed one `null` onto the queue tail (the quantum-expiry case of
      step 7); so the tick throws exactly when it leaves a `null` behind. */
  lemma StepOk(m: Sim)
    requires Valid(m.st) && NoNull(m.st.readyQueue)
    ensures var (r, out) := Step(m);
      && (out == TypeError ==> NullAtTail(r.st.readyQueue))
      && (out != TypeError ==> NoNull(r.st.readyQueue))
  {
    if !AllCompleted(m.st.processes) {
      var s2 := FinishIo(Arrive(m.st, false));
      ArriveFinishIoNoNull(m.st);
      ScheduleOk(m.(st := s2), s2);
    }
  }

  // ---------------------------------------------------------------------------------------
  // Runs: a start followed by any presses of Step and Previous

  /** A press of the Step button or of the Previous button. */
  datatype Action = StepPress | PreviousPress

  /** One press and its outcome; Previous never throws and never shows the results. */
  function Apply(m: Sim, a: Action): (r: (Sim, TickOutcome))
    requires Valid(m.st)
    ensures Valid(r.0.st)
  {
    match a
    case StepPress => Step(m)
    case PreviousPress => (PreviousStep(m), Normal(false))
  }

  /** The presses `acts` in order, with the outcome of each. */
  function Run(m: Sim, acts: seq<Action>): (r: (Sim, seq<TickOutcome>))
    requires Valid(m.st)
    ensures Valid(r.0.st) && |r.1| == |acts|
  {
    if acts == [] then (m, [])
    else
      var (m', outs) := Run(m, acts[..|acts| - 1]);
      var (m'', out) := Apply(m', acts[|acts| - 1]);
      (m'', outs + [out])
  }

  /** Going back restores a snapshot, whose ready queue is rebuilt from ids and so holds no
      `null`. */
  lemma PreviousStepNoNull(m: Sim)
    requires NoNull(m.st.readyQueue)
    ensures NoNull(PreviousStep(m).st.readyQueue)
  {
  }

  /** No press threw. */
  predicate NoThrow(outs: seq<TickOutcome>)
  {
    forall i :: 0 <= i < |outs| ==> outs[i] != TypeError
  }

  /** A run from a ready queue without `null` ends with a `null` in it only if some press threw. */
  lemma {:induction false} RunNullOnlyAfterThrow(m: Sim, acts: seq<Action>)
    requires Valid(m.st) && NoNull(m.st.readyQueue)
    ensures NoThrow(Run(m, acts).1) ==> NoNull(Run(m, acts).0.st.readyQueue)
  {
    if acts != [] {
      var front := Run(m, acts[..|acts| - 1]);
      var last := Apply(front.0, acts[|acts| - 1]);
      assert Run(m, acts) == (last.0, front.1 + [last.1]);
      if NoThrow(front.1 + [last.1]) {
        assert NoThrow(front.1) by {
          forall i | 0 <= i < |front.1| ensures front.1[i] != TypeError {
            assert front.1[i] == (front.1 + [last.1])[i];
          }
        }
        assert last.1 == (front.1 + [last.1])[|front.1|];
        RunNullOnlyAfterThrow(m, acts[..|acts| - 1]);
        match acts[|acts| - 1]
        case StepPress => StepOk(front.0);
        case PreviousPress => PreviousStepNoNull(front.0);
      }
    }
  }

  /** A started simulation holds no `null` in its ready queue. */
  lemma StartNoNull(m: Sim, timeQuantum: int, contextSwitchTime: int, inputs: seq<ProcessInput>)
    requires Start(m, timeQuantum, contextSwitchTime, inputs).1.None?
    ensures Valid(Start(m, timeQuantum, contextSwitchTime, inputs).0.st)
    ensures NoNull(Start(m, timeQuantum, contextSwitchTime, inputs).0.st.readyQueue)
  {
    var cfg := Config(m.st.cfg.mode, timeQuantum, contextSwitchTime);
    var p := Prepared(cfg, inputs);
    assert p.readyQueue == [];
    ArriveQueues(p, true);
    var s0 := Initial(cfg, inputs);
    assert NoNull(s0.readyQueue);
    assert Start(m, timeQuantum, contextSwitchTime, inputs).0 == Save(Sim(s0, [], -1)).0;
  }

  /** Once a simulation has started, its ready queue holds a `null` only after a press of Step
      has thrown. */
  lemma StartedRunNullOnlyAfterThrow(m: Sim, timeQuantum: int, contextSwitchTime: int, inputs: seq<ProcessInput>, acts: seq<Action>)
    requires Start(m, timeQuantum, contextSwitchTime, inputs).1.None?
    ensures var m0 := Start(m, timeQuantum, contextSwitchTime, inputs).0;
      && Valid(m0.st)
      && (NoThrow(Run(m0, acts).1) ==> NoNull(Run(m0, acts).0.st.readyQueue))
  {
    StartNoNull(m, timeQuantum, contextSwitchTime, inputs);
    RunNullOnlyAfterThrow(Start(m, timeQuantum, contextSwitchTime, inputs).0, acts);
  }
}
