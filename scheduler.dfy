/** One tick of the simulation (`stepExecution`, script.js:221-400) and the start of a run
    (`startSimulation`, script.js:110-187), over the whole state including the undo history. */
module Scheduler {
  import opened Wrappers
  import opened Timeline
  import opened Process
  import opened Engine
  import opened History

  /** How a tick ended: `Normal(true)` when it showed the results, `Normal(false)` when the run
      goes on, `TypeError` when it threw. */
  type TickOutcome = Outcome<bool>

  /** `saveState()` after a tick's changes; `checkDone` adds the final all-completed test of
      script.js:399. */
  function SaveAfter(m: Sim, s: State, checkDone: bool): (r: (Sim, TickOutcome))
    requires Valid(s)
  {
    var (m', threw) := Save(m.(st := s));
    if threw then (m', TypeError) else (m', Normal(checkDone && AllCompleted(s.processes)))
  }

  /** Steps 5 to 7 and the tick's final clock advance and save (script.js:366-399). */
  function ExecuteAndAdvance(m: Sim, s: State): (r: (Sim, TickOutcome))
    requires Valid(s)
  {
    var ph := Resolve(Execute(s));
    if ph.threw then (m.(st := ph.st), TypeError)
    else SaveAfter(m, ph.st.(currentTime := ph.st.currentTime + 1), true)
  }

  /** Steps 3 to 7 of a tick (script.js:252-399), from the state `s` left by steps 1 and 2. */
  function Schedule(m: Sim, s: State): (r: (Sim, TickOutcome))
    requires Valid(s)
    ensures Valid(r.0.st)
  {
    if s.isInContextSwitch then
      var ph := SwitchTick(s);
      if ph.threw then (m.(st := ph.st), TypeError) else SaveAfter(m, ph.st, false)
    else if s.currentExecuting.None? && |s.readyQueue| > 0 then
      var ph := Dispatch(s);
      if ph.threw then (m.(st := ph.st), TypeError) else ExecuteAndAdvance(m, ph.st)
    else if s.currentExecuting.None? then
      var next := NextEvent(s);
      if next.None? then (m.(st := s), Normal(true))
      else if next.value > s.currentTime then SaveAfter(m, IdleSkip(s, next.value), false)
      else ExecuteAndAdvance(m, s)
    else ExecuteAndAdvance(m, s)
  }

  /** `stepExecution()` (script.js:221-400): nothing happens once every process has
      completed; otherwise arrivals and I/O completions come first. */
  function Step(m: Sim): (r: (Sim, TickOutcome))
    requires Valid(m.st)
    ensures Valid(r.0.st)
  {
    if AllCompleted(m.st.processes) then (m, Normal(true))
    else
      var s2 := FinishIo(Arrive(m.st, false));
      Schedule(m.(st := s2), s2)
  }

  /** The two validation failures of `startSimulation` (script.js:116-121). */
  datatype ConfigError = InvalidInput | InvalidContextSwitchTime

  /** The idle lead-in (script.js:158-166): when the first process arrives after 0, the CPU
      is idle from 0 until then. */
  function LeadIn(s: State): (r: State)
  {
    var first := if |s.processes| > 0 then s.processes[0].arrivalTime else 0;
    if first > 0 then
      s.(gantt := Record(s.gantt, Idle, s.currentTime, true, false, Some(first)),
         cpuIdleTime := s.cpuIdleTime + first, currentTime := first)
    else s
  }

  /** The state a run starts from before the initial arrivals (script.js:123-166): the
      processes built and sorted by arrival, and the CPU idle up to the first arrival. */
  function Prepared(cfg: Config, inputs: seq<ProcessInput>): (r: State)
    ensures Valid(r)
  {
    LeadIn(State(cfg, 0, SortByArrival(Built(cfg.mode, inputs, |inputs|)), [], [], None, 0, [], 0, 0, false, 0, true, None))
  }

  /** The state a run starts from, before its first snapshot (script.js:123-174). */
  function Initial(cfg: Config, inputs: seq<ProcessInput>): (r: State)
    ensures Valid(r)
  {
    Arrive(Prepared(cfg, inputs), true)
  }

  /** `startSimulation()` with the form already parsed: `inputs` holds one entry per process
      column.  The quantum and switch time are stored before they are validated, so a rejected
      start still changes them; otherwise the run starts over with one snapshot. */
  function Start(m: Sim, timeQuantum: int, contextSwitchTime: int, inputs: seq<ProcessInput>): (r: (Sim, Option<ConfigError>))
  {
    var cfg := Config(m.st.cfg.mode, timeQuantum, contextSwitchTime);
    var num := |inputs|;
    if num < 1 || num > 10 || timeQuantum < 1 then (m.(st := m.st.(cfg := cfg)), Some(InvalidInput))
    else if contextSwitchTime < 0 then (m.(st := m.st.(cfg := cfg)), Some(InvalidContextSwitchTime))
    else (Save(Sim(Initial(cfg, inputs), [], -1)).0, None)
  }
}
