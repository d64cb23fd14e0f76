/** Undo history: `saveState`, `restoreState` and `previousStep` (script.js:27-61, 452-458).
    A snapshot is an immutable value; its queues hold process ids, as the source's do. */
module History {
  import opened Wrappers
  import opened Timeline
  import opened Process
  import opened Engine

  /** The `state` object of `saveState`, without the execution trace. */
  datatype Snapshot = Snapshot(
    currentTime: int,
    processes: seq<Proc>,
    readyIds: seq<nat>,
    ioIds: seq<nat>,
    executingId: Option<nat>,
    quantumRemaining: int,
    gantt: seq<Segment>,
    contextSwitches: int,
    cpuIdleTime: int,
    isInContextSwitch: bool,
    contextSwitchEndTime: int,
    cpuWasIdle: bool,
    lastExecuted: Option<nat>)

  /** The live state together with `history` and `historyIndex`. */
  datatype Sim = Sim(st: State, history: seq<Snapshot>, historyIndex: int)

  /** `readyQueue.map(p => p.id)`: `None` when a `null` entry makes the map throw. */
  function ReadyIds(ps: seq<Proc>, q: seq<Option<nat>>): (r: Option<seq<nat>>)
    requires RefsBelow(q, |ps|)
    ensures r.Some? <==> forall i :: 0 <= i < |q| ==> q[i].Some?
    ensures r.Some? ==> |r.value| == |q| && forall i :: 0 <= i < |q| ==> r.value[i] == ps[q[i].value].id
  {
    if q == [] then Some([])
    else
      var init := ReadyIds(ps, q[..|q| - 1]);
      var last := q[|q| - 1];
      if init.None? || last.None? then None else Some(init.value + [ps[last.value].id])
  }

  /** `ioQueue.map(p => p.id)`. */
  function IoIds(ps: seq<Proc>, q: seq<nat>): (r: seq<nat>)
    requires forall i :: 0 <= i < |q| ==> q[i] < |ps|
    ensures |r| == |q| && forall i :: 0 <= i < |q| ==> r[i] == ps[q[i]].id
  {
    seq(|q|, i requires 0 <= i < |q| => ps[q[i]].id)
  }

  /** The snapshot `saveState` builds (script.js:28-36); `None` when building it throws. */
  function Capture(s: State): Option<Snapshot>
    requires Valid(s)
  {
    var ready := ReadyIds(s.processes, s.readyQueue);
    if ready.None? then None
    else Some(Snapshot(
      s.currentTime, s.processes, ready.value, IoIds(s.processes, s.ioQueue),
      if s.currentExecuting.Some? then Some(s.processes[s.currentExecuting.value].id) else None,
      s.quantumRemaining, s.gantt, s.contextSwitches, s.cpuIdleTime,
      s.isInContextSwitch, s.contextSwitchEndTime, s.cpuWasIdle, s.lastExecuted))
  }

  /** `Array.prototype.slice(0, end)`: a negative end counts back from the length. */
  function SliceTo<T>(h: seq<T>, end: int): (r: seq<T>)
    ensures 0 <= end <= |h| ==> r == h[..end]
  {
    var e := if end < 0 then |h| + end else end;
    if e <= 0 then [] else if e >= |h| then h else h[..e]
  }

  /** `saveState` (script.js:27-39): drop every entry after the cursor, push the snapshot and
      advance the cursor; the result says whether building the snapshot threw. */
  function Save(m: Sim): (r: (Sim, bool))
    requires Valid(m.st)
  {
    var snap := Capture(m.st);
    if snap.None? then (m, true)
    else (Sim(m.st, SliceTo(m.history, m.historyIndex + 1) + [snap.value], m.historyIndex + 1), false)
  }

  /** `processes.find(p => p.id === id)`, as an index. */
  function Find(ps: seq<Proc>, id: nat): (r: Option<nat>)
    ensures r.Some? ==> r.value < |ps| && ps[r.value].id == id && forall j :: 0 <= j < r.value ==> ps[j].id != id
    ensures r.None? ==> forall j :: 0 <= j < |ps| ==> ps[j].id != id
  {
    if ps == [] then None
    else if ps[0].id == id then Some(0)
    else
      var r := Find(ps[1..], id);
      if r.Some? then Some(r.value + 1) else None
  }

  /** `ids.map(find).filter(Boolean)`: the ids that name a process, resolved in order. */
  function FindAll(ps: seq<Proc>, ids: seq<nat>): (r: seq<nat>)
    ensures forall i :: 0 <= i < |r| ==> r[i] < |ps|
  {
    if ids == [] then []
    else
      var f := Find(ps, ids[|ids| - 1]);
      FindAll(ps, ids[..|ids| - 1]) + (if f.Some? then [f.value] else [])
  }

  /** `restoreState(state)` (script.js:43-59): the live state rebuilt from the snapshot, with
      queue entries re-resolved by id against the snapshot's own processes.  The executing id is
      tested for truthiness, so an id of 0 would read as `null`.  The configuration is not part
      of a snapshot and stays as it is. */
  function Restore(snap: Snapshot, cfg: Config): (r: State)
    ensures Valid(r)
  {
    var ps := snap.processes;
    var exec := if snap.executingId.Some? && snap.executingId.value != 0 then Find(ps, snap.executingId.value) else None;
    var ready := Somes(FindAll(ps, snap.readyIds));
    assert RefsBelow(ready, |ps|);
    State(cfg, snap.currentTime, ps, ready, FindAll(ps, snap.ioIds), exec,
          snap.quantumRemaining, snap.gantt, snap.contextSwitches, snap.cpuIdleTime,
          snap.isInContextSwitch, snap.contextSwitchEndTime, snap.cpuWasIdle, snap.lastExecuted)
  }

  /** `previousStep` (script.js:452-458), without the playback toggle: a no-op at the first
      snapshot, otherwise one step back.  `restoreState(undefined)` returns at once. */
  function PreviousStep(m: Sim): (r: Sim)
  {
    if m.historyIndex > 0 then
      var i := m.historyIndex - 1;
      if i < |m.history| then Sim(Restore(m.history[i], m.st.cfg), m.history, i)
      else m.(historyIndex := i)
    else m
  }
}
