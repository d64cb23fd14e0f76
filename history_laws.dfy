/** What the undo history promises: `saveState` appends a snapshot at the cursor, `previousStep`
    moves the cursor back, and restoring a snapshot of a state gives that state back. */
module HistoryLaws {
  import opened Wrappers
  import opened Timeline
  import opened Process
  import opened Engine
  import opened History

  /** The cursor points at a snapshot, or before the first one (`-1`, before any save). */
  predicate CursorOk(m: Sim)
  {
    -1 <= m.historyIndex < |m.history|
  }

  /** `saveState` throws exactly when the ready queue holds a `null`, and then leaves everything
      as it was.  Otherwise it drops the snapshots after the cursor, appends a snapshot of the
      live state and moves the cursor onto it, leaving the live state alone. */
  lemma SaveSpec(m: Sim)
    requires Valid(m.st) && CursorOk(m)
    ensures var (r, threw) := Save(m); var i := m.historyIndex;
      && (threw <==> exists k :: 0 <= k < |m.st.readyQueue| && m.st.readyQueue[k].None?)
      && (threw ==> r == m)
      && (!threw ==>
            && r.st == m.st && r.historyIndex == i + 1 && |r.history| == i + 2
            && r.history[..i + 1] == m.history[..i + 1]
            && Capture(m.st) == Some(r.history[i + 1]))
      && CursorOk(r)
  {
  }

  /** `previousStep` keeps every snapshot and a valid cursor: at the first snapshot it does
      nothing, otherwise the cursor moves back one and the live state becomes the snapshot it
      now points at. */
  lemma PreviousStepSpec(m: Sim)
    requires CursorOk(m)
    ensures var r := PreviousStep(m);
      && r.history == m.history && CursorOk(r)
      && (m.historyIndex <= 0 ==> r == m)
      && (m.historyIndex > 0 ==>
            r.historyIndex == m.historyIndex - 1 && r.st == Restore(m.history[m.historyIndex - 1], m.st.cfg))
  {
  }

  /** With distinct ids, looking up the id of process `k` finds `k`. */
  lemma FindUnique(ps: seq<Proc>, k: nat)
    requires UniqueIds(ps) && k < |ps|
    ensures Find(ps, ps[k].id) == Some(k)
  {
  }

  /** With distinct ids, resolving the ids of the processes `q` gives back `q`. */
  lemma {:induction false} FindAllIds(ps: seq<Proc>, ids: seq<nat>, q: seq<nat>)
    requires UniqueIds(ps)
    requires |ids| == |q| && forall i :: 0 <= i < |q| ==> q[i] < |ps| && ids[i] == ps[q[i]].id
    ensures FindAll(ps, ids) == q
  {
    if ids != [] {
      FindAllIds(ps, ids[..|ids| - 1], q[..|q| - 1]);
      FindUnique(ps, q[|q| - 1]);
      assert q == q[..|q| - 1] + [q[|q| - 1]];
    }
  }

  /** The indices held by a ready queue without `null` entries. */
  function Indices(q: seq<Option<nat>>): (r: seq<nat>)
    requires forall i :: 0 <= i < |q| ==> q[i].Some?
    ensures |r| == |q| && forall i :: 0 <= i < |q| ==> Some(r[i]) == q[i]
  {
    seq(|q|, i requires 0 <= i < |q| => q[i].value)
  }

  /** Resolving the ready ids a snapshot holds gives back a ready queue without `null`s. */
  lemma ReadyRoundTrip(ps: seq<Proc>, q: seq<Option<nat>>)
    requires RefsBelow(q, |ps|) && UniqueIds(ps)
    requires forall i :: 0 <= i < |q| ==> q[i].Some?
    ensures ReadyIds(ps, q).Some? && Somes(FindAll(ps, ReadyIds(ps, q).value)) == q
  {
    var ready := Indices(q);
    FindAllIds(ps, ReadyIds(ps, q).value, ready);
    assert Somes(ready) == q;
  }

  /** Resolving the executing id a snapshot holds gives back the process on the CPU. */
  lemma ExecutingRoundTrip(ps: seq<Proc>, e: Option<nat>)
    requires UniqueIds(ps) && (e.Some? ==> e.value < |ps|)
    requires forall k :: 0 <= k < |ps| ==> ps[k].id != 0
    ensures var id := if e.Some? then Some(ps[e.value].id) else None;
      (if id.Some? && id.value != 0 then Find(ps, id.value) else None) == e
  {
    if e.Some? {
      FindUnique(ps, e.value);
    }
  }

  /** Restoring the snapshot `saveState` takes of a state gives that state back, when the
      processes have distinct non-zero ids and the ready queue holds no `null` (so the
      snapshot could be taken). */
  lemma RestoreCapture(s: State)
    requires Valid(s) && UniqueIds(s.processes)
    requires forall k :: 0 <= k < |s.processes| ==> s.processes[k].id != 0
    requires forall i :: 0 <= i < |s.readyQueue| ==> s.readyQueue[i].Some?
    ensures Capture(s).Some? && Restore(Capture(s).value, s.cfg) == s
  {
    var ps := s.processes;
    ReadyRoundTrip(ps, s.readyQueue);
    var snap := Capture(s).value;
    assert Somes(FindAll(ps, snap.readyIds)) == s.readyQueue;
    FindAllIds(ps, snap.ioIds, s.ioQueue);
    ExecutingRoundTrip(ps, s.currentExecuting);
  }
}
