/** The timeline (Gantt chart) recorder: `addToGantt` in script.js. */
module Timeline {
  import opened Wrappers

  /** What occupies the CPU during a segment: the `'IDLE'` label, the `'CS'` label or a process id. */
  datatype Label = Idle | ContextSwitch | Process(id: nat)

  /** A half-open interval `[start, end)` of the chart. */
  datatype Segment = Segment(id: Label, start: int, end: int, isIdle: bool, isContextSwitch: bool)

  /** The end tick `addToGantt` uses: the explicit end if one is given, else one tick later. */
  function EndOf(time: int, explicitEnd: Option<int>): int
  {
    if explicitEnd.Some? then explicitEnd.value else time + 1
  }

  /** Segment `s` has the occupant and the two kind flags of a record. */
  predicate SameKind(s: Segment, id: Label, isIdle: bool, isCS: bool)
  {
    s.id == id && s.isIdle == isIdle && s.isContextSwitch == isCS
  }

  /** The last segment of `g` is stretched, rather than followed, by a record starting at `start`. */
  predicate Mergeable(g: seq<Segment>, id: Label, isIdle: bool, isCS: bool, start: int)
  {
    |g| > 0 && SameKind(g[|g| - 1], id, isIdle, isCS) && g[|g| - 1].end == start
  }

  /** `addToGantt(id, time, isIdle, isCS, explicitEnd)`: the chart after recording `[time, end)`. */
  function Record(g: seq<Segment>, id: Label, time: int, isIdle: bool, isCS: bool, explicitEnd: Option<int>): seq<Segment>
  {
    var end := EndOf(time, explicitEnd);
    if Mergeable(g, id, isIdle, isCS, time) then
      g[..|g| - 1] + [g[|g| - 1].(end := end)]
    else
      g + [Segment(id, time, end, isIdle, isCS)]
  }

  /** The merge rule: the last segment is extended exactly when it has the same occupant and kind
      and ends where the new interval starts; otherwise exactly one segment `[time, end)` is
      appended.  No earlier segment changes. */
  lemma RecordMergeRule(g: seq<Segment>, id: Label, time: int, isIdle: bool, isCS: bool, explicitEnd: Option<int>)
    ensures var r := Record(g, id, time, isIdle, isCS, explicitEnd);
      && (|r| == |g| <==> Mergeable(g, id, isIdle, isCS, time))
      && (!Mergeable(g, id, isIdle, isCS, time) ==> |r| == |g| + 1)
      && (forall i :: 0 <= i < |g| - 1 ==> r[i] == g[i])
      && (!Mergeable(g, id, isIdle, isCS, time) ==> r[..|g|] == g)
      && SameKind(r[|r| - 1], id, isIdle, isCS)
      && r[|r| - 1].end == EndOf(time, explicitEnd)
      && r[|r| - 1].start == (if Mergeable(g, id, isIdle, isCS, time) then g[|g| - 1].start else time)
  {
  }

  /** Recording the ticks `t, t+1, ...` one at a time grows one segment: recording tick `t` right
      after an interval that ends at `t` gives the same chart as recording the longer interval. */
  lemma RecordRun(g: seq<Segment>, id: Label, start: int, t: int, isIdle: bool, isCS: bool)
    ensures Record(Record(g, id, start, isIdle, isCS, Some(t)), id, t, isIdle, isCS, None)
         == Record(g, id, start, isIdle, isCS, Some(t + 1))
  {
    var r := Record(g, id, start, isIdle, isCS, Some(t));
    assert Mergeable(r, id, isIdle, isCS, t);
  }

  /** Total length of the segments of one occupant and kind. */
  function Span(g: seq<Segment>, id: Label, isIdle: bool, isCS: bool): int
  {
    if g == [] then 0
    else
      var last := g[|g| - 1];
      Span(g[..|g| - 1], id, isIdle, isCS) + (if SameKind(last, id, isIdle, isCS) then last.end - last.start else 0)
  }

  /** Whether it merges or appends, a record adds exactly `end - time` ticks to its own kind's span
      and nothing to any other's. */
  lemma {:induction false} RecordSpan(g: seq<Segment>, id: Label, time: int, isIdle: bool, isCS: bool, explicitEnd: Option<int>,
                                      id': Label, isIdle': bool, isCS': bool)
    ensures Span(Record(g, id, time, isIdle, isCS, explicitEnd), id', isIdle', isCS')
         == Span(g, id', isIdle', isCS')
            + (if id == id' && isIdle == isIdle' && isCS == isCS' then EndOf(time, explicitEnd) - time else 0)
  {
    var r := Record(g, id, time, isIdle, isCS, explicitEnd);
    if Mergeable(g, id, isIdle, isCS, time) {
      assert r[..|r| - 1] == g[..|g| - 1];
    } else {
      assert r[..|r| - 1] == g;
    }
  }

  /** No two neighbouring segments could have been merged. */
  predicate Merged(g: seq<Segment>)
  {
    forall i :: 0 < i < |g| ==> !Mergeable(g[..i], g[i].id, g[i].isIdle, g[i].isContextSwitch, g[i].start)
  }

  /** Recording keeps the chart run-length merged. */
  lemma RecordKeepsMerged(g: seq<Segment>, id: Label, time: int, isIdle: bool, isCS: bool, explicitEnd: Option<int>)
    requires Merged(g)
    ensures Merged(Record(g, id, time, isIdle, isCS, explicitEnd))
  {
    var r := Record(g, id, time, isIdle, isCS, explicitEnd);
    forall i | 0 < i < |r|
      ensures !Mergeable(r[..i], r[i].id, r[i].isIdle, r[i].isContextSwitch, r[i].start)
    {
      if i < |g| {
        // every segment keeps its start and kind, and the ones before it are untouched
        assert r[..i] == g[..i];
        assert r[i].start == g[i].start && SameKind(r[i], g[i].id, g[i].isIdle, g[i].isContextSwitch);
      } else {
        assert r[..i] == g;
      }
    }
  }

  /** Every segment is a well-formed interval and the segments follow each other without overlap. */
  predicate Chronological(g: seq<Segment>)
  {
    && (forall i :: 0 <= i < |g| ==> g[i].start <= g[i].end)
    && (forall i :: 0 < i < |g| ==> g[i - 1].end <= g[i].start)
  }

  /** The chart ends by time `t`: its last segment, if any, ends no later. */
  predicate EndsBy(g: seq<Segment>, t: int)
  {
    |g| > 0 ==> g[|g| - 1].end <= t
  }

  /** Recording an interval that starts no earlier than the chart ends keeps it chronological. */
  lemma RecordKeepsChronological(g: seq<Segment>, id: Label, time: int, isIdle: bool, isCS: bool, explicitEnd: Option<int>)
    requires Chronological(g)
    requires |g| > 0 ==> g[|g| - 1].end <= time
    requires time <= EndOf(time, explicitEnd)
    ensures Chronological(Record(g, id, time, isIdle, isCS, explicitEnd))
    ensures var r := Record(g, id, time, isIdle, isCS, explicitEnd); r[|r| - 1].end == EndOf(time, explicitEnd)
  {
  }
}
