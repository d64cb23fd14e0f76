/** The process entity and its construction from the parsed form values (`startSimulation`,
    script.js:130-155). */
module Process {
  import opened Wrappers

  /** The two scheduling modes of the input form. */
  datatype Mode = Single | Multiple

  /** One process record as `startSimulation` builds it.  `id` is the ordinal of the `P<id>`
      label; `completionTime` is `None` until set (the source leaves the property undefined). */
  datatype Proc = Proc(
    id: nat,
    arrivalTime: int,
    bursts: seq<int>,
    ios: seq<int>,
    currentBurstIndex: nat,
    ioEndTime: int,
    remainingTime: int,
    totalBurst: int,
    hasArrived: bool,
    isCompleted: bool,
    responseTime: Option<int>,
    respondedOnce: bool,
    completionTime: Option<int>)

  /** The integers parsed from one column of the input form: the arrival time, the CPU-burst
      fields `burst1..burstN` and the I/O fields `io1..io(N-1)` (a field that failed to parse is
      already 0). */
  datatype ProcessInput = ProcessInput(arrival: int, bursts: seq<int>, ios: seq<int>)

  function Sum(s: seq<int>): int
  {
    if s == [] then 0 else Sum(s[..|s| - 1]) + s[|s| - 1]
  }

  /** `ios[b] || 0`: an absent I/O field reads as 0. */
  function IoAt(ios: seq<int>, b: int): int
  {
    if 0 <= b < |ios| then ios[b] else 0
  }

  /** The burst fields the mode reads: only `burst1` in single mode, all of them otherwise. */
  function RowFor(mode: Mode, row: seq<int>): seq<int>
  {
    if mode == Single && |row| > 1 then row[..1] else row
  }

  /** The bursts kept from the first `n` burst fields: the positive ones, in order. */
  function KeptBursts(row: seq<int>, n: nat): seq<int>
    requires n <= |row|
  {
    if n == 0 then [] else KeptBursts(row, n - 1) + (if row[n - 1] > 0 then [row[n - 1]] else [])
  }

  /** The I/O durations kept from the first `n` burst fields: the field after each kept burst,
      except after the last burst field. */
  function KeptIos(row: seq<int>, ios: seq<int>, n: nat): seq<int>
    requires n <= |row|
  {
    if n == 0 then []
    else KeptIos(row, ios, n - 1) + (if row[n - 1] > 0 && n < |row| then [IoAt(ios, n - 1)] else [])
  }

  /** The positions of the positive fields among the first `n` burst fields, in increasing
      order. */
  function PositiveIndices(row: seq<int>, n: nat): (r: seq<nat>)
    requires n <= |row|
    ensures forall j :: 0 <= j < |r| ==> r[j] < n
  {
    if n == 0 then [] else PositiveIndices(row, n - 1) + (if row[n - 1] > 0 then [n - 1] else [])
  }

  /** Each position is smaller than the next. */
  predicate StrictlyIncreasing(s: seq<nat>)
  {
    forall j, j' :: 0 <= j < j' < |s| ==> s[j] < s[j']
  }

  /** The positions increase. */
  lemma {:induction false} PositiveIndicesIncrease(row: seq<int>, n: nat)
    requires n <= |row|
    ensures StrictlyIncreasing(PositiveIndices(row, n))
  {
    if n > 0 {
      PositiveIndicesIncrease(row, n - 1);
      var prev, idx := PositiveIndices(row, n - 1), PositiveIndices(row, n);
      assert idx == prev + (if row[n - 1] > 0 then [n - 1] else []);
      forall j, j' | 0 <= j < j' < |idx| ensures idx[j] < idx[j'] {
        assert idx[j] == prev[j];
        if j' < |prev| {
          assert idx[j'] == prev[j'] && prev[j] < prev[j'];
        } else {
          assert idx[j'] == n - 1 && prev[j] < n - 1;
        }
      }
    }
  }

  /** The positions are exactly those of the positive fields. */
  lemma {:induction false} PositiveIndicesExact(row: seq<int>, n: nat)
    requires n <= |row|
    ensures forall i :: 0 <= i < n ==> (row[i] > 0 <==> i in PositiveIndices(row, n))
  {
    if n > 0 {
      PositiveIndicesExact(row, n - 1);
      var prev := PositiveIndices(row, n - 1);
      assert PositiveIndices(row, n) == prev + (if row[n - 1] > 0 then [n - 1] else []);
      assert n - 1 !in prev;
    }
  }

  /** Exactly the positive burst fields survive, in their order. */
  lemma {:induction false} KeptBurstsSpec(row: seq<int>, n: nat)
    requires n <= |row|
    ensures forall i :: 0 <= i < |KeptBursts(row, n)| ==> KeptBursts(row, n)[i] > 0
    ensures |KeptBursts(row, n)| <= n
    ensures (forall i :: 0 <= i < n ==> row[i] > 0) ==> KeptBursts(row, n) == row[..n]
    ensures (forall i :: 0 <= i < n ==> row[i] <= 0) ==> KeptBursts(row, n) == []
  {
    if n > 0 {
      KeptBurstsSpec(row, n - 1);
      assert row[..n] == row[..n - 1] + [row[n - 1]];
    }
  }

  /** The `j`-th kept burst is the field at the `j`-th position holding a positive value. */
  lemma {:induction false} KeptBurstsAt(row: seq<int>, n: nat)
    requires n <= |row|
    ensures var idx := PositiveIndices(row, n);
      && |KeptBursts(row, n)| == |idx|
      && (forall j :: 0 <= j < |idx| ==> KeptBursts(row, n)[j] == row[idx[j]])
  {
    if n > 0 {
      KeptBurstsAt(row, n - 1);
      var prev, idx := PositiveIndices(row, n - 1), PositiveIndices(row, n);
      var kb, kb' := KeptBursts(row, n - 1), KeptBursts(row, n);
      forall j | 0 <= j < |idx| ensures kb'[j] == row[idx[j]] {
        if j < |prev| {
          assert kb'[j] == kb[j];
          assert idx[j] == prev[j];
        }
      }
    }
  }

  /** Every kept I/O duration is the field after the burst at the matching position. */
  predicate IosPaired(ki: seq<int>, idx: seq<nat>, ios: seq<int>)
  {
    |ki| <= |idx| && forall j :: 0 <= j < |ki| ==> ki[j] == IoAt(ios, idx[j])
  }

  /** Before the last burst field, every kept burst has its I/O duration. */
  lemma {:induction false} KeptIosBefore(row: seq<int>, ios: seq<int>, n: nat)
    requires n < |row|
    ensures |KeptIos(row, ios, n)| == |PositiveIndices(row, n)|
  {
    if n > 0 {
      KeptIosBefore(row, ios, n - 1);
    }
  }

  /** Every kept burst has an I/O duration except a kept final burst field. */
  lemma {:induction false} KeptIosLength(row: seq<int>, ios: seq<int>, n: nat)
    requires n <= |row|
    ensures var idx := PositiveIndices(row, n);
      |KeptIos(row, ios, n)| == (if |idx| > 0 && idx[|idx| - 1] == |row| - 1 then |idx| - 1 else |idx|)
  {
    if n > 0 {
      KeptIosLength(row, ios, n - 1);
      var prev := PositiveIndices(row, n - 1);
      assert |prev| > 0 ==> prev[|prev| - 1] < n - 1;
    }
  }

  /** The `j`-th kept I/O duration is the field after the `j`-th kept burst. */
  lemma {:induction false} KeptIosAt(row: seq<int>, ios: seq<int>, n: nat)
    requires n <= |row|
    ensures IosPaired(KeptIos(row, ios, n), PositiveIndices(row, n), ios)
  {
    if n > 0 {
      KeptIosAt(row, ios, n - 1);
      KeptIosBefore(row, ios, n - 1);
      PairStep(KeptIos(row, ios, n - 1), PositiveIndices(row, n - 1), ios, n - 1, row[n - 1] > 0, n < |row|);
    }
  }

  lemma PairStep(ki: seq<int>, prev: seq<nat>, ios: seq<int>, b: nat, kept: bool, hasIo: bool)
    requires |ki| == |prev| && IosPaired(ki, prev, ios)
    ensures IosPaired(ki + (if kept && hasIo then [IoAt(ios, b)] else []), prev + (if kept then [b] else []), ios)
  {
    var ki', idx := ki + (if kept && hasIo then [IoAt(ios, b)] else []), prev + (if kept then [b] else []);
    forall j | 0 <= j < |ki'| ensures ki'[j] == IoAt(ios, idx[j]) {
      if j < |ki| {
        assert ki'[j] == ki[j] && idx[j] == prev[j];
      }
    }
  }

  /** Every kept burst but the last has an I/O duration after it, so `ios[currentBurstIndex]`
      is never read past the end before a burst that is not the final one. */
  lemma {:induction false} KeptIosCoverBursts(row: seq<int>, ios: seq<int>, n: nat)
    requires n <= |row|
    ensures |KeptIos(row, ios, n)| + 1 >= |KeptBursts(row, n)|
    ensures n < |row| ==> |KeptIos(row, ios, n)| == |KeptBursts(row, n)|
  {
    if n > 0 {
      KeptIosCoverBursts(row, ios, n - 1);
    }
  }

  /** A sum of positive numbers is positive exactly when there is at least one. */
  lemma {:induction false} SumPositive(s: seq<int>)
    requires forall i :: 0 <= i < |s| ==> s[i] > 0
    ensures s == [] <==> Sum(s) == 0
    ensures Sum(s) >= |s|
  {
    if s != [] {
      SumPositive(s[..|s| - 1]);
    }
  }

  /** One input column becomes a process, or nothing when its total burst is 0
      (script.js:131-152).  Process ids follow the column number. */
  function MakeProc(mode: Mode, i: nat, inp: ProcessInput): Option<Proc>
  {
    var row := RowFor(mode, inp.bursts);
    var bursts := KeptBursts(row, |row|);
    var ios := KeptIos(row, inp.ios, |row|);
    var total := Sum(bursts);
    if total == 0 then None
    else Some(Proc(i + 1, inp.arrival, bursts, ios, 0, -1, bursts[0], total, false, false, None, false, None))
  }

  /** A freshly made process is well formed and waits, unstarted, at its first burst. */
  lemma {:induction false} MakeProcSpec(mode: Mode, i: nat, inp: ProcessInput)
    ensures var r := MakeProc(mode, i, inp);
      r.Some? ==>
        && r.value.id == i + 1 && r.value.arrivalTime == inp.arrival
        && WellFormed(r.value) && r.value.currentBurstIndex == 0
        && r.value.remainingTime == r.value.bursts[0]
        && !r.value.hasArrived && !r.value.isCompleted && !r.value.respondedOnce
        && r.value.responseTime.None? && r.value.completionTime.None?
    ensures var row := RowFor(mode, inp.bursts);
      MakeProc(mode, i, inp).None? <==> forall b :: 0 <= b < |row| ==> row[b] <= 0
  {
    var row := RowFor(mode, inp.bursts);
    var bursts := KeptBursts(row, |row|);
    KeptBurstsSpec(row, |row|);
    SumPositive(bursts);
    KeptIosCoverBursts(row, inp.ios, |row|);
    if forall b :: 0 <= b < |row| ==> row[b] <= 0 {
    } else {
      var b :| 0 <= b < |row| && row[b] > 0;
      KeptBurstsNonEmpty(row, |row|, b);
    }
  }

  lemma {:induction false} KeptBurstsNonEmpty(row: seq<int>, n: nat, b: nat)
    requires b < n <= |row| && row[b] > 0
    ensures KeptBursts(row, n) != []
  {
    if b < n - 1 {
      KeptBurstsNonEmpty(row, n - 1, b);
    }
  }

  /** The shape every process keeps: positive bursts that add up to `totalBurst`, an I/O duration
      after every burst but the last, and a burst cursor that never passes the end. */
  predicate WellFormed(p: Proc)
  {
    && |p.bursts| >= 1
    && (forall i :: 0 <= i < |p.bursts| ==> p.bursts[i] > 0)
    && |p.ios| + 1 >= |p.bursts|
    && p.totalBurst == Sum(p.bursts)
    && p.currentBurstIndex <= |p.bursts|
  }

  /** The processes of the first `n` input columns, in column order (script.js:130-153). */
  function Built(mode: Mode, inputs: seq<ProcessInput>, n: nat): seq<Proc>
    requires n <= |inputs|
  {
    if n == 0 then []
    else
      var p := MakeProc(mode, n - 1, inputs[n - 1]);
      Built(mode, inputs, n - 1) + (if p.Some? then [p.value] else [])
  }

  /** Process `p` could have come from one of the first `n` input columns. */
  predicate Made(p: Proc, n: nat)
  {
    1 <= p.id <= n && WellFormed(p) && Fresh(p)
  }

  /** At most `n` processes, each of which could have come from the first `n` columns. */
  predicate AllMade(ps: seq<Proc>, n: nat)
  {
    |ps| <= n && forall i :: 0 <= i < |ps| ==> Made(ps[i], n)
  }

  /** Built processes are well formed and fresh, with ids in `1..n`. */
  lemma {:induction false} BuiltMade(mode: Mode, inputs: seq<ProcessInput>, n: nat)
    requires n <= |inputs|
    ensures AllMade(Built(mode, inputs, n), n)
  {
    if n > 0 {
      var prev, p := Built(mode, inputs, n - 1), MakeProc(mode, n - 1, inputs[n - 1]);
      BuiltMade(mode, inputs, n - 1);
      MakeProcMade(mode, n - 1, inputs[n - 1]);
      AppendMade(prev, p, n);
      assert Built(mode, inputs, n) == prev + (if p.Some? then [p.value] else []);
    }
  }

  /** A process made from input column `i` could have come from the first `i + 1` columns. */
  lemma MakeProcMade(mode: Mode, i: nat, inp: ProcessInput)
    ensures MakeProc(mode, i, inp).Some? ==> Made(MakeProc(mode, i, inp).value, i + 1)
  {
    MakeProcSpec(mode, i, inp);
  }

  /** Appending a process made from column `n` to processes made from the first `n - 1`. */
  lemma AppendMade(ps: seq<Proc>, p: Option<Proc>, n: nat)
    requires n > 0 && AllMade(ps, n - 1) && (p.Some? ==> Made(p.value, n))
    ensures AllMade(ps + (if p.Some? then [p.value] else []), n)
  {
    var qs := ps + (if p.Some? then [p.value] else []);
    forall i | 0 <= i < |qs| ensures Made(qs[i], n) {
      if i < |ps| { assert qs[i] == ps[i] && Made(ps[i], n - 1); }
    }
  }

  /** Appending a process whose id is above every id keeps ids increasing. */
  lemma AppendIncreasing(ps: seq<Proc>, p: Option<Proc>, n: nat)
    requires IdsIncreasing(ps) && forall i :: 0 <= i < |ps| ==> ps[i].id < n
    requires p.Some? ==> p.value.id == n
    ensures var qs := ps + (if p.Some? then [p.value] else []);
      IdsIncreasing(qs) && forall i :: 0 <= i < |qs| ==> qs[i].id <= n
  {
  }

  /** A process made from input column `i` has id `i + 1`. */
  lemma MakeProcId(mode: Mode, i: nat, inp: ProcessInput)
    ensures MakeProc(mode, i, inp).Some? ==> MakeProc(mode, i, inp).value.id == i + 1
  {
  }

  /** Built processes have ids in increasing order, none above the number of columns. */
  lemma {:induction false} BuiltIncreasing(mode: Mode, inputs: seq<ProcessInput>, n: nat)
    requires n <= |inputs|
    ensures IdsIncreasing(Built(mode, inputs, n))
    ensures forall i :: 0 <= i < |Built(mode, inputs, n)| ==> Built(mode, inputs, n)[i].id <= n
  {
    if n > 0 {
      BuiltIncreasing(mode, inputs, n - 1);
      MakeProcId(mode, n - 1, inputs[n - 1]);
      AppendIncreasing(Built(mode, inputs, n - 1), MakeProc(mode, n - 1, inputs[n - 1]), n);
    }
  }

  /** A process that has not yet arrived, run or finished. */
  predicate Fresh(p: Proc)
  {
    && |p.bursts| > 0 && p.currentBurstIndex == 0 && p.remainingTime == p.bursts[0] && p.ioEndTime == -1
    && !p.hasArrived && !p.isCompleted && !p.respondedOnce
    && p.responseTime.None? && p.completionTime.None?
  }

  /** Every completed process carries its completion time. */
  predicate Stamped(ps: seq<Proc>)
  {
    forall k :: 0 <= k < |ps| && ps[k].isCompleted ==> ps[k].completionTime.Some?
  }

  predicate IdsIncreasing(ps: seq<Proc>)
  {
    forall i, j :: 0 <= i < j < |ps| ==> ps[i].id < ps[j].id
  }

  predicate UniqueIds(ps: seq<Proc>)
  {
    forall i, j :: 0 <= i < |ps| && 0 <= j < |ps| && i != j ==> ps[i].id != ps[j].id
  }

  /** `a` comes before `b` in a stable sort by arrival of processes listed in id order. */
  predicate Before(a: Proc, b: Proc)
  {
    a.arrivalTime < b.arrivalTime || (a.arrivalTime == b.arrivalTime && a.id < b.id)
  }

  predicate SortedByArrival(ps: seq<Proc>)
  {
    forall i, j :: 0 <= i < j < |ps| ==> Before(ps[i], ps[j])
  }

  /** Where a stable insertion puts `p`: after every process that arrives no later. */
  function Position(s: seq<Proc>, p: Proc): (k: nat)
    ensures k <= |s|
  {
    if s == [] || s[|s| - 1].arrivalTime <= p.arrivalTime then |s| else Position(s[..|s| - 1], p)
  }

  lemma {:induction false} PositionSpec(s: seq<Proc>, p: Proc)
    ensures forall i :: Position(s, p) <= i < |s| ==> s[i].arrivalTime > p.arrivalTime
    ensures Position(s, p) > 0 ==> s[Position(s, p) - 1].arrivalTime <= p.arrivalTime
  {
    if !(s == [] || s[|s| - 1].arrivalTime <= p.arrivalTime) {
      PositionSpec(s[..|s| - 1], p);
    }
  }

  function Insert(s: seq<Proc>, p: Proc): seq<Proc>
  {
    var k := Position(s, p);
    s[..k] + [p] + s[k..]
  }

  /** `processes.sort((a, b) => a.arrivalTime - b.arrivalTime)`: the stable sort by arrival time. */
  function SortByArrival(ps: seq<Proc>): seq<Proc>
  {
    if ps == [] then [] else Insert(SortByArrival(ps[..|ps| - 1]), ps[|ps| - 1])
  }

  /** The insertion is `s` with `p` placed at `Position(s, p)`. */
  lemma {:induction false} InsertShape(s: seq<Proc>, p: Proc)
    ensures var k, r := Position(s, p), Insert(s, p);
      && |r| == |s| + 1 && r[k] == p
      && (forall i :: 0 <= i < k ==> r[i] == s[i])
      && (forall i :: k < i < |r| ==> r[i] == s[i - 1])
      && multiset(r) == multiset(s) + multiset{p}
  {
    var k := Position(s, p);
    assert s[..k] + s[k..] == s;
    calc {
      multiset(Insert(s, p));
      multiset(s[..k]) + multiset{p} + multiset(s[k..]);
      multiset(s[..k] + s[k..]) + multiset{p};
    }
  }

  lemma {:induction false} InsertSorted(s: seq<Proc>, p: Proc)
    requires SortedByArrival(s)
    requires forall i :: 0 <= i < |s| ==> s[i].id < p.id
    ensures SortedByArrival(Insert(s, p))
  {
    var k := Position(s, p);
    PositionSpec(s, p);
    InsertShape(s, p);
    var r := Insert(s, p);
    forall i | 0 <= i < k ensures s[i].arrivalTime <= p.arrivalTime {
      if i < k - 1 { assert Before(s[i], s[k - 1]); }
    }
    forall i, j | 0 <= i < j < |r| ensures Before(r[i], r[j]) {
      if j < k { assert Before(s[i], s[j]); }
      else if j == k { assert r[i] == s[i]; }
      else if i < k { assert Before(s[i], s[j - 1]); }
      else if i == k { assert r[j] == s[j - 1]; }
      else { assert Before(s[i - 1], s[j - 1]); }
    }
  }

  lemma {:induction false} InsertUnique(s: seq<Proc>, p: Proc)
    requires UniqueIds(s)
    requires forall i :: 0 <= i < |s| ==> s[i].id < p.id
    ensures UniqueIds(Insert(s, p))
  {
    var k := Position(s, p);
    InsertShape(s, p);
    var r := Insert(s, p);
    forall i, j | 0 <= i < |r| && 0 <= j < |r| && i != j ensures r[i].id != r[j].id {
      var i' := if i < k then i else i - 1;
      var j' := if j < k then j else j - 1;
      if i != k && j != k { assert r[i] == s[i'] && r[j] == s[j']; }
      else if i == k { assert r[j] == s[j']; }
      else { assert r[i] == s[i']; }
    }
  }

  /** A permutation keeps every bound that holds for each element. */
  lemma IdsBelowPermuted(r: seq<Proc>, s: seq<Proc>, bound: nat)
    requires multiset(r) == multiset(s)
    requires forall j :: 0 <= j < |s| ==> s[j].id < bound
    ensures forall i :: 0 <= i < |r| ==> r[i].id < bound
  {
    forall i | 0 <= i < |r| ensures r[i].id < bound {
      assert r[i] in multiset(s);
      var j :| 0 <= j < |s| && s[j] == r[i];
    }
  }

  /** The sort is a permutation of its input. */
  lemma {:induction false} SortByArrivalPermutes(ps: seq<Proc>)
    ensures multiset(SortByArrival(ps)) == multiset(ps) && |SortByArrival(ps)| == |ps|
  {
    if ps != [] {
      var init, p := ps[..|ps| - 1], ps[|ps| - 1];
      SortByArrivalPermutes(init);
      InsertShape(SortByArrival(init), p);
      assert init + [p] == ps;
    }
  }

  /** Sorting fresh processes gives fresh processes. */
  lemma SortKeepsFresh(ps: seq<Proc>)
    requires forall j :: 0 <= j < |ps| ==> Fresh(ps[j])
    ensures forall i :: 0 <= i < |SortByArrival(ps)| ==> Fresh(SortByArrival(ps)[i])
  {
    var r := SortByArrival(ps);
    SortByArrivalPermutes(ps);
    forall i | 0 <= i < |r| ensures Fresh(r[i]) {
      assert r[i] in multiset(ps);
      var j :| 0 <= j < |ps| && ps[j] == r[i];
    }
  }

  /** Sorting keeps every process below an id bound. */
  lemma SortIdsBelow(init: seq<Proc>, bound: nat)
    requires forall j :: 0 <= j < |init| ==> init[j].id < bound
    ensures forall i :: 0 <= i < |SortByArrival(init)| ==> SortByArrival(init)[i].id < bound
  {
    SortByArrivalPermutes(init);
    IdsBelowPermuted(SortByArrival(init), init, bound);
  }

  /** The sort orders processes by arrival time and, when the input is in id order, breaks
      ties by ascending id. */
  lemma {:induction false} SortByArrivalSorts(ps: seq<Proc>)
    requires IdsIncreasing(ps)
    ensures SortedByArrival(SortByArrival(ps))
  {
    if ps != [] {
      var init := ps[..|ps| - 1];
      assert IdsIncreasing(init);
      SortByArrivalSorts(init);
      assert forall j :: 0 <= j < |init| ==> init[j] == ps[j];
      SortIdsBelow(init, ps[|ps| - 1].id);
      InsertSorted(SortByArrival(init), ps[|ps| - 1]);
    }
  }

  /** The sort keeps ids unique. */
  lemma {:induction false} SortByArrivalUnique(ps: seq<Proc>)
    requires IdsIncreasing(ps)
    ensures UniqueIds(SortByArrival(ps))
  {
    if ps != [] {
      var init := ps[..|ps| - 1];
      assert IdsIncreasing(init);
      SortByArrivalUnique(init);
      assert forall j :: 0 <= j < |init| ==> init[j] == ps[j];
      SortIdsBelow(init, ps[|ps| - 1].id);
      InsertUnique(SortByArrival(init), ps[|ps| - 1]);
    }
  }

  /** Sorted processes arrive in non-decreasing order. */
  lemma SortedArrivals(ps: seq<Proc>)
    requires SortedByArrival(ps)
    ensures forall i, j :: 0 <= i < j < |ps| ==> ps[i].arrivalTime <= ps[j].arrivalTime
  {
    forall i, j | 0 <= i < j < |ps| ensures ps[i].arrivalTime <= ps[j].arrivalTime {
      assert Before(ps[i], ps[j]);
    }
  }
}
