// Planning a distributed query and merging what each tablet computed
// (crates/tallyowl-cluster/src/query.rs).

module Queries {
  import opened Common
  import opened Orders

  datatype Basis = OccurredAt | ReceivedAt | CommittedAt

  datatype Consistency = Committed | BoundedStale(maxStalenessMs: int)

  /** What one tablet computes for a query. */
  datatype PartialKind =
    | Count
    | Trend(bucketMs: int)
    | Rows(maxRows: nat)
    | Lookup(column: string, value: seq<nat>)
    | Aggregate(plan: seq<nat>)

  predicate MovesRows(kind: PartialKind) { kind.Rows? || kind.Lookup? }

  datatype TabletState = Active | Splitting | Merging | Moving | Draining | Retired

  datatype Member = Member(node: string, address: string)

  datatype Tablet = Tablet(name: string, state: TabletState, members: seq<Member>)

  /** The tablets of a cell, in the order of the sorted map that holds them. */
  datatype Topology = Topology(generation: nat, tablets: seq<Tablet>) {
    ghost predicate Valid() {
      forall i, j :: 0 <= i < j < |tablets| ==> Less(tablets[i].name, tablets[j].name)
    }
  }

  datatype Plan = Plan(
    project: nat, rangeStart: int, rangeEnd: int, basis: Basis, kind: PartialKind, eventName: Option<string>,
    consistency: Consistency, requireWatermark: U64, allowPartial: bool, tablets: seq<string>, generation: nat)

  datatype Planned = Ready(plan: Plan) | OverFanOut(needs: nat, limit: nat)

  // Planning

  /** The names of the tablets that still answer reads. */
  function ReadableNames(tablets: seq<Tablet>): (names: seq<string>) {
    if tablets == [] then []
    else
      var before, last := ReadableNames(tablets[..|tablets| - 1]), tablets[|tablets| - 1];
      if last.state == Retired then before else before + [last.name]
  }

  function MakePlan(topology: Topology, project: nat, rangeStart: int, rangeEnd: int, basis: Basis, kind: PartialKind,
                    eventName: Option<string>, consistency: Consistency, allowPartial: bool, maxFanOut: nat): Planned
  {
    var tablets := ReadableNames(topology.tablets);
    if |tablets| > maxFanOut then OverFanOut(|tablets|, maxFanOut)
    else Ready(Plan(project, rangeStart, rangeEnd, basis, kind, eventName, consistency, 0, allowPartial, tablets,
                    topology.generation))
  }

  ghost function ReadableSet(tablets: seq<Tablet>): set<string> {
    set tablet | tablet in tablets && tablet.state != Retired :: tablet.name
  }

  lemma {:induction false} ReadableNamesAscend(tablets: seq<Tablet>)
    requires forall i, j :: 0 <= i < j < |tablets| ==> Less(tablets[i].name, tablets[j].name)
    ensures Ascending(ReadableNames(tablets))
    ensures forall name :: name in ReadableNames(tablets) <==> name in ReadableSet(tablets)
  {
    if tablets != [] {
      var before, last := tablets[..|tablets| - 1], tablets[|tablets| - 1];
      ReadableNamesAscend(before);
      assert tablets == before + [last];
      forall name | name in ReadableNames(before) ensures Less(name, last.name) {
        var tablet :| tablet in before && tablet.name == name;
      }
      ReadableSetNext(before, last);
    }
  }

  lemma ReadableSetNext(before: seq<Tablet>, last: Tablet)
    ensures ReadableSet(before + [last]) == ReadableSet(before) + (if last.state == Retired then {} else {last.name})
  {
    forall name | name in ReadableSet(before) ensures name in ReadableSet(before + [last]) {
      var tablet :| tablet in before && tablet.name == name && tablet.state != Retired;
      assert tablet in before + [last];
    }
    assert last in before + [last];
  }

  /** A plan asks each tablet that is not retired exactly once, a draining one too,
      and is refused exactly when there are more of them than the fan-out permits. */
  lemma PlanAsksEveryReadableTablet(
      topology: Topology, project: nat, rangeStart: int, rangeEnd: int, basis: Basis, kind: PartialKind,
      eventName: Option<string>, consistency: Consistency, allowPartial: bool, maxFanOut: nat)
    requires topology.Valid()
    ensures var planned := MakePlan(topology, project, rangeStart, rangeEnd, basis, kind, eventName, consistency,
                                    allowPartial, maxFanOut);
            var readable := ReadableSet(topology.tablets);
            && (planned.OverFanOut? <==> |readable| > maxFanOut)
            && (planned.OverFanOut? ==> planned.needs == |readable| && planned.limit == maxFanOut)
            && (planned.Ready? ==>
                  && Ascending(planned.plan.tablets) && |planned.plan.tablets| == |readable| <= maxFanOut
                  && forall name :: name in planned.plan.tablets <==> name in readable)
  {
    hide ReadableNames, ReadableSet, Ascending;
    ReadableNamesAscend(topology.tablets);
    AscendingUnique(ReadableNames(topology.tablets), Sorted(ReadableSet(topology.tablets)));
  }

  // What a tablet answers

  datatype MissingRange = MissingRange(tablet: string, rangeStart: int, rangeEnd: int)

  datatype EventRow = EventRow(id: nat, at: int)

  datatype Partial = Partial(
    tablet: string, commitWatermark: U64, freshnessMs: int, complete: bool, missing: seq<MissingRange>,
    count: nat, buckets: map<int, nat>, rows: seq<EventRow>, aggregateState: Option<seq<nat>>,
    scannedSegments: nat, scannedBytes: nat, degraded: bool)

  /** The part of a tablet without a reply: empty, incomplete, its whole range missing. */
  function Unavailable(tablet: string, rangeStart: int, rangeEnd: int): Partial {
    Partial(tablet, 0, 0, false, [MissingRange(tablet, rangeStart, rangeEnd)], 0, map[], [], None, 0, 0, false)
  }

  datatype Warning =
    | SentRows(tablet: string, kind: PartialKind)
    | HoldsDegradedRange(tablet: string)
    | PartialAnswer(missing: nat, asked: nat)

  datatype Merged = Merged(
    count: nat, buckets: seq<(int, nat)>, rows: seq<EventRow>, aggregateStates: seq<seq<nat>>,
    commitWatermark: U64, freshnessMs: int, complete: bool, missing: seq<MissingRange>,
    scannedSegments: nat, scannedBytes: nat, degraded: bool, warnings: seq<Warning>)

  datatype MergeResult = Answer(merged: Merged) | IncompleteResult(missing: seq<string>)

  // What the merge of some parts is

  function TotalCount(parts: seq<Partial>): nat {
    if parts == [] then 0 else TotalCount(parts[..|parts| - 1]) + parts[|parts| - 1].count
  }

  function InBucket(buckets: map<int, nat>, start: int): nat {
    if start in buckets then buckets[start] else 0
  }

  function BucketTotal(parts: seq<Partial>, start: int): nat {
    if parts == [] then 0
    else BucketTotal(parts[..|parts| - 1], start) + InBucket(parts[|parts| - 1].buckets, start)
  }

  function RowsOf(parts: seq<Partial>): seq<EventRow> {
    if parts == [] then [] else RowsOf(parts[..|parts| - 1]) + parts[|parts| - 1].rows
  }

  function StatesOf(parts: seq<Partial>): seq<seq<nat>> {
    if parts == [] then []
    else
      var before, state := StatesOf(parts[..|parts| - 1]), parts[|parts| - 1].aggregateState;
      if state.Some? then before + [state.value] else before
  }

  function MissingOf(parts: seq<Partial>): seq<MissingRange> {
    if parts == [] then [] else MissingOf(parts[..|parts| - 1]) + parts[|parts| - 1].missing
  }

  function ScannedSegments(parts: seq<Partial>): nat {
    if parts == [] then 0 else ScannedSegments(parts[..|parts| - 1]) + parts[|parts| - 1].scannedSegments
  }

  function ScannedBytes(parts: seq<Partial>): nat {
    if parts == [] then 0 else ScannedBytes(parts[..|parts| - 1]) + parts[|parts| - 1].scannedBytes
  }

  function WarningsOf(parts: seq<Partial>, kind: PartialKind): seq<Warning> {
    if parts == [] then []
    else
      var part := parts[|parts| - 1];
      WarningsOf(parts[..|parts| - 1], kind)
      + (if !MovesRows(kind) && part.rows != [] then [SentRows(part.tablet, kind)] else [])
      + (if part.degraded then [HoldsDegradedRange(part.tablet)] else [])
  }

  predicate Answered(parts: seq<Partial>, tablet: string) {
    exists part :: part in parts && part.tablet == tablet
  }

  /** The planned tablets no part answers for. */
  function NeverArrived(tablets: seq<string>, parts: seq<Partial>): seq<string> {
    if tablets == [] then []
    else
      var before, last := NeverArrived(tablets[..|tablets| - 1], parts), tablets[|tablets| - 1];
      if Answered(parts, last) then before else before + [last]
  }

  function MissingRanges(plan: Plan, tablets: seq<string>): seq<MissingRange> {
    if tablets == [] then []
    else MissingRanges(plan, tablets[..|tablets| - 1])
         + [MissingRange(tablets[|tablets| - 1], plan.rangeStart, plan.rangeEnd)]
  }

  /** The watermark of a merge: the smallest of its parts, and zero for no parts. */
  ghost predicate IsLeastWatermark(parts: seq<Partial>, watermark: nat) {
    && (forall part :: part in parts ==> watermark <= part.commitWatermark)
    && (if parts == [] then watermark == 0 else exists part :: part in parts && part.commitWatermark == watermark)
  }

  ghost predicate IsMostStale(parts: seq<Partial>, freshnessMs: int) {
    && 0 <= freshnessMs
    && (forall part :: part in parts ==> part.freshnessMs <= freshnessMs)
    && (freshnessMs == 0 || exists part :: part in parts && part.freshnessMs == freshnessMs)
  }

  ghost predicate AllComplete(parts: seq<Partial>) {
    forall part :: part in parts ==> part.complete
  }

  ghost predicate AnyDegraded(parts: seq<Partial>) {
    exists part :: part in parts && part.degraded
  }

  ghost predicate Ascends(buckets: seq<(int, nat)>) {
    forall i, j :: 0 <= i < j < |buckets| ==> buckets[i].0 < buckets[j].0
  }

  ghost predicate Lists(buckets: seq<(int, nat)>, start: int) {
    exists i :: 0 <= i < |buckets| && buckets[i].0 == start
  }

  ghost predicate Reports(parts: seq<Partial>, start: int) {
    exists part :: part in parts && start in part.buckets
  }

  /** The list of buckets says of every start what the parts together say of it. */
  ghost predicate ListsBuckets(buckets: seq<(int, nat)>, parts: seq<Partial>) {
    && Ascends(buckets)
    && (forall i :: 0 <= i < |buckets| ==> buckets[i].1 == BucketTotal(parts, buckets[i].0))
    && (forall start :: Lists(buckets, start) <==> Reports(parts, start))
  }

  function Truncated(rows: seq<EventRow>, kind: PartialKind): seq<EventRow> {
    if kind.Rows? && kind.maxRows < |rows| then rows[..kind.maxRows] else rows
  }

  /** What `merge` answers from these parts. */
  ghost predicate Merges(plan: Plan, parts: seq<Partial>, m: Merged) {
    && m.complete == (AllComplete(parts) && NeverArrived(plan.tablets, parts) == [])
    && m.missing == MissingOf(parts) + MissingRanges(plan, NeverArrived(plan.tablets, parts))
    && m.count == TotalCount(parts)
    && ListsBuckets(m.buckets, parts)
    && m.rows == (if MovesRows(plan.kind) then Truncated(RowsOf(parts), plan.kind) else [])
    && m.aggregateStates == StatesOf(parts)
    && IsLeastWatermark(parts, m.commitWatermark) && IsMostStale(parts, m.freshnessMs)
    && m.scannedSegments == ScannedSegments(parts) && m.scannedBytes == ScannedBytes(parts)
    && m.degraded == AnyDegraded(parts)
    && m.warnings == WarningsOf(parts, plan.kind)
                     + (if m.complete then [] else [PartialAnswer(|m.missing|, |plan.tablets|)])
  }

  /** Whether every planned tablet answered, and completely. */
  ghost predicate NothingMissing(plan: Plan, parts: seq<Partial>) {
    AllComplete(parts) && NeverArrived(plan.tablets, parts) == []
  }

  function TabletsOf(missing: seq<MissingRange>): seq<string> {
    if missing == [] then [] else TabletsOf(missing[..|missing| - 1]) + [missing[|missing| - 1].tablet]
  }

  /** What comes of merging these parts: a refusal that names what is missing, exactly
      when something is and partial answers were not asked for, or else the answer. */
  ghost predicate MergeAnswers(plan: Plan, parts: seq<Partial>, result: MergeResult) {
    && (result.IncompleteResult? <==> !plan.allowPartial && !NothingMissing(plan, parts))
    && (result.IncompleteResult? ==>
          result.missing == TabletsOf(MissingOf(parts) + MissingRanges(plan, NeverArrived(plan.tablets, parts))))
    && (result.Answer? ==> Merges(plan, parts, result.merged))
  }

  // The merge

  /** What the loop over the parts has gathered. The watermark starts at its maximum
      and the smallest is taken. */
  ghost predicate Gathered(kind: PartialKind, parts: seq<Partial>, m: Merged) {
    GatheredSums(parts, m) && GatheredLists(kind, parts, m) && GatheredMarks(parts, m)
  }

  ghost predicate GatheredSums(parts: seq<Partial>, m: Merged) {
    && m.count == TotalCount(parts)
    && m.scannedSegments == ScannedSegments(parts) && m.scannedBytes == ScannedBytes(parts)
  }

  ghost predicate GatheredLists(kind: PartialKind, parts: seq<Partial>, m: Merged) {
    && m.missing == MissingOf(parts)
    && m.rows == (if MovesRows(kind) then RowsOf(parts) else [])
    && m.aggregateStates == StatesOf(parts)
    && m.warnings == WarningsOf(parts, kind)
  }

  ghost predicate GatheredMarks(parts: seq<Partial>, m: Merged) {
    && m.complete == AllComplete(parts) && m.degraded == AnyDegraded(parts)
    && (if parts == [] then m.commitWatermark == U64_MAX else IsLeastWatermark(parts, m.commitWatermark))
    && IsMostStale(parts, m.freshnessMs)
  }

  ghost predicate GatheredBuckets(parts: seq<Partial>, buckets: map<int, nat>) {
    && (forall start :: InBucket(buckets, start) == BucketTotal(parts, start))
    && (forall start :: start in buckets <==> Reports(parts, start))
  }

  /** Adds one part's buckets to those gathered so far. */
  method AddBuckets(ghost before: seq<Partial>, part: Partial, gathered: map<int, nat>) returns (buckets: map<int, nat>)
    requires GatheredBuckets(before, gathered)
    ensures GatheredBuckets(before + [part], buckets)
  {
    buckets := gathered;
    var left := part.buckets.Keys;
    while left != {}
      invariant left <= part.buckets.Keys
      invariant buckets.Keys == gathered.Keys + (part.buckets.Keys - left)
      invariant forall start :: InBucket(buckets, start) ==
                  InBucket(gathered, start) + (if start in left then 0 else InBucket(part.buckets, start))
      decreases left
    {
      assert (forall start :: start !in left) ==> left == {};
      var start :| start in left;
      buckets := buckets[start := InBucket(buckets, start) + part.buckets[start]];
      left := left - {start};
    }
    BucketsGathered(before, part, gathered, buckets);
  }

  lemma BucketsGathered(before: seq<Partial>, part: Partial, gathered: map<int, nat>, buckets: map<int, nat>)
    requires GatheredBuckets(before, gathered) && buckets.Keys == gathered.Keys + part.buckets.Keys
    requires forall start :: InBucket(buckets, start) == InBucket(gathered, start) + InBucket(part.buckets, start)
    ensures GatheredBuckets(before + [part], buckets)
  {
    var parts := before + [part];
    assert parts[..|parts| - 1] == before;
    forall start ensures start in buckets <==> Reports(parts, start) {
      if Reports(before, start) {
        var found :| found in before && start in found.buckets;
        assert found in parts;
      }
      if start in part.buckets { assert part in parts; }
    }
  }

  /** The part of the buckets that is listed already, all before what is left. */
  ghost predicate Listed(listed: seq<(int, nat)>, buckets: map<int, nat>, left: set<int>) {
    && left <= buckets.Keys && Ascends(listed)
    && (forall i :: 0 <= i < |listed| ==>
          listed[i].0 in buckets && listed[i].0 !in left && listed[i].1 == buckets[listed[i].0])
    && (forall start :: start in buckets && start !in left ==> Lists(listed, start))
    && (forall i, later :: 0 <= i < |listed| && later in left ==> listed[i].0 < later)
  }

  lemma ListedNext(listed: seq<(int, nat)>, buckets: map<int, nat>, left: set<int>, start: int)
    requires Listed(listed, buckets, left) && IsLeastStart(left, start)
    ensures Listed(listed + [(start, buckets[start])], buckets, left - {start})
  {
    var next := listed + [(start, buckets[start])];
    assert next[|listed|].0 == start;
    forall other | other in buckets && other !in left - {start} ensures Lists(next, other) {
      if other != start {
        var i :| 0 <= i < |listed| && listed[i].0 == other;
        assert next[i].0 == other;
      }
    }
  }

  lemma ListedAll(listed: seq<(int, nat)>, buckets: map<int, nat>, parts: seq<Partial>)
    requires Listed(listed, buckets, {}) && GatheredBuckets(parts, buckets)
    ensures ListsBuckets(listed, parts)
  {
    forall i | 0 <= i < |listed| ensures listed[i].1 == BucketTotal(parts, listed[i].0) {
      assert InBucket(buckets, listed[i].0) == BucketTotal(parts, listed[i].0);
    }
    forall start ensures Lists(listed, start) <==> Reports(parts, start) {
      assert start in buckets <==> Reports(parts, start);
    }
  }

  /** The buckets as a list in ascending order. */
  method ListBuckets(ghost parts: seq<Partial>, buckets: map<int, nat>) returns (listed: seq<(int, nat)>)
    requires GatheredBuckets(parts, buckets)
    ensures ListsBuckets(listed, parts)
  {
    hide ListsBuckets, GatheredBuckets;
    listed := [];
    var left := buckets.Keys;
    while left != {}
      invariant Listed(listed, buckets, left)
      decreases left
    {
      hide Listed;
      LeastStart(left);
      assert exists start :: start in left && IsLeastStart(left, start);
      var start :| start in left && forall other :: other in left ==> start <= other;
      ListedNext(listed, buckets, left, start);
      ListedWithin(listed, buckets, left);
      listed := listed + [(start, buckets[start])];
      left := left - {start};
    }
    ListedAll(listed, buckets, parts);
  }

  lemma ListedWithin(listed: seq<(int, nat)>, buckets: map<int, nat>, left: set<int>)
    requires Listed(listed, buckets, left)
    ensures left <= buckets.Keys
  {
  }

  ghost predicate IsLeastStart(starts: set<int>, least: int) {
    least in starts && forall other :: other in starts ==> least <= other
  }

  lemma {:induction false} LeastStart(starts: set<int>)
    requires starts != {}
    ensures exists least :: IsLeastStart(starts, least)
    decreases starts
  {
    assert (forall some :: some !in starts) ==> starts == {};
    var some :| some in starts;
    var rest := starts - {some};
    if rest == {} {
      assert starts == {some};
      assert IsLeastStart(starts, some);
    } else {
      LeastStart(rest);
      var least :| IsLeastStart(rest, least);
      var small := if some < least then some else least;
      forall other | other in starts ensures small <= other { assert other == some || other in rest; }
      assert IsLeastStart(starts, small);
    }
  }

  /** Adds the next part's numbers and lists. */
  method AddLists(kind: PartialKind, ghost before: seq<Partial>, part: Partial, gathered: Merged) returns (merged: Merged)
    requires GatheredSums(before, gathered) && GatheredLists(kind, before, gathered)
    ensures GatheredSums(before + [part], merged) && GatheredLists(kind, before + [part], merged)
    ensures merged == gathered.(count := merged.count, scannedSegments := merged.scannedSegments,
                                scannedBytes := merged.scannedBytes, missing := merged.missing, rows := merged.rows,
                                aggregateStates := merged.aggregateStates, warnings := merged.warnings)
  {
    assert (before + [part])[..|before|] == before;
    merged := gathered.(count := gathered.count + part.count,
                        scannedSegments := gathered.scannedSegments + part.scannedSegments,
                        scannedBytes := gathered.scannedBytes + part.scannedBytes);
    var rows, states, warnings := gathered.rows, gathered.aggregateStates, gathered.warnings;
    if MovesRows(kind) {
      rows := rows + part.rows;
    } else if part.rows != [] {
      warnings := warnings + [SentRows(part.tablet, kind)];
    }
    if part.aggregateState.Some? {
      states := states + [part.aggregateState.value];
    }
    if part.degraded {
      warnings := warnings + [HoldsDegradedRange(part.tablet)];
    }
    merged := merged.(missing := merged.missing + part.missing, rows := rows, aggregateStates := states,
                      warnings := warnings);
  }

  /** Takes the next part's marks into account: complete only if all are, the smallest
      watermark, the largest staleness. */
  method AddMarks(ghost before: seq<Partial>, part: Partial, gathered: Merged) returns (merged: Merged)
    requires GatheredMarks(before, gathered)
    ensures GatheredMarks(before + [part], merged)
    ensures merged == gathered.(complete := merged.complete, degraded := merged.degraded,
                                commitWatermark := merged.commitWatermark, freshnessMs := merged.freshnessMs)
  {
    var watermark: U64, stale := gathered.commitWatermark, gathered.freshnessMs;
    if part.commitWatermark < watermark {
      watermark := part.commitWatermark;
    }
    if stale < part.freshnessMs {
      stale := part.freshnessMs;
    }
    MarksNext(before, part, gathered.complete, gathered.degraded);
    LeastNext(before, part, gathered.commitWatermark);
    StalestNext(before, part, gathered.freshnessMs);
    merged := gathered.(complete := gathered.complete && part.complete, degraded := gathered.degraded || part.degraded,
                        commitWatermark := watermark, freshnessMs := stale);
  }

  lemma MarksNext(before: seq<Partial>, part: Partial, complete: bool, degraded: bool)
    requires complete == AllComplete(before) && degraded == AnyDegraded(before)
    ensures (complete && part.complete) == AllComplete(before + [part])
    ensures (degraded || part.degraded) == AnyDegraded(before + [part])
  {
    var parts := before + [part];
    assert part in parts && forall other :: other in before ==> other in parts;
  }

  lemma LeastNext(before: seq<Partial>, part: Partial, watermark: U64)
    requires if before == [] then watermark == U64_MAX else IsLeastWatermark(before, watermark)
    ensures IsLeastWatermark(before + [part], if part.commitWatermark < watermark then part.commitWatermark else watermark)
  {
    var parts := before + [part];
    assert part in parts && forall other :: other in before ==> other in parts;
  }

  lemma StalestNext(before: seq<Partial>, part: Partial, stale: int)
    requires IsMostStale(before, stale)
    ensures IsMostStale(before + [part], if stale < part.freshnessMs then part.freshnessMs else stale)
  {
    var parts := before + [part];
    assert part in parts && forall other :: other in before ==> other in parts;
  }

  /** Takes one more part in. */
  method AddPart(kind: PartialKind, ghost before: seq<Partial>, part: Partial, gathered: Merged) returns (merged: Merged)
    requires Gathered(kind, before, gathered)
    ensures Gathered(kind, before + [part], merged)
  {
    hide GatheredSums, GatheredLists, AllComplete, AnyDegraded, IsLeastWatermark, IsMostStale;
    var marked := AddMarks(before, part, gathered);
    SumsUnmoved(kind, before, gathered, marked);
    merged := AddLists(kind, before, part, marked);
  }

  lemma NothingGathered(kind: PartialKind)
    ensures Gathered(kind, [], Merged(0, [], [], [], U64_MAX, 0, true, [], 0, 0, false, []))
    ensures GatheredBuckets([], map[])
  {
    assert forall start :: !Reports([], start);
  }

  /** Every part taken in, in the order they came. */
  method Gather(kind: PartialKind, parts: seq<Partial>) returns (merged: Merged, buckets: map<int, nat>)
    ensures Gathered(kind, parts, merged) && GatheredBuckets(parts, buckets)
  {
    hide Gathered, GatheredBuckets;
    NothingGathered(kind);
    merged, buckets := Merged(0, [], [], [], U64_MAX, 0, true, [], 0, 0, false, []), map[];
    var i := 0;
    while i < |parts|
      invariant 0 <= i <= |parts| && Gathered(kind, parts[..i], merged) && GatheredBuckets(parts[..i], buckets)
    {
      assert parts[..i + 1] == parts[..i] + [parts[i]];
      merged := AddPart(kind, parts[..i], parts[i], merged);
      buckets := AddBuckets(parts[..i], parts[i], buckets);
      i := i + 1;
    }
    assert parts[..i] == parts;
  }

  lemma SumsUnmoved(kind: PartialKind, parts: seq<Partial>, m: Merged, next: Merged)
    requires GatheredSums(parts, m) && GatheredLists(kind, parts, m)
    requires next == m.(complete := next.complete, degraded := next.degraded,
                        commitWatermark := next.commitWatermark, freshnessMs := next.freshnessMs)
    ensures GatheredSums(parts, next) && GatheredLists(kind, parts, next)
  {
  }

  /** The planned tablets whose part never arrived. */
  method FindNeverArrived(tablets: seq<string>, parts: seq<Partial>) returns (absent: seq<string>)
    ensures absent == NeverArrived(tablets, parts)
  {
    var answered := set part | part in parts :: part.tablet;
    absent := [];
    var i := 0;
    while i < |tablets|
      invariant 0 <= i <= |tablets| && absent == NeverArrived(tablets[..i], parts)
    {
      assert tablets[..i + 1][..i] == tablets[..i];
      assert tablets[i] in answered <==> Answered(parts, tablets[i]);
      if tablets[i] !in answered {
        absent := absent + [tablets[i]];
      }
      i := i + 1;
    }
    assert tablets[..i] == tablets;
  }

  method NameMissing(plan: Plan, tablets: seq<string>) returns (missing: seq<MissingRange>)
    ensures missing == MissingRanges(plan, tablets)
  {
    missing := [];
    var i := 0;
    while i < |tablets|
      invariant 0 <= i <= |tablets| && missing == MissingRanges(plan, tablets[..i])
    {
      assert tablets[..i + 1][..i] == tablets[..i];
      missing := missing + [MissingRange(tablets[i], plan.rangeStart, plan.rangeEnd)];
      i := i + 1;
    }
    assert tablets[..i] == tablets;
  }

  /** The parts gathered, the absent tablets named, the rows cut: one answer, or the
      names of what is missing. */
  method Merge(plan: Plan, parts: seq<Partial>) returns (result: MergeResult)
    ensures MergeAnswers(plan, parts, result)
  {
    hide ListsBuckets, GatheredBuckets, IsMostStale, AllComplete;
    var merged, buckets := Gather(plan.kind, parts);
    if |parts| == 0 {
      merged := merged.(commitWatermark := 0);
    }
    var listed := ListBuckets(parts, buckets);
    var absent := FindNeverArrived(plan.tablets, parts);
    var absentRanges := NameMissing(plan, absent);
    merged := merged.(buckets := listed, missing := merged.missing + absentRanges,
                      complete := merged.complete && |absent| == 0);
    if !merged.complete {
      if !plan.allowPartial {
        return IncompleteResult(TabletsOf(merged.missing));
      }
      merged := merged.(warnings := merged.warnings + [PartialAnswer(|merged.missing|, |plan.tablets|)]);
    }
    if plan.kind.Rows? && plan.kind.maxRows < |merged.rows| {
      merged := merged.(rows := merged.rows[..plan.kind.maxRows]);
    }
    return Answer(merged);
  }

  // What the answer means

  /** Every row the tablets hold that the plan selects, in plan order. */
  function AllRows(tablets: seq<string>, store: map<string, seq<EventRow>>): seq<EventRow>
    requires forall tablet :: tablet in tablets ==> tablet in store
  {
    if tablets == [] then []
    else AllRows(tablets[..|tablets| - 1], store) + store[tablets[|tablets| - 1]]
  }

  /** How many rows fall in the bucket that starts there. */
  function CountIn(rows: seq<EventRow>, bucketMs: int, start: int): nat
    requires bucketMs > 0
  {
    if rows == [] then 0
    else
      var at := rows[|rows| - 1].at;
      CountIn(rows[..|rows| - 1], bucketMs, start) + if at - at % bucketMs == start then 1 else 0
  }

  /** A part that says exactly what its rows are. */
  ghost predicate Exact(part: Partial, kind: PartialKind, rows: seq<EventRow>) {
    && (kind.Count? || kind.Trend? ==> part.count == |rows|)
    && (kind.Trend? && kind.bucketMs > 0 ==>
          forall start :: InBucket(part.buckets, start) == CountIn(rows, kind.bucketMs, start))
    && (MovesRows(kind) ==> part.rows == rows)
  }

  /** A part that says no more than its rows are. */
  ghost predicate Within(part: Partial, kind: PartialKind, rows: seq<EventRow>) {
    && (kind.Count? || kind.Trend? ==> part.count <= |rows|)
    && (kind.Trend? && kind.bucketMs > 0 ==>
          forall start :: InBucket(part.buckets, start) <= CountIn(rows, kind.bucketMs, start))
    && (MovesRows(kind) ==> multiset(part.rows) <= multiset(rows))
  }

  /** What each part is worth: a complete one is exact for the tablet it was asked of,
      and an incomplete one is never more. */
  ghost predicate Honest(parts: seq<Partial>, kind: PartialKind, tablets: seq<string>, store: map<string, seq<EventRow>>) {
    && |parts| == |tablets|
    && (forall tablet :: tablet in tablets ==> tablet in store)
    && forall i :: 0 <= i < |parts| ==>
         if parts[i].complete then Exact(parts[i], kind, store[tablets[i]]) else Within(parts[i], kind, store[tablets[i]])
  }

  ghost predicate Partitions(tablets: seq<string>, store: map<string, seq<EventRow>>, whole: seq<EventRow>) {
    && (forall tablet :: tablet in tablets ==> tablet in store)
    && multiset(AllRows(tablets, store)) == multiset(whole)
  }

  lemma {:induction false} CountInConcat(a: seq<EventRow>, b: seq<EventRow>, bucketMs: int, start: int)
    requires bucketMs > 0
    ensures CountIn(a + b, bucketMs, start) == CountIn(a, bucketMs, start) + CountIn(b, bucketMs, start)
  {
    if b == [] {
      assert a + b == a;
    } else {
      assert (a + b)[..|a + b| - 1] == a + b[..|b| - 1];
      CountInConcat(a, b[..|b| - 1], bucketMs, start);
    }
  }

  /** The last of a sequence can be taken out of any permutation of it. */
  lemma TakeFromPermutation<T>(a: seq<T>, b: seq<T>) returns (i: nat)
    requires multiset(a) == multiset(b) && a != []
    ensures i < |b| && b[i] == a[|a| - 1] && b == b[..i] + [b[i]] + b[i + 1..]
    ensures multiset(a[..|a| - 1]) == multiset(b[..i] + b[i + 1..])
  {
    var last := a[|a| - 1];
    assert last in multiset(a) && last in b;
    i :| 0 <= i < |b| && b[i] == last;
    TakenOut(a, |a| - 1);
    TakenOut(b, i);
    assert a[..|a| - 1] + a[|a|..] == a[..|a| - 1];
    SameRest(multiset(a[..|a| - 1]), multiset(b[..i] + b[i + 1..]), last);
  }

  lemma TakenOut<T>(s: seq<T>, i: nat)
    requires i < |s|
    ensures s == s[..i] + [s[i]] + s[i + 1..]
    ensures multiset(s) == multiset(s[..i] + s[i + 1..]) + multiset{s[i]}
  {
    assert s == s[..i] + [s[i]] + s[i + 1..];
  }

  lemma SameRest<T>(a: multiset<T>, b: multiset<T>, x: T)
    requires a + multiset{x} == b + multiset{x}
    ensures a == b
  {
    assert a == a + multiset{x} - multiset{x};
    assert b == b + multiset{x} - multiset{x};
  }

  /** A trend does not depend on the order of the rows. */
  lemma {:induction false} CountInPermuted(a: seq<EventRow>, b: seq<EventRow>, bucketMs: int, start: int)
    requires bucketMs > 0 && multiset(a) == multiset(b)
    ensures CountIn(a, bucketMs, start) == CountIn(b, bucketMs, start)
    decreases |a|
  {
    assert |a| == |multiset(a)| == |multiset(b)| == |b|;
    if a != [] {
      var last := a[|a| - 1];
      var i := TakeFromPermutation(a, b);
      CountInPermuted(a[..|a| - 1], b[..i] + b[i + 1..], bucketMs, start);
      CountInConcat(b[..i], b[i + 1..], bucketMs, start);
      CountInConcat(b[..i] + [last], b[i + 1..], bucketMs, start);
      CountInConcat(b[..i], [last], bucketMs, start);
      assert [last][..0] == [];
    }
  }

  ghost predicate SaysExactly(parts: seq<Partial>, kind: PartialKind, rows: seq<EventRow>) {
    && (kind.Count? || kind.Trend? ==> TotalCount(parts) == |rows|)
    && (kind.Trend? && kind.bucketMs > 0 ==>
          forall start :: BucketTotal(parts, start) == CountIn(rows, kind.bucketMs, start))
    && (MovesRows(kind) ==> RowsOf(parts) == rows)
  }

  ghost predicate SaysAtMost(parts: seq<Partial>, kind: PartialKind, rows: seq<EventRow>) {
    && (kind.Count? || kind.Trend? ==> TotalCount(parts) <= |rows|)
    && (kind.Trend? && kind.bucketMs > 0 ==>
          forall start :: BucketTotal(parts, start) <= CountIn(rows, kind.bucketMs, start))
    && (MovesRows(kind) ==> multiset(RowsOf(parts)) <= multiset(rows))
  }

  lemma ExactIsWithin(part: Partial, kind: PartialKind, rows: seq<EventRow>)
    requires Exact(part, kind, rows)
    ensures Within(part, kind, rows)
  {
  }

  lemma HonestBefore(parts: seq<Partial>, kind: PartialKind, tablets: seq<string>, store: map<string, seq<EventRow>>)
    requires Honest(parts, kind, tablets, store) && parts != []
    ensures Honest(parts[..|parts| - 1], kind, tablets[..|tablets| - 1], store)
  {
  }

  lemma {:induction false} PartsSayAtMost(parts: seq<Partial>, kind: PartialKind, tablets: seq<string>,
                                          store: map<string, seq<EventRow>>)
    requires Honest(parts, kind, tablets, store)
    ensures SaysAtMost(parts, kind, AllRows(tablets, store))
  {
    if parts != [] {
      var n := |parts| - 1;
      var before, rows := AllRows(tablets[..n], store), store[tablets[n]];
      HonestBefore(parts, kind, tablets, store);
      PartsSayAtMost(parts[..n], kind, tablets[..n], store);
      if parts[n].complete { ExactIsWithin(parts[n], kind, rows); }
      if kind.Trend? && kind.bucketMs > 0 {
        forall start ensures BucketTotal(parts, start) <= CountIn(before + rows, kind.bucketMs, start) {
          CountInConcat(before, rows, kind.bucketMs, start);
        }
      }
    }
  }

  lemma {:induction false} PartsSayExactly(parts: seq<Partial>, kind: PartialKind, tablets: seq<string>,
                                           store: map<string, seq<EventRow>>)
    requires Honest(parts, kind, tablets, store) && AllComplete(parts)
    ensures SaysExactly(parts, kind, AllRows(tablets, store))
  {
    if parts != [] {
      var n := |parts| - 1;
      var before, rows := AllRows(tablets[..n], store), store[tablets[n]];
      HonestBefore(parts, kind, tablets, store);
      PartsSayExactly(parts[..n], kind, tablets[..n], store);
      if kind.Trend? && kind.bucketMs > 0 {
        forall start ensures BucketTotal(parts, start) == CountIn(before + rows, kind.bucketMs, start) {
          CountInConcat(before, rows, kind.bucketMs, start);
        }
      }
    }
  }

  function ListedAt(buckets: seq<(int, nat)>, start: int): nat {
    if buckets == [] then 0
    else if buckets[0].0 == start then buckets[0].1
    else ListedAt(buckets[1..], start)
  }

  lemma {:induction false} ListedAtIs(buckets: seq<(int, nat)>, start: int)
    requires Ascends(buckets)
    ensures forall i :: 0 <= i < |buckets| && buckets[i].0 == start ==> ListedAt(buckets, start) == buckets[i].1
    ensures !Lists(buckets, start) ==> ListedAt(buckets, start) == 0
  {
    if buckets != [] && buckets[0].0 != start {
      ListedAtIs(buckets[1..], start);
      assert forall i :: 1 <= i < |buckets| ==> buckets[i] == buckets[1..][i - 1];
    }
  }

  lemma {:induction false} UnreportedIsZero(parts: seq<Partial>, start: int)
    requires !Reports(parts, start)
    ensures BucketTotal(parts, start) == 0
  {
    if parts != [] {
      var n := |parts| - 1;
      assert forall part :: part in parts[..n] ==> part in parts;
      assert parts[n] in parts;
      UnreportedIsZero(parts[..n], start);
    }
  }

  lemma ListedIsTotal(buckets: seq<(int, nat)>, parts: seq<Partial>, start: int)
    requires ListsBuckets(buckets, parts)
    ensures ListedAt(buckets, start) == BucketTotal(parts, start)
  {
    ListedAtIs(buckets, start);
    assert Lists(buckets, start) <==> Reports(parts, start);
    if !Reports(parts, start) { UnreportedIsZero(parts, start); }
  }

  /** The answer one store that held every row would give. */
  ghost predicate IsWholeAnswer(m: Merged, kind: PartialKind, whole: seq<EventRow>) {
    && (kind.Count? || kind.Trend? ==> m.count == |whole|)
    && (kind.Trend? && kind.bucketMs > 0 ==>
          forall start :: ListedAt(m.buckets, start) == CountIn(whole, kind.bucketMs, start))
    && (MovesRows(kind) && (kind.Rows? ==> |whole| <= kind.maxRows) ==> multiset(m.rows) == multiset(whole))
  }

  ghost predicate IsSmallerAnswer(m: Merged, kind: PartialKind, whole: seq<EventRow>) {
    && (kind.Count? || kind.Trend? ==> m.count <= |whole|)
    && (kind.Trend? && kind.bucketMs > 0 ==>
          forall start :: ListedAt(m.buckets, start) <= CountIn(whole, kind.bucketMs, start))
    && (MovesRows(kind) ==> multiset(m.rows) <= multiset(whole))
  }

  /** A complete answer is the one a single store would give, and no answer is larger,
      whatever tablet names the parts carry. */
  lemma MergedIsTheWhole(plan: Plan, parts: seq<Partial>, m: Merged, store: map<string, seq<EventRow>>, whole: seq<EventRow>)
    requires Merges(plan, parts, m) && Honest(parts, plan.kind, plan.tablets, store)
    requires Partitions(plan.tablets, store, whole)
    ensures m.complete ==> IsWholeAnswer(m, plan.kind, whole)
    ensures IsSmallerAnswer(m, plan.kind, whole)
  {
    var kind, all := plan.kind, AllRows(plan.tablets, store);
    assert |all| == |multiset(all)| == |multiset(whole)| == |whole|;
    PartsSayAtMost(parts, kind, plan.tablets, store);
    if m.complete { PartsSayExactly(parts, kind, plan.tablets, store); }
    if kind.Trend? && kind.bucketMs > 0 {
      forall start ensures ListedAt(m.buckets, start) <= CountIn(whole, kind.bucketMs, start)
                   ensures m.complete ==> ListedAt(m.buckets, start) == CountIn(whole, kind.bucketMs, start)
      {
        CountInPermuted(all, whole, kind.bucketMs, start);
        ListedIsTotal(m.buckets, parts, start);
      }
    }
    TruncationOnlyDrops(RowsOf(parts), kind);
  }

  lemma TruncationOnlyDrops(rows: seq<EventRow>, kind: PartialKind)
    ensures multiset(Truncated(rows, kind)) <= multiset(rows)
    ensures Truncated(rows, kind) == rows <==> (kind.Rows? ==> |rows| <= kind.maxRows)
  {
    if kind.Rows? && kind.maxRows < |rows| {
      assert rows == rows[..kind.maxRows] + rows[kind.maxRows..];
    }
  }

  // Parts in any order

  function NamesOf(parts: seq<Partial>): (names: seq<string>)
    ensures |names| == |parts| && forall i :: 0 <= i < |parts| ==> names[i] == parts[i].tablet
  {
    if parts == [] then [] else NamesOf(parts[..|parts| - 1]) + [parts[|parts| - 1].tablet]
  }

  lemma {:induction false} AllArrived(tablets: seq<string>, parts: seq<Partial>)
    ensures NeverArrived(tablets, parts) == [] <==> forall tablet :: tablet in tablets ==> Answered(parts, tablet)
  {
    if tablets != [] {
      var n := |tablets| - 1;
      AllArrived(tablets[..n], parts);
      assert tablets == tablets[..n] + [tablets[n]];
    }
  }

  lemma DistinctWithin(names: seq<string>, other: seq<string>)
    requires Ascending(names) && forall name :: name in names ==> name in other
    ensures multiset(names) <= multiset(other)
  {
    forall name ensures multiset(names)[name] <= multiset(other)[name] {
      if name in names { AtMostOnce(names, name); }
    }
  }

  lemma {:induction false} AtMostOnce(names: seq<string>, name: string)
    requires Ascending(names)
    ensures multiset(names)[name] <= 1
  {
    if names != [] {
      var n := |names| - 1;
      assert names == names[..n] + [names[n]];
      AtMostOnce(names[..n], name);
      if name == names[n] && name in names[..n] {
        var i :| 0 <= i < n && names[i] == name;
        AscendingDistinct(names, i, n);
      }
    }
  }

  /** As many parts as planned tablets, and every tablet answered: the parts answer for
      the planned tablets in some order, each once. */
  lemma NamesArePlanned(tablets: seq<string>, parts: seq<Partial>)
    requires Ascending(tablets) && |parts| == |tablets| && NeverArrived(tablets, parts) == []
    ensures multiset(NamesOf(parts)) == multiset(tablets)
  {
    AllArrived(tablets, parts);
    var names := NamesOf(parts);
    forall tablet | tablet in tablets ensures tablet in names {
      assert Answered(parts, tablet);
      var part :| part in parts && part.tablet == tablet;
      var i :| 0 <= i < |parts| && parts[i] == part;
      assert names[i] == tablet;
    }
    DistinctWithin(tablets, names);
    var rest := multiset(names) - multiset(tablets);
    assert multiset(names) == multiset(tablets) + rest;
    assert |multiset(names)| == |multiset(tablets)| + |rest|;
  }

  lemma {:induction false} AllRowsConcat(a: seq<string>, b: seq<string>, store: map<string, seq<EventRow>>)
    requires forall tablet :: tablet in a + b ==> tablet in store
    ensures AllRows(a + b, store) ==
            (assert forall x :: x in a || x in b ==> x in a + b; AllRows(a, store) + AllRows(b, store))
  {
    assert forall x :: x in a || x in b ==> x in a + b;
    if b == [] {
      assert a + b == a;
    } else {
      var n := |b| - 1;
      assert (a + b)[..|a + b| - 1] == a + b[..n];
      assert forall x :: x in a + b[..n] ==> x in a + b;
      AllRowsConcat(a, b[..n], store);
    }
  }

  lemma AllRowsTakenOut(b: seq<string>, i: nat, store: map<string, seq<EventRow>>)
    requires i < |b| && forall tablet :: tablet in b ==> tablet in store
    ensures forall tablet :: tablet in b[..i] + b[i + 1..] ==> tablet in store
    ensures multiset(AllRows(b, store)) == multiset(AllRows(b[..i] + b[i + 1..], store)) + multiset(store[b[i]])
  {
    var a, c := b[..i], b[i + 1..];
    assert b == a + [b[i]] + c;
    AllRowsConcat(a, c, store);
    AllRowsConcat(a + [b[i]], c, store);
    assert (a + [b[i]])[..i] == a;
  }

  lemma {:induction false} AllRowsPermuted(a: seq<string>, b: seq<string>, store: map<string, seq<EventRow>>)
    requires multiset(a) == multiset(b) && (forall tablet :: tablet in a ==> tablet in store)
    ensures forall tablet :: tablet in b ==> tablet in store
    ensures multiset(AllRows(a, store)) ==
            (assert forall x :: x in b ==> x in multiset(a); multiset(AllRows(b, store)))
    decreases |a|
  {
    assert |a| == |multiset(a)| == |multiset(b)| == |b|;
    assert forall x :: x in b ==> x in multiset(b) && x in multiset(a) && x in a;
    if a != [] {
      var n := |a| - 1;
      var i := TakeFromPermutation(a, b);
      AllRowsPermuted(a[..n], b[..i] + b[i + 1..], store);
      AllRowsTakenOut(b, i, store);
    }
  }

  /** The merge knows a part only by the tablet it names. In any order, a complete
      answer from as many parts as planned tablets is the whole one. */
  lemma MergedByNameIsTheWhole(plan: Plan, parts: seq<Partial>, m: Merged, store: map<string, seq<EventRow>>,
                               whole: seq<EventRow>)
    requires Merges(plan, parts, m) && m.complete && Ascending(plan.tablets) && |parts| == |plan.tablets|
    requires Partitions(plan.tablets, store, whole)
    requires forall part :: part in parts && part.tablet in store ==> Exact(part, plan.kind, store[part.tablet])
    ensures IsWholeAnswer(m, plan.kind, whole)
  {
    hide Exact, Within, AllRows, NamesOf, IsWholeAnswer, ListsBuckets;
    var names := NamesOf(parts);
    NamesArePlanned(plan.tablets, parts);
    AllRowsPermuted(plan.tablets, names, store);
    HonestByName(parts, plan.kind, names, store);
    MergedIsTheWholeOf(plan, parts, m, names, store, whole);
  }

  lemma HonestByName(parts: seq<Partial>, kind: PartialKind, names: seq<string>, store: map<string, seq<EventRow>>)
    requires AllComplete(parts) && names == NamesOf(parts) && forall name :: name in names ==> name in store
    requires forall part :: part in parts && part.tablet in store ==> Exact(part, kind, store[part.tablet])
    ensures Honest(parts, kind, names, store)
  {
    forall i | 0 <= i < |parts| ensures Exact(parts[i], kind, store[names[i]]) && parts[i].complete {
      assert names[i] in names && parts[i] in parts;
    }
  }

  lemma MergedIsTheWholeOf(plan: Plan, parts: seq<Partial>, m: Merged, names: seq<string>,
                           store: map<string, seq<EventRow>>, whole: seq<EventRow>)
    requires Merges(plan, parts, m) && m.complete && Honest(parts, plan.kind, names, store)
    requires Partitions(names, store, whole)
    ensures IsWholeAnswer(m, plan.kind, whole)
  {
    var kind, all := plan.kind, AllRows(names, store);
    assert |all| == |multiset(all)| == |multiset(whole)| == |whole|;
    PartsSayExactly(parts, kind, names, store);
    if kind.Trend? && kind.bucketMs > 0 {
      forall start ensures ListedAt(m.buckets, start) == CountIn(whole, kind.bucketMs, start) {
        CountInPermuted(all, whole, kind.bucketMs, start);
        ListedIsTotal(m.buckets, parts, start);
      }
    }
  }

  lemma {:induction false} TotalsConcat(a: seq<Partial>, b: seq<Partial>)
    ensures TotalCount(a + b) == TotalCount(a) + TotalCount(b) && RowsOf(a + b) == RowsOf(a) + RowsOf(b)
  {
    if b == [] {
      assert a + b == a;
    } else {
      var n := |b| - 1;
      assert (a + b)[..|a + b| - 1] == a + b[..n];
      TotalsConcat(a, b[..n]);
    }
  }

  lemma {:induction false} BucketsConcat(a: seq<Partial>, b: seq<Partial>, start: int)
    ensures BucketTotal(a + b, start) == BucketTotal(a, start) + BucketTotal(b, start)
  {
    hide InBucket;
    if b == [] {
      assert a + b == a;
    } else {
      var n := |b| - 1;
      assert (a + b)[..|a + b| - 1] == a + b[..n];
      BucketsConcat(a, b[..n], start);
    }
  }

  /** The merge does not notice parts too many: they are added to a complete answer,
      whatever tablets they name, and it stays complete unless one of them is not. */
  lemma SurplusIsCounted(plan: Plan, parts: seq<Partial>, surplus: seq<Partial>, m: Merged, more: Merged)
    requires Merges(plan, parts, m) && m.complete && Merges(plan, parts + surplus, more)
    ensures more.complete <==> AllComplete(surplus)
    ensures more.count == m.count + TotalCount(surplus)
    ensures forall start :: ListedAt(more.buckets, start) == ListedAt(m.buckets, start) + BucketTotal(surplus, start)
    ensures MovesRows(plan.kind) ==> more.rows == Truncated(RowsOf(parts) + RowsOf(surplus), plan.kind)
  {
    SurplusArrives(plan.tablets, parts, surplus);
    CompleteTogether(parts, surplus);
    TotalsConcat(parts, surplus);
    hide NeverArrived, ListsBuckets, AllComplete;
    forall start ensures ListedAt(more.buckets, start) == ListedAt(m.buckets, start) + BucketTotal(surplus, start) {
      ListedIsTotal(m.buckets, parts, start);
      ListedIsTotal(more.buckets, parts + surplus, start);
      BucketsConcat(parts, surplus, start);
    }
  }

  lemma CompleteTogether(a: seq<Partial>, b: seq<Partial>)
    ensures AllComplete(a + b) <==> AllComplete(a) && AllComplete(b)
  {
    if AllComplete(a + b) {
      forall part | part in a ensures part.complete { assert part in a + b; }
      forall part | part in b ensures part.complete { assert part in a + b; }
    }
  }

  lemma SurplusArrives(tablets: seq<string>, parts: seq<Partial>, surplus: seq<Partial>)
    requires NeverArrived(tablets, parts) == []
    ensures NeverArrived(tablets, parts + surplus) == []
  {
    AllArrived(tablets, parts);
    AllArrived(tablets, parts + surplus);
    hide NeverArrived;
    forall tablet | tablet in tablets ensures Answered(parts + surplus, tablet) {
      assert Answered(parts, tablet);
      var part :| part in parts && part.tablet == tablet;
      assert part in parts + surplus;
    }
  }

  /** The surplus adds nothing to an answer of this kind, or its rows come after the cut. */
  ghost predicate AddsNothing(surplus: seq<Partial>, kind: PartialKind, whole: seq<EventRow>) {
    match kind
    case Count => TotalCount(surplus) == 0
    case Trend(bucketMs) => TotalCount(surplus) == 0 && (bucketMs > 0 ==> forall start :: BucketTotal(surplus, start) == 0)
    case Rows(maxRows) => RowsOf(surplus) == [] || |whole| >= maxRows
    case Lookup(_, _) => RowsOf(surplus) == []
    case Aggregate(_) => true
  }

  /** So an answer that was right stays right exactly when the surplus adds nothing, for
      every kind of read and any number of surplus parts. */
  lemma SurplusIsRightIffItAddsNothing(
      plan: Plan, parts: seq<Partial>, surplus: seq<Partial>, m: Merged, more: Merged, whole: seq<EventRow>)
    requires Merges(plan, parts, m) && m.complete && Merges(plan, parts + surplus, more)
    requires IsWholeAnswer(m, plan.kind, whole)
    ensures IsWholeAnswer(more, plan.kind, whole) <==> AddsNothing(surplus, plan.kind, whole)
  {
    SurplusIsCounted(plan, parts, surplus, m, more);
    assert MovesRows(plan.kind) ==> m.rows == Truncated(RowsOf(parts), plan.kind);
    hide Merges, TotalCount, BucketTotal, RowsOf, ListedAt, AllComplete, CountIn;
    if MovesRows(plan.kind) {
      RowsRightIff(RowsOf(parts), RowsOf(surplus), plan.kind, whole);
    }
  }

  lemma RowsRightIff(rows: seq<EventRow>, extra: seq<EventRow>, kind: PartialKind, whole: seq<EventRow>)
    requires MovesRows(kind)
    requires (kind.Rows? ==> |whole| <= kind.maxRows) ==> multiset(Truncated(rows, kind)) == multiset(whole)
    ensures ((kind.Rows? ==> |whole| <= kind.maxRows) ==> multiset(Truncated(rows + extra, kind)) == multiset(whole))
            <==> extra == [] || (kind.Rows? && |whole| >= kind.maxRows)
  {
    var before, after := Truncated(rows, kind), Truncated(rows + extra, kind);
    assert |multiset(before)| == |before| && |multiset(after)| == |after| && |multiset(whole)| == |whole|;
    if extra == [] {
      assert rows + extra == rows;
    } else if kind.Rows? && |whole| == kind.maxRows {
      assert after == before;
    }
  }
}
