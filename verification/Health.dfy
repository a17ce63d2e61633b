// Slow detection against the median of the group, with a hold time
// (crates/tallyowl-cluster/src/health.rs).

module Healths {
  import opened Common
  import opened Orders
  import opened Sorting

  datatype Report = Report(node: string, appendLatency: U64, fsyncLatency: U64, writable: bool, reportedAt: int)

  datatype NodeState = Healthy | Slow | ReadOnly

  datatype Policy = Policy(factor: U64, durationMs: int)

  datatype Condition = Condition(node: string, state: NodeState, since: int, medianAppend: U64, medianFsync: U64)

  datatype Measure = Append | Fsync

  function Of(measure: Measure, report: Report): U64 {
    if measure.Append? then report.appendLatency else report.fsyncLatency
  }

  predicate LatencyAtMost(a: U64, b: U64) { a <= b }

  /** The group median of some values. An empty group has none, and counts as zero. */
  function Median(values: seq<U64>): U64 {
    if values == [] then 0 else SortBy(LatencyAtMost, values)[|values| / 2]
  }

  function SaturatingMul(a: U64, b: U64): U64 {
    if a * b <= U64_MAX then a * b else U64_MAX
  }

  predicate Exceeds(value: U64, median: U64, factor: U64) {
    median > 0 && value > SaturatingMul(median, factor)
  }

  // The median

  function CountAbove(values: seq<U64>, limit: U64): nat {
    if values == [] then 0
    else CountAbove(values[..|values| - 1], limit) + if values[|values| - 1] > limit then 1 else 0
  }

  lemma {:induction false} CountAboveConcat(a: seq<U64>, b: seq<U64>, limit: U64)
    ensures CountAbove(a + b, limit) == CountAbove(a, limit) + CountAbove(b, limit)
  {
    if b == [] {
      assert a + b == a;
    } else {
      assert (a + b)[..|a + b| - 1] == a + b[..|b| - 1];
      CountAboveConcat(a, b[..|b| - 1], limit);
    }
  }

  lemma CountAboveOne(x: U64, limit: U64)
    ensures CountAbove([x], limit) == if x > limit then 1 else 0
  {
    assert [x][..0] == [];
  }

  lemma {:induction false} InsertedCounts(x: U64, sorted: seq<U64>, limit: U64)
    ensures CountAbove(Inserted(LatencyAtMost, x, sorted), limit) == CountAbove(sorted, limit) + if x > limit then 1 else 0
  {
    CountAboveOne(x, limit);
    if sorted == [] {
    } else if x <= sorted[0] {
      CountAboveConcat([x], sorted, limit);
    } else {
      InsertedCounts(x, sorted[1..], limit);
      assert sorted == [sorted[0]] + sorted[1..];
      CountAboveConcat([sorted[0]], sorted[1..], limit);
      CountAboveConcat([sorted[0]], Inserted(LatencyAtMost, x, sorted[1..]), limit);
    }
  }

  lemma {:induction false} SortsCount(values: seq<U64>, limit: U64)
    ensures CountAbove(SortBy(LatencyAtMost, values), limit) == CountAbove(values, limit)
  {
    if values != [] {
      var n := |values| - 1;
      SortsCount(values[..n], limit);
      InsertedCounts(values[n], SortBy(LatencyAtMost, values[..n]), limit);
    }
  }

  lemma {:induction false} CountAboveBounds(values: seq<U64>, limit: U64)
    ensures CountAbove(values, limit) <= |values|
    ensures (forall i :: 0 <= i < |values| ==> values[i] <= limit) ==> CountAbove(values, limit) == 0
  {
    if values != [] { CountAboveBounds(values[..|values| - 1], limit); }
  }

  /** At most the upper half lies above the median. */
  lemma FewLieAboveTheMedian(values: seq<U64>)
    requires values != []
    ensures CountAbove(values, Median(values)) <= |values| - 1 - |values| / 2
  {
    var sorted, middle, m := SortBy(LatencyAtMost, values), |values| / 2, Median(values);
    SortOrders(LatencyAtMost, values);
    SortsCount(values, m);
    MiddleBounds(sorted, middle);
  }

  lemma MiddleBounds(sorted: seq<U64>, middle: nat)
    requires InOrder(LatencyAtMost, sorted) && middle < |sorted|
    ensures CountAbove(sorted, sorted[middle]) <= |sorted| - 1 - middle
  {
    var low, high := sorted[..middle + 1], sorted[middle + 1..];
    assert sorted == low + high && |high| == |sorted| - 1 - middle;
    forall i | 0 <= i < |low| ensures low[i] <= sorted[middle] {
      assert low[i] == sorted[i];
      assert i < middle ==> LatencyAtMost(sorted[i], sorted[middle]);
    }
    hide CountAbove, InOrder;
    CountAboveConcat(low, high, sorted[middle]);
    CountAboveBounds(low, sorted[middle]);
    CountAboveBounds(high, sorted[middle]);
  }

  lemma ExceedsIsAbove(value: U64, median: U64, factor: U64)
    requires factor >= 1 && Exceeds(value, median, factor)
    ensures value > median
  {
    assert median * factor >= median;
  }

  // The watch

  /** What a measure is on each reporting node, in name order. */
  function Values(latest: map<string, Report>, names: seq<string>, measure: Measure): (values: seq<U64>)
    requires forall name :: name in names ==> name in latest
    ensures |values| == |names| && forall i :: 0 <= i < |names| ==> values[i] == Of(measure, latest[names[i]])
  {
    seq(|names|, i requires 0 <= i < |names| => Of(measure, latest[names[i]]))
  }

  ghost function GroupMedian(latest: map<string, Report>, measure: Measure): U64 {
    Median(Values(latest, Sorted(latest.Keys), measure))
  }

  ghost predicate Over(latest: map<string, Report>, policy: Policy, node: string)
    requires node in latest
  {
    || Exceeds(latest[node].appendLatency, GroupMedian(latest, Append), policy.factor)
    || Exceeds(latest[node].fsyncLatency, GroupMedian(latest, Fsync), policy.factor)
  }

  /** How many of the first names exceed on one measure. */
  ghost function CountOver(latest: map<string, Report>, names: seq<string>, factor: U64, measure: Measure): nat
    requires forall name :: name in names ==> name in latest
  {
    if names == [] then 0
    else CountOver(latest, names[..|names| - 1], factor, measure)
         + if Exceeds(Of(measure, latest[names[|names| - 1]]), GroupMedian(latest, measure), factor) then 1 else 0
  }

  lemma {:induction false} CountOverIsAbove(latest: map<string, Report>, names: seq<string>, factor: U64, measure: Measure)
    requires factor >= 1 && forall name :: name in names ==> name in latest
    ensures CountOver(latest, names, factor, measure) <=
            CountAbove(Values(latest, names, measure), GroupMedian(latest, measure))
  {
    if names != [] {
      var n := |names| - 1;
      CountOverIsAbove(latest, names[..n], factor, measure);
      assert Values(latest, names, measure)[..n] == Values(latest, names[..n], measure);
      if Exceeds(Of(measure, latest[names[n]]), GroupMedian(latest, measure), factor) {
        ExceedsIsAbove(Of(measure, latest[names[n]]), GroupMedian(latest, measure), factor);
      }
    }
  }

  /** With a factor of at least one, at most n - 1 - n/2 of n nodes exceed on a measure. */
  lemma FewExceed(latest: map<string, Report>, factor: U64, measure: Measure)
    requires factor >= 1 && latest != map[]
    ensures CountOver(latest, Sorted(latest.Keys), factor, measure) <= |latest| - 1 - |latest| / 2
  {
    var names := Sorted(latest.Keys);
    assert |names| == |latest.Keys| == |latest|;
    assert |latest| > 0;
    CountOverIsAbove(latest, names, factor, measure);
    FewLieAboveTheMedian(Values(latest, names, measure));
  }

  lemma {:induction false} AllOverCounts(latest: map<string, Report>, names: seq<string>, policy: Policy)
    requires forall name :: name in names ==> name in latest && Over(latest, policy, name)
    ensures CountOver(latest, names, policy.factor, Append) + CountOver(latest, names, policy.factor, Fsync) >= |names|
  {
    if names != [] {
      var n := |names| - 1;
      AllOverCounts(latest, names[..n], policy);
      assert Over(latest, policy, names[n]);
    }
  }

  ghost predicate SomebodySpared(latest: map<string, Report>, policy: Policy) {
    exists node :: node in latest && !Over(latest, policy, node)
  }

  /** So some node of the group is not over. */
  lemma SomebodyIsNotOver(latest: map<string, Report>, policy: Policy)
    requires policy.factor >= 1 && latest != map[]
    ensures SomebodySpared(latest, policy)
  {
    if forall node :: node in latest ==> Over(latest, policy, node) {
      FewExceed(latest, policy.factor, Append);
      FewExceed(latest, policy.factor, Fsync);
      AllOverCounts(latest, Sorted(latest.Keys), policy);
    }
  }

  lemma LoneNodeIsOver(policy: Policy) returns (latest: map<string, Report>)
    requires policy.factor == 0
    ensures latest == map["node" := Report("node", 1, 1, true, 0)] && Over(latest, policy, "node")
  {
    latest := map["node" := Report("node", 1, 1, true, 0)];
    AscendingUnique(Sorted(latest.Keys), ["node"]);
    assert Values(latest, ["node"], Append) == [1];
    assert [1 as U64][..0] == [];
    assert Median([1]) == 1;
    assert GroupMedian(latest, Append) == 1;
  }

  /** A factor of zero calls a group of one slow against itself. The guarantee holds for
      every group exactly when the factor is at least one. */
  lemma NeverTheWholeGroupIffFactor(policy: Policy)
    ensures (forall latest :: latest != map[] ==> SomebodySpared(latest, policy)) <==> policy.factor >= 1
  {
    if policy.factor >= 1 {
      forall latest | latest != map[] ensures SomebodySpared(latest, policy) {
        SomebodyIsNotOver(latest, policy);
      }
    } else {
      var latest := LoneNodeIsOver(policy);
      assert forall node :: node in latest ==> node == "node";
      assert latest != map[] && !SomebodySpared(latest, policy);
    }
  }

  // Assessing

  /** What the watch keeps. */
  datatype State = State(latest: map<string, Report>, slowSince: map<string, int>)

  ghost predicate Sick(state: State, policy: Policy, node: string)
    requires node in state.latest
  {
    state.latest[node].writable && Over(state.latest, policy, node)
  }

  /** When a node that is over first was, as far as the watch knows. */
  function Started(state: State, node: string): int
    requires node in state.latest
  {
    if node in state.slowSince then state.slowSince[node] else state.latest[node].reportedAt
  }

  ghost function StateOf(state: State, policy: Policy, node: string, now: int): NodeState
    requires node in state.latest
  {
    if !state.latest[node].writable then ReadOnly
    else if Over(state.latest, policy, node) && now - Started(state, node) >= policy.durationMs then Slow
    else Healthy
  }

  /** Who is recorded as over once these nodes have been assessed. */
  ghost function SinceAfter(state: State, policy: Policy, names: seq<string>): map<string, int>
    requires forall name :: name in names ==> name in state.latest
  {
    map node | node in state.slowSince.Keys + state.latest.Keys &&
               (if node in names then Sick(state, policy, node) else node in state.slowSince) ::
      if node in state.slowSince then state.slowSince[node] else state.latest[node].reportedAt
  }

  ghost function ConditionOf(state: State, policy: Policy, node: string, now: int): Condition
    requires node in state.latest
  {
    Condition(node, StateOf(state, policy, node, now),
              if Sick(state, policy, node) then Started(state, node) else state.latest[node].reportedAt,
              GroupMedian(state.latest, Append), GroupMedian(state.latest, Fsync))
  }

  ghost function ConditionsOf(state: State, policy: Policy, names: seq<string>, now: int): seq<Condition>
    requires forall name :: name in names ==> name in state.latest
  {
    if names == [] then []
    else ConditionsOf(state, policy, names[..|names| - 1], now) + [ConditionOf(state, policy, names[|names| - 1], now)]
  }

  ghost function AssessStep(state: State, policy: Policy): State {
    state.(slowSince := SinceAfter(state, policy, Sorted(state.latest.Keys)))
  }

  function ObserveStep(state: State, report: Report): State {
    state.(latest := state.latest[report.node := report])
  }

  lemma SinceNext(state: State, policy: Policy, names: seq<string>, i: nat)
    requires i < |names| && Ascending(names) && forall name :: name in names ==> name in state.latest
    ensures forall name :: name in names[..i] ==> name in state.latest
    ensures forall name :: name in names[..i + 1] ==> name in state.latest
    ensures var node, before := names[i], SinceAfter(state, policy, names[..i]);
            && (node in before <==> node in state.slowSince)
            && (node in before ==> before[node] == state.slowSince[node])
            && SinceAfter(state, policy, names[..i + 1]) ==
               if Sick(state, policy, node) then before[node := Started(state, node)] else before - {node}
  {
    hide Over, Ascending;
    var node := names[i];
    assert names[..i + 1] == names[..i] + [node];
    assert node !in names[..i] by {
      if node in names[..i] {
        var j :| 0 <= j < i && names[j] == node;
        AscendingDistinct(names, j, i);
      }
    }
  }

  lemma DecidedBy(state: State, policy: Policy, node: string, over: bool, now: int)
    requires node in state.latest && over == Over(state.latest, policy, node)
    ensures var report, started := state.latest[node], Started(state, node);
            && Sick(state, policy, node) == (report.writable && over)
            && ConditionOf(state, policy, node, now) ==
               Condition(node, if !report.writable then ReadOnly else if over && now - started >= policy.durationMs then Slow else Healthy,
                         if report.writable && over then started else report.reportedAt,
                         GroupMedian(state.latest, Append), GroupMedian(state.latest, Fsync))
  {
    hide Over, GroupMedian;
  }

  /** The group's reports and since when each node has been over. */
  class HealthWatch {
    const policy: Policy
    var latest: map<string, Report>
    var slowSince: map<string, int>

    ghost function Now(): State
      reads this
    {
      State(latest, slowSince)
    }

    constructor (policy: Policy)
      ensures Now() == State(map[], map[]) && this.policy == policy
    {
      this.policy := policy;
      latest, slowSince := map[], map[];
    }

    method Observe(report: Report)
      modifies this
      ensures Now() == ObserveStep(old(Now()), report)
    {
      latest := latest[report.node := report];
    }

    /** The group median of one measure, or zero for an empty group. */
    method MedianOf(measure: Measure) returns (median: U64)
      ensures median == GroupMedian(latest, measure)
    {
      var names := SortNames(latest.Keys);
      var values := Values(latest, names, measure);
      if |values| == 0 {
        return 0;
      }
      var sorted := SortBy(LatencyAtMost, values);
      median := sorted[|values| / 2];
    }

    /** Decides the state of every node of the group, in name order. */
    method Assess(now: int) returns (conditions: seq<Condition>)
      modifies this`slowSince
      ensures Now() == AssessStep(old(Now()), policy)
      ensures conditions == ConditionsOf(old(Now()), policy, Sorted(latest.Keys), now)
    {
      ghost var before := Now();
      var medianAppend := MedianOf(Append);
      var medianFsync := MedianOf(Fsync);
      var names := SortNames(latest.Keys);
      NothingAssessed(before, policy);
      NamesReport(before);
      hide GroupMedian, SinceAfter, ConditionOf, Ascending, Median, Values, Sorted;
      conditions := [];
      var i := 0;
      while i < |names|
        invariant 0 <= i <= |names|
        invariant slowSince == SinceAfter(before, policy, names[..i])
        invariant conditions == ConditionsOf(before, policy, names[..i], now)
      {
        assert names[..i + 1][..i] == names[..i];
        var condition := AssessOne(before, names, i, names[i], medianAppend, medianFsync, now);
        conditions := conditions + [condition];
        i := i + 1;
      }
      assert names[..i] == names;
    }

    /** Decides the state of one node and records since when it has been over. */
    method AssessOne(ghost before: State, ghost names: seq<string>, ghost i: nat, node: string,
                     medianAppend: U64, medianFsync: U64, now: int)
      returns (condition: Condition)
      requires before.latest == latest && i < |names| && Ascending(names) && forall name :: name in names ==> name in latest
      requires node == names[i] && slowSince == SinceAfter(before, policy, names[..i])
      requires medianAppend == GroupMedian(latest, Append) && medianFsync == GroupMedian(latest, Fsync)
      modifies this`slowSince
      ensures forall name :: name in names[..i + 1] ==> name in latest
      ensures slowSince == SinceAfter(before, policy, names[..i + 1])
      ensures condition == ConditionOf(before, policy, names[i], now)
    {
      hide GroupMedian, Exceeds, SinceAfter, Ascending, Median, Values, Sorted;
      SinceNext(before, policy, names, i);
      var report := latest[node];
      var over := Exceeds(report.appendLatency, medianAppend, policy.factor) ||
                  Exceeds(report.fsyncLatency, medianFsync, policy.factor);
      assert over == Over(before.latest, policy, node);
      DecidedBy(before, policy, node, over, now);
      hide Over, Sick, ConditionOf;
      var started := if node in slowSince then slowSince[node] else report.reportedAt;
      if !report.writable {
        slowSince := slowSince - {node};
        return Condition(node, ReadOnly, report.reportedAt, medianAppend, medianFsync);
      } else if over {
        slowSince := slowSince[node := started];
        return Condition(node, if now - started >= policy.durationMs then Slow else Healthy, started, medianAppend, medianFsync);
      } else {
        slowSince := slowSince - {node};
        return Condition(node, Healthy, report.reportedAt, medianAppend, medianFsync);
      }
    }
  }

  lemma NamesReport(state: State)
    ensures Ascending(Sorted(state.latest.Keys)) && forall name :: name in Sorted(state.latest.Keys) ==> name in state.latest
  {
  }

  lemma NothingAssessed(state: State, policy: Policy)
    ensures SinceAfter(state, policy, []) == state.slowSince
  {
  }

  // Runs

  datatype Event = Observing(report: Report) | Assessing(now: int)

  ghost function After(state: State, policy: Policy, event: Event): State {
    match event
    case Observing(report) => ObserveStep(state, report)
    case Assessing(_) => AssessStep(state, policy)
  }

  ghost function Watch(policy: Policy, events: seq<Event>): State {
    if events == [] then State(map[], map[])
    else After(Watch(policy, events[..|events| - 1]), policy, events[|events| - 1])
  }

  /** The assessment at `i` found the node over the threshold and writable. */
  ghost predicate FoundSick(policy: Policy, events: seq<Event>, i: nat, node: string)
    requires i < |events|
  {
    && node in Watch(policy, events[..i]).latest
    && Sick(Watch(policy, events[..i]), policy, node)
  }

  /** Every assessment from the `first` on found the node over and writable, and the
      first of them, before which nothing was recorded of the node, took the time the
      node reported then as the start. */
  ghost predicate SickSince(policy: Policy, events: seq<Event>, first: nat, node: string, started: int) {
    && first < |events| && events[first].Assessing?
    && FoundSick(policy, events, first, node)
    && node !in Watch(policy, events[..first]).slowSince
    && Watch(policy, events[..first]).latest[node].reportedAt == started
    && forall i :: first <= i < |events| && events[i].Assessing? ==> FoundSick(policy, events, i, node)
  }

  lemma SickSinceNext(policy: Policy, events: seq<Event>, event: Event, first: nat, node: string, started: int)
    requires SickSince(policy, events, first, node, started)
    requires event.Assessing? ==> node in Watch(policy, events).latest && Sick(Watch(policy, events), policy, node)
    ensures SickSince(policy, events + [event], first, node, started)
  {
    var next := events + [event];
    assert next[..|events|] == events;
    assert forall i :: 0 <= i < |events| ==> next[..i] == events[..i];
  }

  ghost predicate Recorded(state: State, node: string, started: int) {
    node in state.slowSince && state.slowSince[node] == started
  }

  ghost predicate HasBeenSick(policy: Policy, events: seq<Event>, node: string, started: int) {
    exists first :: SickSince(policy, events, first, node, started)
  }

  lemma {:induction false} OnlyReportingNodes(policy: Policy, events: seq<Event>)
    ensures Watch(policy, events).slowSince.Keys <= Watch(policy, events).latest.Keys
  {
    hide Sick;
    if events != [] { OnlyReportingNodes(policy, events[..|events| - 1]); }
  }

  lemma AssessRecords(state: State, policy: Policy, node: string, started: int)
    requires state.slowSince.Keys <= state.latest.Keys
    ensures Recorded(AssessStep(state, policy), node, started) <==>
            node in state.latest && Sick(state, policy, node) && Started(state, node) == started
  {
    hide Sick;
    assert node in state.latest.Keys <==> node in Sorted(state.latest.Keys);
  }

  lemma RecordedNext(policy: Policy, before: seq<Event>, event: Event, node: string, started: int)
    ensures var state := Watch(policy, before);
            Recorded(Watch(policy, before + [event]), node, started) <==>
            if event.Observing? then Recorded(state, node, started)
            else node in state.latest && Sick(state, policy, node) && Started(state, node) == started
  {
    OnlyReportingNodes(policy, before);
    AssessRecords(Watch(policy, before), policy, node, started);
    assert (before + [event])[..|before|] == before;
    hide Sick, AssessStep;
  }

  lemma {:induction false} RecordedWasSick(policy: Policy, events: seq<Event>, node: string, started: int)
    requires Recorded(Watch(policy, events), node, started)
    ensures HasBeenSick(policy, events, node, started)
  {
    hide Sick, SickSince, Watch;
    WatchedNothing(policy);
    var before, event := events[..|events| - 1], events[|events| - 1];
    assert events == before + [event];
    RecordedNext(policy, before, event, node, started);
    if event.Assessing? && node !in Watch(policy, before).slowSince {
      StretchBegins(policy, before, event, node);
    } else {
      RecordedWasSick(policy, before, node, started);
      var first :| SickSince(policy, before, first, node, started);
      SickSinceNext(policy, before, event, first, node, started);
    }
  }

  lemma WatchedNothing(policy: Policy)
    ensures Watch(policy, []) == State(map[], map[])
  {
  }

  lemma StretchBegins(policy: Policy, before: seq<Event>, event: Event, node: string)
    requires event.Assessing? && node in Watch(policy, before).latest && Sick(Watch(policy, before), policy, node)
    requires node !in Watch(policy, before).slowSince
    ensures HasBeenSick(policy, before + [event], node, Watch(policy, before).latest[node].reportedAt)
  {
    hide Sick;
    var next := before + [event];
    assert next[..|before|] == before;
    assert SickSince(policy, next, |before|, node, Watch(policy, before).latest[node].reportedAt);
  }

  lemma {:induction false} SickIsRecorded(policy: Policy, events: seq<Event>, first: nat, node: string, started: int)
    requires SickSince(policy, events, first, node, started)
    ensures Recorded(Watch(policy, events), node, started)
  {
    hide *;
    var n := |events| - 1;
    SickLast(policy, events, first, node, started);
    RecordedLast(policy, events, node, started);
    if first < n {
      SickSinceBefore(policy, events, first, node, started);
      SickIsRecorded(policy, events[..n], first, node, started);
      RecordedIsStart(Watch(policy, events[..n]), node, started);
    }
  }

  lemma RecordedLast(policy: Policy, events: seq<Event>, node: string, started: int)
    requires events != []
    ensures var state, event := Watch(policy, events[..|events| - 1]), events[|events| - 1];
            Recorded(Watch(policy, events), node, started) <==>
            if event.Observing? then Recorded(state, node, started)
            else node in state.latest && Sick(state, policy, node) && Started(state, node) == started
  {
    hide *;
    var before, event := events[..|events| - 1], events[|events| - 1];
    assert events == before + [event];
    RecordedNext(policy, before, event, node, started);
  }

  lemma RecordedIsStart(state: State, node: string, started: int)
    requires Recorded(state, node, started)
    ensures node in state.latest ==> Started(state, node) == started
  {
  }

  lemma SickLast(policy: Policy, events: seq<Event>, first: nat, node: string, started: int)
    requires SickSince(policy, events, first, node, started)
    ensures first < |events|
    ensures var state, event := Watch(policy, events[..|events| - 1]), events[|events| - 1];
            && (event.Assessing? ==> node in state.latest && Sick(state, policy, node))
            && (first == |events| - 1 ==> event.Assessing? && Started(state, node) == started)
  {
    hide Sick, Watch;
    assert events[|events| - 1].Assessing? ==> FoundSick(policy, events, |events| - 1, node);
  }

  lemma SickSinceBefore(policy: Policy, events: seq<Event>, first: nat, node: string, started: int)
    requires SickSince(policy, events, first, node, started) && first < |events| - 1
    ensures SickSince(policy, events[..|events| - 1], first, node, started)
  {
    hide Sick, Watch;
    var before := events[..|events| - 1];
    forall i | 0 <= i < |before| ensures before[..i] == events[..i] && before[i] == events[i] {}
    forall i | first <= i < |before| && before[i].Assessing? ensures FoundSick(policy, before, i, node) {
      assert FoundSick(policy, events, i, node);
    }
  }

  /** What the watch records of a node is when an unbroken stretch of assessments that
      found it over began, and every such stretch is recorded. */
  lemma RecordedIffUnbroken(policy: Policy, events: seq<Event>, node: string, started: int)
    ensures Recorded(Watch(policy, events), node, started) <==> HasBeenSick(policy, events, node, started)
  {
    hide SickSince, Watch, Recorded;
    if Recorded(Watch(policy, events), node, started) {
      RecordedWasSick(policy, events, node, started);
    }
    if HasBeenSick(policy, events, node, started) {
      var first :| SickSince(policy, events, first, node, started);
      SickIsRecorded(policy, events, first, node, started);
    }
  }

  /** A node is called slow exactly if every assessment of an unbroken stretch, this one
      too, found it over and writable, and the stretch started the hold time ago. The
      condition names that start. */
  lemma SlowIffHeldThatLong(policy: Policy, events: seq<Event>, now: int, node: string)
    requires node in Watch(policy, events).latest
    ensures StateOf(Watch(policy, events), policy, node, now) == Slow <==>
            exists started :: HasBeenSick(policy, events + [Assessing(now)], node, started) && now - started >= policy.durationMs
    ensures Sick(Watch(policy, events), policy, node) ==>
              HasBeenSick(policy, events + [Assessing(now)], node, ConditionOf(Watch(policy, events), policy, node, now).since)
  {
    hide HasBeenSick, Watch, Over;
    forall started ensures HasBeenSick(policy, events + [Assessing(now)], node, started) <==>
                           Sick(Watch(policy, events), policy, node) && Started(Watch(policy, events), node) == started
    {
      RecordedIffUnbroken(policy, events + [Assessing(now)], node, started);
      RecordedNext(policy, events, Assessing(now), node, started);
    }
    var started := Started(Watch(policy, events), node);
    assert Sick(Watch(policy, events), policy, node) ==> HasBeenSick(policy, events + [Assessing(now)], node, started);
  }

  /** The whole group is never slow at once, at any assessment, with a factor of at
      least one. */
  lemma NeverAllSlow(policy: Policy, state: State, now: int) returns (spared: string)
    requires policy.factor >= 1 && state.latest != map[]
    ensures spared in state.latest && StateOf(state, policy, spared, now) != Slow
  {
    SomebodyIsNotOver(state.latest, policy);
    spared :| spared in state.latest && !Over(state.latest, policy, spared);
  }

  ghost predicate AllSlow(state: State, policy: Policy, now: int) {
    forall node :: node in state.latest ==> StateOf(state, policy, node, now) == Slow
  }

  /** No group is ever slow as a whole exactly when the factor is at least one. */
  lemma NeverAllSlowIffFactor(policy: Policy)
    ensures (forall state: State, now :: state.latest != map[] ==> !AllSlow(state, policy, now)) <==> policy.factor >= 1
  {
    hide Over;
    if policy.factor >= 1 {
      forall state: State, now | state.latest != map[] ensures !AllSlow(state, policy, now) {
        var spared := NeverAllSlow(policy, state, now);
      }
    } else {
      var latest := LoneNodeIsOver(policy);
      var state := State(latest, map[]);
      assert AllSlow(state, policy, policy.durationMs);
      assert "node" in state.latest;
    }
  }

  // How long it was seen

  /** Whenever the node is called slow, it has been over for the hold time since then. */
  ghost predicate HeldSince(policy: Policy, state: State, node: string, since: int)
    requires node in state.latest
  {
    forall now :: StateOf(state, policy, node, now) == Slow ==> now - since >= policy.durationMs
  }

  /** The hold time runs from the report, not from the assessment that first saw the
      node over. So a slow node was seen over for the hold time exactly when that first
      assessment was no later than the report it read. */
  lemma SeenThatLongIffReportIsNotOlder(policy: Policy, events: seq<Event>, first: nat, node: string, started: int)
    requires SickSince(policy, events, first, node, started)
    requires node in Watch(policy, events).latest && Sick(Watch(policy, events), policy, node)
    ensures HeldSince(policy, Watch(policy, events), node, events[first].now) <==> events[first].now <= started
  {
    var state, seen := Watch(policy, events), events[first].now;
    SickIsRecorded(policy, events, first, node, started);
    hide SickSince, Over, Watch;
    if HeldSince(policy, state, node, seen) {
      assert StateOf(state, policy, node, started + policy.durationMs) == Slow;
    }
  }

  /** The assessment that first finds a node over calls it slow. */
  ghost predicate SlowAtOnce(policy: Policy, events: seq<Event>, node: string, now: int) {
    var state := Watch(policy, events);
    node in state.latest && node !in state.slowSince && StateOf(state, policy, node, now) == Slow
  }

  lemma FirstSightIsSlowIffOld(state: State, policy: Policy, node: string, now: int)
    requires node in state.latest && node !in state.slowSince && Sick(state, policy, node)
    ensures StateOf(state, policy, node, now) == Slow <==> now - state.latest[node].reportedAt >= policy.durationMs
  {
  }

  /** It does so exactly when the report it reads is as old as the hold time. */
  lemma SlowAtOnceIffReportIsOld(policy: Policy, events: seq<Event>, node: string, now: int)
    requires node in Watch(policy, events).latest && Sick(Watch(policy, events), policy, node)
    requires !exists started :: HasBeenSick(policy, events, node, started)
    ensures SlowAtOnce(policy, events, node, now) <==>
            now - Watch(policy, events).latest[node].reportedAt >= policy.durationMs
  {
    hide Over, Watch, HasBeenSick;
    var state := Watch(policy, events);
    if node in state.slowSince {
      RecordedIffUnbroken(policy, events, node, state.slowSince[node]);
    }
    FirstSightIsSlowIffOld(state, policy, node, now);
  }

  /** Three nodes, one of them as far over as a latency can be. */
  function ThreeReports(at: int): seq<Event> {
    [Observing(Report("a", 1, 1, true, at)), Observing(Report("b", 1, 1, true, at)),
     Observing(Report("c", U64_MAX, 1, true, at))]
  }

  lemma ThreeReported(policy: Policy, at: int)
    ensures var events := ThreeReports(at);
            Watch(policy, events) == State(map["a" := events[0].report, "b" := events[1].report, "c" := events[2].report], map[])
  {
    hide AssessStep;
    var events := ThreeReports(at);
    var two, one := events[..2], events[..1];
    assert two[..1] == one && one[..0] == [];
    assert Watch(policy, one) == State(map["a" := events[0].report], map[]);
    assert Watch(policy, two) == State(map["a" := events[0].report, "b" := events[1].report], map[]);
  }

  lemma OldReportIsSlow(policy: Policy, at: int)
    requires policy.factor < U64_MAX
    ensures SlowAtOnce(policy, ThreeReports(at), "c", at + policy.durationMs)
  {
    var events := ThreeReports(at);
    ThreeReported(policy, at);
    MostIsOver(map["a" := events[0].report, "b" := events[1].report, "c" := events[2].report], policy);
    hide Watch, Over;
  }

  lemma MostIsOver(latest: map<string, Report>, policy: Policy)
    requires latest.Keys == {"a", "b", "c"} && policy.factor < U64_MAX
    requires latest["a"].appendLatency == 1 == latest["b"].appendLatency && latest["c"].appendLatency == U64_MAX
    ensures Over(latest, policy, "c")
  {
    AscendingUnique(Sorted(latest.Keys), ["a", "b", "c"]);
    assert Values(latest, ["a", "b", "c"], Append) == [1, 1, U64_MAX];
    OneOneMost();
    hide Median, Values, Sorted;
    assert GroupMedian(latest, Append) == 1;
    hide GroupMedian;
  }

  lemma OneOneMost()
    ensures Median([1, 1, U64_MAX]) == 1
  {
    var values: seq<U64>, top: U64 := [1, 1, U64_MAX], U64_MAX;
    var two, one := values[..2], values[..1];
    assert two[..1] == one == two[1..] && one[..0] == [] == one[1..];
    assert SortBy(LatencyAtMost, one) == one && SortBy(LatencyAtMost, two) == two;
    assert Inserted(LatencyAtMost, top, one) == one + [top];
    assert Inserted(LatencyAtMost, top, two) == one + Inserted(LatencyAtMost, top, one);
    assert SortBy(LatencyAtMost, values) == values;
  }

  lemma NobodyIsOverAtTheTop(latest: map<string, Report>, policy: Policy, node: string)
    requires policy.factor == U64_MAX && node in latest
    ensures !Over(latest, policy, node)
  {
    hide GroupMedian;
    forall median: U64, value: U64 ensures !Exceeds(value, median, U64_MAX) {
      assert median >= 2 ==> median * U64_MAX > U64_MAX;
    }
  }

  /** So a node can be called slow the first time it is seen, and with every factor
      with which one can be called slow at all. */
  lemma SlowAtOnceIffFactor(policy: Policy)
    ensures (exists events, node, now :: SlowAtOnce(policy, events, node, now)) <==> policy.factor < U64_MAX
  {
    if policy.factor < U64_MAX {
      OldReportIsSlow(policy, 0);
    } else {
      forall events, node, now ensures !SlowAtOnce(policy, events, node, now) {
        if node in Watch(policy, events).latest { NobodyIsOverAtTheTop(Watch(policy, events).latest, policy, node); }
      }
    }
  }
}
