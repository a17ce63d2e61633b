// A meter that aggregates measurements into series and reports them in one of two
// modes (packages/driver-go/metrics.go). A Go string is a sequence of bytes, and a char
// below stands for one byte. Values are reals, and the clock is an argument.

module Metrics {
  import opened Common
  import opened Orders
  import opened Sorting

  type Labels = map<string, string>

  datatype Kind = Counter | Gauge | Histogram

  datatype Budget = Budget(maxSeriesForEachMetric: int, maxLabels: int, maxLabelValueBytes: int)

  datatype Pressure = Pressure(seriesRefused: nat, labelsRefused: nat, valueRefused: nat)

  datatype Buckets = Buckets(bounds: seq<real>, counts: seq<nat>, sum: real, count: nat)

  datatype Series = Series(
    labels: Labels, startAt: int, updatedAt: int, value: real, histogram: Option<Buckets>,
    exemplar: seq<nat>, dirty: bool)

  datatype Family = Family(kind: Kind, unit: string, description: string, bounds: seq<real>,
                           order: seq<string>, series: map<string, Series>)

  /** Everything a meter holds. */
  datatype State = State(families: map<string, Family>, order: seq<string>, pressure: Pressure, periodStartedAt: int)

  datatype Point = Point(
    name: string, key: string, kind: Kind, labels: Labels, startAt: int, endAt: int,
    number: real, histogram: Option<Buckets>, exemplar: seq<nat>)

  // The key of a label set

  const NUL := '\0'

  function Terminated(token: string): string { token + [NUL] }

  /** The names in order, each followed by its value, each ended by a NUL. */
  ghost function Tokens(labels: Labels, names: seq<string>): seq<string>
    requires forall name :: name in names ==> name in labels
  {
    if names == [] then []
    else Tokens(labels, names[..|names| - 1]) + [names[|names| - 1], labels[names[|names| - 1]]]
  }

  ghost function Joined(tokens: seq<string>): string {
    if tokens == [] then "" else Joined(tokens[..|tokens| - 1]) + Terminated(tokens[|tokens| - 1])
  }

  ghost function Key(labels: Labels): string {
    Joined(Tokens(labels, Sorted(labels.Keys)))
  }

  method KeyOf(labels: Labels) returns (key: string)
    ensures key == Key(labels)
  {
    if |labels| == 0 {
      NoLabelsNoKey(labels);
      return "";
    }
    var names := SortNames(labels.Keys);
    key := "";
    var i := 0;
    while i < |names|
      invariant 0 <= i <= |names| && key == Joined(Tokens(labels, names[..i]))
    {
      hide Joined, Tokens;
      KeyNext(labels, names, i);
      key := key + names[i] + [NUL] + labels[names[i]] + [NUL];
      i := i + 1;
    }
    assert names[..i] == names;
  }

  lemma NoLabelsNoKey(labels: Labels)
    requires |labels| == 0
    ensures Key(labels) == ""
  {
    assert labels.Keys == {};
  }

  lemma KeyNext(labels: Labels, names: seq<string>, i: nat)
    requires i < |names| && forall name :: name in names ==> name in labels
    ensures Joined(Tokens(labels, names[..i + 1])) ==
            Joined(Tokens(labels, names[..i])) + names[i] + [NUL] + labels[names[i]] + [NUL]
  {
    hide Joined;
    assert names[..i + 1][..i] == names[..i];
    JoinedPair(Tokens(labels, names[..i]), names[i], labels[names[i]]);
  }

  lemma JoinedPair(tokens: seq<string>, a: string, b: string)
    ensures Joined(tokens + [a, b]) == Joined(tokens) + a + [NUL] + b + [NUL]
  {
    assert (tokens + [a, b])[..|tokens| + 1] == tokens + [a];
    assert (tokens + [a])[..|tokens|] == tokens;
  }

  predicate NulFree(token: string) { NUL !in token }

  ghost predicate NulFreeLabels(labels: Labels) {
    forall name :: name in labels ==> NulFree(name) && NulFree(labels[name])
  }

  /** Where the last of some terminated tokens starts can be read off the text. */
  lemma LastToken(a: string, x: string, b: string, y: string)
    requires a + Terminated(x) == b + Terminated(y) && NulFree(x) && NulFree(y)
    requires (a == "" || a[|a| - 1] == NUL) && (b == "" || b[|b| - 1] == NUL)
    ensures a == b && x == y
  {
    var text := a + Terminated(x);
    assert |text| == |a| + |x| + 1 && |text| == |b| + |y| + 1;
    forall k | |a| <= k < |text| - 1 ensures text[k] != NUL { assert text[k] == x[k - |a|]; }
    forall k | |b| <= k < |text| - 1 ensures text[k] != NUL { assert text[k] == y[k - |b|]; }
    assert a != "" ==> text[|a| - 1] == NUL;
    assert b != "" ==> text[|b| - 1] == NUL;
    assert |a| == |b|;
    assert a == text[..|a|] && b == text[..|b|];
    assert x == text[|a|..|text| - 1] && y == text[|b|..|text| - 1];
  }

  lemma JoinedEnds(tokens: seq<string>)
    ensures Joined(tokens) == "" <==> tokens == []
    ensures tokens != [] ==> Joined(tokens)[|Joined(tokens)| - 1] == NUL
  {
  }

  lemma {:induction false} JoinedInjective(a: seq<string>, b: seq<string>)
    requires (forall t :: t in a ==> NulFree(t)) && (forall t :: t in b ==> NulFree(t)) && Joined(a) == Joined(b)
    ensures a == b
  {
    JoinedEnds(a);
    JoinedEnds(b);
    if a != [] {
      var m, n := |a| - 1, |b| - 1;
      JoinedEnds(a[..m]);
      JoinedEnds(b[..n]);
      LastToken(Joined(a[..m]), a[m], Joined(b[..n]), b[n]);
      JoinedInjective(a[..m], b[..n]);
      assert a == a[..m] + [a[m]] && b == b[..n] + [b[n]];
    }
  }

  lemma {:induction false} TokensAre(labels: Labels, names: seq<string>)
    requires forall name :: name in names ==> name in labels
    ensures |Tokens(labels, names)| == 2 * |names|
    ensures forall i :: 0 <= i < |names| ==>
              Tokens(labels, names)[2 * i] == names[i] && Tokens(labels, names)[2 * i + 1] == labels[names[i]]
    ensures NulFreeLabels(labels) ==> forall t :: t in Tokens(labels, names) ==> NulFree(t)
  {
    if names != [] { TokensAre(labels, names[..|names| - 1]); }
  }

  lemma TokensIdentify(a: Labels, b: Labels, names: seq<string>, others: seq<string>)
    requires (forall name :: name in names <==> name in a) && (forall name :: name in others <==> name in b)
    requires Tokens(a, names) == Tokens(b, others)
    ensures a == b
  {
    TokensAre(a, names);
    TokensAre(b, others);
    forall i | 0 <= i < |names| ensures names[i] == others[i] && a[names[i]] == b[others[i]] {
      assert Tokens(a, names)[2 * i] == Tokens(b, others)[2 * i];
      assert Tokens(a, names)[2 * i + 1] == Tokens(b, others)[2 * i + 1];
    }
    hide Tokens;
    assert names == others;
    assert a.Keys == b.Keys by {
      forall name ensures name in a.Keys <==> name in b.Keys { assert name in names <==> name in others; }
    }
    forall name | name in a ensures a[name] == b[name] {
      assert name in names;
      var i :| 0 <= i < |names| && names[i] == name;
    }
  }

  /** Two label sets without NUL bytes have one key exactly when they are the same. */
  lemma KeyIdentifiesLabels(a: Labels, b: Labels)
    requires NulFreeLabels(a) && NulFreeLabels(b)
    ensures Key(a) == Key(b) <==> a == b
  {
    hide Tokens, Joined;
    if Key(a) == Key(b) {
      var names, others := Sorted(a.Keys), Sorted(b.Keys);
      TokensAre(a, names);
      TokensAre(b, others);
      JoinedInjective(Tokens(a, names), Tokens(b, others));
      TokensIdentify(a, b, names, others);
    }
  }

  lemma OneLabelKey(name: string, value: string)
    ensures Key(map[name := value]) == name + [NUL] + value + [NUL]
  {
    var labels := map[name := value];
    AscendingUnique(Sorted(labels.Keys), [name]);
    assert [name][..0] == [];
    assert Tokens(labels, [name]) == Tokens(labels, []) + [name, value] == [] + [name, value];
    JoinedPair([], name, value);
  }

  lemma SplitEarlier(a: string, b: string, value: string) returns (other: Labels)
    ensures other == map[a := b + [NUL] + value] && a in other && a != a + [NUL] + b
    ensures Key(other) == (a + [NUL] + b) + [NUL] + value + [NUL]
  {
    other := map[a := b + [NUL] + value];
    OneLabelKey(a, b + [NUL] + value);
    assert |a + [NUL] + b| > |a|;
    assert a + [NUL] + (b + [NUL] + value) + [NUL] == (a + [NUL] + b) + [NUL] + value + [NUL];
  }

  lemma SplitLater(name: string, a: string, b: string) returns (other: Labels)
    ensures other == map[name + [NUL] + a := b] && name !in other
    ensures Key(other) == name + [NUL] + (a + [NUL] + b) + [NUL]
  {
    other := map[name + [NUL] + a := b];
    OneLabelKey(name + [NUL] + a, b);
    assert |name + [NUL] + a| > |name|;
    assert (name + [NUL] + a) + [NUL] + b + [NUL] == name + [NUL] + (a + [NUL] + b) + [NUL];
  }

  lemma NulMovesTheBoundary(name: string, value: string) returns (other: Labels)
    requires !NulFree(name) || !NulFree(value)
    ensures other != map[name := value] && Key(other) == Key(map[name := value])
  {
    hide Key;
    OneLabelKey(name, value);
    if NUL in name {
      var i :| 0 <= i < |name| && name[i] == NUL;
      other := SplitEarlier(name[..i], name[i + 1..], value);
      assert name == name[..i] + [NUL] + name[i + 1..];
    } else {
      var i :| 0 <= i < |value| && value[i] == NUL;
      other := SplitLater(name, value[..i], value[i + 1..]);
      assert value == value[..i] + [NUL] + value[i + 1..];
    }
  }

  /** Two labels or more read the same as one whose name holds all but the last value. */
  lemma ManyReadAsOne(labels: Labels) returns (other: Labels)
    requires labels != map[]
    ensures |other| == 1 && Key(other) == Key(labels)
  {
    var names := Sorted(labels.Keys);
    assert |names| == |labels.Keys| && labels.Keys != {};
    var n := |names| - 1;
    var front, name, value := Joined(Tokens(labels, names[..n])), names[n], labels[names[n]];
    JoinedPair(Tokens(labels, names[..n]), name, value);
    hide Key, Joined, Tokens;
    other := map[front + name := value];
    OneLabelKey(front + name, value);
  }

  /** Any label set with a NUL in it, or with two labels or more, shares its key, and
      so its series, with another label set. */
  lemma NulMakesLabelsCollide(labels: Labels) returns (other: Labels)
    requires |labels| >= 2 || !NulFreeLabels(labels)
    ensures other != labels && Key(other) == Key(labels)
  {
    hide Key;
    if |labels| >= 2 {
      other := ManyReadAsOne(labels);
    } else {
      var name :| name in labels && !(NulFree(name) && NulFree(labels[name]));
      OneKey(labels.Keys, name);
      assert labels == map[name := labels[name]];
      other := NulMovesTheBoundary(name, labels[name]);
    }
  }

  lemma OneKey(names: set<string>, name: string)
    requires |names| <= 1 && name in names
    ensures names == {name}
  {
    var rest := names - {name};
    assert |rest| == 0;
    assert names == rest + {name};
  }

  ghost function Nuls(text: string): nat {
    if text == "" then 0 else Nuls(text[..|text| - 1]) + if text[|text| - 1] == NUL then 1 else 0
  }

  lemma {:induction false} NulsConcat(a: string, b: string)
    ensures Nuls(a + b) == Nuls(a) + Nuls(b)
  {
    if b == "" {
      assert a + b == a;
    } else {
      assert (a + b)[..|a + b| - 1] == a + b[..|b| - 1];
      NulsConcat(a, b[..|b| - 1]);
    }
  }

  lemma {:induction false} NoNuls(text: string)
    ensures Nuls(text) == 0 <==> NulFree(text)
  {
    if text != "" {
      var n := |text| - 1;
      NoNuls(text[..n]);
      assert text == text[..n] + [text[n]];
    }
  }

  /** A text has a NUL for each of its tokens, and no more exactly if they have none. */
  lemma {:induction false} NulsJoined(tokens: seq<string>)
    ensures Nuls(Joined(tokens)) >= |tokens|
    ensures Nuls(Joined(tokens)) == |tokens| <==> forall t :: t in tokens ==> NulFree(t)
  {
    if tokens != [] {
      var n := |tokens| - 1;
      NulsJoined(tokens[..n]);
      NulsConcat(Joined(tokens[..n]), Terminated(tokens[n]));
      assert Terminated(tokens[n])[..|tokens[n]|] == tokens[n];
      NoNuls(tokens[n]);
      assert tokens == tokens[..n] + [tokens[n]];
    }
  }

  /** A key has two NULs for each label, and no more exactly if the labels have none. */
  lemma NulsOfKey(labels: Labels)
    ensures Nuls(Key(labels)) >= 2 * |labels|
    ensures Nuls(Key(labels)) == 2 * |labels| <==> NulFreeLabels(labels)
  {
    var names := Sorted(labels.Keys);
    var tokens := Tokens(labels, names);
    assert |names| == |labels.Keys| == |labels|;
    TokensAre(labels, names);
    NulsJoined(tokens);
    hide Tokens, Joined, Nuls;
    if forall t :: t in tokens ==> NulFree(t) {
      forall name | name in labels ensures NulFree(name) && NulFree(labels[name]) {
        var i :| 0 <= i < |names| && names[i] == name;
        assert tokens[2 * i] in tokens && tokens[2 * i + 1] in tokens;
      }
    }
  }

  ghost predicate KeyIsUnique(labels: Labels) {
    forall other :: Key(other) == Key(labels) ==> other == labels
  }

  /** A key tells its label set from every other exactly when there are no labels, or
      there is one and it has no NUL. */
  lemma KeyIsUniqueIff(labels: Labels)
    ensures KeyIsUnique(labels) <==> |labels| == 0 || (|labels| == 1 && NulFreeLabels(labels))
  {
    hide Key, NulFreeLabels, Nuls;
    EmptyIsNulFree(labels);
    if |labels| >= 2 || !NulFreeLabels(labels) {
      var other := NulMakesLabelsCollide(labels);
    } else {
      NulsOfKey(labels);
      forall other | Key(other) == Key(labels) ensures other == labels {
        NulsOfKey(other);
        EmptyIsNulFree(other);
        KeyIdentifiesLabels(other, labels);
      }
    }
  }

  lemma EmptyIsNulFree(labels: Labels)
    ensures |labels| == 0 ==> NulFreeLabels(labels)
  {
    assert |labels| == 0 ==> labels == map[];
  }

  // Recording

  datatype Outcome =
    | Recorded
    | TooManyLabels
    | ValueTooLong
    | Undeclared
    | WrongKind
    | TooManySeries
    | NegativeAmount

  /** What a call does to the series it finds. */
  datatype Op = Adding(delta: real) | Setting(value: real) | Observing(value: real, trace: seq<nat>)

  function KindOf(op: Op): Kind {
    match op
    case Adding(_) => Counter
    case Setting(_) => Gauge
    case Observing(_, _) => Histogram
  }

  predicate LongValue(labels: Labels, limit: int) {
    exists name :: name in labels && |labels[name]| > limit
  }

  /** Why a call is refused: the checks in the order they are made. */
  ghost function Check(state: State, budget: Budget, name: string, labels: Labels, op: Op): Outcome {
    if op.Adding? && op.delta < 0.0 then NegativeAmount
    else if |labels| > budget.maxLabels then TooManyLabels
    else if LongValue(labels, budget.maxLabelValueBytes) then ValueTooLong
    else if name !in state.families then Undeclared
    else if state.families[name].kind != KindOf(op) then WrongKind
    else if Key(labels) !in state.families[name].series &&
            |state.families[name].series| >= budget.maxSeriesForEachMetric then TooManySeries
    else Recorded
  }

  function Refused(pressure: Pressure, outcome: Outcome): Pressure {
    match outcome
    case TooManyLabels => pressure.(labelsRefused := pressure.labelsRefused + 1)
    case ValueTooLong => pressure.(valueRefused := pressure.valueRefused + 1)
    case TooManySeries => pressure.(seriesRefused := pressure.seriesRefused + 1)
    case _ => pressure
  }

  function NewSeries(labels: Labels, kind: Kind, bounds: seq<real>, at: int): Series {
    Series(labels, at, at, 0.0,
           if kind == Histogram then Some(Buckets(bounds, seq(|bounds|, i => 0), 0.0, 0)) else None, [], false)
  }

  function Observed(buckets: Buckets, value: real): Buckets
    requires |buckets.counts| == |buckets.bounds|
  {
    Buckets(buckets.bounds,
            seq(|buckets.bounds|, i requires 0 <= i < |buckets.bounds| =>
                  buckets.counts[i] + if value <= buckets.bounds[i] then 1 else 0),
            buckets.sum + value, buckets.count + 1)
  }

  function Applied(series: Series, op: Op, at: int): Series
    requires series.histogram.Some? ==> |series.histogram.value.counts| == |series.histogram.value.bounds|
  {
    match op
    case Adding(delta) => series.(value := series.value + delta, updatedAt := at, dirty := true)
    case Setting(value) => series.(value := value, updatedAt := at, startAt := at, dirty := true)
    case Observing(value, trace) =>
      series.(histogram := if series.histogram.Some? then Some(Observed(series.histogram.value, value)) else None,
              updatedAt := at, exemplar := if |trace| > 0 then trace else series.exemplar, dirty := true)
  }

  // What holds of every state

  ghost predicate Lists<T>(order: seq<string>, entries: map<string, T>) {
    && (forall name :: name in order <==> name in entries)
    && forall i, j :: 0 <= i < j < |order| ==> order[i] != order[j]
  }

  ghost predicate ShapeOf(series: Series, kind: Kind, bounds: seq<real>) {
    && (series.histogram.Some? <==> kind == Histogram)
    && (series.histogram.Some? ==>
          series.histogram.value.bounds == bounds && |series.histogram.value.counts| == |bounds|)
  }

  ghost predicate GoodFamily(family: Family) {
    && Lists(family.order, family.series)
    && forall key :: key in family.series ==> ShapeOf(family.series[key], family.kind, family.bounds)
  }

  ghost predicate Good(state: State) {
    && Lists(state.order, state.families)
    && forall name :: name in state.families ==> GoodFamily(state.families[name])
  }

  ghost function RecordStep(state: State, budget: Budget, name: string, labels: Labels, op: Op, at: int): State
    requires Good(state)
  {
    var outcome := Check(state, budget, name, labels, op);
    if outcome != Recorded then
      state.(pressure := Refused(state.pressure, outcome))
    else
      state.(families := state.families[name := FamilyStep(state.families[name], labels, op, at)])
  }

  /** The family with the call applied to its series, which is made if need be. */
  ghost function FamilyStep(family: Family, labels: Labels, op: Op, at: int): Family
    requires GoodFamily(family)
  {
    var key := Key(labels);
    if key in family.series then
      assert ShapeOf(family.series[key], family.kind, family.bounds);
      family.(series := family.series[key := Applied(family.series[key], op, at)])
    else
      family.(series := family.series[key := Applied(NewSeries(labels, family.kind, family.bounds, at), op, at)],
              order := family.order + [key])
  }

  predicate BoundAtMost(a: real, b: real) { a <= b }

  function DeclareStep(state: State, name: string, kind: Kind, unit: string, description: string, bounds: seq<real>): State {
    if name in state.families then state
    else state.(families := state.families[name := Family(kind, unit, description, SortBy(BoundAtMost, bounds), [], map[])],
                order := state.order + [name])
  }

  // Reporting

  predicate Reports(series: Series, delta: bool) { series.dirty || !delta }

  function PointOf(name: string, key: string, family: Family, series: Series, delta: bool, periodStart: int, endAt: int): Point {
    Point(name, key, family.kind, series.labels,
          if family.kind == Gauge then series.updatedAt else if delta then periodStart else series.startAt,
          if family.kind == Gauge then series.updatedAt else endAt,
          series.value, series.histogram, series.exemplar)
  }

  function Zeroed(buckets: Buckets): Buckets {
    buckets.(sum := 0.0, count := 0, counts := seq(|buckets.counts|, i => 0))
  }

  /** What reporting a series leaves of it. */
  function Taken(series: Series, delta: bool, endAt: int): Series {
    if !Reports(series, delta) then series
    else if !delta then series.(dirty := false)
    else series.(dirty := false, value := 0.0, startAt := endAt,
                 histogram := if series.histogram.Some? then Some(Zeroed(series.histogram.value)) else None)
  }

  function TakenFamily(family: Family, delta: bool, endAt: int): Family {
    family.(series := map key | key in family.series :: Taken(family.series[key], delta, endAt))
  }

  function SnapStep(state: State, delta: bool, endAt: int): State {
    state.(periodStartedAt := endAt,
           families := map name | name in state.families :: TakenFamily(state.families[name], delta, endAt))
  }

  function FamilyPoints(name: string, family: Family, keys: seq<string>, delta: bool, periodStart: int, endAt: int): seq<Point>
    requires forall key :: key in keys ==> key in family.series
  {
    if keys == [] then []
    else
      var key := keys[|keys| - 1];
      FamilyPoints(name, family, keys[..|keys| - 1], delta, periodStart, endAt)
      + if Reports(family.series[key], delta)
        then [PointOf(name, key, family, family.series[key], delta, periodStart, endAt)] else []
  }

  ghost function SnapPoints(state: State, names: seq<string>, delta: bool, endAt: int): seq<Point>
    requires Good(state) && forall name :: name in names ==> name in state.families
  {
    if names == [] then []
    else
      var name := names[|names| - 1];
      assert GoodFamily(state.families[name]);
      SnapPoints(state, names[..|names| - 1], delta, endAt)
      + FamilyPoints(name, state.families[name], state.families[name].order, delta, state.periodStartedAt, endAt)
  }

  // Every step keeps the shape

  lemma ListsNext<T>(order: seq<string>, entries: map<string, T>, name: string, entry: T)
    requires Lists(order, entries)
    ensures name in entries ==> Lists(order, entries[name := entry])
    ensures name !in entries ==> Lists(order + [name], entries[name := entry])
  {
  }

  lemma AppliedKeepsShape(series: Series, op: Op, at: int, kind: Kind, bounds: seq<real>)
    requires ShapeOf(series, kind, bounds)
    ensures ShapeOf(Applied(series, op, at), kind, bounds)
  {
  }

  lemma FamilyStepKeeps(family: Family, labels: Labels, op: Op, at: int)
    requires GoodFamily(family)
    ensures GoodFamily(FamilyStep(family, labels, op, at))
  {
    hide Applied, NewSeries, Key;
    var key := Key(labels);
    NewSeriesShape(labels, family.kind, family.bounds, at);
    var series := if key in family.series then family.series[key] else NewSeries(labels, family.kind, family.bounds, at);
    AppliedKeepsShape(series, op, at, family.kind, family.bounds);
    ListsNext(family.order, family.series, key, Applied(series, op, at));
  }

  lemma NewSeriesShape(labels: Labels, kind: Kind, bounds: seq<real>, at: int)
    ensures ShapeOf(NewSeries(labels, kind, bounds, at), kind, bounds)
  {
  }

  lemma RecordKeeps(state: State, budget: Budget, name: string, labels: Labels, op: Op, at: int)
    requires Good(state)
    ensures Good(RecordStep(state, budget, name, labels, op, at))
  {
    hide GoodFamily, FamilyStep, Key;
    if Check(state, budget, name, labels, op) == Recorded {
      FamilyStepKeeps(state.families[name], labels, op, at);
      ListsNext(state.order, state.families, name, FamilyStep(state.families[name], labels, op, at));
    }
  }

  lemma DeclareKeeps(state: State, name: string, kind: Kind, unit: string, description: string, bounds: seq<real>)
    requires Good(state)
    ensures Good(DeclareStep(state, name, kind, unit, description, bounds))
  {
    var family := Family(kind, unit, description, SortBy(BoundAtMost, bounds), [], map[]);
    ListsNext(state.order, state.families, name, family);
  }

  lemma TakenKeepsShape(series: Series, delta: bool, endAt: int, kind: Kind, bounds: seq<real>)
    requires ShapeOf(series, kind, bounds)
    ensures ShapeOf(Taken(series, delta, endAt), kind, bounds)
  {
  }

  lemma TakenFamilyKeeps(family: Family, delta: bool, endAt: int)
    requires GoodFamily(family)
    ensures GoodFamily(TakenFamily(family, delta, endAt))
  {
    hide ShapeOf, Taken;
    forall key | key in family.series
      ensures ShapeOf(TakenFamily(family, delta, endAt).series[key], family.kind, family.bounds)
    {
      TakenKeepsShape(family.series[key], delta, endAt, family.kind, family.bounds);
    }
  }

  lemma SnapKeeps(state: State, delta: bool, endAt: int)
    requires Good(state)
    ensures Good(SnapStep(state, delta, endAt))
  {
    hide GoodFamily, TakenFamily;
    forall name | name in state.families ensures GoodFamily(SnapStep(state, delta, endAt).families[name]) {
      TakenFamilyKeeps(state.families[name], delta, endAt);
    }
  }

  // Runs

  datatype Event =
    | Declaring(name: string, kind: Kind, unit: string, description: string, bounds: seq<real>)
    | Recording(name: string, labels: Labels, op: Op)
    | Reporting

  /** One call, and what the clock said. */
  datatype Call = Call(at: int, event: Event)

  ghost function After(state: State, delta: bool, budget: Budget, call: Call): (next: State)
    requires Good(state)
    ensures Good(next)
  {
    match call.event
    case Declaring(name, kind, unit, description, bounds) =>
      DeclareKeeps(state, name, kind, unit, description, bounds);
      DeclareStep(state, name, kind, unit, description, bounds)
    case Recording(name, labels, op) =>
      RecordKeeps(state, budget, name, labels, op, call.at);
      RecordStep(state, budget, name, labels, op, call.at)
    case Reporting =>
      SnapKeeps(state, delta, call.at);
      SnapStep(state, delta, call.at)
  }

  ghost function Points(state: State, delta: bool, call: Call): seq<Point>
    requires Good(state)
  {
    if call.event.Reporting? then SnapPoints(state, state.order, delta, call.at) else []
  }

  ghost function Fresh(born: int): (state: State)
    ensures Good(state)
  {
    State(map[], [], Pressure(0, 0, 0), born)
  }

  /** A meter after some calls. */
  ghost function MeterAfter(delta: bool, budget: Budget, born: int, calls: seq<Call>): (state: State)
    ensures Good(state)
  {
    if calls == [] then Fresh(born)
    else After(MeterAfter(delta, budget, born, calls[..|calls| - 1]), delta, budget, calls[|calls| - 1])
  }

  /** Everything a meter reported in some calls. */
  ghost function Reported(delta: bool, budget: Budget, born: int, calls: seq<Call>): seq<Point> {
    if calls == [] then []
    else Reported(delta, budget, born, calls[..|calls| - 1])
         + Points(MeterAfter(delta, budget, born, calls[..|calls| - 1]), delta, calls[|calls| - 1])
  }

  // The two modes agree

  /** The numbers of a counter or a histogram that can be added up. */
  datatype Measure = Number | Count | Sum | Below(i: nat)

  function Reading(value: real, histogram: Option<Buckets>, m: Measure): real {
    match m
    case Number => value
    case Count => if histogram.Some? then histogram.value.count as real else 0.0
    case Sum => if histogram.Some? then histogram.value.sum else 0.0
    case Below(i) =>
      if histogram.Some? && i < |histogram.value.counts| then histogram.value.counts[i] as real else 0.0
  }

  function ReadingOf(series: Series, m: Measure): real { Reading(series.value, series.histogram, m) }

  /** What the points of one series add up to. */
  function Total(points: seq<Point>, name: string, key: string, m: Measure): real {
    if points == [] then 0.0
    else
      var point := points[|points| - 1];
      Total(points[..|points| - 1], name, key, m)
      + if point.name == name && point.key == key then Reading(point.number, point.histogram, m) else 0.0
  }

  lemma {:induction false} TotalConcat(a: seq<Point>, b: seq<Point>, name: string, key: string, m: Measure)
    ensures Total(a + b, name, key, m) == Total(a, name, key, m) + Total(b, name, key, m)
  {
    if b == [] {
      assert a + b == a;
    } else {
      assert (a + b)[..|a + b| - 1] == a + b[..|b| - 1];
      TotalConcat(a, b[..|b| - 1], name, key, m);
    }
  }

  lemma {:induction false} FamilyPointsTotal(name: string, family: Family, keys: seq<string>, delta: bool, periodStart: int,
                                             endAt: int, other: string, key: string, m: Measure)
    requires forall k :: k in keys ==> k in family.series
    requires forall i, j :: 0 <= i < j < |keys| ==> keys[i] != keys[j]
    ensures Total(FamilyPoints(name, family, keys, delta, periodStart, endAt), other, key, m) ==
            if other == name && key in keys && Reports(family.series[key], delta) then ReadingOf(family.series[key], m)
            else 0.0
  {
    if keys != [] {
      hide Reading, Reports;
      var n := |keys| - 1;
      var series := family.series[keys[n]];
      var point := PointOf(name, keys[n], family, series, delta, periodStart, endAt);
      FamilyPointsTotal(name, family, keys[..n], delta, periodStart, endAt, other, key, m);
      TotalConcat(FamilyPoints(name, family, keys[..n], delta, periodStart, endAt),
                  if Reports(series, delta) then [point] else [], other, key, m);
      OnePointTotal(point, other, key, m);
      assert keys[n] !in keys[..n];
      assert keys == keys[..n] + [keys[n]];
    }
  }

  lemma OnePointTotal(point: Point, name: string, key: string, m: Measure)
    ensures Total([point], name, key, m) ==
            if point.name == name && point.key == key then Reading(point.number, point.histogram, m) else 0.0
  {
    assert [point][..0] == [];
  }

  lemma {:induction false} SnapPointsTotal(state: State, names: seq<string>, delta: bool, endAt: int,
                                           name: string, key: string, m: Measure)
    requires Good(state) && forall n :: n in names ==> n in state.families
    requires forall i, j :: 0 <= i < j < |names| ==> names[i] != names[j]
    ensures Total(SnapPoints(state, names, delta, endAt), name, key, m) ==
            if name in names && key in state.families[name].series && Reports(state.families[name].series[key], delta)
            then ReadingOf(state.families[name].series[key], m) else 0.0
  {
    if names != [] {
      var n := |names| - 1;
      var family := state.families[names[n]];
      assert GoodFamily(family);
      SnapPointsTotal(state, names[..n], delta, endAt, name, key, m);
      FamilyPointsTotal(names[n], family, family.order, delta, state.periodStartedAt, endAt, name, key, m);
      TotalConcat(SnapPoints(state, names[..n], delta, endAt),
                  FamilyPoints(names[n], family, family.order, delta, state.periodStartedAt, endAt), name, key, m);
      assert names == names[..n] + [names[n]];
    }
  }

  /** What one call adds to a measure of the series it is for. */
  function Gain(op: Op, bounds: seq<real>, kind: Kind, m: Measure): real {
    match op
    case Adding(delta) => if m.Number? then delta else 0.0
    case Setting(_) => 0.0
    case Observing(value, _) =>
      if kind != Histogram then 0.0 else
      match m
      case Number => 0.0
      case Count => 1.0
      case Sum => value
      case Below(i) => if i < |bounds| && value <= bounds[i] then 1.0 else 0.0
  }

  lemma AppliedGains(series: Series, op: Op, at: int, kind: Kind, bounds: seq<real>, m: Measure)
    requires ShapeOf(series, kind, bounds) && kind == KindOf(op) && kind != Gauge
    ensures ReadingOf(Applied(series, op, at), m) == ReadingOf(series, m) + Gain(op, bounds, kind, m)
  {
  }

  lemma NewReadsZero(labels: Labels, kind: Kind, bounds: seq<real>, at: int, m: Measure)
    ensures ReadingOf(NewSeries(labels, kind, bounds, at), m) == 0.0
  {
  }

  /** A series of a delta meter and the same series of a cumulative one: the points
      reported so far and what the delta meter holds add up to what the other holds. */
  ghost predicate AgreeOn(delta: Series, cumulative: Series, kind: Kind, totals: Measure -> real) {
    && (kind != Gauge ==> forall m :: totals(m) + ReadingOf(delta, m) == ReadingOf(cumulative, m))
    && (kind != Gauge && !delta.dirty ==> forall m :: ReadingOf(delta, m) == 0.0)
  }

  ghost function Totals(points: seq<Point>, name: string, key: string): Measure -> real {
    m => Total(points, name, key, m)
  }

  ghost predicate AgreeFamilies(d: Family, c: Family, points: seq<Point>, name: string) {
    && d.kind == c.kind && d.bounds == c.bounds && d.series.Keys == c.series.Keys
    && (forall key :: key in d.series ==> AgreeOn(d.series[key], c.series[key], d.kind, Totals(points, name, key)))
    && (forall key, m :: key !in d.series ==> Total(points, name, key, m) == 0.0)
  }

  ghost predicate Agree(d: State, c: State, points: seq<Point>) {
    && d.families.Keys == c.families.Keys
    && (forall name :: name in d.families ==> AgreeFamilies(d.families[name], c.families[name], points, name))
    && (forall name, key, m :: name !in d.families ==> Total(points, name, key, m) == 0.0)
  }

  lemma CheckSame(d: State, c: State, points: seq<Point>, budget: Budget, name: string, labels: Labels, op: Op)
    requires Agree(d, c, points)
    ensures Check(d, budget, name, labels, op) == Check(c, budget, name, labels, op)
  {
    hide Key, LongValue;
    if name in d.families {
      assert AgreeFamilies(d.families[name], c.families[name], points, name);
      assert |d.families[name].series| == |d.families[name].series.Keys|;
      assert |c.families[name].series| == |c.families[name].series.Keys|;
    }
  }

  lemma FamilyStepAgrees(d: Family, c: Family, points: seq<Point>, name: string, labels: Labels, op: Op, at: int)
    requires AgreeFamilies(d, c, points, name) && GoodFamily(d) && GoodFamily(c) && d.kind == KindOf(op)
    ensures AgreeFamilies(FamilyStep(d, labels, op, at), FamilyStep(c, labels, op, at), points, name)
  {
    hide Key, Applied, ShapeOf, NewSeries, Reading, Gain, Total;
    var key := Key(labels);
    NewSeriesShape(labels, d.kind, d.bounds, at);
    var before := if key in d.series then d.series[key] else NewSeries(labels, d.kind, d.bounds, at);
    var other := if key in c.series then c.series[key] else NewSeries(labels, c.kind, c.bounds, at);
    if d.kind != Gauge {
      forall m ensures Total(points, name, key, m) + ReadingOf(before, m) == ReadingOf(other, m) {
        NewReadsZero(labels, d.kind, d.bounds, at, m);
      }
      StepAgrees(before, other, op, at, d.kind, d.bounds, Totals(points, name, key));
    }
  }

  lemma StepAgrees(d: Series, c: Series, op: Op, at: int, kind: Kind, bounds: seq<real>, totals: Measure -> real)
    requires kind == KindOf(op) && kind != Gauge && ShapeOf(d, kind, bounds) && ShapeOf(c, kind, bounds)
    requires forall m :: totals(m) + ReadingOf(d, m) == ReadingOf(c, m)
    ensures AgreeOn(Applied(d, op, at), Applied(c, op, at), kind, totals)
  {
    forall m ensures totals(m) + ReadingOf(Applied(d, op, at), m) == ReadingOf(Applied(c, op, at), m) {
      AppliedGains(d, op, at, kind, bounds, m);
      AppliedGains(c, op, at, kind, bounds, m);
    }
  }

  lemma TakenReads(d: Series, delta: bool, endAt: int, kind: Kind, bounds: seq<real>, m: Measure)
    requires ShapeOf(d, kind, bounds)
    ensures ReadingOf(Taken(d, delta, endAt), m) == if delta && d.dirty then 0.0 else ReadingOf(d, m)
    ensures !Taken(d, delta, endAt).dirty
  {
  }

  /** Reporting moves what a delta meter holds into its points. */
  lemma TakenAgrees(d: Series, c: Series, endAt: int, kind: Kind, bounds: seq<real>,
                    totals: Measure -> real, after: Measure -> real)
    requires ShapeOf(d, kind, bounds) && ShapeOf(c, kind, bounds) && AgreeOn(d, c, kind, totals)
    requires kind != Gauge ==> forall m :: after(m) == totals(m) + if d.dirty then ReadingOf(d, m) else 0.0
    ensures AgreeOn(Taken(d, true, endAt), Taken(c, false, endAt), kind, after)
  {
    forall m | kind != Gauge
      ensures after(m) + ReadingOf(Taken(d, true, endAt), m) == ReadingOf(Taken(c, false, endAt), m)
      ensures ReadingOf(Taken(d, true, endAt), m) == 0.0
    {
      TakenReads(d, true, endAt, kind, bounds, m);
      TakenReads(c, false, endAt, kind, bounds, m);
    }
  }

  lemma SnapTotals(d: State, points: seq<Point>, endAt: int, name: string, key: string, m: Measure)
    requires Good(d)
    ensures Total(points + SnapPoints(d, d.order, true, endAt), name, key, m) ==
            Total(points, name, key, m) +
            if name in d.families && key in d.families[name].series && d.families[name].series[key].dirty
            then ReadingOf(d.families[name].series[key], m) else 0.0
  {
    hide GoodFamily;
    TotalConcat(points, SnapPoints(d, d.order, true, endAt), name, key, m);
    SnapPointsTotal(d, d.order, true, endAt, name, key, m);
  }

  lemma SnapAgreesOn(d: State, c: State, points: seq<Point>, endAt: int, name: string)
    requires Good(d) && Good(c) && Agree(d, c, points) && name in d.families
    ensures AgreeFamilies(TakenFamily(d.families[name], true, endAt), TakenFamily(c.families[name], false, endAt),
                          points + SnapPoints(d, d.order, true, endAt), name)
  {
    var after := points + SnapPoints(d, d.order, true, endAt);
    var mine, other := d.families[name], c.families[name];
    assert AgreeFamilies(mine, other, points, name) && GoodFamily(mine) && GoodFamily(other);
    hide SnapPoints, Taken, ShapeOf, Reading, Agree, Good, AgreeOn;
    forall key | key in mine.series
      ensures AgreeOn(Taken(mine.series[key], true, endAt), Taken(other.series[key], false, endAt), mine.kind,
                      Totals(after, name, key))
    {
      forall m ensures Total(after, name, key, m) ==
                       Total(points, name, key, m) + if mine.series[key].dirty then ReadingOf(mine.series[key], m) else 0.0
      {
        SnapTotals(d, points, endAt, name, key, m);
      }
      TakenAgrees(mine.series[key], other.series[key], endAt, mine.kind, mine.bounds,
                  Totals(points, name, key), Totals(after, name, key));
    }
    forall key, m | key !in mine.series ensures Total(after, name, key, m) == 0.0 {
      SnapTotals(d, points, endAt, name, key, m);
    }
  }

  lemma SnapAgrees(d: State, c: State, points: seq<Point>, endAt: int)
    requires Good(d) && Good(c) && Agree(d, c, points)
    ensures Agree(SnapStep(d, true, endAt), SnapStep(c, false, endAt), points + SnapPoints(d, d.order, true, endAt))
  {
    hide AgreeFamilies, GoodFamily, TakenFamily, SnapPoints, Total;
    forall name | name in d.families
      ensures AgreeFamilies(TakenFamily(d.families[name], true, endAt), TakenFamily(c.families[name], false, endAt),
                            points + SnapPoints(d, d.order, true, endAt), name)
    {
      SnapAgreesOn(d, c, points, endAt, name);
    }
    forall name, key, m | name !in d.families
      ensures Total(points + SnapPoints(d, d.order, true, endAt), name, key, m) == 0.0
    {
      SnapTotals(d, points, endAt, name, key, m);
    }
  }

  lemma DeclareAgrees(d: State, c: State, points: seq<Point>, name: string, kind: Kind, unit: string,
                      description: string, bounds: seq<real>)
    requires Agree(d, c, points)
    ensures Agree(DeclareStep(d, name, kind, unit, description, bounds),
                  DeclareStep(c, name, kind, unit, description, bounds), points)
  {
    hide SortBy, Total;
  }

  lemma RecordAgrees(d: State, c: State, points: seq<Point>, budget: Budget, name: string, labels: Labels, op: Op, at: int)
    requires Good(d) && Good(c) && Agree(d, c, points)
    ensures Agree(RecordStep(d, budget, name, labels, op, at), RecordStep(c, budget, name, labels, op, at), points)
  {
    hide FamilyStep, GoodFamily, AgreeFamilies, Key, LongValue, Total, Lists;
    CheckSame(d, c, points, budget, name, labels, op);
    if Check(d, budget, name, labels, op) == Recorded {
      FamilyStepAgrees(d.families[name], c.families[name], points, name, labels, op, at);
    }
  }

  /** After any calls, what a delta meter reported and still holds is what a cumulative
      meter holds. */
  lemma {:induction false} ModesAgree(budget: Budget, born: int, calls: seq<Call>)
    ensures Agree(MeterAfter(true, budget, born, calls), MeterAfter(false, budget, born, calls), Reported(true, budget, born, calls))
  {
    hide Agree, RecordStep, DeclareStep, SnapStep, Good;
    if calls == [] {
      NothingAgrees(born);
    } else {
      var before, call := calls[..|calls| - 1], calls[|calls| - 1];
      ModesAgree(budget, born, before);
      var d, c := MeterAfter(true, budget, born, before), MeterAfter(false, budget, born, before);
      var points := Reported(true, budget, born, before);
      match call.event
      case Declaring(name, kind, unit, description, bounds) =>
        DeclareAgrees(d, c, points, name, kind, unit, description, bounds);
        assert Reported(true, budget, born, calls) == points;
      case Recording(name, labels, op) =>
        RecordAgrees(d, c, points, budget, name, labels, op, call.at);
        assert Reported(true, budget, born, calls) == points;
      case Reporting => SnapAgrees(d, c, points, call.at);
    }
  }

  lemma NothingAgrees(born: int)
    ensures Agree(Fresh(born), Fresh(born), [])
  {
  }

  /** Right after a snapshot, the points of a counter or histogram series in all the
      delta meter's reports add up to what a cumulative meter holds for it and has just
      reported, measure by measure; skipped clean series lose nothing. */
  lemma DeltasAddUpToCumulative(budget: Budget, born: int, calls: seq<Call>, at: int, name: string, key: string, m: Measure)
    requires var c := MeterAfter(false, budget, born, calls);
             name in c.families && key in c.families[name].series && c.families[name].kind != Gauge
    ensures var snapped := calls + [Call(at, Reporting)];
            var c := MeterAfter(false, budget, born, calls);
            && Total(Reported(true, budget, born, snapped), name, key, m) == ReadingOf(c.families[name].series[key], m)
            && Total(Points(c, false, Call(at, Reporting)), name, key, m) == ReadingOf(c.families[name].series[key], m)
  {
    var d, c := MeterAfter(true, budget, born, calls), MeterAfter(false, budget, born, calls);
    var points := Reported(true, budget, born, calls);
    var snapped := calls + [Call(at, Reporting)];
    assert snapped[..|calls|] == calls;
    hide Good, GoodFamily, SnapPoints, Reading, MeterAfter, Reported;
    ModesAgree(budget, born, calls);
    assert AgreeFamilies(d.families[name], c.families[name], points, name);
    assert AgreeOn(d.families[name].series[key], c.families[name].series[key], d.families[name].kind, Totals(points, name, key));
    SnapTotals(d, points, at, name, key, m);
    OrderIsGood(c);
    SnapPointsTotal(c, c.order, false, at, name, key, m);
    assert Totals(points, name, key)(m) == Total(points, name, key, m);
    LastReport(true, budget, born, calls, at);
  }

  lemma OrderIsGood(state: State)
    requires Good(state)
    ensures Lists(state.order, state.families)
  {
  }

  lemma LastReport(delta: bool, budget: Budget, born: int, calls: seq<Call>, at: int)
    ensures Reported(delta, budget, born, calls + [Call(at, Reporting)]) ==
            Reported(delta, budget, born, calls) + Points(MeterAfter(delta, budget, born, calls), delta, Call(at, Reporting))
  {
    assert (calls + [Call(at, Reporting)])[..|calls|] == calls;
  }

  // Periods

  /** When the last snapshot before some point was taken, or the meter was made. */
  function LastReporting(born: int, calls: seq<Call>): int {
    if calls == [] then born
    else if calls[|calls| - 1].event.Reporting? then calls[|calls| - 1].at
    else LastReporting(born, calls[..|calls| - 1])
  }

  lemma {:induction false} PeriodStarts(delta: bool, budget: Budget, born: int, calls: seq<Call>)
    ensures MeterAfter(delta, budget, born, calls).periodStartedAt == LastReporting(born, calls)
  {
    if calls != [] { PeriodStarts(delta, budget, born, calls[..|calls| - 1]); }
  }

  lemma {:induction false} FamilyPointBounds(name: string, family: Family, keys: seq<string>, delta: bool,
                                             periodStart: int, endAt: int)
    requires forall k :: k in keys ==> k in family.series
    ensures forall p :: p in FamilyPoints(name, family, keys, delta, periodStart, endAt) && p.kind != Gauge ==>
              p.endAt == endAt && (delta ==> p.startAt == periodStart)
    ensures forall p :: p in FamilyPoints(name, family, keys, delta, periodStart, endAt) && p.kind == Gauge ==>
              p.endAt == p.startAt
  {
    if keys != [] {
      FamilyPointBounds(name, family, keys[..|keys| - 1], delta, periodStart, endAt);
    }
  }

  lemma {:induction false} SnapPointBounds(state: State, names: seq<string>, delta: bool, endAt: int)
    requires Good(state) && forall n :: n in names ==> n in state.families
    ensures forall p :: p in SnapPoints(state, names, delta, endAt) && p.kind != Gauge ==>
              p.endAt == endAt && (delta ==> p.startAt == state.periodStartedAt)
    ensures forall p :: p in SnapPoints(state, names, delta, endAt) && p.kind == Gauge ==> p.endAt == p.startAt
  {
    if names != [] {
      var name := names[|names| - 1];
      assert GoodFamily(state.families[name]);
      SnapPointBounds(state, names[..|names| - 1], delta, endAt);
      FamilyPointBounds(name, state.families[name], state.families[name].order, delta, state.periodStartedAt, endAt);
    }
  }

  /** The periods of a delta meter chain: each runs from the reading of the snapshot
      before it, or of the making of the meter, to its own. A gauge has none. */
  lemma PeriodsChain(budget: Budget, born: int, calls: seq<Call>, at: int, point: Point)
    requires point in Points(MeterAfter(true, budget, born, calls), true, Call(at, Reporting))
    ensures point.kind != Gauge ==> point.startAt == LastReporting(born, calls) && point.endAt == at
    ensures point.kind == Gauge ==> point.startAt == point.endAt
    ensures LastReporting(born, calls + [Call(at, Reporting)]) == at
  {
    PeriodStarts(true, budget, born, calls);
    hide Good, SnapPoints;
    var d := MeterAfter(true, budget, born, calls);
    OrderIsGood(d);
    SnapPointBounds(d, d.order, true, at);
  }

  /** A series that a delta snapshot reports with a period. */
  ghost predicate Moved(state: State, name: string, key: string) {
    && name in state.families && state.families[name].kind != Gauge
    && key in state.families[name].series && state.families[name].series[key].dirty
  }

  lemma {:induction false} FamilyReports(name: string, family: Family, keys: seq<string>, periodStart: int, endAt: int, key: string)
    requires (forall k :: k in keys ==> k in family.series) && key in keys && family.series[key].dirty
    ensures PointOf(name, key, family, family.series[key], true, periodStart, endAt) in
            FamilyPoints(name, family, keys, true, periodStart, endAt)
  {
    var n := |keys| - 1;
    assert keys == keys[..n] + [keys[n]];
    if key in keys[..n] { FamilyReports(name, family, keys[..n], periodStart, endAt, key); }
  }

  lemma {:induction false} SnapReports(state: State, names: seq<string>, endAt: int, name: string, key: string)
    requires Good(state) && (forall n :: n in names ==> n in state.families) && name in names
    requires key in state.families[name].series && state.families[name].series[key].dirty
    ensures PointOf(name, key, state.families[name], state.families[name].series[key], true, state.periodStartedAt, endAt) in
            SnapPoints(state, names, true, endAt)
  {
    var n := |names| - 1;
    assert names == names[..n] + [names[n]];
    if name in names[..n] {
      SnapReports(state, names[..n], endAt, name, key);
    } else {
      var family := state.families[name];
      assert GoodFamily(family);
      hide PointOf, GoodFamily, Good;
      FamilyReports(name, family, family.order, state.periodStartedAt, endAt, key);
    }
  }

  ghost predicate RunForward(points: seq<Point>) {
    forall point :: point in points ==> point.startAt <= point.endAt
  }

  /** The clock is read before the lock is taken, so a snapshot can carry a reading from
      before the last one. No period ends before it starts exactly when it does not. */
  lemma PeriodsRunForwardIff(budget: Budget, born: int, calls: seq<Call>, at: int, name: string, key: string)
    requires Moved(MeterAfter(true, budget, born, calls), name, key)
    ensures RunForward(Points(MeterAfter(true, budget, born, calls), true, Call(at, Reporting))) <==>
            LastReporting(born, calls) <= at
  {
    var d := MeterAfter(true, budget, born, calls);
    OrderIsGood(d);
    PeriodStarts(true, budget, born, calls);
    hide MeterAfter, Good, SnapPoints;
    SnapReports(d, d.order, at, name, key);
    SnapPointBounds(d, d.order, true, at);
  }

  /** No reading before was later than this one. */
  ghost predicate ReadInOrder(born: int, calls: seq<Call>, at: int) {
    born <= at && forall i :: 0 <= i < |calls| ==> calls[i].at <= at
  }

  lemma {:induction false} LastReportingIsPast(born: int, calls: seq<Call>, at: int)
    requires ReadInOrder(born, calls, at)
    ensures LastReporting(born, calls) <= at
  {
    if calls != [] { LastReportingIsPast(born, calls[..|calls| - 1], at); }
  }

  /** So when calls reach the lock in the order of their readings every period runs
      forward. */
  lemma PeriodsRunForward(budget: Budget, born: int, calls: seq<Call>, at: int)
    requires ReadInOrder(born, calls, at)
    ensures RunForward(Points(MeterAfter(true, budget, born, calls), true, Call(at, Reporting)))
  {
    LastReportingIsPast(born, calls, at);
    hide Points, MeterAfter;
    forall point | point in Points(MeterAfter(true, budget, born, calls), true, Call(at, Reporting))
      ensures point.startAt <= point.endAt
    {
      PeriodsChain(budget, born, calls, at, point);
    }
  }

  /** Two snapshots that take the lock in the other order: the second reports a period
      that ends before it starts. */
  lemma LateReadingRunsBackward() returns (budget: Budget, calls: seq<Call>)
    ensures !RunForward(Points(MeterAfter(true, budget, 0, calls), true, Call(5, Reporting)))
  {
    budget := Budget(1, 0, 0);
    var declared, snapped := Call(0, Declaring("requests", Counter, "", "", [])), Call(10, Reporting);
    var recorded := Call(11, Recording("requests", map[], Adding(1.0)));
    calls := [] + [declared] + [snapped] + [recorded];
    assert LastReporting(0, calls) == 10 by { assert calls[..2] == [declared, snapped]; }
    hide Key, Points, Moved, Good, DeclareStep, SnapStep, RecordStep, MeterAfter, LastReporting;
    Counted(budget);
    MeterNext(true, budget, 0, [], declared);
    MeterNext(true, budget, 0, [] + [declared], snapped);
    MeterNext(true, budget, 0, [] + [declared] + [snapped], recorded);
    PeriodsRunForwardIff(budget, 0, calls, 5, "requests", Key(map[]));
  }

  lemma MeterNext(delta: bool, budget: Budget, born: int, calls: seq<Call>, call: Call)
    ensures MeterAfter(delta, budget, born, []) == Fresh(born)
    ensures MeterAfter(delta, budget, born, calls + [call]) == After(MeterAfter(delta, budget, born, calls), delta, budget, call)
  {
    assert (calls + [call])[..|calls|] == calls;
  }

  lemma Counted(budget: Budget)
    requires budget == Budget(1, 0, 0)
    ensures var declared := DeclareStep(Fresh(0), "requests", Counter, "", "", []);
            && Good(declared) && Good(SnapStep(declared, true, 10))
            && Moved(RecordStep(SnapStep(declared, true, 10), budget, "requests", map[], Adding(1.0), 11), "requests", Key(map[]))
  {
    hide Key;
    var declared := DeclareStep(Fresh(0), "requests", Counter, "", "", []);
    DeclareKeeps(Fresh(0), "requests", Counter, "", "", []);
    SnapKeeps(declared, true, 10);
    assert SnapStep(declared, true, 10).families["requests"].series == map[];
    assert Check(SnapStep(declared, true, 10), budget, "requests", map[], Adding(1.0)) == Recorded;
  }

  // The series budget

  ghost predicate WithinBudget(state: State, budget: Budget) {
    forall name :: name in state.families ==>
      |state.families[name].series| <= if budget.maxSeriesForEachMetric < 0 then 0 else budget.maxSeriesForEachMetric
  }

  lemma TakenFamilySize(family: Family, delta: bool, endAt: int)
    ensures |TakenFamily(family, delta, endAt).series| == |family.series|
    ensures TakenFamily(family, delta, endAt).series.Keys == family.series.Keys
  {
    var next := TakenFamily(family, delta, endAt);
    assert next.series.Keys == family.series.Keys;
    assert |next.series| == |next.series.Keys| && |family.series| == |family.series.Keys|;
  }

  lemma FamilyStepSize(family: Family, labels: Labels, op: Op, at: int)
    requires GoodFamily(family)
    ensures var next := FamilyStep(family, labels, op, at);
            && next.series.Keys == family.series.Keys + {Key(labels)} && next.kind == family.kind
            && |next.series| == |family.series| + if Key(labels) in family.series then 0 else 1
  {
    hide Key, Applied, NewSeries;
    var next := FamilyStep(family, labels, op, at);
    assert next.series.Keys == family.series.Keys + {Key(labels)};
    assert |next.series| == |next.series.Keys| && |family.series| == |family.series.Keys|;
  }

  lemma StepStaysWithinBudget(state: State, delta: bool, budget: Budget, call: Call)
    requires Good(state) && WithinBudget(state, budget)
    ensures WithinBudget(After(state, delta, budget, call), budget)
  {
    hide FamilyStep, TakenFamily, GoodFamily, Key, SortBy, LongValue, Lists;
    match call.event
    case Declaring(_, _, _, _, _) =>
    case Recording(name, labels, op) =>
      if Check(state, budget, name, labels, op) == Recorded { FamilyStepSize(state.families[name], labels, op, call.at); }
    case Reporting =>
      forall name | name in state.families
        ensures |TakenFamily(state.families[name], delta, call.at).series| == |state.families[name].series|
      {
        TakenFamilySize(state.families[name], delta, call.at);
      }
  }

  /** Admitted series never exceed the budget of their metric. */
  lemma {:induction false} SeriesStayWithinBudget(delta: bool, budget: Budget, born: int, calls: seq<Call>)
    ensures WithinBudget(MeterAfter(delta, budget, born, calls), budget)
  {
    hide After;
    if calls != [] {
      SeriesStayWithinBudget(delta, budget, born, calls[..|calls| - 1]);
      StepStaysWithinBudget(MeterAfter(delta, budget, born, calls[..|calls| - 1]), delta, budget, calls[|calls| - 1]);
    }
  }

  /** A series, once admitted, stays, with its metric. */
  ghost predicate Keeps(state: State, next: State) {
    forall name :: name in state.families ==>
      && name in next.families && next.families[name].kind == state.families[name].kind
      && state.families[name].series.Keys <= next.families[name].series.Keys
  }

  lemma StepKeepsSeries(state: State, delta: bool, budget: Budget, call: Call)
    requires Good(state)
    ensures Keeps(state, After(state, delta, budget, call))
  {
    hide FamilyStep, TakenFamily, GoodFamily, Key, SortBy, Lists, LongValue;
    match call.event
    case Declaring(_, _, _, _, _) =>
    case Recording(name, labels, op) =>
      if Check(state, budget, name, labels, op) == Recorded { FamilyStepSize(state.families[name], labels, op, call.at); }
    case Reporting =>
      forall name | name in state.families
        ensures TakenFamily(state.families[name], delta, call.at).series.Keys == state.families[name].series.Keys
        ensures TakenFamily(state.families[name], delta, call.at).kind == state.families[name].kind
      {
        TakenFamilySize(state.families[name], delta, call.at);
        assert TakenFamily(state.families[name], delta, call.at).kind == state.families[name].kind by { KindTaken(state.families[name], delta, call.at); }
      }
  }

  lemma KindTaken(family: Family, delta: bool, endAt: int)
    ensures TakenFamily(family, delta, endAt).kind == family.kind
  {
  }

  ghost predicate Admitted(state: State, name: string, labels: Labels, op: Op) {
    && name in state.families && state.families[name].kind == KindOf(op)
    && Key(labels) in state.families[name].series
  }

  lemma RecordedIsAdmitted(state: State, delta: bool, budget: Budget, name: string, labels: Labels, op: Op, at: int)
    requires Good(state) && Check(state, budget, name, labels, op) == Recorded
    ensures Admitted(After(state, delta, budget, Call(at, Recording(name, labels, op))), name, labels, op)
  {
    hide FamilyStep, GoodFamily, Key, Lists, LongValue;
    FamilyStepSize(state.families[name], labels, op, at);
  }

  /** A call that was recorded once is recorded again whenever it is made: an admitted
      series is never refused later. */
  lemma AdmittedStaysAdmitted(delta: bool, budget: Budget, born: int, calls: seq<Call>, later: seq<Call>,
                              name: string, labels: Labels, op: Op, at: int)
    requires Check(MeterAfter(delta, budget, born, calls), budget, name, labels, op) == Recorded
    ensures Check(MeterAfter(delta, budget, born, calls + [Call(at, Recording(name, labels, op))] + later),
                  budget, name, labels, op) == Recorded
  {
    hide After, Key, LongValue;
    var recorded := calls + [Call(at, Recording(name, labels, op))];
    assert recorded[..|calls|] == calls;
    RecordedIsAdmitted(MeterAfter(delta, budget, born, calls), delta, budget, name, labels, op, at);
    AdmittedStays(delta, budget, born, recorded, later, name, labels, op);
  }

  lemma {:induction false} AdmittedStays(delta: bool, budget: Budget, born: int, calls: seq<Call>, later: seq<Call>,
                                         name: string, labels: Labels, op: Op)
    requires Admitted(MeterAfter(delta, budget, born, calls), name, labels, op)
    ensures Admitted(MeterAfter(delta, budget, born, calls + later), name, labels, op)
    decreases |later|
  {
    hide After, Key, LongValue;
    if later == [] {
      assert calls + later == calls;
    } else {
      var n := |later| - 1;
      assert (calls + later)[..|calls + later| - 1] == calls + later[..n];
      AdmittedStays(delta, budget, born, calls, later[..n], name, labels, op);
      StepKeepsSeries(MeterAfter(delta, budget, born, calls + later[..n]), delta, budget, later[n]);
    }
  }

  // What a histogram holds

  function CountUpTo(values: seq<real>, bound: real): nat {
    if values == [] then 0
    else CountUpTo(values[..|values| - 1], bound) + if values[|values| - 1] <= bound then 1 else 0
  }

  function SumOf(values: seq<real>): real {
    if values == [] then 0.0 else SumOf(values[..|values| - 1]) + values[|values| - 1]
  }

  /** The observations a series has recorded since it last began to count. */
  ghost function Observations(delta: bool, budget: Budget, born: int, calls: seq<Call>, name: string, key: string): seq<real> {
    if calls == [] then []
    else
      var call := calls[|calls| - 1];
      var before := Observations(delta, budget, born, calls[..|calls| - 1], name, key);
      if call.event.Reporting? && delta then []
      else if call.event.Recording? && call.event.op.Observing? && call.event.name == name && Key(call.event.labels) == key
              && Check(MeterAfter(delta, budget, born, calls[..|calls| - 1]), budget, name, call.event.labels, call.event.op) == Recorded
      then before + [call.event.op.value]
      else before
  }

  /** The buckets are a summary of the observations: how many there were, their sum, and
      how many lay at or below each bound. */
  ghost predicate Summarises(buckets: Buckets, values: seq<real>) {
    && |buckets.counts| == |buckets.bounds|
    && buckets.count == |values| && buckets.sum == SumOf(values)
    && forall i :: 0 <= i < |buckets.bounds| ==> buckets.counts[i] == CountUpTo(values, buckets.bounds[i])
  }

  lemma {:induction false} CountUpToGrows(values: seq<real>, low: real, high: real)
    requires low <= high
    ensures CountUpTo(values, low) <= CountUpTo(values, high) <= |values|
  {
    if values != [] { CountUpToGrows(values[..|values| - 1], low, high); }
  }

  lemma ObservedSummarises(buckets: Buckets, values: seq<real>, value: real)
    requires Summarises(buckets, values)
    ensures Summarises(Observed(buckets, value), values + [value])
  {
    assert (values + [value])[..|values|] == values;
  }

  /** A histogram series summarises its observations, and one that is clean in a delta
      meter has none. */
  ghost predicate SeriesSummarises(series: Series, delta: bool, values: seq<real>) {
    && series.histogram.Some? && Summarises(series.histogram.value, values)
    && (delta && !series.dirty ==> values == [])
  }

  ghost predicate Summarised(state: State, delta: bool, name: string, key: string, values: seq<real>) {
    if name in state.families && key in state.families[name].series
    then state.families[name].kind == Histogram ==> SeriesSummarises(state.families[name].series[key], delta, values)
    else values == []
  }

  lemma NewSummarises(labels: Labels, bounds: seq<real>, at: int)
    ensures Summarises(NewSeries(labels, Histogram, bounds, at).histogram.value, [])
  {
  }

  lemma AppliedSummarises(series: Series, delta: bool, values: seq<real>, op: Op, at: int)
    requires series.histogram.Some? && Summarises(series.histogram.value, values) && op.Observing?
    ensures SeriesSummarises(Applied(series, op, at), delta, values + [op.value])
  {
    ObservedSummarises(series.histogram.value, values, op.value);
  }

  lemma TakenSummarises(series: Series, delta: bool, values: seq<real>, endAt: int)
    requires SeriesSummarises(series, delta, values)
    ensures SeriesSummarises(Taken(series, delta, endAt), delta, if delta then [] else values)
  {
  }

  lemma RecordSummarises(state: State, delta: bool, budget: Budget, name: string, labels: Labels, op: Op, at: int,
                         other: string, key: string, values: seq<real>)
    requires Good(state) && Summarised(state, delta, other, key, values)
    requires other in state.families ==> state.families[other].kind == Histogram
    ensures Summarised(RecordStep(state, budget, name, labels, op, at), delta, other, key,
                       if op.Observing? && name == other && Key(labels) == key &&
                          Check(state, budget, name, labels, op) == Recorded then values + [op.value] else values)
  {
    hide Key, LongValue, Applied, NewSeries, Summarises, Lists, ShapeOf;
    if Check(state, budget, name, labels, op) == Recorded && name == other {
      var family := state.families[name];
      assert GoodFamily(family);
      NewSeriesShape(labels, family.kind, family.bounds, at);
      if Key(labels) == key {
        NewSummarises(labels, family.bounds, at);
        var series := if key in family.series then family.series[key] else NewSeries(labels, family.kind, family.bounds, at);
        HasHistogram(labels, family.kind, family.bounds, at);
        AppliedSummarises(series, delta, values, op, at);
      }
    }
  }

  lemma HasHistogram(labels: Labels, kind: Kind, bounds: seq<real>, at: int)
    ensures NewSeries(labels, kind, bounds, at).histogram.Some? <==> kind == Histogram
  {
  }

  lemma SnapSummarises(state: State, delta: bool, endAt: int, name: string, key: string, values: seq<real>)
    requires Good(state) && Summarised(state, delta, name, key, values)
    ensures Summarised(SnapStep(state, delta, endAt), delta, name, key, if delta then [] else values)
  {
    hide Taken, SeriesSummarises;
    if name in state.families && key in state.families[name].series && state.families[name].kind == Histogram {
      TakenSummarises(state.families[name].series[key], delta, values, endAt);
    }
  }

  lemma {:induction false} KindStays(delta: bool, budget: Budget, born: int, calls: seq<Call>, name: string)
    requires calls != [] && name in MeterAfter(delta, budget, born, calls[..|calls| - 1]).families
    ensures name in MeterAfter(delta, budget, born, calls).families
    ensures MeterAfter(delta, budget, born, calls).families[name].kind ==
            MeterAfter(delta, budget, born, calls[..|calls| - 1]).families[name].kind
  {
    hide After;
    StepKeepsSeries(MeterAfter(delta, budget, born, calls[..|calls| - 1]), delta, budget, calls[|calls| - 1]);
  }

  /** A histogram holds the number of its observations, their sum, and for each bound how
      many lay at or below it: since it was made in a cumulative meter, and since the
      last snapshot in a delta one. */
  lemma {:induction false} HistogramSummarisesObservations(delta: bool, budget: Budget, born: int, calls: seq<Call>,
                                                           name: string, key: string)
    requires var state := MeterAfter(delta, budget, born, calls);
             name in state.families ==> state.families[name].kind == Histogram
    ensures Summarised(MeterAfter(delta, budget, born, calls), delta, name, key,
                       Observations(delta, budget, born, calls, name, key))
  {
    hide RecordStep, SnapStep, Good, Key, Check, Summarised;
    if calls == [] {
      NothingSummarised(delta, born, name, key);
    } else {
      var before, call := calls[..|calls| - 1], calls[|calls| - 1];
      var state := MeterAfter(delta, budget, born, before);
      var values := Observations(delta, budget, born, before, name, key);
      if name in state.families { KindStays(delta, budget, born, calls, name); }
      HistogramSummarisesObservations(delta, budget, born, before, name, key);
      match call.event
      case Declaring(declared, kind, unit, description, bounds) =>
        DeclareSummarises(state, delta, declared, kind, unit, description, bounds, name, key, values);
      case Recording(recorded, labels, op) =>
        RecordSummarises(state, delta, budget, recorded, labels, op, call.at, name, key, values);
      case Reporting => SnapSummarises(state, delta, call.at, name, key, values);
    }
  }

  lemma NothingSummarised(delta: bool, born: int, name: string, key: string)
    ensures Summarised(Fresh(born), delta, name, key, [])
  {
  }

  lemma DeclareSummarises(state: State, delta: bool, declared: string, kind: Kind, unit: string, description: string,
                          bounds: seq<real>, name: string, key: string, values: seq<real>)
    requires Summarised(state, delta, name, key, values)
    ensures Summarised(DeclareStep(state, declared, kind, unit, description, bounds), delta, name, key, values)
  {
    hide SortBy, SeriesSummarises;
  }

  lemma SortedBounds(bounds: seq<real>)
    ensures InOrder(BoundAtMost, SortBy(BoundAtMost, bounds)) && multiset(SortBy(BoundAtMost, bounds)) == multiset(bounds)
  {
    SortHolds(BoundAtMost, bounds);
    SortOrders(BoundAtMost, bounds);
  }

  ghost predicate BoundsRise(state: State) {
    forall name :: name in state.families ==> InOrder(BoundAtMost, state.families[name].bounds)
  }

  lemma StepBoundsRise(state: State, delta: bool, budget: Budget, call: Call)
    requires Good(state) && BoundsRise(state)
    ensures BoundsRise(After(state, delta, budget, call))
  {
    hide LongValue, Key, SortBy, InOrder, Lists, Applied, NewSeries;
    match call.event
    case Declaring(_, _, _, _, bounds) => SortedBounds(bounds);
    case Recording(name, labels, op) =>
      if Check(state, budget, name, labels, op) == Recorded {
        assert FamilyStep(state.families[name], labels, op, call.at).bounds == state.families[name].bounds;
      }
    case Reporting =>
  }

  lemma {:induction false} BoundsAlwaysRise(delta: bool, budget: Budget, born: int, calls: seq<Call>)
    ensures BoundsRise(MeterAfter(delta, budget, born, calls))
  {
    hide After;
    if calls != [] {
      BoundsAlwaysRise(delta, budget, born, calls[..|calls| - 1]);
      StepBoundsRise(MeterAfter(delta, budget, born, calls[..|calls| - 1]), delta, budget, calls[|calls| - 1]);
    }
  }

  /** So the counts never fall from one bound to the next, and never exceed the count. */
  lemma HistogramRises(delta: bool, budget: Budget, born: int, calls: seq<Call>, name: string, key: string, i: nat, j: nat)
    requires var state := MeterAfter(delta, budget, born, calls);
             && name in state.families && state.families[name].kind == Histogram && key in state.families[name].series
             && i <= j < |state.families[name].bounds|
    ensures var series := MeterAfter(delta, budget, born, calls).families[name].series[key];
            && series.histogram.Some? && j < |series.histogram.value.counts|
            && series.histogram.value.counts[i] <= series.histogram.value.counts[j] <= series.histogram.value.count
  {
    HistogramSummarisesObservations(delta, budget, born, calls, name, key);
    BoundsAlwaysRise(delta, budget, born, calls);
    var state := MeterAfter(delta, budget, born, calls);
    hide MeterAfter, Observations, InOrder, ShapeOf, SeriesSummarises, Lists;
    assert GoodFamily(state.families[name]);
    SummaryRises(state.families[name].series[key], delta, state.families[name].bounds,
                 Observations(delta, budget, born, calls, name, key), i, j);
  }

  lemma SummaryRises(series: Series, delta: bool, bounds: seq<real>, values: seq<real>, i: nat, j: nat)
    requires ShapeOf(series, Histogram, bounds) && SeriesSummarises(series, delta, values) && InOrder(BoundAtMost, bounds)
    requires i <= j < |bounds|
    ensures series.histogram.Some? && j < |series.histogram.value.counts|
    ensures series.histogram.value.counts[i] <= series.histogram.value.counts[j] <= series.histogram.value.count
  {
    assert i < j ==> BoundAtMost(bounds[i], bounds[j]);
    CountUpToGrows(values, bounds[i], bounds[j]);
  }

  // What a gauge reports

  /** The value and the time of the last set of a series that was recorded. */
  ghost function LastSet(delta: bool, budget: Budget, born: int, calls: seq<Call>, name: string, key: string): Option<(real, int)> {
    if calls == [] then None
    else
      var call := calls[|calls| - 1];
      if call.event.Recording? && call.event.op.Setting? && call.event.name == name && Key(call.event.labels) == key
         && Check(MeterAfter(delta, budget, born, calls[..|calls| - 1]), budget, name, call.event.labels, call.event.op) == Recorded
      then Some((call.event.op.value, call.at))
      else LastSet(delta, budget, born, calls[..|calls| - 1], name, key)
  }

  /** A gauge series that would be reported holds the last set and its time. */
  ghost predicate HoldsLast(state: State, delta: bool, name: string, key: string, last: Option<(real, int)>) {
    name in state.families && key in state.families[name].series && Reports(state.families[name].series[key], delta) ==>
      && last.Some?
      && state.families[name].series[key].value == last.value.0
      && state.families[name].series[key].updatedAt == last.value.1
  }

  lemma RecordHoldsLast(state: State, delta: bool, budget: Budget, recorded: string, labels: Labels, op: Op, at: int,
                        name: string, key: string, last: Option<(real, int)>)
    requires Good(state) && HoldsLast(state, delta, name, key, last)
    requires name in state.families ==> state.families[name].kind == Gauge
    ensures HoldsLast(RecordStep(state, budget, recorded, labels, op, at), delta, name, key,
                      if op.Setting? && recorded == name && Key(labels) == key &&
                         Check(state, budget, name, labels, op) == Recorded then Some((op.value, at)) else last)
  {
    hide Key, LongValue, Lists, ShapeOf, Observed;
  }

  lemma SnapHoldsLast(state: State, delta: bool, endAt: int, name: string, key: string, last: Option<(real, int)>)
    requires HoldsLast(state, delta, name, key, last)
    ensures HoldsLast(SnapStep(state, delta, endAt), delta, name, key, last)
  {
  }

  lemma {:induction false} GaugesHoldLast(delta: bool, budget: Budget, born: int, calls: seq<Call>, name: string, key: string)
    requires var state := MeterAfter(delta, budget, born, calls);
             name in state.families ==> state.families[name].kind == Gauge
    ensures HoldsLast(MeterAfter(delta, budget, born, calls), delta, name, key, LastSet(delta, budget, born, calls, name, key))
  {
    hide RecordStep, SnapStep, Good, Key, Check;
    if calls != [] {
      var before, call := calls[..|calls| - 1], calls[|calls| - 1];
      var state := MeterAfter(delta, budget, born, before);
      if name in state.families { KindStays(delta, budget, born, calls, name); }
      GaugesHoldLast(delta, budget, born, before, name, key);
      var last := LastSet(delta, budget, born, before, name, key);
      match call.event
      case Declaring(_, _, _, _, _) => hide SortBy;
      case Recording(recorded, labels, op) =>
        RecordHoldsLast(state, delta, budget, recorded, labels, op, call.at, name, key, last);
      case Reporting => SnapHoldsLast(state, delta, call.at, name, key, last);
    }
  }

  lemma {:induction false} FamilyPointIs(name: string, family: Family, keys: seq<string>, delta: bool, periodStart: int,
                                         endAt: int, p: Point)
    requires forall k :: k in keys ==> k in family.series
    requires p in FamilyPoints(name, family, keys, delta, periodStart, endAt)
    ensures p.name == name && p.kind == family.kind && p.key in family.series && Reports(family.series[p.key], delta)
    ensures p.number == family.series[p.key].value && p.labels == family.series[p.key].labels
    ensures p.kind == Gauge ==> p.startAt == p.endAt == family.series[p.key].updatedAt
  {
    var n := |keys| - 1;
    if p in FamilyPoints(name, family, keys[..n], delta, periodStart, endAt) {
      FamilyPointIs(name, family, keys[..n], delta, periodStart, endAt, p);
    }
  }

  lemma {:induction false} SnapPointIs(state: State, names: seq<string>, delta: bool, endAt: int, p: Point)
    requires Good(state) && forall n :: n in names ==> n in state.families
    requires p in SnapPoints(state, names, delta, endAt)
    ensures p.name in state.families && p.kind == state.families[p.name].kind && p.key in state.families[p.name].series
    ensures var series := state.families[p.name].series[p.key];
            && Reports(series, delta) && p.number == series.value
            && (p.kind == Gauge ==> p.startAt == p.endAt == series.updatedAt)
  {
    var name := names[|names| - 1];
    assert GoodFamily(state.families[name]);
    if p in SnapPoints(state, names[..|names| - 1], delta, endAt) {
      SnapPointIs(state, names[..|names| - 1], delta, endAt, p);
    } else {
      FamilyPointIs(name, state.families[name], state.families[name].order, delta, state.periodStartedAt, endAt, p);
    }
  }

  /** In either mode a gauge point reports the last value that was set and the moment it
      was set, whatever was reported and reset in between. */
  lemma GaugePointIsTheLastSet(delta: bool, budget: Budget, born: int, calls: seq<Call>, at: int, p: Point)
    requires p in Points(MeterAfter(delta, budget, born, calls), delta, Call(at, Reporting)) && p.kind == Gauge
    ensures LastSet(delta, budget, born, calls, p.name, p.key) == Some((p.number, p.endAt)) && p.startAt == p.endAt
  {
    var state := MeterAfter(delta, budget, born, calls);
    hide Good, SnapPoints, MeterAfter, LastSet;
    OrderIsGood(state);
    SnapPointIs(state, state.order, delta, at, p);
    GaugesHoldLast(delta, budget, born, calls, p.name, p.key);
  }

  // The code

  lemma RecordedOnly(state: State, budget: Budget, name: string, labels: Labels, op: Op, at: int)
    requires Good(state)
    ensures var outcome := Check(state, budget, name, labels, op);
            RecordStep(state, budget, name, labels, op, at) ==
            if outcome != Recorded then state.(pressure := Refused(state.pressure, outcome))
            else state.(families := state.families[name := FamilyStep(state.families[name], labels, op, at)])
  {
  }

  /** Whether a label value is longer than the budget permits. */
  method FindLongValue(labels: Labels, limit: int) returns (found: bool)
    ensures found == LongValue(labels, limit)
  {
    var left := labels.Keys;
    while left != {}
      invariant left <= labels.Keys
      invariant forall name :: name in labels && name !in left ==> |labels[name]| <= limit
      decreases left
    {
      var name :| name in left;
      if |labels[name]| > limit {
        return true;
      }
      left := left - {name};
    }
    return false;
  }

  /** The series a key names, made when it is new. */
  method Touch(family: Family, key: string, labels: Labels, op: Op, at: int) returns (next: Family)
    requires GoodFamily(family) && key == Key(labels)
    ensures next == FamilyStep(family, labels, op, at)
  {
    hide Key, Applied, NewSeries;
    next := family;
    if key !in family.series {
      NewSeriesShape(labels, family.kind, family.bounds, at);
      next := next.(series := next.series[key := NewSeries(labels, family.kind, family.bounds, at)], order := next.order + [key]);
    }
    assert ShapeOf(next.series[key], family.kind, family.bounds);
    ghost var made := next.series;
    next := next.(series := next.series[key := Applied(next.series[key], op, at)]);
    assert key !in family.series ==> next.series == family.series[key := Applied(made[key], op, at)];
  }

  /** A family part-way through being reported. */
  function PartlyTaken(family: Family, keys: seq<string>, delta: bool, endAt: int): Family {
    family.(series := map key | key in family.series ::
                        if key in keys then Taken(family.series[key], delta, endAt) else family.series[key])
  }

  lemma PartlyTakenNext(family: Family, i: nat, delta: bool, endAt: int)
    requires GoodFamily(family) && i < |family.order|
    ensures var key, now := family.order[i], PartlyTaken(family, family.order[..i], delta, endAt);
            && key in family.series && key in now.series && now.series[key] == family.series[key]
            && PartlyTaken(family, family.order[..i + 1], delta, endAt) ==
               now.(series := now.series[key := Taken(family.series[key], delta, endAt)])
  {
    hide Taken, ShapeOf;
    var key, now := family.order[i], PartlyTaken(family, family.order[..i], delta, endAt);
    assert family.order[..i + 1] == family.order[..i] + [key];
    assert key !in family.order[..i];
    assert PartlyTaken(family, family.order[..i + 1], delta, endAt).series ==
           now.series[key := Taken(family.series[key], delta, endAt)];
  }

  lemma PartlyTakenAll(family: Family, delta: bool, endAt: int)
    requires GoodFamily(family)
    ensures PartlyTaken(family, [], delta, endAt) == family
    ensures PartlyTaken(family, family.order, delta, endAt) == TakenFamily(family, delta, endAt)
  {
    hide Taken, ShapeOf;
    assert PartlyTaken(family, [], delta, endAt).series == family.series;
    assert PartlyTaken(family, family.order, delta, endAt).series == TakenFamily(family, delta, endAt).series;
  }

  /** Reports the series of one family, in the order they were admitted, and leaves what
      reporting leaves of them. */
  method TakeFamily(name: string, family: Family, delta: bool, periodStart: int, endAt: int)
    returns (next: Family, points: seq<Point>)
    requires GoodFamily(family)
    ensures next == TakenFamily(family, delta, endAt)
    ensures points == FamilyPoints(name, family, family.order, delta, periodStart, endAt)
  {
    hide Taken, PointOf, PartlyTaken, TakenFamily, ShapeOf;
    PartlyTakenAll(family, delta, endAt);
    next, points := family, [];
    var i := 0;
    while i < |family.order|
      invariant 0 <= i <= |family.order|
      invariant next == PartlyTaken(family, family.order[..i], delta, endAt)
      invariant points == FamilyPoints(name, family, family.order[..i], delta, periodStart, endAt)
    {
      var key := family.order[i];
      PartlyTakenNext(family, i, delta, endAt);
      assert family.order[..i + 1][..i] == family.order[..i];
      var series := next.series[key];
      if Reports(series, delta) {
        points := points + [PointOf(name, key, family, series, delta, periodStart, endAt)];
      }
      next := next.(series := next.series[key := Taken(series, delta, endAt)]);
      i := i + 1;
    }
    assert family.order[..i] == family.order;
  }

  function PartlySnapped(families: map<string, Family>, names: seq<string>, delta: bool, endAt: int): map<string, Family> {
    map name | name in families :: if name in names then TakenFamily(families[name], delta, endAt) else families[name]
  }

  lemma PartlySnappedNext(state: State, i: nat, delta: bool, endAt: int)
    requires Good(state) && i < |state.order|
    ensures var name, now := state.order[i], PartlySnapped(state.families, state.order[..i], delta, endAt);
            && name in state.families && name in now && now[name] == state.families[name] && GoodFamily(state.families[name])
            && PartlySnapped(state.families, state.order[..i + 1], delta, endAt) ==
               now[name := TakenFamily(state.families[name], delta, endAt)]
  {
    hide TakenFamily, GoodFamily;
    var name, now := state.order[i], PartlySnapped(state.families, state.order[..i], delta, endAt);
    assert state.order[..i + 1] == state.order[..i] + [name];
    assert name !in state.order[..i];
  }

  lemma PartlySnappedAll(state: State, delta: bool, endAt: int)
    requires Good(state)
    ensures PartlySnapped(state.families, [], delta, endAt) == state.families
    ensures PartlySnapped(state.families, state.order, delta, endAt) == SnapStep(state, delta, endAt).families
  {
    hide TakenFamily, GoodFamily;
  }

  lemma SnapPointsNext(state: State, i: nat, delta: bool, endAt: int)
    requires Good(state) && i < |state.order|
    ensures forall name :: name in state.order ==> name in state.families
    ensures var family := state.families[state.order[i]];
            && GoodFamily(family)
            && SnapPoints(state, state.order[..i + 1], delta, endAt) ==
               SnapPoints(state, state.order[..i], delta, endAt) +
               FamilyPoints(state.order[i], family, family.order, delta, state.periodStartedAt, endAt)
  {
    hide FamilyPoints, ShapeOf;
    assert state.order[..i + 1][..i] == state.order[..i];
  }

  lemma NothingSnapped(state: State, delta: bool, endAt: int)
    requires Good(state)
    ensures forall name :: name in state.order ==> name in state.families
    ensures SnapPoints(state, [], delta, endAt) == []
    ensures Points(state, delta, Call(endAt, Reporting)) == SnapPoints(state, state.order, delta, endAt)
  {
  }

  /** Reports every family, in the order they were declared. */
  method TakeFamilies(state: State, delta: bool, endAt: int) returns (families: map<string, Family>, points: seq<Point>)
    requires Good(state)
    ensures families == SnapStep(state, delta, endAt).families
    ensures points == Points(state, delta, Call(endAt, Reporting))
  {
    hide *;
    PartlySnappedAll(state, delta, endAt);
    NothingSnapped(state, delta, endAt);
    families, points := state.families, [];
    var i := 0;
    while i < |state.order|
      invariant 0 <= i <= |state.order|
      invariant families == PartlySnapped(state.families, state.order[..i], delta, endAt)
      invariant points == SnapPoints(state, state.order[..i], delta, endAt)
    {
      var name := state.order[i];
      PartlySnappedNext(state, i, delta, endAt);
      SnapPointsNext(state, i, delta, endAt);
      var family, more := TakeFamily(name, families[name], delta, state.periodStartedAt, endAt);
      points := points + more;
      families := families[name := family];
      i := i + 1;
    }
    assert state.order[..i] == state.order;
  }

  /** The instruments one application declares. */
  class Meter {
    const delta: bool
    const budget: Budget
    var families: map<string, Family>
    var order: seq<string>
    var pressure: Pressure
    var periodStartedAt: int

    ghost function Now(): State
      reads this
    {
      State(families, order, pressure, periodStartedAt)
    }

    constructor (delta: bool, budget: Budget, born: int)
      ensures Now() == MeterAfter(delta, budget, born, []) && this.delta == delta && this.budget == budget
    {
      this.delta, this.budget := delta, budget;
      families, order, pressure, periodStartedAt := map[], [], Pressure(0, 0, 0), born;
    }

    /** Declares an instrument. A second declaration of a name changes nothing. */
    method Declare(name: string, kind: Kind, unit: string, description: string, bounds: seq<real>)
      requires Good(Now())
      modifies this
      ensures Good(Now()) && Now() == DeclareStep(old(Now()), name, kind, unit, description, bounds)
    {
      hide Good, SortBy;
      DeclareKeeps(Now(), name, kind, unit, description, bounds);
      var sorted := SortBy(BoundAtMost, bounds);
      if name in families {
        return;
      }
      families := families[name := Family(kind, unit, description, sorted, [], map[])];
      order := order + [name];
    }

    /** Adds to a counter, sets a gauge or observes in a histogram. */
    method Record(name: string, labels: Labels, op: Op, at: int) returns (outcome: Outcome)
      requires Good(Now())
      modifies this
      ensures outcome == Check(old(Now()), budget, name, labels, op)
      ensures Good(Now()) && Now() == RecordStep(old(Now()), budget, name, labels, op, at)
    {
      RecordKeeps(Now(), budget, name, labels, op, at);
      RecordedOnly(Now(), budget, name, labels, op, at);
      GoodFamilies(Now(), name);
      hide Key, LongValue, FamilyStep, RecordStep, Good;
      if op.Adding? && op.delta < 0.0 {
        return NegativeAmount;
      }
      if |labels| > budget.maxLabels {
        pressure := pressure.(labelsRefused := pressure.labelsRefused + 1);
        return TooManyLabels;
      }
      var long := FindLongValue(labels, budget.maxLabelValueBytes);
      if long {
        pressure := pressure.(valueRefused := pressure.valueRefused + 1);
        return ValueTooLong;
      }
      if name !in families {
        return Undeclared;
      }
      if families[name].kind != KindOf(op) {
        return WrongKind;
      }
      var key := KeyOf(labels);
      if key !in families[name].series && |families[name].series| >= budget.maxSeriesForEachMetric {
        pressure := pressure.(seriesRefused := pressure.seriesRefused + 1);
        return TooManySeries;
      }
      var family := Touch(families[name], key, labels, op, at);
      families := families[name := family];
      return Recorded;
    }

    /** A point for each series to report, in order. What is reported in delta mode starts
        over. */
    method Snapshot(endAt: int) returns (points: seq<Point>)
      requires Good(Now())
      modifies this
      ensures points == Points(old(Now()), delta, Call(endAt, Reporting))
      ensures Good(Now()) && Now() == SnapStep(old(Now()), delta, endAt)
    {
      hide Good, TakenFamily, SnapPoints;
      SnapKeeps(Now(), delta, endAt);
      var taken;
      taken, points := TakeFamilies(State(families, order, pressure, periodStartedAt), delta, endAt);
      families, periodStartedAt := taken, endAt;
    }
  }

  lemma GoodFamilies(state: State, name: string)
    requires Good(state)
    ensures name in state.families ==> GoodFamily(state.families[name])
  {
  }
}
