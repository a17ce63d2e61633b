// Reads that cross tablets: which replica is asked, in what order, and what becomes of
// a tablet that does not answer (crates/tallyowl-cluster/src/fanout.rs).

module Fanouts {
  import opened Common
  import opened Orders
  import opened Queries

  const TABLETS_ASKED_AT_ONCE := 8
  const REMEMBERED_THREADS := 1024

  /** A word holds numbers below this, and the release build wraps at it. */
  const WORD: nat := U64_MAX + 1

  datatype ErrorCode =
    | UnavailableNow | NotFound | InvalidArgument | ResourceExhausted | BudgetExceeded | Incomplete | Internal | Refused

  datatype Reply = Ok(partial: Partial) | Err(code: ErrorCode)

  datatype WireKind = WireCount | WireTrend | WireRows | WireLookup | WireAggregate

  /** What is sent to one tablet. */
  datatype Request = Request(
    tablet: string, generation: nat, kind: WireKind, project: nat, rangeStart: int, rangeEnd: int, basis: string,
    bucketMs: Option<int>, eventName: Option<string>, column: Option<string>, value: Option<seq<nat>>,
    maxRows: Option<nat>, aggregatePlan: Option<seq<nat>>, requireWatermark: Option<nat>, maxStalenessMs: Option<int>)

  function BasisName(basis: Basis): string {
    match basis
    case OccurredAt => "occurred_at"
    case ReceivedAt => "received_at"
    case CommittedAt => "committed_at"
  }

  function KindOnWire(kind: PartialKind): WireKind {
    match kind
    case Count => WireCount
    case Trend(_) => WireTrend
    case Rows(_) => WireRows
    case Lookup(_, _) => WireLookup
    case Aggregate(_) => WireAggregate
  }

  function ToWire(plan: Plan, tablet: string, maxRows: nat): Request {
    Request(
      tablet, plan.generation, KindOnWire(plan.kind), plan.project, plan.rangeStart, plan.rangeEnd,
      BasisName(plan.basis),
      if plan.kind.Trend? then Some(plan.kind.bucketMs) else None,
      plan.eventName,
      if plan.kind.Lookup? then Some(plan.kind.column) else None,
      if plan.kind.Lookup? then Some(plan.kind.value) else None,
      if MovesRows(plan.kind) then Some(maxRows) else None,
      if plan.kind.Aggregate? then Some(plan.kind.plan) else None,
      if plan.requireWatermark > 0 then Some(plan.requireWatermark) else None,
      if plan.consistency.BoundedStale? then Some(plan.consistency.maxStalenessMs) else None)
  }

  /** A request carries all of the plan that a tablet needs: two plans that look the
      same to a tablet ask the same of it. Only the bound of a detail read differs,
      which goes out as the bound of one tablet. */
  lemma RequestCarriesThePlan(a: Plan, b: Plan, tablet: string, other: string, maxRows: nat, otherMax: nat)
    requires ToWire(a, tablet, maxRows) == ToWire(b, other, otherMax)
    ensures tablet == other && a.generation == b.generation && a.project == b.project
    ensures a.rangeStart == b.rangeStart && a.rangeEnd == b.rangeEnd && a.basis == b.basis
    ensures a.eventName == b.eventName && a.consistency == b.consistency && a.requireWatermark == b.requireWatermark
    ensures a.kind == b.kind || (a.kind.Rows? && b.kind.Rows?)
    ensures MovesRows(a.kind) ==> maxRows == otherMax
  {
    BasisNamesDiffer(a.basis, b.basis);
  }

  lemma BasisNamesDiffer(a: Basis, b: Basis)
    ensures BasisName(a) == BasisName(b) ==> a == b
  {
    assert BasisName(a)[0] == (match a case OccurredAt => 'o' case ReceivedAt => 'r' case CommittedAt => 'c');
    assert BasisName(b)[0] == (match b case OccurredAt => 'o' case ReceivedAt => 'r' case CommittedAt => 'c');
  }

  /** The two refusals after which the next address is asked. Any other reply ends the
      asking. */
  predicate TryNext(reply: Reply) {
    reply.Err? && (reply.code.UnavailableNow? || reply.code.NotFound?)
  }

  /** What every node would answer, what this node holds, and which leaders it knows. */
  datatype Cell = Cell(
    topology: Topology, holds: set<string>, leaders: map<string, string>,
    local: (string, Request) -> Reply, remote: (string, Request) -> Reply)

  function FindTablet(tablets: seq<Tablet>, name: string): (found: Option<Tablet>)
    ensures found.Some? ==> found.value in tablets && found.value.name == name
    ensures found.None? ==> forall tablet :: tablet in tablets ==> tablet.name != name
  {
    if tablets == [] then None
    else if tablets[0].name == name then Some(tablets[0])
    else FindTablet(tablets[1..], name)
  }

  function FindMember(members: seq<Member>, node: string): (found: Option<Member>)
    ensures found.Some? ==> found.value in members && found.value.node == node
    ensures found.None? ==> forall member :: member in members ==> member.node != node
  {
    if members == [] then None
    else if members[0].node == node then Some(members[0])
    else FindMember(members[1..], node)
  }

  // Where to ask

  datatype Addresses = At(addresses: seq<string>) | Nowhere(code: ErrorCode)

  ghost predicate Distinct(names: seq<string>) {
    forall i, j :: 0 <= i < j < |names| ==> names[i] != names[j]
  }

  ghost predicate IsAddress(members: seq<Member>, address: string) {
    exists member :: member in members && member.address == address
  }

  /** The addresses of the members, each once, after those already listed. */
  function WithMembers(listed: seq<string>, members: seq<Member>): seq<string> {
    if members == [] then listed
    else
      var before, address := WithMembers(listed, members[..|members| - 1]), members[|members| - 1].address;
      if address in before then before else before + [address]
  }

  lemma {:induction false} WithMembersLists(listed: seq<string>, members: seq<Member>)
    requires Distinct(listed)
    ensures Distinct(WithMembers(listed, members)) && listed <= WithMembers(listed, members)
    ensures forall address :: address in WithMembers(listed, members) <==> address in listed || IsAddress(members, address)
  {
    if members != [] {
      var n := |members| - 1;
      WithMembersLists(listed, members[..n]);
      assert members == members[..n] + [members[n]];
      forall address ensures IsAddress(members, address) <==>
                             IsAddress(members[..n], address) || address == members[n].address
      {
        if IsAddress(members[..n], address) {
          var member :| member in members[..n] && member.address == address;
          assert member in members;
        }
        assert members[n] in members;
      }
    }
  }

  /** The addresses to ask for a tablet, without repetition: the known leader's and then
      every member's. */
  method AddressesOf(cell: Cell, tablet: string) returns (found: Addresses)
    ensures found == Nowhere(NotFound) <==> FindTablet(cell.topology.tablets, tablet).None?
    ensures found.Nowhere? && !found.code.NotFound? ==>
              found.code.UnavailableNow? && FindTablet(cell.topology.tablets, tablet).value.members == []
    ensures found.At? ==>
              && FindTablet(cell.topology.tablets, tablet).Some?
              && var members := FindTablet(cell.topology.tablets, tablet).value.members;
              && found.addresses != [] && Distinct(found.addresses)
              && (forall address :: address in found.addresses <==> IsAddress(members, address))
              && (tablet in cell.leaders && FindMember(members, cell.leaders[tablet]).Some? ==>
                    found.addresses[0] == FindMember(members, cell.leaders[tablet]).value.address)
  {
    var place := FindTablet(cell.topology.tablets, tablet);
    if place.None? {
      return Nowhere(NotFound);
    }
    var members := place.value.members;
    var addresses: seq<string> := [];
    if tablet in cell.leaders {
      var leader := FindMember(members, cell.leaders[tablet]);
      if leader.Some? {
        addresses := addresses + [leader.value.address];
      }
    }
    ghost var listed := addresses;
    var i := 0;
    while i < |members|
      invariant 0 <= i <= |members| && addresses == WithMembers(listed, members[..i])
    {
      assert members[..i + 1][..i] == members[..i];
      if members[i].address !in addresses {
        addresses := addresses + [members[i].address];
      }
      i := i + 1;
    }
    assert members[..i] == members;
    WithMembersLists(listed, members);
    assert forall member :: member in members ==> IsAddress(members, member.address);
    if |addresses| == 0 {
      return Nowhere(UnavailableNow);
    }
    return At(addresses);
  }

  // Asking

  /** Of some replies in turn, the first that ends the asking, or the last of them. */
  ghost predicate IsFirstFinal(replies: seq<Reply>, reply: Reply) {
    exists k :: 0 <= k < |replies| && reply == replies[k] &&
                (forall j :: 0 <= j < k ==> TryNext(replies[j])) &&
                (TryNext(reply) ==> k == |replies| - 1)
  }

  function RepliesOf(cell: Cell, addresses: seq<string>, request: Request): (replies: seq<Reply>)
    ensures |replies| == |addresses| && forall i :: 0 <= i < |addresses| ==> replies[i] == cell.remote(addresses[i], request)
  {
    seq(|addresses|, i requires 0 <= i < |addresses| => cell.remote(addresses[i], request))
  }

  /** The addresses asked and what came of it. */
  ghost predicate AskedInTurn(cell: Cell, plan: Plan, tablet: string, maxRows: nat, reply: Reply, asked: seq<string>) {
    var place := FindTablet(cell.topology.tablets, tablet);
    if place.None? then reply == Err(NotFound)
    else
      && (forall a :: a in asked <==> IsAddress(place.value.members, a)) && Distinct(asked)
      && (if asked == [] then reply == Err(UnavailableNow)
          else IsFirstFinal(RepliesOf(cell, asked, ToWire(plan, tablet, maxRows)), reply))
  }

  /** What asking one tablet comes to. */
  ghost predicate Asks(cell: Cell, plan: Plan, tablet: string, maxRows: nat, reply: Reply) {
    if tablet in cell.holds then
      reply == cell.local(tablet, ToWire(plan, tablet, maxRows))
    else
      exists asked :: AskedInTurn(cell, plan, tablet, maxRows, reply, asked)
  }

  /** Asks this node itself when it holds the tablet, and otherwise every replica in
      turn. */
  method Ask(cell: Cell, plan: Plan, tablet: string, maxRows: nat) returns (reply: Reply, ghost asked: seq<string>)
    ensures Asks(cell, plan, tablet, maxRows, reply)
    ensures tablet in cell.holds ==> reply == cell.local(tablet, ToWire(plan, tablet, maxRows))
    ensures tablet !in cell.holds ==> AskedInTurn(cell, plan, tablet, maxRows, reply, asked)
  {
    var request := ToWire(plan, tablet, maxRows);
    asked := [];
    if tablet in cell.holds {
      reply := cell.local(tablet, request);
      return;
    }
    var found := AddressesOf(cell, tablet);
    if found.Nowhere? {
      assert AskedInTurn(cell, plan, tablet, maxRows, Err(found.code), asked);
      return Err(found.code), [];
    }
    asked := found.addresses;
    ghost var replies := RepliesOf(cell, asked, request);
    var i := 0;
    reply := Err(UnavailableNow);
    while i < |found.addresses|
      invariant 0 <= i <= |found.addresses|
      invariant forall j :: 0 <= j < i ==> TryNext(replies[j])
      invariant i > 0 ==> reply == replies[i - 1]
    {
      reply := cell.remote(found.addresses[i], request);
      if !TryNext(reply) {
        assert IsFirstFinal(replies, reply);
        assert AskedInTurn(cell, plan, tablet, maxRows, reply, asked);
        return;
      }
      i := i + 1;
    }
    assert IsFirstFinal(replies, reply) && AskedInTurn(cell, plan, tablet, maxRows, reply, asked);
  }

  /** One healthy replica is enough: if some member would answer, and no member refuses
      for a reason they all share, then asking the tablet answers. */
  lemma OneHealthyReplicaIsEnough(cell: Cell, plan: Plan, tablet: string, maxRows: nat, reply: Reply, healthy: string)
    requires tablet !in cell.holds && Asks(cell, plan, tablet, maxRows, reply)
    requires FindTablet(cell.topology.tablets, tablet).Some?
    requires IsAddress(FindTablet(cell.topology.tablets, tablet).value.members, healthy)
    requires cell.remote(healthy, ToWire(plan, tablet, maxRows)).Ok?
    requires forall a :: IsAddress(FindTablet(cell.topology.tablets, tablet).value.members, a) ==>
               cell.remote(a, ToWire(plan, tablet, maxRows)).Ok? || TryNext(cell.remote(a, ToWire(plan, tablet, maxRows)))
    ensures reply.Ok?
  {
    var request := ToWire(plan, tablet, maxRows);
    var asked :| AskedInTurn(cell, plan, tablet, maxRows, reply, asked);
    assert healthy in asked;
    var replies := RepliesOf(cell, asked, request);
    var k :| 0 <= k < |replies| && reply == replies[k] && (forall j :: 0 <= j < k ==> TryNext(replies[j])) &&
             (TryNext(reply) ==> k == |replies| - 1);
    var h :| 0 <= h < |asked| && asked[h] == healthy;
    assert replies[h].Ok? && asked[k] in asked;
  }

  // The fan-out

  /** The part a reply stands for: its own, or the empty one with the range missing. */
  function PartOf(plan: Plan, tablet: string, reply: Reply): Partial {
    if reply.Ok? then reply.partial else Unavailable(tablet, plan.rangeStart, plan.rangeEnd)
  }

  function PartsOf(plan: Plan, tablets: seq<string>, replies: seq<Reply>): (parts: seq<Partial>)
    requires |replies| == |tablets|
    ensures |parts| == |tablets| && forall i :: 0 <= i < |tablets| ==> parts[i] == PartOf(plan, tablets[i], replies[i])
  {
    seq(|tablets|, i requires 0 <= i < |tablets| => PartOf(plan, tablets[i], replies[i]))
  }

  function MissedOf(tablets: seq<string>, replies: seq<Reply>): (missed: seq<string>)
    requires |replies| == |tablets|
    ensures forall tablet :: tablet in missed <==> exists i :: 0 <= i < |tablets| && tablets[i] == tablet && replies[i].Err?
  {
    if tablets == [] then []
    else
      var n := |tablets| - 1;
      var before := MissedOf(tablets[..n], replies[..n]);
      if replies[n].Err? then before + [tablets[n]] else before
  }

  /** Each reply is what asking its tablet came to, or the reading thread stopped. */
  ghost predicate RepliesFit(cell: Cell, plan: Plan, maxRows: nat, tablets: seq<string>, replies: seq<Reply>) {
    && |replies| == |tablets|
    && forall i :: 0 <= i < |tablets| ==>
         replies[i] == Err(Internal) || Asks(cell, plan, tablets[i], maxRows, replies[i])
  }

  /** Asks a few tablets, each on its own thread when there is more than one, and
      collects the answers in the order of the tablets. */
  method AskSome(cell: Cell, plan: Plan, maxRows: nat, tablets: seq<string>) returns (replies: seq<Reply>)
    ensures RepliesFit(cell, plan, maxRows, tablets, replies)
  {
    hide Asks;
    replies := [];
    var i := 0;
    while i < |tablets|
      invariant 0 <= i <= |tablets| && |replies| == i
      invariant forall j :: 0 <= j < i ==> replies[j] == Err(Internal) || Asks(cell, plan, tablets[j], maxRows, replies[j])
    {
      var stopped: bool := *;
      var reply, _ := Ask(cell, plan, tablets[i], maxRows);
      replies := replies + [if stopped && |tablets| > 1 then Err(Internal) else reply];
      i := i + 1;
    }
  }

  lemma RepliesJoin(cell: Cell, plan: Plan, maxRows: nat, a: seq<string>, b: seq<string>, x: seq<Reply>, y: seq<Reply>)
    requires RepliesFit(cell, plan, maxRows, a, x) && RepliesFit(cell, plan, maxRows, b, y)
    ensures RepliesFit(cell, plan, maxRows, a + b, x + y)
    ensures PartsOf(plan, a + b, x + y) == PartsOf(plan, a, x) + PartsOf(plan, b, y)
  {
  }

  lemma {:induction false} MissedJoin(a: seq<string>, b: seq<string>, x: seq<Reply>, y: seq<Reply>)
    requires |x| == |a| && |y| == |b|
    ensures MissedOf(a + b, x + y) == MissedOf(a, x) + MissedOf(b, y)
  {
    if b == [] {
      assert a + b == a && x + y == x;
    } else {
      var n := |b| - 1;
      assert (a + b)[..|a + b| - 1] == a + b[..n] && (x + y)[..|a + b| - 1] == x + y[..n];
      MissedJoin(a, b[..n], x, y[..n]);
    }
  }

  /** Every planned tablet answered completely, with one part each. */
  ghost predicate AllAnswered(plan: Plan, replies: seq<Reply>) {
    && |replies| == |plan.tablets|
    && (forall i :: 0 <= i < |replies| ==> replies[i].Ok? && replies[i].partial.complete)
    && forall tablet :: tablet in plan.tablets ==> AnsweredBy(replies, tablet)
  }

  ghost predicate AnsweredBy(replies: seq<Reply>, tablet: string) {
    exists i :: 0 <= i < |replies| && replies[i].Ok? && replies[i].partial.tablet == tablet
  }

  lemma NothingMissingIffAllAnswered(plan: Plan, replies: seq<Reply>)
    requires |replies| == |plan.tablets|
    ensures NothingMissing(plan, PartsOf(plan, plan.tablets, replies)) <==> AllAnswered(plan, replies)
  {
    var parts := PartsOf(plan, plan.tablets, replies);
    AllArrived(plan.tablets, parts);
    hide NeverArrived;
    if AllComplete(parts) {
      forall i | 0 <= i < |replies| ensures replies[i].Ok? && replies[i].partial.complete { assert parts[i] in parts; }
    }
    if forall i :: 0 <= i < |replies| ==> replies[i].Ok? && replies[i].partial.complete {
      forall tablet ensures Answered(parts, tablet) <==> AnsweredBy(replies, tablet) {
        AnsweredIffReplied(plan, replies, tablet);
      }
    }
  }

  lemma AnsweredIffReplied(plan: Plan, replies: seq<Reply>, tablet: string)
    requires |replies| == |plan.tablets| && forall i :: 0 <= i < |replies| ==> replies[i].Ok?
    ensures Answered(PartsOf(plan, plan.tablets, replies), tablet) <==> AnsweredBy(replies, tablet)
  {
    var parts := PartsOf(plan, plan.tablets, replies);
    if Answered(parts, tablet) {
      var part :| part in parts && part.tablet == tablet;
      var i :| 0 <= i < |parts| && parts[i] == part;
      assert replies[i].Ok?;
    }
    if AnsweredBy(replies, tablet) {
      var i :| 0 <= i < |replies| && replies[i].Ok? && replies[i].partial.tablet == tablet;
      assert parts[i] in parts;
    }
  }

  /** Without partial mode there is an answer exactly when every planned tablet answered
      completely. */
  lemma AnswerIffAllAnswered(plan: Plan, replies: seq<Reply>, result: MergeResult)
    requires |replies| == |plan.tablets| && MergeAnswers(plan, PartsOf(plan, plan.tablets, replies), result)
    requires !plan.allowPartial
    ensures result.Answer? <==> AllAnswered(plan, replies)
  {
    NothingMissingIffAllAnswered(plan, replies);
    hide Merges, NothingMissing;
  }

  // The row bound

  /** Each tablet sends no more rows than it was asked for. */
  ghost predicate HonoursBound(parts: seq<Partial>, perTablet: nat) {
    forall part :: part in parts ==> |part.rows| <= perTablet
  }

  lemma OneMore(n: nat, k: nat)
    ensures (n + 1) * k == n * k + k
  {
  }

  lemma {:induction false} RowsWithinBound(parts: seq<Partial>, perTablet: nat)
    requires HonoursBound(parts, perTablet)
    ensures |RowsOf(parts)| <= |parts| * perTablet
  {
    if parts != [] {
      var n := |parts| - 1;
      assert parts[n] in parts && forall part :: part in parts[..n] ==> part in parts;
      RowsWithinBound(parts[..n], perTablet);
      OneMore(n, perTablet);
    }
  }

  /** What `n` tablets that each fill their bound send. */
  function FullParts(n: nat, perTablet: nat): (parts: seq<Partial>)
    ensures |parts| == n && HonoursBound(parts, perTablet)
    ensures |RowsOf(parts)| == n * perTablet
  {
    if n == 0 then []
    else
      var before := FullParts(n - 1, perTablet);
      var part := Partial("", 0, 0, true, [], 0, map[], seq(perTablet, i => EventRow(0, 0)), None, 0, 0, false);
      assert (before + [part])[..n - 1] == before;
      OneMore(n - 1, perTablet);
      before + [part]
  }

  /** The final cut never drops a row, whatever the tablets send within their bounds,
      exactly when that many tablets with that many rows fit the bound of the merge. */
  lemma ScanTruncatesIffBoundIsSmall(n: nat, perTablet: nat, maxRows: nat)
    ensures (forall parts: seq<Partial> :: |parts| == n && HonoursBound(parts, perTablet) ==>
               Truncated(RowsOf(parts), Rows(maxRows)) == RowsOf(parts))
            <==> n * perTablet <= maxRows
  {
    if n * perTablet <= maxRows {
      forall parts: seq<Partial> | |parts| == n && HonoursBound(parts, perTablet)
        ensures Truncated(RowsOf(parts), Rows(maxRows)) == RowsOf(parts)
      {
        RowsWithinBound(parts, perTablet);
      }
    } else {
      assert Truncated(RowsOf(FullParts(n, perTablet)), Rows(maxRows)) != RowsOf(FullParts(n, perTablet));
    }
  }

  /** So a scan returns every row of every part, in plan order, as long as the product
      of the two limits fits a word, because the fan-out was refused otherwise. */
  lemma ScanNeverTruncates(parts: seq<Partial>, perTablet: nat, maxFanOut: nat)
    requires |parts| <= maxFanOut && HonoursBound(parts, perTablet) && perTablet * maxFanOut < WORD
    ensures Truncated(RowsOf(parts), Rows(perTablet * maxFanOut % WORD)) == RowsOf(parts)
  {
    hide RowsOf, HonoursBound;
    RowsWithinBound(parts, perTablet);
    Scaled(|parts|, maxFanOut, perTablet);
    Unwrapped(perTablet * maxFanOut);
    TruncationOnlyDrops(RowsOf(parts), Rows(perTablet * maxFanOut % WORD));
    hide Truncated;
  }

  lemma Unwrapped(product: nat)
    requires product < WORD
    ensures product % WORD == product
  {
  }

  lemma Scaled(a: nat, b: nat, k: nat)
    requires a <= b
    ensures a * k <= k * b
  {
    assert k * b == a * k + (b - a) * k;
  }

  /** With the default fan-out and a per-tablet bound of 2^56 the product wraps to
      zero: the scan drops every row and still calls itself complete. */
  lemma WrappedBoundDropsEverything(plan: Plan, part: Partial, m: Merged)
    requires plan.kind == Rows(0x100_0000_0000_0000 * 256 % WORD)
    requires plan.tablets == [part.tablet] && part.complete && Merges(plan, [part], m)
    ensures m.rows == [] && m.complete
  {
    AllArrived(plan.tablets, [part]);
    assert part in [part];
    assert RowsOf([part]) == RowsOf([part][..0]) + part.rows;
  }

  /** What a scan returns when the product of its limits fits a word. */
  lemma ScanKeepsEveryRow(plan: Plan, parts: seq<Partial>, m: Merged, perTablet: nat, maxFanOut: nat)
    requires plan.kind == Rows(perTablet * maxFanOut % WORD) && Merges(plan, parts, m)
    requires |parts| <= maxFanOut && HonoursBound(parts, perTablet) && perTablet * maxFanOut < WORD
    ensures m.rows == RowsOf(parts)
  {
    ScanNeverTruncates(parts, perTablet, maxFanOut);
    hide RowsOf, HonoursBound, Truncated;
  }

  // The cell's reads

  datatype Scanned = ScanOf(rows: seq<EventRow>, incomplete: bool) | ScanExhausted

  datatype TrendRead = TrendOf(buckets: seq<(int, nat)>, total: nat, commitWatermark: nat, incomplete: bool) | TrendExhausted

  function ScanPlan(cell: Cell, maxFanOut: nat, perTablet: nat, project: nat, rangeStart: int, rangeEnd: int, basis: Basis): Plan {
    Plan(project, rangeStart, rangeEnd, basis, Rows(perTablet * maxFanOut % WORD), None, Committed, 0, true,
         ReadableNames(cell.topology.tablets), cell.topology.generation)
  }

  function TrendPlan(cell: Cell, project: nat, rangeStart: int, rangeEnd: int, basis: Basis, bucketMs: int, name: Option<string>): Plan {
    Plan(project, rangeStart, rangeEnd, basis, Trend(bucketMs), name, Committed, 0, true,
         ReadableNames(cell.topology.tablets), cell.topology.generation)
  }

  lemma NothingMissed()
    ensures MissedOf([], []) == []
  {
  }

  lemma RepliesAreMany(cell: Cell, plan: Plan, maxRows: nat, replies: seq<Reply>)
    requires RepliesFit(cell, plan, maxRows, plan.tablets, replies)
    ensures |replies| == |plan.tablets|
  {
  }

  lemma Remembered(unreachable: map<nat, seq<string>>, thread: nat, missed: seq<string>)
    requires |unreachable| < REMEMBERED_THREADS
    ensures |unreachable[thread := missed]| <= REMEMBERED_THREADS
  {
    var next := unreachable[thread := missed];
    assert next.Keys == unreachable.Keys + {thread};
    assert |next.Keys| == |next| && |unreachable.Keys| == |unreachable|;
  }

  /** The fan-out of one node. `unreachable` says what the last read of each thread
      could not reach. */
  class ClusterReads {
    const cell: Cell
    const maxFanOut: nat
    const maxRowsForEachTablet: nat
    var unreachable: map<nat, seq<string>>

    ghost predicate Valid()
      reads this
    {
      && 1 <= maxFanOut <= U64_MAX && 1 <= maxRowsForEachTablet <= U64_MAX
      && cell.topology.Valid() && |unreachable| <= REMEMBERED_THREADS
    }

    constructor (cell: Cell, maxFanOut: U64, maxRowsForEachTablet: U64)
      requires cell.topology.Valid()
      ensures Valid() && this.cell == cell && unreachable == map[]
    {
      this.cell := cell;
      this.maxFanOut := if maxFanOut < 1 then 1 else maxFanOut;
      this.maxRowsForEachTablet := if maxRowsForEachTablet < 1 then 1 else maxRowsForEachTablet;
      unreachable := map[];
    }

    /** Asks every planned tablet, a few at a time, and merges: one part for each
        tablet, in plan order. */
    method Run(thread: nat, plan: Plan) returns (result: MergeResult, ghost replies: seq<Reply>)
      requires Valid()
      modifies this
      ensures Valid() && RepliesFit(cell, plan, maxRowsForEachTablet, plan.tablets, replies)
      ensures MergeAnswers(plan, PartsOf(plan, plan.tablets, replies), result)
      ensures if plan.allowPartial then result.Answer? else result.Answer? <==> AllAnswered(plan, replies)
      ensures thread in unreachable && unreachable[thread] == MissedOf(plan.tablets, replies)
      ensures forall other :: other in unreachable && other != thread ==>
                other in old(unreachable) && unreachable[other] == old(unreachable)[other]
    {
      hide Merges, NothingMissing, AllAnswered, RepliesFit, MissedOf;
      var parts, missed;
      parts, missed, replies := Collect(plan);
      if |unreachable| >= REMEMBERED_THREADS {
        unreachable := map[];
      }
      Remembered(unreachable, thread, missed);
      unreachable := unreachable[thread := missed];
      result := Merge(plan, parts);
      if !plan.allowPartial {
        assert |replies| == |plan.tablets| by { RepliesAreMany(cell, plan, maxRowsForEachTablet, replies); }
        AnswerIffAllAnswered(plan, replies, result);
      }
    }

    /** Each chunk of tablets in turn. */
    method Collect(plan: Plan) returns (parts: seq<Partial>, missed: seq<string>, ghost replies: seq<Reply>)
      ensures RepliesFit(cell, plan, maxRowsForEachTablet, plan.tablets, replies)
      ensures parts == PartsOf(plan, plan.tablets, replies) && missed == MissedOf(plan.tablets, replies)
    {
      hide Asks, PartOf, MissedOf;
      missed, parts, replies := [], [], [];
      NothingMissed();
      var at := 0;
      while at < |plan.tablets|
        invariant 0 <= at <= |plan.tablets|
        invariant RepliesFit(cell, plan, maxRowsForEachTablet, plan.tablets[..at], replies)
        invariant parts == PartsOf(plan, plan.tablets[..at], replies)
        invariant missed == MissedOf(plan.tablets[..at], replies)
      {
        var next := if at + TABLETS_ASKED_AT_ONCE < |plan.tablets| then at + TABLETS_ASKED_AT_ONCE else |plan.tablets|;
        var batch := plan.tablets[at..next];
        assert plan.tablets[..next] == plan.tablets[..at] + batch;
        var answers := AskSome(cell, plan, maxRowsForEachTablet, batch);
        var more, gone := TakeAnswers(plan, batch, answers);
        RepliesJoin(cell, plan, maxRowsForEachTablet, plan.tablets[..at], batch, replies, answers);
        MissedJoin(plan.tablets[..at], batch, replies, answers);
        parts, missed, replies := parts + more, missed + gone, replies + answers;
        at := next;
      }
      assert plan.tablets[..at] == plan.tablets;
    }

    /** Takes each answer of a chunk, or names what is missing. */
    method TakeAnswers(plan: Plan, batch: seq<string>, answers: seq<Reply>) returns (parts: seq<Partial>, missed: seq<string>)
      requires |answers| == |batch|
      ensures parts == PartsOf(plan, batch, answers) && missed == MissedOf(batch, answers)
    {
      parts, missed := [], [];
      var i := 0;
      while i < |batch|
        invariant 0 <= i <= |batch| && |parts| == i
        invariant forall j :: 0 <= j < i ==> parts[j] == PartOf(plan, batch[j], answers[j])
        invariant missed == MissedOf(batch[..i], answers[..i])
      {
        assert batch[..i + 1][..i] == batch[..i] && answers[..i + 1][..i] == answers[..i];
        match answers[i] {
          case Ok(partial) => parts := parts + [partial];
          case Err(_) =>
            missed := missed + [batch[i]];
            parts := parts + [Unavailable(batch[i], plan.rangeStart, plan.rangeEnd)];
        }
        i := i + 1;
      }
      assert batch[..i] == batch && answers[..i] == answers;
    }

    /** Rows from every tablet. The merge cuts at the bound of the whole fan-out, which
        is a product of two words and wraps like one. */
    method Scan(thread: nat, project: nat, rangeStart: int, rangeEnd: int, basis: Basis) returns (scanned: Scanned, ghost replies: seq<Reply>)
      requires Valid()
      modifies this
      ensures Valid()
      ensures scanned == ScanExhausted <==> |ReadableNames(cell.topology.tablets)| > maxFanOut
      ensures scanned.ScanOf? ==>
                var plan := ScanPlan(cell, maxFanOut, maxRowsForEachTablet, project, rangeStart, rangeEnd, basis);
                && RepliesFit(cell, plan, maxRowsForEachTablet, plan.tablets, replies)
                && exists m :: Merges(plan, PartsOf(plan, plan.tablets, replies), m) &&
                               scanned == ScanOf(m.rows, !m.complete)
      ensures scanned.ScanOf? && maxRowsForEachTablet * maxFanOut < WORD ==>
                var plan := ScanPlan(cell, maxFanOut, maxRowsForEachTablet, project, rangeStart, rangeEnd, basis);
                |replies| == |plan.tablets| &&
                (HonoursBound(PartsOf(plan, plan.tablets, replies), maxRowsForEachTablet) ==>
                   scanned.rows == RowsOf(PartsOf(plan, plan.tablets, replies)))
    {
      hide Merges, RepliesFit, MissedOf, NothingMissing, AllAnswered, HonoursBound, RowsOf;
      replies := [];
      var planned := MakePlan(cell.topology, project, rangeStart, rangeEnd, basis,
                              Rows(maxRowsForEachTablet * maxFanOut % WORD), None, Committed, true, maxFanOut);
      match planned {
        case OverFanOut(_, _) => return ScanExhausted, [];
        case Ready(plan) =>
          var result;
          result, replies := Run(thread, plan);
          scanned := ScanOf(result.merged.rows, !result.merged.complete);
          RepliesAreMany(cell, plan, maxRowsForEachTablet, replies);
          if maxRowsForEachTablet * maxFanOut < WORD && HonoursBound(PartsOf(plan, plan.tablets, replies), maxRowsForEachTablet) {
            ScanKeepsEveryRow(plan, PartsOf(plan, plan.tablets, replies), result.merged, maxRowsForEachTablet, maxFanOut);
          }
      }
    }

    /** A trend over every tablet. */
    method ReadTrend(thread: nat, project: nat, rangeStart: int, rangeEnd: int, basis: Basis, bucketMs: int, name: Option<string>)
      returns (read: TrendRead, ghost replies: seq<Reply>)
      requires Valid()
      modifies this
      ensures Valid()
      ensures read == TrendExhausted <==> |ReadableNames(cell.topology.tablets)| > maxFanOut
      ensures read.TrendOf? ==>
                var plan := TrendPlan(cell, project, rangeStart, rangeEnd, basis, bucketMs, name);
                && RepliesFit(cell, plan, maxRowsForEachTablet, plan.tablets, replies)
                && exists m :: Merges(plan, PartsOf(plan, plan.tablets, replies), m) &&
                               read == TrendOf(m.buckets, m.count, m.commitWatermark, !m.complete)
    {
      hide Merges, RepliesFit, MissedOf, NothingMissing, AllAnswered;
      replies := [];
      var planned := MakePlan(cell.topology, project, rangeStart, rangeEnd, basis, Trend(bucketMs), name, Committed, true,
                              maxFanOut);
      match planned {
        case OverFanOut(_, _) => return TrendExhausted, [];
        case Ready(plan) =>
          var result;
          result, replies := Run(thread, plan);
          var m := result.merged;
          read := TrendOf(m.buckets, m.count, m.commitWatermark, !m.complete);
      }
    }
  }

  // What a read across tablets means

  /** A tablet's own answer is exact when it says it is complete, and otherwise never
      more than its rows. */
  ghost predicate AnswersHonestly(reply: Reply, kind: PartialKind, rows: seq<EventRow>) {
    reply.Ok? ==> if reply.partial.complete then Exact(reply.partial, kind, rows) else Within(reply.partial, kind, rows)
  }

  /** The fan-out answers what one store holding every row would answer: exactly when
      it is marked complete, and never more. A tablet that did not answer is named. */
  lemma FanOutIsTheWhole(plan: Plan, replies: seq<Reply>, m: Merged, store: map<string, seq<EventRow>>, whole: seq<EventRow>)
    requires |replies| == |plan.tablets| && Merges(plan, PartsOf(plan, plan.tablets, replies), m)
    requires Partitions(plan.tablets, store, whole)
    requires forall i :: 0 <= i < |replies| ==> AnswersHonestly(replies[i], plan.kind, store[plan.tablets[i]])
    ensures m.complete ==> IsWholeAnswer(m, plan.kind, whole)
    ensures IsSmallerAnswer(m, plan.kind, whole)
    ensures m.complete ==> forall i :: 0 <= i < |replies| ==> replies[i].Ok? && replies[i].partial.complete
    ensures forall i :: 0 <= i < |replies| && replies[i].Err? ==>
              MissingRange(plan.tablets[i], plan.rangeStart, plan.rangeEnd) in m.missing
  {
    hide Merges, AnswersHonestly, IsWholeAnswer, IsSmallerAnswer, Honest, AllRows;
    var parts := PartsOf(plan, plan.tablets, replies);
    RepliesAreHonest(plan, replies, store);
    MergedIsTheWhole(plan, parts, m, store, whole);
    CompleteAndMissing(plan, replies, m);
  }

  lemma RepliesAreHonest(plan: Plan, replies: seq<Reply>, store: map<string, seq<EventRow>>)
    requires |replies| == |plan.tablets| && forall tablet :: tablet in plan.tablets ==> tablet in store
    requires forall i :: 0 <= i < |replies| ==> AnswersHonestly(replies[i], plan.kind, store[plan.tablets[i]])
    ensures Honest(PartsOf(plan, plan.tablets, replies), plan.kind, plan.tablets, store)
  {
    hide Exact, Within;
    var parts := PartsOf(plan, plan.tablets, replies);
    forall i | 0 <= i < |parts|
      ensures if parts[i].complete then Exact(parts[i], plan.kind, store[plan.tablets[i]])
              else Within(parts[i], plan.kind, store[plan.tablets[i]])
    {
      if replies[i].Err? { NothingIsWithin(plan, plan.tablets[i], store[plan.tablets[i]]); }
    }
  }

  lemma CompleteAndMissing(plan: Plan, replies: seq<Reply>, m: Merged)
    requires |replies| == |plan.tablets| && Merges(plan, PartsOf(plan, plan.tablets, replies), m)
    ensures m.complete ==> forall i :: 0 <= i < |replies| ==> replies[i].Ok? && replies[i].partial.complete
    ensures forall i :: 0 <= i < |replies| && replies[i].Err? ==>
              MissingRange(plan.tablets[i], plan.rangeStart, plan.rangeEnd) in m.missing
  {
    hide ListsBuckets;
    var parts := PartsOf(plan, plan.tablets, replies);
    forall i | 0 <= i < |replies| && m.complete ensures replies[i].Ok? && replies[i].partial.complete {
      assert parts[i] in parts;
    }
    forall i | 0 <= i < |replies| && replies[i].Err?
      ensures MissingRange(plan.tablets[i], plan.rangeStart, plan.rangeEnd) in m.missing
    {
      MissingIsNamed(parts, i);
    }
  }

  lemma NothingIsWithin(plan: Plan, tablet: string, rows: seq<EventRow>)
    ensures Within(Unavailable(tablet, plan.rangeStart, plan.rangeEnd), plan.kind, rows)
  {
  }

  lemma {:induction false} MissingIsNamed(parts: seq<Partial>, i: nat)
    requires i < |parts|
    ensures forall range :: range in parts[i].missing ==> range in MissingOf(parts)
  {
    var n := |parts| - 1;
    if i < n { MissingIsNamed(parts[..n], i); }
  }
}
