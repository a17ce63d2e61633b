// Which nodes vote for a new tablet, over as many failure domains as there can be
// (crates/tallyowl-cluster/src/controller.rs, `choose_voters`).

module Voters {
  import opened Common
  import opened Orders
  import opened Sorting

  datatype NodeState = Healthy | Slow | Unreachable | ReadOnly | Draining

  datatype Node = Node(name: string, domain: string, address: string, region: string,
                       writable: bool, state: NodeState, freeBytes: nat)

  /** Why some voters share a domain. */
  datatype Doubled = Spread | Shared(domains: nat, sharing: nat)

  datatype Choice = Chosen(voters: seq<Node>, doubled: Doubled) | TooFew(have: nat, want: nat)

  predicate Eligible(node: Node) { node.writable && node.state != Draining }

  /** More free space first, and then by name. */
  predicate Before(a: Node, b: Node) {
    a.freeBytes > b.freeBytes || (a.freeBytes == b.freeBytes && Less(a.name, b.name))
  }

  function EligibleOf(nodes: seq<Node>): seq<Node> {
    if nodes == [] then []
    else
      var before, last := EligibleOf(nodes[..|nodes| - 1]), nodes[|nodes| - 1];
      if Eligible(last) then before + [last] else before
  }

  function Ranked(nodes: seq<Node>): (ranked: seq<Node>)
    ensures |ranked| == |nodes|
  {
    SortBy(Before, nodes)
  }

  predicate HasDomain(nodes: seq<Node>, domain: string) {
    exists i :: 0 <= i < |nodes| && nodes[i].domain == domain
  }

  predicate HasName(nodes: seq<Node>, name: string) {
    exists i :: 0 <= i < |nodes| && nodes[i].name == name
  }

  /** The first node of each domain, in rank order, while voters are wanted. */
  function SpreadOf(ranked: seq<Node>, want: nat): seq<Node> {
    if ranked == [] then []
    else
      var before, last := SpreadOf(ranked[..|ranked| - 1], want), ranked[|ranked| - 1];
      if |before| == want || HasDomain(before, last.domain) then before else before + [last]
  }

  /** The first nodes in rank order that are not taken. */
  function FillOf(ranked: seq<Node>, taken: seq<Node>, count: nat): seq<Node> {
    if ranked == [] then []
    else
      var before, last := FillOf(ranked[..|ranked| - 1], taken, count), ranked[|ranked| - 1];
      if |before| == count || HasName(taken, last.name) then before else before + [last]
  }

  /** The spread, filled up when there are not enough domains. */
  function PickOf(ranked: seq<Node>, want: nat): Choice {
    var spread := SpreadOf(ranked, want);
    if |spread| < want
    then Chosen(spread + FillOf(ranked, spread, want - |spread|), Shared(|spread|, want - |spread|))
    else Chosen(spread, Spread)
  }

  function ChoiceOf(nodes: seq<Node>, want: nat): Choice {
    var ranked := Ranked(EligibleOf(nodes));
    if |ranked| < want then TooFew(|ranked|, want) else PickOf(ranked, want)
  }

  lemma {:induction false} SpreadStays(ranked: seq<Node>, i: nat, want: nat)
    requires i <= |ranked| && |SpreadOf(ranked[..i], want)| == want
    ensures SpreadOf(ranked, want) == SpreadOf(ranked[..i], want)
    decreases |ranked|
  {
    if i < |ranked| {
      assert ranked[..|ranked| - 1][..i] == ranked[..i];
      SpreadStays(ranked[..|ranked| - 1], i, want);
    } else {
      assert ranked[..i] == ranked;
    }
  }

  lemma {:induction false} FillStays(ranked: seq<Node>, i: nat, taken: seq<Node>, count: nat)
    requires i <= |ranked| && |FillOf(ranked[..i], taken, count)| == count
    ensures FillOf(ranked, taken, count) == FillOf(ranked[..i], taken, count)
    decreases |ranked|
  {
    if i < |ranked| {
      assert ranked[..|ranked| - 1][..i] == ranked[..i];
      FillStays(ranked[..|ranked| - 1], i, taken, count);
    } else {
      assert ranked[..i] == ranked;
    }
  }

  method ChooseSpread(ranked: seq<Node>, want: nat) returns (chosen: seq<Node>, usedDomains: set<string>)
    ensures chosen == SpreadOf(ranked, want) && usedDomains == DomainsOf(chosen)
  {
    chosen, usedDomains := [], {};
    var i := 0;
    while i < |ranked|
      invariant 0 <= i <= |ranked| && chosen == SpreadOf(ranked[..i], want) && usedDomains == DomainsOf(chosen)
    {
      if |chosen| == want {
        SpreadStays(ranked, i, want);
        return;
      }
      assert ranked[..i + 1][..i] == ranked[..i];
      InDomains(chosen, ranked[i].domain);
      if ranked[i].domain !in usedDomains {
        DomainsNext(chosen, ranked[i]);
        usedDomains := usedDomains + {ranked[i].domain};
        chosen := chosen + [ranked[i]];
      }
      i := i + 1;
    }
    assert ranked[..i] == ranked;
  }

  method ChooseExtra(ranked: seq<Node>, taken: seq<Node>, count: nat) returns (extra: seq<Node>)
    ensures extra == FillOf(ranked, taken, count)
  {
    var already := NamesOf(taken);
    extra := [];
    var i := 0;
    while i < |ranked|
      invariant 0 <= i <= |ranked| && extra == FillOf(ranked[..i], taken, count)
    {
      if |extra| == count {
        FillStays(ranked, i, taken, count);
        return;
      }
      assert ranked[..i + 1][..i] == ranked[..i];
      InNames(taken, ranked[i].name);
      if ranked[i].name !in already {
        extra := extra + [ranked[i]];
      }
      i := i + 1;
    }
    assert ranked[..i] == ranked;
  }

  method ChooseVoters(nodes: seq<Node>, want: nat) returns (choice: Choice)
    ensures choice == ChoiceOf(nodes, want)
  {
    hide SpreadOf, FillOf, Ranked, EligibleOf;
    var healthy := EligibleOf(nodes);
    if |healthy| < want {
      return TooFew(|healthy|, want);
    }
    var ranked := Ranked(healthy);
    var chosen, usedDomains := ChooseSpread(ranked, want);
    if |chosen| < want {
      var extra := ChooseExtra(ranked, chosen, want - |chosen|);
      SpreadBasics(ranked, want);
      DistinctDomainsCount(chosen);
      return Chosen(chosen + extra, Shared(|usedDomains|, want - |usedDomains|));
    }
    SpreadBasics(ranked, want);
    return Chosen(chosen, Spread);
  }

  // Names and domains

  function DomainsOf(nodes: seq<Node>): set<string> { set n | n in nodes :: n.domain }

  function NamesOf(nodes: seq<Node>): set<string> { set n | n in nodes :: n.name }

  predicate DistinctNames(nodes: seq<Node>) {
    forall i, j :: 0 <= i < j < |nodes| ==> nodes[i].name != nodes[j].name
  }

  predicate DistinctDomains(nodes: seq<Node>) {
    forall i, j :: 0 <= i < j < |nodes| ==> nodes[i].domain != nodes[j].domain
  }

  lemma InDomains(nodes: seq<Node>, domain: string)
    ensures domain in DomainsOf(nodes) <==> HasDomain(nodes, domain)
  {
    if HasDomain(nodes, domain) {
      var i :| 0 <= i < |nodes| && nodes[i].domain == domain;
      assert nodes[i] in nodes;
    }
  }

  lemma InNames(nodes: seq<Node>, name: string)
    ensures name in NamesOf(nodes) <==> HasName(nodes, name)
  {
    if HasName(nodes, name) {
      var i :| 0 <= i < |nodes| && nodes[i].name == name;
      assert nodes[i] in nodes;
    }
  }

  lemma DomainsNext(nodes: seq<Node>, node: Node)
    ensures DomainsOf(nodes + [node]) == DomainsOf(nodes) + {node.domain}
    ensures NamesOf(nodes + [node]) == NamesOf(nodes) + {node.name}
  {
    assert forall x :: x in nodes + [node] <==> x in nodes || x == node;
  }

  lemma {:induction false} DistinctDomainsCount(nodes: seq<Node>)
    ensures |DomainsOf(nodes)| <= |nodes|
    ensures DistinctDomains(nodes) ==> |DomainsOf(nodes)| == |nodes|
  {
    if nodes != [] {
      var n := |nodes| - 1;
      assert nodes == nodes[..n] + [nodes[n]];
      DistinctDomainsCount(nodes[..n]);
      DomainsNext(nodes[..n], nodes[n]);
      InDomains(nodes[..n], nodes[n].domain);
    }
  }

  lemma {:induction false} DistinctNamesCount(nodes: seq<Node>)
    ensures |NamesOf(nodes)| <= |nodes|
    ensures DistinctNames(nodes) <==> |NamesOf(nodes)| == |nodes|
  {
    if nodes != [] {
      var n := |nodes| - 1;
      assert nodes == nodes[..n] + [nodes[n]];
      DistinctNamesCount(nodes[..n]);
      DomainsNext(nodes[..n], nodes[n]);
      InNames(nodes[..n], nodes[n].name);
    }
  }

  lemma {:induction false} SpreadBasics(ranked: seq<Node>, want: nat)
    ensures |SpreadOf(ranked, want)| <= want && DistinctDomains(SpreadOf(ranked, want))
    ensures forall n :: n in SpreadOf(ranked, want) ==> n in ranked
    ensures |SpreadOf(ranked, want)| < want ==>
              forall i :: 0 <= i < |ranked| ==> HasDomain(SpreadOf(ranked, want), ranked[i].domain)
  {
    if ranked != [] {
      var n := |ranked| - 1;
      SpreadBasics(ranked[..n], want);
      var before, spread := SpreadOf(ranked[..n], want), SpreadOf(ranked, want);
      if |spread| < want {
        forall i | 0 <= i < |ranked| ensures HasDomain(spread, ranked[i].domain) {
          if i < n {
            assert HasDomain(before, ranked[..n][i].domain);
            var k :| 0 <= k < |before| && before[k].domain == ranked[i].domain;
            assert spread[k].domain == ranked[i].domain;
          } else if !HasDomain(before, ranked[n].domain) {
            assert spread[|before|].domain == ranked[n].domain;
          }
        }
      }
    }
  }

  // The rank order

  predicate InRankOrder(nodes: seq<Node>) {
    forall i, j :: 0 <= i < j < |nodes| ==> Before(nodes[i], nodes[j])
  }

  lemma BeforeTotal(a: Node, b: Node)
    requires a.name != b.name
    ensures Before(a, b) || Before(b, a)
  {
    LessTotal(a.name, b.name);
  }

  lemma BeforeTransitive(a: Node, b: Node, c: Node)
    requires Before(a, b) && Before(b, c)
    ensures Before(a, c)
  {
    if a.freeBytes == b.freeBytes == c.freeBytes { LessTransitive(a.name, b.name, c.name); }
  }

  /** Ranking keeps the nodes and puts them in order. */
  lemma RankedRanks(nodes: seq<Node>)
    requires DistinctNames(nodes)
    ensures InRankOrder(Ranked(nodes)) && DistinctNames(Ranked(nodes))
    ensures forall n :: n in Ranked(nodes) <==> n in nodes
  {
    forall a, b, c | Before(a, b) && Before(b, c) ensures Before(a, c) { BeforeTransitive(a, b, c); }
    forall i, j | 0 <= i < j < |nodes| ensures Before(nodes[i], nodes[j]) || Before(nodes[j], nodes[i]) {
      BeforeTotal(nodes[i], nodes[j]);
    }
    SortHolds(Before, nodes);
    SortOrders(Before, nodes);
    var ranked := Ranked(nodes);
    assert forall i, j :: 0 <= i < j < |ranked| ==> Before(ranked[i], ranked[j]);
    assert NamesOf(ranked) == NamesOf(nodes);
    DistinctNamesCount(nodes);
    DistinctNamesCount(ranked);
  }

  lemma {:induction false} EligibleHolds(nodes: seq<Node>)
    ensures forall n :: n in EligibleOf(nodes) <==> n in nodes && Eligible(n)
    ensures DistinctNames(nodes) ==> DistinctNames(EligibleOf(nodes))
  {
    if nodes != [] {
      var n := |nodes| - 1;
      assert nodes == nodes[..n] + [nodes[n]];
      EligibleHolds(nodes[..n]);
      if DistinctNames(nodes) {
        forall i | 0 <= i < |EligibleOf(nodes[..n])| ensures EligibleOf(nodes[..n])[i].name != nodes[n].name {
          assert EligibleOf(nodes[..n])[i] in nodes[..n];
          var k :| 0 <= k < n && nodes[k] == EligibleOf(nodes[..n])[i];
        }
      }
    }
  }

  /** The first pick of a domain ranks before every other node of that domain, and
      before every node of the domains that were not picked. */
  lemma {:induction false} SpreadPicksTheFreest(ranked: seq<Node>, want: nat, m: Node, n: Node)
    requires InRankOrder(ranked) && m in SpreadOf(ranked, want) && n in ranked && n != m
    requires n.domain == m.domain || !HasDomain(SpreadOf(ranked, want), n.domain)
    ensures Before(m, n)
  {
    var k := |ranked| - 1;
    var before, last := SpreadOf(ranked[..k], want), ranked[k];
    assert ranked == ranked[..k] + [last];
    SpreadBasics(ranked[..k], want);
    SpreadMonotone(ranked, want, n.domain);
    forall i | 0 <= i < k && |before| < want ensures HasDomain(before, ranked[i].domain) {
      assert HasDomain(before, ranked[..k][i].domain);
    }
    if m in before {
      if n in ranked[..k] {
        SpreadPicksTheFreest(ranked[..k], want, m, n);
      } else {
        var i :| 0 <= i < k && ranked[i] == m;
      }
    } else {
      assert false;
    }
  }

  lemma SpreadMonotone(ranked: seq<Node>, want: nat, domain: string)
    requires ranked != []
    ensures HasDomain(SpreadOf(ranked[..|ranked| - 1], want), domain) ==> HasDomain(SpreadOf(ranked, want), domain)
  {
    var before, spread := SpreadOf(ranked[..|ranked| - 1], want), SpreadOf(ranked, want);
    if HasDomain(before, domain) {
      var i :| 0 <= i < |before| && before[i].domain == domain;
      assert spread[i].domain == domain;
    }
  }

  // The fill

  lemma {:induction false} FillHolds(ranked: seq<Node>, taken: seq<Node>, count: nat)
    requires DistinctNames(ranked)
    ensures var fill := FillOf(ranked, taken, count);
            && |fill| <= count && DistinctNames(fill)
            && (forall n :: n in fill ==> n in ranked && !HasName(taken, n.name))
            && (|fill| < count ==> forall n :: n in ranked ==> n in fill || HasName(taken, n.name))
  {
    if ranked != [] {
      var k := |ranked| - 1;
      assert ranked == ranked[..k] + [ranked[k]];
      FillHolds(ranked[..k], taken, count);
      var before := FillOf(ranked[..k], taken, count);
      forall i | 0 <= i < |before| ensures before[i].name != ranked[k].name {
        assert before[i] in ranked[..k];
        var j :| 0 <= j < k && ranked[j] == before[i];
      }
    }
  }

  /** There is always enough to fill with. */
  lemma FillFills(ranked: seq<Node>, taken: seq<Node>, want: nat)
    requires DistinctNames(ranked) && |taken| <= want <= |ranked|
    ensures |FillOf(ranked, taken, want - |taken|)| == want - |taken|
  {
    var fill := FillOf(ranked, taken, want - |taken|);
    FillHolds(ranked, taken, want - |taken|);
    if |fill| < want - |taken| {
      DistinctNamesCount(ranked);
      DistinctNamesCount(taken);
      DistinctNamesCount(fill);
      forall name | name in NamesOf(ranked) ensures name in NamesOf(taken) + NamesOf(fill) {
        var n :| n in ranked && n.name == name;
        InNames(taken, name);
        if n in fill { assert n.name in NamesOf(fill); }
      }
      Covered(NamesOf(ranked), NamesOf(taken), NamesOf(fill));
    }
  }

  lemma Covered(a: set<string>, b: set<string>, c: set<string>)
    requires a <= b + c
    ensures |a| <= |b| + |c|
  {
    Smaller(a, b + c);
    assert |b + c| + |b * c| == |b| + |c|;
  }

  lemma {:induction false} Smaller(a: set<string>, b: set<string>)
    requires a <= b
    ensures |a| <= |b|
  {
    assert b == a + (b - a);
    assert |b| == |a| + |b - a|;
  }

  // What a choice is worth

  lemma ConcatDistinct(a: seq<Node>, b: seq<Node>)
    requires DistinctNames(a) && DistinctNames(b) && forall n :: n in b ==> !HasName(a, n.name)
    ensures DistinctNames(a + b)
  {
    forall i, j | 0 <= i < j < |a + b| ensures (a + b)[i].name != (a + b)[j].name {
      if i < |a| <= j { assert b[j - |a|] in b; }
    }
  }

  lemma SpreadDistinct(ranked: seq<Node>, want: nat)
    requires DistinctNames(ranked)
    ensures DistinctNames(SpreadOf(ranked, want))
  {
    var spread := SpreadOf(ranked, want);
    SpreadBasics(ranked, want);
    forall i, j | 0 <= i < j < |spread| ensures spread[i].name != spread[j].name {
      assert spread[i] in ranked && spread[j] in ranked;
      assert spread[i].domain != spread[j].domain;
      var k :| 0 <= k < |ranked| && ranked[k] == spread[i];
      var l :| 0 <= l < |ranked| && ranked[l] == spread[j];
    }
  }

  /** How many domains the spread reaches. */
  lemma SpreadSpans(ranked: seq<Node>, want: nat)
    ensures |SpreadOf(ranked, want)| == |DomainsOf(SpreadOf(ranked, want))| == Min(want, |DomainsOf(ranked)|)
    ensures |SpreadOf(ranked, want)| < want ==> DomainsOf(SpreadOf(ranked, want)) == DomainsOf(ranked)
  {
    var spread := SpreadOf(ranked, want);
    SpreadBasics(ranked, want);
    DistinctDomainsCount(spread);
    assert DomainsOf(spread) <= DomainsOf(ranked);
    Smaller(DomainsOf(spread), DomainsOf(ranked));
    if |spread| < want {
      forall domain | domain in DomainsOf(ranked) ensures domain in DomainsOf(spread) {
        var n :| n in ranked && n.domain == domain;
        var i :| 0 <= i < |ranked| && ranked[i] == n;
        InDomains(spread, ranked[i].domain);
      }
      assert DomainsOf(spread) == DomainsOf(ranked);
    }
  }

  ghost predicate SameNodes(a: seq<Node>, b: seq<Node>) {
    forall n :: n in a <==> n in b
  }

  lemma SameDomains(a: seq<Node>, b: seq<Node>)
    requires SameNodes(a, b)
    ensures DomainsOf(a) == DomainsOf(b)
  {
  }

  lemma RankedIs(nodes: seq<Node>) returns (ranked: seq<Node>)
    requires DistinctNames(nodes)
    ensures ranked == Ranked(EligibleOf(nodes)) && |ranked| == |EligibleOf(nodes)|
    ensures DistinctNames(ranked) && InRankOrder(ranked) && DomainsOf(ranked) == DomainsOf(EligibleOf(nodes))
    ensures forall n :: n in ranked <==> n in nodes && Eligible(n)
  {
    EligibleHolds(nodes);
    RankedRanks(EligibleOf(nodes));
    ranked := Ranked(EligibleOf(nodes));
    SameDomains(ranked, EligibleOf(nodes));
  }

  lemma PickSpreads(ranked: seq<Node>, want: nat)
    requires DistinctNames(ranked) && want <= |ranked|
    ensures var pick := PickOf(ranked, want);
            && pick.Chosen? && |pick.voters| == want && DistinctNames(pick.voters)
            && (forall n :: n in pick.voters ==> n in ranked)
            && |DomainsOf(pick.voters)| == Min(want, |DomainsOf(ranked)|)
            && pick.doubled == if |DomainsOf(ranked)| < want
                               then Shared(|DomainsOf(ranked)|, want - |DomainsOf(ranked)|) else Spread
  {
    hide SpreadOf, FillOf, DomainsOf, DistinctNames;
    var spread := SpreadOf(ranked, want);
    SpreadBasics(ranked, want);
    SpreadDistinct(ranked, want);
    SpreadSpans(ranked, want);
    if |spread| < want {
      var fill := FillOf(ranked, spread, want - |spread|);
      FillHolds(ranked, spread, want - |spread|);
      FillFills(ranked, spread, want);
      ConcatDistinct(spread, fill);
      FillKeepsDomains(ranked, spread, fill);
    }
  }

  /** A tablet gets exactly the voters it wants: distinct nodes that can hold one, over
      as many domains as that many voters or the cell can span. It is refused exactly
      when there are too few such nodes, and warned exactly when domains are shared. */
  lemma ChoiceSpreads(nodes: seq<Node>, want: nat)
    requires DistinctNames(nodes)
    ensures var choice, domains := ChoiceOf(nodes, want), |DomainsOf(EligibleOf(nodes))|;
            && (choice.TooFew? <==> |EligibleOf(nodes)| < want)
            && (choice.Chosen? ==>
                  && |choice.voters| == want && DistinctNames(choice.voters)
                  && (forall n :: n in choice.voters ==> n in nodes && Eligible(n))
                  && |DomainsOf(choice.voters)| == Min(want, domains)
                  && choice.doubled == if domains < want then Shared(domains, want - domains) else Spread)
  {
    hide PickOf, Ranked, EligibleOf, DomainsOf, DistinctNames, InRankOrder;
    var ranked := RankedIs(nodes);
    if |ranked| >= want { PickSpreads(ranked, want); }
  }

  lemma FillKeepsDomains(ranked: seq<Node>, spread: seq<Node>, fill: seq<Node>)
    requires DomainsOf(spread) == DomainsOf(ranked) && forall n :: n in fill ==> n in ranked
    ensures DomainsOf(spread + fill) == DomainsOf(ranked)
  {
    forall domain ensures domain in DomainsOf(spread + fill) <==> domain in DomainsOf(ranked) {
      if domain in DomainsOf(spread) {
        var n :| n in spread && n.domain == domain;
        assert n in spread + fill;
      }
    }
  }

  /** No other choice of as many nodes spans more domains. */
  lemma NoChoiceSpansMore(nodes: seq<Node>, want: nat, other: seq<Node>)
    requires DistinctNames(nodes) && ChoiceOf(nodes, want).Chosen?
    requires |other| == want && forall n :: n in other ==> n in nodes && Eligible(n)
    ensures |DomainsOf(other)| <= |DomainsOf(ChoiceOf(nodes, want).voters)|
  {
    ChoiceSpreads(nodes, want);
    EligibleHolds(nodes);
    DistinctDomainsCount(other);
    assert DomainsOf(other) <= DomainsOf(EligibleOf(nodes));
    Smaller(DomainsOf(other), DomainsOf(EligibleOf(nodes)));
  }

  /** The first voters are the freest node of each domain they are in, and any domain
      left out has no node that ranks before them. */
  lemma FirstVotersAreFreest(nodes: seq<Node>, want: nat, i: nat, n: Node)
    requires DistinctNames(nodes) && ChoiceOf(nodes, want).Chosen?
    requires i < Min(want, |DomainsOf(EligibleOf(nodes))|) && n in nodes && Eligible(n)
    requires var voters := ChoiceOf(nodes, want).voters;
             i < |voters| && n != voters[i] && (n.domain == voters[i].domain || n.domain !in DomainsOf(voters))
    ensures Before(ChoiceOf(nodes, want).voters[i], n)
  {
    var ranked := RankedIs(nodes);
    var spread, voters := SpreadOf(ranked, want), ChoiceOf(nodes, want).voters;
    SpreadSpans(ranked, want);
    assert voters[i] == spread[i];
    InDomains(spread, n.domain);
    assert DomainsOf(spread) <= DomainsOf(voters);
    SpreadPicksTheFreest(ranked, want, voters[i], n);
  }
}
