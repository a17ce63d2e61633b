// The order in which crates are published, dependencies first
// (tools/tallyowl_tools/release.py, `crates_plan`).

module CratesPlans {
  import opened Orders

  const DRIVER_CRATE := "tallyowl-driver-rust"

  /** A workspace: what each member's manifest names as dependencies, and whether it may
      be published. */
  datatype Manifest = Manifest(dependencies: set<string>, targetDependencies: set<string>, publishable: bool)

  type Workspace = map<string, Manifest>

  /** What a crate of the workspace depends on within it, sorted by name. */
  ghost function Dependencies(w: Workspace, name: string): seq<string>
    requires name in w
  {
    Sorted((w[name].dependencies + w[name].targetDependencies) * w.Keys)
  }

  datatype Visit = Visited(order: seq<string>) | Cycle(at: string)

  /** One crate of a visit and what comes of it. `visiting` are the crates whose visit
      has begun and not ended. */
  ghost function VisitCrate(w: Workspace, name: string, order: seq<string>, visiting: set<string>): Visit
    requires name in w && visiting <= w.Keys
    decreases w.Keys - visiting, 1, 0
  {
    if name in order then Visited(order)
    else if name in visiting then Cycle(name)
    else
      var inner := VisitAll(w, Dependencies(w, name), order, visiting + {name});
      if inner.Cycle? then inner else Visited(inner.order + [name])
  }

  ghost function VisitAll(w: Workspace, names: seq<string>, order: seq<string>, visiting: set<string>): Visit
    requires (forall name :: name in names ==> name in w) && visiting <= w.Keys
    decreases w.Keys - visiting, 2, |names|
  {
    if names == [] then Visited(order)
    else
      var first := VisitCrate(w, names[0], order, visiting);
      if first.Cycle? then first else VisitAll(w, names[1..], first.order, visiting)
  }

  datatype CratePlan = CratePlan(name: string, publishable: bool)

  datatype Result = Plan(crates: seq<CratePlan>) | NoSuchCrate | HasCycle(at: string)

  function PlansOf(w: Workspace, order: seq<string>): (plans: seq<CratePlan>)
    requires forall name :: name in order ==> name in w
    ensures |plans| == |order|
    ensures forall i :: 0 <= i < |order| ==> plans[i] == CratePlan(order[i], w[order[i]].publishable)
  {
    seq(|order|, i requires 0 <= i < |order| => CratePlan(order[i], w[order[i]].publishable))
  }

  ghost function PlanOf(w: Workspace): Result {
    if DRIVER_CRATE !in w then NoSuchCrate
    else
      match VisitCrate(w, DRIVER_CRATE, [], {})
      case Cycle(at) => HasCycle(at)
      case Visited(order) => VisitStaysInside(w, DRIVER_CRATE, [], {}); Plan(PlansOf(w, order))
  }

  /** The crates visited so far and the ones being visited, as the closure shares them. */
  class Planner {
    const w: Workspace
    var order: seq<string>
    var visiting: set<string>

    constructor (w: Workspace)
      ensures this.w == w && order == [] && visiting == {}
    {
      this.w := w;
      order, visiting := [], {};
    }

    /** Visits one crate after the crates it depends on. A cycle ends everything. */
    method Visit(name: string) returns (cycle: bool, at: string)
      requires name in w && visiting <= w.Keys
      modifies this
      ensures !cycle ==> VisitCrate(w, name, old(order), old(visiting)) == Visited(order) && visiting == old(visiting)
      ensures cycle ==> VisitCrate(w, name, old(order), old(visiting)) == Cycle(at)
      decreases w.Keys - visiting
    {
      if name in order {
        return false, "";
      }
      if name in visiting {
        return true, name;
      }
      ghost var before := visiting;
      visiting := visiting + {name};
      var dependencies := SortNames((w[name].dependencies + w[name].targetDependencies) * w.Keys);
      var i := 0;
      while i < |dependencies|
        invariant 0 <= i <= |dependencies| && visiting == before + {name}
        invariant forall d :: d in dependencies[i..] ==> d in w
        invariant VisitAll(w, dependencies, old(order), visiting) == VisitAll(w, dependencies[i..], order, visiting)
      {
        ghost var left := dependencies[i..];
        assert left[0] == dependencies[i] && left[1..] == dependencies[i + 1..];
        hide Dependencies;
        cycle, at := Visit(dependencies[i]);
        if cycle {
          return;
        }
        i := i + 1;
      }
      visiting := visiting - {name};
      assert visiting == before;
      order := order + [name];
      return false, "";
    }
  }

  /** The crates a publication covers, dependencies first. */
  method CratesPlan(w: Workspace) returns (result: Result)
    ensures result == PlanOf(w)
  {
    var planner := new Planner(w);
    if DRIVER_CRATE !in w {
      return NoSuchCrate;
    }
    var cycle, at := planner.Visit(DRIVER_CRATE);
    if cycle {
      return HasCycle(at);
    }
    VisitStaysInside(w, DRIVER_CRATE, [], {});
    return Plan(PlansOf(w, planner.order));
  }

  // Paths

  ghost predicate Edge(w: Workspace, a: string, b: string) {
    a in w && b in w && (b in w[a].dependencies || b in w[a].targetDependencies)
  }

  ghost predicate IsPath(w: Workspace, path: seq<string>, a: string, b: string) {
    && |path| > 0 && path[0] == a && path[|path| - 1] == b && a in w
    && forall i :: 0 < i < |path| ==> Edge(w, path[i - 1], path[i])
  }

  ghost predicate Reaches(w: Workspace, a: string, b: string) {
    exists path :: IsPath(w, path, a, b)
  }

  /** By at least one dependency. */
  ghost predicate DependsOn(w: Workspace, a: string, b: string) {
    exists path :: IsPath(w, path, a, b) && |path| > 1
  }

  lemma Further(w: Workspace, a: string, b: string, c: string)
    requires Reaches(w, a, b) && Edge(w, b, c)
    ensures Reaches(w, a, c) && DependsOn(w, a, c)
  {
    var path :| IsPath(w, path, a, b);
    assert IsPath(w, path + [c], a, c);
  }

  lemma Here(w: Workspace, a: string)
    requires a in w
    ensures Reaches(w, a, a)
  {
    assert IsPath(w, [a], a, a);
  }

  lemma DependsIsReach(w: Workspace, a: string, b: string)
    requires DependsOn(w, a, b)
    ensures Reaches(w, a, b)
  {
  }

  lemma EdgesAreDependencies(w: Workspace, a: string, b: string)
    requires a in w
    ensures b in Dependencies(w, a) <==> Edge(w, a, b)
  {
  }

  // What a visit keeps

  ghost predicate DistinctNames(order: seq<string>) {
    forall i, j :: 0 <= i < j < |order| ==> order[i] != order[j]
  }

  /** Every crate comes after the crates it depends on. */
  ghost predicate DependenciesFirst(w: Workspace, order: seq<string>) {
    forall i, b :: 0 <= i < |order| && Edge(w, order[i], b) ==> b in order[..i]
  }

  ghost predicate Good(w: Workspace, order: seq<string>) {
    && DistinctNames(order) && DependenciesFirst(w, order)
    && forall name :: name in order ==> name in w
  }

  /** What visiting adds: nothing that is being visited, and only what is reached. */
  ghost predicate Adds(w: Workspace, order: seq<string>, next: seq<string>, visiting: set<string>, root: string) {
    && order <= next
    && forall x :: x in next && x !in order ==> x !in visiting && Reaches(w, root, x)
  }

  lemma {:induction false} VisitStaysInside(w: Workspace, name: string, order: seq<string>, visiting: set<string>)
    requires name in w && visiting <= w.Keys && forall x :: x in order ==> x in w
    ensures var v := VisitCrate(w, name, order, visiting);
            v.Visited? ==> forall x :: x in v.order ==> x in w
    decreases w.Keys - visiting, 1, 0
  {
    if name !in order && name !in visiting {
      VisitAllStaysInside(w, Dependencies(w, name), order, visiting + {name});
    }
  }

  lemma {:induction false} VisitAllStaysInside(w: Workspace, names: seq<string>, order: seq<string>, visiting: set<string>)
    requires (forall name :: name in names ==> name in w) && visiting <= w.Keys && forall x :: x in order ==> x in w
    ensures var v := VisitAll(w, names, order, visiting);
            v.Visited? ==> forall x :: x in v.order ==> x in w
    decreases w.Keys - visiting, 2, |names|
  {
    if names != [] {
      VisitStaysInside(w, names[0], order, visiting);
      var first := VisitCrate(w, names[0], order, visiting);
      if first.Visited? { VisitAllStaysInside(w, names[1..], first.order, visiting); }
    }
  }

  /** A visit that ends leaves the crate in the order, after its dependencies. */
  lemma {:induction false} VisitOrders(w: Workspace, root: string, name: string, order: seq<string>, visiting: set<string>)
    requires name in w && visiting <= w.Keys && Good(w, order) && Reaches(w, root, name)
    ensures var v := VisitCrate(w, name, order, visiting);
            v.Visited? ==> Good(w, v.order) && name in v.order && Adds(w, order, v.order, visiting, root)
    decreases w.Keys - visiting, 1, 0
  {
    if name !in order && name !in visiting {
      var dependencies := Dependencies(w, name);
      forall d | d in dependencies ensures Reaches(w, root, d) {
        EdgesAreDependencies(w, name, d);
        Further(w, root, name, d);
      }
      VisitAllOrders(w, root, dependencies, order, visiting + {name});
      var inner := VisitAll(w, dependencies, order, visiting + {name});
      if inner.Visited? {
        forall b | Edge(w, name, b) ensures b in inner.order { EdgesAreDependencies(w, name, b); }
        OrderGrows(w, inner.order, name);
      }
    }
  }

  lemma OrderGrows(w: Workspace, order: seq<string>, name: string)
    requires Good(w, order) && name in w && name !in order && forall b :: Edge(w, name, b) ==> b in order
    ensures Good(w, order + [name])
  {
    var next := order + [name];
    forall i, b | 0 <= i < |next| && Edge(w, next[i], b) ensures b in next[..i] {
      if i < |order| {
        assert next[i] == order[i] && next[..i] == order[..i];
      } else {
        assert next[..i] == order;
      }
    }
  }

  lemma {:induction false} VisitAllOrders(w: Workspace, root: string, names: seq<string>, order: seq<string>, visiting: set<string>)
    requires (forall name :: name in names ==> name in w && Reaches(w, root, name))
    requires visiting <= w.Keys && Good(w, order)
    ensures var v := VisitAll(w, names, order, visiting);
            v.Visited? ==> Good(w, v.order) && (forall name :: name in names ==> name in v.order)
                           && Adds(w, order, v.order, visiting, root)
    decreases w.Keys - visiting, 2, |names|
  {
    if names != [] {
      VisitOrders(w, root, names[0], order, visiting);
      var first := VisitCrate(w, names[0], order, visiting);
      if first.Visited? {
        VisitAllOrders(w, root, names[1..], first.order, visiting);
        var v := VisitAll(w, names[1..], first.order, visiting);
        if v.Visited? {
          forall name | name in names ensures name in v.order {
            if name != names[0] { assert name in names[1..]; }
          }
        }
      }
    }
  }

  /** A visit that meets a crate that is being visited has found a cycle. */
  lemma {:induction false} VisitFindsCycle(w: Workspace, root: string, name: string, order: seq<string>, visiting: set<string>)
    requires name in w && visiting <= w.Keys && Reaches(w, root, name)
    requires forall v :: v in visiting ==> DependsOn(w, v, name)
    ensures var v := VisitCrate(w, name, order, visiting);
            v.Cycle? ==> Reaches(w, root, v.at) && DependsOn(w, v.at, v.at)
    decreases w.Keys - visiting, 1, 0
  {
    if name !in order && name !in visiting {
      var dependencies := Dependencies(w, name);
      forall d | d in dependencies
        ensures Reaches(w, root, d) && forall v :: v in visiting + {name} ==> DependsOn(w, v, d)
      {
        EdgesAreDependencies(w, name, d);
        Further(w, root, name, d);
        Here(w, name);
        Further(w, name, name, d);
        forall v | v in visiting ensures DependsOn(w, v, d) {
          DependsIsReach(w, v, name);
          Further(w, v, name, d);
        }
      }
      VisitAllFindsCycle(w, root, dependencies, order, visiting + {name});
    }
  }

  lemma {:induction false} VisitAllFindsCycle(w: Workspace, root: string, names: seq<string>, order: seq<string>, visiting: set<string>)
    requires visiting <= w.Keys
    requires forall name :: name in names ==>
               name in w && Reaches(w, root, name) && forall v :: v in visiting ==> DependsOn(w, v, name)
    ensures var v := VisitAll(w, names, order, visiting);
            v.Cycle? ==> Reaches(w, root, v.at) && DependsOn(w, v.at, v.at)
    decreases w.Keys - visiting, 2, |names|
  {
    if names != [] {
      VisitFindsCycle(w, root, names[0], order, visiting);
      var first := VisitCrate(w, names[0], order, visiting);
      if first.Visited? { VisitAllFindsCycle(w, root, names[1..], first.order, visiting); }
    }
  }

  // What the order means

  /** Along a path that starts in the order, each crate is in the order, before the one
      that depends on it. */
  lemma {:induction false} PathsDescend(w: Workspace, order: seq<string>, path: seq<string>, a: string, b: string) returns (i: nat, j: nat)
    requires Good(w, order) && IsPath(w, path, a, b) && a in order
    ensures i < |order| && order[i] == a && j < |order| && order[j] == b && j + |path| - 1 <= i
    decreases |path|
  {
    if |path| == 1 {
      i :| 0 <= i < |order| && order[i] == a;
      j := i;
    } else {
      var n := |path| - 1;
      var k;
      i, k := PathsDescend(w, order, path[..n], a, path[n - 1]);
      assert Edge(w, order[k], b) && b in order[..k];
      j :| 0 <= j < k && order[j] == b;
    }
  }

  ghost predicate HasCycleFrom(w: Workspace, root: string) {
    exists x :: Reaches(w, root, x) && DependsOn(w, x, x)
  }

  lemma GoodOrderHasNoCycle(w: Workspace, order: seq<string>, root: string)
    requires Good(w, order) && root in order
    ensures !HasCycleFrom(w, root)
    ensures forall x :: Reaches(w, root, x) ==> x in order
  {
    forall x | Reaches(w, root, x) ensures x in order && !DependsOn(w, x, x) {
      var path :| IsPath(w, path, root, x);
      var i, j := PathsDescend(w, order, path, root, x);
      forall loop: seq<string> | IsPath(w, loop, x, x) ensures |loop| <= 1 {
        var k, l := PathsDescend(w, order, loop, x, x);
        SameIndex(order, k, l);
      }
    }
  }

  lemma SameIndex(order: seq<string>, i: nat, j: nat)
    requires DistinctNames(order) && i < |order| && j < |order| && order[i] == order[j]
    ensures i == j
  {
  }

  /** On every graph: the plan exists exactly when the driver crate is a member and no
      cycle can be reached from it; then it names each crate that can be reached, once,
      after the crates it depends on. A refusal names a crate on such a cycle. */
  lemma PlanIsTheOrder(w: Workspace)
    ensures PlanOf(w).Plan? <==> DRIVER_CRATE in w && !HasCycleFrom(w, DRIVER_CRATE)
    ensures PlanOf(w).HasCycle? ==> Reaches(w, DRIVER_CRATE, PlanOf(w).at) && DependsOn(w, PlanOf(w).at, PlanOf(w).at)
    ensures PlanOf(w).Plan? ==>
              exists order ::
                && (forall x :: x in order ==> x in w)
                && PlanOf(w) == Plan(PlansOf(w, order)) && DistinctNames(order) && DependenciesFirst(w, order)
                && forall x :: x in order <==> Reaches(w, DRIVER_CRATE, x)
  {
    if DRIVER_CRATE in w {
      Here(w, DRIVER_CRATE);
      var v := VisitCrate(w, DRIVER_CRATE, [], {});
      VisitFindsCycle(w, DRIVER_CRATE, DRIVER_CRATE, [], {});
      VisitOrders(w, DRIVER_CRATE, DRIVER_CRATE, [], {});
      if v.Visited? { GoodOrderHasNoCycle(w, v.order, DRIVER_CRATE); }
    }
  }
}
