// The order of strings, as sorted maps, `sort` and `sorted` use it: by code point,
// and a prefix first.

module Orders {
  predicate Less(a: string, b: string) {
    if b == "" then false
    else if a == "" then true
    else a[0] < b[0] || (a[0] == b[0] && Less(a[1..], b[1..]))
  }

  lemma {:induction false} LessIrreflexive(a: string)
    ensures !Less(a, a)
  {
    if a != "" { LessIrreflexive(a[1..]); }
  }

  lemma {:induction false} LessTransitive(a: string, b: string, c: string)
    requires Less(a, b) && Less(b, c)
    ensures Less(a, c)
  {
    if a != "" && a[0] == b[0] == c[0] { LessTransitive(a[1..], b[1..], c[1..]); }
  }

  lemma {:induction false} LessTotal(a: string, b: string)
    ensures a == b || Less(a, b) || Less(b, a)
  {
    if a != "" && b != "" && a[0] == b[0] {
      LessTotal(a[1..], b[1..]);
      if a[1..] == b[1..] { assert a == [a[0]] + a[1..] && b == [b[0]] + b[1..]; }
    }
  }

  lemma LessAsymmetric(a: string, b: string)
    requires Less(a, b)
    ensures !Less(b, a) && a != b
  {
    LessIrreflexive(a);
    if Less(b, a) { LessTransitive(a, b, a); }
  }

  predicate Ascending(names: seq<string>) {
    forall i, j :: 0 <= i < j < |names| ==> Less(names[i], names[j])
  }

  lemma AscendingDistinct(names: seq<string>, i: nat, j: nat)
    requires Ascending(names) && i < |names| && j < |names| && names[i] == names[j]
    ensures i == j
  {
    LessIrreflexive(names[i]);
  }

  /** A set has one ascending sequence. */
  lemma {:induction false} AscendingUnique(a: seq<string>, b: seq<string>)
    requires Ascending(a) && Ascending(b) && forall x :: x in a <==> x in b
    ensures a == b
  {
    if a == [] {
      assert forall i :: 0 <= i < |b| ==> b[i] in b;
    } else {
      assert a[0] in b && (b != [] ==> b[0] in a);
      var i :| 0 <= i < |b| && b[i] == a[0];
      var j :| 0 <= j < |a| && a[j] == b[0];
      if i > 0 {
        assert Less(b[0], b[i]);
        if j == 0 { LessIrreflexive(a[0]); } else { LessAsymmetric(a[0], a[j]); }
      }
      assert a[0] == b[0];
      forall x ensures x in a[1..] <==> x in b[1..] { TailHolds(a, x); TailHolds(b, x); }
      AscendingUnique(a[1..], b[1..]);
      assert a == [a[0]] + a[1..] && b == [b[0]] + b[1..];
    }
  }

  lemma TailHolds(a: seq<string>, x: string)
    requires Ascending(a) && a != []
    ensures x in a[1..] <==> x in a && x != a[0]
  {
    LessIrreflexive(a[0]);
    if x in a && x != a[0] {
      var i :| 0 <= i < |a| && a[i] == x;
      assert a[1..][i - 1] == x;
    }
  }

  ghost predicate IsLeast(names: set<string>, least: string) {
    least in names && forall other :: other in names && other != least ==> Less(least, other)
  }

  lemma {:induction false} LeastExists(names: set<string>)
    requires names != {}
    ensures exists least :: IsLeast(names, least)
    decreases names
  {
    var some :| some in names;
    var rest := names - {some};
    if rest == {} {
      assert names == {some};
      assert IsLeast(names, some);
    } else {
      LeastExists(rest);
      var least :| IsLeast(rest, least);
      LessTotal(some, least);
      if Less(some, least) {
        forall other | other in names && other != some ensures Less(some, other) {
          if other != least { LessTransitive(some, least, other); }
        }
        assert IsLeast(names, some);
      } else {
        assert IsLeast(names, least);
      }
    }
  }

  lemma AscendingAppend(names: seq<string>, next: string)
    requires Ascending(names) && forall name :: name in names ==> Less(name, next)
    ensures Ascending(names + [next])
  {
  }

  lemma LeastPrepended(names: set<string>, least: string, rest: seq<string>)
    requires IsLeast(names, least) && Ascending(rest) && forall name :: name in rest <==> name in names && name != least
    ensures Ascending([least] + rest) && forall name :: name in [least] + rest <==> name in names
  {
    var all := [least] + rest;
    forall i, j | 0 <= i < j < |all| ensures Less(all[i], all[j]) {
      assert all[j] == rest[j - 1] && rest[j - 1] in rest;
    }
  }

  /** The members of a set in order. */
  ghost function Sorted(names: set<string>): (sorted: seq<string>)
    ensures Ascending(sorted) && |sorted| == |names|
    ensures forall name :: name in sorted <==> name in names
    decreases names
  {
    if names == {} then [] else
    LeastExists(names);
    var least :| IsLeast(names, least);
    var rest := Sorted(names - {least});
    LeastPrepended(names, least, rest);
    [least] + rest
  }

  /** The same sequence, built by taking the least name again and again. */
  method SortNames(names: set<string>) returns (sorted: seq<string>)
    ensures sorted == Sorted(names)
  {
    sorted := [];
    var left := names;
    while left != {}
      invariant left <= names && Ascending(sorted) && |sorted| + |left| == |names|
      invariant forall name :: name in sorted <==> name in names - left
      invariant forall a, b :: a in sorted && b in left ==> Less(a, b)
      decreases left
    {
      LeastExists(left);
      assert exists least :: least in left && IsLeast(left, least);
      var least :| least in left && forall other :: other in left && other != least ==> Less(least, other);
      AscendingAppend(sorted, least);
      sorted, left := sorted + [least], left - {least};
    }
    AscendingUnique(sorted, Sorted(names));
  }
}
