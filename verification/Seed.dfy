// The first voter set, read out of one node's configuration
// (crates/tallyowl-cluster/src/seed.rs).

module Seeds {
  import opened Orders
  import opened Sorting

  datatype Settings = Settings(name: string, listen: string, advertise: string, peers: seq<string>, region: string, domain: string)

  /** The failure domain of a member: what configuration says, or a place of its own by
      its index in the list. */
  datatype Domain = Told(domain: string) | PeerAt(index: nat)

  datatype Member = Member(node: string, address: string, region: string, domain: Domain)

  datatype Error =
    | UnspecifiedAdvertise
    | BadEntry(entry: string)
    | NamedOtherwise(name: string)
    | ListedElsewhere(address: string)
    | CannotBeDialled
    | NamedTwice(name: string)

  datatype Result = Seed(node: string, address: string, members: seq<Member>) | Refused(error: Error)

  // Text

  predicate White(c: char) {
    var n := c as int;
    9 <= n <= 13 || n == 32 || n == 0x85 || n == 0xA0 || n == 0x1680 || 0x2000 <= n <= 0x200A ||
    n == 0x2028 || n == 0x2029 || n == 0x202F || n == 0x205F || n == 0x3000
  }

  function TrimStart(s: string): string {
    if s != "" && White(s[0]) then TrimStart(s[1..]) else s
  }

  function TrimEnd(s: string): string {
    if s != "" && White(s[|s| - 1]) then TrimEnd(s[..|s| - 1]) else s
  }

  function Trim(s: string): string { TrimEnd(TrimStart(s)) }

  function Dashed(s: string): string {
    seq(|s|, i requires 0 <= i < |s| => if s[i] == '.' || s[i] == ':' then '-' else s[i])
  }

  /** The name derived from an address. */
  function NameFor(address: string): string { "node-" + Dashed(address) }

  function FirstIndex(s: string, c: char): (i: nat)
    ensures i <= |s| && (i < |s| ==> s[i] == c) && forall j :: 0 <= j < i ==> s[j] != c
  {
    if s == "" || s[0] == c then 0 else 1 + FirstIndex(s[1..], c)
  }

  function LastIndex(s: string, c: char): (i: int)
    ensures -1 <= i < |s| && (i >= 0 ==> s[i] == c) && forall j :: i < j < |s| ==> s[j] != c
  {
    if s == "" then -1
    else if s[|s| - 1] == c then |s| - 1
    else LastIndex(s[..|s| - 1], c)
  }

  function DropLeading(s: string, c: char): string {
    if s != "" && s[0] == c then DropLeading(s[1..], c) else s
  }

  function DropTrailing(s: string, c: char): string {
    if s != "" && s[|s| - 1] == c then DropTrailing(s[..|s| - 1], c) else s
  }

  /** An address without a host, or with one that means any host. */
  predicate Unspecified(address: string) {
    var colon := LastIndex(address, ':');
    var host := if colon >= 0 then address[..colon] else address;
    var bare := DropTrailing(DropLeading(host, '['), ']');
    bare == "" || bare == "0.0.0.0" || bare == "::" || bare == "*"
  }

  // Reading the list

  function OwnAddress(s: Settings): string {
    if Trim(s.advertise) == "" then Trim(s.listen) else Trim(s.advertise)
  }

  function OwnName(s: Settings): string {
    if Trim(s.name) == "" then NameFor(OwnAddress(s)) else Trim(s.name)
  }

  datatype Entry = Blank | Malformed(entry: string) | Peer(name: string, address: string)

  /** What one entry of the list says: `address` or `name@address`. */
  function ParseEntry(raw: string): Entry {
    var entry := Trim(raw);
    if entry == "" then Blank
    else
      var at := FirstIndex(entry, '@');
      var name := if at < |entry| then Trim(entry[..at]) else NameFor(entry);
      var address := if at < |entry| then Trim(entry[at + 1..]) else entry;
      if name == "" || address == "" then Malformed(entry) else Peer(name, address)
  }

  datatype Read = Listed(members: seq<Member>, self: bool) | Failed(error: Error)

  function OwnMember(s: Settings, domain: Domain): Member {
    Member(OwnName(s), OwnAddress(s), s.region, domain)
  }

  /** One more entry read, at its index in the list. */
  function ReadNext(s: Settings, before: Read, raw: string, index: nat): Read {
    if before.Failed? then before
    else
      match ParseEntry(raw)
      case Blank => before
      case Malformed(entry) => Failed(BadEntry(entry))
      case Peer(name, address) =>
        if address == OwnAddress(s) && name != OwnName(s) then Failed(NamedOtherwise(name))
        else if address != OwnAddress(s) && name == OwnName(s) then Failed(ListedElsewhere(address))
        else if address == OwnAddress(s) then
          Listed(before.members + [OwnMember(s, if s.domain == "" then PeerAt(index) else Told(s.domain))], true)
        else
          Listed(before.members + [Member(name, address, s.region, PeerAt(index))], before.self)
  }

  function ReadPeers(s: Settings, peers: seq<string>): Read {
    if peers == [] then Listed([], false)
    else ReadNext(s, ReadPeers(s, peers[..|peers| - 1]), peers[|peers| - 1], |peers| - 1)
  }

  /** The members once this node is among them. */
  function WithSelf(s: Settings, read: Read): seq<Member>
    requires read.Listed?
  {
    if read.self then read.members else read.members + [OwnMember(s, Told(s.domain))]
  }

  predicate Named(members: seq<Member>, name: string) {
    exists m :: m in members && m.node == name
  }

  /** The first member whose name an earlier one has. */
  function FirstRepeat(members: seq<Member>): (at: nat)
    ensures at <= |members|
  {
    if members == [] then 0
    else
      var n := |members| - 1;
      var before := FirstRepeat(members[..n]);
      if before < n then before
      else if Named(members[..n], members[n].node) then n else n + 1
  }

  predicate NameBefore(a: Member, b: Member) { Less(a.node, b.node) }

  function SortByName(members: seq<Member>): seq<Member> { SortBy(NameBefore, members) }

  function SeedOf(s: Settings): Result {
    if Trim(s.advertise) != "" && Unspecified(Trim(s.advertise)) then Refused(UnspecifiedAdvertise)
    else
      match ReadPeers(s, s.peers)
      case Failed(error) => Refused(error)
      case Listed(_, _) =>
        var members := WithSelf(s, ReadPeers(s, s.peers));
        if |members| > 1 && Unspecified(OwnAddress(s)) then Refused(CannotBeDialled)
        else if FirstRepeat(members) < |members| then Refused(NamedTwice(members[FirstRepeat(members)].node))
        else Seed(OwnName(s), OwnAddress(s), SortByName(members))
  }

  lemma {:induction false} FailureStays(s: Settings, peers: seq<string>, i: nat)
    requires i <= |peers| && ReadPeers(s, peers[..i]).Failed?
    ensures ReadPeers(s, peers) == ReadPeers(s, peers[..i])
    decreases |peers|
  {
    if i < |peers| {
      assert peers[..|peers| - 1][..i] == peers[..i];
      FailureStays(s, peers[..|peers| - 1], i);
    } else {
      assert peers[..i] == peers;
    }
  }

  lemma {:induction false} RepeatStays(members: seq<Member>, i: nat)
    requires i <= |members| && FirstRepeat(members[..i]) < i
    ensures FirstRepeat(members) == FirstRepeat(members[..i])
    decreases |members|
  {
    if i < |members| {
      assert members[..|members| - 1][..i] == members[..i];
      RepeatStays(members[..|members| - 1], i);
    } else {
      assert members[..i] == members;
    }
  }

  /** Reads the list of peers up to the first entry that cannot stand. */
  method ReadList(s: Settings, address: string, ownName: string) returns (read: Read)
    requires address == OwnAddress(s) && ownName == OwnName(s)
    ensures read == ReadPeers(s, s.peers)
  {
    hide Trim, ParseEntry, OwnAddress, OwnName;
    var members: seq<Member> := [];
    var listedSelf := false;
    var i := 0;
    while i < |s.peers|
      invariant 0 <= i <= |s.peers| && ReadPeers(s, s.peers[..i]) == Listed(members, listedSelf)
    {
      assert s.peers[..i + 1][..i] == s.peers[..i];
      var before := Listed(members, listedSelf);
      match ParseEntry(s.peers[i]) {
        case Blank =>
        case Malformed(entry) =>
          FailureStays(s, s.peers, i + 1);
          return Failed(BadEntry(entry));
        case Peer(name, peerAddress) =>
          var sameAddress, sameName := peerAddress == address, name == ownName;
          if sameAddress && !sameName {
            FailureStays(s, s.peers, i + 1);
            return Failed(NamedOtherwise(name));
          }
          if sameAddress || sameName {
            if sameName && !sameAddress {
              FailureStays(s, s.peers, i + 1);
              return Failed(ListedElsewhere(peerAddress));
            }
            listedSelf := true;
            members := members + [Member(ownName, address, s.region, if s.domain == "" then PeerAt(i) else Told(s.domain))];
          } else {
            members := members + [Member(name, peerAddress, s.region, PeerAt(i))];
          }
      }
      assert Listed(members, listedSelf) == ReadNext(s, before, s.peers[i], i);
      i := i + 1;
    }
    assert s.peers[..i] == s.peers;
    return Listed(members, listedSelf);
  }

  /** Reads the first voter set. */
  method ReadSeed(s: Settings) returns (result: Result)
    ensures result == SeedOf(s)
  {
    hide Trim, Unspecified, NameFor, SortByName, ReadPeers, FirstRepeat;
    var advertise := Trim(s.advertise);
    var address := if advertise == "" then Trim(s.listen) else advertise;
    if advertise != "" && Unspecified(advertise) {
      return Refused(UnspecifiedAdvertise);
    }
    var ownName := if Trim(s.name) == "" then NameFor(address) else Trim(s.name);
    var read := ReadList(s, address, ownName);
    if read.Failed? {
      return Refused(read.error);
    }
    var members := read.members;
    if !read.self {
      members := members + [Member(ownName, address, s.region, Told(s.domain))];
    }
    if |members| > 1 && Unspecified(address) {
      return Refused(CannotBeDialled);
    }
    var repeat := FindRepeat(members);
    if repeat < |members| {
      return Refused(NamedTwice(members[repeat].node));
    }
    return Seed(ownName, address, SortByName(members));
  }

  ghost function NamesIn(members: seq<Member>): set<string> { set m | m in members :: m.node }

  lemma NamesInNext(members: seq<Member>, m: Member)
    ensures NamesIn(members + [m]) == NamesIn(members) + {m.node}
    ensures m.node in NamesIn(members) <==> Named(members, m.node)
  {
    assert forall x :: x in members + [m] <==> x in members || x == m;
  }

  /** Looks for a name that was seen before. */
  method FindRepeat(members: seq<Member>) returns (at: nat)
    ensures at == FirstRepeat(members)
  {
    var seen: set<string> := {};
    at := 0;
    while at < |members|
      invariant 0 <= at <= |members| && FirstRepeat(members[..at]) == at && seen == NamesIn(members[..at])
    {
      hide NamesIn, Named;
      assert members[..at + 1][..at] == members[..at] && members[..at + 1] == members[..at] + [members[at]];
      NamesInNext(members[..at], members[at]);
      if members[at].node in seen {
        RepeatStays(members, at + 1);
        return;
      }
      seen := seen + {members[at].node};
      at := at + 1;
    }
    assert members[..at] == members;
  }

  // Agreement

  datatype Pair = Pair(node: string, address: string)

  function PairsOf(members: seq<Member>): (pairs: seq<Pair>)
    ensures |pairs| == |members| && forall i :: 0 <= i < |members| ==> pairs[i] == Pair(members[i].node, members[i].address)
  {
    seq(|members|, i requires 0 <= i < |members| => Pair(members[i].node, members[i].address))
  }

  ghost function PairSet(members: seq<Member>): set<Pair> {
    set m | m in members :: Pair(m.node, m.address)
  }

  /** What a list of peers says, entry by entry. */
  ghost function ListedPairs(peers: seq<string>): set<Pair> {
    set raw | raw in peers && ParseEntry(raw).Peer? :: Pair(ParseEntry(raw).name, ParseEntry(raw).address)
  }

  ghost function OwnPair(s: Settings): Pair { Pair(OwnName(s), OwnAddress(s)) }

  /** The list united with this node. */
  ghost function United(s: Settings): set<Pair> { ListedPairs(s.peers) + {OwnPair(s)} }

  lemma PairSetNext(members: seq<Member>, m: Member)
    ensures PairSet(members + [m]) == PairSet(members) + {Pair(m.node, m.address)}
  {
    assert forall x :: x in members + [m] <==> x in members || x == m;
  }

  lemma ListedPairsNext(peers: seq<string>, raw: string)
    ensures ListedPairs(peers + [raw]) ==
            ListedPairs(peers) + if ParseEntry(raw).Peer? then {Pair(ParseEntry(raw).name, ParseEntry(raw).address)} else {}
  {
    hide ParseEntry;
    assert forall x :: x in peers + [raw] <==> x in peers || x == raw;
  }

  /** Reading keeps exactly the pairs that are listed, and notices its own. */
  lemma {:induction false} ReadKeepsPairs(s: Settings, peers: seq<string>)
    requires ReadPeers(s, peers).Listed?
    ensures PairSet(ReadPeers(s, peers).members) == ListedPairs(peers)
    ensures ReadPeers(s, peers).self <==> OwnPair(s) in ListedPairs(peers)
  {
    hide ParseEntry, OwnName, OwnAddress;
    if peers != [] {
      var n := |peers| - 1;
      var before := ReadPeers(s, peers[..n]);
      ReadKeepsPairs(s, peers[..n]);
      assert peers == peers[..n] + [peers[n]];
      ListedPairsNext(peers[..n], peers[n]);
      var read := ReadPeers(s, peers);
      if |read.members| > |before.members| { PairSetNext(before.members, read.members[|before.members|]); }
    }
  }

  predicate DistinctNames(members: seq<Member>) {
    forall i, j :: 0 <= i < j < |members| ==> members[i].node != members[j].node
  }

  lemma NamedIsAmong(members: seq<Member>, name: string)
    ensures Named(members, name) <==> exists i :: 0 <= i < |members| && members[i].node == name
  {
    if Named(members, name) {
      var m :| m in members && m.node == name;
      var i :| 0 <= i < |members| && members[i] == m;
    }
    if exists i :: 0 <= i < |members| && members[i].node == name {
      var i :| 0 <= i < |members| && members[i].node == name;
      assert members[i] in members;
    }
  }

  lemma {:induction false} NoRepeatIsDistinct(members: seq<Member>)
    ensures FirstRepeat(members) == |members| <==> DistinctNames(members)
  {
    if members != [] {
      var n := |members| - 1;
      NoRepeatIsDistinct(members[..n]);
      NamedIsAmong(members[..n], members[n].node);
      hide Named;
      assert forall i :: 0 <= i < n ==> members[..n][i] == members[i];
    }
  }

  predicate ByName(members: seq<Member>) {
    forall i, j :: 0 <= i < j < |members| ==> Less(members[i].node, members[j].node)
  }

  lemma SortByNameSorts(members: seq<Member>)
    requires DistinctNames(members)
    ensures multiset(SortByName(members)) == multiset(members) && ByName(SortByName(members))
  {
    SortHolds(NameBefore, members);
    forall a, b, c | NameBefore(a, b) && NameBefore(b, c) ensures NameBefore(a, c) {
      LessTransitive(a.node, b.node, c.node);
    }
    forall i, j | 0 <= i < j < |members|
      ensures NameBefore(members[i], members[j]) || NameBefore(members[j], members[i])
    {
      LessTotal(members[i].node, members[j].node);
    }
    SortOrders(NameBefore, members);
    var sorted := SortByName(members);
    assert forall i, j :: 0 <= i < j < |sorted| ==> NameBefore(sorted[i], sorted[j]);
  }

  lemma SamePairSet(a: seq<Member>, b: seq<Member>)
    requires multiset(a) == multiset(b)
    ensures PairSet(a) == PairSet(b)
  {
    assert forall m :: m in a <==> m in multiset(a);
    assert forall m :: m in b <==> m in multiset(b);
  }

  /** The members are this node and its peers, each once, in name order. */
  lemma SeedIsTheUnion(s: Settings)
    requires SeedOf(s).Seed?
    ensures PairSet(SeedOf(s).members) == United(s) && ByName(SeedOf(s).members)
    ensures SeedOf(s).node == OwnName(s) && SeedOf(s).address == OwnAddress(s)
  {
    hide ReadPeers, SortByName, FirstRepeat, OwnName, OwnAddress, Unspecified, Trim, ParseEntry;
    var read := ReadPeers(s, s.peers);
    var members := WithSelf(s, read);
    ReadKeepsPairs(s, s.peers);
    PairSetNext(read.members, OwnMember(s, Told(s.domain)));
    NoRepeatIsDistinct(members);
    SortByNameSorts(members);
    SamePairSet(members, SortByName(members));
  }

  lemma NamesAscend(members: seq<Member>) returns (names: seq<string>)
    requires ByName(members)
    ensures |names| == |members| && Ascending(names) && forall i :: 0 <= i < |members| ==> names[i] == members[i].node
    ensures forall name :: name in names <==> exists pair :: pair in PairSet(members) && pair.node == name
  {
    names := seq(|members|, i requires 0 <= i < |members| => members[i].node);
    forall name ensures name in names <==> exists pair :: pair in PairSet(members) && pair.node == name {
      if name in names {
        var i :| 0 <= i < |names| && names[i] == name;
        assert members[i] in members && Pair(members[i].node, members[i].address) in PairSet(members);
      }
      if exists pair :: pair in PairSet(members) && pair.node == name {
        var pair :| pair in PairSet(members) && pair.node == name;
        var m :| m in members && Pair(m.node, m.address) == pair;
        var i :| 0 <= i < |members| && members[i] == m;
        assert names[i] == name;
      }
    }
  }

  /** One set of pairs has one sequence in name order. */
  lemma ByNameUnique(a: seq<Member>, b: seq<Member>)
    requires ByName(a) && ByName(b) && PairSet(a) == PairSet(b)
    ensures PairsOf(a) == PairsOf(b)
  {
    var names := NamesAscend(a);
    var others := NamesAscend(b);
    AscendingUnique(names, others);
    forall i | 0 <= i < |a| ensures PairsOf(a)[i] == PairsOf(b)[i] {
      assert a[i] in a && Pair(a[i].node, a[i].address) in PairSet(b);
      var m :| m in b && Pair(m.node, m.address) == Pair(a[i].node, a[i].address);
      var j :| 0 <= j < |b| && b[j] == m;
      assert names[i] == others[j] == names[j];
      AscendingDistinct(names, i, j);
    }
  }

  lemma PairsGiveSet(a: seq<Member>, b: seq<Member>)
    requires PairsOf(a) == PairsOf(b)
    ensures PairSet(a) == PairSet(b)
  {
    forall pair ensures pair in PairSet(a) <==> pair in PairsOf(a) { InPairs(a, pair); }
    forall pair ensures pair in PairSet(b) <==> pair in PairsOf(b) { InPairs(b, pair); }
  }

  lemma InPairs(members: seq<Member>, pair: Pair)
    ensures pair in PairSet(members) <==> pair in PairsOf(members)
  {
    if pair in PairSet(members) {
      var m :| m in members && Pair(m.node, m.address) == pair;
      var i :| 0 <= i < |members| && members[i] == m;
      assert PairsOf(members)[i] == pair;
    }
    if pair in PairsOf(members) {
      var i :| 0 <= i < |members| && PairsOf(members)[i] == pair;
      assert members[i] in members;
    }
  }

  /** Two nodes that both read a first voter set read the same one, name by name and
      address by address, exactly when their lists united with themselves are the same:
      whatever the order, and whether or not a list names its own node. */
  lemma SeedsAgreeIffUnited(a: Settings, b: Settings)
    requires SeedOf(a).Seed? && SeedOf(b).Seed?
    ensures PairsOf(SeedOf(a).members) == PairsOf(SeedOf(b).members) <==> United(a) == United(b)
  {
    hide SeedOf, United, PairsOf, PairSet, ByName;
    SeedIsTheUnion(a);
    SeedIsTheUnion(b);
    if United(a) == United(b) { ByNameUnique(SeedOf(a).members, SeedOf(b).members); }
    if PairsOf(SeedOf(a).members) == PairsOf(SeedOf(b).members) { PairsGiveSet(SeedOf(a).members, SeedOf(b).members); }
  }

  // When it succeeds

  /** An entry that this node can stand: blank, or well formed and not at odds with its
      own name and address. */
  predicate Stands(s: Settings, raw: string) {
    match ParseEntry(raw)
    case Blank => true
    case Malformed(_) => false
    case Peer(name, address) => address == OwnAddress(s) <==> name == OwnName(s)
  }

  lemma {:induction false} ReadsIffAllStand(s: Settings, peers: seq<string>)
    ensures ReadPeers(s, peers).Listed? <==> forall raw :: raw in peers ==> Stands(s, raw)
  {
    hide ParseEntry, OwnName, OwnAddress;
    if peers != [] {
      var n := |peers| - 1;
      ReadsIffAllStand(s, peers[..n]);
      assert peers == peers[..n] + [peers[n]];
      assert forall raw :: raw in peers <==> raw in peers[..n] || raw == peers[n];
      assert ReadPeers(s, peers).Listed? <==> ReadPeers(s, peers[..n]).Listed? && Stands(s, peers[n]);
    }
  }

  /** Configuration yields a voter set exactly when the advertised address can be
      dialled, every entry stands, a node with peers has an address they can dial, and
      no name is listed twice. */
  lemma SeedSucceedsIff(s: Settings)
    ensures SeedOf(s).Seed? <==>
            && (Trim(s.advertise) == "" || !Unspecified(Trim(s.advertise)))
            && (forall raw :: raw in s.peers ==> Stands(s, raw))
            && (var read := ReadPeers(s, s.peers);
                read.Listed? && DistinctNames(WithSelf(s, read)) &&
                (|WithSelf(s, read)| > 1 ==> !Unspecified(OwnAddress(s))))
  {
    hide Stands, OwnAddress, Unspecified, Trim, ReadPeers, FirstRepeat, DistinctNames;
    ReadsIffAllStand(s, s.peers);
    var read := ReadPeers(s, s.peers);
    if read.Listed? { NoRepeatIsDistinct(WithSelf(s, read)); }
  }
}
