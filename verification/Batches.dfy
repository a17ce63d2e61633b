/** The values the driver's delivery engine moves: items, the frames they are
    sealed into, and the batches the driver holds until an acknowledgement.

    A frame stands for the encoded bytes of one batch. Two frames are equal
    exactly when the bytes a connection would carry are equal. */
module Batches {

  /** One telemetry item as the buffer holds it. `sequence` is the number the
      driver gave it, and `size` is its encoded length. */
  datatype Item = Item(sequence: nat, size: nat)

  type BatchId = nat

  datatype Frame = Frame(batchID: BatchId, items: seq<Item>, sealedAt: int)

  /** A frame with what the driver keeps beside it until it is acknowledged. Each failure
      of unknown fate adds one to `attempts`. */
  datatype Batch = Batch(encoded: Frame, items: nat, bytes: nat, attempts: nat) {

    /** The counts a batch carries are those of the frame it carries. */
    ghost predicate Counted() {
      && items == |encoded.items|
      && bytes == SizeOf(encoded.items)
    }
  }

  function SizeOf(items: seq<Item>): nat {
    if items == [] then 0 else items[0].size + SizeOf(items[1..])
  }

  /** Every item of the given frames, in frame order. */
  function Items(frames: seq<Frame>): seq<Item> {
    if frames == [] then [] else frames[0].items + Items(frames[1..])
  }

  function Frames(batches: seq<Batch>): (frames: seq<Frame>)
    ensures |frames| == |batches|
    ensures forall i | 0 <= i < |batches| :: frames[i] == batches[i].encoded
  {
    if batches == [] then [] else [batches[0].encoded] + Frames(batches[1..])
  }

  function TotalBytes(batches: seq<Batch>): nat {
    if batches == [] then 0 else batches[0].bytes + TotalBytes(batches[1..])
  }

  function TotalItems(batches: seq<Batch>): nat {
    if batches == [] then 0 else batches[0].items + TotalItems(batches[1..])
  }

  lemma {:induction false} SizeOfConcat(a: seq<Item>, b: seq<Item>)
    ensures SizeOf(a + b) == SizeOf(a) + SizeOf(b)
  {
    if a == [] {
      assert a + b == b;
    } else {
      assert (a + b)[1..] == a[1..] + b;
      SizeOfConcat(a[1..], b);
    }
  }

  lemma SizeOfOne(item: Item)
    ensures SizeOf([item]) == item.size
  {
    assert [item][1..] == [];
  }

  lemma {:induction false} ItemsConcat(a: seq<Frame>, b: seq<Frame>)
    ensures Items(a + b) == Items(a) + Items(b)
  {
    if a == [] {
      assert a + b == b;
    } else {
      assert (a + b)[1..] == a[1..] + b;
      ItemsConcat(a[1..], b);
    }
  }

  lemma {:induction false} TotalsConcat(a: seq<Batch>, b: seq<Batch>)
    ensures TotalBytes(a + b) == TotalBytes(a) + TotalBytes(b)
    ensures TotalItems(a + b) == TotalItems(a) + TotalItems(b)
    ensures Frames(a + b) == Frames(a) + Frames(b)
  {
    if a == [] {
      assert a + b == b;
    } else {
      assert (a + b)[1..] == a[1..] + b;
      TotalsConcat(a[1..], b);
    }
  }

  lemma TakeOut(frames: seq<Frame>, i: nat)
    requires i < |frames|
    ensures multiset(frames) == multiset(frames[..i] + frames[i + 1..]) + multiset{frames[i]}
    ensures multiset(Items(frames)) ==
            multiset(Items(frames[..i] + frames[i + 1..])) + multiset(frames[i].items)
  {
    var head, tail := frames[..i], frames[i..];
    assert frames == head + tail;
    assert tail == [frames[i]] + frames[i + 1..];
    ItemsConcat(head, tail);
    ItemsConcat(head, frames[i + 1..]);
    assert tail[1..] == frames[i + 1..];
  }

  lemma TakeHead(frames: seq<Frame>)
    requires frames != []
    ensures multiset(frames) == multiset(frames[1..]) + multiset{frames[0]}
    ensures multiset(Items(frames)) == multiset(Items(frames[1..])) + multiset(frames[0].items)
  {
    assert frames == [frames[0]] + frames[1..];
  }

  lemma NothingIn(frames: seq<Frame>)
    requires multiset(frames) == multiset([])
    ensures frames == []
  {
    assert |frames| == |multiset(frames)|;
  }

  /** The items of a collection of frames depend on which frames are in it and
      not on their order. */
  lemma {:induction false} ItemsOfPermutation(a: seq<Frame>, b: seq<Frame>)
    requires multiset(a) == multiset(b)
    ensures multiset(Items(a)) == multiset(Items(b))
  {
    hide Items;
    if a == [] {
      NothingIn(b);
    } else {
      var i := IndexOf(b, a[0]);
      var rest := b[..i] + b[i + 1..];
      TakeHead(a);
      TakeOut(b, i);
      CancelOne(multiset(a[1..]), multiset(rest), a[0]);
      ItemsOfPermutation(a[1..], rest);
    }
  }

  lemma IndexOf(frames: seq<Frame>, frame: Frame) returns (i: nat)
    requires frame in multiset(frames)
    ensures i < |frames| && frames[i] == frame
  {
    i :| 0 <= i < |frames| && frames[i] == frame;
  }

  lemma CancelOne<T>(a: multiset<T>, b: multiset<T>, x: T)
    requires a + multiset{x} == b + multiset{x}
    ensures a == b
  {
    assert a == (a + multiset{x}) - multiset{x};
    assert b == (b + multiset{x}) - multiset{x};
  }

  /** A batch holds as many items as its frame does. */
  lemma {:induction false} TotalItemsOfFrames(batches: seq<Batch>)
    requires forall b | b in batches :: b.Counted()
    ensures TotalItems(batches) == |Items(Frames(batches))|
  {
    if batches != [] {
      assert batches[0].Counted();
      assert Frames(batches)[1..] == Frames(batches[1..]);
      TotalItemsOfFrames(batches[1..]);
    }
  }

  // ---------------------------------------------------------------------
  // The batches in flight, by ascending correlation ID
  // ---------------------------------------------------------------------

  ghost predicate IsLatest(id: nat, ids: set<nat>) {
    id in ids && forall other | other in ids :: other <= id
  }

  lemma {:induction false} LatestExists(ids: set<nat>)
    requires ids != {}
    ensures exists id :: IsLatest(id, ids)
  {
    var some :| some in ids;
    if ids == {some} {
      assert IsLatest(some, ids);
    } else {
      LatestExists(ids - {some});
      var rest :| IsLatest(rest, ids - {some});
      forall other | other in ids
        ensures other <= rest || other == some
      {
        if other != some {
          assert other in ids - {some};
        }
      }
      assert IsLatest(if some < rest then rest else some, ids);
    }
  }

  ghost function Latest(ids: set<nat>): (id: nat)
    requires ids != {}
    ensures IsLatest(id, ids)
  {
    LatestExists(ids);
    var id :| IsLatest(id, ids);
    id
  }

  /** The batches of a pending map in the order their calls were sent. */
  ghost function FlightOrder(pending: map<nat, Batch>): (batches: seq<Batch>)
    ensures |batches| == |pending|
    ensures forall id | id in pending :: pending[id] in batches
    ensures forall b | b in batches :: b in pending.Values
    decreases |pending|
  {
    if pending == map[] then
      []
    else
      var id := Latest(pending.Keys);
      assert pending.Keys == (pending - {id}).Keys + {id};
      FlightOrder(pending - {id}) + [pending[id]]
  }

  /** The call with the latest ID goes last. */
  lemma FlightOrderLast(pending: map<nat, Batch>, last: nat)
    requires IsLatest(last, pending.Keys)
    ensures FlightOrder(pending) == FlightOrder(pending - {last}) + [pending[last]]
  {
    assert last in pending.Keys;
    assert Latest(pending.Keys) == last;
  }

  /** A call with a later ID than every other is added at the end. */
  lemma FlightOrderAppend(pending: map<nat, Batch>, id: nat, batch: Batch)
    requires forall other | other in pending :: other < id
    ensures FlightOrder(pending[id := batch]) == FlightOrder(pending) + [batch]
  {
    var grown := pending[id := batch];
    FlightOrderLast(grown, id);
    assert grown - {id} == pending;
  }

  /** The correlation IDs of a pending map, oldest call first. */
  ghost function FlightIds(ids: set<nat>): (order: seq<nat>)
    ensures |order| == |ids|
    ensures forall i | 0 <= i < |order| :: order[i] in ids
    ensures forall i, j | 0 <= i < j < |order| :: order[i] < order[j]
    decreases |ids|
  {
    if ids == {} then
      []
    else
      var last := Latest(ids);
      FlightIds(ids - {last}) + [last]
  }

  ghost function AtIds(pending: map<nat, Batch>, ids: seq<nat>): (batches: seq<Batch>)
    requires forall i | 0 <= i < |ids| :: ids[i] in pending
  {
    seq(|ids|, i requires 0 <= i < |ids| => pending[ids[i]])
  }

  lemma AtIdsAppend(pending: map<nat, Batch>, shorter: map<nat, Batch>, ids: seq<nat>, last: nat)
    requires last in pending && shorter == pending - {last}
    requires forall i | 0 <= i < |ids| :: ids[i] in shorter
    ensures forall i | 0 <= i < |ids + [last]| :: (ids + [last])[i] in pending
    ensures AtIds(pending, ids + [last]) == AtIds(shorter, ids) + [pending[last]]
  {
  }

  /** `FlightOrder` really is the order in which the calls were sent. */
  lemma {:induction false} FlightOrderFollowsIds(pending: map<nat, Batch>)
    ensures FlightOrder(pending) == AtIds(pending, FlightIds(pending.Keys))
    decreases |pending|
  {
    if pending == map[] {
      assert FlightIds(pending.Keys) == [];
    } else {
      var last := Latest(pending.Keys);
      var shorter := pending - {last};
      assert shorter.Keys == pending.Keys - {last};
      FlightOrderFollowsIds(shorter);
      FlightOrderLast(pending, last);
      AtIdsAppend(pending, shorter, FlightIds(shorter.Keys), last);
    }
  }

  /** `whole` weighs what `part` weighs and one batch more. */
  ghost predicate OneMore(whole: map<nat, Batch>, part: map<nat, Batch>, batch: Batch) {
    && multiset(Frames(FlightOrder(whole))) ==
       multiset(Frames(FlightOrder(part))) + multiset{batch.encoded}
    && TotalBytes(FlightOrder(whole)) == TotalBytes(FlightOrder(part)) + batch.bytes
  }

  lemma FlightOrderLastWeighs(pending: map<nat, Batch>, last: nat)
    requires IsLatest(last, pending.Keys)
    ensures OneMore(pending, pending - {last}, pending[last])
  {
    FlightOrderLast(pending, last);
    TotalsConcat(FlightOrder(pending - {last}), [pending[last]]);
    assert Frames([pending[last]]) == [pending[last].encoded];
  }

  lemma OneMoreCommutes(
      a: map<nat, Batch>, b: map<nat, Batch>, c: map<nat, Batch>, d: map<nat, Batch>, x: Batch, y: Batch)
    requires OneMore(a, b, x) && OneMore(c, d, x) && OneMore(b, d, y)
    ensures OneMore(a, c, y)
  {
    hide Frames, FlightOrder, TotalBytes;
  }

  /** Taking one call out leaves the others as they were. */
  lemma {:induction false} FlightOrderRemove(pending: map<nat, Batch>, id: nat)
    requires id in pending
    ensures OneMore(pending, pending - {id}, pending[id])
    decreases |pending|
  {
    hide OneMore, FlightOrder;
    assert id in pending.Keys;
    var last := Latest(pending.Keys);
    FlightOrderLastWeighs(pending, last);
    if last != id {
      var shorter, without := pending - {last}, pending - {id};
      assert pending.Keys == shorter.Keys + {last};
      assert without - {last} == shorter - {id};
      FlightOrderRemove(shorter, id);
      FlightOrderLastWeighs(without, last);
      OneMoreCommutes(pending, shorter, without, shorter - {id}, pending[last], pending[id]);
    }
  }
}
