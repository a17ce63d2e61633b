/** Where every captured item is, and the steps that move it.

    A ledger is one moment of a driver, with what really happened beside what the
    driver stores. Each step is one section of code that other threads see as
    whole: a section under the buffer lock, one change of an atomic counter, or
    one thing the network does. A step of a capturing thread may stand between
    any two steps of the delivering thread. */
module Ledgers {
  import opened Batches
  import opened Common
  import opened Network

  const BATCH_ENVELOPE_BYTES: nat := 256

  datatype Settings = Settings(
    maxItems: int,
    maxBatchBytes: int,
    maxFrameBytes: int,
    credentialBytes: nat,
    maxUnacknowledgedBytes: int,
    shutdownFlushDeadline: int,
    retryBackoffMin: int,
    retryBackoffMax: int,
    maxInFlightBatches: int,
    maxBatchAttempts: int,
    encodedLength: Frame -> nat)
  {
    /** The largest encoded batch that goes into a frame beside envelope and credential. */
    function FrameRoom(): int {
      maxFrameBytes - BATCH_ENVELOPE_BYTES - credentialBytes
    }

    function ItemLimit(): int {
      Max(maxItems, 1)
    }

    function AttemptLimit(): int {
      Max(maxBatchAttempts, 1)
    }

    predicate Fits(frame: Frame) {
      encodedLength(frame) <= FrameRoom()
    }

    /** No sealed batch holds more bytes than this. */
    function BatchBound(): nat {
      Max(Max(maxBatchBytes, FrameRoom()), 0)
    }
  }

  /** The batch the delivering thread has taken out of every list, if any. */
  datatype Hand = Empty | Holding(batch: Batch) {
    ghost function Frames(): multiset<Frame> {
      if Empty? then multiset{} else multiset{batch.encoded}
    }

    function Bytes(): nat {
      if Empty? then 0 else batch.bytes
    }
  }

  datatype Ledger = Ledger(
    // The buffer, and the items of capturing threads that wait for its lock.
    sequence: nat,
    numbered: seq<Item>,
    items: seq<Item>,
    bytes: int,
    captured: nat,
    // The sealed batches.
    nextBatchID: BatchId,
    pending: map<nat, Batch>,
    retained: seq<Batch>,
    sealedBytes: int,
    lost: nat,
    // The batch the delivering thread holds, and its bytes while they have left
    // `bytes` and are not yet in `sealedBytes`.
    hand: Hand,
    unpublished: nat,
    // What really happened, each in order.
    history: seq<Item>,
    sealed: seq<Frame>,
    acked: seq<Frame>,
    lostLog: seq<Frame>,
    transmissions: seq<Frame>,
    committed: map<BatchId, Frame>,
    // Whether an item was ever taken while a seal was part-way.
    overlapped: bool)

  /** The frames of the batches that are sealed and neither acknowledged nor
      given up. */
  ghost function HeldFrames(hand: Hand, pending: map<nat, Batch>, retained: seq<Batch>): multiset<Frame> {
    hand.Frames() + multiset(Frames(FlightOrder(pending))) + multiset(Frames(retained))
  }

  ghost function HeldBytes(hand: Hand, pending: map<nat, Batch>, retained: seq<Batch>): nat {
    hand.Bytes() + TotalBytes(FlightOrder(pending)) + TotalBytes(retained)
  }

  // ---------------------------------------------------------------------
  // What every step keeps
  // ---------------------------------------------------------------------

  /** No two items share a sequence number. */
  ghost predicate Distinct(items: multiset<Item>) {
    && (forall x | x in items :: items[x] == 1)
    && forall x, y | x in items && y in items && x.sequence == y.sequence :: x == y
  }

  /** No two frames share a batch ID. */
  ghost predicate OneFramePerId(frames: seq<Frame>) {
    forall i, j | 0 <= i < j < |frames| :: frames[i].batchID != frames[j].batchID
  }

  ghost predicate BufferOk(items: seq<Item>, bytes: int, s: Settings) {
    bytes == SizeOf(items) && forall x | x in items :: x.size <= s.FrameRoom()
  }

  ghost predicate NumbersOk(history: seq<Item>, numbered: seq<Item>, sequence: nat, s: Settings) {
    && Distinct(multiset(history) + multiset(numbered))
    && (forall x | x in history :: x.sequence < sequence)
    && (forall x | x in numbered :: x.sequence < sequence && x.size <= s.FrameRoom())
  }

  ghost predicate SealedOk(sealed: seq<Frame>, nextBatchID: BatchId) {
    OneFramePerId(sealed) && forall f | f in sealed :: f.batchID < nextBatchID
  }

  /** Every sealed frame is held, acknowledged, or lost, and only one of them. */
  ghost predicate Placed(sealed: seq<Frame>, held: multiset<Frame>, acked: seq<Frame>, lostLog: seq<Frame>) {
    multiset(sealed) == held + multiset(acked) + multiset(lostLog)
  }

  ghost predicate BatchOk(b: Batch, s: Settings) {
    b.Counted() && b.attempts < s.AttemptLimit()
  }

  ghost predicate HeldOk(hand: Hand, pending: map<nat, Batch>, retained: seq<Batch>, s: Settings) {
    && (hand.Holding? ==> BatchOk(hand.batch, s))
    && (forall id | id in pending :: BatchOk(pending[id], s) && s.Fits(pending[id].encoded))
    && (forall b | b in retained :: BatchOk(b, s) && s.Fits(b.encoded))
  }

  ghost predicate WireOk(
      transmissions: seq<Frame>, committed: map<BatchId, Frame>, sealed: seq<Frame>, acked: seq<Frame>, s: Settings)
  {
    && (forall f | f in transmissions :: f in sealed && s.Fits(f))
    && (forall id | id in committed :: committed[id] in transmissions && committed[id].batchID == id)
    && (forall f | f in acked :: f.batchID in committed)
  }

  /** What is in flight left at least once. */
  ghost predicate Travelled(pending: map<nat, Batch>, transmissions: seq<Frame>) {
    forall id | id in pending :: pending[id].encoded in transmissions
  }

  ghost predicate Inv(l: Ledger, s: Settings) {
    && BufferOk(l.items, l.bytes, s)
    && NumbersOk(l.history, l.numbered, l.sequence, s)
    && l.history == Items(l.sealed) + l.items
    && l.captured == |l.history|
    && SealedOk(l.sealed, l.nextBatchID)
    && Placed(l.sealed, HeldFrames(l.hand, l.pending, l.retained), l.acked, l.lostLog)
    && l.lost == |Items(l.lostLog)|
    && HeldOk(l.hand, l.pending, l.retained, s)
    && l.sealedBytes + l.unpublished == HeldBytes(l.hand, l.pending, l.retained)
    && l.unpublished <= s.BatchBound()
    && l.bytes + l.sealedBytes + l.unpublished <=
       Max(s.maxUnacknowledgedBytes, 0) + (if l.overlapped then s.BatchBound() else 0)
    && WireOk(l.transmissions, l.committed, l.sealed, l.acked, s)
    && Travelled(l.pending, l.transmissions)
  }

  // ---------------------------------------------------------------------
  // The steps of a capturing thread
  // ---------------------------------------------------------------------

  /** An item gets its number. One that is not recordable goes no further. */
  ghost function NumberStep(l: Ledger, size: nat, kept: bool): Ledger {
    l.(sequence := l.sequence + 1,
       numbered := if kept then l.numbered + [Item(l.sequence, size)] else l.numbered)
  }

  /** The locked section of `Capture`: a waiting item is buffered or refused. */
  ghost function BufferStep(l: Ledger, waiting: nat, s: Settings): Ledger
    requires waiting < |l.numbered|
  {
    var item := l.numbered[waiting];
    var left := l.(numbered := l.numbered[..waiting] + l.numbered[waiting + 1..]);
    if l.bytes + item.size + l.sealedBytes > s.maxUnacknowledgedBytes then
      left
    else
      left.(items := l.items + [item],
            bytes := l.bytes + item.size,
            captured := l.captured + 1,
            history := l.history + [item],
            overlapped := l.overlapped || l.unpublished > 0)
  }

  lemma NumberKeeps(l: Ledger, size: nat, kept: bool, s: Settings)
    requires Inv(l, s)
    requires kept ==> size <= s.FrameRoom()
    ensures Inv(NumberStep(l, size, kept), s)
  {
    hide HeldOk, WireOk, SealedOk, BufferOk, NumbersOk, Frames, FlightOrder, TotalBytes, Items, Travelled;
    NumbersGrow(l.history, l.numbered, l.sequence, size, s);
  }

  lemma NumbersGrow(history: seq<Item>, numbered: seq<Item>, sequence: nat, size: nat, s: Settings)
    requires NumbersOk(history, numbered, sequence, s)
    ensures NumbersOk(history, numbered, sequence + 1, s)
    ensures size <= s.FrameRoom() ==> NumbersOk(history, numbered + [Item(sequence, size)], sequence + 1, s)
  {
    var item := Item(sequence, size);
    assert multiset(numbered + [item]) == multiset(numbered) + multiset{item};
    DistinctAdd(multiset(history) + multiset(numbered), item);
    assert multiset(history) + multiset(numbered + [item]) ==
           multiset(history) + multiset(numbered) + multiset{item};
  }

  lemma DistinctAdd(items: multiset<Item>, item: Item)
    requires Distinct(items)
    requires forall x | x in items :: x.sequence != item.sequence
    ensures Distinct(items + multiset{item})
  {
  }

  lemma SplitAt(waiting: seq<Item>, i: nat)
    requires i < |waiting|
    ensures multiset(waiting) == multiset(waiting[..i] + waiting[i + 1..]) + multiset{waiting[i]}
  {
    assert waiting == waiting[..i] + ([waiting[i]] + waiting[i + 1..]);
  }

  lemma NumbersMove(history: seq<Item>, numbered: seq<Item>, i: nat, sequence: nat, s: Settings)
    requires i < |numbered| && NumbersOk(history, numbered, sequence, s)
    ensures numbered[i].size <= s.FrameRoom()
    ensures NumbersOk(history, numbered[..i] + numbered[i + 1..], sequence, s)
    ensures NumbersOk(history + [numbered[i]], numbered[..i] + numbered[i + 1..], sequence, s)
  {
    SplitAt(numbered, i);
    assert numbered[i] in numbered;
    var rest := numbered[..i] + numbered[i + 1..];
    assert forall x | x in rest :: x in numbered;
    assert multiset(history + [numbered[i]]) + multiset(rest) == multiset(history) + multiset(numbered);
    DistinctLess(multiset(history) + multiset(rest), multiset(history) + multiset(numbered));
  }

  lemma DistinctLess(fewer: multiset<Item>, items: multiset<Item>)
    requires Distinct(items) && fewer <= items
    ensures Distinct(fewer)
  {
  }

  lemma BufferKeeps(l: Ledger, waiting: nat, s: Settings)
    requires Inv(l, s) && waiting < |l.numbered|
    ensures Inv(BufferStep(l, waiting, s), s)
  {
    hide HeldOk, WireOk, SealedOk, NumbersOk, Frames, FlightOrder, TotalBytes, Items, SizeOf, Travelled;
    var item := l.numbered[waiting];
    NumbersMove(l.history, l.numbered, waiting, l.sequence, s);
    SizeOfConcat(l.items, [item]);
    SizeOfOne(item);
    assert Items(l.sealed) + l.items + [item] == Items(l.sealed) + (l.items + [item]);
  }

  // ---------------------------------------------------------------------
  // The steps of the delivering thread
  // ---------------------------------------------------------------------

  /** `sealLocked` removes the first `take` items: they have left the buffer and
      are not yet counted as sealed. */
  ghost function SealStep(l: Ledger, take: nat, sealedAt: int): Ledger
    requires take <= |l.items|
  {
    var frame := Frame(l.nextBatchID, l.items[..take], sealedAt);
    var size := SizeOf(l.items[..take]);
    l.(items := l.items[take..],
       bytes := l.bytes - size,
       nextBatchID := l.nextBatchID + 1,
       sealed := l.sealed + [frame],
       hand := Holding(Batch(frame, take, size, 0)),
       unpublished := size)
  }

  /** `sealLocked` counts the batch it sealed. */
  ghost function PublishStep(l: Ledger): Ledger {
    l.(sealedBytes := l.sealedBytes + l.unpublished, unpublished := 0)
  }

  /** `sealLocked` gives up one event that fits no frame. */
  ghost function NeverFitsStep(l: Ledger): Ledger
    requires l.hand.Holding?
  {
    l.(lost := l.lost + l.hand.batch.items,
       lostLog := [l.hand.batch.encoded] + l.lostLog,
       hand := Empty,
       unpublished := 0)
  }

  /** `nextBatchLocked` takes the first of the held batches. */
  ghost function ResumeStep(l: Ledger): Ledger
    requires l.retained != []
  {
    l.(hand := Holding(l.retained[0]), retained := l.retained[1..])
  }

  /** `sendLocked` leaves the batch with the connection. */
  ghost function LaunchStep(l: Ledger, id: nat): Ledger
    requires l.hand.Holding?
  {
    l.(pending := l.pending[id := l.hand.batch], hand := Empty)
  }

  /** A batch in flight comes back to the delivering thread. */
  ghost function LandStep(l: Ledger, id: nat): Ledger
    requires id in l.pending
  {
    l.(hand := Holding(l.pending[id]), pending := l.pending - {id})
  }

  /** `ackedLocked` */
  ghost function AckStep(l: Ledger): Ledger
    requires l.hand.Holding?
  {
    l.(sealedBytes := l.sealedBytes - l.hand.batch.bytes,
       acked := l.acked + [l.hand.batch.encoded],
       hand := Empty)
  }

  /** `loseLocked` */
  ghost function LoseStep(l: Ledger): Ledger
    requires l.hand.Holding?
  {
    l.(sealedBytes := l.sealedBytes - l.hand.batch.bytes,
       lost := l.lost + l.hand.batch.items,
       lostLog := [l.hand.batch.encoded] + l.lostLog,
       hand := Empty)
  }

  /** `retainLocked`: back to the front, or given up at the attempt limit. */
  ghost function RetainStep(l: Ledger, failure: Failure, s: Settings): Ledger
    requires l.hand.Holding?
  {
    var batch := l.hand.batch;
    if !FateUnknown(failure) then
      l.(retained := [batch] + l.retained, hand := Empty)
    else if batch.attempts + 1 >= s.AttemptLimit() then
      LoseStep(l)
    else
      l.(retained := [batch.(attempts := batch.attempts + 1)] + l.retained, hand := Empty)
  }

  /** The network carries frames and the collector commits some of them. */
  ghost function NetworkStep(l: Ledger, transmissions: seq<Frame>, committed: map<BatchId, Frame>): Ledger {
    l.(transmissions := transmissions, committed := committed)
  }

  // ---------------------------------------------------------------------
  // Each of them keeps the books
  // ---------------------------------------------------------------------

  /** Two ways of holding the same frames. */
  ghost predicate SameHeld(
      hand: Hand, pending: map<nat, Batch>, retained: seq<Batch>,
      hand': Hand, pending': map<nat, Batch>, retained': seq<Batch>)
  {
    && HeldFrames(hand, pending, retained) == HeldFrames(hand', pending', retained')
    && HeldBytes(hand, pending, retained) == HeldBytes(hand', pending', retained')
  }

  lemma FrontWeighs(b: Batch, retained: seq<Batch>)
    ensures multiset(Frames([b] + retained)) == multiset{b.encoded} + multiset(Frames(retained))
    ensures TotalBytes([b] + retained) == b.bytes + TotalBytes(retained)
  {
    assert ([b] + retained)[1..] == retained;
  }

  lemma HandToFront(b: Batch, pending: map<nat, Batch>, retained: seq<Batch>, attempts: nat)
    ensures SameHeld(Holding(b), pending, retained, Empty, pending, [b.(attempts := attempts)] + retained)
  {
    hide FlightOrder, Frames, TotalBytes;
    FrontWeighs(b.(attempts := attempts), retained);
  }

  lemma FrontToHand(pending: map<nat, Batch>, retained: seq<Batch>)
    requires retained != []
    ensures SameHeld(Empty, pending, retained, Holding(retained[0]), pending, retained[1..])
  {
    HandToFront(retained[0], pending, retained[1..], retained[0].attempts);
    assert [retained[0]] + retained[1..] == retained;
  }

  lemma FlightGrows(pending: map<nat, Batch>, id: nat, b: Batch)
    requires forall other | other in pending :: other < id
    ensures OneMore(pending[id := b], pending, b)
  {
    hide FlightOrder;
    FlightOrderAppend(pending, id, b);
    TotalsConcat(FlightOrder(pending), [b]);
    assert Frames([b]) == [b.encoded];
  }

  lemma HandToFlight(b: Batch, pending: map<nat, Batch>, retained: seq<Batch>, id: nat)
    requires forall other | other in pending :: other < id
    ensures SameHeld(Holding(b), pending, retained, Empty, pending[id := b], retained)
  {
    hide FlightOrder, Frames, TotalBytes;
    FlightGrows(pending, id, b);
  }

  lemma FlightToHand(pending: map<nat, Batch>, retained: seq<Batch>, id: nat)
    requires id in pending
    ensures SameHeld(Empty, pending, retained, Holding(pending[id]), pending - {id}, retained)
  {
    hide FlightOrder, Frames, TotalBytes;
    FlightOrderRemove(pending, id);
  }

  lemma HandHeld(hand: Hand, pending: map<nat, Batch>, retained: seq<Batch>)
    requires hand.Holding?
    ensures HeldFrames(hand, pending, retained) ==
            HeldFrames(Empty, pending, retained) + multiset{hand.batch.encoded}
    ensures HeldBytes(hand, pending, retained) == HeldBytes(Empty, pending, retained) + hand.batch.bytes
  {
    hide FlightOrder, Frames, TotalBytes;
  }

  lemma PlacedLost(sealed: seq<Frame>, held: multiset<Frame>, f: Frame, acked: seq<Frame>, lostLog: seq<Frame>)
    requires Placed(sealed, held + multiset{f}, acked, lostLog)
    ensures Placed(sealed, held, acked, [f] + lostLog)
    ensures |Items([f] + lostLog)| == |f.items| + |Items(lostLog)|
  {
    assert ([f] + lostLog)[1..] == lostLog;
    assert multiset([f] + lostLog) == multiset{f} + multiset(lostLog);
  }

  lemma PlacedAcked(sealed: seq<Frame>, held: multiset<Frame>, f: Frame, acked: seq<Frame>, lostLog: seq<Frame>)
    requires Placed(sealed, held + multiset{f}, acked, lostLog)
    ensures Placed(sealed, held, acked + [f], lostLog)
  {
    assert multiset(acked + [f]) == multiset(acked) + multiset{f};
  }

  lemma PlacedSealed(sealed: seq<Frame>, held: multiset<Frame>, f: Frame, acked: seq<Frame>, lostLog: seq<Frame>)
    requires Placed(sealed, held, acked, lostLog)
    ensures Placed(sealed + [f], held + multiset{f}, acked, lostLog)
  {
    assert multiset(sealed + [f]) == multiset(sealed) + multiset{f};
  }

  /** The hand is emptied into the list of the lost. */
  lemma LoseKeeps(l: Ledger, s: Settings)
    requires Inv(l, s) && l.hand.Holding? && l.unpublished == 0
    ensures Inv(LoseStep(l), s)
  {
    hide Placed, WireOk, SealedOk, BufferOk, NumbersOk, HeldFrames, HeldBytes, Items, SizeOf, Travelled;
    HandHeld(l.hand, l.pending, l.retained);
    PlacedLost(l.sealed, HeldFrames(Empty, l.pending, l.retained), l.hand.batch.encoded, l.acked, l.lostLog);
  }

  lemma NeverFitsKeeps(l: Ledger, s: Settings)
    requires Inv(l, s) && l.hand.Holding? && l.unpublished == l.hand.batch.bytes
    ensures Inv(NeverFitsStep(l), s)
  {
    hide Placed, WireOk, SealedOk, BufferOk, NumbersOk, HeldFrames, HeldBytes, Items, SizeOf, Travelled;
    HandHeld(l.hand, l.pending, l.retained);
    PlacedLost(l.sealed, HeldFrames(Empty, l.pending, l.retained), l.hand.batch.encoded, l.acked, l.lostLog);
  }

  lemma PublishKeeps(l: Ledger, s: Settings)
    requires Inv(l, s)
    ensures Inv(PublishStep(l), s)
  {
    hide Placed, HeldOk, WireOk, SealedOk, BufferOk, NumbersOk, HeldFrames, HeldBytes, Items, SizeOf, Travelled;
  }

  lemma AckKeeps(l: Ledger, s: Settings)
    requires Inv(l, s) && l.hand.Holding? && l.unpublished == 0
    requires l.hand.batch.encoded.batchID in l.committed
    ensures Inv(AckStep(l), s)
  {
    hide Placed, HeldOk, SealedOk, BufferOk, NumbersOk, HeldFrames, HeldBytes, Items, SizeOf, Travelled;
    HandHeld(l.hand, l.pending, l.retained);
    PlacedAcked(l.sealed, HeldFrames(Empty, l.pending, l.retained), l.hand.batch.encoded, l.acked, l.lostLog);
    HandOff(l.hand, l.pending, l.retained, s);
  }

  lemma HandOff(hand: Hand, pending: map<nat, Batch>, retained: seq<Batch>, s: Settings)
    requires HeldOk(hand, pending, retained, s)
    ensures HeldOk(Empty, pending, retained, s)
  {
  }

  lemma RetainKeeps(l: Ledger, failure: Failure, s: Settings)
    requires Inv(l, s) && l.hand.Holding? && l.unpublished == 0
    requires s.Fits(l.hand.batch.encoded)
    ensures Inv(RetainStep(l, failure, s), s)
  {
    hide Placed, WireOk, SealedOk, BufferOk, NumbersOk, HeldFrames, HeldBytes, Items, SizeOf, Travelled;
    var batch := l.hand.batch;
    if FateUnknown(failure) && batch.attempts + 1 >= s.AttemptLimit() {
      LoseKeeps(l, s);
    } else {
      var attempts := if FateUnknown(failure) then batch.attempts + 1 else batch.attempts;
      HandToFront(batch, l.pending, l.retained, attempts);
      assert batch.(attempts := batch.attempts) == batch;
    }
  }

  lemma ResumeKeeps(l: Ledger, s: Settings)
    requires Inv(l, s) && l.hand == Empty && l.retained != []
    ensures Inv(ResumeStep(l), s) && s.Fits(ResumeStep(l).hand.batch.encoded)
  {
    hide Placed, WireOk, SealedOk, BufferOk, NumbersOk, HeldFrames, HeldBytes, Items, SizeOf, Travelled;
    assert l.retained[0] in l.retained;
    FrontToHand(l.pending, l.retained);
  }

  lemma LaunchKeeps(l: Ledger, id: nat, s: Settings)
    requires Inv(l, s) && l.hand.Holding? && l.unpublished == 0
    requires s.Fits(l.hand.batch.encoded) && l.hand.batch.encoded in l.transmissions
    requires forall other | other in l.pending :: other < id
    ensures Inv(LaunchStep(l, id), s)
  {
    hide Placed, WireOk, SealedOk, BufferOk, NumbersOk, HeldFrames, HeldBytes, Items, SizeOf;
    HandToFlight(l.hand.batch, l.pending, l.retained, id);
  }

  lemma LandKeeps(l: Ledger, id: nat, s: Settings)
    requires Inv(l, s) && l.hand == Empty && id in l.pending
    ensures Inv(LandStep(l, id), s) && s.Fits(LandStep(l, id).hand.batch.encoded)
    ensures LandStep(l, id).hand.batch.encoded in l.transmissions
  {
    hide Placed, WireOk, SealedOk, BufferOk, NumbersOk, HeldFrames, HeldBytes, Items, SizeOf;
    FlightToHand(l.pending, l.retained, id);
  }

  /** The network only carries sealed frames that fit, and what is committed
      stays committed. */
  ghost predicate NetworkAllowed(l: Ledger, transmissions: seq<Frame>, committed: map<BatchId, Frame>, s: Settings) {
    && (forall f | f in transmissions :: f in l.transmissions || (f in l.sealed && s.Fits(f)))
    && (forall f | f in l.transmissions :: f in transmissions)
    && (forall id | id in l.committed :: id in committed && committed[id] == l.committed[id])
    && (forall id | id in committed :: committed[id] in transmissions && committed[id].batchID == id)
  }

  lemma NetworkKeeps(l: Ledger, transmissions: seq<Frame>, committed: map<BatchId, Frame>, s: Settings)
    requires Inv(l, s) && NetworkAllowed(l, transmissions, committed, s)
    ensures Inv(NetworkStep(l, transmissions, committed), s)
  {
    hide Placed, HeldOk, SealedOk, BufferOk, NumbersOk, HeldFrames, HeldBytes, Items, SizeOf;
  }

  /** What one seal may take: at least one item, and no more than one item beyond
      the byte limit of a batch. */
  ghost predicate Sealable(l: Ledger, take: nat, s: Settings) {
    && 0 < take <= |l.items|
    && (take > 1 ==> SizeOf(l.items[..take]) <= s.maxBatchBytes)
  }

  lemma SealKeeps(l: Ledger, take: nat, sealedAt: int, s: Settings)
    requires Inv(l, s) && l.hand == Empty && l.unpublished == 0 && Sealable(l, take, s)
    ensures Inv(SealStep(l, take, sealedAt), s)
  {
    hide Placed, WireOk, SealedOk, BufferOk, NumbersOk, HeldFrames, HeldBytes, Items, SizeOf, Travelled;
    var next := SealStep(l, take, sealedAt);
    var frame := next.hand.batch.encoded;
    SealBuffer(l.items, l.bytes, take, s);
    SealWire(l, frame, s);
    SealItems(l.sealed, frame);
    SealNames(l.sealed, frame);
    HandHeld(next.hand, l.pending, l.retained);
    PlacedSealed(l.sealed, HeldFrames(Empty, l.pending, l.retained), frame, l.acked, l.lostLog);
    assert l.items == l.items[..take] + l.items[take..];
    assert l.history == Items(next.sealed) + next.items;
  }

  lemma SealBuffer(items: seq<Item>, bytes: int, take: nat, s: Settings)
    requires BufferOk(items, bytes, s) && 0 < take <= |items|
    requires take > 1 ==> SizeOf(items[..take]) <= s.maxBatchBytes
    ensures BufferOk(items[take..], bytes - SizeOf(items[..take]), s)
    ensures SizeOf(items[..take]) <= s.BatchBound()
  {
    assert items == items[..take] + items[take..];
    SizeOfConcat(items[..take], items[take..]);
    if take == 1 {
      assert items[..1] == [items[0]];
      SizeOfOne(items[0]);
    }
  }

  lemma SealWire(l: Ledger, frame: Frame, s: Settings)
    requires WireOk(l.transmissions, l.committed, l.sealed, l.acked, s)
    ensures WireOk(l.transmissions, l.committed, l.sealed + [frame], l.acked, s)
  {
  }

  lemma SealItems(sealed: seq<Frame>, frame: Frame)
    ensures Items(sealed + [frame]) == Items(sealed) + frame.items
  {
    ItemsConcat(sealed, [frame]);
    assert [frame][1..] == [];
    assert Items([frame]) == frame.items;
  }

  lemma SealNames(sealed: seq<Frame>, frame: Frame)
    requires SealedOk(sealed, frame.batchID)
    ensures SealedOk(sealed + [frame], frame.batchID + 1)
  {
  }
}
