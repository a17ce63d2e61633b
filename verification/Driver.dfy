/** The app driver: `Capture` on one side, sealing and delivery on the other.

    The source has two locks. `Capture` takes `mu`; sealing and delivery hold
    `outboxMu` and take `mu` for moments. A method here runs under `outboxMu`, and
    `Others` stands wherever it does not hold `mu`: it runs any capture steps of
    any other threads, in any order. A contract therefore holds under every
    interleaving.

    `run` records the steps a driver took, so whatever is proved of every run of
    the ledger holds of every driver. */
module Drivers {
  import opened Batches
  import opened Common
  import opened Network
  import opened Ledgers
  import opened Conservation

  const DEFAULT_BACKOFF: nat := 100
  const SHUTDOWN_PAUSE: nat := 10

  // ---------------------------------------------------------------------
  // What a failure does to the batches it touches
  // ---------------------------------------------------------------------

  /** The batches still held after a failure, oldest first: all of them when
      their fate is known, and otherwise those with an attempt left. */
  function Survivors(batches: seq<Batch>, failure: Failure, limit: int): seq<Batch> {
    if batches == [] then
      []
    else
      var b := batches[0];
      var rest := Survivors(batches[1..], failure, limit);
      if !FateUnknown(failure) then [b] + rest
      else if b.attempts + 1 < limit then [b.(attempts := b.attempts + 1)] + rest
      else rest
  }

  /** The frames a failure ends. */
  function GivenUp(batches: seq<Batch>, failure: Failure, limit: int): seq<Frame> {
    if batches == [] then
      []
    else
      var rest := GivenUp(batches[1..], failure, limit);
      if FateUnknown(failure) && batches[0].attempts + 1 >= limit then [batches[0].encoded] + rest else rest
  }

  lemma {:induction false} SurvivorsConcat(a: seq<Batch>, b: seq<Batch>, failure: Failure, limit: int)
    ensures Survivors(a + b, failure, limit) ==
            Survivors(a, failure, limit) + Survivors(b, failure, limit)
  {
    if a == [] {
      assert a + b == b;
    } else {
      assert (a + b)[1..] == a[1..] + b;
      SurvivorsConcat(a[1..], b, failure, limit);
    }
  }

  lemma {:induction false} GivenUpConcat(a: seq<Batch>, b: seq<Batch>, failure: Failure, limit: int)
    ensures GivenUp(a + b, failure, limit) == GivenUp(a, failure, limit) + GivenUp(b, failure, limit)
  {
    if a == [] {
      assert a + b == b;
    } else {
      assert (a + b)[1..] == a[1..] + b;
      GivenUpConcat(a[1..], b, failure, limit);
    }
  }

  /** A failure of known fate holds every batch as it was and ends none. */
  lemma {:induction false} KnownFateHoldsAll(batches: seq<Batch>, failure: Failure, limit: int)
    requires !FateUnknown(failure)
    ensures Survivors(batches, failure, limit) == batches && GivenUp(batches, failure, limit) == []
  {
    if batches != [] {
      KnownFateHoldsAll(batches[1..], failure, limit);
    }
  }

  /** A failure of unknown fate costs every batch it touches one attempt, and
      ends exactly the batches that had no other. */
  lemma {:induction false} UnknownFateCostsOneAttempt(batches: seq<Batch>, failure: Failure, limit: int, i: nat)
    requires FateUnknown(failure) && i < |batches|
    ensures var b := batches[i];
            if b.attempts + 1 < limit then b.(attempts := b.attempts + 1) in Survivors(batches, failure, limit)
            else b.encoded in GivenUp(batches, failure, limit)
  {
    if i > 0 {
      UnknownFateCostsOneAttempt(batches[1..], failure, limit, i - 1);
    }
  }

  /** Every batch a failure touches is held or given up, and no other is. */
  lemma {:induction false} FailureKeepsCount(batches: seq<Batch>, failure: Failure, limit: int)
    ensures |Survivors(batches, failure, limit)| + |GivenUp(batches, failure, limit)| == |batches|
  {
    if batches != [] {
      FailureKeepsCount(batches[1..], failure, limit);
    }
  }

  // ---------------------------------------------------------------------
  // The wait between failed attempts
  // ---------------------------------------------------------------------

  function Pow2(n: nat): nat {
    if n == 0 then 1 else 2 * Pow2(n - 1)
  }

  function BackoffFloor(settings: Settings): (floor: int)
    ensures floor > 0
  {
    if settings.retryBackoffMin <= 0 then DEFAULT_BACKOFF else settings.retryBackoffMin
  }

  function BackoffCeiling(settings: Settings): int {
    Max(settings.retryBackoffMax, BackoffFloor(settings))
  }

  /** The wait after so many failures in a row: doubled each time, and capped. */
  function Backoff(settings: Settings, failures: nat): int
    requires failures > 0
  {
    Min(BackoffFloor(settings) * Pow2(failures - 1), BackoffCeiling(settings))
  }

  lemma {:induction false} Pow2Grows(k: nat, a: nat, b: nat)
    requires a <= b
    ensures k * Pow2(a) <= k * Pow2(b)
    decreases b
  {
    if a < b {
      Pow2Grows(k, a, b - 1);
      assert k * Pow2(b) == 2 * (k * Pow2(b - 1));
    }
  }

  method BackoffWait(settings: Settings, failures: nat) returns (wait: int)
    requires failures > 0
    ensures wait == Backoff(settings, failures) && 0 < wait <= BackoffCeiling(settings)
  {
    var floor := BackoffFloor(settings);
    var ceiling := BackoffCeiling(settings);
    wait := floor;
    var step := 1;
    while step < failures && wait < ceiling
      invariant 1 <= step <= failures
      invariant 0 < wait == floor * Pow2(step - 1)
    {
      assert floor * Pow2(step) == 2 * (floor * Pow2(step - 1));
      wait := wait * 2;
      step := step + 1;
    }
    Pow2Grows(floor, step - 1, failures - 1);
    if wait > ceiling {
      wait := ceiling;
    }
  }

  // ---------------------------------------------------------------------
  // The rest of the process
  // ---------------------------------------------------------------------

  class Clock {
    var now: int

    constructor (start: int)
      ensures now == start
    {
      now := start;
    }

    method Read() returns (time: int)
      modifies this
      ensures time == now && old(now) <= now
    {
      var passed :| 0 <= passed;
      now := now + passed;
      time := now;
    }

    method Sleep(wait: nat)
      modifies this
      ensures now >= old(now) + wait
    {
      var late :| 0 <= late;
      now := now + wait + late;
    }
  }

  /** One event an application hands to `Capture`. */
  datatype Event = Event(size: nat, recordable: bool)

  /** The threads that capture while another thread delivers: the events they
      have still to capture, and the items that have a number and wait for the
      buffer lock. */
  class Application {
    var upcoming: seq<Event>
    var numbered: seq<Item>

    constructor (upcoming: seq<Event>)
      ensures this.upcoming == upcoming && numbered == []
    {
      this.upcoming := upcoming;
      numbered := [];
    }
  }

  /** `take` items from the front fill one batch: within both limits, at least
      one item, and not one item fewer than fits. */
  ghost predicate FillsBatch(items: seq<Item>, take: nat, settings: Settings) {
    && take <= |items| && take <= settings.ItemLimit()
    && (take > 1 ==> SizeOf(items[..take]) <= settings.maxBatchBytes)
    && (take < |items| && take < settings.ItemLimit() ==>
          take > 0 && SizeOf(items[..take + 1]) > settings.maxBatchBytes)
  }

  /** A batch of the first `n` items would not fit one frame. */
  ghost predicate FrameOverflows(items: seq<Item>, n: nat, id: BatchId, sealedAt: int, settings: Settings)
    requires n <= |items|
  {
    !settings.Fits(Frame(id, items[..n], sealedAt))
  }

  lemma SizeOfNext(items: seq<Item>, n: nat)
    requires n < |items|
    ensures SizeOf(items[..n + 1]) == SizeOf(items[..n]) + items[n].size
  {
    assert items[..n + 1] == items[..n] + [items[n]];
    SizeOfConcat(items[..n], [items[n]]);
    SizeOfOne(items[n]);
  }

  /** All that capturing threads change: the buffer grows at its end. */
  ghost predicate CaptureOnly(before: Ledger, after: Ledger) {
    && before.items <= after.items && before.history <= after.history
    && before.captured <= after.captured
    && after == before.(sequence := after.sequence, numbered := after.numbered, items := after.items,
                        bytes := after.bytes, captured := after.captured, history := after.history,
                        overlapped := after.overlapped)
  }

  method SumOfSizes(items: seq<Item>, sizes: seq<nat>, take: nat) returns (size: nat)
    requires take <= |items| == |sizes|
    requires forall i | 0 <= i < |items| :: sizes[i] == items[i].size
    ensures size == SizeOf(items[..take])
  {
    size := 0;
    assert items[..0] == [];
    for i := 0 to take
      invariant size == SizeOf(items[..i])
    {
      SizeOfNext(items, i);
      size := size + sizes[i];
    }
  }

  ghost predicate HalvedFrom(seen: seq<Item>, full: nat, frame: Frame, settings: Settings) {
    && full <= |seen|
    && frame.items != [] && frame.items <= seen[..full]
    && (|frame.items| < full ==>
          exists n, at :: |frame.items| < n <= full && n / 2 == |frame.items|
                       && FrameOverflows(seen[..full], n, frame.batchID, at, settings))
  }

  datatype Numbering = Numbered(item: Item) | NoPayload | TooLarge
  datatype Sealing = NothingToSeal | Sealed(batch: Batch) | FitsNoFrame
  datatype DeliveryError = RetryLater(wait: int) | EventTooLarge | NoBatchWaiting | CallFailed(failure: Failure)
  datatype Next = NoBatch | Ready(batch: Batch) | NextFailed(error: DeliveryError)
  datatype Settled = Settled(receipt: Receipt) | Unsettled(error: DeliveryError)
  datatype Due = AnyTime | NotBefore(at: int)

  lemma FrontAndRest(seen: seq<Item>, buffer: seq<Item>, front: seq<Item>, rest: seq<Item>)
    requires seen <= buffer && front <= buffer && buffer[|front|..] <= rest
    ensures seen <= front + rest
  {
    assert front + rest == buffer[..|front|] + rest;
  }

  /** What `sealLocked` did. `seen` is the buffer as its first locked section
      found it, and `full` is how much of that fills a batch. The batch is a
      prefix of it, shorter only when a batch twice its size fits no frame. What
      it removed is what it encoded: the batch and then the buffer that is left
      are `seen` and what was captured since, in order. */
  ghost predicate SealedFrom(
      before: Ledger, after: Ledger, sealing: Sealing, seen: seq<Item>, full: nat, settings: Settings)
  {
    && before.items <= seen && FillsBatch(seen, full, settings)
    && after.acked == before.acked && before.history <= after.history
    && match sealing
       case NothingToSeal =>
         && before.items == [] && seen == [] && after.hand == Empty && after.unpublished == 0
         && after.sealed == before.sealed && after.lostLog == before.lostLog
       case Sealed(batch) =>
         && after.hand == Holding(batch) && after.unpublished == 0 && settings.Fits(batch.encoded)
         && batch.attempts == 0 && batch.encoded.batchID == before.nextBatchID
         && after.sealed == before.sealed + [batch.encoded] && after.lostLog == before.lostLog
         && HalvedFrom(seen, full, batch.encoded, settings)
         && seen <= batch.encoded.items + after.items
       case FitsNoFrame =>
         && after.hand == Empty && after.unpublished == 0
         && |after.sealed| == |before.sealed| + 1
         && var frame := after.sealed[|before.sealed|];
            && after.sealed == before.sealed + [frame] && after.lostLog == [frame] + before.lostLog
            && |frame.items| == 1 && !settings.Fits(frame)
            && HalvedFrom(seen, full, frame, settings)
            && seen <= frame.items + after.items
  }

  /** Several receipts reported as one. */
  function Merge(merged: Option<Receipt>, next: Receipt): (receipt: Receipt)
    ensures receipt.batchID == next.batchID
    ensures receipt.durableCopies <= next.durableCopies
    ensures merged.Some? ==> receipt.durableCopies <= merged.value.durableCopies
    ensures merged.Some? ==> receipt.accepted == merged.value.accepted + next.accepted
  {
    match merged
    case None => next
    case Some(m) =>
      Receipt(next.batchID, m.accepted + next.accepted, Min(m.durableCopies, next.durableCopies),
              m.rejected + next.rejected)
  }

  /** The receipts of several batches reported as one. */
  function MergeAll(receipts: seq<Receipt>): Option<Receipt> {
    if receipts == [] then None
    else Some(Merge(MergeAll(receipts[..|receipts| - 1]), receipts[|receipts| - 1]))
  }

  /** The receipts of the frames that were acknowledged in between, one for each and in
      the same order. */
  ghost predicate Receipted(before: seq<Frame>, after: seq<Frame>, receipts: seq<Receipt>) {
    && |after| == |before| + |receipts| && before <= after
    && forall k | 0 <= k < |receipts| :: receipts[k].batchID == after[|before| + k].batchID
  }

  lemma NothingReceipted(frames: seq<Frame>)
    ensures Receipted(frames, frames, [])
  {
  }

  lemma ReceiptedMore(a: seq<Frame>, b: seq<Frame>, c: seq<Frame>, first: seq<Receipt>, more: seq<Receipt>)
    requires Receipted(a, b, first) && Receipted(b, c, more)
    ensures Receipted(a, c, first + more)
  {
    forall k | 0 <= k < |first + more| ensures (first + more)[k].batchID == c[|a| + k].batchID {
      if k < |first| {
        assert c[|a| + k] == b[|a| + k];
      } else {
        assert (first + more)[k] == more[k - |first|];
      }
    }
  }

  function ReceiptsOf(settled: Settled): seq<Receipt> {
    if settled.Settled? then [settled.receipt] else []
  }

  function Accepted(receipt: Option<Receipt>): nat {
    if receipt.None? then 0 else receipt.value.accepted
  }

  /** Every pending batch was sent on the current connection, under its ID. */
  ghost predicate OnTheWire(pending: map<nat, Batch>, wire: map<nat, Frame>) {
    forall id | id in pending :: id in wire && wire[id] == pending[id].encoded
  }

  lemma OnTheWireGrows(pending: map<nat, Batch>, wire: map<nat, Frame>, id: nat, batch: Batch)
    ensures OnTheWire(pending, wire) ==> OnTheWire(pending[id := batch], wire[id := batch.encoded])
    ensures OnTheWire(map[], wire)
  {
  }

  lemma OnTheWireShrinks(pending: map<nat, Batch>, wire: map<nat, Frame>, id: nat)
    requires OnTheWire(pending, wire) && id in pending
    ensures id in wire && wire[id] == pending[id].encoded
    ensures OnTheWire(pending - {id}, wire)
  {
  }

  lemma SentIsOn(before: seq<Frame>, after: seq<Frame>, frame: Frame)
    requires OnlySent(before, after, frame)
    ensures forall f | f in after :: f in before || f == frame
    ensures forall f | f in before :: f in after
    ensures |after| > |before| ==> frame in after
  {
    forall f | f in after ensures f in before || f == frame {
      var i :| 0 <= i < |after| && after[i] == f;
      assert i < |before| ==> before[i] == after[i];
    }
    assert |after| > |before| ==> after[|before|] == frame;
  }

  lemma CallIsTold(called: Called, frame: Frame, before: seq<Frame>, after: seq<Frame>)
    requires OnlySent(before, after, frame)
    requires called.Answered? ==> |after| > |before|
    requires called.Failed? ==> FateIsTold(called.failure, frame, before, after)
    ensures called.Answered? || SaysSent(called.failure) ==> |after| > |before|
  {
  }

  lemma OneMorePending(pending: map<nat, Batch>, id: nat, batch: Batch)
    requires forall other | other in pending :: other < id
    ensures id !in pending && |pending[id := batch]| == |pending| + 1
  {
    assert pending[id := batch].Keys == pending.Keys + {id};
  }

  lemma LaunchIs(l: Ledger, id: nat, s: Settings)
    requires l.hand.Holding? && l.unpublished == 0 && s.Fits(l.hand.batch.encoded)
    requires l.hand.batch.encoded in l.transmissions && forall other | other in l.pending :: other < id
    ensures Enabled(l, Step.Launch(id), s) && Apply(l, Step.Launch(id), s) == LaunchStep(l, id)
  {
  }

  /** What an answer means for the batch it answers. */
  function Verdict(batch: Batch, answer: Answer): Settled {
    match answer
    case Committed(accepted, copies, rejected) =>
      Settled(Receipt(batch.encoded.batchID, accepted, copies, rejected))
    case Refused(retryable) => Unsettled(CallFailed(Rejected(retryable)))
    case Garbled => Unsettled(CallFailed(Unreadable))
  }

  /** The batches a failure took back: the survivors go before everything held,
      in the order given, and the rest are given up. */
  ghost predicate Returned(
      before: Ledger, after: Ledger, batches: seq<Batch>, failure: Failure, settings: Settings)
  {
    && after.retained == Survivors(batches, failure, settings.AttemptLimit()) + before.retained
    && after.lostLog == GivenUp(batches, failure, settings.AttemptLimit()) + before.lostLog
    && after.sealed == before.sealed && after.acked == before.acked
    && after.nextBatchID == before.nextBatchID
  }

  lemma ReturnedNone(l: Ledger, failure: Failure, settings: Settings)
    ensures Returned(l, l, [], failure, settings)
  {
  }

  lemma ReturnedOne(batch: Batch, failure: Failure, limit: int)
    ensures Survivors([batch], failure, limit) ==
            if !FateUnknown(failure) then [batch]
            else if batch.attempts + 1 < limit then [batch.(attempts := batch.attempts + 1)]
            else []
    ensures GivenUp([batch], failure, limit) ==
            if FateUnknown(failure) && batch.attempts + 1 >= limit then [batch.encoded] else []
  {
    assert [batch][1..] == [];
  }

  lemma ReturnedMore(
      a: Ledger, b: Ledger, c: Ledger, batch: Batch, back: seq<Batch>, failure: Failure, settings: Settings)
    requires Returned(a, b, back, failure, settings) && Returned(b, c, [batch], failure, settings)
    ensures Returned(a, c, [batch] + back, failure, settings)
  {
    hide Survivors, GivenUp;
    SurvivorsConcat([batch], back, failure, settings.AttemptLimit());
    GivenUpConcat([batch], back, failure, settings.AttemptLimit());
  }

  lemma ReturnedChain(
      before: Ledger, held: Ledger, after: Ledger, flight: seq<Batch>, batch: Batch,
      failure: Failure, settings: Settings)
    requires Returned(before, held, [batch], failure, settings)
    requires Returned(held, after, flight, failure, settings)
    ensures Returned(before, after, flight + [batch], failure, settings)
  {
    hide Survivors, GivenUp;
    SurvivorsConcat(flight, [batch], failure, settings.AttemptLimit());
    GivenUpConcat(flight, [batch], failure, settings.AttemptLimit());
  }

  lemma ReturnedOfCarried(
      before: Ledger, carried: Ledger, after: Ledger, batches: seq<Batch>, failure: Failure, settings: Settings)
    requires carried == NetworkStep(before, carried.transmissions, carried.committed)
    requires Returned(carried, after, batches, failure, settings)
    ensures Returned(before, after, batches, failure, settings)
  {
    hide Survivors, GivenUp;
  }

  lemma ReturnedKeepsAcked(before: Ledger, after: Ledger, batches: seq<Batch>, failure: Failure, settings: Settings)
    requires Returned(before, after, batches, failure, settings)
    ensures after.acked == before.acked
  {
  }

  /** Where the batch in hand went. */
  ghost predicate Outcome(before: Ledger, after: Ledger, batch: Batch, settled: Settled, settings: Settings) {
    && after.hand == Empty && after.unpublished == 0
    && if settled.Settled? then
         && after.acked == before.acked + [batch.encoded]
         && after.retained == before.retained && after.lostLog == before.lostLog
         && after.sealed == before.sealed && after.nextBatchID == before.nextBatchID
       else
         && settled.error.CallFailed?
         && if settled.error.failure == Rejected(false) then
              && after.lostLog == [batch.encoded] + before.lostLog
              && after.retained == before.retained && after.acked == before.acked
              && after.sealed == before.sealed && after.nextBatchID == before.nextBatchID
            else
              Returned(before, after, [batch], settled.error.failure, settings)
  }

  lemma ReturnedIsOutcome(before: Ledger, after: Ledger, batch: Batch, failure: Failure, settings: Settings)
    requires Returned(before, after, [batch], failure, settings) && failure != Rejected(false)
    requires after.hand == Empty && after.unpublished == 0
    ensures Outcome(before, after, batch, Unsettled(CallFailed(failure)), settings)
  {
  }

  lemma OutcomeOfCarried(
      before: Ledger, sent: Ledger, after: Ledger, batch: Batch, settled: Settled, settings: Settings)
    requires sent == NetworkStep(before, sent.transmissions, sent.committed)
    requires Outcome(sent, after, batch, settled, settings)
    ensures Outcome(before, after, batch, settled, settings)
  {
    hide Survivors, GivenUp;
  }

  lemma OutcomeOfLanded(
      before: Ledger, carried: Ledger, landed: Ledger, after: Ledger, id: nat, batch: Batch,
      settled: Settled, settings: Settings)
    requires carried == NetworkStep(before, carried.transmissions, carried.committed)
    requires id in carried.pending && landed == LandStep(carried, id)
    requires Outcome(landed, after, batch, settled, settings)
    ensures Outcome(before, after, batch, settled, settings)
  {
    hide Survivors, GivenUp;
  }

  lemma OutcomeReceipts(before: Ledger, after: Ledger, batch: Batch, settled: Settled, settings: Settings)
    requires Outcome(before, after, batch, settled, settings)
    requires settled.Settled? ==> settled.receipt.batchID == batch.encoded.batchID
    ensures Receipted(before.acked, after.acked, ReceiptsOf(settled))
    ensures settled.Settled? ==> after.lostLog == before.lostLog
  {
  }

  /** The first item of the buffer was sealed alone, fitted no frame and was lost. */
  ghost predicate LostOne(before: Ledger, after: Ledger) {
    && |after.sealed| == |before.sealed| + 1
    && var frame := after.sealed[|before.sealed|];
       && after.sealed == before.sealed + [frame] && after.lostLog == [frame] + before.lostLog
       && |frame.items| == 1 && before.items <= frame.items + after.items
  }

  /** What `nextBatchLocked` took, and from where. */
  ghost predicate NextFrom(before: Ledger, after: Ledger, next: Next, settings: Settings) {
    && after.unpublished == 0 && after.acked == before.acked && before.history <= after.history
    && (next.Ready? <==> after.hand.Holding?)
    && (next.Ready? ==> after.hand == Holding(next.batch) && settings.Fits(next.batch.encoded))
    && if before.retained != [] then
         && next == Ready(before.retained[0]) && after.retained == before.retained[1..]
         && after.sealed == before.sealed && after.lostLog == before.lostLog && after.items == before.items
       else
         && after.retained == []
         && (next.Ready? ==>
               && after.sealed == before.sealed + [next.batch.encoded] && after.lostLog == before.lostLog
               && before.items <= next.batch.encoded.items + after.items)
         && (next.NoBatch? ==> before.items == [] && after.sealed == before.sealed && after.lostLog == before.lostLog)
         && (next.NextFailed? ==> next.error == EventTooLarge && LostOne(before, after))
  }

  lemma HeldIsSealed(l: Ledger, settings: Settings)
    requires Inv(l, settings) && l.hand.Holding?
    ensures l.hand.batch.encoded in l.sealed
  {
    hide BufferOk, NumbersOk, SealedOk, HeldOk, WireOk, HeldBytes, Items, FlightOrder, Frames;
    assert l.hand.batch.encoded in multiset(l.sealed);
  }

  lemma HeldFits(l: Ledger, settings: Settings, id: nat)
    requires Inv(l, settings) && id in l.pending
    ensures settings.Fits(l.pending[id].encoded) && l.pending[id].encoded in l.transmissions
  {
    hide BufferOk, NumbersOk, SealedOk, WireOk, HeldFrames, HeldBytes, Items, Placed;
  }

  lemma RetainedHeldFits(l: Ledger, settings: Settings)
    requires Inv(l, settings) && l.retained != []
    ensures settings.Fits(l.retained[0].encoded)
  {
    hide BufferOk, NumbersOk, SealedOk, WireOk, HeldFrames, HeldBytes, Items, Placed;
    assert l.retained[0] in l.retained;
  }

  /** Part of a filled batch is a batch within the limits too. */
  lemma PartOfBatch(seen: seq<Item>, full: nat, frame: Frame, settings: Settings)
    requires FillsBatch(seen, full, settings)
    requires HalvedFrom(seen[..full], |seen[..full]|, frame, settings) || HalvedFrom(seen, full, frame, settings)
    ensures |frame.items| > 1 ==> SizeOf(frame.items) <= settings.maxBatchBytes
    ensures HalvedFrom(seen, full, frame, settings)
    ensures frame.items <= seen && frame.items != []
    ensures full > 0 && |frame.items| <= |seen|
  {
    var taken := seen[..full];
    assert taken[..|taken|] == taken;
    assert taken == frame.items + taken[|frame.items|..];
    SizeOfConcat(frame.items, taken[|frame.items|..]);
  }

  lemma CountersOfRun(run: seq<Ledger>, s: Settings)
    requires IsRun(run, s) && |run| > 0 && run[|run| - 1].hand == Empty
    ensures var l := run[|run| - 1];
            l.captured == |l.items| + TotalItems(FlightOrder(l.pending)) + TotalItems(l.retained) + |Items(l.acked)| + l.lost
  {
    hide IsRun, Inv, FlightOrder, TotalItems, Items;
    RunKeeps(run, s);
    CountersAddUp(run[|run| - 1], s);
  }

  lemma LatestCounts(pending: map<nat, Batch>, id: nat)
    requires IsLatest(id, pending.Keys)
    ensures id in pending && |pending - {id}| == |pending| - 1
    ensures TotalItems(FlightOrder(pending)) == TotalItems(FlightOrder(pending - {id})) + pending[id].items
  {
    hide FlightOrder;
    FlightOrderLast(pending, id);
    TotalsConcat(FlightOrder(pending - {id}), [pending[id]]);
    assert pending.Keys == (pending - {id}).Keys + {id};
  }

  method Newest(ids: set<nat>) returns (id: nat)
    requires ids != {}
    ensures IsLatest(id, ids)
  {
    id :| id in ids;
    var rest := ids - {id};
    while rest != {}
      invariant id in ids && rest <= ids
      invariant forall other | other in ids :: other in rest || other <= id
      decreases |rest|
    {
      var other :| other in rest;
      rest := rest - {other};
      if other > id {
        id := other;
      }
    }
  }

  method CountItems(batches: seq<Batch>) returns (total: nat)
    ensures total == TotalItems(batches)
  {
    total := 0;
    assert batches[..0] == [] && batches[..|batches|] == batches;
    for i := 0 to |batches|
      invariant total == TotalItems(batches[..i])
    {
      assert batches[..i + 1] == batches[..i] + [batches[i]];
      TotalsConcat(batches[..i], [batches[i]]);
      total := total + batches[i].items;
    }
  }

  lemma LaterCounts(before: Ledger, after: Ledger)
    requires Later(before, after)
    ensures before.captured <= after.captured && before.lost <= after.lost
  {
  }

  /** What a driver leaves behind it: its run, how many items it took, and how many the
      application may still bring. */
  datatype Trail = Left(run: seq<Ledger>, captured: nat, waiting: nat)

  /** The run was only extended, and no item was taken that was not waiting. */
  ghost predicate Onward(before: Trail, after: Trail) {
    && before.run <= after.run && after.waiting <= before.waiting
    && after.captured + after.waiting <= before.captured + before.waiting
  }

  lemma OnwardIsBounded(before: Trail, after: Trail)
    requires Onward(before, after)
    ensures before.run <= after.run && after.waiting <= before.waiting
    ensures after.captured + after.waiting <= before.captured + before.waiting
  {
  }

  lemma Onwards()
    ensures forall a :: Onward(a, a)
    ensures forall a, b, c :: Onward(a, b) && Onward(b, c) ==> Onward(a, c)
  {
  }

  class Driver {
    const settings: Settings
    const collector: Collector
    const client: Client
    const pipeline: Pipeline
    const app: Application
    const clock: Clock

    // Under `mu`.
    var sequence: nat
    var items: seq<Item>
    var sizes: seq<nat>
    var bytes: int

    // Under `outboxMu`.
    var pending: map<nat, Batch>
    var retained: seq<Batch>
    var failures: nat
    var nextAttempt: Due
    var nextBatchID: BatchId

    // Atomic counters.
    var sealedBytes: int
    var captured: nat
    var refused: nat
    var accepted: nat
    var rejected: nat
    var lost: nat

    // What really happened: this moment, and the run that led to it.
    ghost var now: Ledger
    ghost var run: seq<Ledger>

    /** Calls outstanding on the connection whose batch was taken back. */
    ghost var orphans: nat

    ghost predicate BufferMatches()
      reads this`now, this`sequence, this`items, this`sizes, this`bytes, this`captured, app`numbered
    {
      && now.sequence == sequence && now.numbered == app.numbered
      && now.items == items && now.bytes == bytes && now.captured == captured
      && |sizes| == |items| && forall i | 0 <= i < |items| :: sizes[i] == items[i].size
    }

    ghost predicate OutboxMatches()
      reads this`now, this`nextBatchID, this`pending, this`retained, this`sealedBytes, this`lost
    {
      && now.nextBatchID == nextBatchID && now.pending == pending && now.retained == retained
      && now.sealedBytes == sealedBytes && now.lost == lost
    }

    ghost predicate WireMatches()
      reads this`now, collector
    {
      now.transmissions == collector.transmissions && now.committed == collector.committed && collector.Valid()
    }

    ghost predicate OnRun()
      reads this`now, this`run
    {
      IsRun(run, settings) && |run| > 0 && run[|run| - 1] == now
    }

    /** The driver is at the last moment of a run. */
    ghost predicate Books()
      reads this`now, this`run, collector, app`numbered
      reads this`sequence, this`items, this`sizes, this`bytes, this`captured
      reads this`nextBatchID, this`pending, this`retained, this`sealedBytes, this`lost
    {
      OnRun() && BufferMatches() && OutboxMatches() && WireMatches()
    }

    /** What is pending is what is outstanding on the current connection, except
        for calls whose batch was taken back. */
    ghost predicate FlightOk()
      reads this`pending, this`orphans, pipeline, collector
    {
      && pipeline.collector == collector && client.collector == collector
      && pipeline.Valid()
      && |pending| + orphans == pipeline.inFlight <= pipeline.window
      && OnTheWire(pending, pipeline.wire)
    }

    ghost predicate Valid()
      reads this, app, collector, pipeline
    {
      Books() && FlightOk()
    }

    /** No delivering thread is part-way through anything. */
    ghost predicate AtRest()
      reads this`now
    {
      now.hand == Empty && now.unpublished == 0
    }

    /** The delivering thread holds one sealed batch that fits a frame. */
    ghost predicate Holds(batch: Batch)
      reads this`now
    {
      now.hand == Holding(batch) && now.unpublished == 0 && settings.Fits(batch.encoded)
    }

    constructor (settings: Settings, collector: Collector, app: Application, clock: Clock)
      requires collector.transmissions == [] && collector.committed == map[] && app.numbered == []
      ensures Valid() && AtRest() && run == [START] && orphans == 0
      ensures this.settings == settings && this.collector == collector && this.app == app && this.clock == clock
    {
      this.settings, this.collector, this.app, this.clock := settings, collector, app, clock;
      client := new Client(collector);
      pipeline := new Pipeline(collector, settings.maxInFlightBatches);
      sequence, items, sizes, bytes := 0, [], [], 0;
      pending, retained, failures, nextAttempt, nextBatchID := map[], [], 0, AnyTime, 0;
      sealedBytes, captured, refused, accepted, rejected, lost := 0, 0, 0, 0, 0, 0;
      now, run, orphans := START, [START], 0;
      new;
      RunStarts(settings);
    }

    ghost function Trail(): Trail
      reads this`run, this`captured, app
    {
      Left(run, captured, |app.upcoming| + |app.numbered|)
    }

    /** Records one step the code takes. */
    ghost method Record(step: Step)
      requires OnRun() && Enabled(now, step, settings)
      modifies this`run, this`now
      ensures OnRun() && now == Apply(old(now), step, settings) && old(run) <= run
    {
      hide Enabled, Apply;
      run := RunGrows(run, step, settings);
      now := run[|run| - 1];
    }

    // -------------------------------------------------------------------
    // Capture
    // -------------------------------------------------------------------

    /** The first half of `Capture`: the item gets its number and its size. */
    method CaptureNumber(event: Event) returns (numbering: Numbering)
      requires Books()
      modifies this`sequence, this`run, this`now, app`numbered
      ensures old(run) <= run && |app.numbered| <= old(|app.numbered|) + 1
      ensures Books()
      ensures now == NumberStep(old(now), event.size, numbering.Numbered?)
      ensures numbering.NoPayload? <==> !event.recordable
      ensures numbering.TooLarge? <==> event.recordable && event.size > settings.FrameRoom()
      ensures numbering.Numbered? ==> numbering.item == Item(old(sequence), event.size)
    {
      hide OnRun;
      var item := Item(sequence, event.size);
      sequence := sequence + 1;
      numbering := if !event.recordable then NoPayload
                   else if item.size > settings.FrameRoom() then TooLarge
                   else Numbered(item);
      if numbering.Numbered? {
        app.numbered := app.numbered + [item];
      }
      Record(Number(item.size, numbering.Numbered?));
    }

    /** The second half of `Capture`, under `mu`: one waiting item is buffered, or
        refused because of the unacknowledged bound. */
    method CaptureLocked(waiting: nat) returns (taken: bool)
      requires Books() && waiting < |app.numbered|
      modifies this`items, this`sizes, this`bytes, this`captured, this`refused
      modifies this`run, this`now, app`numbered
      ensures Onward(old(Trail()), Trail())
      ensures Books()
      ensures now == BufferStep(old(now), waiting, settings)
      ensures taken <==> old(bytes + app.numbered[waiting].size + sealedBytes) <= settings.maxUnacknowledgedBytes
      ensures refused == old(refused) + if taken then 0 else 1
    {
      hide OnRun;
      var item := app.numbered[waiting];
      Record(Buffer(waiting));
      app.numbered := app.numbered[..waiting] + app.numbered[waiting + 1..];
      taken := bytes + item.size + sealedBytes <= settings.maxUnacknowledgedBytes;
      if !taken {
        refused := refused + 1;
      } else {
        bytes := bytes + item.size;
        items := items + [item];
        sizes := sizes + [item.size];
        captured := captured + 1;
      }
    }

    /** How much work is left for a delivering thread that never fails. */
    ghost function Remaining(): nat
      reads this, app
    {
      |app.upcoming| + |app.numbered| + |items| + |retained|
    }

    /** Any capture steps of any other threads, in any order. */
    method Others()
      requires Books()
      modifies this`items, this`sizes, this`bytes, this`captured, this`refused, this`sequence, app
      modifies this`run, this`now
      ensures Onward(old(Trail()), Trail())
      ensures Books() && CaptureOnly(old(now), now) && old(items) <= items
      ensures Remaining() <= old(Remaining())
    {
      hide OnRun;
      var steps :| 0 <= steps;
      while steps > 0
        invariant Books() && CaptureOnly(old(now), now) && old(items) <= items
        invariant Remaining() <= old(Remaining()) && Onward(old(Trail()), Trail())
      {
        steps := steps - 1;
        var begin: bool := *;
        if begin && |app.upcoming| > 0 {
          var event := app.upcoming[0];
          app.upcoming := app.upcoming[1..];
          var numbering := CaptureNumber(event);
        } else if |app.numbered| > 0 {
          var waiting :| 0 <= waiting < |app.numbered|;
          var taken := CaptureLocked(waiting);
        }
      }
    }

    // -------------------------------------------------------------------
    // Sealing
    // -------------------------------------------------------------------

    /** The first locked section of `sealLocked`: how much of the buffer fills one
        batch. */
    method CountForBatch() returns (take: nat)
      requires BufferMatches()
      ensures FillsBatch(items, take, settings)
      ensures take == 0 <==> items == []
    {
      take := 0;
      var size := 0;
      assert items[..0] == [];
      while take < |items| && take < Max(settings.maxItems, 1)
        invariant take <= |items| && take <= settings.ItemLimit()
        invariant size == SizeOf(items[..take])
        invariant take > 1 ==> size <= settings.maxBatchBytes
      {
        SizeOfNext(items, take);
        if take > 0 && size + sizes[take] > settings.maxBatchBytes {
          break;
        }
        size := size + sizes[take];
        take := take + 1;
      }
    }

    /** The encoding loop of `sealLocked`: half of the items at a time, until the
        batch fits one frame or holds one item. */
    method EncodeToFit(id: BatchId, taken: seq<Item>) returns (frame: Frame)
      requires taken != []
      modifies clock
      ensures old(clock.now) <= clock.now
      ensures frame.batchID == id && HalvedFrom(taken, |taken|, frame, settings)
      ensures settings.Fits(frame) || |frame.items| == 1
    {
      var sealedAt := clock.Read();
      frame := Frame(id, taken, sealedAt);
      assert taken[..|taken|] == taken;
      while !settings.Fits(frame) && |frame.items| > 1
        invariant old(clock.now) <= clock.now
        invariant frame.batchID == id && HalvedFrom(taken, |taken|, frame, settings)
        decreases |frame.items|
      {
        assert taken[..|frame.items|] == frame.items;
        assert FrameOverflows(taken, |frame.items|, id, frame.sealedAt, settings);
        sealedAt := clock.Read();
        frame := Frame(id, frame.items[..|frame.items| / 2], sealedAt);
      }
    }

    ghost method RecordSeal(frame: Frame)
      requires OnRun() && AtRest()
      requires frame.batchID == now.nextBatchID && frame.items != [] && frame.items <= now.items
      requires |frame.items| > 1 ==> SizeOf(frame.items) <= settings.maxBatchBytes
      modifies this`run, this`now
      ensures old(run) <= run
      ensures OnRun() && |frame.items| <= |old(now).items|
      ensures now == SealStep(old(now), |frame.items|, frame.sealedAt)
      ensures now.hand == Holding(Batch(frame, |frame.items|, SizeOf(frame.items), 0))
      ensures now.items == old(now).items[|frame.items|..] && now.bytes == old(now).bytes - SizeOf(frame.items)
    {
      hide OnRun, SizeOf;
      assert now.items[..|frame.items|] == frame.items;
      Record(Seal(|frame.items|, frame.sealedAt));
    }

    /** The second locked section of `sealLocked`: the encoded items leave the
        buffer. */
    method RemoveFront(frame: Frame) returns (batch: Batch)
      requires Books() && AtRest()
      requires frame.batchID == nextBatchID && frame.items != [] && frame.items <= items
      requires |frame.items| > 1 ==> SizeOf(frame.items) <= settings.maxBatchBytes
      modifies this`items, this`sizes, this`bytes, this`nextBatchID, this`run, this`now
      ensures Onward(old(Trail()), Trail())
      ensures Books() && |frame.items| <= |old(now).items|
      ensures now == SealStep(old(now), |frame.items|, frame.sealedAt)
      ensures now.hand == Holding(batch) && batch.encoded == frame && batch.attempts == 0
      ensures now.unpublished == batch.bytes && batch.items == |frame.items|
      ensures items == old(items)[|frame.items|..]
    {
      hide OnRun, SizeOf;
      var take := |frame.items|;
      var size := SumOfSizes(items, sizes, take);
      assert items[..take] == frame.items;
      RecordSeal(frame);
      nextBatchID := nextBatchID + 1;
      items := items[take..];
      sizes := sizes[take..];
      bytes := bytes - size;
      batch := Batch(frame, take, size, 0);
    }

    /** What is encoded before anything leaves the buffer. */
    method EncodeFront() returns (frame: Option<Frame>, ghost seen: seq<Item>, ghost full: nat)
      requires Books()
      modifies this`items, this`sizes, this`bytes, this`captured, this`refused, this`sequence, app
      modifies this`run, this`now, clock
      ensures Onward(old(Trail()), Trail())
      ensures old(clock.now) <= clock.now
      ensures Books() && CaptureOnly(old(now), now) && Remaining() <= old(Remaining())
      ensures old(now).items == old(items) <= seen <= items == now.items && FillsBatch(seen, full, settings)
      ensures frame.None? <==> full == 0
      ensures frame.None? ==> old(items) == [] && seen == []
      ensures frame.Some? ==>
                && frame.value.batchID == nextBatchID == old(now).nextBatchID
                && HalvedFrom(seen, full, frame.value, settings)
                && (settings.Fits(frame.value) || |frame.value.items| == 1)
    {
      Onwards();
      hide OnRun, FillsBatch, HalvedFrom, Onward;
      Others();
      var take := CountForBatch();
      var taken := items[..take];
      seen, full := items, take;
      Others();
      if take == 0 {
        return None, seen, full;
      }
      var encoded := EncodeToFit(nextBatchID, taken);
      PartOfBatch(seen, full, encoded, settings);
      Others();
      return Some(encoded), seen, full;
    }

    /** The end of `sealLocked`: the batch is counted, or its one event is given
        up because it fits no frame. */
    method Publish(batch: Batch) returns (fits: bool)
      requires Books() && now.hand == Holding(batch) && now.unpublished == batch.bytes
      modifies this`sealedBytes, this`lost, this`run, this`now
      ensures Onward(old(Trail()), Trail())
      ensures Books() && fits == settings.Fits(batch.encoded)
      ensures now == if fits then PublishStep(old(now)) else NeverFitsStep(old(now))
    {
      hide OnRun;
      fits := settings.Fits(batch.encoded);
      if fits {
        Record(Step.Publish);
        sealedBytes := sealedBytes + batch.bytes;
      } else {
        Record(NeverFits);
        lost := lost + batch.items;
      }
    }

    /** One whole seal: a count and a removal under the buffer lock, and an encoding
        between them. Other threads capture before, between and after. */
    method SealLocked() returns (sealing: Sealing, ghost seen: seq<Item>, ghost full: nat)
      requires Books() && AtRest()
      modifies this`items, this`sizes, this`bytes, this`captured, this`refused, this`sequence, app
      modifies this`run, this`now, this`nextBatchID, this`sealedBytes, this`lost, clock
      ensures Onward(old(Trail()), Trail())
      ensures old(clock.now) <= clock.now
      ensures Books() && SealedFrom(old(now), now, sealing, seen, full, settings)
      ensures Remaining() <= old(Remaining())
      ensures !sealing.NothingToSeal? ==> Remaining() < old(Remaining())
    {
      Onwards();
      hide Books, FillsBatch, HalvedFrom, Onward;
      var frame;
      frame, seen, full := EncodeFront();
      if frame.None? {
        return NothingToSeal, seen, full;
      }
      PartOfBatch(seen, full, frame.value, settings);
      ghost var buffered := now.items;
      var batch := RemoveFront(frame.value);
      Others();
      var fits := Publish(batch);
      FrontAndRest(seen, buffered, frame.value.items, now.items);
      return if fits then Sealed(batch) else FitsNoFrame, seen, full;
    }

    // -------------------------------------------------------------------
    // What becomes of a batch
    // -------------------------------------------------------------------

    lemma HandIsSealed()
      requires OnRun() && now.hand.Holding?
      ensures now.hand.batch.encoded in now.sealed
    {
      RunKeeps(run, settings);
      HeldIsSealed(now, settings);
    }

    lemma PendingFits(id: nat)
      requires OnRun() && id in now.pending
      ensures settings.Fits(now.pending[id].encoded) && now.pending[id].encoded in now.transmissions
    {
      RunKeeps(run, settings);
      HeldFits(now, settings, id);
    }

    lemma RetainedFits()
      requires OnRun() && now.retained != []
      ensures settings.Fits(now.retained[0].encoded)
    {
      RunKeeps(run, settings);
      RetainedHeldFits(now, settings);
    }

    /** Gives one batch up, as refused for good or out of attempts: its bytes leave the
        bound and its items are counted. */
    method LoseLocked(batch: Batch, ghost step: Step)
      requires Books() && now.hand == Holding(batch) && now.unpublished == 0
      requires Enabled(now, step, settings) && Apply(now, step, settings) == LoseStep(now)
      modifies this`items, this`sizes, this`bytes, this`captured, this`refused, this`sequence, app
      modifies this`run, this`now, this`sealedBytes, this`lost
      ensures Onward(old(Trail()), Trail())
      ensures Books() && CaptureOnly(LoseStep(old(now)), now)
      ensures Remaining() <= old(Remaining())
    {
      hide OnRun, Enabled, Apply;
      Record(step);
      sealedBytes := sealedBytes - batch.bytes;
      lost := lost + batch.items;
      Others();
    }

    /** Makes the batch in hand the first of the held ones, charged an attempt if the
        failure is of unknown fate. The charge that uses up its attempts ends it. */
    method RetainLocked(batch: Batch, failure: Failure)
      requires Books() && Holds(batch) && failure != Rejected(false)
      requires SaysSent(failure) ==> batch.encoded in now.transmissions
      modifies this`items, this`sizes, this`bytes, this`captured, this`refused, this`sequence, app
      modifies this`run, this`now, this`sealedBytes, this`lost, this`retained
      ensures Onward(old(Trail()), Trail())
      ensures Books() && AtRest() && Returned(old(now), now, [batch], failure, settings)
      ensures |app.upcoming| + |app.numbered| + |items| <= old(|app.upcoming| + |app.numbered| + |items|)
    {
      hide OnRun, Survivors, GivenUp;
      ReturnedOne(batch, failure, settings.AttemptLimit());
      var kept := batch;
      if FateUnknown(failure) {
        kept := kept.(attempts := kept.attempts + 1);
        if kept.attempts >= Max(settings.maxBatchAttempts, 1) {
          LoseLocked(batch, Retain(failure));
          return;
        }
      }
      Record(Retain(failure));
      retained := [kept] + retained;
    }

    /** Takes one batch out of the pending map. */
    method TakeBack(id: nat) returns (batch: Batch)
      requires Books() && AtRest() && id in pending
      modifies this`run, this`now, this`pending
      ensures Onward(old(Trail()), Trail())
      ensures Books() && Holds(batch) && batch == old(pending)[id] && batch.encoded in now.transmissions
      ensures pending == old(pending) - {id} && |pending| == |old(pending)| - 1
      ensures id in old(now).pending && now == LandStep(old(now), id)
    {
      hide OnRun;
      PendingFits(id);
      batch := pending[id];
      Record(Land(id));
      assert pending.Keys == (pending - {id}).Keys + {id};
      pending := pending - {id};
    }

    /** Takes the newest batch in flight back. */
    method TakeBackNewest(failure: Failure) returns (ghost batch: Batch)
      requires Books() && AtRest() && pending != map[] && !failure.Rejected?
      modifies this`items, this`sizes, this`bytes, this`captured, this`refused, this`sequence, app
      modifies this`run, this`now, this`sealedBytes, this`lost, this`retained, this`pending
      ensures Onward(old(Trail()), Trail())
      ensures Books() && AtRest() && |pending| < |old(pending)|
      ensures FlightOrder(old(pending)) == FlightOrder(pending) + [batch]
      ensures Returned(old(now), now, [batch], failure, settings)
      ensures |app.upcoming| + |app.numbered| + |items| <= old(|app.upcoming| + |app.numbered| + |items|)
    {
      Onwards();
      hide OnRun, FlightOrder, Survivors, GivenUp, Onward;
      var id := Newest(pending.Keys);
      batch := pending[id];
      FlightOrderLast(pending, id);
      var back := TakeBack(id);
      RetainLocked(back, failure);
    }

    /** Empties what is in flight into what is held, as `Returned` says: by age, and
        before everything held already. */
    method RetainPendingLocked(failure: Failure)
      requires Books() && AtRest() && !failure.Rejected?
      modifies this`items, this`sizes, this`bytes, this`captured, this`refused, this`sequence, app
      modifies this`run, this`now, this`sealedBytes, this`lost, this`retained, this`pending
      ensures Onward(old(Trail()), Trail())
      ensures Books() && AtRest() && pending == map[]
      ensures Returned(old(now), now, FlightOrder(old(pending)), failure, settings)
      ensures |app.upcoming| + |app.numbered| + |items| <= old(|app.upcoming| + |app.numbered| + |items|)
    {
      Onwards();
      hide *;
      ghost var back: seq<Batch> := [];
      ReturnedNone(now, failure, settings);
      while pending != map[]
        invariant Books() && AtRest()
        invariant Onward(old(Trail()), Trail())
        invariant FlightOrder(pending) + back == FlightOrder(old(pending))
        invariant Returned(old(now), now, back, failure, settings)
        invariant |app.upcoming| + |app.numbered| + |items| <= old(|app.upcoming| + |app.numbered| + |items|)
        decreases |pending|
      {
        ghost var before := now;
        ghost var batch := TakeBackNewest(failure);
        ReturnedMore(old(now), before, now, batch, back, failure, settings);
        back := [batch] + back;
      }
      assert FlightOrder(pending) == [] && [] + back == back;
    }

    /** An acknowledged batch no longer counts against the bound. */
    method Release(batch: Batch)
      requires Books() && now.hand == Holding(batch) && now.unpublished == 0
      requires batch.encoded.batchID in collector.committed
      modifies this`run, this`now, this`sealedBytes
      ensures Onward(old(Trail()), Trail())
      ensures Books() && now == AckStep(old(now))
    {
      hide OnRun;
      Record(Ack);
      sealedBytes := sealedBytes - batch.bytes;
    }

    method AckedLocked(batch: Batch, receipt: Receipt)
      requires Books() && now.hand == Holding(batch) && now.unpublished == 0
      requires batch.encoded.batchID in collector.committed
      modifies this`items, this`sizes, this`bytes, this`captured, this`refused, this`sequence, app
      modifies this`run, this`now, this`sealedBytes, this`accepted, this`rejected, this`failures, this`nextAttempt
      ensures Onward(old(Trail()), Trail())
      ensures Books() && CaptureOnly(AckStep(old(now)), now)
      ensures accepted == old(accepted) + receipt.accepted && rejected == old(rejected) + |receipt.rejected|
      ensures failures == 0 && nextAttempt == AnyTime
      ensures Remaining() <= old(Remaining()) && old(items) <= items
    {
      Onwards();
      hide Books, Onward, CaptureOnly, AckStep;
      Release(batch);
      accepted := accepted + receipt.accepted;
      rejected := rejected + |receipt.rejected|;
      failures := 0;
      nextAttempt := AnyTime;
      Others();
    }

    /** One more failure in a row. No attempt is made before half the wait that belongs
        to it is over, and one may be made once all of it is. */
    method BackoffLocked()
      requires Books()
      modifies this`failures, this`nextAttempt, clock
      ensures old(clock.now) <= clock.now
      ensures Books() && failures == old(failures) + 1
      ensures nextAttempt.NotBefore?
      ensures var wait := Backoff(settings, failures);
              && clock.now + wait / 2 <= nextAttempt.at <= clock.now + wait
              && (wait >= 2 ==> nextAttempt.at > clock.now)
    {
      hide Books;
      failures := failures + 1;
      var wait := BackoffWait(settings, failures);
      var time := clock.Read();
      var chance :| 0 <= chance <= wait / 2;
      nextAttempt := NotBefore(time + wait / 2 + chance);
    }

    /** How long is left before the next attempt may run. */
    method WaitingLocked() returns (wait: Option<int>)
      modifies clock
      ensures old(clock.now) <= clock.now
      ensures wait.Some? ==> wait.value > 0
      ensures wait.Some? <==> nextAttempt.NotBefore? && nextAttempt.at > clock.now
    {
      var time := clock.Read();
      if nextAttempt.NotBefore? && nextAttempt.at - time > 0 {
        return Some(nextAttempt.at - time);
      }
      return None;
    }

    /** Turns an answer into its `Verdict` and moves the batch in hand accordingly. */
    method SettleLocked(batch: Batch, answer: Answer) returns (settled: Settled)
      requires Books() && Holds(batch) && batch.encoded in now.transmissions
      requires answer.Committed? ==> batch.encoded.batchID in collector.committed
      modifies this`items, this`sizes, this`bytes, this`captured, this`refused, this`sequence, app
      modifies this`run, this`now, this`sealedBytes, this`lost, this`retained
      modifies this`accepted, this`rejected, this`failures, this`nextAttempt, clock
      ensures Onward(old(Trail()), Trail())
      ensures old(clock.now) <= clock.now
      ensures Books() && AtRest() && Outcome(old(now), now, batch, settled, settings)
      ensures settled == Verdict(batch, answer)
      ensures accepted == old(accepted) + if settled.Settled? then settled.receipt.accepted else 0
      ensures rejected == old(rejected) + if settled.Settled? then |settled.receipt.rejected| else 0
      ensures settled.Settled? ==> failures == 0 && nextAttempt == AnyTime
      ensures settled.Unsettled? && answer != Refused(false) ==>
                failures == old(failures) + 1 && nextAttempt.NotBefore?
      ensures settled.Settled? ==>
                Remaining() <= old(Remaining()) && old(items) <= items && retained == old(retained)
    {
      Onwards();
      hide Books, Survivors, GivenUp, Onward;
      settled := Verdict(batch, answer);
      if answer.Committed? {
        AckedLocked(batch, settled.receipt);
      } else if answer == Refused(false) {
        LoseLocked(batch, Lose);
      } else {
        RetainLocked(batch, settled.error.failure);
        BackoffLocked();
      }
    }

    // -------------------------------------------------------------------
    // Delivery
    // -------------------------------------------------------------------

    /** Records what the network did with a frame. */
    ghost method Carried(frame: Frame)
      requires OnRun() && BufferMatches() && OutboxMatches()
      requires collector.Valid() && frame in now.sealed && settings.Fits(frame)
      requires forall f | f in collector.transmissions :: f in now.transmissions || f == frame
      requires forall f | f in now.transmissions :: f in collector.transmissions
      requires forall id | id in now.committed :: id in collector.committed && collector.committed[id] == now.committed[id]
      modifies this`run, this`now
      ensures old(run) <= run
      ensures Books()
      ensures now == NetworkStep(old(now), collector.transmissions, collector.committed)
    {
      hide OnRun;
      Record(Carry(collector.transmissions, collector.committed));
    }

    /** Records what the collector committed meanwhile. */
    ghost method Committed()
      requires OnRun() && BufferMatches() && OutboxMatches()
      requires collector.Valid() && collector.transmissions == now.transmissions
      requires forall id | id in now.committed :: id in collector.committed && collector.committed[id] == now.committed[id]
      modifies this`run, this`now
      ensures old(run) <= run
      ensures Books()
      ensures now == NetworkStep(old(now), collector.transmissions, collector.committed)
    {
      hide OnRun;
      Record(Carry(collector.transmissions, collector.committed));
    }

    /** Hands the batch in hand to the client and records what left. */
    method ClientCall(batch: Batch) returns (called: Called)
      requires Valid() && Holds(batch)
      modifies this`run, this`now, client, collector
      ensures Onward(old(Trail()), Trail())
      ensures Valid() && Holds(batch)
      ensures now == NetworkStep(old(now), now.transmissions, now.committed)
      ensures called.Answered? && called.answer.Committed? ==> batch.encoded.batchID in collector.committed
      ensures OnlySent(old(collector.transmissions), collector.transmissions, batch.encoded)
      ensures called.Answered? ==> |collector.transmissions| > old(|collector.transmissions|)
      ensures called.Failed? ==>
                && !called.failure.Rejected?
                && FateIsTold(called.failure, batch.encoded, old(collector.transmissions), collector.transmissions)
      ensures called.Answered? || SaysSent(called.failure) ==> batch.encoded in now.transmissions
    {
      hide OnRun, BufferMatches, OutboxMatches, Apply, Enabled, OnlySent, OnTheWire, FateIsTold, SaysSent;
      HandIsSealed();
      called := client.Call(batch.encoded);
      CallIsTold(called, batch.encoded, old(collector.transmissions), collector.transmissions);
      SentIsOn(old(collector.transmissions), collector.transmissions, batch.encoded);
      Carried(batch.encoded);
    }

    /** One call for one batch, and what becomes of the batch. Nothing but its frame
        leaves, and it leaves exactly if there is an answer or the failure is one of a
        call that was sent. */
    method CallLocked(batch: Batch) returns (settled: Settled)
      requires Valid() && Holds(batch)
      modifies this`items, this`sizes, this`bytes, this`captured, this`refused, this`sequence, app
      modifies this`run, this`now, this`sealedBytes, this`lost, this`retained
      modifies this`accepted, this`rejected, this`failures, this`nextAttempt, clock, client, collector
      ensures Onward(old(Trail()), Trail())
      ensures old(clock.now) <= clock.now
      ensures Valid() && AtRest() && Outcome(old(now), now, batch, settled, settings)
      ensures accepted == old(accepted) + if settled.Settled? then settled.receipt.accepted else 0
      ensures rejected == old(rejected) + if settled.Settled? then |settled.receipt.rejected| else 0
      ensures settled.Settled? ==>
                Remaining() <= old(Remaining()) && old(items) <= items && retained == old(retained)
      ensures Receipted(old(now).acked, now.acked, ReceiptsOf(settled))
      ensures settled.Settled? ==> now.lostLog == old(now).lostLog
      ensures settled.Unsettled? ==> settled.error.CallFailed?
      ensures OnlySent(old(collector.transmissions), collector.transmissions, batch.encoded)
      ensures settled.Settled? ==> |collector.transmissions| > old(|collector.transmissions|)
      ensures settled.Unsettled? ==>
                FateIsTold(settled.error.failure, batch.encoded, old(collector.transmissions), collector.transmissions)
    {
      Onwards();
      hide Books, FlightOk, Outcome, Returned, Apply, Enabled, Receipted, Onward, OnlySent;
      var called := ClientCall(batch);
      ghost var sent := now;
      if called.Failed? {
        RetainLocked(batch, called.failure);
        BackoffLocked();
        settled := Unsettled(CallFailed(called.failure));
        ReturnedIsOutcome(sent, now, batch, called.failure, settings);
      } else {
        settled := SettleLocked(batch, called.answer);
      }
      OutcomeOfCarried(old(now), sent, now, batch, settled, settings);
      OutcomeReceipts(old(now), now, batch, settled, settings);
    }

    /** What to send next: the first of the held batches, and only when there is none a
        batch newly sealed. */
    method NextBatchLocked() returns (next: Next)
      requires Books() && AtRest()
      modifies this`items, this`sizes, this`bytes, this`captured, this`refused, this`sequence, app
      modifies this`run, this`now, this`nextBatchID, this`sealedBytes, this`lost, this`retained, clock
      ensures Onward(old(Trail()), Trail())
      ensures old(clock.now) <= clock.now
      ensures Books() && NextFrom(old(now), now, next, settings)
      ensures next.NoBatch? ==> old(retained) == [] && old(items) == []
      ensures next.NextFailed? ==> next.error == EventTooLarge
      ensures !next.NoBatch? ==> Remaining() < old(Remaining())
      ensures Remaining() <= old(Remaining())
    {
      hide OnRun, FillsBatch, HalvedFrom;
      if |retained| > 0 {
        RetainedFits();
        var batch := retained[0];
        Record(Resume);
        retained := retained[1..];
        return Ready(batch);
      }
      ghost var seen, full;
      var sealing;
      sealing, seen, full := SealLocked();
      next := match sealing
              case NothingToSeal => NoBatch
              case Sealed(batch) => Ready(batch)
              case FitsNoFrame => NextFailed(EventTooLarge);
    }

    /** Hands the batch in hand to the pipeline and records what left. */
    method PipelineSend(batch: Batch) returns (sent: Sent)
      requires Valid() && Holds(batch) && pipeline.HasRoom()
      modifies this`run, this`now, pipeline, collector
      ensures Onward(old(Trail()), Trail())
      ensures Books() && Holds(batch)
      ensures now == NetworkStep(old(now), now.transmissions, now.committed)
      ensures pipeline.collector == collector && client.collector == collector && pipeline.Valid()
      ensures OnlySent(old(collector.transmissions), collector.transmissions, batch.encoded)
      ensures sent.SentAs? ==>
                && |collector.transmissions| == old(|collector.transmissions|) + 1
                && pipeline.inFlight == old(pipeline.inFlight) + 1
                && sent.id == old(pipeline.nextID)
                && pipeline.wire == old(pipeline.wire)[sent.id := batch.encoded]
                && forall id | id in pending :: id < sent.id
      ensures sent.NotSent? ==>
                && !sent.failure.Rejected?
                && FateIsTold(sent.failure, batch.encoded, old(collector.transmissions), collector.transmissions)
                && pipeline.inFlight == (if sent.failure.EncodeFailed? then old(pipeline.inFlight) else 0)
      ensures sent.SentAs? || SaysSent(sent.failure) ==> batch.encoded in now.transmissions
    {
      hide OnRun, BufferMatches, OutboxMatches, Apply, Enabled;
      HandIsSealed();
      sent := pipeline.Send(batch.encoded);
      SentIsOn(old(collector.transmissions), collector.transmissions, batch.encoded);
      hide OnlySent;
      Carried(batch.encoded);
    }

    /** Leaves a batch with the connection that carries it. */
    method Launch(batch: Batch, id: nat)
      requires Books() && Holds(batch) && batch.encoded in now.transmissions
      requires forall other | other in pending :: other < id
      modifies this`run, this`now, this`pending
      ensures Onward(old(Trail()), Trail())
      ensures Books() && AtRest() && id !in old(pending)
      ensures pending == old(pending)[id := batch] && |pending| == |old(pending)| + 1
      ensures now == LaunchStep(old(now), id)
    {
      hide OnRun, Enabled, Apply;
      LaunchIs(now, id, settings);
      OneMorePending(pending, id, batch);
      Record(Step.Launch(id));
      pending := pending[id := batch];
    }

    /** Holds a batch whose send failed and every batch in flight with it. */
    method TakeEverythingBack(batch: Batch, failure: Failure)
      requires Books() && Holds(batch) && !failure.Rejected?
      requires SaysSent(failure) ==> batch.encoded in now.transmissions
      modifies this`items, this`sizes, this`bytes, this`captured, this`refused, this`sequence, app
      modifies this`run, this`now, this`sealedBytes, this`lost, this`retained, this`pending
      ensures Onward(old(Trail()), Trail())
      ensures Books() && AtRest() && pending == map[]
      ensures Returned(old(now), now, FlightOrder(old(pending)) + [batch], failure, settings)
    {
      Onwards();
      hide Books, Returned, Onward;
      RetainLocked(batch, failure);
      ghost var held := now;
      RetainPendingLocked(failure);
      ReturnedChain(old(now), held, now, FlightOrder(old(pending)), batch, failure, settings);
    }

    /** A send failed. What is still outstanding is outstanding for nobody. */
    method SendFailed(batch: Batch, failure: Failure, ghost before: Ledger)
      requires now == NetworkStep(before, now.transmissions, now.committed)
      requires Books() && Holds(batch) && !failure.Rejected?
      requires SaysSent(failure) ==> batch.encoded in now.transmissions
      requires pipeline.collector == collector && client.collector == collector && pipeline.Valid()
      requires pipeline.inFlight <= pipeline.window
      modifies this`items, this`sizes, this`bytes, this`captured, this`refused, this`sequence, app
      modifies this`run, this`now, this`sealedBytes, this`lost, this`retained, this`pending, this`orphans
      modifies this`failures, this`nextAttempt, clock
      ensures Onward(old(Trail()), Trail())
      ensures Valid() && AtRest() && pending == map[] && orphans == pipeline.inFlight
      ensures Returned(before, now, FlightOrder(old(pending)) + [batch], failure, settings)
      ensures now.acked == before.acked
    {
      Onwards();
      hide Books, Returned, OnTheWire, Pipeline.Valid, FlightOrder, Onward;
      TakeEverythingBack(batch, failure);
      ReturnedOfCarried(before, old(now), now, FlightOrder(old(pending)) + [batch], failure, settings);
      ReturnedKeepsAcked(before, now, FlightOrder(old(pending)) + [batch], failure, settings);
      OnTheWireGrows(map[], pipeline.wire, 0, batch);
      orphans := pipeline.inFlight;
      BackoffLocked();
    }

    /** Adds one batch to what is in flight. If that fails nothing stays there: what was
        in flight, by age, and then the batch are held or given up. A request that did
        not encode leaves its connection open, and all calls on it without a batch. */
    method SendLocked(batch: Batch) returns (failure: Option<Failure>)
      requires Valid() && Holds(batch) && pipeline.HasRoom()
      modifies this`items, this`sizes, this`bytes, this`captured, this`refused, this`sequence, app
      modifies this`run, this`now, this`sealedBytes, this`lost, this`retained, this`pending, this`orphans
      modifies this`failures, this`nextAttempt, clock, pipeline, collector
      ensures Onward(old(Trail()), Trail())
      ensures Valid() && AtRest()
      ensures OnlySent(old(collector.transmissions), collector.transmissions, batch.encoded)
      ensures failure.None? ==>
                && |collector.transmissions| == old(|collector.transmissions|) + 1
                && |pending| == |old(pending)| + 1 && orphans == old(orphans) && Remaining() == old(Remaining())
                && FlightOrder(pending) == FlightOrder(old(pending)) + [batch]
                && now.sealed == old(now.sealed) && now.acked == old(now.acked)
                && now.lostLog == old(now.lostLog) && now.retained == old(now.retained)
      ensures failure.Some? ==>
                && pending == map[]
                && Returned(old(now), now, FlightOrder(old(pending)) + [batch], failure.value, settings)
                && FateIsTold(failure.value, batch.encoded, old(collector.transmissions), collector.transmissions)
                && orphans == (if failure.value.EncodeFailed? then old(pipeline.inFlight) else 0)
      ensures now.acked == old(now).acked
    {
      Onwards();
      hide Books, Returned, FateIsTold, OnTheWire, Pipeline.Valid, FlightOrder, Receipted, Onward, OnlySent;
      OnTheWireGrows(pending, pipeline.wire, pipeline.nextID, batch);
      var sent := PipelineSend(batch);
      if sent.SentAs? {
        FlightOrderAppend(pending, sent.id, batch);
        Launch(batch, sent.id);
        return None;
      }
      SendFailed(batch, sent.failure, old(now));
      return Some(sent.failure);
    }

    /** Waits for the next reply on the pipelined path. */
    method PipelineRecv() returns (received: Received)
      requires Valid() && AtRest()
      modifies this`run, this`now, pipeline, collector
      ensures Onward(old(Trail()), Trail())
      ensures Books() && AtRest()
      ensures now == NetworkStep(old(now), now.transmissions, now.committed)
      ensures pipeline.collector == collector && client.collector == collector && pipeline.Valid()
      ensures received.Nothing? <==> old(pipeline.inFlight) == 0
      ensures received.Nothing? ==>
                pipeline.inFlight == old(pipeline.inFlight) && pipeline.wire == old(pipeline.wire)
      ensures received.Broken? ==>
                pipeline.inFlight == 0 && (received.failure.Lost? || received.failure.Unreadable?)
      ensures received.Reply? ==>
                && pipeline.inFlight == old(pipeline.inFlight) - 1 && pipeline.wire == old(pipeline.wire)
                && (received.answer.Committed? && received.id in pipeline.wire ==>
                      pipeline.wire[received.id].batchID in collector.committed)
    {
      hide OnRun, BufferMatches, OutboxMatches;
      received := pipeline.Recv();
      Committed();
    }

    /** Waits for the next reply and gives up the connection when the reply answers
        no call this driver made. */
    method NextReply() returns (received: Received)
      requires Valid() && AtRest()
      modifies this`run, this`now, pipeline, collector
      ensures Onward(old(Trail()), Trail())
      ensures Books() && AtRest()
      ensures now == NetworkStep(old(now), now.transmissions, now.committed)
      ensures pipeline.collector == collector && client.collector == collector && pipeline.Valid()
      ensures received.Nothing? <==> old(pipeline.inFlight) == 0
      ensures received.Nothing? ==>
                pipeline.inFlight == old(pipeline.inFlight) && pipeline.wire == old(pipeline.wire)
      ensures received.Broken? ==> pipeline.inFlight == 0 && FateUnknown(received.failure)
      ensures received.Reply? ==>
                && received.id in pending
                && pipeline.inFlight == old(pipeline.inFlight) - 1 && pipeline.wire == old(pipeline.wire)
                && (received.answer.Committed? && received.id in pipeline.wire ==>
                      pipeline.wire[received.id].batchID in collector.committed)
    {
      Onwards();
      hide Books, OnTheWire, Onward;
      received := PipelineRecv();
      if received.Reply? && received.id !in pending {
        pipeline.Reset();
        received := Broken(Foreign);
      }
    }

    /** Nothing is outstanding any more, so nothing may stay in flight. */
    method LoseConnection(failure: Failure, ghost before: Ledger)
      requires now == NetworkStep(before, now.transmissions, now.committed)
      requires Books() && AtRest()
      requires pipeline.collector == collector && client.collector == collector && pipeline.Valid()
      requires pipeline.inFlight == 0 && !failure.Rejected?
      modifies this`items, this`sizes, this`bytes, this`captured, this`refused, this`sequence, app
      modifies this`run, this`now, this`sealedBytes, this`lost, this`retained, this`pending, this`orphans
      modifies this`failures, this`nextAttempt, clock
      ensures Onward(old(Trail()), Trail())
      ensures old(clock.now) <= clock.now
      ensures Valid() && AtRest() && pending == map[] && orphans == 0
      ensures Returned(before, now, FlightOrder(old(pending)), failure, settings)
      ensures now.acked == before.acked
    {
      Onwards();
      hide Books, Returned, OnTheWire, Pipeline.Valid, FlightOrder, Onward;
      RetainPendingLocked(failure);
      ReturnedOfCarried(before, old(now), now, FlightOrder(old(pending)), failure, settings);
      OnTheWireGrows(map[], pipeline.wire, 0, Batch(Frame(0, [], 0), 0, 0, 0));
      orphans := 0;
      BackoffLocked();
      ReturnedKeepsAcked(before, now, FlightOrder(old(pending)), failure, settings);
    }

    /** Settles the batch that one reply answers. */
    method SettlePending(id: nat, answer: Answer, ghost before: Ledger) returns (settled: Settled)
      requires now == NetworkStep(before, now.transmissions, now.committed)
      requires Books() && AtRest() && id in pending && OnTheWire(pending, pipeline.wire)
      requires answer.Committed? && id in pipeline.wire ==> pipeline.wire[id].batchID in collector.committed
      modifies this`items, this`sizes, this`bytes, this`captured, this`refused, this`sequence, app
      modifies this`run, this`now, this`sealedBytes, this`lost, this`retained, this`pending
      modifies this`accepted, this`rejected, this`failures, this`nextAttempt, clock
      ensures Onward(old(Trail()), Trail())
      ensures old(clock.now) <= clock.now
      ensures Books() && AtRest() && OnTheWire(pending, pipeline.wire)
      ensures pending == old(pending) - {id} && |pending| == |old(pending)| - 1
      ensures Outcome(before, now, old(pending)[id], settled, settings)
      ensures Receipted(before.acked, now.acked, ReceiptsOf(settled))
      ensures settled.Settled? ==> now.lostLog == before.lostLog
      ensures settled.Unsettled? ==> settled.error.CallFailed?
      ensures settled.Settled? ==>
                Remaining() <= old(Remaining()) && old(items) <= items && retained == old(retained)
    {
      Onwards();
      hide Books, Returned, Outcome, Receipted, Onward;
      OnTheWireShrinks(pending, pipeline.wire, id);
      var batch := TakeBack(id);
      ghost var landed := now;
      settled := SettleLocked(batch, answer);
      OutcomeOfLanded(before, old(now), landed, now, id, batch, settled, settings);
      OutcomeReceipts(before, now, batch, settled, settings);
    }

    /** Takes one reply in. It settles the batch it names and no other; a reply that
        names none, or none that can be read, costs the connection and takes everything
        in flight back. `answered` is the call that was named. */
    method CollectOneLocked() returns (settled: Settled, ghost answered: Option<nat>)
      requires Valid() && AtRest()
      modifies this`items, this`sizes, this`bytes, this`captured, this`refused, this`sequence, app
      modifies this`run, this`now, this`sealedBytes, this`lost, this`retained, this`pending, this`orphans
      modifies this`accepted, this`rejected, this`failures, this`nextAttempt, clock, pipeline, collector
      ensures Onward(old(Trail()), Trail())
      ensures old(clock.now) <= clock.now
      ensures Valid() && AtRest()
      ensures Receipted(old(now).acked, now.acked, ReceiptsOf(settled))
      ensures settled.Settled? ==> now.lostLog == old(now).lostLog
      ensures settled == Unsettled(NoBatchWaiting) <==> old(pipeline.inFlight) == 0
      ensures settled == Unsettled(NoBatchWaiting) ==>
                pending == old(pending) && orphans == old(orphans) && answered.None?
      ensures settled.Settled? ==>
                && answered.Some? && pipeline.inFlight == old(pipeline.inFlight) - 1
                && Remaining() <= old(Remaining()) && old(items) <= items && retained == old(retained)
      ensures answered.Some? ==>
                && answered.value in old(pending) && pending == old(pending) - {answered.value}
                && |pending| == |old(pending)| - 1 && orphans == old(orphans)
                && pipeline.inFlight == old(pipeline.inFlight) - 1
                && Outcome(old(now), now, old(pending)[answered.value], settled, settings)
      ensures settled.Unsettled? ==> settled.error == NoBatchWaiting || settled.error.CallFailed?
      ensures answered.None? && settled != Unsettled(NoBatchWaiting) ==>
                && settled.Unsettled? && pending == map[] && orphans == 0
                && settled.error.CallFailed? && FateUnknown(settled.error.failure)
                && Returned(old(now), now, FlightOrder(old(pending)), settled.error.failure, settings)
    {
      Onwards();
      NothingReceipted(now.acked);
      hide Books, Returned, Outcome, OnTheWire, Pipeline.Valid, FlightOrder, Verdict, AtRest, Receipted, Onward;
      var received := NextReply();
      match received {
        case Nothing =>
          return Unsettled(NoBatchWaiting), None;
        case Broken(failure) =>
          LoseConnection(failure, old(now));
          return Unsettled(CallFailed(failure)), None;
        case Reply(id, answer) =>
          settled := SettlePending(id, answer, old(now));
          return settled, Some(id);
      }
    }

    /** Takes the next batch, sends it and waits for its acknowledgement. */
    method CallNext() returns (settled: Settled)
      requires Valid() && AtRest() && !(retained == [] && items == [])
      modifies this`items, this`sizes, this`bytes, this`captured, this`refused, this`sequence, app
      modifies this`run, this`now, this`sealedBytes, this`lost, this`retained, this`nextBatchID
      modifies this`accepted, this`rejected, this`failures, this`nextAttempt, clock, client, collector
      ensures Onward(old(Trail()), Trail()) && old(clock.now) <= clock.now
      ensures Valid() && AtRest() && Receipted(old(now).acked, now.acked, ReceiptsOf(settled))
      ensures accepted == old(accepted) + if settled.Settled? then settled.receipt.accepted else 0
      ensures settled.Settled? ==> Remaining() < old(Remaining()) && now.lostLog == old(now).lostLog
      ensures settled.Unsettled? ==> settled.error == EventTooLarge || settled.error.CallFailed?
    {
      Onwards();
      NothingReceipted(now.acked);
      hide Books, FlightOk, Outcome, Receipted, Onward;
      var next := NextBatchLocked();
      match next {
        case NoBatch =>
          // Something is held or buffered, and no other thread takes it away: the
          // test for a missing batch never succeeds.
          assert false;
        case NextFailed(failed) =>
          return Unsettled(failed);
        case Ready(batch) =>
          settled := CallLocked(batch);
      }
    }

    /** Call after call until buffer and held list are both empty, a wait is open or a
        call fails. */
    method FlushLocked() returns (receipt: Option<Receipt>, error: Option<DeliveryError>, ghost receipts: seq<Receipt>)
      requires Valid() && AtRest()
      modifies this`items, this`sizes, this`bytes, this`captured, this`refused, this`sequence, app
      modifies this`run, this`now, this`sealedBytes, this`lost, this`retained, this`nextBatchID
      modifies this`accepted, this`rejected, this`failures, this`nextAttempt, clock, client, collector
      ensures Onward(old(Trail()), Trail())
      ensures old(clock.now) <= clock.now
      ensures Valid() && AtRest()
      ensures error.None? ==> retained == [] && items == [] && now.lostLog == old(now).lostLog
      ensures error.Some? && error.value.RetryLater? ==> error.value.wait > 0
      ensures accepted == old(accepted) + Accepted(receipt)
      ensures error.Some? ==> !error.value.NoBatchWaiting?
      ensures Receipted(old(now).acked, now.acked, receipts) && receipt == MergeAll(receipts)
    {
      Onwards();
      receipt, receipts := None, [];
      NothingReceipted(now.acked);
      hide Books, FlightOk, Outcome, Receipted, Onward;
      while true
        invariant old(clock.now) <= clock.now
        invariant Books() && FlightOk() && AtRest() && now.lostLog == old(now).lostLog
        invariant Onward(old(Trail()), Trail())
        invariant accepted == old(accepted) + Accepted(receipt)
        invariant Receipted(old(now).acked, now.acked, receipts) && receipt == MergeAll(receipts)
        decreases Remaining()
      {
        Others();
        if |retained| == 0 && |items| == 0 {
          return receipt, None, receipts;
        }
        var wait := WaitingLocked();
        if wait.Some? {
          return receipt, Some(RetryLater(wait.value)), receipts;
        }
        ghost var before := now.acked;
        var settled := CallNext();
        ReceiptedMore(old(now).acked, before, now.acked, receipts, ReceiptsOf(settled));
        if settled.Unsettled? {
          assert receipts + [] == receipts;
          return receipt, Some(settled.error), receipts;
        }
        assert (receipts + [settled.receipt])[..|receipts|] == receipts;
        receipts := receipts + [settled.receipt];
        receipt := Some(Merge(receipt, settled.receipt));
      }
    }

    /** Everything captured before a call, after it: in one place each, whatever failed
        meanwhile. */
    lemma CallConserves(earlier: seq<Ledger>)
      requires Books() && |earlier| > 0 && earlier <= run
      ensures Conserved(earlier[|earlier| - 1], now)
    {
      hide IsRun, Conserved;
      ExtendingConserves(earlier, run, settings);
    }

    /** `Flush`: sends what is held and what is buffered, one call at a time. */
    method Flush() returns (receipt: Option<Receipt>, error: Option<DeliveryError>, ghost receipts: seq<Receipt>)
      requires Valid() && AtRest()
      modifies this`items, this`sizes, this`bytes, this`captured, this`refused, this`sequence, app
      modifies this`run, this`now, this`sealedBytes, this`lost, this`retained, this`nextBatchID
      modifies this`accepted, this`rejected, this`failures, this`nextAttempt, clock, client, collector
      ensures Valid() && AtRest() && Onward(old(Trail()), Trail())
      ensures Conserved(old(now), now)
      ensures error.None? ==> retained == [] && items == [] && now.lostLog == old(now).lostLog
      ensures error.Some? ==> !error.value.NoBatchWaiting?
      ensures Receipted(old(now).acked, now.acked, receipts) && receipt == MergeAll(receipts)
    {
      hide Conserved, IsRun, FlightOk;
      receipt, error, receipts := FlushLocked();
      CallConserves(old(run));
    }

    /** Makes room in the window: collects receipts until another call fits. */
    method MakeRoom() returns (receipts: seq<Receipt>, error: Option<DeliveryError>)
      requires Valid() && AtRest()
      modifies this`items, this`sizes, this`bytes, this`captured, this`refused, this`sequence, app
      modifies this`run, this`now, this`sealedBytes, this`lost, this`retained, this`pending, this`orphans
      modifies this`accepted, this`rejected, this`failures, this`nextAttempt, clock, pipeline, collector
      ensures Onward(old(Trail()), Trail())
      ensures Valid() && AtRest()
      ensures error.None? ==>
                && pipeline.HasRoom() && Remaining() <= old(Remaining())
                && old(items) <= items && retained == old(retained) && now.lostLog == old(now).lostLog
      ensures error.Some? ==> error.value.CallFailed?
      ensures orphans <= old(orphans)
      ensures Receipted(old(now).acked, now.acked, receipts)
    {
      Onwards();
      NothingReceipted(now.acked);
      hide Books, Returned, Outcome, OnTheWire, FlightOrder, Receipted, Onward;
      receipts := [];
      while !pipeline.HasRoom()
        invariant Books() && FlightOk() && AtRest() && now.lostLog == old(now).lostLog
        invariant Onward(old(Trail()), Trail()) && orphans <= old(orphans)
        invariant Remaining() <= old(Remaining()) && old(items) <= items && retained == old(retained)
        invariant Receipted(old(now).acked, now.acked, receipts)
        decreases pipeline.inFlight
      {
        ghost var before := now.acked;
        var settled;
        ghost var answered;
        settled, answered := CollectOneLocked();
        ReceiptedMore(old(now).acked, before, now.acked, receipts, ReceiptsOf(settled));
        if settled.Unsettled? {
          assert receipts + [] == receipts;
          return receipts, Some(settled.error);
        }
        receipts := receipts + [settled.receipt];
      }
      return receipts, None;
    }

    /** Takes the next batch and sends it. */
    method SendNext() returns (error: Option<DeliveryError>)
      requires Valid() && AtRest() && pipeline.HasRoom() && !(retained == [] && items == [])
      modifies this`items, this`sizes, this`bytes, this`captured, this`refused, this`sequence, app
      modifies this`run, this`now, this`sealedBytes, this`lost, this`retained, this`pending, this`orphans
      modifies this`nextBatchID, this`failures, this`nextAttempt, clock, pipeline, collector
      ensures Onward(old(Trail()), Trail())
      ensures Valid() && AtRest() && now.acked == old(now).acked
      ensures error.None? ==> Remaining() < old(Remaining()) && now.lostLog == old(now).lostLog
      ensures error.Some? ==> !error.value.NoBatchWaiting?
      ensures error != Some(CallFailed(EncodeFailed)) ==> orphans <= old(orphans)
    {
      Onwards();
      hide Books, FlightOk, Returned, FateIsTold, FlightOrder, Onward;
      var next := NextBatchLocked();
      match next {
        case NoBatch =>
          // Something is held or buffered, and no other thread takes it away: the
          // test for a missing batch never succeeds.
          assert false;
        case NextFailed(failed) =>
          return Some(failed);
        case Ready(batch) =>
          var failure := SendLocked(batch);
          return if failure.Some? then Some(CallFailed(failure.value)) else None;
      }
    }

    /** Send after send, taking replies in only when the window is full. */
    method SubmitLocked() returns (receipts: seq<Receipt>, error: Option<DeliveryError>)
      requires Valid() && AtRest()
      modifies this`items, this`sizes, this`bytes, this`captured, this`refused, this`sequence, app
      modifies this`run, this`now, this`sealedBytes, this`lost, this`retained, this`pending, this`orphans
      modifies this`nextBatchID
      modifies this`accepted, this`rejected, this`failures, this`nextAttempt, clock, pipeline, collector
      ensures Onward(old(Trail()), Trail())
      ensures Valid() && AtRest()
      ensures error.None? ==> retained == [] && items == [] && now.lostLog == old(now).lostLog
      ensures error.Some? ==> !error.value.NoBatchWaiting?
      ensures error != Some(CallFailed(EncodeFailed)) ==> orphans <= old(orphans)
      ensures Receipted(old(now).acked, now.acked, receipts)
    {
      Onwards();
      NothingReceipted(now.acked);
      hide Books, FlightOk, Returned, FateIsTold, FlightOrder, Receipted, Onward;
      receipts := [];
      while true
        invariant Books() && FlightOk() && AtRest() && now.lostLog == old(now).lostLog
        invariant Onward(old(Trail()), Trail()) && orphans <= old(orphans)
        invariant Receipted(old(now).acked, now.acked, receipts)
        decreases Remaining()
      {
        Others();
        if |retained| == 0 && |items| == 0 {
          return receipts, None;
        }
        var wait := WaitingLocked();
        if wait.Some? {
          return receipts, Some(RetryLater(wait.value));
        }
        ghost var before := now.acked;
        var collected, failed := MakeRoom();
        ReceiptedMore(old(now).acked, before, now.acked, receipts, collected);
        receipts := receipts + collected;
        if failed.Some? {
          return receipts, failed;
        }
        var stopped := SendNext();
        if stopped.Some? {
          return receipts, stopped;
        }
      }
    }

    /** Reply after reply until nothing is in flight or one of them is a failure. */
    method DrainLocked() returns (receipts: seq<Receipt>, error: Option<DeliveryError>)
      requires Valid() && AtRest()
      modifies this`items, this`sizes, this`bytes, this`captured, this`refused, this`sequence, app
      modifies this`run, this`now, this`sealedBytes, this`lost, this`retained, this`pending, this`orphans
      modifies this`accepted, this`rejected, this`failures, this`nextAttempt, clock, pipeline, collector
      ensures Onward(old(Trail()), Trail())
      ensures old(clock.now) <= clock.now
      ensures Valid() && AtRest()
      ensures error.None? ==> pending == map[] && now.lostLog == old(now).lostLog
      ensures error.Some? ==> error.value.CallFailed?
      ensures |receipts| <= |old(pending)| && orphans <= old(orphans)
      ensures Receipted(old(now).acked, now.acked, receipts)
    {
      Onwards();
      NothingReceipted(now.acked);
      hide Books, Returned, Outcome, OnTheWire, Pipeline.Valid, FlightOrder, Receipted, Onward;
      receipts := [];
      while |pending| > 0
        invariant old(clock.now) <= clock.now
        invariant Books() && FlightOk() && AtRest() && now.lostLog == old(now).lostLog
        invariant Onward(old(Trail()), Trail()) && orphans <= old(orphans)
        invariant |receipts| + |pending| == |old(pending)|
        invariant Receipted(old(now).acked, now.acked, receipts)
        decreases |pending|
      {
        ghost var before := now.acked;
        var settled;
        ghost var answered;
        settled, answered := CollectOneLocked();
        ReceiptedMore(old(now).acked, before, now.acked, receipts, ReceiptsOf(settled));
        if settled.Unsettled? {
          assert receipts + [] == receipts;
          return receipts, Some(settled.error);
        }
        receipts := receipts + [settled.receipt];
      }
      return receipts, None;
    }

    /** `Submit`: sends without waiting for acknowledgements. */
    method Submit() returns (receipts: seq<Receipt>, error: Option<DeliveryError>)
      requires Valid() && AtRest()
      modifies this`items, this`sizes, this`bytes, this`captured, this`refused, this`sequence, app
      modifies this`run, this`now, this`sealedBytes, this`lost, this`retained, this`pending, this`orphans
      modifies this`nextBatchID
      modifies this`accepted, this`rejected, this`failures, this`nextAttempt, clock, pipeline, collector
      ensures Valid() && AtRest() && Onward(old(Trail()), Trail())
      ensures Conserved(old(now), now)
      ensures error.None? ==> retained == [] && items == [] && now.lostLog == old(now).lostLog
      ensures error.Some? ==> !error.value.NoBatchWaiting?
      ensures old(orphans) == 0 && error != Some(CallFailed(EncodeFailed)) ==> |pending| == pipeline.inFlight
      ensures |pending| <= pipeline.inFlight <= pipeline.window
      ensures Receipted(old(now).acked, now.acked, receipts)
    {
      hide Conserved, IsRun, OnTheWire;
      receipts, error := SubmitLocked();
      CallConserves(old(run));
    }

    /** `Drain`: waits for what is in flight. */
    method Drain() returns (receipts: seq<Receipt>, error: Option<DeliveryError>)
      requires Valid() && AtRest()
      modifies this`items, this`sizes, this`bytes, this`captured, this`refused, this`sequence, app
      modifies this`run, this`now, this`sealedBytes, this`lost, this`retained, this`pending, this`orphans
      modifies this`accepted, this`rejected, this`failures, this`nextAttempt, clock, pipeline, collector
      ensures Valid() && AtRest() && Onward(old(Trail()), Trail())
      ensures Conserved(old(now), now)
      ensures error.None? ==> pending == map[] && now.lostLog == old(now).lostLog
      ensures old(orphans) == 0 ==> |pending| == pipeline.inFlight
      ensures Receipted(old(now).acked, now.acked, receipts)
    {
      hide Conserved, IsRun, OnTheWire;
      receipts, error := DrainLocked();
      CallConserves(old(run));
    }

    /** The items that are sealed and neither acknowledged nor lost, of a driver at rest. */
    method OutstandingItems() returns (total: nat)
      ensures total == TotalItems(FlightOrder(pending)) + TotalItems(retained)
    {
      total := 0;
      var rest := pending;
      while rest != map[]
        invariant total + TotalItems(FlightOrder(rest)) == TotalItems(FlightOrder(pending))
        decreases |rest|
      {
        hide FlightOrder, TotalItems;
        var id := Newest(rest.Keys);
        LatestCounts(rest, id);
        total := total + rest[id].items;
        rest := rest - {id};
      }
      var held := CountItems(retained);
      total := total + held;
    }

    /** The books at one moment, as a count. */
    lemma CountersNow()
      requires Books() && AtRest()
      ensures captured == |items| + TotalItems(FlightOrder(pending)) + TotalItems(retained) + |Items(now.acked)| + lost
    {
      hide IsRun, FlightOrder, TotalItems, Items;
      CountersOfRun(run, settings);
    }

    lemma BooksCount()
      requires Books()
      ensures |run| > 0 && run[|run| - 1] == now && now.captured == captured
    {
      hide IsRun;
    }

    /** The count of what was captured at the end of an earlier part of the run. */
    lemma CapturedNeverFalls(earlier: seq<Ledger>)
      requires Books() && |earlier| > 0 && earlier <= run
      ensures earlier[|earlier| - 1].captured <= captured
    {
      hide IsRun, Later;
      ExtendingConserves(earlier, run, settings);
      LaterCounts(earlier[|earlier| - 1], now);
    }

    /** One pass of a shutdown: how long to wait for the next, or nothing when
        there is no point in one. */
    method ShutdownPass(deadline: int) returns (wait: Option<nat>)
      requires Valid() && AtRest()
      modifies this, app, clock, client, pipeline, collector
      ensures Onward(old(Trail()), Trail())
      ensures Valid() && AtRest() && old(clock.now) <= clock.now
      ensures wait.Some? ==> wait.value > 0 && clock.now < deadline
    {
      Onwards();
      hide Books, FlightOk, Onward;
      var time := clock.Read();
      if deadline - time <= 0 {
        return None;
      }
      var drained, drainError := DrainLocked();
      Others();
      var flushed, error, _ := FlushLocked();
      Others();
      if drainError.None? && error.None? && |items| == 0 && |pending| + |retained| == 0 {
        return None;
      }
      var pause := if error.Some? && error.value.RetryLater? then error.value.wait else SHUTDOWN_PAUSE;
      time := clock.Read();
      return if pause >= deadline - time then None else Some(pause);
    }

    /** Passes of draining and flushing while time is left. The result counts, of the
        first `seen` items captured, those neither acknowledged nor lost before. */
    method Shutdown() returns (left: int, ghost seen: nat)
      requires Valid() && AtRest()
      modifies this, app, clock, client, pipeline, collector
      ensures Onward(old(Trail()), Trail())
      ensures Books() && AtRest()
      ensures left == seen - |Items(now.acked)| - old(lost)
      ensures Conserved(old(now), now)
      ensures old(captured) <= seen <= captured
      ensures old(app.upcoming == [] && app.numbered == []) ==>
                left == captured - |Items(now.acked)| - old(lost) && captured == old(captured)
    {
      Onwards();
      hide Books, OnTheWire, FlightOrder, Pipeline.Valid, Items, Onward, Conserved;
      BooksCount();
      var start := clock.Read();
      var deadline := start + settings.shutdownFlushDeadline;
      var lostBefore := lost;
      while true
        invariant Books() && FlightOk() && AtRest()
        invariant Onward(old(Trail()), Trail())
        decreases deadline - clock.now
      {
        var wait := ShutdownPass(deadline);
        if wait.None? {
          break;
        }
        clock.Sleep(wait.value);
      }
      ghost var passed := Trail();
      OnwardIsBounded(old(Trail()), passed);
      CapturedNeverFalls(old(run));
      left, seen := CountLeft(lostBefore);
      OnwardIsBounded(passed, Trail());
      CallConserves(old(run));
      CloseAll();
    }

    /** Reads what is left, one counter after the other. */
    method CountLeft(lostBefore: nat) returns (left: int, ghost seen: nat)
      requires Books() && AtRest()
      modifies this`items, this`sizes, this`bytes, this`captured, this`refused, this`sequence, app
      modifies this`run, this`now
      ensures Onward(old(Trail()), Trail())
      ensures Books() && AtRest() && old(captured) <= seen <= captured
      ensures left == seen - |Items(now.acked)| - lostBefore
    {
      Onwards();
      hide OnRun, Items, FlightOrder, Onward;
      Others();
      var buffered := |items|;
      seen := captured;
      CountersNow();
      Others();
      var outstanding := OutstandingItems();
      left := buffered + outstanding + (lost - lostBefore);
    }

    /** Drops both connections. Nothing that is pending moves. */
    method CloseAll()
      requires Books() && AtRest() && pipeline.Valid()
      modifies pipeline, client
      ensures Books() && AtRest() && pipeline.inFlight == 0 && !client.connected
    {
      hide Books;
      client.connected := false;
      pipeline.Reset();
    }
  }
}
