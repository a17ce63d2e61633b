/** What the ledger of a driver says at every moment of every run. */
module Conservation {
  import opened Batches
  import opened Common
  import opened Network
  import opened Ledgers

  // ---------------------------------------------------------------------
  // Runs
  // ---------------------------------------------------------------------

  datatype Step =
    | Number(size: nat, kept: bool)
    | Buffer(waiting: nat)
    | Seal(take: nat, sealedAt: int)
    | Publish
    | NeverFits
    | Resume
    | Launch(id: nat)
    | Land(id: nat)
    | Ack
    | Lose
    | Retain(failure: Failure)
    | Carry(transmissions: seq<Frame>, committed: map<BatchId, Frame>)

  /** When the code may take a step. A capturing step may come at any moment. A batch is
      given up as refused, goes in flight, or comes back from a failure that says it was
      sent, only if it left. */
  ghost predicate Enabled(l: Ledger, step: Step, s: Settings) {
    match step
    case Number(size, kept) => kept ==> size <= s.FrameRoom()
    case Buffer(waiting) => waiting < |l.numbered|
    case Seal(take, sealedAt) => l.hand == Empty && l.unpublished == 0 && Sealable(l, take, s)
    case Publish => l.hand.Holding? && s.Fits(l.hand.batch.encoded)
    case NeverFits => l.hand.Holding? && l.unpublished == l.hand.batch.bytes && !s.Fits(l.hand.batch.encoded)
    case Resume => l.hand == Empty && l.retained != []
    case Launch(id) =>
      && l.hand.Holding? && l.unpublished == 0 && s.Fits(l.hand.batch.encoded)
      && l.hand.batch.encoded in l.transmissions
      && forall other | other in l.pending :: other < id
    case Land(id) => l.hand == Empty && id in l.pending
    case Ack => l.hand.Holding? && l.unpublished == 0 && l.hand.batch.encoded.batchID in l.committed
    case Lose => l.hand.Holding? && l.unpublished == 0 && l.hand.batch.encoded in l.transmissions
    case Retain(failure) =>
      && l.hand.Holding? && l.unpublished == 0 && s.Fits(l.hand.batch.encoded)
      && failure != Rejected(false)
      && (SaysSent(failure) ==> l.hand.batch.encoded in l.transmissions)
    case Carry(transmissions, committed) => NetworkAllowed(l, transmissions, committed, s)
  }

  ghost function Apply(l: Ledger, step: Step, s: Settings): Ledger
    requires Enabled(l, step, s)
  {
    match step
    case Number(size, kept) => NumberStep(l, size, kept)
    case Buffer(waiting) => BufferStep(l, waiting, s)
    case Seal(take, sealedAt) => SealStep(l, take, sealedAt)
    case Publish => PublishStep(l)
    case NeverFits => NeverFitsStep(l)
    case Resume => ResumeStep(l)
    case Launch(id) => LaunchStep(l, id)
    case Land(id) => LandStep(l, id)
    case Ack => AckStep(l)
    case Lose => LoseStep(l)
    case Retain(failure) => RetainStep(l, failure, s)
    case Carry(transmissions, committed) => NetworkStep(l, transmissions, committed)
  }

  const START: Ledger :=
    Ledger(0, [], [], 0, 0, 0, map[], [], 0, 0, Empty, 0, [], [], [], [], [], map[], false)

  /** `moments` is a run: it starts with nothing, and each moment is one step
      after the one before. */
  ghost predicate IsRun(moments: seq<Ledger>, s: Settings) {
    && |moments| > 0 && moments[0] == START
    && forall i | 0 < i < |moments| :: IsStep(moments[i - 1], moments[i], s)
  }

  ghost predicate IsStep(before: Ledger, after: Ledger, s: Settings) {
    exists step :: Enabled(before, step, s) && Apply(before, step, s) == after
  }

  lemma StepKeeps(l: Ledger, step: Step, s: Settings)
    requires Inv(l, s) && Enabled(l, step, s)
    ensures Inv(Apply(l, step, s), s)
  {
    hide Inv;
    match step
    case Number(size, kept) => NumberKeeps(l, size, kept, s);
    case Buffer(waiting) => BufferKeeps(l, waiting, s);
    case Seal(take, sealedAt) => SealKeeps(l, take, sealedAt, s);
    case Publish => PublishKeeps(l, s);
    case NeverFits => NeverFitsKeeps(l, s);
    case Resume => ResumeKeeps(l, s);
    case Launch(id) => LaunchKeeps(l, id, s);
    case Land(id) => LandKeeps(l, id, s);
    case Ack => AckKeeps(l, s);
    case Lose => LoseKeeps(l, s);
    case Retain(failure) => RetainKeeps(l, failure, s);
    case Carry(transmissions, committed) => NetworkKeeps(l, transmissions, committed, s);
  }

  /** The books balance at every moment of every run. */
  lemma {:induction false} RunKeeps(moments: seq<Ledger>, s: Settings)
    requires IsRun(moments, s)
    ensures forall i | 0 <= i < |moments| :: Inv(moments[i], s)
  {
    StartKeeps(s);
    hide Inv, Apply, Enabled;
    var n := 1;
    while n < |moments|
      invariant 1 <= n <= |moments|
      invariant forall i | 0 <= i < n :: Inv(moments[i], s)
    {
      assert IsStep(moments[n - 1], moments[n], s);
      var step :| Enabled(moments[n - 1], step, s) && Apply(moments[n - 1], step, s) == moments[n];
      StepKeeps(moments[n - 1], step, s);
      n := n + 1;
    }
  }

  lemma StartKeeps(s: Settings)
    ensures Inv(START, s)
  {
    EmptyTotals();
    NothingIsDistinct();
    NothingIsHeld();
    hide HeldFrames, HeldBytes, SizeOf, Items, Distinct;
  }

  lemma EmptyTotals()
    ensures SizeOf([]) == 0 && Items([]) == []
  {
  }

  lemma NothingIsHeld()
    ensures HeldFrames(Empty, map[], []) == multiset{} && HeldBytes(Empty, map[], []) == 0
  {
    assert FlightOrder(map[]) == [];
  }

  lemma NothingIsDistinct()
    ensures Distinct(multiset([]) + multiset([]))
  {
  }

  // ---------------------------------------------------------------------
  // What a run never takes back
  // ---------------------------------------------------------------------

  ghost predicate EndsWith<T>(long: seq<T>, short: seq<T>) {
    |short| <= |long| && long[|long| - |short|..] == short
  }

  /** One moment and a later one of the same run: what was captured, sealed,
      acknowledged, given up or committed stays so, in the same order. */
  ghost predicate Later(before: Ledger, after: Ledger) {
    && before.history <= after.history && before.sealed <= after.sealed && before.acked <= after.acked
    && EndsWith(after.lostLog, before.lostLog)
    && before.captured <= after.captured && before.lost <= after.lost
    && forall id | id in before.committed :: id in after.committed && after.committed[id] == before.committed[id]
  }

  lemma LaterSelf(l: Ledger)
    ensures Later(l, l)
  {
  }

  lemma LaterStill(a: Ledger, b: Ledger, c: Ledger)
    requires Later(a, b) && Later(b, c)
    ensures Later(a, c)
  {
    var n := |c.lostLog| - |b.lostLog|;
    assert c.lostLog[|c.lostLog| - |a.lostLog|..] == c.lostLog[n..][|b.lostLog| - |a.lostLog|..];
  }

  lemma EndsWithOneMore<T>(x: T, xs: seq<T>)
    ensures EndsWith(xs, xs) && EndsWith([x] + xs, xs)
  {
  }

  lemma StepIsLater(l: Ledger, step: Step, s: Settings)
    requires Enabled(l, step, s)
    ensures Later(l, Apply(l, step, s))
  {
    hide SizeOf, Sealable, EndsWith, FateUnknown;
    EndsWithOneMore(if l.hand.Holding? then l.hand.batch.encoded else Frame(0, [], 0), l.lostLog);
    match step
    case Carry(_, _) =>
    case _ => hide NetworkAllowed;
  }

  lemma StepBetween(moments: seq<Ledger>, s: Settings, j: nat) returns (step: Step)
    requires IsRun(moments, s) && 0 < j < |moments|
    ensures Enabled(moments[j - 1], step, s) && Apply(moments[j - 1], step, s) == moments[j]
  {
    hide Enabled, Apply;
    assert IsStep(moments[j - 1], moments[j], s);
    step :| Enabled(moments[j - 1], step, s) && Apply(moments[j - 1], step, s) == moments[j];
  }

  /** Along a run nothing captured, sealed, acknowledged, lost or committed is ever
      forgotten. */
  lemma {:induction false} RunIsLater(moments: seq<Ledger>, s: Settings, i: nat, j: nat)
    requires IsRun(moments, s) && i <= j < |moments|
    ensures Later(moments[i], moments[j])
    decreases j
  {
    hide *;
    if i < j {
      RunIsLater(moments, s, i, j - 1);
      var step := StepBetween(moments, s, j);
      StepIsLater(moments[j - 1], step, s);
      LaterStill(moments[i], moments[j - 1], moments[j]);
    } else {
      LaterSelf(moments[i]);
    }
  }

  // ---------------------------------------------------------------------
  // Conservation
  // ---------------------------------------------------------------------

  /** The items of the batch in hand. */
  ghost function HandItems(hand: Hand): seq<Item> {
    if hand.Empty? then [] else hand.batch.encoded.items
  }

  ghost function FlightItems(l: Ledger): multiset<Item> {
    multiset(Items(Frames(FlightOrder(l.pending))))
  }

  ghost function KeptItems(l: Ledger): multiset<Item> {
    multiset(Items(Frames(l.retained)))
  }

  /** The captured items are the buffer, the batch in hand, what is in flight,
      what is held for another attempt, what the collector acknowledged, and what
      was given up, and nothing else. */
  lemma PlacesCover(l: Ledger, s: Settings)
    requires Inv(l, s)
    ensures multiset(l.history) ==
            multiset(l.items) + multiset(HandItems(l.hand)) + FlightItems(l) + KeptItems(l)
            + multiset(Items(l.acked)) + multiset(Items(l.lostLog))
  {
    hide BufferOk, NumbersOk, SealedOk, HeldOk, WireOk, HeldBytes, FlightOrder, Frames, Items;
    var hand := if l.hand.Empty? then [] else [l.hand.batch.encoded];
    var flight, kept := Frames(FlightOrder(l.pending)), Frames(l.retained);
    var all := hand + flight + kept + l.acked + l.lostLog;
    assert multiset(all) == multiset(l.sealed);
    ItemsOfPermutation(l.sealed, all);
    ItemsOfFive(hand, flight, kept, l.acked, l.lostLog);
    HandItemsOf(l.hand);
  }

  lemma ItemsOfFive(a: seq<Frame>, b: seq<Frame>, c: seq<Frame>, d: seq<Frame>, e: seq<Frame>)
    ensures multiset(Items(a + b + c + d + e)) ==
            multiset(Items(a)) + multiset(Items(b)) + multiset(Items(c)) + multiset(Items(d)) + multiset(Items(e))
  {
    hide Items;
    ItemsConcat(a + b + c + d, e);
    ItemsConcat(a + b + c, d);
    ItemsConcat(a + b, c);
    ItemsConcat(a, b);
  }

  lemma HandItemsOf(hand: Hand)
    ensures Items(if hand.Empty? then [] else [hand.batch.encoded]) == HandItems(hand)
  {
    if hand.Holding? {
      assert [hand.batch.encoded][1..] == [];
    }
  }

  /** How often an item is found, over all the places it may be in. */
  ghost function Places(l: Ledger, x: Item): nat {
    multiset(l.items)[x] + multiset(HandItems(l.hand))[x] + FlightItems(l)[x] + KeptItems(l)[x]
    + multiset(Items(l.acked))[x] + multiset(Items(l.lostLog))[x]
  }

  /** Every captured item is in exactly one of those places, once. */
  lemma InExactlyOnePlace(l: Ledger, s: Settings, x: Item)
    requires Inv(l, s) && x in l.history
    ensures Places(l, x) == 1
  {
    PlacesCover(l, s);
    CapturedOnce(l, s, x);
    hide Inv, FlightItems, KeptItems, Items, HandItems;
  }

  lemma CapturedOnce(l: Ledger, s: Settings, x: Item)
    requires Inv(l, s) && x in l.history
    ensures multiset(l.history)[x] == 1
  {
    hide BufferOk, SealedOk, HeldOk, WireOk, HeldFrames, HeldBytes, Items, Placed;
    assert x in multiset(l.history);
    assert x in multiset(l.history) + multiset(l.numbered);
    assert (multiset(l.history) + multiset(l.numbered))[x] == 1;
  }

  /** Nothing is in a place that was not captured, and the counters add up. */
  lemma CountersAddUp(l: Ledger, s: Settings)
    requires Inv(l, s)
    ensures l.captured ==
            |l.items| + |HandItems(l.hand)| + TotalItems(FlightOrder(l.pending)) + TotalItems(l.retained)
            + |Items(l.acked)| + l.lost
  {
    PlacesCover(l, s);
    assert forall b | b in FlightOrder(l.pending) :: b.Counted();
    assert forall b | b in l.retained :: b.Counted();
    hide BufferOk, NumbersOk, SealedOk, HeldOk, WireOk, HeldFrames, HeldBytes, Items, Placed, FlightOrder, Frames;
    TotalItemsOfFrames(FlightOrder(l.pending));
    TotalItemsOfFrames(l.retained);
    assert |multiset(l.history)| == |l.history|;
  }

  // ---------------------------------------------------------------------
  // From end to end
  // ---------------------------------------------------------------------

  lemma {:induction false} ItemOfFrame(frames: seq<Frame>, i: nat, x: Item)
    requires i < |frames| && x in frames[i].items
    ensures x in Items(frames)
  {
    if i > 0 {
      ItemOfFrame(frames[1..], i - 1, x);
    }
  }

  /** Every item is in at most one sealed batch. */
  lemma SealedOnce(l: Ledger, s: Settings, i: nat, j: nat, x: Item)
    requires Inv(l, s) && i < |l.sealed| && j < |l.sealed|
    requires x in l.sealed[i].items && x in l.sealed[j].items
    ensures i == j
  {
    hide BufferOk, NumbersOk, SealedOk, HeldOk, WireOk, HeldFrames, HeldBytes, Items, Placed;
    ItemOfFrame(l.sealed, i, x);
    assert x in l.history;
    CapturedOnce(l, s, x);
    if i != j {
      InTwoFrames(l.sealed, i, j, x);
    }
  }

  lemma InTwoFrames(frames: seq<Frame>, i: nat, j: nat, x: Item)
    requires i < |frames| && j < |frames| && i != j
    requires x in frames[i].items && x in frames[j].items
    ensures multiset(Items(frames))[x] >= 2
  {
    hide Items;
    var rest := frames[..i] + frames[i + 1..];
    var k := if j < i then j else j - 1;
    assert rest[k] == frames[j];
    ItemOfFrame(rest, k, x);
    TakeOut(frames, i);
  }

  /** Two frames that travelled under one batch ID are the same bytes. */
  lemma RetransmissionsAreIdentical(l: Ledger, s: Settings, f: Frame, g: Frame)
    requires Inv(l, s) && f in l.transmissions && g in l.transmissions && f.batchID == g.batchID
    ensures f == g
  {
    hide BufferOk, NumbersOk, HeldOk, HeldFrames, HeldBytes, Items, Placed;
    assert f in l.sealed && g in l.sealed;
    var i :| 0 <= i < |l.sealed| && l.sealed[i] == f;
    var j :| 0 <= j < |l.sealed| && l.sealed[j] == g;
  }

  /** No item reaches two logical commits. */
  lemma OneLogicalCommit(l: Ledger, s: Settings, a: BatchId, b: BatchId, x: Item)
    requires Inv(l, s) && a in l.committed && b in l.committed
    requires x in l.committed[a].items && x in l.committed[b].items
    ensures a == b
  {
    hide BufferOk, NumbersOk, SealedOk, HeldOk, HeldFrames, HeldBytes, Items, Placed;
    var f, g := l.committed[a], l.committed[b];
    assert f in l.transmissions && g in l.transmissions;
    assert f in l.sealed && g in l.sealed;
    var i :| 0 <= i < |l.sealed| && l.sealed[i] == f;
    var j :| 0 <= j < |l.sealed| && l.sealed[j] == g;
    SealedOnce(l, s, i, j, x);
  }

  /** A batch is acknowledged only when the collector committed that very frame. */
  lemma AcknowledgedIsCommitted(l: Ledger, s: Settings, f: Frame)
    requires Inv(l, s) && f in l.acked
    ensures f.batchID in l.committed && l.committed[f.batchID] == f
  {
    hide BufferOk, NumbersOk, HeldOk, HeldFrames, HeldBytes, Items;
    var g := l.committed[f.batchID];
    assert f in multiset(l.sealed);
    assert g in l.transmissions && g in l.sealed;
    var i :| 0 <= i < |l.sealed| && l.sealed[i] == f;
    var j :| 0 <= j < |l.sealed| && l.sealed[j] == g;
  }

  /** At every moment of every run, under any interleaving of capturing threads with
      the delivering one and whatever the network did, each captured item is in one
      place, once. */
  lemma EveryRunConserves(moments: seq<Ledger>, s: Settings, i: nat, x: Item)
    requires IsRun(moments, s) && i < |moments| && x in moments[i].history
    ensures Places(moments[i], x) == 1
  {
    hide *;
    RunKeeps(moments, s);
    InExactlyOnePlace(moments[i], s, x);
  }

  lemma NothingHeldIsAccounted(l: Ledger, s: Settings)
    requires Inv(l, s) && l.items == [] && l.hand == Empty && l.pending == map[] && l.retained == []
    ensures l.captured == |Items(l.acked)| + l.lost
  {
    hide *;
    CountersAddUp(l, s);
    NothingHeld();
  }

  /** What a call of the driver leaves of what was captured before it. */
  ghost predicate Conserved(before: Ledger, after: Ledger) {
    && Later(before, after)
    && forall x | x in before.history :: x in after.history && Places(after, x) == 1
  }

  /** Extending a run conserves everything that had been captured. */
  lemma ExtendingConserves(earlier: seq<Ledger>, later: seq<Ledger>, s: Settings)
    requires IsRun(later, s) && |earlier| > 0 && earlier <= later
    ensures Conserved(earlier[|earlier| - 1], later[|later| - 1])
  {
    hide IsRun, Places, Later;
    var before, after := earlier[|earlier| - 1], later[|later| - 1];
    assert later[|earlier| - 1] == before;
    RunIsLater(later, s, |earlier| - 1, |later| - 1);
    HistoryGrows(before, after);
    forall x | x in before.history ensures x in after.history && Places(after, x) == 1 {
      EveryRunConserves(later, s, |later| - 1, x);
    }
  }

  lemma HistoryGrows(before: Ledger, after: Ledger)
    requires Later(before, after)
    ensures forall x | x in before.history :: x in after.history
  {
  }

  /** When the driver holds nothing, everything captured was acknowledged or counted as
      lost. */
  lemma EveryRunAccounts(moments: seq<Ledger>, s: Settings, i: nat)
    requires IsRun(moments, s) && i < |moments|
    requires moments[i].items == [] && moments[i].hand == Empty
    requires moments[i].pending == map[] && moments[i].retained == []
    ensures moments[i].captured == |Items(moments[i].acked)| + moments[i].lost
  {
    hide *;
    RunKeeps(moments, s);
    NothingHeldIsAccounted(moments[i], s);
  }

  lemma NothingHeld()
    ensures HandItems(Empty) == [] && TotalItems(FlightOrder(map[])) == 0 && TotalItems([]) == 0
  {
    assert FlightOrder(map[]) == [];
  }

  /** At every moment of every run: an item that was acknowledged is in one logical
      commit and no other, however often its batch travelled and whatever else was
      captured, lost or sent again. */
  lemma EveryRunCommitsOnce(moments: seq<Ledger>, s: Settings, i: nat, f: Frame, x: Item, b: BatchId)
    requires IsRun(moments, s) && i < |moments| && f in moments[i].acked && x in f.items
    requires b in moments[i].committed && x in moments[i].committed[b].items
    ensures f.batchID in moments[i].committed && moments[i].committed[f.batchID] == f && b == f.batchID
  {
    hide *;
    RunKeeps(moments, s);
    AcknowledgedIsCommitted(moments[i], s, f);
    OneLogicalCommit(moments[i], s, f.batchID, b, x);
  }

  /** At every moment of every run, no batch that is held or in flight has used up its
      attempts, and each of them fits one frame. */
  lemma AttemptsStayBelowLimit(moments: seq<Ledger>, s: Settings, i: nat, b: Batch)
    requires IsRun(moments, s) && i < |moments|
    requires b in moments[i].retained || b in moments[i].pending.Values
    ensures b.attempts < s.AttemptLimit() && s.Fits(b.encoded) && b.Counted()
  {
    hide *;
    RunKeeps(moments, s);
    HeldIsBelowLimit(moments[i], s, b);
  }

  lemma HeldIsBelowLimit(l: Ledger, s: Settings, b: Batch)
    requires Inv(l, s) && (b in l.retained || b in l.pending.Values)
    ensures b.attempts < s.AttemptLimit() && s.Fits(b.encoded) && b.Counted()
  {
    hide BufferOk, NumbersOk, SealedOk, WireOk, HeldFrames, HeldBytes, Items, Placed;
  }

  // ---------------------------------------------------------------------
  // The byte bound
  // ---------------------------------------------------------------------

  /** At every moment of every run at which no seal is part-way, `sealedBytes` is
      the size of what is sealed and not acknowledged. What the driver holds is
      within the bound if no item was taken inside a seal, and within one batch of
      it however often that happened. */
  lemma HeldWithinBound(moments: seq<Ledger>, s: Settings, i: nat)
    requires IsRun(moments, s) && i < |moments| && moments[i].unpublished == 0
    ensures var l := moments[i];
            && l.sealedBytes == HeldBytes(l.hand, l.pending, l.retained)
            && l.bytes == SizeOf(l.items)
            && (!l.overlapped ==> l.bytes + l.sealedBytes <= Max(s.maxUnacknowledgedBytes, 0))
            && l.bytes + l.sealedBytes <= Max(s.maxUnacknowledgedBytes, 0) + s.BatchBound()
  {
    hide NumbersOk, SealedOk, HeldOk, WireOk, HeldFrames, HeldBytes, Items, Placed, SizeOf;
    RunKeeps(moments, s);
  }

  /** What a driver holds, a seal that is part-way included. */
  function Held(l: Ledger): int {
    l.bytes + l.sealedBytes + l.unpublished
  }

  ghost predicate WithinBound(l: Ledger, s: Settings) {
    Held(l) <= Max(s.maxUnacknowledgedBytes, 0)
  }

  /** The locked section of `Capture` takes an item that fits only because a seal is
      part-way: the bytes that left the buffer are not counted yet. */
  ghost predicate Overshoots(l: Ledger, step: Step, s: Settings) {
    && step.Buffer? && step.waiting < |l.numbered|
    && var size := l.numbered[step.waiting].size;
       && l.bytes + size + l.sealedBytes <= s.maxUnacknowledgedBytes
       && l.bytes + size + l.sealedBytes + l.unpublished > Max(s.maxUnacknowledgedBytes, 0)
  }

  /** A step puts the driver over its bound exactly when it overshoots. */
  lemma StepHolds(l: Ledger, step: Step, s: Settings)
    requires Enabled(l, step, s) && WithinBound(l, s)
    ensures WithinBound(Apply(l, step, s), s) <==> !Overshoots(l, step, s)
  {
    hide SizeOf, Sealable, NetworkAllowed;
  }

  /** A run in steps. */
  ghost predicate IsTrace(moments: seq<Ledger>, steps: seq<Step>, s: Settings) {
    && |moments| == |steps| + 1 && moments[0] == START
    && forall i | 0 <= i < |steps| ::
         Enabled(moments[i], steps[i], s) && Apply(moments[i], steps[i], s) == moments[i + 1]
  }

  lemma TraceIsRun(moments: seq<Ledger>, steps: seq<Step>, s: Settings)
    requires IsTrace(moments, steps, s)
    ensures IsRun(moments, s)
  {
    hide Enabled, Apply;
    forall i | 0 < i < |moments| ensures IsStep(moments[i - 1], moments[i], s) {
      assert Enabled(moments[i - 1], steps[i - 1], s);
    }
  }

  /** Every run is a run in some steps. */
  lemma {:induction false} RunHasTrace(moments: seq<Ledger>, s: Settings) returns (steps: seq<Step>)
    requires IsRun(moments, s)
    ensures IsTrace(moments, steps, s)
    decreases |moments|
  {
    hide Enabled, Apply;
    steps := [];
    var n := |moments| - 1;
    if n > 0 {
      var before := moments[..n];
      forall i | 0 < i < n ensures IsStep(before[i - 1], before[i], s) { assert IsStep(moments[i - 1], moments[i], s); }
      steps := RunHasTrace(before, s);
      var step := StepBetween(moments, s, n);
      steps := steps + [step];
    }
  }

  /** From where the property holds, a step takes it away exactly if it is a bad one. */
  ghost predicate BrokenByBad(holds: seq<bool>, bad: seq<bool>) {
    |holds| == |bad| + 1 && forall i | 0 <= i < |bad| :: holds[i] ==> (holds[i + 1] <==> !bad[i])
  }

  lemma {:induction false} HoldsWithoutBad(holds: seq<bool>, bad: seq<bool>, i: nat)
    requires BrokenByBad(holds, bad) && holds[0] && i < |holds|
    requires forall k | 0 <= k < |bad| :: !bad[k]
    ensures holds[i]
  {
    if i > 0 {
      HoldsWithoutBad(holds, bad, i - 1);
      assert !bad[i - 1];
    }
  }

  /** A property that holds at the start always holds exactly if no step is bad. */
  lemma AlwaysIffNoBadStep(holds: seq<bool>, bad: seq<bool>)
    requires BrokenByBad(holds, bad) && holds[0]
    ensures (forall i | 0 <= i < |holds| :: holds[i]) <==> forall i | 0 <= i < |bad| :: !bad[i]
  {
    if forall i | 0 <= i < |bad| :: !bad[i] {
      forall i | 0 <= i < |holds| ensures holds[i] {
        HoldsWithoutBad(holds, bad, i);
      }
    }
    if forall i | 0 <= i < |holds| :: holds[i] {
      forall i | 0 <= i < |bad| ensures !bad[i] {
        assert holds[i] && holds[i + 1];
      }
    }
  }

  lemma StartHoldsNothing(s: Settings)
    ensures WithinBound(START, s)
  {
  }

  /** A driver keeps its bound at every moment of a run exactly when no capture of that
      run took an item that did not fit beside a seal that was part-way. */
  lemma BoundKeptIffNoOvershoot(moments: seq<Ledger>, steps: seq<Step>, s: Settings)
    requires IsTrace(moments, steps, s)
    ensures (forall i | 0 <= i < |moments| :: WithinBound(moments[i], s))
            <==> forall i | 0 <= i < |steps| :: !Overshoots(moments[i], steps[i], s)
  {
    hide Enabled, Apply, Overshoots;
    StartHoldsNothing(s);
    var holds := seq(|moments|, i requires 0 <= i < |moments| => WithinBound(moments[i], s));
    var bad := seq(|steps|, i requires 0 <= i < |steps| => Overshoots(moments[i], steps[i], s));
    forall i | 0 <= i < |steps| ensures holds[i] ==> (holds[i + 1] <==> !bad[i]) {
      if holds[i] { StepHolds(moments[i], steps[i], s); }
    }
    hide WithinBound;
    AlwaysIffNoBadStep(holds, bad);
    assert forall i | 0 <= i < |moments| :: holds[i] == WithinBound(moments[i], s);
    assert forall i | 0 <= i < |steps| :: bad[i] == Overshoots(moments[i], steps[i], s);
  }

  /** A driver that holds at most 10 bytes, and two events of 10 bytes. */
  const TIGHT: Settings := Settings(256, 5, 2000, 0, 10, 0, 0, 0, 1, 1, (frame: Frame) => 100)

  /** The overlap is real: an item taken between the two updates of a seal puts a
      driver over its bound once the seal is counted. */
  lemma OverlapExceedsBound() returns (moments: seq<Ledger>)
    ensures IsRun(moments, TIGHT) && |moments| > 0
    ensures var l := moments[|moments| - 1];
            l.unpublished == 0 && l.bytes + l.sealedBytes > TIGHT.maxUnacknowledgedBytes
  {
    hide IsRun, IsStep, Inv;
    var s := TIGHT;
    moments := [START];
    assert IsRun(moments, s) by {
      RunStarts(s);
    }
    moments := RunGrows(moments, Number(10, true), s);
    moments := RunGrows(moments, Number(10, true), s);
    moments := RunGrows(moments, Buffer(0), s);
    assert SizeOf(moments[3].items[..1]) == 10 by {
      SizeOfOne(Item(0, 10));
      assert moments[3].items[..1] == [Item(0, 10)];
    }
    moments := RunGrows(moments, Seal(1, 0), s);
    moments := RunGrows(moments, Buffer(0), s);
    moments := RunGrows(moments, Publish, s);
  }

  // ---------------------------------------------------------------------
  // What an attempt is worth
  // ---------------------------------------------------------------------

  /** Nobody paid for a call that was never made: a batch that was charged an attempt
      left at least once, and so did every batch that fits a frame and was given up.
      What is in flight always did. */
  ghost predicate AttemptsEarned(l: Ledger, s: Settings) {
    && (l.hand.Holding? && l.hand.batch.attempts > 0 ==> l.hand.batch.encoded in l.transmissions)
    && (forall b | b in l.retained :: b.attempts > 0 ==> b.encoded in l.transmissions)
    && forall f | f in l.lostLog :: s.Fits(f) ==> f in l.transmissions
  }

  /** An attempt is charged to a batch that never left. */
  ghost predicate ChargesUnsent(l: Ledger, step: Step) {
    && step.Retain? && FateUnknown(step.failure)
    && l.hand.Holding? && l.hand.batch.encoded !in l.transmissions
  }

  /** A step breaks that exactly if it charges a batch that never left, and only a
      connection that could not be prepared or a request that did not encode does. */
  lemma StepEarns(l: Ledger, step: Step, s: Settings)
    requires Inv(l, s) && Enabled(l, step, s) && AttemptsEarned(l, s)
    ensures AttemptsEarned(Apply(l, step, s), s) <==> !ChargesUnsent(l, step)
    ensures ChargesUnsent(l, step) ==> step.failure.Unprepared? || step.failure.EncodeFailed?
  {
    hide SizeOf, Sealable, Placed, WireOk, SealedOk, NumbersOk, BufferOk, HeldFrames, HeldBytes, Items, HeldOk;
    var next := Apply(l, step, s);
    match step
    case Retain(failure) => RetainEarns(l, failure, s);
    case NeverFits => assert forall f | f in next.lostLog :: f == l.hand.batch.encoded || f in l.lostLog;
    case Lose => assert forall f | f in next.lostLog :: f == l.hand.batch.encoded || f in l.lostLog;
    case Resume => assert l.retained[0] in l.retained;
    case _ =>
  }

  lemma RetainEarns(l: Ledger, failure: Failure, s: Settings)
    requires Enabled(l, Retain(failure), s) && AttemptsEarned(l, s)
    ensures AttemptsEarned(RetainStep(l, failure, s), s) <==> !ChargesUnsent(l, Retain(failure))
  {
    var batch, next := l.hand.batch, RetainStep(l, failure, s);
    assert forall f | f in next.lostLog :: f == batch.encoded || f in l.lostLog;
    assert forall b | b in next.retained :: b == next.retained[0] || b in l.retained;
    if ChargesUnsent(l, Retain(failure)) {
      if batch.attempts + 1 >= s.AttemptLimit() {
        assert next.lostLog[0] == batch.encoded && batch.encoded in next.lostLog;
      } else {
        assert next.retained[0] == batch.(attempts := batch.attempts + 1) && next.retained[0] in next.retained;
      }
    }
  }

  /** At every moment of a run every batch that was charged or given up had left, exactly
      when no step of the run charges a batch that never left. */
  lemma AttemptsEarnedIffNoneUnsent(moments: seq<Ledger>, steps: seq<Step>, s: Settings)
    requires IsTrace(moments, steps, s)
    ensures (forall i | 0 <= i < |moments| :: AttemptsEarned(moments[i], s))
            <==> forall i | 0 <= i < |steps| :: !ChargesUnsent(moments[i], steps[i])
  {
    hide Inv, Enabled, Apply, ChargesUnsent, IsRun;
    TraceIsRun(moments, steps, s);
    RunKeeps(moments, s);
    assert AttemptsEarned(START, s);
    hide AttemptsEarned;
    var holds := seq(|moments|, i requires 0 <= i < |moments| => AttemptsEarned(moments[i], s));
    var bad := seq(|steps|, i requires 0 <= i < |steps| => ChargesUnsent(moments[i], steps[i]));
    forall i | 0 <= i < |steps| ensures holds[i] ==> (holds[i + 1] <==> !bad[i]) {
      if holds[i] { StepEarns(moments[i], steps[i], s); }
    }
    AlwaysIffNoBadStep(holds, bad);
    assert forall i | 0 <= i < |moments| :: holds[i] == AttemptsEarned(moments[i], s);
    assert forall i | 0 <= i < |steps| :: bad[i] == ChargesUnsent(moments[i], steps[i]);
  }

  /** What is in flight left at least once, at every moment of every run. */
  lemma FlightHasTravelled(moments: seq<Ledger>, s: Settings, i: nat, id: nat)
    requires IsRun(moments, s) && i < |moments| && id in moments[i].pending
    ensures moments[i].pending[id].encoded in moments[i].transmissions
  {
    RunKeeps(moments, s);
    hide BufferOk, NumbersOk, SealedOk, HeldOk, WireOk, HeldFrames, HeldBytes, Items, Placed, SizeOf, IsRun;
  }

  /** A failure of unknown fate, which costs the batch in hand an attempt. */
  ghost predicate Charging(step: Step) {
    step.Retain? && FateUnknown(step.failure)
  }

  ghost function ChargeOf(l: Ledger, step: Step, sent: bool): multiset<Frame> {
    if Charging(step) && l.hand.Holding? && (sent ==> SaysSent(step.failure)) then multiset{l.hand.batch.encoded}
    else multiset{}
  }

  /** How often each frame was charged along some steps, or how often for a call that was
      `sent`. */
  ghost function Charged(moments: seq<Ledger>, steps: seq<Step>, sent: bool): multiset<Frame>
    requires |moments| > |steps|
  {
    if steps == [] then multiset{}
    else
      var n := |steps| - 1;
      Charged(moments, steps[..n], sent) + ChargeOf(moments[n], steps[n], sent)
  }

  /** The attempts of every batch are the charges to its frame. */
  ghost predicate Tallied(l: Ledger, charged: multiset<Frame>) {
    && (l.hand.Holding? ==> l.hand.batch.attempts == charged[l.hand.batch.encoded])
    && (forall id | id in l.pending :: l.pending[id].attempts == charged[l.pending[id].encoded])
    && (forall b | b in l.retained :: b.attempts == charged[b.encoded])
    && forall f | f in charged :: f in l.sealed
  }

  lemma {:induction false} SealedIsOnce(sealed: seq<Frame>, f: Frame)
    requires OneFramePerId(sealed)
    ensures multiset(sealed)[f] <= 1
  {
    if sealed != [] {
      var n := |sealed| - 1;
      SealedIsOnce(sealed[..n], f);
      assert sealed == sealed[..n] + [sealed[n]];
      assert sealed[n] !in sealed[..n];
    }
  }

  /** No other batch has the frame of the one in hand. */
  lemma HandIsAlone(l: Ledger, s: Settings)
    requires Inv(l, s) && l.hand.Holding?
    ensures l.hand.batch.encoded in l.sealed
    ensures forall b | b in l.retained :: b.encoded != l.hand.batch.encoded
    ensures forall id | id in l.pending :: l.pending[id].encoded != l.hand.batch.encoded
  {
    var f := l.hand.batch.encoded;
    SealedIsOnce(l.sealed, f);
    hide BufferOk, NumbersOk, SealedOk, HeldOk, WireOk, HeldBytes, Items, SizeOf, FlightOrder, Frames, Travelled;
    assert multiset(l.sealed)[f] == 1;
    assert f in multiset(l.sealed);
    forall b | b in l.retained ensures b.encoded != f { FramesHold(l.retained, b); }
    forall id | id in l.pending ensures l.pending[id].encoded != f { FlightHolds(l.pending, id); }
  }

  lemma {:induction false} FramesHold(batches: seq<Batch>, b: Batch)
    requires b in batches
    ensures b.encoded in multiset(Frames(batches))
  {
    if batches[0] != b { FramesHold(batches[1..], b); }
  }

  lemma FlightHolds(pending: map<nat, Batch>, id: nat)
    requires id in pending
    ensures pending[id].encoded in multiset(Frames(FlightOrder(pending)))
  {
    hide FlightOrder, Frames;
    FlightOrderRemove(pending, id);
  }

  lemma ChargeTallies(l: Ledger, failure: Failure, charged: multiset<Frame>, s: Settings)
    requires Enabled(l, Retain(failure), s) && Tallied(l, charged) && FateUnknown(failure)
    requires l.hand.batch.encoded in l.sealed
    requires forall b | b in l.retained :: b.encoded != l.hand.batch.encoded
    requires forall id | id in l.pending :: l.pending[id].encoded != l.hand.batch.encoded
    ensures Tallied(RetainStep(l, failure, s), charged + multiset{l.hand.batch.encoded})
  {
    var batch, next := l.hand.batch, RetainStep(l, failure, s);
    assert forall b | b in next.retained :: b in l.retained || b == batch.(attempts := batch.attempts + 1);
  }

  lemma SealTallies(l: Ledger, take: nat, sealedAt: int, charged: multiset<Frame>)
    requires take <= |l.items| && Tallied(l, charged) && SealedOk(l.sealed, l.nextBatchID)
    ensures Tallied(SealStep(l, take, sealedAt), charged)
  {
    hide SizeOf;
    var frame := SealStep(l, take, sealedAt).hand.batch.encoded;
    assert frame !in l.sealed;
  }

  /** A step that charges nothing leaves every batch its attempts. */
  lemma OtherTallies(l: Ledger, step: Step, charged: multiset<Frame>, s: Settings)
    requires Enabled(l, step, s) && Tallied(l, charged) && !Charging(step) && !step.Seal?
    ensures Tallied(Apply(l, step, s), charged)
  {
    hide SizeOf, Sealable, NetworkAllowed;
    match step
    case Resume => assert l.retained[0] in l.retained;
    case Retain(_) => assert forall b | b in Apply(l, step, s).retained :: b in l.retained || b == l.hand.batch;
    case _ =>
  }

  lemma StepTallies(l: Ledger, step: Step, charged: multiset<Frame>, s: Settings)
    requires Inv(l, s) && Enabled(l, step, s) && Tallied(l, charged)
    ensures Tallied(Apply(l, step, s), charged + ChargeOf(l, step, false))
  {
    ChargeIs(l, step, s);
    NamesAreFresh(l, s);
    assert charged + multiset{} == charged;
    hide *;
    if Charging(step) {
      HandIsAlone(l, s);
      ChargeTallies(l, step.failure, charged, s);
    } else if step.Seal? {
      SealTallies(l, step.take, step.sealedAt, charged);
    } else {
      OtherTallies(l, step, charged, s);
    }
  }

  lemma ChargeIs(l: Ledger, step: Step, s: Settings)
    requires Enabled(l, step, s)
    ensures ChargeOf(l, step, false) ==
            if Charging(step) && l.hand.Holding? then multiset{l.hand.batch.encoded} else multiset{}
    ensures Charging(step) ==>
              step.Retain? && FateUnknown(step.failure) && l.hand.Holding? && Apply(l, step, s) == RetainStep(l, step.failure, s)
    ensures step.Retain? ==> Enabled(l, Retain(step.failure), s)
    ensures step.Seal? ==> step.take <= |l.items| && Apply(l, step, s) == SealStep(l, step.take, step.sealedAt)
  {
    hide RetainStep, SealStep, SizeOf, NetworkAllowed, FateUnknown;
  }

  lemma NamesAreFresh(l: Ledger, s: Settings)
    requires Inv(l, s)
    ensures SealedOk(l.sealed, l.nextBatchID)
  {
    hide BufferOk, NumbersOk, SealedOk, HeldOk, WireOk, HeldFrames, HeldBytes, Items, Placed, SizeOf, Travelled;
  }

  lemma TraceNext(moments: seq<Ledger>, steps: seq<Step>, s: Settings, n: nat)
    requires IsTrace(moments, steps, s) && n < |steps|
    ensures Inv(moments[n], s)
    ensures Enabled(moments[n], steps[n], s) && moments[n + 1] == Apply(moments[n], steps[n], s)
    ensures Charged(moments, steps[..n + 1], false) ==
            Charged(moments, steps[..n], false) + ChargeOf(moments[n], steps[n], false)
  {
    hide Inv, Enabled, Apply, IsRun, ChargeOf;
    TraceIsRun(moments, steps, s);
    RunKeeps(moments, s);
    assert steps[..n + 1][..n] == steps[..n];
  }

  lemma StartTallies(moments: seq<Ledger>, steps: seq<Step>, s: Settings)
    requires IsTrace(moments, steps, s)
    ensures Tallied(moments[0], Charged(moments, [], false)) && |moments| == |steps| + 1
  {
  }

  lemma {:induction false} TraceTallies(moments: seq<Ledger>, steps: seq<Step>, s: Settings, n: nat)
    requires IsTrace(moments, steps, s) && n <= |steps|
    ensures n < |moments| && Tallied(moments[n], Charged(moments, steps[..n], false))
  {
    hide *;
    StartTallies(moments, steps, s);
    if n > 0 {
      TraceTallies(moments, steps, s, n - 1);
      TraceNext(moments, steps, s, n - 1);
      StepTallies(moments[n - 1], steps[n - 1], Charged(moments, steps[..n - 1], false), s);
    } else {
      assert steps[..0] == [];
    }
  }

  lemma {:induction false} SendsAreCharges(moments: seq<Ledger>, steps: seq<Step>)
    requires |moments| > |steps|
    ensures Charged(moments, steps, true) <= Charged(moments, steps, false)
    ensures (forall i | 0 <= i < |steps| && Charging(steps[i]) :: SaysSent(steps[i].failure)) ==>
              Charged(moments, steps, true) == Charged(moments, steps, false)
  {
    hide SaysSent, FateUnknown;
    if steps != [] { SendsAreCharges(moments, steps[..|steps| - 1]); }
  }

  /** The batch charged by a step has as many attempts then as it had sends of unknown
      fate. */
  ghost predicate AttemptsAreSends(moments: seq<Ledger>, steps: seq<Step>, i: nat)
    requires i < |steps| < |moments|
  {
    && moments[i].hand.Holding?
    && var batch := moments[i].hand.batch;
       batch.attempts + 1 == Charged(moments, steps[..i + 1], true)[batch.encoded]
  }

  lemma ChargedAre(moments: seq<Ledger>, steps: seq<Step>, s: Settings, i: nat)
    requires IsTrace(moments, steps, s) && i < |steps| && Charging(steps[i])
    ensures moments[i].hand.Holding?
    ensures var batch, charged := moments[i].hand.batch, Charged(moments, steps[..i + 1], false);
            batch.attempts + 1 == charged[batch.encoded]
    ensures var batch := moments[i].hand.batch;
            Charged(moments, steps[..i + 1], true)[batch.encoded] <= batch.attempts + 1
    ensures !SaysSent(steps[i].failure) ==> !AttemptsAreSends(moments, steps, i)
  {
    assert Enabled(moments[i], steps[i], s);
    TraceTallies(moments, steps, s, i);
    assert steps[..i + 1][..i] == steps[..i];
    SendsAreCharges(moments, steps[..i]);
    SendsAreCharges(moments, steps[..i + 1]);
    hide IsTrace, Enabled, SaysSent, FateUnknown;
  }

  /** Along a run the attempts of every batch count its sends of unknown fate, exactly
      when no failure that is charged is one of a call that did not leave. */
  lemma AttemptsAreSendsIff(moments: seq<Ledger>, steps: seq<Step>, s: Settings)
    requires IsTrace(moments, steps, s)
    ensures (forall i | 0 <= i < |steps| && Charging(steps[i]) :: AttemptsAreSends(moments, steps, i))
            <==> forall i | 0 <= i < |steps| && Charging(steps[i]) :: SaysSent(steps[i].failure)
  {
    assert |moments| == |steps| + 1;
    hide Charged, SaysSent, FateUnknown, IsTrace;
    forall i | 0 <= i < |steps| && Charging(steps[i]) ensures !SaysSent(steps[i].failure) ==> !AttemptsAreSends(moments, steps, i) {
      ChargedAre(moments, steps, s, i);
    }
    if forall i | 0 <= i < |steps| && Charging(steps[i]) :: SaysSent(steps[i].failure) {
      forall i | 0 <= i < |steps| && Charging(steps[i]) ensures AttemptsAreSends(moments, steps, i) {
        ChargedAre(moments, steps, s, i);
        SendsAreCharges(moments, steps[..i + 1]);
      }
    }
  }

  lemma OneBuffered() returns (moments: seq<Ledger>)
    ensures IsRun(moments, TIGHT) && |moments| > 0
    ensures moments[|moments| - 1] ==
            START.(sequence := 1, items := [Item(0, 10)], bytes := 10, captured := 1, history := [Item(0, 10)])
  {
    hide IsRun, IsStep;
    moments := [START];
    RunStarts(TIGHT);
    moments := RunGrows(moments, Number(10, true), TIGHT);
    moments := RunGrows(moments, Buffer(0), TIGHT);
  }

  lemma OneHeld() returns (moments: seq<Ledger>)
    ensures IsRun(moments, TIGHT) && |moments| > 0
    ensures var l := moments[|moments| - 1];
            && l.hand == Holding(Batch(Frame(0, [Item(0, 10)], 0), 1, 10, 0)) && l.unpublished == 0
            && l.lost == 0 && l.lostLog == [] && l.transmissions == []
  {
    hide IsRun, IsStep;
    moments := OneBuffered();
    SizeOfOne(Item(0, 10));
    assert [Item(0, 10)][..1] == [Item(0, 10)];
    moments := RunGrows(moments, Seal(1, 0), TIGHT);
    moments := RunGrows(moments, Publish, TIGHT);
  }

  /** A batch that never left is given up at its last attempt, and its item is lost. */
  lemma NeverSentIsGivenUp() returns (moments: seq<Ledger>)
    ensures IsRun(moments, TIGHT) && |moments| > 0
    ensures var l := moments[|moments| - 1];
            l.lost == 1 && l.transmissions == [] && |l.lostLog| == 1 && TIGHT.Fits(l.lostLog[0])
  {
    hide IsRun, IsStep;
    moments := OneHeld();
    moments := RunGrows(moments, Retain(Unprepared), TIGHT);
  }

  lemma RunStarts(s: Settings)
    ensures IsRun([START], s)
  {
  }

  lemma RunGrows(moments: seq<Ledger>, step: Step, s: Settings) returns (longer: seq<Ledger>)
    requires IsRun(moments, s) && |moments| > 0 && Enabled(moments[|moments| - 1], step, s)
    ensures longer == moments + [Apply(moments[|moments| - 1], step, s)]
    ensures IsRun(longer, s) && moments <= longer
  {
    hide Enabled, Apply;
    longer := moments + [Apply(moments[|moments| - 1], step, s)];
    assert IsStep(moments[|moments| - 1], longer[|moments|], s);
    forall i | 0 < i < |longer|
      ensures IsStep(longer[i - 1], longer[i], s)
    {
      if i < |moments| {
        assert longer[i - 1] == moments[i - 1] && longer[i] == moments[i];
      }
    }
  }
}
