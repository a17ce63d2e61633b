// Payloads stored under their digests, synced in groups
// (prototypes/delivery-bench/spool.go).
//
// Any number of threads call `put`. The first to find nobody committing leads: it
// takes everything that is pending, writes it and syncs it with the lock released,
// and publishes how far the file is durable. Every other thread sleeps on the
// condition variable until its own bytes are covered. One step below is one section
// of `put` that runs under the lock, or one call on the file.

module Spools {
  import opened Common

  newtype uint8 = x: int | 0 <= x < 256

  type Digest = s: seq<uint8> | |s| == 32 witness seq(32, i => 0)

  /** What is stored for one payload: its length in 4 of 8 bytes, its digest, itself. */
  function FrameOf(payload: seq<uint8>, digest: Digest): (frame: seq<uint8>)
    ensures |frame| == 40 + |payload| && frame[40..] == payload && frame[8..40] == digest
  {
    var n := |payload| % 0x1_0000_0000;
    [(n % 256) as uint8, (n / 0x100 % 256) as uint8, (n / 0x1_0000 % 256) as uint8, (n / 0x100_0000) as uint8,
     0, 0, 0, 0] + digest + payload
  }

  /** Where one call of `put` stands. A waiter is asleep until a broadcast; the
      phases from `Lingering` to `Flushed` belong to the thread that leads. */
  datatype Phase =
    | Asleep
    | Awake
    | Lingering
    | Writing(at: nat, buf: seq<uint8>)
    | Written(at: nat, buf: seq<uint8>)
    | Flushed(at: nat, buf: seq<uint8>, ok: bool)
    | Returned(ok: bool)

  predicate Leads(phase: Phase) {
    phase.Lingering? || phase.Writing? || phase.Written? || phase.Flushed?
  }

  /** One call: its frame, and the offset at which that frame ends in the file. */
  datatype Call = Call(frame: seq<uint8>, end: nat, phase: Phase) {
    ghost function Start(): int { end - |frame| }
  }

  /** The spool and its file. `leader` is the thread for which `committing` is set.
      `synced` is what a successful sync has covered, `stream` every byte ever
      appended, and `torn` the offsets of groups whose write or sync failed. */
  datatype World = World(
    lingers: bool,
    pending: seq<uint8>, pendingCount: nat, writeOffset: nat, durableUpto: nat, leader: Option<nat>,
    fsyncs: nat, groupSum: nat, maxGroup: nat,
    calls: map<nat, Call>, file: map<nat, uint8>, synced: map<nat, uint8>,
    stream: seq<uint8>, torn: set<nat>)

  // Steps

  function Moved(calls: map<nat, Call>, id: nat, phase: Phase): map<nat, Call>
    requires id in calls
  {
    calls[id := calls[id].(phase := phase)]
  }

  /** What a broadcast does to the sleeping waiters. */
  function Woken(calls: map<nat, Call>): (woken: map<nat, Call>)
    ensures woken.Keys == calls.Keys
  {
    map id | id in calls :: if calls[id].phase.Asleep? then calls[id].(phase := Awake) else calls[id]
  }

  function Stored(file: map<nat, uint8>, at: nat, buf: seq<uint8>): map<nat, uint8> {
    file + map o {:trigger o in Span(at, at + |buf|)} | o in Span(at, at + |buf|) :: buf[o - at]
  }

  function Span(lo: nat, hi: nat): (offsets: set<nat>)
    requires lo <= hi
    ensures forall o :: o in offsets <==> lo <= o < hi
    decreases hi - lo
  {
    if lo == hi then {} else {lo} + Span(lo + 1, hi)
  }

  /** The leader takes everything that is pending as its next group. */
  function TakeStep(w: World, id: nat): World
    requires id in w.calls
  {
    if w.pending == [] then
      w.(leader := None, pendingCount := 0, calls := Moved(Woken(w.calls), id, Returned(true)))
    else
      w.(pending := [], pendingCount := 0, writeOffset := w.writeOffset + |w.pending|,
         groupSum := w.groupSum + w.pendingCount, maxGroup := Max(w.maxGroup, w.pendingCount),
         calls := Moved(w.calls, id, Writing(w.writeOffset, w.pending)))
  }

  /** What appending a frame does, before anyone asks who commits it. */
  function AppendStep(w: World, id: nat, frame: seq<uint8>, phase: Phase): World {
    var end := w.writeOffset + |w.pending| + |frame|;
    w.(pending := w.pending + frame, pendingCount := w.pendingCount + 1, stream := w.stream + frame,
       calls := w.calls[id := Call(frame, end, phase)])
  }

  function JoinStep(w: World, id: nat, frame: seq<uint8>): World {
    var end := w.writeOffset + |w.pending| + |frame|;
    if w.leader.Some? then
      AppendStep(w, id, frame, if w.durableUpto < end then Asleep else Returned(true))
    else
      var led := AppendStep(w, id, frame, Lingering).(leader := Some(id));
      if w.lingers then led else TakeStep(led, id)
  }

  /** The write stores the first `stored` bytes; it fails if that is not all. */
  function WriteStep(w: World, id: nat, stored: nat): World
    requires id in w.calls && w.calls[id].phase.Writing? && stored <= |w.calls[id].phase.buf|
  {
    var at, buf := w.calls[id].phase.at, w.calls[id].phase.buf;
    w.(file := Stored(w.file, at, buf[..stored]),
       calls := Moved(w.calls, id, if stored == |buf| then Written(at, buf) else Flushed(at, buf, false)))
  }

  function SyncStep(w: World, id: nat, ok: bool): World
    requires id in w.calls && w.calls[id].phase.Written?
  {
    var at, buf := w.calls[id].phase.at, w.calls[id].phase.buf;
    w.(synced := if ok then w.file else w.synced, calls := Moved(w.calls, id, Flushed(at, buf, ok)))
  }

  /** The mark is raised over the group and everybody is woken. */
  function RaiseMark(w: World, end: nat): World {
    w.(fsyncs := w.fsyncs + 1, durableUpto := Max(w.durableUpto, end), calls := Woken(w.calls))
  }

  function PublishStep(w: World, id: nat): World
    requires id in w.calls && w.calls[id].phase.Flushed?
  {
    var call := w.calls[id];
    var end := call.phase.at + |call.phase.buf|;
    var raised := RaiseMark(w, end);
    if !call.phase.ok then
      raised.(leader := None, calls := Moved(raised.calls, id, Returned(false)),
              torn := w.torn + Span(call.phase.at, end))
    else if call.end <= raised.durableUpto && w.pending == [] then
      raised.(leader := None, calls := Moved(raised.calls, id, Returned(true)))
    else
      TakeStep(raised, id)
  }

  function RecheckStep(w: World, id: nat): World
    requires id in w.calls
  {
    w.(calls := Moved(w.calls, id, if w.durableUpto < w.calls[id].end then Asleep else Returned(true)))
  }

  datatype Step =
    | Join(id: nat, payload: seq<uint8>, digest: Digest)
    | Linger(id: nat)
    | Write(id: nat, stored: nat)
    | Sync(id: nat, ok: bool)
    | Publish(id: nat)
    | Recheck(id: nat)

  predicate Enabled(w: World, step: Step) {
    match step
    case Join(id, _, _) => id !in w.calls
    case Linger(id) => id in w.calls && w.calls[id].phase.Lingering?
    case Write(id, stored) => id in w.calls && w.calls[id].phase.Writing? && stored <= |w.calls[id].phase.buf|
    case Sync(id, _) => id in w.calls && w.calls[id].phase.Written?
    case Publish(id) => id in w.calls && w.calls[id].phase.Flushed?
    case Recheck(id) => id in w.calls && w.calls[id].phase.Awake?
  }

  function Apply(w: World, step: Step): World
    requires Enabled(w, step)
  {
    match step
    case Join(id, payload, digest) => JoinStep(w, id, FrameOf(payload, digest))
    case Linger(id) => TakeStep(w, id)
    case Write(id, stored) => WriteStep(w, id, stored)
    case Sync(id, ok) => SyncStep(w, id, ok)
    case Publish(id) => PublishStep(w, id)
    case Recheck(id) => RecheckStep(w, id)
  }

  /** A write or a sync that fails. */
  predicate Fails(w: World, step: Step)
    requires Enabled(w, step)
  {
    match step
    case Write(id, stored) => stored < |w.calls[id].phase.buf|
    case Sync(_, ok) => !ok
    case _ => false
  }

  function Fresh(lingers: bool): World {
    World(lingers, [], 0, 0, 0, None, 0, 0, 0, map[], map[], map[], [], {})
  }

  /** Every interleaving: each world follows from the one before by an enabled step. */
  ghost predicate IsRun(run: seq<World>) {
    && |run| > 0
    && (exists lingers :: run[0] == Fresh(lingers))
    && forall i :: 0 < i < |run| ==> Follows(run[i - 1], run[i])
  }

  ghost predicate Follows(w: World, next: World) {
    exists step :: Enabled(w, step) && next == Apply(w, step)
  }

  // What every step keeps

  ghost predicate StreamSplits(stream: seq<uint8>, writeOffset: nat, pending: seq<uint8>) {
    && |stream| == writeOffset + |pending|
    && stream[writeOffset..] == pending
  }

  /** A frame lies in the stream exactly where its call says. */
  ghost predicate Placed(call: Call, stream: seq<uint8>) {
    && 0 < |call.frame| <= call.end <= |stream|
    && stream[call.Start()..call.end] == call.frame
  }

  ghost predicate Apart(a: Call, b: Call) {
    a.end <= b.Start() || b.end <= a.Start()
  }

  ghost predicate FramesPlaced(calls: map<nat, Call>, stream: seq<uint8>) {
    && (forall id :: id in calls ==> Placed(calls[id], stream))
    && (forall i, j :: i in calls && j in calls && i != j ==> Apart(calls[i], calls[j]))
  }

  /** At most one thread leads, and `committing` says whether one does. */
  ghost predicate OneLeader(calls: map<nat, Call>, leader: Option<nat>) {
    && (leader.Some? ==> leader.value in calls && Leads(calls[leader.value].phase))
    && (forall id :: id in calls && Leads(calls[id].phase) ==> leader == Some(id))
  }

  /** The group in hand is the stretch of the stream that is next to become durable,
      and covers the leader's own frame. */
  ghost predicate Hand(call: Call, stream: seq<uint8>, writeOffset: nat, durableUpto: nat) {
    match call.phase
    case Lingering => durableUpto == writeOffset < |stream|
    case Writing(at, buf) => InHand(call.end, at, buf, stream, writeOffset, durableUpto)
    case Written(at, buf) => InHand(call.end, at, buf, stream, writeOffset, durableUpto)
    case Flushed(at, buf, _) => InHand(call.end, at, buf, stream, writeOffset, durableUpto)
    case _ => true
  }

  ghost predicate InHand(end: nat, at: nat, buf: seq<uint8>, stream: seq<uint8>, writeOffset: nat, durableUpto: nat) {
    && at == durableUpto && at + |buf| == writeOffset <= |stream| && end <= writeOffset
    && 0 < |buf| && buf == stream[at..writeOffset]
  }

  ghost predicate GroupInHand(w: World) {
    match w.leader
    case None => w.durableUpto == w.writeOffset
    case Some(id) => id in w.calls && Hand(w.calls[id], w.stream, w.writeOffset, w.durableUpto)
  }

  /** No wake-up is lost: only a thread whose bytes are not covered yet sleeps. */
  ghost predicate SleepersUncovered(calls: map<nat, Call>, durableUpto: nat) {
    forall id :: id in calls ==>
      && (calls[id].phase.Asleep? ==> durableUpto < calls[id].end)
      && (calls[id].phase.Returned? ==> calls[id].end <= durableUpto)
  }

  /** How far the file, and its durable part, are known to hold the stream. */
  predicate HasWritten(phase: Phase) { phase.Written? || HasSynced(phase) }

  predicate HasSynced(phase: Phase) { phase.Flushed? && phase.ok }

  ghost function WrittenUpto(w: World): nat {
    if w.leader.Some? && w.leader.value in w.calls && HasWritten(w.calls[w.leader.value].phase)
    then w.writeOffset else w.durableUpto
  }

  ghost function SyncedUpto(w: World): nat {
    if w.leader.Some? && w.leader.value in w.calls && HasSynced(w.calls[w.leader.value].phase)
    then w.writeOffset else w.durableUpto
  }

  /** What is in the file is the stream, nothing at or past `limit` is in it, and
      everything below `upto` is, apart from torn groups. */
  ghost predicate Mirrors(file: map<nat, uint8>, stream: seq<uint8>, limit: nat, upto: nat, torn: set<nat>) {
    && (forall o :: o in file ==> o < limit && o < |stream| && file[o] == stream[o])
    && (forall o: nat :: o < upto && o !in torn ==> o in file)
  }

  ghost predicate Below(torn: set<nat>, durableUpto: nat) {
    forall o :: o in torn ==> o < durableUpto
  }

  ghost predicate FilesMirror(w: World) {
    && Mirrors(w.file, w.stream, w.writeOffset, WrittenUpto(w), w.torn)
    && Mirrors(w.synced, w.stream, SyncedUpto(w), SyncedUpto(w), w.torn)
    && Below(w.torn, w.durableUpto)
    && w.synced.Keys <= w.file.Keys
  }

  ghost predicate Whole(calls: map<nat, Call>, mark: nat) {
    forall id :: id in calls ==> calls[id].end <= mark || mark <= calls[id].Start()
  }

  ghost predicate TornWhole(calls: map<nat, Call>, torn: set<nat>) {
    forall id, o :: id in calls && calls[id].Start() <= o < calls[id].end ==>
      (o in torn <==> calls[id].end - 1 in torn)
  }

  /** A group holds whole frames: no mark lies inside one, and a frame is torn
      altogether or not at all. */
  ghost predicate GroupsWhole(calls: map<nat, Call>, writeOffset: nat, durableUpto: nat, torn: set<nat>) {
    Whole(calls, writeOffset) && Whole(calls, durableUpto) && TornWhole(calls, torn)
  }

  /** Nothing is left behind when nobody commits, unless a group was torn. */
  ghost predicate NothingStranded(w: World) {
    w.torn == {} && w.leader.None? ==> w.pending == []
  }

  /** Every call is counted in exactly one group. */
  ghost predicate GroupsCounted(w: World) {
    && w.groupSum + w.pendingCount == |w.calls|
    && w.maxGroup <= w.groupSum
  }

  ghost predicate Inv(w: World) {
    && StreamSplits(w.stream, w.writeOffset, w.pending)
    && FramesPlaced(w.calls, w.stream) && OneLeader(w.calls, w.leader) && GroupInHand(w)
    && SleepersUncovered(w.calls, w.durableUpto) && FilesMirror(w) && NothingStranded(w) && GroupsCounted(w)
    && GroupsWhole(w.calls, w.writeOffset, w.durableUpto, w.torn)
  }

  // The parts of it, one at a time

  /** The calls are the same but for where each stands. */
  ghost predicate Rephased(calls: map<nat, Call>, next: map<nat, Call>) {
    && next.Keys == calls.Keys
    && forall id :: id in calls ==> next[id].frame == calls[id].frame && next[id].end == calls[id].end
  }

  lemma RephasedKeeps(calls: map<nat, Call>, next: map<nat, Call>, stream: seq<uint8>)
    requires Rephased(calls, next) && FramesPlaced(calls, stream)
    ensures FramesPlaced(next, stream) && |next| == |calls|
  {
    assert |next| == |next.Keys| && |calls| == |calls.Keys|;
    forall id | id in next ensures Placed(next[id], stream) { assert Placed(calls[id], stream); }
    forall i, j | i in next && j in next && i != j ensures Apart(next[i], next[j]) {
      assert Apart(calls[i], calls[j]);
    }
  }

  lemma RephasedWhole(calls: map<nat, Call>, next: map<nat, Call>, writeOffset: nat, durableUpto: nat, torn: set<nat>)
    requires Rephased(calls, next) && GroupsWhole(calls, writeOffset, durableUpto, torn)
    ensures GroupsWhole(next, writeOffset, durableUpto, torn)
  {
  }

  /** A group takes everything there is, and so no frame straddles its end. */
  lemma TakenWhole(calls: map<nat, Call>, stream: seq<uint8>, writeOffset: nat, durableUpto: nat, torn: set<nat>)
    requires FramesPlaced(calls, stream) && GroupsWhole(calls, writeOffset, durableUpto, torn)
    ensures GroupsWhole(calls, |stream|, durableUpto, torn)
  {
    forall id | id in calls ensures calls[id].end <= |stream| { assert Placed(calls[id], stream); }
  }

  lemma RaisedWhole(calls: map<nat, Call>, writeOffset: nat, durableUpto: nat, torn: set<nat>)
    requires GroupsWhole(calls, writeOffset, durableUpto, torn) && durableUpto <= writeOffset
    ensures GroupsWhole(calls, writeOffset, writeOffset, torn)
    ensures GroupsWhole(calls, writeOffset, writeOffset, torn + Span(durableUpto, writeOffset))
  {
  }

  lemma AppendedWhole(calls: map<nat, Call>, id: nat, call: Call, writeOffset: nat, durableUpto: nat, torn: set<nat>)
    requires GroupsWhole(calls, writeOffset, durableUpto, torn) && durableUpto <= writeOffset <= call.Start()
    requires Below(torn, durableUpto) && id !in calls && |call.frame| > 0
    ensures GroupsWhole(calls[id := call], writeOffset, durableUpto, torn)
  {
  }

  lemma LeaderMoves(calls: map<nat, Call>, leader: Option<nat>, id: nat, phase: Phase)
    requires OneLeader(calls, leader) && id in calls && Leads(calls[id].phase)
    ensures leader == Some(id) && Rephased(calls, Moved(calls, id, phase))
    ensures OneLeader(Moved(calls, id, phase), if Leads(phase) then leader else None)
  {
  }

  lemma FollowerMoves(calls: map<nat, Call>, leader: Option<nat>, id: nat, phase: Phase)
    requires OneLeader(calls, leader) && id in calls && !Leads(calls[id].phase) && !Leads(phase)
    ensures Rephased(calls, Moved(calls, id, phase)) && OneLeader(Moved(calls, id, phase), leader)
    ensures leader.Some? ==> leader.value in calls && Moved(calls, id, phase)[leader.value] == calls[leader.value]
  {
  }

  /** A broadcast leaves the leader alone, and nobody asleep. */
  lemma BroadcastWakes(calls: map<nat, Call>, leader: Option<nat>)
    requires OneLeader(calls, leader)
    ensures Rephased(calls, Woken(calls)) && OneLeader(Woken(calls), leader)
    ensures leader.Some? ==> leader.value in calls && Woken(calls)[leader.value] == calls[leader.value]
    ensures forall id :: id in calls ==> !Woken(calls)[id].phase.Asleep?
  {
  }

  lemma EndsInStream(calls: map<nat, Call>, stream: seq<uint8>, id: nat)
    requires FramesPlaced(calls, stream) && id in calls
    ensures 0 < |calls[id].frame| <= calls[id].end <= |stream|
    ensures stream[calls[id].Start()..calls[id].end] == calls[id].frame
  {
  }

  lemma FrameAppended(calls: map<nat, Call>, stream: seq<uint8>, id: nat, frame: seq<uint8>, phase: Phase)
    requires FramesPlaced(calls, stream) && id !in calls && |frame| > 0
    ensures FramesPlaced(calls[id := Call(frame, |stream| + |frame|, phase)], stream + frame)
  {
    var next := calls[id := Call(frame, |stream| + |frame|, phase)];
    forall i | i in next ensures Placed(next[i], stream + frame) {
      if i != id {
        assert Placed(calls[i], stream);
        assert (stream + frame)[calls[i].Start()..calls[i].end] == stream[calls[i].Start()..calls[i].end];
      }
    }
    forall i, j | i in next && j in next && i != j ensures Apart(next[i], next[j]) {
      if i == id { assert Placed(calls[j], stream); }
      else if j == id { assert Placed(calls[i], stream); }
      else { assert Apart(calls[i], calls[j]); }
    }
  }

  lemma HandGrows(call: Call, stream: seq<uint8>, writeOffset: nat, durableUpto: nat, frame: seq<uint8>)
    requires Hand(call, stream, writeOffset, durableUpto)
    ensures Hand(call, stream + frame, writeOffset, durableUpto)
  {
    match call.phase
    case Writing(at, buf) => assert (stream + frame)[at..writeOffset] == stream[at..writeOffset];
    case Written(at, buf) => assert (stream + frame)[at..writeOffset] == stream[at..writeOffset];
    case Flushed(at, buf, _) => assert (stream + frame)[at..writeOffset] == stream[at..writeOffset];
    case _ =>
  }

  lemma MirrorGrows(file: map<nat, uint8>, stream: seq<uint8>, limit: nat, upto: nat, torn: set<nat>, frame: seq<uint8>)
    requires Mirrors(file, stream, limit, upto, torn)
    ensures Mirrors(file, stream + frame, limit, upto, torn)
  {
  }

  lemma StreamGrows(stream: seq<uint8>, writeOffset: nat, pending: seq<uint8>, frame: seq<uint8>)
    requires StreamSplits(stream, writeOffset, pending)
    ensures StreamSplits(stream + frame, writeOffset, pending + frame)
  {
    assert (stream + frame)[writeOffset..] == stream[writeOffset..] + frame;
  }

  lemma MarkIsBehind(w: World)
    requires Inv(w)
    ensures w.durableUpto <= w.writeOffset <= |w.stream|
  {
    hide FramesPlaced, Mirrors, SleepersUncovered, GroupsWhole;
  }

  lemma FollowerAppends(w: World, id: nat, frame: seq<uint8>)
    requires Inv(w) && id !in w.calls && |frame| > 0 && w.leader.Some?
    ensures Inv(AppendStep(w, id, frame, Asleep))
  {
    hide Hand, FramesPlaced, Mirrors, Below, StreamSplits, GroupsWhole;
    var next := AppendStep(w, id, frame, Asleep);
    MarkIsBehind(w);
    AppendMirrors(w, id, frame, Asleep);
    HandGrows(w.calls[w.leader.value], w.stream, w.writeOffset, w.durableUpto, frame);
  }

  lemma LeaderAppends(w: World, id: nat, frame: seq<uint8>)
    requires Inv(w) && id !in w.calls && |frame| > 0 && w.leader.None?
    ensures Inv(AppendStep(w, id, frame, Lingering).(leader := Some(id)))
  {
    hide FramesPlaced, Mirrors, Below, StreamSplits, GroupsWhole;
    var next := AppendStep(w, id, frame, Lingering).(leader := Some(id));
    AppendMirrors(w, id, frame, Lingering);
  }

  /** What appending leaves as it was, and what it moves along with the stream. */
  lemma AppendMirrors(w: World, id: nat, frame: seq<uint8>, phase: Phase)
    requires Inv(w) && id !in w.calls && |frame| > 0
    ensures var next := AppendStep(w, id, frame, phase);
            && GroupsWhole(next.calls, w.writeOffset, w.durableUpto, w.torn)
            && next.calls[id] == Call(frame, |w.stream| + |frame|, phase) && |w.stream| >= w.writeOffset
            && |next.calls| == |w.calls| + 1
            && StreamSplits(next.stream, next.writeOffset, next.pending) && FramesPlaced(next.calls, next.stream)
            && Mirrors(w.file, next.stream, w.writeOffset, WrittenUpto(w), w.torn)
            && Mirrors(w.synced, next.stream, SyncedUpto(w), SyncedUpto(w), w.torn)
  {
    hide FramesPlaced, Mirrors, OneLeader, GroupInHand, SleepersUncovered, GroupsWhole, Below;
    MarkIsBehind(w);
    AppendedWhole(w.calls, id, Call(frame, |w.stream| + |frame|, phase), w.writeOffset, w.durableUpto, w.torn);
    StreamGrows(w.stream, w.writeOffset, w.pending, frame);
    FrameAppended(w.calls, w.stream, id, frame, phase);
    MirrorGrows(w.file, w.stream, w.writeOffset, WrittenUpto(w), w.torn, frame);
    MirrorGrows(w.synced, w.stream, SyncedUpto(w), SyncedUpto(w), w.torn, frame);
  }

  lemma JoinKeeps(w: World, id: nat, frame: seq<uint8>)
    requires Inv(w) && id !in w.calls && |frame| > 0
    ensures Inv(JoinStep(w, id, frame))
  {
    hide Inv;
    MarkIsBehind(w);
    if w.leader.Some? {
      FollowerAppends(w, id, frame);
    } else {
      LeaderAppends(w, id, frame);
      var led := AppendStep(w, id, frame, Lingering).(leader := Some(id));
      if !w.lingers { TakeKeeps(led, id); }
    }
  }

  lemma MovedSettles(calls: map<nat, Call>, id: nat, phase: Phase, durableUpto: nat)
    requires SleepersUncovered(calls, durableUpto) && id in calls
    requires phase.Asleep? ==> durableUpto < calls[id].end
    requires phase.Returned? ==> calls[id].end <= durableUpto
    ensures SleepersUncovered(Moved(calls, id, phase), durableUpto)
  {
  }

  /** The leader always finds something to take. */
  lemma TakeKeeps(w: World, id: nat)
    requires Inv(w) && id in w.calls && w.calls[id].phase.Lingering?
    ensures w.pending != [] && Inv(TakeStep(w, id))
  {
    hide FramesPlaced, Mirrors, Below, Apart, Woken, Rephased, GroupsWhole, OneLeader, SleepersUncovered;
    MovedSettles(w.calls, id, Writing(w.writeOffset, w.pending), w.durableUpto);
    EndsInStream(w.calls, w.stream, id);
    LeaderMoves(w.calls, w.leader, id, Writing(w.writeOffset, w.pending));
    RephasedKeeps(w.calls, TakeStep(w, id).calls, w.stream);
    TakenWhole(w.calls, w.stream, w.writeOffset, w.durableUpto, w.torn);
    RephasedWhole(w.calls, TakeStep(w, id).calls, |w.stream|, w.durableUpto, w.torn);
    WideMirror(w.file, w.stream, w.writeOffset, w.writeOffset + |w.pending|, w.durableUpto, w.torn);
  }

  lemma WideMirror(file: map<nat, uint8>, stream: seq<uint8>, limit: nat, wider: nat, upto: nat, torn: set<nat>)
    requires Mirrors(file, stream, limit, upto, torn) && limit <= wider
    ensures forall less: nat :: less <= upto ==> Mirrors(file, stream, wider, less, torn)
  {
  }

  /** The leader's own sections that leave the offsets alone. */
  lemma LeaderMovesOn(w: World, next: World, id: nat, phase: Phase)
    requires Inv(w) && id in w.calls && Leads(w.calls[id].phase) && Leads(phase)
    requires next == w.(file := next.file, synced := next.synced, calls := Moved(w.calls, id, phase))
    requires Hand(next.calls[id], w.stream, w.writeOffset, w.durableUpto) && FilesMirror(next)
    ensures Inv(next)
  {
    hide FramesPlaced, FilesMirror, Hand, GroupsWhole, Rephased;
    LeaderMoves(w.calls, w.leader, id, phase);
    RephasedWhole(w.calls, next.calls, w.writeOffset, w.durableUpto, w.torn);
    RephasedKeeps(w.calls, next.calls, w.stream);
  }

  /** Writing a group next to what is there, in full or in part. */
  lemma WriteMirrors(file: map<nat, uint8>, stream: seq<uint8>, at: nat, buf: seq<uint8>, stored: nat, torn: set<nat>)
    requires at + |buf| <= |stream| && buf == stream[at..at + |buf|] && stored <= |buf|
    requires Mirrors(file, stream, at + |buf|, at, torn)
    ensures Mirrors(Stored(file, at, buf[..stored]), stream, at + |buf|, at, torn)
    ensures stored == |buf| ==> Mirrors(Stored(file, at, buf), stream, at + |buf|, at + |buf|, torn)
    ensures file.Keys <= Stored(file, at, buf[..stored]).Keys
  {
    assert stored == |buf| ==> buf[..stored] == buf;
  }

  lemma WriteKeeps(w: World, id: nat, stored: nat)
    requires Inv(w) && Enabled(w, Write(id, stored))
    ensures Inv(WriteStep(w, id, stored))
  {
    hide FramesPlaced, SleepersUncovered, Mirrors, Stored, GroupsWhole;
    var next := WriteStep(w, id, stored);
    var at, buf := w.calls[id].phase.at, w.calls[id].phase.buf;
    WriteMirrors(w.file, w.stream, at, buf, stored, w.torn);
    assert stored == |buf| ==> buf[..stored] == buf;
    LeaderMovesOn(w, next, id, next.calls[id].phase);
  }

  lemma SyncKeeps(w: World, id: nat, ok: bool)
    requires Inv(w) && Enabled(w, Sync(id, ok))
    ensures Inv(SyncStep(w, id, ok))
  {
    hide FramesPlaced, SleepersUncovered, Mirrors, GroupsWhole;
    var next := SyncStep(w, id, ok);
    WideMirror(w.file, w.stream, w.writeOffset, w.writeOffset, w.writeOffset, w.torn);
    LeaderMovesOn(w, next, id, next.calls[id].phase);
  }

  lemma RecheckKeeps(w: World, id: nat)
    requires Inv(w) && Enabled(w, Recheck(id))
    ensures Inv(RecheckStep(w, id))
  {
    hide FramesPlaced, Mirrors, Hand, GroupsWhole, Rephased, Below, OneLeader, SleepersUncovered;
    var next := RecheckStep(w, id);
    MovedSettles(w.calls, id, next.calls[id].phase, w.durableUpto);
    FollowerMoves(w.calls, w.leader, id, next.calls[id].phase);
    RephasedWhole(w.calls, next.calls, w.writeOffset, w.durableUpto, w.torn);
    RephasedKeeps(w.calls, next.calls, w.stream);
  }

  lemma WokenSettle(calls: map<nat, Call>, id: nat, phase: Phase, durableUpto: nat, raised: nat)
    requires SleepersUncovered(calls, durableUpto) && id in calls && durableUpto <= raised
    requires !phase.Asleep? && (phase.Returned? ==> calls[id].end <= raised)
    ensures SleepersUncovered(Moved(Woken(calls), id, phase), raised)
    ensures Rephased(calls, Moved(Woken(calls), id, phase))
  {
  }

  /** Raising the mark and waking everybody, and then moving the leader on. */
  lemma PublishedCalls(w: World, id: nat, phase: Phase, raised: nat)
    requires Inv(w) && id in w.calls && Leads(w.calls[id].phase) && w.durableUpto <= raised
    requires (phase.Returned? && w.calls[id].end <= raised) || phase.Lingering?
    ensures var calls := Moved(Woken(w.calls), id, phase);
            && FramesPlaced(calls, w.stream) && |calls| == |w.calls| && w.leader == Some(id)
            && OneLeader(calls, if phase.Lingering? then w.leader else None)
            && SleepersUncovered(calls, raised) && Rephased(w.calls, calls)
  {
    hide FramesPlaced, FilesMirror, GroupInHand, SleepersUncovered, OneLeader, Rephased, GroupsWhole;
    BroadcastWakes(w.calls, w.leader);
    LeaderMoves(w.calls, w.leader, id, phase);
    LeaderMoves(Woken(w.calls), w.leader, id, phase);
    WokenSettle(w.calls, id, phase, w.durableUpto, raised);
    RephasedKeeps(w.calls, Moved(Woken(w.calls), id, phase), w.stream);
  }

  /** The mark is raised over the group in hand, which is then no longer in hand. */
  function Raised(w: World, id: nat): World
    requires id in w.calls
  {
    w.(fsyncs := w.fsyncs + 1, durableUpto := w.writeOffset,
       calls := Moved(Woken(w.calls), id, if w.pending == [] then Returned(true) else Lingering),
       leader := if w.pending == [] then None else w.leader)
  }

  lemma RaisedKeeps(w: World, id: nat)
    requires Inv(w) && Enabled(w, Publish(id)) && w.calls[id].phase.ok
    ensures Inv(Raised(w, id))
  {
    hide FramesPlaced, Mirrors, SleepersUncovered, Woken, GroupsWhole, Rephased;
    MarkIsBehind(w);
    RaisedWhole(w.calls, w.writeOffset, w.durableUpto, w.torn);
    PublishedCalls(w, id, if w.pending == [] then Returned(true) else Lingering, w.writeOffset);
    RephasedWhole(w.calls, Raised(w, id).calls, w.writeOffset, w.writeOffset, w.torn);
  }

  /** The group is durable and the leader is done, or there is a next group. */
  lemma PublishGoodKeeps(w: World, id: nat)
    requires Inv(w) && Enabled(w, Publish(id)) && w.calls[id].phase.ok
    ensures Inv(PublishStep(w, id))
    ensures PublishStep(w, id).leader == if w.pending == [] then None else Some(id)
    ensures id in PublishStep(w, id).calls
    ensures PublishStep(w, id).calls[id].phase ==
            if w.pending == [] then Returned(true) else Writing(w.writeOffset, w.pending)
  {
    hide FramesPlaced, FilesMirror, SleepersUncovered, Woken, NothingStranded, GroupsCounted, StreamSplits, GroupsWhole;
    RaisedKeeps(w, id);
    if w.pending != [] {
      TakeKeeps(Raised(w, id), id);
      RaiseThenTake(w, id);
    }
  }

  lemma RaiseThenTake(w: World, id: nat)
    requires Inv(w) && Enabled(w, Publish(id)) && w.calls[id].phase.ok && w.pending != []
    ensures PublishStep(w, id) == TakeStep(Raised(w, id), id)
  {
    hide FramesPlaced, Mirrors, SleepersUncovered, GroupsWhole;
    var next := Writing(w.writeOffset, w.pending);
    assert Moved(Moved(Woken(w.calls), id, Lingering), id, next) == Moved(Woken(w.calls), id, next);
  }

  lemma TornMirrors(file: map<nat, uint8>, stream: seq<uint8>, limit: nat, upto: nat, raised: nat, torn: set<nat>)
    requires Mirrors(file, stream, limit, upto, torn) && upto <= raised && limit <= raised
    ensures Mirrors(file, stream, raised, raised, torn + Span(upto, raised))
  {
  }

  lemma PublishBadKeeps(w: World, id: nat)
    requires Inv(w) && Enabled(w, Publish(id)) && !w.calls[id].phase.ok
    ensures Inv(PublishStep(w, id)) && PublishStep(w, id).leader == None && PublishStep(w, id).torn != {}
  {
    hide FramesPlaced, Mirrors, SleepersUncovered, Woken, GroupsWhole, Rephased;
    MarkIsBehind(w);
    PublishedCalls(w, id, Returned(false), w.writeOffset);
    RaisedWhole(w.calls, w.writeOffset, w.durableUpto, w.torn);
    RephasedWhole(w.calls, PublishStep(w, id).calls, w.writeOffset, w.writeOffset,
                  w.torn + Span(w.durableUpto, w.writeOffset));
    TornMirrors(w.file, w.stream, w.writeOffset, w.durableUpto, w.writeOffset, w.torn);
    TornMirrors(w.synced, w.stream, w.durableUpto, w.durableUpto, w.writeOffset, w.torn);
    assert w.durableUpto in PublishStep(w, id).torn;
  }

  lemma StepKeeps(w: World, step: Step)
    requires Inv(w) && Enabled(w, step)
    ensures Inv(Apply(w, step))
  {
    hide Inv;
    match step
    case Join(id, payload, digest) => JoinKeeps(w, id, FrameOf(payload, digest));
    case Linger(id) => TakeKeeps(w, id);
    case Write(id, stored) => WriteKeeps(w, id, stored);
    case Sync(id, ok) => SyncKeeps(w, id, ok);
    case Publish(id) => if w.calls[id].phase.ok { PublishGoodKeeps(w, id); } else { PublishBadKeeps(w, id); }
    case Recheck(id) => RecheckKeeps(w, id);
  }

  lemma StepAt(run: seq<World>, i: nat) returns (step: Step)
    requires IsRun(run) && 0 < i < |run|
    ensures Enabled(run[i - 1], step) && run[i] == Apply(run[i - 1], step)
  {
    assert Follows(run[i - 1], run[i]);
    step :| Enabled(run[i - 1], step) && run[i] == Apply(run[i - 1], step);
  }

  lemma FreshIsGood(lingers: bool)
    ensures Inv(Fresh(lingers))
  {
  }

  lemma {:induction false} RunKeeps(run: seq<World>, i: nat)
    requires IsRun(run) && i < |run|
    ensures Inv(run[i])
  {
    hide Inv, Enabled, Apply, Follows, Fresh;
    if i == 0 {
      var lingers :| run[0] == Fresh(lingers);
      FreshIsGood(lingers);
    } else {
      RunKeeps(run, i - 1);
      var step := StepAt(run, i);
      StepKeeps(run[i - 1], step);
    }
  }

  // Durability

  /** The synced file holds the frame where `put` said it would. */
  ghost predicate Durable(call: Call, synced: map<nat, uint8>) {
    && |call.frame| <= call.end
    && forall o :: call.Start() <= o < call.end ==> o in synced && synced[o] == call.frame[o - call.Start()]
  }

  /** The group that carried the frame could not be written or synced. */
  ghost predicate Torn(w: World, id: nat)
    requires id in w.calls
  {
    w.calls[id].end - 1 in w.torn
  }

  lemma CoveredIsDurable(w: World, id: nat)
    requires Inv(w) && id in w.calls && w.calls[id].end <= SyncedUpto(w) && !Torn(w, id)
    ensures Durable(w.calls[id], w.synced)
  {
    EndsInStream(w.calls, w.stream, id);
    assert Mirrors(w.synced, w.stream, SyncedUpto(w), SyncedUpto(w), w.torn);
    assert TornWhole(w.calls, w.torn);
    hide Inv, Mirrors, SyncedUpto;
    MirroredIsDurable(w.calls[id], w.synced, w.stream, SyncedUpto(w), w.torn);
  }

  lemma MirroredIsDurable(call: Call, synced: map<nat, uint8>, stream: seq<uint8>, upto: nat, torn: set<nat>)
    requires Mirrors(synced, stream, upto, upto, torn) && 0 < |call.frame| <= call.end <= |stream| && call.end <= upto
    requires stream[call.Start()..call.end] == call.frame
    requires forall o :: call.Start() <= o < call.end ==> o !in torn
    ensures Durable(call, synced)
  {
    forall o | call.Start() <= o < call.end ensures o in synced && synced[o] == call.frame[o - call.Start()] {
      assert call.frame[o - call.Start()] == stream[call.Start()..call.end][o - call.Start()] == stream[o];
    }
  }

  /** When a `put` has returned its content address, the synced file holds its frame,
      in every interleaving of any number of calls and whatever failed elsewhere, so
      long as the group that carried that frame was written and synced. */
  lemma PutIsDurable(run: seq<World>, i: nat, id: nat)
    requires IsRun(run) && i < |run| && id in run[i].calls
    requires run[i].calls[id].phase == Returned(true) && !Torn(run[i], id)
    ensures Durable(run[i].calls[id], run[i].synced)
  {
    RunKeeps(run, i);
    MarkIsBehind(run[i]);
    CoveredIsDurable(run[i], id);
  }

  /** What is durable stays so, and stays where it is. */
  lemma {:induction false} DurableStays(run: seq<World>, i: nat, j: nat, id: nat)
    requires IsRun(run) && i <= j < |run| && id in run[i].calls && Durable(run[i].calls[id], run[i].synced)
    ensures id in run[j].calls && run[j].calls[id].frame == run[i].calls[id].frame
    ensures run[j].calls[id].end == run[i].calls[id].end && Durable(run[j].calls[id], run[j].synced)
    decreases j - i
  {
    if i < j {
      hide Inv, Enabled, Apply, Follows, Durable;
      var step := StepAt(run, i + 1);
      RunKeeps(run, i);
      SyncedGrows(run[i], step, id);
      DurableStays(run, i + 1, j, id);
    }
  }

  lemma MovedRephases(calls: map<nat, Call>, id: nat, phase: Phase)
    requires id in calls
    ensures Rephased(calls, Woken(calls)) && Rephased(calls, Moved(calls, id, phase))
    ensures Rephased(calls, Moved(Woken(calls), id, phase))
  {
  }

  lemma TakeRephases(w: World, id: nat)
    requires id in w.calls
    ensures Rephased(w.calls, TakeStep(w, id).calls)
    ensures TakeStep(w, id).stream == w.stream && TakeStep(w, id).synced == w.synced
  {
    hide Rephased;
    MovedRephases(w.calls, id, Returned(true));
    MovedRephases(w.calls, id, Writing(w.writeOffset, w.pending));
  }

  /** Where a publish leaves the calls: its own moved, or a next group taken. */
  lemma PublishMoves(w: World, id: nat)
    requires Enabled(w, Publish(id))
    ensures var next, raised := PublishStep(w, id), RaiseMark(w, w.calls[id].phase.at + |w.calls[id].phase.buf|);
            && next.stream == w.stream && next.synced == w.synced && raised.calls == Woken(w.calls)
            && (next.calls == Moved(Woken(w.calls), id, Returned(false)) ||
                next.calls == Moved(Woken(w.calls), id, Returned(true)) || next.calls == TakeStep(raised, id).calls)
  {
    hide Woken, Moved, Span;
  }

  lemma PublishRephases(w: World, id: nat)
    requires Enabled(w, Publish(id))
    ensures Rephased(w.calls, PublishStep(w, id).calls)
    ensures PublishStep(w, id).stream == w.stream && PublishStep(w, id).synced == w.synced
  {
    var raised := RaiseMark(w, w.calls[id].phase.at + |w.calls[id].phase.buf|);
    PublishMoves(w, id);
    hide TakeStep, Woken, Rephased, Moved, Span, PublishStep, RaiseMark;
    MovedRephases(w.calls, id, Returned(true));
    MovedRephases(w.calls, id, Returned(false));
    TakeRephases(raised, id);
    RephasedTransitive(w.calls, raised.calls, TakeStep(raised, id).calls);
  }

  lemma RephasedTransitive(a: map<nat, Call>, b: map<nat, Call>, c: map<nat, Call>)
    requires Rephased(a, b) && Rephased(b, c)
    ensures Rephased(a, c)
  {
  }

  /** A call keeps its frame and its place. */
  lemma StepRephases(w: World, step: Step)
    requires Enabled(w, step) && !step.Join?
    ensures Rephased(w.calls, Apply(w, step).calls) && Apply(w, step).stream == w.stream
    ensures Apply(w, step).synced == w.synced || Apply(w, step).synced == w.file
  {
    hide TakeStep, PublishStep, Woken, Stored;
    match step
    case Linger(id) => TakeRephases(w, id);
    case Publish(id) => PublishRephases(w, id);
    case _ =>
  }

  lemma JoinAppends(w: World, id: nat, frame: seq<uint8>)
    requires id !in w.calls
    ensures var next := JoinStep(w, id, frame);
            && next.stream == w.stream + frame && next.synced == w.synced
            && id in next.calls && next.calls[id].end == w.writeOffset + |w.pending| + |frame|
            && forall i :: i in w.calls ==>
                 i in next.calls && next.calls[i].frame == w.calls[i].frame && next.calls[i].end == w.calls[i].end
  {
    hide TakeStep;
    if w.leader.None? && !w.lingers {
      TakeRephases(AppendStep(w, id, frame, Lingering).(leader := Some(id)), id);
    }
  }

  /** Every call keeps its frame and its place, and a sync covers the whole file. */
  lemma StepExtends(w: World, step: Step, id: nat)
    requires Enabled(w, step) && id in w.calls
    ensures id in Apply(w, step).calls && Apply(w, step).calls[id].frame == w.calls[id].frame
    ensures Apply(w, step).calls[id].end == w.calls[id].end
    ensures Apply(w, step).synced == w.synced || Apply(w, step).synced == w.file
  {
    hide JoinStep, TakeStep, PublishStep, WriteStep, SyncStep, RecheckStep, FrameOf;
    if step.Join? {
      JoinAppends(w, step.id, FrameOf(step.payload, step.digest));
    } else {
      StepRephases(w, step);
    }
  }

  lemma SyncedGrows(w: World, step: Step, id: nat)
    requires Inv(w) && Enabled(w, step) && id in w.calls && Durable(w.calls[id], w.synced)
    ensures id in Apply(w, step).calls && Apply(w, step).calls[id].frame == w.calls[id].frame
    ensures Apply(w, step).calls[id].end == w.calls[id].end && Durable(Apply(w, step).calls[id], Apply(w, step).synced)
  {
    hide FramesPlaced, OneLeader, GroupInHand, SleepersUncovered, GroupsWhole, Apply, Enabled;
    assert forall o :: o in w.synced ==> o in w.file && w.file[o] == w.synced[o];
    StepExtends(w, step, id);
  }

  /** No two frames overlap. */
  lemma FramesNeverOverlap(run: seq<World>, i: nat, a: nat, b: nat)
    requires IsRun(run) && i < |run| && a in run[i].calls && b in run[i].calls && a != b
    ensures run[i].calls[a].end <= run[i].calls[b].Start() || run[i].calls[b].end <= run[i].calls[a].Start()
  {
    RunKeeps(run, i);
    assert Apart(run[i].calls[a], run[i].calls[b]);
  }

  /** At most one thread commits, and every call is counted in one group or is pending. */
  lemma OneThreadCommits(run: seq<World>, i: nat, a: nat, b: nat)
    requires IsRun(run) && i < |run| && a in run[i].calls && b in run[i].calls
    requires Leads(run[i].calls[a].phase) && Leads(run[i].calls[b].phase)
    ensures a == b && run[i].leader == Some(a)
    ensures run[i].groupSum + run[i].pendingCount == |run[i].calls|
  {
    RunKeeps(run, i);
  }

  /** A publish releases a call when it raises the mark over the call's frame. */
  ghost predicate Releases(w: World, id: nat, other: nat)
    requires Enabled(w, Publish(id)) && other in w.calls
  {
    w.durableUpto < w.calls[other].end <= PublishStep(w, id).durableUpto
  }

  lemma LastByteMissing(call: Call, synced: map<nat, uint8>, stream: seq<uint8>, durableUpto: nat, torn: set<nat>)
    requires Mirrors(synced, stream, durableUpto, durableUpto, torn)
    requires durableUpto < call.end && 0 < |call.frame| <= call.end
    ensures !Durable(call, synced)
  {
    assert call.end - 1 !in synced;
  }

  lemma HandIsNext(w: World, id: nat)
    requires Inv(w) && Enabled(w, Publish(id))
    ensures w.leader == Some(id) && PublishStep(w, id).durableUpto == w.writeOffset
    ensures PublishStep(w, id).synced == w.synced
    ensures SyncedUpto(w) == if w.calls[id].phase.ok then w.writeOffset else w.durableUpto
    ensures w.calls[id].end <= w.writeOffset
  {
    hide FramesPlaced, FilesMirror, SleepersUncovered, GroupsWhole;
  }

  /** The mark is raised before the error is looked at, so a failed group releases its
      waiters too. What a publish releases is durable exactly when its group was
      written and synced. */
  lemma ReleasedIsDurableIffSynced(run: seq<World>, i: nat, id: nat, other: nat)
    requires IsRun(run) && i < |run| && Enabled(run[i], Publish(id))
    requires other in run[i].calls && Releases(run[i], id, other)
    ensures Durable(run[i].calls[other], PublishStep(run[i], id).synced) <==> run[i].calls[id].phase.ok
  {
    var w := run[i];
    RunKeeps(run, i);
    HandIsNext(w, id);
    hide PublishStep, SyncedUpto;
    if w.calls[id].phase.ok {
      CoveredIsDurable(w, other);
    } else {
      EndsInStream(w.calls, w.stream, other);
      LastByteMissing(w.calls[other], w.synced, w.stream, w.durableUpto, w.torn);
    }
  }

  lemma LeaderIsKnown(w: World, id: nat)
    requires Inv(w) && id in w.calls && Leads(w.calls[id].phase)
    ensures w.leader == Some(id)
  {
    hide FramesPlaced, FilesMirror, SleepersUncovered, GroupsWhole, Hand;
  }

  /** The group that carried a leader's own frame is not torn while it leads. */
  ghost predicate LeaderUntorn(w: World) {
    forall id :: id in w.calls && Leads(w.calls[id].phase) ==> !Torn(w, id)
  }

  lemma AheadIsUntorn(w: World, id: nat)
    requires Inv(w) && id in w.calls && w.durableUpto < w.calls[id].end
    ensures !Torn(w, id)
  {
    hide FramesPlaced, OneLeader, GroupInHand, SleepersUncovered, GroupsWhole, Mirrors;
  }

  /** A step tears nothing unless it ends the lead, and a thread that begins to lead has
      its frame still ahead of the mark. */
  lemma StepKeepsUntorn(w: World, step: Step)
    requires Inv(w) && Enabled(w, step) && LeaderUntorn(w)
    ensures LeaderUntorn(Apply(w, step))
  {
    var next := Apply(w, step);
    StepKeeps(w, step);
    forall id | id in next.calls && Leads(next.calls[id].phase) ensures !Torn(next, id) {
      LeaderIsKnown(next, id);
      if id !in w.calls || !Leads(w.calls[id].phase) {
        NewLeaderIsAhead(w, step, id);
      } else {
        LeaderIsKnown(w, id);
        LeadsOn(w, step, id);
      }
    }
  }

  /** Only a failed group tears anything, and its leader leaves. */
  lemma StepTears(w: World, step: Step)
    requires Enabled(w, step)
    ensures Apply(w, step).torn == w.torn || Apply(w, step).leader == None
  {
    hide Woken, Stored, FrameOf, Span, Moved;
  }

  lemma LeadsOn(w: World, step: Step, id: nat)
    requires Inv(w) && Enabled(w, step) && id in w.calls && w.leader == Some(id)
    requires id in Apply(w, step).calls && Apply(w, step).leader == Some(id)
    ensures Apply(w, step).torn == w.torn && Apply(w, step).calls[id].end == w.calls[id].end
  {
    hide Inv, Apply, Enabled;
    StepExtends(w, step, id);
    StepTears(w, step);
  }

  lemma NewLeaderIsAhead(w: World, step: Step, id: nat)
    requires Inv(w) && Enabled(w, step) && Inv(Apply(w, step))
    requires id in Apply(w, step).calls && Leads(Apply(w, step).calls[id].phase)
    requires id in w.calls ==> !Leads(w.calls[id].phase)
    ensures !Torn(Apply(w, step), id)
  {
    var next := Apply(w, step);
    MarkIsBehind(w);
    hide FramesPlaced, FilesMirror, SleepersUncovered, GroupsWhole, Hand, StreamSplits, Stored, FrameOf, Inv;
    assert step.Join? && step.id == id by {
      hide JoinStep;
      if !step.Join? { OnlyLeadersLead(w, step, id); }
    }
    JoinAppends(w, id, FrameOf(step.payload, step.digest));
    assert next.durableUpto == w.durableUpto;
    AheadIsUntorn(next, id);
  }

  /** Nobody begins to lead except by joining. */
  lemma OnlyLeadersLead(w: World, step: Step, id: nat)
    requires Enabled(w, step) && !step.Join? && id in Apply(w, step).calls
    requires id in w.calls ==> !Leads(w.calls[id].phase)
    ensures !Leads(Apply(w, step).calls[id].phase)
  {
    WokenLeads(w.calls);
    hide Stored, Woken, Span, TakeStep, PublishStep;
    match step
    case Publish(other) => PublishLeads(w, other, id);
    case Linger(other) => TakeLeads(w, other, id);
    case _ =>
  }

  lemma WokenLeads(calls: map<nat, Call>)
    ensures Woken(calls).Keys == calls.Keys
    ensures forall id :: id in calls ==> (Leads(Woken(calls)[id].phase) <==> Leads(calls[id].phase))
  {
  }

  lemma TakeLeads(w: World, other: nat, id: nat)
    requires other in w.calls && Leads(w.calls[other].phase)
    requires id in w.calls ==> !Leads(w.calls[id].phase)
    ensures id in TakeStep(w, other).calls ==> !Leads(TakeStep(w, other).calls[id].phase)
  {
    WokenLeads(w.calls);
    hide Woken;
  }

  lemma PublishLeads(w: World, other: nat, id: nat)
    requires Enabled(w, Publish(other)) && (id in w.calls ==> !Leads(w.calls[id].phase))
    ensures id in PublishStep(w, other).calls ==> !Leads(PublishStep(w, other).calls[id].phase)
  {
    PublishMoves(w, other);
    WokenLeads(w.calls);
    hide Woken, TakeStep, PublishStep, RaiseMark, Span;
    TakeLeads(RaiseMark(w, w.calls[other].phase.at + |w.calls[other].phase.buf|), other, id);
  }

  lemma {:induction false} LeadersAreUntorn(run: seq<World>, i: nat)
    requires IsRun(run) && i < |run|
    ensures LeaderUntorn(run[i])
  {
    hide Inv, IsRun, Apply, Enabled, LeaderUntorn;
    if i == 0 {
      NobodyLeads(run);
    } else {
      var step := StepAt(run, i);
      RunKeeps(run, i - 1);
      LeadersAreUntorn(run, i - 1);
      StepKeepsUntorn(run[i - 1], step);
    }
  }

  lemma NobodyLeads(run: seq<World>)
    requires IsRun(run)
    ensures LeaderUntorn(run[0])
  {
  }

  /** What the error of a leader is worth: its own frame is durable all the same exactly
      when the mark was past it before the failed group, that is when it led that group
      for others. */
  lemma RefusedIsDurableIffCovered(run: seq<World>, i: nat, id: nat)
    requires IsRun(run) && i < |run| && Enabled(run[i], Publish(id)) && !run[i].calls[id].phase.ok
    ensures PublishStep(run[i], id).calls[id].phase == Returned(false)
    ensures Durable(run[i].calls[id], PublishStep(run[i], id).synced) <==> run[i].calls[id].end <= run[i].durableUpto
  {
    var w := run[i];
    RunKeeps(run, i);
    HandIsNext(w, id);
    LeadersAreUntorn(run, i);
    assert id in Woken(w.calls);
    hide Inv, IsRun, SyncedUpto, Durable;
    if w.calls[id].end <= w.durableUpto {
      CoveredIsDurable(w, id);
    } else {
      ReleasedIsDurableIffSynced(run, i, id, id);
    }
  }

  // Progress

  /** When nobody commits and no group was torn, everything appended is durable, and
      so every waiter is awake with its condition true. */
  lemma NobodyIsStranded(run: seq<World>, i: nat)
    requires IsRun(run) && i < |run| && run[i].leader.None? && run[i].torn == {}
    ensures run[i].pending == [] && run[i].durableUpto == run[i].writeOffset == |run[i].stream|
    ensures forall id :: id in run[i].calls ==>
              && run[i].calls[id].end <= run[i].durableUpto
              && (run[i].calls[id].phase.Awake? || run[i].calls[id].phase.Returned?)
  {
    RunKeeps(run, i);
    forall id | id in run[i].calls ensures run[i].calls[id].end <= run[i].durableUpto {
      assert Placed(run[i].calls[id], run[i].stream);
    }
  }

  /** After a torn group the leader returns at once, and what was appended meanwhile
      waits for the next `put`: somebody sleeps with nobody committing exactly when
      something is pending. */
  lemma StrandedIffPending(run: seq<World>, i: nat)
    requires IsRun(run) && i < |run| && run[i].leader.None?
    ensures run[i].pending == [] ==> forall id :: id in run[i].calls ==> !run[i].calls[id].phase.Asleep?
    ensures (forall id :: id in run[i].calls ==> run[i].calls[id].end <= run[i].durableUpto) <==> run[i].pending == []
  {
    RunKeeps(run, i);
    forall id | id in run[i].calls ensures run[i].calls[id].end <= |run[i].stream| {
      assert Placed(run[i].calls[id], run[i].stream);
    }
    if run[i].pending != [] { PendingHasOwner(run, i); }
  }

  /** The last byte appended ends a frame. */
  lemma {:induction false} PendingHasOwner(run: seq<World>, i: nat)
    requires IsRun(run) && i < |run| && run[i].stream != []
    ensures exists id :: id in run[i].calls && run[i].calls[id].end == |run[i].stream|
  {
    if i > 0 {
      var step := StepAt(run, i);
      RunKeeps(run, i - 1);
      hide FrameOf, Follows, JoinStep, TakeStep, PublishStep;
      if step.Join? {
        JoinAppends(run[i - 1], step.id, FrameOf(step.payload, step.digest));
        assert |run[i - 1].stream| == run[i - 1].writeOffset + |run[i - 1].pending|;
        assert run[i].calls[step.id].end == |run[i].stream|;
      } else {
        StepRephases(run[i - 1], step);
        PendingHasOwner(run, i - 1);
        var id :| id in run[i - 1].calls && run[i - 1].calls[id].end == |run[i - 1].stream|;
        assert run[i].calls[id].end == |run[i].stream|;
      }
    }
  }

  /** How far the leader is from having nothing left to do, if nobody else joins. */
  ghost function Rank(w: World): nat {
    if w.leader.None? || w.leader.value !in w.calls then 0 else
    match w.calls[w.leader.value].phase
    case Lingering => 7
    case Writing(_, _) => if w.pending == [] then 3 else 6
    case Written(_, _) => if w.pending == [] then 2 else 5
    case Flushed(_, _, _) => if w.pending == [] then 1 else 4
    case _ => 0
  }

  ghost function AwakeIds(calls: map<nat, Call>): set<nat> {
    set id | id in calls && calls[id].phase.Awake?
  }

  /** Every step that is not a new `put` brings the calls closer to returning. */
  lemma StepsRunOut(w: World, step: Step)
    requires Inv(w) && Enabled(w, step) && !step.Join?
    ensures Rank(Apply(w, step)) < Rank(w) ||
            (Rank(Apply(w, step)) == Rank(w) && AwakeIds(Apply(w, step).calls) < AwakeIds(w.calls))
  {
    hide FramesPlaced, FilesMirror, SleepersUncovered, GroupsWhole, Woken, Stored, Hand;
    match step
    case Linger(id) => TakeKeeps(w, id);
    case Write(id, stored) =>
    case Sync(id, ok) =>
    case Publish(id) =>
      if w.calls[id].phase.ok { PublishRanks(w, id); } else { PublishBadKeeps(w, id); }
    case Recheck(id) =>
      FollowerMoves(w.calls, w.leader, id, RecheckStep(w, id).calls[id].phase);
      assert id in AwakeIds(w.calls) && id !in AwakeIds(RecheckStep(w, id).calls);
  }

  lemma PublishRanks(w: World, id: nat)
    requires Inv(w) && Enabled(w, Publish(id)) && w.calls[id].phase.ok
    ensures Rank(PublishStep(w, id)) < Rank(w)
  {
    hide FramesPlaced, FilesMirror, SleepersUncovered, GroupsWhole, Hand;
    PublishGoodKeeps(w, id);
    if w.pending != [] { RaiseThenTake(w, id); }
  }

  /** No failed write or sync is waiting to be published. */
  ghost predicate HandIsGood(w: World) {
    forall id :: id in w.calls && w.calls[id].phase.Flushed? ==> w.calls[id].phase.ok
  }

  /** Some thread that is inside `put` can go on. */
  lemma SomebodyCanMove(w: World, waiting: nat) returns (step: Step)
    requires Inv(w) && w.torn == {} && HandIsGood(w)
    requires waiting in w.calls && !w.calls[waiting].phase.Returned?
    ensures Enabled(w, step) && !step.Join? && !Fails(w, step)
    ensures Inv(Apply(w, step)) && Apply(w, step).torn == {} && HandIsGood(Apply(w, step))
  {
    hide FilesMirror, GroupsWhole, Stored, Hand;
    match w.leader {
      case None =>
        EndsInStream(w.calls, w.stream, waiting);
        step := Recheck(waiting);
      case Some(id) =>
        match w.calls[id].phase {
          case Lingering => step := Linger(id);
          case Writing(_, buf) => step := Write(id, |buf|);
          case Written(_, _) => step := Sync(id, true);
          case Flushed(_, _, _) => step := Publish(id);
        }
    }
    StepKeeps(w, step);
    GoodStepStaysGood(w, step);
  }

  lemma GoodStepStaysGood(w: World, step: Step)
    requires Inv(w) && w.torn == {} && HandIsGood(w) && Enabled(w, step) && !step.Join? && !Fails(w, step)
    ensures Apply(w, step).torn == {} && HandIsGood(Apply(w, step))
  {
    hide FramesPlaced, FilesMirror, SleepersUncovered, GroupsWhole, Hand, Stored;
    if step.Publish? && w.pending != [] { RaiseThenTake(w, step.id); }
  }

  /** A step of a thread that is inside `put` already, and no failed write or sync. */
  ghost predicate QuietlyFollows(w: World, next: World) {
    exists step :: Enabled(w, step) && !step.Join? && !Fails(w, step) && next == Apply(w, step)
  }

  ghost predicate IsQuietRun(run: seq<World>) {
    forall i :: 0 < i < |run| ==> QuietlyFollows(run[i - 1], run[i])
  }

  ghost predicate AllReturned(w: World) {
    forall id :: id in w.calls ==> w.calls[id].phase.Returned?
  }

  /** If no new `put` arrives and nothing fails, every call returns. */
  lemma EveryPutReturns(w: World) returns (run: seq<World>)
    requires Inv(w) && w.torn == {} && HandIsGood(w)
    ensures |run| > 0 && run[0] == w && IsQuietRun(run) && AllReturned(run[|run| - 1])
    decreases Rank(w), AwakeIds(w.calls)
  {
    run := [w];
    if !AllReturned(w) {
      var waiting :| waiting in w.calls && !w.calls[waiting].phase.Returned?;
      hide *;
      var step := SomebodyCanMove(w, waiting);
      StepsRunOut(w, step);
      var rest := EveryPutReturns(Apply(w, step));
      run := [w] + rest;
      QuietlyExtends(w, step, rest);
    }
  }

  lemma QuietlyExtends(w: World, step: Step, rest: seq<World>)
    requires Enabled(w, step) && !step.Join? && !Fails(w, step)
    requires |rest| > 0 && rest[0] == Apply(w, step) && IsQuietRun(rest)
    ensures IsQuietRun([w] + rest)
  {
    hide Enabled, Apply, Fails;
    var run := [w] + rest;
    forall i | 0 < i < |run| ensures QuietlyFollows(run[i - 1], run[i]) {
      if i > 1 { assert run[i - 1] == rest[i - 2] && run[i] == rest[i - 1]; }
    }
  }

  lemma {:induction false} QuietRunKeeps(run: seq<World>, i: nat)
    requires IsQuietRun(run) && i < |run| && Inv(run[0]) && run[0].torn == {} && HandIsGood(run[0])
    ensures Inv(run[i]) && run[i].torn == {} && HandIsGood(run[i])
  {
    if i > 0 {
      hide Inv, HandIsGood, Apply, Enabled, Fails;
      QuietRunKeeps(run, i - 1);
      assert QuietlyFollows(run[i - 1], run[i]);
      var step :| Enabled(run[i - 1], step) && !step.Join? && !Fails(run[i - 1], step) && run[i] == Apply(run[i - 1], step);
      StepKeeps(run[i - 1], step);
      GoodStepStaysGood(run[i - 1], step);
    }
  }

  /** Nobody inside `put` can take a step that does not fail. */
  ghost predicate NobodyCanMove(w: World) {
    forall step :: Enabled(w, step) ==> step.Join? || Fails(w, step)
  }

  /** However the threads are scheduled: a run without new calls and without failures
      that nobody can continue has ended with every call returned, and by `StepsRunOut`
      no such run goes on for ever. */
  lemma EveryScheduleEndsReturned(run: seq<World>)
    requires |run| > 0 && IsQuietRun(run) && Inv(run[0]) && run[0].torn == {} && HandIsGood(run[0])
    requires NobodyCanMove(run[|run| - 1])
    ensures AllReturned(run[|run| - 1])
  {
    var last := run[|run| - 1];
    QuietRunKeeps(run, |run| - 1);
    if waiting :| waiting in last.calls && !last.calls[waiting].phase.Returned? {
      hide Inv, HandIsGood, Apply, Enabled, Fails, IsQuietRun;
      var step := SomebodyCanMove(last, waiting);
    }
  }

  /** Everybody who is told of an error now was told of it before. */
  ghost predicate NoNewErrors(calls: map<nat, Call>, next: map<nat, Call>) {
    forall id :: id in next && next[id].phase == Returned(false) ==> id in calls && calls[id].phase == Returned(false)
  }

  lemma MovesMakeNoErrors(calls: map<nat, Call>, id: nat, phase: Phase)
    requires id in calls && phase != Returned(false)
    ensures NoNewErrors(calls, Moved(calls, id, phase)) && NoNewErrors(calls, Moved(Woken(calls), id, phase))
  {
  }

  lemma GoodStepsMakeNoErrors(w: World, step: Step)
    requires Inv(w) && Enabled(w, step) && !step.Join? && (step.Publish? ==> w.calls[step.id].phase.ok)
    ensures NoNewErrors(w.calls, Apply(w, step).calls) && Apply(w, step).torn == w.torn
  {
    hide Inv, NoNewErrors, Woken, Stored, Moved;
    MovesMakeNoErrors(w.calls, step.id, Returned(true));
    MovesMakeNoErrors(w.calls, step.id, Asleep);
    MovesMakeNoErrors(w.calls, step.id, Writing(w.writeOffset, w.pending));
    match step
    case Write(id, _) =>
      MovesMakeNoErrors(w.calls, id, Written(w.calls[id].phase.at, w.calls[id].phase.buf));
      MovesMakeNoErrors(w.calls, id, Flushed(w.calls[id].phase.at, w.calls[id].phase.buf, false));
    case Sync(id, ok) =>
      MovesMakeNoErrors(w.calls, id, Flushed(w.calls[id].phase.at, w.calls[id].phase.buf, ok));
    case Publish(id) => HandIsNext(w, id);
    case _ =>
  }

  lemma JoinMakesNoErrors(w: World, id: nat, frame: seq<uint8>)
    requires id !in w.calls
    ensures NoNewErrors(w.calls, JoinStep(w, id, frame).calls) && JoinStep(w, id, frame).torn == w.torn
  {
  }

  lemma StepsMakeNoErrors(w: World, step: Step)
    requires Inv(w) && Enabled(w, step)
    ensures Apply(w, step).torn != {} || (NoNewErrors(w.calls, Apply(w, step).calls) && Apply(w, step).torn == w.torn)
  {
    hide Inv, NoNewErrors, JoinStep, PublishStep, FrameOf;
    match step
    case Join(id, payload, digest) => JoinMakesNoErrors(w, id, FrameOf(payload, digest));
    case Publish(id) => if w.calls[id].phase.ok { GoodStepsMakeNoErrors(w, step); } else { PublishBadKeeps(w, id); }
    case _ => GoodStepsMakeNoErrors(w, step);
  }

  lemma StartsFresh(run: seq<World>)
    requires IsRun(run)
    ensures run[0].calls == map[]
  {
  }

  /** `put` returns an error only if some group could not be written and synced. */
  lemma {:induction false} ErrorMeansTorn(run: seq<World>, i: nat, id: nat)
    requires IsRun(run) && i < |run| && id in run[i].calls && run[i].calls[id].phase == Returned(false)
    ensures run[i].torn != {}
  {
    hide Inv, IsRun, Apply, Enabled;
    if i == 0 {
      StartsFresh(run);
    } else {
      var step := StepAt(run, i);
      RunKeeps(run, i - 1);
      StepsMakeNoErrors(run[i - 1], step);
      if run[i].torn == {} { ErrorMeansTorn(run, i - 1, id); }
    }
  }

  // What failures cost

  ghost predicate FollowsByTrace(run: seq<World>, trace: seq<Step>) {
    && |run| == |trace| + 1
    && forall i :: 0 <= i < |trace| ==> Enabled(run[i], trace[i]) && run[i + 1] == Apply(run[i], trace[i])
  }

  lemma TraceIsRun(run: seq<World>, trace: seq<Step>, lingers: bool)
    requires FollowsByTrace(run, trace) && run[0] == Fresh(lingers)
    ensures IsRun(run)
  {
    forall i | 0 < i < |run| ensures Follows(run[i - 1], run[i]) {
      assert Enabled(run[i - 1], trace[i - 1]);
    }
  }

  /** Two frames went into one group, of which nothing was stored. */
  predicate TornTogether(w: World, frame: seq<uint8>) {
    && w.calls == map[0 := Call(frame, |frame|, Flushed(0, frame + frame, false)), 1 := Call(frame, 2 * |frame|, Asleep)]
    && |frame| > 0 && w.durableUpto == 0 && w.synced == map[]
  }

  /** Two calls share a group, and the write of it stores nothing. */
  lemma SharedGroupTorn(payload: seq<uint8>, digest: Digest) returns (run: seq<World>, trace: seq<Step>)
    ensures FollowsByTrace(run, trace) && |trace| == 4 && run[0] == Fresh(true)
    ensures TornTogether(run[4], FrameOf(payload, digest))
  {
    var frame := FrameOf(payload, digest);
    hide FrameOf, Stored;
    var w0 := Fresh(true);
    var w1 := Apply(w0, Join(0, payload, digest));
    var w2 := Apply(w1, Join(1, payload, digest));
    assert w2.calls == map[0 := Call(frame, |frame|, Lingering), 1 := Call(frame, 2 * |frame|, Asleep)];
    assert w2.pending == frame + frame;
    var w3 := Apply(w2, Linger(0));
    var w4 := Apply(w3, Write(0, 0));
    run, trace := [w0, w1, w2, w3, w4], [Join(0, payload, digest), Join(1, payload, digest), Linger(0), Write(0, 0)];
  }

  /** A waiter of a failed group is told its payload is durable, and it is not. */
  lemma WaiterOfATornGroupIsTold(payload: seq<uint8>, digest: Digest) returns (run: seq<World>)
    ensures IsRun(run) && 1 in run[|run| - 1].calls && run[|run| - 1].calls[1].phase == Returned(true)
    ensures !Durable(run[|run| - 1].calls[1], run[|run| - 1].synced)
  {
    var before, trace := SharedGroupTorn(payload, digest);
    var w5, w6 := WokenAndTold(before[4], FrameOf(payload, digest));
    hide FrameOf, Durable, IsRun, Apply, Enabled;
    run := before + [w5, w6];
    TraceIsRun(run, trace + [Publish(0), Recheck(1)], true);
  }

  /** The failed group is published, and the waiter finds the mark past its frame. */
  lemma WokenAndTold(w: World, frame: seq<uint8>) returns (published: World, told: World)
    requires TornTogether(w, frame)
    ensures Enabled(w, Publish(0)) && published == Apply(w, Publish(0))
    ensures Enabled(published, Recheck(1)) && told == Apply(published, Recheck(1))
    ensures 1 in told.calls && told.calls[1].phase == Returned(true) && !Durable(told.calls[1], told.synced)
  {
    hide Durable, Stored, Span;
    published := Apply(w, Publish(0));
    assert published.calls[1] == Call(frame, 2 * |frame|, Awake) && published.durableUpto == 2 * |frame| && published.synced == map[];
    told := Apply(published, Recheck(1));
    LastByteMissing(told.calls[1], told.synced, told.stream, 0, {});
  }

  /** One thread writes and syncs its own frame while another call joins. */
  lemma OwnGroupSynced(payload: seq<uint8>, digest: Digest) returns (run: seq<World>, trace: seq<Step>)
    ensures FollowsByTrace(run, trace) && |trace| == 4 && run[0] == Fresh(false)
    ensures var frame, last := FrameOf(payload, digest), run[4];
            && last.calls == map[0 := Call(frame, |frame|, Flushed(0, frame, true)), 1 := Call(frame, 2 * |frame|, Asleep)]
            && last.pending == frame && last.writeOffset == |frame| && last.durableUpto == 0
            && Durable(last.calls[0], last.synced)
  {
    var frame := FrameOf(payload, digest);
    hide FrameOf, Durable, Stored;
    var w0 := Fresh(false);
    var w1 := Apply(w0, Join(0, payload, digest));
    assert [] + frame == frame;
    assert w1.calls == map[0 := Call(frame, |frame|, Writing(0, frame))];
    var w2 := Apply(w1, Join(1, payload, digest));
    var w3 := Apply(w2, Write(0, |frame|));
    var w4 := Apply(w3, Sync(0, true));
    StoredIsDurable(frame, Flushed(0, frame, true));
    run, trace := [w0, w1, w2, w3, w4], [Join(0, payload, digest), Join(1, payload, digest), Write(0, |frame|), Sync(0, true)];
  }

  /** The leader takes one more group and cannot write it. */
  lemma NextGroupTorn(w: World, frame: seq<uint8>) returns (run: seq<World>)
    requires |frame| > 0 && w.pending == frame && w.writeOffset == |frame| && w.durableUpto == 0
    requires w.calls == map[0 := Call(frame, |frame|, Flushed(0, frame, true)), 1 := Call(frame, 2 * |frame|, Asleep)]
    ensures |run| == 4 && run[0] == w
    ensures FollowsByTrace(run, [Publish(0), Write(0, 0), Publish(0)])
    ensures 0 in run[3].calls && run[3].calls[0] == Call(frame, |frame|, Returned(false)) && run[3].synced == w.synced
  {
    hide Stored;
    var w5 := PublishStep(w, 0);
    assert w5.calls[0] == Call(frame, |frame|, Writing(|frame|, frame)) && w5.synced == w.synced;
    var w6 := WriteStep(w5, 0, 0);
    assert w6.calls[0] == Call(frame, |frame|, Flushed(|frame|, frame, false)) && w6.synced == w.synced;
    run := [w, w5, w6, PublishStep(w6, 0)];
  }

  /** A leader is told its payload is not durable, and it is: its own group was synced,
      and the group it then led for another call was not. */
  lemma LeaderOfALaterTornGroupIsRefused(payload: seq<uint8>, digest: Digest) returns (run: seq<World>)
    ensures IsRun(run) && 0 in run[|run| - 1].calls && run[|run| - 1].calls[0].phase == Returned(false)
    ensures Durable(run[|run| - 1].calls[0], run[|run| - 1].synced)
  {
    hide FrameOf, Durable, IsRun, Apply, Enabled;
    var before, trace := OwnGroupSynced(payload, digest);
    var after := NextGroupTorn(before[4], FrameOf(payload, digest));
    run := before + after[1..];
    TraceIsRun(run, trace + [Publish(0), Write(0, 0), Publish(0)], false);
    SameFrameDurable(before[4].calls[0], run[7].calls[0], before[4].synced);
  }

  lemma SameFrameDurable(call: Call, later: Call, synced: map<nat, uint8>)
    requires Durable(call, synced) && later.frame == call.frame && later.end == call.end
    ensures Durable(later, synced)
  {
  }

  lemma StoredIsDurable(frame: seq<uint8>, phase: Phase)
    ensures frame[..|frame|] == frame && Durable(Call(frame, |frame|, phase), Stored(map[], 0, frame))
  {
  }

  // The code

  /** What a thread does next, and what it has to keep across the lock for it. */
  datatype Next =
    | Wait(end: nat)
    | Sleep(end: nat)
    | Commit(end: nat, at: nat, buf: seq<uint8>)
    | Return(ok: bool)

  /** The spool's own fields. Each method is one section of `put` under the lock; what
      happens between two sections is any number of sections of other threads, which
      is what the runs above range over. `now` records the whole world. */
  class Spool {
    const lingers: bool
    var pending: seq<uint8>
    var pendingCount: nat
    var writeOffset: nat
    var durableUpto: nat
    var committing: bool
    var fsyncs: nat
    var groupSum: nat
    var maxGroup: nat
    ghost var now: World

    ghost predicate Matches()
      reads this
    {
      && now.lingers == lingers && now.pending == pending && now.pendingCount == pendingCount
      && now.writeOffset == writeOffset && now.durableUpto == durableUpto && now.leader.Some? == committing
      && now.fsyncs == fsyncs && now.groupSum == groupSum && now.maxGroup == maxGroup
    }

    ghost predicate Valid()
      reads this
    {
      Matches() && Inv(now)
    }

    constructor (lingers: bool)
      ensures Valid() && now == Fresh(lingers)
    {
      this.lingers := lingers;
      pending, pendingCount, writeOffset, durableUpto, committing := [], 0, 0, 0, false;
      fsyncs, groupSum, maxGroup := 0, 0, 0;
      now := Fresh(lingers);
    }

    /** What a call knows when it stands in its phase. */
    ghost predicate Knows(id: nat, next: Next)
      reads this
    {
      id in now.calls &&
      match next
      case Wait(end) => now.calls[id].phase.Asleep? && end == now.calls[id].end
      case Sleep(end) => now.calls[id].phase.Lingering? && end == now.calls[id].end
      case Commit(end, at, buf) => now.calls[id].phase == Writing(at, buf) && end == now.calls[id].end
      case Return(ok) => now.calls[id].phase == Returned(ok)
    }

    /** Appends the frame and asks who commits it. */
    method Join(ghost id: nat, payload: seq<uint8>, digest: Digest) returns (next: Next)
      requires Valid() && id !in now.calls
      modifies this
      ensures Valid() && now == JoinStep(old(now), id, FrameOf(payload, digest))
      ensures Knows(id, next) && next == (
                if old(committing) then Wait(old(writeOffset + |pending|) + 40 + |payload|)
                else if lingers then Sleep(old(writeOffset + |pending|) + 40 + |payload|)
                else Commit(old(writeOffset + |pending|) + 40 + |payload|, old(writeOffset),
                            old(pending) + FrameOf(payload, digest)))
    {
      hide Inv;
      JoinKeeps(now, id, FrameOf(payload, digest));
      MarkIsBehind(now);
      var frame := FrameOf(payload, digest);
      pending := pending + frame;
      pendingCount := pendingCount + 1;
      var end := writeOffset + |pending|;
      if committing {
        now := JoinStep(now, id, frame);
        return if durableUpto < end then Wait(end) else Return(true);
      }
      committing := true;
      now := AppendStep(now, id, frame, Lingering).(leader := Some(id));
      if lingers {
        return Sleep(end);
      }
      next := TakeGroup(id, end);
    }

    /** The top of the committing loop: takes what is pending, or gives up the lead. */
    method TakeGroup(ghost id: nat, end: nat) returns (next: Next)
      requires Matches() && id in now.calls && now.leader.Some?
      modifies this
      ensures Matches() && now == TakeStep(old(now), id)
      ensures next == if old(pending) == [] then Return(true) else Commit(end, old(writeOffset), old(pending))
    {
      hide Woken;
      now := TakeStep(now, id);
      var buf, group := pending, pendingCount;
      pending, pendingCount := [], 0;
      if |buf| == 0 {
        committing := false;
        return Return(true);
      }
      var at := writeOffset;
      writeOffset := writeOffset + |buf|;
      groupSum := groupSum + group;
      if group > maxGroup {
        maxGroup := group;
      }
      return Commit(end, at, buf);
    }

    /** Back from the linger. */
    method Lingered(ghost id: nat, end: nat) returns (next: Next)
      requires Valid() && Knows(id, Sleep(end))
      modifies this
      ensures Valid() && now == TakeStep(old(now), id)
      ensures next == Commit(end, old(writeOffset), old(pending)) && Knows(id, next)
    {
      hide Inv;
      TakeKeeps(now, id);
      LeaderIsKnown(now, id);
      next := TakeGroup(id, end);
    }

    /** Back from writing and syncing, with what came of it. */
    method Publish(ghost id: nat, end: nat, at: nat, buf: seq<uint8>, ok: bool) returns (next: Next)
      requires Valid() && id in now.calls && now.calls[id].phase == Flushed(at, buf, ok) && now.calls[id].end == end
      modifies this
      ensures Valid() && now == PublishStep(old(now), id) && Knows(id, next)
      ensures next == (
                if !ok then Return(false)
                else if old(pending) == [] then Return(true)
                else Commit(end, old(writeOffset), old(pending)))
    {
      hide Inv, Woken, TakeStep;
      if ok { PublishGoodKeeps(now, id); } else { PublishBadKeeps(now, id); }
      HandIsNext(now, id);
      StepExtends(now, Step.Publish(id), id);
      ghost var published := PublishStep(now, id);
      fsyncs := fsyncs + 1;
      if at + |buf| > durableUpto {
        durableUpto := at + |buf|;
      }
      if !ok || (end <= durableUpto && |pending| == 0) {
        committing := false;
        now := published;
        return Return(ok);
      }
      now := RaiseMark(now, at + |buf|);
      next := TakeGroup(id, end);
    }

    /** Woken by a broadcast: sleep again, or return. */
    method Recheck(ghost id: nat, end: nat) returns (next: Next)
      requires Valid() && id in now.calls && now.calls[id].phase.Awake? && now.calls[id].end == end
      modifies this
      ensures Valid() && now == RecheckStep(old(now), id) && Knows(id, next)
      ensures next == if durableUpto < end then Wait(end) else Return(true)
    {
      hide Inv;
      RecheckKeeps(now, id);
      now := RecheckStep(now, id);
      return if durableUpto < end then Wait(end) else Return(true);
    }

    /** Writes the group with the lock released. How much of it is stored is up to the
        file system; the write fails if that is not all. */
    method WriteAt(ghost id: nat, ghost end: nat, at: nat, buf: seq<uint8>) returns (stored: nat)
      requires Valid() && Knows(id, Commit(end, at, buf))
      modifies this`now
      ensures Valid() && stored <= |buf| && now == WriteStep(old(now), id, stored)
    {
      hide Inv, Stored;
      stored :| 0 <= stored <= |buf|;
      WriteKeeps(now, id, stored);
      now := WriteStep(now, id, stored);
    }

    /** Syncs the file after a write that stored the whole group. */
    method Sync(ghost id: nat, ghost at: nat, ghost buf: seq<uint8>) returns (ok: bool)
      requires Valid() && id in now.calls && now.calls[id].phase == Written(at, buf)
      modifies this`now
      ensures Valid() && now == SyncStep(old(now), id, ok)
    {
      hide Inv;
      ok := *;
      SyncKeeps(now, id, ok);
      now := SyncStep(now, id, ok);
    }
  }
}
