/** What the driver meets outside its own process: the collector and the two
    kinds of connection that carry calls to it.

    Every outcome the network may produce is chosen nondeterministically, so a
    contract proved here holds whatever is dropped, delayed, or repeated. */
module Network {
  import opened Batches

  /** Why a call gave no receipt. */
  datatype Failure =
    | Unreachable                 // no connection opened
    | HandshakeFailed             // a connection opened and could not be secured
    | Unprepared                  // a connection opened and its carrier did not
    | EncodeFailed                // the request did not encode
    | Lost                        // the connection broke with the call outstanding
    | Unreadable                  // the answer could not be read
    | Foreign                     // the answer named a call that was not made
    | Rejected(retryable: bool)   // the collector's typed refusal

  datatype Receipt = Receipt(batchID: BatchId, accepted: nat, durableCopies: nat, rejected: seq<nat>)

  /** What one reply says once it is read. */
  datatype Answer =
    | Committed(accepted: nat, durableCopies: nat, rejected: seq<nat>)
    | Refused(retryable: bool)
    | Garbled

  /** Failures after which the batch may or may not be committed: all but those of a
      call that reached nobody and of a typed answer. */
  predicate FateUnknown(failure: Failure) {
    !failure.Unreachable? && !failure.HandshakeFailed? && !failure.Rejected?
  }

  /** How opening a connection fails. */
  predicate DialFailure(failure: Failure) {
    failure.Unreachable? || failure.HandshakeFailed? || failure.Unprepared?
  }

  /** Failures that only a call whose frame left can have. */
  predicate SaysSent(failure: Failure) {
    !DialFailure(failure) && !failure.EncodeFailed?
  }

  /** Between two moments nothing was handed over but copies of one frame. */
  ghost predicate OnlySent(before: seq<Frame>, after: seq<Frame>, frame: Frame) {
    before <= after && forall i | |before| <= i < |after| :: after[i] == frame
  }

  /** What a failure says of one frame: it left exactly if the failure is one of a call
      that was sent, and nothing else did. */
  ghost predicate FateIsTold(failure: Failure, frame: Frame, before: seq<Frame>, after: seq<Frame>) {
    OnlySent(before, after, frame) && (SaysSent(failure) <==> |after| > |before|)
  }

  method Dial() returns (failure: Failure, connected: bool)
    ensures !connected ==> DialFailure(failure)
  {
    var reached: bool := *;
    var secured: bool := *;
    var prepared: bool := *;
    connected := reached && secured && prepared;
    failure := if !reached then Unreachable else if !secured then HandshakeFailed else Unprepared;
  }

  /** Final storage as the driver's calls reach it.

      `transmissions` is every frame that was handed to an open connection, in
      order. `committed` is what became durable. A batch ID names one logical
      commit: the first frame committed under it stays. */
  class Collector {
    ghost var transmissions: seq<Frame>
    ghost var committed: map<BatchId, Frame>

    ghost predicate Valid()
      reads this
    {
      forall id | id in committed ::
        committed[id] in transmissions && committed[id].batchID == id
    }

    constructor ()
      ensures Valid() && transmissions == [] && committed == map[]
    {
      transmissions := [];
      committed := map[];
    }

    /** Commits one frame that was transmitted, unless its batch is committed. */
    ghost method Commit(frame: Frame)
      requires Valid() && frame in transmissions
      modifies this`committed
      ensures Valid() && frame.batchID in committed
      ensures forall id | id in old(committed) :: id in committed && committed[id] == old(committed[id])
    {
      if frame.batchID !in committed {
        committed := committed[frame.batchID := frame];
      }
    }

    /** Takes a frame off a connection. It may commit it, and it may commit any
        frame an earlier connection brought. */
    method Receive(ghost frame: Frame)
      requires Valid()
      modifies this
      ensures Valid()
      ensures transmissions == old(transmissions) + [frame]
      ensures forall id | id in old(committed) :: id in committed && committed[id] == old(committed[id])
    {
      transmissions := transmissions + [frame];
      var late :| 0 <= late;
      assert transmissions[|transmissions| - 1] == frame;
      for i := 0 to late
        invariant Valid() && transmissions == old(transmissions) + [frame]
        invariant forall id | id in old(committed) :: id in committed && committed[id] == old(committed[id])
      {
        ghost var earlier :| 0 <= earlier < |transmissions|;
        Commit(transmissions[earlier]);
      }
    }

    /** The collector says `Committed` only of a frame that is durable. */
    ghost method Honour(answer: Answer, frame: Frame)
      requires Valid() && frame in transmissions
      modifies this`committed
      ensures Valid()
      ensures answer.Committed? ==> frame.batchID in committed
      ensures forall id | id in old(committed) :: id in committed && committed[id] == old(committed[id])
    {
      if answer.Committed? {
        Commit(frame);
      }
    }
  }

  datatype Called = Answered(answer: Answer) | Failed(failure: Failure)

  /** A persistent, reconnecting client: one call at a time, tried twice. */
  class Client {
    const collector: Collector
    var connected: bool

    constructor (collector: Collector)
      ensures this.collector == collector && !connected
    {
      this.collector := collector;
      connected := false;
    }

    /** Sends one frame and waits for its answer, on a fresh connection if the
        first one breaks. The failure says whether anything was sent. */
    method Call(frame: Frame) returns (called: Called)
      requires collector.Valid()
      modifies this, collector
      ensures collector.Valid()
      ensures OnlySent(old(collector.transmissions), collector.transmissions, frame)
      ensures |collector.transmissions| <= |old(collector.transmissions)| + 2
      ensures forall id | id in old(collector.committed) ::
                id in collector.committed && collector.committed[id] == old(collector.committed[id])
      ensures called.Answered? ==> |collector.transmissions| > |old(collector.transmissions)|
      ensures called.Answered? && called.answer.Committed? ==> frame.batchID in collector.committed
      ensures called.Failed? ==> DialFailure(called.failure) || called.failure.Lost?
      ensures called.Failed? ==>
                FateIsTold(called.failure, frame, old(collector.transmissions), collector.transmissions)
    {
      var last: bool := false;
      var attempt := 0;
      while attempt < 2
        invariant 0 <= attempt <= 2
        invariant collector.Valid() && (last <==> attempt > 0)
        invariant |collector.transmissions| == |old(collector.transmissions)| + attempt
        invariant old(collector.transmissions) <= collector.transmissions
        invariant forall i | |old(collector.transmissions)| <= i < |collector.transmissions| ::
                    collector.transmissions[i] == frame
        invariant forall id | id in old(collector.committed) ::
                    id in collector.committed && collector.committed[id] == old(collector.committed[id])
      {
        if !connected {
          var failure, reached := Dial();
          if !reached {
            // If the first try handed the frame over, no later failure to dial
            // takes that back.
            return Failed(if last then Lost else failure);
          }
          connected := true;
        }
        collector.Receive(frame);
        var answered: bool := *;
        if answered {
          var answer: Answer := *;
          collector.Honour(answer, frame);
          return Answered(answer);
        }
        connected := false;
        last := true;
        attempt := attempt + 1;
      }
      return Failed(Lost);
    }
  }

  datatype Sent = SentAs(id: nat) | NotSent(failure: Failure)
  datatype Received = Nothing | Broken(failure: Failure) | Reply(id: nat, answer: Answer)

  /** A client whose calls overlap, told apart by ID. `wire` has the frame of every call
      made on the present connection. */
  class Pipeline {
    const collector: Collector
    const window: nat
    var connected: bool
    var nextID: nat
    var inFlight: nat
    ghost var wire: map<nat, Frame>

    ghost predicate Valid()
      reads this, collector
    {
      && window >= 1 && nextID >= 1
      && (!connected ==> inFlight == 0 && wire == map[])
      && forall id | id in wire :: id < nextID && wire[id] in collector.transmissions
    }

    constructor (collector: Collector, window: int)
      ensures Valid() && this.collector == collector
      ensures this.window == if window < 1 then 1 else window
      ensures !connected && inFlight == 0 && wire == map[] && nextID == 1
    {
      this.collector := collector;
      this.window := if window < 1 then 1 else window;
      connected, nextID, inFlight, wire := false, 1, 0, map[];
    }

    predicate HasRoom()
      reads this
    {
      inFlight < window
    }

    /** Ends the connection, and with it every outstanding call. */
    method Reset()
      requires Valid()
      modifies this
      ensures Valid() && !connected && inFlight == 0 && wire == map[]
      ensures nextID == old(nextID)
    {
      connected, inFlight, wire := false, 0, map[];
    }

    /** Sends one call without waiting for its reply. */
    method Send(frame: Frame) returns (sent: Sent)
      requires Valid() && collector.Valid()
      modifies this, collector
      ensures Valid() && collector.Valid()
      ensures forall id | id in old(collector.committed) ::
                id in collector.committed && collector.committed[id] == old(collector.committed[id])
      ensures sent.SentAs? ==>
                && sent.id == old(nextID) && nextID == sent.id + 1
                && connected && inFlight == old(inFlight) + 1
                && wire == old(wire)[sent.id := frame]
                && collector.transmissions == old(collector.transmissions) + [frame]
      ensures sent.NotSent? ==> nextID == old(nextID)
      ensures sent.NotSent? ==>
                DialFailure(sent.failure) || sent.failure.EncodeFailed? || sent.failure.Lost?
      ensures sent.NotSent? && !sent.failure.Lost? ==>
                && inFlight == old(inFlight) && wire == old(wire)
                && collector.transmissions == old(collector.transmissions)
      ensures sent.NotSent? && DialFailure(sent.failure) ==> !old(connected) && !connected
      ensures sent.NotSent? && sent.failure.Lost? ==>
                && !connected && inFlight == 0
                && collector.transmissions == old(collector.transmissions) + [frame]
    {
      if !connected {
        var failure, reached := Dial();
        if !reached {
          return NotSent(failure);
        }
        connected := true;
      }
      var id := nextID;
      var encoded: bool := *;
      if !encoded {
        // The connection stays, and so does everything outstanding on it.
        return NotSent(EncodeFailed);
      }
      collector.Receive(frame);
      var carried: bool := *;
      if !carried {
        Reset();
        return NotSent(Lost);
      }
      nextID := nextID + 1;
      inFlight := inFlight + 1;
      wire := wire[id := frame];
      return SentAs(id);
    }

    /** One reply off the connection. It may name any call, made or not; without one the
        connection is dropped. */
    method Recv() returns (received: Received)
      requires Valid() && collector.Valid()
      modifies this, collector`committed
      ensures Valid() && collector.Valid() && nextID == old(nextID)
      ensures forall id | id in old(collector.committed) ::
                id in collector.committed && collector.committed[id] == old(collector.committed[id])
      ensures received.Nothing? <==> old(inFlight) == 0
      ensures received.Nothing? ==>
                inFlight == old(inFlight) && wire == old(wire) && connected == old(connected)
      ensures received.Broken? ==>
                && (received.failure.Lost? || received.failure.Unreadable?)
                && !connected && inFlight == 0
      ensures received.Reply? ==>
                connected && inFlight == old(inFlight) - 1 && wire == old(wire)
      ensures received.Reply? && received.answer.Committed? && received.id in wire ==>
                wire[received.id].batchID in collector.committed
    {
      if inFlight == 0 {
        return Nothing;
      }
      // A pipeline with calls outstanding has a connection, so the source's test
      // for a missing carrier is never taken from here.
      assert connected;
      var arrived: bool := *;
      if !arrived {
        Reset();
        return Broken(Lost);
      }
      var legible: bool := *;
      if !legible {
        Reset();
        return Broken(Unreadable);
      }
      inFlight := inFlight - 1;
      var named: bool := *;
      if !named {
        Reset();
        return Broken(Unreadable);
      }
      var id :| 0 <= id;
      var answer: Answer := *;
      if id in wire {
        collector.Honour(answer, wire[id]);
      }
      return Reply(id, answer);
    }
  }
}
