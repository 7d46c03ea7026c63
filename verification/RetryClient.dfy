/**
 The state a Go client connection guards with its mutex, and every critical
 section that changes it: registering a request, forgetting it, delivering an
 answer, taking a superseded request out for retry, the drain when the read loop
 ends, and the two ends of a stream recovery.

 The functions on `Core` are the specification the protocol model runs on; the
 methods of `WsConn` update the fields in place and are proved against them.
 */
module RetryClient {
  import opened NativeTypes
  import opened WsStreams

  const MAX_STREAM_RETRIES: nat := 3

  datatype Reason = ConnectionClosed | SendFailed | Cancelled | ReadFailed | Rejected | SupersededStream | RecoveryFailed

  datatype Result = Data(streamId: int32) | Failed(reason: Reason)

  /** A waiter in `pending`: its reply channel, the request to repeat, and how often it was repeated already. */
  datatype Waiter = Waiter(chan: nat, request: Request, retries: nat)

  /**
   The guarded state. A channel is named by a number and `chans` holds everything
   ever sent on it, so a channel of capacity 1 never blocks its sender as long as
   no history grows beyond one value. `recovering` names the goroutine that leads
   the recovery in flight; waiting on its done-channel is waiting for that leader.
   */
  datatype Core = Core(
    seqNo: int32,
    pending: map<int32, Waiter>,
    closed: bool,
    streamId: int32,
    recovering: Option<nat>,
    chans: map<nat, seq<Result>>)

  const INITIAL := Core(0, map[], false, 0, None, map[])

  /** Atomic increment of an int32: it wraps. */
  function NextId(id: int32): int32 {
    if id == TWO_TO_THE_31 - 1 then -TWO_TO_THE_31 else id + 1
  }

  function Register(c: Core, chan: nat, request: Request, retries: nat): Core {
    var started := c.(seqNo := NextId(c.seqNo), chans := c.chans[chan := []]);
    if c.closed then started
    else started.(pending := c.pending[started.seqNo := Waiter(chan, request, retries)])
  }

  function Forget(c: Core, id: int32): Core {
    c.(pending := c.pending - {id})
  }

  function Sent(c: Core, chan: nat): seq<Result> {
    if chan in c.chans then c.chans[chan] else []
  }

  function Send(c: Core, chan: nat, result: Result): Core {
    c.(chans := c.chans[chan := Sent(c, chan) + [result]])
  }

  function Dispatch(c: Core, id: int32, result: Result): Core {
    if id in c.pending then Send(Forget(c, id), c.pending[id].chan, result) else c
  }

  predicate Awaited(c: Core, chan: nat) {
    exists id :: id in c.pending && c.pending[id].chan == chan
  }

  /** The end of the read loop: everyone still waiting is told, and nobody is left in `pending`. */
  function Drain(c: Core): Core {
    c.(closed := true, pending := map[],
       chans := map chan | chan in c.chans ::
         if Awaited(c, chan) then c.chans[chan] + [Failed(ReadFailed)] else c.chans[chan])
  }

  function JoinRecovery(c: Core, me: nat): Core {
    if c.recovering.Some? then c else c.(recovering := Some(me))
  }

  function EndRecovery(c: Core, next: Option<int32>): Core {
    c.(recovering := None, streamId := if next.Some? then next.value else c.streamId)
  }

  /** Waiters are on pairwise different channels, and nothing was sent on them yet. */
  ghost predicate WaitersFresh(c: Core) {
    && (forall id :: id in c.pending ==> c.pending[id].chan in c.chans && c.chans[c.pending[id].chan] == [])
    && (forall i, j :: i in c.pending && j in c.pending && i != j ==> c.pending[i].chan != c.pending[j].chan)
  }

  /** A waiter of c whose channel nobody has sent on, and nobody will any more. */
  ghost predicate Stranded(c: Core, c': Core, id: int32) {
    id in c.pending && Sent(c', c.pending[id].chan) == [] && !Awaited(c', c.pending[id].chan)
  }

  /**
   Request ids are 32 bits wide and come round. On an open connection, starting a request
   strands a waiter exactly when the id it takes is still awaited, and then it strands the
   waiter of that id.
   */
  lemma ReusedIdLosesItsWaiter(c: Core, chan: nat, request: Request, retries: nat)
    requires WaitersFresh(c) && !c.closed && chan !in c.chans
    ensures var c' := Register(c, chan, request, retries);
      && ((exists id :: Stranded(c, c', id)) <==> NextId(c.seqNo) in c.pending)
      && forall id :: Stranded(c, c', id) ==> id == NextId(c.seqNo)
  {
    var c' := Register(c, chan, request, retries);
    if NextId(c.seqNo) in c.pending { assert Stranded(c, c', NextId(c.seqNo)); }
    assert forall id :: id in c.pending && id != NextId(c.seqNo) ==> id in c'.pending && c'.pending[id] == c.pending[id];
  }

  /** The drain tells everyone who waits that the reading has failed, once, and nobody else anything. */
  lemma DrainTellsWhoWaits(c: Core, chan: nat)
    requires WaitersFresh(c)
    ensures Drain(c).closed && Drain(c).pending == map[] && Drain(c).streamId == c.streamId
    ensures Awaited(c, chan) ==> Sent(Drain(c), chan) == [Failed(ReadFailed)]
    ensures !Awaited(c, chan) ==> Sent(Drain(c), chan) == Sent(c, chan)
  {
  }

  /** An answer goes to the waiter of its id, who waits no more, and to nobody else; with no waiter it is dropped. */
  lemma DispatchTellsItsWaiter(c: Core, id: int32, result: Result, chan: nat)
    requires WaitersFresh(c)
    ensures id !in c.pending ==> Dispatch(c, id, result) == c
    ensures id in c.pending ==>
      var c' := Dispatch(c, id, result);
      && id !in c'.pending && (forall i :: i in c.pending && i != id ==> i in c'.pending && c'.pending[i] == c.pending[i])
      && Sent(c', chan) == if chan == c.pending[id].chan then [result] else Sent(c, chan)
  {
  }

  /** Draining one waiter first, in any order, does not change what the drain ends in. */
  lemma DrainTurn(c: Core, id: int32)
    requires WaitersFresh(c) && c.closed && id in c.pending
    ensures var turn := Forget(Send(c, c.pending[id].chan, Failed(ReadFailed)), id);
            WaitersFresh(turn) && Drain(turn) == Drain(c)
  {
    var told := c.pending[id].chan;
    var turn := Forget(Send(c, told, Failed(ReadFailed)), id);
    forall chan | chan in c.chans
      ensures Drain(turn).chans[chan] == Drain(c).chans[chan]
    {
      if chan == told {
        assert !Awaited(turn, chan) && Awaited(c, chan);
      } else {
        assert Awaited(turn, chan) ==> Awaited(c, chan);
        if Awaited(c, chan) {
          var other :| other in c.pending && c.pending[other].chan == chan;
          assert other in turn.pending && turn.pending[other].chan == chan;
        }
      }
    }
    assert Drain(turn).chans == Drain(c).chans;
  }

  lemma DrainEnds(c: Core)
    requires c.closed && c.pending == map[]
    ensures Drain(c) == c
  {
    assert Drain(c).chans == c.chans;
  }

  /** The client connection. */
  class WsConn {
    var reqIDSeq: int32
    var pending: map<int32, Waiter>
    var closed: bool
    var streamID: int32
    var recovering: Option<nat>
    var chans: map<nat, seq<Result>>

    ghost function State(): Core
      reads this
    {
      Core(reqIDSeq, pending, closed, streamID, recovering, chans)
    }

    ghost predicate Valid()
      reads this
    {
      WaitersFresh(State())
    }

    constructor ()
      ensures State() == INITIAL && Valid()
    {
      reqIDSeq, pending, closed, streamID, recovering, chans := 0, map[], false, 0, None, map[];
    }

    /** A send on a channel of capacity 1: the caller must know that it is empty. */
    method SendOn(chan: nat, result: Result)
      requires chan in chans && chans[chan] == []
      modifies this`chans
      ensures State() == Send(old(State()), chan, result)
    {
      assert [] + [result] == [result];
      chans := chans[chan := [result]];
    }

    /** Start of a request on the fresh channel `chan`: takes an id and, unless the connection is closed, a waiter. */
    method RegisterRequest(chan: nat, request: Request, retries: nat) returns (id: Option<int32>)
      requires Valid() && chan !in chans
      modifies this
      ensures State() == Register(old(State()), chan, request, retries) && Valid()
      ensures id == if old(closed) then None else Some(reqIDSeq)
    {
      reqIDSeq := NextId(reqIDSeq);
      chans := chans[chan := []];
      if closed {
        return None;
      }
      pending := pending[reqIDSeq := Waiter(chan, request, retries)];
      id := Some(reqIDSeq);
    }

    /** A failed write or a cancelled context gives up its waiter. */
    method ForgetRequest(id: int32)
      requires Valid()
      modifies this`pending
      ensures State() == Forget(old(State()), id) && Valid()
    {
      pending := pending - {id};
    }

    method DispatchResult(id: int32, result: Result)
      requires Valid()
      modifies this
      ensures State() == Dispatch(old(State()), id, result) && Valid()
    {
      if id in pending {
        var waiter := pending[id];
        pending := pending - {id};
        SendOn(waiter.chan, result);
      }
    }

    /** A superseded answer moves the waiter out of `pending`, for a retry goroutine to own. */
    method TakeSuperseded(id: int32) returns (waiter: Option<Waiter>)
      requires Valid()
      modifies this`pending
      ensures State() == Forget(old(State()), id) && Valid()
      ensures waiter == if id in old(pending) then Some(old(pending)[id]) else None
    {
      if id !in pending {
        assert pending - {id} == pending;
        return None;
      }
      waiter := Some(pending[id]);
      pending := pending - {id};
    }

    /** The deferred drain of the read loop: no send in it can block. */
    method EndReadLoop()
      requires Valid()
      modifies this
      ensures State() == Drain(old(State())) && Valid() && pending == map[]
    {
      closed := true;
      while pending != map[]
        invariant Valid() && closed
        invariant Drain(State()) == Drain(old(State()))
        decreases pending.Keys
      {
        assert pending.Keys != {};
        var id :| id in pending.Keys;
        DrainOne(id);
      }
      DrainEnds(State());
    }

    /** One turn of the drain. */
    method DrainOne(id: int32)
      requires Valid() && closed && id in pending
      modifies this`pending, this`chans
      ensures State() == Forget(Send(old(State()), old(pending)[id].chan, Failed(ReadFailed)), id)
      ensures Valid() && Drain(State()) == Drain(old(State()))
    {
      DrainTurn(State(), id);
      SendOn(pending[id].chan, Failed(ReadFailed));
      pending := pending - {id};
    }

    /** Entry to the single-flight recovery: the leader already at work, or None when `me` becomes the leader. */
    method EnterRecovery(me: nat) returns (leader: Option<nat>)
      modifies this`recovering
      ensures State() == JoinRecovery(old(State()), me) && leader == old(recovering)
    {
      leader := recovering;
      if recovering.None? {
        recovering := Some(me);
      }
    }

    method LeaveRecovery(next: Option<int32>)
      modifies this`recovering, this`streamID
      ensures State() == EndRecovery(old(State()), next)
    {
      if next.Some? {
        streamID := next.value;
      }
      recovering := None;
    }

    /** Marks the connection closed, and then tries to close the stream: too late, the request is refused. */
    method Close(chan: nat) returns (first: bool, asked: Option<int32>)
      requires Valid() && chan !in chans
      modifies this
      ensures Valid() && first == !old(closed) && asked == None
      ensures State() == if first then Register(old(State()).(closed := true), chan, CloseStream(old(streamID)), 0)
                         else old(State())
    {
      if closed {
        return false, None;
      }
      closed := true;
      asked := RegisterRequest(chan, CloseStream(streamID), 0);
      return true, asked;
    }
  }
}
