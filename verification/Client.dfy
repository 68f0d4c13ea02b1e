/** The client side of the protocol: calls waiting for their responses, and notifications. */
module Client {
  import opened Base
  import opened Connections
  import opened Routing

  /** Pending calls by id, each with a flag telling whether its caller has given up on it; the
      outcomes handed to callers; the notifications in order of arrival. */
  datatype ClientState = ClientState(
    nextId: nat, pending: map<nat, bool>, results: map<nat, Outcome>, notes: seq<Frame>)
  {
    function StartCall(): ClientState {
      this.(nextId := nextId + 1, pending := pending[nextId + 1 := false])
    }

    function GiveUp(id: nat): ClientState {
      if id in pending then this.(pending := pending[id := true]) else this
    }

    /** A response completes the pending call with its id, unless the caller has given up; an
        unknown id is ignored. Everything else is a notification. */
    function Receive(f: Frame): ClientState {
      if !IsAnswer(f) then this.(notes := notes + [f])
      else
        var id := f.requestId;
        if !id.Number? || id.n < 0 || id.n !in pending then this
        else
          this.(pending := pending - {id.n},
                results := if pending[id.n] then results else results[id.n := OutcomeOf(f)])
    }
  }

  const FRESH_CLIENT := ClientState(0, map[], map[], [])

  predicate IsAnswer(f: Frame) {
    f.Response? || f.Failure?
  }

  function OutcomeOf(f: Frame): Outcome
    requires IsAnswer(f)
  {
    match f
    case Response(_, reply) => Ok(reply)
    case Failure(_, code) => Err(code)
  }

  class PeerClient {
    var nextId: nat
    var pending: map<nat, bool>
    var results: map<nat, Outcome>
    var notifications: seq<Frame>

    ghost function Snapshot(): ClientState
      reads this
    {
      ClientState(nextId, pending, results, notifications)
    }

    constructor ()
      ensures Snapshot() == FRESH_CLIENT
    {
      nextId, pending, results, notifications := 0, map[], map[], [];
    }

    /** The part of `_call` before the request is written: the id of the new call. */
    method StartCall() returns (rid: nat)
      modifies this
      ensures Snapshot() == old(Snapshot()).StartCall() && rid == nextId
    {
      nextId := nextId + 1;
      rid := nextId;
      pending := pending[rid := false];
    }

    /** The caller stops waiting; its entry stays in the table. */
    method GiveUp(id: nat)
      modifies this
      ensures Snapshot() == old(Snapshot()).GiveUp(id)
    {
      if id in pending {
        pending := pending[id := true];
      }
    }

    /** One line in the read loop. */
    method Receive(f: Frame)
      modifies this
      ensures Snapshot() == old(Snapshot()).Receive(f)
    {
      match f {
        case Response(rid, reply) => Complete(rid, Ok(reply));
        case Failure(rid, code) => Complete(rid, Err(code));
        case _ => notifications := notifications + [f];
      }
    }

    method Complete(rid: RequestId, out: Outcome)
      modifies this
      ensures var f := if out.Ok? then Response(rid, out.value) else Failure(rid, out.error);
        Snapshot() == old(Snapshot()).Receive(f)
    {
      if !rid.Number? || rid.n < 0 || rid.n !in pending {
        return;
      }
      var done := pending[rid.n];
      pending := pending - {rid.n};
      if done {
        return;
      }
      results := results[rid.n := out];
    }
  }
}
