/**
 * The objects behind the ACP protocol, updated in place: cancellation tokens that a session and its turn share, the
 * registry of sessions, and the registry of pending permission requests.
 */
module AcpHandles {
  import opened Wrappers

  /** Shared by a session handle and the turn that took it. */
  class CancellationToken {
    var cancelled: bool

    constructor ()
      ensures !cancelled
    {
      cancelled := false;
    }

    method Cancel()
      modifies this
      ensures cancelled
    {
      cancelled := true;
    }
  }

  class AcpSessionHandle {
    var cancel: CancellationToken
    var running: bool

    constructor ()
      ensures fresh(cancel) && !cancel.cancelled && !running
    {
      cancel := new CancellationToken();
      running := false;
    }

    /** Cancels the token the session holds now, and no other. */
    method Cancel()
      modifies cancel
      ensures cancel.cancelled
    {
      cancel.Cancel();
    }

    /** The turn's own token; the one held before keeps its state. */
    method FreshCancelToken() returns (token: CancellationToken)
      modifies this`cancel
      ensures fresh(token) && !token.cancelled && cancel == token
    {
      token := new CancellationToken();
      cancel := token;
    }

    /** Sets the flag and returns what it was. */
    method SwapRunning(now: bool) returns (was: bool)
      modifies this`running
      ensures was == old(running) && running == now
    {
      was := running;
      running := now;
    }
  }

  /** The guard of a prompt: one that comes while a turn is running, or has no text, leaves the flag as it was. */
  method AcceptPrompt(handle: AcpSessionHandle, blank: bool) returns (started: bool)
    modifies handle`running
    ensures started <==> !old(handle.running) && !blank
    ensures handle.running <==> old(handle.running) || started
  {
    var was := handle.SwapRunning(true);
    if was {
      return false;
    }
    if blank {
      was := handle.SwapRunning(false);
      return false;
    }
    return true;
  }

  /** A cancel between a turn's acceptance and its first step reaches the token of the turn before, not its own. */
  method CancelBeforeStart(handle: AcpSessionHandle) returns (token: CancellationToken)
    modifies handle`cancel, handle.cancel
    ensures old(handle.cancel).cancelled
    ensures handle.cancel == token && !token.cancelled
  {
    handle.Cancel();
    token := handle.FreshCancelToken();
  }

  /** A cancel during a turn reaches it, and the next turn starts with a token that is not cancelled. */
  method CancelDuringTurn(handle: AcpSessionHandle) returns (first: CancellationToken, second: CancellationToken)
    modifies handle`cancel, handle.cancel
    ensures first.cancelled && !second.cancelled && handle.cancel == second && first != second
    ensures old(handle.cancel).cancelled == old(handle.cancel.cancelled)
  {
    first := handle.FreshCancelToken();
    handle.Cancel();
    second := handle.FreshCancelToken();
  }

  class AcpSessionRegistry {
    var sessions: map<string, AcpSessionHandle>

    constructor ()
      ensures sessions == map[]
    {
      sessions := map[];
    }

    /** `id` is the new core session's id. */
    method Create(id: string) returns (handle: AcpSessionHandle)
      modifies this
      ensures fresh(handle) && fresh(handle.cancel) && !handle.running && !handle.cancel.cancelled
      ensures sessions == old(sessions)[id := handle]
    {
      handle := new AcpSessionHandle();
      sessions := sessions[id := handle];
    }

    method Get(id: string) returns (handle: Option<AcpSessionHandle>)
      ensures handle == if id in sessions then Some(sessions[id]) else None
    {
      handle := if id in sessions then Some(sessions[id]) else None;
    }

    /** Drops the handle and cancels its turn; a running turn keeps its own reference. */
    method Remove(id: string) returns (handle: Option<AcpSessionHandle>)
      modifies this, if id in sessions then {sessions[id].cancel} else {}
      ensures handle == if id in old(sessions) then Some(old(sessions)[id]) else None
      ensures sessions == old(sessions) - {id}
      ensures handle.Some? ==> handle.value.cancel == old(sessions[id].cancel) && handle.value.cancel.cancelled
    {
      if id in sessions {
        var found := sessions[id];
        sessions := sessions - {id};
        found.Cancel();
        handle := Some(found);
      } else {
        handle := None;
      }
    }
  }

  // ---- Permission requests ----

  /** A value sent through the channel of one request; none stands for JSON null. */
  datatype Delivery = Delivery(channel: nat, value: Option<string>)

  /** Every channel is used at most once, and one still pending has not been used. */
  predicate EachOnce(pending: map<string, nat>, delivered: seq<Delivery>) {
    && (forall a, b :: a in pending && b in pending && a != b ==> pending[a] != pending[b])
    && (forall i, j :: 0 <= i < j < |delivered| ==> delivered[i].channel != delivered[j].channel)
    && (forall a, i :: a in pending && 0 <= i < |delivered| ==> pending[a] != delivered[i].channel)
  }

  lemma TakeOne(pending: map<string, nat>, delivered: seq<Delivery>, id: string, value: Option<string>)
    requires EachOnce(pending, delivered) && id in pending
    ensures EachOnce(pending - {id}, delivered + [Delivery(pending[id], value)])
  {
  }

  /** `channel` is neither pending nor used. */
  predicate Unused(pending: map<string, nat>, delivered: seq<Delivery>, channel: nat) {
    && (forall a :: a in pending ==> pending[a] != channel)
    && (forall i :: 0 <= i < |delivered| ==> delivered[i].channel != channel)
  }

  class PermRegistry {
    var pending: map<string, nat>
    ghost var delivered: seq<Delivery>

    ghost predicate Valid()
      reads this
    {
      EachOnce(pending, delivered)
    }

    constructor ()
      ensures Valid() && pending == map[] && delivered == []
    {
      pending := map[];
      delivered := [];
    }

    /** The channel comes from the caller and is new. */
    method Register(requestId: string, channel: nat)
      requires Valid() && Unused(pending, delivered, channel)
      modifies this
      ensures Valid() && delivered == old(delivered) && pending == old(pending)[requestId := channel]
    {
      pending := pending[requestId := channel];
    }

    /** Only an answer under the id of a pending request is taken, and it is taken once. */
    method Resolve(id: Option<string>, result: Option<string>) returns (taken: bool)
      requires Valid()
      modifies this
      ensures Valid()
      ensures taken <==> id.Some? && id.value in old(pending)
      ensures taken ==>
                && pending == old(pending) - {id.value}
                && delivered == old(delivered) + [Delivery(old(pending)[id.value], result)]
      ensures !taken ==> pending == old(pending) && delivered == old(delivered)
    {
      if id.None? || id.value !in pending {
        return false;
      }
      hide EachOnce;
      TakeOne(pending, delivered, id.value, result);
      delivered := delivered + [Delivery(pending[id.value], result)];
      pending := pending - {id.value};
      taken := true;
    }

    /** Every pending request is answered with null; nothing else is sent. */
    method CancelAll()
      requires Valid()
      modifies this
      ensures Valid() && pending == map[]
      ensures old(delivered) <= delivered
      ensures forall i :: |old(delivered)| <= i < |delivered| ==>
                delivered[i].value == None && delivered[i].channel in old(pending).Values
      ensures forall a :: a in old(pending) ==> Delivery(old(pending)[a], None) in delivered
    {
      hide EachOnce;
      while pending != map[]
        invariant Valid()
        invariant forall a :: a in pending ==> a in old(pending) && pending[a] == old(pending)[a]
        invariant old(delivered) <= delivered
        invariant forall i :: |old(delivered)| <= i < |delivered| ==>
                    delivered[i].value == None && delivered[i].channel in old(pending).Values
        invariant forall a :: a in old(pending) && a !in pending ==> Delivery(old(pending)[a], None) in delivered
        decreases |pending|
      {
        var id :| id in pending;
        assert old(pending)[id] in old(pending).Values;
        TakeOne(pending, delivered, id, None);
        ghost var before := delivered;
        delivered := delivered + [Delivery(pending[id], None)];
        assert forall d :: d in before ==> d in delivered;
        assert delivered[|before|] in delivered;
        pending := pending - {id};
      }
    }
  }
}
