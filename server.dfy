/**
 * One server node of the key-value store: its local store (`banco`), its
 * registry of parked GETs (`getsPendentes`) and its role. Each request
 * handler is one atomic step over that state; what the network answers
 * (followers' acknowledgements, the leader's relayed reply) and the clock
 * reading are inputs, and every connection a handler opens is returned as
 * an `Outbound` value in the order it is attempted.
 */
module Server {
  import opened Messages

  /** `DadoKV`: the value of the last write applied to a key, and its timestamp. */
  datatype Record = Record(valor: Option<string>, timestamp: int)

  /** What a follower answered to one REPLICATION, or that it could not be reached. */
  datatype ReplicaOutcome = Replied(reply: Message) | ConnectFailed

  /** What a non-leader got when it forwarded a PUT: the leader's reply line (None if the leader closed without one), or a connection failure. */
  datatype ForwardOutcome = Relayed(reply: Option<Message>) | ForwardFailed

  /** The decision taken by the GET rule: answer now, or park the request. */
  datatype GetOutcome = Answer(value: Option<string>, ts: int) | Wait(ts: int)

  function Lookup(store: map<string, Record>, key: string): Option<Record>
  {
    if key in store then Some(store[key]) else None
  }

  /** The parked GETs of `key`, empty when there are none. */
  function Parked(pending: map<string, seq<Message>>, key: string): seq<Message>
  {
    if key in pending then pending[key] else []
  }

  /**
   * The freshness rule of a GET whose client last saw `tsClient` for the key,
   * served by a node whose local record for it is `local`.
   */
  function GetRule(local: Option<Record>, tsClient: int): (d: GetOutcome)
    // the node answers exactly when it is at least as fresh as the client,
    // a missing key counting as fresh only for a client that never saw the key
    ensures d.Answer? <==>
      (local.None? && tsClient == 0) || (local.Some? && local.value.timestamp >= tsClient)
    // an immediate answer never carries a timestamp older than the client's
    ensures d.Answer? ==> d.ts >= tsClient
    // what it answers is the local record, or "NULL" at timestamp 0 for a missing key
    ensures d.Answer? ==>
      (if local.Some? then d.value == local.value.valor && d.ts == local.value.timestamp
       else d.value == Some("NULL") && d.ts == 0)
  {
    match local
    case None => if tsClient == 0 then Answer(Some("NULL"), 0) else Wait(0)
    case Some(r) => if r.timestamp >= tsClient then Answer(r.valor, r.timestamp) else Wait(r.timestamp)
  }

  /** The reply a node sends on the GET's own connection. */
  function GetResponse(local: Option<Record>, key: string, tsClient: int): Message
  {
    match GetRule(local, tsClient)
    case Answer(v, t) => GetOkMessage(key, v, t)
    case Wait(t) => Message(WaitForResponse, key, None, t, None, 0)
  }

  /** The registry entry a parked GET leaves: the request with its value cleared. */
  function ParkedEntry(msg: Message): Message
  {
    Message(msg.tipo, msg.key, None, msg.timestamp, msg.ipCliente, msg.portaCliente)
  }

  /** `computeIfAbsent(key, ...).add(entry)`: append one entry to the end of the key's list. */
  function Enqueue(pending: map<string, seq<Message>>, key: string, entry: Message): (p: map<string, seq<Message>>)
    ensures p.Keys == pending.Keys + {key}
    ensures Parked(p, key) == Parked(pending, key) + [entry]
    ensures forall k :: k != key ==> Parked(p, k) == Parked(pending, k)
  {
    pending[key := Parked(pending, key) + [entry]]
  }

  /** Appending `entries`, one after the other, to the list of `key`. */
  function EnqueueAll(pending: map<string, seq<Message>>, key: string, entries: seq<Message>): map<string, seq<Message>>
    decreases |entries|
  {
    if entries == [] then pending else EnqueueAll(Enqueue(pending, key, entries[0]), key, entries[1..])
  }

  /**
   * Parking several GETs on one key keeps all of them, in arrival order,
   * behind the ones already parked, and touches no other key.
   */
  lemma {:induction false} EnqueueAllKeepsOrder(pending: map<string, seq<Message>>, key: string, entries: seq<Message>)
    ensures Parked(EnqueueAll(pending, key, entries), key) == Parked(pending, key) + entries
    ensures forall k :: k != key ==> Parked(EnqueueAll(pending, key, entries), k) == Parked(pending, k)
    decreases |entries|
  {
    if entries != [] {
      var p := Enqueue(pending, key, entries[0]);
      EnqueueAllKeepsOrder(p, key, entries[1..]);
      assert Parked(pending, key) + [entries[0]] + entries[1..] == Parked(pending, key) + entries;
    }
  }

  /**
   * `pushes` are the deferred answers to `entries` after a write of
   * (`value`, `ts`) to `key`: one GET_OK per entry, in order, each to the
   * callback address the entry gave, whatever timestamp the entry asked for.
   */
  ghost predicate Notifies(entries: seq<Message>, key: string, value: Option<string>, ts: int, pushes: seq<Outbound>)
  {
    && |pushes| == |entries|
    && forall i :: 0 <= i < |pushes| ==>
         pushes[i] == Outbound(entries[i].ipCliente, entries[i].portaCliente, GetOkMessage(key, value, ts))
  }

  /** The loop of `notificarPendentes` over the removed entries; a failed push is dropped, never re-parked. */
  method AsyncReplies(entries: seq<Message>, key: string, value: Option<string>, ts: int) returns (pushes: seq<Outbound>)
    ensures Notifies(entries, key, value, ts, pushes)
  {
    pushes := [];
    for i := 0 to |entries|
      invariant Notifies(entries[..i], key, value, ts, pushes)
    {
      pushes := pushes + [Outbound(entries[i].ipCliente, entries[i].portaCliente, GetOkMessage(key, value, ts))];
    }
    assert entries[..|entries|] == entries;
  }

  /** `enviarReplicacao`: a follower acknowledged iff it answered with type REPLICATION_OK. */
  predicate Acked(o: ReplicaOutcome)
  {
    o.Replied? && o.reply.tipo == ReplicationOk
  }

  /** The number of acknowledging followers among `outcomes`. */
  function AckCount(outcomes: seq<ReplicaOutcome>): (n: nat)
    ensures n <= |outcomes|
    ensures n == |outcomes| <==> forall i :: 0 <= i < |outcomes| ==> Acked(outcomes[i])
  {
    if outcomes == [] then 0
    else AckCount(outcomes[..|outcomes| - 1]) + (if Acked(outcomes[|outcomes| - 1]) then 1 else 0)
  }

  /** The REPLICATION connections a leader opens for a write, one per follower, in list order. */
  ghost predicate ReplicationSends(followers: seq<Address>, key: string, value: Option<string>, ts: int, sends: seq<Outbound>)
  {
    && |sends| == |followers|
    && forall i :: 0 <= i < |sends| ==> sends[i] == To(followers[i], Message(Replication, key, value, ts, None, 0))
  }

  /**
   * The leader's replication loop: send REPLICATION(key, value, ts) to every
   * follower in turn and count the acknowledgements; `outcomes[i]` is what
   * follower `i` answered.
   */
  method Replicate(followers: seq<Address>, key: string, value: Option<string>, ts: int, outcomes: seq<ReplicaOutcome>)
    returns (acks: nat, sends: seq<Outbound>)
    requires |outcomes| == |followers|
    ensures acks == AckCount(outcomes)
    ensures acks <= |followers|
    ensures acks == |followers| <==> forall i :: 0 <= i < |outcomes| ==> Acked(outcomes[i])
    ensures ReplicationSends(followers, key, value, ts, sends)
  {
    var replication := Message(Replication, key, value, ts, None, 0);
    acks, sends := 0, [];
    for i := 0 to |followers|
      invariant acks == AckCount(outcomes[..i])
      invariant ReplicationSends(followers[..i], key, value, ts, sends)
    {
      sends := sends + [To(followers[i], replication)];
      if Acked(outcomes[i]) {
        acks := acks + 1;
      }
      assert outcomes[..i + 1][..i] == outcomes[..i];
    }
    assert outcomes[..|followers|] == outcomes;
    assert followers[..|followers|] == followers;
  }

  class Node {
    /** `banco`: key to the last record written to it. */
    var store: map<string, Record>
    /** `getsPendentes`: key to the GETs parked on it, oldest first. */
    var pending: map<string, seq<Message>>
    /** `souLider` */
    var isLeader: bool
    /** `ipLider`/`portaLider`: where a non-leader forwards PUTs. */
    var leader: Address
    /** `servidoresSeguidores`: the followers a leader replicates to (empty on a follower). */
    var followers: seq<Address>

    /**
     * Every registered list is non-empty and holds parked GETs of its own
     * key with the value cleared. Every constructor establishes it and every
     * handler keeps it; `NotifyPending` uses it to state what a drain removes.
     */
    ghost predicate Valid()
      reads this
    {
      forall k :: k in pending ==>
        && |pending[k]| > 0
        && forall i :: 0 <= i < |pending[k]| ==>
             pending[k][i].tipo == Get && pending[k][i].key == k && pending[k][i].value == None
    }

    /** No parked GET could be answered from the current store: running the GET rule on it again would park it again. */
    ghost predicate ParkedAreStale()
      reads this
    {
      forall k, i :: k in pending && 0 <= i < |pending[k]| ==>
        GetRule(Lookup(store, k), pending[k][i].timestamp).Wait?
    }

    /** A leader at `self` replicating to the two followers `f1` and `f2`. */
    constructor Leader(self: Address, f1: Address, f2: Address)
      ensures Valid() && ParkedAreStale()
      ensures store == map[] && pending == map[]
      ensures isLeader && leader == self && followers == [f1, f2]
    {
      store, pending := map[], map[];
      isLeader, leader, followers := true, self, [f1, f2];
    }

    /** A follower that forwards PUTs to `leaderAddr`. */
    constructor Follower(leaderAddr: Address)
      ensures Valid() && ParkedAreStale()
      ensures store == map[] && pending == map[]
      ensures !isLeader && leader == leaderAddr && followers == []
    {
      store, pending := map[], map[];
      isLeader, leader, followers := false, leaderAddr, [];
    }

    /**
     * `tratarGET`: answer from the local store if it is fresh enough for the
     * client, otherwise park the request and answer WAIT_FOR_RESPONSE.
     */
    method HandleGet(msg: Message) returns (reply: Message)
      requires Valid()
      requires msg.tipo == Get
      modifies this`pending
      ensures Valid()
      ensures store == old(store)
      ensures old(ParkedAreStale()) ==> ParkedAreStale()
      // missing key, client never saw it
      ensures msg.key !in store && msg.timestamp == 0 ==>
        reply == GetOkMessage(msg.key, Some("NULL"), 0) && pending == old(pending)
      // missing key, client already saw a value
      ensures msg.key !in store && msg.timestamp != 0 ==>
        && reply == Message(WaitForResponse, msg.key, None, 0, None, 0)
        && pending == Enqueue(old(pending), msg.key, ParkedEntry(msg))
      // local record at least as fresh as the client's
      ensures msg.key in store && store[msg.key].timestamp >= msg.timestamp ==>
        reply == GetOkMessage(msg.key, store[msg.key].valor, store[msg.key].timestamp) && pending == old(pending)
      // local record older than the client's
      ensures msg.key in store && store[msg.key].timestamp < msg.timestamp ==>
        && reply == Message(WaitForResponse, msg.key, None, store[msg.key].timestamp, None, 0)
        && pending == Enqueue(old(pending), msg.key, ParkedEntry(msg))
    {
      var local := Lookup(store, msg.key);
      var d := GetRule(local, msg.timestamp);
      if d.Wait? {
        pending := Enqueue(pending, msg.key, ParkedEntry(msg));
      }
      reply := GetResponse(local, msg.key, msg.timestamp);
    }

    /**
     * `notificarPendentes`: take the key's whole list out of the registry and
     * push one GET_OK(key, value, ts) to each removed entry.
     */
    method NotifyPending(key: string, value: Option<string>, ts: int) returns (pushes: seq<Outbound>)
      requires Valid()
      modifies this`pending
      ensures Valid()
      ensures pending == old(pending) - {key}
      ensures Notifies(Parked(old(pending), key), key, value, ts, pushes)
      // what is drained are GETs of this very key, one push each
      ensures forall i :: 0 <= i < |pushes| ==>
        Parked(old(pending), key)[i].tipo == Get && Parked(old(pending), key)[i].key == key
    {
      if key in pending {
        var parked := pending[key];
        pending := pending - {key};
        pushes := AsyncReplies(parked, key, value, ts);
      } else {
        pushes := [];
      }
    }

    /**
     * `tratarREPLICATION`: overwrite the record unconditionally, even with an
     * older timestamp, acknowledge, then drain the key.
     */
    method HandleReplication(msg: Message) returns (ack: Message, pushes: seq<Outbound>)
      requires Valid()
      modifies this`store, this`pending
      ensures Valid()
      ensures store == old(store)[msg.key := Record(msg.value, msg.timestamp)]
      ensures ack == Message(ReplicationOk, msg.key, None, msg.timestamp, None, 0)
      ensures pending == old(pending) - {msg.key}
      ensures Notifies(Parked(old(pending), msg.key), msg.key, msg.value, msg.timestamp, pushes)
      ensures old(ParkedAreStale()) ==> ParkedAreStale()
    {
      store := store[msg.key := Record(msg.value, msg.timestamp)];
      ack := Message(ReplicationOk, msg.key, None, msg.timestamp, None, 0);
      pushes := NotifyPending(msg.key, msg.value, msg.timestamp);
    }

    /**
     * `tratarPUT`. A leader writes (value, now) locally, replicates to every
     * follower, and replies PUT_OK and drains the key only if all of them
     * acknowledged; otherwise it sends no reply and the local write stays.
     * A non-leader forwards the request to the leader and relays its answer,
     * or answers PUT_FAIL when the leader cannot be reached.
     * `outbound` lists the connections opened, in order.
     */
    method HandlePut(msg: Message, now: int, outcomes: seq<ReplicaOutcome>, forward: ForwardOutcome)
      returns (reply: Option<Message>, outbound: seq<Outbound>)
      requires Valid()
      requires isLeader ==> |outcomes| == |followers|
      modifies this`store, this`pending
      ensures Valid()
      // leader: the local write always lands
      ensures isLeader ==> store == old(store)[msg.key := Record(msg.value, now)]
      ensures isLeader ==>
        && |outbound| >= |followers|
        && ReplicationSends(followers, msg.key, msg.value, now, outbound[..|followers|])
      // leader: confirmed and drained iff every follower acknowledged
      ensures isLeader ==>
        (reply.Some? <==> forall i :: 0 <= i < |outcomes| ==> Acked(outcomes[i]))
      ensures isLeader && reply.Some? ==>
        && reply.value == Message(PutOk, msg.key, msg.value, now, None, 0)
        && pending == old(pending) - {msg.key}
        && Notifies(Parked(old(pending), msg.key), msg.key, msg.value, now, outbound[|followers|..])
        && (old(ParkedAreStale()) ==> ParkedAreStale())
      ensures isLeader && reply.None? ==> pending == old(pending) && |outbound| == |followers|
      // non-leader: the local state is untouched
      ensures !isLeader ==>
        && store == old(store) && pending == old(pending)
        && outbound == [To(leader, msg)]
        && reply == (if forward.Relayed? then forward.reply else Some(PutFailMessage))
        && (old(ParkedAreStale()) ==> ParkedAreStale())
    {
      if isLeader {
        store := store[msg.key := Record(msg.value, now)];
        var acks, sends := Replicate(followers, msg.key, msg.value, now, outcomes);
        if acks == |followers| {
          reply := Some(Message(PutOk, msg.key, msg.value, now, None, 0));
          var pushes := NotifyPending(msg.key, msg.value, now);
          outbound := sends + pushes;
          assert outbound[..|followers|] == sends;
          assert outbound[|followers|..] == pushes;
        } else {
          reply := None;
          outbound := sends;
          assert outbound[..|followers|] == sends;
        }
      } else {
        outbound := [To(leader, msg)];
        match forward
        case Relayed(leaderReply) => reply := leaderReply;
        case ForwardFailed => reply := Some(PutFailMessage);
      }
    }

    /**
     * The request dispatch of `run`: PUT, GET and REPLICATION go to their
     * handlers; any other type is dropped with no reply and no effect.
     */
    method Handle(msg: Message, now: int, outcomes: seq<ReplicaOutcome>, forward: ForwardOutcome)
      returns (reply: Option<Message>, outbound: seq<Outbound>)
      requires Valid()
      requires msg.tipo == Put && isLeader ==> |outcomes| == |followers|
      modifies this`store, this`pending
      ensures Valid()
      // only the request's own key can change, in the store and in the registry
      ensures forall k :: k != msg.key ==> Lookup(store, k) == Lookup(old(store), k)
      ensures forall k :: k != msg.key ==> Parked(pending, k) == Parked(old(pending), k)
      // only a write (a leader's PUT or a REPLICATION) changes the store
      ensures store != old(store) ==> msg.tipo == Replication || (msg.tipo == Put && isLeader)
      // parked GETs stay stale unless a leader's write went unconfirmed
      ensures old(ParkedAreStale()) && !(msg.tipo == Put && isLeader && reply.None?) ==> ParkedAreStale()
      // GET: answered by the GET rule, parked exactly when the rule waits
      ensures msg.tipo == Get ==>
        && store == old(store)
        && outbound == []
        && reply == Some(GetResponse(Lookup(old(store), msg.key), msg.key, msg.timestamp))
        && pending == (if GetRule(Lookup(old(store), msg.key), msg.timestamp).Wait?
                       then Enqueue(old(pending), msg.key, ParkedEntry(msg))
                       else old(pending))
      // REPLICATION: unconditional overwrite, acknowledgement, drain of the key
      ensures msg.tipo == Replication ==>
        && store == old(store)[msg.key := Record(msg.value, msg.timestamp)]
        && reply == Some(Message(ReplicationOk, msg.key, None, msg.timestamp, None, 0))
        && pending == old(pending) - {msg.key}
        && Notifies(Parked(old(pending), msg.key), msg.key, msg.value, msg.timestamp, outbound)
      // PUT at the leader: local write, replication, confirmation and drain iff all acked
      ensures msg.tipo == Put && isLeader ==>
        && store == old(store)[msg.key := Record(msg.value, now)]
        && |outbound| >= |followers|
        && ReplicationSends(followers, msg.key, msg.value, now, outbound[..|followers|])
        && (reply.Some? <==> forall i :: 0 <= i < |outcomes| ==> Acked(outcomes[i]))
        && (reply.Some? ==>
              && reply.value == Message(PutOk, msg.key, msg.value, now, None, 0)
              && pending == old(pending) - {msg.key}
              && Notifies(Parked(old(pending), msg.key), msg.key, msg.value, now, outbound[|followers|..]))
        && (reply.None? ==> pending == old(pending) && |outbound| == |followers|)
      // PUT at a non-leader: forward and relay, local state untouched
      ensures msg.tipo == Put && !isLeader ==>
        && store == old(store) && pending == old(pending)
        && outbound == [To(leader, msg)]
        && reply == (if forward.Relayed? then forward.reply else Some(PutFailMessage))
      ensures msg.tipo !in {Put, Get, Replication} ==>
        reply == None && outbound == [] && store == old(store) && pending == old(pending)
    {
      match msg.tipo {
        case Put =>
          reply, outbound := HandlePut(msg, now, outcomes, forward);
        case Get =>
          var r := HandleGet(msg);
          reply, outbound := Some(r), [];
        case Replication =>
          var ack, pushes := HandleReplication(msg);
          reply, outbound := Some(ack), pushes;
        case _ =>
          reply, outbound := None, [];
      }
    }
  }
}
