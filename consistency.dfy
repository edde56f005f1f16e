/**
 * Properties that relate the client's timestamp cache to the nodes' GET
 * rule and registry: monotonic synchronous reads, read-your-writes, and
 * that every parked GET gets exactly one deferred answer.
 */
module Consistency {
  import opened Messages
  import opened Server
  import opened Client

  /** A synchronous GET of `key`, served by a node whose local record for `key` is `local`. */
  datatype SyncRead = SyncRead(key: string, local: Option<Record>)

  /** The node's reply to the GET that a client with cache `cache` sends for `r`. */
  function ReplyTo(cache: map<string, int>, r: SyncRead): Message
  {
    GetResponse(r.local, r.key, CachedTs(cache, r.key))
  }

  /** The client's cache after the synchronous GETs `served`, each answered by the GET rule. */
  function ReplayReads(cache: map<string, int>, served: seq<SyncRead>): map<string, int>
    decreases |served|
  {
    if served == [] then cache
    else ReplayReads(ObserveGet(cache, served[0].key, Some(ReplyTo(cache, served[0]))), served[1..])
  }

  /** One synchronous GET never lowers any cached timestamp, whichever node answers it. */
  lemma SyncReadNeverRegresses(cache: map<string, int>, r: SyncRead)
    ensures forall k :: CachedTs(ObserveGet(cache, r.key, Some(ReplyTo(cache, r))), k) >= CachedTs(cache, k)
  {
    // by the freshness clause of GetRule's contract
  }

  /** Monotonic reads: a run of synchronous GETs, to any nodes, never lowers a cached timestamp. */
  lemma {:induction false} SyncReadsNeverRegress(cache: map<string, int>, served: seq<SyncRead>)
    ensures forall k :: CachedTs(ReplayReads(cache, served), k) >= CachedTs(cache, k)
    decreases |served|
  {
    if served != [] {
      var next := ObserveGet(cache, served[0].key, Some(ReplyTo(cache, served[0])));
      SyncReadNeverRegresses(cache, served[0]);
      SyncReadsNeverRegress(next, served[1..]);
    }
  }

  /**
   * Read-your-writes: once a PUT_OK with timestamp t is recorded for a key,
   * no later synchronous GET leaves the client with an older timestamp for it.
   */
  lemma {:induction false} ReadYourWrites(cache: map<string, int>, key: string, ack: Message, served: seq<SyncRead>)
    requires ack.tipo == PutOk
    ensures CachedTs(ReplayReads(ObservePut(cache, key, Some(ack)), served), key) >= ack.timestamp
  {
    var after := ObservePut(cache, key, Some(ack));
    assert CachedTs(after, key) == ack.timestamp;
    SyncReadsNeverRegress(after, served);
  }

  /** The registry entries that the GETs `gets` leave when parked. */
  function ParkedEntries(gets: seq<Message>): seq<Message>
  {
    seq(|gets|, i requires 0 <= i < |gets| => ParkedEntry(gets[i]))
  }

  /**
   * GETs parked one after another on a key with nothing parked since its
   * last drain leave exactly one registry entry each, in arrival order,
   * carrying the request's timestamp and callback address with the value
   * cleared.
   */
  lemma ParkedGetsInRegistry(pending: map<string, seq<Message>>, key: string, gets: seq<Message>)
    requires key !in pending
    ensures |Parked(EnqueueAll(pending, key, ParkedEntries(gets)), key)| == |gets|
    ensures forall i :: 0 <= i < |gets| ==>
      var e := Parked(EnqueueAll(pending, key, ParkedEntries(gets)), key)[i];
      && e.timestamp == gets[i].timestamp && e.value == None
      && e.ipCliente == gets[i].ipCliente && e.portaCliente == gets[i].portaCliente
  {
    var es := ParkedEntries(gets);
    EnqueueAllKeepsOrder(pending, key, es);
    assert Parked(pending, key) == [];
    assert Parked(EnqueueAll(pending, key, es), key) == es;
  }

  /**
   * GETs parked one after another on a key that had none parked are all
   * answered by the next drain of that key: exactly one GET_OK each, in
   * arrival order, to the callback address each request carried.
   */
  lemma ParkedGetsAllAnswered(pending: map<string, seq<Message>>, key: string, gets: seq<Message>,
                              value: Option<string>, ts: int, pushes: seq<Outbound>)
    requires key !in pending
    requires Notifies(Parked(EnqueueAll(pending, key, ParkedEntries(gets)), key), key, value, ts, pushes)
    ensures |pushes| == |gets|
    ensures forall i :: 0 <= i < |gets| ==>
      pushes[i] == Outbound(gets[i].ipCliente, gets[i].portaCliente, GetOkMessage(key, value, ts))
  {
    var es := ParkedEntries(gets);
    EnqueueAllKeepsOrder(pending, key, es);
    assert Parked(pending, key) == [];
    assert Parked(EnqueueAll(pending, key, es), key) == es;
    forall i | 0 <= i < |gets|
      ensures pushes[i] == Outbound(gets[i].ipCliente, gets[i].portaCliente, GetOkMessage(key, value, ts))
    {
      assert pushes[i] == Outbound(es[i].ipCliente, es[i].portaCliente, GetOkMessage(key, value, ts));
    }
  }

  /**
   * A deferred answer is not gated on freshness: whatever timestamp `t0` a
   * GET was parked with, a drain by a write at an older `ts` pushes GET_OK
   * at `ts`, and the listener lowers the client's cache for the key from
   * `t0` to `ts`.
   */
  lemma DeferredAnswerCanRegress(cache: map<string, int>, get: Message, value: Option<string>, ts: int,
                                 pushes: seq<Outbound>)
    requires CachedTs(cache, get.key) == get.timestamp
    requires ts < get.timestamp
    requires Notifies([ParkedEntry(get)], get.key, value, ts, pushes)
    ensures |pushes| == 1 && pushes[0].msg.key == get.key
    ensures CachedTs(ObservePush(cache, pushes[0].msg), get.key) == ts < CachedTs(cache, get.key)
  {
    assert pushes[0] == Outbound(get.ipCliente, get.portaCliente, GetOkMessage(get.key, value, ts));
  }
}
