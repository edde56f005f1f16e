/**
 * A client session: the servers it knows, its per-key cache of the last
 * timestamp it observed (`timestamps`), and the port its callback listener
 * receives deferred GET answers on. The server a call goes to is picked by
 * an arbitrary `draw`, and the reply the call gets back (None when the
 * connection failed or no message came back) is an input.
 */
module Client {
  import opened Messages

  /** `timestamps.getOrDefault(key, 0L)` */
  function CachedTs(timestamps: map<string, int>, key: string): int
  {
    if key in timestamps then timestamps[key] else 0
  }

  /** `escolherServidorAleatorio`: the index `random.nextInt(n)` picks, for an arbitrary draw. */
  function ChooseServer(servers: seq<Address>, draw: int): (i: nat)
    requires |servers| > 0
    ensures i < |servers|
  {
    draw % |servers|
  }

  /** The cache after a PUT whose reply was `reply`: only a PUT_OK is recorded. */
  function ObservePut(timestamps: map<string, int>, key: string, reply: Option<Message>): (t: map<string, int>)
    ensures forall k :: k != key ==> CachedTs(t, k) == CachedTs(timestamps, k)
    ensures reply.Some? && reply.value.tipo == PutOk ==> key in t && t[key] == reply.value.timestamp
    ensures !(reply.Some? && reply.value.tipo == PutOk) ==> t == timestamps
  {
    if reply.Some? && reply.value.tipo == PutOk then timestamps[key := reply.value.timestamp] else timestamps
  }

  /** The cache after a synchronous GET whose reply was `reply`: only a GET_OK is recorded. */
  function ObserveGet(timestamps: map<string, int>, key: string, reply: Option<Message>): (t: map<string, int>)
    ensures forall k :: k != key ==> CachedTs(t, k) == CachedTs(timestamps, k)
    ensures reply.Some? && reply.value.tipo == GetOk ==> key in t && t[key] == reply.value.timestamp
    ensures !(reply.Some? && reply.value.tipo == GetOk) ==> t == timestamps
  {
    if reply.Some? && reply.value.tipo == GetOk then timestamps[key := reply.value.timestamp] else timestamps
  }

  /** The cache after the listener received `push`: its type is not looked at. */
  function ObservePush(timestamps: map<string, int>, push: Message): (t: map<string, int>)
    ensures forall k :: k != push.key ==> CachedTs(t, k) == CachedTs(timestamps, k)
    ensures push.key in t && t[push.key] == push.timestamp
  {
    timestamps[push.key := push.timestamp]
  }

  class Session {
    /** `servidores` */
    var servers: seq<Address>
    /** `timestamps`: key to the last timestamp observed for it. */
    var timestamps: map<string, int>
    /** `portaCliente`: where the callback listener accepts deferred answers. */
    var callbackPort: int

    constructor ()
      ensures servers == [] && timestamps == map[] && callbackPort == 0
    {
      servers, timestamps, callbackPort := [], map[], 0;
    }

    /** `initCliente`: forget the known servers, then add the configured ones in order. */
    method Init(configured: seq<Address>, port: int)
      modifies this`servers, this`callbackPort
      ensures servers == configured && callbackPort == port
      ensures timestamps == old(timestamps)
    {
      servers := [];
      for i := 0 to |configured|
        invariant servers == configured[..i]
      {
        servers := servers + [configured[i]];
      }
      callbackPort := port;
    }

    /**
     * `put`: send PUT(key, value) to a randomly chosen server and record the
     * returned timestamp on PUT_OK. With no servers, nothing is sent.
     */
    method Put(key: string, value: string, draw: int, reply: Option<Message>) returns (request: Option<Outbound>)
      modifies this`timestamps
      ensures servers == [] ==> request == None && timestamps == old(timestamps)
      ensures servers != [] ==>
        && request == Some(To(servers[ChooseServer(servers, draw)], Message(Kind.Put, key, Some(value), 0, None, 0)))
        && timestamps == ObservePut(old(timestamps), key, reply)
    {
      if servers == [] {
        return None;
      }
      var server := servers[ChooseServer(servers, draw)];
      request := Some(To(server, Message(Kind.Put, key, Some(value), 0, None, 0)));
      timestamps := ObservePut(timestamps, key, reply);
    }

    /**
     * `get`: send GET(key, cached timestamp or 0, own callback address) to a
     * randomly chosen server and record the timestamp of a GET_OK reply;
     * WAIT_FOR_RESPONSE, another type or no reply leave the cache alone.
     * With no servers, nothing is sent.
     */
    method Get(key: string, localIp: string, draw: int, reply: Option<Message>) returns (request: Option<Outbound>)
      modifies this`timestamps
      ensures servers == [] ==> request == None && timestamps == old(timestamps)
      ensures servers != [] ==>
        && request == Some(To(servers[ChooseServer(servers, draw)],
                              Message(Kind.Get, key, None, CachedTs(old(timestamps), key), Some(localIp), callbackPort)))
        && timestamps == ObserveGet(old(timestamps), key, reply)
    {
      if servers == [] {
        return None;
      }
      var cachedTs := CachedTs(timestamps, key);
      var server := servers[ChooseServer(servers, draw)];
      request := Some(To(server, Message(Kind.Get, key, None, cachedTs, Some(localIp), callbackPort)));
      timestamps := ObserveGet(timestamps, key, reply);
    }

    /** The callback listener: a pushed answer overwrites the cache entry of its key. */
    method OnPush(push: Message)
      modifies this`timestamps
      ensures timestamps == ObservePush(old(timestamps), push)
    {
      timestamps := timestamps[push.key := push.timestamp];
    }
  }
}
