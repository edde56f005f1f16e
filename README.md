# KVStore replication and freshness protocol, in Dafny

This project models the core of a small distributed key-value store. One
leader node and its followers each keep a local store of
key → (value, timestamp). A client keeps a per-key cache of the last
timestamp it observed.

- The leader takes PUTs. It stamps each one with its clock, writes it
  locally and replicates it to every follower in turn. It confirms the
  write with `PUT_OK` only when every follower answered `REPLICATION_OK`.
- A follower does not write on a PUT. It forwards the PUT to the leader
  and relays the leader's answer, or answers `PUT_FAIL` when the leader
  cannot be reached.
- Any node serves a GET from its own store when the store is at least as
  fresh as the timestamp the client sends. Otherwise it parks the request
  and answers `WAIT_FOR_RESPONSE`. The next drain of that key pushes a
  `GET_OK` to the client's callback address.

Files:

- `messages.dfy` (module `Messages`) holds the message envelope `Mensagem`
  as a datatype. It also holds the message-type tag and the address and
  outbound-connection values.
- `server.dfy` (module `Server`) models `src/Servidor.java`. `Node` is a
  class whose fields are the node's store (`banco`), its registry of parked
  GETs (`getsPendentes`), its role and its peers. The request handlers are
  methods on it, each one atomic step. The GET decision, the acknowledgement
  rule and the drain's answers are pure functions or methods proved against
  predicates.
- `client.dfy` (module `Client`) models `src/Cliente.java`. `Session` is a
  class whose cache `timestamps` is updated by `Put`, `Get` and the callback
  listener (`OnPush`). Each update is specified by a pure function.
- `consistency.dfy` (module `Consistency`) relates the client to the nodes.
  It proves that synchronous reads are monotonic and read-your-writes. It
  proves that GETs parked on a key each get exactly one deferred answer. It
  also shows that deferred answers are not freshness-gated.

Network results are inputs to the handlers:

- what each follower answered to a REPLICATION;
- what the leader relayed back to a forwarding follower;
- the reply a client call got, or `None` for a failed connection or an
  empty reply;
- the leader's clock reading and the random draw that picks a server.

Every connection a handler opens is returned as an `Outbound` value, in
the order it is opened.

### Behaviour as the code has it

The model follows `src/Servidor.java` and `src/Cliente.java`. The intended
protocol (strictly increasing timestamps, a drain on every local write,
monotonic reads for every answer) differs from the code in these places:

- Timestamps are the clock reading as given (`System.currentTimeMillis()`,
  line 171). Nothing bumps a repeated tick, so no strict increase is
  claimed.
- The leader drains parked GETs only when every follower acknowledged
  (line 195). After an unconfirmed write, a parked GET the new record could
  answer stays parked. `Node.HandlePut` and `Node.Handle` keep
  `ParkedAreStale` in every other case, and only then.
- A drain answers every parked entry of the key, whatever timestamp the
  entry asked for (lines 314-329). The client's listener records the pushed
  timestamp without comparing it or checking the message type (lines
  181-191). So a deferred answer can lower the client's cache (see
  `Consistency.DeferredAnswerCanRegress`). Monotonic reads are proved only
  for synchronous GETs.
- A replica applies a REPLICATION unconditionally, even one older than its
  record (line 277).

## Model

| member | source | states |
|---|---|---|
| `Server.GetRule` | src/Servidor.java:240-268 | a node answers at once exactly when the key is missing and the client never saw it, or the local timestamp is at least the client's; an immediate answer never has a timestamp below the client's; it is the stored record, or "NULL" at 0 for a missing key |
| `Server.Node.HandleGet` | src/Servidor.java:231-269 | the four GET cases: missing key with client ts 0 gives GET_OK("NULL",0) and parks nothing; missing key with client ts ≠ 0 appends one entry (GET, key, no value, client ts, callback address) at the end of the key's list and answers WAIT_FOR_RESPONSE with ts 0; fresh record gives GET_OK with the stored value and ts, registry unchanged; stale record parks one entry and answers WAIT_FOR_RESPONSE with the local ts; the store never changes; parked GETs stay unanswerable |
| `Server.Enqueue` | src/Servidor.java:247-251 | parking appends the entry at the end of the key's list and leaves every other key's list as it was |
| `Server.EnqueueAllKeepsOrder` | src/Servidor.java:262-266 | GETs parked one after another on a key are all kept, in arrival order, behind the earlier ones; other keys are untouched |
| `Server.AsyncReplies` | src/Servidor.java:314-330 | the drain loop produces exactly one GET_OK(key, value, ts) per removed entry, in order, to that entry's callback address, whatever timestamp the entry asked for |
| `Server.Node.NotifyPending` | src/Servidor.java:308-331 | the key's whole list leaves the registry (nothing is re-parked, even if a push fails), other keys' lists are untouched, what is removed are GETs of that key, and one push per removed entry is produced |
| `Server.Node.HandleReplication` | src/Servidor.java:275-284 | the store at the key becomes exactly (value, ts), even if older, other keys unchanged; the reply is REPLICATION_OK echoing key and ts; the key is then drained |
| `Server.AckCount` | src/Servidor.java:178-195 | the acknowledgement count never exceeds the number of followers, and equals it exactly when every follower acknowledged |
| `Server.Replicate` | src/Servidor.java:176-194 | one REPLICATION(key, value, ts) per follower in list order; a follower counts as acked iff its reply type is REPLICATION_OK, a connection failure does not; the count is at most the follower count and equal to it iff all acked |
| `Server.Node.HandlePut` | src/Servidor.java:164-222 | leader: the write (value, clock) lands locally whatever the followers answer; PUT_OK(key, value, ts) is sent and the key drained iff all followers acked, otherwise no reply and the registry is unchanged; non-leader: store and registry untouched, the PUT is forwarded to the leader and the leader's reply relayed verbatim, or PUT_FAIL on forwarding failure |
| `Server.Node.Handle` | src/Servidor.java:121-154 | dispatch: GET is answered by the GET rule and parked exactly when the rule waits; REPLICATION overwrites the key, is acknowledged and drains the key; a leader's PUT writes, replicates and confirms and drains iff all followers acked; a non-leader's PUT is forwarded and relayed or answered PUT_FAIL; any other type gets no reply and changes nothing; only the request's key can change; only a leader's PUT or a REPLICATION changes the store |
| `Server.Node.Leader` | src/Servidor.java:68-85 | a leader starts with an empty store and registry, is its own leader, and has the two configured followers |
| `Server.Node.Follower` | src/Servidor.java:86-97 | a follower starts empty, knows the leader's address and has no followers |
| `Client.ChooseServer` | src/Cliente.java:148-150 | the chosen server index is always in [0, number of servers) |
| `Client.ObservePut` | src/Cliente.java:95-106 | a PUT sets the key's cache entry to the reply timestamp exactly when the reply is PUT_OK; any other reply or none leaves the cache unchanged; other keys are never touched |
| `Client.ObserveGet` | src/Cliente.java:124-141 | a synchronous GET_OK sets the key's cache entry to the reply timestamp; WAIT_FOR_RESPONSE, an unexpected type or no reply leaves the cache unchanged; other keys are never touched |
| `Client.ObservePush` | src/Cliente.java:181-191 | a pushed answer overwrites the cache entry of the pushed key with the pushed timestamp and touches no other key |
| `Client.Session.constructor` | src/Cliente.java:16-22 | a session starts with no servers, an empty cache and callback port 0 |
| `Client.Session.Init` | src/Cliente.java:52-79 | the server list is cleared and refilled with the configured servers in order; the callback port is set; the cache is kept |
| `Client.Session.Put` | src/Cliente.java:82-107 | with no servers nothing is sent and nothing changes; otherwise PUT(key, value) goes to an in-range server and the cache changes as `ObservePut` says |
| `Client.Session.Get` | src/Cliente.java:110-145 | with no servers nothing is sent and nothing changes; otherwise GET(key) carries the cached timestamp (0 if never observed) and the callback address, and the cache changes as `ObserveGet` says |
| `Client.Session.OnPush` | src/Cliente.java:177-195 | the listener records each pushed answer as `ObservePush` says |
| `Consistency.SyncReadNeverRegresses` | src/Servidor.java:257-259 | one synchronous GET, answered by any node's GET rule, never lowers any cached timestamp |
| `Consistency.SyncReadsNeverRegress` | src/Cliente.java:117-137 | monotonic reads: any run of synchronous GETs to any nodes never lowers a cached timestamp |
| `Consistency.ReadYourWrites` | src/Cliente.java:96-98 | after a PUT_OK with timestamp t is recorded, later synchronous GETs never leave the key's cached timestamp below t |
| `Consistency.ParkedGetsInRegistry` | src/Servidor.java:247-251 | GETs parked one after another on a key with nothing parked since its last drain leave exactly one registry entry each, in arrival order, with the request's timestamp and callback address and the value cleared |
| `Consistency.ParkedGetsAllAnswered` | src/Servidor.java:308-329 | GETs parked one after another on a key with nothing parked since its last drain get exactly one GET_OK each from the next drain, in arrival order, at their own callback addresses; none is dropped or duplicated |
| `Consistency.DeferredAnswerCanRegress` | src/Servidor.java:315-323 | whatever timestamp t0 a GET was parked with, a drain by a write at any older ts pushes exactly one GET_OK for that key at ts, and the listener lowers the client's cached timestamp for the key from t0 to ts |

## Left out

- Sockets, the one-request-per-connection transport, readers and writers are not modelled. Each network call's outcome is an input value, and each opened connection is an `Outbound` result.
- The Gson JSON encoding and decoding is not modelled. Messages are datatype values, and a tag string outside the protocol is `Kind.Unknown`. A decoded `null` message is not modelled. A null message makes the server's dispatch (src/Servidor.java:134), the leader's acknowledgement check (src/Servidor.java:298) and the client's listener (src/Cliente.java:185) throw a `NullPointerException` that ends the handling thread. In the leader's case the local write has already landed, the remaining followers are not contacted and no reply is sent.
- The `{"tipo":"PUT_FAIL"}` reply has a null key. The model gives it the key "".
- Threads and `synchronized` blocks are not modelled. Each handler is one atomic step, so races between a GET's store read and a concurrent drain are not modelled.
- Interactive configuration through `Scanner`, the client's menu loop, the server's accept loop and its own port, and all console logging are not modelled. The configured addresses are parameters of `Node.Leader`, `Node.Follower` and `Session.Init`.
- The clock (`System.currentTimeMillis()`) is a parameter. Timestamps are unbounded integers. The code only compares and copies them, so a 64-bit `long` behaves the same.
- The 10-second sleep before each replication is not modelled. It has no effect on state.
- `Random` is not modelled. The server choice is an arbitrary draw reduced into range.
- The failure of `InetAddress.getLocalHost()` in a GET is not modelled. The local address is a parameter.
- `Mensagem`'s getters and setters are not modelled. The datatype's fields replace them.
