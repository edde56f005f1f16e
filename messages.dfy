/**
 * The wire envelope shared by clients and server nodes (`Mensagem`), and the
 * addresses that outbound connections are opened to. Pure data: the JSON
 * encoding that carries these values over a socket is not modelled.
 */
module Messages {

  datatype Option<T> = None | Some(value: T)

  /** The `tipo` tag of a message; `Unknown` is any tag the protocol does not define. */
  datatype Kind =
    | Put
    | PutOk
    | PutFail
    | Get
    | GetOk
    | WaitForResponse
    | Replication
    | ReplicationOk
    | Unknown(tag: string)

  /**
   * One message. `value` and `ipCliente` are nullable on the wire; `ipCliente`
   * and `portaCliente` are only filled in on a client's GET, so that the node
   * knows where to push a deferred answer.
   */
  datatype Message = Message(
    tipo: Kind,
    key: string,
    value: Option<string>,
    timestamp: int,
    ipCliente: Option<string>,
    portaCliente: int)

  /** A configured peer: a server known to a client, a follower, or the leader. */
  datatype Address = Address(ip: string, port: int)

  /** One outbound connection that carries `msg` to `ip`:`port`. */
  datatype Outbound = Outbound(ip: Option<string>, port: int, msg: Message)

  function To(a: Address, msg: Message): Outbound
  {
    Outbound(Some(a.ip), a.port, msg)
  }

  /** The reply `{"tipo":"PUT_FAIL"}`: every other field is absent (its null key is read as ""). */
  const PutFailMessage := Message(PutFail, "", None, 0, None, 0)

  function GetOkMessage(key: string, value: Option<string>, ts: int): Message
  {
    Message(GetOk, key, value, ts, None, 0)
  }
}
