/** The values the engines, the node and the connections exchange. */
module Types {
  import opened Common

  type ClientId = string
  type Channel = string

  /** Which clients are in which channels. */
  type Relation = set<(ClientId, Channel)>

  function WithoutClient(rel: Relation, id: ClientId): Relation {
    set p | p in rel && p.0 != id
  }

  /** An opaque token that identifies one life of a stream. */
  type Epoch = Bytes

  datatype ClientInfo = ClientInfo(user: string, client: ClientId, connInfo: Option<Bytes>, chanInfo: Option<Bytes>)

  /** A publication; `sq` and `gen` carry its position instead of `offset` on the
      wire of the seq/gen compatibility mode. */
  datatype Publication = Publication(data: Bytes, info: Option<ClientInfo>, offset: nat, sq: u32, gen: u32)

  datatype StreamPosition = StreamPosition(offset: nat, epoch: Epoch)

  /** A cross-node control command. */
  datatype ControlMessage =
    | Unsubscribe(user: string, channel: Channel)
    | DisconnectUser(user: string, code: u32, reason: string, reconnect: bool, whitelist: seq<ClientId>)
    | NodePing(info: NodeInfo)

  datatype NodeInfo = NodeInfo(uid: string, name: string, version: string,
                               numClients: u32, numUsers: u32, numChannels: u32, uptime: u32)
}
