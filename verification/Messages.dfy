/** Messages between clients and server (src/domain/messages/client.rs, src/domain/messages/server.rs). */
module Messages {
  import opened Ids

  /** A stored event (src/domain/source_events/mod.rs:91-105). */
  datatype SourceEvent = SourceEvent(
    id: EventId, createdAt: int, clock: nat, aggregateId: string, aggregateType: string, payload: seq<byte>)

  datatype HandlingFailure = ErrorHandling | Unknown(details: Option<string>)

  datatype ClientMessage =
    | RegisterClient(client: ClientId, queries: seq<QueryId>, tx: Tx)
    | QueryRequest(requestId: RequestId, requester: ClientId, queryId: QueryId, parameters: map<string, string>)
    | QueryResponse(requestId: RequestId, responder: ClientId, result: seq<byte>)
    | QueryHandlingFailed(requestId: RequestId, responder: ClientId, reason: HandlingFailure)
    | RegisterSourceEvent(source: ClientId, eventId: EventId, aggregateId: string, aggregateType: string,
        payload: seq<byte>)
    | Heartbeat(client: ClientId)
    | DisconnectClient(client: ClientId)
  {
    /** Whose `last_seen` the message moves. */
    function Source(): Option<ClientId> {
      match this
      case RegisterClient(_, _, _) => None
      case QueryRequest(_, requester, _, _) => Some(requester)
      case QueryResponse(_, responder, _) => Some(responder)
      case QueryHandlingFailed(_, responder, _) => Some(responder)
      case RegisterSourceEvent(source, _, _, _, _) => Some(source)
      case Heartbeat(client) => Some(client)
      case DisconnectClient(client) => Some(client)
    }
  }

  datatype FailedReason =
    | RequestIdDuplicated
    | QueryHandlerNotFound
    | QueryTimedOut
    | HandlingError(failure: HandlingFailure)

  datatype ServerMessage =
    | ClientRegistered(client: ClientId)
    | ClientRegistrationFailed(client: ClientId)
    | ServerHeartbeat
    | QueryRequested(requestId: RequestId, queryId: QueryId, parameters: map<string, string>)
    | QueryRequestedFailed(requestId: RequestId, queryId: QueryId, reason: FailedReason)
    | QueryResponded(requestId: RequestId, result: seq<byte>)
    | SourceEventRegistered(eventId: EventId, clock: nat)
    | SourceEventBroadcast(event: SourceEvent)
}
