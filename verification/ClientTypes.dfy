/** Error and status vocabulary shared by the client's retry paths. */
module ClientTypes {
  import opened Wrappers

  type Endpoint = string

  /** gRPC status codes. */
  datatype Code =
    | Cancelled | Unknown | InvalidArgument | DeadlineExceeded | NotFound | AlreadyExists
    | PermissionDenied | ResourceExhausted | FailedPrecondition | Aborted | OutOfRange
    | Unimplemented | Internal | Unavailable | DataLoss | Unauthenticated

  /** The leader-hint trailer of a status, as the decoder classifies it. */
  datatype HintLookup =
    | Absent
    | Malformed
    | Decoded(endpoint: Option<Endpoint>, epoch: Option<nat>)

  datatype Status = Status(code: Code, hint: HintLookup)

  /** A NOT_LEADER reply. */
  type NotLeaderStatus = s: Status | s.code == FailedPrecondition witness Status(FailedPrecondition, Absent)

  datatype ClientError =
    | NoReachableEndpoints
    | Transport
    | TransportFanout
    | Rpc(status: Status)
    | InvalidEndpoint
    | InvalidCount(count: nat)
    | Connector
    | DriverGone
    | SeqUncertain
    | InvalidSeqKey

  /** What a single dial or RPC can report. */
  type AttemptError = e: ClientError | e.Transport? || e.Rpc? || e.InvalidEndpoint? || e.Connector? witness Transport

  /** A problem with the connection itself, as opposed to an answer from the server. */
  predicate IsTransportFailure(e: ClientError) {
    match e
    case Rpc(status) => status.code.Unavailable? || status.code.DeadlineExceeded?
    case Transport => true
    case TransportFanout => true
    case _ => false
  }

  predicate ShouldBackoff(e: ClientError) { IsTransportFailure(e) }

  const TIMED_OUT: Status := Status(DeadlineExceeded, Absent)
  const REDIRECT_CAP: NotLeaderStatus := Status(FailedPrecondition, Absent)
}
