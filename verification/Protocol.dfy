/** The control protocol shared by the client and the allocators: identities,
    time, execution phases, commands and replies. Protobuf messages are plain
    datatypes; fields no modelled branch reads are folded into `content`. */
module Protocol {

  newtype byte = b: int | 0 <= b < 0x100

  type Identity = seq<byte>

  /** Nanoseconds. `UNSET` is Go's zero time; a clock reading is always positive. */
  type Time = int

  const UNSET: Time := 0
  const SECOND := 1_000_000_000
  const COMMAND_HORIZON := 604_800 * SECOND
  const MAX_LEASE := COMMAND_HORIZON
  const FUTURE_SLACK := 120 * SECOND
  const LEASE_EXPIRED := "execution lease expired"

  datatype Option<+T> = None | Some(value: T)

  datatype Phase = Unspecified | Starting | Running | Cancelling | Cancelled | Completed | Failed

  predicate Terminal(phase: Phase) {
    phase == Cancelled || phase == Completed || phase == Failed
  }

  datatype Request = Request(requestId: string, resourceClass: string, content: string)

  datatype Payload =
    | ExecutionRequest(request: Request)
    | ExecutionAssign(requestId: string, offerId: string, executionId: string)
    | ExecutionCancel(executionId: string, reason: string)
    | ExecutionInspect(executionId: string)
    | ExecutionOfferRelease(requestId: string, offerId: string)
    | ExecutionLeaseRenew(executionId: string, duration: int)
    | ExecutionTunnelOpen(executionId: string)

  datatype Envelope = Envelope(messageId: string, sender: Identity, sentAt: Time, payload: Payload)

  /** The shape checks every inbound command passes before it is dispatched. */
  predicate ValidEnvelope(e: Envelope) {
    && e.messageId != "" && e.sender != []
    && match e.payload
       case ExecutionRequest(q) => q.requestId != "" && q.resourceClass != ""
       case ExecutionAssign(r, o, x) => r != "" && o != "" && x != ""
       case ExecutionCancel(x, _) => x != ""
       case ExecutionInspect(x) => x != ""
       case ExecutionOfferRelease(r, o) => r != "" && o != ""
       case ExecutionLeaseRenew(x, d) => x != "" && d > 0
       case ExecutionTunnelOpen(x) => x != ""
  }

  /** The wire form of an execution's state. */
  datatype View = View(executionId: string, phase: Phase, detail: string, exitCode: Option<int>,
                       occurredAt: Time, revision: nat)

  datatype ReleaseOutcome = OutcomeReleased | OutcomeExpired | OutcomeAssigned

  datatype Error =
    | OfferNotFound | Unauthorized | ExecutionConflict | OfferReleased | OfferExpired | OfferAlreadyAssigned
    | Incompatible | AdmissionDenied | CapacityExhausted | ExecutionNotFound | InvalidTransition | LeaseTooLong
    | ResultExpired | CommandExpired | InvalidConfig | IDCollision | StoreFailure | RuntimeStart | RuntimeStop
    | ReplayConflict | ReplayCapacity

  datatype Response =
    | OfferResponse(offerId: string, requestId: string, resourceClass: string, expiresAt: Time)
    | StateResponse(view: View)
    | ReleaseAck(requestId: string, offerId: string, outcome: ReleaseOutcome)
    | RenewAck(executionId: string, expiresAt: Time)
    | TunnelAck(executionId: string)
    | CommandError(error: Error)

  datatype Reply = Reply(responses: seq<Response>, err: Option<Error>)

  function Fail(error: Error): Reply {
    Reply([CommandError(error)], Some(error))
  }

  function Answer(response: Response): Reply {
    Reply([response], None)
  }

  function Max(a: int, b: int): int {
    if a < b then b else a
  }
}
