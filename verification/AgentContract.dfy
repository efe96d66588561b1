/**
 The HTTP contract between the Control Plane and a manager Agent for one
 mutation request: what the Agent's guard and handler can answer, and how the
 Control Plane decides from an answer that nothing was changed.
 */
module AgentContract {
  import opened Basics

  /** The `code` member of a JSON error body; `NoCode` when the body has none. */
  datatype Code =
    | NoCode
    | AgentBlocked
    | GenerationStale
    | PreconditionRequired
    | PreconditionInvalid
    | PreconditionFailed
    | IdentityUnavailable

  datatype Response = Response(status: nat, code: Code)

  /** What the mutation call can throw at the Control Plane. */
  datatype SendError =
    | PreDispatchRejection
    | AgentError(response: Response)
    | TransportError

  /** The Control Plane's test for "the Agent definitely did not update Docker". */
  predicate IsDeterministicRejection(e: SendError) {
    match e
    case PreDispatchRejection => true
    case TransportError => false
    case AgentError(Response(status, code)) =>
      || status == 400
      || status == 409
      || (status == 412 && code == PreconditionFailed)
      || (status == 428 && code == PreconditionRequired)
      || (status == 503 && code == IdentityUnavailable)
  }

  /** The result of comparing the expected-cluster header with the Swarm the Agent sees. */
  datatype ClusterCheck = HeaderMissing | HeaderMalformed | SwarmUnavailable | SwarmDiffers | SwarmAgrees

  /**
   The barrier guard in front of all mutation handlers. `None` lets the request
   through; every other verdict is an answer given before any handler runs.
   */
  function GuardVerdict(invalid: bool, open: bool, held: nat, requested: nat, check: ClusterCheck): Option<Response> {
    if invalid || !open then Some(Response(409, AgentBlocked))
    else match check
      case HeaderMissing => Some(Response(428, PreconditionRequired))
      case HeaderMalformed => Some(Response(428, PreconditionRequired))
      case SwarmUnavailable => Some(Response(503, IdentityUnavailable))
      case SwarmDiffers => Some(Response(412, PreconditionFailed))
      case SwarmAgrees => if held != requested then Some(Response(409, GenerationStale)) else None
  }

  /** The error kinds the Docker layer returns to a handler. */
  datatype EngineError = ClusterChanged | ClusterUnverified | NotFound | Conflict | Validation | Unclassified

  function EngineErrorResponse(e: EngineError): Response {
    match e
    case ClusterChanged => Response(412, PreconditionFailed)
    case ClusterUnverified => Response(503, IdentityUnavailable)
    case NotFound => Response(404, NoCode)
    case Conflict => Response(409, NoCode)
    case Validation => Response(400, NoCode)
    case Unclassified => Response(502, NoCode)
  }

  /** Every way a mutation handler can end, in the order of the handler's own checks. */
  datatype HandlerPath =
    | BadBody                                // undecodable body or a missing member
    | ClusterRefused(check: ClusterCheck)    // the header check in front of the Docker layer
    | RefusedBeforeUpdate(e: EngineError)    // inspection, fingerprint, validation or last cluster check failed
    | UpdateConflict                         // Docker rejected the stale version
    | UpdateErrored(done: bool)              // the update call failed for another reason; Docker may have done it
    | InspectionAfterUpdateFailed
    | Completed

  predicate Updated(path: HandlerPath) {
    match path
    case UpdateErrored(done) => done
    case InspectionAfterUpdateFailed => true
    case Completed => true
    case _ => false
  }

  function HandlerResponse(path: HandlerPath): Response
  {
    match path
    case BadBody => Response(400, NoCode)
    case ClusterRefused(check) =>
      (match check
       case HeaderMissing => Response(428, PreconditionRequired)
       case HeaderMalformed => Response(400, PreconditionInvalid)
       case SwarmDiffers => Response(412, PreconditionFailed)
       case _ => Response(503, IdentityUnavailable))
    case RefusedBeforeUpdate(e) => EngineErrorResponse(e)
    case UpdateConflict => EngineErrorResponse(Conflict)
    case UpdateErrored(_) => EngineErrorResponse(Unclassified)
    case InspectionAfterUpdateFailed => EngineErrorResponse(Unclassified)
    case Completed => Response(200, NoCode)
  }

  /**
   The client's rejection test agrees with every Agent path: an answer it calls a
   rejection comes only from paths that changed nothing, success only from a path
   that did the update, and the guard's own refusals are always recognised.
   */
  lemma RejectionTestAgreesWithAgent(path: HandlerPath, invalid: bool, open: bool, held: nat, requested: nat,
      check: ClusterCheck)
    ensures IsDeterministicRejection(AgentError(HandlerResponse(path))) ==> !Updated(path)
    ensures IsDeterministicRejection(AgentError(HandlerResponse(path))) <==>
              || path.BadBody? || path.ClusterRefused? || path.UpdateConflict?
              || (path.RefusedBeforeUpdate? && path.e != NotFound && path.e != Unclassified)
    ensures HandlerResponse(path).status == 200 <==> path == Completed
    ensures HandlerResponse(path).status == 200 ==> Updated(path)
    ensures GuardVerdict(invalid, open, held, requested, check).Some? ==>
              IsDeterministicRejection(AgentError(GuardVerdict(invalid, open, held, requested, check).value))
    ensures GuardVerdict(invalid, open, held, requested, check).None? <==>
              !invalid && open && held == requested && check == SwarmAgrees
  {
  }

  /**
   The test is one-sided: for every answer that is not a recognised rejection there
   is nothing more to learn from it unless it is a success, because the same answer
   also comes from a path with the opposite outcome or was not produced by a refusal.
   */
  lemma UnrecognisedErrorsAreAmbiguous(path: HandlerPath)
    requires HandlerResponse(path).status != 200
    requires !IsDeterministicRejection(AgentError(HandlerResponse(path)))
    ensures HandlerResponse(path) == Response(404, NoCode) ||
            exists other :: HandlerResponse(other) == HandlerResponse(path) && Updated(other) != Updated(path)
  {
    if HandlerResponse(path) == Response(502, NoCode) {
      assert HandlerResponse(UpdateErrored(!Updated(path))) == HandlerResponse(path);
    }
  }
}
