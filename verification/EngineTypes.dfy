/** What the engine shows of itself: crates/mini-aec-engine/src/lib.rs. */
module EngineTypes {

  datatype EngineState = Stopped | Starting | RunningBypass | RunningAec | Degraded | Stopping | Failed

  datatype DegradationReason = RenderReferenceMissing | AecReset | ProcessingDeadline | QueuePressure

  datatype EngineErrorKind =
    | InvalidConfiguration
    | InvalidSource
    | SourceUnavailable
    | SourceAccessDenied
    | SourceInvalidated
    | SourceFailure
    | RenderUnavailable
    | RenderAccessDenied
    | RenderInvalidated
    | RenderFailure
    | SynchronizationFailure
    | EchoCancellerFailure
    | OutputPrerequisiteMissing
    | OutputAmbiguous
    | OutputAccessDenied
    | OutputInvalidEndpoint
    | OutputInvalidated
    | OutputRejectedWrite
    | OutputFailure
    | WorkerFailure
    | StopTimeout

  datatype EngineError = EngineError(kind: EngineErrorKind, message: string)

  /** How many samples a capture worker reads at a time. */
  const PACKET_CAPACITY: nat := 16_384
}
