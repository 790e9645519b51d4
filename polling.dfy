/** `pollForCompletion`: query the transcript status at most 60 times and stop
    at the first terminal status. The HTTP GET is replaced by `server`, the
    reply the remote service gives to the i-th status query (counting from 0);
    the five-second wait between queries is not modelled. */
module TranscriptPolling {
  import opened Wrappers
  import opened VoiceTypes

  const MAX_ATTEMPTS: nat := 60
  const COMPLETED := "completed"
  const ERROR := "error"
  const TIMEOUT_MESSAGE := "Transcription timed out"

  /** How a call ends: the completed reply is returned, or an error is thrown. */
  datatype PollOutcome =
    | Completed(result: TranscriptResult)
    | RemoteError(message: string)
    | TimedOut

  predicate IsTerminal(reply: TranscriptResult) {
    reply.status == COMPLETED || reply.status == ERROR
  }

  /** `Transcription failed: ${result.error}`; a missing error prints as "undefined". */
  function FailureMessage(error: Option<string>): string {
    "Transcription failed: " + match error
      case Some(text) => text
      case None => "undefined"
  }

  /** The message of the error the call throws, if any. */
  function ErrorMessage(outcome: PollOutcome): Option<string> {
    match outcome
    case Completed(_) => None
    case RemoteError(message) => Some(message)
    case TimedOut => Some(TIMEOUT_MESSAGE)
  }

  /** The polling loop. `queries` is the number of status requests made. At
      most 60 are made; every reply before the last one is non-terminal; the
      last decides the outcome, and the call times out exactly when none of
      the first 60 replies is terminal. */
  method PollForCompletion(server: nat -> TranscriptResult) returns (outcome: PollOutcome, queries: nat)
    ensures 1 <= queries <= MAX_ATTEMPTS
    ensures forall i :: 0 <= i < queries - 1 ==> !IsTerminal(server(i))
    ensures outcome.Completed? ==>
              server(queries - 1).status == COMPLETED && outcome.result == server(queries - 1)
    ensures outcome.RemoteError? ==>
              server(queries - 1).status == ERROR && outcome.message == FailureMessage(server(queries - 1).error)
    ensures outcome.TimedOut? ==> queries == MAX_ATTEMPTS && !IsTerminal(server(queries - 1))
    ensures outcome.TimedOut? <==> forall i :: 0 <= i < MAX_ATTEMPTS ==> !IsTerminal(server(i))
    ensures ErrorMessage(outcome).None? <==> server(queries - 1).status == COMPLETED
    ensures outcome.TimedOut? ==> ErrorMessage(outcome) == Some(TIMEOUT_MESSAGE)
  {
    var attempts := 0;
    while attempts < MAX_ATTEMPTS
      invariant 0 <= attempts <= MAX_ATTEMPTS
      invariant forall i :: 0 <= i < attempts ==> !IsTerminal(server(i))
    {
      var result := server(attempts);
      if result.status == COMPLETED {
        return Completed(result), attempts + 1;
      } else if result.status == ERROR {
        return RemoteError(FailureMessage(result.error)), attempts + 1;
      }
      attempts := attempts + 1;
    }
    return TimedOut, MAX_ATTEMPTS;
  }
}
