/** The strict-priority classifier of one probe. */
module Fsm {
  import opened Base
  import opened State

  function Classify(s: ProbeSnapshot, now: int): AttemptState
  {
    if s.cancelled then Cancelled
    else if s.providerError == Some(ServiceCap) then FailedServiceCap
    else if s.providerError == Some(Permission) || s.providerError == Some(Auth) then FailedProviderAccess
    else if s.providerError == Some(Transport) then FailedTransport
    else if s.successContract then Success
    else if s.softSuccessContract then SoftSuccess
    else if s.protocolInvalid && s.FinalResultBoundaryReached(now) then FailedProtocol
    else if s.graceDeadline.Some? && now < s.graceDeadline.value then WaitingOutput
    else if s.processExited && s.providerActivityAfterExitIsFresh then WaitingOutput
    else if s.processExited then FailedSilent
    else if s.HangIsConfirmed(now) then HangConfirmed
    else if s.hangMaxWithWorkSignalsExceeded && s.providerStale then HangConfirmed
    else if s.processAlive && s.outboxPresent then Finalizing
    else if s.workSignalsChanged then Running
    else if s.processAlive then WaitingOutput
    else Unknown
  }
}
