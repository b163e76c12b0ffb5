/** How far one observed session got with STARTTLS. */
module SessionState {
  datatype StartTlsState =
    | Advertised | Requested | Accepted | TlsStarted | TlsEstablished | AdvertisedAndUsed | AdvertisedNotUsed
    | NotAdvertised | Rejected | FailedHandshake | PlaintextContinuation
}
