/** The exceptions that cross the modelled boundary. Every kind of the
    system's own exception hierarchy is a `Phase4Exception` with a kind tag;
    everything else thrown by a collaborator keeps its own constructor. */
module Exceptions {
  import opened Wrappers

  /** Which class of the system's own hierarchy was thrown:
      `Phase4Exception`, `Phase4SMPException`, `Phase4CEFException` or
      `Phase4CEFSMPException`. All four are `Phase4Exception`s. */
  datatype Phase4Kind = Plain | Smp | Cef | CefSmp

  datatype Exception =
    | Phase4Exception(kind: Phase4Kind, message: string, cause: Option<Exception>)
    /** Raised by the SMP client library for a failed network/protocol call. */
    | SmpClientException(message: string)
    /** Raised when certificate data of an SMP endpoint cannot be decoded. */
    | CertificateException(message: string)
    /** Any other exception: I/O failures, runtime errors in callbacks, ... */
    | OtherException(message: string)
}
