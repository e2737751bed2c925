/** The part of `AbstractAS4UserMessageBuilder` that the sending path reads
    and writes. Its own validation and finishing steps are opaque hooks; its
    setters are plain field writes. */
module BaseBuilder {
  import opened Wrappers
  import opened Identifiers
  import opened Exceptions

  /** The session key provider set on the crypt parameters; only the
      random AES-256 instance is ever chosen in the modelled code. */
  datatype SessionKeyProvider = RandomAes256 | OtherSessionKeyProvider(handle: nat)

  /** The sending-time callback slot (`IAS4SendingDateTimeConsumer`):
      either a callback the caller registered, or the wrapper that records
      the time on the builder and then forwards to the callback that was
      there before it. */
  datatype SendingTimeConsumer =
    | Registered(handle: nat)
    | RecordThenForward(previous: Option<SendingTimeConsumer>)

  datatype BaseFields = BaseFields(
    agreementRef: Option<string>,
    fromPartyIdType: Option<string>,
    fromRole: Option<string>,
    toPartyIdType: Option<string>,
    toRole: Option<string>,
    toPartyId: Option<string>,
    action: Option<string>,
    serviceType: Option<string>,
    serviceValue: Option<string>,
    endpointUrl: Option<string>,
    receiverCertificate: Option<Certificate>,
    sessionKeyProvider: Option<SessionKeyProvider>,
    sendingTimeConsumer: Option<SendingTimeConsumer>,
    attachments: seq<OutgoingAttachment>)

  /** Result of a `finishFields` gate: SUCCESS, FAILURE, or an exception. */
  datatype FinishOutcome = Finished | NotFinished | Raised(error: Exception)

  /** The base class's own `isEveryRequiredFieldSet` and `finishFields`,
      uninterpreted. */
  datatype BaseHooks = BaseHooks(
    isEveryRequiredFieldSet: BaseFields -> bool,
    finishFields: BaseFields -> FinishOutcome)

  /** What firing a sending-time callback did: the instant it stored on the
      builder, the registered callbacks it invoked (in order), and what the
      call threw. */
  datatype FireResult = FireResult(recorded: Option<DateTime>, notified: seq<nat>, thrown: Option<Exception>)

  /** The caller-registered callback at the bottom of a chain of wrappers. */
  function Registrant(c: SendingTimeConsumer): Option<nat> {
    match c
    case Registered(h) => Some(h)
    case RecordThenForward(None) => None
    case RecordThenForward(Some(prev)) => Registrant(prev)
  }

  /** Invoke a sending-time callback with instant `t`; `behaviour(h, t)` is
      what registered callback `h` throws, if anything. A wrapper stores `t`
      first, then calls its predecessor with the same `t`. */
  function Fire(c: SendingTimeConsumer, t: DateTime, behaviour: (nat, DateTime) -> Option<Exception>): (r: FireResult)
    // A wrapper always records t, even when the forwarded call throws.
    ensures r.recorded == (if c.RecordThenForward? then Some(t) else None)
    // Composition, not replacement: the caller's callback still runs, once.
    ensures r.notified == (if Registrant(c).Some? then [Registrant(c).value] else [])
    ensures r.thrown == (if Registrant(c).Some? then behaviour(Registrant(c).value, t) else None)
  {
    match c
    case Registered(h) => FireResult(None, [h], behaviour(h, t))
    case RecordThenForward(None) => FireResult(Some(t), [], None)
    case RecordThenForward(Some(prev)) =>
      var inner := Fire(prev, t, behaviour);
      FireResult(Some(t), inner.notified, inner.thrown)
  }
}
