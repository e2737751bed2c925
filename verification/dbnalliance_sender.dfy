/** `Phase4DBNAllianceSender.AbstractDBNAllianceUserMessageBuilder`: the
    DBNAlliance user-message builder, its derived setters, its two readiness
    predicates, the `finishFields` discovery gate and the sending-time
    callback composition. */
module DbnAllianceSender {
  import opened Wrappers
  import opened Identifiers
  import opened Exceptions
  import opened Discovery
  import opened BaseBuilder
  import EndpointProvider
  import Bdxr2Provider
  import MimePayloadBuilder

  /** Overriding an already-set field is allowed and only warned about; the
      warning is kept as an observable event. */
  datatype OverrideWarning = ReceiverOverridden | DocTypeOverridden | ProcessOverridden | ProviderOverridden

  /** `DBNAlliancePMode.DEFAULT_AGREEMENT_ID` and `DEFAULT_PARTY_TYPE_ID`;
      their values are defined outside this model. */
  datatype ProfileConstants = ProfileConstants(agreementId: string, partyTypeId: string)

  /** The ebMS 3.0 default initiator and responder role URIs. */
  const InitiatorRole: string := "http://docs.oasis-open.org/ebxml-msg/ebms/v3.0/ns/core/200704/initiator"
  const ResponderRole: string := "http://docs.oasis-open.org/ebxml-msg/ebms/v3.0/ns/core/200704/responder"

  datatype Builder = Builder(
    mime: MimePayloadBuilder.MimeBuilder,
    receiver: Option<ParticipantId>,
    docType: Option<DocTypeId>,
    process: Option<ProcessId>,
    provider: Option<EndpointProvider.Provider>,
    certificateConsumer: Option<nat>,
    endpointUrlConsumer: Option<nat>,
    effectiveSendingTime: Option<DateTime>,
    warnings: seq<OverrideWarning>)

  predicate Valid(b: Builder) {
    b.provider.Some? ==> EndpointProvider.Valid(b.provider.value)
  }

  /** The constructor, on top of the fields the base constructor set. */
  function New(base: BaseFields, k: ProfileConstants): (b: Builder)
    ensures Valid(b)
    ensures b.mime.base.agreementRef == Some(k.agreementId)
    ensures b.mime.base.fromPartyIdType == Some(k.partyTypeId) && b.mime.base.toPartyIdType == Some(k.partyTypeId)
    ensures b.mime.base.fromRole == Some(InitiatorRole) && b.mime.base.toRole == Some(ResponderRole)
    ensures b.mime.base.sessionKeyProvider == Some(RandomAes256)
    ensures b.receiver.None? && b.docType.None? && b.process.None? && b.provider.None?
    ensures b.mime.payload.None? && b.effectiveSendingTime.None? && b.warnings == []
    ensures b.certificateConsumer.None? && b.endpointUrlConsumer.None?
    // No other base field is touched.
    ensures b.mime.base.(agreementRef := base.agreementRef, fromPartyIdType := base.fromPartyIdType,
                         fromRole := base.fromRole, toPartyIdType := base.toPartyIdType,
                         toRole := base.toRole, sessionKeyProvider := base.sessionKeyProvider) == base
  {
    var f := base.(agreementRef := Some(k.agreementId),
                   fromPartyIdType := Some(k.partyTypeId),
                   fromRole := Some(InitiatorRole),
                   toPartyIdType := Some(k.partyTypeId),
                   toRole := Some(ResponderRole),
                   sessionKeyProvider := Some(RandomAes256));
    Builder(MimePayloadBuilder.MimeBuilder(f, None), None, None, None, None, None, None, None, [])
  }

  function Warn(b: Builder, wasSet: bool, w: OverrideWarning): seq<OverrideWarning> {
    if wasSet then b.warnings + [w] else b.warnings
  }

  /** `receiverParticipantID`. */
  function ReceiverParticipantId(b: Builder, id: ParticipantId): (r: Builder)
    ensures r.receiver == Some(id)
    ensures r.warnings == b.warnings + (if b.receiver.Some? then [ReceiverOverridden] else [])
    ensures r.(receiver := b.receiver, warnings := b.warnings) == b
  {
    b.(receiver := Some(id), warnings := Warn(b, b.receiver.Some?, ReceiverOverridden))
  }

  /** `documentTypeID`: also sets the action to the identifier's URI
      encoding. */
  function DocumentTypeId(b: Builder, id: DocTypeId): (r: Builder)
    ensures r.docType == Some(id) && r.mime.base.action == Some(id.UriEncoded())
    ensures r.warnings == b.warnings + (if b.docType.Some? then [DocTypeOverridden] else [])
    ensures r.mime.base.(action := b.mime.base.action) == b.mime.base && r.mime.payload == b.mime.payload
    ensures r.(docType := b.docType, warnings := b.warnings, mime := b.mime) == b
  {
    var base := b.mime.base.(action := Some(id.UriEncoded()));
    b.(docType := Some(id), warnings := Warn(b, b.docType.Some?, DocTypeOverridden), mime := b.mime.(base := base))
  }

  /** `processID`: also sets the service to the identifier's scheme and
      value. */
  function ProcessIdentifier(b: Builder, id: ProcessId): (r: Builder)
    ensures r.process == Some(id)
    ensures r.mime.base.serviceType == Some(id.scheme) && r.mime.base.serviceValue == Some(id.value)
    ensures r.warnings == b.warnings + (if b.process.Some? then [ProcessOverridden] else [])
    ensures r.mime.base.(serviceType := b.mime.base.serviceType, serviceValue := b.mime.base.serviceValue) == b.mime.base
    ensures r.mime.payload == b.mime.payload
    ensures r.(process := b.process, warnings := b.warnings, mime := b.mime) == b
  {
    var base := b.mime.base.(serviceType := Some(id.scheme), serviceValue := Some(id.value));
    b.(process := Some(id), warnings := Warn(b, b.process.Some?, ProcessOverridden), mime := b.mime.(base := base))
  }

  /** `endpointDetailProvider`. */
  function EndpointDetailProvider(b: Builder, p: EndpointProvider.Provider): (r: Builder)
    requires EndpointProvider.Valid(p)
    ensures r.provider == Some(p) && (Valid(b) ==> Valid(r))
    ensures r.warnings == b.warnings + (if b.provider.Some? then [ProviderOverridden] else [])
    ensures r.(provider := b.provider, warnings := b.warnings) == b
  {
    b.(provider := Some(p), warnings := Warn(b, b.provider.Some?, ProviderOverridden))
  }

  /** `smpClient`: install a fresh BDXR SMP v2 lookup provider. */
  function SmpClient(b: Builder, client: Bdxr2Provider.Bdxr2Client): (r: Builder)
    ensures r.provider.Some? && r.provider.value.Bdxr2Smp?
    ensures r.provider.value.bdxr2.client == client && r.provider.value.bdxr2.endpoint.Unresolved?
    ensures r == EndpointDetailProvider(b, EndpointProvider.Bdxr2Smp(Bdxr2Provider.NewCore(client)))
  {
    EndpointDetailProvider(b, EndpointProvider.Bdxr2Smp(Bdxr2Provider.NewCore(client)))
  }

  /** `receiverEndpointDetails`: install a constant provider for an
      externally resolved certificate and non-empty URL. */
  function ReceiverEndpointDetails(b: Builder, cert: Certificate, url: string): (r: Builder)
    requires |url| > 0
    ensures r.provider == Some(EndpointProvider.Constant(cert, url))
    ensures r == EndpointDetailProvider(b, EndpointProvider.Constant(cert, url))
  {
    EndpointDetailProvider(b, EndpointProvider.Constant(cert, url))
  }

  /** `certificateConsumer` and `endpointURLConsumer`: nullable, silently
      replaced. */
  function CertificateConsumer(b: Builder, c: Option<nat>): (r: Builder)
    ensures r.certificateConsumer == c && r.(certificateConsumer := b.certificateConsumer) == b
  {
    b.(certificateConsumer := c)
  }

  function EndpointUrlConsumer(b: Builder, c: Option<nat>): (r: Builder)
    ensures r.endpointUrlConsumer == c && r.(endpointUrlConsumer := b.endpointUrlConsumer) == b
  {
    b.(endpointUrlConsumer := c)
  }

  /** The `payload` setter inherited from the MIME layer. */
  function WithPayload(b: Builder, p: Option<OutgoingAttachment>): (r: Builder)
    ensures r.mime.payload == p && r.(mime := b.mime) == b && r.mime.base == b.mime.base
  {
    b.(mime := MimePayloadBuilder.Payload(b.mime, p))
  }

  /** The builder's own setters, as data, so that a whole configuration
      sequence can be reasoned about. */
  datatype Setter =
    | SetReceiver(receiver: ParticipantId)
    | SetDocType(docType: DocTypeId)
    | SetProcess(process: ProcessId)
    | SetProvider(provider: EndpointProvider.Provider)
    | SetSmpClient(client: Bdxr2Provider.Bdxr2Client)
    | SetEndpointDetails(cert: Certificate, url: string)
    | SetCertificateConsumer(consumer: Option<nat>)
    | SetEndpointUrlConsumer(consumer: Option<nat>)
    | SetPayload(payload: Option<OutgoingAttachment>)

  /** The setters a caller may legally invoke: a provider is a valid one,
      a constant URL is non-empty. */
  predicate Allowed(s: Setter) {
    match s
    case SetProvider(p) => EndpointProvider.Valid(p)
    case SetEndpointDetails(_, url) => |url| > 0
    case _ => true
  }

  function Apply(b: Builder, s: Setter): Builder
    requires Allowed(s)
  {
    match s
    case SetReceiver(r) => ReceiverParticipantId(b, r)
    case SetDocType(d) => DocumentTypeId(b, d)
    case SetProcess(p) => ProcessIdentifier(b, p)
    case SetProvider(p) => EndpointDetailProvider(b, p)
    case SetSmpClient(c) => SmpClient(b, c)
    case SetEndpointDetails(cert, url) => ReceiverEndpointDetails(b, cert, url)
    case SetCertificateConsumer(c) => CertificateConsumer(b, c)
    case SetEndpointUrlConsumer(c) => EndpointUrlConsumer(b, c)
    case SetPayload(p) => WithPayload(b, p)
  }

  function ApplyAll(b: Builder, ss: seq<Setter>): Builder
    requires forall i :: 0 <= i < |ss| ==> Allowed(ss[i])
    decreases |ss|
  {
    if |ss| == 0 then b else ApplyAll(Apply(b, ss[0]), ss[1..])
  }

  /** The derived fields reflect the identifiers they were derived from. */
  predicate DerivedFieldsConsistent(b: Builder) {
    && (b.docType.Some? ==> b.mime.base.action == Some(b.docType.value.UriEncoded()))
    && (b.process.Some? ==> b.mime.base.serviceType == Some(b.process.value.scheme)
                            && b.mime.base.serviceValue == Some(b.process.value.value))
  }

  /** Whatever sequence of the builder's setters is applied, in whatever
      order, the action and service fields track the document type and
      process identifiers; the builder stays valid; and the effective
      sending time stays as it was (unset on a new builder) because only a
      send sets it. */
  lemma {:induction false} SettersPreserveInvariants(b: Builder, ss: seq<Setter>)
    requires forall i :: 0 <= i < |ss| ==> Allowed(ss[i])
    requires DerivedFieldsConsistent(b) && Valid(b)
    ensures DerivedFieldsConsistent(ApplyAll(b, ss)) && Valid(ApplyAll(b, ss))
    ensures ApplyAll(b, ss).effectiveSendingTime == b.effectiveSendingTime
    decreases |ss|
  {
    if |ss| > 0 {
      var b1 := Apply(b, ss[0]);
      assert DerivedFieldsConsistent(b1) && Valid(b1) && b1.effectiveSendingTime == b.effectiveSendingTime;
      assert forall i :: 0 <= i < |ss[1..]| ==> Allowed(ss[1..][i]);
      SettersPreserveInvariants(b1, ss[1..]);
    }
  }

  /** Last write wins: setting the receiver twice is setting it once to the
      second value, plus one override warning. */
  lemma ReceiverLastWriteWins(b: Builder, x: ParticipantId, y: ParticipantId)
    ensures ReceiverParticipantId(ReceiverParticipantId(b, x), y).receiver == Some(y)
    ensures ReceiverParticipantId(ReceiverParticipantId(b, x), y).(warnings := b.warnings)
         == ReceiverParticipantId(b, y).(warnings := b.warnings)
    ensures ReceiverParticipantId(ReceiverParticipantId(b, x), y).warnings
         == ReceiverParticipantId(b, x).warnings + [ReceiverOverridden]
  {
  }

  lemma ProviderLastWriteWins(b: Builder, p: EndpointProvider.Provider, q: EndpointProvider.Provider)
    requires EndpointProvider.Valid(p) && EndpointProvider.Valid(q)
    ensures EndpointDetailProvider(EndpointDetailProvider(b, p), q).provider == Some(q)
    ensures EndpointDetailProvider(EndpointDetailProvider(b, p), q).(warnings := b.warnings)
         == EndpointDetailProvider(b, q).(warnings := b.warnings)
    ensures EndpointDetailProvider(EndpointDetailProvider(b, p), q).warnings
         == EndpointDetailProvider(b, p).warnings + [ProviderOverridden]
  {
  }

  /** `isEndpointDetailProviderUsable`: the fields discovery needs. */
  function IsEndpointDetailProviderUsable(b: Builder): (r: bool)
    ensures r <==> b.receiver.Some? && b.docType.Some? && b.process.Some? && b.provider.Some?
  {
    if b.receiver.None? then false
    else if b.docType.None? then false
    else if b.process.None? then false
    else if b.provider.None? then false
    else true
  }

  /** `isEveryRequiredFieldSet`: the MIME layer's check (base check and
      payload), then every field discovery needs. False, never an
      exception, when one is missing. */
  function IsEveryRequiredFieldSet(hooks: BaseHooks, b: Builder): (r: bool)
    ensures r <==> && hooks.isEveryRequiredFieldSet(b.mime.base)
                   && b.mime.payload.Some? && b.receiver.Some? && b.docType.Some?
                   && b.process.Some? && b.provider.Some?
    ensures r ==> IsEndpointDetailProviderUsable(b)
  {
    if !MimePayloadBuilder.IsEveryRequiredFieldSet(hooks, b.mime) then false
    else if b.mime.payload.None? then false
    else if b.receiver.None? then false
    else if b.docType.None? then false
    else if b.process.None? then false
    else if b.provider.None? then false
    else true
  }

  /** The collaborators of `finishFields`: the SMP libraries, the base
      class's hooks, what the two registered consumers throw, and the
      certificate's subject CN (`PeppolCertificateHelper.getSubjectCN`). */
  datatype FinishEnvironment = FinishEnvironment(
    smp: EndpointProvider.SmpApis,
    hooks: BaseHooks,
    certificateConsumerBehaviour: (nat, Certificate) -> Option<Exception>,
    endpointUrlConsumerBehaviour: (nat, string) -> Option<Exception>,
    subjectCN: Certificate -> Option<string>)

  /** The observable trace of `finishFields`, one entry per step. */
  datatype FinishEvent =
    | ProviderInitialised
    | CertificateObtained(cert: Certificate)
    | CertificateConsumerCalled(consumer: nat, cert: Certificate)
    | EndpointUrlObtained(url: string)
    | EndpointUrlConsumerCalled(consumer: nat, url: string)
    | ToPartyIdSet(partyId: Option<string>)
    | BaseFinishCalled

  datatype FinishStep = FinishStep(builder: Builder, outcome: FinishOutcome, events: seq<FinishEvent>, lookups: seq<LookupCall>)

  function ConsumerEvents<T>(c: Option<nat>, v: T, mk: (nat, T) -> FinishEvent): seq<FinishEvent> {
    if c.Some? then [mk(c.value, v)] else []
  }

  /** The exception a registered consumer throws for `v`, if any. */
  function ConsumerThrows<T>(c: Option<nat>, v: T, behaviour: (nat, T) -> Option<Exception>): Option<Exception> {
    if c.Some? then behaviour(c.value, v) else None
  }

  /** `finishFields` after a successful `init`: certificate and its
      consumer, URL and its consumer, the to-party id, then the base gate.
      No step is guarded: the first exception ends the gate. */
  function AfterInit(env: FinishEnvironment, b: Builder, lookups: seq<LookupCall>): (r: FinishStep)
    requires Valid(b) && b.provider.Some? && EndpointProvider.IsResolved(b.provider.value)
  {
    var p := b.provider.value;
    match EndpointProvider.ReceiverCertificate(env.smp, p)
    case Failure(e) => FinishStep(b, Raised(e), [ProviderInitialised], lookups)
    case Success(cert) =>
      var events1 := [ProviderInitialised, CertificateObtained(cert)]
                     + ConsumerEvents(b.certificateConsumer, cert, (h, c) => CertificateConsumerCalled(h, c));
      var certThrown := ConsumerThrows(b.certificateConsumer, cert, env.certificateConsumerBehaviour);
      if certThrown.Some? then FinishStep(b, Raised(certThrown.value), events1, lookups)
      else
        var b2 := b.(mime := b.mime.(base := b.mime.base.(receiverCertificate := Some(cert))));
        match EndpointProvider.ReceiverEndpointUrl(env.smp, p)
        case Failure(e) => FinishStep(b2, Raised(e), events1, lookups)
        case Success(url) =>
          var events2 := events1 + [EndpointUrlObtained(url)]
                         + ConsumerEvents(b.endpointUrlConsumer, url, (h, u) => EndpointUrlConsumerCalled(h, u));
          var urlThrown := ConsumerThrows(b.endpointUrlConsumer, url, env.endpointUrlConsumerBehaviour);
          if urlThrown.Some? then FinishStep(b2, Raised(urlThrown.value), events2, lookups)
          else
            var cn := env.subjectCN(cert);
            var b3 := b2.(mime := b2.mime.(base := b2.mime.base.(endpointUrl := Some(url), toPartyId := cn)));
            FinishStep(b3, env.hooks.finishFields(b3.mime.base), events2 + [ToPartyIdSet(cn), BaseFinishCalled], lookups)
  }

  function InitArgsOf(b: Builder): EndpointProvider.InitArgs
    requires b.docType.Some? && b.process.Some? && b.receiver.Some?
  {
    EndpointProvider.InitArgs(b.docType.value, b.process.value, b.receiver.value)
  }

  /** `finishFields`. */
  function FinishFields(env: FinishEnvironment, b: Builder): (r: FinishStep)
    requires Valid(b)
    ensures Valid(r.builder)
    // Missing discovery fields: FAILURE, without touching the provider.
    ensures !IsEndpointDetailProviderUsable(b) ==> r == FinishStep(b, NotFinished, [], [])
    // Otherwise init runs first, exactly once, and its effect on the
    // provider is kept whatever happens later.
    ensures IsEndpointDetailProviderUsable(b) ==>
      && |r.events| > 0 && r.events[0] == ProviderInitialised
      && r.lookups == EndpointProvider.Init(env.smp, b.provider.value, InitArgsOf(b)).lookups
      && r.builder.provider == Some(EndpointProvider.Init(env.smp, b.provider.value, InitArgsOf(b)).provider)
    // The gate writes only the certificate, URL and to-party id.
    ensures r.builder.(provider := b.provider, mime := b.mime) == b && r.builder.mime.payload == b.mime.payload
    ensures r.builder.mime.base.(receiverCertificate := b.mime.base.receiverCertificate,
                                 endpointUrl := b.mime.base.endpointUrl,
                                 toPartyId := b.mime.base.toPartyId) == b.mime.base
    // Super runs last, and only when every earlier step went through: the
    // certificate (then its consumer), the URL (then its consumer), the
    // to-party id from the certificate's CN, in that order.
    ensures BaseFinishCalled in r.events ==>
      && r.builder.provider.Some? && EndpointProvider.IsResolved(r.builder.provider.value)
      && var cert := EndpointProvider.ReceiverCertificate(env.smp, r.builder.provider.value);
         var url := EndpointProvider.ReceiverEndpointUrl(env.smp, r.builder.provider.value);
         && cert.Success? && url.Success? && |url.value| > 0
         && r.builder.mime.base.receiverCertificate == Some(cert.value)
         && r.builder.mime.base.endpointUrl == Some(url.value)
         && r.builder.mime.base.toPartyId == env.subjectCN(cert.value)
         && r.events == [ProviderInitialised, CertificateObtained(cert.value)]
                        + ConsumerEvents(b.certificateConsumer, cert.value, (h, c) => CertificateConsumerCalled(h, c))
                        + [EndpointUrlObtained(url.value)]
                        + ConsumerEvents(b.endpointUrlConsumer, url.value, (h, u) => EndpointUrlConsumerCalled(h, u))
                        + [ToPartyIdSet(env.subjectCN(cert.value)), BaseFinishCalled]
         && r.outcome == env.hooks.finishFields(r.builder.mime.base)
    // Any other ending is the early FAILURE or an exception that aborted
    // the gate before super.
    ensures BaseFinishCalled !in r.events ==> r.outcome.Raised? || r.events == []
    ensures r.outcome.Finished? ==> BaseFinishCalled in r.events
    // Which step ends the gate: the first one that throws, with exactly
    // that exception (nothing is contained); super is reached iff none does.
    ensures IsEndpointDetailProviderUsable(b) ==>
      var s := EndpointProvider.Init(env.smp, b.provider.value, InitArgsOf(b));
      if s.thrown.Some? then r.outcome == Raised(s.thrown.value) && r.events == [ProviderInitialised]
      else
        var cert := EndpointProvider.ReceiverCertificate(env.smp, s.provider);
        var url := EndpointProvider.ReceiverEndpointUrl(env.smp, s.provider);
        if cert.Failure? then r.outcome == Raised(cert.error) && BaseFinishCalled !in r.events
        else if ConsumerThrows(b.certificateConsumer, cert.value, env.certificateConsumerBehaviour).Some? then
          && r.outcome == Raised(ConsumerThrows(b.certificateConsumer, cert.value, env.certificateConsumerBehaviour).value)
          && BaseFinishCalled !in r.events
        else if url.Failure? then r.outcome == Raised(url.error) && BaseFinishCalled !in r.events
        else if ConsumerThrows(b.endpointUrlConsumer, url.value, env.endpointUrlConsumerBehaviour).Some? then
          && r.outcome == Raised(ConsumerThrows(b.endpointUrlConsumer, url.value, env.endpointUrlConsumerBehaviour).value)
          && BaseFinishCalled !in r.events
        else BaseFinishCalled in r.events
  {
    if !IsEndpointDetailProviderUsable(b) then FinishStep(b, NotFinished, [], [])
    else
      // Discovery; may raise.
      var s := EndpointProvider.Init(env.smp, b.provider.value, InitArgsOf(b));
      var b1 := b.(provider := Some(s.provider));
      if s.thrown.Some? then FinishStep(b1, Raised(s.thrown.value), [ProviderInitialised], s.lookups)
      else AfterInit(env, b1, s.lookups)
  }

  /** Discovery happens once per builder: after a gate that got past
      `init`, a second gate performs no lookup. */
  lemma SecondFinishPerformsNoLookup(env: FinishEnvironment, b: Builder)
    requires Valid(b) && IsEndpointDetailProviderUsable(b)
    requires EndpointProvider.Init(env.smp, b.provider.value, InitArgsOf(b)).thrown.None?
    ensures FinishFields(env, FinishFields(env, b).builder).lookups == []
  {
  }

  /** With externally resolved endpoint details the gate performs no lookup
      and installs exactly the given certificate and URL. */
  lemma ConstantDetailsFinish(env: FinishEnvironment, b: Builder, cert: Certificate, url: string)
    requires |url| > 0 && b.provider == Some(EndpointProvider.Constant(cert, url))
    requires IsEndpointDetailProviderUsable(b)
    ensures FinishFields(env, b).lookups == []
    ensures BaseFinishCalled in FinishFields(env, b).events
        <==> ConsumerThrows(b.certificateConsumer, cert, env.certificateConsumerBehaviour).None?
             && ConsumerThrows(b.endpointUrlConsumer, url, env.endpointUrlConsumerBehaviour).None?
    ensures BaseFinishCalled in FinishFields(env, b).events ==>
      && FinishFields(env, b).builder.mime.base.receiverCertificate == Some(cert)
      && FinishFields(env, b).builder.mime.base.endpointUrl == Some(url)
      && FinishFields(env, b).builder.mime.base.toPartyId == env.subjectCN(cert)
  {
  }

  /** `customizeBeforeSending`: wrap whatever sending-time callback is
      registered now in one that records the instant on this builder. */
  function CustomizeBeforeSending(b: Builder): (r: Builder)
    ensures r.mime.base.sendingTimeConsumer.Some?
    ensures Registrant(r.mime.base.sendingTimeConsumer.value)
         == (if b.mime.base.sendingTimeConsumer.Some? then Registrant(b.mime.base.sendingTimeConsumer.value) else None)
    ensures r.(mime := b.mime) == b && r.mime.payload == b.mime.payload
    ensures r.mime.base.(sendingTimeConsumer := b.mime.base.sendingTimeConsumer) == b.mime.base
  {
    var c := RecordThenForward(b.mime.base.sendingTimeConsumer);
    b.(mime := b.mime.(base := b.mime.base.(sendingTimeConsumer := Some(c))))
  }

  /** Storing what a fired callback recorded: the only writer of the
      effective sending time. */
  function RecordFired(b: Builder, fired: Option<FireResult>): (r: Builder)
    ensures r.(effectiveSendingTime := b.effectiveSendingTime) == b
    ensures r.effectiveSendingTime == (if fired.Some? && fired.value.recorded.Some? then fired.value.recorded else b.effectiveSendingTime)
  {
    if fired.Some? && fired.value.recorded.Some? then b.(effectiveSendingTime := fired.value.recorded) else b
  }

  /** Composition, not replacement: firing the customised callback with `t`
      records `t`, and the callback registered before (if any) still runs,
      once, with the same `t`, with the same effect as if it had been fired
      directly. This holds however often the builder was customised. */
  lemma {:induction false} ComposedCallbackRecordsThenForwards(b: Builder, t: DateTime, behaviour: (nat, DateTime) -> Option<Exception>)
    ensures var f := Fire(CustomizeBeforeSending(b).mime.base.sendingTimeConsumer.value, t, behaviour);
      && f.recorded == Some(t)
      && RecordFired(b, Some(f)).effectiveSendingTime == Some(t)
      && |f.notified| <= 1
      && (b.mime.base.sendingTimeConsumer.None? ==> f.notified == [] && f.thrown.None?)
      && (b.mime.base.sendingTimeConsumer.Some? ==>
            f.notified == Fire(b.mime.base.sendingTimeConsumer.value, t, behaviour).notified
            && f.thrown == Fire(b.mime.base.sendingTimeConsumer.value, t, behaviour).thrown)
  {
  }

  datatype SendOutcome = SendSuccess | SendFailure | SendThrew(error: Exception)

  /** One send of a configured builder, in the order of the base builder's
      send trigger: `finishFields` (which performs discovery and fills the
      endpoint URL, certificate and to-party id), then the readiness check
      on the finished fields, then `customizeBeforeSending` and
      `mainSendMessage`. The builder returned carries the provider state
      discovery left behind and the recorded sending time. */
  method SendMessage(env: FinishEnvironment, send: MimePayloadBuilder.SendEnvironment, b: Builder)
    returns (r: Builder, outcome: SendOutcome, lookups: seq<LookupCall>, report: Option<MimePayloadBuilder.SendReport>)
    requires Valid(b)
    ensures Valid(r)
    // Discovery is attempted exactly as the gate does it, before anything
    // else; missing discovery fields mean FAILURE without any lookup.
    ensures lookups == FinishFields(env, b).lookups
    ensures !IsEndpointDetailProviderUsable(b) ==> r == b && outcome == SendFailure && lookups == [] && report.None?
    // `mainSendMessage` runs exactly when the gate finished and every
    // required field of the finished builder is set; so never without a
    // payload.
    ensures report.Some? <==> FinishFields(env, b).outcome.Finished?
                              && IsEveryRequiredFieldSet(env.hooks, FinishFields(env, b).builder)
    ensures b.mime.payload.None? ==> report.None?
    ensures report.None? ==> r.effectiveSendingTime == b.effectiveSendingTime
    ensures report.None? ==>
      outcome == (match FinishFields(env, b).outcome
                  case Raised(e) => SendThrew(e)
                  case _ => SendFailure)
    // Sent: the discovered certificate and URL are the ones used, the time
    // was recorded, and the caller's own callback was still notified.
    ensures report.Some? ==>
      && r.provider.Some? && EndpointProvider.IsResolved(r.provider.value)
      && EndpointProvider.ReceiverEndpointUrl(env.smp, r.provider.value).Success?
      && EndpointProvider.ReceiverCertificate(env.smp, r.provider.value).Success?
      && report.value.message.header.endpointUrl == Some(EndpointProvider.ReceiverEndpointUrl(env.smp, r.provider.value).value)
      && report.value.message.header.receiverCertificate == Some(EndpointProvider.ReceiverCertificate(env.smp, r.provider.value).value)
      && r.effectiveSendingTime == Some(send.sendingTime)
      && report.value.fired.Some?
      && report.value.fired.value.notified
         == (if b.mime.base.sendingTimeConsumer.Some? && Registrant(b.mime.base.sendingTimeConsumer.value).Some?
             then [Registrant(b.mime.base.sendingTimeConsumer.value).value] else [])
      && outcome == (if report.value.thrown.Some? then SendThrew(report.value.thrown.value) else SendSuccess)
    // What ran is `mainSendMessage` on the finished, customised builder, and
    // the builder keeps what its callback recorded.
    ensures report.Some? ==>
      && MimePayloadBuilder.MainSendReport(send, CustomizeBeforeSending(FinishFields(env, b).builder).mime, report.value)
      && r == RecordFired(CustomizeBeforeSending(FinishFields(env, b).builder), report.value.fired)
  {
    var f := FinishFields(env, b);
    lookups := f.lookups;
    match f.outcome {
      case NotFinished =>
        return f.builder, SendFailure, lookups, None;
      case Raised(e) =>
        return f.builder, SendThrew(e), lookups, None;
      case Finished =>
    }
    if !IsEveryRequiredFieldSet(env.hooks, f.builder) {
      return f.builder, SendFailure, lookups, None;
    }
    var b2 := CustomizeBeforeSending(f.builder);
    var sent := MimePayloadBuilder.MainSendMessage(send, b2.mime);
    r := RecordFired(b2, sent.fired);
    report := Some(sent);
    outcome := if sent.thrown.Some? then SendThrew(sent.thrown.value) else SendSuccess;
  }

  /** End to end: when `mainSendMessage` runs on the finished builder and
      every attachment can be created, the transport is invoked exactly
      once, as the last step before release, with the URL discovery
      produced, and the message carries the payload's part first and then
      the extra attachments in order. With externally resolved details that
      URL is the one given. */
  lemma PackagedSendUsesDiscoveredEndpoint(env: FinishEnvironment, send: MimePayloadBuilder.SendEnvironment,
                                            b: Builder, rep: MimePayloadBuilder.SendReport)
    requires Valid(b) && FinishFields(env, b).outcome.Finished?
    requires MimePayloadBuilder.MainSendReport(send, CustomizeBeforeSending(FinishFields(env, b).builder).mime, rep)
    requires send.createAttachment(b.mime.payload).Success?
    requires MimePayloadBuilder.ExtrasCreated(send, b.mime.base.attachments, |b.mime.base.attachments|)
    ensures var f := FinishFields(env, b).builder;
      && f.provider.Some? && EndpointProvider.IsResolved(f.provider.value)
      && EndpointProvider.ReceiverEndpointUrl(env.smp, f.provider.value).Success?
      && |rep.events| >= 3
      && rep.events[|rep.events| - 2] == MimePayloadBuilder.TransportInvoked(Some(EndpointProvider.ReceiverEndpointUrl(env.smp, f.provider.value).value))
      && (forall i :: 0 <= i < |rep.events| - 2 ==> !rep.events[i].TransportInvoked?)
      && rep.message.attachments == MimePayloadBuilder.MainPart(send, b.mime) + MimePayloadBuilder.ExtraParts(send, b.mime.base.attachments)
    ensures forall cert, url :: b.provider == Some(EndpointProvider.Constant(cert, url)) ==>
      rep.events[|rep.events| - 2] == MimePayloadBuilder.TransportInvoked(Some(url))
  {
  }

  /** The effective sending time is recorded as soon as `mainSendMessage`
      fires the callback, before any attachment is created: when the main
      attachment cannot be created, nothing reaches the transport, yet the
      builder reports an effective sending time. */
  lemma SendingTimeRecordedWithoutTransmission(env: FinishEnvironment, send: MimePayloadBuilder.SendEnvironment,
                                               b: Builder, rep: MimePayloadBuilder.SendReport)
    requires Valid(b) && FinishFields(env, b).outcome.Finished?
    requires MimePayloadBuilder.MainSendReport(send, CustomizeBeforeSending(FinishFields(env, b).builder).mime, rep)
    requires send.createAttachment(b.mime.payload).Failure?
    ensures forall i :: 0 <= i < |rep.events| ==> !rep.events[i].TransportInvoked?
    ensures rep.thrown.Some? && rep.message.attachments == []
    ensures RecordFired(CustomizeBeforeSending(FinishFields(env, b).builder), rep.fired).effectiveSendingTime == Some(send.sendingTime)
  {
  }

  /** A provider is resolved once for whoever holds it: a second builder
      given the provider a first gate left behind performs no lookup and
      keeps the first endpoint, whatever receiver, document type and
      process it was configured with. */
  lemma SharedResolvedProviderIgnoresReceiver(env: FinishEnvironment, first: Builder, second: Builder)
    requires Valid(first) && IsEndpointDetailProviderUsable(first)
    requires EndpointProvider.Init(env.smp, first.provider.value, InitArgsOf(first)).thrown.None?
    requires IsEndpointDetailProviderUsable(second) && second.provider == FinishFields(env, first).builder.provider
    ensures FinishFields(env, second).lookups == []
    ensures FinishFields(env, second).builder.provider == FinishFields(env, first).builder.provider
  {
  }
}
