/** `AS4EndpointDetailProviderPeppol`: endpoint discovery through a Peppol
    SMP client, with wildcard document type support. */
module PeppolProvider {
  import opened Wrappers
  import opened Identifiers
  import opened Exceptions
  import opened Discovery

  /** Whether the configured `ISMPServiceMetadataProvider` is an
      `SMPClientReadOnly`, the only client that offers wildcard queries. */
  datatype ClientKind = ReadOnlyClient | OtherMetadataProvider

  datatype PeppolClient = PeppolClient(handle: nat, kind: ClientKind)

  /** A Peppol SMP 1 `EndpointType` record; opaque. */
  datatype PeppolEndpoint = PeppolEndpoint(handle: nat)

  /** A `SignedServiceMetadataType` document; opaque. */
  datatype SignedMetadata = SignedMetadata(handle: nat)

  /** The SMP client library, as uninterpreted functions:
      `getEndpoint` (direct lookup), `getWildcardServiceMetadataOrNull`,
      the static `SMPClientReadOnly.getEndpoint` that picks an endpoint out
      of signed metadata, the two static extractors, and the endpoint's
      `toString`. */
  datatype PeppolSmpApi = PeppolSmpApi(
    getEndpoint: (PeppolClient, SmpQuery) -> Lookup<PeppolEndpoint>,
    getWildcardServiceMetadata: (PeppolClient, ParticipantId, DocTypeId, WildcardMode) -> Lookup<SignedMetadata>,
    endpointIn: (SignedMetadata, ProcessId, TransportProfile) -> Option<PeppolEndpoint>,
    endpointCertificate: PeppolEndpoint -> Result<Certificate, string>,
    endpointAddress: PeppolEndpoint -> Option<string>,
    endpointText: PeppolEndpoint -> string)

  datatype Provider = Provider(
    client: PeppolClient,
    mode: WildcardMode,
    tp: TransportProfile,
    endpoint: Resolution<PeppolEndpoint>)

  const DefaultWildcardMode: WildcardMode := WildcardOnly
  const DefaultTransportProfile: TransportProfile := PeppolAs4V2

  /** The constructor. */
  function New(client: PeppolClient): (p: Provider)
    ensures p.client == client
    ensures p.mode == WildcardOnly && p.tp == PeppolAs4V2
    ensures p.endpoint.Unresolved?
  {
    Provider(client, DefaultWildcardMode, DefaultTransportProfile, Unresolved)
  }

  function SetWildcardSelectionMode(p: Provider, mode: WildcardMode): (r: Provider)
    ensures r.mode == mode
    ensures r.client == p.client && r.tp == p.tp && r.endpoint == p.endpoint
  {
    p.(mode := mode)
  }

  function SetTransportProfile(p: Provider, tp: TransportProfile): (r: Provider)
    ensures r.tp == tp
    ensures r.client == p.client && r.mode == p.mode && r.endpoint == p.endpoint
  {
    p.(tp := tp)
  }

  /** The wildcard path is taken for a wildcard-scheme document type, and only
      when the client can answer wildcard queries. */
  predicate UsesWildcard(p: Provider, docType: DocTypeId) {
    docType.scheme == WildcardDocTypeScheme && p.client.kind == ReadOnlyClient
  }

  /** The wildcard path: fetch the best-matching signed metadata, then pick
      the endpoint for the process and transport profile out of it. No
      metadata means no endpoint. */
  function WildcardAnswer(api: PeppolSmpApi, p: Provider, docType: DocTypeId, process: ProcessId, receiver: ParticipantId): Lookup<PeppolEndpoint> {
    match api.getWildcardServiceMetadata(p.client, receiver, docType, p.mode)
    case ClientFailure(m) => ClientFailure(m)
    case Answer(None) => Answer(None)
    case Answer(Some(ssm)) => Answer(api.endpointIn(ssm, process, p.tp))
  }

  /** What the lookup of the chosen path answered. */
  function PathAnswer(api: PeppolSmpApi, p: Provider, docType: DocTypeId, process: ProcessId, receiver: ParticipantId): Lookup<PeppolEndpoint> {
    if UsesWildcard(p, docType) then WildcardAnswer(api, p, docType, process, receiver)
    else api.getEndpoint(p.client, SmpQuery(receiver, docType, process, p.tp))
  }

  /** The marker appended when a lookup found no endpoint. */
  function PathTag(wildcard: bool): string {
    if wildcard then " [wildcard]" else " [static]"
  }

  /** `init`: resolve the endpoint once, and only while the provider is
      unresolved. */
  function Init(api: PeppolSmpApi, p: Provider, docType: DocTypeId, process: ProcessId, receiver: ParticipantId): (r: InitStep<Provider>)
    // Once resolved, no lookup and no change, whatever the arguments.
    ensures p.endpoint.Resolved? ==> r == InitStep(p, [], None)
    // Otherwise exactly one lookup: wildcard iff wildcard scheme and read-only client.
    ensures p.endpoint.Unresolved? ==>
      r.lookups == [if docType.scheme == WildcardDocTypeScheme && p.client.kind == ReadOnlyClient
                    then WildcardLookup(receiver, docType, p.mode)
                    else DirectLookup(SmpQuery(receiver, docType, process, p.tp))]
    // Only the cache can change.
    ensures r.provider.client == p.client && r.provider.mode == p.mode && r.provider.tp == p.tp
    // Normal return iff resolved afterwards.
    ensures r.thrown.None? <==> r.provider.endpoint.Resolved?
    // A failure leaves the provider untouched, so a later init retries,
    // and is always a Phase4SMPException naming the query.
    ensures r.thrown.Some? ==>
      && r.provider == p
      && r.thrown.value.Phase4Exception?
      && r.thrown.value.kind == Smp
      && ResolveFailureMessage(SmpQuery(receiver, docType, process, p.tp)) <= r.thrown.value.message
    // The outcome is what the chosen path answered: a found endpoint is
    // cached, no endpoint throws with the path's marker, a client exception
    // becomes the cause.
    ensures p.endpoint.Unresolved? ==>
      match PathAnswer(api, p, docType, process, receiver)
      case Answer(Some(ep)) => r.provider == p.(endpoint := Resolved(ep)) && r.thrown.None?
      case Answer(None) =>
        r.thrown == Some(Phase4Exception(Smp, ResolveFailureMessage(SmpQuery(receiver, docType, process, p.tp))
                                              + PathTag(UsesWildcard(p, docType)), None))
      case ClientFailure(m) =>
        r.thrown == Some(Phase4Exception(Smp, ResolveFailureMessage(SmpQuery(receiver, docType, process, p.tp)),
                                         Some(SmpClientException(m))))
  {
    if p.endpoint.Resolved? then InitStep(p, [], None)
    else
      var q := SmpQuery(receiver, docType, process, p.tp);
      var wildcard := UsesWildcard(p, docType);
      var call := if wildcard then WildcardLookup(receiver, docType, p.mode) else DirectLookup(q);
      var answer := if wildcard then WildcardAnswer(api, p, docType, process, receiver) else api.getEndpoint(p.client, q);
      match answer
      case ClientFailure(m) =>
        InitStep(p, [call], Some(Phase4Exception(Smp, ResolveFailureMessage(q), Some(SmpClientException(m)))))
      case Answer(None) =>
        InitStep(p, [call], Some(Phase4Exception(Smp, ResolveFailureMessage(q) + PathTag(wildcard), None)))
      case Answer(Some(ep)) =>
        InitStep(p.(endpoint := Resolved(ep)), [call], None)
  }

  /** `getReceiverAPCertificate`, for a resolved provider. */
  function ReceiverCertificate(api: PeppolSmpApi, p: Provider): (r: Result<Certificate, Exception>)
    requires p.endpoint.Resolved?
    ensures r.Failure? <==> api.endpointCertificate(p.endpoint.endpoint).Failure?
    ensures r.Success? ==> r.value == api.endpointCertificate(p.endpoint.endpoint).value
    ensures r.Failure? ==>
      && r.error.Phase4Exception? && r.error.kind == Plain
      && CertificateFailureMessage + ": " <= r.error.message
      && r.error.cause == Some(CertificateException(api.endpointCertificate(p.endpoint.endpoint).error))
  {
    match api.endpointCertificate(p.endpoint.endpoint)
    case Success(cert) => Success(cert)
    case Failure(m) =>
      var text := EndpointFailureMessage(CertificateFailureMessage, api.endpointText(p.endpoint.endpoint));
      Failure(Phase4Exception(Plain, text, Some(CertificateException(m))))
  }

  /** `getReceiverAPEndpointURL`, for a resolved provider: non-empty text or
      an exception. */
  function ReceiverEndpointUrl(api: PeppolSmpApi, p: Provider): (r: Result<string, Exception>)
    requires p.endpoint.Resolved?
    ensures r.Success? ==> |r.value| > 0 && Some(r.value) == api.endpointAddress(p.endpoint.endpoint)
    ensures r.Failure? <==> !HasText(api.endpointAddress(p.endpoint.endpoint))
    ensures r.Failure? ==>
      && r.error.Phase4Exception? && r.error.kind == Plain && r.error.cause.None?
      && AddressFailureMessage + ": " <= r.error.message
  {
    var address := api.endpointAddress(p.endpoint.endpoint);
    if address.None? || |address.value| == 0 then
      Failure(Phase4Exception(Plain, EndpointFailureMessage(AddressFailureMessage, api.endpointText(p.endpoint.endpoint)), None))
    else Success(address.value)
  }

  /** On the wildcard path, signed metadata that is missing makes `init`
      fail with the "[wildcard]" marker and leaves the provider unresolved. */
  lemma WildcardWithoutMetadataFails(api: PeppolSmpApi, p: Provider, docType: DocTypeId, process: ProcessId, receiver: ParticipantId)
    requires p.endpoint.Unresolved? && UsesWildcard(p, docType)
    requires api.getWildcardServiceMetadata(p.client, receiver, docType, p.mode) == Answer(None)
    ensures var r := Init(api, p, docType, process, receiver);
      && r.provider.endpoint.Unresolved?
      && r.thrown == Some(Phase4Exception(Smp, ResolveFailureMessage(SmpQuery(receiver, docType, process, p.tp)) + " [wildcard]", None))
  {
  }

  /** An `SMPClientException` from either lookup becomes a Phase4SMPException
      whose cause is the client exception. */
  lemma ClientFailureIsConverted(api: PeppolSmpApi, p: Provider, docType: DocTypeId, process: ProcessId, receiver: ParticipantId, m: string)
    requires p.endpoint.Unresolved?
    requires if UsesWildcard(p, docType)
             then api.getWildcardServiceMetadata(p.client, receiver, docType, p.mode) == ClientFailure(m)
             else api.getEndpoint(p.client, SmpQuery(receiver, docType, process, p.tp)) == ClientFailure(m)
    ensures Init(api, p, docType, process, receiver).thrown
         == Some(Phase4Exception(Smp, ResolveFailureMessage(SmpQuery(receiver, docType, process, p.tp)), Some(SmpClientException(m))))
  {
  }

  /** A successful direct lookup caches exactly the endpoint the client
      returned. */
  lemma DirectLookupCachesAnswer(api: PeppolSmpApi, p: Provider, docType: DocTypeId, process: ProcessId, receiver: ParticipantId, ep: PeppolEndpoint)
    requires p.endpoint.Unresolved? && !UsesWildcard(p, docType)
    requires api.getEndpoint(p.client, SmpQuery(receiver, docType, process, p.tp)) == Answer(Some(ep))
    ensures Init(api, p, docType, process, receiver) == InitStep(p.(endpoint := Resolved(ep)), [DirectLookup(SmpQuery(receiver, docType, process, p.tp))], None)
  {
  }

  /** Changing the transport profile or the wildcard mode after resolution
      changes neither the endpoint nor anything a later `init` or accessor
      yields. */
  lemma SettingsAfterResolutionIgnored(api: PeppolSmpApi, p: Provider, tp: TransportProfile, mode: WildcardMode,
                                       docType: DocTypeId, process: ProcessId, receiver: ParticipantId)
    requires p.endpoint.Resolved?
    ensures var p' := SetWildcardSelectionMode(SetTransportProfile(p, tp), mode);
      && Init(api, p', docType, process, receiver).provider.endpoint == p.endpoint
      && Init(api, p', docType, process, receiver).lookups == []
      && ReceiverCertificate(api, p') == ReceiverCertificate(api, p)
      && ReceiverEndpointUrl(api, p') == ReceiverEndpointUrl(api, p)
  {
  }

  /** A direct lookup that answers null throws the SMP exception with the
      " [static]" marker and leaves the provider unresolved. */
  lemma StaticLookupWithoutEndpointFails(api: PeppolSmpApi, p: Provider, docType: DocTypeId, process: ProcessId, receiver: ParticipantId)
    requires p.endpoint.Unresolved? && !UsesWildcard(p, docType)
    requires api.getEndpoint(p.client, SmpQuery(receiver, docType, process, p.tp)) == Answer(None)
    ensures var r := Init(api, p, docType, process, receiver);
      && r.provider == p
      && r.thrown == Some(Phase4Exception(Smp, ResolveFailureMessage(SmpQuery(receiver, docType, process, p.tp)) + " [static]", None))
  {
  }

  /** On the wildcard path, an endpoint found in the signed metadata for the
      process and current profile is cached, after one wildcard query. */
  lemma WildcardEndpointIsCached(api: PeppolSmpApi, p: Provider, docType: DocTypeId, process: ProcessId, receiver: ParticipantId,
                                 ssm: SignedMetadata, ep: PeppolEndpoint)
    requires p.endpoint.Unresolved? && UsesWildcard(p, docType)
    requires api.getWildcardServiceMetadata(p.client, receiver, docType, p.mode) == Answer(Some(ssm))
    requires api.endpointIn(ssm, process, p.tp) == Some(ep)
    ensures Init(api, p, docType, process, receiver) == InitStep(p.(endpoint := Resolved(ep)), [WildcardLookup(receiver, docType, p.mode)], None)
  {
  }

  /** On the wildcard path, signed metadata without an endpoint for the
      process and profile fails like missing metadata: " [wildcard]", and
      the provider stays unresolved. */
  lemma WildcardMetadataWithoutEndpointFails(api: PeppolSmpApi, p: Provider, docType: DocTypeId, process: ProcessId, receiver: ParticipantId,
                                             ssm: SignedMetadata)
    requires p.endpoint.Unresolved? && UsesWildcard(p, docType)
    requires api.getWildcardServiceMetadata(p.client, receiver, docType, p.mode) == Answer(Some(ssm))
    requires api.endpointIn(ssm, process, p.tp).None?
    ensures var r := Init(api, p, docType, process, receiver);
      && r.provider == p
      && r.thrown == Some(Phase4Exception(Smp, ResolveFailureMessage(SmpQuery(receiver, docType, process, p.tp)) + " [wildcard]", None))
  {
  }
}
