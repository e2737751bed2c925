/** `Phase4CEFEndpointDetailProviderBDXR2`: endpoint discovery through an
    OASIS BDXR SMP v2 client, exact match only. The same state machine also
    stands for the DBNAlliance builder's BDXR SMP v2 provider, which differs
    only in the exception classes it throws (see `Family`). */
module Bdxr2Provider {
  import opened Wrappers
  import opened Identifiers
  import opened Exceptions
  import opened Discovery

  /** An `IBDXR2ServiceMetadataProvider`; opaque. */
  datatype Bdxr2Client = Bdxr2Client(handle: nat)

  /** A BDXR SMP 2 `EndpointType` record; opaque. */
  datatype Bdxr2Endpoint = Bdxr2Endpoint(handle: nat)

  /** The BDXR SMP v2 client library, as uninterpreted functions, and the
      endpoint's `toString`. */
  datatype Bdxr2SmpApi = Bdxr2SmpApi(
    getEndpoint: (Bdxr2Client, SmpQuery) -> Lookup<Bdxr2Endpoint>,
    endpointCertificate: Bdxr2Endpoint -> Result<Certificate, string>,
    endpointAddress: Bdxr2Endpoint -> Option<string>,
    endpointText: Bdxr2Endpoint -> string)

  /** Which exception classes a provider throws: the CEF client's
      `Phase4CEFSMPException`/`Phase4CEFException`, or the core
      `Phase4SMPException`/`Phase4Exception`. */
  datatype Family = CefFamily | CoreFamily

  function LookupKind(f: Family): Phase4Kind {
    if f.CefFamily? then CefSmp else Smp
  }

  function AccessorKind(f: Family): Phase4Kind {
    if f.CefFamily? then Cef else Plain
  }

  datatype Provider = Provider(
    client: Bdxr2Client,
    tp: TransportProfile,
    endpoint: Resolution<Bdxr2Endpoint>,
    family: Family)

  const DefaultTransportProfile: TransportProfile := BdxrAs4

  /** The CEF constructor. */
  function New(client: Bdxr2Client): (p: Provider)
    ensures p.client == client && p.tp == BdxrAs4 && p.endpoint.Unresolved?
    ensures p.family == CefFamily
  {
    Provider(client, DefaultTransportProfile, Unresolved, CefFamily)
  }

  /** The provider the DBNAlliance builder installs for an SMP client. */
  function NewCore(client: Bdxr2Client): (p: Provider)
    ensures p.client == client && p.tp == BdxrAs4 && p.endpoint.Unresolved?
    ensures p.family == CoreFamily
  {
    Provider(client, DefaultTransportProfile, Unresolved, CoreFamily)
  }

  function SetTransportProfile(p: Provider, tp: TransportProfile): (r: Provider)
    ensures r.tp == tp
    ensures r.client == p.client && r.endpoint == p.endpoint && r.family == p.family
  {
    p.(tp := tp)
  }

  /** `init`: a direct lookup with the current transport profile, once. */
  function Init(api: Bdxr2SmpApi, p: Provider, docType: DocTypeId, process: ProcessId, receiver: ParticipantId): (r: InitStep<Provider>)
    ensures p.endpoint.Resolved? ==> r == InitStep(p, [], None)
    // Always the direct path: there is no wildcard lookup.
    ensures p.endpoint.Unresolved? ==> r.lookups == [DirectLookup(SmpQuery(receiver, docType, process, p.tp))]
    ensures r.provider.client == p.client && r.provider.tp == p.tp && r.provider.family == p.family
    ensures r.thrown.None? <==> r.provider.endpoint.Resolved?
    ensures r.thrown.Some? ==>
      && r.provider == p
      && r.thrown.value == Phase4Exception(
           LookupKind(p.family), ResolveFailureMessage(SmpQuery(receiver, docType, process, p.tp)),
           match api.getEndpoint(p.client, SmpQuery(receiver, docType, process, p.tp))
           case ClientFailure(m) => Some(SmpClientException(m))
           case Answer(_) => None)
    ensures r.thrown.None? && p.endpoint.Unresolved? ==>
      api.getEndpoint(p.client, SmpQuery(receiver, docType, process, p.tp)) == Answer(Some(r.provider.endpoint.endpoint))
    // Conversely, a found endpoint is cached and init returns normally.
    ensures p.endpoint.Unresolved? && api.getEndpoint(p.client, SmpQuery(receiver, docType, process, p.tp)).Answer?
            && api.getEndpoint(p.client, SmpQuery(receiver, docType, process, p.tp)).found.Some? ==>
      r == InitStep(p.(endpoint := Resolved(api.getEndpoint(p.client, SmpQuery(receiver, docType, process, p.tp)).found.value)),
                    [DirectLookup(SmpQuery(receiver, docType, process, p.tp))], None)
  {
    if p.endpoint.Resolved? then InitStep(p, [], None)
    else
      var q := SmpQuery(receiver, docType, process, p.tp);
      match api.getEndpoint(p.client, q)
      case ClientFailure(m) =>
        InitStep(p, [DirectLookup(q)], Some(Phase4Exception(LookupKind(p.family), ResolveFailureMessage(q), Some(SmpClientException(m)))))
      case Answer(None) =>
        InitStep(p, [DirectLookup(q)], Some(Phase4Exception(LookupKind(p.family), ResolveFailureMessage(q), None)))
      case Answer(Some(ep)) =>
        InitStep(p.(endpoint := Resolved(ep)), [DirectLookup(q)], None)
  }

  /** `getReceiverAPCertificate`, for a resolved provider. */
  function ReceiverCertificate(api: Bdxr2SmpApi, p: Provider): (r: Result<Certificate, Exception>)
    requires p.endpoint.Resolved?
    ensures r.Failure? <==> api.endpointCertificate(p.endpoint.endpoint).Failure?
    ensures r.Success? ==> r.value == api.endpointCertificate(p.endpoint.endpoint).value
    ensures r.Failure? ==>
      && r.error.Phase4Exception? && r.error.kind == AccessorKind(p.family)
      && CertificateFailureMessage + ": " <= r.error.message
      && r.error.cause == Some(CertificateException(api.endpointCertificate(p.endpoint.endpoint).error))
  {
    match api.endpointCertificate(p.endpoint.endpoint)
    case Success(cert) => Success(cert)
    case Failure(m) =>
      var text := EndpointFailureMessage(CertificateFailureMessage, api.endpointText(p.endpoint.endpoint));
      Failure(Phase4Exception(AccessorKind(p.family), text, Some(CertificateException(m))))
  }

  /** `getReceiverAPEndpointURL`, for a resolved provider: non-empty text or
      an exception. */
  function ReceiverEndpointUrl(api: Bdxr2SmpApi, p: Provider): (r: Result<string, Exception>)
    requires p.endpoint.Resolved?
    ensures r.Success? ==> |r.value| > 0 && Some(r.value) == api.endpointAddress(p.endpoint.endpoint)
    ensures r.Failure? <==> !HasText(api.endpointAddress(p.endpoint.endpoint))
    ensures r.Failure? ==>
      && r.error.Phase4Exception? && r.error.kind == AccessorKind(p.family) && r.error.cause.None?
      && AddressFailureMessage + ": " <= r.error.message
  {
    var address := api.endpointAddress(p.endpoint.endpoint);
    if address.None? || |address.value| == 0 then
      Failure(Phase4Exception(AccessorKind(p.family), EndpointFailureMessage(AddressFailureMessage, api.endpointText(p.endpoint.endpoint)), None))
    else Success(address.value)
  }

  /** `setTransportProfile` only matters while the provider is unresolved:
      a set profile is the one the next lookup uses, and once resolved a new
      profile changes nothing a later `init` or accessor yields. */
  lemma TransportProfileOnlyAffectsPendingLookups(api: Bdxr2SmpApi, p: Provider, tp: TransportProfile,
                                                  docType: DocTypeId, process: ProcessId, receiver: ParticipantId)
    ensures p.endpoint.Unresolved? ==>
      Init(api, SetTransportProfile(p, tp), docType, process, receiver).lookups == [DirectLookup(SmpQuery(receiver, docType, process, tp))]
    ensures p.endpoint.Resolved? ==>
      && Init(api, SetTransportProfile(p, tp), docType, process, receiver).provider.endpoint == p.endpoint
      && ReceiverCertificate(api, SetTransportProfile(p, tp)) == ReceiverCertificate(api, p)
      && ReceiverEndpointUrl(api, SetTransportProfile(p, tp)) == ReceiverEndpointUrl(api, p)
  {
  }
}
