/** What every SMP-backed endpoint detail provider shares: the
    `Unresolved | Resolved` cache tag, the shape of an SMP client answer, the
    record of lookups a provider performed, and the discovery error text. */
module Discovery {
  import opened Wrappers
  import opened Identifiers
  import opened Exceptions

  /** The provider's cache of the endpoint it resolved (Java: a nullable
      `m_aEndpoint` field). */
  datatype Resolution<E> = Unresolved | Resolved(endpoint: E)

  /** The answer of an SMP client call: a possibly-null result, or the
      `SMPClientException` it raised. */
  datatype Lookup<T> = Answer(found: Option<T>) | ClientFailure(message: string)

  /** Peppol's wildcard selection modes (`PeppolWildcardSelector.EMode`). */
  datatype WildcardMode = WildcardOnly | BusdoxOnly | BusdoxThenWildcard | WildcardThenBusdox

  /** The tuple a direct lookup is made for. */
  datatype SmpQuery = SmpQuery(receiver: ParticipantId, docType: DocTypeId, process: ProcessId, tp: TransportProfile)

  /** One network lookup a provider performed: an entry of the observable
      lookup trace. */
  datatype LookupCall =
    | DirectLookup(query: SmpQuery)
    | WildcardLookup(receiver: ParticipantId, docType: DocTypeId, mode: WildcardMode)

  /** The effect of one `init` call: the provider afterwards, the lookups it
      made, and the exception it threw (`None` when it returned normally). */
  datatype InitStep<P> = InitStep(provider: P, lookups: seq<LookupCall>, thrown: Option<Exception>)

  /** The query rendered as in every discovery error message. */
  function QueryText(q: SmpQuery): string {
    "(" + q.receiver.UriEncoded() + ", " + q.docType.UriEncoded() + ", " + q.process.UriEncoded() + ", " + q.tp.id + ")"
  }

  /** Message of the exception thrown when a lookup fails. */
  function ResolveFailureMessage(q: SmpQuery): string {
    "Failed to resolve SMP endpoint " + QueryText(q)
  }

  const CertificateFailureMessage: string := "Failed to extract AP certificate from SMP endpoint"
  const AddressFailureMessage: string := "Failed to determine the destination URL from the SMP endpoint"

  /** An accessor's failure message: the fixed text, then the rendering of
      the resolved endpoint (its `toString`). */
  function EndpointFailureMessage(text: string, endpointText: string): (m: string)
    ensures text + ": " <= m && |m| == |text| + 2 + |endpointText|
  {
    text + ": " + endpointText
  }
}
