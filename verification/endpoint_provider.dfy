/** `IAS4EndpointDetailProvider`: the one capability set the builder sees,
    over three strategies: a Peppol SMP lookup, a BDXR SMP v2 lookup, and a
    constant (pre-resolved) certificate and URL. */
module EndpointProvider {
  import opened Wrappers
  import opened Identifiers
  import opened Exceptions
  import opened Discovery
  import PeppolProvider
  import Bdxr2Provider

  datatype Provider =
    | PeppolSmp(peppol: PeppolProvider.Provider)
    | Bdxr2Smp(bdxr2: Bdxr2Provider.Provider)
    | Constant(certificate: Certificate, url: string)

  /** The SMP client libraries both lookup strategies call. */
  datatype SmpApis = SmpApis(peppol: PeppolProvider.PeppolSmpApi, bdxr2: Bdxr2Provider.Bdxr2SmpApi)

  /** The arguments of one `init` call. */
  datatype InitArgs = InitArgs(docType: DocTypeId, process: ProcessId, receiver: ParticipantId)

  /** A constant provider is built from a non-empty URL. */
  predicate Valid(p: Provider) {
    p.Constant? ==> |p.url| > 0
  }

  /** Whether the accessors may be used: the cache is filled, or the
      provider is constant. */
  predicate IsResolved(p: Provider) {
    match p
    case PeppolSmp(pp) => pp.endpoint.Resolved?
    case Bdxr2Smp(bp) => bp.endpoint.Resolved?
    case Constant(_, _) => true
  }

  /** `init`, dispatched on the strategy. */
  function Init(apis: SmpApis, p: Provider, a: InitArgs): (r: InitStep<Provider>)
    requires Valid(p)
    ensures Valid(r.provider)
    // The strategy never changes.
    ensures r.provider.PeppolSmp? == p.PeppolSmp? && r.provider.Bdxr2Smp? == p.Bdxr2Smp?
    // A resolved (or constant) provider makes init a silent no-op.
    ensures IsResolved(p) ==> r == InitStep(p, [], None)
    // At most one lookup per call.
    ensures |r.lookups| <= 1
    ensures r.thrown.None? <==> IsResolved(r.provider)
    ensures r.thrown.Some? ==> r.provider == p && r.thrown.value.Phase4Exception?
  {
    match p
    case PeppolSmp(pp) =>
      var s := PeppolProvider.Init(apis.peppol, pp, a.docType, a.process, a.receiver);
      InitStep(PeppolSmp(s.provider), s.lookups, s.thrown)
    case Bdxr2Smp(bp) =>
      var s := Bdxr2Provider.Init(apis.bdxr2, bp, a.docType, a.process, a.receiver);
      InitStep(Bdxr2Smp(s.provider), s.lookups, s.thrown)
    case Constant(_, _) =>
      InitStep(p, [], None)
  }

  function ReceiverCertificate(apis: SmpApis, p: Provider): (r: Result<Certificate, Exception>)
    requires IsResolved(p)
    ensures p.Constant? ==> r == Success(p.certificate)
    ensures r.Failure? ==> r.error.Phase4Exception?
  {
    match p
    case PeppolSmp(pp) => PeppolProvider.ReceiverCertificate(apis.peppol, pp)
    case Bdxr2Smp(bp) => Bdxr2Provider.ReceiverCertificate(apis.bdxr2, bp)
    case Constant(cert, _) => Success(cert)
  }

  function ReceiverEndpointUrl(apis: SmpApis, p: Provider): (r: Result<string, Exception>)
    requires IsResolved(p) && Valid(p)
    ensures r.Success? ==> |r.value| > 0
    ensures p.Constant? ==> r == Success(p.url)
    ensures r.Failure? ==> r.error.Phase4Exception?
  {
    match p
    case PeppolSmp(pp) => PeppolProvider.ReceiverEndpointUrl(apis.peppol, pp)
    case Bdxr2Smp(bp) => Bdxr2Provider.ReceiverEndpointUrl(apis.bdxr2, bp)
    case Constant(_, url) => Success(url)
  }

  /** The provider and all lookups after a series of `init` calls on one
      provider instance, each call's exception being caught by its caller. */
  function InitAll(apis: SmpApis, p: Provider, calls: seq<InitArgs>): (r: (Provider, seq<LookupCall>))
    requires Valid(p)
    ensures Valid(r.0)
    decreases |calls|
  {
    if |calls| == 0 then (p, [])
    else
      var s := Init(apis, p, calls[0]);
      var rest := InitAll(apis, s.provider, calls[1..]);
      (rest.0, s.lookups + rest.1)
  }

  /** Once resolved, any number of further `init` calls, with any
      arguments, performs no network I/O and leaves the provider as it is. */
  lemma {:induction false} ResolvedProviderNeverLooksUpAgain(apis: SmpApis, p: Provider, calls: seq<InitArgs>)
    requires Valid(p) && IsResolved(p)
    ensures InitAll(apis, p, calls) == (p, [])
    decreases |calls|
  {
    if |calls| > 0 {
      assert Init(apis, p, calls[0]) == InitStep(p, [], None);
      ResolvedProviderNeverLooksUpAgain(apis, p, calls[1..]);
      var empty: seq<LookupCall> := [];
      assert InitAll(apis, p, calls) == (p, empty + empty);
      assert empty + empty == empty;
    }
  }

  /** Discovery is performed exactly once: after a first successful `init`,
      a whole series of later calls amounts to that first call alone; and a
      series of n calls never makes more than n lookups. */
  lemma {:induction false} OnlyFirstSuccessfulInitLooksUp(apis: SmpApis, p: Provider, first: InitArgs, later: seq<InitArgs>)
    requires Valid(p)
    requires Init(apis, p, first).thrown.None?
    ensures InitAll(apis, p, [first] + later) == (Init(apis, p, first).provider, Init(apis, p, first).lookups)
  {
    var s := Init(apis, p, first);
    assert ([first] + later)[0] == first;
    assert ([first] + later)[1..] == later;
    ResolvedProviderNeverLooksUpAgain(apis, s.provider, later);
    assert s.lookups + [] == s.lookups;
  }

  lemma {:induction false} LookupsBoundedByCalls(apis: SmpApis, p: Provider, calls: seq<InitArgs>)
    requires Valid(p)
    ensures |InitAll(apis, p, calls).1| <= |calls|
    decreases |calls|
  {
    if |calls| > 0 {
      LookupsBoundedByCalls(apis, Init(apis, p, calls[0]).provider, calls[1..]);
    }
  }

  /** A failed `init` leaves the provider unresolved, so the next call
      performs a lookup again. */
  lemma FailedInitIsRetried(apis: SmpApis, p: Provider, a: InitArgs, b: InitArgs)
    requires Valid(p) && !p.Constant?
    requires Init(apis, p, a).thrown.Some?
    ensures |Init(apis, Init(apis, p, a).provider, b).lookups| == 1
  {
  }

  /** The constant strategy: `init` is a no-op and both accessors return
      exactly the supplied values, however often they are called. */
  lemma ConstantProviderIsStatic(apis: SmpApis, cert: Certificate, url: string, calls: seq<InitArgs>)
    requires |url| > 0
    ensures InitAll(apis, Constant(cert, url), calls) == (Constant(cert, url), [])
    ensures ReceiverCertificate(apis, Constant(cert, url)) == Success(cert)
    ensures ReceiverEndpointUrl(apis, Constant(cert, url)) == Success(url)
  {
    ResolvedProviderNeverLooksUpAgain(apis, Constant(cert, url), calls);
  }
}
