# phase4 AS4 sending path — a Dafny model

This project models the outbound half of phase4's AS4 client, from a
configured user-message builder through endpoint discovery to the single
transport call. It covers:

- **Discovery providers** (`IAS4EndpointDetailProvider`):
  - the Peppol SMP provider, which has a wildcard document-type path;
  - the CEF BDXR SMP v2 provider, which does exact-match lookups only;
  - a constant, pre-resolved provider.

  Each provider caches its resolved endpoint: `Unresolved | Resolved(endpoint)`. `init` performs at most one lookup and only while the provider is unresolved. A failed lookup leaves the provider unresolved, so a later `init` retries. The SMP client library is a set of uninterpreted functions that may answer, answer "nothing" or throw.
- **The MIME-payload builder** (`AbstractAS4UserMessageBuilderMIMEPayload`):
  - the payload setters and the readiness check;
  - `mainSendMessage`, which acquires the resource helper, fires the contained sending-time callback, adds the main attachment and then the extras in order, invokes the transport exactly once with the builder's URL, releases the helper on every path, and normalises exceptions to `Phase4Exception`.
- **The DBNAlliance builder** (`Phase4DBNAllianceSender.AbstractDBNAllianceUserMessageBuilder`):
  - the constructor defaults and the last-write-wins setters with their override warnings;
  - the derived `action`/`service` fields;
  - the provider shortcuts and both readiness predicates;
  - the `finishFields` gate: `init`, certificate, certificate consumer, URL, URL consumer, to-party id, then super, with no exception containment;
  - the sending-time callback composition in `customizeBeforeSending` and the effective sending time.
- **Incoming-message metadata**: the `has*` default methods of `IAS4IncomingMessageMetadata`.

State is held in immutable records and every operation is a pure function or method. Effects are returned as traces, so ordering and once-only properties can be stated directly. The traces are:
- `LookupCall`: the SMP queries made;
- `FinishEvent`: the steps of `finishFields`;
- `SendEvent`: resource acquire and release, callback, attachments, transport.

Every collaborator whose code is not part of this model is a function-typed field of an API or environment record:
- the SMP clients;
- the certificate and address extractors;
- the consumers;
- the WSS4J attachment factory;
- the transport;
- the base builder's `isEveryRequiredFieldSet` and `finishFields`;
- the subject-CN extractor.

Modules: `Wrappers`, `Identifiers`, `Exceptions`, `Discovery` (shared lookup vocabulary), `PeppolProvider`, `Bdxr2Provider`, `EndpointProvider`, `BaseBuilder`, `MimePayloadBuilder`, `DbnAllianceSender`, `IncomingMessageMetadata`.

### Callback failures

The certificate and URL consumers in `finishFields` are called without try/catch (Phase4DBNAllianceSender.java lines 337-346), so their exceptions abort the gate before super runs: `DbnAllianceSender.FinishFields` ends with `Raised(e)` for a throwing consumer. Only the sending-time callback in `mainSendMessage` is contained (AbstractAS4UserMessageBuilderMIMEPayload.java lines 138-150).

### Effective sending time

The javadoc of `effectiveSendingDateTime()` (Phase4DBNAllianceSender.java lines 282-288) says the value is set only if sending takes place. The code sets it from the composed callback (lines 396-411), which `mainSendMessage` fires before any attachment is created (AbstractAS4UserMessageBuilderMIMEPayload.java line 144, attachments at lines 157-165, transport at line 172). The model follows the code: `DbnAllianceSender.SendingTimeRecordedWithoutTransmission` shows a builder that reports an effective sending time although nothing reached the transport.

## Model

| member | source | states |
|---|---|---|
| Identifiers.UriEncodeInjective | phase4-dbnalliance-client/src/main/java/com/helger/phase4/dbnalliance/Phase4DBNAllianceSender.java:156-163 | For colon-free schemes, two identifiers with the same URI encoding (the form written into the action) are the same identifier. Distinct document types therefore never share an action. |
| PeppolProvider.New | phase4-dynamic-discovery/src/main/java/com/helger/phase4/dynamicdiscovery/AS4EndpointDetailProviderPeppol.java:56-70 | A new provider keeps its client, uses wildcard mode WILDCARD_ONLY and the Peppol AS4 v2 transport profile, and starts unresolved. |
| PeppolProvider.SetWildcardSelectionMode | phase4-dynamic-discovery/src/main/java/com/helger/phase4/dynamicdiscovery/AS4EndpointDetailProviderPeppol.java:103-109 | Only the wildcard mode changes; client, profile and cached endpoint are kept. |
| PeppolProvider.SetTransportProfile | phase4-dynamic-discovery/src/main/java/com/helger/phase4/dynamicdiscovery/AS4EndpointDetailProviderPeppol.java:130-136 | Only the transport profile changes; client, mode and cached endpoint are kept. |
| PeppolProvider.Init | phase4-dynamic-discovery/src/main/java/com/helger/phase4/dynamicdiscovery/AS4EndpointDetailProviderPeppol.java:149-228 | Resolved: no lookup and no change, whatever the arguments. Unresolved: exactly one lookup, which is the wildcard query iff the scheme is the Peppol wildcard scheme and the client is read-only, and otherwise the direct query with the current profile. Normal return iff resolved afterwards. The outcome is what that lookup answered: a found endpoint is cached; no endpoint throws the SMP exception naming the query with the " [wildcard]" or " [static]" marker of the path; a client exception becomes the cause. A failure leaves the provider untouched. |
| PeppolProvider.ReceiverCertificate | phase4-dynamic-discovery/src/main/java/com/helger/phase4/dynamicdiscovery/AS4EndpointDetailProviderPeppol.java:230-241 | Returns the extracted certificate, or fails exactly when extraction fails, with a Phase4Exception whose message starts with the certificate failure text and ": " (the endpoint follows) and whose cause is the CertificateException. |
| PeppolProvider.ReceiverEndpointUrl | phase4-dynamic-discovery/src/main/java/com/helger/phase4/dynamicdiscovery/AS4EndpointDetailProviderPeppol.java:243-251 | Returns the endpoint's address, which is then non-empty, or fails exactly when that address is null or empty, with a causeless Phase4Exception whose message starts with the address failure text and ": ". |
| PeppolProvider.WildcardWithoutMetadataFails | phase4-dynamic-discovery/src/main/java/com/helger/phase4/dynamicdiscovery/AS4EndpointDetailProviderPeppol.java:177-200 | On the wildcard path, missing signed metadata leaves the provider unresolved and throws the SMP exception tagged " [wildcard]". |
| PeppolProvider.StaticLookupWithoutEndpointFails | phase4-dynamic-discovery/src/main/java/com/helger/phase4/dynamicdiscovery/AS4EndpointDetailProviderPeppol.java:185-200 | A direct lookup that answers null leaves the provider untouched and throws the SMP exception naming the query with the " [static]" marker. |
| PeppolProvider.WildcardEndpointIsCached | phase4-dynamic-discovery/src/main/java/com/helger/phase4/dynamicdiscovery/AS4EndpointDetailProviderPeppol.java:177-183 | On the wildcard path, an endpoint found in the signed metadata for the process and current profile is cached after one wildcard query, and `init` returns normally. |
| PeppolProvider.WildcardMetadataWithoutEndpointFails | phase4-dynamic-discovery/src/main/java/com/helger/phase4/dynamicdiscovery/AS4EndpointDetailProviderPeppol.java:180-200 | On the wildcard path, signed metadata without an endpoint for the process and profile leaves the provider untouched and throws the SMP exception with the " [wildcard]" marker. |
| PeppolProvider.ClientFailureIsConverted | phase4-dynamic-discovery/src/main/java/com/helger/phase4/dynamicdiscovery/AS4EndpointDetailProviderPeppol.java:214-226 | An SMPClientException on either path becomes an SMP-kind Phase4Exception naming the query, with the client exception as its cause. |
| PeppolProvider.DirectLookupCachesAnswer | phase4-dynamic-discovery/src/main/java/com/helger/phase4/dynamicdiscovery/AS4EndpointDetailProviderPeppol.java:185-189 | A successful direct lookup makes one direct call and caches exactly the endpoint the client returned. |
| PeppolProvider.SettingsAfterResolutionIgnored | phase4-dynamic-discovery/src/main/java/com/helger/phase4/dynamicdiscovery/AS4EndpointDetailProviderPeppol.java:103-158 | Changing the profile or mode after resolution changes neither the endpoint nor what a later `init` or either accessor yields, and triggers no lookup. |
| Bdxr2Provider.New | phase4-cef-client/src/main/java/com/helger/phase4/cef/Phase4CEFEndpointDetailProviderBDXR2.java:50-62 | A new CEF provider keeps its client, uses the BDXR AS4 profile, starts unresolved and throws the CEF exception classes. |
| Bdxr2Provider.NewCore | phase4-dbnalliance-client/src/main/java/com/helger/phase4/dbnalliance/Phase4DBNAllianceSender.java:226-230 | The BDXR v2 provider that `smpClient` installs has the same defaults but throws the core exception classes. |
| Bdxr2Provider.SetTransportProfile | phase4-cef-client/src/main/java/com/helger/phase4/cef/Phase4CEFEndpointDetailProviderBDXR2.java:93-99 | Only the profile changes. |
| Bdxr2Provider.Init | phase4-cef-client/src/main/java/com/helger/phase4/cef/Phase4CEFEndpointDetailProviderBDXR2.java:112-173 | Resolved: a no-op. Unresolved: always exactly the direct query with the current profile; there is no wildcard path. On failure the provider is unchanged and the exception is exactly the family's SMP exception naming the query, with the client exception as cause when there was one. A normal return happens iff the client found an endpoint, and then exactly that endpoint is cached. |
| Bdxr2Provider.ReceiverCertificate | phase4-cef-client/src/main/java/com/helger/phase4/cef/Phase4CEFEndpointDetailProviderBDXR2.java:175-186 | Returns the certificate, or fails exactly when extraction fails, with the family's exception whose message starts with the certificate failure text and ": " and whose cause is the CertificateException. |
| Bdxr2Provider.ReceiverEndpointUrl | phase4-cef-client/src/main/java/com/helger/phase4/cef/Phase4CEFEndpointDetailProviderBDXR2.java:188-196 | Returns non-empty text equal to the endpoint's address, or fails exactly when the address has no text, with the family's causeless exception whose message starts with the address failure text and ": ". |
| Bdxr2Provider.TransportProfileOnlyAffectsPendingLookups | phase4-cef-client/src/main/java/com/helger/phase4/cef/Phase4CEFEndpointDetailProviderBDXR2.java:93-136 | A profile set while unresolved is the one the next lookup uses. Once resolved, a new profile changes neither the endpoint nor either accessor. |
| EndpointProvider.Init | phase4-dbnalliance-client/src/main/java/com/helger/phase4/dbnalliance/Phase4DBNAllianceSender.java:332-333 | For any strategy: the strategy never changes, and a resolved or constant provider makes `init` a silent no-op. At most one lookup per call. Normal return iff resolved afterwards. A failure leaves the provider as it was and is a Phase4Exception. |
| EndpointProvider.ReceiverCertificate | phase4-dbnalliance-client/src/main/java/com/helger/phase4/dbnalliance/Phase4DBNAllianceSender.java:335-336 | A constant provider returns its certificate; every failure is a Phase4Exception. |
| EndpointProvider.ReceiverEndpointUrl | phase4-dbnalliance-client/src/main/java/com/helger/phase4/dbnalliance/Phase4DBNAllianceSender.java:343-344 | Any returned URL is non-empty; a constant provider returns its URL; every failure is a Phase4Exception. |
| EndpointProvider.ResolvedProviderNeverLooksUpAgain | phase4-dynamic-discovery/src/main/java/com/helger/phase4/dynamicdiscovery/AS4EndpointDetailProviderPeppol.java:157-158 | Any number of `init` calls on a resolved provider perform no lookup and leave it unchanged. |
| EndpointProvider.OnlyFirstSuccessfulInitLooksUp | phase4-cef-client/src/main/java/com/helger/phase4/cef/Phase4CEFEndpointDetailProviderBDXR2.java:120-121 | After a successful `init`, no later call, whatever its arguments, adds a lookup or changes the provider. |
| EndpointProvider.LookupsBoundedByCalls | phase4-dynamic-discovery/src/main/java/com/helger/phase4/dynamicdiscovery/AS4EndpointDetailProviderPeppol.java:157-200 | A sequence of `init` calls performs at most one lookup per call. |
| EndpointProvider.FailedInitIsRetried | phase4-dynamic-discovery/src/main/java/com/helger/phase4/dynamicdiscovery/AS4EndpointDetailProviderPeppol.java:190-200 | After a failed `init`, the next one performs a lookup again. |
| EndpointProvider.ConstantProviderIsStatic | phase4-dbnalliance-client/src/main/java/com/helger/phase4/dbnalliance/Phase4DBNAllianceSender.java:246-251 | A constant provider never looks anything up and hands back exactly the certificate and URL it was built with. |
| BaseBuilder.Fire | phase4-dbnalliance-client/src/main/java/com/helger/phase4/dbnalliance/Phase4DBNAllianceSender.java:396-411 | A wrapper records the instant even when the forwarded call throws. The callback registered underneath is notified exactly once with the same instant, and its exception is what the call throws. |
| MimePayloadBuilder.Payload | phase4-lib/src/main/java/com/helger/phase4/sender/AbstractAS4UserMessageBuilderMIMEPayload.java:82-87 | Sets or clears the payload and nothing else. |
| MimePayloadBuilder.PayloadFromBuilder | phase4-lib/src/main/java/com/helger/phase4/sender/AbstractAS4UserMessageBuilderMIMEPayload.java:69-73 | A null builder clears the payload; otherwise the payload is what the builder builds. |
| MimePayloadBuilder.PayloadSettersAgree | phase4-lib/src/main/java/com/helger/phase4/sender/AbstractAS4UserMessageBuilderMIMEPayload.java:69-104 | `payload(builder)` equals `payload(builder.build())`, and `payload(null)` clears the payload, which makes the builder not ready. |
| MimePayloadBuilder.IsEveryRequiredFieldSet | phase4-lib/src/main/java/com/helger/phase4/sender/AbstractAS4UserMessageBuilderMIMEPayload.java:89-104 | Holds iff the base check holds and a payload is set. |
| MimePayloadBuilder.Normalise | phase4-lib/src/main/java/com/helger/phase4/sender/AbstractAS4UserMessageBuilderMIMEPayload.java:188-199 | Always yields a Phase4Exception: the original if it already is one, and otherwise one with message "Wrapped Phase4Exception" whose cause is the original. |
| MimePayloadBuilder.NormaliseIsIdempotent | phase4-lib/src/main/java/com/helger/phase4/sender/AbstractAS4UserMessageBuilderMIMEPayload.java:188-199 | Normalising twice is normalising once; an exception is never wrapped twice. |
| MimePayloadBuilder.AddExtraAttachments | phase4-lib/src/main/java/com/helger/phase4/sender/AbstractAS4UserMessageBuilderMIMEPayload.java:162-164 | The extras are created and appended in insertion order, one event each, up to the first that cannot be created. Success iff every extra was created. |
| MimePayloadBuilder.BuildMessage | phase4-lib/src/main/java/com/helger/phase4/sender/AbstractAS4UserMessageBuilderMIMEPayload.java:132-164 | Packaging order: acquire, then the callback notification, then the main part (skipped when null), then the extras. It stops at the first attachment that cannot be created. |
| MimePayloadBuilder.MainSendMessage | phase4-lib/src/main/java/com/helger/phase4/sender/AbstractAS4UserMessageBuilderMIMEPayload.java:128-200 | No inline payload. The helper is acquired first and released last on every path. The callback fires once and cannot abort the send. Attachments are the main part then the extras in order. The transport is invoked once, after packaging, with the builder's URL, and never if packaging failed. Callers only see Phase4Exception. The contract is the predicate `MainSendReport`. |
| DbnAllianceSender.New | phase4-dbnalliance-client/src/main/java/com/helger/phase4/dbnalliance/Phase4DBNAllianceSender.java:97-116 | The DBNAlliance agreement ref and party-id types are set, with initiator fromRole, responder toRole and the random AES-256 session key provider. Receiver, document type, process, provider, payload, consumers and effective sending time are unset. No other base field changes. |
| DbnAllianceSender.ReceiverParticipantId | phase4-dbnalliance-client/src/main/java/com/helger/phase4/dbnalliance/Phase4DBNAllianceSender.java:127-135 | Sets the receiver and never fails. It adds an override warning exactly when one was already set. Nothing else changes. |
| DbnAllianceSender.DocumentTypeId | phase4-dbnalliance-client/src/main/java/com/helger/phase4/dbnalliance/Phase4DBNAllianceSender.java:155-163 | Stores the id and sets the action to its URI encoding. It warns on override. No other field changes. |
| DbnAllianceSender.ProcessIdentifier | phase4-dbnalliance-client/src/main/java/com/helger/phase4/dbnalliance/Phase4DBNAllianceSender.java:183-191 | Stores the id and sets the service to its scheme and value. It warns on override. No other field changes. |
| DbnAllianceSender.EndpointDetailProvider | phase4-dbnalliance-client/src/main/java/com/helger/phase4/dbnalliance/Phase4DBNAllianceSender.java:204-212 | Sets the provider and never fails. It warns on override. Nothing else changes. |
| DbnAllianceSender.SmpClient | phase4-dbnalliance-client/src/main/java/com/helger/phase4/dbnalliance/Phase4DBNAllianceSender.java:226-230 | Equals `endpointDetailProvider` with a fresh, unresolved BDXR v2 provider for that client. |
| DbnAllianceSender.ReceiverEndpointDetails | phase4-dbnalliance-client/src/main/java/com/helger/phase4/dbnalliance/Phase4DBNAllianceSender.java:246-251 | Equals `endpointDetailProvider` with a constant provider for the certificate and the non-empty URL. |
| DbnAllianceSender.CertificateConsumer | phase4-dbnalliance-client/src/main/java/com/helger/phase4/dbnalliance/Phase4DBNAllianceSender.java:261-266 | Sets or clears the consumer, without warning, and nothing else. |
| DbnAllianceSender.EndpointUrlConsumer | phase4-dbnalliance-client/src/main/java/com/helger/phase4/dbnalliance/Phase4DBNAllianceSender.java:276-281 | Sets or clears the consumer, without warning, and nothing else. |
| DbnAllianceSender.WithPayload | phase4-lib/src/main/java/com/helger/phase4/sender/AbstractAS4UserMessageBuilderMIMEPayload.java:82-87 | On the DBNAlliance builder, `payload` changes the payload and nothing else. |
| DbnAllianceSender.SettersPreserveInvariants | phase4-dbnalliance-client/src/main/java/com/helger/phase4/dbnalliance/Phase4DBNAllianceSender.java:155-191 | After any sequence of setters, in any order, the action still matches the document type and the service still matches the process. Any installed constant provider has a non-empty URL. The effective sending time is untouched. |
| DbnAllianceSender.ReceiverLastWriteWins | phase4-dbnalliance-client/src/main/java/com/helger/phase4/dbnalliance/Phase4DBNAllianceSender.java:127-135 | Setting the receiver twice equals setting it once to the second value, apart from exactly one extra override warning. |
| DbnAllianceSender.ProviderLastWriteWins | phase4-dbnalliance-client/src/main/java/com/helger/phase4/dbnalliance/Phase4DBNAllianceSender.java:204-212 | Setting the provider twice equals setting it once to the second one, apart from exactly one extra override warning. |
| DbnAllianceSender.IsEndpointDetailProviderUsable | phase4-dbnalliance-client/src/main/java/com/helger/phase4/dbnalliance/Phase4DBNAllianceSender.java:296-320 | Holds iff receiver, document type, process and provider are all set. |
| DbnAllianceSender.IsEveryRequiredFieldSet | phase4-dbnalliance-client/src/main/java/com/helger/phase4/dbnalliance/Phase4DBNAllianceSender.java:356-394 | Holds iff the base check holds and payload, receiver, document type, process and provider are all set. If it holds, discovery is usable. |
| DbnAllianceSender.FinishFields | phase4-dbnalliance-client/src/main/java/com/helger/phase4/dbnalliance/Phase4DBNAllianceSender.java:322-354 | Missing discovery fields give FAILURE with no `init`. Otherwise `init` runs first and its provider state is kept. Super is reached only after certificate, certificate consumer, URL, URL consumer and to-party id, in that order; the certificate, the non-empty URL and the CN are then installed, and super's result is returned. Conversely, super is reached iff `init`, both accessors and both consumers all go through; otherwise the outcome is exactly the exception of the first step that threw (init, certificate, certificate consumer, URL, URL consumer), and nothing is contained. |
| DbnAllianceSender.SecondFinishPerformsNoLookup | phase4-dbnalliance-client/src/main/java/com/helger/phase4/dbnalliance/Phase4DBNAllianceSender.java:332-333 | Once a gate got past `init`, running the gate again performs no SMP lookup. |
| DbnAllianceSender.ConstantDetailsFinish | phase4-dbnalliance-client/src/main/java/com/helger/phase4/dbnalliance/Phase4DBNAllianceSender.java:322-354 | With `receiverEndpointDetails` the gate performs no lookup. It reaches super iff neither consumer throws, and then installs exactly the given certificate and URL and the certificate's CN. |
| DbnAllianceSender.CustomizeBeforeSending | phase4-dbnalliance-client/src/main/java/com/helger/phase4/dbnalliance/Phase4DBNAllianceSender.java:396-411 | Installs a sending-time callback whose registered callback underneath is the one registered before, and changes nothing else. |
| DbnAllianceSender.RecordFired | phase4-dbnalliance-client/src/main/java/com/helger/phase4/dbnalliance/Phase4DBNAllianceSender.java:400-406 | The effective sending time changes only to an instant a fired wrapper recorded; no other field changes. |
| DbnAllianceSender.ComposedCallbackRecordsThenForwards | phase4-dbnalliance-client/src/main/java/com/helger/phase4/dbnalliance/Phase4DBNAllianceSender.java:396-411 | Firing the composed callback with t stores t as the effective sending time. It then has exactly the effect of firing the previously registered callback directly with the same t. |
| DbnAllianceSender.SendMessage | phase4-dbnalliance-client/src/main/java/com/helger/phase4/dbnalliance/Phase4DBNAllianceSender.java:290-294 | Discovery happens exactly as in `finishFields`. `mainSendMessage` runs iff the gate finished and every required field of the finished builder is set, so never without a payload. What runs is then exactly `mainSendMessage` on the finished, customised builder (its whole contract, `MimePayloadBuilder.MainSendReport`, holds of the report), so the transport sees the discovered URL and certificate. The effective sending time is set whenever `mainSendMessage` runs, even if packaging then fails and the transport is never called, and equals the message's sending time; otherwise it is untouched. The caller's own sending-time callback is still notified. |
| DbnAllianceSender.PackagedSendUsesDiscoveredEndpoint | phase4-lib/src/main/java/com/helger/phase4/sender/AbstractAS4UserMessageBuilderMIMEPayload.java:152-180 | When the finished builder's message can be fully packaged, the transport is invoked exactly once, as the last step before release, with the URL discovery produced (the given URL for externally resolved details); the message carries the payload's part first and then the extras in order. |
| DbnAllianceSender.SendingTimeRecordedWithoutTransmission | phase4-lib/src/main/java/com/helger/phase4/sender/AbstractAS4UserMessageBuilderMIMEPayload.java:138-165 | If the main attachment cannot be created, nothing reaches the transport and the send raises, yet the builder reports an effective sending time equal to the message's sending time. |
| DbnAllianceSender.SharedResolvedProviderIgnoresReceiver | phase4-dbnalliance-client/src/main/java/com/helger/phase4/dbnalliance/Phase4DBNAllianceSender.java:204-211 | A second builder handed the provider that a first gate resolved performs no lookup and keeps the first endpoint, whatever its own receiver, document type and process. |
| IncomingMessageMetadata.HasRemoteAddr | phase4-lib/src/main/java/com/helger/phase4/messaging/IAS4IncomingMessageMetadata.java:40-46 | True iff the remote address is neither null nor empty. |
| IncomingMessageMetadata.HasRemoteHost | phase4-lib/src/main/java/com/helger/phase4/messaging/IAS4IncomingMessageMetadata.java:57-63 | True iff the remote host is neither null nor empty. |
| IncomingMessageMetadata.HasRemotePort | phase4-lib/src/main/java/com/helger/phase4/messaging/IAS4IncomingMessageMetadata.java:66-78 | True iff the 32-bit port lies in 1..2^31-1. |
| IncomingMessageMetadata.PredicatesAreLocal | phase4-lib/src/main/java/com/helger/phase4/messaging/IAS4IncomingMessageMetadata.java:43-78 | Each `has*` predicate depends only on its own getter. |
| IncomingMessageMetadata.UnsetValuesAreRejected | phase4-lib/src/main/java/com/helger/phase4/messaging/IAS4IncomingMessageMetadata.java:66-78 | A zero or negative port, and a null or empty address or host, give false. Clearing one field leaves the other predicates unchanged. |

## Left out

- NonRepudiationInformationMarshaller: JAXB/XSD marshaller configuration with no logic of its own.
- SMP protocol and client internals: `getEndpoint`, `getWildcardServiceMetadataOrNull`, `SMPClientReadOnly.getEndpoint` and the certificate and address extractors are uninterpreted functions.
- Accessors before `init`: the providers' `getReceiverAPCertificate` and `getReceiverAPEndpointURL` require a resolved provider. Before `init` the code hands a null endpoint to external extractors, whose behaviour is not part of this model.
- A null certificate returned by a successful extraction is not represented; extraction yields a certificate or an error.
- The `toString` of an endpoint, appended to the accessors' failure messages, is an uninterpreted function of the SMP API record. The lookup failure message is spelled out in full from the URI-encoded identifiers and the profile id.
- Logging, debug output and `LOGGER.warn` text: override warnings are kept only as events.
- X.509 parsing and `PeppolCertificateHelper.getSubjectCN`: an uninterpreted function from certificate to optional text.
- WSS4J attachment creation, temporary files and MIME serialisation: attachments are opaque tokens, and the resource helper is an acquire/release event pair.
- Crypto parameters, `AS4IncomingSecurityConfiguration`, the PMode resolver, dumpers, retry and response callbacks, locale, HTTP client settings (`httpClientFactory` in the constructor) and `AS4BidirectionalClientHelper`: the transport is one uninterpreted call that may throw.
- `AbstractAS4UserMessageBuilder` is not part of this model. Its readiness check and `finishFields` are uninterpreted hooks, and `action`, `service`, `endpointURL`, `receiverCertificate`, `toPartyID` and `applyToUserMessage` are field writes or a header copy. The order of that class's send trigger is therefore not visible here.
- `AS4EndpointDetailProviderBDXR2` and `AS4EndpointDetailProviderConstant` are not part of this model. The first is modelled by the CEF BDXR v2 state machine throwing the core exception classes; the second by a provider that returns what it was built with.
- DbnAllianceSender.SendMessage: the order it composes — `finishFields`, then the readiness check, then `customizeBeforeSending` and `mainSendMessage` — is assumed for the base builder's send trigger, which is not part of this model. `finishFields` comes first because it fills the endpoint URL and to-party id that a readiness check reads. A builder with the discovery fields set therefore performs its SMP lookup even when it then fails for a missing payload.
- `DBNAlliancePMode` is not part of this model: its agreement and party-type constants are a parameter of `DbnAllianceSender.New`.
- The constructor's `IllegalStateException` wrapping: none of the modelled default writes can fail.
- The `createMainAttachment` hook: `mainSendMessage` never calls it.
- Java-level `null` arguments to `@Nonnull` setters and empty arguments to `@Nonempty` ones (both rejected by `ValueEnforcer`): the model's types make `null` unrepresentable, and `DbnAllianceSender.ReceiverEndpointDetails` requires a non-empty URL.
- Provider identity: Java stores the caller's mutable provider instance (Phase4DBNAllianceSender.java lines 204-211), so one instance shared by several builders is resolved once for all of them. Providers here are values; sharing is modelled only by passing the provider a gate returns on to the next builder, as `DbnAllianceSender.SharedResolvedProviderIgnoresReceiver` does.
- Plain getters (`getServiceMetadataProvider`, `getWildcardSelectionMode`, `getTransportProfile`, `getEndpoint`, `documentTypeID()`, `processID()`, `effectiveSendingDateTime()`) are record fields.
- Concurrency: the builder is single-threaded by contract.
- `mainSendMessage`'s `ensureSendingDateTime` is a parameter of the send environment, and date-times are opaque tokens.
