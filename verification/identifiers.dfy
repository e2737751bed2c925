/** The value types the sending path is configured with: Peppol-style
    identifiers, transport profiles, and opaque tokens for certificates,
    date-times and attachments. */
module Identifiers {

  /** The canonical URI encoding of a scheme-qualified identifier, as the
      identifier library renders it: `scheme::value`. */
  function UriEncode(scheme: string, value: string): string {
    scheme + "::" + value
  }

  /** A participant (sender or receiver) identifier. */
  datatype ParticipantId = ParticipantId(scheme: string, value: string) {
    function UriEncoded(): string { UriEncode(scheme, value) }
  }

  /** A document type identifier. */
  datatype DocTypeId = DocTypeId(scheme: string, value: string) {
    function UriEncoded(): string { UriEncode(scheme, value) }
  }

  /** A process identifier. */
  datatype ProcessId = ProcessId(scheme: string, value: string) {
    function UriEncoded(): string { UriEncode(scheme, value) }
  }

  /** The document type identifier scheme Peppol registers for wildcard
      matching. */
  const WildcardDocTypeScheme: string := "peppol-doctype-wildcard"

  /** A wire transport profile, identified by its SMP transport profile id. */
  datatype TransportProfile = TransportProfile(id: string)

  /** Peppol AS4 profile v2. */
  const PeppolAs4V2: TransportProfile := TransportProfile("peppol-transport-as4-v2_0")

  /** OASIS BDXR AS4 profile. */
  const BdxrAs4: TransportProfile := TransportProfile("bdxr-transport-ebms3-as4-v1p0")

  /** An X.509 certificate; its contents are never inspected. */
  datatype Certificate = Certificate(handle: nat)

  /** An `OffsetDateTime` instant; opaque. */
  datatype DateTime = DateTime(instant: int)

  /** A caller-supplied payload descriptor (`AS4OutgoingAttachment`). */
  datatype OutgoingAttachment = OutgoingAttachment(handle: nat)

  /** A transport-ready MIME part (`WSS4JAttachment`). */
  datatype MimeAttachment = MimeAttachment(handle: nat)

  predicate NoColon(s: string) {
    forall i :: 0 <= i < |s| ==> s[i] != ':'
  }

  /** The separator follows the scheme directly in the encoding. */
  lemma SeparatorPosition(s: string, v: string)
    ensures UriEncode(s, v)[|s|] == ':'
    ensures forall i :: 0 <= i < |s| ==> UriEncode(s, v)[i] == s[i]
  {
  }

  /** For schemes without a colon (every registered Peppol scheme), the URI
      encoding is injective: the derived `action` field determines the
      document type identifier it was computed from. */
  lemma {:induction false} UriEncodeInjective(s1: string, v1: string, s2: string, v2: string)
    requires NoColon(s1) && NoColon(s2)
    requires UriEncode(s1, v1) == UriEncode(s2, v2)
    ensures s1 == s2 && v1 == v2
  {
    var e := UriEncode(s1, v1);
    SeparatorPosition(s1, v1);
    SeparatorPosition(s2, v2);
    assert |s1| == |s2|;
    assert s1 == e[..|s1|];
    assert s2 == UriEncode(s2, v2)[..|s2|];
    assert v1 == e[|s1| + 2..];
    assert v2 == UriEncode(s2, v2)[|s2| + 2..];
  }
}
