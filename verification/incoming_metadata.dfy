/** `IAS4IncomingMessageMetadata`: the remote-peer fields of an incoming
    message's metadata and the three `has*` default methods over them. */
module IncomingMessageMetadata {
  import opened Wrappers

  /** Java's `int`. */
  newtype int32 = x: int | -0x8000_0000 <= x < 0x8000_0000

  datatype IncomingMode = Request | Response

  /** The getters the `has*` predicates read, plus the mode standing for
      everything else an implementation carries. A port that is not known
      is zero or negative. */
  datatype Metadata = Metadata(
    mode: IncomingMode,
    remoteAddr: Option<string>,
    remoteHost: Option<string>,
    remotePort: int32)

  /** `hasRemoteAddr`. */
  function HasRemoteAddr(m: Metadata): (r: bool)
    ensures r <==> m.remoteAddr !in {None, Some("")}
  {
    HasText(m.remoteAddr)
  }

  /** `hasRemoteHost`. */
  function HasRemoteHost(m: Metadata): (r: bool)
    ensures r <==> m.remoteHost !in {None, Some("")}
  {
    HasText(m.remoteHost)
  }

  /** `hasRemotePort`: a port in 1..2^31-1. */
  function HasRemotePort(m: Metadata): (r: bool)
    ensures r <==> 1 <= m.remotePort as int <= 0x7fff_ffff
  {
    m.remotePort > 0
  }

  /** Each predicate reads its own getter and nothing else: two metadata
      objects that agree on that getter agree on the predicate, whatever
      else differs. */
  lemma PredicatesAreLocal(m: Metadata, n: Metadata)
    ensures m.remoteAddr == n.remoteAddr ==> HasRemoteAddr(m) == HasRemoteAddr(n)
    ensures m.remoteHost == n.remoteHost ==> HasRemoteHost(m) == HasRemoteHost(n)
    ensures m.remotePort == n.remotePort ==> HasRemotePort(m) == HasRemotePort(n)
  {
  }

  /** The "not set" values: zero and every negative port give false, and
      the predicates do not depend on one another. */
  lemma UnsetValuesAreRejected(m: Metadata)
    ensures m.remotePort <= 0 ==> !HasRemotePort(m)
    ensures !HasRemotePort(m.(remotePort := 0)) && !HasRemotePort(m.(remotePort := -1))
    ensures !HasRemoteAddr(m.(remoteAddr := None)) && !HasRemoteAddr(m.(remoteAddr := Some("")))
    ensures !HasRemoteHost(m.(remoteHost := None)) && !HasRemoteHost(m.(remoteHost := Some("")))
    ensures HasRemoteHost(m.(remoteAddr := None)) == HasRemoteHost(m)
    ensures HasRemotePort(m.(remoteHost := None)) == HasRemotePort(m)
  {
  }
}
