/** Transport and address selection from a target URI (utils.go). */
module Uris {
  import opened Wrappers

  /** The parts of a parsed URI that the library reads. */
  datatype Url = Url(scheme: string, host: string, path: string)

  /** Go's `(network, address string, err error)` triple. */
  datatype Addr = Addr(network: string, address: string, err: Outcome)

  /** Split `uri` into a network and an address. The network is the scheme;
      the address is the host for "tcp" and "udp" and the path for every
      other scheme. `parse` stands for url.Parse. */
  function UriAddr(uri: string, parse: string -> Result<Url>): (r: Addr)
    ensures parse(uri).Err? ==> r == Addr("", "", Fail(parse(uri).error))
    ensures parse(uri).Ok? ==> r.err == Pass && r.network == parse(uri).value.scheme
    ensures parse(uri).Ok? && (r.network == "tcp" || r.network == "udp") ==> r.address == parse(uri).value.host
    ensures parse(uri).Ok? && r.network != "tcp" && r.network != "udp" ==> r.address == parse(uri).value.path
  {
    match parse(uri)
    case Ok(u) =>
      var host := if u.scheme == "tcp" || u.scheme == "udp" then u.host else u.path;
      Addr(u.scheme, host, Pass)
    case Err(e) => Addr("", "", Fail(e))
  }
}
