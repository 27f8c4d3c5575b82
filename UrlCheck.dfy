/**
 * The URL check of `main`. `Url::parse` is an outside parser; the model
 * receives its outcome, the scheme of the parsed URL or the kind of parse
 * error, and decides what `main` does with it.
 */
module UrlCheck {
  import opened Wrappers
  import opened Text

  /** The error kinds `Url::parse` reports (`url::ParseError`). */
  datatype ParseError =
    | EmptyHost
    | IdnaError
    | InvalidPort
    | InvalidIpv4Address
    | InvalidIpv6Address
    | InvalidDomainCharacter
    | RelativeUrlWithoutBase
    | RelativeUrlWithCannotBeABaseBase
    | SetHostOnCannotBeABaseUrl
    | Overflow

  /** What `Url::parse` returned: the URL's scheme, or an error kind. */
  type UrlParse = Result<string, ParseError>

  const Ipv6Message: string := "Error: The URL contains an invalid IPv6 address."
  const Ipv4Message: string := "Error: The URL contains an invalid IPv4 address."
  const PortMessage: string := "Error: The URL contains an invalid port number."
  const BaseProtocolMessage: string := "Error: The URL does not have a valid base protocol."

  /**
   * The message printed for a parse error: each of the IPv6, IPv4 and port
   * errors gets its own message and every other kind gets the base-protocol
   * message.
   */
  function ErrorMessage(e: ParseError): (msg: string)
    ensures e == InvalidIpv6Address <==> msg == Ipv6Message
    ensures e == InvalidIpv4Address <==> msg == Ipv4Message
    ensures e == InvalidPort <==> msg == PortMessage
    ensures !(e.InvalidIpv6Address? || e.InvalidIpv4Address? || e.InvalidPort?) <==> msg == BaseProtocolMessage
  {
    match e
    case InvalidIpv6Address => Ipv6Message
    case InvalidIpv4Address => Ipv4Message
    case InvalidPort => PortMessage
    case _ => BaseProtocolMessage
  }

  /** The schemes `main` accepts, compared after ASCII lower-casing. */
  predicate AllowedScheme(scheme: string) {
    var s := Lower(scheme);
    s == "http" || s == "https"
  }

  /** The verdict on a URL: go ahead, or stop after printing one message. */
  datatype Verdict = Accept | Reject(message: string)

  /**
   * A URL passes exactly when it parses and its lower-cased scheme is `http`
   * or `https`; a parse error is rejected with its kind's message and a
   * refused scheme with the base-protocol message.
   */
  function Check(parsed: UrlParse): (v: Verdict)
    ensures v.Accept? <==> parsed.Ok? && AllowedScheme(parsed.value)
    ensures parsed.Err? ==> v == Reject(ErrorMessage(parsed.error))
    ensures parsed.Ok? && !AllowedScheme(parsed.value) ==> v == Reject(BaseProtocolMessage)
  {
    match parsed
    case Err(e) => Reject(ErrorMessage(e))
    case Ok(scheme) => if AllowedScheme(scheme) then Accept else Reject(BaseProtocolMessage)
  }

  /** The scheme check ignores ASCII case: `HTTP` and `Https` pass. */
  lemma SchemeCaseIgnored()
    ensures Check(Ok("HTTP")) == Accept && Check(Ok("Https")) == Accept
  {
    var r := Lower("HTTP");
    assert r[0] == 'h' && r[1] == 't' && r[2] == 't' && r[3] == 'p';
    var q := Lower("Https");
    assert q[0] == 'h' && q[1] == 't' && q[2] == 't' && q[3] == 'p' && q[4] == 's';
  }

  /** Other schemes, even ones that start like `http`, are refused. */
  lemma OtherSchemesRefused()
    ensures Check(Ok("ftp")) == Reject(BaseProtocolMessage)
    ensures Check(Ok("httpx")) == Reject(BaseProtocolMessage)
  {
    LowerKeeps("httpx");
  }
}
