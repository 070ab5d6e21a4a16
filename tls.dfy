/** The configuration names of the TLS client-authentication modes. */
module Tls {
  /** The client-authentication policies of the TLS library. */
  datatype ClientAuthType =
    | NoClientCert
    | RequestClientCert
    | RequireAnyClientCert
    | VerifyClientCertIfGiven
    | RequireAndVerifyClientCert

  /** The mode a configuration name selects; an unknown name selects no client
      certificate, so the parse never fails. Note that "verify_client_cert"
      verifies a certificate only if the client gives one. */
  function ParseClientAuth(s: string): (r: ClientAuthType)
    ensures s == "no_client_cert" ==> r == NoClientCert
    ensures s == "request_client_cert" ==> r == RequestClientCert
    ensures s == "require_any_client_cert" ==> r == RequireAnyClientCert
    ensures s == "verify_client_cert" ==> r == VerifyClientCertIfGiven
    ensures s == "require_verify_client_cert" ==> r == RequireAndVerifyClientCert
    ensures (s != "request_client_cert" && s != "require_any_client_cert" && s != "verify_client_cert"
             && s != "require_verify_client_cert") ==> r == NoClientCert
  {
    match s
    case "no_client_cert" => NoClientCert
    case "request_client_cert" => RequestClientCert
    case "require_any_client_cert" => RequireAnyClientCert
    case "verify_client_cert" => VerifyClientCertIfGiven
    case "require_verify_client_cert" => RequireAndVerifyClientCert
    case _ => NoClientCert
  }

  /** The configuration name of each mode. */
  function ConfigName(mode: ClientAuthType): string {
    match mode
    case NoClientCert => "no_client_cert"
    case RequestClientCert => "request_client_cert"
    case RequireAnyClientCert => "require_any_client_cert"
    case VerifyClientCertIfGiven => "verify_client_cert"
    case RequireAndVerifyClientCert => "require_verify_client_cert"
  }

  /** Every mode can be configured by its name, and a name that selects a mode
      other than the default is that mode's name. */
  lemma ParseClientAuthRoundTrip(mode: ClientAuthType, s: string)
    ensures ParseClientAuth(ConfigName(mode)) == mode
    ensures ParseClientAuth(s) != NoClientCert ==> ConfigName(ParseClientAuth(s)) == s
  {
  }
}
