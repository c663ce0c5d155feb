// Resolving an import's token into an activation credential. The token is
// empty, a URL (fetched over HTTP), or an inline encoded credential. The
// network fetch and the signature-checking decoder are not modelled: they
// are passed in as functions, so every outcome they can produce is covered.

module Tokens {
  import opened Claims

  datatype Option<T> = None | Some(value: T)

  /** What an HTTP GET of a token URL produced. */
  datatype FetchOutcome =
    | Body(bytes: string)      // a success status and the response body
    | BadStatus(code: int)     // a non-success status
    | TransportError           // unreachable host, timeout or malformed URL

  /** The tagged outcome of resolving a token. */
  datatype TokenOutcome =
    | NoToken
    | Unresolvable             // the URL could not be fetched
    | NotACredential           // the bytes are not a validly signed activation
    | Decoded(act: Activation)

  predicate IsLetter(c: char)
  {
    'a' <= c <= 'z' || 'A' <= c <= 'Z'
  }

  predicate IsSchemeChar(c: char)
  {
    IsLetter(c) || '0' <= c <= '9' || c == '+' || c == '-' || c == '.'
  }

  /** The rest of a URL scheme: scheme characters up to a ':'. */
  predicate SchemeRest(s: string)
  {
    s != [] && (s[0] == ':' || (IsSchemeChar(s[0]) && SchemeRest(s[1..])))
  }

  /** The token starts with a URL scheme ("http:", "foo:"), so it is fetched. */
  predicate HasScheme(token: string)
  {
    token != [] && IsLetter(token[0]) && SchemeRest(token[1..])
  }

  /**
   * Classifies the token and materialises the credential: an empty token
   * is no token; a URL is fetched and its body decoded; anything else is
   * decoded as an inline credential.
   */
  function Resolve(token: string, fetch: string -> FetchOutcome, decode: string -> Option<Activation>): (r: TokenOutcome)
    ensures r == NoToken <==> token == ""
    ensures r == Unresolvable <==> token != "" && HasScheme(token) && !fetch(token).Body?
    ensures r == NotACredential <==> token != "" &&
                                     if HasScheme(token) then fetch(token).Body? && decode(fetch(token).bytes).None?
                                     else decode(token).None?
    ensures r.Decoded? ==> token != "" &&
                           if HasScheme(token) then fetch(token).Body? && decode(fetch(token).bytes) == Some(r.act)
                           else decode(token) == Some(r.act)
  {
    if token == "" then NoToken
    else if HasScheme(token) then
      match fetch(token)
      case Body(bytes) =>
        (match decode(bytes)
         case Some(act) => Decoded(act)
         case None => NotACredential)
      case _ => Unresolvable
    else
      match decode(token)
      case Some(act) => Decoded(act)
      case None => NotACredential
  }

  /** The malformed inline token of the import tests is not URL-shaped. */
  lemma InlineTokenShape()
    ensures !HasScheme("bad token")
  {
    var t := "bad token";
    assert t[0] == 'b' && t[1..][0] == 'a' && t[1..][1..][0] == 'd' && t[1..][1..][1..][0] == ' ';
  }

  /** The malformed URL of the import tests with an unsupported scheme is URL-shaped. */
  lemma UnsupportedSchemeShape()
    ensures HasScheme("foo://bad token url")
  {
    var u := "foo://bad token url";
    assert u[0] == 'f' && u[1..][0] == 'o' && u[1..][1..][0] == 'o' && u[1..][1..][1..][0] == ':';
  }

  /** The malformed HTTP URL of the import tests is URL-shaped, so it is fetched. */
  lemma BadHttpUrlShape()
    ensures HasScheme("http://Bad URL")
  {
    var v := "http://Bad URL";
    assert v[0] == 'h' && v[1..][0] == 't' && v[1..][1..][0] == 't' && v[1..][1..][1..][0] == 'p';
    assert v[1..][1..][1..][1..][0] == ':';
  }
}
