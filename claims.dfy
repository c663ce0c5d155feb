// The records validation works on: an import declared by an account, and
// the activation credential an exporter signs to back it.

module Claims {

  datatype ImportType = Unknown | Stream | Service

  /**
   * A request to mount another account's subject space locally. Token is
   * empty, an inline encoded activation, or a URL that serves one.
   */
  datatype Import = Import(
    Subject: string,
    Account: string,
    To: string,
    Type: ImportType,
    Token: string,
    Share: bool)

  /**
   * The decoded payload of an activation token. Subject is the recipient
   * account; IssuerAccount is empty unless a signing key issued it on an
   * account's behalf. Expires is a Unix time in seconds.
   */
  datatype Activation = Activation(
    Subject: string,
    Issuer: string,
    IssuerAccount: string,
    ImportSubject: string,
    ImportType: ImportType,
    Expires: int)

  /** The account an activation speaks for: the delegating account if named, else the signer. */
  function ExportingAccount(act: Activation): (account: string)
  {
    if act.IssuerAccount != "" then act.IssuerAccount else act.Issuer
  }
}
