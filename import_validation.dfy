// Validation of one import against the account that includes it. Every
// check contributes at most one issue, and none stops the others, except
// that token checks only run when a token is given, and credential checks
// only run once the token decoded.

module ImportValidation {
  import opened Claims
  import opened Tokens
  import opened Results

  predicate ValidType(t: ImportType)
  {
    t == Stream || t == Service
  }

  /** Issues about the import's own fields, whatever its token holds. */
  function StructuralIssues(imp: Import): (issues: seq<Issue>)
  {
    (if imp.Account == "" then [Issue(MissingAccount, Warning)] else [])
    + (if !ValidType(imp.Type) then [Issue(InvalidType, Blocking)] else [])
    + (if imp.Share && imp.Type == Stream then [Issue(ShareOnStream, Blocking)] else [])
  }

  /**
   * Issues about a decoded activation. An empty self account asks for
   * structural validation only, so the credential is not compared. The
   * activation's Expires, ImportSubject and ImportType raise no issue.
   */
  function CredentialIssues(imp: Import, self: string, act: Activation): (issues: seq<Issue>)
  {
    if self == "" then []
    else
      (if act.Subject != self then [Issue(RecipientMismatch, Blocking)] else [])
      + (if ExportingAccount(act) != imp.Account then [Issue(IssuerMismatch, Blocking)] else [])
  }

  /** The advisory issue for a token that did not resolve to an activation. */
  function ResolutionIssues(tok: TokenOutcome): (issues: seq<Issue>)
  {
    match tok
    case Unresolvable => [Issue(TokenUnresolvable, Warning)]
    case NotACredential => [Issue(TokenInvalid, Warning)]
    case _ => []
  }

  function TokenIssues(imp: Import, self: string, tok: TokenOutcome): (issues: seq<Issue>)
  {
    ResolutionIssues(tok) + (if tok.Decoded? then CredentialIssues(imp, self, tok.act) else [])
  }

  /** Everything validating one import reports, in order. */
  function ImportIssues(imp: Import, self: string, tok: TokenOutcome): (issues: seq<Issue>)
  {
    StructuralIssues(imp) + TokenIssues(imp, self, tok)
  }

  /** The import's fields are consistent on their own. */
  predicate StructurallySound(imp: Import)
  {
    imp.Account != "" && ValidType(imp.Type) && !(imp.Share && imp.Type == Stream)
  }

  /** The activation backs the import for the account `self`. */
  predicate CredentialMatches(imp: Import, self: string, act: Activation)
  {
    self == "" || (act.Subject == self && ExportingAccount(act) == imp.Account)
  }

  /** A structural or credential violation, as opposed to an advisory problem. */
  predicate Violation(imp: Import, self: string, tok: TokenOutcome)
  {
    !ValidType(imp.Type) || (imp.Share && imp.Type == Stream)
    || (tok.Decoded? && !CredentialMatches(imp, self, tok.act))
  }

  /**
   * Import.Validate: appends the import's issues to the shared results,
   * resolving its token through `fetch` and `decode`.
   */
  method Validate(imp: Import, self: string, fetch: string -> FetchOutcome,
                  decode: string -> Option<Activation>, vr: ValidationResults)
    modifies vr
    ensures vr.Issues == old(vr.Issues) + ImportIssues(imp, self, Resolve(imp.Token, fetch, decode))
  {
    ghost var start := vr.Issues;
    ghost var tok := Resolve(imp.Token, fetch, decode);
    CheckFields(imp, vr);
    var act := ResolveToken(imp, fetch, decode, vr);
    ghost var resolved := vr.Issues;
    if act.Some? {
      CheckActivation(imp, self, act.value, vr);
    }
    ghost var credential := if tok.Decoded? then CredentialIssues(imp, self, tok.act) else [];
    assert vr.Issues == resolved + credential;
    Regroup(start, StructuralIssues(imp), ResolutionIssues(tok), credential);
  }

  /** Reports a missing exporter, an invalid type and sharing on a stream. */
  method CheckFields(imp: Import, vr: ValidationResults)
    modifies vr
    ensures vr.Issues == old(vr.Issues) + StructuralIssues(imp)
  {
    ghost var start := vr.Issues;
    if imp.Account == "" {
      vr.Add(Issue(MissingAccount, Warning));
    }
    ghost var afterAccount := vr.Issues;
    if imp.Type != Stream && imp.Type != Service {
      vr.Add(Issue(InvalidType, Blocking));
    }
    ghost var afterType := vr.Issues;
    if imp.Share && imp.Type == Stream {
      vr.Add(Issue(ShareOnStream, Blocking));
    }
    assert afterAccount == start + (if imp.Account == "" then [Issue(MissingAccount, Warning)] else []);
    assert afterType == afterAccount + (if !ValidType(imp.Type) then [Issue(InvalidType, Blocking)] else []);
  }

  /**
   * Fetches or decodes the token, reporting a token that cannot be
   * resolved; returns the activation when one decoded.
   */
  method ResolveToken(imp: Import, fetch: string -> FetchOutcome,
                      decode: string -> Option<Activation>, vr: ValidationResults)
    returns (act: Option<Activation>)
    modifies vr
    ensures var tok := Resolve(imp.Token, fetch, decode);
            (act.Some? <==> tok.Decoded?) && (act.Some? ==> act.value == tok.act) &&
            vr.Issues == old(vr.Issues) + ResolutionIssues(tok)
  {
    act := None;
    if imp.Token != "" {
      if HasScheme(imp.Token) {
        match fetch(imp.Token)
        case Body(bytes) =>
          act := decode(bytes);
          if act.None? {
            vr.Add(Issue(TokenInvalid, Warning));
          }
        case _ =>
          vr.Add(Issue(TokenUnresolvable, Warning));
      } else {
        act := decode(imp.Token);
        if act.None? {
          vr.Add(Issue(TokenInvalid, Warning));
        }
      }
    }
  }

  /** Compares a decoded activation with the import and the including account. */
  method CheckActivation(imp: Import, self: string, act: Activation, vr: ValidationResults)
    modifies vr
    ensures vr.Issues == old(vr.Issues) + CredentialIssues(imp, self, act)
  {
    if self != "" {
      ghost var a0 := vr.Issues;
      if act.Subject != self {
        vr.Add(Issue(RecipientMismatch, Blocking));
      }
      ghost var a1 := vr.Issues;
      if ExportingAccount(act) != imp.Account {
        vr.Add(Issue(IssuerMismatch, Blocking));
      }
      assert a1 == a0 + (if act.Subject != self then [Issue(RecipientMismatch, Blocking)] else []);
    }
  }

  /** Empty results exactly when the import is sound and its token, if any, backs it. */
  lemma CleanIff(imp: Import, self: string, tok: TokenOutcome)
    ensures ImportIssues(imp, self, tok) == [] <==>
              StructurallySound(imp) && (tok.NoToken? || (tok.Decoded? && CredentialMatches(imp, self, tok.act)))
  {
  }

  /** Blocking exactly when a structural or credential violation is present. */
  lemma BlockingIff(imp: Import, self: string, tok: TokenOutcome)
    ensures HasBlocking(ImportIssues(imp, self, tok)) <==> Violation(imp, self, tok)
  {
    SingleBlocking(Issue(MissingAccount, Warning));
    SingleBlocking(Issue(InvalidType, Blocking));
    SingleBlocking(Issue(ShareOnStream, Blocking));
    SingleBlocking(Issue(TokenUnresolvable, Warning));
    SingleBlocking(Issue(TokenInvalid, Warning));
    SingleBlocking(Issue(RecipientMismatch, Blocking));
    SingleBlocking(Issue(IssuerMismatch, Blocking));
    var a := if imp.Account == "" then [Issue(MissingAccount, Warning)] else [];
    var b := if !ValidType(imp.Type) then [Issue(InvalidType, Blocking)] else [];
    var c := if imp.Share && imp.Type == Stream then [Issue(ShareOnStream, Blocking)] else [];
    BlockingOfConcat(a, b);
    BlockingOfConcat(a + b, c);
    BlockingOfConcat(StructuralIssues(imp), TokenIssues(imp, self, tok));
    var credential := if tok.Decoded? then CredentialIssues(imp, self, tok.act) else [];
    BlockingOfConcat(ResolutionIssues(tok), credential);
    if tok.Decoded? && self != "" {
      var act := tok.act;
      var r := if act.Subject != self then [Issue(RecipientMismatch, Blocking)] else [];
      var i := if ExportingAccount(act) != imp.Account then [Issue(IssuerMismatch, Blocking)] else [];
      BlockingOfConcat(r, i);
    }
  }

  /** Neither the subject nor the local mount point affects validation, wildcards included. */
  lemma SubjectAndToIgnored(imp: Import, self: string, tok: TokenOutcome, subject: string, to: string)
    ensures ImportIssues(imp.(Subject := subject, To := to), self, tok) == ImportIssues(imp, self, tok)
  {
  }

  /** A sound import without a token is valid as it stands. */
  lemma NoTokenAccepted(imp: Import, self: string, fetch: string -> FetchOutcome, decode: string -> Option<Activation>)
    requires imp.Account != "" && ValidType(imp.Type) && !imp.Share && imp.Token == ""
    ensures ImportIssues(imp, self, Resolve(imp.Token, fetch, decode)) == []
  {
    CleanIff(imp, self, Resolve(imp.Token, fetch, decode));
  }

  /** An import of unknown type is always reported, and blocks. */
  lemma UnknownTypeBlocks(imp: Import, self: string, tok: TokenOutcome)
    requires imp.Type == Unknown
    ensures ImportIssues(imp, self, tok) != []
    ensures HasBlocking(ImportIssues(imp, self, tok))
  {
    BlockingIff(imp, self, tok);
  }

  /** Share is one blocking issue on a stream import and none on a service import. */
  lemma ShareOnlyForServices(imp: Import, self: string)
    requires imp.Account != "" && imp.Share
    ensures var issues := ImportIssues(imp.(Type := Stream), self, NoToken);
            |issues| == 1 && HasBlocking(issues)
    ensures ImportIssues(imp.(Type := Service), self, NoToken) == []
  {
    BlockingIff(imp.(Type := Stream), self, NoToken);
  }

  /** A missing exporter alone is exactly one issue, and only a warning. */
  lemma MissingAccountWarns(imp: Import, self: string)
    requires imp.Account == "" && ValidType(imp.Type) && !imp.Share
    ensures var issues := ImportIssues(imp, self, NoToken);
            |issues| == 1 && !HasBlocking(issues)
  {
    BlockingIff(imp, self, NoToken);
  }

  /**
   * A token that cannot be fetched or is not a credential is reported, but
   * never blocks: the results block only if the import's fields do.
   */
  lemma UnresolvedTokenWarns(imp: Import, self: string, tok: TokenOutcome)
    requires tok == Unresolvable || tok == NotACredential
    ensures ImportIssues(imp, self, tok) != []
    ensures HasBlocking(ImportIssues(imp, self, tok)) <==> !ValidType(imp.Type) || (imp.Share && imp.Type == Stream)
    ensures StructurallySound(imp) ==> |ImportIssues(imp, self, tok)| == 1
  {
    BlockingIff(imp, self, tok);
  }

  /**
   * A URL token: a body that decodes to a matching activation gives empty
   * results; a failed fetch, a non-success status or a body that is not a
   * credential give non-empty results that do not block.
   */
  lemma UrlTokenOutcomes(imp: Import, self: string, fetch: string -> FetchOutcome, decode: string -> Option<Activation>)
    requires StructurallySound(imp) && imp.Token != "" && HasScheme(imp.Token)
    ensures var issues := ImportIssues(imp, self, Resolve(imp.Token, fetch, decode));
            var got := fetch(imp.Token);
            (got.Body? && decode(got.bytes).Some? && CredentialMatches(imp, self, decode(got.bytes).value) ==> issues == [])
            && (!got.Body? || decode(got.bytes).None? ==> issues != [] && !HasBlocking(issues))
  {
    var tok := Resolve(imp.Token, fetch, decode);
    BlockingIff(imp, self, tok);
    CleanIff(imp, self, tok);
  }

  /**
   * An activation issued to this account by the exporting account itself,
   * or by a signing key acting for it, gives empty results.
   */
  lemma MatchingActivationAccepted(imp: Import, self: string, act: Activation)
    requires StructurallySound(imp) && self != ""
    requires act.Subject == self
    requires (act.IssuerAccount == "" && act.Issuer == imp.Account) || act.IssuerAccount == imp.Account
    ensures ImportIssues(imp, self, Decoded(act)) == []
  {
    CleanIff(imp, self, Decoded(act));
  }

  /** Neither the expiry, the granted subject nor the granted type of an activation raises an issue. */
  lemma ActivationDetailsIgnored(imp: Import, self: string, act: Activation, expires: int, grant: string,
                                 t: ImportType)
    ensures ImportIssues(imp, self, Decoded(act.(Expires := expires, ImportSubject := grant, ImportType := t)))
            == ImportIssues(imp, self, Decoded(act))
  {
  }

  /**
   * A Service import backed by an activation the exporter signed for a
   * Stream, issued to this account, gives empty results; so does the same
   * import without a token, as a Stream or as a Service.
   */
  lemma StreamActivationOnServiceImport(imp: Import, self: string, act: Activation)
    requires imp.Account != "" && !imp.Share && self != ""
    requires act.Subject == self && act.Issuer == imp.Account && act.IssuerAccount == "" && act.ImportType == Stream
    ensures ImportIssues(imp.(Type := Stream), "", NoToken) == []
    ensures ImportIssues(imp.(Type := Service), "", NoToken) == []
    ensures ImportIssues(imp.(Type := Service), self, Decoded(act)) == []
  {
    MatchingActivationAccepted(imp.(Type := Service), self, act);
  }

  /** An activation issued to another account blocks. */
  lemma RecipientMismatchBlocks(imp: Import, self: string, act: Activation)
    requires self != "" && act.Subject != self
    ensures HasBlocking(ImportIssues(imp, self, Decoded(act)))
  {
    BlockingIff(imp, self, Decoded(act));
  }

  /**
   * An activation the exporting account did not issue, neither directly
   * nor through a signing key acting for it, is reported and blocks.
   */
  lemma IssuerMismatchReported(imp: Import, self: string, act: Activation)
    requires self != ""
    requires if act.IssuerAccount == "" then act.Issuer != imp.Account else act.IssuerAccount != imp.Account
    ensures ImportIssues(imp, self, Decoded(act)) != []
    ensures HasBlocking(ImportIssues(imp, self, Decoded(act)))
  {
    BlockingIff(imp, self, Decoded(act));
  }
}
