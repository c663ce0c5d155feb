// The issue sink shared by every validation call: an append-only, ordered
// log of issues, each tagged Warning (advisory) or Blocking.

module Results {

  datatype Severity = Warning | Blocking

  /** What an issue is about; the human-readable wording is not modelled. */
  datatype IssueKind =
    | MissingAccount        // the import names no exporting account
    | InvalidType           // the import type is neither Stream nor Service
    | ShareOnStream         // Share is only meaningful for a Service import
    | TokenUnresolvable     // the token URL could not be fetched
    | TokenInvalid          // the token bytes are not a valid activation
    | RecipientMismatch     // the activation was issued to another account
    | IssuerMismatch        // the activation was not issued by the exporter
    | DuplicateServiceTo    // two Service imports are mounted at the same To

  datatype Issue = Issue(Kind: IssueKind, Severity: Severity)

  /** Some issue in the log is blocking. */
  predicate HasBlocking(issues: seq<Issue>)
  {
    exists k :: 0 <= k < |issues| && issues[k].Severity == Blocking
  }

  /** Number of blocking issues: an independent reference for HasBlocking. */
  function CountBlocking(issues: seq<Issue>): (n: nat)
  {
    if issues == [] then 0
    else (if issues[0].Severity == Blocking then 1 else 0) + CountBlocking(issues[1..])
  }

  lemma {:induction false} BlockingIffCounted(issues: seq<Issue>)
    ensures HasBlocking(issues) <==> CountBlocking(issues) > 0
  {
    if issues != [] {
      BlockingIffCounted(issues[1..]);
      if issues[0].Severity != Blocking && HasBlocking(issues) {
        var k :| 0 <= k < |issues| && issues[k].Severity == Blocking;
        assert issues[1..][k - 1].Severity == Blocking;
      }
      if HasBlocking(issues[1..]) {
        var k :| 0 <= k < |issues[1..]| && issues[1..][k].Severity == Blocking;
        assert issues[k + 1].Severity == Blocking;
      }
    }
  }

  lemma SingleBlocking(x: Issue)
    ensures HasBlocking([x]) <==> x.Severity == Blocking
    ensures !HasBlocking([])
  {
    if x.Severity == Blocking {
      assert [x][0].Severity == Blocking;
    }
  }

  /** Appending logs: blocking exactly when either part is. */
  lemma BlockingOfConcat(a: seq<Issue>, b: seq<Issue>)
    ensures HasBlocking(a + b) <==> HasBlocking(a) || HasBlocking(b)
  {
    if HasBlocking(a + b) {
      var k :| 0 <= k < |a + b| && (a + b)[k].Severity == Blocking;
      if k >= |a| {
        assert b[k - |a|].Severity == Blocking;
      }
    }
    if HasBlocking(a) {
      var k :| 0 <= k < |a| && a[k].Severity == Blocking;
      assert (a + b)[k].Severity == Blocking;
    }
    if HasBlocking(b) {
      var k :| 0 <= k < |b| && b[k].Severity == Blocking;
      assert (a + b)[|a| + k].Severity == Blocking;
    }
  }

  /** Regrouping four appended logs. */
  lemma Regroup(a: seq<Issue>, b: seq<Issue>, c: seq<Issue>, d: seq<Issue>)
    ensures a + b + c + d == a + (b + c + d)
    ensures a + b + c + d == a + (b + (c + d))
  {
  }

  class ValidationResults {
    var Issues: seq<Issue>

    /** CreateValidationResults: a fresh, empty sink. */
    constructor ()
      ensures Issues == []
    {
      Issues := [];
    }

    /** Records one issue at the end of the log. */
    method Add(issue: Issue)
      modifies this
      ensures Issues == old(Issues) + [issue]
    {
      Issues := Issues + [issue];
    }

    function IsEmpty(): (r: bool)
      reads this
      ensures r <==> |Issues| == 0
      ensures r ==> !HasBlocking(Issues)
    {
      |Issues| == 0
    }

    /**
     * Scans the log for a blocking issue. The strict flag never turns a
     * warning into a blocking issue.
     */
    method IsBlocking(strict: bool) returns (r: bool)
      ensures r <==> HasBlocking(Issues)
      ensures r <==> CountBlocking(Issues) > 0
    {
      BlockingIffCounted(Issues);
      r := false;
      var k := 0;
      while k < |Issues|
        invariant 0 <= k <= |Issues|
        invariant r <==> exists j :: 0 <= j < k && Issues[j].Severity == Blocking
      {
        if Issues[k].Severity == Blocking {
          r := true;
        }
        k := k + 1;
      }
    }
  }
}
