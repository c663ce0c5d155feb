// Clients of the imperative API that replay the import tests: each builds
// the objects a test builds and returns what the test inspects; the
// postconditions are the test's expectations.

module ImportScenarios {
  import opened Claims
  import opened Tokens
  import opened Results
  import opened ImportValidation
  import opened Subjects
  import opened ImportSet

  /** A stream import without an exporter: one issue, and it does not block. */
  method MissingAccountScenario(fetch: string -> FetchOutcome, decode: string -> Option<Activation>)
    returns (count: nat, blocking: bool)
    ensures count == 1 && !blocking
  {
    var imp := Import("foo", "", "bar", Stream, "", false);
    var vr := new ValidationResults();
    ImportValidation.Validate(imp, "", fetch, decode, vr);
    MissingAccountWarns(imp, "");
    count := |vr.Issues|;
    blocking := vr.IsBlocking(true);
  }

  /**
   * An account with one Service import at "foo.bar" does not block; adding
   * a second Service import at "foo.bar" does.
   */
  method ServiceToCollisionScenario(self: string, exporter: string, fetch: string -> FetchOutcome,
                                    decode: string -> Option<Activation>)
    returns (before: bool, after: bool)
    requires exporter != ""
    ensures !before && after
  {
    var first := Import("one.two", exporter, "foo.bar", Service, "", false);
    var second := Import("two.three", exporter, "foo.bar", Service, "", false);
    var imports := new Imports();
    imports.Add([first]);
    var vr := new ValidationResults();
    imports.Validate(self, fetch, decode, vr);
    NoTokenAccepted(first, self, fetch, decode);
    assert imports.Items == [first];
    assert SetIssues([first], self, fetch, decode) == [] by {
      SetIssuesAppend([], first, self, fetch, decode);
    }
    before := vr.IsBlocking(true);
    imports.Add([second]);
    vr := new ValidationResults();
    imports.Validate(self, fetch, decode, vr);
    assert imports.Items[0] == first && imports.Items[1] == second;
    DuplicateServiceToBlocks(imports.Items, self, fetch, decode);
    after := vr.IsBlocking(true);
  }

  /** Adding "x", "z", "y" keeps that order; sorting gives "x", "y", "z". */
  method SortingScenario(pk: string) returns (first: string, sorted: seq<string>)
    ensures first == "x"
    ensures sorted == ["x", "y", "z"]
  {
    var imports := new Imports();
    imports.Add([Import("x", pk, "", Service, "", false)]);
    imports.Add([Import("z", pk, "", Service, "", false)]);
    imports.Add([Import("y", pk, "", Service, "", false)]);
    first := imports.Items[0].Subject;
    imports.Sort();
    SortExample(pk, imports.Items);
    sorted := [imports.Items[0].Subject, imports.Items[1].Subject, imports.Items[2].Subject];
  }

  /**
   * The sorting test's failure condition as written: it fails only when all
   * three positions are wrong at once.
   */
  predicate SortCheckFailsAsWritten(subjects: seq<string>)
    requires |subjects| == 3
  {
    subjects[0] != "x" && subjects[1] != "y" && subjects[2] != "z"
  }

  /** The insertion order "x", "z", "y" is unsorted, yet passes the check as written. */
  lemma SortCheckMissesUnsorted(pk: string)
    ensures var items := [Import("x", pk, "", Service, "", false), Import("z", pk, "", Service, "", false),
                          Import("y", pk, "", Service, "", false)];
            !SortedBySubject(items) && !SortCheckFailsAsWritten([items[0].Subject, items[1].Subject, items[2].Subject])
  {
    var items := [Import("x", pk, "", Service, "", false), Import("z", pk, "", Service, "", false),
                  Import("y", pk, "", Service, "", false)];
    assert !LexLe(items[1].Subject, items[2].Subject);
  }

  /** The intended check: it fails when any position is wrong. */
  predicate SortCheckFails(subjects: seq<string>)
    requires |subjects| == 3
  {
    subjects[0] != "x" || subjects[1] != "y" || subjects[2] != "z"
  }

  /** The intended check passes exactly on the sorted order, which sorting produces. */
  lemma SortCheckExact(pk: string, subjects: seq<string>, sorted: seq<Import>)
    requires |subjects| == 3
    requires var x, y, z := Import("x", pk, "", Service, "", false), Import("y", pk, "", Service, "", false),
                            Import("z", pk, "", Service, "", false);
             SortedBySubject(sorted) && multiset(sorted) == multiset([x, z, y])
    ensures !SortCheckFails(subjects) <==> subjects == ["x", "y", "z"]
    ensures |sorted| == 3 && !SortCheckFails([sorted[0].Subject, sorted[1].Subject, sorted[2].Subject])
  {
    SortExample(pk, sorted);
  }
}
