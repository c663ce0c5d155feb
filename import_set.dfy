// An account's ordered collection of imports: appending keeps insertion
// order, validation checks every import and forbids two Service imports
// mounted at the same To, and sorting orders the imports by Subject.

module ImportSet {
  import opened Claims
  import opened Tokens
  import opened Results
  import opened Subjects
  import opened ImportValidation

  /** The To values of the Service imports in a collection. */
  function ServiceTos(items: seq<Import>): (tos: set<string>)
  {
    if items == [] then {}
    else
      var last := items[|items| - 1];
      ServiceTos(items[..|items| - 1]) + (if last.Type == Service then {last.To} else {})
  }

  /** The collision issue for an import, given the To values of earlier Service imports. */
  function CollisionIssues(imp: Import, seen: set<string>): (issues: seq<Issue>)
  {
    if imp.Type == Service && imp.To in seen then [Issue(DuplicateServiceTo, Blocking)] else []
  }

  /**
   * Everything validating the collection reports: for each import in
   * order, a collision with an earlier Service import, then its own issues.
   */
  function SetIssues(items: seq<Import>, self: string, fetch: string -> FetchOutcome,
                     decode: string -> Option<Activation>): (issues: seq<Issue>)
  {
    if items == [] then []
    else
      var init, last := items[..|items| - 1], items[|items| - 1];
      SetIssues(init, self, fetch, decode) + CollisionIssues(last, ServiceTos(init))
      + ImportIssues(last, self, Resolve(last.Token, fetch, decode))
  }

  /** Two Service imports share a To. */
  predicate HasDuplicateServiceTo(items: seq<Import>)
  {
    exists i, j :: 0 <= i < j < |items| && items[i].Type == Service && items[j].Type == Service
                   && items[i].To == items[j].To
  }

  /** Some issue of the given kind was reported. */
  predicate Reports(issues: seq<Issue>, kind: IssueKind)
  {
    exists k :: 0 <= k < |issues| && issues[k].Kind == kind
  }

  /** Imports sorted by Subject. */
  predicate SortedBySubject(items: seq<Import>)
  {
    forall i, j :: 0 <= i < j < |items| ==> LexLe(items[i].Subject, items[j].Subject)
  }

  predicate DistinctSubjects(items: seq<Import>)
  {
    forall i, j :: 0 <= i < j < |items| ==> items[i].Subject != items[j].Subject
  }

  lemma {:induction false} ServiceTosMembers(items: seq<Import>, to: string)
    ensures to in ServiceTos(items) <==>
            exists k :: 0 <= k < |items| && items[k].Type == Service && items[k].To == to
  {
    if items != [] {
      var init := items[..|items| - 1];
      ServiceTosMembers(init, to);
      if exists k :: 0 <= k < |init| && init[k].Type == Service && init[k].To == to {
        var k :| 0 <= k < |init| && init[k].Type == Service && init[k].To == to;
        assert items[k] == init[k];
      }
      if exists k :: 0 <= k < |items| && items[k].Type == Service && items[k].To == to {
        var k :| 0 <= k < |items| && items[k].Type == Service && items[k].To == to;
        if k < |init| {
          assert init[k] == items[k];
        }
      }
    }
  }

  lemma ReportsConcat(a: seq<Issue>, b: seq<Issue>, kind: IssueKind)
    ensures Reports(a + b, kind) <==> Reports(a, kind) || Reports(b, kind)
  {
    if Reports(a + b, kind) {
      var k :| 0 <= k < |a + b| && (a + b)[k].Kind == kind;
      if k >= |a| {
        assert b[k - |a|].Kind == kind;
      }
    }
    if Reports(a, kind) {
      var k :| 0 <= k < |a| && a[k].Kind == kind;
      assert (a + b)[k].Kind == kind;
    }
    if Reports(b, kind) {
      var k :| 0 <= k < |b| && b[k].Kind == kind;
      assert (a + b)[|a| + k].Kind == kind;
    }
  }

  /** Validating a single import never reports a collision. */
  lemma ImportNeverCollides(imp: Import, self: string, tok: TokenOutcome)
    ensures !Reports(ImportIssues(imp, self, tok), DuplicateServiceTo)
  {
  }

  /** A duplicate in a collection extended by one import is old, or involves the new import. */
  lemma DuplicateStepNew(items: seq<Import>)
    requires items != []
    ensures var init, last := items[..|items| - 1], items[|items| - 1];
            HasDuplicateServiceTo(items) ==>
            HasDuplicateServiceTo(init) || (last.Type == Service && last.To in ServiceTos(init))
  {
    var init, last := items[..|items| - 1], items[|items| - 1];
    var n := |items| - 1;
    if HasDuplicateServiceTo(items) {
      var i, j :| 0 <= i < j < |items| && items[i].Type == Service && items[j].Type == Service
                  && items[i].To == items[j].To;
      if j < n {
        assert init[i] == items[i] && init[j] == items[j];
      } else {
        assert init[i] == items[i];
        ServiceTosMembers(init, last.To);
      }
    }
  }

  /** Extending a collection keeps its duplicates and adds one for a repeated Service To. */
  lemma DuplicateStepOld(items: seq<Import>)
    requires items != []
    ensures var init, last := items[..|items| - 1], items[|items| - 1];
            HasDuplicateServiceTo(init) || (last.Type == Service && last.To in ServiceTos(init)) ==>
            HasDuplicateServiceTo(items)
  {
    var init, last := items[..|items| - 1], items[|items| - 1];
    var n := |items| - 1;
    if HasDuplicateServiceTo(init) {
      var i, j :| 0 <= i < j < |init| && init[i].Type == Service && init[j].Type == Service
                  && init[i].To == init[j].To;
      assert items[i] == init[i] && items[j] == init[j];
    } else if last.Type == Service && last.To in ServiceTos(init) {
      ServiceTosMembers(init, last.To);
      var k :| 0 <= k < |init| && init[k].Type == Service && init[k].To == last.To;
      assert items[k] == init[k] && items[n] == last;
    }
  }

  /** Appending an import adds a duplicate exactly when it is a Service import whose To was seen. */
  lemma DuplicateStep(items: seq<Import>)
    requires items != []
    ensures var init, last := items[..|items| - 1], items[|items| - 1];
            HasDuplicateServiceTo(items) <==>
            HasDuplicateServiceTo(init) || (last.Type == Service && last.To in ServiceTos(init))
  {
    DuplicateStepNew(items);
    DuplicateStepOld(items);
  }

  /** The issues of a collection extended by one import. */
  lemma SetIssuesStep(items: seq<Import>, self: string, fetch: string -> FetchOutcome,
                      decode: string -> Option<Activation>)
    requires items != []
    ensures var init, last := items[..|items| - 1], items[|items| - 1];
            SetIssues(items, self, fetch, decode)
            == SetIssues(init, self, fetch, decode) + CollisionIssues(last, ServiceTos(init))
               + ImportIssues(last, self, Resolve(last.Token, fetch, decode))
  {
  }

  /** SetIssuesStep, stated for a collection written as a prefix and one more import. */
  lemma SetIssuesAppend(items: seq<Import>, imp: Import, self: string, fetch: string -> FetchOutcome,
                        decode: string -> Option<Activation>)
    ensures SetIssues(items + [imp], self, fetch, decode)
            == SetIssues(items, self, fetch, decode) + CollisionIssues(imp, ServiceTos(items))
               + ImportIssues(imp, self, Resolve(imp.Token, fetch, decode))
    ensures ServiceTos(items + [imp]) == ServiceTos(items) + (if imp.Type == Service then {imp.To} else {})
  {
    assert (items + [imp])[..|items|] == items;
  }

  /** One step of validating a collection: the log grows by the next import's issues. */
  lemma SetIssuesPrefixStep(start: seq<Issue>, before: seq<Issue>, after: seq<Issue>, items: seq<Import>, k: nat,
                            self: string, fetch: string -> FetchOutcome, decode: string -> Option<Activation>)
    requires k < |items|
    requires before == start + SetIssues(items[..k], self, fetch, decode)
    requires after == before + CollisionIssues(items[k], ServiceTos(items[..k]))
                     + ImportIssues(items[k], self, Resolve(items[k].Token, fetch, decode))
    ensures after == start + SetIssues(items[..k + 1], self, fetch, decode)
    ensures ServiceTos(items[..k + 1]) == ServiceTos(items[..k]) + (if items[k].Type == Service then {items[k].To} else {})
  {
    var next := items[..k + 1];
    assert next[..k] == items[..k] && next[k] == items[k];
    var done := SetIssues(items[..k], self, fetch, decode);
    var collision := CollisionIssues(items[k], ServiceTos(items[..k]));
    var own := ImportIssues(items[k], self, Resolve(items[k].Token, fetch, decode));
    assert SetIssues(next, self, fetch, decode) == done + collision + own;
    Regroup(start, done, collision, own);
  }

  /** A collision is reported exactly when two Service imports share a To. */
  lemma {:induction false} CollisionIff(items: seq<Import>, self: string, fetch: string -> FetchOutcome,
                                         decode: string -> Option<Activation>)
    ensures Reports(SetIssues(items, self, fetch, decode), DuplicateServiceTo) <==> HasDuplicateServiceTo(items)
  {
    if items != [] {
      var init, last := items[..|items| - 1], items[|items| - 1];
      CollisionIff(init, self, fetch, decode);
      DuplicateStep(items);
      SetIssuesStep(items, self, fetch, decode);
      var prefix := SetIssues(init, self, fetch, decode);
      var col := CollisionIssues(last, ServiceTos(init));
      var own := ImportIssues(last, self, Resolve(last.Token, fetch, decode));
      ReportsConcat(prefix, col, DuplicateServiceTo);
      ReportsConcat(prefix + col, own, DuplicateServiceTo);
      ImportNeverCollides(last, self, Resolve(last.Token, fetch, decode));
      assert Reports(col, DuplicateServiceTo) <==> col != [] by {
        if col != [] {
          assert col[0].Kind == DuplicateServiceTo;
        }
      }
    }
  }

  /** Two Service imports mounted at the same To make the results blocking. */
  lemma {:induction false} DuplicateServiceToBlocks(items: seq<Import>, self: string, fetch: string -> FetchOutcome,
                                                    decode: string -> Option<Activation>)
    requires HasDuplicateServiceTo(items)
    ensures HasBlocking(SetIssues(items, self, fetch, decode))
  {
    var init, last := items[..|items| - 1], items[|items| - 1];
    DuplicateStep(items);
    SetIssuesStep(items, self, fetch, decode);
    var prefix := SetIssues(init, self, fetch, decode);
    var col := CollisionIssues(last, ServiceTos(init));
    var own := ImportIssues(last, self, Resolve(last.Token, fetch, decode));
    BlockingOfConcat(prefix, col);
    BlockingOfConcat(prefix + col, own);
    if HasDuplicateServiceTo(init) {
      DuplicateServiceToBlocks(init, self, fetch, decode);
    } else {
      SingleBlocking(Issue(DuplicateServiceTo, Blocking));
    }
  }

  /** One import validates clean on its own. */
  predicate ImportClean(imp: Import, self: string, fetch: string -> FetchOutcome,
                        decode: string -> Option<Activation>)
  {
    ImportIssues(imp, self, Resolve(imp.Token, fetch, decode)) == []
  }

  /** Every import of the collection validates clean on its own. */
  predicate AllClean(items: seq<Import>, self: string, fetch: string -> FetchOutcome,
                     decode: string -> Option<Activation>)
  {
    items == []
    || (AllClean(items[..|items| - 1], self, fetch, decode) && ImportClean(items[|items| - 1], self, fetch, decode))
  }

  /**
   * The collection validates clean exactly when no two Service imports
   * share a To and every import validates clean on its own.
   */
  lemma {:induction false} SetCleanIff(items: seq<Import>, self: string, fetch: string -> FetchOutcome,
                                        decode: string -> Option<Activation>)
    ensures SetIssues(items, self, fetch, decode) == [] <==>
            !HasDuplicateServiceTo(items) && AllClean(items, self, fetch, decode)
  {
    if items != [] {
      var init, last := items[..|items| - 1], items[|items| - 1];
      SetCleanIff(init, self, fetch, decode);
      DuplicateStep(items);
      SetIssuesStep(items, self, fetch, decode);
      var prefix := SetIssues(init, self, fetch, decode);
      var col := CollisionIssues(last, ServiceTos(init));
      var own := ImportIssues(last, self, Resolve(last.Token, fetch, decode));
      assert |prefix + col + own| == |prefix| + |col| + |own|;
    }
  }

  /** A Stream and a Service import may share a To. */
  lemma StreamAndServiceShareTo(a: Import, b: Import, self: string, fetch: string -> FetchOutcome,
                                decode: string -> Option<Activation>)
    requires a.Type == Stream && b.Type == Service && a.To == b.To
    requires a.Account != "" && !a.Share && a.Token == ""
    requires b.Account != "" && b.Token == ""
    ensures SetIssues([a, b], self, fetch, decode) == []
  {
    SetCleanIff([a, b], self, fetch, decode);
    NoTokenAccepted(a, self, fetch, decode);
    CleanIff(b, self, Resolve(b.Token, fetch, decode));
    assert AllClean([a, b], self, fetch, decode);
  }

  /** Dropping the first import keeps a collection sorted and its subjects distinct. */
  lemma SortedTail(r: seq<Import>)
    requires r != [] && SortedBySubject(r)
    ensures SortedBySubject(r[1..])
    ensures DistinctSubjects(r) ==> DistinctSubjects(r[1..])
  {
    forall a, b | 0 <= a < b < |r[1..]|
      ensures LexLe(r[1..][a].Subject, r[1..][b].Subject)
      ensures DistinctSubjects(r) ==> r[1..][a].Subject != r[1..][b].Subject
    {
      assert r[1..][a] == r[a + 1] && r[1..][b] == r[b + 1];
    }
  }

  /** Two sorted arrangements of the same imports with distinct subjects start alike. */
  lemma SortedSameHead(r1: seq<Import>, r2: seq<Import>)
    requires r1 != [] && r2 != []
    requires SortedBySubject(r1) && SortedBySubject(r2) && DistinctSubjects(r1)
    requires multiset(r1) == multiset(r2)
    ensures r1[0] == r2[0]
  {
    assert r1[0] in multiset(r2);
    var k :| 0 <= k < |r2| && r2[k] == r1[0];
    assert r2[0] in multiset(r1);
    var m :| 0 <= m < |r1| && r1[m] == r2[0];
    assert LexLe(r1[0].Subject, r1[m].Subject) by {
      if m == 0 { LexReflexive(r1[0].Subject); }
    }
    assert LexLe(r2[0].Subject, r2[k].Subject) by {
      if k == 0 { LexReflexive(r2[0].Subject); }
    }
    LexAntisymmetric(r1[0].Subject, r1[m].Subject);
  }

  /** Removing a common first import keeps two arrangements permutations of each other. */
  lemma SameTails(r1: seq<Import>, r2: seq<Import>)
    requires r1 != [] && r2 != [] && r1[0] == r2[0]
    requires multiset(r1) == multiset(r2)
    ensures multiset(r1[1..]) == multiset(r2[1..])
  {
    assert r1 == [r1[0]] + r1[1..];
    assert r2 == [r2[0]] + r2[1..];
    assert multiset(r1) == multiset{r1[0]} + multiset(r1[1..]);
    assert multiset(r2) == multiset{r2[0]} + multiset(r2[1..]);
    assert multiset(r1[1..]) == multiset(r1) - multiset{r1[0]};
    assert multiset(r2[1..]) == multiset(r2) - multiset{r2[0]};
  }

  /**
   * Sorting by Subject determines the result when subjects are distinct:
   * two sorted arrangements of the same imports are equal.
   */
  lemma {:induction false} SortedUnique(r1: seq<Import>, r2: seq<Import>)
    requires SortedBySubject(r1) && SortedBySubject(r2) && DistinctSubjects(r1)
    requires multiset(r1) == multiset(r2)
    ensures r1 == r2
  {
    assert |r1| == |multiset(r1)| == |multiset(r2)| == |r2|;
    if r1 != [] {
      SortedSameHead(r1, r2);
      SameTails(r1, r2);
      SortedTail(r1);
      SortedTail(r2);
      SortedUnique(r1[1..], r2[1..]);
      assert r1 == [r1[0]] + r1[1..];
      assert r2 == [r2[0]] + r2[1..];
    }
  }

  /** Three imports with strictly increasing subjects form a sorted collection. */
  lemma InOrder(x: Import, y: Import, z: Import)
    requires LexLe(x.Subject, y.Subject) && LexLe(y.Subject, z.Subject) && LexLe(x.Subject, z.Subject)
    requires x.Subject != y.Subject && y.Subject != z.Subject && x.Subject != z.Subject
    ensures SortedBySubject([x, y, z]) && DistinctSubjects([x, y, z])
  {
  }

  /** Adding "x", "z", "y" and sorting gives "x", "y", "z". */
  lemma SortExample(pk: string, sorted: seq<Import>)
    requires var x, y, z := Import("x", pk, "", Service, "", false), Import("y", pk, "", Service, "", false),
                            Import("z", pk, "", Service, "", false);
             SortedBySubject(sorted) && multiset(sorted) == multiset([x, z, y])
    ensures |sorted| == 3 && sorted[0].Subject == "x" && sorted[1].Subject == "y" && sorted[2].Subject == "z"
  {
    var x, y, z := Import("x", pk, "", Service, "", false), Import("y", pk, "", Service, "", false),
                   Import("z", pk, "", Service, "", false);
    assert multiset([x, z, y]) == multiset([x, y, z]);
    InOrder(x, y, z);
    SortedUnique([x, y, z], sorted);
  }

  class Imports {
    var Items: seq<Import>

    constructor ()
      ensures Items == []
    {
      Items := [];
    }

    /** Appends imports after the existing ones, in the order given. */
    method Add(imports: seq<Import>)
      modifies this
      ensures Items == old(Items) + imports
    {
      Items := Items + imports;
    }

    /** Validates every import into the shared results and reports To collisions. */
    method Validate(self: string, fetch: string -> FetchOutcome, decode: string -> Option<Activation>,
                    vr: ValidationResults)
      modifies vr
      ensures vr.Issues == old(vr.Issues) + SetIssues(Items, self, fetch, decode)
    {
      var items := Items;
      var seen: set<string> := {};
      var k := 0;
      while k < |items|
        invariant 0 <= k <= |items|
        invariant seen == ServiceTos(items[..k])
        invariant vr.Issues == old(vr.Issues) + SetIssues(items[..k], self, fetch, decode)
      {
        ghost var before := vr.Issues;
        seen := CheckCollision(items[k], seen, vr);
        ImportValidation.Validate(items[k], self, fetch, decode, vr);
        SetIssuesPrefixStep(old(vr.Issues), before, vr.Issues, items, k, self, fetch, decode);
        k := k + 1;
      }
      assert items[..k] == items;
    }

    /** Reports a Service import whose To an earlier Service import already uses. */
    static method CheckCollision(imp: Import, seen: set<string>, vr: ValidationResults)
      returns (seen': set<string>)
      modifies vr
      ensures vr.Issues == old(vr.Issues) + CollisionIssues(imp, seen)
      ensures seen' == seen + (if imp.Type == Service then {imp.To} else {})
    {
      seen' := seen;
      if imp.Type == Service {
        if imp.To in seen {
          vr.Add(Issue(DuplicateServiceTo, Blocking));
        }
        seen' := seen + {imp.To};
      }
    }

    /** The import at i sorts strictly before the one at j. */
    predicate Less(i: nat, j: nat)
      reads this
      requires i < |Items| && j < |Items|
      ensures Less(i, j) <==> !LexLe(Items[j].Subject, Items[i].Subject)
    {
      LexStrict(Items[i].Subject, Items[j].Subject);
      LexLe(Items[i].Subject, Items[j].Subject) && Items[i].Subject != Items[j].Subject
    }

    method Swap(i: nat, j: nat)
      requires i < |Items| && j < |Items|
      modifies this
      ensures Items == old(Items)[i := old(Items)[j]][j := old(Items)[i]]
      ensures multiset(Items) == multiset(old(Items))
    {
      Items := Items[i := Items[j]][j := Items[i]];
    }

    /** Reorders the imports in place so that they are sorted by Subject. */
    method Sort()
      modifies this
      ensures SortedBySubject(Items)
      ensures multiset(Items) == multiset(old(Items))
    {
      var i := 0;
      while i < |Items|
        invariant |Items| == |old(Items)|
        invariant multiset(Items) == multiset(old(Items))
        invariant 0 <= i <= |Items|
        invariant SortedBySubject(Items[..i])
      {
        var j := i;
        while j > 0 && Less(j, j - 1)
          invariant 0 <= j <= i < |Items|
          invariant |Items| == |old(Items)|
          invariant multiset(Items) == multiset(old(Items))
          invariant forall a, b :: 0 <= a < b <= i && a != j && b != j ==> LexLe(Items[a].Subject, Items[b].Subject)
          invariant forall b :: j < b <= i ==> LexLe(Items[j].Subject, Items[b].Subject)
        {
          Swap(j, j - 1);
          j := j - 1;
        }
        if j > 0 {
          LexTotal(Items[j].Subject, Items[j - 1].Subject);
          forall a | 0 <= a < j
            ensures LexLe(Items[a].Subject, Items[j].Subject)
          {
            if a < j - 1 {
              LexTransitive(Items[a].Subject, Items[j - 1].Subject, Items[j].Subject);
            }
          }
        }
        i := i + 1;
      }
    }
  }
}
