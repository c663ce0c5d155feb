# NATS JWT v2 import validation, modelled in Dafny

An account's JWT can declare *imports*. Each import mounts a subject space that
another account exports into the local subject namespace. This model covers
how the v2 library validates imports. Its sources are the behaviour fixed by
`v2/imports_test.go`:

- **`Import`** (`claims.dfy`) is a record with these fields:
  - `Subject`;
  - `Account`, the exporting account;
  - `To`, the local mount point;
  - `Type`, one of `Stream`, `Service` or `Unknown`;
  - `Token`, which is empty, an inline activation, or a URL that serves one;
  - `Share`.

  An **activation** is the decoded credential an exporter signs. It has a
  recipient `Subject`, an `Issuer`, an optional `IssuerAccount` (set when a
  signing key acts for an account), `ImportSubject`, `ImportType` and `Expires`.
- **`ValidationResults`** (`results.dfy`) is the shared, append-only issue log.
  Each issue is tagged `Warning` or `Blocking`. `IsEmpty` and `IsBlocking(strict)`
  inspect the log.
- **Token resolution** (`tokens.dfy`) turns a token into a tagged outcome:
  - no token;
  - unresolvable, meaning a URL whose fetch failed or returned a non-success status;
  - not a credential;
  - a decoded activation.

  Fetching and decoding are passed in as functions, so the lemmas hold for
  every fetch result and every decoder. Because `fetch` is a function of the
  URL, every import with the same URL token sees the same fetch outcome within
  one validation.
- **`Import.Validate`** (`import_validation.dfy`) makes the following checks and
  appends the issues it finds:
  - a missing exporter is a warning;
  - an invalid type is blocking;
  - `Share` on a stream is blocking;
  - an unresolvable or undecodable token is a warning;
  - for a decoded activation, recipient and issuer-chain mismatches are
    blocking. These are checked only when a validating account is given. The
    activation's type is not compared with the import's type: the tests expect a
    Service import backed by an activation granted for a Stream to validate
    clean (`v2/imports_test.go:41-62`).

  The method's effect is stated by the function `ImportIssues`. The lemmas
  characterise when that list is empty and when it blocks.
- **`Imports`** (`import_set.dfy`) is the ordered collection of imports:
  - `Add` appends;
  - `Validate` validates every import and flags a second `Service` import at the
    same `To`;
  - `Sort` reorders in place by `Subject`.
- **Subjects** (`subjects.dfy`) covers dot-separated tokens, wildcard matching,
  grant coverage and the byte-wise order used for sorting.
- **Scenarios** (`scenarios.dfy`) are clients of the class API that replay the
  missing-account, collection and sorting tests. Their postconditions are the tests' expectations.

## Model

| member | source | states |
|---|---|---|
| Results.ValidationResults.constructor | v2/imports_test.go:34 | A fresh results object holds no issues. |
| Results.ValidationResults.Add | v2/imports_test.go:250 | Recording an issue appends it and keeps every earlier issue in order. |
| Results.ValidationResults.IsEmpty | v2/imports_test.go:37-39 | Empty exactly when no issue was recorded; empty results never block. |
| Results.ValidationResults.IsBlocking | v2/imports_test.go:254-256 | True exactly when some recorded issue is blocking (equivalently, the count of blocking issues is positive), whatever `strict` is: a warning never blocks. |
| Results.BlockingIffCounted | v2/imports_test.go:149-151 | "Some issue blocks" agrees with the independent count of blocking issues being positive. |
| Results.BlockingOfConcat | v2/imports_test.go:34-35 | A log built by appending blocks exactly when one of its parts does. |
| Tokens.Resolve | v2/imports_test.go:352-399 | No token iff the token is empty. A URL token is unresolvable iff its fetch gives no body. "Not a credential" iff the fetched body (for a URL) or the token itself (otherwise) does not decode. A decoded activation is what that body or token decodes to. |
| Tokens.InlineTokenShape | v2/imports_test.go:157 | "bad token" has no URL scheme, so it is decoded inline. |
| Tokens.UnsupportedSchemeShape | v2/imports_test.go:174 | "foo://bad token url" has a URL scheme, so it is fetched. |
| Tokens.BadHttpUrlShape | v2/imports_test.go:366 | "http://Bad URL" has a URL scheme, so it is fetched. |
| ImportValidation.Validate | v2/imports_test.go:35 | Validating an import appends exactly `ImportIssues` for its resolved token to the shared results and leaves the earlier issues in place. |
| ImportValidation.CheckFields | v2/imports_test.go:245-256 | Appends the issues about the import's own fields: a missing exporter, an invalid type, sharing on a stream. |
| ImportValidation.ResolveToken | v2/imports_test.go:157-185 | Returns an activation iff the token resolved to one, and appends the advisory issue for a token that did not. |
| ImportValidation.CheckActivation | v2/imports_test.go:104-113 | Appends the recipient and issuer mismatches of a decoded activation, and nothing else. |
| ImportValidation.CleanIff | v2/imports_test.go:32-62 | Results are empty iff the import is structurally sound and either has no token or has one that decodes to a matching activation: issued to this account by the exporter or by a key acting for it, whatever its type. |
| ImportValidation.BlockingIff | v2/imports_test.go:140-168 | Results block iff the type is invalid, a stream shares, or a decoded activation does not match. A missing exporter and an unresolved token never block. |
| ImportValidation.SubjectAndToIgnored | v2/imports_test.go:259-295 | Changing `Subject` or `To` to anything, wildcards included, leaves the issues unchanged. |
| ImportValidation.NoTokenAccepted | v2/imports_test.go:32-47 | An import with an exporter, a valid type, no sharing and no token gives empty results. |
| ImportValidation.UnknownTypeBlocks | v2/imports_test.go:140-151 | An `Unknown` type gives non-empty, blocking results. |
| ImportValidation.ShareOnlyForServices | v2/imports_test.go:301-318 | `Share` on a stream gives exactly one issue, and it blocks; on a service it gives none. |
| ImportValidation.MissingAccountWarns | v2/imports_test.go:245-256 | Without an exporter, an otherwise valid import gives exactly one issue, which does not block. |
| ImportValidation.UnresolvedTokenWarns | v2/imports_test.go:157-185 | An unresolvable or undecodable token gives non-empty results. They block only if the fields do, and a sound import gets exactly one issue. |
| ImportValidation.UrlTokenOutcomes | v2/imports_test.go:338-399 | A URL serving a matching activation gives empty results. A failed fetch, a bad status or a body that is not a credential gives non-empty, non-blocking results. |
| ImportValidation.MatchingActivationAccepted | v2/imports_test.go:116-134 | An activation for this account, issued by the exporter or by a signing key whose `IssuerAccount` is the exporter, gives empty results. |
| ImportValidation.ActivationDetailsIgnored | v2/imports_test.go:65-81 | An activation's `Expires` (past or future), its `ImportSubject` and its `ImportType` do not change the issues. |
| ImportValidation.StreamActivationOnServiceImport | v2/imports_test.go:32-62 | An import without a token is clean as a Stream and as a Service. The Service import backed by the exporter's Stream-typed activation for this account is also clean. |
| ImportValidation.RecipientMismatchBlocks | v2/imports_test.go:104-113 | An activation issued to another account blocks. |
| ImportValidation.IssuerMismatchReported | v2/imports_test.go:82-93 | An activation signed by neither the exporter nor a key acting for it gives non-empty, blocking results. |
| Subjects.Split | v2/imports_test.go:406-411 | A subject splits into at least one token, and no token contains a '.'. |
| Subjects.JoinSplit | v2/imports_test.go:406-411 | Joining the tokens of a subject with dots gives the subject back. |
| Subjects.CoversSound | v2/imports_test.go:401-421 | A subject matched by the requested pattern is also matched by a grant that covers it. |
| Subjects.CoversReflexive | v2/imports_test.go:401-421 | Every subject pattern covers itself. |
| Subjects.Covers | v2/imports_test.go:401-443 | Every subject covers itself, and the grant ">" covers every subject. |
| Subjects.CoversExamples | v2/imports_test.go:406-443 | "one.\*" and ">" cover "one.two"; "two" does not. |
| Subjects.LexTotal | v2/imports_test.go:499 | The subject order is total. |
| Subjects.LexAntisymmetric | v2/imports_test.go:499 | Two subjects ordered both ways are equal. |
| Subjects.LexTransitive | v2/imports_test.go:499 | The subject order is transitive. |
| ImportSet.Imports.constructor | v2/imports_test.go:327 | A new collection is empty. |
| ImportSet.Imports.Add | v2/imports_test.go:493-498 | Adding appends the given imports after the existing ones, in order. |
| ImportSet.Imports.Validate | v2/imports_test.go:454-472 | Validating the collection appends exactly `SetIssues`: for each import in order, a collision with an earlier Service `To`, then its own issues. |
| ImportSet.Imports.CheckCollision | v2/imports_test.go:464-472 | Appends a blocking collision for a Service import whose `To` is already taken, and adds that `To` to the taken set. |
| ImportSet.Imports.Less | v2/imports_test.go:499 | The import at i sorts strictly before the one at j iff j's subject does not sort at or before i's. |
| ImportSet.Imports.Swap | v2/imports_test.go:499 | Exchanges two imports; the multiset of imports is unchanged. |
| ImportSet.Imports.Sort | v2/imports_test.go:499-502 | Afterwards the imports are sorted by `Subject` and are a permutation of the original ones. |
| ImportSet.CollisionIff | v2/imports_test.go:454-472 | A collision is reported iff two Service imports share a `To`. |
| ImportSet.DuplicateServiceToBlocks | v2/imports_test.go:464-472 | Two Service imports sharing a `To` make the collection's results blocking. |
| ImportSet.SetCleanIff | v2/imports_test.go:321-336 | The collection gives empty results iff no two Service imports share a `To` and every import validates clean alone. |
| ImportSet.StreamAndServiceShareTo | v2/imports_test.go:324-335 | A Stream and a Service import at the same `To`, both sound and without tokens, give empty results. |
| ImportSet.SortedUnique | v2/imports_test.go:499-502 | Two arrangements of the same imports with distinct subjects, both sorted, are equal: sorting decides the order. |
| ImportSet.SortExample | v2/imports_test.go:493-502 | Any sorted permutation of the imports "x", "z", "y" is "x", "y", "z". |
| ImportScenarios.MissingAccountScenario | v2/imports_test.go:244-257 | Validating an import without an exporter records one issue, and the results do not block. |
| ImportScenarios.ServiceToCollisionScenario | v2/imports_test.go:446-473 | One Service import at "foo.bar" does not block; after a second one at "foo.bar" is added, the results block. |
| ImportScenarios.SortingScenario | v2/imports_test.go:490-503 | After adding "x", "z", "y" the first import is "x"; after sorting the subjects are "x", "y", "z". |
| ImportScenarios.SortCheckMissesUnsorted | v2/imports_test.go:500 | The unsorted order "x", "z", "y" passes the sorting check as written. |
| ImportScenarios.SortCheckExact | v2/imports_test.go:500 | The intended check passes exactly on "x", "y", "z", and it passes on the result of sorting. |

## Left out

- Key generation, signing and JWT decoding are not modelled. Decoding is a function parameter `decode` that either gives an activation or fails. Signature checking is part of that parameter.
- HTTP fetching is a function parameter `fetch` with three results: a body, a status, or a transport error. A malformed URL is a transport error. Client timeouts are not modelled.
- URL detection is approximated. A token counts as a URL when it starts with a scheme followed by `:`. The scheme is a letter, then any letters, digits, `+`, `-` or `.`. Nothing after the `:` is inspected. Go's full URL parsing is not modelled.
- `Tokens.Resolve`: `fetch` is a function, so every import with the same URL token sees the same fetch outcome within one validation. Each Go `Validate` call makes its own request, and a server whose answers change between requests is not modelled.
- Wall-clock time is not modelled. `Expires` is an integer that validation ignores.
- Issue descriptions (the wording) are not modelled. An issue is its kind and its severity.
- Account validation is not modelled beyond its call to the collection's `Validate`. An empty validating account means "structural checks only", so activations are not compared.
- Grant coverage raises no issue. The tests expect a grant of "two" for the subject "one.two" to validate clean. `Subjects.Covers` is a pure helper. Only its soundness and reflexivity are proved, not its completeness.
- `Subjects.Matches`: `>` matches one or more trailing tokens, and `*` matches exactly one. Subject syntax validation (empty tokens, spaces) is not modelled.
- `ImportSet.Imports.Sort`: this is an insertion sort over the collection's sequence, not Go's `sort.Sort`. Order among equal subjects is not specified. `Less` and `Swap` are the sort interface members it uses; the length is the sequence's length.
- `ImportSet.Imports` holds import values, whereas Go's collection holds references to imports. Aliasing is not modelled: a change made to an import through another reference after `Add` does not reach the collection.

## Findings

| source | as written | input that shows it | evidently intended | confidence | as-written member | corrected member |
|---|---|---|---|---|---|---|
| v2/imports_test.go:500 | the sort check fails only when all three positions are wrong (`&&`) | the unsorted insertion order "x", "z", "y" passes the check | fail when any position is wrong (`\|\|`) | high; not executed | ImportScenarios.SortCheckMissesUnsorted | ImportScenarios.SortCheckExact |
