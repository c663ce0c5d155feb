// Hierarchical subjects: dot-separated tokens, the single-token wildcard "*"
// and the trailing wildcard ">" (one or more tokens); containment of one
// pattern in another; and the byte-wise string order imports are sorted by.

module Subjects {

  /** Splits a subject at every '.'; "a..b" has an empty middle token. */
  function Split(s: string): (r: seq<string>)
    ensures |r| >= 1
    ensures forall k :: 0 <= k < |r| ==> '.' !in r[k]
  {
    if s == [] then [""]
    else if s[0] == '.' then [""] + Split(s[1..])
    else
      var rest := Split(s[1..]);
      [[s[0]] + rest[0]] + rest[1..]
  }

  /** Joins tokens with '.'. */
  function Join(tokens: seq<string>): (s: string)
    requires |tokens| >= 1
  {
    if |tokens| == 1 then tokens[0] else tokens[0] + "." + Join(tokens[1..])
  }

  lemma {:induction false} JoinSplit(s: string)
    ensures Join(Split(s)) == s
  {
    if s != [] {
      JoinSplit(s[1..]);
      var rest := Split(s[1..]);
      if s[0] == '.' {
        assert Split(s) == [""] + rest;
        assert Split(s)[1..] == rest;
      } else {
        if |rest| == 1 {
          assert Join(Split(s)) == [s[0]] + rest[0];
        } else {
          assert Split(s)[1..] == rest[1..];
          assert Join(Split(s)) == [s[0]] + rest[0] + "." + Join(rest[1..]);
        }
      }
    }
  }

  predicate IsWildcard(t: string)
  {
    t == "*" || t == ">"
  }

  /** A concrete subject: its tokens carry no wildcard. */
  predicate Concrete(s: seq<string>)
  {
    forall k :: 0 <= k < |s| ==> !IsWildcard(s[k])
  }

  /** The tokens of a concrete subject are matched by a pattern. */
  predicate Matches(p: seq<string>, s: seq<string>)
  {
    if p == [] then s == []
    else if p[0] == ">" then |s| >= 1
    else if s == [] then false
    else (p[0] == "*" || p[0] == s[0]) && Matches(p[1..], s[1..])
  }

  /**
   * Containment of token patterns: every concrete subject the requested
   * pattern matches is matched by the grant.
   */
  predicate CoversTokens(grant: seq<string>, req: seq<string>)
  {
    if grant == [] then req == []
    else if grant[0] == ">" then |req| >= 1
    else if req == [] || req[0] == ">" then false
    else if grant[0] == "*" then CoversTokens(grant[1..], req[1..])
    else grant[0] == req[0] && CoversTokens(grant[1..], req[1..])
  }

  /** The grant allows every subject the requested pattern can match. */
  predicate Covers(grant: string, req: string)
    ensures grant == req ==> Covers(grant, req)
    ensures grant == ">" ==> Covers(grant, req)
  {
    CoversReflexive(Split(grant));
    SplitNoDot(">");
    CoversTokens(Split(grant), Split(req))
  }

  /** Soundness of containment with respect to matching. */
  lemma {:induction false} CoversSound(grant: seq<string>, req: seq<string>, s: seq<string>)
    requires CoversTokens(grant, req) && Concrete(s) && Matches(req, s)
    ensures Matches(grant, s)
  {
    if grant != [] && grant[0] != ">" {
      assert Concrete(s[1..]) by {
        forall k | 0 <= k < |s[1..]| ensures !IsWildcard(s[1..][k]) {
          assert s[1..][k] == s[k + 1];
        }
      }
      if req[0] == "*" {
        assert grant[0] == "*";
      }
      CoversSound(grant[1..], req[1..], s[1..]);
    }
  }

  lemma {:induction false} CoversReflexive(p: seq<string>)
    ensures CoversTokens(p, p)
  {
    if p != [] && p[0] != ">" {
      CoversReflexive(p[1..]);
    }
  }

  /** A string without '.' is a single token. */
  lemma {:induction false} SplitNoDot(s: string)
    requires forall k :: 0 <= k < |s| ==> s[k] != '.'
    ensures Split(s) == [s]
  {
    if s != [] {
      SplitNoDot(s[1..]);
      assert [s[0]] + s[1..] == s;
    }
  }

  /** A leading '.' closes an empty first token. */
  lemma SplitDotCons(s: string)
    ensures Split("." + s) == [""] + Split(s)
  {
    assert ("." + s)[0] == '.' && ("." + s)[1..] == s;
  }

  /** Any other leading character starts the first token. */
  lemma SplitCharCons(c: char, s: string)
    requires c != '.'
    ensures Split([c] + s) == [[c] + Split(s)[0]] + Split(s)[1..]
  {
    assert ([c] + s)[0] == c && ([c] + s)[1..] == s;
  }

  /** Splitting distributes over a '.' joint. */
  lemma {:induction false} SplitAtDot(a: string, b: string)
    ensures Split(a + "." + b) == Split(a) + Split(b)
  {
    if a == [] {
      assert a + "." + b == "." + b;
      SplitDotCons(b);
    } else {
      SplitAtDot(a[1..], b);
      if a[0] == '.' {
        SplitAtDotAfterDot(a, b);
      } else {
        SplitAtDotAfterChar(a, b);
      }
    }
  }

  /** The inductive step of SplitAtDot when the first part starts with '.'. */
  lemma SplitAtDotAfterDot(a: string, b: string)
    requires a != [] && a[0] == '.'
    requires Split(a[1..] + "." + b) == Split(a[1..]) + Split(b)
    ensures Split(a + "." + b) == Split(a) + Split(b)
  {
    DotJoinCons(a, b);
    SplitDotCons(a[1..] + "." + b);
    SplitDotCons(a[1..]);
    EmptyTokenAppend(Split(a[1..]), Split(b));
  }

  lemma EmptyTokenAppend(ra: seq<string>, rb: seq<string>)
    ensures [""] + (ra + rb) == [""] + ra + rb
  {
  }

  /** The inductive step of SplitAtDot when the first part starts with another character. */
  lemma SplitAtDotAfterChar(a: string, b: string)
    requires a != [] && a[0] != '.'
    requires Split(a[1..] + "." + b) == Split(a[1..]) + Split(b)
    ensures Split(a + "." + b) == Split(a) + Split(b)
  {
    DotJoinCons(a, b);
    SplitCharCons(a[0], a[1..] + "." + b);
    SplitCharCons(a[0], a[1..]);
    FirstTokenAppend([a[0]], Split(a[1..]), Split(b));
  }

  lemma DotJoinCons(a: string, b: string)
    requires a != []
    ensures a + "." + b == [a[0]] + (a[1..] + "." + b)
    ensures a == [a[0]] + a[1..]
  {
  }

  /** Extending the first token commutes with appending more tokens. */
  lemma FirstTokenAppend(p: string, ra: seq<string>, rb: seq<string>)
    requires ra != []
    ensures [p + (ra + rb)[0]] + (ra + rb)[1..] == [p + ra[0]] + ra[1..] + rb
  {
    assert (ra + rb)[0] == ra[0];
    assert (ra + rb)[1..] == ra[1..] + rb;
  }

  /** The token lists of the subjects the import tests use. */
  lemma SplitExamples()
    ensures Split("one.two") == ["one", "two"]
    ensures Split("one.*") == ["one", "*"]
    ensures Split("two") == ["two"]
    ensures Split(">") == [">"]
  {
    SplitNoDot("two");
    SplitNoDot(">");
    SplitOneDot("two");
    assert "one" + "." + "two" == "one.two";
    SplitOneDot("*");
    assert "one" + "." + "*" == "one.*";
  }

  /** A subject of two tokens whose first token is "one". */
  lemma SplitOneDot(t: string)
    requires '.' !in t
    ensures Split("one" + "." + t) == ["one", t]
  {
    SplitNoDot("one");
    SplitNoDot(t);
    SplitAtDot("one", t);
  }

  /** The containment cases that import subjects are checked against. */
  lemma CoversExamples()
    ensures Covers("one.*", "one.two")
    ensures Covers(">", "one.two")
    ensures !Covers("one.two", "one.*")
    ensures !Covers("two", "one.two")
  {
    SplitExamples();
  }

  /** Byte-wise lexicographic order on strings (Go's string comparison). */
  predicate LexLe(a: string, b: string)
  {
    if a == [] then true
    else if b == [] then false
    else if a[0] != b[0] then a[0] < b[0]
    else LexLe(a[1..], b[1..])
  }

  lemma {:induction false} LexReflexive(a: string)
    ensures LexLe(a, a)
  {
    if a != [] {
      LexReflexive(a[1..]);
    }
  }

  /** The strict order is the complement of the reversed order. */
  lemma LexStrict(a: string, b: string)
    ensures LexLe(a, b) && a != b <==> !LexLe(b, a)
  {
    LexTotal(a, b);
    if LexLe(a, b) && LexLe(b, a) {
      LexAntisymmetric(a, b);
    }
    if a == b {
      LexReflexive(a);
    }
  }

  lemma {:induction false} LexTotal(a: string, b: string)
    ensures LexLe(a, b) || LexLe(b, a)
  {
    if a != [] && b != [] && a[0] == b[0] {
      LexTotal(a[1..], b[1..]);
    }
  }

  lemma {:induction false} LexAntisymmetric(a: string, b: string)
    requires LexLe(a, b) && LexLe(b, a)
    ensures a == b
  {
    if a != [] && b != [] {
      LexAntisymmetric(a[1..], b[1..]);
      assert a == [a[0]] + a[1..];
      assert b == [b[0]] + b[1..];
    }
  }

  lemma {:induction false} LexTransitive(a: string, b: string, c: string)
    requires LexLe(a, b) && LexLe(b, c)
    ensures LexLe(a, c)
  {
    if a != [] && b != [] && c != [] && a[0] == b[0] && b[0] == c[0] {
      LexTransitive(a[1..], b[1..], c[1..]);
    }
  }
}
