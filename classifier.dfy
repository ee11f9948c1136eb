/** The domain classifier: a query is in scope when, after lower-casing, it
    contains any entry of a fixed keyword list as a contiguous substring. */
module Classifier {

  /** The fixed keyword list, in the order the program declares it. */
  const Keywords: seq<string> := [
    "bca", "computer application",
    "programming", "c", "c++", "java", "python",
    "data structure", "algorithm",
    "dbms", "database", "mysql", "sql",
    "operating system", "os",
    "computer network", "networking",
    "html", "css", "javascript", "php",
    "software engineering",
    "oop", "oops",
    "ai", "artificial intelligence",
    "machine learning",
    "cloud computing",
    "flask", "django"
  ]

  /** The 18 keywords that decide the classification on their own: every other
      keyword contains one of "c", "sql" or "oop" and so never changes the outcome. */
  const CoreKeywords: seq<string> := [
    "programming", "c", "java", "python", "algorithm",
    "dbms", "database", "sql", "operating system", "os",
    "networking", "html", "php", "software engineering",
    "oop", "ai", "flask", "django"
  ]

  // ---------------------------------------------------------------------------
  // Lower-casing (ASCII)
  // ---------------------------------------------------------------------------

  predicate IsUpper(c: char) {
    'A' <= c <= 'Z'
  }

  function LowerChar(c: char): char {
    if IsUpper(c) then (c as int + 32) as char else c
  }

  /** `s.lower()`, restricted to ASCII letters. */
  function Lower(s: string): string {
    seq(|s|, i requires 0 <= i < |s| => LowerChar(s[i]))
  }

  /** Lower-casing leaves no upper-case letter behind and keeps everything else. */
  lemma LowerProperties(s: string)
    ensures |Lower(s)| == |s|
    ensures forall i :: 0 <= i < |s| ==> !IsUpper(Lower(s)[i])
    ensures forall i :: 0 <= i < |s| && !IsUpper(s[i]) ==> Lower(s)[i] == s[i]
  {
  }

  lemma LowerIdempotent(s: string)
    ensures Lower(Lower(s)) == Lower(s)
  {
  }

  // ---------------------------------------------------------------------------
  // Substring containment: Python's `keyword in query`
  // ---------------------------------------------------------------------------

  /** `k` stands in `s` starting at offset `i`. */
  ghost predicate OccursAt(k: string, s: string, i: int) {
    0 <= i && i + |k| <= |s| && s[i..i + |k|] == k
  }

  /** `k` is a contiguous substring of `s`. */
  ghost predicate Occurs(k: string, s: string) {
    exists i :: OccursAt(k, s, i)
  }

  /** Substring test by scanning `s` from the left. */
  function IsSubstring(k: string, s: string): (b: bool)
    ensures b <==> Occurs(k, s)
    decreases |s|
  {
    if |k| > |s| then
      assert forall i :: !OccursAt(k, s, i);
      false
    else if s[..|k|] == k then
      assert OccursAt(k, s, 0);
      true
    else
      var b := IsSubstring(k, s[1..]);
      assert b ==> Occurs(k, s) by {
        if b {
          var i :| OccursAt(k, s[1..], i);
          assert s[1..][i..i + |k|] == s[i + 1..i + 1 + |k|];
          assert OccursAt(k, s, i + 1);
        }
      }
      assert Occurs(k, s) ==> b by {
        if Occurs(k, s) {
          var i :| OccursAt(k, s, i);
          assert i != 0;
          assert s[1..][i - 1..i - 1 + |k|] == s[i..i + |k|];
          assert OccursAt(k, s[1..], i - 1);
        }
      }
      b
  }

  /** A substring of a substring is a substring: offsets add up. */
  lemma OccursAtTrans(e: string, k: string, s: string, j: int, i: int)
    requires OccursAt(e, k, j) && OccursAt(k, s, i)
    ensures OccursAt(e, s, i + j)
  {
    forall t | 0 <= t < |e|
      ensures s[i + j..i + j + |e|][t] == e[t]
    {
      assert s[i + j + t] == s[i..i + |k|][j + t] == k[j + t];
    }
  }

  // ---------------------------------------------------------------------------
  // The classifier
  // ---------------------------------------------------------------------------

  /** `any(k in s for k in kws)`. */
  function AnyKeywordIn(kws: seq<string>, s: string): (b: bool)
    ensures b <==> exists k :: k in kws && Occurs(k, s)
  {
    if kws == [] then false
    else
      assert forall k :: k in kws <==> k == kws[0] || k in kws[1..];
      IsSubstring(kws[0], s) || AnyKeywordIn(kws[1..], s)
  }

  /** `is_bca_related`: some keyword is a substring of the lower-cased query.
      Total and deterministic; it never fails. */
  function IsBcaRelated(query: string): (b: bool)
    ensures b <==> exists k :: k in Keywords && Occurs(k, Lower(query))
  {
    AnyKeywordIn(Keywords, Lower(query))
  }

  /** Case does not matter: two queries that lower-case alike are classified alike,
      and in particular a query and its lower-cased form. */
  lemma CaseInsensitive(q: string, q': string)
    requires Lower(q) == Lower(q')
    ensures IsBcaRelated(q) == IsBcaRelated(q')
    ensures IsBcaRelated(Lower(q)) == IsBcaRelated(q)
  {
    LowerIdempotent(q);
  }

  /** Over-matching: the one- and two-letter keywords "c", "ai" and "os" accept any
      query that contains them anywhere, inside unrelated words included. */
  lemma {:induction false} ShortKeywordsOverMatch(q: string, i: int)
    requires 0 <= i < |Lower(q)|
    ensures Lower(q)[i] == 'c' ==> IsBcaRelated(q)
    ensures i + 1 < |Lower(q)| && Lower(q)[i..i + 2] in ["ai", "os"] ==> IsBcaRelated(q)
  {
    var s := Lower(q);
    if s[i] == 'c' {
      assert s[i..i + 1] == "c";
      assert OccursAt("c", s, i);
      assert "c" in Keywords;
    }
    if i + 1 < |s| && s[i..i + 2] in ["ai", "os"] {
      var k := s[i..i + 2];
      assert OccursAt(k, s, i);
      assert k in Keywords;
    }
  }

  /** A single character of `s` is a one-letter substring of it. */
  lemma CharOccurs(s: string, j: int)
    requires 0 <= j < |s|
    ensures OccursAt([s[j]], s, j)
  {
  }

  /** Every keyword contains some core keyword: itself when it is one, "sql" in
      "mysql", "oop" in "oops", and the letter c in each of the other ten. */
  lemma {:induction false} CoveredByCore(n: int)
    requires 0 <= n < |Keywords|
    ensures exists e, j :: e in CoreKeywords && OccursAt(e, Keywords[n], j)
  {
    var k := Keywords[n];
    if k in CoreKeywords {
      assert OccursAt(k, k, 0);
    } else if n == 11 {
      assert k == "mysql" && k[2..5] == "sql";
      assert OccursAt("sql", k, 2);
    } else if n == 23 {
      assert k == "oops" && k[0..3] == "oop";
      assert OccursAt("oop", k, 0);
    } else {
      var j := if n == 0 then 1 else if n == 7 then 9 else if n == 19 then 5
               else if n == 25 then 6 else if n == 26 then 2 else 0;
      assert n in {0, 1, 4, 7, 15, 18, 19, 25, 26, 27};
      assert k[j] == 'c';
      CharOccurs(k, j);
    }
  }

  /** The over-match made exact: the classifier gives the same answer with only
      the 18 core keywords, so the other 12 keywords never change a decision. */
  lemma {:induction false} CoreKeywordsSuffice(q: string)
    ensures IsBcaRelated(q) <==> AnyKeywordIn(CoreKeywords, Lower(q))
  {
    var s := Lower(q);
    if IsBcaRelated(q) {
      var k :| k in Keywords && Occurs(k, s);
      var i :| OccursAt(k, s, i);
      var n :| 0 <= n < |Keywords| && Keywords[n] == k;
      CoveredByCore(n);
      var e, j :| e in CoreKeywords && OccursAt(e, k, j);
      OccursAtTrans(e, k, s, j, i);
      assert Occurs(e, s);
    }
    if AnyKeywordIn(CoreKeywords, s) {
      var e :| e in CoreKeywords && Occurs(e, s);
      assert e in Keywords;
    }
  }

  /** The empty query is never in the domain, since no keyword is empty. */
  lemma EmptyNotRelated()
    ensures !IsBcaRelated("")
  {
    assert forall k :: k in Keywords ==> |k| > 0;
  }
}

/** Two example queries, classified. Each lemma takes its query as a parameter
    pinned by `requires q == "..."` rather than writing the literal into the
    `ensures`: callers pass the literal, and the proof reasons about `q` without
    unfolding the literal in every goal. */
module ClassifierExamples {
  import opened Classifier

  /** A keyword with a character that `s` lacks does not occur in `s`. */
  lemma AbsentChar(k: string, s: string, c: char)
    requires c in k && c !in s
    ensures !Occurs(k, s)
  {
  }

  /** When each keyword has a letter that `s` lacks, no keyword occurs in `s`. */
  lemma {:induction false} EachLacksALetter(kws: seq<string>, s: string, letters: string)
    requires |letters| == |kws|
    requires forall n :: 0 <= n < |kws| ==> letters[n] in kws[n] && letters[n] !in s
    ensures !AnyKeywordIn(kws, s)
  {
    forall k | k in kws
      ensures !Occurs(k, s)
    {
      var n :| 0 <= n < |kws| && kws[n] == k;
      AbsentChar(k, s, letters[n]);
    }
  }

  lemma LowerFixes(s: string)
    requires forall i :: 0 <= i < |s| ==> !IsUpper(s[i])
    ensures Lower(s) == s
  {
  }

  /** No core keyword occurs in the off-topic example: each has a letter that
      "weather today" lacks. */
  lemma WeatherHasNoCoreKeyword(s: string)
    requires s == "weather today"
    ensures !AnyKeywordIn(CoreKeywords, s)
  {
    EachLacksALetter(CoreKeywords, s, "pcjplbbqpsnlpfpifj");
  }

  /** "weather today" is outside the domain. Every core keyword has a letter this
      query lacks; a longer sentence such as "what's the weather today" holds both
      'o' and 's', so ruling out "os" there needs an argument over offsets. */
  lemma {:induction false} WeatherQueryRejected(q: string)
    requires q == "weather today"
    ensures !IsBcaRelated(q)
  {
    WeatherHasNoCoreKeyword(q);
    LowerFixes(q);
    CoreKeywordsSuffice(q);
  }

  /** "What is DBMS" is in the domain: after lower-casing, "dbms" stands at offset 8. */
  lemma {:induction false} DbmsQueryAccepted(q: string)
    requires q == "What is DBMS"
    ensures IsBcaRelated(q)
  {
    assert Lower(q) == "what is dbms";
    assert OccursAt("dbms", Lower(q), 8);
    assert "dbms" in Keywords;
  }
}
