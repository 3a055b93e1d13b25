/**
 * Query routing of the knowledge base (`DatabricksKnowledgeBase._detect_domain`):
 * each domain's score is the number of its keywords found in the lower-cased
 * query; no score means "search all domains", otherwise the best-scoring domain
 * wins, the earliest of migration, architecture, costing on a tie.
 */
module Classifier {
  import opened Text

  datatype Domain = Migration | Architecture | Costing {
    /** The name used for the domain's collection, directory and metadata tag. */
    function Name(): string {
      match this
      case Migration => "migration"
      case Architecture => "architecture"
      case Costing => "costing"
    }

    /** Position in the order in which the scores are listed (and ties are broken). */
    function Rank(): nat {
      match this
      case Migration => 0
      case Architecture => 1
      case Costing => 2
    }
  }

  /** The outcome of detection: one domain, or the sentinel `'all'`. */
  datatype Selector = Single(domain: Domain) | All {
    function Name(): string {
      match this
      case Single(d) => d.Name()
      case All => "all"
    }
  }

  const MigrationKeywords: seq<string> := [
    "migrate", "migration", "move", "transfer", "from", "current platform",
    "legacy", "modernize", "onboard", "transition", "switch"
  ]

  const ArchitectureKeywords: seq<string> := [
    "optimize", "optimization", "performance", "speed", "faster", "improve",
    "efficiency", "tuning", "autoscaling", "photon", "best practice", "architecture", "compute"
  ]

  const CostingKeywords: seq<string> := [
    "cost", "price", "pricing", "expensive", "budget", "spend", "billing",
    "dbu", "tier", "savings", "reduce cost", "estimate", "fee"
  ]

  function Keywords(d: Domain): seq<string> {
    match d
    case Migration => MigrationKeywords
    case Architecture => ArchitectureKeywords
    case Costing => CostingKeywords
  }

  /** `sum(1 for kw in keywords if kw in text)`: how many entries of the table occur in `text`. */
  function Score(keywords: seq<string>, text: string): (n: nat)
    ensures n <= |keywords|
  {
    if keywords == [] then 0
    else (if Occurs(keywords[0], text) then 1 else 0) + Score(keywords[1..], text)
  }

  /** A table scores zero exactly when none of its keywords occurs in the text. */
  lemma {:induction false} ScoreZeroIffNoKeyword(keywords: seq<string>, text: string)
    ensures Score(keywords, text) == 0 <==> forall kw :: kw in keywords ==> !Occurs(kw, text)
  {
    if keywords != [] {
      ScoreZeroIffNoKeyword(keywords[1..], text);
      assert keywords == [keywords[0]] + keywords[1..];
    }
  }

  predicate NoDuplicates(keywords: seq<string>) {
    forall i, j :: 0 <= i < j < |keywords| ==> keywords[i] != keywords[j]
  }

  /** Dropping the first entry of a table without repeats leaves one without repeats that lacks it. */
  lemma NoDuplicatesTail(keywords: seq<string>)
    requires keywords != [] && NoDuplicates(keywords)
    ensures NoDuplicates(keywords[1..]) && keywords[0] !in keywords[1..]
  {
    var rest := keywords[1..];
    forall i, j | 0 <= i < j < |rest| ensures rest[i] != rest[j] {
      assert rest[i] == keywords[i + 1] && rest[j] == keywords[j + 1];
    }
    forall j | 0 <= j < |rest| ensures rest[j] != keywords[0] {
      assert rest[j] == keywords[j + 1];
    }
  }

  /**
   * For a table without repeated entries, the score is the number of distinct
   * keywords that occur in the text: each counts once, however often it occurs.
   */
  lemma {:induction false} ScoreCountsMatchingKeywords(keywords: seq<string>, text: string)
    requires NoDuplicates(keywords)
    ensures Score(keywords, text) == |set kw | kw in keywords && Occurs(kw, text)|
  {
    if keywords != [] {
      var first, rest := keywords[0], keywords[1..];
      NoDuplicatesTail(keywords);
      ScoreCountsMatchingKeywords(rest, text);
      var all := set kw | kw in keywords && Occurs(kw, text);
      var tail := set kw | kw in rest && Occurs(kw, text);
      assert forall kw :: kw in keywords <==> kw == first || kw in rest;
      if Occurs(first, text) {
        assert all == {first} + tail;
      } else {
        assert all == tail;
      }
    }
  }

  /**
   * Keywords are matched as substrings, not as words: a keyword that occurs
   * inside another keyword of the same table is found whenever the longer one
   * is, so a table without repeats then scores at least 2.
   */
  lemma SubstringKeywordsCount(keywords: seq<string>, text: string, i: nat, j: nat)
    requires NoDuplicates(keywords) && i < |keywords| && j < |keywords| && i != j
    requires Occurs(keywords[i], keywords[j]) && Occurs(keywords[j], text)
    ensures Occurs(keywords[i], text)
    ensures Score(keywords, text) >= 2
  {
    OccursTransitive(keywords[i], keywords[j], text);
    ScoreCountsMatchingKeywords(keywords, text);
    var found := set kw | kw in keywords && Occurs(kw, text);
    var pair := {keywords[i], keywords[j]};
    assert pair <= found;
    assert found == pair + (found - pair);
    assert |pair| == 2;
  }

  /** A query containing "reduce cost" also contains the costing keyword "cost", so it scores at least 2 for costing. */
  lemma ReduceCostCountsTwice(text: string)
    requires Occurs("reduce cost", text)
    ensures Occurs("cost", text)
    ensures Score(CostingKeywords, text) >= 2
  {
    KeywordTablesHaveNoDuplicates();
    OccursAtOccurs("cost", "reduce cost", 7);
    assert CostingKeywords[0] == "cost" && CostingKeywords[10] == "reduce cost";
    SubstringKeywordsCount(CostingKeywords, text, 0, 10);
  }

  /** The three keyword tables have no repeated entries. */
  lemma KeywordTablesHaveNoDuplicates()
    ensures NoDuplicates(MigrationKeywords)
    ensures NoDuplicates(ArchitectureKeywords)
    ensures NoDuplicates(CostingKeywords)
  {
  }

  /** The score of domain `d` for a raw query, after lower-casing it. */
  function DomainScore(d: Domain, query: string): nat {
    Score(Keywords(d), Lower(query))
  }

  /** A domain's score counts the distinct keywords of its table found in the lower-cased query. */
  lemma DomainScoreCountsKeywords(d: Domain, query: string)
    ensures DomainScore(d, query) == |set kw | kw in Keywords(d) && Occurs(kw, Lower(query))|
    ensures DomainScore(d, query) == 0 <==> forall kw :: kw in Keywords(d) ==> !Occurs(kw, Lower(query))
  {
    KeywordTablesHaveNoDuplicates();
    ScoreCountsMatchingKeywords(Keywords(d), Lower(query));
    ScoreZeroIffNoKeyword(Keywords(d), Lower(query));
  }

  /**
   * The index that Python's `max(matches, key=score)` selects: scanning left to
   * right, the running best is replaced only by a strictly higher score, so the
   * first maximal entry wins. `best` is the running best among `matches[..next]`.
   */
  function MaxIndexFrom(matches: seq<(Domain, nat)>, best: nat, next: nat): (i: nat)
    requires best < next <= |matches|
    requires forall t :: 0 <= t < next ==> matches[t].1 <= matches[best].1
    requires forall t :: 0 <= t < best ==> matches[t].1 < matches[best].1
    ensures i < |matches|
    ensures forall t :: 0 <= t < |matches| ==> matches[t].1 <= matches[i].1
    ensures forall t :: 0 <= t < i ==> matches[t].1 < matches[i].1
    decreases |matches| - next
  {
    if next == |matches| then best
    else MaxIndexFrom(matches, if matches[next].1 > matches[best].1 then next else best, next + 1)
  }

  /** The (domain, score) pairs with a positive score, in the order migration, architecture, costing. */
  function Matches(m: nat, a: nat, c: nat): (ms: seq<(Domain, nat)>)
    ensures forall t :: 0 <= t < |ms| ==> ms[t].1 > 0
  {
    (if m > 0 then [(Migration, m)] else [])
    + (if a > 0 then [(Architecture, a)] else [])
    + (if c > 0 then [(Costing, c)] else [])
  }

  /** The score of `d` among the three scores listed in domain order. */
  function ScoreOf(d: Domain, m: nat, a: nat, c: nat): nat {
    match d
    case Migration => m
    case Architecture => a
    case Costing => c
  }

  /**
   * The list holds exactly the domains with a positive score, each with its
   * score, in the order migration, architecture, costing.
   */
  lemma MatchesAreScoringDomains(m: nat, a: nat, c: nat)
    ensures var ms := Matches(m, a, c);
            (forall t :: 0 <= t < |ms| ==> ms[t].1 > 0 && ms[t].1 == ScoreOf(ms[t].0, m, a, c))
            && (forall d: Domain :: ScoreOf(d, m, a, c) > 0 <==> (d, ScoreOf(d, m, a, c)) in ms)
            && (forall t, u :: 0 <= t < u < |ms| ==> ms[t].0.Rank() < ms[u].0.Rank())
  {
  }

  /**
   * The selection step of `_detect_domain` on the three scores: `'all'` when no
   * domain scores, the only scoring domain when there is one, and otherwise the
   * domain that `max` picks among the scoring ones.
   */
  function Select(m: nat, a: nat, c: nat): Selector {
    var matches := Matches(m, a, c);
    if |matches| == 0 then All
    else if |matches| == 1 then Single(matches[0].0)
    else Single(matches[MaxIndexFrom(matches, 0, 1)].0)
  }

  /**
   * Selection yields `'all'` exactly when no domain scores, and otherwise the
   * first domain, in the order migration, architecture, costing, whose score is
   * the maximum, which is then positive.
   */
  lemma SelectPicksFirstMaximum(m: nat, a: nat, c: nat)
    ensures Select(m, a, c) == All <==> m == 0 && a == 0 && c == 0
    ensures Select(m, a, c).Single? ==> ScoreOf(Select(m, a, c).domain, m, a, c) > 0
    ensures Select(m, a, c).Single? ==> forall d: Domain ::
              ScoreOf(d, m, a, c) <= ScoreOf(Select(m, a, c).domain, m, a, c)
    ensures Select(m, a, c).Single? ==> forall d: Domain ::
              d.Rank() < Select(m, a, c).domain.Rank() ==> ScoreOf(d, m, a, c) < ScoreOf(Select(m, a, c).domain, m, a, c)
  {
    var matches := Matches(m, a, c);
    if m > 0 && a > 0 && c > 0 {
      assert matches == [(Migration, m), (Architecture, a), (Costing, c)];
      assert forall d: Domain :: matches[d.Rank()] == (d, ScoreOf(d, m, a, c));
    } else if m > 0 && a > 0 {
      assert matches == [(Migration, m), (Architecture, a)];
    } else if m > 0 && c > 0 {
      assert matches == [(Migration, m), (Costing, c)];
    } else if a > 0 && c > 0 {
      assert matches == [(Architecture, a), (Costing, c)];
    }
  }

  /**
   * `_detect_domain`: `'all'` exactly when no domain scores; otherwise a domain
   * with a positive score that no domain exceeds and that every domain listed
   * before it scores strictly less than (the tie-break order migration,
   * architecture, costing).
   */
  function DetectDomain(query: string): (sel: Selector)
    ensures sel == All <==> forall d: Domain :: DomainScore(d, query) == 0
    ensures sel.Single? ==> DomainScore(sel.domain, query) > 0
    ensures sel.Single? ==> forall d: Domain :: DomainScore(d, query) <= DomainScore(sel.domain, query)
    ensures sel.Single? ==> forall d: Domain ::
              d.Rank() < sel.domain.Rank() ==> DomainScore(d, query) < DomainScore(sel.domain, query)
  {
    var m := DomainScore(Migration, query);
    var a := DomainScore(Architecture, query);
    var c := DomainScore(Costing, query);
    assert forall d: Domain :: DomainScore(d, query) == ScoreOf(d, m, a, c);
    SelectPicksFirstMaximum(m, a, c);
    Select(m, a, c)
  }
}
