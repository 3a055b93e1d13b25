/**
 * `DatabricksKnowledgeBase`: three per-domain vector stores, the readiness flag
 * that guards retrieval, loading the stores from their directories, building
 * them, and turning the chunks a similarity search returns into the context
 * text handed to the language model.
 *
 * The vector stores themselves stay abstract. A store is named by its
 * collection and directory; its similarity search is a function parameter that
 * returns the chunks found, or `None` when the search raised. The filesystem is
 * the set of directory names present under the base directory, and whether
 * Chroma manages to open a directory is a predicate parameter.
 */
module Retrieval {
  import opened Wrappers
  import opened Text
  import opened Classifier
  import opened Fetching

  // ---------------------------------------------------------------------------
  // Stores and state
  // ---------------------------------------------------------------------------

  /** An opened Chroma store: its collection name and its persist directory. */
  datatype Store = Store(collection: string, directory: string)

  /** A search hit: the chunk text and its `source` and `domain` metadata, each possibly absent. */
  datatype Chunk = Chunk(content: string, source: Option<string>, domain: Option<string>)

  /** `store.similarity_search(query, k=n)`: the chunks found, or `None` when the call raised. */
  type SearchFn = (Store, string, int) -> Option<seq<Chunk>>

  /** The fields of a knowledge base, as a value. */
  datatype KbState = KbState(migration: Option<Store>, architecture: Option<Store>,
                             costing: Option<Store>, initialized: bool)

  /** The state right after construction: no store, not initialized. */
  const Fresh := KbState(None, None, None, false)

  /** The store of a domain as `initialize` opens it: collection and directory both named after the domain. */
  function OpenedStore(d: Domain): (st: Store)
    ensures st.collection == d.Name() && st.directory == d.Name()
  {
    Store(d.Name(), d.Name())
  }

  /** The three domains' stores never share a directory or a collection. */
  lemma OpenedStoresDistinct(d1: Domain, d2: Domain)
    ensures OpenedStore(d1).directory == OpenedStore(d2).directory ==> d1 == d2
    ensures OpenedStore(d1).collection == OpenedStore(d2).collection ==> d1 == d2
  {
    assert "migration" != "architecture" && "migration" != "costing" && "architecture" != "costing";
  }

  // ---------------------------------------------------------------------------
  // initialize
  // ---------------------------------------------------------------------------

  /** The three directories that `initialize` looks for. */
  predicate AllDirectoriesExist(dirs: set<string>) {
    "migration" in dirs && "architecture" in dirs && "costing" in dirs
  }

  /**
   * `initialize` as a function of the state, the directories present and
   * whether opening each store succeeds (`loadOk`, by domain name): the new
   * state and the returned flag. The stores are opened in the order
   * migration, architecture, costing; the first failure returns `false` and
   * keeps the stores opened before it.
   */
  function InitResult(s: KbState, dirs: set<string>, loadOk: string -> bool): (res: (KbState, bool))
    // all-or-nothing: ready exactly when every directory exists and every store opens
    ensures res.1 <==> AllDirectoriesExist(dirs) && loadOk("migration") && loadOk("architecture") && loadOk("costing")
    ensures res.1 ==> res.0 == KbState(Some(OpenedStore(Migration)), Some(OpenedStore(Architecture)),
                                       Some(OpenedStore(Costing)), true)
    // a missing directory touches nothing
    ensures !AllDirectoriesExist(dirs) ==> res.0 == s
    // a failed load never sets (nor clears) the flag, and only stores opened before the failure change
    ensures !res.1 ==> res.0.initialized == s.initialized
    ensures !res.1 && AllDirectoriesExist(dirs) ==>
              (res.0.migration == if loadOk("migration") then Some(OpenedStore(Migration)) else s.migration)
              && (res.0.architecture == if loadOk("migration") && loadOk("architecture")
                                        then Some(OpenedStore(Architecture)) else s.architecture)
              && res.0.costing == s.costing
  {
    if !AllDirectoriesExist(dirs) then (s, false)
    else if !loadOk("migration") then (s, false)
    else
      var s1 := s.(migration := Some(OpenedStore(Migration)));
      if !loadOk("architecture") then (s1, false)
      else
        var s2 := s1.(architecture := Some(OpenedStore(Architecture)));
        if !loadOk("costing") then (s2, false)
        else (s2.(costing := Some(OpenedStore(Costing)), initialized := true), true)
  }

  /** The readiness flag is only ever set with all three stores open. */
  predicate StoresOpenWhenReady(s: KbState) {
    s.initialized ==> s.migration.Some? && s.architecture.Some? && s.costing.Some?
  }

  /** A new base satisfies StoresOpenWhenReady, and `initialize` preserves it, whatever its outcome. */
  lemma InitKeepsStoresOpenWhenReady(s: KbState, dirs: set<string>, loadOk: string -> bool)
    requires StoresOpenWhenReady(s)
    ensures StoresOpenWhenReady(Fresh)
    ensures StoresOpenWhenReady(InitResult(s, dirs, loadOk).0)
  {
  }

  // ---------------------------------------------------------------------------
  // build_all_knowledge_bases: where the stores are written
  // ---------------------------------------------------------------------------

  /**
   * The directories present after `build_all_knowledge_bases` as written: the
   * architecture store is persisted under "optimization".
   */
  function BuiltDirsAsWritten(dirs: set<string>): (after: set<string>)
    ensures dirs <= after && "migration" in after && "optimization" in after && "costing" in after
    ensures "architecture" in after <==> "architecture" in dirs
  {
    dirs + {"migration", "optimization", "costing"}
  }

  /**
   * As written, building on a base directory without an "architecture"
   * directory never makes the knowledge base ready: the `initialize` that ends
   * the build finds no "architecture" directory and leaves the state alone.
   */
  lemma BuildAsWrittenNeverReady(s: KbState, dirs: set<string>, loadOk: string -> bool)
    requires "architecture" !in dirs
    ensures !InitResult(s, BuiltDirsAsWritten(dirs), loadOk).1
    ensures InitResult(s, BuiltDirsAsWritten(dirs), loadOk).0 == s
  {
  }

  /** The directories present after a build that persists each store under its domain's name. */
  function BuiltDirs(dirs: set<string>): (after: set<string>)
    ensures dirs <= after && AllDirectoriesExist(after)
    ensures forall d :: d in after && d !in dirs ==> d == "migration" || d == "architecture" || d == "costing"
  {
    dirs + {Migration.Name(), Architecture.Name(), Costing.Name()}
  }

  /** After the corrected build, `initialize` succeeds exactly when the three stores open. */
  lemma BuildThenInitializeReady(s: KbState, dirs: set<string>, loadOk: string -> bool)
    ensures InitResult(s, BuiltDirs(dirs), loadOk).1 <==> loadOk("migration") && loadOk("architecture") && loadOk("costing")
  {
  }

  // ---------------------------------------------------------------------------
  // get_relevant_context: routing
  // ---------------------------------------------------------------------------

  /** `max(1, k // 3)`; Python's `//` and Dafny's `/` agree for a positive divisor. */
  function PerDomainK(k: int): (n: int)
    ensures n >= 1
    ensures 3 * n <= k || n == 1
    ensures k < 3 * (n + 1)
  {
    if k / 3 > 1 then k / 3 else 1
  }

  /** Adds the hits of one store to the results so far; a raised search makes the whole retrieval fail. */
  function SearchInto(acc: Option<seq<Chunk>>, store: Option<Store>, query: string, n: int,
                      search: SearchFn): Option<seq<Chunk>>
  {
    if acc.None? || store.None? then acc
    else
      match search(store.value, query, n)
      case None => None
      case Some(hits) => Some(acc.value + hits)
  }

  /**
   * The results that `get_relevant_context` collects for a target domain name:
   * one store searched with `k`, or every opened store with `max(1, k // 3)` in
   * the order migration, architecture, costing; an unknown name, or a single
   * domain whose store is not open, yields no results.
   */
  function Retrieve(s: KbState, query: string, target: string, k: int, search: SearchFn): Option<seq<Chunk>> {
    if target == "migration" && s.migration.Some? then search(s.migration.value, query, k)
    else if target == "architecture" && s.architecture.Some? then search(s.architecture.value, query, k)
    else if target == "costing" && s.costing.Some? then search(s.costing.value, query, k)
    else if target == "all" then
      var n := PerDomainK(k);
      SearchInto(SearchInto(SearchInto(Some([]), s.migration, query, n, search),
                            s.architecture, query, n, search),
                 s.costing, query, n, search)
    else Some([])
  }

  /** The domain name a call searches: the override when given, otherwise the detected one. */
  function Target(query: string, domain: Option<string>): (t: string)
    ensures domain.Some? ==> t == domain.value
    ensures domain.None? ==> t in {"migration", "architecture", "costing", "all"}
  {
    if domain.Some? then domain.value else DetectDomain(query).Name()
  }

  /** A single domain is served by its own store alone, searched with the full `k`. */
  lemma RetrieveSingle(s: KbState, query: string, d: Domain, k: int, search: SearchFn)
    ensures var st := match d case Migration => s.migration
                              case Architecture => s.architecture
                              case Costing => s.costing;
            Retrieve(s, query, d.Name(), k, search) == if st.Some? then search(st.value, query, k) else Some([])
  {
  }

  /** With all three stores open, "all" concatenates their hits for `max(1, k // 3)` in domain order. */
  lemma RetrieveAllOrder(s: KbState, query: string, k: int, search: SearchFn,
                         m: seq<Chunk>, a: seq<Chunk>, c: seq<Chunk>)
    requires s.migration.Some? && s.architecture.Some? && s.costing.Some?
    requires search(s.migration.value, query, PerDomainK(k)) == Some(m)
    requires search(s.architecture.value, query, PerDomainK(k)) == Some(a)
    requires search(s.costing.value, query, PerDomainK(k)) == Some(c)
    ensures Retrieve(s, query, "all", k, search) == Some(m + a + c)
  {
    assert [] + m == m;
  }

  /** The length bound assumed of Chroma: a search for `n` hits returns at most `n` of them (none for `n <= 0`). */
  ghost predicate SearchBounded(search: SearchFn) {
    forall st, q, n :: search(st, q, n).Some? ==> |search(st, q, n).value| <= (if n < 0 then 0 else n)
  }

  lemma SearchIntoBound(acc: Option<seq<Chunk>>, store: Option<Store>, query: string, n: int,
                        search: SearchFn, before: nat)
    requires SearchBounded(search) && n >= 1
    requires acc.Some? ==> |acc.value| <= before
    ensures var r := SearchInto(acc, store, query, n, search); r.Some? ==> |r.value| <= before + n
  {
    if acc.Some? && store.Some? {
      var st := store.value;
      assert search(st, query, n).Some? ==> |search(st, query, n).value| <= (if n < 0 then 0 else n);
    }
  }

  /**
   * Under the length bound, a single domain yields at most `k` results and
   * "all" at most `3 * max(1, k // 3)`.
   */
  lemma RetrieveBound(s: KbState, query: string, target: string, k: int, search: SearchFn)
    requires SearchBounded(search)
    ensures var r := Retrieve(s, query, target, k, search);
            r.Some? ==> |r.value| <= if target == "all" then 3 * PerDomainK(k) else (if k < 0 then 0 else k)
  {
    if target == "all" {
      var n := PerDomainK(k);
      var r1 := SearchInto(Some([]), s.migration, query, n, search);
      SearchIntoBound(Some([]), s.migration, query, n, search, 0);
      var r2 := SearchInto(r1, s.architecture, query, n, search);
      SearchIntoBound(r1, s.architecture, query, n, search, n);
      SearchIntoBound(r2, s.costing, query, n, search, 2 * n);
    }
  }

  // ---------------------------------------------------------------------------
  // get_relevant_context: formatting
  // ---------------------------------------------------------------------------

  const Separator: string := "\n\n---\n\n"

  /** `source.split('/')[-1]`: the text after the last "/" (see LastSegmentIsLastPiece). */
  function LastSegment(source: string): string
    decreases |source|
  {
    if source == "" || source[|source| - 1] == '/' then ""
    else LastSegment(source[..|source| - 1]) + [source[|source| - 1]]
  }

  /**
   * The last segment is the longest suffix without a "/": a suffix of the
   * source, free of "/", and either the whole source (no "/" at all) or
   * preceded by a "/".
   */
  lemma {:induction false} LastSegmentIsLastPiece(source: string)
    ensures var r := LastSegment(source);
            |r| <= |source| && source[|source| - |r|..] == r && '/' !in r
            && ('/' in source ==> |r| < |source| && source[|source| - |r| - 1] == '/')
            && ('/' !in source ==> r == source)
    decreases |source|
  {
    if source != "" && source[|source| - 1] != '/' {
      var n := |source| - 1;
      LastSegmentIsLastPiece(source[..n]);
      assert source == source[..n] + [source[n]];
    }
  }

  /**
   * The source as shown in a reference: the text after the last "/" when there
   * is one (`'/' in source`), otherwise the whole source.
   */
  function Display(source: string): string {
    if '/' in source then LastSegment(source) else source
  }

  /** What a reference shows of its source: a "/"-free suffix, right after the last "/" when there is one. */
  lemma DisplayIsLastPiece(source: string)
    ensures var r := Display(source);
            '/' !in r && |r| <= |source| && source[|source| - |r|..] == r
            && ('/' in source ==> |r| < |source| && source[|source| - |r| - 1] == '/')
            && ('/' !in source ==> r == source)
  {
    LastSegmentIsLastPiece(source);
  }

  /** The reference header of the i-th result, numbered from 1. */
  function Header(c: Chunk, i: nat): string {
    var domain := if c.domain.Some? then c.domain.value else "unknown";
    var source := if c.source.Some? then c.source.value else "Unknown";
    "[" + Upper(domain) + " - Reference " + DecimalString(i) + ": " + Display(source) + "]"
  }

  /** One formatted result: its header line, then its content. */
  function FormatPart(c: Chunk, i: nat): string {
    Header(c, i) + "\n" + c.content
  }

  /** The formatted parts, the j-th result numbered j + 1. */
  function Parts(results: seq<Chunk>): (parts: seq<string>)
    ensures |parts| == |results|
    ensures forall j :: 0 <= j < |results| ==> parts[j] == FormatPart(results[j], j + 1)
  {
    seq(|results|, j requires 0 <= j < |results| => FormatPart(results[j], j + 1))
  }

  /** The context text: the formatted parts joined by the separator, or "" when nothing was found. */
  function Format(results: seq<Chunk>): string {
    if results == [] then "" else Join(Parts(results), Separator)
  }

  /** n results give n parts and exactly n - 1 separators between them. */
  lemma FormatLength(results: seq<Chunk>)
    requires results != []
    ensures |Format(results)| == TotalLength(Parts(results)) + (|results| - 1) * |Separator|
  {
    JoinLength(Parts(results), Separator);
  }

  /** Formatting at least one result gives a non-empty text. */
  lemma FormatNonEmpty(results: seq<Chunk>)
    requires results != []
    ensures Format(results) != ""
  {
    var parts := Parts(results);
    JoinLength(parts, Separator);
    if |parts| == 1 {
      assert TotalLength(parts) == |FormatPart(results[0], 1)| + TotalLength(parts[1..]);
    }
  }

  /**
   * `get_relevant_context(query, k, domain)` as a function of the state and the
   * search outcomes. The text is empty exactly when the base is not ready, a
   * search raised, or nothing was found; otherwise it is the formatted results.
   */
  function Context(s: KbState, query: string, k: int, domain: Option<string>, search: SearchFn): (ctx: string)
    ensures ctx == "" <==> (!s.initialized
                            || match Retrieve(s, query, Target(query, domain), k, search)
                               case None => true
                               case Some(results) => results == [])
    ensures s.initialized && Retrieve(s, query, Target(query, domain), k, search).Some? ==>
              ctx == Format(Retrieve(s, query, Target(query, domain), k, search).value)
  {
    if !s.initialized then ""
    else
      match Retrieve(s, query, Target(query, domain), k, search)
      case None => ""
      case Some(results) =>
        assert results != [] ==> Format(results) != "" by {
          if results != [] { FormatNonEmpty(results); }
        }
        Format(results)
  }

  /**
   * Special cases of the rule above: the context is empty when the base is not
   * ready, for an unknown domain name, for a single domain whose store is
   * absent, and when no store is open.
   */
  lemma ContextEmptyCases(s: KbState, query: string, k: int, domain: Option<string>, search: SearchFn)
    ensures !s.initialized ==> Context(s, query, k, domain, search) == ""
    ensures Target(query, domain) !in {"migration", "architecture", "costing", "all"} ==> Context(s, query, k, domain, search) == ""
    ensures var t := Target(query, domain);
            ((t == "migration" && s.migration.None?) || (t == "architecture" && s.architecture.None?)
             || (t == "costing" && s.costing.None?)) ==> Context(s, query, k, domain, search) == ""
    ensures s.initialized && s.migration.None? && s.architecture.None? && s.costing.None? ==> Context(s, query, k, domain, search) == ""
  {
  }

  /**
   * On a ready base whose stores are open, "all" yields the migration,
   * architecture and costing hits for `max(1, k // 3)`, formatted in that order.
   */
  lemma ContextAllOrder(s: KbState, query: string, k: int, search: SearchFn,
                        m: seq<Chunk>, a: seq<Chunk>, c: seq<Chunk>)
    requires StoresOpenWhenReady(s) && s.initialized
    requires search(s.migration.value, query, PerDomainK(k)) == Some(m)
    requires search(s.architecture.value, query, PerDomainK(k)) == Some(a)
    requires search(s.costing.value, query, PerDomainK(k)) == Some(c)
    ensures Context(s, query, k, Some("all"), search) == Format(m + a + c)
  {
    RetrieveAllOrder(s, query, k, search, m, a, c);
  }

  // ---------------------------------------------------------------------------
  // The knowledge base object
  // ---------------------------------------------------------------------------

  class KnowledgeBase {
    var migrationStore: Option<Store>
    var architectureStore: Option<Store>
    var costingStore: Option<Store>
    var initialized: bool

    function State(): KbState
      reads this
    {
      KbState(migrationStore, architectureStore, costingStore, initialized)
    }

    constructor ()
      ensures State() == Fresh
    {
      migrationStore, architectureStore, costingStore := None, None, None;
      initialized := false;
    }

    /**
     * `initialize`: opens the three stores when all three directories exist,
     * setting the flag only after the last one opened.
     */
    method Initialize(dirs: set<string>, loadOk: string -> bool) returns (ready: bool)
      modifies this
      ensures (State(), ready) == InitResult(old(State()), dirs, loadOk)
    {
      if !("migration" in dirs && "architecture" in dirs && "costing" in dirs) {
        return false;
      }
      if !loadOk("migration") {
        return false;
      }
      migrationStore := Some(OpenedStore(Migration));
      if !loadOk("architecture") {
        return false;
      }
      architectureStore := Some(OpenedStore(Architecture));
      if !loadOk("costing") {
        return false;
      }
      costingStore := Some(OpenedStore(Costing));
      initialized := true;
      return true;
    }

    /**
     * `build_all_knowledge_bases` with each store persisted under its domain's
     * directory: builds the three document sets, then re-runs `initialize`.
     * Returns the directories present afterwards and the (chunks, docs) counts
     * per domain.
     */
    method BuildAllKnowledgeBases(dirs: set<string>, loadOk: string -> bool,
                                  split: seq<Document> -> seq<Document>,
                                  migrationUrls: seq<string>, migrationPages: seq<Option<string>>,
                                  architectureUrls: seq<string>, architecturePages: seq<Option<string>>,
                                  costingUrls: seq<string>, costingPages: seq<Option<string>>)
      returns (after: set<string>, counts: seq<(nat, nat)>)
      requires |migrationPages| == |migrationUrls| && |architecturePages| == |architectureUrls|
      requires |costingPages| == |costingUrls|
      modifies this
      ensures after == BuiltDirs(dirs)
      ensures State() == InitResult(old(State()), after, loadOk).0
      ensures counts == [KbCounts(migrationUrls, migrationPages, "migration", split),
                         KbCounts(architectureUrls, architecturePages, "architecture", split),
                         KbCounts(costingUrls, costingPages, "costing", split)]
    {
      ghost var before := State();
      var mChunks, mDocs := BuildSingleKb(migrationUrls, migrationPages, "migration", split);
      after := dirs + {"migration"};
      var aChunks, aDocs := BuildSingleKb(architectureUrls, architecturePages, "architecture", split);
      after := after + {"architecture"};
      var cChunks, cDocs := BuildSingleKb(costingUrls, costingPages, "costing", split);
      after := after + {"costing"};
      assert after == BuiltDirs(dirs) && State() == before;
      var _ := Initialize(after, loadOk);
      counts := [(mChunks, mDocs), (aChunks, aDocs), (cChunks, cDocs)];
    }

    /** `results.extend(store.similarity_search(query, k=n))` when the store is open. */
    static method Extend(acc: Option<seq<Chunk>>, store: Option<Store>, query: string, n: int, search: SearchFn)
      returns (found: Option<seq<Chunk>>)
      ensures found == SearchInto(acc, store, query, n, search)
    {
      found := acc;
      if acc.Some? && store.Some? {
        var hits := search(store.value, query, n);
        found := if hits.None? then None else Some(acc.value + hits.value);
      }
    }

    /** The search part of `get_relevant_context`: `None` when a search raised. */
    method Collect(query: string, target: string, k: int, search: SearchFn) returns (found: Option<seq<Chunk>>)
      ensures found == Retrieve(State(), query, target, k, search)
    {
      if target == "migration" && migrationStore.Some? {
        found := search(migrationStore.value, query, k);
      } else if target == "architecture" && architectureStore.Some? {
        found := search(architectureStore.value, query, k);
      } else if target == "costing" && costingStore.Some? {
        found := search(costingStore.value, query, k);
      } else if target == "all" {
        var perDomainK := PerDomainK(k);
        found := Extend(Some([]), migrationStore, query, perDomainK, search);
        found := Extend(found, architectureStore, query, perDomainK, search);
        found := Extend(found, costingStore, query, perDomainK, search);
      } else {
        found := Some([]);
      }
    }

    /** The numbering and formatting loop and the final join of `get_relevant_context`. */
    static method FormatResults(results: seq<Chunk>) returns (context: string)
      ensures context == Format(results)
    {
      if results == [] {
        return "";
      }
      ghost var parts := Parts(results);
      var contextParts: seq<string> := [];
      var i := 0;
      while i < |results|
        invariant 0 <= i <= |results|
        invariant contextParts == parts[..i]
      {
        assert parts[..i + 1] == parts[..i] + [parts[i]];
        contextParts := contextParts + [FormatPart(results[i], i + 1)];
        i := i + 1;
      }
      assert contextParts == parts;
      context := Join(contextParts, Separator);
    }

    /** `get_relevant_context`: the guard, the routing by (detected) domain and the formatting. */
    method GetRelevantContext(query: string, k: int, domain: Option<string>, search: SearchFn)
      returns (context: string)
      ensures context == Context(State(), query, k, domain, search)
    {
      if !initialized {
        return "";
      }
      var target := if domain.Some? then domain.value else DetectDomain(query).Name();
      var found := Collect(query, target, k, search);
      if found.None? {
        return "";
      }
      context := FormatResults(found.value);
    }
  }
}
