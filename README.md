# Multi-domain retrieval core of the Databricks RAG chatbot, in Dafny

`chatbot_with_rag.py` is a Streamlit chatbot that answers Databricks questions.
It keeps three Chroma vector stores of documentation pages, one per domain:
migration, architecture and costing. This project models the deterministic
logic around those stores and proves properties of it:

- **Domain detection** (`_detect_domain`, module `Classifier`). A query is
  lower-cased and scored against three keyword tables. The result is `'all'`
  when nothing scores. Otherwise it is the best-scoring domain, and Python's
  `max` settles a tie in favour of the earliest of migration, architecture,
  costing.
- **Fetched-text clean-up and document filtering** (the end of `fetch_webpage`
  and `_build_single_kb`, module `Fetching`). Lines are stripped, split at
  double spaces, stripped again, emptied pieces dropped and the rest joined by
  newlines. Only pages with non-empty text become documents, tagged with their
  URL and domain.
- **The knowledge base object** (`DatabricksKnowledgeBase`, module
  `Retrieval`, class `KnowledgeBase`):
  - `initialize` opens the three stores all-or-nothing and sets the readiness
    flag.
  - `build_all_knowledge_bases` builds the three stores and re-runs
    `initialize`.
  - `get_relevant_context` is guarded by the flag. It routes to one store or to
    all three, then formats the hits as numbered, domain-tagged references
    joined by `"\n\n---\n\n"`.
- **One chat turn** (module `Chat`). The prompt is logged, the outbound message
  list is assembled with the retrieved documentation injected before the last
  user message, the streamed reply is accumulated (or replaced by
  `"Error: …"`), and the reply is logged.

Module `Text` models the pieces of Python's `str` that this logic uses. These
are `isspace`, `strip`, `in`, `split`, `join`, `splitlines`, `lower`/`upper`
and `str(int)`. Module `Wrappers` holds `Option`.

External effects become parameters:

- A page download with HTML extraction is an `Option<string>`: the extracted
  text, or `None` when the fetch raised.
- A similarity search is a function `(Store, query, n) -> Option<seq<Chunk>>`,
  where `None` means the call raised.
- The filesystem is the set of directory names under the base directory.
- Opening a Chroma store is a predicate `loadOk` on the domain name.
- The text splitter is a function on document lists.
- The language-model call is a function from the outbound messages to the
  streamed fragments and an optional error.

Two behaviours of the code that a reader may not expect:

- When the reply stream raises, the code replaces any partial reply with
  `"Error: …"` (line 1042); it does not keep the partial text with a marker
  appended.
- When a store fails to open, the stores opened before it stay assigned
  (lines 157-181); loading is all-or-nothing only for the readiness flag and
  the result.

## Model

| member | source | states |
|---|---|---|
| Text.Strip | chatbot_with_rag.py:201-202 | `strip` leaves a slice of the input that neither starts nor ends with whitespace, and everything removed before and after it is whitespace |
| Text.SplitPieces | chatbot_with_rag.py:202 | no piece of `split(sep)` contains `sep`; pieces of a line hold no line break |
| Text.SplitLinesOfJoin | chatbot_with_rag.py:201-203 | `splitlines` of non-empty break-free lines joined by "\n" gives the lines back |
| Text.JoinLength | chatbot_with_rag.py:397 | joining n >= 1 parts inserts exactly n - 1 separators |
| Text.DecimalString | chatbot_with_rag.py:394 | the reference number is rendered as digits with no leading zero, except for 0 itself |
| Text.DecimalRoundTrip | chatbot_with_rag.py:394 | the decimal rendering of a reference number reads back as that number |
| Classifier.KeywordTablesHaveNoDuplicates | chatbot_with_rag.py:92-105 | no keyword table repeats an entry |
| Classifier.ScoreZeroIffNoKeyword | chatbot_with_rag.py:307-310 | a score is zero exactly when no keyword of the table occurs in the text |
| Classifier.ScoreCountsMatchingKeywords | chatbot_with_rag.py:307-310 | for a table without repeats, the score is the number of distinct keywords occurring in the text |
| Classifier.DomainScoreCountsKeywords | chatbot_with_rag.py:305-310 | a domain's score is the number of its keywords that are substrings of the lower-cased query, and it is zero iff none is |
| Text.OccursTransitive | chatbot_with_rag.py:307-310 | `in` is transitive: a pattern inside a string that occurs in the text occurs in the text |
| Classifier.SubstringKeywordsCount | chatbot_with_rag.py:307-310 | for any table without repeats, a keyword occurring inside another keyword that the text contains is found as well, so the table scores at least 2 |
| Classifier.ReduceCostCountsTwice | chatbot_with_rag.py:102-105 | on the actual costing table, a query containing "reduce cost" also matches "cost" and scores at least 2 |
| Classifier.MatchesAreScoringDomains | chatbot_with_rag.py:312-319 | the list holds exactly the domains with a positive score, each with its score, in the order migration, architecture, costing |
| Classifier.MaxIndexFrom | chatbot_with_rag.py:328 | `max` picks a maximal entry that every earlier entry scores strictly less than |
| Classifier.SelectPicksFirstMaximum | chatbot_with_rag.py:312-328 | `'all'` iff all three scores are zero; otherwise a domain whose positive score is maximal, ahead of every earlier domain on a tie |
| Classifier.DetectDomain | chatbot_with_rag.py:300-328 | the same selection rule stated on the keyword scores of the query |
| Fetching.NoDoubleSpaceIffNotOccurs | chatbot_with_rag.py:202 | no two adjacent spaces is the same as `"  " not in s` |
| Fetching.StripKeepsClean | chatbot_with_rag.py:202 | stripping a phrase without double spaces or breaks yields "" or a clean line |
| Fetching.StrippedPhrasesAreClean | chatbot_with_rag.py:202-203 | every kept phrase is a clean line |
| Fetching.LinePhrasesAreClean | chatbot_with_rag.py:201-203 | every phrase a line contributes is clean |
| Fetching.PhrasesAreClean | chatbot_with_rag.py:201-203 | every phrase of every line is clean |
| Fetching.CleanPhrasesAreClean | chatbot_with_rag.py:201-203 | every phrase of a page text is non-empty, trimmed, without double space or line break |
| Fetching.CleanTextLines | chatbot_with_rag.py:201-203 | the lines of the cleaned text are exactly the cleaned phrases, each of them clean |
| Fetching.LinePhrasesOfCleanLine | chatbot_with_rag.py:201-203 | a clean line is its own only phrase |
| Fetching.PhrasesOfCleanLines | chatbot_with_rag.py:201-203 | clean lines pass the phrase step unchanged |
| Fetching.CleanTextIdempotent | chatbot_with_rag.py:201-203 | cleaning cleaned text changes nothing |
| Fetching.FetchWebpageIsClean | chatbot_with_rag.py:198-208 | whatever the fetch outcome, every line of the text is clean and a second clean-up leaves the text unchanged |
| Fetching.FetchedTextsAreClean | chatbot_with_rag.py:215-219 | each URL's text is "" when its fetch failed and clean text otherwise |
| Fetching.Documents | chatbot_with_rag.py:215-226 | at most one document per URL, each with non-empty content and the given domain |
| Fetching.KeptIndices | chatbot_with_rag.py:221 | the positions of the non-empty texts, increasing and complete |
| Fetching.DocumentsAreKeptPages | chatbot_with_rag.py:215-226 | the j-th document is the j-th URL with non-empty text, with that text, URL and domain |
| Fetching.DocumentsSnoc | chatbot_with_rag.py:219-226 | one more URL adds its document exactly when its text is non-empty |
| Fetching.CollectDocuments | chatbot_with_rag.py:213-226 | the collecting loop yields exactly those documents |
| Fetching.KbCounts | chatbot_with_rag.py:253 | the document count is the number of pages with non-empty text, at most the number of URLs |
| Fetching.BuildSingleKb | chatbot_with_rag.py:210-253 | returns `(len(splits), len(documents))` of the collected documents |
| Retrieval.OpenedStoresDistinct | chatbot_with_rag.py:158-174 | the three stores are opened on three distinct directories and three distinct collections |
| Retrieval.InitResult | chatbot_with_rag.py:137-181 | ready iff all three directories exist and all three stores open; a missing directory changes nothing; a failure never sets the flag and keeps the stores opened before it |
| Retrieval.InitKeepsStoresOpenWhenReady | chatbot_with_rag.py:116-181 | a new base, and every state `initialize` leaves, has all three stores open whenever the flag is set |
| Retrieval.BuiltDirsAsWritten | chatbot_with_rag.py:255-261 | as written, the build adds "migration", "optimization" and "costing" and leaves "architecture" as it was |
| Retrieval.BuildAsWrittenNeverReady | chatbot_with_rag.py:255-292 | as written, building without an existing "architecture" directory never makes the base ready |
| Retrieval.BuiltDirs | chatbot_with_rag.py:255-261 | the corrected build leaves all three directories `initialize` checks, and adds nothing else |
| Retrieval.BuildThenInitializeReady | chatbot_with_rag.py:255-292 | after the corrected build, the base is ready iff the three stores open |
| Retrieval.KnowledgeBase.constructor | chatbot_with_rag.py:116-126 | a new base has no store and is not initialized |
| Retrieval.KnowledgeBase.Initialize | chatbot_with_rag.py:137-181 | the fields and the result are those of InitResult |
| Retrieval.KnowledgeBase.BuildAllKnowledgeBases | chatbot_with_rag.py:255-298 | the directories are those of the corrected build, the state is that of `initialize` on them, and the counts are those of the three single builds |
| Retrieval.PerDomainK | chatbot_with_rag.py:364 | `max(1, k // 3)`: at least 1, and `k // 3` whenever that exceeds 1 |
| Retrieval.Target | chatbot_with_rag.py:345-347 | the override when given, otherwise one of the four detected names |
| Retrieval.RetrieveSingle | chatbot_with_rag.py:353-360 | a single domain searches only its own store, with the full k, and finds nothing when that store is absent |
| Retrieval.RetrieveAllOrder | chatbot_with_rag.py:362-379 | "all" concatenates the hits for `max(1, k // 3)` in the order migration, architecture, costing |
| Retrieval.RetrieveBound | chatbot_with_rag.py:353-379 | if each search returns at most n hits, one domain yields at most k results and "all" at most `3 * max(1, k // 3)` |
| Retrieval.SearchIntoBound | chatbot_with_rag.py:366-379 | one extend step adds at most n hits |
| Retrieval.LastSegmentIsLastPiece | chatbot_with_rag.py:391 | the last "/" segment is a "/"-free suffix, preceded by "/" when there is one |
| Retrieval.DisplayIsLastPiece | chatbot_with_rag.py:391 | the displayed source is the text after the last "/", or the whole source without one |
| Retrieval.FormatNonEmpty | chatbot_with_rag.py:381-397 | at least one result gives a non-empty context text |
| Retrieval.FormatLength | chatbot_with_rag.py:397 | n results give n parts and n - 1 separators |
| Retrieval.Context | chatbot_with_rag.py:330-401 | "" (the value that line 1002 tests) exactly when the base is not ready, a search raised, or nothing was found (which includes an unknown domain name and a single domain whose store is absent); otherwise the formatted results |
| Retrieval.ContextAllOrder | chatbot_with_rag.py:362-397 | on a ready base, "all" formats the migration, architecture and costing hits for `max(1, k // 3)` in that order |
| Retrieval.KnowledgeBase.Extend | chatbot_with_rag.py:366-379 | one `results.extend` step, with a raising search failing the whole retrieval |
| Retrieval.KnowledgeBase.Collect | chatbot_with_rag.py:353-379 | the searches performed give the results of Retrieve |
| Retrieval.KnowledgeBase.FormatResults | chatbot_with_rag.py:381-397 | the numbering loop and join give Format of the results |
| Retrieval.KnowledgeBase.GetRelevantContext | chatbot_with_rag.py:330-401 | the returned text is Context of the current state |
| Chat.ContextMessage | chatbot_with_rag.py:1007-1016 | a system message whose content is the fixed opening text, the retrieved documentation unchanged, then the fixed closing text |
| Chat.OutboundShape | chatbot_with_rag.py:989-1022 | the outbound list is the system prompt and the log after its first entry, with exactly one extra system message holding the context right before the unchanged final user message |
| Chat.AssembleOutbound | chatbot_with_rag.py:989-1022 | the append/pop sequence yields Outbound |
| Chat.StreamedAppend | chatbot_with_rag.py:1034-1036 | the streamed text of two batches is their texts in order |
| Chat.StreamedSkipsEmpty | chatbot_with_rag.py:1035 | missing and empty fragments add nothing |
| Chat.ReplyDiscardsPartialText | chatbot_with_rag.py:1034-1042 | when the call raised, the reply starts with "Error: " and does not depend on the fragments streamed before |
| Chat.ReplyExtends | chatbot_with_rag.py:1034-1036 | without an error, each further batch of fragments extends the reply by its own streamed text |
| Chat.StreamReply | chatbot_with_rag.py:1033-1043 | the streaming loop and error handler give ReplyText |
| Chat.ChatTurn | chatbot_with_rag.py:972-1046 | the model is sent Outbound of the log with the prompt appended, and the log gains the prompt and then the reply |

## Left out

- Network and HTML: the HTTP request, its headers and timeout, and BeautifulSoup's tag removal and text extraction (chatbot_with_rag.py:186-198). The model takes the extracted text, or its absence, as input.
- The text splitter (chatbot_with_rag.py:232-238) is a library call whose splitting is not visible; it is a function parameter.
- Chroma and the embeddings. Persistence, vector indexing, similarity ranking and `_get_embeddings` (including the assignment at line 139) are foreign calls. A search is a parameter. Its length bound is an assumption (`SearchBounded`), not a consequence of visible code.
- Retrieval.KnowledgeBase.Initialize: opening a Chroma store is a boolean outcome per domain; what Chroma does with the directory is not modelled. A store object's truthiness is taken to be "is not `None`".
- Retrieval.KnowledgeBase.BuildAllKnowledgeBases: uses the corrected directory names (see Findings). It assumes that persisting a store creates its directory. It does not model an exception raised mid-build, which the startup code swallows. `os.makedirs` of the base directory, the progress bar and the status texts are left out.
- The base directory path: directories are names relative to it, and `os.path.join` is not modelled.
- Text.Lower, Text.Upper: only ASCII letters change case; Python's full Unicode case mapping is not modelled. For `Lower` this changes no keyword score: the only non-ASCII characters whose lower-case mapping yields ASCII letters are U+0130 (to "i" and U+0307) and U+212A (to "k"), and no keyword contains "k" or ends in "i". The loss is therefore confined to `Upper` of a non-ASCII domain tag.
- The Streamlit page: configuration, CSS and HTML, chat rendering, the "▌" cursor, and `st.cache_resource`/`st.session_state` caching, including the startup wrapper at lines 407-424.
- The Groq client: key lookup, model name, `max_tokens` and temperature (chatbot_with_rag.py:934-945, 1025-1031). The call is a parameter returning fragments and an optional error.
- Chat.ChatTurn: an exception is modelled only as coming from the language-model call; `get_relevant_context` catches its own.
- Constant data: the `SYSTEM_PROMPT` text (a parameter) and the URL lists (parameters of the build).
- `chatbot_poc.py` is not part of this model. Its chat logic, appending the user and assistant entries to the log, is covered by the chat turn above.
- Print statements on the error paths are left out.

## Findings

| source | as written | input that shows it | evidently intended | confidence | as-written member | corrected member |
|---|---|---|---|---|---|---|
| chatbot_with_rag.py:260 | `build_all_knowledge_bases` persists the architecture store under `"optimization"`, but `initialize` (line 143) looks for `"architecture"` | an empty base directory: after the build, "architecture" is still missing, so the closing `initialize` returns `False` and the base never becomes ready; every later start rebuilds everything | persist the architecture store under `"architecture"` | high (not executed) | Retrieval.BuildAsWrittenNeverReady | Retrieval.BuildThenInitializeReady |
