/**
 * The deterministic part of building one domain's knowledge base: the text
 * clean-up at the end of `fetch_webpage` and the document filter of
 * `_build_single_kb`. The page download and HTML parsing are not modelled: a
 * fetch is given as the page's extracted text, or `None` when it failed.
 */
module Fetching {
  import opened Wrappers
  import opened Text

  const DoubleSpace: string := "  "

  /** A line of cleaned page text: non-empty, trimmed, without a double space or a line break. */
  ghost predicate IsCleanLine(s: string) {
    s != "" && !IsSpace(s[0]) && !IsSpace(s[|s| - 1]) && NoDoubleSpace(s) && NoLineBreak(s)
  }

  /** No two adjacent spaces. */
  ghost predicate NoDoubleSpace(s: string) {
    forall i, j :: 0 <= i < j < |s| && j == i + 1 ==> !(s[i] == ' ' && s[j] == ' ')
  }

  /** No double space at any position is the same as `"  " not in s`. */
  lemma NoDoubleSpaceIffNotOccurs(s: string)
    ensures NoDoubleSpace(s) <==> !Occurs(DoubleSpace, s)
  {
    if !NoDoubleSpace(s) {
      var i, j :| 0 <= i < j < |s| && j == i + 1 && s[i] == ' ' && s[j] == ' ';
      assert s[i..i + 2] == DoubleSpace;
      OccursAtOccurs(DoubleSpace, s, i);
    }
    if Occurs(DoubleSpace, s) {
      var i := IndexOf(DoubleSpace, s, 0).value;
      assert s[i..i + 2] == DoubleSpace;
      assert s[i] == ' ' && s[i + 1] == ' ';
    }
  }

  /** A slice of a string without double spaces has none either. */
  lemma NoDoubleSpaceSlice(s: string, lo: int, hi: int)
    requires 0 <= lo <= hi <= |s| && NoDoubleSpace(s)
    ensures NoDoubleSpace(s[lo..hi])
  {
    var t := s[lo..hi];
    forall i, j | 0 <= i < j < |t| && j == i + 1
      ensures !(t[i] == ' ' && t[j] == ' ')
    {
      assert t[i] == s[lo + i] && t[j] == s[lo + j];
    }
  }

  /** Stripping a phrase without double spaces or line breaks leaves "" or a clean line. */
  lemma StripKeepsClean(p: string)
    requires !Occurs(DoubleSpace, p) && NoLineBreak(p)
    ensures Strip(p) == "" || IsCleanLine(Strip(p))
  {
    var q := Strip(p);
    var lo := StripStart(p, 0);
    NoDoubleSpaceIffNotOccurs(p);
    NoLineBreakSlice(p, lo, lo + |q|);
    NoDoubleSpaceSlice(p, lo, lo + |q|);
  }

  /** `phrase.strip()` for each phrase, keeping the non-empty results in order. */
  function StrippedPhrases(phrases: seq<string>): seq<string> {
    if phrases == [] then []
    else
      var q := Strip(phrases[0]);
      (if q != "" then [q] else []) + StrippedPhrases(phrases[1..])
  }

  /** The phrases that one line contributes: strip it, split it on double spaces, strip and keep the non-empty ones. */
  function LinePhrases(line: string): seq<string> {
    StrippedPhrases(Split(Strip(line), DoubleSpace))
  }

  function Phrases(lines: seq<string>): seq<string> {
    if lines == [] then [] else LinePhrases(lines[0]) + Phrases(lines[1..])
  }

  /** The cleaned phrases of a page text, one per output line. */
  function CleanPhrases(text: string): seq<string> {
    Phrases(SplitLines(text))
  }

  lemma {:induction false} StrippedPhrasesAreClean(phrases: seq<string>)
    requires forall k :: 0 <= k < |phrases| ==> !Occurs(DoubleSpace, phrases[k]) && NoLineBreak(phrases[k])
    ensures AllClean(StrippedPhrases(phrases))
  {
    if phrases != [] {
      var rest := phrases[1..];
      var q := Strip(phrases[0]);
      StripKeepsClean(phrases[0]);
      assert AllClean(if q != "" then [q] else []);
      assert forall k :: 0 <= k < |rest| ==> rest[k] == phrases[k + 1];
      StrippedPhrasesAreClean(rest);
      AllCleanConcat(if q != "" then [q] else [], StrippedPhrases(rest));
    }
  }

  lemma LinePhrasesAreClean(line: string)
    requires NoLineBreak(line)
    ensures AllClean(LinePhrases(line))
  {
    var stripped := Strip(line);
    var lo := StripStart(line, 0);
    NoLineBreakSlice(line, lo, lo + |stripped|);
    SplitPieces(stripped, DoubleSpace);
    StrippedPhrasesAreClean(Split(stripped, DoubleSpace));
  }

  /** Every entry of `lines` is a clean line. */
  ghost predicate AllClean(lines: seq<string>) {
    forall k :: 0 <= k < |lines| ==> IsCleanLine(lines[k])
  }

  lemma AllCleanConcat(a: seq<string>, b: seq<string>)
    requires AllClean(a) && AllClean(b)
    ensures AllClean(a + b)
  {
    assert forall k :: |a| <= k < |a + b| ==> (a + b)[k] == b[k - |a|];
  }

  lemma PhrasesCons(lines: seq<string>)
    requires lines != []
    ensures Phrases(lines) == LinePhrases(lines[0]) + Phrases(lines[1..])
  {
  }

  lemma {:induction false} PhrasesAreClean(lines: seq<string>)
    requires forall k :: 0 <= k < |lines| ==> NoLineBreak(lines[k])
    ensures AllClean(Phrases(lines))
  {
    if lines != [] {
      var rest := lines[1..];
      LinePhrasesAreClean(lines[0]);
      assert forall k :: 0 <= k < |rest| ==> rest[k] == lines[k + 1];
      PhrasesAreClean(rest);
      PhrasesCons(lines);
      AllCleanConcat(LinePhrases(lines[0]), Phrases(rest));
    }
  }

  /** Every cleaned phrase is a clean line. */
  lemma CleanPhrasesAreClean(text: string)
    ensures AllClean(CleanPhrases(text))
  {
    PhrasesAreClean(SplitLines(text));
  }

  /**
   * The whitespace clean-up of `fetch_webpage`: lines stripped, split at double
   * spaces, phrases stripped, empty phrases dropped, the rest joined by "\n".
   */
  function CleanText(text: string): string {
    Join(CleanPhrases(text), "\n")
  }

  /** Every line of cleaned text is non-empty, trimmed and free of double spaces. */
  lemma CleanTextLines(text: string)
    ensures SplitLines(CleanText(text)) == CleanPhrases(text)
    ensures AllClean(CleanPhrases(text))
  {
    CleanPhrasesAreClean(text);
    SplitLinesOfJoin(CleanPhrases(text));
  }

  /** A clean line is its own only phrase. */
  lemma {:induction false} LinePhrasesOfCleanLine(line: string)
    requires IsCleanLine(line)
    ensures LinePhrases(line) == [line]
  {
    StripTrimmed(line);
    NoDoubleSpaceIffNotOccurs(line);
    assert IndexOf(DoubleSpace, line, 0).None?;
    assert Split(line, DoubleSpace) == [line];
    assert StrippedPhrases([line]) == [line];
  }

  lemma AllCleanTail(lines: seq<string>)
    requires lines != [] && AllClean(lines)
    ensures AllClean(lines[1..])
  {
    var rest := lines[1..];
    assert forall i :: 0 <= i < |rest| ==> rest[i] == lines[i + 1];
  }

  /** If the first line and the remaining lines are fixed points of the clean-up, so is the whole. */
  lemma PhrasesFixedCons(lines: seq<string>)
    requires lines != [] && LinePhrases(lines[0]) == [lines[0]] && Phrases(lines[1..]) == lines[1..]
    ensures Phrases(lines) == lines
  {
    PhrasesCons(lines);
  }

  lemma {:induction false} PhrasesOfCleanLines(lines: seq<string>)
    requires AllClean(lines)
    ensures Phrases(lines) == lines
  {
    if lines != [] {
      AllCleanTail(lines);
      PhrasesOfCleanLines(lines[1..]);
      LinePhrasesOfCleanLine(lines[0]);
      PhrasesFixedCons(lines);
    }
  }

  /** Cleaning is idempotent: cleaned text is left unchanged by a second clean-up. */
  lemma CleanTextIdempotent(text: string)
    ensures CleanText(CleanText(text)) == CleanText(text)
  {
    var phrases := CleanPhrases(text);
    CleanTextLines(text);
    PhrasesOfCleanLines(phrases);
  }

  /**
   * `fetch_webpage` given the outcome of the download and HTML extraction: the
   * cleaned text, or "" when the fetch raised.
   */
  function FetchWebpage(page: Option<string>): (text: string)
    ensures page.None? ==> text == ""
  {
    match page
    case None => ""
    case Some(extracted) => CleanText(extracted)
  }

  /**
   * Whatever the fetch outcome, the text is already clean: each of its lines
   * is non-empty, trimmed and free of double spaces, and a further clean-up
   * leaves it unchanged.
   */
  lemma FetchWebpageIsClean(page: Option<string>)
    ensures AllClean(SplitLines(FetchWebpage(page)))
    ensures CleanText(FetchWebpage(page)) == FetchWebpage(page)
  {
    match page
    case None =>
      assert SplitLines("") == [];
    case Some(extracted) =>
      CleanTextLines(extracted);
      CleanTextIdempotent(extracted);
  }

  /** The texts that fetching the pages yields, in URL order. */
  function FetchedTexts(pages: seq<Option<string>>): (texts: seq<string>)
    ensures |texts| == |pages|
    ensures forall i :: 0 <= i < |pages| ==> texts[i] == FetchWebpage(pages[i])
  {
    seq(|pages|, i requires 0 <= i < |pages| => FetchWebpage(pages[i]))
  }

  /** Every fetched text is "" for a failed fetch and clean text otherwise; a second clean-up changes none. */
  lemma FetchedTextsAreClean(pages: seq<Option<string>>)
    ensures var texts := FetchedTexts(pages);
            (forall i :: 0 <= i < |pages| && pages[i].None? ==> texts[i] == "")
            && (forall i :: 0 <= i < |pages| ==> AllClean(SplitLines(texts[i])) && CleanText(texts[i]) == texts[i])
  {
    forall i | 0 <= i < |pages|
      ensures AllClean(SplitLines(FetchWebpage(pages[i]))) && CleanText(FetchWebpage(pages[i])) == FetchWebpage(pages[i])
    {
      FetchWebpageIsClean(pages[i]);
    }
  }

  /** A document of `_build_single_kb`: page text with its `source` and `domain` metadata. */
  datatype Document = Document(content: string, source: string, domain: string)

  /**
   * The documents that `_build_single_kb` collects: one per URL whose fetched
   * text is non-empty, in URL order, tagged with its URL and the domain.
   */
  function Documents(urls: seq<string>, texts: seq<string>, domain: string): (docs: seq<Document>)
    requires |texts| == |urls|
    ensures |docs| <= |urls|
    ensures forall j :: 0 <= j < |docs| ==> docs[j].content != "" && docs[j].domain == domain
  {
    if urls == [] then []
    else
      var n := |urls| - 1;
      Documents(urls[..n], texts[..n], domain)
      + (if texts[n] != "" then [Document(texts[n], urls[n], domain)] else [])
  }

  /** The positions of the non-empty texts, in increasing order. */
  function KeptIndices(texts: seq<string>): (ks: seq<nat>)
    ensures |ks| <= |texts|
    ensures forall j :: 0 <= j < |ks| ==> ks[j] < |texts| && texts[ks[j]] != ""
    ensures forall j, j' :: 0 <= j < j' < |ks| ==> ks[j] < ks[j']
    ensures forall i :: 0 <= i < |texts| && texts[i] != "" ==> i in ks
  {
    if texts == [] then []
    else
      var n := |texts| - 1;
      KeptIndices(texts[..n]) + (if texts[n] != "" then [n] else [])
  }

  /**
   * The documents are exactly the URLs with non-empty text, in URL order: the
   * j-th document comes from the j-th position whose text is non-empty.
   */
  lemma {:induction false} DocumentsAreKeptPages(urls: seq<string>, texts: seq<string>, domain: string)
    requires |texts| == |urls|
    ensures var ks := KeptIndices(texts);
            var docs := Documents(urls, texts, domain);
            |docs| == |ks|
            && forall j :: 0 <= j < |ks| ==> docs[j] == Document(texts[ks[j]], urls[ks[j]], domain)
  {
    if urls != [] {
      var n := |urls| - 1;
      var ks', docs' := KeptIndices(texts[..n]), Documents(urls[..n], texts[..n], domain);
      DocumentsAreKeptPages(urls[..n], texts[..n], domain);
      var ks, docs := KeptIndices(texts), Documents(urls, texts, domain);
      assert ks == ks' + (if texts[n] != "" then [n] else []);
      assert docs == docs' + (if texts[n] != "" then [Document(texts[n], urls[n], domain)] else []);
      forall j | 0 <= j < |ks|
        ensures docs[j] == Document(texts[ks[j]], urls[ks[j]], domain)
      {
        if j < |ks'| {
          assert ks[j] == ks'[j] && docs[j] == docs'[j];
          assert texts[..n][ks'[j]] == texts[ks'[j]] && urls[..n][ks'[j]] == urls[ks'[j]];
        }
      }
    }
  }

  /** Extending the URL prefix by one position adds that position's document when its text is non-empty. */
  lemma DocumentsSnoc(urls: seq<string>, texts: seq<string>, domain: string, idx: nat)
    requires |texts| == |urls| && idx < |urls|
    ensures Documents(urls[..idx + 1], texts[..idx + 1], domain)
            == Documents(urls[..idx], texts[..idx], domain)
               + (if texts[idx] != "" then [Document(texts[idx], urls[idx], domain)] else [])
  {
    assert urls[..idx + 1][..idx] == urls[..idx];
    assert texts[..idx + 1][..idx] == texts[..idx];
  }

  /** The document-collecting loop of `_build_single_kb`. */
  method CollectDocuments(urls: seq<string>, pages: seq<Option<string>>, domain: string)
    returns (documents: seq<Document>)
    requires |pages| == |urls|
    ensures documents == Documents(urls, FetchedTexts(pages), domain)
  {
    ghost var texts := FetchedTexts(pages);
    documents := [];
    var idx := 0;
    while idx < |urls|
      invariant 0 <= idx <= |urls|
      invariant documents == Documents(urls[..idx], texts[..idx], domain)
    {
      var content := FetchWebpage(pages[idx]);
      DocumentsSnoc(urls, texts, domain, idx);
      if content != "" {
        documents := documents + [Document(content, urls[idx], domain)];
      }
      idx := idx + 1;
    }
    assert urls[..idx] == urls && texts[..idx] == texts;
  }

  /**
   * What `_build_single_kb` returns, `(len(splits), len(documents))`, for the
   * given fetch outcomes and splitter: the document count is the number of
   * pages whose cleaned text is non-empty.
   */
  function KbCounts(urls: seq<string>, pages: seq<Option<string>>, domain: string,
                    split: seq<Document> -> seq<Document>): (counts: (nat, nat))
    requires |pages| == |urls|
    ensures counts.1 <= |urls|
    ensures counts.1 == |KeptIndices(FetchedTexts(pages))|
  {
    var documents := Documents(urls, FetchedTexts(pages), domain);
    DocumentsAreKeptPages(urls, FetchedTexts(pages), domain);
    (|split(documents)|, |documents|)
  }

  /**
   * `_build_single_kb` without the vector store: collects the documents, splits
   * them with the given splitter and returns `(len(splits), len(documents))`.
   */
  method BuildSingleKb(urls: seq<string>, pages: seq<Option<string>>, domain: string,
                       split: seq<Document> -> seq<Document>)
    returns (chunkCount: nat, docCount: nat)
    requires |pages| == |urls|
    ensures (chunkCount, docCount) == KbCounts(urls, pages, domain, split)
  {
    var documents := CollectDocuments(urls, pages, domain);
    var splits := split(documents);
    chunkCount, docCount := |splits|, |documents|;
  }
}
