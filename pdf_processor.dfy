/**
 * lib/pdf-processor.ts: the placeholder text extractor and the
 * case-insensitive page search over an extracted document.
 */
module PdfProcessor {
  import opened Text
  import opened Seqs

  datatype PdfPage = PdfPage(pageNumber: int, text: string, width: int, height: int)

  datatype PdfDocument = PdfDocument(title: string, pages: seq<PdfPage>, totalPages: int)

  datatype SearchResult = SearchResult(pageNumber: int, text: string, relevanceScore: int)

  const MockPageCount: nat := 10
  const MockTitle: string := "Sample Document"
  const LetterWidth: int := 612
  const LetterHeight: int := 792

  /** The placeholder text of page `n`. */
  function SampleText(n: nat): string {
    "This is sample text content for page " + NatToString(n) +
    ". In a real implementation, this would contain the actual extracted text from the PDF document."
  }

  /**
   * `extractPDFText`: whatever the path, ten US-letter pages numbered 1 to 10
   * and a page count that matches.
   */
  function MockExtract(filePath: string): (doc: PdfDocument)
    ensures doc.title == MockTitle
    ensures |doc.pages| == MockPageCount && doc.totalPages == |doc.pages|
    ensures forall i :: 0 <= i < |doc.pages| ==>
              doc.pages[i].pageNumber == i + 1 && doc.pages[i].text == SampleText(i + 1) &&
              doc.pages[i].width == LetterWidth && doc.pages[i].height == LetterHeight
  {
    var pages := seq(MockPageCount, i requires 0 <= i < MockPageCount =>
      PdfPage(i + 1, SampleText(i + 1), LetterWidth, LetterHeight));
    PdfDocument(MockTitle, pages, |pages|)
  }

  /** The placeholder pages are told apart by their text. */
  lemma SampleTextsDistinct(m: nat, n: nat)
    requires m != n
    ensures SampleText(m) != SampleText(n)
  {
    var prefix := "This is sample text content for page ";
    if SampleText(m) == SampleText(n) {
      var k := |prefix| + |NatToString(m)|;
      assert |NatToString(m)| == |NatToString(n)|;
      assert SampleText(m)[|prefix|..k] == NatToString(m);
      assert SampleText(n)[|prefix|..k] == NatToString(n);
      NatToStringInjective(m, n);
    }
  }

  /** Whether the page's lower-cased text contains the lower-cased query. */
  predicate Matches(page: PdfPage, query: string) {
    Contains(Lower(page.text), Lower(query))
  }

  /** The `.map` step: a page and its score, 1 on a match and 0 otherwise. */
  function Score(page: PdfPage, query: string): (r: SearchResult)
    ensures r.pageNumber == page.pageNumber && r.text == page.text
    ensures r.relevanceScore > 0 <==> Matches(page, query)
    ensures 0 <= r.relevanceScore <= 1
  {
    SearchResult(page.pageNumber, page.text, if Matches(page, query) then 1 else 0)
  }

  /** The `.map` over the pages. */
  function Scored(pages: seq<PdfPage>, query: string): (rs: seq<SearchResult>)
    ensures |rs| == |pages|
    ensures forall i :: 0 <= i < |pages| ==> rs[i] == Score(pages[i], query)
  {
    seq(|pages|, i requires 0 <= i < |pages| => Score(pages[i], query))
  }

  function Relevant(): SearchResult -> bool {
    (r: SearchResult) => r.relevanceScore > 0
  }

  predicate SortedByScore(rs: seq<SearchResult>) {
    forall i, j :: 0 <= i < j < |rs| ==> rs[i].relevanceScore >= rs[j].relevanceScore
  }

  /** Put `x`, which came before every element of `rs`, in front of the first one it does not score below. */
  function Insert(x: SearchResult, rs: seq<SearchResult>): (q: seq<SearchResult>)
    ensures |q| == |rs| + 1
    ensures multiset(q) == multiset(rs) + multiset{x}
  {
    if rs == [] || rs[0].relevanceScore <= x.relevanceScore then [x] + rs
    else
      assert rs == [rs[0]] + rs[1..];
      [rs[0]] + Insert(x, rs[1..])
  }

  lemma {:induction false} InsertSorted(x: SearchResult, rs: seq<SearchResult>)
    requires SortedByScore(rs)
    ensures SortedByScore(Insert(x, rs))
  {
    if rs != [] && rs[0].relevanceScore > x.relevanceScore {
      var tail := Insert(x, rs[1..]);
      InsertSorted(x, rs[1..]);
      forall k | 0 <= k < |tail| ensures rs[0].relevanceScore >= tail[k].relevanceScore {
        assert tail[k] in multiset(tail);
        if tail[k] != x {
          assert tail[k] in multiset(rs[1..]);
          var m :| 0 <= m < |rs[1..]| && rs[1..][m] == tail[k];
          assert rs[m + 1] == tail[k];
        }
      }
      assert Insert(x, rs) == [rs[0]] + tail;
    }
  }

  /** `.sort((a, b) => b.relevanceScore - a.relevanceScore)`: a stable sort, highest score first. */
  function SortByScore(rs: seq<SearchResult>): (q: seq<SearchResult>)
    ensures |q| == |rs|
    ensures SortedByScore(q)
    ensures multiset(q) == multiset(rs)
  {
    if rs == [] then []
    else
      assert rs == [rs[0]] + rs[1..];
      InsertSorted(rs[0], SortByScore(rs[1..]));
      Insert(rs[0], SortByScore(rs[1..]))
  }

  /** With one score throughout, the stable sort changes nothing. */
  lemma {:induction false} SortEqualScores(rs: seq<SearchResult>, score: int)
    requires forall i :: 0 <= i < |rs| ==> rs[i].relevanceScore == score
    ensures SortByScore(rs) == rs
  {
    if rs != [] {
      SortEqualScores(rs[1..], score);
      assert rs == [rs[0]] + rs[1..];
    }
  }

  /**
   * `searchPDFContent`: score every page, keep the positive scores, sort by
   * score. The result is exactly the matching pages in document order.
   */
  function Search(doc: PdfDocument, query: string): (rs: seq<SearchResult>)
    ensures |rs| <= |doc.pages|
    ensures rs == MatchingPages(doc.pages, query)
  {
    SearchIsMatchingPages(doc.pages, query);
    SortByScore(Filter(Scored(doc.pages, query), Relevant()))
  }

  /** An independent statement of the result: the matching pages, in document order, each scored 1. */
  function MatchingPages(pages: seq<PdfPage>, query: string): seq<SearchResult> {
    if pages == [] then []
    else
      (if Matches(pages[0], query) then [Found(pages[0])] else []) +
      MatchingPages(pages[1..], query)
  }

  lemma {:induction false} FilterScores(pages: seq<PdfPage>, query: string)
    ensures Filter(Scored(pages, query), Relevant()) == MatchingPages(pages, query)
  {
    if pages != [] {
      FilterScores(pages[1..], query);
      assert Scored(pages, query)[1..] == Scored(pages[1..], query);
    }
  }

  /**
   * The search pipeline yields exactly the matching pages, in page order:
   * all kept scores are equal, so the stable sort keeps the order the
   * filter produced.
   */
  lemma SearchIsMatchingPages(pages: seq<PdfPage>, query: string)
    ensures SortByScore(Filter(Scored(pages, query), Relevant())) == MatchingPages(pages, query)
  {
    var kept := Filter(Scored(pages, query), Relevant());
    FilterScores(pages, query);
    forall i | 0 <= i < |kept| ensures kept[i].relevanceScore == 1 {
      assert kept[i] in kept;
    }
    SortEqualScores(kept, 1);
  }

  function Found(page: PdfPage): SearchResult {
    SearchResult(page.pageNumber, page.text, 1)
  }

  /** A result is in the list exactly when it is the found form of a matching page. */
  lemma {:induction false} MatchingPagesMembership(pages: seq<PdfPage>, query: string, r: SearchResult)
    ensures r in MatchingPages(pages, query) <==>
            exists j :: 0 <= j < |pages| && Matches(pages[j], query) && r == Found(pages[j])
  {
    if pages != [] {
      MatchingPagesMembership(pages[1..], query, r);
      if r in MatchingPages(pages[1..], query) {
        var j :| 0 <= j < |pages[1..]| && Matches(pages[1..][j], query) && r == Found(pages[1..][j]);
        assert pages[j + 1] == pages[1..][j];
      }
      if exists j :: 0 <= j < |pages| && Matches(pages[j], query) && r == Found(pages[j]) {
        var j :| 0 <= j < |pages| && Matches(pages[j], query) && r == Found(pages[j]);
        if j > 0 {
          assert pages[1..][j - 1] == pages[j];
        }
      }
    }
  }

  /** The empty query is contained in every text, so every page is found, in order. */
  lemma {:induction false} EmptyQueryFindsAll(pages: seq<PdfPage>)
    ensures MatchingPages(pages, "") == seq(|pages|, i requires 0 <= i < |pages| => Found(pages[i]))
  {
    if pages != [] {
      ContainsEmpty(Lower(pages[0].text));
      assert Lower("") == "";
      EmptyQueryFindsAll(pages[1..]);
    }
  }
}
