/**
 * Page-text assembly of `extract_pdf_text`: every page of the document
 * contributes one marked section, in page order; a page whose text is empty,
 * absent or whose extraction raised contributes a fixed placeholder instead,
 * and never stops the loop.
 */
module Extraction {
  import opened Wrappers
  import opened Text
  import opened Seqs

  /**
   * What `page.extract_text()` gave for one page: `Some(text)` when it
   * returned a string (possibly empty), `None` when it returned None or raised.
   */
  type PageResult = Option<string>

  const Placeholder: string := "[No extractable text]"

  /** The text a page contributes: its own text when that is non-empty, else the placeholder. */
  function PageBody(p: PageResult): (body: string)
    ensures body != []
    ensures body == Placeholder || (p.Some? && body == p.value)
    ensures p.Some? && p.value != [] ==> body == p.value
  {
    match p
    case Some(text) => if text != [] then text else Placeholder
    case None => Placeholder
  }

  /** The marker line that opens page `k` (pages are numbered from 1). */
  function PageMarker(k: nat): (marker: string) {
    "\n--- Page " + NatToString(k) + " ---\n"
  }

  /** Distinct pages open with distinct markers, so each section can be told by its marker. */
  lemma PageMarkersDistinct(j: nat, k: nat)
    requires j != k
    ensures PageMarker(j) != PageMarker(k)
  {
    var head := "\n--- Page ";
    var tail := " ---\n";
    var mj := PageMarker(j);
    var mk := PageMarker(k);
    assert mj == head + NatToString(j) + tail;
    assert mk == head + NatToString(k) + tail;
    assert mj[|head|..|mj| - |tail|] == NatToString(j);
    assert mk[|head|..|mk| - |tail|] == NatToString(k);
    NatToStringInjective(j, k);
  }

  /** The section page `k` contributes. */
  function Section(k: nat, p: PageResult): (sec: string) {
    PageMarker(k) + PageBody(p) + "\n"
  }

  /** The sections of all pages, page 1 first. */
  function Sections(pages: seq<PageResult>): (ss: seq<string>)
    ensures |ss| == |pages|
  {
    seq(|pages|, i requires 0 <= i < |pages| => Section(i + 1, pages[i]))
  }

  /** The text of a document whose pages gave `pages`: one section per page, in page order. */
  function Assemble(pages: seq<PageResult>): (text: string) {
    Concat(Sections(pages))
  }

  /** The k-th section is the section of page k + 1. */
  lemma SectionsAt(pages: seq<PageResult>, k: nat)
    requires k < |pages|
    ensures Sections(pages)[k] == Section(k + 1, pages[k])
  {
  }

  /** The sections of the first n pages are the first n sections. */
  lemma SectionsPrefix(pages: seq<PageResult>, n: nat)
    requires n <= |pages|
    ensures Sections(pages[..n]) == Sections(pages)[..n]
  {
  }

  /** Page k's section is what the (k+1)-th round of the loop appends. */
  lemma AssembleStep(pages: seq<PageResult>, k: nat)
    requires k < |pages|
    ensures Assemble(pages[..k + 1]) == Assemble(pages[..k]) + Section(k + 1, pages[k])
  {
    var ss := Sections(pages[..k + 1]);
    SectionsPrefix(pages[..k + 1], k);
    assert pages[..k + 1][..k] == pages[..k];
    assert ss == ss[..k] + [ss[k]];
    ConcatSnoc(ss[..k], ss[k]);
  }

  /** The text of the first n pages is a prefix of the whole text: later pages only append. */
  lemma AssemblePrefix(pages: seq<PageResult>, n: nat)
    requires n <= |pages|
    ensures Assemble(pages[..n]) <= Assemble(pages)
  {
    SectionsPrefix(pages, n);
    ConcatPrefix(Sections(pages), n);
  }

  /** The k-th section sits in the text right after the sections before it. */
  lemma SectionPlaced(pages: seq<PageResult>, k: nat)
    requires k < |pages|
    ensures var start := |Assemble(pages[..k])|;
            var sec := Sections(pages)[k];
            start + |sec| <= |Assemble(pages)| && Assemble(pages)[start..start + |sec|] == sec
  {
    var ss := Sections(pages);
    SectionsPrefix(pages, k);
    ConcatPieceAt(ss, k);
  }

  /**
   * Page k's section sits in the text right after the sections of pages 1..k-1,
   * whatever the earlier pages gave: a failing page never stops the later ones.
   */
  lemma SectionAt(pages: seq<PageResult>, k: nat)
    requires k < |pages|
    ensures var start := |Assemble(pages[..k])|;
            var sec := Sections(pages)[k];
            sec == Section(k + 1, pages[k])
            && start + |sec| <= |Assemble(pages)| && Assemble(pages)[start..start + |sec|] == sec
  {
    SectionPlaced(pages, k);
    SectionsAt(pages, k);
  }

  /** A page whose extraction failed or gave no text shows the placeholder under its marker. */
  lemma FailedPageShowsPlaceholder(pages: seq<PageResult>, k: nat)
    requires k < |pages| && (pages[k].None? || pages[k] == Some(""))
    ensures var start := |Assemble(pages[..k])|;
            var sec := PageMarker(k + 1) + Placeholder + "\n";
            start + |sec| <= |Assemble(pages)| && Assemble(pages)[start..start + |sec|] == sec
  {
    SectionAt(pages, k);
  }

  /** A page that gave non-empty text shows exactly that text under its marker. */
  lemma TextPageShowsText(pages: seq<PageResult>, k: nat, text: string)
    requires k < |pages| && pages[k] == Some(text) && text != []
    ensures var start := |Assemble(pages[..k])|;
            var sec := PageMarker(k + 1) + text + "\n";
            start + |sec| <= |Assemble(pages)| && Assemble(pages)[start..start + |sec|] == sec
  {
    SectionAt(pages, k);
  }

  /** A two-page document is the section of page 1 followed by the section of page 2. */
  lemma AssembleTwoPages(p1: PageResult, p2: PageResult)
    ensures Assemble([p1, p2]) == Section(1, p1) + Section(2, p2)
  {
    var pages := [p1, p2];
    assert pages[..1] == [p1];
    assert pages[..1][..0] == [];
    assert Sections(pages) == [Section(1, p1), Section(2, p2)];
    ConcatPair(Section(1, p1), Section(2, p2));
  }

  lemma FirstPageMarker()
    ensures PageMarker(1) == "\n--- Page 1 ---\n"
  {
    assert NatToString(1) == "1";
  }

  lemma SecondPageMarker()
    ensures PageMarker(2) == "\n--- Page 2 ---\n"
  {
    assert NatToString(2) == "2";
  }

  /** A two-page document whose first page reads "Intro text" and whose second page fails. */
  lemma TwoPageScenario()
    ensures Assemble([Some("Intro text"), None])
         == ("\n--- Page 1 ---\n" + "Intro text" + "\n") + ("\n--- Page 2 ---\n" + Placeholder + "\n")
  {
    AssembleTwoPages(Some("Intro text"), None);
    FirstPageMarker();
    SecondPageMarker();
  }

  /** The page loop of `extract_pdf_text`, over the results the PDF reader gave per page. */
  method ExtractPdfText(pages: seq<PageResult>) returns (allText: string)
    ensures allText == Assemble(pages)
  {
    allText := "";
    var pageNum := 1;
    while pageNum <= |pages|
      invariant 1 <= pageNum <= |pages| + 1
      invariant allText == Assemble(pages[..pageNum - 1])
    {
      var text := pages[pageNum - 1];
      var body := if text.Some? && text.value != "" then text.value else Placeholder;
      AssembleStep(pages, pageNum - 1);
      allText := allText + ("\n--- Page " + NatToString(pageNum) + " ---\n" + body + "\n");
      pageNum := pageNum + 1;
    }
    assert pages[..|pages|] == pages;
  }
}
