/** The page layout of `generate_pdf_from_log`: a cursor that starts below
    the header, moves down one line height per transcript line, and starts
    a new page when it has fallen below the bottom margin. Drawing calls are
    reduced to what they place where; the header's timestamp text and the
    font calls are not modelled. */
module Pdf {

  /** Height of a US letter page in points. The page size is given as
      floating-point numbers, but every cursor value is a whole number of
      points, so integers are exact here. */
  const PageHeight := 792
  /** Where the first transcript line is drawn on the first page. */
  const FirstLineY := PageHeight - 60
  /** Where the cursor is reset on every later page. */
  const TopY := PageHeight - 40
  /** A line is drawn on the current page only while the cursor is at or above this. */
  const BottomMargin := 40
  const LineStep := 14

  /** One `drawString(30, y, line)`. */
  datatype Row = Row(y: int, text: string)
  /** One page: whether the header is drawn on it, and its transcript rows in drawing order. */
  datatype Page = Page(header: bool, rows: seq<Row>)
  /** The canvas while the loop runs: the pages already ended by `showPage`,
      the page being drawn on and the cursor. */
  datatype Pen = Pen(done: seq<Page>, current: Page, y: int)

  const Start := Pen([], Page(true, []), FirstLineY)

  /** One iteration of the drawing loop. */
  function Place(pen: Pen, line: string): Pen
  {
    if pen.y < BottomMargin then
      Pen(pen.done + [pen.current], Page(false, [Row(TopY, line)]), TopY - LineStep)
    else
      Pen(pen.done, Page(pen.current.header, pen.current.rows + [Row(pen.y, line)]), pen.y - LineStep)
  }

  /** The canvas after drawing `lines`. */
  function PenAfter(lines: seq<string>): Pen
  {
    if lines == [] then Start else Place(PenAfter(lines[..|lines| - 1]), lines[|lines| - 1])
  }

  function AllPages(pen: Pen): seq<Page>
  {
    pen.done + [pen.current]
  }

  /** The document `c.save()` writes. */
  function Layout(lines: seq<string>): seq<Page>
  {
    AllPages(PenAfter(lines))
  }

  // ---------------------------------------------------------------------
  // What a layout is
  // ---------------------------------------------------------------------

  function RowTexts(rows: seq<Row>): (r: seq<string>)
    ensures |r| == |rows| && forall k :: 0 <= k < |rows| ==> r[k] == rows[k].text
  {
    seq(|rows|, k requires 0 <= k < |rows| => rows[k].text)
  }

  /** The transcript lines of a document, page after page, top to bottom. */
  function Texts(pages: seq<Page>): seq<string>
  {
    if pages == [] then [] else Texts(pages[..|pages| - 1]) + RowTexts(pages[|pages| - 1].rows)
  }

  /** The number of transcript lines a full page holds: fifty below the
      header, fifty-one on later pages. */
  function Capacity(first: bool): nat
  {
    if first then 50 else 51
  }

  function TopOf(first: bool): int
  {
    if first then FirstLineY else TopY
  }

  /** A page's rows run down from its top, one line step apart. */
  predicate PageOk(p: Page, first: bool)
  {
    p.header == first && |p.rows| <= Capacity(first) &&
    forall k :: 0 <= k < |p.rows| ==> p.rows[k].y == TopOf(first) - LineStep * k
  }

  /** The header only on the first page; every page but the last is full;
      no page but the first is empty. */
  predicate PagesOk(pages: seq<Page>)
  {
    forall j :: 0 <= j < |pages| ==>
      PageOk(pages[j], j == 0) &&
      (j < |pages| - 1 ==> |pages[j].rows| == Capacity(j == 0)) &&
      (j > 0 ==> |pages[j].rows| >= 1)
  }

  /** Where the cursor stands after `n` lines. */
  predicate CursorOk(pen: Pen, n: nat)
  {
    if pen.done == [] then
      n == |pen.current.rows| && pen.y == FirstLineY - LineStep * n
    else
      1 <= |pen.current.rows| && pen.y == TopY - LineStep * |pen.current.rows| &&
      n == 50 + 51 * (|pen.done| - 1) + |pen.current.rows|
  }

  predicate PenOk(pen: Pen, lines: seq<string>)
  {
    Texts(AllPages(pen)) == lines && CursorOk(pen, |lines|) && PagesOk(AllPages(pen))
  }

  lemma TextsSnoc(pages: seq<Page>, p: Page)
    ensures Texts(pages + [p]) == Texts(pages) + RowTexts(p.rows)
  {
    assert (pages + [p])[..|pages|] == pages;
  }

  /** Drawing a line appends it to the document's text. */
  lemma PlaceTexts(pen: Pen, line: string)
    ensures Texts(AllPages(Place(pen, line))) == Texts(AllPages(pen)) + [line]
  {
    var pen' := Place(pen, line);
    if pen.y < BottomMargin {
      assert AllPages(pen') == AllPages(pen) + [pen'.current];
      TextsSnoc(AllPages(pen), pen'.current);
      assert RowTexts(pen'.current.rows) == [line];
    } else {
      TextsSnoc(pen.done, pen.current);
      TextsSnoc(pen.done, pen'.current);
      assert RowTexts(pen'.current.rows) == RowTexts(pen.current.rows) + [line];
    }
  }

  /** Breaking the page when the current one is full keeps the pages well formed. */
  lemma PlaceBreakPages(pen: Pen, line: string)
    requires PagesOk(AllPages(pen))
    requires |pen.current.rows| == Capacity(pen.done == [])
    requires pen.y < BottomMargin
    ensures PagesOk(AllPages(Place(pen, line)))
  {
    var all := AllPages(pen);
    var all' := AllPages(Place(pen, line));
    assert all' == all + [Page(false, [Row(TopY, line)])];
    forall j | 0 <= j < |all'|
      ensures PageOk(all'[j], j == 0)
      ensures j < |all'| - 1 ==> |all'[j].rows| == Capacity(j == 0)
      ensures j > 0 ==> |all'[j].rows| >= 1
    {
      if j < |all| {
        assert all'[j] == all[j];
      }
    }
  }

  /** Drawing on a page that is not yet full keeps the pages well formed. */
  lemma PlaceStayPages(pen: Pen, line: string)
    requires PagesOk(AllPages(pen))
    requires |pen.current.rows| < Capacity(pen.done == [])
    requires pen.y == TopOf(pen.done == []) - LineStep * |pen.current.rows|
    requires pen.y >= BottomMargin
    ensures PagesOk(AllPages(Place(pen, line)))
  {
    var all := AllPages(pen);
    var all' := AllPages(Place(pen, line));
    assert PageOk(all[|pen.done|], pen.done == []);
    forall j | 0 <= j < |all'|
      ensures PageOk(all'[j], j == 0)
      ensures j < |all'| - 1 ==> |all'[j].rows| == Capacity(j == 0)
      ensures j > 0 ==> |all'[j].rows| >= 1
    {
      if j < |pen.done| {
        assert all'[j] == all[j];
      }
    }
  }

  /** The cursor is below the margin exactly when the current page is full. */
  lemma CursorFull(pen: Pen, n: nat)
    requires CursorOk(pen, n)
    requires |pen.current.rows| <= Capacity(pen.done == [])
    ensures pen.y == TopOf(pen.done == []) - LineStep * |pen.current.rows|
    ensures pen.y < BottomMargin <==> |pen.current.rows| == Capacity(pen.done == [])
  {
  }

  lemma PlaceCursor(pen: Pen, n: nat, line: string)
    requires CursorOk(pen, n)
    requires |pen.current.rows| <= Capacity(pen.done == [])
    ensures CursorOk(Place(pen, line), n + 1)
  {
    CursorFull(pen, n);
  }

  /** Drawing one more line keeps the canvas well formed. */
  lemma PlaceOk(pen: Pen, lines: seq<string>, line: string)
    requires PenOk(pen, lines)
    ensures PenOk(Place(pen, line), lines + [line])
  {
    PlaceTexts(pen, line);
    var all := AllPages(pen);
    assert all[|pen.done|] == pen.current;
    assert PageOk(all[|pen.done|], |pen.done| == 0);
    CursorFull(pen, |lines|);
    PlaceCursor(pen, |lines|, line);
    if pen.y < BottomMargin {
      PlaceBreakPages(pen, line);
    } else {
      PlaceStayPages(pen, line);
    }
  }

  lemma {:induction false} PenAfterOk(lines: seq<string>)
    ensures PenOk(PenAfter(lines), lines)
  {
    if lines == [] {
      assert Texts(AllPages(Start)) == Texts([]) + RowTexts([]);
    } else {
      var init := lines[..|lines| - 1];
      PenAfterOk(init);
      PlaceOk(PenAfter(init), init, lines[|lines| - 1]);
      assert init + [lines[|lines| - 1]] == lines;
    }
  }

  /** The page count of a transcript of `n` lines. */
  function PageCount(n: nat): nat
  {
    1 + n / 51
  }

  /** Every row of a well-formed document is drawn at or above the margin. */
  lemma RowsAboveMargin(pages: seq<Page>)
    requires PagesOk(pages)
    ensures forall j, k :: 0 <= j < |pages| && 0 <= k < |pages[j].rows| ==> pages[j].rows[k].y >= BottomMargin
  {
    forall j, k | 0 <= j < |pages| && 0 <= k < |pages[j].rows|
      ensures pages[j].rows[k].y >= BottomMargin
    {
      assert PageOk(pages[j], j == 0);
    }
  }

  lemma HeaderOnFirstPage(pages: seq<Page>)
    requires PagesOk(pages)
    ensures forall j :: 0 <= j < |pages| ==> (pages[j].header <==> j == 0)
  {
    forall j | 0 <= j < |pages|
      ensures pages[j].header <==> j == 0
    {
      assert PageOk(pages[j], j == 0);
    }
  }

  /** A page ends only when the next line would fall below the margin, and
      the page after it starts at the reset height. */
  lemma BreakRule(pages: seq<Page>)
    requires PagesOk(pages)
    ensures forall j :: 0 <= j < |pages| - 1 ==>
              |pages[j].rows| > 0 && pages[j].rows[|pages[j].rows| - 1].y - LineStep < BottomMargin
    ensures forall j :: 0 < j < |pages| ==> |pages[j].rows| > 0 && pages[j].rows[0].y == TopY
    ensures |pages| > 0 && |pages[0].rows| > 0 ==> pages[0].rows[0].y == FirstLineY
  {
    forall j | 0 <= j < |pages| - 1
      ensures |pages[j].rows| > 0 && pages[j].rows[|pages[j].rows| - 1].y - LineStep < BottomMargin
    {
      assert PageOk(pages[j], j == 0);
    }
    forall j | 0 < j < |pages|
      ensures |pages[j].rows| > 0 && pages[j].rows[0].y == TopY
    {
      assert PageOk(pages[j], false);
    }
    if |pages| > 0 {
      assert PageOk(pages[0], true);
    }
  }

  lemma LineSpacing(pages: seq<Page>)
    requires PagesOk(pages)
    ensures forall j, k :: 0 <= j < |pages| && 0 < k < |pages[j].rows| ==>
              pages[j].rows[k].y == pages[j].rows[k - 1].y - LineStep
  {
    forall j, k | 0 <= j < |pages| && 0 < k < |pages[j].rows|
      ensures pages[j].rows[k].y == pages[j].rows[k - 1].y - LineStep
    {
      assert PageOk(pages[j], j == 0);
    }
  }

  lemma CountPages(pen: Pen, n: nat)
    requires CursorOk(pen, n)
    requires |pen.current.rows| <= Capacity(pen.done == [])
    ensures |AllPages(pen)| == PageCount(n)
  {
    var d := |pen.done|;
    var c := |pen.current.rows|;
    if d > 0 {
      assert n == 51 * d + (c - 1);
      assert n / 51 == d;
    }
  }

  /** What a paginated transcript looks like.
      - Every line is drawn at or above the bottom margin.
      - The header is drawn once, on the first page.
      - A page ends only when the cursor for the next line would fall
        below the margin; the next page starts at the reset height.
      - On a page, lines are one line step apart, and the first page's
        first line is at the first-line height.
      - No page after the first is empty, so there is no trailing empty page. */
  predicate Paginated(pages: seq<Page>)
  {
    |pages| > 0 &&
    (forall j, k :: 0 <= j < |pages| && 0 <= k < |pages[j].rows| ==> pages[j].rows[k].y >= BottomMargin) &&
    (forall j :: 0 <= j < |pages| ==> (pages[j].header <==> j == 0)) &&
    (forall j :: 0 <= j < |pages| - 1 ==>
       |pages[j].rows| > 0 && pages[j].rows[|pages[j].rows| - 1].y - LineStep < BottomMargin) &&
    (forall j :: 0 < j < |pages| ==> |pages[j].rows| > 0 && pages[j].rows[0].y == TopY) &&
    (|pages[0].rows| > 0 ==> pages[0].rows[0].y == FirstLineY) &&
    (forall j, k :: 0 <= j < |pages| && 0 < k < |pages[j].rows| ==>
       pages[j].rows[k].y == pages[j].rows[k - 1].y - LineStep)
  }

  /** The layout of any transcript draws every line exactly once and in
      order, is paginated as above, and has `PageCount(|lines|)` pages. */
  lemma LayoutProperties(lines: seq<string>)
    ensures Texts(Layout(lines)) == lines
    ensures Paginated(Layout(lines))
    ensures |Layout(lines)| == PageCount(|lines|)
  {
    PenAfterOk(lines);
    PenProperties(PenAfter(lines), lines);
  }

  lemma PenProperties(pen: Pen, lines: seq<string>)
    requires PenOk(pen, lines)
    ensures Paginated(AllPages(pen))
    ensures |AllPages(pen)| == PageCount(|lines|)
  {
    var pages := AllPages(pen);
    RowsAboveMargin(pages);
    HeaderOnFirstPage(pages);
    BreakRule(pages);
    LineSpacing(pages);
    assert pages[|pen.done|] == pen.current;
    assert PageOk(pages[|pen.done|], |pen.done| == 0);
    CountPages(pen, |lines|);
  }

  /** A longer transcript never needs fewer pages. */
  lemma PageCountMonotone(n: nat, m: nat)
    requires n <= m
    ensures PageCount(n) <= PageCount(m)
  {
  }

  /** Up to fifty lines fit on the first page; the fifty-first starts a second. */
  lemma FirstPageHoldsFifty(lines: seq<string>)
    ensures |Layout(lines)| == 1 <==> |lines| <= 50
  {
    LayoutProperties(lines);
    assert |Layout(lines)| == 1 + |lines| / 51;
  }

  /** The drawing loop of `generate_pdf_from_log`. */
  method GeneratePdf(lines: seq<string>) returns (pages: seq<Page>)
    ensures pages == Layout(lines)
    ensures Texts(pages) == lines && Paginated(pages) && |pages| == PageCount(|lines|)
  {
    var done: seq<Page> := [];
    var current := Page(true, []);
    var y := FirstLineY;
    for i := 0 to |lines|
      invariant Pen(done, current, y) == PenAfter(lines[..i])
    {
      assert lines[..i + 1][..i] == lines[..i];
      if y < BottomMargin {
        done := done + [current];
        current := Page(false, []);
        y := TopY;
      }
      current := Page(current.header, current.rows + [Row(y, lines[i])]);
      y := y - LineStep;
    }
    assert lines[..|lines|] == lines;
    pages := done + [current];
    LayoutProperties(lines);
  }
}
