/** The page layout of `renderPdf`: a running vertical cursor `y` on the
    current page, page breaks that redraw the table header, one row per
    invoice line whose height follows the wrapped description, the grand total,
    and the optional watermark. A page is the list of drawing operations
    issued on it, in order. */
module Layout {
  import opened Basics
  import opened Invoices
  import opened Wrapping

  // ---------------------------------------------------------------------------
  // Page geometry (PDF points, origin at the bottom left)

  const PageWidth: real := 595.28
  const PageHeight: real := 841.89
  const MarginTop: real := 40.0
  const MarginRight: real := 40.0
  const MarginBottom: real := 50.0
  const MarginLeft: real := 40.0

  const TableWidth: real := PageWidth - MarginLeft - MarginRight
  const X1: real := MarginLeft
  const X2: real := MarginLeft + TableWidth * 0.60
  const X3: real := X2 + TableWidth * 0.10
  const X4: real := X3 + TableWidth * 0.15
  const WDesc: real := TableWidth * 0.60
  const WQty: real := TableWidth * 0.10
  const WUnit: real := TableWidth * 0.15
  const WTotal: real := TableWidth * 0.15

  const Pad: real := 10.0
  const LineHeight: real := 12.0
  const PaddingTop: real := 8.0
  const PaddingBottom: real := 8.0

  /** Where a fresh page's cursor starts, and where its table header sits. */
  const PageTop: real := PageHeight - MarginTop
  /** The cursor after a page break has drawn the table header. */
  const BreakY: real := PageTop - 25.0

  /** The baseline of "Billed To" and "Invoice Number". */
  const MetaY: real := PageTop - 16.0 - 28.0
  /** Where the table header of the first page is drawn: below the date line
      (baseline `MetaY - 46`, text height 12) with a gap of 24. */
  const TableTop: real := MetaY - 46.0 - 12.0 - 24.0

  // ---------------------------------------------------------------------------
  // Drawing operations

  datatype Font = Regular | Bold

  datatype Color = Black | Grey | LightGrey | HeaderFill | DefaultColor

  datatype Op =
    | Text(s: string, x: real, y: real, size: real, font: Font, color: Color)
    | Rect(x: real, y: real, w: real, h: real, fill: Color)
    | Rule(x0: real, x1: real, y: real, thickness: real, color: Color)
    | Stamp(s: string, x: real, y: real, size: real, font: Font, angle: real, opacity: real)

  /** `font.widthOfTextAtSize(text, size)`, left abstract. */
  type Measure = (Font, string, real) -> real

  /** The watermark: large, rotated, nearly transparent text. */
  const Watermark: Op := Stamp("WATERMARK", 120.0, 420.0, 70.0, Bold, -30.0, 0.05)

  /** `right(text, xRight, y)`: text whose right edge is at `xRight`. */
  function RightText(measure: Measure, t: string, xRight: real, y: real, size: real, f: Font, c: Color): (op: Op)
    ensures op.Text? && op.s == t && op.y == y && op.x + measure(f, t, size) == xRight
  {
    Text(t, xRight - measure(f, t, size), y, size, f, c)
  }

  /** `tableHeader()` at cursor `y`: a shaded band and the four column titles. */
  function HeaderOps(measure: Measure, y: real): seq<Op> {
    [ Rect(MarginLeft, y - 4.0, TableWidth, 20.0, HeaderFill),
      Text("Description", X1 + Pad, y, 10.0, Bold, Grey),
      RightText(measure, "Qty", X2 + WQty - Pad, y, 10.0, Bold, Grey),
      RightText(measure, "Unit Price", X3 + WUnit - Pad, y, 10.0, Bold, Grey),
      RightText(measure, "Total", X4 + WTotal - Pad, y, 10.0, Bold, Grey) ]
  }

  /** The sender details that name the company. */
  datatype Settings = Settings(cName: string, cAddr: string, cTax: string)

  /** `[cAddr, cTax ? 'TAX: ' + cTax : ''].filter(Boolean).join(' • ')`. */
  function AddressLine(s: Settings): (line: string)
    ensures s.cAddr == "" && s.cTax == "" <==> line == ""
  {
    var tax := if s.cTax != "" then "TAX: " + s.cTax else "";
    if s.cAddr != "" && tax != "" then s.cAddr + " • " + tax
    else if s.cAddr != "" then s.cAddr
    else tax
  }

  /** The title, the company name and the address line. */
  function TitleOps(measure: Measure, settings: Settings): seq<Op> {
    [ Text("INVOICE", MarginLeft, PageTop, 18.0, Bold, Black),
      RightText(measure, settings.cName, PageWidth - MarginRight, PageTop, 11.0, Bold, DefaultColor),
      RightText(measure, AddressLine(settings), PageWidth - MarginRight, PageTop - 16.0, 9.0, Regular, Grey) ]
  }

  /** The left column of the metadata block: the customer, then the email and
      the group, each only when present and each 14 below the previous line. */
  function ContactOps(inv: Invoice): seq<Op> {
    var emailY := MetaY - 32.0;
    var groupY := if inv.email != "" then emailY - 14.0 else emailY;
    [ Text("Billed To", MarginLeft, MetaY, 9.0, Regular, Grey),
      Text(inv.customer, MarginLeft, MetaY - 14.0, 11.0, Bold, DefaultColor) ]
    + (if inv.email != "" then [Text(inv.email, MarginLeft, emailY, 10.0, Regular, DefaultColor)] else [])
    + (if inv.groupBy != "" then [Text("Project/Group: " + inv.groupBy, MarginLeft, groupY, 10.0, Regular, DefaultColor)] else [])
  }

  /** The right column of the metadata block: invoice number and date. */
  function MetaOps(measure: Measure, inv: Invoice, date: string): seq<Op> {
    var xRight := PageWidth - MarginRight;
    [ RightText(measure, "Invoice Number", xRight, MetaY, 9.0, Regular, Grey),
      RightText(measure, inv.invoiceNo, xRight, MetaY - 14.0, 11.0, Bold, DefaultColor),
      RightText(measure, "Date of Issue", xRight, MetaY - 32.0, 9.0, Regular, Grey),
      RightText(measure, date, xRight, MetaY - 46.0, 11.0, Bold, DefaultColor) ]
  }

  /** Everything the first page shows above the table. */
  function HeaderBlockOps(measure: Measure, inv: Invoice, settings: Settings, date: string): seq<Op> {
    TitleOps(measure, settings) + ContactOps(inv) + MetaOps(measure, inv, date)
  }

  /** The heading is text only, and all of it lies above the table header band
      (which spans from 4 below to 16 above `TableTop`), with the lowest lines
      (the date, and the group when both optional lines are shown) 36 above it. */
  lemma HeaderAboveTable(measure: Measure, inv: Invoice, settings: Settings, date: string)
    ensures var ops := HeaderBlockOps(measure, inv, settings, date);
      forall k :: 0 <= k < |ops| ==> ops[k].Text? && ops[k].y >= TableTop + 36.0
  {
    var t, c, m := TitleOps(measure, settings), ContactOps(inv), MetaOps(measure, inv, date);
    assert forall k :: 0 <= k < |t| ==> t[k].Text? && t[k].y >= TableTop + 36.0;
    assert forall k :: 0 <= k < |c| ==> c[k].Text? && c[k].y >= TableTop + 36.0;
    assert forall k :: 0 <= k < |m| ==> m[k].Text? && m[k].y >= TableTop + 36.0;
  }

  // ---------------------------------------------------------------------------
  // Rows

  /** The width a description is measured with: the regular font at size 10. */
  function BodyWidth(measure: Measure): string -> real {
    t => measure(Regular, t, 10.0)
  }

  /** The description lines of an invoice line. */
  function DescLines(measure: Measure, l: Line): (ls: seq<string>)
    ensures |ls| >= 1
  {
    WrapNoWords(l.desc, WDesc - Pad * 2.0, BodyWidth(measure));
    Wrapped(l.desc, WDesc - Pad * 2.0, BodyWidth(measure))
  }

  /** The height of a row whose description wraps to `n` lines. */
  function RowHeight(n: nat): real {
    (n as real) * LineHeight + PaddingTop + PaddingBottom
  }

  /** The description lines of a row, one below the other from `y0`. */
  function DescTexts(ls: seq<string>, y0: real): (ops: seq<Op>)
    ensures |ops| == |ls|
    ensures forall k :: 0 <= k < |ls| ==>
      ops[k] == Text(ls[k], X1 + Pad, y0 - LineHeight * (k as real), 10.0, Regular, DefaultColor)
  {
    seq(|ls|, k requires 0 <= k < |ls| => Text(ls[k], X1 + Pad, y0 - LineHeight * (k as real), 10.0, Regular, DefaultColor))
  }

  /** What one row draws when its top is at `top`: quantity, unit price and
      total on the first text line, the description lines, and the separator
      at the row's bottom edge. */
  function RowOps(measure: Measure, money: int -> string, l: Line, ls: seq<string>, top: real): seq<Op> {
    var contentY := top - PaddingTop - (LineHeight - 2.0);
    [ RightText(measure, IntToString(l.qty), X2 + WQty - Pad, contentY, 10.0, Regular, DefaultColor),
      RightText(measure, money(l.unit), X3 + WUnit - Pad, contentY, 10.0, Regular, DefaultColor),
      RightText(measure, money(l.total), X4 + WTotal - Pad, contentY, 10.0, Bold, DefaultColor) ]
    + DescTexts(ls, contentY)
    + [Rule(MarginLeft, PageWidth - MarginRight, top - RowHeight(|ls|), 0.5, LightGrey)]
  }

  /** Every text of a row lies strictly between the row's top and the
      separator drawn at its bottom edge, and the separator closes the row. */
  lemma RowGeometry(measure: Measure, money: int -> string, l: Line, ls: seq<string>, top: real)
    requires ls != []
    ensures var ops := RowOps(measure, money, l, ls, top);
      && ops[|ops| - 1] == Rule(MarginLeft, PageWidth - MarginRight, top - RowHeight(|ls|), 0.5, LightGrey)
      && forall k :: 0 <= k < |ops| - 1 ==> ops[k].Text? && top - RowHeight(|ls|) < ops[k].y < top
  {
    var ops := RowOps(measure, money, l, ls, top);
    var contentY := top - PaddingTop - (LineHeight - 2.0);
    forall k | 3 <= k < |ops| - 1
      ensures ops[k].Text? && top - RowHeight(|ls|) < ops[k].y < top
    {
      assert ops[k] == DescTexts(ls, contentY)[k - 3];
      assert (k - 3) as real <= (|ls| - 1) as real;
    }
  }


  // ---------------------------------------------------------------------------
  // The document state and page breaks

  /** The document while it is drawn: the finished pages, the current page
      (the one the `page` variable points at) and the cursor `y`. */
  datatype Doc = Doc(done: seq<seq<Op>>, page: seq<Op>, y: real)

  /** The pages of the saved document, the current one last. */
  function Pages(d: Doc): (ps: seq<seq<Op>>)
    ensures |ps| == |d.done| + 1 && ps[|ps| - 1] == d.page
    ensures forall i :: 0 <= i < |d.done| ==> ps[i] == d.done[i]
  {
    d.done + [d.page]
  }

  /** All operations of a list of pages, page after page. */
  function Flatten(pages: seq<seq<Op>>): seq<Op> {
    if pages == [] then [] else Flatten(pages[..|pages| - 1]) + pages[|pages| - 1]
  }

  /** Everything drawn so far, in drawing order. */
  function Drawn(d: Doc): seq<Op> {
    Flatten(d.done) + d.page
  }

  /** The extra room `ensure` asks for when the table header comes along. */
  function Extra(includeHeader: bool): real {
    if includeHeader then 40.0 else 0.0
  }

  /** `ensure` starts a new page when the room below `y` is less than needed. */
  predicate NeedsBreak(y: real, need: real, includeHeader: bool) {
    y - (need + Extra(includeHeader)) < MarginBottom
  }

  /** What `ensure` draws: the table header at the top of the new page, or
      nothing. */
  function BreakOps(measure: Measure, y: real, need: real, includeHeader: bool): seq<Op> {
    if NeedsBreak(y, need, includeHeader) then HeaderOps(measure, PageTop) else []
  }

  /** `ensure(need, includeHeader)`: on a break the current page is finished, a
      new page shows the table header at its top margin, and the cursor moves
      25 below it. */
  function EnsureDoc(measure: Measure, d: Doc, need: real, includeHeader: bool): Doc {
    if NeedsBreak(d.y, need, includeHeader) then Doc(d.done + [d.page], HeaderOps(measure, PageTop), BreakY)
    else d
  }

  /** After `ensure` the room asked for is there whenever a fresh page can
      hold it; without a break nothing changes; and `ensure` only adds what
      `BreakOps` names to the drawing. */
  lemma EnsureMakesRoom(measure: Measure, d: Doc, need: real, includeHeader: bool)
    requires need + Extra(includeHeader) <= BreakY - MarginBottom
    ensures EnsureDoc(measure, d, need, includeHeader).y - (need + Extra(includeHeader)) >= MarginBottom
    ensures !NeedsBreak(d.y, need, includeHeader) ==> EnsureDoc(measure, d, need, includeHeader) == d
  {
  }

  lemma EnsureDrawn(measure: Measure, d: Doc, need: real, includeHeader: bool)
    ensures Drawn(EnsureDoc(measure, d, need, includeHeader)) == Drawn(d) + BreakOps(measure, d.y, need, includeHeader)
  {
    if NeedsBreak(d.y, need, includeHeader) {
      assert (d.done + [d.page])[..|d.done|] == d.done;
    }
  }

  /** `ensure` never changes a finished page or what the current page already
      shows: the old pages are a prefix of the new ones, the old current page
      a prefix of the page at its position. */
  predicate Extends(d: Doc, e: Doc) {
    && d.done <= e.done
    && (|e.done| == |d.done| ==> d.page <= e.page)
    && (|e.done| > |d.done| ==> d.page <= e.done[|d.done|])
  }

  lemma ExtendsTrans(d: Doc, e: Doc, f: Doc)
    requires Extends(d, e) && Extends(e, f)
    ensures Extends(d, f)
  {
    if |e.done| > |d.done| {
      assert e.done[|d.done|] == f.done[|d.done|];
    }
  }

  /** The first page only grows. */
  lemma ExtendsFirstPage(d: Doc, e: Doc)
    requires Extends(d, e)
    ensures Pages(d)[0] <= Pages(e)[0]
  {
    if |d.done| > 0 {
      assert d.done[0] == e.done[0];
    }
  }

  // ---------------------------------------------------------------------------
  // Rows and the whole document

  /** Draw `ops` on the current page and move the cursor `h` down. */
  function Place(e: Doc, ops: seq<Op>, h: real): Doc {
    Doc(e.done, e.page + ops, e.y - h)
  }

  /** A row whose description wraps to `ls`: make room for it (with the header
      if a page break is needed), draw it from the cursor down, and leave the
      cursor at its bottom edge, where the separator is. */
  function RowWith(measure: Measure, money: int -> string, d: Doc, l: Line, ls: seq<string>): Doc {
    var e := EnsureDoc(measure, d, RowHeight(|ls|), true);
    Place(e, RowOps(measure, money, l, ls, e.y), RowHeight(|ls|))
  }

  /** One iteration of the row loop: wrap the description and draw the row. */
  function RowDoc(measure: Measure, money: int -> string, d: Doc, l: Line): Doc {
    RowWith(measure, money, d, l, DescLines(measure, l))
  }

  /** The row loop over `lines`. */
  function RowsDoc(measure: Measure, money: int -> string, d: Doc, lines: seq<Line>): Doc {
    if lines == [] then d
    else RowDoc(measure, money, RowsDoc(measure, money, d, lines[..|lines| - 1]), lines[|lines| - 1])
  }

  /** The heading is drawn on the first page and leaves the cursor where the
      table starts. */
  function HeaderDoc(measure: Measure, inv: Invoice, settings: Settings, date: string): Doc {
    Doc([], HeaderBlockOps(measure, inv, settings, date), TableTop)
  }

  /** The grand total line: the label right-aligned on the total column's left
      edge, the amount on the right margin. */
  function TotalOps(measure: Measure, money: int -> string, sum: int, y: real): seq<Op> {
    [ RightText(measure, "Grand Total", X4 - Pad, y, 12.0, Bold, Black),
      RightText(measure, money(sum), PageWidth - MarginRight, y, 12.0, Bold, Black) ]
  }

  /** The whole of `renderPdf` for one invoice: the heading, `ensure(0)`, the
      table header, the rows, 20 points of space, `ensure(28)`, the grand total
      and, when asked for, the watermark. */
  function RenderDoc(measure: Measure, money: int -> string, inv: Invoice, settings: Settings,
                     watermark: bool, date: string): Doc
  {
    var d1 := EnsureDoc(measure, HeaderDoc(measure, inv, settings, date), 0.0, false);
    var d2 := Place(d1, HeaderOps(measure, d1.y), 0.0);
    var d3 := RowsDoc(measure, money, d2, inv.lines);
    var d4 := EnsureDoc(measure, Place(d3, [], 20.0), 28.0, false);
    var d5 := Place(d4, TotalOps(measure, money, SumTotals(inv.lines), d4.y), 0.0);
    if watermark then Place(d5, [Watermark], 0.0) else d5
  }

  /** The sum of the line totals, `sum += (l.total || 0)`. */
  function SumTotals(lines: seq<Line>): int {
    if lines == [] then 0 else SumTotals(lines[..|lines| - 1]) + lines[|lines| - 1].total
  }

  /** The grand total adds up part by part. */
  lemma {:induction false} SumTotalsConcat(a: seq<Line>, b: seq<Line>)
    ensures SumTotals(a + b) == SumTotals(a) + SumTotals(b)
    decreases |b|
  {
    if b == [] {
      assert a + b == a;
    } else {
      assert (a + b)[..|a + b| - 1] == a + b[..|b| - 1];
      SumTotalsConcat(a, b[..|b| - 1]);
    }
  }

  // ---------------------------------------------------------------------------
  // Counting operations

  datatype Kind = TextKind | RectKind | RuleKind | StampKind

  function KindOf(op: Op): Kind {
    match op
    case Text(_, _, _, _, _, _) => TextKind
    case Rect(_, _, _, _, _) => RectKind
    case Rule(_, _, _, _, _) => RuleKind
    case Stamp(_, _, _, _, _, _, _) => StampKind
  }

  /** The number of operations of kind `k`. */
  function Count(ops: seq<Op>, k: Kind): nat {
    if ops == [] then 0
    else Count(ops[..|ops| - 1], k) + (if KindOf(ops[|ops| - 1]) == k then 1 else 0)
  }

  lemma {:induction false} CountConcat(a: seq<Op>, b: seq<Op>, k: Kind)
    ensures Count(a + b, k) == Count(a, k) + Count(b, k)
    decreases |b|
  {
    if b == [] {
      assert a + b == a;
    } else {
      assert (a + b)[..|a + b| - 1] == a + b[..|b| - 1];
      CountConcat(a, b[..|b| - 1], k);
    }
  }

  lemma {:induction false} CountNone(ops: seq<Op>, k: Kind)
    requires forall i :: 0 <= i < |ops| ==> KindOf(ops[i]) != k
    ensures Count(ops, k) == 0
  {
    if ops != [] {
      CountNone(ops[..|ops| - 1], k);
    }
  }

  /** A row draws exactly one separator and no watermark. */
  lemma RowCounts(measure: Measure, money: int -> string, l: Line, ls: seq<string>, top: real)
    ensures Count(RowOps(measure, money, l, ls, top), RuleKind) == 1
    ensures Count(RowOps(measure, money, l, ls, top), StampKind) == 0
  {
    var ops := RowOps(measure, money, l, ls, top);
    var body := ops[..|ops| - 1];
    forall i | 0 <= i < |body| ensures KindOf(body[i]) == TextKind {
      if i >= 3 { assert body[i] == DescTexts(ls, top - PaddingTop - (LineHeight - 2.0))[i - 3]; }
    }
    CountNone(body, RuleKind);
    CountNone(body, StampKind);
  }

  /** A page break draws neither separators nor a watermark, and keeps what
      was drawn. */
  lemma EnsureCounts(measure: Measure, d: Doc, need: real, includeHeader: bool, k: Kind)
    requires k == RuleKind || k == StampKind
    ensures Count(Drawn(EnsureDoc(measure, d, need, includeHeader)), k) == Count(Drawn(d), k)
    ensures Extends(d, EnsureDoc(measure, d, need, includeHeader))
  {
    var b := BreakOps(measure, d.y, need, includeHeader);
    EnsureDrawn(measure, d, need, includeHeader);
    CountNone(b, k);
    CountConcat(Drawn(d), b, k);
  }

  lemma PlaceCounts(e: Doc, ops: seq<Op>, h: real, k: Kind)
    ensures Count(Drawn(Place(e, ops, h)), k) == Count(Drawn(e), k) + Count(ops, k)
    ensures Extends(e, Place(e, ops, h))
  {
    assert Drawn(Place(e, ops, h)) == Drawn(e) + ops;
    CountConcat(Drawn(e), ops, k);
  }

  /** A row adds one separator and no watermark to the drawing, whether or not
      it starts a new page. */
  lemma RowWithCounts(measure: Measure, money: int -> string, d: Doc, l: Line, ls: seq<string>)
    ensures Count(Drawn(RowWith(measure, money, d, l, ls)), RuleKind) == Count(Drawn(d), RuleKind) + 1
    ensures Count(Drawn(RowWith(measure, money, d, l, ls)), StampKind) == Count(Drawn(d), StampKind)
    ensures Extends(d, RowWith(measure, money, d, l, ls))
  {
    var e := EnsureDoc(measure, d, RowHeight(|ls|), true);
    var r := RowOps(measure, money, l, ls, e.y);
    EnsureCounts(measure, d, RowHeight(|ls|), true, RuleKind);
    EnsureCounts(measure, d, RowHeight(|ls|), true, StampKind);
    RowCounts(measure, money, l, ls, e.y);
    PlaceCounts(e, r, RowHeight(|ls|), RuleKind);
    PlaceCounts(e, r, RowHeight(|ls|), StampKind);
    ExtendsTrans(d, e, RowWith(measure, money, d, l, ls));
  }

  /** The row loop draws one separator per line, no watermark, and never
      changes what was already drawn. */
  lemma {:induction false} RowsDocCounts(measure: Measure, money: int -> string, d: Doc, lines: seq<Line>)
    ensures Count(Drawn(RowsDoc(measure, money, d, lines)), RuleKind) == Count(Drawn(d), RuleKind) + |lines|
    ensures Count(Drawn(RowsDoc(measure, money, d, lines)), StampKind) == Count(Drawn(d), StampKind)
    ensures Extends(d, RowsDoc(measure, money, d, lines))
  {
    if lines != [] {
      var d0 := RowsDoc(measure, money, d, lines[..|lines| - 1]);
      RowsDocCounts(measure, money, d, lines[..|lines| - 1]);
      RowWithCounts(measure, money, d0, lines[|lines| - 1], DescLines(measure, lines[|lines| - 1]));
      ExtendsTrans(d, d0, RowsDoc(measure, money, d, lines));
    }
  }

  /** The heading draws neither separators nor a watermark. */
  lemma HeaderBlockCounts(measure: Measure, inv: Invoice, settings: Settings, date: string, k: Kind)
    requires k == RuleKind || k == StampKind
    ensures Count(HeaderBlockOps(measure, inv, settings, date), k) == 0
  {
    HeaderAboveTable(measure, inv, settings, date);
    CountNone(HeaderBlockOps(measure, inv, settings, date), k);
  }

  // ---------------------------------------------------------------------------
  // What the rendered document shows

  /** The heading always leaves room for the table header, so the first
      `ensure(0)` never breaks the page. */
  lemma FirstEnsureKeepsPage(measure: Measure, inv: Invoice, settings: Settings, date: string)
    ensures EnsureDoc(measure, HeaderDoc(measure, inv, settings, date), 0.0, false) == HeaderDoc(measure, inv, settings, date)
  {
  }

  /** The table header draws neither separators nor a watermark. */
  lemma HeaderOpsCounts(measure: Measure, y: real, k: Kind)
    requires k == RuleKind || k == StampKind
    ensures Count(HeaderOps(measure, y), k) == 0
  {
    CountNone(HeaderOps(measure, y), k);
  }

  /** The document up to the end of the row loop, `head` being the heading. */
  function TableDoc(measure: Measure, money: int -> string, head: seq<Op>, lines: seq<Line>): Doc {
    RowsDoc(measure, money, Doc([], head + HeaderOps(measure, TableTop), TableTop), lines)
  }

  /** After the rows, the heading and the table header still begin the first
      page, and there is one separator per line and no watermark. */
  lemma TableDocFacts(measure: Measure, money: int -> string, head: seq<Op>, lines: seq<Line>, k: Kind)
    requires k == RuleKind || k == StampKind
    requires Count(head, k) == 0
    ensures var t := TableDoc(measure, money, head, lines);
      && Count(Drawn(t), k) == (if k == RuleKind then |lines| else 0)
      && Extends(Doc([], head + HeaderOps(measure, TableTop), TableTop), t)
  {
    var d2 := Doc([], head + HeaderOps(measure, TableTop), TableTop);
    assert Drawn(d2) == head + HeaderOps(measure, TableTop);
    HeaderOpsCounts(measure, TableTop, k);
    CountConcat(head, HeaderOps(measure, TableTop), k);
    RowsDocCounts(measure, money, d2, lines);
  }

  /** What follows the rows: the grand total, then possibly the watermark. */
  function Tail(measure: Measure, money: int -> string, d3: Doc, sum: int, watermark: bool): Doc {
    var d4 := EnsureDoc(measure, Place(d3, [], 20.0), 28.0, false);
    var d5 := Place(d4, TotalOps(measure, money, sum, d4.y), 0.0);
    if watermark then Place(d5, [Watermark], 0.0) else d5
  }

  /** The tail adds no separator, one watermark when asked for, and keeps
      what was drawn. */
  lemma TailCounts(measure: Measure, money: int -> string, d3: Doc, sum: int, watermark: bool, k: Kind)
    requires k == RuleKind || k == StampKind
    ensures var f := Tail(measure, money, d3, sum, watermark);
      && Count(Drawn(f), k) == Count(Drawn(d3), k) + (if k == StampKind && watermark then 1 else 0)
      && Extends(d3, f)
  {
    var dy := Place(d3, [], 20.0);
    var d4 := EnsureDoc(measure, dy, 28.0, false);
    var g := TotalOps(measure, money, sum, d4.y);
    var d5 := Place(d4, g, 0.0);
    PlaceCounts(d3, [], 20.0, k);
    assert Count([], k) == 0;
    EnsureCounts(measure, dy, 28.0, false, k);
    CountNone(g, k);
    PlaceCounts(d4, g, 0.0, k);
    ExtendsTrans(d3, dy, d4);
    ExtendsTrans(d3, d4, d5);
    if watermark {
      PlaceCounts(d5, [Watermark], 0.0, k);
      assert Count([Watermark], k) == Count([Watermark][..0], k) + (if k == StampKind then 1 else 0);
      ExtendsTrans(d3, d5, Place(d5, [Watermark], 0.0));
    }
  }

  /** The rendered document is the table followed by the tail. */
  lemma RenderSplits(measure: Measure, money: int -> string, inv: Invoice, settings: Settings,
                     watermark: bool, date: string)
    ensures RenderDoc(measure, money, inv, settings, watermark, date)
      == Tail(measure, money, TableDoc(measure, money, HeaderBlockOps(measure, inv, settings, date), inv.lines),
              SumTotals(inv.lines), watermark)
  {
    FirstEnsureKeepsPage(measure, inv, settings, date);
  }

  /** The document starts, on its first page, with the heading followed by the
      table header at `TableTop`. */
  lemma RenderFirstPage(measure: Measure, money: int -> string, inv: Invoice, settings: Settings,
                        watermark: bool, date: string)
    ensures HeaderBlockOps(measure, inv, settings, date) + HeaderOps(measure, TableTop)
      <= Pages(RenderDoc(measure, money, inv, settings, watermark, date))[0]
  {
    var head := HeaderBlockOps(measure, inv, settings, date);
    var t := TableDoc(measure, money, head, inv.lines);
    var d2 := Doc([], head + HeaderOps(measure, TableTop), TableTop);
    RenderSplits(measure, money, inv, settings, watermark, date);
    HeaderBlockCounts(measure, inv, settings, date, RuleKind);
    TableDocFacts(measure, money, head, inv.lines, RuleKind);
    TailCounts(measure, money, t, SumTotals(inv.lines), watermark, RuleKind);
    ExtendsTrans(d2, t, RenderDoc(measure, money, inv, settings, watermark, date));
    ExtendsFirstPage(d2, RenderDoc(measure, money, inv, settings, watermark, date));
  }

  /** One separator per invoice line, and the watermark exactly once when asked
      for and never otherwise. */
  lemma RenderCounts(measure: Measure, money: int -> string, inv: Invoice, settings: Settings,
                     watermark: bool, date: string)
    ensures Count(Drawn(RenderDoc(measure, money, inv, settings, watermark, date)), RuleKind) == |inv.lines|
    ensures Count(Drawn(RenderDoc(measure, money, inv, settings, watermark, date)), StampKind) == if watermark then 1 else 0
  {
    var head := HeaderBlockOps(measure, inv, settings, date);
    var t := TableDoc(measure, money, head, inv.lines);
    RenderSplits(measure, money, inv, settings, watermark, date);
    HeaderBlockCounts(measure, inv, settings, date, RuleKind);
    HeaderBlockCounts(measure, inv, settings, date, StampKind);
    TableDocFacts(measure, money, head, inv.lines, RuleKind);
    TableDocFacts(measure, money, head, inv.lines, StampKind);
    TailCounts(measure, money, t, SumTotals(inv.lines), watermark, RuleKind);
    TailCounts(measure, money, t, SumTotals(inv.lines), watermark, StampKind);
  }

  /** The last page ends with the grand total, which is the sum of the line
      totals, followed by the watermark when it is drawn; so the one watermark
      is on the last page. */
  lemma RenderEnding(measure: Measure, money: int -> string, inv: Invoice, settings: Settings,
                     watermark: bool, date: string)
    ensures var last := Pages(RenderDoc(measure, money, inv, settings, watermark, date))[|Pages(RenderDoc(measure, money, inv, settings, watermark, date))| - 1];
      var k := |last| - (if watermark then 1 else 0);
      && 2 <= k <= |last|
      && last[k - 2] == RightText(measure, "Grand Total", X4 - Pad, last[k - 2].y, 12.0, Bold, Black)
      && last[k - 1] == RightText(measure, money(SumTotals(inv.lines)), PageWidth - MarginRight, last[k - 2].y, 12.0, Bold, Black)
      && (watermark ==> last[k] == Watermark)
  {
  }

  /** Counting the drawing page by page: a page that ends with an operation
      of kind `k` holds at least one of them. */
  lemma CountByPage(d: Doc, k: Kind)
    ensures Count(Drawn(d), k) == Count(Flatten(d.done), k) + Count(d.page, k)
    ensures d.page != [] && KindOf(d.page[|d.page| - 1]) == k ==> Count(d.page, k) >= 1
  {
    CountConcat(Flatten(d.done), d.page, k);
  }

  /** No finished page carries the watermark: it is drawn on the last page
      only. */
  lemma WatermarkOnlyOnLastPage(measure: Measure, money: int -> string, inv: Invoice, settings: Settings,
                                watermark: bool, date: string)
    ensures var d := RenderDoc(measure, money, inv, settings, watermark, date);
      Count(Flatten(d.done), StampKind) == 0
  {
    var d := RenderDoc(measure, money, inv, settings, watermark, date);
    RenderCounts(measure, money, inv, settings, watermark, date);
    RenderEnding(measure, money, inv, settings, watermark, date);
    CountByPage(d, StampKind);
  }

  /** A row's separator is drawn last on its page, exactly at the cursor the row
      leaves behind. */
  lemma RowSeparatorAtCursor(measure: Measure, money: int -> string, d: Doc, l: Line)
    ensures var e := RowDoc(measure, money, d, l);
      e.page != [] && e.page[|e.page| - 1] == Rule(MarginLeft, PageWidth - MarginRight, e.y, 0.5, LightGrey)
  {
  }

  /** A row whose description wraps to at most 59 lines fits above the bottom
      margin of the page it is drawn on: after a break the cursor is at
      `BreakY`, and 59 lines of 12 points plus the 16-point padding still end
      above `MarginBottom`. */
  lemma RowFitsPage(measure: Measure, money: int -> string, d: Doc, l: Line)
    requires |DescLines(measure, l)| <= 59
    ensures RowDoc(measure, money, d, l).y >= MarginBottom
  {
    var n := |DescLines(measure, l)|;
    assert (n as real) <= 59.0;
    assert EnsureDoc(measure, d, RowHeight(n), true).y - RowHeight(n) >= MarginBottom;
  }

  /** The bound is tight: a row of 60 or more description lines, started
      anywhere at or below the top margin, forces a break and still ends below
      `MarginBottom`, since `ensure` never splits a row across pages. */
  lemma RowOverflowsPage(measure: Measure, money: int -> string, d: Doc, l: Line)
    requires |DescLines(measure, l)| >= 60
    requires d.y <= PageTop
    ensures NeedsBreak(d.y, RowHeight(|DescLines(measure, l)|), true)
    ensures RowDoc(measure, money, d, l).y < MarginBottom
  {
    var n := |DescLines(measure, l)|;
    assert (n as real) >= 60.0;
  }

  // ---------------------------------------------------------------------------
  // The renderer

  /** The state `renderPdf`'s drawing closures share: the finished pages, the
      current `page`, and the cursor `y`. */
  class Renderer {
    var done: seq<seq<Op>>
    var page: seq<Op>
    var y: real
    const measure: Measure
    const money: int -> string

    function State(): Doc
      reads this
    {
      Doc(done, page, y)
    }

    /** A document with one empty page and the cursor at its top margin. */
    constructor (measure: Measure, money: int -> string)
      ensures State() == Doc([], [], PageTop)
      ensures this.measure == measure && this.money == money
    {
      done := [];
      page := [];
      y := PageTop;
      this.measure := measure;
      this.money := money;
    }

    /** `page.drawX(...)`: add one operation to the current page. */
    method Emit(op: Op)
      modifies this`page
      ensures page == old(page) + [op]
    {
      page := page + [op];
    }

    /** `tableHeader()`. */
    method TableHeader()
      modifies this`page
      ensures page == old(page) + HeaderOps(measure, y)
    {
      Emit(Rect(MarginLeft, y - 4.0, TableWidth, 20.0, HeaderFill));
      Emit(Text("Description", X1 + Pad, y, 10.0, Bold, Grey));
      Emit(RightText(measure, "Qty", X2 + WQty - Pad, y, 10.0, Bold, Grey));
      Emit(RightText(measure, "Unit Price", X3 + WUnit - Pad, y, 10.0, Bold, Grey));
      Emit(RightText(measure, "Total", X4 + WTotal - Pad, y, 10.0, Bold, Grey));
    }

    /** `ensure(need, includeHeader)`. */
    method Ensure(need: real, includeHeader: bool)
      modifies this`done, this`page, this`y
      ensures State() == EnsureDoc(measure, old(State()), need, includeHeader)
    {
      var extra := if includeHeader then 40.0 else 0.0;
      if y - (need + extra) < MarginBottom {
        done := done + [page];
        page := [];
        y := PageTop;
        TableHeader();
        y := y - 25.0;
      }
    }

    /** The title, the company name and the address line. */
    method Title(settings: Settings)
      requires y == PageTop
      modifies this`page, this`y
      ensures page == old(page) + TitleOps(measure, settings)
      ensures y == PageTop - 16.0
    {
      Emit(Text("INVOICE", MarginLeft, y, 18.0, Bold, Black));
      Emit(RightText(measure, settings.cName, PageWidth - MarginRight, y, 11.0, Bold, DefaultColor));
      y := y - 16.0;
      Emit(RightText(measure, AddressLine(settings), PageWidth - MarginRight, y, 9.0, Regular, Grey));
    }

    /** "Billed To", the customer, and the optional email and group lines. */
    method Contact(inv: Invoice)
      requires y == MetaY
      modifies this`page, this`y
      ensures page == old(page) + ContactOps(inv)
      ensures MetaY - 60.0 <= y <= MetaY - 32.0
    {
      Emit(Text("Billed To", MarginLeft, y, 9.0, Regular, Grey));
      Emit(Text(inv.customer, MarginLeft, y - 14.0, 11.0, Bold, DefaultColor));
      y := y - 32.0;
      ghost var p0 := page;
      if inv.email != "" {
        Emit(Text(inv.email, MarginLeft, y, 10.0, Regular, DefaultColor));
        y := y - 14.0;
      }
      ghost var p1 := page;
      if inv.groupBy != "" {
        Emit(Text("Project/Group: " + inv.groupBy, MarginLeft, y, 10.0, Regular, DefaultColor));
        y := y - 14.0;
      }
      assert page == p0 + (page[|p0|..|p1|]) + page[|p1|..];
    }

    /** Invoice number and date, right-aligned beside the contact lines. */
    method Meta(inv: Invoice, date: string, metaY: real)
      requires metaY == MetaY
      modifies this`page
      ensures page == old(page) + MetaOps(measure, inv, date)
    {
      var xRight := PageWidth - MarginRight;
      Emit(RightText(measure, "Invoice Number", xRight, metaY, 9.0, Regular, Grey));
      Emit(RightText(measure, inv.invoiceNo, xRight, metaY - 14.0, 11.0, Bold, DefaultColor));
      Emit(RightText(measure, "Date of Issue", xRight, metaY - 32.0, 9.0, Regular, Grey));
      Emit(RightText(measure, date, xRight, metaY - 46.0, 11.0, Bold, DefaultColor));
    }

    /** The heading and the metadata block, from the top of the first page
        down to where the table starts: the cursor goes below the lowest of
        the contact lines and the date, with a gap of 24. */
    method HeaderBlock(inv: Invoice, settings: Settings, date: string)
      requires State() == Doc([], [], PageTop)
      modifies this`page, this`y
      ensures State() == HeaderDoc(measure, inv, settings, date)
    {
      Title(settings);
      y := y - 28.0;
      var metaY := y;
      Contact(inv);
      Meta(inv, date, metaY);
      var dateBaseline := metaY - 46.0;
      var dateTextHeight := 12.0;
      var metaBottom := dateBaseline - dateTextHeight;
      var gapBeforeTable := 24.0;
      y := if y < metaBottom - gapBeforeTable then y else metaBottom - gapBeforeTable;
      assert page == TitleOps(measure, settings) + ContactOps(inv) + MetaOps(measure, inv, date);
    }

    /** The description lines, one below the other from `contentY`. */
    method DescColumn(descLines: seq<string>, contentY: real)
      modifies this`page
      ensures page == old(page) + DescTexts(descLines, contentY)
    {
      ghost var p0 := page;
      var currentDescY := contentY;
      for k := 0 to |descLines|
        invariant page == p0 + DescTexts(descLines[..k], contentY)
        invariant currentDescY == contentY - LineHeight * (k as real)
      {
        Emit(Text(descLines[k], X1 + Pad, currentDescY, 10.0, Regular, DefaultColor));
        assert DescTexts(descLines[..k + 1], contentY) == DescTexts(descLines[..k], contentY)
          + [Text(descLines[k], X1 + Pad, currentDescY, 10.0, Regular, DefaultColor)];
        currentDescY := currentDescY - LineHeight;
      }
      assert descLines[..|descLines|] == descLines;
    }

    /** A row drawn from the cursor down, once there is room for it. */
    method DrawRow(l: Line, descLines: seq<string>)
      modifies this`page, this`y
      ensures State() == Place(old(State()), RowOps(measure, money, l, descLines, old(y)), RowHeight(|descLines|))
    {
      var rowHeight := (|descLines| as real) * LineHeight + PaddingTop + PaddingBottom;
      var topOfRow := y;
      var contentY := topOfRow - PaddingTop - (LineHeight - 2.0);
      Emit(RightText(measure, IntToString(l.qty), X2 + WQty - Pad, contentY, 10.0, Regular, DefaultColor));
      Emit(RightText(measure, money(l.unit), X3 + WUnit - Pad, contentY, 10.0, Regular, DefaultColor));
      Emit(RightText(measure, money(l.total), X4 + WTotal - Pad, contentY, 10.0, Bold, DefaultColor));
      DescColumn(descLines, contentY);
      y := topOfRow - rowHeight;
      Emit(Rule(MarginLeft, PageWidth - MarginRight, y, 0.5, LightGrey));
    }

    /** One iteration of the row loop. */
    method Row(l: Line)
      modifies this`done, this`page, this`y
      ensures State() == RowDoc(measure, money, old(State()), l)
    {
      var descLines := Wrap(l.desc, WDesc - Pad * 2.0, BodyWidth(measure));
      var rowHeight := (|descLines| as real) * LineHeight + PaddingTop + PaddingBottom;
      Ensure(rowHeight, true);
      DrawRow(l, descLines);
    }

    /** The heading, `ensure(0)` and the table header of the first page. */
    method Heading(inv: Invoice, settings: Settings, date: string)
      requires State() == Doc([], [], PageTop)
      modifies this`done, this`page, this`y
      ensures State() == Doc([], HeaderBlockOps(measure, inv, settings, date) + HeaderOps(measure, TableTop), TableTop)
    {
      HeaderBlock(inv, settings, date);
      FirstEnsureKeepsPage(measure, inv, settings, date);
      Ensure(0.0, false);
      TableHeader();
    }

    /** The row loop; returns the sum of the line totals. */
    method Rows(lines: seq<Line>) returns (sum: int)
      modifies this`done, this`page, this`y
      ensures State() == RowsDoc(measure, money, old(State()), lines)
      ensures sum == SumTotals(lines)
    {
      ghost var d0 := State();
      sum := 0;
      for i := 0 to |lines|
        invariant State() == RowsDoc(measure, money, d0, lines[..i])
        invariant sum == SumTotals(lines[..i])
      {
        Row(lines[i]);
        assert lines[..i + 1][..i] == lines[..i];
        sum := sum + lines[i].total;
      }
      assert lines[..|lines|] == lines;
    }

    /** After the rows: 20 points of space, `ensure(28)`, the grand total and
        the watermark when asked for. */
    method DrawTail(sum: int, watermark: bool)
      modifies this`done, this`page, this`y
      ensures State() == Tail(measure, money, old(State()), sum, watermark)
    {
      ghost var d3 := State();
      y := y - 20.0;
      assert State() == Place(d3, [], 20.0);
      Ensure(28.0, false);
      ghost var d4 := State();
      Emit(RightText(measure, "Grand Total", X4 - Pad, y, 12.0, Bold, Black));
      Emit(RightText(measure, money(sum), PageWidth - MarginRight, y, 12.0, Bold, Black));
      assert State() == Place(d4, TotalOps(measure, money, sum, d4.y), 0.0);
      if watermark {
        Emit(Watermark);
      }
    }
  }

  /** `renderPdf` on one invoice. The date and the currency formatting are
      inputs; the result is the list of pages with what each one shows. */
  method RenderPdf(inv: Invoice, settings: Settings, watermark: bool, date: string,
                   measure: Measure, money: int -> string)
    returns (pages: seq<seq<Op>>)
    ensures pages == Pages(RenderDoc(measure, money, inv, settings, watermark, date))
  {
    var r := new Renderer(measure, money);
    r.Heading(inv, settings, date);
    var sum := r.Rows(inv.lines);
    r.DrawTail(sum, watermark);
    RenderSplits(measure, money, inv, settings, watermark, date);
    pages := r.done + [r.page];
  }
}
