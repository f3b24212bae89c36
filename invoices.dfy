/** The invoice grouper of `useInvoiceGenerator`: it checks a column mapping and
    turns normalised spreadsheet rows into invoices, either one per row or one per
    group key. */
module Invoices {
  import opened Basics
  import opened Cells
  import opened Seqs

  /** A normalised spreadsheet row: header name to cell. */
  type Row = map<string, Cell>

  /** `r[col]`: a header the row does not have reads as `undefined`. */
  function Get(r: Row, col: string): Cell {
    if col in r then r[col] else Missing
  }

  datatype Line = Line(desc: string, qty: int, unit: int, total: int)

  /** An invoice. `email` and `invoiceNo` hold the text the invoice prints for
      them; `index` is `_index`, absent until the final numbering step. */
  datatype Invoice = Invoice(
    customer: string,
    email: string,
    groupBy: string,
    invoiceNo: string,
    lines: seq<Line>,
    index: Option<nat>)

  /** Which column plays which role; each role names a header, or is empty. */
  datatype Mapping = Mapping(
    isGroupingEnabled: bool,
    customer: string,
    email: string,
    invoiceNo: string,
    desc: string,
    qty: string,
    unit: string,
    groupBy: string)

  /** The group-by choice that stands for "do not group". */
  const NoGrouping: string := "-- No Grouping --"

  /** Prefix of the bucket key of a row whose group cell is empty. */
  const EmptyGroupPrefix: string := "__empty_group_"

  /** `validateMapping`: customer, description, quantity and unit price are
      assigned, and when grouping is on, a real group-by column is too. */
  function ValidateMapping(m: Mapping): (ok: bool)
    ensures ok <==> && m.customer != "" && m.desc != "" && m.qty != "" && m.unit != ""
                    && (m.isGroupingEnabled ==> m.groupBy != "" && m.groupBy != NoGrouping)
  {
    var required := [m.customer, m.desc, m.qty, m.unit];
    assert required[0] == m.customer && required[1] == m.desc;
    assert required[2] == m.qty && required[3] == m.unit;
    && (forall i :: 0 <= i < |required| ==> required[i] != "")
    && (!m.isGroupingEnabled || (m.isGroupingEnabled && m.groupBy != "" && m.groupBy != NoGrouping))
  }

  /** Grouping switched on with the "-- No Grouping --" choice is an invalid
      mapping, so nothing is generated or exported under it. */
  lemma NoGroupingChoiceInvalid(m: Mapping)
    requires m.isGroupingEnabled && m.groupBy == NoGrouping
    ensures !ValidateMapping(m)
  {
  }

  // ---------------------------------------------------------------------------
  // Per-row values shared by both modes

  /** `String(r[m.customer] ?? '').trim()`. */
  function CustomerText(r: Row, m: Mapping): string {
    Trim(Stringify(Get(r, m.customer)))
  }

  /** `r[m.email] || ''`, as the text it prints. */
  function EmailText(r: Row, m: Mapping): string {
    var c := Get(r, m.email);
    if Truthy(c) then Stringify(c) else ""
  }

  /** The invoice line a row contributes: the trimmed description (`'N/A'` when
      the cell is falsy), quantity and unit price read by `Number(x) || 0`, and
      their product as the total. */
  function RowLine(r: Row, m: Mapping): (l: Line)
    ensures l.qty == NumberOrZero(Get(r, m.qty)) && l.unit == NumberOrZero(Get(r, m.unit))
    ensures l.total == l.qty * l.unit
    ensures ParseNum(Get(r, m.qty)).None? ==> l.qty == 0 && l.total == 0
    ensures ParseNum(Get(r, m.unit)).None? ==> l.unit == 0 && l.total == 0
    ensures Truthy(Get(r, m.desc)) ==> l.desc == Trim(Stringify(Get(r, m.desc)))
    ensures !Truthy(Get(r, m.desc)) ==> l.desc == "N/A"
    ensures NoEdgeSpace(l.desc)
  {
    var d := Get(r, m.desc);
    var qty := NumberOrZero(Get(r, m.qty));
    var unit := NumberOrZero(Get(r, m.unit));
    // `String(d || 'N/A').trim()`; trimming 'N/A' leaves it unchanged
    Line(if Truthy(d) then Trim(Stringify(d)) else "N/A", qty, unit, qty * unit)
  }

  // ---------------------------------------------------------------------------
  // Ungrouped mode: one invoice per row

  /** A row the ungrouped mode drops: empty customer and falsy description. */
  predicate SkipUngrouped(r: Row, m: Mapping) {
    CustomerText(r, m) == "" && !Truthy(Get(r, m.desc))
  }

  /** The invoice the row at position `pos` yields in ungrouped mode. */
  function RowInvoice(r: Row, pos: nat, m: Mapping): (inv: Invoice)
    ensures inv.lines == [RowLine(r, m)]
    ensures inv.customer == (if CustomerText(r, m) != "" then CustomerText(r, m) else "N/A")
    ensures inv.email == EmailText(r, m)
    ensures inv.customer != "" && inv.invoiceNo != ""
    ensures Truthy(Get(r, m.invoiceNo)) ==> inv.invoiceNo == Stringify(Get(r, m.invoiceNo))
    ensures inv.groupBy == "" && inv.index == None
    ensures !Truthy(Get(r, m.invoiceNo)) ==> inv.invoiceNo == "INV-" + NatToString(pos + 1)
  {
    var customer := CustomerText(r, m);
    var no := Get(r, m.invoiceNo);
    Invoice(
      if customer != "" then customer else "N/A",
      EmailText(r, m),
      "",
      if Truthy(no) then Stringify(no) else "INV-" + NatToString(pos + 1),
      [RowLine(r, m)],
      None)
  }

  /** The `map` callback: `null` for a dropped row, else its invoice. */
  function RowResult(r: Row, pos: nat, m: Mapping): Option<Invoice> {
    if SkipUngrouped(r, m) then None else Some(RowInvoice(r, pos, m))
  }

  /** `rows.map((r, index) => ...)`. */
  function RowResults(rows: seq<Row>, m: Mapping): (xs: seq<Option<Invoice>>)
    ensures |xs| == |rows| && forall p :: 0 <= p < |rows| ==> xs[p] == RowResult(rows[p], p, m)
  {
    seq(|rows|, p requires 0 <= p < |rows| => RowResult(rows[p], p, m))
  }

  /** The positions of the rows the ungrouped mode keeps. */
  function UngroupedKept(rows: seq<Row>, m: Mapping): seq<nat> {
    SomePositions(RowResults(rows, m))
  }

  /** The ungrouped branch: `rows.map(...).filter(Boolean)`. */
  function Ungrouped(rows: seq<Row>, m: Mapping): seq<Invoice> {
    Somes(RowResults(rows, m))
  }

  // ---------------------------------------------------------------------------
  // Grouped mode: one invoice per bucket key

  /** `String(r[groupColumn] ?? '').trim()`. */
  function GroupValue(r: Row, m: Mapping): string {
    Trim(Stringify(Get(r, m.groupBy)))
  }

  /** A row the grouped mode drops: empty group value and falsy description. */
  predicate SkipGrouped(r: Row, m: Mapping) {
    GroupValue(r, m) == "" && !Truthy(Get(r, m.desc))
  }

  /** The bucket a row falls into: its group value, or a per-customer synthetic
      key when the group value is empty. */
  function BucketKey(r: Row, m: Mapping): string {
    var k := GroupValue(r, m);
    if k != "" then k else EmptyGroupPrefix + CustomerText(r, m)
  }

  /** The invoice the first row of a bucket opens, before any line is added.
      Unlike the ungrouped mode, only an absent customer cell becomes `'N/A'`. */
  function SeedInvoice(r: Row, m: Mapping): (inv: Invoice)
    ensures inv.invoiceNo == "" && inv.lines == [] && inv.index == None
    ensures inv.groupBy == GroupValue(r, m) && inv.email == EmailText(r, m)
    ensures Get(r, m.customer) == Missing ==> inv.customer == "N/A"
    ensures Get(r, m.customer) != Missing ==> inv.customer == Trim(Stringify(Get(r, m.customer)))
    ensures Get(r, m.customer) == Text("") ==> inv.customer == ""
  {
    var c := Get(r, m.customer);
    // `String(c ?? 'N/A').trim()`; trimming 'N/A' leaves it unchanged
    Invoice(if c == Missing then "N/A" else Trim(Stringify(c)), EmailText(r, m),
            GroupValue(r, m), "", [], None)
  }

  /** What a kept row contributes to the grouping: its bucket key, the invoice
      it would open as the first row of that bucket, and its line. */
  datatype Entry = Entry(key: string, seed: Invoice, line: Line)

  /** The contribution of one row; `None` for a row the grouped mode skips. */
  function RowEntry(r: Row, m: Mapping): Option<Entry> {
    if SkipGrouped(r, m) then None else Some(Entry(BucketKey(r, m), SeedInvoice(r, m), RowLine(r, m)))
  }

  function Entries(rows: seq<Row>, m: Mapping): (es: seq<Option<Entry>>)
    ensures |es| == |rows| && forall p :: 0 <= p < |rows| ==> es[p] == RowEntry(rows[p], m)
  {
    seq(|rows|, p requires 0 <= p < |rows| => RowEntry(rows[p], m))
  }

  /** The insertion-ordered `Map<string, Invoice>` of buckets. */
  type Bucket = (string, Invoice)

  function Keys(b: seq<Bucket>): (ks: seq<string>)
    ensures |ks| == |b| && forall i :: 0 <= i < |b| ==> ks[i] == b[i].0
  {
    seq(|b|, i requires 0 <= i < |b| => b[i].0)
  }

  function Values(b: seq<Bucket>): (vs: seq<Invoice>)
    ensures |vs| == |b| && forall i :: 0 <= i < |b| ==> vs[i] == b[i].1
  {
    seq(|b|, i requires 0 <= i < |b| => b[i].1)
  }

  /** The position of key `k` among the buckets, or `|b|` when it has none. */
  function FindKey(b: seq<Bucket>, k: string): (i: nat)
    ensures i <= |b| && (i < |b| ==> b[i].0 == k)
    ensures forall j :: 0 <= j < i ==> b[j].0 != k
    ensures i == |b| <==> k !in Keys(b)
  {
    if b == [] then 0 else if b[0].0 == k then 0 else 1 + FindKey(b[1..], k)
  }

  /** A key missing from the buckets is found at the bucket appended for it. */
  lemma {:induction false} FindKeyAppended(b: seq<Bucket>, k: string, inv: Invoice)
    requires k !in Keys(b)
    ensures FindKey(b + [(k, inv)], k) == |b|
  {
    if b != [] {
      assert (b + [(k, inv)])[1..] == b[1..] + [(k, inv)];
      assert b[0].0 != k;
      assert k !in Keys(b[1..]);
      FindKeyAppended(b[1..], k, inv);
    }
  }

  /** One iteration of the grouping loop: a skipped row changes nothing, a row
      whose key has a bucket appends its line there, any other row opens a new
      bucket at the end. */
  function AddEntry(b: seq<Bucket>, e: Option<Entry>): seq<Bucket> {
    match e
    case None => b
    case Some(Entry(k, seed, line)) =>
      var i := FindKey(b, k);
      if i < |b| then b[i := (k, b[i].1.(lines := b[i].1.lines + [line]))]
      else b + [(k, seed.(lines := [line]))]
  }

  /** The buckets after the loop has seen the rows whose entries are `es`. */
  function Bucketize(es: seq<Option<Entry>>): seq<Bucket> {
    if es == [] then [] else AddEntry(Bucketize(es[..|es| - 1]), es[|es| - 1])
  }

  /** `Array.from(groups.values())` after the loop. */
  function Grouped(rows: seq<Row>, m: Mapping): seq<Invoice> {
    Values(Bucketize(Entries(rows, m)))
  }

  /** The body of the grouping loop for one row `r`: skip it (`continue`), or
      open its bucket if the key is new, then push its line into the bucket. */
  method PlaceRow(groups: seq<Bucket>, r: Row, m: Mapping) returns (groups': seq<Bucket>)
    ensures groups' == AddEntry(groups, RowEntry(r, m))
  {
    var key := GroupValue(r, m);
    if key == "" && !Truthy(Get(r, m.desc)) {
      return groups;
    }
    var groupKey := if key != "" then key else EmptyGroupPrefix + CustomerText(r, m);
    var seed, line := SeedInvoice(r, m), RowLine(r, m);
    assert RowEntry(r, m) == Some(Entry(groupKey, seed, line));
    groups' := groups;
    if FindKey(groups', groupKey) == |groups'| {
      FindKeyAppended(groups', groupKey, seed);
      groups' := groups' + [(groupKey, seed)];
    }
    var g := FindKey(groups', groupKey);
    var inv := groups'[g].1;
    groups' := groups'[g := (groupKey, inv.(lines := inv.lines + [line]))];
    if FindKey(groups, groupKey) == |groups| {
      assert [] + [line] == [line];
      assert groups' == groups + [(groupKey, seed.(lines := [line]))];
    }
  }

  /** The grouped branch of `groupInvoices`: the `for` loop over the rows that
      fills the insertion-ordered bucket map, then its values. */
  method GroupRows(rows: seq<Row>, m: Mapping) returns (invs: seq<Invoice>)
    ensures invs == Grouped(rows, m)
  {
    ghost var es := Entries(rows, m);
    var groups: seq<Bucket> := [];
    var i := 0;
    while i < |rows|
      invariant 0 <= i <= |rows|
      invariant groups == Bucketize(es[..i])
    {
      assert es[..i + 1][..i] == es[..i];
      groups := PlaceRow(groups, rows[i], m);
      i := i + 1;
    }
    assert es[..|rows|] == es;
    invs := Values(groups);
  }

  // ---------------------------------------------------------------------------
  // Both modes

  /** The final `map((inv, index) => ({ ...inv, _index: index }))`. */
  function WithIndices(invs: seq<Invoice>): (r: seq<Invoice>)
    ensures |r| == |invs|
    ensures forall i :: 0 <= i < |r| ==> r[i] == invs[i].(index := Some(i))
  {
    if invs == [] then []
    else WithIndices(invs[..|invs| - 1]) + [invs[|invs| - 1].(index := Some(|invs| - 1))]
  }

  /** What `groupInvoices(rows, mapping)` returns. */
  function GroupInvoicesSpec(rows: seq<Row>, m: Mapping): (r: seq<Invoice>)
    ensures forall i :: 0 <= i < |r| ==> r[i].index == Some(i)
    ensures m.isGroupingEnabled && (m.groupBy == "" || m.groupBy == NoGrouping) ==> r == []
  {
    if !m.isGroupingEnabled then WithIndices(Ungrouped(rows, m))
    else if m.groupBy == "" || m.groupBy == NoGrouping then []
    else WithIndices(Grouped(rows, m))
  }

  /** `groupInvoices`. */
  method GroupInvoices(rows: seq<Row>, m: Mapping) returns (invs: seq<Invoice>)
    ensures invs == GroupInvoicesSpec(rows, m)
  {
    var generated: seq<Invoice>;
    if !m.isGroupingEnabled {
      generated := Ungrouped(rows, m);
    } else {
      if m.groupBy == "" || m.groupBy == NoGrouping {
        return [];
      }
      generated := GroupRows(rows, m);
    }
    invs := WithIndices(generated);
  }
}
