/** What `groupInvoices` promises about its output, proved of the model in
    `Invoices`: which rows survive, in what order, what each invoice holds, and
    the final numbering. */
module GroupingFacts {
  import opened Basics
  import opened Cells
  import opened Seqs
  import opened Invoices

  // ---------------------------------------------------------------------------
  // Ungrouped mode

  /** The ungrouped mode keeps exactly the rows that do not have both an empty
      customer and a falsy description, in source order, and turns the row at
      original position `p` into its own invoice (numbered `INV-<p+1>` when it
      has no invoice number), numbered by its output position. */
  lemma {:induction false} UngroupedMode(rows: seq<Row>, m: Mapping)
    requires !m.isGroupingEnabled
    ensures var ps, r := UngroupedKept(rows, m), GroupInvoicesSpec(rows, m);
      && |r| == |ps|
      && (forall j :: 0 <= j < |ps| ==>
            ps[j] < |rows| && !SkipUngrouped(rows[ps[j]], m)
            && r[j] == RowInvoice(rows[ps[j]], ps[j], m).(index := Some(j)))
      && (forall j, k :: 0 <= j < k < |ps| ==> ps[j] < ps[k])
      && (forall p :: 0 <= p < |rows| && !SkipUngrouped(rows[p], m) ==> p in ps)
  {
    var xs := RowResults(rows, m);
    SomesAtPositions(xs);
    var ps := SomePositions(xs);
    forall j | 0 <= j < |ps|
      ensures ps[j] < |rows| && !SkipUngrouped(rows[ps[j]], m)
    {
      assert xs[ps[j]] == RowResult(rows[ps[j]], ps[j], m);
    }
    forall p | 0 <= p < |rows| && !SkipUngrouped(rows[p], m)
      ensures p in ps
    {
      assert xs[p] == RowResult(rows[p], p, m);
    }
  }

  // ---------------------------------------------------------------------------
  // Grouped mode, stated over the entries the rows contribute

  /** The bucket keys of the kept rows, in row order (with repetitions). */
  function KeysOf(es: seq<Option<Entry>>): seq<string> {
    if es == [] then []
    else
      var last := es[|es| - 1];
      KeysOf(es[..|es| - 1]) + (if last.Some? then [last.value.key] else [])
  }

  /** The lines of the kept rows whose key is `k`, in row order. */
  function LinesWithKey(es: seq<Option<Entry>>, k: string): seq<Line> {
    if es == [] then []
    else
      var last := es[|es| - 1];
      LinesWithKey(es[..|es| - 1], k) + (if last.Some? && last.value.key == k then [last.value.line] else [])
  }

  /** The first kept entry with key `k`. */
  function FirstWithKey(es: seq<Option<Entry>>, k: string): (e: Entry)
    requires k in KeysOf(es)
    ensures e.key == k
  {
    var init, last := es[..|es| - 1], es[|es| - 1];
    if k in KeysOf(init) then FirstWithKey(init, k) else last.value
  }

  /** `b` is the bucket map for the entries `es`: one bucket per distinct key in
      order of first appearance, holding the invoice the first row of that key
      opened, with every line of that key in row order. */
  ghost predicate Describes(b: seq<Bucket>, es: seq<Option<Entry>>) {
    && Keys(b) == Dedup(KeysOf(es))
    && forall i :: 0 <= i < |b| ==>
         b[i].0 in KeysOf(es)
         && b[i].1 == FirstWithKey(es, b[i].0).seed.(lines := LinesWithKey(es, b[i].0))
  }

  lemma {:induction false} NoKeyNoLines(es: seq<Option<Entry>>, k: string)
    requires k !in KeysOf(es)
    ensures LinesWithKey(es, k) == []
  {
    if es != [] {
      NoKeyNoLines(es[..|es| - 1], k);
    }
  }

  /** A skipped row leaves the description as it was. */
  lemma SkippedStep(b: seq<Bucket>, init: seq<Option<Entry>>)
    requires Describes(b, init)
    ensures Describes(AddEntry(b, None), init + [None])
  {
    var es := init + [None];
    assert es[..|es| - 1] == init;
    assert KeysOf(es) == KeysOf(init);
    forall i | 0 <= i < |b|
      ensures FirstWithKey(es, b[i].0) == FirstWithKey(init, b[i].0)
    {
    }
  }

  /** Appending one kept entry, seen from the per-key functions: one more key,
      the same first entry for keys already seen, and one more line for the
      entry's own key only. */
  lemma AppendEntry(init: seq<Option<Entry>>, e: Entry)
    ensures KeysOf(init + [Some(e)]) == KeysOf(init) + [e.key]
    ensures forall k :: k in KeysOf(init) ==> FirstWithKey(init + [Some(e)], k) == FirstWithKey(init, k)
    ensures forall k ::
      LinesWithKey(init + [Some(e)], k) == LinesWithKey(init, k) + (if e.key == k then [e.line] else [])
  {
    var es := init + [Some(e)];
    assert es[..|es| - 1] == init;
  }

  /** A row whose key already has a bucket adds its line to that bucket only. */
  lemma KnownKeyStep(b: seq<Bucket>, init: seq<Option<Entry>>, e: Entry)
    requires Describes(b, init)
    requires e.key in Keys(b)
    ensures Describes(AddEntry(b, Some(e)), init + [Some(e)])
  {
    var es := init + [Some(e)];
    var k := e.key;
    AppendEntry(init, e);
    assert k in KeysOf(init);
    assert Dedup(KeysOf(es)) == Dedup(KeysOf(init));
    var i := FindKey(b, k);
    var b' := AddEntry(b, Some(e));
    assert Keys(b') == Keys(b);
    forall j | 0 <= j < |b'|
      ensures b'[j].0 in KeysOf(es)
      ensures b'[j].1 == FirstWithKey(es, b'[j].0).seed.(lines := LinesWithKey(es, b'[j].0))
    {
      if j != i {
        assert Keys(b)[j] != Keys(b)[i];
      }
    }
  }

  /** A row with a new key opens a bucket at the end. */
  lemma NewKeyStep(b: seq<Bucket>, init: seq<Option<Entry>>, e: Entry)
    requires Describes(b, init)
    requires e.key !in Keys(b)
    ensures Describes(AddEntry(b, Some(e)), init + [Some(e)])
  {
    var es := init + [Some(e)];
    var k := e.key;
    AppendEntry(init, e);
    assert k !in KeysOf(init);
    assert Dedup(KeysOf(es)) == Dedup(KeysOf(init)) + [k] by {
      assert KeysOf(es)[..|KeysOf(es)| - 1] == KeysOf(init);
    }
    var b' := AddEntry(b, Some(e));
    assert b' == b + [(k, e.seed.(lines := [e.line]))];
    assert Keys(b') == Keys(b) + [k];
    NoKeyNoLines(init, k);
    forall j | 0 <= j < |b'|
      ensures b'[j].0 in KeysOf(es)
      ensures b'[j].1 == FirstWithKey(es, b'[j].0).seed.(lines := LinesWithKey(es, b'[j].0))
    {
      if j < |b| {
        assert Keys(b)[j] != k;
      }
    }
  }

  /** The grouping loop builds exactly the bucket map its entries describe. */
  lemma {:induction false} BucketizeDescribes(es: seq<Option<Entry>>)
    ensures Describes(Bucketize(es), es)
  {
    if es != [] {
      var init, last := es[..|es| - 1], es[|es| - 1];
      assert es == init + [last];
      BucketizeDescribes(init);
      var b := Bucketize(init);
      match last
      case None => SkippedStep(b, init);
      case Some(e) =>
        if e.key in Keys(b) { KnownKeyStep(b, init, e); } else { NewKeyStep(b, init, e); }
    }
  }

  /** The number of lines over all buckets. */
  function LineCount(b: seq<Bucket>): nat {
    if b == [] then 0 else LineCount(b[..|b| - 1]) + |b[|b| - 1].1.lines|
  }

  lemma {:induction false} LineCountPush(b: seq<Bucket>, i: nat, k: string, inv: Invoice, l: Line)
    requires i < |b| && inv == b[i].1
    ensures LineCount(b[i := (k, inv.(lines := inv.lines + [l]))]) == LineCount(b) + 1
  {
    var b' := b[i := (k, inv.(lines := inv.lines + [l]))];
    if i < |b| - 1 {
      assert b'[..|b'| - 1] == b[..|b| - 1][i := (k, inv.(lines := inv.lines + [l]))];
      LineCountPush(b[..|b| - 1], i, k, inv, l);
    } else {
      assert b'[..|b'| - 1] == b[..|b| - 1];
    }
  }

  /** Every kept row adds exactly one line: the buckets hold as many lines as
      there are kept rows. */
  lemma {:induction false} BucketizeLineCount(es: seq<Option<Entry>>)
    ensures LineCount(Bucketize(es)) == |Somes(es)|
  {
    if es != [] {
      var init, last := es[..|es| - 1], es[|es| - 1];
      BucketizeLineCount(init);
      var b := Bucketize(init);
      if last.Some? {
        var i := FindKey(b, last.value.key);
        if i < |b| {
          LineCountPush(b, i, last.value.key, b[i].1, last.value.line);
        } else {
          var b' := b + [(last.value.key, last.value.seed.(lines := [last.value.line]))];
          assert b'[..|b'| - 1] == b;
        }
      }
    }
  }

  /** The grouped branch returns one invoice per distinct bucket key, in order
      of first appearance; each carries the customer, email and group value of
      the first row with its key, an empty invoice number, and the lines of all
      rows with its key in row order; it is numbered by its position; and the
      invoices hold one line per kept row. */
  lemma GroupedMode(rows: seq<Row>, m: Mapping)
    requires ValidateMapping(m) && m.isGroupingEnabled
    ensures var r, es := GroupInvoicesSpec(rows, m), Entries(rows, m);
      var ks := Dedup(KeysOf(es));
      && |r| == |ks|
      && (forall i :: 0 <= i < |r| ==>
            r[i] == FirstWithKey(es, ks[i]).seed.(lines := LinesWithKey(es, ks[i]), index := Some(i)))
      && (forall i, j :: 0 <= i < j < |ks| ==>
            FirstIndex(KeysOf(es), ks[i]) < FirstIndex(KeysOf(es), ks[j]))
      && LineCount(Bucketize(es)) == |Somes(es)|
  {
    var es := Entries(rows, m);
    BucketizeDescribes(es);
    BucketizeLineCount(es);
    DedupFirstSeen(KeysOf(es));
  }

  /** The bucket keys, read off the rows: the j-th kept row's key is the key
      of the j-th row the grouped mode does not skip. */
  lemma {:induction false} KeysOfRows(rows: seq<Row>, m: Mapping)
    ensures var es := Entries(rows, m);
      var ps := SomePositions(es);
      && |KeysOf(es)| == |ps|
      && forall j :: 0 <= j < |ps| ==>
           ps[j] < |rows| && !SkipGrouped(rows[ps[j]], m) && KeysOf(es)[j] == BucketKey(rows[ps[j]], m)
  {
    var es := Entries(rows, m);
    KeysOfSomes(es);
    SomesAtPositions(es);
    var ps := SomePositions(es);
    forall j | 0 <= j < |ps|
      ensures ps[j] < |rows| && !SkipGrouped(rows[ps[j]], m) && KeysOf(es)[j] == BucketKey(rows[ps[j]], m)
    {
      assert es[ps[j]] == RowEntry(rows[ps[j]], m);
    }
  }

  lemma {:induction false} KeysOfSomes(es: seq<Option<Entry>>)
    ensures |KeysOf(es)| == |Somes(es)|
    ensures forall j :: 0 <= j < |KeysOf(es)| ==> KeysOf(es)[j] == Somes(es)[j].key
  {
    if es != [] {
      KeysOfSomes(es[..|es| - 1]);
    }
  }

  /** Every line the entries carry has `total == qty * unit`. */
  ghost predicate TotalsHold(ls: seq<Line>) {
    forall j :: 0 <= j < |ls| ==> ls[j].total == ls[j].qty * ls[j].unit
  }

  lemma {:induction false} LinesWithKeyTotals(es: seq<Option<Entry>>, k: string)
    requires forall p :: 0 <= p < |es| && es[p].Some? ==> TotalsHold([es[p].value.line])
    ensures TotalsHold(LinesWithKey(es, k))
  {
    if es != [] {
      LinesWithKeyTotals(es[..|es| - 1], k);
      assert es[|es| - 1].Some? ==> TotalsHold([es[|es| - 1].value.line]);
    }
  }

  /** In both modes every line of every invoice has `total == qty * unit`. */
  lemma LineTotals(rows: seq<Row>, m: Mapping)
    ensures var r := GroupInvoicesSpec(rows, m);
      forall i :: 0 <= i < |r| ==> TotalsHold(r[i].lines)
  {
    var r := GroupInvoicesSpec(rows, m);
    if !m.isGroupingEnabled {
      UngroupedMode(rows, m);
      forall i | 0 <= i < |r| ensures TotalsHold(r[i].lines) {
        var ps := UngroupedKept(rows, m);
        assert r[i].lines == [RowLine(rows[ps[i]], m)];
      }
    } else if m.groupBy != "" && m.groupBy != NoGrouping {
      var es := Entries(rows, m);
      BucketizeDescribes(es);
      var b := Bucketize(es);
      forall p | 0 <= p < |es| && es[p].Some?
        ensures TotalsHold([es[p].value.line])
      {
        assert es[p] == RowEntry(rows[p], m);
      }
      forall i | 0 <= i < |r| ensures TotalsHold(r[i].lines) {
        LinesWithKeyTotals(es, b[i].0);
      }
    }
  }
}
