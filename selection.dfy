/** The invoice selection: a set of `_index` values that the toggle,
    select-all and deselect-all operations change, and the subset of invoices
    the export takes. */
module Selection {
  import opened Basics
  import opened Invoices

  /** Every invoice carries its own position as `_index`, as `groupInvoices`
      leaves them. */
  predicate Numbered(invs: seq<Invoice>) {
    forall i :: 0 <= i < |invs| ==> invs[i].index == Some(i)
  }

  /** The numbers `0 .. n-1`. */
  function Range(n: nat): (r: set<int>)
    ensures forall i :: i in r <==> 0 <= i < n
  {
    if n == 0 then {} else Range(n - 1) + {n - 1}
  }

  lemma {:induction false} RangeSize(n: nat)
    ensures |Range(n)| == n
  {
    if n > 0 {
      RangeSize(n - 1);
      var r0 := Range(n - 1);
      assert n - 1 !in r0;
      assert |r0 + {n - 1}| == |r0| + 1;
    }
  }

  /** `toggleInvoiceSelection`: `index` changes membership, nothing else does. */
  function Toggled(sel: set<int>, index: int): (r: set<int>)
    ensures index in r <==> index !in sel
    ensures forall j :: j != index ==> (j in r <==> j in sel)
  {
    if index in sel then sel - {index} else sel + {index}
  }

  /** Toggling the same invoice twice restores the selection. */
  lemma ToggleTwice(sel: set<int>, index: int)
    ensures Toggled(Toggled(sel, index), index) == sel
  {
  }

  /** `new Set(invoices.map(inv => inv._index))`. */
  function IndexSet(invs: seq<Invoice>): (r: set<int>)
    ensures forall i :: i in r <==> exists k :: 0 <= k < |invs| && invs[k].index == Some(i)
  {
    set k | 0 <= k < |invs| && invs[k].index.Some? :: invs[k].index.value as int
  }

  /** For numbered invoices, select-all selects exactly the positions, one per
      invoice. */
  lemma SelectAllIsRange(invs: seq<Invoice>)
    requires Numbered(invs)
    ensures IndexSet(invs) == Range(|invs|)
    ensures |IndexSet(invs)| == |invs|
  {
    forall i | 0 <= i < |invs| ensures i in IndexSet(invs) {
      assert invs[i].index == Some(i);
    }
    RangeSize(|invs|);
  }

  /** `areAllInvoicesSelected`. */
  predicate AllSelected(invs: seq<Invoice>, sel: set<int>) {
    |invs| > 0 && |sel| == |invs|
  }

  /** When the selection holds only invoice positions (as the UI keeps it), the
      size test is the same as "there is an invoice and every one is selected". */
  lemma AllSelectedMeansEvery(invs: seq<Invoice>, sel: set<int>)
    requires Numbered(invs) && sel <= Range(|invs|)
    ensures AllSelected(invs, sel) <==> |invs| > 0 && sel == Range(|invs|)
  {
    RangeSize(|invs|);
    var rest := Range(|invs|) - sel;
    assert |rest| == |Range(|invs|)| - |sel|;
    if |sel| == |invs| {
      assert rest == {};
    }
  }

  /** `invoices.filter(inv => selected.has(inv._index))`: the selected
      invoices, in list order. */
  function ToExport(invs: seq<Invoice>, sel: set<int>): (r: seq<Invoice>)
    ensures |r| <= |invs|
    ensures forall k :: 0 <= k < |r| ==> r[k] in invs && r[k].index.Some? && r[k].index.value in sel
    ensures forall inv :: inv in invs && inv.index.Some? && inv.index.value in sel ==> inv in r
  {
    if invs == [] then []
    else
      var last := invs[|invs| - 1];
      var init := ToExport(invs[..|invs| - 1], sel);
      assert forall inv :: inv in invs ==> inv in invs[..|invs| - 1] || inv == last;
      if last.index.Some? && last.index.value in sel then init + [last] else init
  }

  /** The export keeps list order: for numbered invoices the exported indices
      increase. */
  lemma {:induction false} ToExportInOrder(invs: seq<Invoice>, sel: set<int>)
    requires Numbered(invs)
    ensures forall j, k :: 0 <= j < k < |ToExport(invs, sel)| ==>
      ToExport(invs, sel)[j].index.value < ToExport(invs, sel)[k].index.value
  {
    if invs != [] {
      var init := invs[..|invs| - 1];
      ToExportInOrder(init, sel);
      var r0 := ToExport(init, sel);
      forall k | 0 <= k < |r0| ensures r0[k].index.value < |invs| - 1 {
        var p :| 0 <= p < |init| && init[p] == r0[k];
        assert init[p].index == Some(p);
      }
      var last := invs[|invs| - 1];
      assert last.index == Some(|invs| - 1);
      var r := ToExport(invs, sel);
      if r != r0 {
        assert r == r0 + [last];
        forall j, k | 0 <= j < k < |r| ensures r[j].index.value < r[k].index.value {
          if k == |r0| {
            assert r[j] == r0[j] && r[k] == last;
          } else {
            assert r[j] == r0[j] && r[k] == r0[k];
          }
        }
      }
    }
  }

  /** With every invoice selected (as after select-all) the export takes the
      whole list. */
  lemma {:induction false} ToExportAll(invs: seq<Invoice>, sel: set<int>)
    requires Numbered(invs)
    requires forall i :: 0 <= i < |invs| ==> i in sel
    ensures ToExport(invs, sel) == invs
  {
    if invs != [] {
      var init, last := invs[..|invs| - 1], invs[|invs| - 1];
      ToExportAll(init, sel);
      assert last.index == Some(|invs| - 1);
      assert init + [last] == invs;
    }
  }

  /** With nothing selected (as after deselect-all) nothing is exported. */
  lemma {:induction false} ToExportNone(invs: seq<Invoice>)
    ensures ToExport(invs, {}) == []
  {
    if invs != [] {
      ToExportNone(invs[..|invs| - 1]);
    }
  }
}
