/** The state `useInvoiceGenerator` keeps between user actions: the uploaded
    rows and their header row, the current mapping, the generated invoices and
    the set of selected invoice indices. */
module Workspace {
  import opened Basics
  import opened Invoices
  import opened Mappings
  import opened Selection
  import opened FileNames

  /** The message `exportZip` shows instead of exporting. */
  const ExportRefusal: string := "Please check mappings and select at least one invoice to export."

  datatype Result<T> = Ok(value: T) | Err(message: string)

  /** The archive `zip.file(name, pdf)` builds from the planned files, in
      order: a file replaces an earlier entry of the same name. */
  function Archive(files: seq<(string, Invoice)>): (z: map<string, Invoice>)
    ensures z.Keys == set i | 0 <= i < |files| :: files[i].0
  {
    if files == [] then map[]
    else
      var z := Archive(files[..|files| - 1]);
      assert forall i :: 0 <= i < |files| - 1 ==> files[..|files| - 1][i] == files[i];
      z[files[|files| - 1].0 := files[|files| - 1].1]
  }

  /** Each name in the archive holds the last planned file of that name; an
      earlier file with the same name is lost. */
  lemma {:induction false} ArchiveKeepsLast(files: seq<(string, Invoice)>, i: nat)
    requires i < |files|
    requires forall j :: i < j < |files| ==> files[j].0 != files[i].0
    ensures files[i].0 in Archive(files) && Archive(files)[files[i].0] == files[i].1
  {
    if i < |files| - 1 {
      var init := files[..|files| - 1];
      assert init[i] == files[i];
      assert forall j :: i < j < |init| ==> init[j] == files[j];
      ArchiveKeepsLast(init, i);
    }
  }

  /** When the planned names are distinct, every planned PDF is in the
      archive under its own name. */
  lemma ArchiveComplete(files: seq<(string, Invoice)>)
    requires forall i, j :: 0 <= i < j < |files| ==> files[i].0 != files[j].0
    ensures forall i :: 0 <= i < |files| ==> files[i].0 in Archive(files) && Archive(files)[files[i].0] == files[i].1
  {
    forall i | 0 <= i < |files|
      ensures files[i].0 in Archive(files) && Archive(files)[files[i].0] == files[i].1
    {
      ArchiveKeepsLast(files, i);
    }
  }

  class InvoiceGenerator {
    /** The first row's keys, in order. */
    var headers: seq<string>
    var rows: seq<Row>
    var mapping: Mapping
    var invoices: seq<Invoice>
    var selected: set<int>

    /** The invoices are always the numbered output of `groupInvoices`. The
        mapping is whatever the user chose, so it may name any column or the
        "-- No Grouping --" choice. */
    ghost predicate Valid()
      reads this
    {
      Numbered(invoices)
    }

    /** A workspace over freshly loaded rows: the empty mapping (its
        `isGroupingEnabled` key is absent, so grouping reads as off), no
        invoices and no selection. */
    constructor (headers: seq<string>, rows: seq<Row>)
      ensures Valid()
      ensures this.headers == headers && this.rows == rows
      ensures mapping == Mapping(false, "", "", "", "", "", "", "")
      ensures invoices == [] && selected == {}
    {
      this.headers := headers;
      this.rows := rows;
      mapping := Mapping(false, "", "", "", "", "", "", "");
      invoices := [];
      selected := {};
    }

    /** `autoGuessMappings`. */
    method AutoGuessMappings()
      requires Valid()
      modifies this`mapping
      ensures Valid()
      ensures mapping == GuessMapping(headers) && MappingOver(mapping, headers)
    {
      mapping := GuessMapping(headers);
    }

    /** `applySavedMapping`, with the parsed stored mapping as its input. */
    method ApplySavedMapping(saved: Option<SavedMapping>)
      requires Valid()
      modifies this`mapping
      ensures Valid()
      ensures mapping == ApplySaved(old(mapping), saved, headers)
      ensures MappingOver(old(mapping), headers) ==> MappingOver(mapping, headers)
    {
      if saved.None? {
        return;
      }
      var s := saved.value;
      mapping := mapping.(customer := SetIfExists(mapping.customer, s.customer, headers));
      mapping := mapping.(email := SetIfExists(mapping.email, s.email, headers));
      mapping := mapping.(invoiceNo := SetIfExists(mapping.invoiceNo, s.invoiceNo, headers));
      mapping := mapping.(desc := SetIfExists(mapping.desc, s.desc, headers));
      mapping := mapping.(qty := SetIfExists(mapping.qty, s.qty, headers));
      mapping := mapping.(unit := SetIfExists(mapping.unit, s.unit, headers));
      mapping := mapping.(groupBy := SetIfExists(mapping.groupBy, s.groupBy, headers));
      if s.isGroupingEnabled.Some? {
        mapping := mapping.(isGroupingEnabled := s.isGroupingEnabled.value);
      }
    }

    /** The mapping form writing the user's choice into `state.mapping`, which
        the composable hands out with the rest of `state`. */
    method SetMapping(m: Mapping)
      requires Valid()
      modifies this`mapping
      ensures Valid()
      ensures mapping == m
    {
      mapping := m;
    }

    /** `generateAndPreview`: with an invalid mapping, no invoices and no
        selection; otherwise the grouped invoices, all of them selected. */
    method GenerateAndPreview()
      requires Valid()
      modifies this`invoices, this`selected
      ensures Valid()
      ensures invoices == (if ValidateMapping(mapping) then GroupInvoicesSpec(rows, mapping) else [])
      ensures selected == Range(|invoices|)
    {
      if !ValidateMapping(mapping) {
        invoices := [];
        selected := {};
        return;
      }
      invoices := GroupInvoices(rows, mapping);
      SelectAllInvoices();
    }

    /** `toggleInvoiceSelection`. */
    method ToggleInvoiceSelection(index: int)
      requires Valid()
      modifies this`selected
      ensures Valid()
      ensures selected == Toggled(old(selected), index)
    {
      if index in selected {
        selected := selected - {index};
      } else {
        selected := selected + {index};
      }
    }

    /** `selectAllInvoices`: exactly the invoices' positions. */
    method SelectAllInvoices()
      requires Valid()
      modifies this`selected
      ensures Valid()
      ensures selected == IndexSet(invoices) == Range(|invoices|)
    {
      SelectAllIsRange(invoices);
      selected := IndexSet(invoices);
    }

    /** `deselectAllInvoices`. */
    method DeselectAllInvoices()
      requires Valid()
      modifies this`selected
      ensures Valid()
      ensures selected == {}
    {
      selected := {};
    }

    /** `areAllInvoicesSelected`. */
    function AreAllInvoicesSelected(): (all: bool)
      reads this
      ensures all <==> |invoices| > 0 && |selected| == |invoices|
    {
      AllSelected(invoices, selected)
    }

    /** What `exportZip` does before zipping: refuse when the mapping is
        invalid or nothing is selected, otherwise name one PDF per selected
        invoice, in list order. */
    method PlanExport() returns (r: Result<seq<(string, Invoice)>>)
      requires Valid()
      ensures r.Err? <==> !ValidateMapping(mapping) || ToExport(invoices, selected) == []
      ensures r.Err? ==> r.message == ExportRefusal
      ensures r.Ok? ==>
        var chosen := ToExport(invoices, selected);
        |r.value| == |chosen|
        && forall i :: 0 <= i < |chosen| ==>
             r.value[i] == (ExportFileName(chosen[i].invoiceNo, chosen[i].index.value), chosen[i])
    {
      var chosen := ToExport(invoices, selected);
      if !ValidateMapping(mapping) || |chosen| == 0 {
        return Err(ExportRefusal);
      }
      var files: seq<(string, Invoice)> := [];
      var i := 0;
      while i < |chosen|
        invariant 0 <= i <= |chosen|
        invariant |files| == i
        invariant forall k :: 0 <= k < i ==>
          files[k] == (ExportFileName(chosen[k].invoiceNo, chosen[k].index.value), chosen[k])
      {
        var inv := chosen[i];
        files := files + [(ExportFileName(inv.invoiceNo, inv.index.value), inv)];
        i := i + 1;
      }
      r := Ok(files);
    }
  }
}
