/** Choosing the column mapping: `autoGuessMappings` (header matching by
    substring) and `applySavedMapping` (restoring a stored mapping where it
    still fits the current headers). */
module Mappings {
  import opened Basics
  import opened Invoices

  /** The position of the first header whose lower-cased text contains
      `needle`, or `|headers|` when there is none (`Array.prototype.find`). */
  function GuessIndex(headers: seq<string>, needle: string): (i: nat)
    ensures i <= |headers|
    ensures i < |headers| ==> Contains(Lower(headers[i]), needle)
    ensures forall j :: 0 <= j < i ==> !Contains(Lower(headers[j]), needle)
  {
    if headers == [] then 0
    else if Contains(Lower(headers[0]), needle) then 0
    else 1 + GuessIndex(headers[1..], needle)
  }

  /** `guess(needle)`: the first matching header, or `''`. */
  function Guess(headers: seq<string>, needle: string): (h: string)
    ensures h == "" || h in headers
  {
    var i := GuessIndex(headers, needle);
    if i < |headers| then headers[i] else ""
  }

  /** `guess(n1) || guess(n2) || ... || ''`: the first needle, in order, that
      some header matches decides; `''` when no needle matches. */
  function GuessFirst(headers: seq<string>, needles: seq<string>): (h: string)
    ensures h == "" || h in headers
    ensures h != "" ==> exists k :: 0 <= k < |needles| && h == Guess(headers, needles[k])
                                    && forall j :: 0 <= j < k ==> Guess(headers, needles[j]) == ""
    ensures h == "" ==> forall k :: 0 <= k < |needles| ==> Guess(headers, needles[k]) == ""
  {
    if needles == [] then ""
    else
      var g := Guess(headers, needles[0]);
      if g != "" then g
      else
        var h := GuessFirst(headers, needles[1..]);
        assert forall k :: 1 <= k < |needles| ==> needles[1..][k - 1] == needles[k];
        h
  }

  const CustomerNeedles: seq<string> := ["name", "customer", "client"]
  const EmailNeedles: seq<string> := ["email"]
  const InvoiceNoNeedles: seq<string> := ["invoice", "inv"]
  const DescNeedles: seq<string> := ["desc", "item", "service"]
  const QtyNeedles: seq<string> := ["qty", "quantity"]
  const UnitNeedles: seq<string> := ["price", "unit", "rate"]
  const GroupNeedles: seq<string> := ["group", "project", "client"]

  /** The mapping `autoGuessMappings` assigns, field by field, for the given
      header row. Grouping is switched on exactly when a group column was
      found among the headers. */
  function GuessMapping(headers: seq<string>): (m: Mapping)
    ensures MappingOver(m, headers)
    ensures m.isGroupingEnabled <==> m.groupBy != ""
  {
    var g := GuessFirst(headers, GroupNeedles);
    Mapping(
      isGroupingEnabled := g != "" && g in headers,
      customer := GuessFirst(headers, CustomerNeedles),
      email := GuessFirst(headers, EmailNeedles),
      invoiceNo := GuessFirst(headers, InvoiceNoNeedles),
      desc := GuessFirst(headers, DescNeedles),
      qty := GuessFirst(headers, QtyNeedles),
      unit := GuessFirst(headers, UnitNeedles),
      groupBy := g)
  }

  /** Some header, lower-cased, contains one of `needles`. */
  predicate AnyMatch(headers: seq<string>, needles: seq<string>) {
    exists k, j :: 0 <= k < |needles| && 0 <= j < |headers| && Contains(Lower(headers[j]), needles[k])
  }

  /** A non-empty needle is guessed exactly when some header matches it: the
      empty header never contains it, so the `|| ''` cannot hide a match. */
  lemma GuessNonEmpty(headers: seq<string>, needle: string)
    requires needle != ""
    ensures Guess(headers, needle) != "" <==>
      exists j :: 0 <= j < |headers| && Contains(Lower(headers[j]), needle)
  {
    if j :| 0 <= j < |headers| && Contains(Lower(headers[j]), needle) {
      GuessFindsFirst(headers, needle, j);
    }
  }

  /** A chain of guesses over non-empty needles finds a header exactly when
      some header matches some needle. */
  lemma GuessFirstFinds(headers: seq<string>, needles: seq<string>)
    requires forall k :: 0 <= k < |needles| ==> needles[k] != ""
    ensures GuessFirst(headers, needles) != "" <==> AnyMatch(headers, needles)
  {
    forall k | 0 <= k < |needles| {
      GuessNonEmpty(headers, needles[k]);
    }
  }

  /** `autoGuessMappings` assigns a role a column exactly when some header,
      lower-cased, contains one of that role's keywords; grouping is switched
      on exactly when a group keyword matches. */
  lemma GuessMappingFinds(headers: seq<string>)
    ensures GuessMapping(headers).customer != "" <==> AnyMatch(headers, CustomerNeedles)
    ensures GuessMapping(headers).email != "" <==> AnyMatch(headers, EmailNeedles)
    ensures GuessMapping(headers).invoiceNo != "" <==> AnyMatch(headers, InvoiceNoNeedles)
    ensures GuessMapping(headers).desc != "" <==> AnyMatch(headers, DescNeedles)
    ensures GuessMapping(headers).qty != "" <==> AnyMatch(headers, QtyNeedles)
    ensures GuessMapping(headers).unit != "" <==> AnyMatch(headers, UnitNeedles)
    ensures GuessMapping(headers).isGroupingEnabled <==> AnyMatch(headers, GroupNeedles)
  {
    GuessFirstFinds(headers, CustomerNeedles);
    GuessFirstFinds(headers, EmailNeedles);
    GuessFirstFinds(headers, InvoiceNoNeedles);
    GuessFirstFinds(headers, DescNeedles);
    GuessFirstFinds(headers, QtyNeedles);
    GuessFirstFinds(headers, UnitNeedles);
    GuessFirstFinds(headers, GroupNeedles);
  }

  /** Every column the mapping names is one of `headers` (or is unassigned). */
  predicate MappingOver(m: Mapping, headers: seq<string>) {
    && (m.customer == "" || m.customer in headers)
    && (m.email == "" || m.email in headers)
    && (m.invoiceNo == "" || m.invoiceNo in headers)
    && (m.desc == "" || m.desc in headers)
    && (m.qty == "" || m.qty in headers)
    && (m.unit == "" || m.unit in headers)
    && (m.groupBy == "" || m.groupBy in headers)
  }

  /** The header that matches a needle is found whenever one exists, and the
      first one is taken. */
  lemma {:induction false} GuessFindsFirst(headers: seq<string>, needle: string, j: nat)
    requires j < |headers| && Contains(Lower(headers[j]), needle)
    ensures GuessIndex(headers, needle) <= j
    ensures Guess(headers, needle) == headers[GuessIndex(headers, needle)]
  {
    if j > 0 && !Contains(Lower(headers[0]), needle) {
      GuessFindsFirst(headers[1..], needle, j - 1);
    }
  }

  /** The stored mapping as `JSON.parse` gives it back: each key may be absent. */
  datatype SavedMapping = SavedMapping(
    isGroupingEnabled: Option<bool>,
    customer: Option<string>,
    email: Option<string>,
    invoiceNo: Option<string>,
    desc: Option<string>,
    qty: Option<string>,
    unit: Option<string>,
    groupBy: Option<string>)

  /** `setIfExists` for one string field: take the saved column when it is
      present and is a current header or empty. */
  function SetIfExists(current: string, saved: Option<string>, headers: seq<string>): (r: string)
    ensures saved.Some? && (saved.value in headers || saved.value == "") ==> r == saved.value
    ensures saved.None? || (saved.value !in headers && saved.value != "") ==> r == current
  {
    if saved.Some? && (saved.value in headers || saved.value == "") then saved.value else current
  }

  /** The mapping after `applySavedMapping`; `None` is a stored `null`, which
      leaves the mapping alone. */
  function ApplySaved(m: Mapping, saved: Option<SavedMapping>, headers: seq<string>): (r: Mapping)
    ensures MappingOver(m, headers) ==> MappingOver(r, headers)
    ensures saved.Some? && saved.value.isGroupingEnabled.Some? ==>
      r.isGroupingEnabled == saved.value.isGroupingEnabled.value
  {
    match saved
    case None => m
    case Some(s) =>
      Mapping(
        isGroupingEnabled := if s.isGroupingEnabled.Some? then s.isGroupingEnabled.value else m.isGroupingEnabled,
        customer := SetIfExists(m.customer, s.customer, headers),
        email := SetIfExists(m.email, s.email, headers),
        invoiceNo := SetIfExists(m.invoiceNo, s.invoiceNo, headers),
        desc := SetIfExists(m.desc, s.desc, headers),
        qty := SetIfExists(m.qty, s.qty, headers),
        unit := SetIfExists(m.unit, s.unit, headers),
        groupBy := SetIfExists(m.groupBy, s.groupBy, headers))
  }

  /** A saved role that is a current header or "". */
  predicate Fits(saved: Option<string>, headers: seq<string>) {
    saved.Some? && (saved.value in headers || saved.value == "")
  }

  /** A stored mapping all of whose roles and flag are present, and whose
      roles are current headers or "", is restored whole. */
  lemma ApplySavedWhole(m: Mapping, s: SavedMapping, headers: seq<string>)
    requires s.isGroupingEnabled.Some?
    requires Fits(s.customer, headers) && Fits(s.email, headers) && Fits(s.invoiceNo, headers)
    requires Fits(s.desc, headers) && Fits(s.qty, headers) && Fits(s.unit, headers) && Fits(s.groupBy, headers)
    ensures ApplySaved(m, Some(s), headers) ==
      Mapping(s.isGroupingEnabled.value, s.customer.value, s.email.value, s.invoiceNo.value,
              s.desc.value, s.qty.value, s.unit.value, s.groupBy.value)
  {
  }

  /** Restoring the same stored mapping twice is the same as restoring it once. */
  lemma ApplySavedIdempotent(m: Mapping, saved: Option<SavedMapping>, headers: seq<string>)
    ensures ApplySaved(ApplySaved(m, saved, headers), saved, headers) == ApplySaved(m, saved, headers)
  {
  }
}
