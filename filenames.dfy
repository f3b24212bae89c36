/** `sanitizeFile` and the name each exported PDF gets inside the archive. */
module FileNames {
  import opened Basics

  /** The characters `/[^a-z0-9_\-.]+/gi` leaves alone. Under the `i` flag the
      class `a-z` matches the ASCII capitals too, and no other character. */
  predicate IsFileChar(c: char) {
    ('a' <= c <= 'z') || ('A' <= c <= 'Z') || ('0' <= c <= '9') || c == '_' || c == '-' || c == '.'
  }

  predicate AllFileChars(s: string) {
    forall i :: 0 <= i < |s| ==> IsFileChar(s[i])
  }

  predicate NoFileChars(s: string) {
    forall i :: 0 <= i < |s| ==> !IsFileChar(s[i])
  }

  /** `s` without its leading run of characters outside the class. */
  function DropRun(s: string): (r: string)
    ensures |r| <= |s|
    ensures r == [] || IsFileChar(r[0])
    ensures s != [] && !IsFileChar(s[0]) ==> |r| < |s|
    ensures s == [] || IsFileChar(s[0]) ==> r == s
    ensures r != [] ==> r[|r| - 1] == s[|s| - 1]
    ensures s != [] && IsFileChar(s[|s| - 1]) ==> r != []
  {
    if s != [] && !IsFileChar(s[0]) then DropRun(s[1..]) else s
  }

  /** `s.replace(/[^a-z0-9_\-.]+/gi, '_')`: every maximal run of characters
      outside the class becomes one `_`. */
  function ReplaceRuns(s: string): (r: string)
    ensures AllFileChars(r)
    ensures |r| <= |s|
    ensures r == [] <==> s == []
    decreases |s|
  {
    if s == [] then []
    else if IsFileChar(s[0]) then [s[0]] + ReplaceRuns(s[1..])
    else "_" + ReplaceRuns(DropRun(s))
  }

  /** `sanitizeFile(s)`: replace the runs, keep the first 80 characters, and
      fall back to `'invoice'` when nothing is left. */
  function Sanitize(s: string): (r: string)
    ensures 1 <= |r| <= 80 && AllFileChars(r)
    ensures s == [] ==> r == "invoice"
    ensures s != [] ==> IsPrefix(r, ReplaceRuns(s)) && |r| == Min(|ReplaceRuns(s)|, 80)
  {
    var t := ReplaceRuns(s);
    var cut := if |t| <= 80 then t else t[..80];
    if cut == [] then "invoice" else cut
  }

  function Min(a: int, b: int): int {
    if a <= b then a else b
  }

  /** Text already made of allowed characters passes through the replacement
      unchanged. */
  lemma {:induction false} ReplaceRunsKeepsClean(s: string)
    requires AllFileChars(s)
    ensures ReplaceRuns(s) == s
  {
    if s != [] {
      ReplaceRunsKeepsClean(s[1..]);
    }
  }

  /** A whole run of disallowed characters, however long, becomes one `_`. */
  lemma {:induction false} ReplaceRunsOfRun(s: string)
    requires s != [] && NoFileChars(s)
    ensures ReplaceRuns(s) == "_"
  {
    DropRunOfRun(s);
  }

  lemma {:induction false} DropRunOfRun(s: string)
    requires NoFileChars(s)
    ensures DropRun(s) == []
  {
    if s != [] {
      DropRunOfRun(s[1..]);
    }
  }

  /** Dropping the leading run of a concatenation: the run may end inside `a`
      or swallow all of it. */
  lemma {:induction false} DropRunConcat(a: string, b: string)
    ensures DropRun(a + b) == if DropRun(a) == [] then DropRun(b) else DropRun(a) + b
  {
    if a == [] {
      assert a + b == b;
    } else if !IsFileChar(a[0]) {
      assert (a + b)[1..] == a[1..] + b;
      DropRunConcat(a[1..], b);
    }
  }

  /** A text that starts with a disallowed character is replaced as one `_`
      followed by the replacement of what follows its leading run. */
  lemma ReplaceRunsRunStart(s: string)
    requires s != [] && !IsFileChar(s[0])
    ensures ReplaceRuns(s) == "_" + ReplaceRuns(DropRun(s))
  {
  }

  /** The replacement works run by run: cutting the text where an allowed
      character meets anything leaves each part's replacement unaffected. */
  lemma {:induction false} ReplaceRunsSplit(a: string, b: string)
    requires a == [] || b == [] || IsFileChar(a[|a| - 1]) || IsFileChar(b[0])
    ensures ReplaceRuns(a + b) == ReplaceRuns(a) + ReplaceRuns(b)
    decreases |a|, 2
  {
    if a == [] {
      assert a + b == b;
    } else if IsFileChar(a[0]) {
      assert (a + b)[1..] == a[1..] + b;
      ReplaceRunsSplit(a[1..], b);
    } else {
      ReplaceRunsSplitRun(a, b);
    }
  }

  /** The case of `ReplaceRunsSplit` where `a` starts with a run. */
  lemma {:induction false} ReplaceRunsSplitRun(a: string, b: string)
    requires a != [] && !IsFileChar(a[0])
    requires b == [] || IsFileChar(a[|a| - 1]) || IsFileChar(b[0])
    ensures ReplaceRuns(a + b) == ReplaceRuns(a) + ReplaceRuns(b)
    decreases |a|, 1
  {
    if DropRun(a) != [] {
      ReplaceRunsSplitPartRun(a, b);
    } else {
      ReplaceRunsSplitAllRun(a, b);
    }
  }

  /** `a` is one run throughout, so `b` starts with an allowed character. */
  lemma ReplaceRunsSplitAllRun(a: string, b: string)
    requires a != [] && !IsFileChar(a[0]) && DropRun(a) == []
    requires b == [] || IsFileChar(a[|a| - 1]) || IsFileChar(b[0])
    ensures ReplaceRuns(a + b) == ReplaceRuns(a) + ReplaceRuns(b)
  {
    DropRunConcat(a, b);
    assert (a + b)[0] == a[0];
    ReplaceRunsRunStart(a + b);
    ReplaceRunsRunStart(a);
    assert DropRun(a + b) == b by {
      if b != [] { assert IsFileChar(b[0]); }
    }
  }

  /** The leading run of `a` ends inside `a`. */
  lemma {:induction false} ReplaceRunsSplitPartRun(a: string, b: string)
    requires a != [] && !IsFileChar(a[0]) && DropRun(a) != []
    requires b == [] || IsFileChar(a[|a| - 1]) || IsFileChar(b[0])
    ensures ReplaceRuns(a + b) == ReplaceRuns(a) + ReplaceRuns(b)
    decreases |a|, 0
  {
    var d := DropRun(a);
    DropRunConcat(a, b);
    assert (a + b)[0] == a[0];
    ReplaceRunsRunStart(a + b);
    ReplaceRunsRunStart(a);
    ReplaceRunsAfterRun(d, b);
  }

  /** The inductive step of `ReplaceRunsSplitRun`, once the leading run of
      `a` is dropped and `d` is what remains of it. */
  lemma {:induction false} ReplaceRunsAfterRun(d: string, b: string)
    requires d != [] && IsFileChar(d[0])
    requires b == [] || IsFileChar(d[|d| - 1]) || IsFileChar(b[0])
    ensures "_" + ReplaceRuns(d + b) == ("_" + ReplaceRuns(d)) + ReplaceRuns(b)
    decreases |d|, 3
  {
    ReplaceRunsSplit(d, b);
  }

  /** Different invoice numbers can share a file name: `A/1` and `A:1` both
      become `A_1`, so their PDFs are both named `A_1.pdf`. */
  lemma ExportNamesCollide()
    ensures Sanitize("A/1") == Sanitize("A:1") == "A_1"
    ensures ExportFileName("A/1", 0) == ExportFileName("A:1", 1) == "A_1.pdf"
  {
    ReplaceOneSeparator('/');
    ReplaceOneSeparator(':');
  }

  lemma ReplaceOneSeparator(c: char)
    requires !IsFileChar(c)
    ensures ReplaceRuns(['A', c, '1']) == "A_1"
  {
    var s := ['A', c, '1'];
    assert s[1..] == [c, '1'] && s[1..][1..] == "1" && "1"[1..] == [];
    assert DropRun([c, '1']) == "1";
    assert ReplaceRuns("1") == "1";
    assert ReplaceRuns([c, '1']) == "_1";
  }

  /** Sanitizing a sanitized name changes nothing. */
  lemma SanitizeIdempotent(s: string)
    ensures Sanitize(Sanitize(s)) == Sanitize(s)
  {
    ReplaceRunsKeepsClean(Sanitize(s));
  }

  /** A name of allowed characters, at most 80 long, is kept as it is. */
  lemma SanitizeKeepsClean(s: string)
    requires s != [] && |s| <= 80 && AllFileChars(s)
    ensures Sanitize(s) == s
  {
    ReplaceRunsKeepsClean(s);
  }

  /** The name of one exported PDF: the invoice number, or `INV-<index+1>` when
      it has none, sanitized, with `.pdf` appended. */
  function ExportFileName(invoiceNo: string, index: nat): (f: string)
    ensures 5 <= |f| <= 84 && f[|f| - 4..] == PdfSuffix
    ensures AllFileChars(f)
  {
    var name := ExportStem(invoiceNo, index);
    PdfSuffixClean();
    AppendFileChars(name, PdfSuffix);
    name + PdfSuffix
  }

  const PdfSuffix: string := ".pdf"

  lemma PdfSuffixClean()
    ensures |PdfSuffix| == 4 && AllFileChars(PdfSuffix)
  {
  }

  /** The sanitized number an exported PDF is named after. */
  function ExportStem(invoiceNo: string, index: nat): (name: string)
    ensures 1 <= |name| <= 80 && AllFileChars(name)
  {
    Sanitize(if invoiceNo != "" then invoiceNo else DefaultInvoiceNo(index))
  }

  /** `INV-<index+1>`, the number an invoice without one is exported under. */
  function DefaultInvoiceNo(index: nat): string {
    "INV-" + NatToString(index + 1)
  }

  lemma AppendFileChars(a: string, b: string)
    requires AllFileChars(a) && AllFileChars(b)
    ensures AllFileChars(a + b) && (a + b)[|a|..] == b
  {
    assert forall i :: |a| <= i < |a + b| ==> (a + b)[i] == b[i - |a|];
  }

  /** An invoice without a number is exported as `INV-<index+1>.pdf`, with the
      number in full for any index below 10^76. */
  lemma DefaultExportName(index: nat)
    requires index + 1 < Pow10(76)
    ensures ExportFileName("", index) == "INV-" + NatToString(index + 1) + ".pdf"
  {
    var d := NatToString(index + 1);
    NatToStringLength(index + 1, 76);
    var s := "INV-" + d;
    assert AllFileChars(s) by {
      forall i | 0 <= i < |s| ensures IsFileChar(s[i]) {
        if i >= 4 { assert s[i] == d[i - 4] && IsDigit(d[i - 4]); }
      }
    }
    SanitizeKeepsClean(s);
  }
}
