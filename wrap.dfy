/** The greedy word wrap `renderPdf` applies to item descriptions: split the
    text at white space as `split(/\s+/)` does, then fill each line with words
    while the measured width stays within the limit. */
module Wrapping {
  import opened Basics

  /** The longest prefix of `s` without white space. */
  function Word(s: string): (w: string)
    ensures |w| <= |s| && w == s[..|w|] && NoSpace(w)
    ensures |w| < |s| ==> IsSpace(s[|w|])
  {
    if s == [] || IsSpace(s[0]) then []
    else
      var w := [s[0]] + Word(s[1..]);
      assert w == s[..|w|];
      w
  }

  /** `s` without its leading white space. */
  function SkipSpaces(s: string): (r: string)
    ensures |r| <= |s| && r == s[|s| - |r|..]
    ensures r == [] || !IsSpace(r[0])
    ensures forall k :: 0 <= k < |s| - |r| ==> IsSpace(s[k])
    ensures s != [] && IsSpace(s[0]) ==> |r| < |s|
    ensures s != [] && !IsSpace(s[|s| - 1]) ==> r != [] && r[|r| - 1] == s[|s| - 1]
  {
    if s != [] && IsSpace(s[0]) then SkipSpaces(s[1..]) else s
  }

  /** `s.split(/\s+/)`: the fields between maximal runs of white space. Text
      that starts or ends with white space has an empty first or last field, and
      the empty text is one empty field. */
  function SplitWs(s: string): (ws: seq<string>)
    ensures |ws| >= 1 && ws[0] == Word(s)
    ensures forall i :: 0 <= i < |ws| ==> NoSpace(ws[i])
    decreases |s|
  {
    var w := Word(s);
    var rest := s[|w|..];
    if rest == [] then [w] else [w] + SplitWs(SkipSpaces(rest))
  }

  /** Text that neither is empty nor has white space at its edges splits into
      non-empty words. */
  lemma {:induction false} SplitWsNoEmptyWords(s: string)
    requires s != [] && NoEdgeSpace(s)
    ensures forall i :: 0 <= i < |SplitWs(s)| ==> SplitWs(s)[i] != []
    decreases |s|
  {
    var w := Word(s);
    var rest := s[|w|..];
    if rest != [] {
      var next := SkipSpaces(rest);
      assert rest[|rest| - 1] == s[|s| - 1];
      SplitWsNoEmptyWords(next);
    }
  }

  /** Words joined with single spaces. */
  function JoinSp(ws: seq<string>): string {
    if ws == [] then ""
    else if |ws| == 1 then ws[0]
    else JoinSp(ws[..|ws| - 1]) + " " + ws[|ws| - 1]
  }

  /** Joining is the same read from the front. */
  lemma {:induction false} JoinSpCons(w: string, ws: seq<string>)
    requires ws != []
    ensures JoinSp([w] + ws) == w + " " + JoinSp(ws)
    decreases |ws|
  {
    var all := [w] + ws;
    if |ws| == 1 {
      assert all[..|all| - 1] == [w];
    } else {
      assert all[..|all| - 1] == [w] + ws[..|ws| - 1];
      JoinSpCons(w, ws[..|ws| - 1]);
    }
  }

  /** `s` with every maximal run of white space replaced by one `' '`. */
  function Collapse(s: string): string
    decreases |s|
  {
    if s == [] then []
    else if IsSpace(s[0]) then " " + Collapse(SkipSpaces(s))
    else [s[0]] + Collapse(s[1..])
  }

  /** Collapsing passes the leading word through unchanged. */
  lemma {:induction false} CollapseWord(s: string)
    ensures Collapse(s) == Word(s) + Collapse(s[|Word(s)|..])
    decreases |s|
  {
    if s == [] || IsSpace(s[0]) {
      assert Word(s) == [] && s[0..] == s;
    } else {
      var t := s[1..];
      var wt := Word(t);
      assert Word(s) == [s[0]] + wt;
      assert t[|wt|..] == s[|Word(s)|..];
      assert Collapse(s) == [s[0]] + Collapse(t);
      CollapseWord(t);
      AppendAssoc([s[0]], wt, Collapse(t[|wt|..]));
    }
  }

  /** For any text, splitting with `split(/\s+/)` and joining the fields with
      single spaces collapses each white-space run to one space: apart from
      the white space, nothing is lost, added or moved. */
  lemma {:induction false} SplitWsCollapse(s: string)
    ensures JoinSp(SplitWs(s)) == Collapse(s)
    decreases |s|
  {
    var w := Word(s);
    var rest := s[|w|..];
    CollapseWord(s);
    if rest == [] {
      assert SplitWs(s) == [w];
    } else {
      var next := SkipSpaces(rest);
      SplitWsStep(s);
      CollapseRun(rest);
      SplitWsCollapse(next);
      JoinSpCons(w, SplitWs(next));
      AppendAssoc(w, " ", Collapse(next));
    }
  }

  /** Where the first word is followed by more text, `split` resumes after
      the white space that follows it. */
  lemma SplitWsStep(s: string)
    requires |Word(s)| < |s|
    ensures SplitWs(s) == [Word(s)] + SplitWs(SkipSpaces(s[|Word(s)|..]))
  {
  }

  /** A white-space run collapses to one space. */
  lemma CollapseRun(rest: string)
    requires rest != [] && IsSpace(rest[0])
    ensures Collapse(rest) == " " + Collapse(SkipSpaces(rest))
  {
  }

  /** Text of words separated by single `' '` characters: no white space at its
      edges, and every white-space character is a lone space. */
  ghost predicate SingleSpaced(s: string) {
    && NoEdgeSpace(s)
    && (forall k :: 0 <= k < |s| && IsSpace(s[k]) ==> s[k] == ' ')
    && (forall i, j :: 0 <= i < j < |s| && j == i + 1 ==> !IsSpace(s[i]) || !IsSpace(s[j]))
  }

  /** Splitting single-spaced text and joining the fields with spaces gives the
      text back, so the split loses and invents nothing. */
  lemma {:induction false} SplitWsJoin(s: string)
    requires SingleSpaced(s)
    ensures JoinSp(SplitWs(s)) == s
    decreases |s|
  {
    var w := Word(s);
    if |w| < |s| {
      var next := s[|w| + 1..];
      SingleSpacedStep(s);
      SplitWsJoin(next);
      JoinSpCons(w, SplitWs(next));
    }
  }

  /** After the first word of single-spaced text come one space and the
      single-spaced rest, which is where `split` resumes. */
  lemma SingleSpacedStep(s: string)
    requires SingleSpaced(s) && |Word(s)| < |s|
    ensures |Word(s)| + 1 < |s|
    ensures SplitWs(s) == [Word(s)] + SplitWs(s[|Word(s)| + 1..])
    ensures s == Word(s) + " " + s[|Word(s)| + 1..]
    ensures SingleSpaced(s[|Word(s)| + 1..])
  {
    var i := |Word(s)|;
    assert IsSpace(s[i]) && s[i] == ' ' && i + 1 < |s|;
    assert !IsSpace(s[i]) || !IsSpace(s[i + 1]);
    SplitAtSpace(s);
    SingleSpacedSuffix(s, i + 1);
    assert s == s[..i] + [s[i]] + s[i + 1..];
  }

  /** Where the first word ends at a single space, `split` resumes right after
      it. */
  lemma SplitAtSpace(s: string)
    requires |Word(s)| + 1 < |s| && !IsSpace(s[|Word(s)| + 1])
    ensures SplitWs(s) == [Word(s)] + SplitWs(s[|Word(s)| + 1..])
  {
    var i := |Word(s)|;
    var rest := s[i..];
    assert rest[1..] == s[i + 1..];
    assert SkipSpaces(rest) == s[i + 1..];
  }

  /** A suffix of single-spaced text that starts at a non-space is
      single-spaced. */
  lemma SingleSpacedSuffix(s: string, i: nat)
    requires SingleSpaced(s) && 0 < i < |s| && !IsSpace(s[i])
    ensures SingleSpaced(s[i..])
  {
    var next := s[i..];
    assert forall k :: 0 <= k < |next| ==> next[k] == s[i + k];
  }



  /** One iteration of the wrap loop over the state (finished lines, current
      line): the word joins the current line, unless the joined line is too
      wide and the current line is non-empty, in which case the current line is
      finished and the word starts the next one. */
  function WrapStep(st: (seq<string>, string), w: string, maxW: real, width: string -> real): (seq<string>, string) {
    var (lines, line) := st;
    var t := if line != "" then line + " " + w else w;
    if width(t) > maxW && line != "" then (lines + [line], w) else (lines, t)
  }

  /** The loop state after the words `ws`. */
  function WrapFold(ws: seq<string>, maxW: real, width: string -> real): (seq<string>, string) {
    if ws == [] then ([], "")
    else WrapStep(WrapFold(ws[..|ws| - 1], maxW, width), ws[|ws| - 1], maxW, width)
  }

  /** What `wrap(text, maxW)` returns: the finished lines, the last line if it
      is non-empty, and `['']` when that leaves nothing. */
  function Wrapped(text: string, maxW: real, width: string -> real): seq<string> {
    var (lines, line) := WrapFold(SplitWs(text), maxW, width);
    var all := if line != "" then lines + [line] else lines;
    if all == [] then [""] else all
  }

  /** `wrap`: the loop over the words. */
  method Wrap(text: string, maxW: real, width: string -> real) returns (lines: seq<string>)
    ensures lines == Wrapped(text, maxW, width)
  {
    var words := SplitWs(text);
    lines := [];
    var line := "";
    for i := 0 to |words|
      invariant (lines, line) == WrapFold(words[..i], maxW, width)
    {
      assert words[..i + 1][..i] == words[..i];
      var w := words[i];
      var t := if line != "" then line + " " + w else w;
      if width(t) > maxW && line != "" {
        lines := lines + [line];
        line := w;
      } else {
        line := t;
      }
    }
    assert words[..|words|] == words;
    if line != "" {
      lines := lines + [line];
    }
    if |lines| == 0 {
      lines := [""];
    }
  }

  /** `wrap` never returns an empty list, and returns `['']` when the text has
      no words. */
  lemma {:induction false} WrapNoWords(text: string, maxW: real, width: string -> real)
    ensures |Wrapped(text, maxW, width)| >= 1
    ensures (forall i :: 0 <= i < |SplitWs(text)| ==> SplitWs(text)[i] == "") ==>
      Wrapped(text, maxW, width) == [""]
  {
    var ws := SplitWs(text);
    if forall i :: 0 <= i < |ws| ==> ws[i] == "" {
      FoldOfEmptyWords(ws, maxW, width);
    }
  }

  lemma {:induction false} FoldOfEmptyWords(ws: seq<string>, maxW: real, width: string -> real)
    requires forall i :: 0 <= i < |ws| ==> ws[i] == ""
    ensures WrapFold(ws, maxW, width) == ([], "")
  {
    if ws != [] {
      FoldOfEmptyWords(ws[..|ws| - 1], maxW, width);
    }
  }

  /** Every line either fits within `maxW` or is one word that is too wide on
      its own. */
  lemma {:induction false} WrapLinesFit(text: string, maxW: real, width: string -> real)
    ensures forall i :: 0 <= i < |Wrapped(text, maxW, width)| ==>
      width(Wrapped(text, maxW, width)[i]) <= maxW || Wrapped(text, maxW, width)[i] in SplitWs(text)
  {
    var ws := SplitWs(text);
    FoldLinesFit(ws, maxW, width);
    if forall i :: 0 <= i < |ws| ==> ws[i] == "" {
      FoldOfEmptyWords(ws, maxW, width);
      assert ws[0] == "";
    }
  }

  lemma {:induction false} FoldLinesFit(ws: seq<string>, maxW: real, width: string -> real)
    ensures var (lines, line) := WrapFold(ws, maxW, width);
      && (forall i :: 0 <= i < |lines| ==> width(lines[i]) <= maxW || lines[i] in ws)
      && (line == "" || width(line) <= maxW || line in ws)
  {
    if ws != [] {
      var init, w := ws[..|ws| - 1], ws[|ws| - 1];
      FoldLinesFit(init, maxW, width);
      var (lines, line) := WrapFold(init, maxW, width);
      assert forall x :: x in init ==> x in ws;
      var (lines', line') := WrapFold(ws, maxW, width);
      assert forall i :: 0 <= i < |lines| ==> lines'[i] == lines[i];
    }
  }

  /** For text without white space at its edges, no word is lost, duplicated
      or reordered: the lines joined with single spaces are the words joined
      with single spaces. */
  lemma {:induction false} WrapKeepsWords(text: string, maxW: real, width: string -> real)
    requires NoEdgeSpace(text)
    ensures JoinSp(Wrapped(text, maxW, width)) == JoinSp(SplitWs(text))
  {
    var ws := SplitWs(text);
    if text == [] {
      assert ws == [""];
      FoldOfEmptyWords(ws, maxW, width);
    } else {
      SplitWsNoEmptyWords(text);
      FoldKeepsWords(ws, maxW, width);
    }
  }

  lemma {:induction false} FoldKeepsWords(ws: seq<string>, maxW: real, width: string -> real)
    requires ws != [] && forall i :: 0 <= i < |ws| ==> ws[i] != ""
    ensures var (lines, line) := WrapFold(ws, maxW, width);
      line != "" && JoinSp(lines + [line]) == JoinSp(ws)
  {
    var init, w := ws[..|ws| - 1], ws[|ws| - 1];
    if init == [] {
      assert WrapFold(init, maxW, width) == ([], "");
    } else {
      FoldKeepsWords(init, maxW, width);
      var (lines, line) := WrapFold(init, maxW, width);
      var t := line + " " + w;
      if width(t) > maxW {
        assert (lines + [line] + [w])[..|lines| + 1] == lines + [line];
      } else {
        JoinSpExtendLast(lines, line, w);
      }
    }
  }

  lemma JoinSpExtendLast(lines: seq<string>, line: string, w: string)
    ensures JoinSp(lines + [line + " " + w]) == JoinSp(lines + [line]) + " " + w
  {
    var a, b := lines + [line + " " + w], lines + [line];
    if lines != [] {
      assert a[..|a| - 1] == lines && b[..|b| - 1] == lines;
    }
  }
}
