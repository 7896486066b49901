/** The Markdown-to-Word conversion of the result page (`handleDownloadWord` in
    `pages/HomePage.tsx`): the result is split into lines, each line becomes one
    paragraph by the first rule that applies (headings, bullets, display maths,
    inline maths, blank, and otherwise bold and italic runs).

    The inline runs come from the global expression that matches `**…**`, `*…*`,
    `__…__` or `_…_` (the alternatives tried in that order, at the leftmost
    position that has a match); `MatchAt` and `NextMatch` spell out what it
    matches. The docx document itself is the paragraph list. */
module WordExport {
  import opened Common
  import Text

  /** A `TextRun`. */
  datatype Run = Run(text: string, bold: bool, italics: bool)

  /** A `Paragraph`: a heading of level 1 to 3, a plain text paragraph, or a list of runs. */
  datatype Paragraph =
    | HeadingPara(level: nat, text: string)
    | TextPara(text: string)
    | RunsPara(runs: seq<Run>)

  /** A piece of a line: text outside any marker, a doubled-marker span, or a
      single-marker span, with the marker character (`*` or `_`) and the inner text. */
  datatype Token = Plain(text: string) | Strong(marker: char, text: string) | Emph(marker: char, text: string)

  /** A match of the expression: where it starts and ends, and what it matched. */
  datatype Hit = Hit(start: nat, end: nat, token: Token)

  function Repeat(c: char, n: nat): (s: string)
    ensures |s| == n && forall i :: 0 <= i < n ==> s[i] == c
  {
    seq(n, i => c)
  }

  /** The text a token stands for in the line. */
  function TokenSource(t: Token): string {
    match t
    case Plain(text) => text
    case Strong(m, text) => Repeat(m, 2) + text + Repeat(m, 2)
    case Emph(m, text) => [m] + text + [m]
  }

  function Unparse(tokens: seq<Token>): string
    decreases |tokens|
  {
    if |tokens| == 0 then "" else TokenSource(tokens[0]) + Unparse(tokens[1..])
  }

  /** The first position at or after `from` that holds `c`, or `|s|`. */
  function NextIndexOf(s: string, c: char, from: nat): (q: nat)
    requires from <= |s|
    ensures from <= q <= |s|
    ensures q < |s| ==> s[q] == c
    ensures forall k :: from <= k < q ==> s[k] != c
    decreases |s| - from
  {
    if from == |s| || s[from] == c then from else NextIndexOf(s, c, from + 1)
  }

  /** `s[p..q + k]` is `k` markers, the text between, and `k` markers again. */
  lemma DelimitedSlice(s: string, p: nat, q: nat, k: nat, m: char)
    requires p + k <= q && q + k <= |s|
    requires forall i :: p <= i < p + k ==> s[i] == m
    requires forall i :: q <= i < q + k ==> s[i] == m
    ensures s[p..q + k] == Repeat(m, k) + s[p + k..q] + Repeat(m, k)
  {
    assert s[p..q + k] == s[p..p + k] + s[p + k..q] + s[q..q + k];
    assert s[p..p + k] == Repeat(m, k);
    assert s[q..q + k] == Repeat(m, k);
  }

  /** The doubled-marker alternative at `p`: two markers, a non-empty run without the
      marker, and two markers again. */
  function StrongAt(s: string, p: nat, m: char): (r: Option<Hit>)
    requires p + 1 <= |s| && s[p] == m
    ensures r.Some? ==> r.value.start == p && p < r.value.end <= |s|
    ensures r.Some? ==> TokenSource(r.value.token) == s[p..r.value.end]
    ensures r.Some? ==> r.value.token.Strong? && r.value.token.marker == m
    ensures r.Some? ==> r.value.token.text != "" && m !in r.value.token.text
  {
    var q := if p + 2 <= |s| then NextIndexOf(s, m, p + 2) else |s|;
    if p + 1 < |s| && s[p + 1] == m && q > p + 2 && q + 1 < |s| && s[q + 1] == m then
      DelimitedSlice(s, p, q, 2, m);
      Some(Hit(p, q + 2, Strong(m, s[p + 2..q])))
    else None
  }

  /** The single-marker alternative at `p`: a marker, a non-empty run without it, and
      the marker again. */
  function EmphAt(s: string, p: nat, m: char): (r: Option<Hit>)
    requires p + 1 <= |s| && s[p] == m
    ensures r.Some? ==> r.value.start == p && p < r.value.end <= |s|
    ensures r.Some? ==> TokenSource(r.value.token) == s[p..r.value.end]
    ensures r.Some? ==> r.value.token.Emph? && r.value.token.marker == m
    ensures r.Some? ==> r.value.token.text != "" && m !in r.value.token.text
  {
    var q := NextIndexOf(s, m, p + 1);
    if q > p + 1 && q < |s| then
      DelimitedSlice(s, p, q, 1, m);
      Some(Hit(p, q + 1, Emph(m, s[p + 1..q])))
    else None
  }

  /** The match starting at `p`, if any: the doubled-marker alternative is tried
      before the single-marker one. */
  function MatchAt(s: string, p: nat): (r: Option<Hit>)
    requires p <= |s|
    ensures r.Some? ==> r.value.start == p && p < r.value.end <= |s|
    ensures r.Some? ==> TokenSource(r.value.token) == s[p..r.value.end]
    ensures r.Some? ==> (r.value.token.Strong? || r.value.token.Emph?)
    ensures r.Some? ==> r.value.token.marker == s[p] && (s[p] == '*' || s[p] == '_')
    ensures r.Some? ==> r.value.token.text != "" && r.value.token.marker !in r.value.token.text
  {
    if p == |s| || (s[p] != '*' && s[p] != '_') then None
    else if StrongAt(s, p, s[p]).Some? then StrongAt(s, p, s[p])
    else EmphAt(s, p, s[p])
  }

  /** `regex.exec` from `lastIndex`: the leftmost match at or after `from`. */
  function NextMatch(s: string, from: nat): (r: Option<Hit>)
    requires from <= |s|
    ensures r.Some? ==> from <= r.value.start <= |s| && MatchAt(s, r.value.start) == r
    ensures r.Some? ==> forall p :: from <= p < r.value.start ==> MatchAt(s, p).None?
    ensures r.None? ==> forall p :: from <= p <= |s| ==> MatchAt(s, p).None?
    decreases |s| - from
  {
    var here := MatchAt(s, from);
    if here.Some? then here
    else if from == |s| then None
    else NextMatch(s, from + 1)
  }

  /** The tokens of `s[from..]`: text up to the next match, the match, and so on. */
  function Scan(s: string, from: nat): seq<Token>
    requires from <= |s|
    decreases |s| - from
  {
    match NextMatch(s, from)
    case None => if from < |s| then [Plain(s[from..])] else []
    case Some(h) =>
      (if h.start > from then [Plain(s[from..h.start])] else []) + [h.token] + Scan(s, h.end)
  }

  lemma {:induction false} UnparseAppend(a: seq<Token>, b: seq<Token>)
    ensures Unparse(a + b) == Unparse(a) + Unparse(b)
    decreases |a|
  {
    if |a| == 0 {
      assert a + b == b;
    } else {
      assert (a + b)[0] == a[0];
      assert (a + b)[1..] == a[1..] + b;
      UnparseAppend(a[1..], b);
    }
  }

  /** Nothing of the line is lost, duplicated or reordered: putting the markers back
      around the spans reproduces the line exactly. */
  lemma {:induction false} ScanRoundTrip(s: string, from: nat)
    requires from <= |s|
    ensures Unparse(Scan(s, from)) == s[from..]
    decreases |s| - from
  {
    match NextMatch(s, from)
    case None =>
      if from < |s| {
        UnparseSingle(Plain(s[from..]));
      }
    case Some(h) =>
      var before: seq<Token> := if h.start > from then [Plain(s[from..h.start])] else [];
      if h.start > from {
        UnparseSingle(Plain(s[from..h.start]));
      }
      ScanRoundTrip(s, h.end);
      UnparseAroundHit(s, from, h, before, Scan(s, h.end));
  }

  lemma UnparseSingle(t: Token)
    ensures Unparse([t]) == TokenSource(t)
  {
    assert Unparse([t]) == TokenSource(t) + Unparse([]);
  }

  lemma UnparseAround(before: seq<Token>, x: Token, rest: seq<Token>)
    ensures Unparse(before + [x] + rest) == Unparse(before) + TokenSource(x) + Unparse(rest)
  {
    UnparseAppend(before + [x], rest);
    UnparseAppend(before, [x]);
    UnparseSingle(x);
  }

  lemma SliceInThree(s: string, a: nat, b: nat, c: nat)
    requires a <= b <= c <= |s|
    ensures s[a..] == s[a..b] + s[b..c] + s[c..]
  {
    assert s[a..] == s[a..b] + s[b..c] + s[c..];
  }

  /** Pieces printing as the text before a hit, the hit, and a rest printing as the
      line's tail after it, print as the whole tail from `from`. */
  lemma UnparseAroundHit(s: string, from: nat, h: Hit, before: seq<Token>, rest: seq<Token>)
    requires from <= h.start < h.end <= |s|
    requires Unparse(before) == s[from..h.start]
    requires TokenSource(h.token) == s[h.start..h.end]
    requires Unparse(rest) == s[h.end..]
    ensures Unparse(before + [h.token] + rest) == s[from..]
  {
    UnparseAround(before, h.token, rest);
    SliceInThree(s, from, h.start, h.end);
  }

  /** Every piece is non-empty; each span holds a non-empty text free of its marker. */
  lemma {:induction false} ScanPiecesWellFormed(s: string, from: nat)
    requires from <= |s|
    ensures forall t :: t in Scan(s, from) ==> t.text != ""
    ensures forall t :: t in Scan(s, from) && !t.Plain? ==> t.marker !in t.text && (t.marker == '*' || t.marker == '_')
    decreases |s| - from
  {
    match NextMatch(s, from)
    case None =>
    case Some(h) =>
      ScanPiecesWellFormed(s, h.end);
  }

  function ToRun(t: Token): (r: Run)
    ensures r.text == t.text
    ensures r.bold <==> t.Strong?
    ensures r.italics <==> t.Emph?
  {
    match t
    case Plain(text) => Run(text, false, false)
    case Strong(_, text) => Run(text, true, false)
    case Emph(_, text) => Run(text, false, true)
  }

  function Runs(tokens: seq<Token>): (runs: seq<Run>)
    ensures |runs| == |tokens| && forall i :: 0 <= i < |tokens| ==> runs[i] == ToRun(tokens[i])
  {
    seq(|tokens|, i requires 0 <= i < |tokens| => ToRun(tokens[i]))
  }

  /** The runs of a line; a line without any piece gets one run holding the line. */
  function InlineRuns(line: string): seq<Run> {
    var runs := Runs(Scan(line, 0));
    if |runs| > 0 then runs else [Run(line, false, false)]
  }

  lemma {:induction false} RunsAppend(a: seq<Token>, b: seq<Token>)
    ensures Runs(a + b) == Runs(a) + Runs(b)
  {
  }

  /** One step of the scan: the plain text before the next match, the match, and the rest. */
  lemma ScanStep(s: string, from: nat)
    requires from <= |s| && NextMatch(s, from).Some?
    ensures var h := NextMatch(s, from).value;
      && from <= h.start < h.end <= |s|
      && Runs(Scan(s, from))
         == (if h.start > from then [Run(s[from..h.start], false, false)] else [])
            + [ToRun(h.token)] + Runs(Scan(s, h.end))
  {
    var h := NextMatch(s, from).value;
    var before: seq<Token> := if h.start > from then [Plain(s[from..h.start])] else [];
    assert Scan(s, from) == before + [h.token] + Scan(s, h.end);
    RunsAround(before, h.token, Scan(s, h.end));
    assert Runs(before) == if h.start > from then [Run(s[from..h.start], false, false)] else [];
  }

  lemma RunsAround(before: seq<Token>, x: Token, rest: seq<Token>)
    ensures Runs(before + [x] + rest) == Runs(before) + [ToRun(x)] + Runs(rest)
  {
    RunsAppend(before + [x], rest);
    RunsAppend(before, [x]);
  }

  lemma ConcatAssoc(done: seq<Run>, before: seq<Run>, x: Run, rest: seq<Run>)
    ensures done + before + [x] + rest == done + (before + [x] + rest)
  {
  }

  /** The last step of the scan: the text after the last match, if any. */
  lemma ScanEnd(s: string, from: nat)
    requires from <= |s| && NextMatch(s, from).None?
    ensures Runs(Scan(s, from)) == if from < |s| then [Run(s[from..], false, false)] else []
  {
  }

  /** The slice a match covers starts with a doubled marker exactly when it is a bold
      span; stripping two characters from each end of a bold span, or one from each
      end of an italic span, leaves its text. */
  lemma MatchedSlice(s: string, h: Hit)
    requires h.start <= |s| && MatchAt(s, h.start) == Some(h)
    ensures var matched := s[h.start..h.end];
      && ((Text.StartsWith(matched, "**") || Text.StartsWith(matched, "__")) <==> h.token.Strong?)
      && (h.token.Strong? ==> |matched| >= 4 && h.token.text == matched[2..|matched| - 2])
      && (h.token.Emph? ==> |matched| >= 2 && h.token.text == matched[1..|matched| - 1])
  {
    var matched := s[h.start..h.end];
    var m := h.token.marker;
    assert matched == TokenSource(h.token);
    if h.token.Strong? {
      assert matched == Repeat(m, 2) + h.token.text + Repeat(m, 2);
      assert matched[2..|matched| - 2] == h.token.text;
      assert matched[..2] == [m, m];
    } else {
      assert matched == [m] + h.token.text + [m];
      assert matched[1..|matched| - 1] == h.token.text;
      assert matched[1] == h.token.text[0];
      assert matched[1] != m;
    }
  }

  /** The run-building loop of `handleDownloadWord`. */
  method BuildRuns(line: string) returns (runs: seq<Run>)
    ensures runs == InlineRuns(line)
  {
    var textRuns: seq<Run> := [];
    var lastIndex := 0;
    var m := NextMatch(line, lastIndex);
    ghost var target := Runs(Scan(line, 0));
    while m.Some?
      invariant lastIndex <= |line|
      invariant m == NextMatch(line, lastIndex)
      invariant textRuns + Runs(Scan(line, lastIndex)) == target
      decreases |line| - lastIndex
    {
      var h := m.value;
      ScanStep(line, lastIndex);
      MatchedSlice(line, h);
      ghost var rest := Runs(Scan(line, h.end));
      ghost var done := textRuns;
      ghost var before: seq<Run> := if h.start > lastIndex then [Run(line[lastIndex..h.start], false, false)] else [];
      assert Runs(Scan(line, lastIndex)) == before + [ToRun(h.token)] + rest;
      if h.start > lastIndex {
        textRuns := textRuns + [Run(line[lastIndex..h.start], false, false)];
      }
      var matched := line[h.start..h.end];
      var run: Run;
      if Text.StartsWith(matched, "**") || Text.StartsWith(matched, "__") {
        run := Run(matched[2..|matched| - 2], true, false);
      } else {
        run := Run(matched[1..|matched| - 1], false, true);
      }
      assert run == ToRun(h.token);
      textRuns := textRuns + [run];
      assert textRuns == done + before + [run];
      ConcatAssoc(done, before, run, rest);
      assert textRuns + rest == target;
      lastIndex := h.end;
      m := NextMatch(line, lastIndex);
    }
    ScanEnd(line, lastIndex);
    if lastIndex < |line| {
      textRuns := textRuns + [Run(line[lastIndex..], false, false)];
    }
    assert textRuns == target;
    runs := if |textRuns| > 0 then textRuns else [Run(line, false, false)];
  }

  /** `/\$[^$]+\$/` matches at `p`..`q`. */
  ghost predicate DollarSpan(s: string, p: int, q: int) {
    0 <= p < q < |s| && q >= p + 2 && s[p] == '$' && s[q] == '$'
    && forall k :: p < k < q ==> s[k] != '$'
  }

  /** Whether `/\$[^$]+\$/` matches somewhere at or after `from`: two consecutive
      dollar signs with something between them. */
  function InlineMathFrom(s: string, from: nat): (r: bool)
    requires from <= |s|
    ensures r <==> exists p, q :: from <= p && DollarSpan(s, p, q)
    decreases |s| - from
  {
    var p := NextIndexOf(s, '$', from);
    if p == |s| then
      assert forall p', q' :: from <= p' && DollarSpan(s, p', q') ==> false;
      false
    else
      var q := NextIndexOf(s, '$', p + 1);
      if q == |s| then
        assert forall p', q' :: from <= p' && DollarSpan(s, p', q') ==> false by {
          forall p', q' | from <= p' && DollarSpan(s, p', q') ensures false {
            if p' < p {
            } else if p' == p {
            } else {
            }
          }
        }
        false
      else if q >= p + 2 then
        assert DollarSpan(s, p, q);
        true
      else
        var r := InlineMathFrom(s, q);
        assert r <== exists p', q' :: from <= p' && DollarSpan(s, p', q') by {
          forall p', q' | from <= p' && DollarSpan(s, p', q') ensures q <= p' {
            if p' < p {
            } else if p' == p {
            }
          }
        }
        r
  }

  /** JavaScript's `trim` removes these characters: tab, line feed, vertical tab,
      form feed, carriage return, space, no-break space, the Unicode space
      separators, the line and paragraph separators and the byte order mark. */
  predicate JsWhitespace(c: char) {
    c == '\t' || c == '\n' || c == '\U{000B}' || c == '\U{000C}' || c == '\r' || c == ' '
    || c == '\U{00A0}' || c == '\U{1680}' || ('\U{2000}' <= c <= '\U{200A}')
    || c == '\U{2028}' || c == '\U{2029}' || c == '\U{202F}' || c == '\U{205F}' || c == '\U{3000}'
    || c == '\U{FEFF}'
  }

  /** `line.trim() === ''`. */
  predicate Blank(line: string) {
    forall i :: 0 <= i < |line| ==> JsWhitespace(line[i])
  }

  const Bullet: string := "\U{2022} "

  /** The paragraph a line becomes: the first rule that applies wins. */
  function Classify(line: string): Paragraph {
    if Text.StartsWith(line, "# ") then HeadingPara(1, line[2..])
    else if Text.StartsWith(line, "## ") then HeadingPara(2, line[3..])
    else if Text.StartsWith(line, "### ") then HeadingPara(3, line[4..])
    else if Text.StartsWith(line, "- ") || Text.StartsWith(line, "* ") then RunsPara([Run(Bullet + line[2..], false, false)])
    else if Text.StartsWith(line, "$$") || Text.EndsWith(line, "$$") then RunsPara([Run(line, false, true)])
    else if Text.Contains(line, "$") && InlineMathFrom(line, 0) then RunsPara([Run(line, false, false)])
    else if Blank(line) then TextPara("")
    else RunsPara(InlineRuns(line))
  }

  /** A heading paragraph comes from a line of one to three `#`, a space and its text. */
  lemma HeadingsComeFromHashes(line: string)
    requires Classify(line).HeadingPara?
    ensures var h := Classify(line);
      1 <= h.level <= 3 && line == Repeat('#', h.level) + " " + h.text
  {
    var h := Classify(line);
    assert line == line[..h.level + 1] + line[h.level + 1..];
  }

  /** A line reaching the run rule keeps all its text: the runs reproduce it once the
      markers are put back, bold runs are the doubled-marker spans and italic runs
      the single-marker ones, each non-empty and free of its marker. */
  lemma RunsKeepTheLine(line: string)
    requires Classify(line).RunsPara?
    requires !Text.StartsWith(line, "- ") && !Text.StartsWith(line, "* ")
    requires !Text.StartsWith(line, "$$") && !Text.EndsWith(line, "$$")
    requires !(Text.Contains(line, "$") && InlineMathFrom(line, 0))
    ensures Classify(line).runs == Runs(Scan(line, 0))
    ensures Unparse(Scan(line, 0)) == line
    ensures forall t :: t in Scan(line, 0) ==> t.text != ""
    ensures forall t :: t in Scan(line, 0) && !t.Plain? ==> t.marker !in t.text
  {
    ScanRoundTrip(line, 0);
    ScanPiecesWellFormed(line, 0);
  }

  /** Headings of the three levels; four hashes are not a heading. */
  lemma HeadingExamples()
    ensures Classify("# Title") == HeadingPara(1, "Title")
    ensures Classify("## Part") == HeadingPara(2, "Part")
    ensures Classify("### Sub") == HeadingPara(3, "Sub")
  {
    assert "## Part"[1] == '#' && "### Sub"[1] == '#' && "### Sub"[2] == '#';
  }

  /** A list item becomes one run behind a bullet; the bullet rule wins over display maths. */
  lemma BulletExamples()
    ensures Classify("* item") == RunsPara([Run(Bullet + "item", false, false)])
    ensures Classify("- $$x$$") == RunsPara([Run(Bullet + "$$x$$", false, false)])
  {
    assert "* item"[0] == '*' && "- $$x$$"[0] == '-';
  }

  /** A display-maths line is kept whole, in italics. */
  lemma DisplayMathExample()
    ensures Classify("$$x$$") == RunsPara([Run("$$x$$", false, true)])
  {
    assert "$$x$$"[0] == '$' && "$$x$$"[1] == '$';
  }

  /** A line with inline maths is kept as one plain run. */
  lemma InlineMathExample()
    ensures Classify("a $x$ b") == RunsPara([Run("a $x$ b", false, false)])
  {
    var s := "a $x$ b";
    assert s[0] == 'a' && s[|s| - 1] == 'b';
    assert !Text.StartsWith(s, "# ") && !Text.StartsWith(s, "## ") && !Text.StartsWith(s, "### ");
    assert !Text.StartsWith(s, "- ") && !Text.StartsWith(s, "* ");
    assert !Text.StartsWith(s, "$$") && !Text.EndsWith(s, "$$");
    assert Text.Contains(s, "$") by { assert Text.OccursAt(s, "$", 2); }
    assert InlineMathFrom(s, 0) by { assert DollarSpan(s, 2, 4); }
  }

  /** A line of whitespace is an empty paragraph. */
  lemma BlankExample()
    ensures Classify(" \t") == TextPara("")
  {
    var s := " \t";
    assert s[0] == ' ' && s[1] == '\t';
    assert !Text.Contains(s, "$") by {
      forall i | 0 <= i && i + 1 <= |s| ensures !Text.OccursAt(s, "$", i) {
        assert s[i..i + 1][0] == s[i];
      }
    }
  }

  /** A line with a bold and an italic span gives three runs: bold, plain, italic. */
  lemma InlineRunsExample()
    ensures InlineRuns("**b** *i*") == [Run("b", true, false), Run(" ", false, false), Run("i", false, true)]
  {
    var s := "**b** *i*";
    assert s[2] == 'b' && s[3] == '*' && s[7] == 'i' && s[8] == '*';
    assert NextIndexOf(s, '*', 2) == 3;
    assert NextIndexOf(s, '*', 7) == 8;
    assert NextIndexOf(s, '*', 8) == 8;
    assert s[2..3] == "b" && s[7..8] == "i" && s[5..6] == " ";
    assert MatchAt(s, 0) == Some(Hit(0, 5, Strong('*', "b")));
    assert NextMatch(s, 0) == MatchAt(s, 0);
    assert MatchAt(s, 5).None?;
    assert MatchAt(s, 6) == Some(Hit(6, 9, Emph('*', "i")));
    assert NextMatch(s, 5) == MatchAt(s, 6);
    assert NextMatch(s, 9).None?;
    assert Scan(s, 9) == [];
    assert Scan(s, 5) == [Plain(" "), Emph('*', "i")];
    assert Scan(s, 0) == [Strong('*', "b"), Plain(" "), Emph('*', "i")];
  }

  /** The paragraphs of a document, one per line. */
  function Paragraphs(result: string): (ps: seq<Paragraph>)
    ensures |ps| == |Text.Split(result, '\n')|
    ensures forall i :: 0 <= i < |ps| ==> ps[i] == Classify(Text.Split(result, '\n')[i])
  {
    var lines := Text.Split(result, '\n');
    seq(|lines|, i requires 0 <= i < |lines| => Classify(lines[i]))
  }

  /** One paragraph per line, in order: the lines the paragraphs come from contain no
      line break and, joined with line breaks, give the result back. */
  lemma OneParagraphPerLine(result: string)
    ensures var lines := Text.Split(result, '\n');
      && |Paragraphs(result)| == |lines|
      && Text.Join(lines, "\n") == result
      && forall i :: 0 <= i < |lines| ==> '\n' !in lines[i]
  {
    Text.JoinSplit(result, '\n');
    Text.SplitPiecesFree(result, '\n');
  }

  /** `handleDownloadWord`: nothing without a result; otherwise the paragraph list. */
  method DownloadWord(result: Option<string>) returns (children: Option<seq<Paragraph>>)
    ensures result.None? || result.value == "" ==> children.None?
    ensures result.Some? && result.value != "" ==> children == Some(Paragraphs(result.value))
  {
    if result.None? || result.value == "" {
      return None;
    }
    var lines := Text.Split(result.value, '\n');
    var out: seq<Paragraph> := [];
    for i := 0 to |lines|
      invariant out == Paragraphs(result.value)[..i]
    {
      out := out + [Classify(lines[i])];
    }
    assert out == Paragraphs(result.value);
    children := Some(out);
  }
}
