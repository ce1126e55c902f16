/** The parser that `/incident/analyze-text` applies to the generative model's
    reply: it keeps the non-blank lines, stripped, and reads the summary,
    the severity and the recommendation off the first three of them by
    POSITION, deleting the literal labels wherever they occur in that line. */
module AnalysisParser {
  import opened PyStrings

  datatype Analysis = Analysis(summary: string, severity: string, recommendation: string)

  const SummaryLabel: string := "Summary:"
  const SeverityLabel: string := "Severity:"
  const RecommendationLabel: string := "Recommendation:"
  /** The severity reported when the reply has fewer than two non-blank lines. */
  const DefaultSeverity: string := "medium"

  /** `[l.strip() for l in lines if l.strip()]`: the lines stripped, the
      blank ones dropped. The contract here is only the length bound; what
      the kept lines are is proved in `StrippedNonBlankClean` (each is
      non-empty, stripped and newline-free), `StrippedNonBlankAppend` (the
      filter distributes over concatenation) and `NonBlankLinesOfJoin`
      (clean lines are kept exactly). */
  function StrippedNonBlank(lines: seq<string>): (r: seq<string>)
    ensures |r| <= |lines|
  {
    if lines == [] then []
    else
      var l := Strip(lines[0]);
      var rest := StrippedNonBlank(lines[1..]);
      if l == [] then rest else [l] + rest
  }

  /** Every line kept is non-empty and stripped, and it holds no newline when
      the lines it came from held none. */
  lemma {:induction false} StrippedNonBlankClean(lines: seq<string>)
    ensures forall i :: 0 <= i < |StrippedNonBlank(lines)| ==>
      StrippedNonBlank(lines)[i] != [] && IsStripped(StrippedNonBlank(lines)[i])
    ensures NoNewlines(lines) ==> NoNewlines(StrippedNonBlank(lines))
    decreases |lines|
  {
    if lines != [] {
      var l := Strip(lines[0]);
      var rest := StrippedNonBlank(lines[1..]);
      StrippedNonBlankClean(lines[1..]);
      if l != [] {
        var r := [l] + rest;
        assert r == StrippedNonBlank(lines);
        forall i | 0 <= i < |r| ensures r[i] != [] && IsStripped(r[i]) {
          if i > 0 { assert r[i] == rest[i - 1]; }
        }
        if NoNewlines(lines) {
          assert NoNewlines(lines[1..]) by {
            forall i | 0 <= i < |lines| - 1 ensures '\n' !in lines[1..][i] {
              assert lines[1..][i] == lines[i + 1];
            }
          }
          assert '\n' !in l by {
            if '\n' in l { StripKeeps(lines[0], '\n'); }
          }
          forall i | 0 <= i < |r| ensures '\n' !in r[i] {
            if i > 0 { assert r[i] == rest[i - 1]; }
          }
        }
      } else if NoNewlines(lines) {
        assert NoNewlines(lines[1..]) by {
          forall i | 0 <= i < |lines| - 1 ensures '\n' !in lines[1..][i] {
            assert lines[1..][i] == lines[i + 1];
          }
        }
      }
    }
  }

  /** The lines the parser reads: `[l.strip() for l in text.split("\n") if l.strip()]`. */
  function NonBlankLines(text: string): (r: seq<string>)
    ensures NoNewlines(r)
  {
    StrippedNonBlankClean(Split(text, '\n'));
    StrippedNonBlank(Split(text, '\n'))
  }

  /** The field at `index` among the non-blank lines, with `tag` deleted and
      the rest stripped, or `absent` when there are not enough lines. */
  function Field(lines: seq<string>, index: nat, tag: string, absent: string): (r: string)
    requires tag != []
    ensures |lines| <= index ==> r == absent
    ensures |lines| > index ==> IsStripped(r) && forall i :: 0 <= i < |r| ==> r[i] in lines[index]
  {
    if |lines| > index then
      var x := RemoveAll(lines[index], tag);
      var r := Strip(x);
      assert forall i :: 0 <= i < |r| ==> r[i] in x by {
        forall i | 0 <= i < |r| ensures r[i] in x { StripKeeps(x, r[i]); }
      }
      r
    else absent
  }

  /** The default severity is itself a clean single line; kept apart so that
      the literal is unfolded outside the parser's larger proofs. */
  lemma DefaultSeverityIsClean()
    ensures IsStripped(DefaultSeverity) && '\n' !in DefaultSeverity
  {
  }

  /** The parse of main_1.py's `analyze_incident_text`: three stripped,
      single-line fields. */
  function ParseAnalysis(reply: string): (r: Analysis)
    ensures IsStripped(r.summary) && IsStripped(r.severity) && IsStripped(r.recommendation)
    ensures '\n' !in r.summary && '\n' !in r.severity && '\n' !in r.recommendation
  {
    var lines := NonBlankLines(reply);
    DefaultSeverityIsClean();
    FieldNoNewline(lines, 0, SummaryLabel, "");
    FieldNoNewline(lines, 1, SeverityLabel, DefaultSeverity);
    FieldNoNewline(lines, 2, RecommendationLabel, "");
    ParseLines(lines)
  }

  /** A field read off newline-free lines holds no newline. */
  lemma FieldNoNewline(lines: seq<string>, index: nat, tag: string, absent: string)
    requires tag != [] && NoNewlines(lines) && '\n' !in absent
    ensures '\n' !in Field(lines, index, tag, absent)
  {
  }

  /** The three fields, read by position off the non-blank lines: a field
      whose line is missing takes its default, and every field is stripped. */
  function ParseLines(lines: seq<string>): (r: Analysis)
    ensures |lines| < 1 ==> r.summary == ""
    ensures |lines| < 2 ==> r.severity == DefaultSeverity
    ensures |lines| < 3 ==> r.recommendation == ""
    ensures IsStripped(r.summary) && IsStripped(r.severity) && IsStripped(r.recommendation)
  {
    assert IsStripped(DefaultSeverity);
    Analysis(
      Field(lines, 0, SummaryLabel, ""),
      Field(lines, 1, SeverityLabel, DefaultSeverity),
      Field(lines, 2, RecommendationLabel, ""))
  }

  lemma {:induction false} StrippedNonBlankAppend(a: seq<string>, b: seq<string>)
    ensures StrippedNonBlank(a + b) == StrippedNonBlank(a) + StrippedNonBlank(b)
    decreases |a|
  {
    if a != [] {
      var ab := a + b;
      assert ab[0] == a[0];
      assert ab[1..] == a[1..] + b;
      StrippedNonBlankAppend(a[1..], b);
      var l := Strip(a[0]);
      var x, y := StrippedNonBlank(a[1..]), StrippedNonBlank(b);
      if l == [] {
        assert StrippedNonBlank(ab) == x + y;
        assert StrippedNonBlank(a) == x;
      } else {
        assert StrippedNonBlank(ab) == [l] + (x + y);
        assert StrippedNonBlank(a) == [l] + x;
        assert [l] + (x + y) == ([l] + x) + y;
      }
    } else {
      assert a + b == b;
    }
  }

  /** The non-blank lines of two texts joined by a newline are those of the
      first followed by those of the second. */
  lemma {:induction false} NonBlankLinesAround(a: string, b: string)
    ensures NonBlankLines(a + "\n" + b) == NonBlankLines(a) + NonBlankLines(b)
  {
    SplitAround(a, '\n', b);
    StrippedNonBlankAppend(Split(a, '\n'), Split(b, '\n'));
  }

  lemma {:induction false} SplitAllSpace(s: string)
    requires AllSpace(s)
    ensures forall i :: 0 <= i < |Split(s, '\n')| ==> AllSpace(Split(s, '\n')[i])
    decreases |s|
  {
    if s != [] {
      SplitAllSpace(s[1..]);
    }
  }

  lemma {:induction false} StrippedNonBlankAllSpace(lines: seq<string>)
    requires forall i :: 0 <= i < |lines| ==> AllSpace(lines[i])
    ensures StrippedNonBlank(lines) == []
    decreases |lines|
  {
    if lines != [] {
      StrippedNonBlankAllSpace(lines[1..]);
    }
  }

  /** Whitespace-only text (newlines included) contributes no line. */
  lemma {:induction false} NonBlankLinesBlank(w: string)
    requires AllSpace(w)
    ensures NonBlankLines(w) == []
  {
    SplitAllSpace(w);
    StrippedNonBlankAllSpace(Split(w, '\n'));
  }

  /** One physical line contributes itself, stripped, unless it is blank. */
  lemma {:induction false} NonBlankLinesOfLine(line: string)
    requires '\n' !in line
    ensures NonBlankLines(line) == if AllSpace(line) then [] else [Strip(line)]
  {
    SplitNoSeparator(line, '\n');
    assert [line][1..] == [];
  }

  /** A line the parser reads back unchanged: non-empty, stripped, one line. */
  predicate CleanLine(line: string) {
    line != [] && IsStripped(line) && '\n' !in line
  }

  /** Clean lines joined by newlines are read back exactly. */
  lemma {:induction false} NonBlankLinesOfJoin(lines: seq<string>)
    requires |lines| >= 1
    requires forall i :: 0 <= i < |lines| ==> CleanLine(lines[i])
    ensures NonBlankLines(Join(lines, '\n')) == lines
    decreases |lines|
  {
    var first := lines[0];
    if |lines| > 1 {
      var rest := lines[1..];
      assert forall i :: 0 <= i < |rest| ==> rest[i] == lines[i + 1];
      NonBlankLinesOfJoin(rest);
      JoinCleanFirst(first, rest);
      assert [first] + rest == lines;
    } else {
      CleanLineRead(first);
      assert lines == [first];
    }
  }

  /** One more clean line in front of lines that read back exactly. */
  lemma JoinCleanFirst(first: string, rest: seq<string>)
    requires CleanLine(first) && |rest| >= 1
    requires NonBlankLines(Join(rest, '\n')) == rest
    ensures NonBlankLines(Join([first] + rest, '\n')) == [first] + rest
  {
    var lines := [first] + rest;
    assert lines[0] == first && lines[1..] == rest;
    JoinFirst(lines, '\n');
    CleanLineFirst(first, Join(rest, '\n'));
  }

  /** A clean line is read back as itself. */
  lemma CleanLineRead(line: string)
    requires CleanLine(line)
    ensures NonBlankLines(line) == [line]
  {
    assert !AllSpace(line) by { assert !IsSpace(line[0]); }
    StripStripped(line);
    NonBlankLinesOfLine(line);
  }

  lemma CleanLineFirst(line: string, more: string)
    requires CleanLine(line)
    ensures NonBlankLines(line + "\n" + more) == [line] + NonBlankLines(more)
  {
    CleanLineRead(line);
    NonBlankLinesAround(line, more);
  }

  /** A blank or whitespace-only reply parses to empty fields and severity "medium". */
  lemma BlankReplyDefaults(reply: string)
    requires AllSpace(reply)
    ensures ParseAnalysis(reply) == Analysis("", DefaultSeverity, "")
  {
    NonBlankLinesBlank(reply);
  }

  /** A reply with fewer than two non-blank lines always has severity "medium";
      with two or more, the severity is the second line with every "Severity:"
      deleted, whatever it then reads. */
  lemma SeverityDefault(reply: string)
    ensures |NonBlankLines(reply)| < 2 ==> ParseAnalysis(reply).severity == DefaultSeverity
    ensures |NonBlankLines(reply)| >= 2 ==>
      ParseAnalysis(reply).severity == Strip(RemoveAll(NonBlankLines(reply)[1], SeverityLabel))
  {
  }

  /** Severity "medium" does not mean the reply was short: a reply of any
      clean first line followed by the line "medium" has two non-blank lines,
      and its severity, read off the second one, is "medium". */
  lemma SeverityMediumOnSecondLine(x: string)
    requires CleanLine(x)
    ensures |NonBlankLines(x + "\n" + DefaultSeverity)| == 2
    ensures ParseAnalysis(x + "\n" + DefaultSeverity).severity == DefaultSeverity
  {
    var v := DefaultSeverity;
    assert CleanLine(v);
    assert !Contains(v, SeverityLabel);
    CleanLineFirst(x, v);
    CleanLineRead(v);
    UnlabelledLine(v, SeverityLabel);
  }

  /** Blank and whitespace-only lines anywhere in the reply are ignored. */
  lemma {:induction false} ParseSkipsBlankLines(a: string, w: string, b: string)
    requires AllSpace(w)
    ensures ParseAnalysis(a + "\n" + w + "\n" + b) == ParseAnalysis(a + "\n" + b)
  {
    var wb := w + "\n" + b;
    assert a + "\n" + w + "\n" + b == a + "\n" + wb;
    NonBlankLinesBlank(w);
    NonBlankLinesAround(w, b);
    assert NonBlankLines(wb) == NonBlankLines(b);
    NonBlankLinesAround(a, wb);
    NonBlankLinesAround(a, b);
  }

  /** Once three non-blank lines have been read, nothing after them matters. */
  lemma {:induction false} ParseIgnoresLaterLines(a: string, b: string)
    requires |NonBlankLines(a)| >= 3
    ensures ParseAnalysis(a + "\n" + b) == ParseAnalysis(a)
  {
    NonBlankLinesAround(a, b);
    ParseLinesPrefix(NonBlankLines(a), NonBlankLines(b));
  }

  lemma ParseLinesPrefix(lines: seq<string>, more: seq<string>)
    requires |lines| >= 3
    ensures ParseLines(lines + more) == ParseLines(lines)
  {
    assert (lines + more)[..3] == lines[..3];
  }

  /** What the three labels have in common: non-empty, one line, no whitespace at either end. */
  predicate GoodLabel(tag: string) {
    tag != [] && IsStripped(tag) && tag[0] != ' ' && '\n' !in tag
  }

  /** The three labels are good ones; kept apart so that the literals are
      unfolded outside the parser's larger proofs. */
  lemma LabelsAreGood()
    ensures GoodLabel(SummaryLabel) && GoodLabel(SeverityLabel) && GoodLabel(RecommendationLabel)
  {
  }

  /** A labelled line "tag x" gives back x. */
  lemma {:induction false} LabelledLine(tag: string, x: string)
    requires GoodLabel(tag)
    requires IsStripped(x) && !Contains(x, tag)
    ensures !AllSpace(tag + " " + x)
    ensures Strip(RemoveAll(Strip(tag + " " + x), tag)) == x
  {
    var line := tag + " " + x;
    assert line[0] == tag[0];
    if x == [] {
      assert line == tag + " " + [];
      StripPadded([], tag, " ");
      assert [] + tag + " " == line;
      StripStripped(tag);
      assert tag[|tag|..] == [];
      assert RemoveAll(tag, tag) == RemoveAll([], tag);
    } else {
      assert line[|line| - 1] == x[|x| - 1];
      StripStripped(line);
      assert line[..|tag|] == tag;
      assert line[|tag|..] == " " + x;
      NotContainsCons(' ', x, tag);
      StripPadded(" ", x, []);
      assert " " + x + [] == " " + x;
      StripStripped(x);
    }
  }

  /** A labelled physical line is one non-blank line, and its field reads back. */
  lemma LabelledLineParses(tag: string, x: string)
    requires GoodLabel(tag)
    requires IsStripped(x) && !Contains(x, tag) && '\n' !in x
    ensures NonBlankLines(tag + " " + x) == [Strip(tag + " " + x)]
    ensures Strip(RemoveAll(Strip(tag + " " + x), tag)) == x
  {
    LabelledLine(tag, x);
    NoNewlineConcat(tag + " ", x);
    NonBlankLinesOfLine(tag + " " + x);
  }

  /** One labelled line, "tag x". */
  function LabelledLineText(tag: string, x: string): string {
    tag + " " + x
  }

  /** "Summary: s", "Severity: v" and "Recommendation: r" on three lines. */
  function LabelledReply(s: string, v: string, r: string): string {
    LabelledLineText(SummaryLabel, s) + "\n"
      + (LabelledLineText(SeverityLabel, v) + "\n" + LabelledLineText(RecommendationLabel, r))
  }

  /** The reply that the parser is written for: "Summary: s", "Severity: v",
      "Recommendation: r" on three lines parses back to (s, v, r), for any
      fields that are single stripped lines and do not contain their own label. */
  lemma {:induction false} ParseLabelledReply(s: string, v: string, r: string)
    requires IsStripped(s) && IsStripped(v) && IsStripped(r)
    requires '\n' !in s && '\n' !in v && '\n' !in r
    requires !Contains(s, SummaryLabel) && !Contains(v, SeverityLabel) && !Contains(r, RecommendationLabel)
    ensures ParseAnalysis(LabelledReply(s, v, r)) == Analysis(s, v, r)
  {
    LabelsAreGood();
    var l1, l2, l3 := LabelledLineText(SummaryLabel, s), LabelledLineText(SeverityLabel, v),
                      LabelledLineText(RecommendationLabel, r);
    LabelledLineParses(SummaryLabel, s);
    LabelledLineParses(SeverityLabel, v);
    LabelledLineParses(RecommendationLabel, r);
    ThreeLines(l1, l2, l3);
  }

  /** Three lines that each count as one non-blank line are read as three. */
  lemma ThreeLines(l1: string, l2: string, l3: string)
    requires NonBlankLines(l1) == [Strip(l1)]
    requires NonBlankLines(l2) == [Strip(l2)]
    requires NonBlankLines(l3) == [Strip(l3)]
    ensures NonBlankLines(l1 + "\n" + (l2 + "\n" + l3)) == [Strip(l1), Strip(l2), Strip(l3)]
  {
    NonBlankLinesAround(l2, l3);
    NonBlankLinesAround(l1, l2 + "\n" + l3);
  }

  /** The fields are read by position, not found by label: a line that does
      not carry the expected label is taken whole. So a reply that opens with
      "Severity: high" has that whole line as its summary, and its severity is
      read off the second line, whatever that line says. */
  lemma FieldsArePositional(lines: seq<string>)
    requires forall i :: 0 <= i < |lines| ==> IsStripped(lines[i])
    ensures |lines| > 0 && !Contains(lines[0], SummaryLabel) ==> ParseLines(lines).summary == lines[0]
    ensures |lines| > 1 && !Contains(lines[1], SeverityLabel) ==> ParseLines(lines).severity == lines[1]
    ensures |lines| > 2 && !Contains(lines[2], RecommendationLabel) ==> ParseLines(lines).recommendation == lines[2]
  {
    LabelsAreGood();
    if |lines| > 0 { UnlabelledLine(lines[0], SummaryLabel); }
    if |lines| > 1 { UnlabelledLine(lines[1], SeverityLabel); }
    if |lines| > 2 { UnlabelledLine(lines[2], RecommendationLabel); }
  }

  /** A stripped line without the label is its own field. */
  lemma UnlabelledLine(line: string, tag: string)
    requires tag != [] && IsStripped(line)
    ensures !Contains(line, tag) ==> Strip(RemoveAll(line, tag)) == line
  {
    if !Contains(line, tag) {
      StripStripped(line);
    }
  }
}
