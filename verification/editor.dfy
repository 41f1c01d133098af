/**
 * The editor's buffer format: printing a title and a description, reading a buffer back, and
 * exactly which texts survive the round trip.
 */
module EditorBuffers {
  import opened Options
  import opened Texts

  const TITLE_HEADER: string := "# Title"
  const DESCRIPTION_HEADER: string := "# Description"

  function Print(title: string, description: string): string {
    TITLE_HEADER + "\n" + title + "\n\n" + DESCRIPTION_HEADER + "\n" + description
  }

  // ── Lines and trimming ────────────────────────────────────────────────────

  function Trim(s: string): string {
    if s != "" && IsSpace(s[0]) then Trim(s[1..])
    else if s != "" && IsSpace(Last(s)) then Trim(Init(s))
    else s
  }

  function StripReturn(line: string): string {
    if line != "" && Last(line) == '\r' then Init(line) else line
  }

  function StripAll(lines: seq<string>): seq<string> {
    if lines == [] then [] else StripAll(Init(lines)) + [StripReturn(Last(lines))]
  }

  /** Every line ended by a newline, without a return before it; and the rest, unless it is empty. */
  function Lines(buf: string): seq<string> {
    var pieces := Split(buf, '\n');
    StripAll(Init(pieces)) + (if Last(pieces) == "" then [] else [Last(pieces)])
  }

  // ── Reading ───────────────────────────────────────────────────────────────

  datatype Section = Outside | InTitle | InDescription
  datatype Reading = Reading(section: Section, title: string, description: string)

  predicate IsHeader(line: string) {
    Trim(line) == TITLE_HEADER || Trim(line) == DESCRIPTION_HEADER
  }

  function Extend(text: string, line: string): string {
    if text == "" then line else text + "\n" + line
  }

  function ReadLine(r: Reading, line: string): Reading {
    if Trim(line) == TITLE_HEADER then r.(section := InTitle)
    else if Trim(line) == DESCRIPTION_HEADER then r.(section := InDescription)
    else
      match r.section
      case InTitle => if Trim(line) == "" && r.title == "" then r else r.(title := Extend(r.title, line))
      case InDescription => r.(description := Extend(r.description, line))
      case Outside => r
  }

  function ReadLines(r: Reading, lines: seq<string>): Reading {
    if lines == [] then r else ReadLine(ReadLines(r, Init(lines)), Last(lines))
  }

  const START: Reading := Reading(Outside, "", "")

  function NonEmpty(s: string): Option<string> {
    if s == "" then None else Some(s)
  }

  function Parse(buf: string): (string, Option<string>) {
    var r := ReadLines(START, Lines(buf));
    (Trim(r.title), NonEmpty(Trim(r.description)))
  }

  method ParseEditorBuffer(buf: string) returns (title: string, description: Option<string>)
    ensures (title, description) == Parse(buf)
  {
    var lines := Lines(buf);
    var section, t, d := Outside, "", "";
    for i := 0 to |lines|
      invariant Reading(section, t, d) == ReadLines(START, lines[..i])
    {
      var line := lines[i];
      assert Init(lines[..i + 1]) == lines[..i];
      if Trim(line) == TITLE_HEADER {
        section := InTitle;
        continue;
      }
      if Trim(line) == DESCRIPTION_HEADER {
        section := InDescription;
        continue;
      }
      match section {
        case InTitle =>
          if Trim(line) != "" || t != "" {
            if t != "" { t := t + "\n"; }
            t := t + line;
          }
        case InDescription =>
          if d != "" { d := d + "\n"; }
          d := d + line;
        case Outside =>
      }
    }
    assert lines[..|lines|] == lines;
    title := Trim(t);
    var trimmed := Trim(d);
    description := if trimmed == "" then None else Some(trimmed);
  }

  // ── Which texts survive ───────────────────────────────────────────────────

  /** No line of the text reads as a section header. */
  ghost predicate NoHeader(text: string) {
    forall i :: 0 <= i < |Split(text, '\n')| ==> !IsHeader(Split(text, '\n')[i])
  }

  /** No newline of the text follows a return. */
  predicate NoReturn(text: string) {
    forall i :: 0 <= i < |text| - 1 ==> !(text[i] == '\r' && text[i + 1] == '\n')
  }

  predicate Trimmed(s: string) {
    s == "" || (!IsSpace(s[0]) && !IsSpace(Last(s)))
  }

  ghost predicate Survives(text: string) {
    Trimmed(text) && NoHeader(text) && NoReturn(text)
  }

  ghost predicate RoundTrips(title: string, description: string) {
    Parse(Print(title, description)) == (title, NonEmpty(description))
  }

  // ── Trimming ──────────────────────────────────────────────────────────────

  lemma {:induction false} TrimTrims(s: string)
    ensures Trimmed(Trim(s)) && |Trim(s)| <= |s|
    ensures Trimmed(s) ==> Trim(s) == s
  {
    if s != "" && IsSpace(s[0]) { TrimTrims(s[1..]); }
    else if s != "" && IsSpace(Last(s)) { TrimTrims(Init(s)); }
  }

  lemma {:induction false} TrimTail(s: string, c: char)
    requires IsSpace(c)
    ensures Trim(s + [c]) == Trim(s)
  {
    assert Init(s + [c]) == s;
    if s == "" {
      assert ([c])[1..] == "";
    } else if IsSpace(s[0]) {
      TrimTail(s[1..], c);
      assert (s + [c])[1..] == s[1..] + [c];
    }
  }

  lemma TrimHead(c: char, s: string)
    requires IsSpace(c)
    ensures Trim([c] + s) == Trim(s)
  {
    assert ([c] + s)[1..] == s;
  }

  // ── What is read never holds a header ─────────────────────────────────────

  /** What a character in front does to the pieces. */
  predicate HeadSplits(c: char, s: string) {
    Split([c] + s, '\n') ==
      if c == '\n' then [""] + Split(s, '\n') else [[c] + Split(s, '\n')[0]] + Split(s, '\n')[1..]
  }

  lemma {:induction false} SplitHead(c: char, s: string)
    ensures HeadSplits(c, s)
  {
    if s == "" {
      SplitChar(c);
      assert [c] + s == [c];
    } else {
      hide HeadSplits, Split;
      SplitHead(c, Init(s));
      SplitHeadNext(c, Init(s), Last(s));
      assert Init(s) + [Last(s)] == s;
    }
  }

  lemma SplitChar(c: char)
    ensures Split("", '\n') == [""] && Split([c], '\n') == if c == '\n' then ["", ""] else [[c]]
  {
    SplitNext("", '\n', c);
    assert "" + [c] == [c];
  }

  lemma SplitHeadNext(c: char, s: string, d: char)
    requires HeadSplits(c, s)
    ensures HeadSplits(c, s + [d])
  {
    hide Split;
    SplitNext(s, '\n', d);
    SplitNext([c] + s, '\n', d);
    assert [c] + (s + [d]) == [c] + s + [d];
    var r := Split(s, '\n');
    if c != '\n' && d != '\n' && |r| == 1 { assert [c] + r[0] + [d] == [c] + (r[0] + [d]); }
  }

  lemma TailKeepsNoHeader(s: string)
    requires s != "" && IsSpace(s[0]) && NoHeader(s)
    ensures NoHeader(s[1..])
  {
    hide Split;
    var c, rest := s[0], s[1..];
    assert s == [c] + rest;
    SplitHead(c, rest);
    var r, before := Split(rest, '\n'), Split(s, '\n');
    forall i | 0 <= i < |r| ensures !IsHeader(r[i]) {
      if c == '\n' {
        assert before[i + 1] == r[i];
      } else if i > 0 {
        assert before[i] == r[i];
      } else {
        TrimHead(c, r[0]);
        assert before[0] == [c] + r[0];
      }
    }
  }

  lemma InitKeepsNoHeader(s: string)
    requires s != "" && IsSpace(Last(s)) && NoHeader(s)
    ensures NoHeader(Init(s))
  {
    hide Split;
    var c, rest := Last(s), Init(s);
    assert s == rest + [c];
    SplitNext(rest, '\n', c);
    var r, before := Split(rest, '\n'), Split(s, '\n');
    forall i | 0 <= i < |r| ensures !IsHeader(r[i]) {
      if c != '\n' && i == |r| - 1 {
        TrimTail(r[i], c);
        assert before[i] == r[i] + [c];
      } else {
        assert before[i] == r[i];
      }
    }
  }

  lemma {:induction false} TrimKeepsNoHeader(s: string)
    requires NoHeader(s)
    ensures NoHeader(Trim(s))
    decreases |s|
  {
    if s != "" && IsSpace(s[0]) {
      TailKeepsNoHeader(s);
      TrimKeepsNoHeader(s[1..]);
    } else if s != "" && IsSpace(Last(s)) {
      InitKeepsNoHeader(s);
      TrimKeepsNoHeader(Init(s));
    }
  }

  lemma ExtendKeepsNoHeader(text: string, line: string)
    requires NoHeader(text) && Lacks(line, '\n') && !IsHeader(line)
    ensures NoHeader(Extend(text, line))
  {
    hide Split;
    if text == "" {
      SplitOne(line);
    } else {
      SplitMore(text, line);
    }
  }

  lemma SplitOne(line: string)
    requires Lacks(line, '\n')
    ensures Split(line, '\n') == [line]
  {
    SplitAppend("", '\n', line);
    assert "" + line == line && Init([""]) == [];
  }

  lemma SplitMore(text: string, line: string)
    requires Lacks(line, '\n')
    ensures Split(text + "\n" + line, '\n') == Split(text, '\n') + [line]
  {
    hide Split;
    SplitNext(text, '\n', '\n');
    SplitAppend(text + ['\n'], '\n', line);
    assert Init(Split(text, '\n') + [""]) == Split(text, '\n') && "" + line == line;
  }

  lemma EmptyHasNoHeader()
    ensures NoHeader("")
  {
    assert Split("", '\n') == [""];
  }

  lemma {:induction false} ReadKeepsNoHeader(lines: seq<string>)
    requires forall i :: 0 <= i < |lines| ==> Lacks(lines[i], '\n')
    ensures NoHeader(ReadLines(START, lines).title) && NoHeader(ReadLines(START, lines).description)
  {
    if lines == [] {
      EmptyHasNoHeader();
    } else {
      ReadKeepsNoHeader(Init(lines));
      var r, line := ReadLines(START, Init(lines)), Last(lines);
      assert Lacks(line, '\n');
      if !IsHeader(line) {
        ExtendKeepsNoHeader(r.title, line);
        ExtendKeepsNoHeader(r.description, line);
      }
    }
  }

  lemma {:induction false} StripAllEach(lines: seq<string>)
    ensures |StripAll(lines)| == |lines| && forall i :: 0 <= i < |lines| ==> StripAll(lines)[i] == StripReturn(lines[i])
  {
    if lines != [] { StripAllEach(Init(lines)); }
  }

  lemma LinesLackNewlines(buf: string)
    ensures forall i :: 0 <= i < |Lines(buf)| ==> Lacks(Lines(buf)[i], '\n')
  {
    hide Split;
    SplitLacks(buf, '\n');
    var pieces := Split(buf, '\n');
    StripAllEach(Init(pieces));
    forall i | 0 <= i < |Lines(buf)| ensures Lacks(Lines(buf)[i], '\n') {
      assert Lacks(pieces[i], '\n');
    }
  }

  /** Whatever the buffer, no line of what is read is a header. */
  lemma ParsedHasNoHeader(buf: string)
    ensures NoHeader(Parse(buf).0)
    ensures Parse(buf).1.Some? ==> NoHeader(Parse(buf).1.value)
  {
    hide NoHeader, Lines;
    LinesLackNewlines(buf);
    ReadKeepsNoHeader(Lines(buf));
    TrimKeepsNoHeader(ReadLines(START, Lines(buf)).title);
    TrimKeepsNoHeader(ReadLines(START, Lines(buf)).description);
  }

  // ── What the printed buffer reads back as ─────────────────────────────────

  lemma {:induction false} SplitSeparated(a: string, b: string)
    ensures Split(a + "\n" + b, '\n') == Split(a, '\n') + Split(b, '\n')
  {
    if b == "" {
      SplitNext(a, '\n', '\n');
      assert a + "\n" + b == a + ['\n'] && Split("", '\n') == [""];
    } else {
      SplitSeparated(a, Init(b));
      SplitSeparatedNext(a, Init(b), Last(b));
      assert Init(b) + [Last(b)] == b;
    }
  }

  lemma SplitSeparatedNext(a: string, b: string, c: char)
    requires Split(a + "\n" + b, '\n') == Split(a, '\n') + Split(b, '\n')
    ensures Split(a + "\n" + (b + [c]), '\n') == Split(a, '\n') + Split(b + [c], '\n')
  {
    hide Split;
    SplitNext(b, '\n', c);
    SplitNext(a + "\n" + b, '\n', c);
    assert a + "\n" + (b + [c]) == a + "\n" + b + [c];
    var p, q := Split(a, '\n'), Split(b, '\n');
    assert Init(p + q) == p + Init(q) && Last(p + q) == Last(q);
    if c != '\n' { assert p + Init(q) + [Last(q) + [c]] == p + (Init(q) + [Last(q) + [c]]); }
  }

  lemma {:induction false} StripAllConcat(a: seq<string>, b: seq<string>)
    ensures StripAll(a + b) == StripAll(a) + StripAll(b)
  {
    if b == [] {
      assert a + b == a;
    } else {
      StripAllConcat(a, Init(b));
      assert Init(a + b) == a + Init(b);
    }
  }

  /** The lines a text contributes when a newline follows it, and when nothing does. */
  function TitleLines(title: string): seq<string> {
    StripAll(Split(title, '\n'))
  }

  function DescriptionLines(description: string): seq<string> {
    StripAll(Init(Split(description, '\n'))) + [Last(Split(description, '\n'))]
  }

  lemma PrintedPieces(title: string, description: string)
    ensures Split(Print(title, description), '\n')
      == [TITLE_HEADER] + Split(title, '\n') + ["", DESCRIPTION_HEADER] + Split(description, '\n')
  {
    hide Split;
    SplitOne(TITLE_HEADER);
    SplitOne(DESCRIPTION_HEADER);
    SplitOne("");
    SplitSeparated(TITLE_HEADER, title);
    SplitSeparated(TITLE_HEADER + "\n" + title, "");
    SplitSeparated(TITLE_HEADER + "\n" + title + "\n" + "", DESCRIPTION_HEADER);
    SplitSeparated(TITLE_HEADER + "\n" + title + "\n" + "" + "\n" + DESCRIPTION_HEADER, description);
    assert Print(title, description)
      == TITLE_HEADER + "\n" + title + "\n" + "" + "\n" + DESCRIPTION_HEADER + "\n" + description;
  }

  lemma HeadersKept()
    ensures StripAll([TITLE_HEADER]) == [TITLE_HEADER]
    ensures StripAll(["", DESCRIPTION_HEADER]) == ["", DESCRIPTION_HEADER]
  {
    StripAllEach([TITLE_HEADER]);
    StripAllEach(["", DESCRIPTION_HEADER]);
  }

  lemma PrintedLines(title: string, description: string)
    ensures Lines(Print(title, description))
      == [TITLE_HEADER] + TitleLines(title) + ["", DESCRIPTION_HEADER]
         + (if Last(Split(description, '\n')) == "" then Init(DescriptionLines(description)) else DescriptionLines(description))
  {
    hide Split, StripAll;
    PrintedPieces(title, description);
    HeadersKept();
    var t, d := Split(title, '\n'), Split(description, '\n');
    var head := [TITLE_HEADER] + t + ["", DESCRIPTION_HEADER];
    assert Init(head + d) == head + Init(d) && Last(head + d) == Last(d);
    StripAllConcat(head, Init(d));
    StripAllConcat([TITLE_HEADER] + t, ["", DESCRIPTION_HEADER]);
    StripAllConcat([TITLE_HEADER], t);
  }

  lemma {:induction false} ReadConcat(r: Reading, a: seq<string>, b: seq<string>)
    ensures ReadLines(r, a + b) == ReadLines(ReadLines(r, a), b)
  {
    if b == [] {
      assert a + b == a;
    } else {
      ReadConcat(r, a, Init(b));
      assert Init(a + b) == a + Init(b);
    }
  }

  /** Lines that are not headers and start with a line that is not blank are joined as they are. */
  lemma {:induction false} ReadTitle(lines: seq<string>)
    requires lines != [] && Trim(lines[0]) != "" && forall i :: 0 <= i < |lines| ==> !IsHeader(lines[i])
    ensures ReadLines(Reading(InTitle, "", ""), lines) == Reading(InTitle, Join(lines, '\n'), "")
    ensures Join(lines, '\n') != ""
  {
    assert Trim("") == "";
    if |lines| > 1 {
      ReadTitle(Init(lines));
    } else {
      assert Init(lines) == [];
    }
  }

  lemma {:induction false} ReadDescription(title: string, lines: seq<string>)
    requires lines != [] && lines[0] != "" && forall i :: 0 <= i < |lines| ==> !IsHeader(lines[i])
    ensures ReadLines(Reading(InDescription, title, ""), lines) == Reading(InDescription, title, Join(lines, '\n'))
    ensures Join(lines, '\n') != ""
  {
    if |lines| > 1 {
      ReadDescription(title, Init(lines));
    } else {
      assert Init(lines) == [];
    }
  }

  lemma StripKeepsHeader(line: string)
    ensures Trim(StripReturn(line)) == Trim(line)
  {
    if line != "" && Last(line) == '\r' {
      TrimTail(Init(line), '\r');
      assert Init(line) + ['\r'] == line;
    }
  }

  /** The first line of a trimmed text starts as the text does, and the last one ends as it does. */
  lemma {:induction false} FirstPiece(s: string)
    ensures s != "" && s[0] != '\n' ==> Split(s, '\n')[0] != "" && Split(s, '\n')[0][0] == s[0]
  {
    if |s| > 1 {
      FirstPiece(Init(s));
    } else if |s| == 1 {
      SplitNext("", '\n', s[0]);
      assert s == "" + [s[0]] && Split("", '\n') == [""];
    }
  }

  lemma LastPiece(s: string)
    ensures s != "" && Last(s) != '\n' ==> Last(Split(s, '\n')) != "" && Last(Last(Split(s, '\n'))) == Last(s)
    ensures s == "" || Last(s) == '\n' ==> Last(Split(s, '\n')) == ""
  {
    if s != "" {
      SplitNext(Init(s), '\n', Last(s));
      assert Init(s) + [Last(s)] == s;
    }
  }

  lemma NotBlank(line: string)
    requires line != "" && !IsSpace(line[0])
    ensures Trim(line) != ""
    decreases |line|
  {
    if IsSpace(Last(line)) { NotBlank(Init(line)); }
  }

  lemma StripKeepsStart(line: string)
    requires line != "" && !IsSpace(line[0])
    ensures StripReturn(line) != "" && StripReturn(line)[0] == line[0] && Trim(StripReturn(line)) != ""
  {
    NotBlank(StripReturn(line));
  }

  /** For a trimmed text both ways of contributing lines agree. */
  lemma SameLines(text: string)
    requires Trimmed(text)
    ensures TitleLines(text) == DescriptionLines(text)
  {
    hide Split;
    LastPiece(text);
    var pieces := Split(text, '\n');
    assert pieces == Init(pieces) + [Last(pieces)];
    assert StripReturn(Last(pieces)) == Last(pieces);
  }

  lemma NoHeaderLines(text: string)
    requires NoHeader(text) && Trimmed(text)
    ensures forall i :: 0 <= i < |DescriptionLines(text)| ==> !IsHeader(DescriptionLines(text)[i])
  {
    hide Split, Trim;
    var pieces, lines := Split(text, '\n'), DescriptionLines(text);
    StripAllEach(Init(pieces));
    forall i | 0 <= i < |lines| ensures !IsHeader(lines[i]) {
      StripKeepsHeader(pieces[i]);
      assert !IsHeader(pieces[i]);
    }
  }

  lemma FirstLine(text: string)
    requires Trimmed(text) && text != ""
    ensures DescriptionLines(text)[0] != "" && Trim(DescriptionLines(text)[0]) != ""
  {
    hide Split, Trim;
    FirstPiece(text);
    var pieces := Split(text, '\n');
    StripAllEach(Init(pieces));
    NotBlank(pieces[0]);
    StripKeepsStart(pieces[0]);
  }

  /** The text as it is read back: its lines, each without a return at its end, joined again. */
  function Rejoined(text: string): string {
    Join(DescriptionLines(text), '\n')
  }

  lemma EmptyLines()
    ensures TitleLines("") == [""] && DescriptionLines("") == [""] && Rejoined("") == ""
  {
    assert Split("", '\n') == [""];
  }

  lemma ReadTitleLines(title: string)
    requires Trimmed(title) && NoHeader(title)
    ensures ReadLines(Reading(InTitle, "", ""), TitleLines(title)) == Reading(InTitle, Rejoined(title), "")
    ensures title != "" ==> Rejoined(title) != ""
  {
    hide NoHeader, TitleLines, DescriptionLines;
    if title == "" {
      EmptyLines();
      assert Init([""]) == [] && Trim("") == "";
    } else {
      SameLines(title);
      NoHeaderLines(title);
      FirstLine(title);
      NonEmptyLines(title);
      ReadTitle(TitleLines(title));
    }
  }

  lemma NonEmptyLines(text: string)
    ensures DescriptionLines(text) != []
  {
  }

  /** The blank line and the header between the two texts. */
  lemma ReadBetween(t: string)
    ensures ReadLines(Reading(InTitle, t, ""), ["", DESCRIPTION_HEADER])
      == Reading(InDescription, if t == "" then t else t + "\n", "")
  {
    hide Trim;
    HeadersAreHeaders();
    TrimTrims("");
    var start := Reading(InTitle, t, "");
    var between := Reading(InTitle, if t == "" then t else t + "\n", "");
    assert t + "\n" + "" == t + "\n";
    assert ReadLine(start, "") == between;
    assert ReadLines(start, [""]) == between by { assert Init([""]) == []; }
    assert Init(["", DESCRIPTION_HEADER]) == [""];
  }

  lemma HeadersAreHeaders()
    ensures Trim(TITLE_HEADER) == TITLE_HEADER && Trim(DESCRIPTION_HEADER) == DESCRIPTION_HEADER
    ensures TITLE_HEADER != DESCRIPTION_HEADER && TITLE_HEADER != "" && DESCRIPTION_HEADER != ""
  {
    TrimTrims(TITLE_HEADER);
    TrimTrims(DESCRIPTION_HEADER);
    assert |TITLE_HEADER| == 7 && |DESCRIPTION_HEADER| == 13;
  }

  lemma ReadDescriptionLines(title: string, description: string)
    requires Trimmed(description) && NoHeader(description)
    ensures var lines := DescriptionLines(description);
      ReadLines(Reading(InDescription, title, ""), if Last(Split(description, '\n')) == "" then Init(lines) else lines)
      == Reading(InDescription, title, Rejoined(description))
  {
    hide NoHeader, DescriptionLines, Split;
    LastPiece(description);
    if description == "" {
      EmptyLines();
      assert Init([""]) == [];
    } else {
      NoHeaderLines(description);
      FirstLine(description);
      NonEmptyLines(description);
      ReadDescription(title, DescriptionLines(description));
    }
  }

  /** Printed and parsed again, trimmed texts without headers come back rejoined and trimmed. */
  lemma ParsePrinted(title: string, description: string)
    requires Trimmed(title) && NoHeader(title) && Trimmed(description) && NoHeader(description)
    ensures Parse(Print(title, description)) == (Trim(Rejoined(title)), NonEmpty(Trim(Rejoined(description))))
  {
    hide NoHeader, TitleLines, DescriptionLines, Split, Rejoined, Lines, ReadLines, Print;
    PrintedLines(title, description);
    NonEmptyLines(description);
    var t := TitleLines(title);
    var d := if Last(Split(description, '\n')) == "" then Init(DescriptionLines(description)) else DescriptionLines(description);
    ReadConcat(START, [TITLE_HEADER] + t + ["", DESCRIPTION_HEADER], d);
    ReadConcat(START, [TITLE_HEADER] + t, ["", DESCRIPTION_HEADER]);
    ReadConcat(START, [TITLE_HEADER], t);
    ReadStart();
    ReadTitleLines(title);
    ReadBetween(Rejoined(title));
    ReadDescriptionLines(if Rejoined(title) == "" then Rejoined(title) else Rejoined(title) + "\n", description);
    TrimTail(Rejoined(title), '\n');
    assert Rejoined(title) + ['\n'] == Rejoined(title) + "\n";
  }

  lemma ReadStart()
    ensures ReadLines(START, [TITLE_HEADER]) == Reading(InTitle, "", "")
  {
    HeadersAreHeaders();
    assert Init([TITLE_HEADER]) == [];
  }

  // ── What any buffer reads as ──────────────────────────────────────────────

  predicate Blank(s: string) {
    forall i :: 0 <= i < |s| ==> IsSpace(s[i])
  }

  lemma {:induction false} TrimsAway(s: string)
    requires Trim(s) == ""
    ensures Blank(s)
  {
    if s != "" && IsSpace(s[0]) { TrimsAway(s[1..]); }
    else if s != "" && IsSpace(Last(s)) { TrimsAway(Init(s)); }
  }

  lemma {:induction false} BlankInFront(w: string, s: string)
    requires Blank(w)
    ensures Trim(w + s) == Trim(s)
  {
    if w == "" {
      assert w + s == s;
    } else {
      BlankInFront(w[1..], s);
      TrimHead(w[0], w[1..] + s);
      assert w + s == [w[0]] + (w[1..] + s);
    }
  }

  /** The text collected so far is the lines joined, but for blanks in front. */
  ghost predicate Collects(text: string, lines: seq<string>) {
    exists w :: Blank(w) && Join(lines, '\n') == w + text
  }

  lemma CollectsNext(text: string, lines: seq<string>, line: string)
    requires Collects(text, lines)
    ensures Collects(Extend(text, line), lines + [line])
    ensures text == "" && Blank(line) ==> Collects("", lines + [line])
  {
    hide Join, Blank;
    var w :| Blank(w) && Join(lines, '\n') == w + text;
    JoinNext(lines, '\n', line);
    if lines == [] {
      EmptyJoin();
      assert line == "" + line && line + "" == line;
      BlankEmpty();
      assert w + text == "" && text == "";
    } else if text == "" {
      BlankThen(w, '\n');
      assert w + text + ['\n'] + line == (w + ['\n']) + line;
      if Blank(line) { BlankConcat(w + ['\n'], line); assert (w + ['\n'] + line) + "" == w + ['\n'] + line; }
    } else {
      assert w + text + ['\n'] + line == w + (text + "\n" + line);
    }
  }

  lemma EmptyJoin()
    ensures Join([], '\n') == ""
  {
  }

  lemma BlankEmpty()
    ensures Blank("")
  {
  }

  lemma BlankThen(w: string, c: char)
    requires Blank(w) && IsSpace(c)
    ensures Blank(w + [c])
  {
  }

  lemma BlankConcat(a: string, b: string)
    requires Blank(a) && Blank(b)
    ensures Blank(a + b)
  {
  }

  /** No line of these is a header. */
  ghost predicate Plain(lines: seq<string>) {
    forall i :: 0 <= i < |lines| ==> Trim(lines[i]) != "# Title" && Trim(lines[i]) != "# Description"
  }

  /** Before the first header nothing is read. */
  lemma {:induction false} NothingOutside(lines: seq<string>)
    requires Plain(lines)
    ensures ReadLines(START, lines) == START
  {
    if lines != [] {
      NothingOutside(Init(lines));
      assert Plain(Init(lines)) && Last(lines) == lines[|lines| - 1];
    }
  }

  lemma {:induction false} TitleCollects(lines: seq<string>)
    requires Plain(lines)
    ensures var r := ReadLines(Reading(InTitle, "", ""), lines);
      r.section == InTitle && r.description == "" && Collects(r.title, lines)
  {
    hide Trim;
    if lines == [] {
      NothingCollected();
    } else {
      assert Plain(Init(lines)) && Last(lines) == lines[|lines| - 1];
      TitleCollects(Init(lines));
      var r := ReadLines(Reading(InTitle, "", ""), Init(lines));
      hide Collects, Extend;
      CollectsNext(r.title, Init(lines), Last(lines));
      assert lines == Init(lines) + [Last(lines)];
      if Trim(Last(lines)) == "" { TrimsAway(Last(lines)); }
    }
  }

  lemma NothingCollected()
    ensures Collects("", [])
  {
    assert Blank("") && Join([], '\n') == "" + "";
  }

  lemma {:induction false} DescriptionCollects(title: string, lines: seq<string>)
    requires Plain(lines)
    ensures var r := ReadLines(Reading(InDescription, title, ""), lines);
      r.section == InDescription && r.title == title && Collects(r.description, lines)
  {
    hide Trim;
    if lines == [] {
      NothingCollected();
    } else {
      assert Plain(Init(lines)) && Last(lines) == lines[|lines| - 1];
      DescriptionCollects(title, Init(lines));
      var r := ReadLines(Reading(InDescription, title, ""), Init(lines));
      hide Collects, Extend;
      CollectsNext(r.description, Init(lines), Last(lines));
      assert lines == Init(lines) + [Last(lines)];
    }
  }

  lemma CollectedTrims(text: string, lines: seq<string>)
    requires Collects(text, lines)
    ensures Trim(text) == Trim(Join(lines, '\n'))
  {
    var w :| Blank(w) && Join(lines, '\n') == w + text;
    BlankInFront(w, text);
  }

  /**
   * What a buffer reads as: the title is everything between the title header and the description header,
   * the description everything after it, each trimmed; what stands above the title header is not read.
   */
  lemma SectionsAreRead(buf: string, above: seq<string>, header: string, title: seq<string>, second: string, description: seq<string>)
    requires Lines(buf) == above + [header] + title + [second] + description
    requires Trim(header) == "# Title" && Trim(second) == "# Description"
    requires Plain(above) && Plain(title) && Plain(description)
    ensures Parse(buf) == (Trim(Join(title, '\n')), NonEmpty(Trim(Join(description, '\n'))))
  {
    hide Plain, Lines, Trim, Join, Collects;
    NothingOutside(above);
    ReadConcat(START, above + [header] + title + [second], description);
    ReadConcat(START, above + [header] + title, [second]);
    ReadConcat(START, above + [header], title);
    ReadConcat(START, above, [header]);
    OneHeader(START, header);
    TitleCollects(title);
    var r := ReadLines(Reading(InTitle, "", ""), title);
    OneHeader(r, second);
    DescriptionCollects(r.title, description);
    CollectedTrims(r.title, title);
    CollectedTrims(ReadLines(Reading(InDescription, r.title, ""), description).description, description);
  }

  lemma OneHeader(r: Reading, header: string)
    ensures Trim(header) == "# Title" ==> ReadLines(r, [header]) == r.(section := InTitle)
    ensures Trim(header) == "# Description" ==> ReadLines(r, [header]) == r.(section := InDescription)
  {
    hide Trim;
    assert Init([header]) == [] && Last([header]) == header;
    assert ReadLines(r, []) == r;
    assert "# Title" != "# Description" by { assert |"# Title"| != |"# Description"|; }
  }

  // ── Returns ───────────────────────────────────────────────────────────────

  function TotalLength(lines: seq<string>): nat {
    if lines == [] then 0 else TotalLength(Init(lines)) + |Last(lines)|
  }

  lemma {:induction false} JoinLength(lines: seq<string>)
    requires lines != []
    ensures |Join(lines, '\n')| == TotalLength(lines) + |lines| - 1
  {
    if |lines| > 1 {
      JoinLength(Init(lines));
    } else {
      assert Init(lines) == [];
    }
  }

  predicate EndsInReturn(line: string) {
    line != "" && Last(line) == '\r'
  }

  lemma StrippedLine(line: string)
    ensures |StripReturn(line)| == if EndsInReturn(line) then |line| - 1 else |line|
  {
  }

  lemma StripNext(lines: seq<string>)
    requires lines != []
    ensures StripAll(lines) == StripAll(Init(lines)) + [StripReturn(Last(lines))]
    ensures TotalLength(StripAll(lines)) == TotalLength(StripAll(Init(lines))) + |StripReturn(Last(lines))|
  {
    assert Init(StripAll(lines)) == StripAll(Init(lines));
  }

  /** Stripping lengthens nothing. */
  lemma {:induction false} StripNeverLengthens(lines: seq<string>)
    ensures TotalLength(StripAll(lines)) <= TotalLength(lines)
  {
    if lines != [] {
      hide StripAll, StripReturn, EndsInReturn;
      StripNeverLengthens(Init(lines));
      StripNext(lines);
      StrippedLine(Last(lines));
    }
  }

  /** A line that ends in a return makes the stripped lines shorter. */
  lemma {:induction false} StripShortens(lines: seq<string>, i: nat)
    requires i < |lines| && EndsInReturn(lines[i])
    ensures TotalLength(StripAll(lines)) < TotalLength(lines)
  {
    hide StripAll, StripReturn, EndsInReturn;
    StripNext(lines);
    StrippedLine(Last(lines));
    if i < |lines| - 1 {
      StripShortens(Init(lines), i);
    } else {
      StripNeverLengthens(Init(lines));
    }
  }

  /** Lines none of which ends in a return stay as they are. */
  lemma StripLeaves(lines: seq<string>)
    requires forall i :: 0 <= i < |lines| ==> !EndsInReturn(lines[i])
    ensures StripAll(lines) == lines
  {
    hide StripAll;
    StripAllEach(lines);
  }

  /** Of all lines but the last. */
  ghost predicate NoLineEndsInReturn(lines: seq<string>) {
    forall i :: 0 <= i < |lines| - 1 ==> !EndsInReturn(lines[i])
  }

  /** A line before the last ends in a return exactly where a newline follows a return. */
  lemma {:induction false} ReturnsAreLineEnds(s: string)
    ensures NoReturn(s) <==> NoLineEndsInReturn(Split(s, '\n'))
  {
    if s != "" {
      ReturnsAreLineEnds(Init(s));
      ReturnsNext(Init(s), Last(s));
      assert Init(s) + [Last(s)] == s;
    }
  }

  lemma ReturnsNext(s: string, c: char)
    requires NoReturn(s) <==> NoLineEndsInReturn(Split(s, '\n'))
    ensures NoReturn(s + [c]) <==> NoLineEndsInReturn(Split(s + [c], '\n'))
  {
    hide Split;
    SplitNext(s, '\n', c);
    LastPiece(s);
    var r, r' := Split(s, '\n'), Split(s + [c], '\n');
    NoReturnNext(s, c);
    if c == '\n' {
      assert r == Init(r) + [Last(r)];
      assert EndsInReturn(r[|r| - 1]) <==> s != "" && Last(s) == '\r';
      assert forall i :: 0 <= i < |r| ==> r'[i] == r[i];
    } else {
      assert |r'| == |r| && forall i :: 0 <= i < |r| - 1 ==> r'[i] == r[i];
    }
  }

  lemma NoReturnNext(s: string, c: char)
    ensures NoReturn(s + [c]) <==> NoReturn(s) && !(c == '\n' && s != "" && Last(s) == '\r')
  {
    var t := s + [c];
    assert forall i :: 0 <= i < |s| ==> t[i] == s[i];
    if !NoReturn(s) {
      var i :| 0 <= i < |s| - 1 && s[i] == '\r' && s[i + 1] == '\n';
      assert t[i] == '\r' && t[i + 1] == '\n';
    }
    if NoReturn(s) && c == '\n' && s != "" && Last(s) == '\r' {
      assert t[|s| - 1] == '\r' && t[|s| - 1 + 1] == '\n';
    }
  }

  /** A trimmed text reads back as itself exactly when no newline in it follows a return. */
  lemma RejoinedIff(text: string)
    requires Trimmed(text)
    ensures Trim(Rejoined(text)) == text <==> NoReturn(text)
  {
    hide Split, Trim, Join;
    var pieces := Split(text, '\n');
    var front, last := Init(pieces), Last(pieces);
    assert pieces == front + [last];
    ReturnsAreLineEnds(text);
    JoinSplit(text, '\n');
    TrimTrims(text);
    TrimTrims(Rejoined(text));
    if NoReturn(text) {
      assert forall i :: 0 <= i < |front| ==> front[i] == pieces[i];
      StripLeaves(front);
      assert DescriptionLines(text) == pieces;
    } else {
      var i :| 0 <= i < |pieces| - 1 && EndsInReturn(pieces[i]);
      assert front[i] == pieces[i];
      StripShortens(front, i);
      StripAllEach(front);
      Shorter(front, last);
    }
  }

  lemma Shorter(front: seq<string>, last: string)
    requires TotalLength(StripAll(front)) < TotalLength(front) && |StripAll(front)| == |front|
    ensures |Join(StripAll(front) + [last], '\n')| < |Join(front + [last], '\n')|
  {
    hide Join, StripAll;
    var a, b := StripAll(front) + [last], front + [last];
    JoinLength(a);
    JoinLength(b);
    assert Init(a) == StripAll(front) && Init(b) == front;
  }

  /**
   * The round trip.  Printing and parsing gives a title and a description back - an empty
   * description as none - exactly when both are trimmed, contain no line that reads as a section
   * header, and contain no newline after a return.
   */
  lemma RoundTripIff(title: string, description: string)
    ensures RoundTrips(title, description) <==> Survives(title) && Survives(description)
  {
    hide NoHeader, Parse, Print, Rejoined, Trim, NoReturn;
    if RoundTrips(title, description) {
      ReadBackIsClean(title, description);
    }
    if Trimmed(title) && NoHeader(title) && Trimmed(description) && NoHeader(description) {
      ParsePrinted(title, description);
      RejoinedIff(title);
      RejoinedIff(description);
    }
  }

  lemma ReadBackIsClean(title: string, description: string)
    requires RoundTrips(title, description)
    ensures Trimmed(title) && NoHeader(title) && Trimmed(description) && NoHeader(description)
  {
    hide NoHeader, Print, Lines, ReadLines;
    var buf := Print(title, description);
    ParsedHasNoHeader(buf);
    TrimTrims(ReadLines(START, Lines(buf)).title);
    TrimTrims(ReadLines(START, Lines(buf)).description);
    EmptyHasNoHeader();
  }
}
