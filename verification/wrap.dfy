/** Greedy word wrap, and why no other way of breaking a paragraph needs fewer lines. */
module WordWrap {
  import opened Texts

  /** A line as its words. */
  type Line = seq<string>

  /** Bytes of a line's words with single blanks between them. */
  function LineSize(line: Line): nat {
    if line == [] then 0
    else if |line| == 1 then Size(line[0])
    else LineSize(Init(line)) + 1 + Size(Last(line))
  }

  lemma LineSizeNext(line: Line, w: string)
    ensures LineSize(line + [w]) == if line == [] then Size(w) else LineSize(line) + 1 + Size(w)
  {
    assert Init(line + [w]) == line;
  }

  lemma {:induction false} SizeOfJoin(line: Line)
    ensures Size(Join(line, ' ')) == LineSize(line)
  {
    if |line| > 1 {
      SizeOfJoin(Init(line));
      SizeOfParts(Join(Init(line), ' '), Last(line));
    }
  }

  lemma SizeOfParts(a: string, b: string)
    ensures Size(a + [' '] + b) == Size(a) + 1 + Size(b)
  {
    SizeConcat(a, [' ']);
    SizeConcat(a + [' '], b);
    assert [' '][..0] == [];
  }

  /** The next word goes on the last line if it fits there, and on a new line otherwise. */
  function Fill(lines: seq<Line>, w: string, width: nat): seq<Line> {
    if lines != [] && LineSize(Last(lines)) + 1 + Size(w) <= width
    then Init(lines) + [Last(lines) + [w]]
    else lines + [[w]]
  }

  function Greedy(words: seq<string>, width: nat): seq<Line> {
    if words == [] then [] else Fill(Greedy(Init(words), width), Last(words), width)
  }

  // ── What a breaking is ────────────────────────────────────────────────────

  function Flatten(lines: seq<Line>): seq<string> {
    if lines == [] then [] else Flatten(Init(lines)) + Last(lines)
  }

  predicate Fits(line: Line, width: nat) {
    line != [] && (|line| == 1 || LineSize(line) <= width)
  }

  /** The lines hold the words in order, and each fits or is a single word. */
  predicate Breaks(lines: seq<Line>, words: seq<string>, width: nat) {
    Flatten(lines) == words && forall i :: 0 <= i < |lines| ==> Fits(lines[i], width)
  }

  /** No line could take the first word of the next one. */
  predicate Full(lines: seq<Line>, width: nat)
    requires forall i :: 0 <= i < |lines| ==> lines[i] != []
  {
    forall i :: 0 <= i < |lines| - 1 ==> LineSize(lines[i]) + 1 + Size(lines[i + 1][0]) > width
  }

  lemma FlattenNext(lines: seq<Line>, line: Line)
    ensures Flatten(lines + [line]) == Flatten(lines) + line
  {
    assert Init(lines + [line]) == lines;
  }

  lemma {:induction false} GreedyBreaks(words: seq<string>, width: nat)
    ensures Breaks(Greedy(words, width), words, width) && Full(Greedy(words, width), width)
  {
    hide Fill, Fits, LineSize, Size;
    if words != [] {
      GreedyBreaks(Init(words), width);
      FillKeeps(Greedy(Init(words), width), Init(words), Last(words), width);
      GreedyNext(Init(words), Last(words), width);
      assert Init(words) + [Last(words)] == words;
    }
  }

  lemma GreedyNext(words: seq<string>, w: string, width: nat)
    ensures Greedy(words + [w], width) == Fill(Greedy(words, width), w, width)
  {
    assert Init(words + [w]) == words;
  }

  lemma FillKeeps(lines: seq<Line>, words: seq<string>, w: string, width: nat)
    requires Breaks(lines, words, width) && Full(lines, width)
    ensures Breaks(Fill(lines, w, width), words + [w], width) && Full(Fill(lines, w, width), width)
  {
    if lines != [] && LineSize(Last(lines)) + 1 + Size(w) <= width {
      ExtendKeeps(lines, words, w, width);
    } else {
      FlattenNext(lines, [w]);
      var r := lines + [[w]];
      assert forall i :: 0 <= i < |lines| ==> r[i] == lines[i];
    }
  }

  lemma ExtendKeeps(lines: seq<Line>, words: seq<string>, w: string, width: nat)
    requires Breaks(lines, words, width) && Full(lines, width)
    requires lines != [] && LineSize(Last(lines)) + 1 + Size(w) <= width
    ensures Breaks(Init(lines) + [Last(lines) + [w]], words + [w], width)
    ensures Full(Init(lines) + [Last(lines) + [w]], width)
  {
    var front, last := Init(lines), Last(lines);
    var r := front + [last + [w]];
    assert lines == front + [last] && Fits(lines[|lines| - 1], width);
    assert Flatten(r) == words + [w] by {
      FlattenNext(front, last);
      FlattenNext(front, last + [w]);
      assert (Flatten(front) + last) + [w] == Flatten(front) + (last + [w]);
    }
    assert forall i :: 0 <= i < |r| - 1 ==> r[i] == lines[i];
    assert Fits(last + [w], width) by { LineSizeNext(last, w); }
    assert r[|r| - 1][0] == last[0];
  }

  // ── Taking the last word off a breaking ───────────────────────────────────

  function Shorten(lines: seq<Line>): seq<Line>
    requires lines != [] && Last(lines) != []
  {
    if |Last(lines)| == 1 then Init(lines) else Init(lines) + [Init(Last(lines))]
  }

  lemma LineSizeInit(line: Line)
    requires |line| > 1
    ensures LineSize(Init(line)) < LineSize(line)
  {
  }

  lemma ShortenBreaks(lines: seq<Line>, words: seq<string>, width: nat)
    requires Breaks(lines, words, width) && words != []
    ensures lines != [] && Last(lines) != [] && Last(Last(lines)) == Last(words)
    ensures Breaks(Shorten(lines), Init(words), width)
    ensures Full(lines, width) ==> Full(Shorten(lines), width)
  {
    assert lines != [];
    var front, last := Init(lines), Last(lines);
    assert Fits(lines[|lines| - 1], width);
    assert last == Init(last) + [Last(last)] && lines == front + [last];
    FlattenNext(front, Init(last));
    assert words == Flatten(front) + Init(last) + [Last(last)];
    assert Init(words) == Flatten(front) + Init(last);
    if |last| > 1 {
      LineSizeInit(last);
      assert Init(last)[0] == last[0];
    }
  }

  /** Being a valid breaking in which no line could take the next word determines the lines. */
  lemma {:induction false} GreedyIsOnly(lines: seq<Line>, words: seq<string>, width: nat)
    requires Breaks(lines, words, width) && Full(lines, width)
    ensures lines == Greedy(words, width)
    decreases |words|
  {
    if words == [] {
      if lines != [] { LinesHaveWords(lines, words, width); }
    } else {
      ShortenBreaks(lines, words, width);
      GreedyIsOnly(Shorten(lines), Init(words), width);
      FillShortened(lines, words, width);
    }
  }

  lemma LinesHaveWords(lines: seq<Line>, words: seq<string>, width: nat)
    requires Breaks(lines, words, width) && lines != []
    ensures words != []
  {
    assert Fits(lines[|lines| - 1], width);
  }

  lemma FillShortened(lines: seq<Line>, words: seq<string>, width: nat)
    requires Breaks(lines, words, width) && Full(lines, width) && lines != [] && Last(lines) != []
    ensures Fill(Shorten(lines), Last(Last(lines)), width) == lines
  {
    var front, last := Init(lines), Last(lines);
    assert Fits(lines[|lines| - 1], width);
    assert lines == front + [last];
    if |last| > 1 {
      FillRejoins(front, last, width);
    } else {
      assert last == [Last(last)];
      if front != [] { assert LineSize(lines[|lines| - 2]) + 1 + Size(lines[|lines| - 1][0]) > width; }
    }
  }

  lemma FillRejoins(front: seq<Line>, last: Line, width: nat)
    requires |last| > 1 && LineSize(last) <= width
    ensures Fill(front + [Init(last)], Last(last), width) == front + [last]
  {
    hide LineSize;
    assert last == Init(last) + [Last(last)];
    LineSizeNext(Init(last), Last(last));
    assert Init(front + [Init(last)]) == front;
  }

  // ── Greedy stays ahead ────────────────────────────────────────────────────

  /** `a` is the end of `s`. */
  predicate Ends(s: seq<string>, a: seq<string>) {
    |a| <= |s| && s[|s| - |a|..] == a
  }

  lemma {:induction false} ShorterEndIsSmaller(s: seq<string>, a: Line, b: Line)
    requires Ends(s, a) && Ends(s, b) && |a| <= |b|
    ensures LineSize(a) <= LineSize(b)
    decreases |a|
  {
    if |a| > 1 {
      assert Last(a) == Last(s) && Last(b) == Last(s);
      assert Ends(Init(s), Init(a)) && Ends(Init(s), Init(b));
      ShorterEndIsSmaller(Init(s), Init(a), Init(b));
    } else if |a| == 1 {
      assert a[0] == Last(s) && Last(b) == Last(s);
    }
  }

  lemma LastLineEnds(lines: seq<Line>)
    requires lines != []
    ensures Ends(Flatten(lines), Last(lines))
  {
  }

  /** Fewer lines, or as many and a last line with no more words. */
  predicate Ahead(a: seq<Line>, b: seq<Line>) {
    |a| < |b| || (|a| == |b| && (a == [] || |Last(a)| <= |Last(b)|))
  }

  lemma {:induction false} GreedyStaysAhead(words: seq<string>, width: nat, other: seq<Line>)
    requires Breaks(other, words, width)
    ensures Ahead(Greedy(words, width), other)
    decreases |words|
  {
    if words != [] {
      ShortenBreaks(other, words, width);
      GreedyStaysAhead(Init(words), width, Shorten(other));
      GreedyBreaks(Init(words), width);
      FillStaysAhead(Greedy(Init(words), width), other, words, width);
    }
  }

  lemma FillStaysAhead(lines: seq<Line>, other: seq<Line>, words: seq<string>, width: nat)
    requires words != [] && Breaks(lines, Init(words), width) && Breaks(other, words, width)
    requires other != [] && Last(other) != [] && Ahead(lines, Shorten(other)) && Last(Last(other)) == Last(words)
    requires Breaks(Shorten(other), Init(words), width)
    ensures Ahead(Fill(lines, Last(words), width), other)
  {
    if |Last(other)| > 1 && |lines| == |other| {
      assert Fits(other[|other| - 1], width);
      assert Last(Shorten(other)) + [Last(words)] == Last(other);
      LastLineHasRoom(lines, Shorten(other), Init(words), Last(words), width);
    }
  }

  /** If the other breaking's last line can take the word, so can greedy's, which is no longer. */
  lemma LastLineHasRoom(lines: seq<Line>, other: seq<Line>, words: seq<string>, w: string, width: nat)
    requires Breaks(lines, words, width) && Breaks(other, words, width) && lines != [] && other != []
    requires Last(other) != [] && |Last(lines)| <= |Last(other)| && LineSize(Last(other) + [w]) <= width
    ensures LineSize(Last(lines)) + 1 + Size(w) <= width
  {
    hide LineSize, Flatten, Fits, Ends, Size;
    LastLineEnds(lines);
    LastLineEnds(other);
    ShorterEndIsSmaller(words, Last(lines), Last(other));
    LineSizeNext(Last(other), w);
  }

  // ── Text ──────────────────────────────────────────────────────────────────

  function Rendered(lines: seq<Line>): seq<string> {
    if lines == [] then [] else Rendered(Init(lines)) + [Join(Last(lines), ' ')]
  }

  function ParagraphLines(p: string, width: nat): seq<string> {
    if p == "" then [""] else Rendered(Greedy(Words(p), width))
  }

  function Wrapped(paragraphs: seq<string>, width: nat): seq<string> {
    if paragraphs == [] then []
    else Wrapped(Init(paragraphs), width) + ParagraphLines(Last(paragraphs), width)
  }

  lemma {:induction false} RenderedLines(lines: seq<Line>)
    ensures |Rendered(lines)| == |lines| && forall i :: 0 <= i < |lines| ==> Rendered(lines)[i] == Join(lines[i], ' ')
  {
    if lines != [] { RenderedLines(Init(lines)); }
  }

  function AllWords(lines: seq<string>): seq<string> {
    if lines == [] then [] else AllWords(Init(lines)) + Words(Last(lines))
  }

  /** Each line as its words. */
  function AsWords(lines: seq<string>): seq<Line> {
    if lines == [] then [] else AsWords(Init(lines)) + [Words(Last(lines))]
  }

  lemma {:induction false} AsWordsEach(lines: seq<string>)
    ensures |AsWords(lines)| == |lines| && forall i :: 0 <= i < |lines| ==> AsWords(lines)[i] == Words(lines[i])
  {
    hide Words;
    if lines != [] { AsWordsEach(Init(lines)); }
  }

  lemma {:induction false} AsWordsFlat(lines: seq<string>)
    ensures Flatten(AsWords(lines)) == AllWords(lines)
  {
    hide Words;
    if lines != [] {
      AsWordsFlat(Init(lines));
      FlattenNext(AsWords(Init(lines)), Words(Last(lines)));
    }
  }

  ghost predicate AreWords(words: seq<string>) {
    forall i :: 0 <= i < |words| ==> IsWord(words[i])
  }

  lemma {:induction false} FlattenWords(lines: seq<Line>)
    requires AreWords(Flatten(lines))
    ensures forall i :: 0 <= i < |lines| ==> AreWords(lines[i])
  {
    if lines != [] {
      var front, last := Flatten(Init(lines)), Last(lines);
      forall k | 0 <= k < |front| ensures IsWord(front[k]) { assert (front + last)[k] == front[k]; }
      forall k | 0 <= k < |last| ensures IsWord(last[k]) { assert (front + last)[|front| + k] == last[k]; }
      FlattenWords(Init(lines));
    }
  }

  lemma {:induction false} RenderedAsWords(lines: seq<Line>)
    requires AreWords(Flatten(lines))
    ensures AsWords(Rendered(lines)) == lines
  {
    FlattenWords(lines);
    RenderedLines(lines);
    AsWordsEach(Rendered(lines));
    forall i | 0 <= i < |lines| ensures AsWords(Rendered(lines))[i] == lines[i] {
      WordsOfJoin(lines[i]);
    }
  }

  lemma LineSizeGrows(line: Line, c: char)
    requires line != []
    ensures LineSize(Init(line) + [Last(line) + [c]]) == LineSize(line) + CharSize(c)
  {
    LineSizeNext(Init(line), Last(line));
    LineSizeNext(Init(line), Last(line) + [c]);
    assert Init(Last(line) + [c]) == Last(line);
    assert Init(line) + [Last(line)] == line;
  }

  lemma LineSizeNewWord(line: Line, c: char)
    ensures LineSize(line + [[c]]) == LineSize(line) + (if line == [] then 0 else 1) + CharSize(c)
  {
    LineSizeNext(line, [c]);
    assert [c][..0] == [];
  }

  /** White space between words takes at least a byte. */
  lemma {:induction false} WordsFitText(s: string)
    ensures LineSize(Words(s)) <= Size(s)
    ensures Words(s) != [] && IsSpace(Last(s)) ==> LineSize(Words(s)) + 1 <= Size(s)
    ensures s == [] ==> Words(s) == []
  {
    if s != [] {
      WordsFitText(Init(s));
      var ws, c := Words(Init(s)), Last(s);
      hide LineSize;
      LineSizeNewWord(ws, c);
      if ws != [] { LineSizeGrows(ws, c); }
    }
  }

  /**
   * The lines of a paragraph: its words in order, single blanks between them, each line fitting or a single
   * word, none with room for the next word.
   */
  lemma ParagraphIsBroken(p: string, width: nat)
    requires p != ""
    ensures var lines := ParagraphLines(p, width);
      && AllWords(lines) == Words(p)
      && (forall i :: 0 <= i < |lines| ==> lines[i] == Join(Words(lines[i]), ' '))
      && (forall i :: 0 <= i < |lines| ==> Words(lines[i]) != [] && (Size(lines[i]) <= width || |Words(lines[i])| == 1))
      && (forall i :: 0 <= i < |lines| - 1 ==> Size(lines[i]) + 1 + Size(Words(lines[i + 1])[0]) > width)
  {
    hide Words, Greedy, Rendered, AllWords, Flatten, Size, LineSize, Join;
    var broken, lines := Greedy(Words(p), width), ParagraphLines(p, width);
    GreedyBreaks(Words(p), width);
    WordsAreWords(p);
    RenderedAsWords(broken);
    RenderedLines(broken);
    AsWordsEach(lines);
    AsWordsFlat(lines);
    forall i | 0 <= i < |lines| ensures Size(lines[i]) == LineSize(broken[i]) && Words(lines[i]) == broken[i] && Fits(broken[i], width) {
      SizeOfJoin(broken[i]);
    }
  }

  /**
   * Wrapping uses the fewest lines: any lines of text with the paragraph's words in order, each
   * holding a word and fitting or holding just one, are at least as many.
   */
  lemma WrapUsesFewestLines(p: string, width: nat, other: seq<string>)
    requires p != "" && AllWords(other) == Words(p)
    requires forall i :: 0 <= i < |other| ==> Words(other[i]) != [] && (Size(other[i]) <= width || |Words(other[i])| == 1)
    ensures |ParagraphLines(p, width)| <= |other|
  {
    AsWordsEach(other);
    AsWordsFlat(other);
    var broken := AsWords(other);
    forall i | 0 <= i < |broken| ensures Fits(broken[i], width) {
      WordsFitText(other[i]);
      assert broken[i] == Words(other[i]);
    }
    GreedyStaysAhead(Words(p), width, broken);
    RenderedLines(Greedy(Words(p), width));
  }

  // ── Whole texts ───────────────────────────────────────────────────────────

  function Flat(pieces: seq<seq<string>>): seq<string> {
    if pieces == [] then [] else Flat(Init(pieces)) + Last(pieces)
  }

  /** An empty paragraph is an empty line; any other is broken greedily. */
  ghost predicate Broken(p: string, lines: seq<string>, width: nat) {
    if p == "" then lines == [""]
    else
      && AllWords(lines) == Words(p)
      && (forall i :: 0 <= i < |lines| ==> lines[i] == Join(Words(lines[i]), ' '))
      && (forall i :: 0 <= i < |lines| ==> Words(lines[i]) != [] && (Size(lines[i]) <= width || |Words(lines[i])| == 1))
      && (forall i :: 0 <= i < |lines| - 1 ==> Size(lines[i]) + 1 + Size(Words(lines[i + 1])[0]) > width)
  }

  /** The lines are those of the paragraphs, one after the other. */
  ghost predicate BrokenText(paragraphs: seq<string>, lines: seq<string>, width: nat) {
    exists pieces :: |pieces| == |paragraphs| && lines == Flat(pieces)
                     && forall i :: 0 <= i < |paragraphs| ==> Broken(paragraphs[i], pieces[i], width)
  }

  lemma {:induction false} TextIsBroken(paragraphs: seq<string>, width: nat)
    ensures BrokenText(paragraphs, Wrapped(paragraphs, width), width)
  {
    hide Broken, ParagraphLines;
    if paragraphs == [] {
      var none: seq<seq<string>> := [];
      assert Wrapped([], width) == Flat(none);
    } else {
      TextIsBroken(Init(paragraphs), width);
      BrokenParagraph(Last(paragraphs), width);
      var front :| |front| == |paragraphs| - 1 && Wrapped(Init(paragraphs), width) == Flat(front)
                   && forall i :: 0 <= i < |paragraphs| - 1 ==> Broken(Init(paragraphs)[i], front[i], width);
      var pieces := front + [ParagraphLines(Last(paragraphs), width)];
      assert Init(pieces) == front;
      forall i | 0 <= i < |paragraphs| ensures Broken(paragraphs[i], pieces[i], width) {
        if i < |front| { assert Init(paragraphs)[i] == paragraphs[i]; }
      }
    }
  }

  lemma BrokenParagraph(p: string, width: nat)
    ensures Broken(p, ParagraphLines(p, width), width)
  {
    if p != "" { ParagraphIsBroken(p, width); }
  }

  // ── The loops ─────────────────────────────────────────────────────────────

  /** A width of 0 leaves the text whole; a paragraph of white space alone leaves no line. */
  method WrapText(text: string, width: nat) returns (lines: seq<string>)
    ensures width == 0 ==> lines == [text]
    ensures width > 0 ==> lines == Wrapped(Split(text, '\n'), width)
    ensures width > 0 ==> BrokenText(Split(text, '\n'), lines, width)
  {
    if width == 0 {
      return [text];
    }
    lines := [];
    var paragraphs := Split(text, '\n');
    for n := 0 to |paragraphs|
      invariant lines == Wrapped(paragraphs[..n], width)
    {
      assert Init(paragraphs[..n + 1]) == paragraphs[..n];
      if paragraphs[n] == "" {
        lines := lines + [""];
      } else {
        lines := WrapParagraph(lines, paragraphs[n], width);
      }
    }
    assert paragraphs[..|paragraphs|] == paragraphs;
    TextIsBroken(paragraphs, width);
  }

  method WrapParagraph(before: seq<string>, p: string, width: nat) returns (lines: seq<string>)
    ensures lines == before + Rendered(Greedy(Words(p), width))
  {
    hide Words, Size, Fill;
    lines := before;
    var current := "";
    var words := Words(p);
    WordsAreWords(p);
    ghost var broken: seq<Line> := [];
    for k := 0 to |words|
      invariant broken == Greedy(words[..k], width)
      invariant before <= lines && Shown(broken, lines[|before|..], current)
    {
      var word := words[k];
      assert IsWord(word) && Init(words[..k + 1]) == words[..k];
      NextLine(broken, lines[|before|..], current, word, width);
      broken := Fill(broken, word, width);
      if current == "" {
        current := word;
      } else if Size(current) + 1 + Size(word) <= width {
        current := current + " " + word;
      } else {
        lines := lines + [current];
        current := word;
      }
    }
    assert words[..|words|] == words;
    if current != "" {
      lines := lines + [current];
    }
    assert lines == before + lines[|before|..];
  }

  /** The finished lines and the line being filled, as they stand for a breaking. */
  ghost predicate Shown(broken: seq<Line>, lines: seq<string>, current: string) {
    if broken == [] then lines == [] && current == ""
    else lines == Rendered(Init(broken)) && current == Join(Last(broken), ' ') && current != ""
  }

  /** One more word on the line being filled, or on a new one. */
  lemma NextLine(broken: seq<Line>, lines: seq<string>, current: string, w: string, width: nat)
    requires Shown(broken, lines, current) && w != ""
    ensures var r := Fill(broken, w, width);
      if current == "" then Shown(r, lines, w)
      else if Size(current) + 1 + Size(w) <= width then Shown(r, lines, current + " " + w)
      else Shown(r, lines + [current], w)
  {
    if broken != [] {
      SizeOfJoin(Last(broken));
      NextOnLine(broken, lines, current, w);
      NextOnNew(broken, lines, current, w);
    }
  }

  lemma NextOnLine(broken: seq<Line>, lines: seq<string>, current: string, w: string)
    requires Shown(broken, lines, current) && broken != []
    ensures Shown(Init(broken) + [Last(broken) + [w]], lines, current + " " + w)
  {
    var r := Init(broken) + [Last(broken) + [w]];
    assert Init(r) == Init(broken) && Last(r) == Last(broken) + [w];
    assert Last(broken) != [];
    JoinNext(Last(broken), ' ', w);
  }

  lemma NextOnNew(broken: seq<Line>, lines: seq<string>, current: string, w: string)
    requires Shown(broken, lines, current) && broken != [] && w != ""
    ensures Shown(broken + [[w]], lines + [current], w)
  {
    assert Init(broken + [[w]]) == broken;
  }
}
