/**
 * The incremental parser of a streamed model reply.  However the text is cut into chunks, the
 * buffer-and-split loop ends with what one pass over the complete lines of the whole text gives.
 */
module Streams {
  import opened Options
  import opened Texts

  /** A piece of one tool call. */
  datatype Fragment = Fragment(index: nat, id: Option<string>, name: Option<string>, arguments: Option<string>)
  datatype Delta = Delta(content: Option<string>, fragments: seq<Fragment>)
  /** What a data line decodes to: its first choice, if it is JSON with at least one. */
  datatype Choice = Choice(finish: Option<string>, delta: Option<Delta>)
  type Decoder = string -> Option<Choice>

  datatype ToolCall = ToolCall(id: string, name: string, arguments: string)
  datatype StreamEvent = Tokens(count: nat) | CallNamed(name: string)
  datatype Parsed = Parsed(content: string, calls: seq<ToolCall>, finish: Option<string>, events: seq<StreamEvent>)

  const NOTHING_YET: Parsed := Parsed("", [], None, [])
  const NEW_CALL: ToolCall := ToolCall("", "", "")

  // ── One line ──────────────────────────────────────────────────────────────

  function TrimReturns(line: string): string {
    if line != "" && Last(line) == '\r' then TrimReturns(Init(line)) else line
  }

  /** The payload of a line, if it carries one. */
  function Payload(line: string): Option<string> {
    var l := TrimReturns(line);
    if l == "" || l[0] == ':' || !("data: " <= l) then None
    else if l[6..] == "[DONE]" then None
    else Some(l[6..])
  }

  function Pad(calls: seq<ToolCall>, n: nat): (r: seq<ToolCall>)
    ensures |r| == if n > |calls| then n else |calls|
    ensures forall k :: 0 <= k < |r| ==> r[k] == if k < |calls| then calls[k] else NEW_CALL
    decreases n
  {
    if n <= |calls| then calls else Pad(calls, n - 1) + [NEW_CALL]
  }

  /** Later ids and names replace earlier ones; arguments add up. */
  function Merge(call: ToolCall, f: Fragment): ToolCall {
    ToolCall(if f.id.Some? then f.id.value else call.id,
             if f.name.Some? then f.name.value else call.name,
             if f.arguments.Some? then call.arguments + f.arguments.value else call.arguments)
  }

  function TakeFragment(p: Parsed, f: Fragment): Parsed {
    var calls := Pad(p.calls, f.index + 1);
    p.(calls := calls[f.index := Merge(calls[f.index], f)],
       events := if f.name.Some? then p.events + [CallNamed(f.name.value)] else p.events)
  }

  function TakeFragments(p: Parsed, fs: seq<Fragment>): Parsed {
    if fs == [] then p else TakeFragment(TakeFragments(p, Init(fs)), Last(fs))
  }

  function TokenCount(content: string): nat {
    if |Words(content)| > 1 then |Words(content)| else 1
  }

  function TakeContent(p: Parsed, content: Option<string>): Parsed {
    if content.None? || content.value == "" then p
    else p.(content := p.content + content.value, events := p.events + [Tokens(TokenCount(content.value))])
  }

  function TakeChoice(p: Parsed, c: Choice): Parsed {
    var p1 := if c.finish.Some? then p.(finish := c.finish) else p;
    if c.delta.None? then p1 else TakeFragments(TakeContent(p1, c.delta.value.content), c.delta.value.fragments)
  }

  function TakeLine(p: Parsed, line: string, decode: Decoder): Parsed {
    var data := Payload(line);
    if data.None? || decode(data.value).None? then p else TakeChoice(p, decode(data.value).value)
  }

  function TakeLines(p: Parsed, lines: seq<string>, decode: Decoder): Parsed {
    if lines == [] then p else TakeLine(TakeLines(p, Init(lines), decode), Last(lines), decode)
  }

  /** One pass over the complete lines; what follows the last newline is never looked at. */
  function OnePass(text: string, decode: Decoder): Parsed {
    TakeLines(NOTHING_YET, Init(Split(text, '\n')), decode)
  }

  // ── Chunk by chunk ────────────────────────────────────────────────────────

  /** What has been parsed, and the unfinished line. */
  datatype Progress = Progress(parsed: Parsed, buffer: string)

  /** One chunk: append it to the unfinished line and take all complete lines. */
  function Feed(g: Progress, chunk: string, decode: Decoder): Progress {
    var pieces := Split(g.buffer + chunk, '\n');
    Progress(TakeLines(g.parsed, Init(pieces), decode), Last(pieces))
  }

  function FeedAll(chunks: seq<string>, decode: Decoder): Progress {
    if chunks == [] then Progress(NOTHING_YET, "") else Feed(FeedAll(Init(chunks), decode), Last(chunks), decode)
  }

  function Concat(chunks: seq<string>): string {
    if chunks == [] then "" else Concat(Init(chunks)) + Last(chunks)
  }

  // ── Cutting a growing buffer ──────────────────────────────────────────────

  /** More text after the unfinished line continues only that line. */
  lemma {:induction false} SplitContinues(x: string, done: seq<string>, y: string, more: string)
    requires Split(x, '\n') == done + Split(y, '\n')
    ensures Split(x + more, '\n') == done + Split(y + more, '\n')
  {
    hide Split;
    if more == "" {
      assert x + more == x && y + more == y;
    } else {
      SplitContinues(x, done, y, Init(more));
      SplitStep(x + Init(more), done, y + Init(more), Last(more));
      assert x + more == x + Init(more) + [Last(more)] && y + more == y + Init(more) + [Last(more)];
    }
  }

  lemma SplitStep(x: string, done: seq<string>, y: string, c: char)
    requires Split(x, '\n') == done + Split(y, '\n')
    ensures Split(x + [c], '\n') == done + Split(y + [c], '\n')
  {
    hide Split;
    SplitNext(x, '\n', c);
    SplitNext(y, '\n', c);
    var r := Split(y, '\n');
    assert Last(done + r) == Last(r) && Init(done + r) == done + Init(r);
    if c != '\n' { assert done + Init(r) + [Last(r) + [c]] == done + (Init(r) + [Last(r) + [c]]); }
  }

  lemma {:induction false} TakeLinesConcat(p: Parsed, a: seq<string>, b: seq<string>, decode: Decoder)
    ensures TakeLines(p, a + b, decode) == TakeLines(TakeLines(p, a, decode), b, decode)
  {
    hide TakeLine;
    if b == [] {
      assert a + b == a;
    } else {
      TakeLinesConcat(p, a, Init(b), decode);
      assert Init(a + b) == a + Init(b);
    }
  }

  lemma NoNewline(s: string)
    requires Lacks(s, '\n')
    ensures Split(s, '\n') == [s]
  {
    SplitAppend("", '\n', s);
    assert "" + s == s && Init([""]) == [];
  }

  /** Feeding the chunks is one pass over their concatenation, with its unfinished line left over. */
  lemma {:induction false} FeedIsOnePass(chunks: seq<string>, decode: Decoder)
    ensures FeedAll(chunks, decode) == Progress(OnePass(Concat(chunks), decode), Last(Split(Concat(chunks), '\n')))
  {
    if chunks != [] {
      FeedIsOnePass(Init(chunks), decode);
      FeedNext(Concat(Init(chunks)), Last(chunks), decode);
    }
  }

  lemma FeedNext(text: string, chunk: string, decode: Decoder)
    ensures Feed(Progress(OnePass(text, decode), Last(Split(text, '\n'))), chunk, decode)
      == Progress(OnePass(text + chunk, decode), Last(Split(text + chunk, '\n')))
  {
    hide Split;
    var done, rest := Init(Split(text, '\n')), Last(Split(text, '\n'));
    SplitLacks(text, '\n');
    NoNewline(rest);
    assert Split(text, '\n') == done + [rest];
    SplitContinues(text, done, rest, chunk);
    var pieces := Split(rest + chunk, '\n');
    TakeLinesConcat(NOTHING_YET, done, Init(pieces), decode);
    assert Init(done + pieces) == done + Init(pieces);
  }

  /** Chunking invariance: any two ways of cutting the same text end with the same result. */
  lemma ChunkingInvariance(a: seq<string>, b: seq<string>, decode: Decoder)
    requires Concat(a) == Concat(b)
    ensures FeedAll(a, decode) == FeedAll(b, decode)
  {
    FeedIsOnePass(a, decode);
    FeedIsOnePass(b, decode);
  }

  // ── The loops ─────────────────────────────────────────────────────────────

  /** Position of the first newline, or the length. */
  method FindNewline(buffer: string) returns (pos: nat)
    ensures pos <= |buffer| && Lacks(buffer[..pos], '\n') && (pos < |buffer| ==> buffer[pos] == '\n')
  {
    pos := 0;
    while pos < |buffer| && buffer[pos] != '\n'
      invariant pos <= |buffer| && Lacks(buffer[..pos], '\n')
    {
      pos := pos + 1;
    }
  }

  method TurnStreaming(chunks: seq<string>, decode: Decoder) returns (p: Parsed)
    ensures p == FeedAll(chunks, decode).parsed
    ensures p == OnePass(Concat(chunks), decode)
    ensures forall lines, rest, payloads :: LinesOf(Concat(chunks), lines, rest) && Carried(lines, payloads) ==>
      var cs := Decoded(payloads, decode);
      && p.content == Text(cs) && p.finish == LastFinish(cs)
      && Assembled(p.calls, Fragments(cs)) && p.events == Announced(cs)
  {
    hide LinesOf, Carried, Assembled;
    var buffer := "";
    p := NOTHING_YET;
    for i := 0 to |chunks|
      invariant Progress(p, buffer) == FeedAll(chunks[..i], decode)
    {
      assert Init(chunks[..i + 1]) == chunks[..i];
      p, buffer := TakeCompleteLines(p, buffer + chunks[i], decode);
    }
    assert chunks[..|chunks|] == chunks;
    FeedIsOnePass(chunks, decode);
    forall lines, rest, payloads | LinesOf(Concat(chunks), lines, rest) && Carried(lines, payloads)
      ensures
        var cs := Decoded(payloads, decode);
        && p.content == Text(cs) && p.finish == LastFinish(cs)
        && Assembled(p.calls, Fragments(cs)) && p.events == Announced(cs)
    {
      ReplyOfPayloads(chunks, lines, rest, payloads, decode);
    }
  }

  /** Takes complete lines off the front of the buffer until none is left. */
  method TakeCompleteLines(before: Parsed, full: string, decode: Decoder) returns (p: Parsed, buffer: string)
    ensures p == TakeLines(before, Init(Split(full, '\n')), decode) && buffer == Last(Split(full, '\n'))
  {
    p, buffer := before, full;
    var pos := FindNewline(buffer);
    while pos < |buffer|
      invariant TakeLines(before, Init(Split(full, '\n')), decode) == TakeLines(p, Init(Split(buffer, '\n')), decode)
      invariant Last(Split(full, '\n')) == Last(Split(buffer, '\n'))
      invariant 0 <= pos <= |buffer| && Lacks(buffer[..pos], '\n') && (pos < |buffer| ==> buffer[pos] == '\n')
      decreases |buffer|
    {
      FirstLine(p, buffer, pos, decode);
      p := TakeLine(p, buffer[..pos], decode);
      buffer := buffer[pos + 1..];
      pos := FindNewline(buffer);
    }
    assert buffer[..pos] == buffer;
    NoNewline(buffer);
  }

  /** The first newline ends the first line. */
  lemma FirstLine(p: Parsed, buffer: string, pos: nat, decode: Decoder)
    requires pos < |buffer| && buffer[pos] == '\n' && Lacks(buffer[..pos], '\n')
    ensures var rest := Split(buffer[pos + 1..], '\n');
      && Last(Split(buffer, '\n')) == Last(rest)
      && TakeLines(p, Init(Split(buffer, '\n')), decode)
         == TakeLines(TakeLine(p, buffer[..pos], decode), Init(rest), decode)
  {
    hide TakeLine;
    var line, rest := buffer[..pos], Split(buffer[pos + 1..], '\n');
    SplitFirst(buffer, pos);
    assert Init([line] + rest) == [line] + Init(rest);
    TakeLinesConcat(p, [line], Init(rest), decode);
    assert Init([line]) == [];
  }

  lemma SplitFirst(buffer: string, pos: nat)
    requires pos < |buffer| && buffer[pos] == '\n' && Lacks(buffer[..pos], '\n')
    ensures Split(buffer, '\n') == [buffer[..pos]] + Split(buffer[pos + 1..], '\n')
  {
    hide Split;
    var line, rest := buffer[..pos], buffer[pos + 1..];
    NoNewline(line);
    NoNewline("");
    SplitNext(line, '\n', '\n');
    SplitContinues(line + ['\n'], [line], "", rest);
    assert buffer == line + ['\n'] + rest && "" + rest == rest;
  }

  // ── What a reply adds up to ───────────────────────────────────────────────

  /** The choices of the lines that carry one, in order. */
  function Choices(lines: seq<string>, decode: Decoder): seq<Choice> {
    if lines == [] then []
    else
      var data := Payload(Last(lines));
      Choices(Init(lines), decode)
      + (if data.Some? && decode(data.value).Some? then [decode(data.value).value] else [])
  }

  function Fragments(cs: seq<Choice>): seq<Fragment> {
    if cs == [] then []
    else Fragments(Init(cs)) + (if Last(cs).delta.Some? then Last(cs).delta.value.fragments else [])
  }

  function Text(cs: seq<Choice>): string {
    if cs == [] then ""
    else
      var d := Last(cs).delta;
      Text(Init(cs)) + (if d.Some? && d.value.content.Some? then d.value.content.value else "")
  }

  function LastFinish(cs: seq<Choice>): Option<string> {
    if cs == [] then None else if Last(cs).finish.Some? then Last(cs).finish else LastFinish(Init(cs))
  }

  /** The arguments sent for one call, joined in order. */
  function Arguments(fs: seq<Fragment>, k: nat): string {
    if fs == [] then ""
    else Arguments(Init(fs), k) + (if Last(fs).index == k && Last(fs).arguments.Some? then Last(fs).arguments.value else "")
  }

  function LastName(fs: seq<Fragment>, k: nat): string {
    if fs == [] then "" else if Last(fs).index == k && Last(fs).name.Some? then Last(fs).name.value else LastName(Init(fs), k)
  }

  function LastId(fs: seq<Fragment>, k: nat): string {
    if fs == [] then "" else if Last(fs).index == k && Last(fs).id.Some? then Last(fs).id.value else LastId(Init(fs), k)
  }

  /** One more than the largest index, or 0. */
  function Bound(fs: seq<Fragment>): nat {
    if fs == [] then 0 else if Last(fs).index + 1 > Bound(Init(fs)) then Last(fs).index + 1 else Bound(Init(fs))
  }

  /** The calls are those the fragments describe. */
  ghost predicate Assembled(calls: seq<ToolCall>, fs: seq<Fragment>) {
    && |calls| == Bound(fs)
    && forall k :: 0 <= k < |calls| ==> calls[k] == ToolCall(LastId(fs, k), LastName(fs, k), Arguments(fs, k))
  }

  lemma {:induction false} BeyondBound(fs: seq<Fragment>, k: nat)
    requires k >= Bound(fs)
    ensures ToolCall(LastId(fs, k), LastName(fs, k), Arguments(fs, k)) == NEW_CALL
  {
    if fs != [] { BeyondBound(Init(fs), k); }
  }

  lemma AssembleNext(p: Parsed, fs: seq<Fragment>, f: Fragment)
    requires Assembled(p.calls, fs)
    ensures Assembled(TakeFragment(p, f).calls, fs + [f])
  {
    assert Init(fs + [f]) == fs;
    var calls := TakeFragment(p, f).calls;
    forall k | 0 <= k < |calls|
      ensures calls[k] == ToolCall(LastId(fs + [f], k), LastName(fs + [f], k), Arguments(fs + [f], k))
    {
      if k >= Bound(fs) { BeyondBound(fs, k); }
      var call := if k < |p.calls| then p.calls[k] else NEW_CALL;
      assert call == ToolCall(LastId(fs, k), LastName(fs, k), Arguments(fs, k));
    }
  }

  lemma {:induction false} AssembleMore(p: Parsed, fs: seq<Fragment>, more: seq<Fragment>)
    requires Assembled(p.calls, fs)
    ensures Assembled(TakeFragments(p, more).calls, fs + more)
    ensures TakeFragments(p, more).content == p.content && TakeFragments(p, more).finish == p.finish
  {
    if more == [] {
      assert fs + more == fs;
    } else {
      AssembleMore(p, fs, Init(more));
      AssembleNext(TakeFragments(p, Init(more)), fs + Init(more), Last(more));
      assert fs + Init(more) + [Last(more)] == fs + more;
    }
  }

  /** Everything parsed, as the sum of the choices. */
  ghost predicate SumOf(p: Parsed, cs: seq<Choice>) {
    p.content == Text(cs) && p.finish == LastFinish(cs) && Assembled(p.calls, Fragments(cs))
  }

  lemma TakeChoiceSums(p: Parsed, cs: seq<Choice>, c: Choice)
    requires SumOf(p, cs)
    ensures SumOf(TakeChoice(p, c), cs + [c])
  {
    SumsNext(cs, c);
    var p1 := if c.finish.Some? then p.(finish := c.finish) else p;
    if c.delta.Some? {
      AssembleMore(TakeContent(p1, c.delta.value.content), Fragments(cs), c.delta.value.fragments);
    }
  }

  /** What one more choice adds to the text, the fragments and the finish reason. */
  lemma SumsNext(cs: seq<Choice>, c: Choice)
    ensures Text(cs + [c]) ==
      if c.delta.Some? && c.delta.value.content.Some? then Text(cs) + c.delta.value.content.value else Text(cs)
    ensures Fragments(cs + [c]) == if c.delta.Some? then Fragments(cs) + c.delta.value.fragments else Fragments(cs)
    ensures LastFinish(cs + [c]) == if c.finish.Some? then c.finish else LastFinish(cs)
    ensures forall s: string :: s + "" == s
  {
    assert Init(cs + [c]) == cs;
  }

  lemma {:induction false} LinesSum(lines: seq<string>, decode: Decoder)
    ensures SumOf(TakeLines(NOTHING_YET, lines, decode), Choices(lines, decode))
  {
    if lines != [] {
      LinesSum(Init(lines), decode);
      var data := Payload(Last(lines));
      hide SumOf, TakeChoice, Payload;
      var cs := Choices(Init(lines), decode);
      if data.Some? && decode(data.value).Some? {
        TakeChoiceSums(TakeLines(NOTHING_YET, Init(lines), decode), cs, decode(data.value).value);
      } else {
        assert Choices(lines, decode) == cs;
      }
    } else {
      NothingSums();
    }
  }

  lemma NothingSums()
    ensures SumOf(NOTHING_YET, [])
  {
  }

  /**
   * What the stream loop returns: the text in order, the last finish reason, and one call per index
   * up to the largest seen, with the last id and name given for it and its argument pieces joined
   * in order.
   */
  lemma ReplyAddsUp(chunks: seq<string>, decode: Decoder)
    ensures var p := FeedAll(chunks, decode).parsed;
      var cs := Choices(Init(Split(Concat(chunks), '\n')), decode); var fs := Fragments(cs);
      && p.content == Text(cs) && p.finish == LastFinish(cs) && |p.calls| == Bound(fs)
      && forall k :: 0 <= k < |p.calls| ==> p.calls[k] == ToolCall(LastId(fs, k), LastName(fs, k), Arguments(fs, k))
  {
    FeedIsOnePass(chunks, decode);
    LinesSum(Init(Split(Concat(chunks), '\n')), decode);
  }

  // ── What a line carries ───────────────────────────────────────────────────

  function Returns(n: nat): string {
    if n == 0 then "" else Returns(n - 1) + ['\r']
  }

  /** The line is a data field with this payload, ended by any number of returns. */
  ghost predicate CarriesData(line: string, data: string) {
    data != "[DONE]" && (data == "" || Last(data) != '\r') && exists n :: line == "data: " + data + Returns(n)
  }

  lemma {:induction false} TrimAdded(d: string, n: nat)
    requires d == "" || Last(d) != '\r'
    ensures TrimReturns(d + Returns(n)) == d
  {
    if n == 0 {
      assert d + Returns(0) == d;
    } else {
      TrimAdded(d, n - 1);
      assert Init(d + Returns(n)) == d + Returns(n - 1) && Last(d + Returns(n)) == '\r';
    }
  }

  lemma {:induction false} TrimSplits(line: string) returns (n: nat)
    ensures line == TrimReturns(line) + Returns(n)
    ensures TrimReturns(line) == "" || Last(TrimReturns(line)) != '\r'
  {
    if line != "" && Last(line) == '\r' {
      n := TrimSplits(Init(line));
      n := n + 1;
      assert line == Init(line) + ['\r'];
      assert TrimReturns(line) + Returns(n - 1) + ['\r'] == TrimReturns(line) + Returns(n);
    } else {
      n := 0;
      assert line == line + "";
    }
  }

  /** A line hands exactly its payload to the decoder. */
  lemma PayloadIff(line: string, data: string)
    ensures Payload(line) == Some(data) <==> CarriesData(line, data)
  {
    hide TrimReturns, Returns;
    if CarriesData(line, data) {
      var n :| line == "data: " + data + Returns(n);
      var l := "data: " + data;
      assert data != "" ==> Last(l) == Last(data);
      TrimAdded(l, n);
      assert l[6..] == data && "data: " <= l;
    }
    if Payload(line) == Some(data) {
      var n := TrimSplits(line);
      var l := TrimReturns(line);
      assert l == "data: " + data;
      assert data != "" ==> Last(l) == Last(data);
      assert line == "data: " + data + Returns(n);
    }
  }

  /** Comments, other fields, blank lines and the end mark carry nothing. */
  lemma SkippedLines(line: string, n: nat)
    ensures (line == Returns(n) || (line != "" && line[0] == ':') || !("data: " <= line) || line == "data: [DONE]" + Returns(n))
            ==> Payload(line).None?
  {
    hide Returns;
    if Payload(line).Some? {
      var data := Payload(line).value;
      PayloadIff(line, data);
      var k :| line == "data: " + data + Returns(k);
      assert line[..6] == "data: ";
      if line == "data: [DONE]" + Returns(n) { EndMark(line, n); }
      if line == Returns(n) { OnlyReturns(n); }
    }
  }

  lemma EndMark(line: string, n: nat)
    requires line == "data: [DONE]" + Returns(n)
    ensures Payload(line).None?
  {
    hide Returns, TrimReturns;
    TrimAdded("data: [DONE]", n);
    assert "data: [DONE]"[6..] == "[DONE]";
  }

  lemma {:induction false} OnlyReturns(n: nat)
    ensures forall i :: 0 <= i < |Returns(n)| ==> Returns(n)[i] == '\r'
  {
    if n > 0 { OnlyReturns(n - 1); }
  }

  /** The choices the payloads decode to, in order. */
  function Decoded(payloads: seq<Option<string>>, decode: Decoder): seq<Choice> {
    if payloads == [] then []
    else
      var d := Last(payloads);
      Decoded(Init(payloads), decode) + (if d.Some? && decode(d.value).Some? then [decode(d.value).value] else [])
  }

  /** Which payload each line carries, if any. */
  ghost predicate Carried(lines: seq<string>, payloads: seq<Option<string>>) {
    && |payloads| == |lines|
    && forall i, d :: 0 <= i < |lines| ==> (payloads[i] == Some(d) <==> CarriesData(lines[i], d))
  }

  lemma {:induction false} ChoicesAreDecoded(lines: seq<string>, payloads: seq<Option<string>>, decode: Decoder)
    requires Carried(lines, payloads)
    ensures Choices(lines, decode) == Decoded(payloads, decode)
  {
    if lines != [] {
      hide Payload, CarriesData;
      CarriedInit(lines, payloads);
      ChoicesAreDecoded(Init(lines), Init(payloads), decode);
      SamePayload(Last(lines), Last(payloads));
    }
  }

  lemma CarriedInit(lines: seq<string>, payloads: seq<Option<string>>)
    requires Carried(lines, payloads) && lines != []
    ensures Carried(Init(lines), Init(payloads)) && forall d :: Last(payloads) == Some(d) <==> CarriesData(Last(lines), d)
  {
    hide CarriesData;
  }

  lemma SamePayload(line: string, payload: Option<string>)
    requires forall d :: payload == Some(d) <==> CarriesData(line, d)
    ensures Payload(line) == payload
  {
    hide Payload, CarriesData;
    if payload.Some? { PayloadIff(line, payload.value); }
    if Payload(line).Some? { PayloadIff(line, Payload(line).value); }
  }

  /** The text is these lines, each ended by a newline, and a rest without one. */
  ghost predicate LinesOf(text: string, lines: seq<string>, rest: string) {
    text == Join(lines + [rest], '\n') && Lacks(rest, '\n') && forall i :: 0 <= i < |lines| ==> Lacks(lines[i], '\n')
  }

  /**
   * The reply to a text of lines, whatever follows the last newline and however it is cut into chunks, is
   * what the payloads of its data lines decode to: their contents joined in order, the last finish reason
   * given, and the calls their fragments describe.
   */
  lemma ReplyOfPayloads(chunks: seq<string>, lines: seq<string>, rest: string, payloads: seq<Option<string>>, decode: Decoder)
    requires LinesOf(Concat(chunks), lines, rest) && Carried(lines, payloads)
    ensures var p, cs := FeedAll(chunks, decode).parsed, Decoded(payloads, decode);
      && p.content == Text(cs) && p.finish == LastFinish(cs)
      && Assembled(p.calls, Fragments(cs)) && p.events == Announced(cs)
  {
    hide FeedAll, Join, Split, Carried, SumOf, Choices, Announced;
    SplitJoin(lines + [rest], '\n');
    assert Init(lines + [rest]) == lines;
    FeedIsOnePass(chunks, decode);
    LinesSum(lines, decode);
    LinesAnnounce(lines, decode);
    ChoicesAreDecoded(lines, payloads, decode);
    SumsUp(TakeLines(NOTHING_YET, lines, decode), Decoded(payloads, decode));
  }

  lemma SumsUp(p: Parsed, cs: seq<Choice>)
    requires SumOf(p, cs)
    ensures p.content == Text(cs) && p.finish == LastFinish(cs) && Assembled(p.calls, Fragments(cs))
  {
  }

  // ── What is announced ─────────────────────────────────────────────────────

  /** The names a choice's fragments bring, in order. */
  function Named(fs: seq<Fragment>): seq<StreamEvent> {
    if fs == [] then []
    else Named(Init(fs)) + (if Last(fs).name.Some? then [CallNamed(Last(fs).name.value)] else [])
  }

  /** A text that is not empty counts its words, and at least one. */
  function Counted(content: Option<string>): seq<StreamEvent> {
    if content.None? || content.value == "" then []
    else [Tokens(if Words(content.value) == [] then 1 else |Words(content.value)|)]
  }

  /** For each choice the count of its text, then the names its fragments bring. */
  function Announced(cs: seq<Choice>): seq<StreamEvent> {
    if cs == [] then []
    else
      var d := Last(cs).delta;
      Announced(Init(cs)) + (if d.None? then [] else Counted(d.value.content) + Named(d.value.fragments))
  }

  lemma {:induction false} FragmentsAnnounce(p: Parsed, fs: seq<Fragment>)
    ensures TakeFragments(p, fs).events == p.events + Named(fs)
  {
    if fs != [] { FragmentsAnnounce(p, Init(fs)); }
  }

  lemma ContentAnnounces(p: Parsed, content: Option<string>)
    ensures TakeContent(p, content).events == p.events + Counted(content)
  {
  }

  lemma ChoiceAnnounces(p: Parsed, cs: seq<Choice>, c: Choice)
    requires p.events == Announced(cs)
    ensures TakeChoice(p, c).events == Announced(cs + [c])
  {
    hide TakeContent, TakeFragments, Counted, Named;
    assert Init(cs + [c]) == cs;
    var p1 := if c.finish.Some? then p.(finish := c.finish) else p;
    if c.delta.Some? {
      var d := c.delta.value;
      ContentAnnounces(p1, d.content);
      FragmentsAnnounce(TakeContent(p1, d.content), d.fragments);
      assert p.events + Counted(d.content) + Named(d.fragments) == p.events + (Counted(d.content) + Named(d.fragments));
    }
  }

  /** The events emitted are those of the choices, in order. */
  lemma {:induction false} LinesAnnounce(lines: seq<string>, decode: Decoder)
    ensures TakeLines(NOTHING_YET, lines, decode).events == Announced(Choices(lines, decode))
  {
    if lines != [] {
      LinesAnnounce(Init(lines), decode);
      var p, data := TakeLines(NOTHING_YET, Init(lines), decode), Payload(Last(lines));
      hide TakeChoice, Payload, Announced;
      var cs := Choices(Init(lines), decode);
      if data.Some? && decode(data.value).Some? {
        ChoiceAnnounces(p, cs, decode(data.value).value);
      } else {
        assert Choices(lines, decode) == cs;
      }
    }
  }

  /** The bound is reached by some fragment and passed by none. */
  lemma {:induction false} BoundIsLargestIndex(fs: seq<Fragment>)
    ensures forall i :: 0 <= i < |fs| ==> fs[i].index < Bound(fs)
    ensures fs != [] ==> exists i :: 0 <= i < |fs| && fs[i].index + 1 == Bound(fs)
  {
    if fs != [] {
      BoundIsLargestIndex(Init(fs));
      assert forall i :: 0 <= i < |fs| - 1 ==> fs[i] == Init(fs)[i];
      assert Last(fs).index + 1 == Bound(fs) || Bound(Init(fs)) == Bound(fs);
    }
  }

  // ── Tokens ────────────────────────────────────────────────────────────────

  function TotalTokens(events: seq<StreamEvent>): nat {
    if events == [] then 0
    else TotalTokens(Init(events)) + (if Last(events).Tokens? then Last(events).count else 0)
  }

  /** Cutting a text in two cannot lose words. */
  lemma {:induction false} WordsSubadditive(a: string, b: string)
    ensures |Words(a + b)| <= |Words(a)| + |Words(b)|
    ensures Words(b) != [] && b != [] && !IsSpace(Last(b)) ==> Words(a + b) != []
  {
    if b == [] {
      assert a + b == a;
    } else {
      WordsSubadditive(a, Init(b));
      assert Init(a + b) == a + Init(b) && Last(a + b) == Last(b);
    }
  }

  lemma {:induction false} FragmentsKeepTokens(p: Parsed, fs: seq<Fragment>)
    ensures TotalTokens(TakeFragments(p, fs).events) == TotalTokens(p.events)
    ensures TakeFragments(p, fs).content == p.content
  {
    if fs != [] {
      FragmentsKeepTokens(p, Init(fs));
      var p1 := TakeFragments(p, Init(fs));
      if Last(fs).name.Some? { assert Init(p1.events + [CallNamed(Last(fs).name.value)]) == p1.events; }
    }
  }

  lemma ContentTokens(p: Parsed, content: Option<string>)
    requires TotalTokens(p.events) >= |Words(p.content)|
    ensures var p1 := TakeContent(p, content); TotalTokens(p1.events) >= |Words(p1.content)|
  {
    if content.Some? && content.value != "" {
      WordsSubadditive(p.content, content.value);
      var e := Tokens(TokenCount(content.value));
      assert Init(p.events + [e]) == p.events;
    }
  }

  /** The token counts emitted add up to at least the number of words of the text. */
  lemma {:induction false} TokensCoverWords(lines: seq<string>, decode: Decoder)
    ensures var p := TakeLines(NOTHING_YET, lines, decode); TotalTokens(p.events) >= |Words(p.content)|
  {
    if lines != [] {
      TokensCoverWords(Init(lines), decode);
      var p, data := TakeLines(NOTHING_YET, Init(lines), decode), Payload(Last(lines));
      if data.Some? && decode(data.value).Some? { ChoiceTokens(p, decode(data.value).value); }
    }
  }

  lemma ChoiceTokens(p: Parsed, c: Choice)
    requires TotalTokens(p.events) >= |Words(p.content)|
    ensures var p1 := TakeChoice(p, c); TotalTokens(p1.events) >= |Words(p1.content)|
  {
    if c.delta.Some? {
      var p1 := if c.finish.Some? then p.(finish := c.finish) else p;
      ContentTokens(p1, c.delta.value.content);
      FragmentsKeepTokens(TakeContent(p1, c.delta.value.content), c.delta.value.fragments);
    }
  }
}
