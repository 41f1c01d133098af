/** Strings the way the program cuts them up: at a separator, at white space, and measured in bytes. */
module Texts {
  import opened Options

  /** The Unicode White_Space property. */
  predicate IsSpace(c: char) {
    var n := c as int;
    || 0x09 <= n <= 0x0D || n == 0x20 || n == 0x85 || n == 0xA0 || n == 0x1680 || 0x2000 <= n <= 0x200A
    || n == 0x2028 || n == 0x2029 || n == 0x202F || n == 0x205F || n == 0x3000
  }

  /** One by one: tab to return, blank, next line, no-break, the fixed widths, the separators. */
  const WHITE_SPACE: seq<int> :=
    [0x09, 0x0A, 0x0B, 0x0C, 0x0D, 0x20, 0x85, 0xA0, 0x1680, 0x2000, 0x2001, 0x2002, 0x2003, 0x2004, 0x2005,
     0x2006, 0x2007, 0x2008, 0x2009, 0x200A, 0x2028, 0x2029, 0x202F, 0x205F, 0x3000]

  lemma SpacesAreListed(c: char)
    ensures IsSpace(c) <==> c as int in WHITE_SPACE
  {
    if IsSpace(c) {
      var n := c as int;
      var k := if n <= 0x0D then n - 0x09 else if n == 0x20 then 5 else if n == 0x85 then 6 else if n == 0xA0 then 7
               else if n == 0x1680 then 8 else if n <= 0x200A then n - 0x2000 + 9 else if n <= 0x2029 then n - 0x2028 + 20
               else if n == 0x202F then 22 else if n == 0x205F then 23 else 24;
      assert WHITE_SPACE[k] == n;
    }
  }

  /** Bytes of a character in UTF-8. */
  function CharSize(c: char): nat {
    var n := c as int;
    if n < 0x80 then 1 else if n < 0x800 then 2 else if n < 0x1_0000 then 3 else 4
  }

  /** A character as its bytes in UTF-8 (section 3 of RFC 3629). */
  function Encoded(c: char): seq<int> {
    var n := c as int;
    if n < 0x80 then [n]
    else if n < 0x800 then [0xC0 + n / 64, 0x80 + n % 64]
    else if n < 0x1_0000 then [0xE0 + n / 4096, 0x80 + n / 64 % 64, 0x80 + n % 64]
    else [0xF0 + n / 262144, 0x80 + n / 4096 % 64, 0x80 + n / 64 % 64, 0x80 + n % 64]
  }

  /** The number the bytes stand for: the bits of the first after its length mark, then six of each other. */
  function CodePoint(bytes: seq<int>): int {
    if |bytes| == 1 then bytes[0]
    else if |bytes| == 2 then (bytes[0] - 0xC0) * 64 + (bytes[1] - 0x80)
    else if |bytes| == 3 then (bytes[0] - 0xE0) * 4096 + (bytes[1] - 0x80) * 64 + (bytes[2] - 0x80)
    else if |bytes| == 4 then
      (bytes[0] - 0xF0) * 262144 + (bytes[1] - 0x80) * 4096 + (bytes[2] - 0x80) * 64 + (bytes[3] - 0x80)
    else 0
  }

  lemma SixBits(n: int)
    requires n >= 0
    ensures n == n / 64 * 64 + n % 64 && n / 64 == n / 4096 * 64 + n / 64 % 64 && n / 4096 == n / 262144 * 64 + n / 4096 % 64
  {
    assert n / 4096 == n / 64 / 64 && n / 262144 == n / 4096 / 64;
  }

  /** The size of a character is the number of bytes that encode it, from which it can be read back. */
  lemma SizeIsEncoded(c: char)
    ensures |Encoded(c)| == CharSize(c) && CodePoint(Encoded(c)) == c as int
  {
    SixBits(c as int);
  }

  /** The first byte tells how many there are, and every other is a continuation. */
  lemma LeadingByte(c: char)
    ensures var bytes := Encoded(c);
      && (if |bytes| == 1 then 0 <= bytes[0] < 0x80 else if |bytes| == 2 then 0xC0 <= bytes[0] < 0xE0
          else if |bytes| == 3 then 0xE0 <= bytes[0] < 0xF0 else 0xF0 <= bytes[0] < 0xF8)
      && forall i :: 0 < i < |bytes| ==> 0x80 <= bytes[i] < 0xC0
  {
  }

  function Size(s: string): nat {
    if s == [] then 0 else Size(s[..|s| - 1]) + CharSize(s[|s| - 1])
  }

  lemma {:induction false} SizeConcat(a: string, b: string)
    ensures Size(a + b) == Size(a) + Size(b)
  {
    if b == [] {
      assert a + b == a;
    } else {
      SizeConcat(a, b[..|b| - 1]);
      assert (a + b)[..|a + b| - 1] == a + b[..|b| - 1];
    }
  }

  // ── Cutting at a separator ────────────────────────────────────────────────

  function Last<T>(s: seq<T>): T
    requires s != []
  {
    s[|s| - 1]
  }

  function Init<T>(s: seq<T>): seq<T>
    requires s != []
  {
    s[..|s| - 1]
  }

  /** The pieces between separators; there is always at least one. */
  function Split(s: string, sep: char): (r: seq<string>)
    ensures r != []
  {
    if s == [] then [""]
    else
      var r := Split(Init(s), sep);
      if Last(s) == sep then r + [""] else Init(r) + [Last(r) + [Last(s)]]
  }

  function Join(parts: seq<string>, sep: char): string {
    if parts == [] then ""
    else if |parts| == 1 then parts[0]
    else Join(Init(parts), sep) + [sep] + Last(parts)
  }

  lemma JoinNext(parts: seq<string>, sep: char, last: string)
    ensures Join(parts + [last], sep) == if parts == [] then last else Join(parts, sep) + [sep] + last
  {
    assert Init(parts + [last]) == parts;
  }

  lemma SplitNext(s: string, sep: char, c: char)
    ensures Split(s + [c], sep) ==
      if c == sep then Split(s, sep) + [""] else Init(Split(s, sep)) + [Last(Split(s, sep)) + [c]]
  {
    assert Init(s + [c]) == s;
  }

  lemma {:induction false} JoinSplit(s: string, sep: char)
    ensures Join(Split(s, sep), sep) == s
  {
    if s != [] {
      JoinSplit(Init(s), sep);
      JoinSplitNext(Init(s), sep, Last(s));
      assert Init(s) + [Last(s)] == s;
    }
  }

  lemma JoinSplitNext(s: string, sep: char, c: char)
    requires Join(Split(s, sep), sep) == s
    ensures Join(Split(s + [c], sep), sep) == s + [c]
  {
    hide Split, Join;
    SplitNext(s, sep, c);
    var r := Split(s, sep);
    if c == sep {
      JoinNext(r, sep, "");
    } else {
      JoinGrows(Init(r), sep, Last(r), [c]);
      assert Init(r) + [Last(r)] == r;
    }
  }

  lemma JoinGrows(parts: seq<string>, sep: char, last: string, more: string)
    ensures Join(parts + [last + more], sep) == Join(parts + [last], sep) + more
  {
    hide Join;
    JoinNext(parts, sep, last);
    JoinNext(parts, sep, last + more);
    var front := Join(parts, sep) + [sep];
    assert front + (last + more) == (front + last) + more;
  }

  ghost predicate Lacks(s: string, sep: char) {
    forall i :: 0 <= i < |s| ==> s[i] != sep
  }

  lemma {:induction false} SplitAppend(s: string, sep: char, piece: string)
    requires Lacks(piece, sep)
    ensures Split(s + piece, sep) == Init(Split(s, sep)) + [Last(Split(s, sep)) + piece]
  {
    if piece == [] {
      assert s + piece == s && Last(Split(s, sep)) + piece == Last(Split(s, sep));
    } else {
      SplitAppend(s, sep, Init(piece));
      SplitGrows(s, sep, piece);
    }
  }

  lemma SplitGrows(s: string, sep: char, piece: string)
    requires Lacks(piece, sep) && piece != []
    requires Split(s + Init(piece), sep) == Init(Split(s, sep)) + [Last(Split(s, sep)) + Init(piece)]
    ensures Split(s + piece, sep) == Init(Split(s, sep)) + [Last(Split(s, sep)) + piece]
  {
    hide Split;
    SplitNext(s + Init(piece), sep, Last(piece));
    assert s + piece == s + Init(piece) + [Last(piece)];
    var before, after := Split(s, sep), Split(s + Init(piece), sep);
    assert Init(after) == Init(before);
    assert Last(after) + [Last(piece)] == Last(before) + piece;
  }

  lemma {:induction false} SplitJoin(parts: seq<string>, sep: char)
    requires parts != [] && forall i :: 0 <= i < |parts| ==> Lacks(parts[i], sep)
    ensures Split(Join(parts, sep), sep) == parts
  {
    hide Split;
    if |parts| == 1 {
      SplitWhole(parts[0], sep);
    } else {
      var front := Join(Init(parts), sep);
      SplitJoin(Init(parts), sep);
      SplitPiece(front, sep, Last(parts));
      assert Join(parts, sep) == front + [sep] + Last(parts);
      assert Init(parts) + [Last(parts)] == parts;
    }
  }

  lemma SplitWhole(piece: string, sep: char)
    requires Lacks(piece, sep)
    ensures Split(piece, sep) == [piece]
  {
    SplitAppend("", sep, piece);
    assert "" + piece == piece;
  }

  lemma SplitPiece(s: string, sep: char, piece: string)
    requires Lacks(piece, sep)
    ensures Split(s + [sep] + piece, sep) == Split(s, sep) + [piece]
  {
    hide Split;
    SplitNext(s, sep, sep);
    SplitAppend(s + [sep], sep, piece);
    assert Init(Split(s, sep) + [""]) == Split(s, sep) && "" + piece == piece;
  }

  lemma {:induction false} SplitLacks(s: string, sep: char)
    ensures forall i :: 0 <= i < |Split(s, sep)| ==> Lacks(Split(s, sep)[i], sep)
  {
    if s != [] { SplitLacks(Init(s), sep); }
  }

  // ── Cutting at white space ────────────────────────────────────────────────

  /** The longest runs of characters that are not white space. */
  function Words(s: string): seq<string> {
    if s == [] then []
    else if IsSpace(Last(s)) then Words(Init(s))
    else if |s| == 1 || IsSpace(Last(Init(s))) || Words(Init(s)) == [] then Words(Init(s)) + [[Last(s)]]
    else Init(Words(Init(s))) + [Last(Words(Init(s))) + [Last(s)]]
  }

  ghost predicate IsWord(w: string) {
    w != [] && forall i :: 0 <= i < |w| ==> !IsSpace(w[i])
  }

  lemma {:induction false} WordsAreWords(s: string)
    ensures forall i :: 0 <= i < |Words(s)| ==> IsWord(Words(s)[i])
    ensures s != [] && !IsSpace(Last(s)) ==> Words(s) != []
  {
    if s != [] { WordsAreWords(Init(s)); }
  }

  /** A word appended after white space, or at the start, is a new word. */
  lemma {:induction false} WordsAppend(s: string, w: string)
    requires IsWord(w) && (s != [] ==> IsSpace(Last(s)))
    ensures Words(s + w) == Words(s) + [w]
  {
    assert Init(s + w) == s + Init(w) && Last(s + w) == Last(w);
    assert w == Init(w) + [Last(w)];
    if |w| > 1 {
      WordsAppend(s, Init(w));
      assert Last(s + Init(w)) == Last(Init(w));
    } else {
      assert s + Init(w) == s;
    }
  }

  lemma WordsBlank(s: string)
    ensures Words(s + [' ']) == Words(s)
  {
    assert Init(s + [' ']) == s;
  }

  /** Joining words with a blank and cutting at white space gives the words back. */
  lemma {:induction false} WordsOfJoin(ws: seq<string>)
    requires forall i :: 0 <= i < |ws| ==> IsWord(ws[i])
    ensures Words(Join(ws, ' ')) == ws
  {
    if ws != [] {
      assert Init(ws) + [Last(ws)] == ws;
      if |ws| == 1 {
        OneWord(ws[0]);
      } else {
        WordsOfJoin(Init(ws));
        OneMoreWord(Init(ws), Last(ws));
      }
    }
  }

  lemma OneWord(w: string)
    requires IsWord(w)
    ensures Words(Join([w], ' ')) == [w]
  {
    WordsAppend("", w);
    assert "" + w == w;
  }

  lemma OneMoreWord(ws: seq<string>, w: string)
    requires ws != [] && IsWord(w) && Words(Join(ws, ' ')) == ws
    ensures Words(Join(ws + [w], ' ')) == ws + [w]
  {
    hide Words, Join;
    JoinNext(ws, ' ', w);
    WordsBlank(Join(ws, ' '));
    WordsAppend(Join(ws, ' ') + [' '], w);
  }
}
