/** The newline-delimited JSON parser (backend/usecase/ndjson.go) and the one-shot parse of a whole
    output file (backend/infra/output.go). The parser keeps a mutable buffer; what it computes is
    tied to `Segments`, the split of a text at its newlines, and then shown not to depend on how the
    text was cut into chunks. */
module Ndjson {
  import opened Wrappers

  newtype byte = b: int | 0 <= b < 256

  type Bytes = seq<byte>

  const LF: byte := 10
  const CR: byte := 13

  datatype ParsedLine = Json(value: Bytes) | Raw(text: Bytes)

  // --- white space: a line all of whose runes are Unicode spaces is dropped ---

  /** The byte length of the white-space rune a text starts with, 0 when it starts with none. */
  function SpaceWidth(s: Bytes): nat
    ensures SpaceWidth(s) <= |s|
  {
    if |s| >= 1 && (s[0] == 32 || 9 <= s[0] <= 13) then 1
    else if |s| >= 2 && s[0] == 0xC2 && (s[1] == 0x85 || s[1] == 0xA0) then 2
    else if |s| >= 3 && s[0] == 0xE1 && s[1] == 0x9A && s[2] == 0x80 then 3
    else if |s| >= 3 && s[0] == 0xE2 && s[1] == 0x80
            && (0x80 <= s[2] <= 0x8A || s[2] == 0xA8 || s[2] == 0xA9 || s[2] == 0xAF) then 3
    else if |s| >= 3 && s[0] == 0xE2 && s[1] == 0x81 && s[2] == 0x9F then 3
    else if |s| >= 3 && s[0] == 0xE3 && s[1] == 0x80 && s[2] == 0x80 then 3
    else 0
  }

  /** TrimSpace leaves nothing of the text. */
  predicate Blank(s: Bytes) {
    s == [] || (SpaceWidth(s) > 0 && Blank(s[SpaceWidth(s)..]))
  }

  function TrimCR(line: Bytes): Bytes {
    if line != [] && line[|line| - 1] == CR then line[..|line| - 1] else line
  }

  function ParseLine(valid: Bytes -> bool, line: Bytes): ParsedLine {
    if valid(line) then Json(line) else Raw(line)
  }

  // --- the split of a text at its newlines ---

  /** The pieces of a text between its newlines; the last one is what no newline follows. */
  function Segments(s: Bytes): (r: seq<Bytes>)
    ensures r != []
  {
    if s == [] then [[]]
    else if s[0] == LF then [[]] + Segments(s[1..])
    else Grow(s[0], Segments(s[1..]))
  }

  /** The first piece grows by one byte at its front. */
  function Grow(c: byte, parts: seq<Bytes>): seq<Bytes>
    requires parts != []
  {
    [[c] + parts[0]] + parts[1..]
  }

  predicate NoLF(s: Bytes) {
    LF !in s
  }

  function Join(parts: seq<Bytes>): Bytes
    requires parts != []
  {
    if |parts| == 1 then parts[0] else parts[0] + [LF] + Join(parts[1..])
  }

  /** Splitting loses nothing: joining the pieces gives the text back. */
  lemma {:induction false} JoinSegments(s: Bytes)
    ensures Join(Segments(s)) == s
  {
    if s != [] {
      JoinSegments(s[1..]);
      var rest := Segments(s[1..]);
      if s[0] == LF {
        assert Segments(s)[1..] == rest;
      } else {
        JoinGrow(s[0], rest);
      }
    }
  }

  /** No piece of a split holds a newline. */
  lemma {:induction false} SegmentsHoldNoLF(s: Bytes)
    ensures forall p <- Segments(s) :: NoLF(p)
  {
    if s != [] {
      SegmentsHoldNoLF(s[1..]);
      var rest := Segments(s[1..]);
      assert rest[0] in rest;
    }
  }

  lemma JoinGrow(c: byte, parts: seq<Bytes>)
    requires parts != []
    ensures Join(Grow(c, parts)) == [c] + Join(parts)
  {
    assert Grow(c, parts)[1..] == parts[1..];
  }

  /** ... and it is the only split: newline-free pieces are what Segments finds in their join. */
  lemma {:induction false} SegmentsJoin(parts: seq<Bytes>)
    requires parts != []
    requires forall p <- parts :: NoLF(p)
    ensures Segments(Join(parts)) == parts
    decreases |parts|, |parts[0]|
  {
    var s := Join(parts);
    if parts[0] == [] {
      if |parts| > 1 {
        SegmentsJoin(parts[1..]);
        assert s == [LF] + Join(parts[1..]);
        assert s[1..] == Join(parts[1..]);
        assert parts == [[]] + parts[1..];
      }
    } else {
      var c, shorter := parts[0][0], [parts[0][1..]] + parts[1..];
      assert parts[0] in parts && c in parts[0];
      forall p | p in shorter ensures NoLF(p) {
        if p != parts[0][1..] { assert p in parts; }
      }
      assert [c] + parts[0][1..] == parts[0];
      assert Grow(c, shorter) == parts;
      JoinGrow(c, shorter);
      assert s[1..] == Join(shorter);
      SegmentsJoin(shorter);
    }
  }

  function Last<T>(s: seq<T>): T
    requires s != []
  {
    s[|s| - 1]
  }

  function Init<T>(s: seq<T>): seq<T>
    requires s != []
  {
    s[..|s| - 1]
  }

  lemma GrowEnds(c: byte, parts: seq<Bytes>)
    requires |parts| > 1
    ensures Init(Grow(c, parts)) == Grow(c, Init(parts))
    ensures Last(Grow(c, parts)) == Last(parts)
  {}

  lemma GrowConcat(c: byte, x: seq<Bytes>, y: seq<Bytes>)
    requires x != []
    ensures Grow(c, x + y) == Grow(c, x) + y
  {}

  lemma ConsConcat(p: Bytes, x: seq<Bytes>, y: seq<Bytes>)
    requires x != []
    ensures [p] + (Init(x) + y) == Init([p] + x) + y
    ensures Last([p] + x) == Last(x)
  {}

  /** Splitting a concatenation: only the unfinished last piece of the front meets the back. */
  lemma {:induction false} SegmentsConcat(a: Bytes, b: Bytes)
    ensures Segments(a + b) == Init(Segments(a)) + Segments(Last(Segments(a)) + b)
  {
    if a == [] {
      assert a + b == b;
      assert [] + b == b;
    } else {
      SegmentsConcat(a[1..], b);
      assert (a + b)[1..] == a[1..] + b;
      SegmentsConcatStep(a, b, Segments(a[1..]));
    }
  }

  lemma SegmentsConcatStep(a: Bytes, b: Bytes, rest: seq<Bytes>)
    requires a != [] && rest == Segments(a[1..])
    requires Segments((a + b)[1..]) == Init(rest) + Segments(Last(rest) + b)
    ensures Segments(a + b) == Init(Segments(a)) + Segments(Last(Segments(a)) + b)
  {
    var tail := Segments(Last(rest) + b);
    if a[0] == LF {
      ConsConcat([], rest, tail);
    } else if |rest| == 1 {
      SegmentsGrowOne(a[0], rest[0], b);
      assert rest == [rest[0]];
      assert Init(rest) + tail == tail;
    } else {
      GrowEnds(a[0], rest);
      GrowConcat(a[0], Init(rest), tail);
    }
  }

  lemma SegmentsGrowOne(c: byte, piece: Bytes, b: Bytes)
    requires c != LF
    ensures Init(Grow(c, [piece])) == []
    ensures Segments(Last(Grow(c, [piece])) + b) == Grow(c, Segments(piece + b))
  {
    var t := [c] + piece + b;
    assert Last(Grow(c, [piece])) + b == t;
    assert t[1..] == piece + b;
  }

  // --- the parse ---

  /** The parsed lines of complete segments: a trailing CR is cut, blank lines are dropped. */
  function ParseComplete(valid: Bytes -> bool, segs: seq<Bytes>): seq<ParsedLine> {
    if segs == [] then []
    else
      var line := TrimCR(segs[0]);
      (if Blank(line) then [] else [ParseLine(valid, line)]) + ParseComplete(valid, segs[1..])
  }

  /** A final line with no newline keeps a trailing CR. */
  function ParseTail(valid: Bytes -> bool, rest: Bytes): seq<ParsedLine> {
    if Blank(rest) then [] else [ParseLine(valid, rest)]
  }

  /** The one-shot parse of a text. */
  function Parse(valid: Bytes -> bool, text: Bytes): seq<ParsedLine> {
    var segs := Segments(text);
    ParseComplete(valid, Init(segs)) + ParseTail(valid, Last(segs))
  }

  lemma {:induction false} ParseCompleteConcat(valid: Bytes -> bool, a: seq<Bytes>, b: seq<Bytes>)
    ensures ParseComplete(valid, a + b) == ParseComplete(valid, a) + ParseComplete(valid, b)
  {
    if a == [] {
      assert a + b == b;
    } else {
      assert (a + b)[1..] == a[1..] + b;
      ParseCompleteConcat(valid, a[1..], b);
    }
  }

  /** Position of the first newline, or |s| when there is none. */
  function IndexLF(s: Bytes): (k: nat)
    ensures k <= |s| && LF !in s[..k] && (k < |s| ==> s[k] == LF)
  {
    if s == [] || s[0] == LF then 0
    else
      var k := IndexLF(s[1..]);
      assert s[..k + 1] == [s[0]] + s[1..][..k];
      k + 1
  }

  /** Cutting at the first newline peels off exactly the first segment. */
  lemma {:induction false} SegmentsCut(s: Bytes, k: nat)
    requires k < |s| && LF !in s[..k] && s[k] == LF
    ensures Segments(s) == [s[..k]] + Segments(s[k + 1..])
  {
    if k > 0 {
      var t := s[1..];
      assert s[0] in s[..k];
      assert t[..k - 1] == s[..k][1..];
      SegmentsCut(t, k - 1);
      assert t[k..] == s[k + 1..];
      assert [s[0]] + t[..k - 1] == s[..k];
      assert Grow(s[0], [t[..k - 1]] + Segments(t[k..])) == [s[..k]] + Segments(t[k..]);
    }
  }

  lemma {:induction false} SegmentsNoLF(s: Bytes)
    requires LF !in s
    ensures Segments(s) == [s]
  {
    if s != [] {
      assert s[0] in s;
      assert forall i | 0 <= i < |s| - 1 :: s[1..][i] == s[i + 1];
      SegmentsNoLF(s[1..]);
      assert [s[0]] + s[1..] == s;
    }
  }

  /** One turn of Push: the line before the first newline becomes done. */
  lemma PushOne(valid: Bytes -> bool, whole: Bytes, done: seq<Bytes>, buf: Bytes, nl: nat)
    requires Segments(whole) == done + Segments(buf)
    requires nl < |buf| && LF !in buf[..nl] && buf[nl] == LF
    ensures Segments(whole) == done + [buf[..nl]] + Segments(buf[nl + 1..])
    ensures ParseComplete(valid, done + [buf[..nl]])
            == ParseComplete(valid, done)
               + (if Blank(TrimCR(buf[..nl])) then [] else [ParseLine(valid, TrimCR(buf[..nl]))])
  {
    SegmentsCut(buf, nl);
    var piece := buf[..nl];
    assert done + ([piece] + Segments(buf[nl + 1..])) == done + [piece] + Segments(buf[nl + 1..]);
    ParseCompleteConcat(valid, done, [piece]);
    ParseCompleteOne(valid, piece);
  }

  lemma ParseCompleteOne(valid: Bytes -> bool, piece: Bytes)
    ensures ParseComplete(valid, [piece])
            == if Blank(TrimCR(piece)) then [] else [ParseLine(valid, TrimCR(piece))]
  {
    assert [piece][1..] == [];
  }

  /** The parser object: `buf` holds the unfinished last line between two pushes. */
  class NdjsonParser {
    const valid: Bytes -> bool
    var buf: Bytes

    constructor (valid: Bytes -> bool)
      ensures this.valid == valid && buf == []
    {
      this.valid := valid;
      buf := [];
    }

    /** Appends a chunk and returns the complete lines the buffer now holds. */
    method Push(chunk: Bytes) returns (out: seq<ParsedLine>)
      modifies this`buf
      ensures buf == Last(Segments(old(buf) + chunk))
      ensures out == ParseComplete(valid, Init(Segments(old(buf) + chunk)))
    {
      buf := buf + chunk;
      ghost var whole := buf;
      ghost var done: seq<Bytes> := [];
      out := [];
      while true
        invariant Segments(whole) == done + Segments(buf)
        invariant out == ParseComplete(valid, done)
        decreases |buf|
      {
        var nl := IndexLF(buf);
        if nl == |buf| {
          break;
        }
        var line := TrimCR(buf[..nl]);
        PushOne(valid, whole, done, buf, nl);
        done := done + [buf[..nl]];
        buf := buf[nl + 1..];
        if Blank(line) { continue; }
        out := out + [ParseLine(valid, line)];
      }
      assert buf[..|buf|] == buf;
      SegmentsNoLF(buf);
      assert Init(Segments(whole)) == done;
    }

    /** Emits what is left in the buffer. */
    method Flush() returns (out: seq<ParsedLine>)
      modifies this`buf
      ensures buf == []
      ensures out == ParseTail(valid, old(buf))
    {
      var line := buf;
      buf := [];
      if Blank(line) { return []; }
      out := [ParseLine(valid, line)];
    }
  }

  /** Reading a whole output file: nothing when the file is absent, else one push and one flush. */
  method ReadAll(valid: Bytes -> bool, file: Option<Bytes>) returns (lines: seq<ParsedLine>)
    ensures lines == Parse(valid, file.GetOr([]))
  {
    if file.None? {
      assert Segments([]) == [[]];
      return [];
    }
    var p := new NdjsonParser(valid);
    lines := p.Push(file.value);
    assert [] + file.value == file.value;
    var tail := p.Flush();
    lines := lines + tail;
  }

  // --- chunking does not matter ---

  function Concat(chunks: seq<Bytes>): Bytes {
    if chunks == [] then [] else Concat(chunks[..|chunks| - 1]) + chunks[|chunks| - 1]
  }

  /** What a parser that starts empty has emitted and buffered after pushing the chunks one by one. */
  function Pushed(valid: Bytes -> bool, chunks: seq<Bytes>): (seq<ParsedLine>, Bytes) {
    if chunks == [] then ([], [])
    else
      var (out, buf) := Pushed(valid, chunks[..|chunks| - 1]);
      var segs := Segments(buf + chunks[|chunks| - 1]);
      (out + ParseComplete(valid, Init(segs)), Last(segs))
  }

  /** One push after any history keeps the link with the text pushed so far. */
  lemma PushStep(valid: Bytes -> bool, text: Bytes, chunk: Bytes)
    ensures var segs := Segments(Last(Segments(text)) + chunk);
            Last(segs) == Last(Segments(text + chunk))
            && ParseComplete(valid, Init(Segments(text))) + ParseComplete(valid, Init(segs))
               == ParseComplete(valid, Init(Segments(text + chunk)))
  {
    SegmentsConcat(text, chunk);
    var segs := Segments(Last(Segments(text)) + chunk);
    assert Init(Segments(text + chunk)) == Init(Segments(text)) + Init(segs);
    ParseCompleteConcat(valid, Init(Segments(text)), Init(segs));
  }

  lemma {:induction false} PushedState(valid: Bytes -> bool, chunks: seq<Bytes>)
    ensures Pushed(valid, chunks).0 == ParseComplete(valid, Init(Segments(Concat(chunks))))
    ensures Pushed(valid, chunks).1 == Last(Segments(Concat(chunks)))
  {
    if chunks != [] {
      var front := chunks[..|chunks| - 1];
      PushedState(valid, front);
      PushStep(valid, Concat(front), chunks[|chunks| - 1]);
    }
  }

  /** Any two ways of cutting the same text into chunks yield the same lines once flushed: the
      one-shot parse of the text. */
  lemma ChunkingIrrelevant(valid: Bytes -> bool, chunks: seq<Bytes>)
    ensures Pushed(valid, chunks).0 + ParseTail(valid, Pushed(valid, chunks).1)
            == Parse(valid, Concat(chunks))
  {
    PushedState(valid, chunks);
  }

  /** No byte of a line is dropped or reordered: a CR-free text of non-blank lines is recovered from
      its parse. */
  function LineText(l: ParsedLine): Bytes {
    match l
    case Json(v) => v
    case Raw(t) => t
  }

  function Texts(ls: seq<ParsedLine>): seq<Bytes> {
    seq(|ls|, i requires 0 <= i < |ls| => LineText(ls[i]))
  }

  ghost predicate Plain(line: Bytes) {
    LF !in line && CR !in line && !Blank(line)
  }

  lemma {:induction false} TextsComplete(valid: Bytes -> bool, segs: seq<Bytes>)
    requires forall p <- segs :: Plain(p)
    ensures Texts(ParseComplete(valid, segs)) == segs
  {
    hide Blank, TrimCR, Plain, Texts, ParseLine;
    if segs == [] {
      NoTexts(valid, segs);
    } else {
      assert segs[0] in segs;
      PlainText(valid, segs[0]);
      TextsComplete(valid, segs[1..]);
      TextsConcat([ParseLine(valid, segs[0])], ParseComplete(valid, segs[1..]));
    }
  }

  lemma NoTexts(valid: Bytes -> bool, segs: seq<Bytes>)
    requires segs == []
    ensures Texts(ParseComplete(valid, segs)) == segs
  {}

  lemma PlainText(valid: Bytes -> bool, line: Bytes)
    requires Plain(line)
    ensures !Blank(TrimCR(line)) && TrimCR(line) == line && Texts([ParseLine(valid, line)]) == [line]
  {
    hide Blank;
  }

  lemma TextsConcat(a: seq<ParsedLine>, b: seq<ParsedLine>)
    ensures Texts(a + b) == Texts(a) + Texts(b)
  {}

  lemma ParseRoundTrip(valid: Bytes -> bool, parts: seq<Bytes>)
    requires parts != []
    requires forall p <- parts :: Plain(p)
    ensures Texts(Parse(valid, Join(parts))) == parts
  {
    hide Segments, Join, Plain, NoLF, ParseComplete, ParseTail, Texts;
    PlainNoLF(parts);
    SegmentsJoin(parts);
    var n := |parts| - 1;
    PlainPartsRead(valid, parts[..n], parts[n]);
    assert parts == parts[..n] + [parts[n]];
  }

  lemma PlainNoLF(parts: seq<Bytes>)
    requires forall p <- parts :: Plain(p)
    ensures forall p <- parts :: NoLF(p)
  {
    hide Blank;
  }

  lemma PlainPartsRead(valid: Bytes -> bool, front: seq<Bytes>, last: Bytes)
    requires Plain(last)
    requires forall p <- front :: Plain(p)
    ensures Texts(ParseComplete(valid, front) + ParseTail(valid, last)) == front + [last]
  {
    assert Texts(ParseTail(valid, last)) == [last];
    hide ParseTail, Texts, Plain, Blank;
    TextsComplete(valid, front);
    TextsConcat(ParseComplete(valid, front), ParseTail(valid, last));
  }
}
