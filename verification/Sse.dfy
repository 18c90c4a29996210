/** Server-sent events: the printers of the backend (backend/adapter/http.go) and the client that reads
    them back from a stream cut anywhere (src/sse.ts). The client keeps a mutable buffer, cuts every
    complete frame off its front and handles it. */
module Sse {
  import opened Wrappers

  // --- the server's printers ---

  /** A frame as the server means it: one run event, or the end signal. */
  datatype Sent = DataFrame(payload: string) | EndFrame(payload: string)

  function FieldText(name: string, value: string): string {
    name + ": " + value
  }

  function DataLabel(): string { "data: " }

  function EndLine(): string { FieldText("event", "end") }

  function RawOf(f: Sent): string {
    match f
    case DataFrame(p) => DataLabel() + p
    case EndFrame(p) => EndLine() + "\n" + (DataLabel() + p)
  }

  function PrintAll(fs: seq<Sent>): string {
    if fs == [] then "" else TextOf(fs[0]) + PrintAll(fs[1..])
  }

  function TextOf(f: Sent): string {
    RawOf(f) + "\n\n"
  }

  lemma Assoc<T>(a: seq<T>, b: seq<T>, c: seq<T>)
    ensures a + (b + c) == (a + b) + c
  {}

  /** The response body; the printers only append. */
  class ResponseWriter {
    var body: string

    constructor ()
      ensures body == ""
    { body := ""; }

    method Emit(payload: string)
      modifies this
      ensures body == old(body) + PrintAll([DataFrame(payload)])
    {
      assert PrintAll([DataFrame(payload)][1..]) == "";
      body := body + "data: " + payload + "\n\n";
    }

    method End(payload: string)
      modifies this
      ensures body == old(body) + PrintAll([EndFrame(payload)])
    {
      assert PrintAll([EndFrame(payload)][1..]) == "";
      body := body + "event: end\n" + "data: " + payload + "\n\n";
    }
  }

  lemma {:induction false} PrintAllConcat(a: seq<Sent>, b: seq<Sent>)
    ensures PrintAll(a + b) == PrintAll(a) + PrintAll(b)
  {
    hide TextOf;
    if a == [] {
      assert a + b == b;
    } else {
      PrintAllConcat(a[1..], b);
      assert (a + b)[1..] == a[1..] + b;
      Assoc(TextOf(a[0]), PrintAll(a[1..]), PrintAll(b));
    }
  }

  // --- the frame separator: an optional CR, LF, an optional CR, LF ---

  function OptCR(s: string, i: nat): nat {
    if i < |s| && s[i] == '\r' then 1 else 0
  }

  /** The length of the separator match that starts at i, 0 when none does. */
  function SepAt(s: string, i: nat): (n: nat)
    ensures n > 0 ==> 2 <= n <= 4 && i + n <= |s|
  {
    var a := i + OptCR(s, i);
    if a < |s| && s[a] == '\n' then
      var b := a + 1 + OptCR(s, a + 1);
      if b < |s| && s[b] == '\n' then b + 1 - i else 0
    else 0
  }

  /** The leftmost position from i on where a separator starts, |s| when there is none. */
  function FindSep(s: string, i: nat): (k: nat)
    requires i <= |s|
    ensures i <= k <= |s|
    ensures k < |s| ==> SepAt(s, k) > 0
    decreases |s| - i
  {
    if i == |s| || SepAt(s, i) > 0 then i else FindSep(s, i + 1)
  }

  lemma {:induction false} FindSepFirst(s: string, i: nat, j: nat)
    requires i <= |s| && i <= j < FindSep(s, i)
    ensures SepAt(s, j) == 0
    decreases j - i
  {
    if i < j { FindSepFirst(s, i + 1, j); }
  }

  lemma {:induction false} FindSepIs(s: string, i: nat, k: nat)
    requires i <= k < |s| && SepAt(s, k) > 0
    requires forall j | i <= j < k :: SepAt(s, j) == 0
    ensures FindSep(s, i) == k
    decreases k - i
  {
    if i < k { FindSepIs(s, i + 1, k); }
  }

  predicate HasSep(s: string) {
    FindSep(s, 0) < |s|
  }

  /** The text before the first separator. */
  function Front(s: string): string
    requires HasSep(s)
  {
    s[..FindSep(s, 0)]
  }

  /** The text after the first separator. */
  function Rest(s: string): (r: string)
    requires HasSep(s)
    ensures |r| < |s|
  {
    s[FindSep(s, 0) + SepAt(s, FindSep(s, 0))..]
  }

  /** The complete frames of a text. */
  function Frames(s: string): seq<string>
    decreases |s|
  {
    if HasSep(s) then [Front(s)] + Frames(Rest(s)) else []
  }

  /** What no separator follows yet. */
  function Pending(s: string): string
    decreases |s|
  {
    if HasSep(s) then Pending(Rest(s)) else s
  }

  /** A separator that ends inside a is the leftmost one of a + b too: no earlier one can reach past
      its end. */
  lemma SepStable(a: string, b: string, i: nat)
    requires i == FindSep(a, 0) < |a|
    ensures FindSep(a + b, 0) == i && SepAt(a + b, i) == SepAt(a, i)
  {
    SepKept(a, b, i);
    hide SepAt;
    forall j | 0 <= j < i
      ensures SepAt(a + b, j) == 0
    {
      FindSepFirst(a, 0, j);
      NoEarlierSep(a, b, i, j);
    }
    FindSepIs(a + b, 0, i);
  }

  lemma SepKept(a: string, b: string, i: nat)
    requires i < |a| && SepAt(a, i) > 0
    ensures SepAt(a + b, i) == SepAt(a, i)
  {}

  lemma NoEarlierSep(a: string, b: string, i: nat, j: nat)
    requires j < i < |a| && SepAt(a, i) > 0 && SepAt(a, j) == 0
    ensures SepAt(a + b, j) == 0
  {}

  /** ... so more text after it changes neither the first frame nor, but for its end, the rest. */
  lemma CutStable(a: string, b: string)
    requires HasSep(a)
    ensures HasSep(a + b) && Front(a + b) == Front(a) && Rest(a + b) == Rest(a) + b
  {
    var k := FindSep(a, 0);
    SepStable(a, b, k);
    assert (a + b)[..k] == a[..k];
    assert (a + b)[k + SepAt(a, k)..] == a[k + SepAt(a, k)..] + b;
  }

  /** Cutting frames is blind to where the text was cut: what is pending of the front meets the back. */
  lemma {:induction false} FramesConcat(a: string, b: string)
    ensures Frames(a + b) == Frames(a) + Frames(Pending(a) + b)
    ensures Pending(a + b) == Pending(Pending(a) + b)
    decreases |a|
  {
    hide HasSep, Front, Rest;
    if HasSep(a) {
      CutStable(a, b);
      FramesConcat(Rest(a), b);
      Assoc([Front(a)], Frames(Rest(a)), Frames(Pending(a) + b));
    } else {
      assert [] + Frames(a + b) == Frames(a + b);
    }
  }

  lemma {:induction false} PendingHasNoFrame(a: string)
    ensures Frames(Pending(a)) == []
    decreases |a|
  {
    hide HasSep, Front, Rest;
    if HasSep(a) { PendingHasNoFrame(Rest(a)); }
  }

  // --- one frame's field lines ---

  datatype Frame = Frame(event: Option<string>, data: Option<string>)

  function IndexOf(s: string, c: char): (k: nat)
    ensures k <= |s| && c !in s[..k] && (k < |s| ==> s[k] == c)
  {
    if s == [] || s[0] == c then 0
    else
      var k := IndexOf(s[1..], c);
      assert s[..k + 1] == [s[0]] + s[1..][..k];
      k + 1
  }

  lemma IndexOfIs(s: string, c: char, k: nat)
    requires k <= |s| && c !in s[..k] && (k < |s| ==> s[k] == c)
    ensures IndexOf(s, c) == k
  {
    var m := IndexOf(s, c);
  }

  function DropCR(line: string): string {
    if line != "" && line[|line| - 1] == '\r' then line[..|line| - 1] else line
  }

  /** The split at an LF with an optional CR before it. */
  function FieldLines(s: string): seq<string> {
    var k := IndexOf(s, '\n');
    if k == |s| then [s] else [DropCR(s[..k])] + FieldLines(s[k + 1..])
  }

  /** A line that is neither empty nor a comment and has a colon names a field. */
  predicate IsField(line: string, name: string) {
    line != "" && line[0] != ':' && IndexOf(line, ':') < |line| && line[..IndexOf(line, ':')] == name
  }

  /** What follows the colon, less one leading space. */
  function ValueOf(line: string): string
    requires IndexOf(line, ':') < |line|
  {
    var v := line[IndexOf(line, ':') + 1..];
    if v != "" && v[0] == ' ' then v[1..] else v
  }

  /** The values of a field, in order. */
  function Values(lines: seq<string>, name: string): seq<string> {
    if lines == [] then []
    else
      var n := |lines| - 1;
      Values(lines[..n], name) + (if IsField(lines[n], name) then [ValueOf(lines[n])] else [])
  }

  function JoinLines(parts: seq<string>): string
    requires parts != []
  {
    if |parts| == 1 then parts[0] else parts[0] + "\n" + JoinLines(parts[1..])
  }

  /** The last event field names the frame; the data fields are joined by newlines. */
  function FrameOf(raw: string): Frame {
    var events := Values(FieldLines(raw), "event");
    var data := Values(FieldLines(raw), "data");
    Frame(if events == [] then None else Some(events[|events| - 1]),
          if data == [] then None else Some(JoinLines(data)))
  }

  method ParseFrame(raw: string) returns (f: Frame)
    ensures f == FrameOf(raw)
  {
    var lines := FieldLines(raw);
    var event: Option<string> := None;
    var data: seq<string> := [];
    for i := 0 to |lines|
      invariant data == Values(lines[..i], "data")
      invariant event == (var vs := Values(lines[..i], "event"); if vs == [] then None else Some(vs[|vs| - 1]))
    {
      var line := lines[i];
      assert lines[..i + 1][..i] == lines[..i];
      if line == "" || line[0] == ':' { continue; }
      var colon := IndexOf(line, ':');
      if colon == |line| { continue; }
      var field := line[..colon];
      var value := ValueOf(line);
      if field == "event" { event := Some(value); }
      else if field == "data" { data := data + [value]; }
    }
    assert lines[..|lines|] == lines;
    f := Frame(event, if data == [] then None else Some(JoinLines(data)));
  }

  /** No line feed, and no carriage return at the end, where it would join the separator. */
  predicate OneLine(p: string) {
    '\n' !in p && (p != "" ==> p[|p| - 1] != '\r')
  }

  lemma FieldLinesOne(p: string)
    requires OneLine(p)
    ensures FieldLines(p) == [p]
  {
    IndexOfIs(p, '\n', |p|);
  }

  /** A printed field is read back as the field it was. */
  lemma FieldTextReads(name: string, value: string, other: string)
    requires name != "" && ':' !in name && other != name
    ensures IsField(FieldText(name, value), name) && ValueOf(FieldText(name, value)) == value
    ensures !IsField(FieldText(name, value), other)
  {
    var line := FieldText(name, value);
    assert line[..|name|] == name && line[|name|] == ':' && line[|name| + 1] == ' ';
    assert line[0] == name[0] && name[0] in name;
    IndexOfIs(line, ':', |name|);
    assert line[|name| + 1..][1..] == value;
  }

  lemma DataLine(p: string)
    requires OneLine(p)
    ensures OneLine(DataLabel() + p)
    ensures IsField(DataLabel() + p, "data") && ValueOf(DataLabel() + p) == p
    ensures !IsField(DataLabel() + p, "event")
  {
    assert OneLine(DataLabel());
    assert DataLabel() + p == FieldText("data", p);
    hide IsField, ValueOf, FieldText;
    FieldTextReads("data", p, "event");
  }

  lemma EventLine()
    ensures OneLine(EndLine())
    ensures IsField(EndLine(), "event") && ValueOf(EndLine()) == "end"
    ensures !IsField(EndLine(), "data")
  {
    hide IsField, ValueOf;
    FieldTextReads("event", "end", "data");
  }

  /** Parsing a printed frame gives back its kind and its payload, whatever colons and spaces the
      payload holds. */
  lemma PrintedFrameParses(f: Sent)
    requires OneLine(f.payload)
    ensures FrameOf(RawOf(f)) == Frame(if f.EndFrame? then Some("end") else None, Some(f.payload))
  {
    hide FieldLines, Values, IsField, ValueOf, OneLine, DataLabel, EndLine, JoinLines;
    var line := DataLabel() + f.payload;
    DataLine(f.payload);
    FieldLinesOne(line);
    LastValue(line);
    JoinOne(f.payload);
    if f.EndFrame? { EndFrameValues(line, f.payload); }
  }

  lemma JoinOne(p: string)
    ensures JoinLines([p]) == p
  {}

  lemma EndFrameValues(line: string, p: string)
    requires FieldLines(line) == [line] && Values([line], "data") == [p] && Values([line], "event") == []
    ensures Values(FieldLines(EndLine() + "\n" + line), "data") == [p]
    ensures Values(FieldLines(EndLine() + "\n" + line), "event") == ["end"]
  {
    hide FieldLines, Values, IsField, ValueOf, OneLine, EndLine;
    var head := EndLine();
    EventLine();
    SplitAtLF(head, line);
    LastValue(head);
    ValuesTwo(head, line, "data");
    ValuesTwo(head, line, "event");
  }

  lemma LastValue(line: string)
    ensures Values([line], "data") == if IsField(line, "data") then [ValueOf(line)] else []
    ensures Values([line], "event") == if IsField(line, "event") then [ValueOf(line)] else []
  {
    ValuesOne(line, "data");
    ValuesOne(line, "event");
  }

  lemma SplitAtLF(head: string, rest: string)
    requires OneLine(head)
    ensures FieldLines(head + "\n" + rest) == [head] + FieldLines(rest)
  {
    var raw := head + "\n" + rest;
    assert raw[..|head|] == head && raw[|head|] == '\n' && raw[|head| + 1..] == rest;
    IndexOfIs(raw, '\n', |head|);
  }

  lemma ValuesOne(line: string, name: string)
    ensures Values([line], name) == if IsField(line, name) then [ValueOf(line)] else []
  {
    assert [line][..0] == [];
  }

  lemma ValuesTwo(a: string, b: string, name: string)
    ensures Values([a] + [b], name) == Values([a], name) + Values([b], name)
  {
    assert ([a] + [b])[..1] == [a];
    ValuesOne(b, name);
  }

  // --- the client ---

  predicate IsSpace(c: char) {
    '\t' <= c <= '\r' || c == ' ' || c == '\U{A0}' || c == '\U{FEFF}' || c == '\U{1680}'
    || '\U{2000}' <= c <= '\U{200A}' || c == '\U{2028}' || c == '\U{2029}' || c == '\U{202F}'
    || c == '\U{205F}' || c == '\U{3000}'
  }

  /** trim() leaves something. */
  predicate HasText(s: string) {
    exists i | 0 <= i < |s| :: !IsSpace(s[i])
  }

  /** What JSON decoding and rendering make of a payload: the end record it decodes to, and the line it
      renders to (none for a malformed, line-less or hidden event). */
  datatype Codec<!E> = Codec(endOf: string -> Option<E>, lineOf: string -> Option<string>)

  datatype RunEnd<E> = Unknown | Ended(value: E)

  /** The lines shown and the end record so far. */
  datatype View<E> = View(lines: seq<string>, end: Option<RunEnd<E>>)

  function Handled<E>(codec: Codec<E>, v: View<E>, raw: string): View<E> {
    var frame := FrameOf(raw);
    if frame.event == Some("end") then
      var end := if frame.data.None? then None else codec.endOf(frame.data.value);
      v.(end := Some(if end.None? then Unknown else Ended(end.value)))
    else if frame.data.Some? && codec.lineOf(frame.data.value).Some? then
      v.(lines := v.lines + [codec.lineOf(frame.data.value).value])
    else v
  }

  function HandledAll<E>(codec: Codec<E>, v: View<E>, raws: seq<string>): View<E> {
    if raws == [] then v
    else Handled(codec, HandledAll(codec, v, raws[..|raws| - 1]), raws[|raws| - 1])
  }

  lemma HandledStep<E>(codec: Codec<E>, v: View<E>, done: seq<string>, raw: string)
    ensures HandledAll(codec, v, done + [raw]) == Handled(codec, HandledAll(codec, v, done), raw)
  {
    assert (done + [raw])[..|done|] == done;
  }

  lemma {:induction false} HandledAllConcat<E>(codec: Codec<E>, v: View<E>, a: seq<string>, b: seq<string>)
    ensures HandledAll(codec, v, a + b) == HandledAll(codec, HandledAll(codec, v, a), b)
  {
    if b == [] {
      assert a + b == a;
    } else {
      assert (a + b)[..|a + b| - 1] == a + b[..|b| - 1];
      HandledAllConcat(codec, v, a, b[..|b| - 1]);
    }
  }

  class StreamClient<E> {
    const codec: Codec<E>
    var buffer: string
    var view: View<E>

    constructor (codec: Codec<E>)
      ensures this.codec == codec && buffer == "" && view == View([], None)
    {
      this.codec := codec;
      buffer := "";
      view := View([], None);
    }

    method Handle(raw: string)
      modifies this`view
      ensures view == Handled(codec, old(view), raw)
    {
      var frame := ParseFrame(raw);
      if frame.event == Some("end") {
        var end: RunEnd<E> := Unknown;
        if frame.data.Some? {
          match codec.endOf(frame.data.value)
          case Some(e) => end := Ended(e);
          case None =>
        }
        view := view.(end := Some(end));
        return;
      }
      if frame.data.Some? {
        match codec.lineOf(frame.data.value)
        case Some(line) => view := view.(lines := view.lines + [line]);
        case None =>
      }
    }

    /** Handles every complete frame; on the final flush also what is left, if it is not all blank. */
    method Drain(flush: bool)
      modifies this
      ensures buffer == Pending(old(buffer))
      ensures view == HandledAll(codec, old(view),
                if flush then Frames(old(buffer)) + Tail(Pending(old(buffer))) else Frames(old(buffer)))
    {
      hide HasSep, Front, Rest;
      ghost var whole := buffer;
      ghost var done: seq<string> := [];
      while true
        invariant Frames(whole) == done + Frames(buffer) && Pending(whole) == Pending(buffer)
        invariant view == HandledAll(codec, old(view), done)
        decreases |buffer|
      {
        if !HasSep(buffer) { break; }
        var raw := Front(buffer);
        buffer := Rest(buffer);
        Handle(raw);
        HandledStep(codec, old(view), done, raw);
        Assoc(done, [raw], Frames(buffer));
        done := done + [raw];
      }
      assert done + [] == done;
      if flush && HasText(buffer) {
        Handle(buffer);
        HandledStep(codec, old(view), done, buffer);
      }
    }
  }

  function Concat(chunks: seq<string>): string {
    if chunks == [] then "" else Concat(chunks[..|chunks| - 1]) + chunks[|chunks| - 1]
  }

  /** What a whole text means to the client. */
  function Interpreted<E>(codec: Codec<E>, text: string): View<E> {
    HandledAll(codec, View([], None),
      Frames(text) + Tail(Pending(text)))
  }

  function Tail(rest: string): seq<string> {
    if HasText(rest) then [rest] else []
  }

  /** Handling the frames a chunk completes is handling the frames of the longer text. */
  lemma Absorb<E>(codec: Codec<E>, v: View<E>, text: string, chunk: string)
    ensures HandledAll(codec, v, Frames(text + chunk))
            == HandledAll(codec, HandledAll(codec, v, Frames(text)), Frames(Pending(text) + chunk))
    ensures Pending(text + chunk) == Pending(Pending(text) + chunk)
  {
    hide Frames, Pending;
    FramesConcat(text, chunk);
    HandledAllConcat(codec, v, Frames(text), Frames(Pending(text) + chunk));
  }

  /** The final flush finds no further frame, only the unfinished one. */
  lemma Settle<E>(codec: Codec<E>, v: View<E>, text: string)
    ensures Frames(Pending(text)) + Tail(Pending(Pending(text))) == Tail(Pending(text))
    ensures HandledAll(codec, HandledAll(codec, v, Frames(text)), Tail(Pending(text)))
            == HandledAll(codec, v, Frames(text) + Tail(Pending(text)))
  {
    PendingHasNoFrame(text);
    FramesConcat(text, "");
    assert text + "" == text && Pending(text) + "" == Pending(text);
    HandledAllConcat(codec, v, Frames(text), Tail(Pending(text)));
  }

  /** Reading a stream to its end. Only the text counts, never the chunks it came in. */
  method StreamRun<E>(codec: Codec<E>, chunks: seq<string>) returns (lines: seq<string>, end: RunEnd<E>)
    ensures lines == Interpreted(codec, Concat(chunks)).lines
    ensures end == Interpreted(codec, Concat(chunks)).end.GetOr(Unknown)
  {
    hide HandledAll, Frames, Pending, HasText;
    var c := new StreamClient(codec);
    ghost var start := c.view;
    assert Frames("") == [] && Pending("") == "" && HandledAll(codec, start, []) == start by {
      EmptyText(codec, start);
    }
    for i := 0 to |chunks|
      invariant fresh(c) && c.codec == codec
      invariant c.buffer == Pending(Concat(chunks[..i]))
      invariant c.view == HandledAll(codec, start, Frames(Concat(chunks[..i])))
    {
      assert chunks[..i + 1][..i] == chunks[..i];
      Absorb(codec, start, Concat(chunks[..i]), chunks[i]);
      c.buffer := c.buffer + chunks[i];
      c.Drain(false);
    }
    assert chunks[..|chunks|] == chunks;
    Settle(codec, start, Concat(chunks));
    c.Drain(true);
    lines, end := c.view.lines, c.view.end.GetOr(Unknown);
  }

  lemma EmptyText<E>(codec: Codec<E>, v: View<E>)
    ensures Frames("") == [] && Pending("") == "" && HandledAll(codec, v, []) == v
  {
    assert !HasSep("");
  }

  // --- the round trip ---

  /** What one frame means: a line to show, or the end record. */
  function Meaning<E>(codec: Codec<E>, v: View<E>, f: Sent): View<E> {
    match f
    case DataFrame(p) =>
      if codec.lineOf(p).Some? then v.(lines := v.lines + [codec.lineOf(p).value]) else v
    case EndFrame(p) =>
      v.(end := Some(if codec.endOf(p).Some? then Ended(codec.endOf(p).value) else Unknown))
  }

  /** The lines a list of frames shows, in order, and its last end record. */
  function MeaningOfAll<E>(codec: Codec<E>, fs: seq<Sent>): View<E> {
    if fs == [] then View([], None)
    else Meaning(codec, MeaningOfAll(codec, fs[..|fs| - 1]), fs[|fs| - 1])
  }

  function Raws(fs: seq<Sent>): seq<string> {
    seq(|fs|, i requires 0 <= i < |fs| => RawOf(fs[i]))
  }

  /** No character of a printed frame starts a separator. */
  ghost predicate Unbroken(raw: string) {
    forall j | 0 <= j < |raw| :: UnbrokenAt(raw, j)
  }

  predicate UnbrokenAt(raw: string, j: nat)
    requires j < |raw|
  {
    && (raw[j] == '\r' ==> j + 1 < |raw| && raw[j + 1] != '\n')
    && (raw[j] == '\n' ==> j + 1 < |raw| && raw[j + 1] == 'd')
  }

  lemma UnbrokenConcat(a: string, b: string)
    requires Unbroken(a) && Unbroken(b)
    ensures Unbroken(a + b)
  {
    var s := a + b;
    forall j | 0 <= j < |s|
      ensures UnbrokenAt(s, j)
    {
      if j < |a| {
        assert UnbrokenAt(a, j);
      } else {
        assert UnbrokenAt(b, j - |a|);
      }
    }
  }

  lemma PrintedUnbroken(f: Sent)
    requires OneLine(f.payload)
    ensures Unbroken(RawOf(f))
  {
    assert Unbroken(f.payload) && Unbroken(DataLabel());
    UnbrokenConcat(DataLabel(), f.payload);
    if f.EndFrame? {
      assert Unbroken(EndLine() + "\n" + DataLabel());
      UnbrokenConcat(EndLine() + "\n" + DataLabel(), f.payload);
      assert RawOf(f) == (EndLine() + "\n" + DataLabel()) + f.payload;
    }
  }

  lemma NoSepInside(raw: string, rest: string)
    requires Unbroken(raw)
    ensures FindSep(raw + "\n\n" + rest, 0) == |raw|
    ensures SepAt(raw + "\n\n" + rest, |raw|) == 2
  {
    var s := raw + "\n\n" + rest;
    assert s[|raw|] == '\n' && s[|raw| + 1] == '\n';
    forall j | 0 <= j < |raw|
      ensures SepAt(s, j) == 0
    {
      assert UnbrokenAt(raw, j);
    }
    FindSepIs(s, 0, |raw|);
  }

  lemma CutPrinted(f: Sent, rest: string)
    requires OneLine(f.payload)
    ensures HasSep(TextOf(f) + rest)
    ensures Front(TextOf(f) + rest) == RawOf(f) && Rest(TextOf(f) + rest) == rest
  {
    PrintedUnbroken(f);
    hide RawOf, Unbroken;
    NoSepInside(RawOf(f), rest);
    var raw, s := RawOf(f), TextOf(f) + rest;
    assert s[..|raw|] == raw && s[|raw| + 2..] == rest;
  }

  lemma {:induction false} PrintedFrames(fs: seq<Sent>)
    requires forall f <- fs :: OneLine(f.payload)
    ensures Frames(PrintAll(fs)) == Raws(fs) && Pending(PrintAll(fs)) == ""
  {
    hide HasSep, Front, Rest, RawOf, TextOf, OneLine, Raws;
    if fs == [] {
      NothingPrinted(fs);
    } else {
      CutPrinted(fs[0], PrintAll(fs[1..]));
      PrintedFrames(fs[1..]);
      RawsFirst(fs);
    }
  }

  lemma NothingPrinted(fs: seq<Sent>)
    requires fs == []
    ensures !HasSep("") && Raws(fs) == []
  {}

  lemma RawsFirst(fs: seq<Sent>)
    requires fs != []
    ensures Raws(fs) == [RawOf(fs[0])] + Raws(fs[1..])
  {
    hide RawOf;
  }

  lemma HandledOne<E>(codec: Codec<E>, v: View<E>, f: Sent)
    requires OneLine(f.payload)
    ensures Handled(codec, v, RawOf(f)) == Meaning(codec, v, f)
  {
    PrintedFrameParses(f);
  }

  lemma {:induction false} HandledPrinted<E>(codec: Codec<E>, fs: seq<Sent>)
    requires forall f <- fs :: OneLine(f.payload)
    ensures HandledAll(codec, View([], None), Raws(fs)) == MeaningOfAll(codec, fs)
  {
    hide RawOf, Handled, Meaning, OneLine;
    if fs != [] {
      var n := |fs| - 1;
      HandledPrinted(codec, fs[..n]);
      assert Raws(fs) == Raws(fs[..n]) + [RawOf(fs[n])];
      HandledStep(codec, View([], None), Raws(fs[..n]), RawOf(fs[n]));
      HandledOne(codec, MeaningOfAll(codec, fs[..n]), fs[n]);
    }
  }

  /** Printing any frames whose payloads come back one by one, cutting the text anywhere and reading it
      hands back the same events in order and the last end record, with nothing extra. */
  lemma RoundTrip<E>(codec: Codec<E>, fs: seq<Sent>, chunks: seq<string>)
    requires forall f <- fs :: OneLine(f.payload)
    requires Concat(chunks) == PrintAll(fs)
    ensures Interpreted(codec, Concat(chunks)) == MeaningOfAll(codec, fs)
  {
    PrintedFrames(fs);
    HandledPrinted(codec, fs);
    hide Frames, Pending, HandledAll, MeaningOfAll, Raws, OneLine;
    assert Raws(fs) + [] == Raws(fs);
  }

  // --- which payloads come back ---

  /** The frame's text, cut and parsed, gives its kind and its payload. */
  predicate ComesBack(f: Sent) {
    && HasSep(TextOf(f))
    && FrameOf(Front(TextOf(f))) == Frame(if f.EndFrame? then Some("end") else None, Some(f.payload))
  }

  /** A frame comes back exactly when its payload has no line feed and does not end in a carriage return. */
  lemma ComesBackIff(f: Sent)
    ensures ComesBack(f) <==> OneLine(f.payload)
  {
    hide RawOf, TextOf, FrameOf, OneLine, HasSep, Front;
    assert TextOf(f) + "" == TextOf(f);
    if OneLine(f.payload) {
      CutPrinted(f, "");
      PrintedFrameParses(f);
    } else if HasSep(TextOf(f)) {
      var q := CutShort(f);
      DataShorter(f, q);
    }
  }

  /** A frame with another payload, or the start of one. */
  function Carrying(f: Sent, q: string): Sent {
    if f.DataFrame? then DataFrame(q) else EndFrame(q)
  }

  /** What is cut off is the frame with a front of the payload: a proper one unless it has a line feed. */
  lemma CutShort(f: Sent) returns (q: string)
    requires !OneLine(f.payload) && HasSep(TextOf(f))
    ensures q <= f.payload && Front(TextOf(f)) == RawOf(Carrying(f, q)) && ('\n' in q || |q| < |f.payload|)
  {
    hide RawOf, SepAt, FindSep, Unbroken;
    var head, p := RawOf(Carrying(f, "")), f.payload;
    HeadOf(f, p);
    assert TextOf(f) == head + p + "\n\n";
    var k := FindSep(head + p + "\n\n", 0);
    HeadUnbroken(f);
    HeadStays(head, p, k);
    EndsBy(head + p, k);
    q := p[..k - |head|];
    HeadOf(f, q);
    assert (head + p + "\n\n")[..k] == head + q;
    if '\n' !in q && q == p {
      assert (head + p)[|head + p| - 1] == '\r';
      EndsEarly(head + p, k);
    }
  }

  lemma HeadStays(head: string, p: string, k: nat)
    requires Unbroken(head) && k == FindSep(head + p + "\n\n", 0)
    ensures k >= |head|
  {
    var s := head + p + "\n\n";
    forall j | 0 <= j < |head| ensures SepAt(s, j) == 0 {
      assert UnbrokenAt(head, j) && s[j] == head[j] && (j + 1 < |head| ==> s[j + 1] == head[j + 1]);
    }
  }

  lemma HeadOf(f: Sent, q: string)
    ensures RawOf(Carrying(f, q)) == RawOf(Carrying(f, "")) + q
  {}

  lemma HeadUnbroken(f: Sent)
    ensures Unbroken(RawOf(Carrying(f, "")))
  {
    PrintedUnbroken(Carrying(f, ""));
  }

  lemma EndsBy(raw: string, k: nat)
    requires k == FindSep(raw + "\n\n", 0)
    ensures k <= |raw|
  {
    var s := raw + "\n\n";
    assert s[|raw|] == '\n' && s[|raw| + 1] == '\n' && SepAt(s, |raw|) == 2;
    if k > |raw| { FindSepFirst(s, 0, |raw|); }
  }

  lemma EndsEarly(raw: string, k: nat)
    requires k == FindSep(raw + "\n\n", 0) && raw != "" && raw[|raw| - 1] == '\r'
    ensures k < |raw|
  {
    var s := raw + "\n\n";
    var j := |raw| - 1;
    assert s[j] == '\r' && s[j + 1] == '\n' && s[j + 2] == '\n' && SepAt(s, j) == 3;
    if k > j { FindSepFirst(s, 0, j); }
  }

  lemma {:induction false} ValuesConcat(a: seq<string>, b: seq<string>, name: string)
    ensures Values(a + b, name) == Values(a, name) + Values(b, name)
  {
    hide IsField, ValueOf;
    if b == [] {
      assert a + b == a;
    } else {
      var n := |b| - 1;
      ValuesConcat(a, b[..n], name);
      assert (a + b)[..|a| + n] == a + b[..n];
    }
  }

  /** The data of a text is shorter than the text by a field's name and colon. */
  lemma {:induction false} DataFits(s: string)
    ensures var data := Values(FieldLines(s), "data"); data == [] || |JoinLines(data)| + 5 <= |s|
    decreases |s|
  {
    hide IsField, ValueOf, JoinLines, Values;
    var k := IndexOf(s, '\n');
    if k == |s| {
      ValuesOne(s, "data");
      if IsField(s, "data") { FieldShorter(s); JoinFirst(ValueOf(s), []); assert [ValueOf(s)] + [] == [ValueOf(s)]; }
    } else {
      DataFits(s[k + 1..]);
      FirstLineData(DropCR(s[..k]), FieldLines(s[k + 1..]));
    }
  }

  lemma JoinFirst(first: string, rest: seq<string>)
    ensures |JoinLines([first] + rest)| == |first| + if rest == [] then 0 else 1 + |JoinLines(rest)|
  {
    assert ([first] + rest)[1..] == rest;
  }

  lemma FieldShorter(line: string)
    requires IsField(line, "data")
    ensures IndexOf(line, ':') < |line| && |ValueOf(line)| + 5 <= |line|
  {}

  /** The first line's share of the joined data. */
  lemma FirstLineData(line: string, lines: seq<string>)
    ensures var (all, rest) := (Values([line] + lines, "data"), Values(lines, "data"));
            && (all != [] ==>
                  |JoinLines(all)| <= (if IsField(line, "data") then |ValueOf(line)| + 1 else 0)
                                      + if rest == [] then 0 else |JoinLines(rest)|)
            && (all == [] <==> !IsField(line, "data") && rest == [])
            && (IsField(line, "data") && rest == [] ==> all == [ValueOf(line)])
            && (IsField(line, "data") ==> |ValueOf(line)| + 5 <= |line|)
  {
    hide IsField, ValueOf, JoinLines, Values;
    ValuesConcat([line], lines, "data");
    ValuesOne(line, "data");
    var rest := Values(lines, "data");
    if IsField(line, "data") {
      FieldShorter(line);
      JoinFirst(ValueOf(line), rest);
      assert [ValueOf(line)] + [] == [ValueOf(line)];
    } else {
      assert [] + rest == rest;
    }
  }

  /** The data of a frame is its payload or shorter, and shorter when the payload has a line feed. */
  lemma DataShorter(f: Sent, q: string)
    ensures var data := FrameOf(RawOf(Carrying(f, q))).data;
            data.Some? ==> |data.value| <= |q| && ('\n' in q ==> |data.value| < |q|)
  {
    hide FieldLines, Values, JoinLines, DataLabel;
    LabelledShorter(q);
    if f.EndFrame? { EndDataSame(q); }
  }

  lemma EndDataSame(q: string)
    ensures Values(FieldLines(EndLine() + "\n" + (DataLabel() + q)), "data") == Values(FieldLines(DataLabel() + q), "data")
  {
    hide FieldLines, Values, IsField, ValueOf, DataLabel, EndLine;
    EventLine();
    SplitAtLF(EndLine(), DataLabel() + q);
    ValuesConcat([EndLine()], FieldLines(DataLabel() + q), "data");
    LastValue(EndLine());
    assert [] + Values(FieldLines(DataLabel() + q), "data") == Values(FieldLines(DataLabel() + q), "data");
  }

  lemma LabelledShorter(q: string)
    ensures var data := Values(FieldLines(DataLabel() + q), "data");
            data != [] ==> |JoinLines(data)| <= |q| && ('\n' in q ==> |JoinLines(data)| < |q|)
  {
    hide IsField, ValueOf, JoinLines, Values, FieldLines, IndexOf, DropCR, DataLabel;
    var s := DataLabel() + q;
    var k := IndexOf(s, '\n');
    LabelFirst(q, k);
    LinesCut(s);
    if k == |s| {
      ValuesOne(s, "data");
      LabelRead(s);
      JoinFirst(ValueOf(s), []);
      assert [ValueOf(s)] + [] == [ValueOf(s)];
    } else {
      var line := DropCR(s[..k]);
      DataFits(s[k + 1..]);
      LabelRead(line);
      FirstLineData(line, FieldLines(s[k + 1..]));
      JoinFirst(ValueOf(line), []);
      assert [ValueOf(line)] + [] == [ValueOf(line)];
    }
  }

  lemma LinesCut(s: string)
    ensures var k := IndexOf(s, '\n');
            FieldLines(s) == if k == |s| then [s] else [DropCR(s[..k])] + FieldLines(s[k + 1..])
  {
    hide IndexOf, DropCR;
  }

  /** Nothing in the label ends its line. */
  lemma LabelFirst(q: string, k: nat)
    requires k == IndexOf(DataLabel() + q, '\n')
    ensures k == |DataLabel() + q| ==> '\n' !in q
    ensures k >= 6 && DataLabel() <= (DataLabel() + q)[..k] && DataLabel() <= DropCR((DataLabel() + q)[..k])
    ensures |DropCR((DataLabel() + q)[..k])| <= k && |DataLabel()| == 6
  {
    assert |DataLabel()| == 6 && '\n' !in DataLabel() && DataLabel()[5] == ' ';
    hide DataLabel;
    LineStart(DataLabel(), q, k);
  }

  lemma LineStart(head: string, q: string, k: nat)
    requires head != "" && '\n' !in head && head[|head| - 1] != '\r' && k == IndexOf(head + q, '\n')
    ensures k == |head + q| ==> '\n' !in q
    ensures k >= |head| && head <= (head + q)[..k] && head <= DropCR((head + q)[..k])
  {
    hide IndexOf, DropCR;
    var s := head + q;
    assert forall i | 0 <= i < |head| :: s[i] == head[i] && head[i] in head;
    if k == |s| {
      assert s[..k] == s;
      assert forall i | 0 <= i < |q| :: q[i] == s[|head| + i];
    }
    assert s[..k][..|head|] == head;
    KeepsHead(head, s[..k]);
  }

  /** A dropped carriage return is not the head's. */
  lemma KeepsHead(head: string, line: string)
    requires head != "" && head[|head| - 1] != '\r' && head <= line
    ensures head <= DropCR(line)
  {
    assert line[..|head|] == head;
  }

  lemma LabelRead(line: string)
    requires DataLabel() <= line
    ensures IsField(line, "data") && |ValueOf(line)| == |line| - 6
  {
    assert line[..6] == "data: ";
    assert line[..4] == line[..6][..4] == "data" && line[4] == line[..6][4] == ':' && line[5] == line[..6][5] == ' ';
    IndexOfIs(line, ':', 4);
  }
}
