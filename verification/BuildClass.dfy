/** How a finished build is read (backend/usecase/buildclass.go): its final spoken text, the sentinels
    in it, usage limits, and the outcome the engine and the workflow act on. JSON decoding and the
    limit patterns are functions of a `Reader`. */
module BuildClass {
  import opened Wrappers
  import opened Runs
  import opened Ndjson

  datatype Outcome = Terminal | Retryable | Park | Awaiting

  datatype Content = Missing | Str(text: string) | Blocks(blocks: seq<Block>) | Opaque

  datatype Block = Block(kind: string, text: string)

  datatype Message = Message(role: string, content: Content)

  /** The fields of a stream message that carry speech; `result` is the result text when it is a
      string. */
  datatype StreamMsg = StreamMsg(
    kind: string,
    result: Option<string>,
    message: Message,
    content: Content,
    partText: string,
    itemType: string,
    itemText: string,
    messages: seq<Message>)

  datatype Decision = Decision(kind: string, question: string, options: seq<string>, slice: Option<int>)

  /** What the model leaves to its environment: JSON and text decoding, and the limit patterns. */
  datatype Reader = Reader(
    decode: Bytes -> Option<StreamMsg>,
    text: Bytes -> string,
    decision: string -> Option<Decision>,
    isAuthError: string -> bool,
    isUsageLimit: string -> bool,
    resetAt: (string, int) -> Option<int>)

  // --- the final spoken text ---

  function JoinWith(parts: seq<string>): string
    requires parts != []
  {
    if |parts| == 1 then parts[0] else parts[0] + "\n" + JoinWith(parts[1..])
  }

  function TextBlocks(blocks: seq<Block>): seq<string> {
    if blocks == [] then []
    else (if blocks[0].kind == "text" && blocks[0].text != "" then [blocks[0].text] else []) + TextBlocks(blocks[1..])
  }

  function AssistantText(content: Content): Option<string> {
    match content
    case Str(s) => Some(s)
    case Blocks(bs) => if TextBlocks(bs) == [] then None else Some(JoinWith(TextBlocks(bs)))
    case _ => None
  }

  /** The last assistant message that has text. */
  function LastAssistant(messages: seq<Message>): Option<string> {
    if messages == [] then None
    else
      var m := messages[|messages| - 1];
      if m.role == "assistant" && AssistantText(m.content).Some? then AssistantText(m.content)
      else LastAssistant(messages[..|messages| - 1])
  }

  datatype Speech = Speech(result: Option<string>, assistant: Option<string>)

  function OrElse<T>(a: Option<T>, b: Option<T>): Option<T> {
    if a.Some? then a else b
  }

  function ApplyStreamMsg(v: StreamMsg, s: Speech): Speech {
    if v.kind == "result" then s.(result := OrElse(v.result, s.result))
    else if v.kind == "assistant" then
      s.(assistant := OrElse(AssistantText(if v.message.content.Missing? then v.content else v.message.content), s.assistant))
    else if v.kind == "text" then
      if v.partText == "" then s
      else s.(assistant := Some(if s.assistant.Some? then s.assistant.value + "\n" + v.partText else v.partText))
    else if v.kind == "item.completed" then
      if v.itemType == "agent_message" && v.itemText != "" then s.(assistant := Some(v.itemText)) else s
    else if v.kind == "message_end" then
      if v.message.role == "assistant" then s.(assistant := OrElse(AssistantText(v.message.content), s.assistant)) else s
    else if v.kind == "agent_end" then s.(assistant := OrElse(LastAssistant(v.messages), s.assistant))
    else s
  }

  function HeardLine(reader: Reader, line: ParsedLine, s: Speech): Speech {
    if line.Json? && reader.decode(line.value).Some? then ApplyStreamMsg(reader.decode(line.value).value, s) else s
  }

  function Heard(reader: Reader, lines: seq<ParsedLine>, s: Speech): Speech {
    if lines == [] then s else Heard(reader, lines[1..], HeardLine(reader, lines[0], s))
  }

  function FinalText(reader: Reader, lines: seq<ParsedLine>): Option<string> {
    var s := Heard(reader, lines, Speech(None, None));
    OrElse(s.result, s.assistant)
  }

  lemma {:induction false} HeardConcat(reader: Reader, a: seq<ParsedLine>, b: seq<ParsedLine>, s: Speech)
    ensures Heard(reader, a + b, s) == Heard(reader, b, Heard(reader, a, s))
  {
    hide HeardLine;
    if a == [] {
      assert a + b == b;
    } else {
      assert (a + b)[1..] == a[1..] + b;
      HeardConcat(reader, a[1..], b, HeardLine(reader, a[0], s));
    }
  }

  method FinalSpokenText(reader: Reader, lines: seq<ParsedLine>) returns (text: Option<string>)
    ensures text == FinalText(reader, lines)
  {
    var s := Speech(None, None);
    assert lines[0..] == lines;
    hide ApplyStreamMsg;
    for i := 0 to |lines|
      invariant Heard(reader, lines[i..], s) == Heard(reader, lines, Speech(None, None))
    {
      assert lines[i..][1..] == lines[i + 1..];
      var l := lines[i];
      if !l.Json? { continue; }
      match reader.decode(l.value)
      case None => continue;
      case Some(v) => s := ApplyStreamMsg(v, s);
    }
    text := OrElse(s.result, s.assistant);
  }

  /** A line the model did not speak: raw output, undecodable JSON, or a message of another kind. */
  ghost predicate Noise(reader: Reader, line: ParsedLine) {
    forall s :: HeardLine(reader, line, s) == s
  }

  lemma RawIsNoise(reader: Reader, text: Bytes)
    ensures Noise(reader, Raw(text))
  {}

  lemma OtherKindIsNoise(reader: Reader, line: ParsedLine)
    requires line.Json? && reader.decode(line.value).Some?
    requires reader.decode(line.value).value.kind !in
               ["result", "assistant", "text", "item.completed", "message_end", "agent_end"]
    ensures Noise(reader, line)
  {}

  /** Only what the model said counts: a noise line anywhere, such as a breadcrumb the engine appends,
      leaves the final text as it was. */
  lemma NoiseChangesNothing(reader: Reader, a: seq<ParsedLine>, line: ParsedLine, b: seq<ParsedLine>)
    requires Noise(reader, line)
    ensures FinalText(reader, a + [line] + b) == FinalText(reader, a + b)
  {
    var s := Speech(None, None);
    hide HeardLine;
    HeardConcat(reader, a + [line], b, s);
    HeardConcat(reader, a, [line], s);
    HeardConcat(reader, a, b, s);
    assert [line][1..] == [];
  }

  /** A line that speaks a final result. */
  ghost predicate SaysResult(reader: Reader, line: ParsedLine, text: string) {
    line.Json? && reader.decode(line.value).Some?
    && reader.decode(line.value).value.kind == "result" && reader.decode(line.value).value.result == Some(text)
  }

  lemma {:induction false} ResultKept(reader: Reader, lines: seq<ParsedLine>, s: Speech)
    requires s.result.Some?
    requires forall line, t | line in lines :: !SaysResult(reader, line, t)
    ensures Heard(reader, lines, s).result == s.result
  {
    if lines != [] {
      assert lines[0] in lines;
      var next := HeardLine(reader, lines[0], s);
      assert next.result == s.result by {
        if next.result != s.result { assert SaysResult(reader, lines[0], next.result.value); }
      }
      ResultKept(reader, lines[1..], next);
    }
  }

  /** The last result wins over every assistant text, before or after it. */
  lemma LastResultWins(reader: Reader, a: seq<ParsedLine>, line: ParsedLine, text: string, b: seq<ParsedLine>)
    requires SaysResult(reader, line, text)
    requires forall l, t | l in b :: !SaysResult(reader, l, t)
    ensures FinalText(reader, a + [line] + b) == Some(text)
  {
    var s := Speech(None, None);
    HeardConcat(reader, a + [line], b, s);
    HeardConcat(reader, a, [line], s);
    var mid := Heard(reader, a, s);
    assert [line][1..] == [] && Heard(reader, [line], mid) == HeardLine(reader, line, mid);
    ResultKept(reader, b, HeardLine(reader, line, mid));
  }

  // --- sentinels at a line start ---

  predicate IsBlankChar(c: char) {
    c == ' ' || c == '\t' || c == '\n' || c == '\r' || c == '\U{0C}'
  }

  predicate BlankBetween(text: string, i: nat, j: nat)
    requires i <= j <= |text|
  {
    forall k | i <= k < j :: IsBlankChar(text[k])
  }

  predicate LineStart(text: string, i: nat)
    requires i <= |text|
  {
    i == 0 || text[i - 1] == '\n'
  }

  /** Some line, less its leading white space, starts with the sentinel. */
  predicate SaysAtLineStart(text: string, sentinel: string) {
    exists i, j | 0 <= i <= j <= |text| :: LineStart(text, i) && BlankBetween(text, i, j) && sentinel <= text[j..]
  }

  predicate IsBuildComplete(finalText: Option<string>) {
    finalText.Some? && SaysAtLineStart(finalText.value, "PRD_BUILD_COMPLETE")
  }

  predicate HasTerminalSentinel(text: string) {
    SaysAtLineStart(text, "PRD_BUILD_COMPLETE") || SaysAtLineStart(text, "HARD STOP") || SaysAtLineStart(text, "BLOCKED:")
  }

  // --- the outcome ---

  function ClassifyOutcome(reader: Reader, kind: string, lines: seq<ParsedLine>, cause: RedriveCause): Outcome {
    if kind != "build" then Terminal
    else if cause.kind == UserStop then Terminal
    else
      var finalText := FinalText(reader, lines);
      if finalText.Some? && reader.decision(finalText.value).Some? then Awaiting
      else if finalText.Some? && HasTerminalSentinel(finalText.value) then Terminal
      else if cause.kind == SpawnError then Park
      else if cause.kind == Exit && cause.exitCode == Some(0) && finalText.None? then Park
      else Retryable
  }

  /** A declared completion never asks for a resume, whatever the exit code says. */
  lemma CompletionNeverRetries(reader: Reader, kind: string, lines: seq<ParsedLine>, cause: RedriveCause)
    requires IsBuildComplete(FinalText(reader, lines))
    ensures ClassifyOutcome(reader, kind, lines, cause) in {Terminal, Awaiting}
  {
    hide SaysAtLineStart;
  }

  /** Appending breadcrumbs to the output never changes a build's outcome. */
  lemma {:induction false} BreadcrumbsChangeNoOutcome(reader: Reader, kind: string, lines: seq<ParsedLine>,
                                   crumbs: seq<Bytes>, cause: RedriveCause)
    ensures ClassifyOutcome(reader, kind, lines + RawLines(crumbs), cause) == ClassifyOutcome(reader, kind, lines, cause)
  {
    hide SaysAtLineStart, FinalText;
    if crumbs == [] {
      assert lines + RawLines(crumbs) == lines;
    } else {
      var n := |crumbs| - 1;
      BreadcrumbsChangeNoOutcome(reader, kind, lines, crumbs[..n], cause);
      RawIsNoise(reader, crumbs[n]);
      var front := lines + RawLines(crumbs[..n]);
      NoiseChangesNothing(reader, front, Raw(crumbs[n]), []);
      assert front + [] == front;
      assert front + [Raw(crumbs[n])] + [] == lines + RawLines(crumbs);
    }
  }

  function RawLines(crumbs: seq<Bytes>): seq<ParsedLine> {
    seq(|crumbs|, i requires 0 <= i < |crumbs| => Raw(crumbs[i]))
  }

  // --- usage limits ---

  datatype LimitSignal = AuthError | UsageLimit(resetAt: Option<int>)

  function RawTexts(reader: Reader, lines: seq<ParsedLine>): seq<string> {
    if lines == [] then []
    else (if lines[0].Raw? then [reader.text(lines[0].text)] else []) + RawTexts(reader, lines[1..])
  }

  /** The raw lines and the final text: a cap message may arrive either way. */
  function LimitScanText(reader: Reader, lines: seq<ParsedLine>): string {
    var finalText := FinalText(reader, lines);
    var parts := RawTexts(reader, lines) + (if finalText.Some? then [finalText.value] else []);
    if parts == [] then "" else JoinWith(parts)
  }

  /** An auth error is looked for first: it is not transient. */
  function DetectLimit(reader: Reader, lines: seq<ParsedLine>, now: int): Option<LimitSignal> {
    var text := LimitScanText(reader, lines);
    if reader.isAuthError(text) then Some(AuthError)
    else if reader.isUsageLimit(text) then Some(UsageLimit(reader.resetAt(text, now)))
    else None
  }
}
