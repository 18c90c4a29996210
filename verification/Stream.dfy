/** The tail loop of a run's output stream (backend/usecase/stream.go). The loop polls the output
    file at a saved offset, feeds what is new to the parser and numbers the events. The file, the
    run store and the client's disconnect are read through `Poll`s, one a turn of the loop. */
module Stream {
  import opened Wrappers
  import opened Runs
  import opened Ndjson

  datatype StreamEvent = StreamEvent(seqNo: nat, ts: int, line: ParsedLine)

  /** What one read of the output file meets: its content, no file yet, or an I/O error. */
  datatype FileRead = Content(file: Bytes) | Absent | Failed

  /** One turn: the read, the run's record, the second read taken once the run is over, and whether
      the client left before the next tick. */
  datatype Poll = Poll(first: FileRead, run: Option<Run>, second: FileRead, cancelled: bool)

  datatype End = End(status: Status, exitCode: Option<int>)

  predicate Over(run: Option<Run>) {
    run.None? || !run.value.IsRunning()
  }

  /** The file reads a stream takes, in order. */
  function Reads(polls: seq<Poll>): seq<FileRead> {
    if polls == [] then []
    else if Over(polls[0].run) then [polls[0].first, polls[0].second]
    else if polls[0].cancelled then [polls[0].first]
    else [polls[0].first] + Reads(polls[1..])
  }

  /** A run that vanished from the store ends as done, with no exit code. */
  function EndSignal(run: Option<Run>): End {
    if run.None? then End(Done, None) else End(run.value.status, run.value.exitCode)
  }

  /** The end signal, unless the client left (or is still waiting) first. */
  function EndOf(polls: seq<Poll>): Option<End> {
    if polls == [] then None
    else if Over(polls[0].run) then Some(EndSignal(polls[0].run))
    else if polls[0].cancelled then None
    else EndOf(polls[1..])
  }

  /** The content found by the last read that found any. */
  function Seen(rs: seq<FileRead>): Bytes {
    if rs == [] then []
    else
      var r := rs[|rs| - 1];
      if r.Content? then r.file else Seen(rs[..|rs| - 1])
  }

  /** The output file is append-only: every read extends what was seen before it. */
  ghost predicate AppendOnly(rs: seq<FileRead>) {
    forall i | 0 <= i < |rs| :: rs[i].Content? ==> Seen(rs[..i]) <= rs[i].file
  }

  /** The bytes of the file from an offset on. */
  function ReadFrom(r: FileRead, offset: nat): Bytes {
    if r.Content? && offset <= |r.file| then r.file[offset..] else []
  }

  function Lines(events: seq<StreamEvent>): seq<ParsedLine> {
    seq(|events|, i requires 0 <= i < |events| => events[i].line)
  }

  /** Events are numbered 0, 1, 2, ... with one clock reading each. */
  ghost predicate Numbered(events: seq<StreamEvent>, clock: nat -> int) {
    forall i | 0 <= i < |events| :: events[i].seqNo == i && events[i].ts == clock(i)
  }

  function Emit(events: seq<StreamEvent>, lines: seq<ParsedLine>, clock: nat -> int): (r: seq<StreamEvent>)
    ensures Numbered(events, clock) ==> Numbered(r, clock)
    ensures Lines(r) == Lines(events) + lines
  {
    events + seq(|lines|, i requires 0 <= i < |lines| =>
      StreamEvent(|events| + i, clock(|events| + i), lines[i]))
  }

  /** The loop's state after these reads: the buffer and the events are those of one push of all that
      was seen. */
  ghost predicate Caught(parser: NdjsonParser, offset: nat, events: seq<StreamEvent>, seen: Bytes)
    reads parser
  {
    && offset == |seen|
    && parser.buf == Last(Segments(seen))
    && Lines(events) == ParseComplete(parser.valid, Init(Segments(seen)))
  }

  /** One drain: nothing new leaves everything alone, else the new bytes are pushed and emitted. */
  method Drain(parser: NdjsonParser, r: FileRead, offset: nat, events: seq<StreamEvent>,
               clock: nat -> int, ghost done: seq<FileRead>)
    returns (newOffset: nat, out: seq<StreamEvent>)
    requires Caught(parser, offset, events, Seen(done))
    requires Numbered(events, clock)
    requires r.Content? ==> Seen(done) <= r.file
    modifies parser
    ensures Caught(parser, newOffset, out, Seen(done + [r])) && Numbered(out, clock)
  {
    assert (done + [r])[..|done|] == done;
    var data := ReadFrom(r, offset);
    newOffset, out := offset, events;
    if r.Content? { assert Seen(done) + data == r.file; }
    if data == [] {
      assert r.Content? ==> r.file == Seen(done);
      return;
    }
    newOffset := offset + |data|;
    PushStep(parser.valid, Seen(done), data);
    var lines := parser.Push(data);
    out := Emit(events, lines, clock);
  }

  /** The last drain and the flush of the unfinished line. */
  method Close(parser: NdjsonParser, r: FileRead, offset: nat, events: seq<StreamEvent>,
               clock: nat -> int, ghost done: seq<FileRead>)
    returns (out: seq<StreamEvent>)
    requires Caught(parser, offset, events, Seen(done))
    requires Numbered(events, clock)
    requires r.Content? ==> Seen(done) <= r.file
    modifies parser
    ensures Lines(out) == Parse(parser.valid, Seen(done + [r])) && Numbered(out, clock)
  {
    var _, drained := Drain(parser, r, offset, events, clock, done);
    var tail := parser.Flush();
    out := Emit(drained, tail, clock);
  }

  /** The next read of an append-only sequence extends what was seen. */
  lemma NextRead(all: seq<FileRead>, done: seq<FileRead>, r: FileRead, rest: seq<FileRead>)
    requires AppendOnly(all) && all == done + [r] + rest
    ensures r.Content? ==> Seen(done) <= r.file
  {
    assert all[|done|] == r && all[..|done|] == done;
  }

  /** One turn of the loop up to the choice between ending, leaving and waiting. */
  method Turn(parser: NdjsonParser, p: Poll, offset: nat, events: seq<StreamEvent>,
              clock: nat -> int, ghost done: seq<FileRead>, ghost all: seq<FileRead>, ghost rest: seq<FileRead>)
    returns (newOffset: nat, out: seq<StreamEvent>)
    requires AppendOnly(all)
    requires all == done + [p.first] + (if Over(p.run) then [p.second] else rest)
    requires Caught(parser, offset, events, Seen(done)) && Numbered(events, clock)
    modifies parser
    ensures Numbered(out, clock)
    ensures Over(p.run) ==> Lines(out) == Parse(parser.valid, Seen(all))
    ensures !Over(p.run) ==> Caught(parser, newOffset, out, Seen(done + [p.first]))
  {
    NextRead(all, done, p.first, if Over(p.run) then [p.second] else rest);
    newOffset, out := Drain(parser, p.first, offset, events, clock, done);
    if Over(p.run) {
      ghost var now := done + [p.first];
      assert all == now + [p.second];
      NextRead(all, now, p.second, []);
      out := Close(parser, p.second, newOffset, out, clock, now);
    }
  }

  /** What the reads and the end still to come look like after one more turn. */
  lemma ReadsStep(polls: seq<Poll>, i: nat, all: seq<FileRead>, done: seq<FileRead>)
    requires i < |polls| && all == done + Reads(polls[i..])
    ensures Over(polls[i].run) ==>
              all == done + [polls[i].first] + [polls[i].second] && EndOf(polls[i..]) == Some(EndSignal(polls[i].run))
    ensures !Over(polls[i].run) && polls[i].cancelled ==>
              all == done + [polls[i].first] && EndOf(polls[i..]) == None
    ensures !Over(polls[i].run) && !polls[i].cancelled ==>
              all == done + [polls[i].first] + Reads(polls[i + 1..]) && EndOf(polls[i..]) == EndOf(polls[i + 1..])
  {
    assert polls[i..][1..] == polls[i + 1..];
  }

  /** Tails a run. When the run ends, the events are exactly the one-shot parse of the bytes read, in
      order and numbered from 0; while it has not, they are the complete lines among them. The end
      signal carries the run's final status. */
  method Stream(valid: Bytes -> bool, polls: seq<Poll>, clock: nat -> int)
    returns (events: seq<StreamEvent>, end: Option<End>)
    requires AppendOnly(Reads(polls))
    ensures Numbered(events, clock)
    ensures end == EndOf(polls)
    ensures end.Some? ==> Lines(events) == Parse(valid, Seen(Reads(polls)))
    ensures end.None? ==> Lines(events) == ParseComplete(valid, Init(Segments(Seen(Reads(polls)))))
  {
    hide Caught, Numbered, Reads, EndOf, EndSignal, Over, Seen, AppendOnly, Parse, ParseComplete, Segments, Init, Lines;
    var parser := new NdjsonParser(valid);
    var offset: nat := 0;
    events, end := [], None;
    NothingSeen(parser, clock);
    ghost var done: seq<FileRead>, all := [], Reads(polls);
    var i, open := 0, true;
    assert polls[0..] == polls;
    while open && i < |polls|
      invariant 0 <= i <= |polls|
      invariant fresh(parser) && parser.valid == valid
      invariant Numbered(events, clock)
      invariant end.None? ==> Caught(parser, offset, events, Seen(done))
      invariant end.Some? ==> !open && Lines(events) == Parse(valid, Seen(all))
      invariant open ==> end.None? && all == done + Reads(polls[i..]) && EndOf(polls) == EndOf(polls[i..])
      invariant !open ==> EndOf(polls) == end && (end.None? ==> all == done)
    {
      var p := polls[i];
      ReadsStep(polls, i, all, done);
      offset, events := Turn(parser, p, offset, events, clock, done, all, if p.cancelled then [] else Reads(polls[i + 1..]));
      done := done + [p.first];
      if Over(p.run) {
        end, open := Some(EndSignal(p.run)), false;
      } else if p.cancelled {
        open := false;
      }
      i := i + 1;
    }
    if open {
      assert polls[i..] == [];
      NothingLeft();
      assert all == done;
    }
    if end.None? { CaughtMeans(parser, offset, events, Seen(done)); }
  }

  lemma NothingSeen(parser: NdjsonParser, clock: nat -> int)
    requires parser.buf == []
    ensures Caught(parser, 0, [], Seen([])) && Numbered([], clock)
  {}

  lemma CaughtMeans(parser: NdjsonParser, offset: nat, events: seq<StreamEvent>, seen: Bytes)
    requires Caught(parser, offset, events, seen)
    ensures Lines(events) == ParseComplete(parser.valid, Init(Segments(seen)))
  {}

  lemma NothingLeft()
    ensures Reads([]) == [] && EndOf([]) == None
  {}

  predicate HasContent(rs: seq<FileRead>) {
    rs != [] && (rs[|rs| - 1].Content? || HasContent(rs[..|rs| - 1]))
  }

  lemma {:induction false} SeenConcat(a: seq<FileRead>, b: seq<FileRead>)
    ensures Seen(a + b) == if HasContent(b) then Seen(b) else Seen(a)
  {
    if b == [] {
      assert a + b == a;
    } else {
      var n := |b| - 1;
      assert (a + b)[..|a| + n] == a + b[..n];
      if !b[n].Content? {
        SeenConcat(a, b[..n]);
      }
    }
  }

  /** Nothing a finished run wrote is lost: when the second read of the finishing turn succeeds, the
      bytes read are the whole file as it stood after the run was seen over, whatever the polls
      before met. */
  lemma {:induction false} EndSeesWholeFile(polls: seq<Poll>, k: nat)
    requires k < |polls| && Over(polls[k].run) && polls[k].second.Content?
    requires forall j | 0 <= j < k :: !Over(polls[j].run) && !polls[j].cancelled
    ensures Seen(Reads(polls)) == polls[k].second.file
    ensures EndOf(polls).Some?
  {
    if k > 0 {
      EndSeesWholeFile(polls[1..], k - 1);
      SeenConcat([polls[0].first], Reads(polls[1..]));
      assert !Over(polls[0].run);
      LastReadIsSecond(polls[1..], k - 1);
    } else {
      assert Reads(polls) == [polls[0].first, polls[0].second];
    }
  }

  lemma {:induction false} LastReadIsSecond(polls: seq<Poll>, k: nat)
    requires k < |polls| && Over(polls[k].run)
    requires forall j | 0 <= j < k :: !Over(polls[j].run) && !polls[j].cancelled
    ensures Reads(polls) != [] && Reads(polls)[|Reads(polls)| - 1] == polls[k].second
  {
    if k > 0 {
      assert !Over(polls[0].run);
      LastReadIsSecond(polls[1..], k - 1);
    }
  }
}
