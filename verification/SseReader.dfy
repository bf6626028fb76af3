/** The two SSE record readers, proved against the meaning Sse gives a byte stream. */
module SseReader {
  import opened Sse

  datatype SliceStatus = Newline | BufferFull | InputEnd

  /** A buffered reader. broken says the input ends in a read error, not in end of file. */
  class Source {
    const input: Bytes
    const broken: bool
    var pos: nat

    ghost predicate Valid()
      reads this
    {
      pos <= |input|
    }

    ghost function Rest(): Bytes
      reads this
      requires Valid()
    {
      input[pos..]
    }

    constructor (input: Bytes, broken: bool)
      ensures Valid() && Rest() == input && this.broken == broken
    {
      this.input, this.broken, pos := input, broken, 0;
    }

    /** One fragment of the current line: up to its newline, or up to the input's end, or
        however much of it the buffer happened to hold. */
    method ReadSlice() returns (fragment: Bytes, status: SliceStatus)
      requires Valid()
      modifies this
      ensures Valid() && old(Rest()) == fragment + Rest()
      ensures fragment <= FirstLine(old(Rest()))
      ensures status == Newline ==> Terminated(fragment) && fragment == FirstLine(old(Rest()))
      ensures status == InputEnd ==> !Terminated(fragment) && fragment == FirstLine(old(Rest())) == old(Rest())
      ensures status == BufferFull ==> fragment != "" && !Terminated(fragment)
    {
      var line := FirstLine(input[pos..]);
      var full: nat := *;
      if 0 < full < |line| {
        fragment, status := line[..full], BufferFull;
        NewlineIsLast(input[pos..], full);
      } else {
        fragment, status := line, if Terminated(line) then Newline else InputEnd;
      }
      assert input[pos..] == fragment + input[pos + |fragment|..];
      pos := pos + |fragment|;
    }
  }

  lemma NewlineIsLast(s: Bytes, k: nat)
    requires 0 < k < |FirstLine(s)|
    ensures !Terminated(FirstLine(s)[..k])
  {
    assert FirstLine(s)[..k][k - 1] == s[k - 1];
  }

  /** What is left of a line once a fragment of it was read. */
  lemma RestOfLine(s: Bytes, k: nat)
    requires k <= |FirstLine(s)| && (k == |FirstLine(s)| ==> !Terminated(FirstLine(s)))
    ensures FirstLine(s) == s[..k] + FirstLine(s[k..])
    ensures Terminated(FirstLine(s)) == Terminated(FirstLine(s[k..]))
  {
    hide IndexOf;
    var i, j := IndexOf(s, '\n'), IndexOf(s[k..], '\n');
    if i < |s| {
      assert s[k..][i - k] == '\n';
      assert s[k + j] == '\n';
      assert s[..i + 1] == s[..k] + s[k..][..j + 1];
    } else {
      assert s == s[..k] + s[k..];
    }
  }

  /** One more fragment of a line. */
  lemma FragmentRead(s: Bytes, n: nat, fragment: Bytes, rest: Bytes)
    requires n <= |FirstLine(s)| && (n == |FirstLine(s)| ==> !Terminated(FirstLine(s)))
    requires fragment <= FirstLine(s[n..]) && s[n..] == fragment + rest
    ensures var line := s[..n] + fragment;
            && line == s[..|line|] && rest == s[|line|..] && |line| <= |FirstLine(s)|
            && (fragment == FirstLine(s[n..]) ==> line == FirstLine(s) && Terminated(line) == Terminated(FirstLine(s[n..])))
            && (!Terminated(fragment) && |line| == |FirstLine(s)| ==> !Terminated(FirstLine(s)))
  {
    hide FirstLine;
    RestOfLine(s, n);
    assert s == s[..n] + (fragment + rest);
    if |fragment| == |FirstLine(s[n..])| { assert fragment == FirstLine(s[n..]); }
  }

  lemma EmptyIsOpen(line: Bytes)
    ensures Terminated(line) ==> |line| > 0
  {
  }

  datatype LineResult = Line(line: Bytes) | LastBytes(line: Bytes) | LineTooLong

  /** Reads one line of at most limit bytes. The result depends on the input alone, however
      the reads fragment it; after LineTooLong the position is unspecified. */
  method ReadBoundedLine(source: Source, limit: nat) returns (result: LineResult)
    requires source.Valid()
    modifies source
    ensures source.Valid()
    ensures var line := FirstLine(old(source.Rest()));
            result == if |line| > limit then LineTooLong
                      else if Terminated(line) then Line(line) else LastBytes(line)
    ensures result != LineTooLong ==> old(source.Rest()) == result.line + source.Rest()
  {
    hide FirstLine, Terminated;
    ghost var s := source.Rest();
    assert |FirstLine(s)| == 0 ==> !Terminated(FirstLine(s)) by { EmptyIsOpen(FirstLine(s)); }
    var line := "";
    while true
      invariant source.Valid() && |line| <= limit && |line| <= |FirstLine(s)|
      invariant line == s[..|line|] && source.Rest() == s[|line|..]
      invariant |line| == |FirstLine(s)| ==> !Terminated(FirstLine(s))
      decreases |source.Rest()|
    {
      var fragment, status := source.ReadSlice();
      FragmentRead(s, |line|, fragment, source.Rest());
      if |fragment| > limit - |line| {
        return LineTooLong;
      }
      line := line + fragment;
      if status != BufferFull {
        return if status == Newline then Line(line) else LastBytes(line);
      }
    }
  }

  datatype Answer = Got(record: Record) | NoMore | Failed(end: End)

  /** The records still to come and how the stream will end. */
  ghost function Future(rest: Bytes, broken: bool): (seq<Record>, End) {
    var stream := Pieces(rest, MAX_RECORD, broken);
    (Emissions(stream.pieces), stream.end)
  }

  /** What a read must answer, and what it must leave to be read. */
  ghost predicate Reads(before: Bytes, broken: bool, answer: Answer, after: Bytes) {
    match answer
    case Got(record) =>
      && Future(before, broken) == ([record] + Future(after, broken).0, Future(after, broken).1)
      && |after| < |before|
    case NoMore => Future(before, broken) == ([], Eof) && after == ""
    case Failed(end) => Future(before, broken) == ([], end) && end != Eof
  }

  /** A reader inside the block that began at start: frame holds the block's bytes so far
      and data its data lines. */
  ghost predicate InBlock(start: Bytes, frame: Bytes, data: seq<string>, rest: Bytes, broken: bool) {
    && |frame| <= MAX_RECORD && start == frame + rest
    && var b := Scan(rest, |frame|, data, MAX_RECORD, broken);
    && Scan(start, 0, [], MAX_RECORD, broken) == Block(|frame| + b.size, b.data, b.ending)
  }

  lemma AtBlockStart(start: Bytes, broken: bool)
    ensures InBlock(start, "", [], start, broken)
  {
    hide Scan;
  }

  /** A line over the limit, or one the input's read error cut short, ends the stream. */
  lemma StepFails(start: Bytes, frame: Bytes, data: seq<string>, rest: Bytes, broken: bool)
    requires InBlock(start, frame, data, rest, broken)
    ensures |FirstLine(rest)| > MAX_RECORD - |frame| ==> Future(start, broken) == ([], OverLimit)
    ensures |FirstLine(rest)| <= MAX_RECORD - |frame| && !Terminated(FirstLine(rest)) && broken ==>
              Future(start, broken) == ([], ReadError)
  {
    hide Absorb, FirstLine, Content, Join;
  }

  /** A line without its newline at end of file ends the last block. */
  lemma StepEnds(start: Bytes, frame: Bytes, data: seq<string>, rest: Bytes)
    requires InBlock(start, frame, data, rest, false)
    requires |FirstLine(rest)| <= MAX_RECORD - |frame| && !Terminated(FirstLine(rest))
    ensures FirstLine(rest) == rest
    ensures var all := if rest == "" then data else Absorb(data, rest);
            Future(start, false) == (if Join(all) == "" then [] else [Record(Complete(start), Join(all))] + [], Eof)
    ensures Future("", false) == ([], Eof)
  {
    hide Absorb, FirstLine, Content, Join, Complete;
    var all := if rest == "" then data else Absorb(data, rest);
    assert Scan(rest, |frame|, data, MAX_RECORD, false) == Block(|rest|, all, AtEnd);
    assert start == "" ==> all == [];
    hide Scan;
    if start != "" {
      var piece := Pieces(start, MAX_RECORD, false).pieces[0];
      assert Pieces(start, MAX_RECORD, false).pieces == [piece] + [];
      EmissionsCons(piece, []);
    } else {
      JoinNil();
    }
  }

  /** A blank line ends the block, which is emitted if it carries data. */
  lemma StepBlank(start: Bytes, frame: Bytes, data: seq<string>, rest: Bytes, broken: bool)
    requires InBlock(start, frame, data, rest, broken)
    requires var line := FirstLine(rest);
             |line| <= MAX_RECORD - |frame| && Terminated(line) && Content(line) == ""
    ensures var block, after := frame + FirstLine(rest), rest[|FirstLine(rest)|..];
            && start == block + after
            && (Join(data) == "" ==> Future(start, broken) == Future(after, broken))
            && (Join(data) != "" ==>
                  Future(start, broken) == ([Record(block, Join(data))] + Future(after, broken).0, Future(after, broken).1))
  {
    hide Scan, FirstLine, Content, Join, Absorb;
    ScanStep(rest, |frame|, data, MAX_RECORD, broken);
    var block, after := frame + FirstLine(rest), rest[|FirstLine(rest)|..];
    assert rest == FirstLine(rest) + after;
    assert start == block + after;
    assert start[..|block|] == block && start[|block|..] == after;
    var stream := Pieces(start, MAX_RECORD, broken);
    assert stream.pieces == [stream.pieces[0]] + Pieces(after, MAX_RECORD, broken).pieces;
    EmissionsCons(stream.pieces[0], Pieces(after, MAX_RECORD, broken).pieces);
  }

  /** Any other line belongs to the block. */
  lemma StepLine(start: Bytes, frame: Bytes, data: seq<string>, rest: Bytes, broken: bool)
    requires InBlock(start, frame, data, rest, broken)
    requires var line := FirstLine(rest);
             |line| <= MAX_RECORD - |frame| && Terminated(line) && Content(line) != ""
    ensures var line := FirstLine(rest);
            InBlock(start, frame + line, Absorb(data, Content(line)), rest[|line|..], broken)
  {
    hide Scan, FirstLine, Content, Absorb;
    ScanStep(rest, |frame|, data, MAX_RECORD, broken);
    var line := FirstLine(rest);
    assert rest == line + rest[|line|..];
    assert start == frame + line + rest[|line|..];
  }

  /** A comment line carries no data, so the readers pass over it. */
  lemma CommentsCarryNoData(data: seq<string>, content: Bytes)
    requires content != "" && content[0] == ':'
    ensures Absorb(data, content) == data
  {
  }

  /** providers' reader of whole records. */
  class RecordReader {
    const source: Source

    constructor (source: Source)
      ensures this.source == source
    {
      this.source := source;
    }

    method Next() returns (answer: Answer)
      requires source.Valid()
      modifies source
      ensures source.Valid() && Reads(old(source.Rest()), source.broken, answer, source.Rest())
    {
      hide Scan, Pieces, FirstLine, Content, Parse, Absorb, Join, Complete, InBlock, Future, Emissions;
      ghost var start := source.Rest();
      var frame, data := "", [];
      AtBlockStart(start, source.broken);
      while true
        invariant source.Valid() && |frame| <= MAX_RECORD && |start| <= |old(source.Rest())|
        invariant start == frame + source.Rest()
        invariant Future(start, source.broken) == Future(old(source.Rest()), source.broken)
        invariant InBlock(start, frame, data, source.Rest(), source.broken)
        decreases |source.Rest()|
      {
        ghost var rest := source.Rest();
        var result := ReadBoundedLine(source, MAX_RECORD - |frame|);
        StepFails(start, frame, data, rest, source.broken);
        if result.LineTooLong? {
          return Failed(OverLimit);
        }
        if result.LastBytes? && source.broken {
          return Failed(ReadError);
        }
        var line := result.line;
        assert rest[|line|..] == source.Rest();
        if result.LastBytes? {
          StepEnds(start, frame, data, rest);
          if line != "" {
            if line[0] == ':' {
              CommentsCarryNoData(data, line);
            } else {
              data := Absorb(data, line);
            }
          }
          frame := frame + line;
          return if Join(data) != "" then Got(Record(Complete(frame), Join(data))) else NoMore;
        }
        var content := Content(line);
        if content == "" {
          StepBlank(start, frame, data, rest, source.broken);
          if Join(data) != "" {
            return Got(Record(frame + line, Join(data)));
          }
          frame, data, start := "", [], source.Rest();
          AtBlockStart(start, source.broken);
        } else {
          StepLine(start, frame, data, rest, source.broken);
          frame := frame + line;
          if content[0] == ':' {
            CommentsCarryNoData(data, content);
          } else {
            data := Absorb(data, content);
          }
        }
      }
    }

    /** The data of the next record other than [DONE]. */
    method NextData() returns (answer: DataAnswer)
      requires source.Valid()
      modifies source
      ensures source.Valid() && ReadsData(old(source.Rest()), source.broken, answer, source.Rest())
    {
      hide Future;
      while true
        invariant source.Valid() && |source.Rest()| <= |old(source.Rest())|
        invariant Future(source.Rest(), source.broken).1 == Future(old(source.Rest()), source.broken).1
        invariant Events(Future(source.Rest(), source.broken).0) == Events(Future(old(source.Rest()), source.broken).0)
        decreases |source.Rest()|
      {
        ghost var before := source.Rest();
        var next := Next();
        match next
        case Got(record) =>
          assert Future(before, source.broken).0[1..] == Future(source.Rest(), source.broken).0;
          if record.data != "[DONE]" {
            return GotData(record.data);
          }
        case NoMore => return NoMoreData;
        case Failed(end) => return FailedData(end);
      }
    }
  }

  datatype DataAnswer = GotData(data: string) | NoMoreData | FailedData(end: End)

  /** The data of the records, without the [DONE] ones. */
  function Events(records: seq<Record>): seq<string> {
    if records == [] then []
    else (if records[0].data == "[DONE]" then [] else [records[0].data]) + Events(records[1..])
  }

  ghost predicate ReadsData(before: Bytes, broken: bool, answer: DataAnswer, after: Bytes) {
    match answer
    case GotData(data) =>
      && Events(Future(before, broken).0) == [data] + Events(Future(after, broken).0)
      && Future(before, broken).1 == Future(after, broken).1
      && |after| < |before|
    case NoMoreData => Events(Future(before, broken).0) == [] && Future(before, broken).1 == Eof && after == ""
    case FailedData(end) => Events(Future(before, broken).0) == [] && Future(before, broken).1 == end != Eof
  }

  datatype FrameAnswer = GotFrame(frame: Bytes) | NoMoreFrames | FailedFrame(end: End)

  /** Reads, for a reader that returns the frame alone. */
  ghost predicate ReadsFrame(before: Bytes, broken: bool, answer: FrameAnswer, after: Bytes) {
    match answer
    case GotFrame(frame) =>
      Future(before, broken).0 != []
      && Future(before, broken).0[0].frame == frame
      && Reads(before, broken, Got(Future(before, broken).0[0]), after)
    case NoMoreFrames => Reads(before, broken, NoMore, after)
    case FailedFrame(end) => Reads(before, broken, Failed(end), after)
  }

  lemma CompletedInSteps(frame: Bytes)
    ensures Complete(frame) == (if Terminated(frame) then frame else frame + "\n") + "\n"
  {
  }

  /** extension's own copy of the reader, which keeps no joined data. */
  class FrameReader {
    const source: Source

    constructor (source: Source)
      ensures this.source == source
    {
      this.source := source;
    }

    method Next() returns (answer: FrameAnswer)
      requires source.Valid()
      modifies source
      ensures source.Valid() && ReadsFrame(old(source.Rest()), source.broken, answer, source.Rest())
    {
      hide Scan, Pieces, FirstLine, Content, Parse, Absorb, Join, Complete, InBlock, Future, Emissions;
      ghost var start := source.Rest();
      var frame, data := "", [];
      AtBlockStart(start, source.broken);
      while true
        invariant source.Valid() && |frame| <= MAX_RECORD && |start| <= |old(source.Rest())|
        invariant start == frame + source.Rest()
        invariant Future(start, source.broken) == Future(old(source.Rest()), source.broken)
        invariant InBlock(start, frame, data, source.Rest(), source.broken)
        decreases |source.Rest()|
      {
        ghost var rest := source.Rest();
        var result := ReadBoundedLine(source, MAX_RECORD - |frame|);
        StepFails(start, frame, data, rest, source.broken);
        if result.LineTooLong? {
          return FailedFrame(OverLimit);
        }
        if result.LastBytes? && source.broken {
          return FailedFrame(ReadError);
        }
        var line := result.line;
        assert rest[|line|..] == source.Rest();
        if result.LastBytes? {
          StepEnds(start, frame, data, rest);
          frame := frame + line;
          if line != "" {
            if line[0] == ':' {
              CommentsCarryNoData(data, line);
            } else {
              data := Absorb(data, line);
            }
          }
          if Join(data) == "" {
            return NoMoreFrames;
          }
          CompletedInSteps(frame);
          if !Terminated(frame) {
            frame := frame + "\n";
          }
          return GotFrame(frame + "\n");
        }
        var content := Content(line);
        if content == "" {
          StepBlank(start, frame, data, rest, source.broken);
          if Join(data) != "" {
            return GotFrame(frame + line);
          }
          frame, data, start := "", [], source.Rest();
          AtBlockStart(start, source.broken);
        } else {
          StepLine(start, frame, data, rest, source.broken);
          frame := frame + line;
          if content[0] == ':' {
            CommentsCarryNoData(data, content);
          } else {
            data := Absorb(data, content);
          }
        }
      }
    }
  }
}
