/** Server-sent event records as the gateway relays them: what a byte stream means,
    block by block, independent of how it is read. Section 9.2.6 of the WHATWG HTML
    standard, except that a bare CR ends no line and the last unterminated record counts. */
module Sse {

  /** Bytes, one character each. */
  type Bytes = string

  /** 4 << 20, the bound on the wire bytes of one record in both readers. */
  const MAX_RECORD: nat := 4 * 1024 * 1024

  // ----- Lines -----

  function IndexOf(s: Bytes, c: char): (i: nat)
    ensures i <= |s| && (i < |s| ==> s[i] == c) && forall k :: 0 <= k < i ==> s[k] != c
  {
    if s == "" || s[0] == c then 0 else 1 + IndexOf(s[1..], c)
  }

  /** The first line, its newline included; without a newline, everything. */
  function FirstLine(s: Bytes): (line: Bytes)
    ensures line <= s
    ensures s != "" ==> line != ""
    ensures Terminated(line) || line == s
  {
    var i := IndexOf(s, '\n');
    if i < |s| then s[..i + 1] else s
  }

  predicate Terminated(line: Bytes) {
    line != "" && line[|line| - 1] == '\n'
  }

  function TrimSuffix(s: Bytes, c: char): Bytes {
    if s != "" && s[|s| - 1] == c then s[..|s| - 1] else s
  }

  /** What a terminated line says: without its newline and the CR before it. */
  function Content(line: Bytes): Bytes
    requires Terminated(line)
  {
    TrimSuffix(line[..|line| - 1], '\r')
  }

  /** The value of a data line, one leading space dropped; None for any other line. */
  datatype Field = Data(value: string) | Ignored

  function Parse(content: Bytes): Field {
    var colon := IndexOf(content, ':');
    if content[..colon] != "data" then Ignored
    else
      var value := if colon < |content| then content[colon + 1..] else "";
      Data(if value != "" && value[0] == ' ' then value[1..] else value)
  }

  function Absorb(data: seq<string>, content: Bytes): seq<string> {
    match Parse(content)
    case Data(value) => data + [value]
    case Ignored => data
  }

  function Join(data: seq<string>): string {
    if data == [] then "" else if |data| == 1 then data[0] else data[0] + "\n" + Join(data[1..])
  }

  // ----- Blocks -----

  datatype Ending = Blank | AtEnd | TooLarge | Broke
  /** A block is the lines up to a blank one, or up to the input's end. */
  datatype Block = Block(size: nat, data: seq<string>, ending: Ending)

  predicate Whole(b: Block) { b.ending == Blank || b.ending == AtEnd }

  /** Reads one block after used bytes that gave data. broken says the input ends in a
      read error rather than in end of file. */
  function Scan(s: Bytes, used: nat, data: seq<string>, limit: nat, broken: bool): (b: Block)
    requires used <= limit
    ensures b.size <= |s|
    ensures b.ending == AtEnd ==> b.size == |s| && !broken
    ensures b.ending == Blank ==> b.size > 0
    ensures Whole(b) ==> used + b.size <= limit
    decreases |s|
  {
    var line := FirstLine(s);
    if |line| > limit - used then Block(0, data, TooLarge)
    else if !Terminated(line) then
      if broken then Block(0, data, Broke)
      else Block(|line|, if line == "" then data else Absorb(data, line), AtEnd)
    else if Content(line) == "" then Block(|line|, data, Blank)
    else
      var b := Scan(s[|line|..], used + |line|, Absorb(data, Content(line)), limit, broken);
      Block(|line| + b.size, b.data, b.ending)
  }

  // ----- Streams -----

  datatype Record = Record(frame: Bytes, data: string)

  /** What became of each stretch of the input: skipped, or emitted as a record. */
  datatype Piece = Skipped(bytes: Bytes) | Emitted(bytes: Bytes, record: Record)
  datatype End = Eof | OverLimit | ReadError
  datatype Stream = Stream(pieces: seq<Piece>, end: End)

  /** The line endings a last record lacks are added. */
  function Complete(frame: Bytes): Bytes {
    if Terminated(frame) then frame + "\n" else frame + "\n\n"
  }

  function Pieces(s: Bytes, limit: nat, broken: bool): (stream: Stream)
    decreases |s|
  {
    if s == "" && !broken then Stream([], Eof)
    else
      var b := Scan(s, 0, [], limit, broken);
      match b.ending
      case TooLarge => Stream([], OverLimit)
      case Broke => Stream([], ReadError)
      case AtEnd =>
        Stream([if Join(b.data) == "" then Skipped(s) else Emitted(s, Record(Complete(s), Join(b.data)))], Eof)
      case Blank =>
        var bytes := s[..b.size];
        var rest := Pieces(s[b.size..], limit, broken);
        var piece := if Join(b.data) == "" then Skipped(bytes) else Emitted(bytes, Record(bytes, Join(b.data)));
        Stream([piece] + rest.pieces, rest.end)
  }

  function Wire(pieces: seq<Piece>): Bytes {
    if pieces == [] then "" else pieces[0].bytes + Wire(pieces[1..])
  }

  function Emissions(pieces: seq<Piece>): seq<Record> {
    if pieces == [] then []
    else (if pieces[0].Emitted? then [pieces[0].record] else []) + Emissions(pieces[1..])
  }

  function Frames(records: seq<Record>): Bytes {
    if records == [] then "" else records[0].frame + Frames(records[1..])
  }

  function Records(s: Bytes, limit: nat, broken: bool): seq<Record> {
    Emissions(Pieces(s, limit, broken).pieces)
  }

  // ----- Conservation -----

  predicate EndsInBlankLine(frame: Bytes) {
    var n := |frame|;
    && Terminated(frame)
    && (n == 1 || frame[n - 2] == '\n' || (frame[n - 2] == '\r' && (n == 2 || frame[n - 3] == '\n')))
  }

  /** The last block's frame alone may differ from its bytes, and only by line ends. */
  predicate PieceOk(p: Piece, last: bool, limit: nat) {
    && |p.bytes| <= limit
    && (p.Emitted? ==>
          && p.record.data != ""
          && (p.record.frame == p.bytes || (last && p.record.frame == Complete(p.bytes)))
          && EndsInBlankLine(p.record.frame)
          && |p.record.frame| <= limit + 2)
    && (p.Skipped? ==> Records(p.bytes, limit, false) == [])
  }

  /** Nothing is lost, reordered or repeated: at end of file the pieces are the input, and
      before an error they are a prefix of it. A skipped piece read alone yields no record. */
  lemma {:induction false} Conservation(s: Bytes, limit: nat, broken: bool)
    ensures var stream := Pieces(s, limit, broken);
            && Wire(stream.pieces) <= s
            && (stream.end == Eof ==> Wire(stream.pieces) == s && !broken)
            && (forall i :: 0 <= i < |stream.pieces| ==>
                              PieceOk(stream.pieces[i], i == |stream.pieces| - 1, limit))
    decreases |s|
  {
    hide Scan, Join, PieceOk;
    if s != "" || broken {
      var b := Scan(s, 0, [], limit, broken);
      if b.ending == AtEnd {
        var stream := Pieces(s, limit, broken);
        LastPiece(s, limit);
        assert stream.pieces == [stream.pieces[0]];
        assert Wire(stream.pieces) == s + Wire([]);
      } else if b.ending == Blank {
        Conservation(s[b.size..], limit, broken);
        BlankPiece(s, limit, broken);
        PiecesSplit(s, limit, broken);
        hide Pieces, Wire;
        OnePieceMore(s, b.size, Pieces(s, limit, broken), Pieces(s[b.size..], limit, broken), limit, broken);
      }
    }
  }

  lemma OnePieceMore(s: Bytes, n: nat, stream: Stream, rest: Stream, limit: nat, broken: bool)
    requires n <= |s| && |stream.pieces| > 0 && stream.pieces[1..] == rest.pieces && stream.end == rest.end
    requires Wire(stream.pieces) == s[..n] + Wire(rest.pieces)
    requires forall last :: PieceOk(stream.pieces[0], last, limit)
    requires Wire(rest.pieces) <= s[n..] && (rest.end == Eof ==> Wire(rest.pieces) == s[n..] && !broken)
    requires forall i :: 0 <= i < |rest.pieces| ==> PieceOk(rest.pieces[i], i == |rest.pieces| - 1, limit)
    ensures Wire(stream.pieces) <= s && (stream.end == Eof ==> Wire(stream.pieces) == s && !broken)
    ensures forall i :: 0 <= i < |stream.pieces| ==> PieceOk(stream.pieces[i], i == |stream.pieces| - 1, limit)
  {
    hide Wire, PieceOk;
    assert s == s[..n] + s[n..];
    forall i | 0 <= i < |stream.pieces| ensures PieceOk(stream.pieces[i], i == |stream.pieces| - 1, limit) {
      if i > 0 { assert stream.pieces[i] == rest.pieces[i - 1]; }
    }
  }

  /** The first piece, and the pieces of the rest. */
  lemma PiecesSplit(s: Bytes, limit: nat, broken: bool)
    requires (s != "" || broken) && Scan(s, 0, [], limit, broken).ending == Blank
    ensures var b := Scan(s, 0, [], limit, broken);
            var stream, rest := Pieces(s, limit, broken), Pieces(s[b.size..], limit, broken);
            && |stream.pieces| > 0 && stream.pieces[1..] == rest.pieces && stream.end == rest.end
            && Wire(stream.pieces) == s[..b.size] + Wire(rest.pieces)
  {
    hide Scan, Join;
  }

  lemma LastPiece(s: Bytes, limit: nat)
    requires s != "" && Scan(s, 0, [], limit, false).ending == AtEnd
    ensures var pieces := Pieces(s, limit, false).pieces;
            |pieces| == 1 && pieces[0].bytes == s && PieceOk(pieces[0], true, limit)
  {
    hide Scan, Join, FirstLine, IndexOf, Parse;
    var pieces := Pieces(s, limit, false).pieces;
    var b := Scan(s, 0, [], limit, false);
    assert pieces == [pieces[0]];
    if Join(b.data) == "" {
      assert Emissions(pieces[1..]) == [];
    }
  }

  lemma BlankPiece(s: Bytes, limit: nat, broken: bool)
    requires Scan(s, 0, [], limit, broken).ending == Blank
    ensures forall last :: PieceOk(Pieces(s, limit, broken).pieces[0], last, limit)
  {
    hide Scan, Join, EndsInBlankLine;
    var b := Scan(s, 0, [], limit, broken);
    var bytes := s[..b.size];
    BlankEndsBlock(s, 0, [], limit, broken);
    if Join(b.data) == "" {
      ScanIsLocal(s, 0, [], limit, broken, "", false);
      assert bytes + "" == bytes;
      SkippedAlone(bytes, limit);
    }
  }

  lemma SkippedAlone(block: Bytes, limit: nat)
    requires var b := Scan(block, 0, [], limit, false); b.ending == Blank && b.size == |block| && Join(b.data) == ""
    ensures Records(block, limit, false) == []
  {
    hide Scan, Join;
    assert block[..|block|] == block && block[|block|..] == "";
    assert Pieces("", limit, false).pieces == [];
    assert Pieces(block, limit, false).pieces == [Skipped(block)];
    assert Emissions([Skipped(block)][1..]) == [];
  }

  lemma PrependLine(line: Bytes, block: Bytes)
    requires Terminated(line) && EndsInBlankLine(block)
    ensures EndsInBlankLine(line + block)
  {
  }

  /** One step of Scan, for a line that is within the limit and has its newline. */
  lemma ScanStep(s: Bytes, used: nat, data: seq<string>, limit: nat, broken: bool)
    requires used <= limit
    ensures Scan(s, used, data, limit, broken).ending == Blank ==>
              Terminated(FirstLine(s)) && |FirstLine(s)| <= limit - used
    ensures Terminated(FirstLine(s)) && |FirstLine(s)| <= limit - used ==>
              var line := FirstLine(s);
              Scan(s, used, data, limit, broken) ==
              if Content(line) == "" then Block(|line|, data, Blank)
              else
                var b := Scan(s[|line|..], used + |line|, Absorb(data, Content(line)), limit, broken);
                Block(|line| + b.size, b.data, b.ending)
  {
    hide Absorb, FirstLine, Content;
  }

  lemma BlankContent(line: Bytes)
    requires Terminated(line) && Content(line) == ""
    ensures EndsInBlankLine(line)
  {
  }

  lemma {:induction false} BlankEndsBlock(s: Bytes, used: nat, data: seq<string>, limit: nat, broken: bool)
    requires used <= limit && Scan(s, used, data, limit, broken).ending == Blank
    ensures EndsInBlankLine(s[..Scan(s, used, data, limit, broken).size])
    decreases |s|
  {
    hide Scan, Absorb, FirstLine, Content, EndsInBlankLine;
    ScanStep(s, used, data, limit, broken);
    var line := FirstLine(s);
    var size := Scan(s, used, data, limit, broken).size;
    assert line == s[..|line|];
    if Content(line) == "" {
      BlankContent(line);
    } else {
      var rest := s[|line|..];
      BlankEndsBlock(rest, used + |line|, Absorb(data, Content(line)), limit, broken);
      var block := rest[..size - |line|];
      PrependLine(line, block);
      assert s[..size] == line + block;
    }
  }

  /** A block depends on its own bytes only, not on what follows it. */
  lemma {:induction false} ScanIsLocal(s: Bytes, used: nat, data: seq<string>, limit: nat, broken: bool, t: Bytes, broken': bool)
    requires used <= limit && Scan(s, used, data, limit, broken).ending == Blank
    ensures var b := Scan(s, used, data, limit, broken); Scan(s[..b.size] + t, used, data, limit, broken') == b
    decreases |s|
  {
    hide Scan, Absorb, FirstLine, Content;
    ScanStep(s, used, data, limit, broken);
    var line := FirstLine(s);
    var b := Scan(s, used, data, limit, broken);
    var u := s[..b.size] + t;
    assert line <= u;
    FirstLineIsLocal(s, u);
    ScanStep(u, used, data, limit, broken');
    if Content(line) != "" {
      var rest := s[|line|..];
      ScanIsLocal(rest, used + |line|, Absorb(data, Content(line)), limit, broken, t, broken');
      assert u[|line|..] == rest[..b.size - |line|] + t;
    }
  }

  lemma FirstLineIsLocal(s: Bytes, u: Bytes)
    requires Terminated(FirstLine(s)) && FirstLine(s) <= u
    ensures FirstLine(u) == FirstLine(s)
  {
    var i, j := IndexOf(s, '\n'), IndexOf(u, '\n');
    assert forall k :: 0 <= k < |FirstLine(s)| ==> u[k] == s[k];
  }

  // ----- Round trip -----

  /** The text after the last newline. */
  function LastLine(s: Bytes): Bytes
    decreases |s|
  {
    var line := FirstLine(s);
    if Terminated(line) then LastLine(s[|line|..]) else line
  }

  /** An unterminated last line says the same once a newline follows it, which turns a CR
      at its end into part of the line ending. */
  predicate SameWithNewline(line: Bytes) {
    var content := TrimSuffix(line, '\r');
    content != "" && Parse(content) == Parse(line)
  }

  /** Everything but a completed last record reads back as it is. A completed one does
      exactly when it still fits the limit and its last line keeps its meaning. */
  predicate ReadsBack(p: Piece, limit: nat) {
    p.Emitted? && p.record.frame != p.bytes ==>
      && |p.record.frame| <= limit
      && (Terminated(p.bytes) || SameWithNewline(LastLine(p.bytes)))
  }

  /** Re-reading the concatenated frames yields the same records, with the one exception
      ReadsBack names. */
  lemma {:induction false} RoundTrip(s: Bytes, limit: nat)
    requires Pieces(s, limit, false).end == Eof
    ensures Records(Frames(Records(s, limit, false)), limit, false) == Records(s, limit, false)
            <==> forall p :: p in Pieces(s, limit, false).pieces ==> ReadsBack(p, limit)
    decreases |s|
  {
    hide Scan, Join, ReadsBack, Complete;
    if s != "" {
      var b := Scan(s, 0, [], limit, false);
      var pieces := Pieces(s, limit, false).pieces;
      if b.ending == AtEnd {
        FinalRoundTrip(s, limit);
      } else {
        var rest := s[b.size..];
        var piece, after := pieces[0], Pieces(rest, limit, false).pieces;
        RoundTrip(rest, limit);
        assert pieces == [piece] + after;
        BlankReadsBack(s, limit, Frames(Records(rest, limit, false)));
        assert forall p :: p in pieces <==> p == piece || p in after;
        EmissionsCons(piece, after);
      }
    }
  }

  lemma EmissionsCons(piece: Piece, after: seq<Piece>)
    ensures Emissions([piece] + after) == (if piece.Emitted? then [piece.record] else []) + Emissions(after)
    ensures piece.Emitted? ==> Frames(Emissions([piece] + after)) == piece.record.frame + Frames(Emissions(after))
    ensures piece.Skipped? ==> Emissions([piece] + after) == Emissions(after)
  {
    assert ([piece] + after)[1..] == after;
    if piece.Emitted? {
      assert ([piece.record] + Emissions(after))[1..] == Emissions(after);
    }
  }

  /** A record that ended in its own blank line reads back whatever follows it. */
  lemma BlankReadsBack(s: Bytes, limit: nat, t: Bytes)
    requires s != "" && Scan(s, 0, [], limit, false).ending == Blank
    ensures var piece := Pieces(s, limit, false).pieces[0];
            && ReadsBack(piece, limit)
            && (piece.Emitted? ==> Records(piece.record.frame + t, limit, false) == [piece.record] + Records(t, limit, false))
  {
    hide Scan, Join, Complete;
    var b := Scan(s, 0, [], limit, false);
    var piece := Pieces(s, limit, false).pieces[0];
    if piece.Emitted? {
      ScanIsLocal(s, 0, [], limit, false, t, false);
      var u := s[..b.size] + t;
      assert u[..b.size] == s[..b.size] && u[b.size..] == t;
      assert Pieces(u, limit, false).pieces == [piece] + Pieces(t, limit, false).pieces;
      EmissionsCons(piece, Pieces(t, limit, false).pieces);
    }
  }

  lemma FinalRoundTrip(s: Bytes, limit: nat)
    requires s != "" && Scan(s, 0, [], limit, false).ending == AtEnd
    ensures Records(Frames(Records(s, limit, false)), limit, false) == Records(s, limit, false)
            <==> forall p :: p in Pieces(s, limit, false).pieces ==> ReadsBack(p, limit)
  {
    hide Scan, Join, ReadsBack, Reread, LastLine, SameWithNewline;
    var b := Scan(s, 0, [], limit, false);
    var piece := Pieces(s, limit, false).pieces[0];
    assert Pieces(s, limit, false).pieces == [piece] + [];
    EmissionsCons(piece, []);
    if Join(b.data) == "" {
      SkippedReadsBack(piece, limit);
    } else {
      var f := Complete(s);
      assert f + "" == f;
      FinalReread(s, 0, [], limit);
      FinalBlock(s, b.data, limit);
    }
  }

  lemma SkippedReadsBack(p: Piece, limit: nat)
    requires p.Skipped?
    ensures ReadsBack(p, limit)
  {
  }

  /** What re-reading the completed bytes of a last block gives. */
  ghost predicate Reread(b: Block, size: nat, data: seq<string>, good: bool) {
    if good then b == Block(size, data, Blank)
    else
      || b.ending == TooLarge
      || (b.ending == Blank && b.size == size && Join(b.data) != Join(data))
      || (b.ending == Blank && b.size < size && Join(b.data) != "")
  }

  lemma FinalBlock(s: Bytes, data: seq<string>, limit: nat)
    requires s != "" && Scan(s, 0, [], limit, false) == Block(|s|, data, AtEnd) && Join(data) != ""
    requires var good := |Complete(s)| <= limit && (Terminated(s) || SameWithNewline(LastLine(s)));
             Reread(Scan(Complete(s), 0, [], limit, false), |Complete(s)|, data, good)
    ensures var r := Record(Complete(s), Join(data));
            Records(Complete(s), limit, false) == [r] <==> ReadsBack(Emitted(s, r), limit)
  {
    hide Scan, Join, LastLine, SameWithNewline;
    var f := Complete(s);
    var b := Scan(f, 0, [], limit, false);
    var r := Record(f, Join(data));
    if b.ending == Blank {
      assert f == f[..b.size] + f[b.size..];
      var after := Pieces(f[b.size..], limit, false).pieces;
      var piece := Pieces(f, limit, false).pieces[0];
      assert Pieces(f, limit, false).pieces == [piece] + after;
      EmissionsCons(piece, after);
      if b.size == |f| {
        assert f[..b.size] == f && f[b.size..] == "" && after == [];
      } else {
        assert piece.Emitted? && |piece.record.frame| < |f|;
      }
    }
  }

  /** The completion of what is left of a last block: a blank line if a line just ended. */
  function Finish(s: Bytes): Bytes {
    if s == "" || Terminated(s) then s + "\n" else s + "\n\n"
  }

  lemma {:induction false} FinalReread(s: Bytes, used: nat, data: seq<string>, limit: nat)
    requires used <= limit && Scan(s, used, data, limit, false).ending == AtEnd
    requires Join(Scan(s, used, data, limit, false).data) != ""
    ensures var good := used + |Finish(s)| <= limit && (s == "" || Terminated(s) || SameWithNewline(LastLine(s)));
            Reread(Scan(Finish(s), used, data, limit, false), |Finish(s)|, Scan(s, used, data, limit, false).data, good)
    decreases |s|
  {
    hide Scan, Join, Absorb, FirstLine, Content, SameWithNewline, Reread, Finish, LastLine, Terminated;
    ScanEndStep(s, used, data, limit);
    var line := FirstLine(s);
    if !Terminated(line) {
      FinishOne(s);
      FinalLine(s, used, data, limit);
    } else {
      var rest := s[|line|..];
      var data' := Absorb(data, Content(line));
      FinishSplits(s);
      FinalReread(rest, used + |line|, data', limit);
      ScanStep(Finish(s), used, data, limit, false);
      var b := Scan(Finish(rest), used + |line|, data', limit, false);
      var good := used + |Finish(s)| <= limit && (s == "" || Terminated(s) || SameWithNewline(LastLine(s)));
      RereadShift(b, |Finish(rest)|, Scan(s, used, data, limit, false).data, good, |line|);
    }
  }

  lemma RereadShift(b: Block, size: nat, data: seq<string>, good: bool, k: nat)
    requires Reread(b, size, data, good)
    ensures Reread(Block(k + b.size, b.data, b.ending), k + size, data, good)
  {
    hide Join;
  }

  /** A text of one line that no newline ends. */
  lemma FinishOne(s: Bytes)
    ensures !Terminated(FirstLine(s)) ==> FirstLine(s) == s && !Terminated(s)
  {
  }

  /** Completing a text completes what follows its first line. */
  lemma FinishSplits(s: Bytes)
    requires Terminated(FirstLine(s))
    ensures var line := FirstLine(s);
            var rest := s[|line|..];
            && |line| > 0 && Finish(s) == line + Finish(rest) && Finish(s)[|line|..] == Finish(rest)
            && FirstLine(Finish(s)) == line && LastLine(s) == LastLine(rest) && s != ""
            && (rest == "" ==> Terminated(s)) && (rest != "" ==> (Terminated(s) <==> Terminated(rest)))
  {
    var line := FirstLine(s);
    var rest := s[|line|..];
    assert s == line + rest;
    assert rest != "" ==> (Terminated(s) <==> Terminated(rest));
    hide FirstLine;
    assert Finish(s) == line + Finish(rest);
    FirstLineIsLocal(s, Finish(s));
  }

  lemma ScanEndStep(s: Bytes, used: nat, data: seq<string>, limit: nat)
    requires used <= limit && Scan(s, used, data, limit, false).ending == AtEnd
    ensures var line := FirstLine(s);
            && |line| <= limit - used
            && (!Terminated(line) ==>
                  line == s && Scan(s, used, data, limit, false) ==
                  Block(|s|, if s == "" then data else Absorb(data, s), AtEnd))
            && (Terminated(line) ==>
                  && Content(line) != ""
                  && var b := Scan(s[|line|..], used + |line|, Absorb(data, Content(line)), limit, false);
                  && b.ending == AtEnd
                  && Scan(s, used, data, limit, false) == Block(|line| + b.size, b.data, AtEnd))
  {
    hide Absorb, FirstLine, Content;
  }

  /** The last line itself, when it has no newline. */
  lemma FinalLine(s: Bytes, used: nat, data: seq<string>, limit: nat)
    requires used + |s| <= limit && !Terminated(FirstLine(s)) && !Terminated(s)
    requires Join(if s == "" then data else Absorb(data, s)) != ""
    ensures var good := used + |Finish(s)| <= limit && (s == "" || SameWithNewline(LastLine(s)));
            Reread(Scan(Finish(s), used, data, limit, false), |Finish(s)|, if s == "" then data else Absorb(data, s), good)
  {
    hide Scan, Join, Absorb, Parse;
    if s == "" {
      BlankLine(used, data, limit);
    } else {
      var line := s + "\n";
      NewlineEnds(s);
      ScanStep(Finish(s), used, data, limit, false);
      if |line| <= limit - used {
        assert Finish(s)[|line|..] == "\n";
        if Content(line) == "" {
          assert s == "\r";
          SoleCr(data);
        } else {
          BlankLine(used + |line|, Absorb(data, Content(line)), limit);
          MeaningShows(data, s, Content(line));
        }
      } else {
        TooLong(Finish(s), used, data, limit);
      }
    }
  }

  lemma TooLong(s: Bytes, used: nat, data: seq<string>, limit: nat)
    requires used <= limit && |FirstLine(s)| > limit - used
    ensures Scan(s, used, data, limit, false).ending == TooLarge
  {
  }

  lemma BlankLine(used: nat, data: seq<string>, limit: nat)
    requires used <= limit
    ensures Scan("\n", used, data, limit, false) ==
            if used < limit then Block(1, data, Blank) else Block(0, data, TooLarge)
  {
    assert FirstLine("\n") == "\n";
  }

  lemma NewlineEnds(s: Bytes)
    requires s != "" && !Terminated(FirstLine(s))
    ensures FirstLine(s + "\n\n") == s + "\n" && LastLine(s) == s && Content(s + "\n") == TrimSuffix(s, '\r')
  {
    var u := s + "\n\n";
    assert IndexOf(s, '\n') == |s|;
    assert u[|s|] == '\n' && forall k :: 0 <= k < |s| ==> u[k] == s[k];
    assert IndexOf(u, '\n') == |s|;
    assert u[..|s| + 1] == s + "\n";
    assert (s + "\n")[..|s|] == s;
  }

  lemma SoleCr(data: seq<string>)
    ensures Absorb(data, "\r") == data
  {
    assert IndexOf("\r", ':') == 1;
  }

  /** A line that means something else once its CR is gone gives other data. */
  lemma MeaningShows(data: seq<string>, a: Bytes, b: Bytes)
    requires Join(Absorb(data, a)) != ""
    ensures Join(Absorb(data, a)) == Join(Absorb(data, b)) <==> Parse(a) == Parse(b)
    ensures Parse(a) == Parse(b) ==> Absorb(data, a) == Absorb(data, b)
  {
    hide Parse, Join;
    if Parse(a).Data? { JoinSnoc(data, Parse(a).value); }
    if Parse(b).Data? { JoinSnoc(data, Parse(b).value); }
    JoinNil();
    if data != [] && Parse(a).Data? && Parse(b).Data? {
      var front := Join(data) + "\n";
      assert (front + Parse(a).value)[|front|..] == Parse(a).value;
      assert (front + Parse(b).value)[|front|..] == Parse(b).value;
    }
  }

  lemma JoinNil()
    ensures Join([]) == ""
  {
  }

  lemma {:induction false} JoinSnoc(data: seq<string>, value: string)
    ensures Join(data + [value]) == if data == [] then value else Join(data) + "\n" + value
  {
    if data == [] {
      assert data + [value] == [value];
    } else {
      assert (data + [value])[1..] == data[1..] + [value];
      JoinSnoc(data[1..], value);
    }
  }

  /** The exception is real: a last line that ends in CR reads back as other data. */
  lemma LastCrIsLost()
    ensures var s := "data: x\r";
            && Pieces(s, MAX_RECORD, false) == Stream([Emitted(s, Record("data: x\r\n\n", "x\r"))], Eof)
            && Records(Frames(Records(s, MAX_RECORD, false)), MAX_RECORD, false) != Records(s, MAX_RECORD, false)
  {
    hide Scan, Records, Frames, IndexOf, Parse;
    var s := "data: x\r";
    DataXCr();
    ScanDataXCr();
    assert Complete(s) == "data: x\r\n\n";
    assert LastLine(s) == s;
    var p := Emitted(s, Record("data: x\r\n\n", "x\r"));
    assert !ReadsBack(p, MAX_RECORD) && p in [p];
    RoundTrip(s, MAX_RECORD);
  }

  lemma DataXCr()
    ensures FirstLine("data: x\r") == "data: x\r"
    ensures Parse("data: x\r") == Data("x\r") && !SameWithNewline("data: x\r")
  {
    hide Parse, IndexOf;
    var s := "data: x\r";
    assert "data: " + "x\r" == s && "data: " + "x" == "data: x" == s[..7];
    ParseExactly(s, "x\r");
    ParseExactly("data: x", "x");
  }

  lemma ScanDataXCr()
    ensures Scan("data: x\r", 0, [], MAX_RECORD, false) == Block(8, ["x\r"], AtEnd)
  {
    hide IndexOf, FirstLine, Parse;
    DataXCr();
  }

  // ----- Written and read -----

  /** What a line says, by its text: a data line's value follows "data:" and one space at most. */
  lemma ParseExactly(content: Bytes, value: string)
    ensures Parse(content) == Data(value) <==>
              || (content == "data" && value == "")
              || content == "data: " + value
              || (content == "data:" + value && !(" " <= value))
  {
    var name := "data";
    if name + ":" <= content {
      ColonAt(content);
      assert content == content[..4] + [content[4]] + content[5..];
    }
    if content == name {
      assert forall k :: 0 <= k < |name| ==> name[k] != ':';
    }
  }

  /** A line ending is a newline, or CR and a newline. */
  lemma ContentExactly(line: Bytes, content: Bytes)
    requires Terminated(line)
    ensures Content(line) == content <==>
              line == content + "\r\n" || (line == content + "\n" && (content == "" || content[|content| - 1] != '\r'))
  {
    var n := |line|;
    assert line == line[..n - 1] + "\n";
    if n > 1 { assert line[..n - 1] == line[..n - 2] + [line[n - 2]]; }
    assert (content + "\r\n")[..|content| + 1] == content + "\r";
    assert (content + "\n")[..|content|] == content;
  }

  lemma ColonAt(content: Bytes)
    requires "data:" <= content
    ensures IndexOf(content, ':') == 4 && content[..4] == "data"
  {
    assert content[4] == ':' && content[..5] == "data:";
    assert forall k :: 0 <= k < 4 ==> content[k] == "data:"[k];
  }

  /** The text of one event as an encoder writes it: a data line for each of its lines, and a blank one. */
  function Encode(text: string): (bytes: Bytes)
    ensures |bytes| > |text|
    decreases |text|
  {
    var i := IndexOf(text, '\n');
    "data: " + text[..i] + "\n" + if i == |text| then "\n" else Encode(text[i + 1..])
  }

  function EncodeAll(texts: seq<string>): Bytes {
    if texts == [] then "" else Encode(texts[0]) + EncodeAll(texts[1..])
  }

  /** None of its lines ends in CR, which a reader takes for part of the line ending. */
  predicate Clean(text: string) {
    forall i :: 0 <= i < |text| && text[i] == '\r' ==> i + 1 < |text| && text[i + 1] != '\n'
  }

  function SplitLines(text: string): (lines: seq<string>)
    ensures lines != []
    decreases |text|
  {
    var i := IndexOf(text, '\n');
    if i == |text| then [text] else [text[..i]] + SplitLines(text[i + 1..])
  }

  lemma {:induction false} SplitJoins(text: string)
    ensures Join(SplitLines(text)) == text
    decreases |text|
  {
    hide IndexOf, Join;
    var i := IndexOf(text, '\n');
    if i < |text| {
      SplitJoins(text[i + 1..]);
      JoinCons(text[..i], SplitLines(text[i + 1..]));
      hide SplitLines;
      assert text == text[..i] + "\n" + text[i + 1..];
    } else {
      JoinOne(text);
    }
  }

  lemma JoinCons(first: string, rest: seq<string>)
    requires rest != []
    ensures Join([first] + rest) == first + "\n" + Join(rest)
  {
    assert ([first] + rest)[1..] == rest;
  }

  lemma JoinOne(line: string)
    ensures Join([line]) == line
  {
  }

  /** One data line of an encoded text. */
  lemma WrittenLine(value: string, rest: Bytes)
    requires '\n' !in value && (value == "" || value[|value| - 1] != '\r')
    ensures var line := "data: " + value + "\n";
            && FirstLine(line + rest) == line && Terminated(line) && Content(line) == "data: " + value
            && forall data :: Absorb(data, Content(line)) == data + [value]
  {
    var line := "data: " + value + "\n";
    var s := line + rest;
    var n := |line| - 1;
    assert s[n] == '\n';
    forall k | 0 <= k < n ensures s[k] != '\n' {
      if k >= 6 { assert s[k] == value[k - 6]; }
    }
    assert IndexOf(s, '\n') == n;
    assert s[..n + 1] == line;
    assert line == ("data: " + value) + "\n";
    ContentExactly(line, "data: " + value);
    ParseExactly("data: " + value, value);
  }

  /** The block of an encoded text is read whole, whatever follows it, if it fits. */
  lemma {:induction false} EncodedScan(text: string, t: Bytes, used: nat, data: seq<string>, limit: nat)
    requires used <= limit && Clean(text)
    ensures var b := Scan(Encode(text) + t, used, data, limit, false);
            if used + |Encode(text)| <= limit then b == Block(|Encode(text)|, data + SplitLines(text), Blank) else b.ending == TooLarge
    decreases |text|
  {
    hide Scan, FirstLine, Content, Absorb, Terminated, Clean, Encode, SplitLines, IndexOf;
    CleanSplits(text);
    var i := IndexOf(text, '\n');
    var value := text[..i];
    var line := "data: " + value + "\n";
    var after := EncodeSplits(text, t);
    var s := Encode(text) + t;
    WrittenLine(value, after);
    ScanStep(s, used, data, limit, false);
    if used + |line| > limit {
      TooLong(s, used, data, limit);
    } else if i == |text| {
      BlankScan(t, used + |line|, data + [value], limit);
    } else {
      EncodedScan(text[i + 1..], t, used + |line|, data + [value], limit);
      assert data + SplitLines(text) == data + [value] + SplitLines(text[i + 1..]);
    }
  }

  /** What follows an encoded text's first line. */
  lemma EncodeSplits(text: string, t: Bytes) returns (after: Bytes)
    ensures var i := IndexOf(text, '\n');
            var line, s := "data: " + text[..i] + "\n", Encode(text) + t;
            && s == line + after && s[|line|..] == after
            && (i == |text| ==> after == "\n" + t && SplitLines(text) == [text[..i]] && |Encode(text)| == |line| + 1)
            && (i < |text| ==>
                  && after == Encode(text[i + 1..]) + t && SplitLines(text) == [text[..i]] + SplitLines(text[i + 1..])
                  && |Encode(text)| == |line| + |Encode(text[i + 1..])|)
  {
    var i := IndexOf(text, '\n');
    hide IndexOf;
    if i == |text| {
      assert text[..i] == text;
      after := Behind("data: " + text[..i] + "\n", "\n", t);
    } else {
      after := Behind("data: " + text[..i] + "\n", Encode(text[i + 1..]), t);
    }
  }

  /** What is left behind the first of three pieces. */
  lemma Behind(line: Bytes, last: Bytes, t: Bytes) returns (after: Bytes)
    ensures after == last + t && line + last + t == line + after && (line + last + t)[|line|..] == after
    ensures |line + last| == |line| + |last|
  {
    after := last + t;
    assert line + last + t == line + after;
  }

  lemma CleanSplits(text: string)
    requires Clean(text)
    ensures var i := IndexOf(text, '\n');
            && '\n' !in text[..i] && (i > 0 ==> text[i - 1] != '\r') && (i < |text| ==> Clean(text[i + 1..]))
  {
    hide IndexOf;
    var i := IndexOf(text, '\n');
    if i < |text| {
      var rest := text[i + 1..];
      forall k | 0 <= k < |rest| && rest[k] == '\r' ensures k + 1 < |rest| && rest[k + 1] != '\n' {
        assert text[i + 1 + k] == '\r';
      }
    }
  }

  lemma BlankScan(t: Bytes, used: nat, data: seq<string>, limit: nat)
    requires used <= limit
    ensures Scan("\n" + t, used, data, limit, false) == if used < limit then Block(1, data, Blank) else Block(0, data, TooLarge)
  {
    var s := "\n" + t;
    assert s[0] == '\n' && s[..1] == "\n";
    assert FirstLine(s) == "\n" && Content("\n") == "";
  }

  /** What a reader makes of the encoded texts: up to the first too long one, the texts that are not empty. */
  function ReadsAs(texts: seq<string>, limit: nat): (seq<Record>, End) {
    if texts == [] then ([], Eof)
    else if |Encode(texts[0])| > limit then ([], OverLimit)
    else
      var (records, end) := ReadsAs(texts[1..], limit);
      ((if texts[0] == "" then [] else [Record(Encode(texts[0]), texts[0])]) + records, end)
  }

  /** Main result: reading an encoded sequence of events gives back each event's own text and bytes. */
  lemma {:induction false} EncodedReadsBack(texts: seq<string>, limit: nat)
    requires forall i :: 0 <= i < |texts| ==> Clean(texts[i])
    ensures var stream := Pieces(EncodeAll(texts), limit, false);
            (Emissions(stream.pieces), stream.end) == ReadsAs(texts, limit)
  {
    hide Scan, Join, Encode, Clean;
    if texts != [] {
      var text, t := texts[0], EncodeAll(texts[1..]);
      EncodedReadsBack(texts[1..], limit);
      EncodedScan(text, t, 0, [], limit);
      SplitJoins(text);
      var s := Encode(text) + t;
      if |Encode(text)| <= limit {
        assert [] + SplitLines(text) == SplitLines(text);
        assert s[..|Encode(text)|] == Encode(text) && s[|Encode(text)|..] == t;
        var after := Pieces(t, limit, false).pieces;
        var piece := Pieces(s, limit, false).pieces[0];
        assert Pieces(s, limit, false).pieces == [piece] + after;
        EmissionsCons(piece, after);
      }
    }
  }
}
