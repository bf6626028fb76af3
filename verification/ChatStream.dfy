/** translation.chatStream as a transition system: a converter goroutine that pulls lines and
    pushes chunks through an unbuffered channel, an upstream that answers anything, and a
    consumer that may close the stream at any moment. The converter is any program that pulls
    lines until it is told that there are no more, and returns only then. */
module ChatStream {
  import opened Options

  type Line = string
  /** Token counts by name: those a report carries, or those seen so far, others being zero. */
  type Usage = map<string, int>
  datatype Failure = UpstreamError(id: nat) | ErrorEvent(id: nat) | CutShort

  /** What one upstream record says, as observe reads it. */
  datatype Event = Nothing | ReportsUsage(usage: Usage) | MessageStop | ReportsError(id: nat)

  /** One answer of the upstream; a frame has at least one line. */
  datatype Answer = Record(event: Event, first: Line, rest: seq<Line>) | EndOfFile | Broken(id: nat)

  /** Frames on the channel. */
  datatype Frame = Chunk(id: string, body: string) | UsageChunk(id: string, usage: Usage) | Done

  datatype Phase = Converting | SendingUsage | SendingDone | ChannelClosed

  /** The reading side: what nextLine and observe keep, and what passed through them. */
  datatype Input = Input(
    awaiting: bool,            // inside upstream.Next
    pending: seq<Line>,
    usage: Option<Usage>,
    complete: bool,
    received: seq<Answer>,
    handed: seq<Line>)

  /** The channel, and what passed through it: sent is every frame given to send, in order,
      and delivered what Next returned. */
  datatype Output = Output(sending: Option<Frame>, sent: seq<Frame>, delivered: seq<Frame>)

  datatype Chat = Chat(
    includeUsage: bool,
    phase: Phase,
    told: bool,                // nextLine has answered that there are no more lines
    id: string,
    err: Option<Failure>,
    stop: bool,                // the consumer closed the stream
    up: Input,
    out: Output)

  function Init(includeUsage: bool): Chat {
    Chat(includeUsage, Converting, false, "", None, false, Input(false, [], None, false, [], []), Output(None, [], []))
  }

  datatype Action =
    | PullLine                 // nextLine with a line at hand
    | PullRecord               // nextLine without one: ask the upstream, unless closing
    | Answered(answer: Answer)
    | Emit(id: string, body: string)
    | Return                   // the converter returns
    | Deliver                  // the consumer's Next takes the frame being sent
    | Drop                     // send gives up because the stream was closed
    | Close

  /** The converter runs: it is in none of the calls that block it. */
  predicate Running(s: Chat) {
    s.phase == Converting && !s.up.awaiting && s.out.sending == None
  }

  predicate Enabled(s: Chat, a: Action) {
    match a
    case PullLine => Running(s) && !s.told && s.up.pending != []
    case PullRecord => Running(s) && !s.told && s.up.pending == []
    case Answered(_) => s.up.awaiting
    case Emit(_, _) => Running(s)
    case Return => Running(s) && s.told
    case Deliver => s.out.sending.Some?
    case Drop => s.out.sending.Some? && s.stop
    case Close => true
  }

  function Send(s: Chat, frame: Frame): Chat {
    s.(out := s.out.(sending := Some(frame), sent := s.out.sent + [frame]))
  }

  /** The first failure is kept. */
  function Fail(s: Chat, failure: Failure): Chat {
    s.(told := true, err := if s.err == None then Some(failure) else s.err)
  }

  /** A report updates the counts it carries and keeps the others. */
  function Updated(seen: Option<Usage>, report: Usage): Usage {
    (match seen case Some(usage) => usage case None => map[]) + report
  }

  /** nextLine, once the upstream has answered. */
  function Receive(s: Chat, answer: Answer): Chat {
    var t := s.(up := s.up.(awaiting := false, received := s.up.received + [answer]));
    match answer
    case Record(ReportsError(id), _, _) => Fail(t, ErrorEvent(id))
    case Record(event, first, rest) =>
      var seen := match event
        case ReportsUsage(usage) => t.(up := t.up.(usage := Some(Updated(s.up.usage, usage))))
        case MessageStop => t.(up := t.up.(complete := true))
        case _ => t;
      seen.(up := seen.up.(pending := rest, handed := s.up.handed + [first]))
    case EndOfFile =>
      if s.stop then t.(told := true) else if !s.up.complete then Fail(t, CutShort) else t.(told := true)
    case Broken(id) => if s.stop then t.(told := true) else Fail(t, UpstreamError(id))
  }

  /** The goroutine goes on once the frame it was sending has left. */
  function Sent(s: Chat): Chat {
    var t := s.(out := s.out.(sending := None));
    match s.phase
    case SendingUsage => Send(t.(phase := SendingDone), Done)
    case SendingDone => t.(phase := ChannelClosed)
    case _ => t
  }

  function Step(s: Chat, a: Action): Chat {
    if !Enabled(s, a) then s
    else match a
      case PullLine => s.(up := s.up.(pending := s.up.pending[1..], handed := s.up.handed + [s.up.pending[0]]))
      case PullRecord => if s.stop then s.(told := true) else s.(up := s.up.(awaiting := true))
      case Answered(answer) => Receive(s, answer)
      case Emit(id, body) =>
        if s.err.Some? then s else Send(s.(id := if s.id == "" then id else s.id), Chunk(id, body))
      case Return =>
        if s.err.Some? then s.(phase := ChannelClosed)
        else if s.includeUsage && s.up.usage.Some? then Send(s.(phase := SendingUsage), UsageChunk(s.id, s.up.usage.value))
        else Send(s.(phase := SendingDone), Done)
      case Deliver => Sent(s.(out := s.out.(delivered := s.out.delivered + [s.out.sending.value])))
      case Drop => Sent(s)
      case Close => s.(stop := true)
  }

  ghost function Run(includeUsage: bool, actions: seq<Action>): Chat {
    if actions == [] then Init(includeUsage)
    else Step(Run(includeUsage, actions[..|actions| - 1]), actions[|actions| - 1])
  }

  /** What Next answers once the channel is closed: the failure, or None for end of file. */
  function Ending(s: Chat): Option<Failure>
    requires s.phase == ChannelClosed
  {
    s.err
  }

  // ----- The invariant -----

  /** The upstream said everything there was to say: message_stop, no error event, and a
      proper end. */
  ghost predicate Proper(received: seq<Answer>) {
    && (exists i :: 0 <= i < |received| && IsStop(received[i]))
    && (forall i :: 0 <= i < |received| ==> !IsError(received[i]) && (received[i] == EndOfFile <==> i == |received| - 1))
  }

  predicate IsStop(a: Answer) { a.Record? && a.event.MessageStop? }

  predicate IsError(a: Answer) { a.Broken? || (a.Record? && a.event.ReportsError?) }

  /** Nothing received so far ends the stream. */
  ghost predicate Open(received: seq<Answer>) {
    forall i :: 0 <= i < |received| ==> !IsError(received[i]) && received[i] != EndOfFile
  }

  predicate OnlyChunks(frames: seq<Frame>) {
    forall i :: 0 <= i < |frames| ==> frames[i].Chunk?
  }

  ghost predicate Received(s: Chat) {
    && (s.up.complete <==> exists i :: 0 <= i < |s.up.received| && IsStop(s.up.received[i]))
    && (!s.told ==> Open(s.up.received) && s.err == None)
    && (s.told ==> !s.up.awaiting)
    && (s.told && s.err == None && !s.stop ==> Proper(s.up.received))
  }

  /** Chunks, then the usage chunk if it was asked for and seen, then [DONE]. */
  ghost predicate SentInOrder(s: Chat) {
    match s.phase
    case Converting => OnlyChunks(s.out.sent)
    case SendingUsage =>
      s.told && s.err == None && EndsWithUsage(s) && s.out.sending == Some(s.out.sent[|s.out.sent| - 1])
    case SendingDone =>
      s.told && s.err == None && EndsWithDone(s) && s.out.sending == Some(Done)
    case ChannelClosed =>
      s.told && s.out.sending == None && if s.err.Some? then OnlyChunks(s.out.sent) else EndsWithDone(s)
  }

  ghost predicate EndsWithUsage(s: Chat) {
    var n := |s.out.sent|;
    n > 0 && OnlyChunks(s.out.sent[..n - 1]) && s.includeUsage && s.up.usage.Some? && s.out.sent[n - 1] == UsageChunk(s.id, s.up.usage.value)
  }

  ghost predicate EndsWithDone(s: Chat) {
    var n := |s.out.sent|;
    && n > 0 && s.out.sent[n - 1] == Done
    && if s.includeUsage && s.up.usage.Some? then EndsWithUsage(s.(out := s.out.(sent := s.out.sent[..n - 1]))) else OnlyChunks(s.out.sent[..n - 1])
  }

  /** Without a close nothing is dropped: what was sent was delivered, or is about to be. */
  ghost predicate InFlight(s: Chat) {
    !s.stop ==> s.out.sent == s.out.delivered + (match s.out.sending case Some(f) => [f] case None => [])
  }

  ghost predicate Inv(s: Chat) {
    Received(s) && SentInOrder(s) && InFlight(s)
  }

  lemma Appended(received: seq<Answer>, answer: Answer)
    ensures var more := received + [answer];
            && (Open(more) <==> Open(received) && !IsError(answer) && answer != EndOfFile)
            && ((exists i :: 0 <= i < |more| && IsStop(more[i])) <==> (exists i :: 0 <= i < |received| && IsStop(received[i])) || IsStop(answer))
            && (Open(received) && answer == EndOfFile && (exists i :: 0 <= i < |received| && IsStop(received[i])) ==> Proper(more))
  {
    var more := received + [answer];
    assert more[|received|] == answer && forall i :: 0 <= i < |received| ==> more[i] == received[i];
    if i :| 0 <= i < |received| && IsStop(received[i]) {
      assert IsStop(more[i]);
    }
    if Open(more) {
      assert !IsError(more[|received|]);
    }
  }

  lemma ReceiveKeeps(s: Chat, answer: Answer)
    requires Inv(s) && s.up.awaiting
    ensures Inv(Receive(s, answer))
  {
    hide Proper, Open, OnlyChunks, EndsWithUsage, EndsWithDone;
    Appended(s.up.received, answer);
  }

  lemma StepReceived(s: Chat, a: Action)
    requires Inv(s) && Enabled(s, a) && !a.Answered?
    ensures Received(Step(s, a))
  {
    hide Proper, Open, OnlyChunks, EndsWithUsage, EndsWithDone, InFlight;
  }

  lemma SendAppends(s: Chat, frame: Frame)
    ensures Send(s, frame).out.sent[..|s.out.sent|] == s.out.sent
  {
  }

  lemma EmitSent(s: Chat, id: string, body: string)
    requires SentInOrder(s) && Running(s)
    ensures SentInOrder(Step(s, Emit(id, body)))
  {
  }

  lemma ReturnSent(s: Chat)
    requires SentInOrder(s) && Running(s) && s.told
    ensures SentInOrder(Step(s, Return))
  {
    SendAppends(s, UsageChunk(s.id, if s.up.usage.Some? then s.up.usage.value else map[]));
    SendAppends(s, Done);
  }

  lemma LeaveSent(s: Chat)
    requires SentInOrder(s) && s.out.sending.Some?
    ensures SentInOrder(Sent(s))
  {
    if s.phase == SendingUsage {
      hide OnlyChunks;
      SendAppends(s, Done);
      assert s.(out := s.out.(sent := Sent(s).out.sent[..|Sent(s).out.sent| - 1])) == s;
    }
  }

  lemma ReceiveInFlight(s: Chat, answer: Answer)
    requires InFlight(s)
    ensures InFlight(Receive(s, answer))
  {
  }

  lemma LeaveInFlight(s: Chat, a: Action)
    requires InFlight(s) && Enabled(s, a) && (a.Deliver? || a.Drop?)
    ensures InFlight(Step(s, a))
  {
  }

  lemma StepInFlight(s: Chat, a: Action)
    requires InFlight(s) && Enabled(s, a)
    ensures InFlight(Step(s, a))
  {
    match a
    case Answered(answer) =>
      hide Receive, InFlight;
      ReceiveInFlight(s, answer);
    case Deliver => LeaveInFlight(s, a);
    case Drop => LeaveInFlight(s, a);
    case _ => hide Receive, Sent;
  }

  lemma StepSent(s: Chat, a: Action)
    requires SentInOrder(s) && Received(s) && Enabled(s, a) && !a.Answered?
    ensures SentInOrder(Step(s, a))
  {
    match a
    case Emit(id, body) => EmitSent(s, id, body);
    case Return => ReturnSent(s);
    case Deliver =>
      LeaveSent(s.(out := s.out.(delivered := s.out.delivered + [s.out.sending.value])));
    case Drop => LeaveSent(s);
    case _ =>
  }

  lemma StepKeeps(s: Chat, a: Action)
    requires Inv(s)
    ensures Inv(Step(s, a))
  {
    hide Received, SentInOrder, InFlight;
    if Enabled(s, a) {
      if a.Answered? {
        ReceiveKeeps(s, a.answer);
      } else {
        StepReceived(s, a);
        StepSent(s, a);
        StepInFlight(s, a);
      }
    }
  }

  lemma {:induction false} RunKeeps(includeUsage: bool, actions: seq<Action>)
    ensures Inv(Run(includeUsage, actions))
  {
    if actions != [] {
      RunKeeps(includeUsage, actions[..|actions| - 1]);
      StepKeeps(Run(includeUsage, actions[..|actions| - 1]), actions[|actions| - 1]);
    }
  }

  // ----- What the consumer can rely on -----

  /** Main result: in every run, whatever the converter, the upstream and the consumer do, a
      stream that sends [DONE] has not failed, sends it once and last, and its upstream sent
      message_stop, no error event and a proper end, unless the consumer closed it first. */
  lemma DoneMeansComplete(includeUsage: bool, actions: seq<Action>)
    requires Done in Run(includeUsage, actions).out.sent
    ensures var s := Run(includeUsage, actions);
            && s.err == None
            && (s.stop || Proper(s.up.received))
            && s.out.sent[|s.out.sent| - 1] == Done && Done !in s.out.sent[..|s.out.sent| - 1]
  {
    hide Run, Received, SentInOrder, InFlight, Proper, EndsWithDone;
    RunKeeps(includeUsage, actions);
    var s := Run(includeUsage, actions);
    DoneOnlyAtTheEnd(s);
    DoneIsLast(s);
    ToldProperly(s);
  }

  lemma DoneOnlyAtTheEnd(s: Chat)
    requires SentInOrder(s) && Done in s.out.sent
    ensures s.told && s.err == None && EndsWithDone(s)
  {
    hide EndsWithDone;
  }

  lemma DoneIsLast(s: Chat)
    requires EndsWithDone(s)
    ensures s.out.sent != [] && s.out.sent[|s.out.sent| - 1] == Done && Done !in s.out.sent[..|s.out.sent| - 1]
  {
    var front := s.out.sent[..|s.out.sent| - 1];
    if front != [] {
      assert front == front[..|front| - 1] + [front[|front| - 1]];
    }
  }

  lemma ToldProperly(s: Chat)
    requires Received(s) && s.told && s.err == None
    ensures s.stop || Proper(s.up.received)
  {
    hide Proper, Open;
  }

  ghost predicate NeverClosed(actions: seq<Action>) {
    Close !in actions
  }

  lemma {:induction false} NoCloseNoStop(includeUsage: bool, actions: seq<Action>)
    requires NeverClosed(actions)
    ensures !Run(includeUsage, actions).stop
  {
    if actions != [] {
      var front, a := actions[..|actions| - 1], actions[|actions| - 1];
      NoCloseNoStop(includeUsage, front);
      StopOnlyByClose(Run(includeUsage, front), a);
    }
  }

  lemma StopOnlyByClose(s: Chat, a: Action)
    ensures Step(s, a).stop <==> s.stop || a == Close
  {
  }

  /** The chunks the converter offered while nothing had failed, in order. */
  ghost function Accepted(includeUsage: bool, actions: seq<Action>): seq<Frame> {
    if actions == [] then []
    else
      var front, a := actions[..|actions| - 1], actions[|actions| - 1];
      var s := Run(includeUsage, front);
      Accepted(includeUsage, front)
      + if a.Emit? && Enabled(s, a) && s.err == None then [Chunk(a.id, a.body)] else []
  }

  function Chunks(frames: seq<Frame>): seq<Frame> {
    if frames == [] then []
    else
      var last := frames[|frames| - 1];
      Chunks(frames[..|frames| - 1]) + if last.Chunk? then [last] else []
  }

  lemma ChunksAppend(frames: seq<Frame>, frame: Frame)
    ensures Chunks(frames + [frame]) == Chunks(frames) + if frame.Chunk? then [frame] else []
  {
    assert (frames + [frame])[..|frames|] == frames;
  }

  lemma ReceiveSendsNothing(s: Chat, answer: Answer)
    ensures Receive(s, answer).out.sent == s.out.sent
  {
  }

  /** What a step gives to send: an accepted chunk, or one of the frames that close a stream. */
  lemma StepSends(s: Chat, a: Action)
    ensures var t := Step(s, a);
            if a.Emit? && Enabled(s, a) && s.err == None then t.out.sent == s.out.sent + [Chunk(a.id, a.body)]
            else t.out.sent == s.out.sent || (exists f: Frame :: !f.Chunk? && t.out.sent == s.out.sent + [f])
  {
    hide Receive;
    if a.Answered? {
      ReceiveSendsNothing(s, a.answer);
    } else if a == Return && s.err == None && Enabled(s, a) {
      var f := if s.includeUsage && s.up.usage.Some? then UsageChunk(s.id, s.up.usage.value) else Done;
      assert Step(s, a).out.sent == s.out.sent + [f];
    } else if a.Deliver? || a.Drop? {
      assert Step(s, a).out.sent == s.out.sent || Step(s, a).out.sent == s.out.sent + [Done];
    }
  }

  lemma StepChunks(s: Chat, a: Action)
    ensures Chunks(Step(s, a).out.sent) == Chunks(s.out.sent) + if a.Emit? && Enabled(s, a) && s.err == None then [Chunk(a.id, a.body)] else []
  {
    hide Chunks, Step;
    StepSends(s, a);
    var t := Step(s, a);
    if a.Emit? && Enabled(s, a) && s.err == None {
      ChunksAppend(s.out.sent, Chunk(a.id, a.body));
    } else if t.out.sent != s.out.sent {
      var f: Frame :| !f.Chunk? && t.out.sent == s.out.sent + [f];
      ChunksAppend(s.out.sent, f);
    }
  }

  lemma {:induction false} SentIsAccepted(includeUsage: bool, actions: seq<Action>)
    ensures Chunks(Run(includeUsage, actions).out.sent) == Accepted(includeUsage, actions)
  {
    hide Chunks;
    if actions != [] {
      var front := actions[..|actions| - 1];
      SentIsAccepted(includeUsage, front);
      StepChunks(Run(includeUsage, front), actions[|actions| - 1]);
    } else {
      ChunksOfNone();
    }
  }

  lemma ChunksOfNone()
    ensures Chunks([]) == []
  {
  }

  /** Main result: if the consumer never closes, then once Next reports the end it has
      returned exactly the chunks offered before any failure, in order and once each. It
      reports end of file exactly when [DONE] was delivered, last and once, after a complete
      upstream; a failure exactly when no [DONE] was. */
  lemma NextTellsTheTruth(includeUsage: bool, actions: seq<Action>)
    requires NeverClosed(actions) && Run(includeUsage, actions).phase == ChannelClosed
    ensures var s := Run(includeUsage, actions);
            && Chunks(s.out.delivered) == Accepted(includeUsage, actions)
            && (Ending(s) == None <==> Done in s.out.delivered)
            && (Ending(s) == None ==> Proper(s.up.received) && s.out.delivered[|s.out.delivered| - 1] == Done
                                      && Done !in s.out.delivered[..|s.out.delivered| - 1])
            && (Ending(s).Some? ==> OnlyChunks(s.out.delivered))
  {
    hide Run, Accepted, Chunks, Proper, Open;
    NoCloseNoStop(includeUsage, actions);
    RunKeeps(includeUsage, actions);
    SentIsAccepted(includeUsage, actions);
    var s := Run(includeUsage, actions);
    assert s.out.sent == s.out.delivered + [] == s.out.delivered;
    if s.err == None {
      assert EndsWithDone(s);
      DoneMeansComplete(includeUsage, actions);
    }
  }

  /** At every moment of such a run, what Next has returned so far is what was sent, but for
      the one frame still on its way. */
  lemma DeliveredInStep(includeUsage: bool, actions: seq<Action>)
    requires NeverClosed(actions)
    ensures var s := Run(includeUsage, actions);
            s.out.delivered <= s.out.sent && |s.out.sent| <= |s.out.delivered| + 1
  {
    NoCloseNoStop(includeUsage, actions);
    RunKeeps(includeUsage, actions);
  }

  /** The lines of the records received, but not of an error event. */
  ghost function LinesOf(received: seq<Answer>): seq<Line> {
    if received == [] then []
    else
      var last := received[|received| - 1];
      LinesOf(received[..|received| - 1]) + Brings(last)
  }

  /** The converter is handed the upstream's lines in order and once each. */
  lemma {:induction false} LinesInOrder(includeUsage: bool, actions: seq<Action>)
    ensures var s := Run(includeUsage, actions);
            s.up.handed + s.up.pending == LinesOf(s.up.received) && (s.up.awaiting ==> s.up.pending == [])
  {
    if actions != [] {
      var front, a := actions[..|actions| - 1], actions[|actions| - 1];
      LinesInOrder(includeUsage, front);
      StepLines(Run(includeUsage, front), a);
    }
  }

  /** The lines an answer brings. */
  function Brings(answer: Answer): seq<Line> {
    if answer.Record? && !IsError(answer) then [answer.first] + answer.rest else []
  }

  lemma ReceiveHands(s: Chat, answer: Answer)
    ensures var t := Receive(s, answer);
            && t.up.received == s.up.received + [answer] && !t.up.awaiting
            && if Brings(answer) == [] then t.up.handed == s.up.handed && t.up.pending == s.up.pending
               else t.up.handed == s.up.handed + [answer.first] && t.up.pending == answer.rest
  {
  }

  lemma ReceiveLines(s: Chat, answer: Answer)
    requires s.up.handed == LinesOf(s.up.received) && s.up.pending == []
    ensures var t := Receive(s, answer);
            t.up.handed + t.up.pending == LinesOf(t.up.received) && !t.up.awaiting
  {
    hide Receive;
    ReceiveHands(s, answer);
    OneMoreAnswer(s.up.received, answer);
    hide LinesOf, Brings;
    if Brings(answer) == [] {
      assert s.up.handed + [] == s.up.handed;
    } else {
      AnswerBrings(answer);
      assert s.up.handed + [answer.first] + answer.rest == s.up.handed + ([answer.first] + answer.rest);
    }
  }

  lemma AnswerBrings(answer: Answer)
    requires Brings(answer) != []
    ensures answer.Record? && Brings(answer) == [answer.first] + answer.rest
  {
  }

  lemma OneMoreAnswer(received: seq<Answer>, answer: Answer)
    ensures LinesOf(received + [answer]) == LinesOf(received) + Brings(answer)
  {
    assert (received + [answer])[..|received|] == received;
    hide Brings;
  }

  lemma OthersKeepLines(s: Chat, a: Action)
    requires !a.Answered? && !a.PullLine?
    ensures var t := Step(s, a);
            && t.up.received == s.up.received && t.up.handed == s.up.handed && t.up.pending == s.up.pending
            && (t.up.awaiting ==> s.up.awaiting || s.up.pending == [])
  {
    hide Receive;
    match a
    case PullRecord =>
    case Emit(_, _) =>
    case Return =>
    case Deliver =>
    case Drop =>
    case Close =>
  }

  lemma StepLines(s: Chat, a: Action)
    requires s.up.handed + s.up.pending == LinesOf(s.up.received) && (s.up.awaiting ==> s.up.pending == [])
    ensures var t := Step(s, a);
            t.up.handed + t.up.pending == LinesOf(t.up.received) && (t.up.awaiting ==> t.up.pending == [])
  {
    hide LinesOf, Receive;
    if a.Answered? {
      if Enabled(s, a) {
        assert s.up.handed + [] == s.up.handed;
        ReceiveLines(s, a.answer);
      }
    } else if a == PullLine {
      if Enabled(s, a) {
        assert s.up.handed + s.up.pending == s.up.handed + [s.up.pending[0]] + s.up.pending[1..];
      }
    } else {
      hide Step;
      OthersKeepLines(s, a);
    }
  }

  // ----- How a stream ends, by what the upstream answered -----

  /** The upstream's last answer ended the stream, and is why it failed, if it did. */
  ghost predicate EndedBy(s: Chat) {
    s.told && !s.stop ==>
      && s.up.received != []
      && match s.up.received[|s.up.received| - 1]
         case Broken(id) => s.err == Some(UpstreamError(id))
         case Record(ReportsError(id), _, _) => s.err == Some(ErrorEvent(id))
         case EndOfFile => s.err == if exists i :: 0 <= i < |s.up.received| && IsStop(s.up.received[i]) then None else Some(CutShort)
         case Record(_, _, _) => false
  }

  lemma ReceiveEnds(s: Chat, answer: Answer)
    requires EndedBy(s) && Received(s) && s.up.awaiting
    ensures EndedBy(Receive(s, answer))
  {
    hide Proper, Open;
    Appended(s.up.received, answer);
    assert (s.up.received + [answer])[|s.up.received|] == answer;
  }

  lemma StepEnds(s: Chat, a: Action)
    requires EndedBy(s) && Received(s)
    ensures EndedBy(Step(s, a))
  {
    if a.Answered? {
      hide Receive, EndedBy;
      if Enabled(s, a) { ReceiveEnds(s, a.answer); }
    } else {
      hide Receive, Received;
    }
  }

  lemma {:induction false} RunEnds(includeUsage: bool, actions: seq<Action>)
    ensures EndedBy(Run(includeUsage, actions))
  {
    hide Step, Received;
    if actions != [] {
      var front := actions[..|actions| - 1];
      RunEnds(includeUsage, front);
      RunKeeps(includeUsage, front);
      StepEnds(Run(includeUsage, front), actions[|actions| - 1]);
    }
  }

  /** Main result: if the consumer never closes, a stream that ends ends well exactly when the upstream
      sent message_stop, no error event and a proper end, and then it delivered its chunks, the usage if
      it was asked for and reported, and [DONE]. Otherwise Next returns the error the upstream answered
      last, the error of its error event, or that it was cut short. */
  lemma EndsExactly(includeUsage: bool, actions: seq<Action>)
    requires NeverClosed(actions) && Run(includeUsage, actions).phase == ChannelClosed
    ensures var s := Run(includeUsage, actions);
            var received := s.up.received;
            && (Ending(s) == None <==> Proper(received))
            && (Ending(s) == None ==>
                  s.out.delivered == Accepted(includeUsage, actions)
                                     + (if includeUsage && UsageOf(received).Some? then [UsageChunk(s.id, UsageOf(received).value)] else [])
                                     + [Done])
            && (Ending(s).Some? ==> s.out.delivered == Accepted(includeUsage, actions))
            && received != []
            && var last := received[|received| - 1];
               && (forall id :: Ending(s) == Some(UpstreamError(id)) <==> last == Broken(id))
               && (forall id :: Ending(s) == Some(ErrorEvent(id)) <==> last.Record? && last.event == ReportsError(id))
               && (Ending(s) == Some(CutShort) <==> last == EndOfFile && forall i :: 0 <= i < |received| ==> !IsStop(received[i]))
  {
    hide Run, Accepted, Chunks, UsageOf;
    NoCloseNoStop(includeUsage, actions);
    RunKeeps(includeUsage, actions);
    RunEnds(includeUsage, actions);
    SentIsAccepted(includeUsage, actions);
    UsageIsUpToDate(includeUsage, actions);
    KeepsIncludeUsage(includeUsage, actions);
    var s := Run(includeUsage, actions);
    assert s.out.sent == s.out.delivered + [] == s.out.delivered;
    ClosedEnds(s);
    SentParts(s);
  }

  /** What ended a stream says whether it was proper. */
  lemma ClosedEnds(s: Chat)
    requires Received(s) && EndedBy(s) && s.told && !s.stop
    ensures s.err == None <==> Proper(s.up.received)
    ensures s.up.received != []
    ensures var last := s.up.received[|s.up.received| - 1];
            && (forall id :: s.err == Some(UpstreamError(id)) <==> last == Broken(id))
            && (forall id :: s.err == Some(ErrorEvent(id)) <==> last.Record? && last.event == ReportsError(id))
            && (s.err == Some(CutShort) <==> last == EndOfFile && forall i :: 0 <= i < |s.up.received| ==> !IsStop(s.up.received[i]))
  {
    if Proper(s.up.received) {
      var last := s.up.received[|s.up.received| - 1];
      assert !IsError(last) && last == EndOfFile;
    }
  }

  /** The frames sent, by kind. */
  lemma SentParts(s: Chat)
    requires SentInOrder(s) && s.phase == ChannelClosed
    ensures s.err.Some? ==> s.out.sent == Chunks(s.out.sent)
    ensures s.err == None ==>
              s.out.sent == Chunks(s.out.sent)
                            + (if s.includeUsage && s.up.usage.Some? then [UsageChunk(s.id, s.up.usage.value)] else []) + [Done]
  {
    hide Chunks;
    var sent := s.out.sent;
    if s.err.Some? {
      OnlyChunksAre(sent);
    } else {
      var front := sent[..|sent| - 1];
      assert sent == front + [Done];
      if s.includeUsage && s.up.usage.Some? {
        var most, usage := front[..|front| - 1], UsageChunk(s.id, s.up.usage.value);
        assert front == most + [usage];
        ChunksBefore(most, usage);
        ChunksAppend(front, Done);
        assert Chunks(front) + [] == Chunks(front);
      } else {
        ChunksBefore(front, Done);
        assert front + [] == front;
      }
    }
  }

  /** The chunks of a sequence that ends in another frame. */
  lemma ChunksBefore(most: seq<Frame>, last: Frame)
    requires OnlyChunks(most) && !last.Chunk?
    ensures Chunks(most + [last]) == most
  {
    hide Chunks;
    ChunksAppend(most, last);
    OnlyChunksAre(most);
    assert most + [] == most;
  }

  lemma {:induction false} OnlyChunksAre(frames: seq<Frame>)
    requires OnlyChunks(frames)
    ensures Chunks(frames) == frames
  {
    if frames != [] { OnlyChunksAre(frames[..|frames| - 1]); }
  }

  lemma {:induction false} KeepsIncludeUsage(includeUsage: bool, actions: seq<Action>)
    ensures Run(includeUsage, actions).includeUsage == includeUsage
  {
    if actions != [] {
      KeepsIncludeUsage(includeUsage, actions[..|actions| - 1]);
      StepKeepsIncludeUsage(Run(includeUsage, actions[..|actions| - 1]), actions[|actions| - 1]);
    }
  }

  lemma StepKeepsIncludeUsage(s: Chat, a: Action)
    ensures Step(s, a).includeUsage == s.includeUsage
  {
  }

  // ----- Usage -----

  /** Every count as it was last reported; None when nothing was. */
  ghost function UsageOf(received: seq<Answer>): Option<Usage> {
    if received == [] then None
    else
      var last := received[|received| - 1];
      var before := UsageOf(received[..|received| - 1]);
      if last.Record? && last.event.ReportsUsage? then Some(Updated(before, last.event.usage)) else before
  }

  /** The last report that carries a count before n, or none. */
  ghost predicate LastReport(received: seq<Answer>, name: string, i: nat) {
    && i < |received| && received[i].Record? && received[i].event.ReportsUsage? && name in received[i].event.usage
    && forall j :: i < j < |received| && received[j].Record? && received[j].event.ReportsUsage? ==> name !in received[j].event.usage
  }

  /** A count is the last one reported under its name. */
  lemma {:induction false} CountsAreTheLastReported(received: seq<Answer>, name: string, i: nat)
    requires LastReport(received, name, i)
    ensures UsageOf(received).Some? && name in UsageOf(received).value
    ensures UsageOf(received).value[name] == received[i].event.usage[name]
  {
    var n := |received| - 1;
    if i < n {
      assert received[..n][i] == received[i];
      CountsAreTheLastReported(received[..n], name, i);
    }
  }

  lemma StepUsage(s: Chat, a: Action)
    requires s.up.usage == UsageOf(s.up.received)
    ensures Step(s, a).up.usage == UsageOf(Step(s, a).up.received)
  {
    hide UsageOf, Updated, Receive;
    if a.Answered? {
      ReceiveUsage(s, a.answer);
      OneMoreUsage(s.up.received, a.answer);
    } else {
      OthersKeepUsage(s, a);
      hide Step;
    }
  }

  lemma ReceiveUsage(s: Chat, answer: Answer)
    ensures var t := Receive(s, answer);
            && t.up.received == s.up.received + [answer]
            && t.up.usage == if answer.Record? && answer.event.ReportsUsage? then Some(Updated(s.up.usage, answer.event.usage)) else s.up.usage
  {
    hide Updated;
  }

  lemma OneMoreUsage(received: seq<Answer>, answer: Answer)
    ensures UsageOf(received + [answer]) ==
            if answer.Record? && answer.event.ReportsUsage? then Some(Updated(UsageOf(received), answer.event.usage)) else UsageOf(received)
  {
    hide Updated;
    assert (received + [answer])[..|received|] == received;
  }

  lemma OthersKeepUsage(s: Chat, a: Action)
    requires !a.Answered?
    ensures Step(s, a).up.usage == s.up.usage && Step(s, a).up.received == s.up.received
  {
    hide Receive;
  }

  /** In every run the usage chunk carries, of every count, what the upstream reported last. */
  lemma {:induction false} UsageIsUpToDate(includeUsage: bool, actions: seq<Action>)
    ensures var s := Run(includeUsage, actions);
            && s.up.usage == UsageOf(s.up.received)
            && forall i :: 0 <= i < |s.out.sent| && s.out.sent[i].UsageChunk? ==>
                 i >= |s.out.sent| - 2 && Some(s.out.sent[i].usage) == UsageOf(s.up.received)
  {
    hide Step, UsageOf;
    if actions != [] {
      var front := actions[..|actions| - 1];
      UsageIsUpToDate(includeUsage, front);
      StepUsage(Run(includeUsage, front), actions[|actions| - 1]);
    } else {
      NoUsageYet();
    }
    RunKeeps(includeUsage, actions);
    SentUsage(Run(includeUsage, actions));
  }

  lemma NoUsageYet()
    ensures UsageOf([]) == None
  {
  }

  lemma SentUsage(s: Chat)
    requires SentInOrder(s)
    ensures forall i :: 0 <= i < |s.out.sent| && s.out.sent[i].UsageChunk? ==>
              i >= |s.out.sent| - 2 && Some(s.out.sent[i].usage) == s.up.usage
  {
    forall i | 0 <= i < |s.out.sent| && s.out.sent[i].UsageChunk?
      ensures i >= |s.out.sent| - 2 && Some(s.out.sent[i].usage) == s.up.usage
    {
      assert i < |s.out.sent| - 1 ==> s.out.sent[..|s.out.sent| - 1][i] == s.out.sent[i];
    }
  }

  /** The first id that is not empty among the chunks, or none. */
  ghost predicate IsFirstId(id: string, frames: seq<Frame>) {
    && OnlyChunks(frames)
    && if id == "" then forall i :: 0 <= i < |frames| ==> frames[i].id == ""
       else exists i :: 0 <= i < |frames| && frames[i].id == id && forall j :: 0 <= j < i ==> frames[j].id == ""
  }

  lemma FirstIdAppends(id: string, frames: seq<Frame>, chunk: Frame)
    requires IsFirstId(id, frames) && chunk.Chunk?
    ensures IsFirstId(if id == "" then chunk.id else id, frames + [chunk])
  {
    var more := frames + [chunk];
    if id == "" {
      if chunk.id != "" { assert more[|frames|].id == chunk.id; }
    } else {
      var i :| 0 <= i < |frames| && frames[i].id == id && forall j :: 0 <= j < i ==> frames[j].id == "";
      assert more[i].id == id;
    }
  }

  lemma StepId(s: Chat, a: Action)
    ensures Step(s, a).id == if a.Emit? && Enabled(s, a) && s.err == None && s.id == "" then a.id else s.id
  {
  }

  /** The usage chunk carries the first id the accepted chunks had. */
  lemma {:induction false} IdIsTheFirst(includeUsage: bool, actions: seq<Action>)
    ensures IsFirstId(Run(includeUsage, actions).id, Accepted(includeUsage, actions))
  {
    hide Step, IsFirstId, Enabled;
    if actions == [] {
      NoId();
    } else {
      var front, a := actions[..|actions| - 1], actions[|actions| - 1];
      var s := Run(includeUsage, front);
      IdIsTheFirst(includeUsage, front);
      StepId(s, a);
      if a.Emit? && Enabled(s, a) && s.err == None {
        FirstIdAppends(s.id, Accepted(includeUsage, front), Chunk(a.id, a.body));
      } else {
        assert Accepted(includeUsage, front) + [] == Accepted(includeUsage, front);
      }
    }
  }

  lemma NoId()
    ensures IsFirstId("", [])
  {
  }
}
