/** execution.ExecuteStream: a stream commits on its first output. Until then its frames are
    held back and it may fail over; from then on it is the caller's. */
module StreamCommit {
  import opened Options
  import opened ProviderErrors
  import Health
  import opened Execute

  type Bytes = string

  /** One answer of a stream's Next; frames may come with the end or with a failure. */
  datatype Item = Frame(bytes: Bytes) | Eof(bytes: Bytes) | Fault(bytes: Bytes, err: Error)

  /** An upstream stream: the answers it will give, and end of file ever after. */
  class Upstream {
    const items: seq<Item>
    var pos: nat
    var closes: nat

    ghost predicate Valid()
      reads this
    {
      pos <= |items|
    }

    ghost function Rest(): seq<Item>
      reads this
      requires Valid()
    {
      items[pos..]
    }

    constructor (items: seq<Item>)
      ensures Valid() && Rest() == items && this.items == items && closes == 0
    {
      this.items, pos, closes := items, 0, 0;
    }

    method Next() returns (item: Item)
      requires Valid()
      modifies this`pos
      ensures Valid() && item == Head(old(Rest())) && Rest() == Tail(old(Rest()))
    {
      if pos == |items| {
        return Eof("");
      }
      item := items[pos];
      pos := pos + 1;
    }

    method Close()
      modifies this`closes
      ensures closes == old(closes) + 1
    {
      closes := closes + 1;
    }
  }

  function Head(items: seq<Item>): Item {
    if items == [] then Eof("") else items[0]
  }

  function Tail(items: seq<Item>): seq<Item> {
    if items == [] then [] else items[1..]
  }

  /** All the bytes a stream yields, the last ones included. */
  function Text(items: seq<Item>): Bytes {
    if items == [] then ""
    else match items[0]
      case Frame(b) => b + Text(items[1..])
      case Eof(b) => b
      case Fault(b, _) => b
  }

  /** The error a stream ends with; None is end of file. */
  function EndOf(items: seq<Item>): Option<Error> {
    if items == [] then None
    else match items[0]
      case Frame(_) => EndOf(items[1..])
      case Eof(_) => None
      case Fault(_, err) => Some(err)
  }

  // ----- Commit -----

  /** What becomes of an opened stream: it commits with frames held, or it is closed. */
  datatype Verdict =
    | Live(held: seq<Bytes>, rest: seq<Item>)
    | Ended(held: seq<Bytes>)
    | Broken(err: Error)
    | Abandoned

  predicate Commits(v: Verdict) { v.Live? || v.Ended? }

  function Before(frames: seq<Bytes>, v: Verdict): Verdict {
    match v
    case Live(held, rest) => Live(frames + held, rest)
    case Ended(held) => Ended(frames + held)
    case _ => v
  }

  /** gone(n) says the context had ended before the n-th read. */
  function Judge(items: seq<Item>, n: nat, gone: nat -> bool, output: Bytes -> bool): Verdict {
    if gone(n) then Abandoned
    else if items == [] then Ended([])
    else match items[0]
      case Frame(b) =>
        if b == "" then Judge(items[1..], n + 1, gone, output)
        else if output(b) then Live([b], items[1..])
        else Before([b], Judge(items[1..], n + 1, gone, output))
      case Eof(b) => Ended(if b == "" then [] else [b])
      case Fault(_, err) => Broken(err)
  }

  /** The frames among items that are not empty. */
  function Filled(items: seq<Item>): seq<Bytes> {
    if items == [] then []
    else Filled(items[..|items| - 1])
         + (var last := items[|items| - 1]; if last.Frame? && last.bytes != "" then [last.bytes] else [])
  }

  /** The first i items are frames without output, and the context lasted while they were read. */
  predicate PassedOver(items: seq<Item>, n: nat, i: nat, gone: nat -> bool, output: Bytes -> bool)
    requires i <= |items|
  {
    forall j: nat :: j < i ==> Held(items, n, j, gone, output)
  }

  /** Item j is a frame without output, read while the context lasts. */
  predicate Held(items: seq<Item>, n: nat, j: nat, gone: nat -> bool, output: Bytes -> bool)
    requires j < |items|
  {
    !gone(n + j) && items[j].Frame? && (items[j].bytes == "" || !output(items[j].bytes))
  }

  /** What item i, the first that is not passed over, makes of the stream. */
  predicate SettlesAt(items: seq<Item>, n: nat, i: nat, gone: nat -> bool, output: Bytes -> bool, v: Verdict)
    requires i <= |items|
  {
    if gone(n + i) then v == Abandoned
    else if i == |items| then v == Ended(Filled(items))
    else match items[i]
      case Frame(b) => b != "" && output(b) && v == Live(Filled(items[..i]) + [b], items[i + 1..])
      case Eof(b) => v == Ended(Filled(items[..i]) + if b == "" then [] else [b])
      case Fault(_, err) => v == Broken(err)
  }

  ghost predicate Settles(items: seq<Item>, n: nat, gone: nat -> bool, output: Bytes -> bool, v: Verdict) {
    exists i :: 0 <= i <= |items| && PassedOver(items, n, i, gone, output) && SettlesAt(items, n, i, gone, output, v)
  }

  lemma FilledFirst(items: seq<Item>)
    requires items != []
    ensures Filled(items) == (if items[0].Frame? && items[0].bytes != "" then [items[0].bytes] else []) + Filled(items[1..])
  {
    if |items| > 1 {
      var n := |items| - 1;
      FilledFirst(items[..n]);
      assert items[..n][1..] == items[1..][..n - 1];
    }
  }

  lemma {:induction false} JudgeSettles(items: seq<Item>, n: nat, gone: nat -> bool, output: Bytes -> bool)
    ensures Settles(items, n, gone, output, Judge(items, n, gone, output))
  {
    var v := Judge(items, n, gone, output);
    if gone(n) || items == [] || !items[0].Frame? || (items[0].bytes != "" && output(items[0].bytes)) {
      assert Filled(items[..0]) == [];
      assert PassedOver(items, n, 0, gone, output) && SettlesAt(items, n, 0, gone, output, v);
    } else {
      var rest := items[1..];
      var after := Judge(rest, n + 1, gone, output);
      JudgeSettles(rest, n + 1, gone, output);
      var i :| 0 <= i <= |rest| && PassedOver(rest, n + 1, i, gone, output) && SettlesAt(rest, n + 1, i, gone, output, after);
      OneMorePassed(items, n, i, gone, output);
      SettlesLater(items, n, i, gone, output, after);
      hide Filled, SettlesAt, PassedOver;
      assert 0 <= i + 1 <= |items| && PassedOver(items, n, i + 1, gone, output) && SettlesAt(items, n, i + 1, gone, output, v);
    }
  }

  /** A frame held back, or an empty one, in front. */
  lemma SettlesLater(items: seq<Item>, n: nat, i: nat, gone: nat -> bool, output: Bytes -> bool, after: Verdict)
    requires items != [] && i < |items| && items[0].Frame? && SettlesAt(items[1..], n + 1, i, gone, output, after)
    ensures SettlesAt(items, n, i + 1, gone, output, if items[0].bytes == "" then after else Before([items[0].bytes], after))
  {
    hide Filled;
    var rest := items[1..];
    assert gone(n + (i + 1)) == gone(n + 1 + i);
    FilledFirst(items[..i + 1]);
    assert items[..i + 1][1..] == rest[..i];
    HeldBack(items[0].bytes, Filled(rest[..i]));
    if i == |rest| {
      assert items[..i + 1] == items && rest[..i] == rest;
    } else {
      assert rest[i] == items[i + 1] && rest[i + 1..] == items[i + 2..];
    }
  }

  lemma OneMorePassed(items: seq<Item>, n: nat, i: nat, gone: nat -> bool, output: Bytes -> bool)
    requires items != [] && i < |items| && PassedOver(items[1..], n + 1, i, gone, output)
    requires !gone(n) && items[0].Frame? && (items[0].bytes == "" || !output(items[0].bytes))
    ensures PassedOver(items, n, i + 1, gone, output)
  {
    forall j: nat | j < i + 1 ensures Held(items, n, j, gone, output) {
      if j == 0 {
        assert n + j == n;
      } else {
        assert Held(items[1..], n + 1, j - 1, gone, output);
        assert items[1..][j - 1] == items[j] && n + 1 + (j - 1) == n + j;
      }
    }
  }

  lemma HeldBack(b: Bytes, held: seq<Bytes>)
    ensures forall more :: [b] + (held + more) == ([b] + held) + more
    ensures forall more :: ([] + held) + more == held + more
  {
  }

  /** Main result: a stream commits on its first frame with output, holding exactly the frames before it
      that are not empty and that frame last; it commits without output only at its end; and a failure
      before output breaks it. */
  lemma CommitsOnFirstOutput(items: seq<Item>, i: nat, gone: nat -> bool, output: Bytes -> bool)
    requires i <= |items| && PassedOver(items, 0, i, gone, output) && !gone(i)
    ensures var v := Judge(items, 0, gone, output);
            && (i == |items| ==> v == Ended(Filled(items)))
            && (i < |items| && items[i].Frame? && items[i].bytes != "" && output(items[i].bytes) ==>
                  v == Live(Filled(items[..i]) + [items[i].bytes], items[i + 1..]))
            && (i < |items| && items[i].Fault? ==> v == Broken(items[i].err))
            && (i < |items| && items[i].Eof? ==> v == Ended(Filled(items[..i]) + if items[i].bytes == "" then [] else [items[i].bytes]))
  {
    hide Filled, Judge;
    JudgeSettles(items, 0, gone, output);
    var v := Judge(items, 0, gone, output);
    var k :| 0 <= k <= |items| && PassedOver(items, 0, k, gone, output) && SettlesAt(items, 0, k, gone, output, v);
    OneSettles(items, i, k, gone, output, v);
  }

  lemma OneSettles(items: seq<Item>, i: nat, k: nat, gone: nat -> bool, output: Bytes -> bool, v: Verdict)
    requires i <= |items| && k <= |items| && PassedOver(items, 0, i, gone, output) && PassedOver(items, 0, k, gone, output)
    requires !gone(i) && SettlesAt(items, 0, k, gone, output, v)
    ensures i < |items| && items[i].Frame? ==> items[i].bytes == "" || !output(items[i].bytes) || k == i
    ensures i == |items| || !items[i].Frame? ==> k == i
  {
    hide Filled, PassedOver;
    if k < i { PassedOverAt(items, i, k, gone, output); }
    if i < k { PassedOverAt(items, k, i, gone, output); }
  }

  lemma PassedOverAt(items: seq<Item>, i: nat, j: nat, gone: nat -> bool, output: Bytes -> bool)
    requires j < i <= |items| && PassedOver(items, 0, i, gone, output)
    ensures !gone(0 + j) && items[j].Frame? && (items[j].bytes == "" || !output(items[j].bytes))
  {
    assert Held(items, 0, j, gone, output);
  }

  method Commit(stream: Upstream, gone: nat -> bool, output: Bytes -> bool) returns (verdict: Verdict)
    requires stream.Valid()
    modifies stream
    ensures stream.Valid() && verdict == Judge(old(stream.Rest()), 0, gone, output)
    ensures Settles(old(stream.Rest()), 0, gone, output, verdict)
    ensures stream.closes == old(stream.closes) + (if Commits(verdict) then 0 else 1)
    ensures verdict.Live? ==> verdict.rest == stream.Rest()
  {
    JudgeSettles(stream.Rest(), 0, gone, output);
    hide Settles;
    var held: seq<Bytes> := [];
    var n := 0;
    while true
      invariant stream.Valid() && stream.closes == old(stream.closes)
      invariant Judge(old(stream.Rest()), 0, gone, output) == Before(held, Judge(stream.Rest(), n, gone, output))
      invariant n > 0 ==> |stream.Rest()| < |old(stream.Rest())|
      decreases |stream.Rest()|
    {
      if gone(n) {
        stream.Close();
        return Abandoned;
      }
      ghost var rest := stream.Rest();
      var item := stream.Next();
      match item {
        case Frame(b) =>
          if b != "" {
            ghost var before := held;
            held := held + [b];
            if output(b) {
              return Live(held, stream.items[stream.pos..]);
            }
            BeforeTwice(before, b, Judge(stream.Rest(), n + 1, gone, output));
          }
        case Eof(b) =>
          if b != "" {
            held := held + [b];
          }
          return Ended(held);
        case Fault(_, err) =>
          stream.Close();
          return Broken(err);
      }
      n := n + 1;
    }
  }

  lemma BeforeTwice(held: seq<Bytes>, b: Bytes, v: Verdict)
    ensures Before(held, Before([b], v)) == Before(held + [b], v)
  {
    if Commits(v) {
      assert held + ([b] + v.held) == held + [b] + v.held;
    }
  }

  // ----- The committed stream -----

  /** The error of a failure after output: one that has an AfterOutputError in it stays as it is. */
  function AfterOutput(err: Error): Error {
    if HasAfterOutput(err) then err else AfterOutputError(err)
  }

  function Delivered(item: Item): Item {
    match item
    case Fault(b, err) => Fault(b, AfterOutput(err))
    case _ => item
  }

  function Replay(held: seq<Bytes>): seq<Item> {
    if held == [] then [] else [Frame(held[0])] + Replay(held[1..])
  }

  function Relay(rest: seq<Item>): seq<Item> {
    if rest == [] then [] else [Delivered(rest[0])] + Relay(rest[1..])
  }

  /** Everything a committed stream has still to answer. */
  function Pending(v: Verdict): seq<Item>
    requires Commits(v)
  {
    Replay(v.held) + if v.Live? then Relay(v.rest) else []
  }

  /** What is pending when nothing is held any more, and what the next held frame leaves. */
  lemma PendingNext(v: Verdict)
    requires Commits(v)
    ensures v.held != [] ==>
              var after := if v.Live? then Live(v.held[1..], v.rest) else Ended(v.held[1..]);
              Head(Pending(v)) == Frame(v.held[0]) && Tail(Pending(v)) == Pending(after)
    ensures v.held == [] && v.Live? ==>
              Head(Pending(v)) == Delivered(Head(v.rest)) && Tail(Pending(v)) == Pending(Live([], Tail(v.rest)))
    ensures v.held == [] && v.Ended? ==> Pending(v) == []
  {
    if v.held != [] {
      var after := if v.Live? then Relay(v.rest) else [];
      assert Pending(v)[1..] == Replay(v.held[1..]) + after;
    } else if v.Live? {
      assert Pending(v) == Relay(v.rest);
      assert Pending(Live([], Tail(v.rest))) == Relay(Tail(v.rest));
      if v.rest != [] {
        assert Relay(v.rest)[1..] == Relay(v.rest[1..]);
      }
    }
  }

  class Committed {
    var held: seq<Bytes>
    const stream: Upstream
    const ended: bool
    var closed: bool

    constructor (verdict: Verdict, stream: Upstream)
      requires Commits(verdict) && stream.Valid() && (verdict.Live? ==> verdict.rest == stream.Rest())
      ensures this.stream == stream && !closed && View() == verdict
    {
      held, this.stream, ended, closed := verdict.held, stream, verdict.Ended?, false;
    }

    ghost function View(): (v: Verdict)
      reads this, stream
      requires stream.Valid()
      ensures Commits(v)
    {
      if ended then Ended(held) else Live(held, stream.Rest())
    }

    method Next() returns (item: Item)
      requires stream.Valid()
      modifies this`held, stream`pos
      ensures stream.Valid() && item == Head(Pending(old(View()))) && Pending(View()) == Tail(Pending(old(View())))
      ensures ended ==> unchanged(stream)
    {
      hide Relay, Replay;
      PendingNext(View());
      if |held| > 0 {
        item := Frame(held[0]);
        held := held[1..];
        return;
      }
      if ended {
        return Eof("");
      }
      item := stream.Next();
      return Delivered(item);
    }

    method Close()
      modifies this`closed, stream`closes
      ensures closed && stream.closes == old(stream.closes) + (if old(closed) then 0 else 1)
    {
      if !closed {
        stream.Close();
        closed := true;
      }
    }
  }

  // ----- Conservation -----

  lemma {:induction false} RelayKeeps(rest: seq<Item>)
    ensures Text(Relay(rest)) == Text(rest)
    ensures EndOf(Relay(rest)) == match EndOf(rest) case None => None case Some(err) => Some(AfterOutput(err))
  {
    if rest != [] {
      RelayKeeps(rest[1..]);
      assert Relay(rest)[1..] == Relay(rest[1..]);
    }
  }

  function Concat(frames: seq<Bytes>): Bytes {
    if frames == [] then "" else frames[0] + Concat(frames[1..])
  }

  lemma {:induction false} ReplayFirst(held: seq<Bytes>, after: seq<Item>)
    ensures Text(Replay(held) + after) == Concat(held) + Text(after)
    ensures EndOf(Replay(held) + after) == EndOf(after)
  {
    hide Text, EndOf;
    if held == [] {
      assert Replay(held) + after == after && Concat(held) + Text(after) == Text(after);
    } else {
      ReplayFirst(held[1..], after);
      var rest := Replay(held[1..]) + after;
      ReplayCons(held, after);
      FrameFirst(held[0], rest);
      hide Replay;
      assert held[0] + (Concat(held[1..]) + Text(after)) == (held[0] + Concat(held[1..])) + Text(after);
    }
  }

  lemma ReplayCons(held: seq<Bytes>, after: seq<Item>)
    requires held != []
    ensures Replay(held) + after == [Frame(held[0])] + (Replay(held[1..]) + after)
  {
    assert Replay(held) == [Frame(held[0])] + Replay(held[1..]);
    hide Replay;
  }

  lemma FrameFirst(bytes: Bytes, rest: seq<Item>)
    ensures Text([Frame(bytes)] + rest) == bytes + Text(rest) && EndOf([Frame(bytes)] + rest) == EndOf(rest)
  {
    assert ([Frame(bytes)] + rest)[1..] == rest;
  }

  predicate Conserves(v: Verdict, items: seq<Item>) {
    Commits(v) ==>
      && Text(Pending(v)) == Text(items)
      && EndOf(Pending(v)) == match EndOf(items) case None => None case Some(err) => Some(AfterOutput(err))
  }

  /** A frame held back in front of a verdict stands in front of what it delivers. */
  lemma ConservesBefore(items: seq<Item>, v: Verdict)
    requires items != [] && items[0].Frame? && Conserves(v, items[1..])
    ensures items[0].bytes == "" ==> Conserves(v, items)
    ensures Conserves(Before([items[0].bytes], v), items)
  {
    hide Replay, Pending, Text, EndOf;
    var bytes := items[0].bytes;
    assert items == [Frame(bytes)] + items[1..];
    FrameFirst(bytes, items[1..]);
    assert "" + Text(items[1..]) == Text(items[1..]);
    if Commits(v) {
      PendingBefore(bytes, v);
      FrameFirst(bytes, Pending(v));
    }
  }

  lemma PendingBefore(bytes: Bytes, v: Verdict)
    requires Commits(v)
    ensures Pending(Before([bytes], v)) == [Frame(bytes)] + Pending(v)
  {
    hide Relay;
    var held := [bytes] + v.held;
    assert held[1..] == v.held;
    assert Replay(held) == [Frame(bytes)] + Replay(v.held);
  }

  lemma ConservesNow(items: seq<Item>, n: nat, gone: nat -> bool, output: Bytes -> bool)
    requires !gone(n) && (items != [] && items[0].Frame? ==> items[0].bytes != "" && output(items[0].bytes))
    ensures Conserves(Judge(items, n, gone, output), items)
  {
    if items != [] && items[0].Frame? {
      hide Relay;
      ReplayFirst([items[0].bytes], Relay(items[1..]));
      assert Concat([items[0].bytes]) == items[0].bytes + Concat([]);
      RelayKeeps(items[1..]);
    } else if items != [] && items[0].Eof? && items[0].bytes != "" {
      ReplayFirst([items[0].bytes], []);
      assert Concat([items[0].bytes]) == items[0].bytes + Concat([]);
    }
  }

  /** Main result: a committed stream yields exactly its upstream's bytes, in order and once
      each, and ends as the upstream does, a failure marked as one after output. */
  lemma {:induction false} CommitConserves(items: seq<Item>, n: nat, gone: nat -> bool, output: Bytes -> bool)
    requires Commits(Judge(items, n, gone, output))
    ensures var v := Judge(items, n, gone, output);
            && Text(Pending(v)) == Text(items)
            && EndOf(Pending(v)) == match EndOf(items) case None => None case Some(err) => Some(AfterOutput(err))
  {
    hide Pending, Text, EndOf;
    if items != [] && items[0].Frame? && (items[0].bytes == "" || !output(items[0].bytes)) {
      CommitConserves(items[1..], n + 1, gone, output);
      ConservesBefore(items, Judge(items[1..], n + 1, gone, output));
    } else {
      ConservesNow(items, n, gone, output);
    }
  }

  /** Before it commits, a stream shows nothing a caller would call output. */
  lemma {:induction false} OutputCommits(items: seq<Item>, n: nat, gone: nat -> bool, output: Bytes -> bool)
    ensures var v := Judge(items, n, gone, output);
            Commits(v) ==> forall i :: 0 <= i < |v.held| ==>
                             v.held[i] != "" && (i < |v.held| - 1 ==> !output(v.held[i]))
  {
    if items != [] && items[0].Frame? && !gone(n) {
      OutputCommits(items[1..], n + 1, gone, output);
    }
  }

  // ----- When a failure after output is final -----

  /** It ends an execution, and Health records nothing of it. */
  predicate TerminalAndNeutral(err: Error) {
    DispositionOf(ClassifyError(err)) == Terminal && SaysNothing(Health.Observe(Some(err)))
  }

  predicate SaysNothing(o: Health.Observation) {
    o.effect == Health.Neutral && o.retryAfter <= 0
  }

  /** An observation says nothing exactly when recording it never changes anything. */
  lemma SaysNothingExactly(o: Health.Observation)
    ensures SaysNothing(o) <==>
            forall keys: map<string, Health.State>, key, policy, now: Health.Instant :: Health.Recorded(keys, key, o, policy, now) == keys
  {
    var policy := Health.Policy(1, 1, Health.NoBackoff, 0, false);
    var failed := map["k" := Health.State(1, multiset{"c"}, 1, 1, Health.NEVER)];
    if !SaysNothing(o) {
      hide Health.Failed;
      if o.effect == Health.Success {
        assert Health.StateOf(Health.Recorded(failed, "k", o, policy, 1), "k").streak == 0;
        assert Health.Recorded(failed, "k", o, policy, 1) != failed;
      } else {
        assert "k" in Health.Recorded(map[], "k", o, policy, 1);
        assert Health.Recorded(map[], "k", o, policy, 1) != map[];
      }
    }
  }

  /** What in an error errors.As may find, in the order it looks: a classifier with what it says,
      or an AfterOutputError, which says nothing. */
  datatype Layer = Says(classification: Classification) | MarksOutput

  function Layers(err: Error): seq<Layer> {
    match err
    case Cause(_, _) => []
    case Wrapped(e) => Layers(e)
    case Classified(c, e) => [Says(c)] + Layers(e)
    case AfterOutputError(e) => [MarksOutput] + Layers(e)
    case Joined(first, second) => Layers(first) + Layers(second)
  }

  lemma {:induction false} LayersFound(err: Error)
    ensures HasAfterOutput(err) <==> MarksOutput in Layers(err)
    ensures var layers := Layers(err);
            FirstClassification(err) ==
            if layers == [] then None else Some(if layers[0].Says? then layers[0].classification else UNCLASSIFIED)
  {
    match err {
      case Cause(_, _) =>
      case Joined(first, second) => LayersFound(first); LayersFound(second);
      case _ => LayersFound(err.err);
    }
  }

  /** What a classification says: another try, another candidate, or something about the provider. */
  predicate Harmless(c: Classification, canceled: bool) {
    && !c.retryable && !c.failoverEligible && !c.circuitFailure
    && (c.statusCode == 0 || canceled) && c.retryAfter <= 0
  }

  /** A classifier stands in front of the AfterOutputError, and the first one speaks. */
  predicate Shadowed(err: Error) {
    var layers := Layers(err);
    MarksOutput in layers && layers[0].Says? && !Harmless(layers[0].classification, Canceled(err))
  }

  /** The failure a committed stream returns is terminal and neutral exactly when in the upstream's
      own error no AfterOutputError hides behind a classifier that speaks. */
  lemma AfterOutputIsFinal(err: Error, bytes: Bytes)
    ensures HasAfterOutput(Delivered(Fault(bytes, err)).err)
    ensures TerminalAndNeutral(Delivered(Fault(bytes, err)).err) <==> !Shadowed(err)
  {
    LayersFound(err);
    if !HasAfterOutput(err) {
      assert Layers(AfterOutputError(err))[0] == MarksOutput;
    }
  }

  /** A rate limit that wraps the failure of an inner stream after output: the outer stream returns it
      as it is, and it permits a repeat and counts against the provider. */
  lemma ShadowedFailureRepeats(id: nat, bytes: Bytes)
    ensures var err := Classified(Classification(true, true, true, 429, 0), AfterOutputError(Cause(id, false)));
            && Shadowed(err) && Delivered(Fault(bytes, err)).err == err && HasAfterOutput(err)
            && DispositionOf(ClassifyError(err)) == Retryable && Health.Observe(Some(err)).effect == Health.Failure
  {
    var inner := AfterOutputError(Cause(id, false));
    assert Layers(inner) == [MarksOutput] && HasAfterOutput(inner);
    assert Layers(Classified(Classification(true, true, true, 429, 0), inner))[1] == MarksOutput;
  }

  // ----- Failover over streams -----

  /** What opening a candidate gives: an error, perhaps with a stream, or nothing, or a stream and
      when the context would end while it is read. */
  datatype Opening =
    | OpenFailed(partial: Option<seq<Item>>, err: Error)
    | OpenedNothing
    | Opened(items: seq<Item>, gone: nat -> bool)

  const NO_STREAM := Cause(0, false)
  const CONTEXT_ERROR := Cause(1, true)

  /** How a try that opens a candidate ends. */
  function RunOf(o: Opening, output: Bytes -> bool): (result: Try<Verdict>)
    ensures result.Served? ==> Commits(result.value)
  {
    match o
    case OpenFailed(_, err) => Erred(err)
    case OpenedNothing => Erred(NO_STREAM)
    case Opened(items, gone) =>
      match Judge(items, 0, gone, output)
      case Broken(err) => Erred(err)
      case Abandoned => Erred(CONTEXT_ERROR)
      case v => Served(v)
  }

  /** The stream an opening brings, if any. */
  function StreamOf(o: Opening): seq<seq<Item>> {
    match o
    case OpenFailed(Some(items), _) => [items]
    case Opened(items, _) => [items]
    case _ => []
  }

  /** A World whose candidates open streams. */
  function Streams(w: World<Opening>, output: Bytes -> bool): World<Verdict> {
    World(w.gone, w.available, (i, k) => TryOf(w.run(i, k), output), w.goneAfter, w.cut, w.now)
  }

  function TryOf(r: Try<Opening>, output: Bytes -> bool): Try<Verdict> {
    match r
    case Served(o) => RunOf(o, output)
    case Erred(err) => Erred(err)
  }

  function OpenedIn(r: Try<Opening>): seq<seq<Item>> {
    if r.Served? then StreamOf(r.value) else []
  }

  /** The streams the first n tries of candidate i open, in order. */
  ghost function OpenedBy(w: World<Opening>, i: nat, n: nat): seq<seq<Item>> {
    if n == 0 then [] else OpenedBy(w, i, n - 1) + OpenedIn(w.run(i, n))
  }

  /** The streams opened along a trace, repeats included. */
  ghost function OpenedAlong<C>(w: World<Opening>, trace: seq<Attempt<C>>): seq<seq<Item>> {
    if trace == [] then []
    else
      var i := |trace| - 1;
      OpenedAlong(w, trace[..i]) + OpenedBy(w, i, trace[i].tries)
  }

  /** These objects are the streams opened, each another one. The serving stream, if there is one,
      was opened last and is open; every other one was closed, once. */
  ghost predicate Accounts(streams: seq<Upstream>, items: seq<seq<Item>>, serving: Committed?)
    reads streams
  {
    && |streams| == |items|
    && (forall j :: 0 <= j < |streams| ==> streams[j].Valid() && streams[j].items == items[j])
    && (forall j, k :: 0 <= j < k < |streams| ==> streams[j] != streams[k])
    && (serving != null ==> streams != [] && serving.stream == streams[|streams| - 1])
    && (forall j :: 0 <= j < |streams| ==> streams[j].closes == if serving != null && j == |streams| - 1 then 0 else 1)
  }

  /** The caller's stream stands where the verdict says. */
  ghost predicate Serves(serving: Committed?, result: Try<Verdict>)
    reads serving, if serving == null then {} else {serving.stream}
  {
    && (serving != null <==> result.Served?)
    && (serving != null ==> !serving.closed && serving.stream.Valid() && serving.View() == result.value)
  }

  lemma AccountsMore(a: seq<Upstream>, x: seq<seq<Item>>, b: seq<Upstream>, y: seq<seq<Item>>, serving: Committed?)
    requires Accounts(a, x, null) && Accounts(b, y, serving)
    requires forall s, t :: s in a && t in b ==> s != t
    ensures Accounts(a + b, x + y, serving)
  {
    var all := a + b;
    forall j, k | 0 <= j < k < |all| ensures all[j] != all[k] {
      if j < |a| <= k {
        assert all[j] in a && all[k] in b;
      }
    }
  }

  lemma NothingOpened()
    ensures Accounts([], [], null)
  {
  }

  lemma OneOpened(stream: Upstream, serving: Committed?)
    requires stream.Valid() && stream.closes == if serving == null then 1 else 0
    requires serving != null ==> serving.stream == stream
    ensures Accounts([stream], [stream.items], serving)
  {
  }

  /** Opens a candidate, and closes what that opened unless the stream commits. */
  method OpenAndCommit(r: Try<Opening>, output: Bytes -> bool)
    returns (result: Try<Verdict>, streams: seq<Upstream>, serving: Committed?)
    ensures result == TryOf(r, output) && Serves(serving, result) && Accounts(streams, OpenedIn(r), serving)
    ensures fresh(streams) && (serving != null ==> fresh(serving))
  {
    hide Judge, Accounts;
    NothingOpened();
    streams, serving := [], null;
    match r {
      case Erred(err) => result := Erred(err);
      case Served(OpenFailed(partial, err)) =>
        if partial.Some? {
          var stream := new Upstream(partial.value);
          streams := [stream];
          stream.Close();
          OneOpened(stream, null);
        }
        result := Erred(err);
      case Served(OpenedNothing) => result := Erred(NO_STREAM);
      case Served(Opened(items, gone)) =>
        var stream := new Upstream(items);
        streams := [stream];
        var verdict := Commit(stream, gone, output);
        match verdict {
          case Broken(err) => result := Erred(err);
          case Abandoned => result := Erred(CONTEXT_ERROR);
          case _ =>
            serving := new Committed(verdict, stream);
            result := Served(verdict);
        }
        OneOpened(stream, serving);
    }
  }

  /** One candidate's tries: each opens it anew. */
  method TryStream<C>(w: World<Opening>, ex: Executor<C>, output: Bytes -> bool, i: nat, entry: Attempt<C>)
    returns (done: Attempt<C>, result: Try<Verdict>, ending: Ending, streams: seq<Upstream>, serving: Committed?)
    requires entry.tries == 0
    ensures Tried(Streams(w, output), ex, i, entry, done, result, ending)
    ensures Serves(serving, result) && Accounts(streams, OpenedBy(w, i, done.tries), serving)
    ensures fresh(streams) && (serving != null ==> fresh(serving))
  {
    hide Accounts, RunOf, OpenedIn, Serves;
    ghost var sw := Streams(w, output);
    done, streams := entry, [];
    NothingOpened();
    while true
      invariant done == entry.(tries := done.tries, err := done.err)
      invariant done.tries == 0 || done.tries < ex.attempts
      invariant forall k :: 1 <= k <= done.tries ==> EndingOf(sw, ex, i, k) == Repeats
      invariant fresh(streams) && Accounts(streams, OpenedBy(w, i, done.tries), null)
      decreases ex.attempts - done.tries
    {
      done := done.(tries := done.tries + 1);
      var more;
      result, more, serving := OpenAndCommit(w.run(i, done.tries), output);
      AccountsMore(streams, OpenedBy(w, i, done.tries - 1), more, OpenedIn(w.run(i, done.tries)), serving);
      streams := streams + more;
      assert sw.run(i, done.tries) == result;
      match result {
        case Served(_) =>
          done := done.(err := None);
          return done, result, Ending.Serves, streams, serving;
        case Erred(err) =>
          NoServing(serving, result);
          done := done.(err := Some(err));
          if w.goneAfter(i, done.tries) {
            return done, result, GivesUp, streams, serving;
          }
          var permitted := DispositionOf(ClassifyError(err));
          if permitted == Retryable && done.tries < ex.attempts {
            if w.cut(i, done.tries) {
              return done, result, IsCut, streams, serving;
            }
          } else {
            return done, result, if permitted == Terminal then Stops else MovesOn, streams, serving;
          }
      }
    }
  }

  lemma NoServing(serving: Committed?, result: Try<Verdict>)
    requires Serves(serving, result) && result.Erred?
    ensures serving == null
  {
  }

  /** What an execution over streams leaves behind. */
  ghost predicate Executed<C>(w: World<Opening>, ex: Executor<C>, candidates: seq<C>, output: Bytes -> bool,
                              serving: Committed?, trace: seq<Attempt<C>>, told: seq<Told>, failure: Option<Reason>,
                              streams: seq<Upstream>)
    reads streams, serving, if serving == null then {} else {serving.stream}
  {
    var sw := Streams(w, output);
    && Trace(sw, ex, candidates, trace) && told == Reports(sw, ex, trace)
    && Accounts(streams, OpenedAlong(w, trace), serving)
    && (serving != null <==> failure == None)
    && (serving != null ==> !serving.closed && serving.stream.Valid())
    && Explains(sw, ex, candidates, trace, if serving == null then None else Some(serving.View()), failure)
  }

  /** The loop's state once the candidates of trace are behind it, all their streams closed. */
  ghost predicate Along<C>(w: World<Opening>, ex: Executor<C>, candidates: seq<C>, output: Bytes -> bool,
                           trace: seq<Attempt<C>>, told: seq<Told>, last: Option<Error>, until: Health.Time, streams: seq<Upstream>)
    reads streams
  {
    && Passed(Streams(w, output), ex, candidates, trace, told, last, until)
    && Accounts(streams, OpenedAlong(w, trace), null)
  }

  lemma AlongSkip<C>(w: World<Opening>, ex: Executor<C>, candidates: seq<C>, output: Bytes -> bool,
                     trace: seq<Attempt<C>>, told: seq<Told>, last: Option<Error>, until: Health.Time, streams: seq<Upstream>,
                     entry: Attempt<C>)
    requires Along(w, ex, candidates, output, trace, told, last, until, streams)
    requires |trace| < |candidates| && !w.gone(|trace|) && entry.unavailable
    requires EntryOf(Streams(w, output), ex, candidates[|trace|], |trace|, entry)
    ensures var next := entry.until;
            Along(w, ex, candidates, output, trace + [entry], told, last,
                  if next != Health.NEVER && (until == Health.NEVER || next < until) then next else until, streams)
  {
    hide Passed, Accounts, EndingOf;
    PassedSkip(Streams(w, output), ex, candidates, trace, told, last, until, entry);
    SkippedOpensNothing(w, trace, entry);
  }

  /** Why an execution ends with a candidate. */
  function ReasonOf(result: Try<Verdict>, ending: Ending): Option<Reason> {
    match result
    case Served(_) => None
    case Erred(err) =>
      Some(if ending == GivesUp then ContextEnded else if ending == IsCut then WaitCut else CandidateFailed(err))
  }

  lemma AlongTry<C>(w: World<Opening>, ex: Executor<C>, candidates: seq<C>, output: Bytes -> bool,
                    trace: seq<Attempt<C>>, told: seq<Told>, last: Option<Error>, until: Health.Time, streams: seq<Upstream>,
                    done: Attempt<C>, result: Try<Verdict>, ending: Ending, more: seq<Upstream>, serving: Committed?)
    requires Along(w, ex, candidates, output, trace, told, last, until, streams) && !(ex.health && ex.key == None)
    requires |trace| < |candidates| && !w.gone(|trace|) && !done.unavailable
    requires EntryOf(Streams(w, output), ex, candidates[|trace|], |trace|, done)
    requires ending == EndingOf(Streams(w, output), ex, |trace|, done.tries) && result == Streams(w, output).run(|trace|, done.tries)
    requires Serves(serving, result) && Accounts(more, OpenedBy(w, |trace|, done.tries), serving)
    requires forall s, t :: s in streams && t in more ==> s != t
    ensures var heard := told + (if ex.health && ending != GivesUp && ending != IsCut then [Told(done.key, done.err)] else []);
            && (ending == MovesOn ==>
                  done.err.Some? && Along(w, ex, candidates, output, trace + [done], heard, done.err, until, streams + more))
            && (ending != MovesOn ==>
                  Executed(w, ex, candidates, output, serving, trace + [done], heard, ReasonOf(result, ending), streams + more))
  {
    hide Trace, Explains, Reports, Passed, EndingOf, Accounts, OpenedBy, Serves, RunOf, EntryOf;
    var sw := Streams(w, output);
    AccountsMore(streams, OpenedAlong(w, trace), more, OpenedBy(w, |trace|, done.tries), serving);
    TriedOpens(w, trace, done);
    EndingIsOf(sw, ex, |trace|, done, result, ending, serving);
    if ending == MovesOn {
      PassedTry(sw, ex, candidates, trace, told, last, until, done);
    } else {
      EndsWith(sw, ex, candidates, trace, told, last, until, done, ending);
    }
    hide OpenedAlong;
  }

  lemma AlongEnds<C>(w: World<Opening>, ex: Executor<C>, candidates: seq<C>, output: Bytes -> bool,
                     trace: seq<Attempt<C>>, told: seq<Told>, last: Option<Error>, until: Health.Time, streams: seq<Upstream>)
    requires Along(w, ex, candidates, output, trace, told, last, until, streams) && !(ex.health && ex.key == None)
    ensures |trace| < |candidates| && w.gone(|trace|) ==>
              Executed(w, ex, candidates, output, null, trace, told, Some(ContextEnded), streams)
    ensures |trace| == |candidates| > 0 ==>
              Executed(w, ex, candidates, output, null, trace, told,
                       Some(if last.Some? then CandidateFailed(last.value)
                            else AllUnavailable(until, if until == Health.NEVER || until < w.now then 0 else until - w.now)), streams)
  {
    hide Trace, Explains, Reports, Passed, Accounts;
    EndsPast(Streams(w, output), ex, candidates, trace, told, last, until);
  }

  lemma AlongNone<C>(w: World<Opening>, ex: Executor<C>, candidates: seq<C>, output: Bytes -> bool)
    ensures Along(w, ex, candidates, output, [], [], None, Health.NEVER, [])
    ensures ex.health && ex.key == None ==> Executed(w, ex, candidates, output, null, [], [], Some(NoKey), [])
    ensures !(ex.health && ex.key == None) && candidates == [] ==>
              Executed(w, ex, candidates, output, null, [], [], Some(NoCandidates), [])
  {
    NothingOpened();
  }

  lemma TriedEntry<C>(w: World<Opening>, ex: Executor<C>, output: Bytes -> bool, candidate: C, i: nat,
                      entry: Attempt<C>, done: Attempt<C>, result: Try<Verdict>, ending: Ending)
    requires Tried(Streams(w, output), ex, i, entry, done, result, ending) && !Skips(Streams(w, output), ex, i)
    requires entry == Attempt(candidate, if ex.health && ex.key.Some? then ex.key.value(candidate) else "", false, Health.NEVER, 0, None)
    ensures EntryOf(Streams(w, output), ex, candidate, i, done) && !done.unavailable
  {
    hide EndingOf, RunOf;
  }

  /** Execute over streams: of all the streams it opened the caller gets the serving one, if any. */
  method ExecuteStream<C>(w: World<Opening>, ex: Executor<C>, candidates: seq<C>, output: Bytes -> bool)
    returns (serving: Committed?, trace: seq<Attempt<C>>, told: seq<Told>, failure: Option<Reason>, streams: seq<Upstream>)
    ensures Executed(w, ex, candidates, output, serving, trace, told, failure, streams)
    ensures fresh(streams) && (serving != null ==> fresh(serving))
  {
    hide Along, Executed, Tried, EntryOf, EndingOf, Accounts, OpenedBy, Serves, RunOf;
    trace, told, streams, serving := [], [], [], null;
    AlongNone(w, ex, candidates, output);
    if ex.health && ex.key == None {
      return null, [], [], Some(NoKey), [];
    }
    if |candidates| == 0 {
      return null, [], [], Some(NoCandidates), [];
    }
    var last: Option<Error> := None;
    var until := Health.NEVER;
    for i := 0 to |candidates|
      invariant |trace| == i && fresh(streams) && Along(w, ex, candidates, output, trace, told, last, until, streams)
    {
      AlongEnds(w, ex, candidates, output, trace, told, last, until, streams);
      if w.gone(i) {
        return null, trace, told, Some(ContextEnded), streams;
      }
      var entry := Attempt(candidates[i], "", false, Health.NEVER, 0, None);
      if ex.health {
        entry := entry.(key := ex.key.value(candidates[i]));
        var (available, next) := w.available(i);
        if !available {
          entry := entry.(unavailable := true, until := next);
          SkippedEntry(w, ex, output, candidates[i], i, entry);
          AlongSkip(w, ex, candidates, output, trace, told, last, until, streams, entry);
          trace := trace + [entry];
          if next != Health.NEVER && (until == Health.NEVER || next < until) {
            until := next;
          }
          continue;
        }
      }
      var done, result, ending, more;
      done, result, ending, more, serving := TryStream(w, ex, output, i, entry);
      TriedEntry(w, ex, output, candidates[i], i, entry, done, result, ending);
      TriedEnds(w, ex, output, i, entry, done, result, ending);
      AlongTry(w, ex, candidates, output, trace, told, last, until, streams, done, result, ending, more, serving);
      streams := streams + more;
      trace := trace + [done];
      assert told + [] == told;
      if ex.health && ending != GivesUp && ending != IsCut {
        told := told + [Told(done.key, done.err)];
      }
      if ending != MovesOn {
        return serving, trace, told, ReasonOf(result, ending), streams;
      }
      last := done.err;
    }
    AlongEnds(w, ex, candidates, output, trace, told, last, until, streams);
    if last.Some? {
      return null, trace, told, Some(CandidateFailed(last.value)), streams;
    }
    return null, trace, told,
      Some(AllUnavailable(until, if until == Health.NEVER || until < w.now then 0 else until - w.now)), streams;
  }

  lemma SkippedEntry<C>(w: World<Opening>, ex: Executor<C>, output: Bytes -> bool, candidate: C, i: nat, entry: Attempt<C>)
    requires ex.health && ex.key.Some? && !w.available(i).0
    requires entry == Attempt(candidate, ex.key.value(candidate), true, w.available(i).1, 0, None)
    ensures EntryOf(Streams(w, output), ex, candidate, i, entry)
  {
    hide EndingOf, RunOf;
  }

  lemma TriedEnds<C>(w: World<Opening>, ex: Executor<C>, output: Bytes -> bool, i: nat,
                     entry: Attempt<C>, done: Attempt<C>, result: Try<Verdict>, ending: Ending)
    requires Tried(Streams(w, output), ex, i, entry, done, result, ending)
    ensures ending == EndingOf(Streams(w, output), ex, i, done.tries) && result == Streams(w, output).run(i, done.tries)
    ensures ending != Repeats && (ending == Ending.Serves <==> result.Served?)
  {
    hide RunOf;
  }

  lemma SkippedOpensNothing<C>(w: World<Opening>, trace: seq<Attempt<C>>, entry: Attempt<C>)
    requires entry.tries == 0
    ensures OpenedAlong(w, trace + [entry]) == OpenedAlong(w, trace)
  {
    assert (trace + [entry])[..|trace|] == trace;
  }

  lemma TriedOpens<C>(w: World<Opening>, trace: seq<Attempt<C>>, entry: Attempt<C>)
    ensures OpenedAlong(w, trace + [entry]) == OpenedAlong(w, trace) + OpenedBy(w, |trace|, entry.tries)
  {
    hide OpenedBy;
    assert (trace + [entry])[..|trace|] == trace;
  }

  /** A try ends by serving exactly when it has a stream to serve. */
  lemma EndingIsOf<C>(sw: World<Verdict>, ex: Executor<C>, i: nat, done: Attempt<C>, result: Try<Verdict>, ending: Ending, serving: Committed?)
    requires ending == EndingOf(sw, ex, i, done.tries) && result == sw.run(i, done.tries) && Serves(serving, result)
    ensures ending == Ending.Serves <==> serving != null
    ensures serving != null ==> result.Served? && !serving.closed && serving.stream.Valid() && serving.View() == result.value
    ensures serving == null ==> result.Erred?
  {
  }

  /** Main result: of all the streams an execution opened, repeats included, the serving one, the last
      opened, is left open and delivered whole, with its end; every other one was closed, once, and
      nothing of it is delivered. */
  lemma OneStreamServes<C>(w: World<Opening>, ex: Executor<C>, candidates: seq<C>, output: Bytes -> bool,
                           serving: Committed?, trace: seq<Attempt<C>>, told: seq<Told>, failure: Option<Reason>,
                           streams: seq<Upstream>)
    requires Executed(w, ex, candidates, output, serving, trace, told, failure, streams)
    ensures forall s :: s in streams ==> s.closes == if serving != null && s == serving.stream then 0 else 1
    ensures serving != null ==>
              && trace != [] && serving.stream in streams && !serving.closed
              && w.run(|trace| - 1, trace[|trace| - 1].tries).Served?
              && var o := w.run(|trace| - 1, trace[|trace| - 1].tries).value;
                 && o.Opened? && serving.stream.items == o.items
                 && Text(Pending(serving.View())) == Text(o.items)
                 && EndOf(Pending(serving.View())) == match EndOf(o.items) case None => None case Some(err) => Some(AfterOutput(err))
  {
    hide Judge, Pending, Text, EndOf, Trace, Reports, EndingOf;
    if serving != null {
      var i := |trace| - 1;
      var k := trace[i].tries;
      var o := w.run(i, k).value;
      assert w.run(i, k).Served? && RunOf(o, output) == Served(serving.View());
      CommitConserves(o.items, 0, o.gone, output);
      LastWasTried(Streams(w, output), ex, candidates, trace);
      LastOpened(w, trace);
    }
  }

  /** Main result: an execution over streams stops short of the candidates only because the last one's
      stream committed, its error permits no other candidate, the context ended, or a wait was cut. */
  lemma StreamsFailOver<C>(w: World<Opening>, ex: Executor<C>, candidates: seq<C>, output: Bytes -> bool,
                           serving: Committed?, trace: seq<Attempt<C>>, told: seq<Told>, failure: Option<Reason>,
                           streams: seq<Upstream>)
    requires Executed(w, ex, candidates, output, serving, trace, told, failure, streams)
    ensures var n := |trace|;
            n < |candidates| ==>
              || failure == Some(NoKey)
              || serving != null
              || (n > 0 && trace[n - 1].err.Some? && failure == Some(CandidateFailed(trace[n - 1].err.value)) && !Permits(trace[n - 1].err.value))
              || (failure == Some(ContextEnded) && (w.gone(n) || (n > 0 && w.goneAfter(n - 1, trace[n - 1].tries))))
              || (failure == Some(WaitCut) && n > 0 && w.cut(n - 1, trace[n - 1].tries))
    ensures failure.Some? && failure.value.CandidateFailed? && Permits(failure.value.err) ==> |trace| == |candidates|
  {
    hide Trace, Explains, RunOf, Permits, Accounts, Reports;
    var sw, value := Streams(w, output), if serving == null then None else Some(serving.View());
    StopsShortForAReason(sw, ex, candidates, trace, value, failure);
    if |trace| > 0 {
      TriedExactly(sw, ex, candidates, trace, |trace| - 1);
    }
  }

  lemma LastWasTried<C, R>(w: World<R>, ex: Executor<C>, candidates: seq<C>, trace: seq<Attempt<C>>)
    requires Trace(w, ex, candidates, trace) && trace != [] && !trace[|trace| - 1].unavailable
    ensures trace[|trace| - 1].tries > 0
  {
    assert EntryOf(w, ex, candidates[|trace| - 1], |trace| - 1, trace[|trace| - 1]);
  }

  /** The last stream opened is the last try's. */
  lemma LastOpened<C>(w: World<Opening>, trace: seq<Attempt<C>>)
    requires trace != [] && trace[|trace| - 1].tries > 0
    requires var r := w.run(|trace| - 1, trace[|trace| - 1].tries); r.Served? && r.value.Opened?
    ensures var items := OpenedAlong(w, trace);
            items != [] && items[|items| - 1] == w.run(|trace| - 1, trace[|trace| - 1].tries).value.items
  {
  }
}
