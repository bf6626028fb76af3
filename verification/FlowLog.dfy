/** The history of one OAuth flow: what the calls that work on it wrote and asked for, in the
    order it took effect, and what a history that keeps the protocol guarantees. */
module FlowLog {
  import opened Options
  import opened FlowStore

  const SECOND: Duration := 1_000_000_000
  /** Section 3.5 of RFC 8628. */
  const SLOW_DOWN_STEP: Duration := 5 * SECOND

  datatype Event =
    | Started(call: nat, now: Time, interval: Duration)     // Create landed
    | Claimed(call: nat, now: Time, interval: Duration)     // a poll's claim landed
    | Asked(call: nat)                                      // driver.Poll ran
    | Slowed(call: nat, now: Time, interval: Duration)      // a slow_down landed
    | Taken(call: nat)                                      // Consume landed
    | Exchanged(call: nat)                                  // driver.Exchange ran
    | Saved(call: nat, key: string, ok: bool)               // the credential store's Save ran
    | Ended(call: nat, outcome: Outcome, key: string)       // the outcome was written

  /** The order a call goes through. */
  function Rank(e: Event): nat {
    match e
    case Started(_, _, _) => 0
    case Claimed(_, _, _) => 1
    case Asked(_) => 2
    case Slowed(_, _, _) => 3
    case Taken(_) => 4
    case Exchanged(_) => 5
    case Saved(_, _, _) => 6
    case Ended(_, _, _) => 7
  }

  /** Events that set when the flow may next be polled. */
  predicate Schedules(e: Event) { e.Started? || e.Claimed? || e.Slowed? }

  function NextPollAt(e: Event): Time
    requires Schedules(e)
  {
    e.now + e.interval
  }

  function LastSchedule(log: seq<Event>): Option<Event> {
    if log == [] then None
    else if Schedules(log[|log| - 1]) then Some(log[|log| - 1])
    else LastSchedule(log[..|log| - 1])
  }

  /** The outcome and key the flow holds after a history. */
  function EndOf(log: seq<Event>): (Outcome, string) {
    if log == [] then (NoOutcome, "")
    else
      var e := log[|log| - 1];
      if e.Ended? then (e.outcome, e.key) else EndOf(log[..|log| - 1])
  }

  predicate NoneTaken(log: seq<Event>) {
    forall i :: 0 <= i < |log| ==> !log[i].Taken?
  }

  predicate NoneSaved(log: seq<Event>) {
    forall i :: 0 <= i < |log| ==> !(log[i].Saved? && log[i].ok)
  }

  predicate InTurn(before: seq<Event>, e: Event) {
    forall i :: 0 <= i < |before| && before[i].call == e.call ==> Rank(before[i]) < Rank(e)
  }

  /** Event e is due after that history. */
  predicate Due(before: seq<Event>, e: Event) {
    && InTurn(before, e)
    && match e
       case Started(_, _, interval) => before == [] && interval >= 0
       case Claimed(_, now, interval) =>
         var last := LastSchedule(before);
         last.Some? && Schedules(last.value) && interval == last.value.interval && now >= NextPollAt(last.value)
       case Asked(call) => exists i :: 0 <= i < |before| && before[i].Claimed? && before[i].call == call
       case Slowed(call, now, interval) => LastSchedule(before) == Some(Claimed(call, now, interval - SLOW_DOWN_STEP))
       case Taken(_) => before != [] && NoneTaken(before)
       case Exchanged(call) => Taken(call) in before
       case Saved(call, _, _) => Taken(call) in before
       case Ended(call, outcome, key) =>
         && Taken(call) in before && outcome != NoOutcome
         && (if outcome == OutcomeComplete then Saved(call, key, true) in before else NoneSaved(before))
  }

  /** The protocol was kept: every event was due when it took effect. */
  predicate Kept(log: seq<Event>) {
    forall i {:trigger Due(log[..i], log[i])} :: 0 <= i < |log| ==> Due(log[..i], log[i])
  }

  lemma KeptMore(log: seq<Event>, e: Event)
    requires Kept(log) && Due(log, e)
    ensures Kept(log + [e])
  {
    hide Due;
    var more := log + [e];
    assert more[..|log|] == log;
    forall i | 0 <= i < |more| ensures Due(more[..i], more[i]) {
      if i < |log| { assert more[..i] == log[..i]; }
    }
  }

  lemma LastScheduleMore(log: seq<Event>, e: Event)
    ensures LastSchedule(log + [e]) == if Schedules(e) then Some(e) else LastSchedule(log)
    ensures EndOf(log + [e]) == if e.Ended? then (e.outcome, e.key) else EndOf(log)
  {
    assert (log + [e])[..|log|] == log;
  }

  /** Where the last schedule was set. */
  lemma {:induction false} LastScheduleAt(log: seq<Event>) returns (i: nat)
    requires LastSchedule(log).Some?
    ensures i < |log| && Schedules(log[i]) && log[i] == LastSchedule(log).value
    ensures forall j :: i < j < |log| ==> !Schedules(log[j])
  {
    if Schedules(log[|log| - 1]) {
      i := |log| - 1;
    } else {
      i := LastScheduleAt(log[..|log| - 1]);
    }
  }

  lemma LastScheduleExists(log: seq<Event>, i: nat)
    requires i < |log| && Schedules(log[i])
    ensures LastSchedule(log).Some?
  {
    if i < |log| - 1 { LastScheduleExists(log[..|log| - 1], i); }
  }

  /** Schedules only move forward: the interval never shrinks, the next poll never moves back,
      and no claim comes before it. */
  lemma {:induction false} SchedulesMoveForward(log: seq<Event>, i: nat, j: nat)
    requires Kept(log) && i < j < |log| && Schedules(log[i]) && Schedules(log[j])
    ensures 0 <= log[i].interval <= log[j].interval
    ensures NextPollAt(log[i]) <= NextPollAt(log[j])
    ensures log[j].Claimed? ==> log[j].now >= NextPollAt(log[i])
    decreases j
  {
    var before := log[..j];
    assert Due(before, log[j]);
    hide Kept;
    LastScheduleExists(before, i);
    var k := LastScheduleAt(before);
    if k == i {
      IntervalIsPositive(log, i);
    } else {
      SchedulesMoveForward(log, i, k);
    }
  }

  lemma {:induction false} IntervalIsPositive(log: seq<Event>, i: nat)
    requires Kept(log) && i < |log| && Schedules(log[i])
    ensures log[i].interval >= 0
    decreases i
  {
    assert Due(log[..i], log[i]);
    hide Kept;
    if !log[i].Started? {
      var k := LastScheduleAt(log[..i]);
      IntervalIsPositive(log, k);
    }
  }

  /** A call does each thing at most once on a flow. */
  lemma OncePerCall(log: seq<Event>, i: nat, j: nat)
    requires Kept(log) && i < j < |log| && log[i].call == log[j].call
    ensures Rank(log[i]) < Rank(log[j])
  {
    assert Due(log[..j], log[j]);
    assert log[..j][i] == log[i];
  }

  /** Main result: of two claims of a flow the later comes at least the earlier's interval
      after it, and the slow_down step more if the earlier poll's slow_down landed at all. */
  lemma ClaimsAreSpaced(log: seq<Event>, i: nat, j: nat)
    requires Kept(log) && i < j < |log| && log[i].Claimed? && log[j].Claimed?
    ensures log[j].now >= log[i].now + log[i].interval
    ensures (exists k :: 0 <= k < |log| && log[k].Slowed? && log[k].call == log[i].call) ==>
              log[j].now >= log[i].now + log[i].interval + SLOW_DOWN_STEP && log[j].interval >= log[i].interval + SLOW_DOWN_STEP
  {
    hide Kept;
    SchedulesMoveForward(log, i, j);
    forall k | 0 <= k < |log| && log[k].Slowed? && log[k].call == log[i].call
      ensures log[j].now >= log[i].now + log[i].interval + SLOW_DOWN_STEP && log[j].interval >= log[i].interval + SLOW_DOWN_STEP
    {
      SlowedFollowsItsClaim(log, i, k);
      if k < j {
        SchedulesMoveForward(log, k, j);
      } else {
        assert false;
      }
    }
  }

  /** A slow_down that lands comes right after its own call's claim, with nothing scheduled in
      between, and lengthens that claim's interval by the step. */
  lemma SlowedFollowsItsClaim(log: seq<Event>, i: nat, k: nat)
    requires Kept(log) && i < |log| && k < |log| && log[i].Claimed? && log[k].Slowed? && log[k].call == log[i].call
    ensures i < k && log[k].now == log[i].now && log[k].interval == log[i].interval + SLOW_DOWN_STEP
    ensures forall j :: i < j < k ==> !Schedules(log[j])
  {
    assert Due(log[..k], log[k]);
    hide Kept;
    var l := LastScheduleAt(log[..k]);
    assert log[l].Claimed? && log[l].call == log[i].call;
    if i < l { OncePerCall(log, i, l); }
    if l < i { OncePerCall(log, l, i); }
  }

  /** Main result: the first claim comes at least the interval after Start. */
  lemma FirstClaimWaits(log: seq<Event>, j: nat)
    requires Kept(log) && j < |log| && log[j].Claimed?
    ensures log[0].Started? && log[j].now >= log[0].now + log[0].interval
  {
    StartsWithStarted(log, j);
    SchedulesMoveForward(log, 0, j);
  }

  lemma {:induction false} StartsWithStarted(log: seq<Event>, j: nat)
    requires Kept(log) && j < |log|
    ensures log[0].Started?
  {
    assert Due(log[..0], log[0]);
  }

  /** Main result: driver.Poll runs only after a claim of its own call landed, once per claim. */
  lemma AskedOncePerClaim(log: seq<Event>, j: nat)
    requires Kept(log) && j < |log| && log[j].Asked?
    ensures exists i :: 0 <= i < j && log[i].Claimed? && log[i].call == log[j].call
    ensures forall k :: 0 <= k < |log| && log[k].Asked? && log[k].call == log[j].call ==> k == j
  {
    assert Due(log[..j], log[j]);
    forall k | 0 <= k < |log| && log[k].Asked? && log[k].call == log[j].call ensures k == j {
      if k < j { OncePerCall(log, k, j); }
      if j < k { OncePerCall(log, j, k); }
    }
  }

  /** Main result: a flow is consumed at most once. */
  lemma TakenOnce(log: seq<Event>, i: nat, j: nat)
    requires Kept(log) && i < |log| && j < |log| && log[i].Taken? && log[j].Taken?
    ensures i == j
  {
    assert Due(log[..i], log[i]) && Due(log[..j], log[j]);
  }

  /** What only the consumer does comes after it consumed the flow. */
  lemma SpenderTook(log: seq<Event>, j: nat) returns (i: nat)
    requires Kept(log) && j < |log| && Rank(log[j]) > 4
    ensures i < j && log[i] == Taken(log[j].call)
  {
    assert Due(log[..j], log[j]);
    hide Kept;
    assert Taken(log[j].call) in log[..j];
    i :| 0 <= i < j && log[..j][i] == Taken(log[j].call);
  }

  /** Main result: at most one Exchange, one credential Save and one outcome, all by the call
      that consumed the flow. */
  lemma SpentOnce(log: seq<Event>, i: nat, j: nat)
    requires Kept(log) && i < |log| && j < |log| && Rank(log[i]) == Rank(log[j]) > 4
    ensures i == j
  {
    var a := SpenderTook(log, i);
    var b := SpenderTook(log, j);
    TakenOnce(log, a, b);
    if i < j { OncePerCall(log, i, j); }
    if j < i { OncePerCall(log, j, i); }
  }

  lemma {:induction false} EndIsLogged(log: seq<Event>) returns (i: nat)
    requires EndOf(log).0 != NoOutcome
    ensures i < |log| && log[i].Ended? && (log[i].outcome, log[i].key) == EndOf(log)
  {
    if log[|log| - 1].Ended? {
      i := |log| - 1;
    } else {
      i := EndIsLogged(log[..|log| - 1]);
    }
  }

  /** Main result: a complete outcome means a Save under its key succeeded, any other that none did. */
  lemma CompleteMeansSaved(log: seq<Event>)
    requires Kept(log) && EndOf(log).0 != NoOutcome
    ensures EndOf(log).0 == OutcomeComplete <==> (exists call, key :: Saved(call, key, true) in log)
    ensures EndOf(log).0 == OutcomeComplete ==> exists call :: Saved(call, EndOf(log).1, true) in log
  {
    var i := EndIsLogged(log);
    var before := log[..i];
    assert Due(before, log[i]);
    hide Kept;
    if log[i].outcome == OutcomeComplete {
      assert Saved(log[i].call, log[i].key, true) in before;
      assert Saved(log[i].call, EndOf(log).1, true) in log;
    } else {
      forall j | 0 <= j < |log| && log[j].Saved? ensures !log[j].ok {
        NotSavedAfterEnd(log, i, j);
        assert before[j] == log[j];
      }
    }
  }

  lemma NotSavedAfterEnd(log: seq<Event>, i: nat, j: nat)
    requires Kept(log) && i < |log| && j < |log| && log[i].Ended? && log[j].Saved?
    ensures j < i
  {
    var a := SpenderTook(log, i);
    var b := SpenderTook(log, j);
    TakenOnce(log, a, b);
    if i < j { OncePerCall(log, i, j); }
  }
}
