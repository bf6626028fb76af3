/** When forgetting healthy keys is visible: HealthTracker against a tracker that holds a state for
    every key and deletes nothing. Under a clock that does not go back it never is. */
module HealthRefinement {
  import opened ProviderErrors
  import opened Health

  datatype Event =
    | Record(key: string, observation: Observation, policy: Policy, now: Instant)
    | Reset(key: string, now: Instant)

  /** Clock readings never go back, and none is later than now. */
  ghost predicate Monotone(events: seq<Event>, now: Time) {
    if events == [] then true
    else
      var last := events[|events| - 1];
      last.now <= now && Monotone(events[..|events| - 1], last.now)
  }

  // ----- The two trackers -----

  ghost function Sparse(events: seq<Event>): map<string, State> {
    if events == [] then map[]
    else
      var keys := Sparse(events[..|events| - 1]);
      match events[|events| - 1]
      case Record(key, o, policy, now) => Recorded(keys, key, o, policy, now)
      case Reset(key, _) => keys - {key}
  }

  /** One key of the reference: a success ends the streak and closes the circuit, and
      nothing else is ever forgotten. */
  ghost function TotalRecorded(s: State, key: string, o: Observation, policy: Policy, now: Instant): State {
    var moved := match o.effect
      case Neutral => s
      case Success => HEALTHY.(coolUntil := s.coolUntil)
      case Failure => if policy.threshold > 0 then Failed(s, key, policy, o.class_, now) else s;
    if o.retryAfter > 0 && !policy.ignoreRetryAfter then Cooled(moved, o.retryAfter, now) else moved
  }

  ghost function Total(events: seq<Event>, key: string): State {
    if events == [] then HEALTHY
    else
      var s := Total(events[..|events| - 1], key);
      match events[|events| - 1]
      case Record(k, o, policy, now) => if k == key then TotalRecorded(s, key, o, policy, now) else s
      case Reset(k, _) => if k == key then HEALTHY else s
  }

  /** Keys do not touch each other. */
  lemma RecordOther(keys: map<string, State>, key: string, o: Observation, policy: Policy, now: Instant, other: string)
    requires other != key
    ensures StateOf(Recorded(keys, key, o, policy, now), other) == StateOf(keys, other)
  {
    hide Failed, Cooled;
  }

  // ----- How far the two trackers may part, whatever the clock -----

  /** Equal but for the cooldown, which the sparse tracker may have forgotten. */
  predicate Covers(a: State, b: State) {
    a.(coolUntil := NEVER) == b.(coolUntil := NEVER) && NEVER <= a.coolUntil <= b.coolUntil
  }

  lemma RecordCovers(keys: map<string, State>, t: State, key: string, o: Observation, policy: Policy, now: Instant)
    requires Covers(StateOf(keys, key), t)
    ensures Covers(StateOf(Recorded(keys, key, o, policy, now), key), TotalRecorded(t, key, o, policy, now))
  {
    hide Failed;
    FailedAlike(StateOf(keys, key), t, key, policy, o.class_, now);
  }

  lemma FailedAlike(a: State, b: State, key: string, policy: Policy, class_: string, now: Instant)
    requires a.(coolUntil := NEVER) == b.(coolUntil := NEVER)
    ensures Failed(a, key, policy, class_, now) == Failed(b, key, policy, class_, now).(coolUntil := a.coolUntil)
    ensures Failed(b, key, policy, class_, now).coolUntil == b.coolUntil
  {
  }

  /** In every run, under any clock, the sparse tracker knows all the total one knows but for
      cooldowns it forgot. */
  lemma {:induction false} SparseKnowsLess(events: seq<Event>, key: string)
    ensures Covers(StateOf(Sparse(events), key), Total(events, key))
  {
    hide Recorded, TotalRecorded, Covers;
    if events == [] {
      BothHealthy(key);
    } else {
      var before, last := events[..|events| - 1], events[|events| - 1];
      SparseKnowsLess(before, key);
      BothHealthy(key);
      if last.Record? {
        if last.key == key {
          RecordCovers(Sparse(before), Total(before, key), key, last.observation, last.policy, last.now);
        } else {
          RecordOther(Sparse(before), last.key, last.observation, last.policy, last.now, key);
        }
      }
    }
  }

  lemma BothHealthy(key: string)
    ensures Covers(HEALTHY, HEALTHY) && StateOf(map[], key) == HEALTHY
  {
  }

  /** An upstream asked callers of key to wait past t, and nobody reset the key since. */
  ghost predicate WaitAsked(events: seq<Event>, key: string, t: Time) {
    exists i :: 0 <= i < |events| && Asks(events[i], key, t) && NoReset(events, key, i)
  }

  predicate Asks(e: Event, key: string, t: Time) {
    e.Record? && e.key == key && e.observation.retryAfter > 0 && !e.policy.ignoreRetryAfter
    && e.now + e.observation.retryAfter > t
  }

  ghost predicate NoReset(events: seq<Event>, key: string, from: nat) {
    forall j :: from < j < |events| ==> events[j] != Reset(key, events[j].now)
  }

  lemma {:induction false} CooldownIsWhatWasAsked(events: seq<Event>, key: string, t: Time)
    requires t >= NEVER
    ensures Total(events, key).coolUntil > t <==> WaitAsked(events, key, t)
  {
    if events != [] {
      var n := |events| - 1;
      var before, last := events[..n], events[n];
      CooldownIsWhatWasAsked(before, key, t);
      LastAsks(events, key, t);
      if last.Record? && last.key == key {
        RecordCools(Total(before, key), last, key, t);
      }
    }
  }

  lemma LastAsks(events: seq<Event>, key: string, t: Time)
    requires events != []
    ensures var n := |events| - 1;
            WaitAsked(events, key, t) <==>
            events[n] != Reset(key, events[n].now) && (Asks(events[n], key, t) || WaitAsked(events[..n], key, t))
  {
    var n := |events| - 1;
    var before := events[..n];
    if WaitAsked(events, key, t) {
      var i :| 0 <= i < |events| && Asks(events[i], key, t) && NoReset(events, key, i);
      if i < n {
        assert before[i] == events[i] && NoReset(before, key, i);
      }
    }
    if events[n] != Reset(key, events[n].now) {
      if Asks(events[n], key, t) {
        assert NoReset(events, key, n);
      } else if WaitAsked(before, key, t) {
        var i :| 0 <= i < n && Asks(before[i], key, t) && NoReset(before, key, i);
        assert events[i] == before[i];
        assert forall j :: i < j < n ==> events[j] == before[j];
        assert NoReset(events, key, i);
      }
    }
  }

  lemma RecordCools(s: State, e: Event, key: string, t: Time)
    requires e.Record? && e.key == key && t >= NEVER
    ensures TotalRecorded(s, key, e.observation, e.policy, e.now).coolUntil > t <==> Asks(e, key, t) || s.coolUntil > t
  {
  }

  // ----- Exactly when they part -----

  /** The latest instant anybody was asked to wait to since the key was reset. */
  ghost predicate WaitEnds(events: seq<Event>, key: string, end: Time) {
    end > NEVER && WaitAsked(events, key, end - 1) && !WaitAsked(events, key, end)
  }

  /** A success of the key since it was reset, read when the wait was over, and nobody asked for
      that long a wait with it or after it. */
  ghost predicate Forgotten(events: seq<Event>, key: string, end: Time) {
    exists i :: 0 <= i < |events| && ForgottenAt(events, key, end, i)
  }

  ghost predicate ForgottenAt(events: seq<Event>, key: string, end: Time, i: nat)
    requires i < |events|
  {
    && events[i].Record? && events[i].key == key && events[i].observation.effect == Success && events[i].now >= end
    && NoReset(events, key, i) && forall j :: i <= j < |events| ==> !Asks(events[j], key, end - 1)
  }

  lemma WaitEndsAt(events: seq<Event>, key: string, end: Time)
    ensures WaitEnds(events, key, end) <==> end == Total(events, key).coolUntil > NEVER
  {
    hide WaitAsked, Total;
    if end > NEVER {
      CooldownIsWhatWasAsked(events, key, end - 1);
      CooldownIsWhatWasAsked(events, key, end);
    }
    SparseKnowsLess(events, key);
  }

  /** Forgetting, one event at a time. */
  lemma ForgottenLast(events: seq<Event>, key: string, end: Time)
    requires events != []
    ensures var n := |events| - 1;
            Forgotten(events, key, end) <==>
            && events[n] != Reset(key, events[n].now) && !Asks(events[n], key, end - 1)
            && (Forgotten(events[..n], key, end)
                || (events[n].Record? && events[n].key == key && events[n].observation.effect == Success && events[n].now >= end))
  {
    hide Asks;
    var n := |events| - 1;
    var before := events[..n];
    assert forall j :: 0 <= j < n ==> before[j] == events[j];
    if Forgotten(events, key, end) {
      var i :| 0 <= i < |events| && ForgottenAt(events, key, end, i);
      if i < n {
        assert ForgottenAt(before, key, end, i);
      }
    }
    if events[n] != Reset(key, events[n].now) && !Asks(events[n], key, end - 1) {
      if Forgotten(before, key, end) {
        var i :| 0 <= i < n && ForgottenAt(before, key, end, i);
        assert ForgottenAt(events, key, end, i);
      } else if events[n].Record? && events[n].key == key && events[n].observation.effect == Success && events[n].now >= end {
        assert ForgottenAt(events, key, end, n);
      }
    }
  }

  /** The sparse tracker has lost the cooldown. */
  predicate Lost(a: State, b: State) { a.coolUntil < b.coolUntil }

  lemma RecordLoses(keys: map<string, State>, t: State, e: Event, key: string)
    requires e.Record? && e.key == key && Covers(StateOf(keys, key), t)
    ensures var a := StateOf(Recorded(keys, key, e.observation, e.policy, e.now), key);
            var b := TotalRecorded(t, key, e.observation, e.policy, e.now);
            && b.coolUntil == (if Asks(e, key, t.coolUntil) then e.now + e.observation.retryAfter else t.coolUntil)
            && (Lost(a, b) <==> b.coolUntil > NEVER && !Asks(e, key, b.coolUntil - 1)
                                && (Lost(StateOf(keys, key), t) || (e.observation.effect == Success && e.now >= b.coolUntil)))
  {
    hide Failed;
    FailedAlike(StateOf(keys, key), t, key, e.policy, e.observation.class_, e.now);
  }

  lemma {:induction false} LostExactly(events: seq<Event>, key: string)
    ensures var t := Total(events, key);
            Lost(StateOf(Sparse(events), key), t) <==> t.coolUntil > NEVER && Forgotten(events, key, t.coolUntil)
  {
    hide Recorded, TotalRecorded, Covers, Lost, Asks, Forgotten;
    LostNever();
    if events != [] {
      var before, last := events[..|events| - 1], events[|events| - 1];
      SparseKnowsLess(before, key);
      LostExactly(before, key);
      ForgottenLast(events, key, Total(events, key).coolUntil);
      if last.key != key {
        OthersDoNotAsk(last, key, Total(events, key).coolUntil - 1);
      }
      if last.Record? {
        if last.key == key {
          RecordLoses(Sparse(before), Total(before, key), last, key);
          LostKept(before, key, last, Total(events, key).coolUntil);
        } else {
          RecordOther(Sparse(before), last.key, last.observation, last.policy, last.now, key);
        }
      }
    }
  }

  lemma LostNever()
    ensures !Lost(HEALTHY, HEALTHY)
  {
  }

  lemma OthersDoNotAsk(e: Event, key: string, t: Time)
    requires e.key != key
    ensures !Asks(e, key, t)
  {
  }

  /** An event that does not ask for the longest wait does not move its end. */
  lemma LostKept(before: seq<Event>, key: string, e: Event, end: Time)
    requires e.Record? && e.key == key
    requires end == if Asks(e, key, Total(before, key).coolUntil) then e.now + e.observation.retryAfter else Total(before, key).coolUntil
    ensures end > NEVER && !Asks(e, key, end - 1) ==> end == Total(before, key).coolUntil
  {
    hide Total;
  }

  /** Main result: in every run, under any clock and arbitrary policies per call, the two trackers
      answer differently at an instant exactly when the policy honours waits, a wait asked for still
      runs then and outlasts any open circuit, and a success read after its end made the sparse
      tracker forget it. */
  lemma AnswersDifferExactly(events: seq<Event>, key: string, policy: Policy, now: Instant)
    ensures Answer(StateOf(Sparse(events), key), policy, now) != Answer(Total(events, key), policy, now) <==>
            && !policy.ignoreRetryAfter
            && exists end :: WaitEnds(events, key, end) && Forgotten(events, key, end) && now < end
                             && (policy.threshold > 0 ==> StateOf(Sparse(events), key).openUntil < end)
  {
    hide Sparse, Total, WaitEnds, Forgotten;
    SparseKnowsLess(events, key);
    LostExactly(events, key);
    var end := Total(events, key).coolUntil;
    forall t ensures WaitEnds(events, key, t) <==> t == end > NEVER {
      WaitEndsAt(events, key, t);
    }
    OpenIsNotBefore(events, key);
  }

  lemma {:induction false} OpenIsNotBefore(events: seq<Event>, key: string)
    ensures StateOf(Sparse(events), key).openUntil >= NEVER
  {
    hide Recorded;
    if events != [] {
      var before, last := events[..|events| - 1], events[|events| - 1];
      OpenIsNotBefore(before, key);
      if last.Record? {
        if last.key == key {
          RecordOpens(Sparse(before), key, last.observation, last.policy, last.now);
        } else {
          RecordOther(Sparse(before), last.key, last.observation, last.policy, last.now, key);
        }
      }
    }
  }

  lemma RecordOpens(keys: map<string, State>, key: string, o: Observation, policy: Policy, now: Instant)
    requires StateOf(keys, key).openUntil >= NEVER
    ensures StateOf(Recorded(keys, key, o, policy, now), key).openUntil >= NEVER
  {
  }

  /** Main result: so in every run with a monotone clock the tracker answers as the reference does,
      then and at every later instant. */
  lemma SparseAnswersAsTotal(events: seq<Event>, key: string, policy: Policy, now: Instant)
    requires Monotone(events, now)
    ensures Answer(StateOf(Sparse(events), key), policy, now) == Answer(Total(events, key), policy, now)
  {
    hide Sparse, Total, Answer, WaitEnds;
    AnswersDifferExactly(events, key, policy, now);
    forall end | now < end ensures !Forgotten(events, key, end) {
      forall i | 0 <= i < |events| ensures events[i].now <= now {
        NoneIsLater(events, now, i);
      }
    }
  }

  lemma {:induction false} NoneIsLater(events: seq<Event>, now: Time, i: nat)
    requires Monotone(events, now) && i < |events|
    ensures events[i].now <= now
  {
    if i < |events| - 1 { NoneIsLater(events[..|events| - 1], events[|events| - 1].now, i); }
  }

  /** A success at 100 forgets a cooldown that ended at 50, so a reading of 40 afterwards finds the
      key available although the wait still ran. */
  lemma ClockThatGoesBack()
    ensures exists events: seq<Event>, key, policy, now: Instant ::
              Answer(StateOf(Sparse(events), key), policy, now).0 && WaitAsked(events, key, now) && !policy.ignoreRetryAfter
  {
    var policy := Policy(5, 30, NoBackoff, 0, false);
    var cool := Record("k", Observation(Neutral, "", 40), policy, 10);
    var ok := Record("k", Observation(Success, "", 0), policy, 100);
    var events := [cool, ok];
    assert events[..1] == [cool] && [cool][..0] == [];
    assert Sparse([cool]) == map["k" := HEALTHY.(coolUntil := 50)];
    assert Sparse(events) == map[];
    assert events[0] == cool && Asks(cool, "k", 40) && NoReset(events, "k", 0);
    assert WaitAsked(events, "k", 40);
    assert Answer(StateOf(Sparse(events), "k"), policy, 40).0;
  }

  /** Under a monotone clock a key is available exactly when no wait an upstream asked for runs, unless
      the policy ignores waits, and no open circuit does, unless it has no threshold. */
  lemma AvailableExactly(events: seq<Event>, key: string, policy: Policy, now: Instant)
    requires Monotone(events, now)
    ensures Answer(StateOf(Sparse(events), key), policy, now).0 <==>
            && (policy.ignoreRetryAfter || !WaitAsked(events, key, now))
            && (policy.threshold <= 0 || now >= StateOf(Sparse(events), key).openUntil)
  {
    hide WaitAsked, Sparse, Total;
    SparseAnswersAsTotal(events, key, policy, now);
    SparseKnowsLess(events, key);
    CooldownIsWhatWasAsked(events, key, now);
  }

  // ----- What a record never does -----

  /** A running cooldown is never shortened, by a success or by anything else. */
  lemma CooldownHolds(keys: map<string, State>, key: string, o: Observation, policy: Policy, now: Instant)
    requires StateOf(keys, key).coolUntil > now
    ensures StateOf(Recorded(keys, key, o, policy, now), key).coolUntil >= StateOf(keys, key).coolUntil
  {
  }

  /** Only a success closes an open circuit. */
  lemma OpenHolds(keys: map<string, State>, key: string, o: Observation, policy: Policy, now: Instant)
    requires o.effect != Success
    ensures StateOf(Recorded(keys, key, o, policy, now), key).openUntil >= StateOf(keys, key).openUntil
  {
  }

  /** In every run, whatever the clock, the streak is the sum of its class counts. */
  lemma {:induction false} StreakIsSumOfClasses(events: seq<Event>, key: string)
    ensures StateOf(Sparse(events), key).streak == |StateOf(Sparse(events), key).classes|
  {
    hide Recorded;
    if events != [] {
      var before, last := events[..|events| - 1], events[|events| - 1];
      StreakIsSumOfClasses(before, key);
      if last.Record? {
        if last.key == key {
          RecordKeepsSum(Sparse(before), key, last.observation, last.policy, last.now);
        } else {
          RecordOther(Sparse(before), last.key, last.observation, last.policy, last.now, key);
        }
      }
    }
  }

  lemma RecordKeepsSum(keys: map<string, State>, key: string, o: Observation, policy: Policy, now: Instant)
    requires StateOf(keys, key).streak == |StateOf(keys, key).classes|
    ensures var s := StateOf(Recorded(keys, key, o, policy, now), key); s.streak == |s.classes|
  {
    var f := Failed(StateOf(keys, key), key, policy, o.class_, now);
    assert f.streak == |f.classes|;
    hide Failed;
  }

  /** The tracker holds nothing that says nothing: a state is never plainly healthy. */
  lemma {:induction false} HoldsNoHealthyKey(events: seq<Event>)
    ensures HEALTHY !in Sparse(events).Values
  {
    if events != [] {
      HoldsNoHealthyKey(events[..|events| - 1]);
    }
  }
}
