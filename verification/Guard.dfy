/** execution.guard: one operation on one instance, refused while the circuit is open,
    repeated while a repeat is permitted, and counted once. */
module Guard {
  import opened Options
  import opened ProviderErrors
  import opened Health

  /** What the outside answers to the k-th try of an operation. */
  datatype Script<!T> = Script(
    gone: bool,                             // the context had ended before the operation
    run: nat -> (T, Option<Error>),
    goneAfter: nat -> bool,
    cut: nat -> bool)                       // the wait after the try ended early

  /** Policy.Classify, where None leaves errors as they are. */
  type Classify = Option<Error -> Classification>

  datatype Answer<+T> =
    | Value(value: T)
    | ContextEnded
    | WaitCut
    | CircuitOpen(until: Time, retryAfter: Duration)
    | OperationFailed(err: Error)

  /** An error as the policy reads it. */
  function View(classify: Classify, err: Error): Error {
    if classify.None? then err else Classified(classify.value(err), err)
  }

  // ----- One operation -----

  datatype Ending = Serves | GivesUp | IsCut | Repeats | Fails

  function EndingOf<T>(s: Script<T>, classify: Classify, attempts: int, k: nat): Ending {
    if s.goneAfter(k) then GivesUp
    else match s.run(k).1
      case None => Serves
      case Some(err) =>
        if k < attempts && ClassifyError(View(classify, err)).retryable then if s.cut(k) then IsCut else Repeats
        else Fails
  }

  /** The first try from k on that is not repeated. */
  ghost function LastTry<T>(s: Script<T>, classify: Classify, attempts: int, k: nat): (last: nat)
    ensures last >= k && EndingOf(s, classify, attempts, last) != Repeats
    ensures forall j :: k <= j < last ==> EndingOf(s, classify, attempts, j) == Repeats
    ensures last <= k || last <= attempts
    decreases attempts - k
  {
    if EndingOf(s, classify, attempts, k) == Repeats then LastTry(s, classify, attempts, k + 1) else k
  }

  /** What the operation says about the instance: its last try's outcome as the policy reads
      it, and nothing when the caller gave up or its wait was cut short. */
  ghost function Reading<T>(s: Script<T>, classify: Classify, observe: Option<Error> -> Observation, attempts: int): Option<Observation> {
    var last := LastTry(s, classify, attempts, 1);
    match EndingOf(s, classify, attempts, last)
    case Serves => Some(observe(None))
    case Fails => Some(observe(Some(View(classify, s.run(last).1.value))))
    case _ => None
  }

  /** The values a caller must never see: those of every try but a serving one. */
  ghost function Discards<T>(s: Script<T>, upTo: nat): seq<T> {
    if upTo == 0 then [] else Discards(s, upTo - 1) + [s.run(upTo).0]
  }

  /** A try that another may follow: its caller is there, it failed, and its error as the policy reads
      it is retryable. */
  ghost predicate MayRepeat<T>(s: Script<T>, classify: Classify, k: nat) {
    && !s.goneAfter(k) && s.run(k).1.Some?
    && var err := s.run(k).1.value;
       (if classify.None? then ClassifyError(err) else classify.value(err)).retryable
  }

  /** Every try but the last may be repeated and waited for; the last is followed by none, and decides. */
  ghost predicate Decides<T>(s: Script<T>, classify: Classify, attempts: int, tries: nat, answer: Answer<T>) {
    && (forall k :: 1 <= k < tries ==> k < attempts && MayRepeat(s, classify, k) && !s.cut(k))
    && if s.goneAfter(tries) then answer == ContextEnded
       else if s.run(tries).1 == None then answer == Value(s.run(tries).0)
       else if MayRepeat(s, classify, tries) && tries < attempts then s.cut(tries) && answer == WaitCut
       else answer == OperationFailed(s.run(tries).1.value)
  }

  /** Without Health nothing is refused and nothing recorded. */
  method Run<T>(health: HealthTracker?, key: string, policy: Policy, observe: Option<Error> -> Observation,
                repeatable: bool, retries: int, classify: Classify,
                s: Script<T>, admitAt: Instant, refuseAt: Instant, recordAt: Instant)
    returns (answer: Answer<T>, tries: nat, discarded: seq<T>)
    modifies if health == null then {} else {health}
    ensures var attempts := if repeatable && retries > 1 then retries else 1;
            var last := LastTry(s, classify, attempts, 1);
            var (available, until) := if health == null then (true, NEVER) else Health.Answer(StateOf(old(health.keys), key), policy, admitAt);
            && (health != null ==>
                  health.keys == Guarded(old(health.keys), key, policy,
                                         Operation(s.gone, admitAt, Reading(s, classify, observe, attempts), recordAt)))
            && (s.gone || !available ==>
                  && tries == 0 && discarded == []
                  && answer == if s.gone then ContextEnded else CircuitOpen(until, if until < refuseAt then 0 else until - refuseAt))
            && (!s.gone && available ==>
                  && 1 <= tries == last <= attempts
                  && var ending := EndingOf(s, classify, attempts, last);
                  && discarded == Discards(s, if ending == Serves then last - 1 else last)
                  && answer == match ending
                     case Serves => Value(s.run(last).0)
                     case GivesUp => ContextEnded
                     case IsCut => WaitCut
                     case Fails => OperationFailed(s.run(last).1.value)
                     case Repeats => answer)
  {
    hide Recorded, LastTry, Health.Answer, ClassifyError;
    tries, discarded := 0, [];
    if s.gone {
      return ContextEnded, 0, [];
    }
    if health != null {
      var available, until := health.Available(key, policy, admitAt);
      if !available {
        return CircuitOpen(until, if until < refuseAt then 0 else until - refuseAt), 0, [];
      }
    }
    var attempts := 1;
    if repeatable && retries > attempts {
      attempts := retries;
    }
    ghost var last := LastTry(s, classify, attempts, 1);
    tries := 1;
    while true
      invariant 1 <= tries <= last && discarded == Discards(s, tries - 1)
      invariant health != null ==> health.keys == old(health.keys)
      decreases last - tries
    {
      ghost var ending := EndingOf(s, classify, attempts, tries);
      assert ending != Repeats ==> tries == last;
      var (value, err) := s.run(tries);
      if s.goneAfter(tries) {
        discarded := discarded + [value];
        return ContextEnded, tries, discarded;
      }
      if err == None {
        if health != null {
          health.Record(key, observe(None), policy, recordAt);
        }
        return Value(value), tries, discarded;
      }
      discarded := discarded + [value];
      var view := View(classify, err.value);
      if tries < attempts && ClassifyError(view).retryable {
        if s.cut(tries) {
          return WaitCut, tries, discarded;
        }
        tries := tries + 1;
        continue;
      }
      if health != null {
        health.Record(key, observe(Some(view)), policy, recordAt);
      }
      return OperationFailed(err.value), tries, discarded;
    }
  }

  /** Main result: an admitted operation is tried until a try serves, its caller leaves, a wait is cut, or
      its error is not retryable as the policy reads it or no try is left, and no further. */
  lemma TriesExactly<T>(s: Script<T>, classify: Classify, attempts: int, answer: Answer<T>)
    requires var last := LastTry(s, classify, attempts, 1);
             answer == match EndingOf(s, classify, attempts, last)
               case Serves => Value(s.run(last).0)
               case GivesUp => ContextEnded
               case IsCut => WaitCut
               case Fails => OperationFailed(s.run(last).1.value)
               case Repeats => answer
    ensures Decides(s, classify, attempts, LastTry(s, classify, attempts, 1), answer)
  {
    var last := LastTry(s, classify, attempts, 1);
    forall k | 1 <= k < last ensures k < attempts && MayRepeat(s, classify, k) && !s.cut(k) {
      assert EndingOf(s, classify, attempts, k) == Repeats;
    }
    hide LastTry;
  }

  /** And an admitted one records exactly a value, or the error it ends with as the policy reads it. */
  lemma RecordsItsAnswer<T>(keys: map<string, State>, key: string, policy: Policy, observe: Option<Error> -> Observation,
                            s: Script<T>, classify: Classify, attempts: int, admitAt: Instant, recordAt: Instant, answer: Answer<T>)
    requires !s.gone && Health.Answer(StateOf(keys, key), policy, admitAt).0
    requires Decides(s, classify, attempts, LastTry(s, classify, attempts, 1), answer)
    ensures Guarded(keys, key, policy, Operation(s.gone, admitAt, Reading(s, classify, observe, attempts), recordAt)) ==
            match answer
            case Value(_) => Recorded(keys, key, observe(None), policy, recordAt)
            case OperationFailed(err) =>
              Recorded(keys, key, observe(Some(if classify.None? then err else Classified(classify.value(err), err))), policy, recordAt)
            case _ => keys
  {
    hide Recorded, LastTry, Health.Answer;
  }

  // ----- Sequences of operations -----

  /** An operation, as its instance's circuit sees it. */
  datatype Operation = Operation(gone: bool, admitAt: Instant, reading: Option<Observation>, recordAt: Instant)

  predicate Admits(keys: map<string, State>, key: string, policy: Policy, op: Operation) {
    !op.gone && Health.Answer(StateOf(keys, key), policy, op.admitAt).0
  }

  /** Whether the operation moves the circuit: it was admitted, and its caller saw it end. */
  predicate Moves(keys: map<string, State>, key: string, policy: Policy, op: Operation) {
    Admits(keys, key, policy, op) && op.reading.Some?
  }

  function Guarded(keys: map<string, State>, key: string, policy: Policy, op: Operation): map<string, State> {
    if Moves(keys, key, policy, op) then Recorded(keys, key, op.reading.value, policy, op.recordAt) else keys
  }

  ghost function AfterAll(keys: map<string, State>, key: string, policy: Policy, ops: seq<Operation>): map<string, State> {
    if ops == [] then keys
    else Guarded(AfterAll(keys, key, policy, ops[..|ops| - 1]), key, policy, ops[|ops| - 1])
  }

  /** How many of the operations moved the circuit. */
  ghost function Moved(keys: map<string, State>, key: string, policy: Policy, ops: seq<Operation>): nat {
    if ops == [] then 0
    else
      var front, op := ops[..|ops| - 1], ops[|ops| - 1];
      Moved(keys, key, policy, front) + if Moves(AfterAll(keys, key, policy, front), key, policy, op) then 1 else 0
  }

  /** Every operation that moved the circuit failed it, none so late after the one before that the
      failure window had passed. */
  ghost predicate OnlyFails(keys: map<string, State>, key: string, policy: Policy, ops: seq<Operation>) {
    ops != [] ==>
      var front, op := ops[..|ops| - 1], ops[|ops| - 1];
      var before := AfterAll(keys, key, policy, front);
      && OnlyFails(keys, key, policy, front)
      && (Moves(before, key, policy, op) ==>
            && op.reading.value.effect == Failure
            && var last := StateOf(before, key).lastFailure;
               (policy.window > 0 && last != NEVER ==> op.recordAt - last <= policy.window))
  }

  /** How long the last operation that moved the circuit asks it to stay open. */
  ghost function LastDeadline(keys: map<string, State>, key: string, policy: Policy, ops: seq<Operation>): Time {
    if ops == [] then NEVER
    else
      var front, op := ops[..|ops| - 1], ops[|ops| - 1];
      var before := AfterAll(keys, key, policy, front);
      if Moves(before, key, policy, op) then Deadline(StateOf(before, key), key, policy, op)
      else LastDeadline(keys, key, policy, front)
  }

  function Deadline(s: State, key: string, policy: Policy, op: Operation): Time
    requires op.reading.Some?
  {
    var class_ := op.reading.value.class_;
    var seen := FailureSeen(key, class_, s.streak + 1, (s.classes + multiset{class_})[class_]);
    var open := if policy.backoff.Backoff? then policy.backoff.open(seen) else policy.openDuration;
    if open > 0 then op.recordAt + open else NEVER
  }

  lemma FailureMoves(keys: map<string, State>, key: string, policy: Policy, op: Operation)
    requires policy.threshold > 0 && op.reading.Some? && op.reading.value.effect == Failure
    requires var last := StateOf(keys, key).lastFailure; policy.window > 0 && last != NEVER ==> op.recordAt - last <= policy.window
    ensures var s := StateOf(keys, key);
            var after := StateOf(Recorded(keys, key, op.reading.value, policy, op.recordAt), key);
            && after.streak == s.streak + 1
            && (after.streak >= policy.threshold && Deadline(s, key, policy, op) != NEVER ==>
                  after.openUntil >= Deadline(s, key, policy, op))
  {
  }

  /** A run of failures extends the streak by one each, however many tries each one made. */
  lemma {:induction false} FailuresOpen(keys: map<string, State>, key: string, policy: Policy, ops: seq<Operation>)
    requires policy.threshold > 0 && OnlyFails(keys, key, policy, ops)
    ensures var s := StateOf(AfterAll(keys, key, policy, ops), key);
            && s.streak == StateOf(keys, key).streak + Moved(keys, key, policy, ops)
            && (s.streak >= policy.threshold && Moved(keys, key, policy, ops) > 0 && LastDeadline(keys, key, policy, ops) != NEVER ==>
                  s.openUntil >= LastDeadline(keys, key, policy, ops))
  {
    hide Recorded, Deadline, Forgets, Admits;
    if ops != [] {
      var front, op := ops[..|ops| - 1], ops[|ops| - 1];
      var before := AfterAll(keys, key, policy, front);
      FailuresOpen(keys, key, policy, front);
      if Moves(before, key, policy, op) {
        FailureMoves(before, key, policy, op);
      }
    }
  }

  /** While the circuit is open every operation is refused, and none of them changes it. */
  lemma {:induction false} OpenRefuses(keys: map<string, State>, key: string, policy: Policy, ops: seq<Operation>)
    requires policy.threshold > 0
    requires forall i :: 0 <= i < |ops| ==> ops[i].admitAt < StateOf(keys, key).openUntil
    ensures AfterAll(keys, key, policy, ops) == keys
    ensures forall i :: 0 <= i < |ops| ==> !Admits(keys, key, policy, ops[i])
  {
    if ops != [] {
      OpenRefuses(keys, key, policy, ops[..|ops| - 1]);
      forall i | 0 <= i < |ops| ensures !Admits(keys, key, policy, ops[i]) {
        assert ops[i].admitAt < StateOf(keys, key).openUntil;
      }
      assert !Admits(keys, key, policy, ops[|ops| - 1]);
    }
  }

  /** Main result: once threshold consecutive operations have failed the circuit, every
      operation admitted before the open time ends reaches the provider zero times and records
      nothing, however many there are and whatever they would have answered. */
  lemma OpenCircuitHoldsBack(keys: map<string, State>, key: string, policy: Policy, failing: seq<Operation>, later: seq<Operation>)
    requires policy.threshold > 0 && OnlyFails(keys, key, policy, failing)
    requires Moved(keys, key, policy, failing) >= policy.threshold
    requires LastDeadline(keys, key, policy, failing) != NEVER
    requires forall i :: 0 <= i < |later| ==> later[i].admitAt < LastDeadline(keys, key, policy, failing)
    ensures var open := AfterAll(keys, key, policy, failing);
            && AfterAll(open, key, policy, later) == open
            && forall i :: 0 <= i < |later| ==> !Admits(open, key, policy, later[i])
  {
    FailuresOpen(keys, key, policy, failing);
    hide Recorded, Deadline, Forgets, Admits, AfterAll, OnlyFails, LastDeadline;
    OpenRefuses(AfterAll(keys, key, policy, failing), key, policy, later);
  }

  // ----- Operations read the default way -----

  /** The provider answered: it served, or rejected with a status that is no circuit failure. */
  predicate Answered(outcome: Option<Error>) {
    match outcome
    case None => true
    case Some(err) => !ClassifyError(err).circuitFailure && ClassifyError(err).statusCode != 0 && !Canceled(err)
  }

  predicate FailsCircuit(outcome: Option<Error>) {
    outcome.Some? && ClassifyError(outcome.value).circuitFailure
  }

  ghost predicate ReadByDefault(ops: seq<Operation>, outcomes: seq<Option<Error>>) {
    |outcomes| == |ops| && forall i :: 0 <= i < |ops| && ops[i].reading.Some? ==> ops[i].reading.value == Observe(outcomes[i])
  }

  /** The circuit failures among the operations since the provider last answered one. Those refused,
      given up on or failed without a status count neither way. */
  ghost function FailuresSince(key: string, policy: Policy, ops: seq<Operation>, outcomes: seq<Option<Error>>): nat
    requires |outcomes| == |ops|
  {
    if ops == [] then 0
    else
      var n := |ops| - 1;
      var before := FailuresSince(key, policy, ops[..n], outcomes[..n]);
      if !Moves(AfterAll(map[], key, policy, ops[..n]), key, policy, ops[n]) then before
      else if Answered(outcomes[n]) then 0
      else if FailsCircuit(outcomes[n]) then before + 1
      else before
  }

  /** What a count of failures means for a key's state. */
  predicate Counts(s: State, policy: Policy, failures: nat) {
    && s.streak <= failures && (policy.window <= 0 ==> s.streak == failures)
    && (s.openUntil > NEVER ==> failures >= policy.threshold)
    && (policy.window <= 0 && policy.backoff.NoBackoff? && policy.openDuration > 0 && failures >= policy.threshold ==> s.openUntil > NEVER)
  }

  lemma OutcomeCounts(keys: map<string, State>, key: string, policy: Policy, outcome: Option<Error>, now: Instant, failures: nat)
    requires policy.threshold > 0 && Counts(StateOf(keys, key), policy, failures)
    ensures Counts(StateOf(Recorded(keys, key, Observe(outcome), policy, now), key), policy,
                   if Answered(outcome) then 0 else if FailsCircuit(outcome) then failures + 1 else failures)
  {
    hide ClassifyError, Canceled;
  }

  /** Under the default reading the streak is the number of circuit failures since the provider last
      answered, and the circuit opens when that reaches the threshold; a window may only forget. */
  lemma {:induction false} StreakCountsFailures(key: string, policy: Policy, ops: seq<Operation>, outcomes: seq<Option<Error>>)
    requires policy.threshold > 0 && ReadByDefault(ops, outcomes)
    ensures Counts(StateOf(AfterAll(map[], key, policy, ops), key), policy, FailuresSince(key, policy, ops, outcomes))
  {
    hide Counts, Observe, Recorded, Answered, FailsCircuit, Admits;
    if ops == [] {
      NothingCounts(key, policy);
    } else {
      var n := |ops| - 1;
      var before := AfterAll(map[], key, policy, ops[..n]);
      StreakCountsFailures(key, policy, ops[..n], outcomes[..n]);
      if Moves(before, key, policy, ops[n]) {
        OutcomeCounts(before, key, policy, outcomes[n], ops[n].recordAt, FailuresSince(key, policy, ops[..n], outcomes[..n]));
      }
    }
  }

  /** The circuit failures since the provider last answered, and when the last was recorded: one that
      comes more than the window after the one before starts again at one. */
  ghost function FailuresInWindow(key: string, policy: Policy, ops: seq<Operation>, outcomes: seq<Option<Error>>): (nat, Time)
    requires |outcomes| == |ops|
  {
    if ops == [] then (0, NEVER)
    else
      var n := |ops| - 1;
      var (count, last) := FailuresInWindow(key, policy, ops[..n], outcomes[..n]);
      if !Moves(AfterAll(map[], key, policy, ops[..n]), key, policy, ops[n]) then (count, last)
      else if Answered(outcomes[n]) then (0, NEVER)
      else if !FailsCircuit(outcomes[n]) then (count, last)
      else if policy.window > 0 && last != NEVER && ops[n].recordAt - last > policy.window then (1, ops[n].recordAt)
      else (count + 1, ops[n].recordAt)
  }

  /** With a failure window the streak is exactly the number of failures that followed each other within it. */
  lemma {:induction false} StreakIsWindowed(key: string, policy: Policy, ops: seq<Operation>, outcomes: seq<Option<Error>>)
    requires policy.threshold > 0 && ReadByDefault(ops, outcomes)
    ensures var s := StateOf(AfterAll(map[], key, policy, ops), key);
            (s.streak, s.lastFailure) == FailuresInWindow(key, policy, ops, outcomes)
  {
    hide Observe, Recorded, Answered, FailsCircuit, Admits;
    if ops != [] {
      var n := |ops| - 1;
      var before := AfterAll(map[], key, policy, ops[..n]);
      StreakIsWindowed(key, policy, ops[..n], outcomes[..n]);
      if Moves(before, key, policy, ops[n]) {
        OutcomeMoves(before, key, policy, outcomes[n], ops[n].recordAt);
      }
    }
  }

  lemma OutcomeMoves(keys: map<string, State>, key: string, policy: Policy, outcome: Option<Error>, now: Instant)
    requires policy.threshold > 0
    ensures var s, t := StateOf(keys, key), StateOf(Recorded(keys, key, Observe(outcome), policy, now), key);
            (t.streak, t.lastFailure) ==
            if Answered(outcome) then (0, NEVER)
            else if !FailsCircuit(outcome) then (s.streak, s.lastFailure)
            else if policy.window > 0 && s.lastFailure != NEVER && now - s.lastFailure > policy.window then (1, now)
            else (s.streak + 1, now)
  {
    hide ClassifyError, Canceled;
  }

  lemma NothingCounts(key: string, policy: Policy)
    requires policy.threshold > 0
    ensures Counts(StateOf(map[], key), policy, 0)
  {
  }

  /** Main result: in every run of operations read the default way, one is refused only while a wait
      the upstream asked for runs, or when at least threshold operations failed the circuit since the
      provider last answered any, a definitive rejection such as 400 or 401 included. */
  lemma OnlyFailuresRefuse(key: string, policy: Policy, ops: seq<Operation>, outcomes: seq<Option<Error>>, op: Operation)
    requires policy.threshold > 0 && ReadByDefault(ops, outcomes)
    requires !op.gone && !Admits(AfterAll(map[], key, policy, ops), key, policy, op)
    ensures FailuresSince(key, policy, ops, outcomes) >= policy.threshold
            || (!policy.ignoreRetryAfter && op.admitAt < StateOf(AfterAll(map[], key, policy, ops), key).coolUntil)
  {
    hide AfterAll, FailuresSince, ReadByDefault;
    StreakCountsFailures(key, policy, ops, outcomes);
  }
}
