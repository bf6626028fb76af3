/** execution.Execute: candidates tried in order, repeated while a repeat is permitted, with
    the outcome of each told to Health. Everything outside the executor is a World: for all
    answers the context, Health and the candidates may give. */
module Execute {
  import opened Options
  import opened ProviderErrors
  import opened Health

  datatype Try<+R> = Served(value: R) | Erred(err: Error)

  /** What the outside answers: at candidate i, and there at its k-th try. */
  datatype World<!R> = World(
    gone: nat -> bool,                // the context had ended when candidate i was reached
    available: nat -> (bool, Time),   // Health's answer for candidate i
    run: (nat, nat) -> Try<R>,
    goneAfter: (nat, nat) -> bool,    // the context had ended after the try
    cut: (nat, nat) -> bool,          // the wait before the next try ended early
    now: Instant)                     // the clock when every candidate was passed over

  /** attempts is Retry.Attempts; key is None without a Key function. */
  datatype Executor<!C> = Executor(health: bool, key: Option<C -> string>, attempts: int)

  datatype Attempt<+C> = Attempt(candidate: C, key: string, unavailable: bool, until: Time, tries: nat, err: Option<Error>)

  datatype Reason =
    | NoKey
    | NoCandidates
    | ContextEnded
    | WaitCut
    | CandidateFailed(err: Error)
    | AllUnavailable(until: Time, retryAfter: Duration)

  /** One report to Health: None is a success. */
  datatype Told = Told(key: string, err: Option<Error>)

  // ----- What must happen -----

  /** How the k-th try of candidate i leaves that candidate. */
  datatype Ending = Serves | GivesUp | IsCut | Repeats | Stops | MovesOn

  function EndingOf<C, R>(w: World<R>, ex: Executor<C>, i: nat, k: nat): Ending {
    match w.run(i, k)
    case Served(_) => Serves
    case Erred(err) =>
      var permitted := DispositionOf(ClassifyError(err));
      if w.goneAfter(i, k) then GivesUp
      else if permitted == Retryable && k < ex.attempts then if w.cut(i, k) then IsCut else Repeats
      else if permitted == Terminal then Stops else MovesOn
  }

  predicate Skips<C, R>(w: World<R>, ex: Executor<C>, i: nat) {
    ex.health && !w.available(i).0
  }

  /** The entry a reached candidate must get: tries counts to the first try that did not
      permit a repeat, and err is that try's. */
  ghost predicate EntryOf<C, R>(w: World<R>, ex: Executor<C>, candidate: C, i: nat, entry: Attempt<C>) {
    && entry.candidate == candidate
    && entry.key == (if ex.health && ex.key.Some? then ex.key.value(candidate) else "")
    && entry.unavailable == Skips(w, ex, i)
    && (entry.unavailable ==> entry.tries == 0 && entry.until == w.available(i).1 && entry.err == None)
    && (!entry.unavailable ==>
          && 1 <= entry.tries && entry.until == NEVER
          && EndingOf(w, ex, i, entry.tries) != Repeats
          && (forall k :: 1 <= k < entry.tries ==> EndingOf(w, ex, i, k) == Repeats)
          && entry.err == match w.run(i, entry.tries) case Served(_) => None case Erred(err) => Some(err))
  }

  /** Whether execution goes on to the next candidate after this entry. */
  predicate GoesOn<C, R>(w: World<R>, ex: Executor<C>, i: nat, entry: Attempt<C>) {
    entry.unavailable || EndingOf(w, ex, i, entry.tries) == MovesOn
  }

  /** A trace: entries for a prefix of the candidates, in order. Every entry but the last let
      execution go on, so only the last can have served, stopped or been given up. */
  ghost predicate Trace<C, R>(w: World<R>, ex: Executor<C>, candidates: seq<C>, trace: seq<Attempt<C>>) {
    && |trace| <= |candidates|
    && (forall i :: 0 <= i < |trace| ==> !w.gone(i) && EntryOf(w, ex, candidates[i], i, trace[i]))
    && (forall i :: 0 <= i < |trace| - 1 ==> GoesOn(w, ex, i, trace[i]))
  }

  /** Health hears of every candidate tried, once, with its last outcome, unless the caller
      gave up or its wait was cut short. */
  ghost function Reports<C, R>(w: World<R>, ex: Executor<C>, trace: seq<Attempt<C>>): seq<Told> {
    if trace == [] || !ex.health then []
    else
      var i := |trace| - 1;
      var entry := trace[i];
      Reports(w, ex, trace[..i]) + (if Concludes(w, ex, i, entry) then [Told(entry.key, entry.err)] else [])
  }

  /** The candidate was tried, and its last try says something about it. */
  predicate Concludes<C, R>(w: World<R>, ex: Executor<C>, i: nat, entry: Attempt<C>) {
    !entry.unavailable && EndingOf(w, ex, i, entry.tries) !in {GivesUp, IsCut}
  }

  /** until is the least of the deadlines given for the first n candidates, or NEVER. */
  ghost predicate Earliest<R>(w: World<R>, n: nat, until: Time) {
    && (until == NEVER ==> forall i :: 0 <= i < n ==> w.available(i).1 == NEVER)
    && (until != NEVER ==> exists i :: 0 <= i < n && w.available(i).1 == until)
    && (forall i :: 0 <= i < n && w.available(i).1 != NEVER ==> until <= w.available(i).1)
  }

  /** Why execution ended as it did. */
  ghost predicate Explains<C, R>(w: World<R>, ex: Executor<C>, candidates: seq<C>, trace: seq<Attempt<C>>,
                                 value: Option<R>, failure: Option<Reason>) {
    var n := |trace|;
    && (value.Some? <==> failure.None?)
    && (failure == Some(NoKey) <==> ex.health && ex.key == None)
    && (failure == Some(NoCandidates) <==> !(ex.health && ex.key == None) && candidates == [])
    && match failure
       case None =>
         && n > 0 && !trace[n - 1].unavailable
         && w.run(n - 1, trace[n - 1].tries) == Served(value.value)
       case Some(NoKey) => n == 0
       case Some(NoCandidates) => n == 0
       case Some(ContextEnded) =>
         || (n < |candidates| && w.gone(n) && (n > 0 ==> GoesOn(w, ex, n - 1, trace[n - 1])))
         || (n > 0 && !trace[n - 1].unavailable && EndingOf(w, ex, n - 1, trace[n - 1].tries) == GivesUp)
       case Some(WaitCut) =>
         n > 0 && !trace[n - 1].unavailable && EndingOf(w, ex, n - 1, trace[n - 1].tries) == IsCut
       case Some(CandidateFailed(err)) =>
         || (n > 0 && !trace[n - 1].unavailable && EndingOf(w, ex, n - 1, trace[n - 1].tries) == Stops && trace[n - 1].err == Some(err))
         || (n == |candidates| && n > 0 && GoesOn(w, ex, n - 1, trace[n - 1])
             && exists last :: 0 <= last < n && !trace[last].unavailable && trace[last].err == Some(err)
                               && forall j :: last < j < n ==> trace[j].unavailable)
       case Some(AllUnavailable(until, retryAfter)) =>
         && n == |candidates| > 0
         && (forall i :: 0 <= i < n ==> trace[i].unavailable)
         && Earliest(w, n, until)
         && retryAfter == (if until == NEVER || until < w.now then 0 else until - w.now)
  }

  /** A candidate's entry once its tries are over: the last is the first that is not repeated. */
  ghost predicate Tried<C, R>(w: World<R>, ex: Executor<C>, i: nat, entry: Attempt<C>, done: Attempt<C>, result: Try<R>, ending: Ending) {
    && done == entry.(tries := done.tries, err := done.err) && done.tries >= 1
    && ending == EndingOf(w, ex, i, done.tries) != Repeats && result == w.run(i, done.tries)
    && (forall k :: 1 <= k < done.tries ==> EndingOf(w, ex, i, k) == Repeats)
    && done.err == match result case Served(_) => None case Erred(err) => Some(err)
  }

  // ----- The executor -----

  method TryCandidate<C, R>(w: World<R>, ex: Executor<C>, i: nat, entry: Attempt<C>)
    returns (done: Attempt<C>, result: Try<R>, ending: Ending)
    requires entry.tries == 0
    ensures Tried(w, ex, i, entry, done, result, ending)
  {
    done := entry;
    while true
      invariant done == entry.(tries := done.tries, err := done.err)
      invariant done.tries == 0 || done.tries < ex.attempts
      invariant forall k :: 1 <= k <= done.tries ==> EndingOf(w, ex, i, k) == Repeats
      decreases ex.attempts - done.tries
    {
      done := done.(tries := done.tries + 1);
      result := w.run(i, done.tries);
      match result {
        case Served(_) =>
          done := done.(err := None);
          return done, result, Serves;
        case Erred(err) =>
          done := done.(err := Some(err));
          if w.goneAfter(i, done.tries) {
            return done, result, GivesUp;
          }
          var permitted := DispositionOf(ClassifyError(err));
          if permitted == Retryable && done.tries < ex.attempts {
            if w.cut(i, done.tries) {
              return done, result, IsCut;
            }
          } else {
            return done, result, if permitted == Terminal then Stops else MovesOn;
          }
      }
    }
  }

  /** The loop's state once the candidates of trace are behind it. */
  ghost predicate Passed<C, R>(w: World<R>, ex: Executor<C>, candidates: seq<C>, trace: seq<Attempt<C>>,
                               told: seq<Told>, last: Option<Error>, until: Time) {
    var n := |trace|;
    && Trace(w, ex, candidates, trace)
    && (n > 0 ==> GoesOn(w, ex, n - 1, trace[n - 1]))
    && told == Reports(w, ex, trace)
    && (last == None ==> Earliest(w, n, until) && forall j :: 0 <= j < n ==> trace[j].unavailable)
    && (last.Some? ==> exists at :: LastTried(trace, at, last.value))
  }

  ghost predicate LastTried<C>(trace: seq<Attempt<C>>, at: nat, err: Error) {
    && at < |trace| && !trace[at].unavailable && trace[at].err == Some(err)
    && forall j :: at < j < |trace| ==> trace[j].unavailable
  }

  lemma TraceGrows<C, R>(w: World<R>, ex: Executor<C>, candidates: seq<C>, trace: seq<Attempt<C>>, entry: Attempt<C>)
    requires Trace(w, ex, candidates, trace) && |trace| < |candidates| && !w.gone(|trace|)
    requires |trace| > 0 ==> GoesOn(w, ex, |trace| - 1, trace[|trace| - 1])
    requires EntryOf(w, ex, candidates[|trace|], |trace|, entry)
    ensures Trace(w, ex, candidates, trace + [entry])
    ensures (trace + [entry])[..|trace|] == trace
  {
    hide EntryOf, GoesOn;
  }

  lemma PassedSkip<C, R>(w: World<R>, ex: Executor<C>, candidates: seq<C>, trace: seq<Attempt<C>>,
                         told: seq<Told>, last: Option<Error>, until: Time, entry: Attempt<C>)
    requires Passed(w, ex, candidates, trace, told, last, until) && |trace| < |candidates| && !w.gone(|trace|)
    requires EntryOf(w, ex, candidates[|trace|], |trace|, entry) && entry.unavailable
    ensures var next := entry.until;
            Passed(w, ex, candidates, trace + [entry], told, last,
                   if next != NEVER && (until == NEVER || next < until) then next else until)
  {
    hide Trace, Earliest, LastTried, EndingOf;
    TraceGrows(w, ex, candidates, trace, entry);
    SkipIsReached(w, ex, candidates[|trace|], |trace|, entry);
    EarliestOfOneMore(w, |trace|, until);
    hide EntryOf;
    if last.Some? {
      var at :| LastTried(trace, at, last.value);
      SkippedAfter(trace, at, last.value, entry);
    }
  }

  lemma SkipIsReached<C, R>(w: World<R>, ex: Executor<C>, candidate: C, i: nat, entry: Attempt<C>)
    requires EntryOf(w, ex, candidate, i, entry) && entry.unavailable
    ensures entry.until == w.available(i).1
  {
    hide EndingOf;
  }

  lemma SkippedAfter<C>(trace: seq<Attempt<C>>, at: nat, err: Error, entry: Attempt<C>)
    requires LastTried(trace, at, err) && entry.unavailable
    ensures LastTried(trace + [entry], at, err)
  {
  }

  lemma EarliestOfOneMore<R>(w: World<R>, n: nat, until: Time)
    ensures var next := w.available(n).1;
            Earliest(w, n, until) ==> Earliest(w, n + 1, if next != NEVER && (until == NEVER || next < until) then next else until)
  {
  }

  lemma PassedTry<C, R>(w: World<R>, ex: Executor<C>, candidates: seq<C>, trace: seq<Attempt<C>>,
                        told: seq<Told>, last: Option<Error>, until: Time, entry: Attempt<C>)
    requires Passed(w, ex, candidates, trace, told, last, until) && |trace| < |candidates| && !w.gone(|trace|)
    requires EntryOf(w, ex, candidates[|trace|], |trace|, entry) && !entry.unavailable
    requires EndingOf(w, ex, |trace|, entry.tries) == MovesOn
    ensures entry.err.Some?
    ensures Passed(w, ex, candidates, trace + [entry], told + (if ex.health then [Told(entry.key, entry.err)] else []), entry.err, until)
  {
    hide Trace, Earliest;
    TraceGrows(w, ex, candidates, trace, entry);
    assert LastTried(trace + [entry], |trace|, entry.err.value);
  }

  lemma EndsWith<C, R>(w: World<R>, ex: Executor<C>, candidates: seq<C>, trace: seq<Attempt<C>>,
                       told: seq<Told>, last: Option<Error>, until: Time, entry: Attempt<C>, ending: Ending)
    requires Passed(w, ex, candidates, trace, told, last, until) && |trace| < |candidates| && !w.gone(|trace|)
    requires !(ex.health && ex.key == None)
    requires EntryOf(w, ex, candidates[|trace|], |trace|, entry) && !entry.unavailable
    requires ending == EndingOf(w, ex, |trace|, entry.tries) && ending != MovesOn
    ensures Trace(w, ex, candidates, trace + [entry])
    ensures Reports(w, ex, trace + [entry])
            == told + (if ex.health && ending != GivesUp && ending != IsCut then [Told(entry.key, entry.err)] else [])
    ensures match w.run(|trace|, entry.tries)
            case Served(value) => ending == Serves && Explains(w, ex, candidates, trace + [entry], Some(value), None)
            case Erred(err) =>
              Explains(w, ex, candidates, trace + [entry], None,
                       Some(if ending == GivesUp then ContextEnded else if ending == IsCut then WaitCut else CandidateFailed(err)))
  {
    hide Trace, Earliest;
    TraceGrows(w, ex, candidates, trace, entry);
  }

  lemma EndsPast<C, R>(w: World<R>, ex: Executor<C>, candidates: seq<C>, trace: seq<Attempt<C>>,
                       told: seq<Told>, last: Option<Error>, until: Time)
    requires Passed(w, ex, candidates, trace, told, last, until) && !(ex.health && ex.key == None)
    ensures Trace(w, ex, candidates, trace) && told == Reports(w, ex, trace)
    ensures |trace| < |candidates| && w.gone(|trace|) ==>
              Explains(w, ex, candidates, trace, None, Some(ContextEnded))
    ensures |trace| == |candidates| > 0 ==>
              Explains(w, ex, candidates, trace, None,
                       Some(if last.Some? then CandidateFailed(last.value)
                            else AllUnavailable(until, if until == NEVER || until < w.now then 0 else until - w.now)))
  {
    hide Trace, Earliest, Reports;
    if last.Some? {
      var at :| LastTried(trace, at, last.value);
    }
  }

  method Run<C, R>(w: World<R>, ex: Executor<C>, candidates: seq<C>)
    returns (value: Option<R>, trace: seq<Attempt<C>>, told: seq<Told>, failure: Option<Reason>)
    ensures Trace(w, ex, candidates, trace)
    ensures Explains(w, ex, candidates, trace, value, failure)
    ensures told == Reports(w, ex, trace)
  {
    trace, told, value := [], [], None;
    if ex.health && ex.key == None {
      return None, [], [], Some(NoKey);
    }
    if |candidates| == 0 {
      return None, [], [], Some(NoCandidates);
    }
    var last: Option<Error> := None;
    var until := NEVER;
    assert Passed(w, ex, candidates, trace, told, last, until);
    hide Trace, Explains, Reports, Passed, EndingOf;
    for i := 0 to |candidates|
      invariant |trace| == i && Passed(w, ex, candidates, trace, told, last, until)
    {
      EndsPast(w, ex, candidates, trace, told, last, until);
      if w.gone(i) {
        return None, trace, told, Some(ContextEnded);
      }
      var entry := Attempt(candidates[i], "", false, NEVER, 0, None);
      if ex.health {
        entry := entry.(key := ex.key.value(candidates[i]));
        var (available, next) := w.available(i);
        if !available {
          entry := entry.(unavailable := true, until := next);
          PassedSkip(w, ex, candidates, trace, told, last, until, entry);
          trace := trace + [entry];
          if next != NEVER && (until == NEVER || next < until) {
            until := next;
          }
          continue;
        }
      }
      var done, result, ending := TryCandidate(w, ex, i, entry);
      if ending == MovesOn {
        PassedTry(w, ex, candidates, trace, told, last, until, done);
      } else {
        EndsWith(w, ex, candidates, trace, told, last, until, done, ending);
      }
      trace := trace + [done];
      if ex.health && ending != GivesUp && ending != IsCut {
        told := told + [Told(done.key, done.err)];
      }
      match ending {
        case Serves => return Some(result.value), trace, told, None;
        case GivesUp => return None, trace, told, Some(ContextEnded);
        case IsCut => return None, trace, told, Some(WaitCut);
        case Stops => return None, trace, told, Some(CandidateFailed(result.err));
        case MovesOn => last := done.err;
      }
    }
    EndsPast(w, ex, candidates, trace, told, last, until);
    if last.Some? {
      return None, trace, told, Some(CandidateFailed(last.value));
    }
    return None, trace, told,
      Some(AllUnavailable(until, if until == NEVER || until < w.now then 0 else until - w.now));
  }

  // ----- What the trace promises -----

  /** A candidate is tried at most max(1, Attempts) times, and repeated only after an error
      that permits a repeat, while the caller still waits. */
  lemma TriesBounded<C, R>(w: World<R>, ex: Executor<C>, candidate: C, i: nat, entry: Attempt<C>)
    requires EntryOf(w, ex, candidate, i, entry)
    ensures entry.tries <= 1 || entry.tries <= ex.attempts
    ensures forall k :: 1 <= k < entry.tries ==>
                          && w.run(i, k).Erred? && DispositionOf(ClassifyError(w.run(i, k).err)) == Retryable
                          && !w.goneAfter(i, k) && !w.cut(i, k)
  {
    if entry.tries > 1 {
      assert EndingOf(w, ex, i, entry.tries - 1) == Repeats;
    }
    forall k | 1 <= k < entry.tries
      ensures w.run(i, k).Erred? && DispositionOf(ClassifyError(w.run(i, k).err)) == Retryable
      ensures !w.goneAfter(i, k) && !w.cut(i, k)
    {
      assert EndingOf(w, ex, i, k) == Repeats;
    }
  }

  /** Only the last entry can have served or ended the execution. */
  lemma OnlyLastEnds<C, R>(w: World<R>, ex: Executor<C>, candidates: seq<C>, trace: seq<Attempt<C>>, i: nat)
    requires Trace(w, ex, candidates, trace) && i < |trace| && !trace[i].unavailable
    requires trace[i].err == None || DispositionOf(ClassifyError(trace[i].err.value)) == Terminal
    ensures i == |trace| - 1
  {
    assert EntryOf(w, ex, candidates[i], i, trace[i]);
  }

  /** The error is UnavailableError exactly when there are candidates, the context lasts, and
      Health refuses every one of them. */
  lemma UnavailableExactly<C, R>(w: World<R>, ex: Executor<C>, candidates: seq<C>, trace: seq<Attempt<C>>,
                                 value: Option<R>, failure: Option<Reason>)
    requires Trace(w, ex, candidates, trace) && Explains(w, ex, candidates, trace, value, failure)
    ensures failure.Some? && failure.value.AllUnavailable? <==>
            ex.health && ex.key.Some? && candidates != [] && forall i :: 0 <= i < |candidates| ==> !w.gone(i) && !w.available(i).0
  {
    hide Earliest;
    if failure.Some? && failure.value.AllUnavailable? {
      forall i | 0 <= i < |candidates| ensures !w.gone(i) && !w.available(i).0 {
        assert EntryOf(w, ex, candidates[i], i, trace[i]) && trace[i].unavailable;
      }
    } else if ex.health && ex.key.Some? && candidates != [] && forall i :: 0 <= i < |candidates| ==> !w.gone(i) && !w.available(i).0 {
      forall i | 0 <= i < |trace| ensures trace[i].unavailable {
        assert EntryOf(w, ex, candidates[i], i, trace[i]);
      }
    }
  }

  /** The k-th try was an end of the candidate's own: it served, or the caller was still there and no
      wait for another try was cut short. */
  predicate OwnEnd<C, R>(w: World<R>, ex: Executor<C>, i: nat, k: nat) {
    w.run(i, k).Served?
    || (!w.goneAfter(i, k) && !(ClassifyError(w.run(i, k).err).retryable && k < ex.attempts && w.cut(i, k)))
  }

  /** Health hears of the entry: it was tried, to an end of its own. */
  predicate Heard<C, R>(w: World<R>, ex: Executor<C>, i: nat, entry: Attempt<C>) {
    ex.health && entry.tries > 0 && OwnEnd(w, ex, i, entry.tries)
  }

  /** Health hears of a candidate once, exactly when it was tried to an end of its own. */
  lemma {:induction false} ToldOncePerCandidate<C, R>(w: World<R>, ex: Executor<C>, candidates: seq<C>, trace: seq<Attempt<C>>)
    requires Trace(w, ex, candidates, trace)
    ensures |Reports(w, ex, trace)| == |HeardOf(w, ex, trace)|
  {
    if trace != [] {
      FrontTraces(w, ex, candidates, trace);
      ToldOncePerCandidate(w, ex, candidates, trace[..|trace| - 1]);
      hide Trace, Reports, HeardOf, Heard;
      OneMoreHeard(w, ex, trace);
    }
  }

  ghost function HeardOf<C, R>(w: World<R>, ex: Executor<C>, trace: seq<Attempt<C>>): set<nat> {
    set i: nat | i < |trace| && Heard(w, ex, i, trace[i])
  }

  lemma OneMoreHeard<C, R>(w: World<R>, ex: Executor<C>, trace: seq<Attempt<C>>)
    requires trace != []
    ensures var n := |trace| - 1;
            |HeardOf(w, ex, trace)| == |HeardOf(w, ex, trace[..n])| + if Heard(w, ex, n, trace[n]) then 1 else 0
  {
    hide Heard;
    var n := |trace| - 1;
    var front := trace[..n];
    assert forall i :: 0 <= i < n ==> front[i] == trace[i];
    assert HeardOf(w, ex, trace) == HeardOf(w, ex, front) + if Heard(w, ex, n, trace[n]) then {n} else {};
  }

  /** And of its last outcome, under its key. */
  lemma {:induction false} ToldItsOutcome<C, R>(w: World<R>, ex: Executor<C>, candidates: seq<C>, trace: seq<Attempt<C>>, told: Told)
    requires Trace(w, ex, candidates, trace)
    ensures told in Reports(w, ex, trace) <==>
            exists i :: 0 <= i < |trace| && Heard(w, ex, i, trace[i])
                        && told == Told(if ex.key.Some? then ex.key.value(candidates[i]) else "", trace[i].err)
  {
    hide Heard;
    if trace != [] {
      var n := |trace| - 1;
      var front := trace[..n];
      FrontTraces(w, ex, candidates, trace);
      ToldItsOutcome(w, ex, candidates, front, told);
      hide Trace, Reports;
      assert forall i :: 0 <= i < n ==> front[i] == trace[i];
    }
  }

  lemma FrontTraces<C, R>(w: World<R>, ex: Executor<C>, candidates: seq<C>, trace: seq<Attempt<C>>)
    requires Trace(w, ex, candidates, trace) && trace != []
    ensures var n := |trace| - 1;
            && Trace(w, ex, candidates, trace[..n])
            && Reports(w, ex, trace) == Reports(w, ex, trace[..n])
                 + (if Heard(w, ex, n, trace[n]) then [Told(trace[n].key, trace[n].err)] else [])
            && trace[n].key == if ex.health && ex.key.Some? then ex.key.value(candidates[n]) else ""
  {
    var n := |trace| - 1;
    ConcludesExactly(w, ex, candidates[n], n, trace[n]);
    KeyOf(w, ex, candidates[n], n, trace[n]);
    hide Concludes, OwnEnd, EntryOf, GoesOn;
  }

  lemma KeyOf<C, R>(w: World<R>, ex: Executor<C>, candidate: C, i: nat, entry: Attempt<C>)
    requires EntryOf(w, ex, candidate, i, entry)
    ensures entry.key == if ex.health && ex.key.Some? then ex.key.value(candidate) else ""
  {
    hide EndingOf;
  }

  lemma ConcludesExactly<C, R>(w: World<R>, ex: Executor<C>, candidate: C, i: nat, entry: Attempt<C>)
    requires EntryOf(w, ex, candidate, i, entry)
    ensures Concludes(w, ex, i, entry) <==> entry.tries > 0 && OwnEnd(w, ex, i, entry.tries)
  {
    hide ClassifyError;
  }

  // ----- The same by the outside's own answers -----

  /** An error that permits another try or another candidate. */
  predicate Permits(err: Error) {
    ClassifyError(err).retryable || ClassifyError(err).failoverEligible
  }

  /** Main result: execution stops short of the candidates only because the last one served, its error
      permits neither a repeat nor another candidate, the context ended, or a wait was cut short; an
      error that permits one is the answer only once every candidate was reached. */
  lemma StopsShortForAReason<C, R>(w: World<R>, ex: Executor<C>, candidates: seq<C>, trace: seq<Attempt<C>>,
                                   value: Option<R>, failure: Option<Reason>)
    requires Trace(w, ex, candidates, trace) && Explains(w, ex, candidates, trace, value, failure)
    ensures var n := |trace|;
            n < |candidates| ==>
              || failure == Some(NoKey)
              || (failure == None && n > 0 && trace[n - 1].tries > 0 && w.run(n - 1, trace[n - 1].tries) == Served(value.value))
              || (n > 0 && trace[n - 1].tries > 0 && w.run(n - 1, trace[n - 1].tries).Erred?
                  && failure == Some(CandidateFailed(w.run(n - 1, trace[n - 1].tries).err))
                  && !Permits(w.run(n - 1, trace[n - 1].tries).err) && !w.goneAfter(n - 1, trace[n - 1].tries))
              || (failure == Some(ContextEnded) && (w.gone(n) || (n > 0 && trace[n - 1].tries > 0 && w.goneAfter(n - 1, trace[n - 1].tries))))
              || (failure == Some(WaitCut) && n > 0 && trace[n - 1].tries > 0 && w.cut(n - 1, trace[n - 1].tries))
    ensures failure.Some? && failure.value.CandidateFailed? && Permits(failure.value.err) ==> |trace| == |candidates|
    ensures forall i :: 0 <= i < |trace| - 1 && (ex.health ==> w.available(i).0) ==>
              w.run(i, trace[i].tries).Erred? && Permits(w.run(i, trace[i].tries).err) && !w.goneAfter(i, trace[i].tries)
  {
    hide Earliest;
    var n := |trace|;
    forall i | 0 <= i < n ensures EntryOf(w, ex, candidates[i], i, trace[i]) {
    }
    hide ClassifyError;
  }

  /** A candidate is tried exactly when Health lets it be, and tried again exactly as long as its error
      is retryable, tries are left, the context lasts and the wait is not cut short. */
  lemma TriedExactly<C, R>(w: World<R>, ex: Executor<C>, candidates: seq<C>, trace: seq<Attempt<C>>, i: nat)
    requires Trace(w, ex, candidates, trace) && i < |trace|
    ensures trace[i].candidate == candidates[i] && (trace[i].tries > 0 <==> !ex.health || w.available(i).0)
    ensures forall k :: 1 <= k < trace[i].tries ==> Again(w, ex, i, k)
    ensures trace[i].tries > 0 ==> !Again(w, ex, i, trace[i].tries)
    ensures trace[i].tries > 0 ==> trace[i].err == match w.run(i, trace[i].tries) case Served(_) => None case Erred(err) => Some(err)
  {
    assert EntryOf(w, ex, candidates[i], i, trace[i]);
    hide ClassifyError;
    forall k | 1 <= k < trace[i].tries ensures Again(w, ex, i, k) {
      assert EndingOf(w, ex, i, k) == Repeats;
    }
  }

  predicate Again<C, R>(w: World<R>, ex: Executor<C>, i: nat, k: nat) {
    && w.run(i, k).Erred? && ClassifyError(w.run(i, k).err).retryable
    && k < ex.attempts && !w.goneAfter(i, k) && !w.cut(i, k)
  }
}
