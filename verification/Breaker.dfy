/** router.CircuitBreaker, and its agreement with the tracker that replaces it. */
module Breaker {
  import opened ProviderErrors
  import opened Health
  import HealthRefinement

  class CircuitBreaker {
    var failures: map<string, nat>
    var lastFailure: map<string, Instant>
    const threshold: int
    const cooldown: Duration

    constructor (threshold: int, cooldown: Duration)
      ensures failures == map[] && lastFailure == map[]
      ensures this.threshold == (if threshold <= 0 then 5 else threshold)
      ensures this.cooldown == (if cooldown <= 0 then 30_000_000_000 else cooldown)
    {
      failures, lastFailure := map[], map[];
      this.threshold := if threshold <= 0 then 5 else threshold;
      this.cooldown := if cooldown <= 0 then 30_000_000_000 else cooldown;
    }

    method Allow(provider: string, now: Instant) returns (allowed: bool)
      ensures allowed == Allows(Counts(failures, lastFailure), provider, threshold, cooldown, now)
    {
      var fails := if provider in failures then failures[provider] else 0;
      if fails < threshold {
        return true;
      }
      var last := if provider in lastFailure then lastFailure[provider] else NEVER;
      return now - last > cooldown;
    }

    method RecordSuccess(provider: string)
      modifies this
      ensures Counts(failures, lastFailure) == Stepped(Counts(old(failures), old(lastFailure)), Outcome(provider, true, 1))
    {
      failures, lastFailure := failures - {provider}, lastFailure - {provider};
    }

    method RecordFailure(provider: string, now: Instant)
      modifies this
      ensures Counts(failures, lastFailure) == Stepped(Counts(old(failures), old(lastFailure)), Outcome(provider, false, now))
    {
      failures := failures[provider := (if provider in failures then failures[provider] else 0) + 1];
      lastFailure := lastFailure[provider := now];
    }
  }

  datatype Counts = Counts(failures: map<string, nat>, last: map<string, Instant>)
  datatype Outcome = Outcome(key: string, ok: bool, now: Instant)

  function Stepped(c: Counts, e: Outcome): Counts {
    if e.ok then Counts(c.failures - {e.key}, c.last - {e.key})
    else Counts(c.failures[e.key := FailuresOf(c, e.key) + 1], c.last[e.key := e.now])
  }

  function FailuresOf(c: Counts, key: string): nat {
    if key in c.failures then c.failures[key] else 0
  }

  function LastOf(c: Counts, key: string): Time {
    if key in c.last then c.last[key] else NEVER
  }

  predicate Allows(c: Counts, key: string, threshold: int, cooldown: Duration, now: Instant) {
    FailuresOf(c, key) < threshold || now - LastOf(c, key) > cooldown
  }

  // ----- Agreement -----

  ghost function Legacy(events: seq<Outcome>): Counts {
    if events == [] then Counts(map[], map[])
    else Stepped(Legacy(events[..|events| - 1]), events[|events| - 1])
  }

  /** The same outcomes, told to a tracker. */
  ghost function Tracked(events: seq<Outcome>, policy: Policy): map<string, State> {
    if events == [] then map[]
    else
      var e := events[|events| - 1];
      Recorded(Tracked(events[..|events| - 1], policy), e.key, Observation(if e.ok then Success else Failure, "", 0), policy, e.now)
  }

  ghost predicate Monotone(events: seq<Outcome>, now: Time) {
    if events == [] then true
    else events[|events| - 1].now <= now && Monotone(events[..|events| - 1], events[|events| - 1].now)
  }

  /** The tracker's state of a key, as the breaker's counts give it. */
  predicate Mirrors(s: State, c: Counts, key: string, threshold: int, cooldown: Duration, now: Time) {
    && s.streak == FailuresOf(c, key) && s.lastFailure == LastOf(c, key) <= now && s.coolUntil == NEVER
    && s.openUntil == if s.streak >= threshold then s.lastFailure + cooldown else NEVER
  }

  lemma {:induction false} TrackerMirrorsBreaker(events: seq<Outcome>, key: string, threshold: int, cooldown: Duration, now: Time)
    requires threshold > 0 && cooldown > 0 && now >= NEVER && Monotone(events, now)
    ensures Mirrors(StateOf(Tracked(events, Policy(threshold, cooldown, NoBackoff, 0, false)), key), Legacy(events), key, threshold, cooldown, now)
  {
    hide Recorded, Stepped, Mirrors;
    if events != [] {
      var before, e := events[..|events| - 1], events[|events| - 1];
      TrackerMirrorsBreaker(before, key, threshold, cooldown, e.now);
      MirrorStep(Tracked(before, Policy(threshold, cooldown, NoBackoff, 0, false)), Legacy(before), e, key, threshold, cooldown, now);
    } else {
      assert Mirrors(HEALTHY, Counts(map[], map[]), key, threshold, cooldown, now) by { MirrorsAtFirst(key, threshold, cooldown, now); }
    }
  }

  lemma MirrorsAtFirst(key: string, threshold: int, cooldown: Duration, now: Time)
    requires threshold > 0 && now >= NEVER
    ensures Mirrors(HEALTHY, Counts(map[], map[]), key, threshold, cooldown, now)
  {
  }

  lemma MirrorStep(keys: map<string, State>, c: Counts, e: Outcome, key: string, threshold: int, cooldown: Duration, now: Time)
    requires threshold > 0 && cooldown > 0 && e.now <= now
    requires Mirrors(StateOf(keys, key), c, key, threshold, cooldown, e.now)
    ensures var keys' := Recorded(keys, e.key, Observation(if e.ok then Success else Failure, "", 0),
                                  Policy(threshold, cooldown, NoBackoff, 0, false), e.now);
            Mirrors(StateOf(keys', key), Stepped(c, e), key, threshold, cooldown, now)
  {
    var policy := Policy(threshold, cooldown, NoBackoff, 0, false);
    if e.key != key {
      hide Recorded;
      HealthRefinement.RecordOther(keys, e.key, Observation(if e.ok then Success else Failure, "", 0), policy, e.now, key);
    } else {
      hide Failed, Mirrors, Stepped;
      if e.ok {
        MirrorSuccess(keys, c, key, threshold, cooldown, e.now, now);
      } else {
        MirrorFailure(StateOf(keys, key), c, key, threshold, cooldown, e.now, now);
      }
    }
  }

  lemma MirrorSuccess(keys: map<string, State>, c: Counts, key: string, threshold: int, cooldown: Duration, at: Instant, now: Time)
    requires threshold > 0 && at <= now && Mirrors(StateOf(keys, key), c, key, threshold, cooldown, at)
    ensures Mirrors(StateOf(Succeeded(keys, key, at), key), Stepped(c, Outcome(key, true, at)), key, threshold, cooldown, now)
  {
  }

  lemma MirrorFailure(s: State, c: Counts, key: string, threshold: int, cooldown: Duration, at: Instant, now: Time)
    requires threshold > 0 && cooldown > 0 && at <= now && Mirrors(s, c, key, threshold, cooldown, at)
    ensures var f := Failed(s, key, Policy(threshold, cooldown, NoBackoff, 0, false), "", at);
            Mirrors(f, Stepped(c, Outcome(key, false, at)), key, threshold, cooldown, now)
  {
    hide Failed;
    FailureReopens(s, key, threshold, cooldown, at);
  }

  /** Under a monotone clock each failure at the threshold restarts the open time. */
  lemma FailureReopens(s: State, key: string, threshold: int, cooldown: Duration, now: Instant)
    requires threshold > 0 && cooldown > 0 && s.lastFailure <= now
    requires s.openUntil == if s.streak >= threshold then s.lastFailure + cooldown else NEVER
    ensures var f := Failed(s, key, Policy(threshold, cooldown, NoBackoff, 0, false), "", now);
            && f.streak == s.streak + 1 && f.lastFailure == now && f.coolUntil == s.coolUntil
            && f.openUntil == if f.streak >= threshold then now + cooldown else NEVER
  {
  }

  /** Main result: with no window, no backoff and no Retry-After, the tracker and the breaker
      give the same answer at every instant but one: the end of an open circuit's time, when
      the tracker already admits a probe and the breaker does not. */
  lemma TrackerAgreesWithBreaker(events: seq<Outcome>, key: string, threshold: int, cooldown: Duration, now: Instant)
    requires threshold > 0 && cooldown > 0 && Monotone(events, now)
    ensures var c, policy := Legacy(events), Policy(threshold, cooldown, NoBackoff, 0, false);
            var available := Answer(StateOf(Tracked(events, policy), key), policy, now).0;
            var edge := FailuresOf(c, key) >= threshold && now == LastOf(c, key) + cooldown;
            && (available != Allows(c, key, threshold, cooldown, now) <==> edge)
            && (edge ==> available)
  {
    hide Tracked, Legacy;
    TrackerMirrorsBreaker(events, key, threshold, cooldown, now);
  }
}
