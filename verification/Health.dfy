/** execution.HealthTracker: streaks that open circuits, and cooldowns upstreams ask for. */
module Health {
  import opened Options
  import opened ProviderErrors

  /** Nanoseconds; the zero time stands for "never". */
  type Time = int
  type Duration = int
  const NEVER: Time := 0
  /** A clock reading: always after the zero time. */
  type Instant = t: Time | t > NEVER witness 1

  datatype Effect = Neutral | Success | Failure
  datatype Observation = Observation(effect: Effect, class_: string, retryAfter: Duration)

  /** What a Backoff sees of a failure at or past the threshold. */
  datatype FailureSeen = FailureSeen(key: string, class_: string, streak: nat, classFailures: nat)
  datatype Backoff = NoBackoff | Backoff(open: FailureSeen -> Duration)
  datatype Policy = Policy(threshold: int, openDuration: Duration, backoff: Backoff, window: Duration, ignoreRetryAfter: bool)

  /** classes counts the streak's failures by class. */
  datatype State = State(streak: nat, classes: multiset<string>, lastFailure: Time, openUntil: Time, coolUntil: Time)
  const HEALTHY := State(0, multiset{}, NEVER, NEVER, NEVER)

  /** The default reading of an operation's outcome. */
  function Observe(outcome: Option<Error>): Observation {
    match outcome
    case None => Observation(Success, "", 0)
    case Some(err) =>
      var c := ClassifyError(err);
      Observation(if c.circuitFailure then Failure
                  else if c.statusCode != 0 && !Canceled(err) then Success
                  else Neutral, "", c.retryAfter)
  }

  function Later(a: Time, b: Time): Time {
    if b > a then b else a
  }

  // ----- One key -----

  predicate Forgets(s: State, policy: Policy, now: Instant) {
    policy.window > 0 && s.lastFailure != NEVER && now - s.lastFailure > policy.window
  }

  /** A key's state after a failure: the streak grows, or starts again once the window
      forgot it, and at the threshold the deadline only moves later. */
  function Failed(s: State, key: string, policy: Policy, class_: string, now: Instant): State {
    var streak := if Forgets(s, policy, now) then 1 else s.streak + 1;
    var classes := (if Forgets(s, policy, now) then multiset{} else s.classes) + multiset{class_};
    var open := if policy.backoff.Backoff? then policy.backoff.open(FailureSeen(key, class_, streak, classes[class_]))
                else policy.openDuration;
    var openUntil := if streak >= policy.threshold && open > 0 then Later(s.openUntil, now + open) else s.openUntil;
    State(streak, classes, now, openUntil, s.coolUntil)
  }

  function Cooled(s: State, retryAfter: Duration, now: Instant): State {
    s.(coolUntil := Later(s.coolUntil, now + retryAfter))
  }

  /** Whether a key may be tried, and otherwise until when it may not. */
  function Answer(s: State, policy: Policy, now: Instant): (bool, Time) {
    var open := if policy.threshold > 0 then s.openUntil else NEVER;
    var until := if policy.ignoreRetryAfter then open else Later(open, s.coolUntil);
    if now < until then (false, until) else (true, NEVER)
  }

  // ----- The tracker's map: a key without state is healthy -----

  function StateOf(keys: map<string, State>, key: string): State {
    if key in keys then keys[key] else HEALTHY
  }

  function Succeeded(keys: map<string, State>, key: string, now: Instant): map<string, State> {
    if key !in keys then keys
    else if now >= keys[key].coolUntil then keys - {key}
    else keys[key := HEALTHY.(coolUntil := keys[key].coolUntil)]
  }

  function Recorded(keys: map<string, State>, key: string, o: Observation, policy: Policy, now: Instant): map<string, State> {
    var moved := match o.effect
      case Neutral => keys
      case Success => Succeeded(keys, key, now)
      case Failure => if policy.threshold > 0 then keys[key := Failed(StateOf(keys, key), key, policy, o.class_, now)] else keys;
    if o.retryAfter > 0 && !policy.ignoreRetryAfter then moved[key := Cooled(StateOf(moved, key), o.retryAfter, now)] else moved
  }

  class HealthTracker {
    var keys: map<string, State>

    constructor ()
      ensures keys == map[]
    {
      keys := map[];
    }

    /** Records an outcome, as observed and under the policy the key has then. */
    method Record(key: string, observation: Observation, policy: Policy, now: Instant)
      modifies this
      ensures keys == Recorded(old(keys), key, observation, policy, now)
    {
      match observation.effect {
        case Success => Succeed(key, now);
        case Failure =>
          if policy.threshold > 0 {
            Fail(key, policy, observation.class_, now);
          }
        case Neutral =>
      }
      if observation.retryAfter > 0 && !policy.ignoreRetryAfter {
        Touch(key);
        keys := keys[key := keys[key].(coolUntil := Later(keys[key].coolUntil, now + observation.retryAfter))];
      }
    }

    method Succeed(key: string, now: Instant)
      modifies this
      ensures keys == Succeeded(old(keys), key, now)
    {
      if key !in keys {
        return;
      }
      if now >= keys[key].coolUntil {
        keys := keys - {key};
        return;
      }
      keys := keys[key := State(0, multiset{}, NEVER, NEVER, keys[key].coolUntil)];
    }

    method Fail(key: string, policy: Policy, class_: string, now: Instant)
      modifies this
      ensures keys == old(keys)[key := Failed(StateOf(old(keys), key), key, policy, class_, now)]
      ensures var s, t := StateOf(old(keys), key), keys[key];
              var anew := policy.window > 0 && s.lastFailure != NEVER && now - s.lastFailure > policy.window;
              var open := if policy.backoff.Backoff? then policy.backoff.open(FailureSeen(key, class_, t.streak, t.classes[class_]))
                          else policy.openDuration;
              && t.streak == (if anew then 1 else s.streak + 1) && t.lastFailure == now && t.coolUntil == s.coolUntil
              && t.classes == (if anew then multiset{class_} else s.classes + multiset{class_})
              && (t.openUntil != s.openUntil ==> t.openUntil == now + open > s.openUntil)
              && (t.streak >= policy.threshold && open > 0 ==> t.openUntil >= now + open)
              && (t.streak < policy.threshold ==> t.openUntil == s.openUntil)
    {
      Touch(key);
      var state := keys[key];
      if policy.window > 0 && state.lastFailure != NEVER && now - state.lastFailure > policy.window {
        state := state.(streak := 0, classes := multiset{});
      }
      state := state.(streak := state.streak + 1, classes := state.classes + multiset{class_}, lastFailure := now);
      keys := keys[key := state];
      if state.streak < policy.threshold {
        return;
      }
      var open := policy.openDuration;
      if policy.backoff.Backoff? {
        open := policy.backoff.open(FailureSeen(key, class_, state.streak, state.classes[class_]));
      }
      if open > 0 {
        keys := keys[key := state.(openUntil := Later(state.openUntil, now + open))];
      }
    }

    /** Gives key a state if it has none. */
    method Touch(key: string)
      modifies this
      ensures keys == old(keys)[key := StateOf(old(keys), key)]
    {
      if key !in keys {
        keys := keys[key := HEALTHY];
      }
    }

    method Available(key: string, policy: Policy, now: Instant) returns (available: bool, until: Time)
      ensures (available, until) == Answer(StateOf(keys, key), policy, now)
      ensures !available ==> now < until
    {
      if key !in keys {
        return true, NEVER;
      }
      until := NEVER;
      if policy.threshold > 0 {
        until := keys[key].openUntil;
      }
      if !policy.ignoreRetryAfter {
        until := Later(until, keys[key].coolUntil);
      }
      if now < until {
        return false, until;
      }
      return true, NEVER;
    }

    method Reset(key: string)
      modifies this
      ensures keys == old(keys) - {key}
    {
      keys := keys - {key};
    }
  }
}
