/** What becomes of a flow when one call works on it undisturbed: each answer of a driver, the key
    hook and the credential store has its outcome, and the owner reads it. */
module FlowOutcomes {
  import opened Options
  import opened FlowStore
  import opened FlowLog
  import opened FlowService
  import opened FlowReplies
  import opened OAuthService

  /** Steps i to j are made with a live context and before the flow expires. */
  ghost predicate Calm(world: nat -> Choice, i: nat, j: nat, expiresAt: Time) {
    forall n :: i <= n < j ==> !world(n).ended && world(n).now < expiresAt
  }

  lemma CalmAt(world: nat -> Choice, i: nat, j: nat, expiresAt: Time, n: nat)
    requires Calm(world, i, j, expiresAt) && i <= n < j
    ensures !world(n).ended && world(n).now < expiresAt
  {
  }

  /** The flow is stored as f has it, secrets aside. */
  predicate Stored(s: Store, f: Flow) {
    var id := f.about.id;
    id in s.flows && s.flows[id].flow.(secrets := f.secrets) == f
  }

  // ----- Single writes -----

  lemma UpdateLands(s: Store, c: Config, f: Flow, progress: Progress, now: Instant)
    requires Stored(s, f) && now < f.about.expiresAt
    ensures var r := Update(s, c, false, f.about.caller, f.about.id, f.revision, progress, now);
            && r.1.Ok? && Stored(r.0, r.1.value) && r.1.value.about == f.about
            && r.1.value.consumedAt == f.consumedAt && r.1.value.progress == progress
  {
    hide Restrict, Wiped, Gone;
  }

  lemma ConsumeLands(s: Store, c: Config, f: Flow, now: Instant, at: Instant)
    requires Stored(s, f) && now < f.about.expiresAt && !Consumed(f)
    ensures var r := Consume(s, c, false, f.about.caller, f.about.id, now, at);
            && r.1.Ok? && Stored(r.0, r.1.value) && Consumed(r.1.value) && r.1.value.about == f.about
            && r.1.value.progress == f.progress
  {
    hide Restrict, Wiped, Gone;
  }

  // ----- Spending a flow -----

  /** The outcome and key a purpose leads to. */
  function Verdict(purpose: Purpose, world: nat -> Choice, i: nat): (Outcome, string) {
    match purpose
    case ToEnd(outcome) => (outcome, "")
    case ToExchange => if world(i).exchanged then SaveVerdict(world(i + 1)) else (OutcomeFailed, "")
    case ToSave => SaveVerdict(world(i))
  }

  /** Saving completes the flow under its key; no key or a failed save fails it. */
  function SaveVerdict(x: Choice): (Outcome, string) {
    if !Blank(x.key) && x.saved then (OutcomeComplete, x.key) else (OutcomeFailed, "")
  }

  /** How the call ended and what is stored of the flow then. */
  ghost predicate EndsWith(r: (Store, Call, seq<Event>), f: Flow, verdict: (Outcome, string)) {
    && r.1 == Done && f.about.id in r.0.flows
    && var g := r.0.flows[f.about.id].flow;
       g.about == f.about && Consumed(g) && g.progress == f.progress.(outcome := verdict.0, credentialKey := verdict.1)
  }

  lemma FinishRecords(s: Store, c: Config, k: nat, f: Flow, outcome: Outcome, key: string, world: nat -> Choice, i: nat)
    requires Stored(s, f) && Consumed(f) && world(i).now < f.about.expiresAt
    ensures EndsWith(Alone(s, c, k, Finishing(f, outcome, key), world, i, 1), f, (outcome, key))
  {
    hide Alone, Update, Inv;
    var progress := f.progress.(outcome := outcome, credentialKey := key);
    UpdateLands(s, c, f, progress, world(i).now);
    var turn := Act(s, c, k, Finishing(f, outcome, key), world(i));
    DoneStays(turn.store, c, k, world, i + 1, 0);
    StepThen(s, c, k, Finishing(f, outcome, key), world, i, 0, turn, (turn.store, Done, []));
  }

  lemma SaveRecords(s: Store, c: Config, k: nat, f: Flow, world: nat -> Choice, i: nat)
    requires Stored(s, f) && Consumed(f) && Calm(world, i, i + 2, f.about.expiresAt)
    ensures EndsWith(Alone(s, c, k, Saving(f), world, i, 2), f, SaveVerdict(world(i)))
  {
    hide Alone, Blank, EndsWith, Calm, Stored;
    CalmAt(world, i, i + 2, f.about.expiresAt, i + 1);
    var verdict := SaveVerdict(world(i));
    FinishRecords(s, c, k, f, verdict.0, verdict.1, world, i + 1);
    EndsAfter(s, c, k, Saving(f), world, i, 1, f, verdict);
  }

  /** A step before an ending leads to the same ending. */
  lemma EndsAfter(s: Store, c: Config, k: nat, call: Call, world: nat -> Choice, i: nat, n: nat, f: Flow, verdict: (Outcome, string))
    requires var turn := Act(s, c, k, call, world(i)); EndsWith(Alone(turn.store, c, k, turn.call, world, i + 1, n), f, verdict)
    ensures EndsWith(Alone(s, c, k, call, world, i, n + 1), f, verdict)
  {
    hide Act, Alone;
    var turn := Act(s, c, k, call, world(i));
    StepThen(s, c, k, call, world, i, n, turn, Alone(turn.store, c, k, turn.call, world, i + 1, n));
  }

  lemma SpendRecords(s: Store, c: Config, k: nat, f: Flow, purpose: Purpose, world: nat -> Choice, i: nat)
    requires Stored(s, f) && Consumed(f) && Calm(world, i, i + 3, f.about.expiresAt)
    ensures EndsWith(Alone(s, c, k, Spend(f, purpose), world, i, 3), f, Verdict(purpose, world, i))
  {
    hide Alone, EndsWith, Calm, Stored, SaveVerdict, Act;
    match purpose {
      case ToEnd(outcome) =>
        CalmAt(world, i, i + 3, f.about.expiresAt, i);
        FinishRecords(s, c, k, f, outcome, "", world, i);
        EndsLater(s, c, k, Finishing(f, outcome, ""), world, i, 1, f, (outcome, ""));
      case ToSave =>
        CalmWithin(world, i, i + 3, f.about.expiresAt, i, i + 2);
        SaveRecords(s, c, k, f, world, i);
        EndsLater(s, c, k, Saving(f), world, i, 2, f, Verdict(purpose, world, i));
      case ToExchange =>
        ExchangeRecords(s, c, k, f, world, i);
    }
  }

  lemma ExchangeRecords(s: Store, c: Config, k: nat, f: Flow, world: nat -> Choice, i: nat)
    requires Stored(s, f) && Consumed(f) && Calm(world, i, i + 3, f.about.expiresAt)
    ensures EndsWith(Alone(s, c, k, Exchanging(f), world, i, 3), f, Verdict(ToExchange, world, i))
  {
    hide Alone, EndsWith, Calm, Stored, SaveVerdict;
    if world(i).exchanged {
      CalmWithin(world, i, i + 3, f.about.expiresAt, i + 1, i + 3);
      SaveRecords(s, c, k, f, world, i + 1);
    } else {
      CalmAt(world, i, i + 3, f.about.expiresAt, i + 1);
      FinishRecords(s, c, k, f, OutcomeFailed, "", world, i + 1);
      EndsLater(s, c, k, Finishing(f, OutcomeFailed, ""), world, i + 1, 1, f, (OutcomeFailed, ""));
    }
    EndsAfter(s, c, k, Exchanging(f), world, i, 2, f, Verdict(ToExchange, world, i));
  }

  lemma CalmWithin(world: nat -> Choice, i: nat, j: nat, expiresAt: Time, a: nat, b: nat)
    requires Calm(world, i, j, expiresAt) && i <= a <= b <= j
    ensures Calm(world, a, b, expiresAt)
  {
  }

  /** Waiting longer changes nothing. */
  lemma EndsLater(s: Store, c: Config, k: nat, call: Call, world: nat -> Choice, i: nat, n: nat, f: Flow, verdict: (Outcome, string))
    requires EndsWith(Alone(s, c, k, call, world, i, n), f, verdict)
    ensures forall m :: m >= n ==> EndsWith(Alone(s, c, k, call, world, i, m), f, verdict)
  {
    hide Alone;
    forall m | m >= n ensures EndsWith(Alone(s, c, k, call, world, i, m), f, verdict) {
      MoreSteps(s, c, k, call, world, i, n, m);
    }
  }

  lemma TakeRecords(s: Store, c: Config, k: nat, f: Flow, purpose: Purpose, world: nat -> Choice, i: nat)
    requires Stored(s, f) && !Consumed(f) && Calm(world, i, i + 4, f.about.expiresAt)
    ensures EndsWith(Alone(s, c, k, Consuming(f.about.caller, f.about.id, purpose), world, i, 4), f, Verdict(purpose, world, i + 1))
  {
    hide Alone, EndsWith, Calm, Stored, Consume, Verdict, FlowService.Spend;
    CalmAt(world, i, i + 4, f.about.expiresAt, i);
    CalmWithin(world, i, i + 4, f.about.expiresAt, i + 1, i + 4);
    ConsumeLands(s, c, f, world(i).now, world(i).later);
    var r := Consume(s, c, false, f.about.caller, f.about.id, world(i).now, world(i).later);
    SpendRecords(r.0, c, k, r.1.value, purpose, world, i + 1);
    SameEnding(Alone(r.0, c, k, Spend(r.1.value, purpose), world, i + 1, 3), r.1.value, f, Verdict(purpose, world, i + 1));
    EndsAfter(s, c, k, Consuming(f.about.caller, f.about.id, purpose), world, i, 3, f, Verdict(purpose, world, i + 1));
  }

  lemma SameEnding(r: (Store, Call, seq<Event>), g: Flow, f: Flow, verdict: (Outcome, string))
    requires EndsWith(r, g, verdict) && g.about == f.about && g.progress == f.progress
    ensures EndsWith(r, f, verdict)
  {
  }

  // ----- Complete -----

  /** Main result: an undisturbed Complete of a pending browser or manual flow, with the right state
      or none, ends it: failed for a provider's error or a failed exchange or save, and complete
      under the saved key otherwise. */
  lemma CompleteDecides(s: Store, c: Config, k: nat, f: Flow, input: CompleteInput, world: nat -> Choice)
    requires Inv(s) && f.about.id in s.flows && s.flows[f.about.id].flow == f && !Consumed(f) && !f.about.flowMethod.Device?
    requires (input.code != "" || input.error != "") && (input.state == "" || input.state == f.secrets.state)
    requires Calm(world, 0, 5, f.about.expiresAt) && world(0).offered
    ensures EndsWith(Alone(s, c, k, FirstCall(BeginComplete(k, f.about.caller, f.about.id, input)), world, 0, 5), f,
                     Verdict(if input.error != "" then ToEnd(OutcomeFailed) else ToExchange, world, 2))
  {
    hide Alone, EndsWith, Calm, Verdict, Inv;
    CalmAt(world, 0, 5, f.about.expiresAt, 0);
    CalmWithin(world, 0, 5, f.about.expiresAt, 1, 5);
    var purpose := if input.error != "" then ToEnd(OutcomeFailed) else ToExchange;
    TakeRecords(s, c, k, f, purpose, world, 1);
    GetsFlow(s, c, f, world(0).now);
    hide Owned;
    EndsAfter(s, c, k, Completing(f.about.caller, f.about.id, input), world, 0, 4, f, Verdict(purpose, world, 2));
  }

  lemma GetsFlow(s: Store, c: Config, f: Flow, now: Instant)
    requires Inv(s) && f.about.id in s.flows && s.flows[f.about.id].flow == f && now < f.about.expiresAt
    ensures Get(s, c, false, f.about.caller, f.about.id, now) == (s, Ok(f))
  {
    hide Inv;
  }

  // ----- Poll -----

  /** What an undisturbed poll makes of the answer: the flow's progress, and whether it is spent. */
  function Polled(p: Progress, world: nat -> Choice): (Progress, bool) {
    var claimed := p.(nextPollAt := world(0).clock + p.interval);
    match world(2).polled
    case PollSlowDown =>
      (p.(interval := p.interval + SLOW_DOWN_STEP, nextPollAt := world(0).clock + p.interval + SLOW_DOWN_STEP), false)
    case PollApproved => (claimed.(outcome := SaveVerdict(world(4)).0, credentialKey := SaveVerdict(world(4)).1), true)
    case PollDenied => (claimed.(outcome := OutcomeFailed, credentialKey := ""), true)
    case PollExpired => (claimed.(outcome := OutcomeExpired, credentialKey := ""), true)
    case _ => (claimed, false)
  }

  ghost predicate LeavesAs(r: (Store, Call, seq<Event>), f: Flow, progress: Progress, spent: bool) {
    && r.1 == Done && f.about.id in r.0.flows
    && var g := r.0.flows[f.about.id].flow;
       g.about == f.about && g.progress == progress && (Consumed(g) <==> spent)
  }

  /** Main result: an undisturbed Poll of a pending device flow whose time has come leaves it as the
      driver's answer says: pending with its next poll an interval away, slowed down by the step,
      failed, expired, or complete under the saved key. */
  lemma PollDecides(s: Store, c: Config, k: nat, f: Flow, world: nat -> Choice)
    requires Inv(s) && f.about.id in s.flows && s.flows[f.about.id].flow == f && !Consumed(f) && f.about.flowMethod.Device?
    requires Calm(world, 0, 7, f.about.expiresAt) && world(0).offered && world(0).clock >= f.progress.nextPollAt
    ensures LeavesAs(Alone(s, c, k, Polling(f.about.caller, f.about.id), world, 0, 7), f,
                     Polled(f.progress, world).0, Polled(f.progress, world).1)
  {
    hide Alone, LeavesAs, Calm, Polled, Inv, Owned;
    CalmAt(world, 0, 7, f.about.expiresAt, 0);
    GetsFlow(s, c, f, world(0).now);
    ClaimLeaves(s, c, k, f, world);
    LeavesAfter(s, c, k, Polling(f.about.caller, f.about.id), world, 0, 6, f, Polled(f.progress, world));
  }

  lemma LeavesAfter(s: Store, c: Config, k: nat, call: Call, world: nat -> Choice, i: nat, n: nat, f: Flow, p: (Progress, bool))
    requires var turn := Act(s, c, k, call, world(i)); LeavesAs(Alone(turn.store, c, k, turn.call, world, i + 1, n), f, p.0, p.1)
    ensures LeavesAs(Alone(s, c, k, call, world, i, n + 1), f, p.0, p.1)
  {
    hide Act, Alone;
    var turn := Act(s, c, k, call, world(i));
    StepThen(s, c, k, call, world, i, n, turn, Alone(turn.store, c, k, turn.call, world, i + 1, n));
  }

  lemma ClaimLeaves(s: Store, c: Config, k: nat, f: Flow, world: nat -> Choice)
    requires Stored(s, f) && !Consumed(f) && Calm(world, 0, 7, f.about.expiresAt)
    ensures LeavesAs(Alone(s, c, k, Claiming(f, world(0).clock), world, 1, 6), f, Polled(f.progress, world).0, Polled(f.progress, world).1)
  {
    hide Alone, LeavesAs, Calm, Polled, Update, Stored;
    CalmAt(world, 0, 7, f.about.expiresAt, 1);
    var progress := f.progress.(nextPollAt := world(0).clock + f.progress.interval);
    UpdateLands(s, c, f, progress, world(1).now);
    var r := Update(s, c, false, f.about.caller, f.about.id, f.revision, progress, world(1).now);
    AskLeaves(r.0, c, k, r.1.value, f.progress, world);
    SameLeaving(Alone(r.0, c, k, Asking(r.1.value, world(0).clock), world, 2, 5), r.1.value, f, Polled(f.progress, world));
    LeavesAfter(s, c, k, Claiming(f, world(0).clock), world, 1, 5, f, Polled(f.progress, world));
  }

  lemma SameLeaving(r: (Store, Call, seq<Event>), g: Flow, f: Flow, p: (Progress, bool))
    requires LeavesAs(r, g, p.0, p.1) && g.about == f.about
    ensures LeavesAs(r, f, p.0, p.1)
  {
  }

  lemma AskLeaves(s: Store, c: Config, k: nat, g: Flow, p: Progress, world: nat -> Choice)
    requires Stored(s, g) && !Consumed(g) && Calm(world, 0, 7, g.about.expiresAt)
    requires g.progress == p.(nextPollAt := world(0).clock + p.interval)
    ensures LeavesAs(Alone(s, c, k, Asking(g, world(0).clock), world, 2, 5), g, Polled(p, world).0, Polled(p, world).1)
  {
    hide Alone, Calm, SaveVerdict;
    CalmWithin(world, 0, 7, g.about.expiresAt, 3, 7);
    var now := world(0).clock;
    match world(2).polled {
      case PollSlowDown => SlowLeaves(s, c, k, g, p, world);
      case PollApproved => TakeLeaves(s, c, k, g, ToSave, world);
      case PollDenied => TakeLeaves(s, c, k, g, ToEnd(OutcomeFailed), world);
      case PollExpired => TakeLeaves(s, c, k, g, ToEnd(OutcomeExpired), world);
      case _ => DoneStays(s, c, k, world, 3, 4);
    }
    hide Stored, LeavesAs, Polled;
    LeavesAfter(s, c, k, Asking(g, now), world, 2, 4, g, Polled(p, world));
  }

  lemma TakeLeaves(s: Store, c: Config, k: nat, g: Flow, purpose: Purpose, world: nat -> Choice)
    requires Stored(s, g) && !Consumed(g) && Calm(world, 3, 7, g.about.expiresAt)
    ensures var v := Verdict(purpose, world, 4);
            LeavesAs(Alone(s, c, k, Consuming(g.about.caller, g.about.id, purpose), world, 3, 4), g,
                     g.progress.(outcome := v.0, credentialKey := v.1), true)
  {
    hide Alone, Calm, Verdict, Stored;
    TakeRecords(s, c, k, g, purpose, world, 3);
  }

  lemma SlowLeaves(s: Store, c: Config, k: nat, g: Flow, p: Progress, world: nat -> Choice)
    requires Stored(s, g) && !Consumed(g) && Calm(world, 3, 7, g.about.expiresAt)
    requires g.progress == p.(nextPollAt := world(0).clock + p.interval)
    ensures LeavesAs(Alone(s, c, k, Slowing(g, world(0).clock), world, 3, 4), g,
                     p.(interval := p.interval + SLOW_DOWN_STEP, nextPollAt := world(0).clock + p.interval + SLOW_DOWN_STEP), false)
  {
    hide Alone, Calm, Update;
    CalmAt(world, 3, 7, g.about.expiresAt, 3);
    var interval := g.progress.interval + SLOW_DOWN_STEP;
    var progress := g.progress.(interval := interval, nextPollAt := world(0).clock + interval);
    UpdateLands(s, c, g, progress, world(3).now);
    var turn := Act(s, c, k, Slowing(g, world(0).clock), world(3));
    DoneStays(turn.store, c, k, world, 4, 3);
    StepThen(s, c, k, Slowing(g, world(0).clock), world, 3, 3, turn, (turn.store, Done, []));
  }
}
