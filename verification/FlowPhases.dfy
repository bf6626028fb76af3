/** What the owner of a flow sees of it over time, and what anyone else sees. */
module FlowPhases {
  import opened Options
  import opened FlowStore
  import opened FlowRuns
  import FlowCap

  /** What Get answers about a flow: pending, consumed, expired or not found. */
  datatype Phase = Pending | Spent | Lapsed | Missing

  function PhaseOf(s: Store, c: Config, caller: Caller, id: string, now: Instant): Phase {
    match Get(s, c, false, caller, id, now).1
    case Ok(flow) => if Consumed(flow) then Spent else Pending
    case Err(FlowExpired) => Lapsed
    case Err(_) => Missing
  }

  function Rank(p: Phase): nat {
    match p
    case Pending => 0
    case Spent => 1
    case Lapsed => 2
    case Missing => 3
  }

  predicate By(op: Op, caller: Caller) {
    op.CreateOp? && op.flow.about.caller == caller
  }

  /** Step i of a run creates id. */
  ghost predicate Creates(c: Config, ops: seq<Op>, i: nat, id: string)
    requires i < |ops|
  {
    Stored(ops[i], Apply(Run(c, ops[..i]), c, ops[i]).1) && ops[i].flow.about.id == id
  }

  /** The same for an entry alone. */
  function EntryPhase(e: Entry, c: Config, caller: Caller, now: Time): Phase {
    if e.flow.about.caller != caller || Gone(e, now, c) then Missing
    else if Expired(e.flow, now) then Lapsed
    else if Consumed(e.flow) then Spent
    else Pending
  }

  lemma PhaseOfEntry(s: Store, c: Config, caller: Caller, id: string, now: Instant)
    ensures PhaseOf(s, c, caller, id, now) == if id in s.flows then EntryPhase(s.flows[id], c, caller, now) else Missing
  {
    hide Restrict, Wiped;
  }

  lemma DerivedPhase(e: Entry, d: Entry, c: Config, caller: Caller, now: Time, later: Time)
    requires Derives(e, d) && now <= later
    ensures Rank(EntryPhase(e, c, caller, now)) <= Rank(EntryPhase(d, c, caller, later))
  {
  }

  /** One step, and the time before and after it. */
  lemma StepNeverGoesBack(s: Store, c: Config, op: Op, caller: Caller, id: string, now: Instant, later: Instant)
    requires Inv(s) && now <= First(op) <= Last(op) <= later
    requires !(Stored(op, Apply(s, c, op).1) && op.flow.about.id == id)
    ensures Rank(PhaseOf(s, c, caller, id, now)) <= Rank(PhaseOf(Apply(s, c, op).0, c, caller, id, later))
  {
    hide Inv, Apply, Derives, PhaseOf, EntryPhase;
    PhaseOfEntry(s, c, caller, id, now);
    PhaseOfEntry(Apply(s, c, op).0, c, caller, id, later);
    if id in Apply(s, c, op).0.flows {
      FlowCap.ApplyDerives(s, c, op, id);
      DerivedPhase(s.flows[id], Apply(s, c, op).0.flows[id], c, caller, now, later);
    }
  }

  /** Main result: until the id is created anew, what a caller sees of a flow goes from pending
      through consumed and expired to not found, and never back, whatever happens in between. */
  lemma {:induction false} OwnerNeverGoesBack(c: Config, ops: seq<Op>, k: nat, caller: Caller, id: string, earlier: Instant, now: Instant)
    requires k <= |ops| && Monotone(ops, now) && earlier <= (if k < |ops| then First(ops[k]) else now)
    requires forall i :: k <= i < |ops| ==> !Creates(c, ops, i, id)
    ensures Rank(PhaseOf(Run(c, ops[..k]), c, caller, id, earlier)) <= Rank(PhaseOf(Run(c, ops), c, caller, id, now))
  {
    hide Inv, Apply, Creates, PhaseOf;
    RunKeeps(c, ops);
    if k == |ops| {
      assert ops[..k] == ops;
      TickNeverGoesBack(Run(c, ops), c, caller, id, earlier, now);
    } else {
      var front, op := ops[..|ops| - 1], ops[|ops| - 1];
      assert front[..k] == ops[..k];
      RunKeeps(c, front);
      forall i | k <= i < |front| ensures !Creates(c, front, i, id) {
        CreatesInFront(c, ops, i, id);
      }
      OwnerNeverGoesBack(c, front, k, caller, id, earlier, First(op));
      NotStored(c, ops, id);
      StepNeverGoesBack(Run(c, front), c, op, caller, id, First(op), now);
    }
  }

  lemma NotStored(c: Config, ops: seq<Op>, id: string)
    requires ops != [] && !Creates(c, ops, |ops| - 1, id)
    ensures !(Stored(ops[|ops| - 1], Apply(Run(c, ops[..|ops| - 1]), c, ops[|ops| - 1]).1) && ops[|ops| - 1].flow.about.id == id)
  {
    hide Apply, Run;
  }

  lemma CreatesInFront(c: Config, ops: seq<Op>, i: nat, id: string)
    requires i < |ops| - 1
    ensures Creates(c, ops, i, id) == Creates(c, ops[..|ops| - 1], i, id)
  {
    hide Apply, Run;
    assert ops[..|ops| - 1][..i] == ops[..i];
  }

  lemma TickNeverGoesBack(s: Store, c: Config, caller: Caller, id: string, now: Instant, later: Instant)
    requires Inv(s) && now <= later
    ensures Rank(PhaseOf(s, c, caller, id, now)) <= Rank(PhaseOf(s, c, caller, id, later))
  {
    hide Inv, PhaseOf;
    StepNeverGoesBack(s, c, Tick(now), caller, id, now, later);
  }

  /** Main result: a caller sees of an id something other than not found only after creating it. */
  lemma {:induction false} StrangersFindNothing(c: Config, ops: seq<Op>, caller: Caller, id: string, now: Instant)
    requires forall i :: 0 <= i < |ops| && Creates(c, ops, i, id) ==> !By(ops[i], caller)
    ensures PhaseOf(Run(c, ops), c, caller, id, now) == Missing
    ensures id in Run(c, ops).flows ==> Run(c, ops).flows[id].flow.about.caller != caller
  {
    hide Inv, Apply, Creates, PhaseOf;
    if ops != [] {
      var front, op := ops[..|ops| - 1], ops[|ops| - 1];
      forall i | 0 <= i < |front| && Creates(c, front, i, id) ensures !By(front[i], caller) {
        CreatesInFront(c, ops, i, id);
      }
      StrangersFindNothing(c, front, caller, id, now);
      RunKeeps(c, front);
      StrangerStep(c, ops, caller, id);
    }
    PhaseOfEntry(Run(c, ops), c, caller, id, now);
  }

  lemma StrangerStep(c: Config, ops: seq<Op>, caller: Caller, id: string)
    requires ops != [] && Inv(Run(c, ops[..|ops| - 1]))
    requires Creates(c, ops, |ops| - 1, id) ==> !By(ops[|ops| - 1], caller)
    requires var s := Run(c, ops[..|ops| - 1]); id in s.flows ==> s.flows[id].flow.about.caller != caller
    ensures id in Run(c, ops).flows ==> Run(c, ops).flows[id].flow.about.caller != caller
  {
    hide Inv, Apply;
    var s, op := Run(c, ops[..|ops| - 1]), ops[|ops| - 1];
    if Creates(c, ops, |ops| - 1, id) {
      FlowCap.CreatedIsOwned(s, c, op);
    } else if id in Run(c, ops).flows {
      FlowCap.ApplyDerives(s, c, op, id);
    }
  }
}
