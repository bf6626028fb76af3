/** Runs of a flow store: any operations of any callers, in any order. */
module FlowRuns {
  import opened Options
  import opened FlowStore

  datatype Op =
    | CreateOp(flow: Flow, purgeAt: Instant, evictAt: Instant)
    | GetOp(caller: Caller, id: string, now: Instant)
    | ConsumeOp(caller: Caller, id: string, now: Instant, at: Instant)
    | UpdateOp(caller: Caller, id: string, revision: nat, progress: Progress, now: Instant)
    | ResolveOp(state: string, now: Instant)
    | Tick(now: Instant)                  // nothing but time passing

  datatype Answer = Created(created: Result<()>) | Returned(Result<Flow>) | Resolved(Result<(Caller, string)>) | Ticked

  predicate Stored(op: Op, answer: Answer) {
    op.CreateOp? && answer.Created? && answer.created.Ok?
  }

  /** The first and the last clock reading of an operation. */
  function First(op: Op): Instant {
    if op.CreateOp? then op.purgeAt else op.now
  }

  function Last(op: Op): Instant {
    if op.CreateOp? then op.evictAt else if op.ConsumeOp? then op.at else op.now
  }

  function Apply(s: Store, c: Config, op: Op): (Store, Answer) {
    match op
    case CreateOp(flow, purgeAt, evictAt) =>
      var r := Create(s, c, false, flow, purgeAt, evictAt); (r.0, Created(r.1))
    case GetOp(caller, id, now) =>
      var r := Get(s, c, false, caller, id, now); (r.0, Returned(r.1))
    case ConsumeOp(caller, id, now, at) =>
      var r := Consume(s, c, false, caller, id, now, at); (r.0, Returned(r.1))
    case UpdateOp(caller, id, revision, progress, now) =>
      var r := Update(s, c, false, caller, id, revision, progress, now); (r.0, Returned(r.1))
    case ResolveOp(state, now) =>
      var r := ResolveState(s, c, false, state, now); (r.0, Resolved(r.1))
    case Tick(_) => (s, Ticked)
  }

  const EMPTY := Store(map[], map[], 0, 0)

  ghost function Run(c: Config, ops: seq<Op>): Store {
    if ops == [] then EMPTY else Apply(Run(c, ops[..|ops| - 1]), c, ops[|ops| - 1]).0
  }

  ghost function Answers(c: Config, ops: seq<Op>): seq<Answer> {
    if ops == [] then []
    else
      var front := ops[..|ops| - 1];
      Answers(c, front) + [Apply(Run(c, front), c, ops[|ops| - 1]).1]
  }

  /** Clock readings never go back, and none is later than now. */
  ghost predicate Monotone(ops: seq<Op>, now: Time) {
    if ops == [] then true
    else
      var op := ops[|ops| - 1];
      First(op) <= Last(op) <= now && Monotone(ops[..|ops| - 1], First(op))
  }

  lemma ApplyKeeps(s: Store, c: Config, op: Op)
    requires Inv(s)
    ensures Inv(Apply(s, c, op).0)
  {
    hide Inv, Create, Consume, Update, ResolveState, Owned;
    match op
    case CreateOp(flow, purgeAt, evictAt) => CreateKeeps(s, c, false, flow, purgeAt, evictAt);
    case GetOp(caller, id, now) => OwnedKeeps(s, c, caller, id, now);
    case ConsumeOp(caller, id, now, at) => ConsumeKeeps(s, c, false, caller, id, now, at);
    case UpdateOp(caller, id, revision, progress, now) => UpdateKeeps(s, c, false, caller, id, revision, progress, now);
    case ResolveOp(state, now) => ResolveKeeps(s, c, false, state, now);
    case Tick(_) =>
  }

  /** Main result: the index invariant holds in every reachable store, whatever the clock. */
  lemma {:induction false} RunKeeps(c: Config, ops: seq<Op>)
    ensures Inv(Run(c, ops))
  {
    hide Apply;
    if ops != [] {
      RunKeeps(c, ops[..|ops| - 1]);
      ApplyKeeps(Run(c, ops[..|ops| - 1]), c, ops[|ops| - 1]);
    }
  }
}
