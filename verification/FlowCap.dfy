/** The cap on a caller's pending flows, and which flow makes room for a new one. */
module FlowCap {
  import opened Options
  import opened FlowStore
  import opened FlowRuns

  /** Created first of the set, and inserted first of those created at the same time. */
  ghost predicate IsOldest(s: Store, ids: set<string>, id: string) {
    && id in ids && id in s.flows
    && forall other :: other in ids && other in s.flows && other != id ==>
         var (a, b) := (s.flows[id], s.flows[other]);
         || a.flow.about.createdAt < b.flow.about.createdAt
         || (a.flow.about.createdAt == b.flow.about.createdAt && a.sequence <= b.sequence)
  }

  /** Pending are the caller's own flows that are neither consumed nor expired. */
  lemma PendingExactly(s: Store, caller: Caller, now: Time)
    ensures forall id :: id in PendingIds(s, caller, now) <==>
                         && id in s.flows && s.flows[id].flow.about.caller == caller && s.flows[id].flow.consumedAt == NEVER
                         && now < s.flows[id].flow.about.expiresAt
  {
  }

  lemma OldestIsOldest(s: Store, ids: set<string>, id: string)
    requires IsOldest(s, ids, id)
    ensures forall other :: other in ids && other in s.flows && other != id ==> !Older(s.flows[other], s.flows[id])
  {
  }

  lemma OldestIsStored(s: Store, ids: set<string>, id: string)
    requires IsOldest(s, ids, id)
    ensures id in ids && id in s.flows
  {
  }

  /** The oldest of one flow more. */
  lemma OldestOf(s: Store, ids: set<string>, oldest: Option<string>, id: string)
    requires id in s.flows && (oldest.None? <==> ids == {}) && (oldest.Some? ==> IsOldest(s, ids, oldest.value))
    ensures oldest.Some? ==> oldest.value in s.flows
    ensures IsOldest(s, ids + {id}, if oldest == None || Older(s.flows[id], s.flows[oldest.value]) then id else oldest.value)
  {
  }

  lemma OlderIsTotal(s: Store, a: string, b: string)
    requires Inv(s) && a in s.flows && b in s.flows && a != b
    ensures Older(s.flows[a], s.flows[b]) <==> !Older(s.flows[b], s.flows[a])
  {
    assert Distinct(s.flows[a], s.flows[b]);
  }

  lemma Subset(a: set<string>, b: set<string>)
    requires a <= b
    ensures |a| <= |b|
  {
    assert b == a + (b - a);
  }

  lemma {:induction false} OldestExists(s: Store, ids: set<string>) returns (id: string)
    requires ids != {} && ids <= s.flows.Keys
    ensures IsOldest(s, ids, id)
    decreases ids
  {
    hide IsOldest, Older;
    var one :| one in ids;
    var rest := ids - {one};
    assert rest + {one} == ids;
    if rest == {} {
      OldestOf(s, rest, None, one);
      id := one;
    } else {
      var oldest := OldestExists(s, rest);
      OldestOf(s, rest, Some(oldest), one);
      id := if Older(s.flows[one], s.flows[oldest]) then one else oldest;
    }
  }

  /** Every other flow of the set is newer than its oldest. */
  lemma OldestHasNewer(s: Store, ids: set<string>, caller: Caller, now: Time, id: string)
    requires Inv(s) && IsOldest(s, ids, id) && ids <= PendingIds(s, caller, now)
    ensures ids - {id} <= NewerPending(s, caller, now, id)
    ensures |NewerPending(s, caller, now, id)| >= |ids| - 1
  {
    hide Inv, PendingFor;
    forall other | other in ids - {id} ensures Older(s.flows[id], s.flows[other]) {
      OlderIsTotal(s, id, other);
    }
    hide Older;
    Subset(ids - {id}, NewerPending(s, caller, now, id));
  }

  // ----- Eviction -----

  lemma PendingAfterEvict(s: Store, caller: Caller, now: Time, c: Config)
    ensures PendingIds(Evict(s, caller, now, c), caller, now) == PendingIds(s, caller, now) - Evicted(s, caller, now, c)
  {
    hide PendingFor, Evicted;
  }

  lemma NotEvicted(s: Store, caller: Caller, now: Time, c: Config, id: string)
    requires c.maxFlows > 0 && id in PendingIds(s, caller, now)
    ensures id in Evicted(s, caller, now, c) <==> |NewerPending(s, caller, now, id)| >= c.maxFlows - 1
  {
    hide PendingFor, NewerPending;
  }

  /** Eviction makes room for one more. */
  lemma EvictMakesRoom(s: Store, caller: Caller, now: Time, c: Config)
    requires Inv(s) && c.maxFlows > 0
    ensures |PendingIds(Evict(s, caller, now, c), caller, now)| <= c.maxFlows - 1
  {
    hide Inv, IsOldest, Evicted, NewerPending, PendingIds;
    PendingAfterEvict(s, caller, now, c);
    PendingStored(s, caller, now);
    var kept := PendingIds(s, caller, now) - Evicted(s, caller, now, c);
    if kept != {} {
      var id := OldestExists(s, kept);
      OldestIsStored(s, kept, id);
      OldestHasNewer(s, kept, caller, now, id);
      NotEvicted(s, caller, now, c, id);
    }
  }

  lemma PendingStored(s: Store, caller: Caller, now: Time)
    ensures PendingIds(s, caller, now) <= s.flows.Keys
  {
  }

  /** In a store within the cap eviction removes nothing while there is room, and otherwise
      exactly the oldest pending flow of that caller, whatever order a map yields them in. */
  lemma EvictsExactlyTheOldest(s: Store, caller: Caller, now: Time, c: Config)
    requires Inv(s) && c.maxFlows > 0 && |PendingIds(s, caller, now)| <= c.maxFlows
    ensures |PendingIds(s, caller, now)| < c.maxFlows ==> Evicted(s, caller, now, c) == {}
    ensures |PendingIds(s, caller, now)| == c.maxFlows ==>
              exists id :: IsOldest(s, PendingIds(s, caller, now), id) && Evicted(s, caller, now, c) == {id}
  {
    hide Inv, IsOldest, Evicted, NewerPending;
    var pending := PendingIds(s, caller, now);
    EvictedPending(s, caller, now, c);
    forall id | id in pending && id in Evicted(s, caller, now, c) ensures IsOldest(s, pending, id) && |pending| == c.maxFlows {
      NotEvicted(s, caller, now, c, id);
      ManyNewerIsOldest(s, caller, now, id);
    }
    if |pending| == c.maxFlows {
      var id := OldestExists(s, pending);
      OldestIsStored(s, pending, id);
      OldestHasNewer(s, pending, caller, now, id);
      NotEvicted(s, caller, now, c, id);
      forall other | other in Evicted(s, caller, now, c) ensures other == id {
        OneOldest(s, pending, id, other);
      }
      assert Evicted(s, caller, now, c) == {id};
    }
  }

  lemma EvictedPending(s: Store, caller: Caller, now: Time, c: Config)
    ensures Evicted(s, caller, now, c) <= PendingIds(s, caller, now)
  {
    hide PendingFor, NewerPending;
  }

  /** A flow with all the others newer than it is the oldest. */
  lemma ManyNewerIsOldest(s: Store, caller: Caller, now: Time, id: string)
    requires id in PendingIds(s, caller, now)
    ensures |NewerPending(s, caller, now, id)| <= |PendingIds(s, caller, now)| - 1
    ensures |NewerPending(s, caller, now, id)| == |PendingIds(s, caller, now)| - 1 ==> IsOldest(s, PendingIds(s, caller, now), id)
  {
    var pending, newer := PendingIds(s, caller, now), NewerPending(s, caller, now, id);
    Subset(newer, pending - {id});
    assert |pending - {id}| == |pending| - 1;
    if |newer| == |pending - {id}| {
      SameSize(newer, pending - {id});
      forall other | other in pending && other != id ensures !Older(s.flows[other], s.flows[id]) {
        assert other in newer;
      }
    }
  }

  lemma SameSize(a: set<string>, b: set<string>)
    requires a <= b && |a| == |b|
    ensures a == b
  {
    assert b == a + (b - a);
  }

  lemma OneOldest(s: Store, ids: set<string>, a: string, b: string)
    requires Inv(s) && IsOldest(s, ids, a) && IsOldest(s, ids, b)
    ensures a == b
  {
    hide Inv;
    if a != b {
      OlderIsTotal(s, a, b);
    }
  }

  // ----- The cap, over runs -----

  ghost predicate Capped(s: Store, c: Config, t: Time) {
    c.maxFlows > 0 ==> forall caller :: |PendingIds(s, caller, t)| <= c.maxFlows
  }

  /** Except for the flow Create stores, a flow pending after an operation was pending before. */
  lemma PendingWasPending(s: Store, t: Store, caller: Caller, now: Time, later: Time, added: string)
    requires now <= later
    requires forall id :: id in t.flows && id != added ==> id in s.flows && Derives(s.flows[id], t.flows[id])
    ensures PendingIds(t, caller, later) - {added} <= PendingIds(s, caller, now)
  {
    hide Derives;
    forall id | id in PendingIds(t, caller, later) - {added} ensures id in PendingIds(s, caller, now) {
      DerivedWasPending(s.flows[id], t.flows[id], caller, now, later);
    }
  }

  lemma DerivedWasPending(e: Entry, d: Entry, caller: Caller, now: Time, later: Time)
    requires Derives(e, d) && now <= later && PendingFor(d, caller, later)
    ensures PendingFor(e, caller, now)
  {
  }

  /** What any operation makes of the flows it does not create. */
  lemma ApplyDerives(s: Store, c: Config, op: Op, id: string)
    requires Inv(s) && id in Apply(s, c, op).0.flows && !(Stored(op, Apply(s, c, op).1) && id == op.flow.about.id)
    ensures id in s.flows && Derives(s.flows[id], Apply(s, c, op).0.flows[id])
  {
    hide Inv, Derives, Create, Consume, Update, ResolveState, Owned;
    match op
    case CreateOp(flow, purgeAt, evictAt) => CreateDerives(s, c, flow, purgeAt, evictAt, id);
    case GetOp(caller, i, now) => OwnedFollows(s, c, caller, i, now);
    case ConsumeOp(caller, i, now, at) => ConsumeFollows(s, c, false, caller, i, now, at);
    case UpdateOp(caller, i, revision, progress, now) => UpdateFollows(s, c, false, caller, i, revision, progress, now);
    case ResolveOp(state, now) => ResolveFollows(s, c, false, state, now);
    case Tick(_) => DerivesSelf(s.flows[id]);
  }

  lemma DerivesSelf(e: Entry)
    ensures Derives(e, e)
  {
  }

  lemma CreateDerives(s: Store, c: Config, flow: Flow, purgeAt: Instant, evictAt: Instant, id: string)
    requires Inv(s)
    requires var r := Create(s, c, false, flow, purgeAt, evictAt); id in r.0.flows && !(r.1.Ok? && id == flow.about.id)
    ensures id in s.flows && Derives(s.flows[id], Create(s, c, false, flow, purgeAt, evictAt).0.flows[id])
  {
    hide Inv, Derives, PurgeIn, Evicted, Blank, ValidCaller, StateKeyOf;
    var purged := Purge(s, purgeAt, c);
    PurgeFollows(s, s.flows.Keys, purgeAt, c, "");
    if id in s.flows { DerivesSelf(s.flows[id]); }
    assert id in purged.flows ==> id in s.flows && Derives(s.flows[id], purged.flows[id]);
    var r := Create(s, c, false, flow, purgeAt, evictAt);
    if r.1.Ok? {
      assert r.0.flows[id] == purged.flows[id];
    }
  }

  /** The flow has expired, and so has its retention. */
  predicate PastRetention(e: Entry, now: Time, c: Config) {
    now >= e.flow.about.expiresAt && now >= e.flow.about.expiresAt + c.retention
  }

  lemma GoneExactly(e: Entry, now: Time, c: Config)
    ensures Gone(e, now, c) <==> PastRetention(e, now, c)
  {
  }

  /** Create forgets a flow only if it is past its retention or, when it lands, to make room for
      another pending flow of the same caller. */
  lemma CreateForgetsNothingElse(s: Store, c: Config, ended: bool, flow: Flow, purgeAt: Instant, evictAt: Instant, id: string)
    requires id in s.flows && id !in Create(s, c, ended, flow, purgeAt, evictAt).0.flows
    ensures PastRetention(s.flows[id], purgeAt, c)
            || (&& Create(s, c, ended, flow, purgeAt, evictAt).1.Ok? && c.maxFlows > 0
                && var f := s.flows[id].flow;
                   f.about.caller == flow.about.caller && f.consumedAt == NEVER && evictAt < f.about.expiresAt)
  {
    GoneExactly(s.flows[id], purgeAt, c);
    hide Blank, ValidCaller, StateKeyOf, Gone, NewerPending;
    var purged := Purge(s, purgeAt, c);
    if id in purged.flows {
      PurgedPending(s, purgeAt, c, id, flow.about.caller, evictAt);
      EvictedPending(purged, flow.about.caller, evictAt, c);
      hide PurgeIn, Evicted, PendingFor;
      assert id in Evicted(purged, flow.about.caller, evictAt, c);
    }
  }

  lemma PurgedPending(s: Store, now: Time, c: Config, id: string, caller: Caller, later: Time)
    requires id in Purge(s, now, c).flows
    ensures id in s.flows && PendingFor(Purge(s, now, c).flows[id], caller, later) == PendingFor(s.flows[id], caller, later)
  {
    hide Gone;
  }

  lemma CreateCaps(s: Store, c: Config, flow: Flow, purgeAt: Instant, evictAt: Instant, later: Time)
    requires Inv(s) && c.maxFlows > 0 && evictAt <= later && Create(s, c, false, flow, purgeAt, evictAt).1.Ok?
    ensures |PendingIds(Create(s, c, false, flow, purgeAt, evictAt).0, flow.about.caller, later)| <= c.maxFlows
  {
    hide Inv, PurgeIn, Blank, ValidCaller, StateKeyOf, Evicted, Derives, PendingIds;
    var purged := Purge(s, purgeAt, c);
    PurgeKeeps(s, s.flows.Keys, purgeAt, c);
    var caller := flow.about.caller;
    EvictMakesRoom(purged, caller, evictAt, c);
    var room, after := Evict(purged, caller, evictAt, c), Create(s, c, false, flow, purgeAt, evictAt).0;
    var id := flow.about.id;
    forall i | i in after.flows && i != id ensures i in room.flows && Derives(room.flows[i], after.flows[i]) {
      DerivesSelf(room.flows[i]);
    }
    PendingWasPending(room, after, caller, evictAt, later, id);
    var pending := PendingIds(after, caller, later);
    Subset(pending - {id}, PendingIds(room, caller, evictAt));
    assert |pending| <= |pending - {id}| + 1 by {
      assert pending <= (pending - {id}) + {id};
      Subset(pending, (pending - {id}) + {id});
    }
  }

  lemma ApplyCaps(s: Store, c: Config, op: Op, now: Time, later: Time)
    requires Inv(s) && Capped(s, c, now) && now <= First(op) <= Last(op) <= later
    ensures Capped(Apply(s, c, op).0, c, later)
  {
    hide Inv, Derives, PendingIds, Apply;
    var t := Apply(s, c, op).0;
    var created := Stored(op, Apply(s, c, op).1);
    var added := if created then op.flow.about.id else "";
    if c.maxFlows > 0 {
      forall caller ensures |PendingIds(t, caller, later)| <= c.maxFlows {
        if created && caller == op.flow.about.caller {
          CreatedCaps(s, c, op, later);
        } else {
          forall id | id in t.flows && !(created && id == op.flow.about.id) ensures id in s.flows && Derives(s.flows[id], t.flows[id]) {
            ApplyDerives(s, c, op, id);
          }
          OthersShrink(s, c, op, caller, now, later);
          Subset(PendingIds(t, caller, later), PendingIds(s, caller, now));
        }
      }
    }
  }

  lemma CreatedCaps(s: Store, c: Config, op: Op, later: Time)
    requires Inv(s) && c.maxFlows > 0 && Stored(op, Apply(s, c, op).1) && op.evictAt <= later
    ensures |PendingIds(Apply(s, c, op).0, op.flow.about.caller, later)| <= c.maxFlows
  {
    hide Inv, Create, PendingIds;
    CreateCaps(s, c, op.flow, op.purgeAt, op.evictAt, later);
  }

  lemma OthersShrink(s: Store, c: Config, op: Op, caller: Caller, now: Time, later: Time)
    requires Inv(s) && now <= later
    requires var t := Apply(s, c, op).0;
             var created := Stored(op, Apply(s, c, op).1);
             && (created ==> caller != op.flow.about.caller)
             && forall id :: id in t.flows && !(created && id == op.flow.about.id) ==> id in s.flows && Derives(s.flows[id], t.flows[id])
    ensures PendingIds(Apply(s, c, op).0, caller, later) <= PendingIds(s, caller, now)
  {
    hide Inv, Derives;
    var t := Apply(s, c, op).0;
    var created := Stored(op, Apply(s, c, op).1);
    if created {
      CreatedIsOwned(s, c, op);
    }
    hide Apply;
    forall id | id in PendingIds(t, caller, later) ensures id in PendingIds(s, caller, now) {
      assert !(created && id == op.flow.about.id);
      DerivedWasPending(s.flows[id], t.flows[id], caller, now, later);
    }
  }

  lemma CreatedIsOwned(s: Store, c: Config, op: Op)
    requires Stored(op, Apply(s, c, op).1)
    ensures var t := Apply(s, c, op).0;
            op.flow.about.id in t.flows && t.flows[op.flow.about.id].flow.about == op.flow.about
  {
    hide Purge, Evict, Blank, ValidCaller, StateKeyOf;
  }

  /** Main result: under a monotone clock no caller ever has more than the cap pending. */
  lemma {:induction false} CapHolds(c: Config, ops: seq<Op>, now: Time)
    requires Monotone(ops, now)
    ensures Capped(Run(c, ops), c, now)
  {
    hide Apply, Inv, Capped;
    if ops == [] {
      EmptyIsCapped(c, now);
    } else {
      var front, op := ops[..|ops| - 1], ops[|ops| - 1];
      CapHolds(c, front, First(op));
      FlowRuns.RunKeeps(c, front);
      ApplyCaps(Run(c, front), c, op, First(op), now);
    }
  }

  /** Main result: under a monotone clock a Create that lands forgets, besides flows past their
      retention, nothing while its caller has room, and otherwise exactly the caller's least pending
      flow by CreatedAt and sequence. */
  lemma CreateEvictsTheOldest(c: Config, ops: seq<Op>, now: Time)
    requires Monotone(ops, now) && c.maxFlows > 0 && ops != []
    requires var n := |ops| - 1; Stored(ops[n], Apply(Run(c, ops[..n]), c, ops[n]).1)
    ensures var op := ops[|ops| - 1];
            var s, t := Run(c, ops[..|ops| - 1]), Run(c, ops);
            var pending := PendingIds(s, op.flow.about.caller, op.evictAt);
            && |pending| <= c.maxFlows
            && (|pending| < c.maxFlows ==> forall id :: id in s.flows && id !in t.flows ==> PastRetention(s.flows[id], op.purgeAt, c))
            && (|pending| == c.maxFlows ==>
                  exists oldest :: IsOldest(s, pending, oldest) && oldest !in t.flows
                                   && forall id :: id in s.flows && id !in t.flows && id != oldest ==> PastRetention(s.flows[id], op.purgeAt, c))
  {
    hide Inv, Capped, PendingIds, Gone, Create, IsOldest, PastRetention;
    var n := |ops| - 1;
    var op, s := ops[n], Run(c, ops[..n]);
    var caller := op.flow.about.caller;
    FlowRuns.RunKeeps(c, ops[..n]);
    LaterMonotone(ops[..n], op.purgeAt, op.evictAt);
    CapHolds(c, ops[..n], op.evictAt);
    CappedCaller(s, c, op.evictAt, caller);
    hide Run, Monotone;
    var purged := Purge(s, op.purgeAt, c);
    PurgeKeeps(s, s.flows.Keys, op.purgeAt, c);
    PurgeLeavesPending(s, c, op.purgeAt, op.evictAt, caller);
    EvictsExactlyTheOldest(purged, caller, op.evictAt, c);
    CreatedFlows(s, c, op);
    hide PurgeIn, Evicted;
    var pending := PendingIds(s, caller, op.evictAt);
    if |pending| == c.maxFlows {
      var oldest :| IsOldest(purged, PendingIds(purged, caller, op.evictAt), oldest) && Evicted(purged, caller, op.evictAt, c) == {oldest};
      OldestIsStored(purged, pending, oldest);
      PendingStored(purged, caller, op.evictAt);
      OldestBeforePurge(s, c, op.purgeAt, pending, oldest);
    }
  }

  lemma LaterMonotone(ops: seq<Op>, now: Time, later: Time)
    requires Monotone(ops, now) && now <= later
    ensures Monotone(ops, later)
  {
  }

  lemma CappedCaller(s: Store, c: Config, t: Time, caller: Caller)
    requires Capped(s, c, t) && c.maxFlows > 0
    ensures |PendingIds(s, caller, t)| <= c.maxFlows
  {
    hide PendingIds;
  }

  /** A purge leaves every flow that is pending then, or later, as it is. */
  lemma PurgeLeavesPending(s: Store, c: Config, now: Time, later: Time, caller: Caller)
    requires now <= later
    ensures PendingIds(Purge(s, now, c), caller, later) == PendingIds(s, caller, later)
    ensures forall id :: id in Purge(s, now, c).flows <==> id in s.flows && !PastRetention(s.flows[id], now, c)
  {
    forall id | id in s.flows ensures Gone(s.flows[id], now, c) <==> PastRetention(s.flows[id], now, c) {
    }
    forall id | id in PendingIds(s, caller, later) ensures !Expired(s.flows[id].flow, now) && !Gone(s.flows[id], now, c) {
    }
    hide Gone, PastRetention;
  }

  /** Of the purged flows a landed Create drops exactly the evicted ones. */
  lemma CreatedFlows(s: Store, c: Config, op: Op)
    requires Stored(op, Apply(s, c, op).1)
    ensures var purged := Purge(s, op.purgeAt, c);
            && op.flow.about.id !in purged.flows
            && forall id :: id in purged.flows ==>
                 (id in Apply(s, c, op).0.flows <==> id !in Evicted(purged, op.flow.about.caller, op.evictAt, c))
  {
    hide PurgeIn, Evicted, Blank, ValidCaller, StateKeyOf;
  }

  /** Purging does not change which flow is the oldest. */
  lemma OldestBeforePurge(s: Store, c: Config, now: Time, ids: set<string>, oldest: string)
    requires ids <= Purge(s, now, c).flows.Keys && IsOldest(Purge(s, now, c), ids, oldest)
    ensures IsOldest(s, ids, oldest)
  {
    hide Gone;
  }

  lemma EmptyIsCapped(c: Config, now: Time)
    ensures Capped(EMPTY, c, now)
  {
    forall caller ensures PendingIds(EMPTY, caller, now) == {} {
    }
  }
}
