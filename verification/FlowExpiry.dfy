/** Lazy expiry refines eager expiry: a store that purges only what it happens to look at
    answers like one that wipes and purges at every instant. */
module FlowExpiry {
  import opened Options
  import opened FlowStore
  import opened FlowRuns

  predicate Held(s: Store, c: Config, id: string, t: Time) {
    id in s.flows && !Gone(s.flows[id], t, c)
  }

  /** What is left of an entry for anyone who looks from t on. */
  function Seen(e: Entry, t: Time): Entry {
    if Expired(e.flow, t) then Wiped(e) else e
  }

  predicate SameEntry(a: Store, b: Store, c: Config, id: string, t: Time) {
    && (Held(a, c, id, t) <==> Held(b, c, id, t))
    && (Held(a, c, id, t) ==> Seen(a.flows[id], t) == Seen(b.flows[id], t))
  }

  predicate Points(s: Store, c: Config, h: Hash, t: Time) {
    h in s.states && Held(s, c, s.states[h], t)
  }

  predicate SameState(a: Store, b: Store, c: Config, h: Hash, t: Time) {
    && (Points(a, c, h, t) <==> Points(b, c, h, t))
    && (Points(a, c, h, t) ==> a.states[h] == b.states[h])
  }

  /** Two stores no operation can tell apart from t on. */
  ghost predicate SameFrom(a: Store, b: Store, c: Config, t: Time) {
    && a.revision == b.revision && a.sequence == b.sequence
    && (forall id :: SameEntry(a, b, c, id, t))
    && (forall h :: SameState(a, b, c, h, t))
  }

  /** Time only makes stores more alike. */
  lemma LaterSame(a: Store, b: Store, c: Config, t: Time, t': Time)
    requires SameFrom(a, b, c, t) && t <= t'
    ensures SameFrom(a, b, c, t')
  {
    forall id ensures SameEntry(a, b, c, id, t') {
      assert SameEntry(a, b, c, id, t);
    }
    forall h ensures SameState(a, b, c, h, t') {
      assert SameState(a, b, c, h, t);
      if h in a.states { assert SameEntry(a, b, c, a.states[h], t'); }
      if h in b.states { assert SameEntry(a, b, c, b.states[h], t'); }
    }
  }

  lemma SameSymmetric(a: Store, b: Store, c: Config, t: Time)
    requires SameFrom(a, b, c, t)
    ensures SameFrom(b, a, c, t)
  {
    hide Held, Points, Seen;
    forall id ensures SameEntry(b, a, c, id, t) {
      assert SameEntry(a, b, c, id, t);
      PointsAlike(a, b, c, ZeroHash, id, t);
    }
    forall h ensures SameState(b, a, c, h, t) {
      assert SameState(a, b, c, h, t);
    }
  }

  lemma PointsAlike(a: Store, b: Store, c: Config, h: Hash, id: string, t: Time)
    requires SameEntry(a, b, c, id, t)
    ensures SameEntry(b, a, c, id, t)
  {
  }

  lemma SameTransitive(a: Store, b: Store, d: Store, c: Config, t: Time)
    requires SameFrom(a, b, c, t) && SameFrom(b, d, c, t)
    ensures SameFrom(a, d, c, t)
  {
    hide Points, Seen, Gone;
    forall id ensures SameEntry(a, d, c, id, t) {
      assert SameEntry(a, b, c, id, t) && SameEntry(b, d, c, id, t);
    }
    forall h ensures SameState(a, d, c, h, t) {
      assert SameState(a, b, c, h, t) && SameState(b, d, c, h, t);
      PointsIsStored(a, c, h, t);
      PointsIsStored(b, c, h, t);
      PointsIsStored(d, c, h, t);
    }
  }

  lemma PointsIsStored(s: Store, c: Config, h: Hash, t: Time)
    ensures Points(s, c, h, t) ==> h in s.states
  {
  }

  lemma SameReflexive(s: Store, c: Config, t: Time)
    ensures SameFrom(s, s, c, t)
  {
  }

  // ----- What a look-up leaves behind is invisible -----

  lemma RemoveGone(s: Store, c: Config, id: string, t: Time)
    requires id in s.flows && Gone(s.flows[id], t, c)
    ensures SameFrom(s, Remove(s, id), c, t)
  {
    hide Gone, Seen;
    var r := Remove(s, id);
    forall i ensures SameEntry(s, r, c, i, t) {
    }
    forall h ensures SameState(s, r, c, h, t) {
    }
  }

  lemma WipedSeen(e: Entry, c: Config, t: Time)
    requires Expired(e.flow, t)
    ensures Seen(Wiped(e), t) == Seen(e, t) && (Gone(Wiped(e), t, c) <==> Gone(e, t, c))
  {
  }

  lemma WipeExpired(s: Store, c: Config, id: string, t: Time)
    requires id in s.flows && Expired(s.flows[id].flow, t)
    ensures SameFrom(s, s.(flows := s.flows[id := Wiped(s.flows[id])]), c, t)
  {
    WipedSeen(s.flows[id], c, t);
    hide Gone, Seen, Wiped, Expired;
    var w := s.(flows := s.flows[id := Wiped(s.flows[id])]);
    forall i ensures SameEntry(s, w, c, i, t) {
    }
    forall h ensures SameState(s, w, c, h, t) {
    }
  }

  lemma OwnedInvisible(s: Store, c: Config, caller: Caller, id: string, now: Instant)
    ensures SameFrom(s, Owned(s, c, caller, id, now).0, c, now)
  {
    hide SameFrom, Restrict, Wiped, Gone, Expired;
    SameReflexive(s, c, now);
    if id in s.flows {
      if Gone(s.flows[id], now, c) { RemoveGone(s, c, id, now); }
      if Expired(s.flows[id].flow, now) { WipeExpired(s, c, id, now); }
    }
  }

  lemma OwnedSame(a: Store, b: Store, c: Config, caller: Caller, id: string, now: Instant)
    requires SameFrom(a, b, c, now)
    ensures Owned(a, c, caller, id, now).1 == Owned(b, c, caller, id, now).1
    ensures SameFrom(Owned(a, c, caller, id, now).0, Owned(b, c, caller, id, now).0, c, now)
  {
    OwnedInvisible(a, c, caller, id, now);
    OwnedInvisible(b, c, caller, id, now);
    var a', b' := Owned(a, c, caller, id, now).0, Owned(b, c, caller, id, now).0;
    SameSymmetric(a, a', c, now);
    SameTransitive(a', a, b, c, now);
    SameTransitive(a', b, b', c, now);
    OwnedAnswers(a, b, c, caller, id, now);
    hide Owned, SameFrom;
  }

  lemma OwnedAnswers(a: Store, b: Store, c: Config, caller: Caller, id: string, now: Instant)
    requires SameFrom(a, b, c, now)
    ensures Owned(a, c, caller, id, now).1 == Owned(b, c, caller, id, now).1
    ensures Owned(a, c, caller, id, now).1.Ok? ==>
              Held(a, c, id, now) && Held(b, c, id, now) && id in a.flows && id in b.flows && a.flows[id] == b.flows[id] == Owned(a, c, caller, id, now).1.value
              && !Expired(a.flows[id].flow, now) && Owned(a, c, caller, id, now).0 == a && Owned(b, c, caller, id, now).0 == b
  {
    assert SameEntry(a, b, c, id, now);
    if id in a.flows { SeenAbout(a.flows[id], c, now); }
    if id in b.flows { SeenAbout(b.flows[id], c, now); }
    hide SameFrom, Restrict, Wiped, Gone, Expired, Seen;
  }

  lemma SeenAbout(e: Entry, c: Config, t: Time)
    ensures Seen(e, t).flow.about == e.flow.about
    ensures Expired(e.flow, t) <==> t >= e.flow.about.expiresAt
    ensures Gone(e, t, c) ==> Expired(e.flow, t)
    ensures Gone(e, t, c) <==> t >= e.flow.about.expiresAt && t - e.flow.about.expiresAt >= c.retention
    ensures !Expired(e.flow, t) ==> Seen(e, t) == e
  {
  }

  /** Writing the same entry into two like stores, and taking the same states out. */
  lemma WriteSame(a: Store, b: Store, c: Config, t: Time, id: string, e: Entry, keys: set<Hash>, revision: nat)
    requires SameFrom(a, b, c, t) && Held(a, c, id, t) && !Gone(e, t, c)
    ensures SameFrom(Store(a.flows[id := e], a.states - keys, revision, a.sequence),
                     Store(b.flows[id := e], b.states - keys, revision, b.sequence), c, t)
  {
    hide Seen, Gone;
    var a' := Store(a.flows[id := e], a.states - keys, revision, a.sequence);
    var b' := Store(b.flows[id := e], b.states - keys, revision, b.sequence);
    assert SameEntry(a, b, c, id, t);
    forall i ensures SameEntry(a', b', c, i, t) {
      assert SameEntry(a, b, c, i, t);
    }
    forall h ensures SameState(a', b', c, h, t) {
      assert SameState(a, b, c, h, t);
    }
  }

  lemma ConsumeSame(a: Store, b: Store, c: Config, caller: Caller, id: string, now: Instant, at: Instant)
    requires SameFrom(a, b, c, now)
    ensures Consume(a, c, false, caller, id, now, at).1 == Consume(b, c, false, caller, id, now, at).1
    ensures SameFrom(Consume(a, c, false, caller, id, now, at).0, Consume(b, c, false, caller, id, now, at).0, c, now)
  {
    hide SameFrom, Owned, Held, Gone, Expired;
    OwnedSame(a, b, c, caller, id, now);
    OwnedAnswers(a, b, c, caller, id, now);
    SameCounters(a, b, c, now);
    if Owned(a, c, caller, id, now).1.Ok? {
      var e := a.flows[id];
      var n := Entry(ConsumedFlow(e.flow, a.revision + 1, at).(secrets := NO_SECRETS), e.sequence, e.stateKey, false);
      StillLive(e, n, c, now);
      WriteSame(a, b, c, now, id, n, {e.stateKey}, a.revision + 1);
      WriteSame(a, b, c, now, id, n, {}, a.revision + 1);
      assert a.states - {} == a.states && b.states - {} == b.states;
    }
  }

  lemma SameCounters(a: Store, b: Store, c: Config, t: Time)
    requires SameFrom(a, b, c, t)
    ensures a.revision == b.revision && a.sequence == b.sequence
  {
  }

  lemma StillLive(e: Entry, n: Entry, c: Config, t: Time)
    requires !Expired(e.flow, t) && n.flow.about == e.flow.about
    ensures !Gone(n, t, c)
  {
  }

  lemma UpdateSame(a: Store, b: Store, c: Config, caller: Caller, id: string, revision: nat, progress: Progress, now: Instant)
    requires SameFrom(a, b, c, now)
    ensures Update(a, c, false, caller, id, revision, progress, now).1 == Update(b, c, false, caller, id, revision, progress, now).1
    ensures SameFrom(Update(a, c, false, caller, id, revision, progress, now).0,
                     Update(b, c, false, caller, id, revision, progress, now).0, c, now)
  {
    hide SameFrom, Owned, Held, Gone, Expired;
    OwnedSame(a, b, c, caller, id, now);
    OwnedAnswers(a, b, c, caller, id, now);
    SameCounters(a, b, c, now);
    if Owned(a, c, caller, id, now).1.Ok? {
      var e := a.flows[id];
      var n := e.(flow := e.flow.(progress := progress, revision := a.revision + 1));
      StillLive(e, n, c, now);
      WriteSame(a, b, c, now, id, n, {}, a.revision + 1);
      assert a.states - {} == a.states && b.states - {} == b.states;
    }
  }

  lemma ResolveSame(a: Store, b: Store, c: Config, state: string, now: Instant)
    requires SameFrom(a, b, c, now) && Inv(a) && Inv(b)
    ensures ResolveState(a, c, false, state, now).1 == ResolveState(b, c, false, state, now).1
    ensures SameFrom(ResolveState(a, c, false, state, now).0, ResolveState(b, c, false, state, now).0, c, now)
  {
    var key := Sha256(state);
    ResolveInvisible(a, c, state, now);
    ResolveInvisible(b, c, state, now);
    var a', b' := ResolveState(a, c, false, state, now).0, ResolveState(b, c, false, state, now).0;
    SameSymmetric(a, a', c, now);
    SameTransitive(a', a, b, c, now);
    SameTransitive(a', b, b', c, now);
    ResolveAnswers(a, b, c, state, now);
    hide SameFrom, ResolveState;
  }

  lemma ResolveInvisible(s: Store, c: Config, state: string, now: Instant)
    ensures SameFrom(s, ResolveState(s, c, false, state, now).0, c, now)
  {
    hide SameFrom, Owned;
    SameReflexive(s, c, now);
    var key := Sha256(state);
    if key in s.states && s.states[key] in s.flows {
      var about := s.flows[s.states[key]].flow.about;
      OwnedInvisible(s, c, about.caller, about.id, now);
    }
  }

  /** The answer in terms of what points where. */
  lemma ResolveAnswer(s: Store, c: Config, state: string, now: Instant)
    requires Inv(s)
    ensures var key := Sha256(state);
            ResolveState(s, c, false, state, now).1 ==
            if state == "" || !Points(s, c, key, now) then Err(NotFound)
            else
              var e := s.flows[s.states[key]];
              if Expired(e.flow, now) then Err(FlowExpired) else Ok((e.flow.about.caller, s.states[key]))
  {
    var key := Sha256(state);
    if key in s.states {
      assert IndexOk(s, key) && EntryOk(s, s.states[key]);
      SeenAbout(s.flows[s.states[key]], c, now);
    }
    hide Inv, Blank, Gone, Restrict, Expired;
  }

  lemma ResolveAnswers(a: Store, b: Store, c: Config, state: string, now: Instant)
    requires SameFrom(a, b, c, now) && Inv(a) && Inv(b)
    ensures ResolveState(a, c, false, state, now).1 == ResolveState(b, c, false, state, now).1
  {
    hide Inv, ResolveState, Gone, Seen, Expired;
    var key := Sha256(state);
    ResolveAnswer(a, c, state, now);
    ResolveAnswer(b, c, state, now);
    assert SameState(a, b, c, key, now);
    if Points(a, c, key, now) {
      var id := a.states[key];
      assert SameEntry(a, b, c, id, now);
      SeenAbout(a.flows[id], c, now);
      SeenAbout(b.flows[id], c, now);
    }
  }

  // ----- Purging -----

  lemma PurgeSame(s: Store, c: Config, t: Time)
    ensures SameFrom(s, Purge(s, t, c), c, t)
  {
    var p := Purge(s, t, c);
    forall id ensures SameEntry(s, p, c, id, t) {
      if id in s.flows && Expired(s.flows[id].flow, t) { WipedSeen(s.flows[id], c, t); }
    }
    hide Gone, Wiped, Expired;
    forall h ensures SameState(s, p, c, h, t) {
      if h in s.states { assert SameEntry(s, p, c, s.states[h], t); }
    }
  }

  lemma SamePurges(a: Store, b: Store, c: Config, t: Time)
    requires SameFrom(a, b, c, t)
    ensures Purge(a, t, c) == Purge(b, t, c)
  {
    var p, q := Purge(a, t, c), Purge(b, t, c);
    forall id ensures (id in p.flows <==> id in q.flows) && (id in p.flows ==> p.flows[id] == q.flows[id]) {
      assert SameEntry(a, b, c, id, t);
    }
    forall h ensures (h in p.states <==> h in q.states) && (h in p.states ==> p.states[h] == q.states[h]) {
      assert SameState(a, b, c, h, t);
    }
    hide SameFrom, Gone, Wiped, Expired;
    assert p.flows == q.flows && p.states == q.states;
  }

  lemma CreateSame(a: Store, b: Store, c: Config, flow: Flow, purgeAt: Instant, evictAt: Instant)
    requires SameFrom(a, b, c, purgeAt)
    ensures Create(a, c, false, flow, purgeAt, evictAt).1 == Create(b, c, false, flow, purgeAt, evictAt).1
    ensures SameFrom(Create(a, c, false, flow, purgeAt, evictAt).0, Create(b, c, false, flow, purgeAt, evictAt).0, c, purgeAt)
  {
    hide SameFrom, Purge, Insert, Evict, Blank, ValidCaller;
    SamePurges(a, b, c, purgeAt);
    SameReflexive(Create(a, c, false, flow, purgeAt, evictAt).0, c, purgeAt);
  }

  lemma ApplySame(a: Store, b: Store, c: Config, op: Op)
    requires Inv(a) && Inv(b) && SameFrom(a, b, c, First(op))
    ensures Apply(a, c, op).1 == Apply(b, c, op).1
    ensures SameFrom(Apply(a, c, op).0, Apply(b, c, op).0, c, First(op))
  {
    hide Inv, SameFrom, Create, Consume, Update, ResolveState, Owned;
    match op
    case CreateOp(flow, purgeAt, evictAt) => CreateSame(a, b, c, flow, purgeAt, evictAt);
    case GetOp(caller, id, now) => OwnedSame(a, b, c, caller, id, now);
    case ConsumeOp(caller, id, now, at) => ConsumeSame(a, b, c, caller, id, now, at);
    case UpdateOp(caller, id, revision, progress, now) => UpdateSame(a, b, c, caller, id, revision, progress, now);
    case ResolveOp(state, now) => ResolveSame(a, b, c, state, now);
    case Tick(_) =>
  }

  // ----- Runs -----

  /** The eager store: before every operation, and at every tick, it purges. */
  ghost function Eager(c: Config, ops: seq<Op>): Store {
    if ops == [] then EMPTY
    else
      var op := ops[|ops| - 1];
      Apply(Purge(Eager(c, ops[..|ops| - 1]), First(op), c), c, op).0
  }

  ghost function EagerAnswers(c: Config, ops: seq<Op>): seq<Answer> {
    if ops == [] then []
    else
      var front, op := ops[..|ops| - 1], ops[|ops| - 1];
      EagerAnswers(c, front) + [Apply(Purge(Eager(c, front), First(op), c), c, op).1]
  }

  /** Main result: under a monotone clock every answer of the lazy store is the eager one's,
      however often the eager one purges in between. */
  lemma {:induction false} LazyRefinesEager(c: Config, ops: seq<Op>, now: Time)
    requires Monotone(ops, now)
    ensures Answers(c, ops) == EagerAnswers(c, ops)
    ensures Inv(Run(c, ops)) && Inv(Eager(c, ops)) && SameFrom(Run(c, ops), Eager(c, ops), c, now)
  {
    hide Inv, SameFrom, Apply, PurgeIn;
    if ops == [] {
      SameReflexive(EMPTY, c, now);
      EmptyIsFine();
    } else {
      var front, op := ops[..|ops| - 1], ops[|ops| - 1];
      LazyRefinesEager(c, front, First(op));
      var lazy, eager := Run(c, front), Eager(c, front);
      var purged := Purge(eager, First(op), c);
      PurgeSame(eager, c, First(op));
      PurgeKeeps(eager, eager.flows.Keys, First(op), c);
      SameTransitive(lazy, eager, purged, c, First(op));
      ApplySame(lazy, purged, c, op);
      ApplyKeeps(lazy, c, op);
      ApplyKeeps(purged, c, op);
      LaterSame(Apply(lazy, c, op).0, Apply(purged, c, op).0, c, First(op), now);
    }
  }

  lemma EmptyIsFine()
    ensures Inv(EMPTY)
  {
  }
}
