/** oauthflow.MemoryFlowStore: maps changed in place, proved to do what FlowStore says. Its
    purge and eviction loops visit the flows in whatever order a map yields them. */
module MemoryFlowStore {
  import opened Options
  import opened FlowStore
  import opened FlowCap

  /** Fifteen minutes. */
  const DEFAULT_RETENTION: Duration := 15 * 60 * 1_000_000_000

  class MemoryFlowStore {
    const config: Config
    var flows: map<string, Entry>
    var states: map<Hash, string>
    var revision: nat
    var sequence: nat

    ghost function View(): Store
      reads this
    {
      Store(flows, states, revision, sequence)
    }

    ghost predicate Valid()
      reads this
    {
      Inv(View()) && config.retention > 0
    }

    constructor (maxFlows: int, retention: Duration)
      ensures Valid() && View() == Store(map[], map[], 0, 0)
      ensures config == Config(maxFlows, if retention <= 0 then DEFAULT_RETENTION else retention)
    {
      config := Config(maxFlows, if retention <= 0 then DEFAULT_RETENTION else retention);
      flows, states, revision, sequence := map[], map[], 0, 0;
    }

    // ----- Operations -----

    method Create(ended: bool, flow: Flow, purgeAt: Instant, evictAt: Instant) returns (result: Result<()>)
      requires Valid()
      modifies this
      ensures Valid() && (View(), result) == FlowStore.Create(old(View()), config, ended, flow, purgeAt, evictAt)
    {
      hide Inv, Blank, ValidCaller, Purge, Evict;
      CreateKeeps(View(), config, ended, flow, purgeAt, evictAt);
      if ended {
        return Err(ContextEnded);
      }
      if Blank(flow.about.id) || !ValidCaller(flow.about.caller) || flow.about.expiresAt == NEVER {
        return Err(Invalid);
      }
      PurgeLocked(purgeAt);
      if flow.about.id in flows {
        return Err(FlowExists);
      }
      var key, indexed := ZeroHash, false;
      if flow.secrets.state != "" {
        key, indexed := Sha256(flow.secrets.state), true;
        if key in states {
          return Err(FlowExists);
        }
      }
      EvictLocked(flow.about.caller, evictAt);
      if indexed {
        states := states[key := flow.about.id];
      }
      sequence := sequence + 1;
      revision := revision + 1;
      flows := flows[flow.about.id := Entry(flow.(consumedAt := NEVER, revision := revision), sequence, key, indexed)];
      return Ok(());
    }

    method Get(ended: bool, caller: Caller, id: string, now: Instant) returns (result: Result<Flow>)
      requires Valid()
      modifies this
      ensures Valid() && (View(), result) == FlowStore.Get(old(View()), config, ended, caller, id, now)
    {
      hide Inv, Owned;
      if ended {
        return Err(ContextEnded);
      }
      var owned := OwnedLocked(caller, id, now);
      match owned {
        case Err(error) => return Err(error);
        case Ok(entry) => return Ok(entry.flow);
      }
    }

    method Consume(ended: bool, caller: Caller, id: string, now: Instant, at: Instant) returns (result: Result<Flow>)
      requires Valid()
      modifies this
      ensures Valid() && (View(), result) == FlowStore.Consume(old(View()), config, ended, caller, id, now, at)
    {
      hide Inv, Owned, Follows;
      ConsumeKeeps(View(), config, ended, caller, id, now, at);
      OwnedFollows(View(), config, caller, id, now);
      if ended {
        return Err(ContextEnded);
      }
      var owned := OwnedLocked(caller, id, now);
      match owned {
        case Err(error) => return Err(error);
        case Ok(entry) =>
          if Consumed(entry.flow) {
            return Err(NotFound);
          }
          revision := revision + 1;
          var consumed := entry.flow.(consumedAt := at, revision := revision);
          if entry.indexed {
            states := states - {entry.stateKey};
          }
          flows := flows[id := Entry(consumed.(secrets := NO_SECRETS), entry.sequence, entry.stateKey, false)];
          return Ok(consumed);
      }
    }

    method Update(ended: bool, caller: Caller, id: string, expected: nat, progress: Progress, now: Instant) returns (result: Result<Flow>)
      requires Valid()
      modifies this
      ensures Valid() && (View(), result) == FlowStore.Update(old(View()), config, ended, caller, id, expected, progress, now)
    {
      hide Inv, Owned, Follows;
      UpdateKeeps(View(), config, ended, caller, id, expected, progress, now);
      OwnedFollows(View(), config, caller, id, now);
      if ended {
        return Err(ContextEnded);
      }
      var owned := OwnedLocked(caller, id, now);
      match owned {
        case Err(error) => return Err(error);
        case Ok(entry) =>
          if entry.flow.revision != expected {
            return Err(Conflict);
          }
          revision := revision + 1;
          var updated := entry.flow.(progress := progress, revision := revision);
          flows := flows[id := entry.(flow := updated)];
          return Ok(updated);
      }
    }

    method ResolveState(ended: bool, state: string, now: Instant) returns (result: Result<(Caller, string)>)
      requires Valid()
      modifies this
      ensures Valid() && (View(), result) == FlowStore.ResolveState(old(View()), config, ended, state, now)
    {
      NoBlankId(View());
      hide Inv, Owned;
      if ended {
        return Err(ContextEnded);
      }
      if state == "" {
        return Err(NotFound);
      }
      // A hash without an id looks up the empty id, which no flow has.
      var key := Sha256(state);
      var id := if key in states then states[key] else "";
      if id !in flows || !flows[id].indexed {
        return Err(NotFound);
      }
      var about := flows[id].flow.about;
      var owned := OwnedLocked(about.caller, about.id, now);
      match owned {
        case Err(error) => return Err(error);
        case Ok(_) => return Ok((about.caller, about.id));
      }
    }

    // ----- Under the lock -----

    method OwnedLocked(caller: Caller, id: string, now: Instant) returns (result: Result<Entry>)
      requires Valid()
      modifies this
      ensures Valid() && (View(), result) == Owned(old(View()), config, caller, id, now)
    {
      hide Inv, Restrict;
      OwnedKeeps(View(), config, caller, id, now);
      if id !in flows || flows[id].flow.about.caller != caller {
        return Err(NotFound);
      }
      var entry := flows[id];
      if !Expired(entry.flow, now) {
        return Ok(entry);
      }
      if now - entry.flow.about.expiresAt >= config.retention {
        DeleteLocked(id);
        return Err(NotFound);
      }
      flows := flows[id := entry.(flow := entry.flow.(secrets := NO_SECRETS))];
      return Err(FlowExpired);
    }

    method DeleteLocked(id: string)
      requires Valid() && id in flows
      modifies this
      ensures Valid() && View() == Remove(old(View()), id)
    {
      RemoveUnindexes(View(), id);
      hide Inv, Restrict;
      var entry := flows[id];
      flows := flows - {id};
      if entry.indexed {
        states := states - {entry.stateKey};
      }
    }

    method PurgeLocked(now: Instant)
      requires Valid()
      modifies this
      ensures Valid() && View() == Purge(old(View()), now, config)
    {
      hide Inv, PurgeIn, Restrict;
      ghost var s := View();
      PurgeNone(s, now, config);
      var todo := flows.Keys;
      while todo != {}
        invariant Valid() && todo <= s.flows.Keys
        invariant View() == PurgeIn(s, s.flows.Keys - todo, now, config)
        decreases todo
      {
        var id :| id in todo;
        ghost var done := s.flows.Keys - todo;
        PurgeOne(s, done, id, now, config);
        PurgeKeeps(s, done + {id}, now, config);
        assert s.flows.Keys - (todo - {id}) == done + {id};
        var entry := flows[id];
        if Expired(entry.flow, now) {
          if now - entry.flow.about.expiresAt >= config.retention {
            DeleteLocked(id);
          } else {
            flows := flows[id := entry.(flow := entry.flow.(secrets := NO_SECRETS))];
          }
        }
        todo := todo - {id};
      }
      assert s.flows.Keys - {} == s.flows.Keys;
    }

    /** The caller's pending flows: how many there are, and the oldest. */
    method OldestPending(caller: Caller, now: Instant) returns (count: nat, oldest: Option<string>)
      requires Valid()
      ensures count == |PendingIds(View(), caller, now)|
      ensures oldest.None? <==> PendingIds(View(), caller, now) == {}
      ensures oldest.Some? ==> IsOldest(View(), PendingIds(View(), caller, now), oldest.value)
    {
      hide Inv, IsOldest, Older, PendingIds, PendingFor, Consumed, Expired;
      ghost var s := View();
      ghost var pending := PendingIds(s, caller, now);
      NoneSeen(s, caller, now);
      count, oldest := 0, None;
      var todo := flows.Keys;
      ghost var seen: set<string> := {};
      while todo != {}
        invariant todo <= flows.Keys && seen == pending - todo
        invariant count == |seen| && (oldest.None? <==> seen == {})
        invariant oldest.Some? ==> IsOldest(s, seen, oldest.value)
        decreases todo
      {
        var id :| id in todo;
        OneMoreSeen(s, caller, now, todo, id);
        todo := todo - {id};
        var entry := flows[id];
        if entry.flow.about.caller != caller || Consumed(entry.flow) || Expired(entry.flow, now) {
          continue;
        }
        OldestOf(s, seen, oldest, id);
        count := count + 1;
        seen := seen + {id};
        if oldest == None || Older(entry, flows[oldest.value]) {
          oldest := Some(id);
        }
      }
      assert pending - {} == pending;
    }

    method EvictLocked(caller: Caller, now: Instant)
      requires Valid()
      modifies this
      ensures Valid() && View() == Evict(old(View()), caller, now, config)
    {
      ghost var s := View();
      EvictNothing(s, caller, now, config);
      if config.maxFlows <= 0 {
        return;
      }
      ghost var gone: set<string> := {};
      while true
        invariant Valid() && gone <= PendingIds(s, caller, now)
        invariant View() == Restrict(s, s.flows.Keys - gone)
        invariant OldestGone(s, caller, now, config.maxFlows, gone)
        decreases flows.Keys
      {
        hide Inv, Restrict, Evicted, OldestGone, IsOldest;
        LeftPending(s, gone, caller, now);
        var count, oldest := OldestPending(caller, now);
        if oldest.Some? {
          OldestIsStored(View(), PendingIds(View(), caller, now), oldest.value);
        }
        if count < config.maxFlows {
          EvictedIsGone(s, caller, now, config, gone);
          return;
        }
        ghost var before := View();
        EvictOldest(s, caller, now, config.maxFlows, gone, oldest.value);
        DeleteLocked(oldest.value);
        RemoveShrinks(before, oldest.value);
        gone := gone + {oldest.value};
      }
    }
  }

  // ----- Deleting -----

  lemma NoBlankId(s: Store)
    requires Inv(s)
    ensures "" !in s.flows
    ensures forall h :: h in s.states ==> s.states[h] in s.flows
  {
    forall id | id in s.flows ensures id != "" { assert EntryOk(s, id); }
    forall h | h in s.states ensures s.states[h] in s.flows { assert IndexOk(s, h); }
  }

  lemma RemoveUnindexes(s: Store, id: string)
    requires Inv(s) && id in s.flows
    ensures var e := s.flows[id];
            Remove(s, id) == s.(flows := s.flows - {id}, states := if e.indexed then s.states - {e.stateKey} else s.states)
    ensures Inv(Remove(s, id))
  {
    hide Inv, Follows;
    RestrictFollows(s, s.flows.Keys - {id}, id);
    FollowsKeeps(s, Remove(s, id), id);
    StatesOf(s, id);
  }

  /** The states that name a flow: its own hash, or none. */
  lemma StatesOf(s: Store, id: string)
    requires Inv(s) && id in s.flows
    ensures s.flows[id].indexed ==> s.flows[id].stateKey in s.states
    ensures forall h :: h in s.states ==> s.states[h] in s.flows && (s.states[h] == id <==> s.flows[id].indexed && h == s.flows[id].stateKey)
  {
    hide Blank, Distinct;
    assert EntryOk(s, id);
    forall h | h in s.states ensures s.states[h] in s.flows && (s.states[h] == id <==> s.flows[id].indexed && h == s.flows[id].stateKey) {
      assert IndexOk(s, h);
    }
  }

  lemma RemoveShrinks(s: Store, id: string)
    requires id in s.flows
    ensures Remove(s, id).flows.Keys < s.flows.Keys
  {
    assert id !in Remove(s, id).flows;
  }

  // ----- Purging one flow at a time -----

  lemma PurgeNone(s: Store, now: Time, c: Config)
    requires Inv(s)
    ensures PurgeIn(s, s.flows.Keys - s.flows.Keys, now, c) == s
  {
    NoBlankId(s);
    hide Inv, Gone, Wiped, Expired;
    var none := s.flows.Keys - s.flows.Keys;
    assert none == {};
    assert (set id | id in s.flows && !(id in none && Gone(s.flows[id], now, c))) == s.flows.Keys;
    var p := PurgeIn(s, none, now, c);
    assert p.states == s.states;
    assert p.flows == s.flows;
  }

  lemma PurgeOne(s: Store, done: set<string>, id: string, now: Time, c: Config)
    requires Inv(s) && id in s.flows && id !in done
    ensures var p := PurgeIn(s, done, now, c);
            && id in p.flows && p.flows[id] == s.flows[id]
            && PurgeIn(s, done + {id}, now, c) ==
               if !Expired(s.flows[id].flow, now) then p
               else if Gone(s.flows[id], now, c) then Remove(p, id)
               else p.(flows := p.flows[id := Wiped(s.flows[id])])
  {
    hide Inv, EntryOk, IndexOk, Distinct, Wiped, Expired, Gone;
    var p, q := PurgeIn(s, done, now, c), PurgeIn(s, done + {id}, now, c);
    var kept := set i | i in s.flows && !(i in done && Gone(s.flows[i], now, c));
    var kept' := set i | i in s.flows && !(i in done + {id} && Gone(s.flows[i], now, c));
    GoneIsExpired(s.flows[id], now, c);
    assert kept' == if Gone(s.flows[id], now, c) then kept - {id} else kept;
  }

  lemma GoneIsExpired(e: Entry, now: Time, c: Config)
    ensures Gone(e, now, c) ==> Expired(e.flow, now)
  {
  }

  // ----- Evicting the oldest, one at a time -----

  lemma NoneSeen(s: Store, caller: Caller, now: Time)
    ensures PendingIds(s, caller, now) - s.flows.Keys == {}
  {
  }

  lemma OneMoreSeen(s: Store, caller: Caller, now: Time, todo: set<string>, id: string)
    requires id in todo && id in s.flows
    ensures var pending := PendingIds(s, caller, now);
            var flow := s.flows[id].flow;
            && pending - (todo - {id}) ==
               (pending - todo) + (if flow.about.caller != caller || Consumed(flow) || Expired(flow, now) then {} else {id})
            && id !in pending - todo
  {
  }

  /** Every flow gone had cap - 1 newer ones or more, and is older than every one left. */
  ghost predicate OldestGone(s: Store, caller: Caller, now: Time, cap: int, gone: set<string>) {
    var pending := PendingIds(s, caller, now);
    forall id :: id in gone && id in pending ==>
      && |NewerPending(s, caller, now, id)| >= cap - 1
      && forall other :: other in pending - gone ==> Older(s.flows[id], s.flows[other])
  }

  lemma EvictNothing(s: Store, caller: Caller, now: Time, c: Config)
    requires Inv(s)
    ensures Restrict(s, s.flows.Keys - {}) == s
    ensures c.maxFlows <= 0 ==> Evict(s, caller, now, c) == s
  {
    NoBlankId(s);
    hide Inv;
    assert s.flows.Keys - {} == s.flows.Keys;
  }

  lemma LeftPending(s: Store, gone: set<string>, caller: Caller, now: Time)
    ensures PendingIds(Restrict(s, s.flows.Keys - gone), caller, now) == PendingIds(s, caller, now) - gone
  {
    hide PendingFor;
  }

  lemma EvictOldest(s: Store, caller: Caller, now: Time, cap: int, gone: set<string>, id: string)
    requires Inv(s) && gone <= PendingIds(s, caller, now) && OldestGone(s, caller, now, cap, gone)
    requires IsOldest(Restrict(s, s.flows.Keys - gone), PendingIds(s, caller, now) - gone, id)
    requires |PendingIds(s, caller, now) - gone| >= cap
    ensures id in PendingIds(s, caller, now) && id in Restrict(s, s.flows.Keys - gone).flows
    ensures OldestGone(s, caller, now, cap, gone + {id})
    ensures Remove(Restrict(s, s.flows.Keys - gone), id) == Restrict(s, s.flows.Keys - (gone + {id}))
  {
    hide Inv, Older, PendingFor;
    var pending := PendingIds(s, caller, now);
    OldestOfLeft(s, pending, gone, id);
    NewerThanOldest(s, caller, now, pending - gone, id);
    RemoveFromLeft(s, gone, id);
    hide Restrict, IsOldest, NewerPending;
  }

  /** The oldest flow left is older than every other one left. */
  lemma OldestOfLeft(s: Store, pending: set<string>, gone: set<string>, id: string)
    requires Inv(s) && pending <= s.flows.Keys && IsOldest(Restrict(s, s.flows.Keys - gone), pending - gone, id)
    ensures forall other :: other in pending - gone - {id} ==> Older(s.flows[id], s.flows[other])
  {
    hide Inv, Older;
    var left := Restrict(s, s.flows.Keys - gone);
    forall other | other in pending - gone - {id} ensures Older(s.flows[id], s.flows[other]) {
      OlderIsTotal(s, id, other);
      OldestIsOldest(left, pending - gone, id);
    }
  }

  lemma NewerThanOldest(s: Store, caller: Caller, now: Time, left: set<string>, id: string)
    requires left <= PendingIds(s, caller, now) && id in left
    requires forall other :: other in left - {id} ==> Older(s.flows[id], s.flows[other])
    ensures |NewerPending(s, caller, now, id)| >= |left| - 1
  {
    hide Older, PendingFor;
    Subset(left - {id}, NewerPending(s, caller, now, id));
  }

  lemma RemoveFromLeft(s: Store, gone: set<string>, id: string)
    requires id in s.flows
    ensures Remove(Restrict(s, s.flows.Keys - gone), id) == Restrict(s, s.flows.Keys - (gone + {id}))
  {
    assert Restrict(s, s.flows.Keys - gone).flows.Keys == s.flows.Keys - gone;
  }

  lemma EvictedIsGone(s: Store, caller: Caller, now: Time, c: Config, gone: set<string>)
    requires c.maxFlows > 0 && gone <= PendingIds(s, caller, now) && OldestGone(s, caller, now, c.maxFlows, gone)
    requires |PendingIds(s, caller, now) - gone| < c.maxFlows
    ensures Restrict(s, s.flows.Keys - gone) == Evict(s, caller, now, c)
  {
    hide PendingFor, Restrict;
    var pending := PendingIds(s, caller, now);
    forall id | id in pending - gone ensures |NewerPending(s, caller, now, id)| < c.maxFlows - 1 {
      forall other | other in NewerPending(s, caller, now, id) ensures other in pending - gone - {id} {
        if other in gone {
          assert false;
        }
      }
      Subset(NewerPending(s, caller, now, id), pending - gone - {id});
      assert |pending - gone - {id}| == |pending - gone| - 1;
    }
    hide Older;
    assert gone == Evicted(s, caller, now, c);
  }
}
