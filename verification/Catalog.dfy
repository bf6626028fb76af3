/** catalog.Service as it is written: each call a method over the store and the generations the
    service keeps for each key, proved to make exactly the steps CatalogService gives that call.
    What context, Discover, Rebase and clock answer in step i of a call is world(i). */
module Catalog {
  import opened Options
  import opened CatalogStore
  import opened CatalogLog
  import opened CatalogService
  import MemoryCatalogStore

  /** Where some steps of a call lead. */
  datatype End = End(store: Store, gens: Gens, call: Call, events: seq<Event>)

  /** Steps i to i + m of a call nobody interferes with, from a history of length n. */
  ghost function Alone(s: Store, g: Gens, n: nat, c: Config, k: nat, call: Call, world: nat -> Choice, i: nat, m: nat): End
    decreases m
  {
    if m == 0 then End(s, g, call, [])
    else
      var turn := Act(s, g, n, c, k, call, world(i));
      var rest := Alone(turn.store, turn.gens, n + |turn.events|, c, k, turn.call, world, i + 1, m - 1);
      rest.(events := turn.events + rest.events)
  }

  lemma {:induction false} ThenAlone(s: Store, g: Gens, n: nat, c: Config, k: nat, call: Call, world: nat -> Choice, i: nat, a: nat, b: nat)
    ensures var first := Alone(s, g, n, c, k, call, world, i, a);
            var rest := Alone(first.store, first.gens, n + |first.events|, c, k, first.call, world, i + a, b);
            Alone(s, g, n, c, k, call, world, i, a + b) == rest.(events := first.events + rest.events)
    decreases a
  {
    hide Act;
    if a == 0 {
      var rest := Alone(s, g, n, c, k, call, world, i, b);
      assert [] + rest.events == rest.events;
    } else {
      var turn := Act(s, g, n, c, k, call, world(i));
      ThenAlone(turn.store, turn.gens, n + |turn.events|, c, k, turn.call, world, i + 1, a - 1, b);
      var first := Alone(turn.store, turn.gens, n + |turn.events|, c, k, turn.call, world, i + 1, a - 1);
      var rest := Alone(first.store, first.gens, n + |turn.events| + |first.events|, c, k, first.call, world, i + a, b);
      assert turn.events + (first.events + rest.events) == (turn.events + first.events) + rest.events;
    }
  }

  /** One step, as the end of one. */
  lemma OneStep(s: Store, g: Gens, n: nat, c: Config, k: nat, call: Call, world: nat -> Choice, i: nat)
    ensures var turn := Act(s, g, n, c, k, call, world(i));
            Alone(s, g, n, c, k, call, world, i, 1) == End(turn.store, turn.gens, turn.call, turn.events)
  {
    hide Act;
    var turn := Act(s, g, n, c, k, call, world(i));
    assert Alone(turn.store, turn.gens, n + |turn.events|, c, k, turn.call, world, i + 1, 0) == End(turn.store, turn.gens, turn.call, []);
    assert turn.events + [] == turn.events;
  }

  ghost function Advanced(w: World, c: Config, k: nat, world: nat -> Choice, i: nat, m: nat): World
    decreases m
  {
    if m == 0 then w else Advanced(Next(w, c, Advance(k, world(i))), c, k, world, i + 1, m - 1)
  }

  /** A call on its own is a run of all calls in which the others hold no lock of its key, and wait. */
  lemma {:induction false} AloneIsARun(w: World, c: Config, k: nat, world: nat -> Choice, i: nat, m: nat)
    requires k in w.calls
    requires forall j :: j in w.calls && j != k && w.calls[j].work.site == w.calls[k].work.site ==>
               !HoldsDiscovery(w.calls[j]) && !HoldsWrite(w.calls[j])
    ensures var site := w.calls[k].work.site;
            var v := Advanced(w, c, k, world, i, m);
            var end := Alone(w.store, GensOf(w, site), |w.log|, c, k, w.calls[k], world, i, m);
            && v.store == end.store && k in v.calls && v.calls[k] == end.call && v.log == w.log + end.events
            && v.calls[k].work == w.calls[k].work && GensOf(v, site) == end.gens
    decreases m
  {
    hide Act, HoldsDiscovery, HoldsWrite, Enabled, Next, Moved;
    if m > 0 {
      var v, turn := Next(w, c, Advance(k, world(i))), TurnOf(w, c, k, world(i));
      AloneIsEnabled(w, c, k, world(i));
      AloneIsARun(v, c, k, world, i + 1, m - 1);
      var rest := Alone(v.store, GensOf(v, w.calls[k].work.site), |v.log|, c, k, v.calls[k], world, i + 1, m - 1);
      assert v.log + rest.events == w.log + (turn.events + rest.events);
    } else {
      assert w.log + [] == w.log;
    }
  }

  lemma AloneIsEnabled(w: World, c: Config, k: nat, x: Choice)
    requires k in w.calls
    requires forall j :: j in w.calls && j != k && w.calls[j].work.site == w.calls[k].work.site ==>
               !HoldsDiscovery(w.calls[j]) && !HoldsWrite(w.calls[j])
    ensures var turn := TurnOf(w, c, k, x);
            var v := Next(w, c, Advance(k, x));
            && v.store == turn.store && v.calls == w.calls[k := turn.call] && v.log == w.log + turn.events
            && turn.call.work == w.calls[k].work && GensOf(v, turn.call.work.site) == turn.gens
  {
    KeepsWork(w.store, GensOf(w, w.calls[k].work.site), |w.log|, c, k, w.calls[k], x);
    assert Enabled(w, w.calls[k]);
    hide Act, Enabled, HoldsDiscovery, HoldsWrite;
  }

  lemma KeepsWork(s: Store, g: Gens, n: nat, c: Config, k: nat, call: Call, x: Choice)
    ensures Act(s, g, n, c, k, call, x).call.work == call.work
  {
    hide LoadCatalog;
  }

  /** The key has a record this service serves: one its schema stamped, of a discovery. */
  predicate Usable(s: Store, c: Config, service: nat, key: Key) {
    && key in s.records
    && (s.records[key].evidence.status == Discovered || s.records[key].evidence.status == Empty)
    && s.records[key].evidence.schema == c.schema(service)
  }

  /** What a discovery of these models at that time is stored as. */
  function Listing(c: Config, service: nat, models: seq<string>, now: Time): Evidence {
    Evidence(if models == [] then Empty else Discovered, models, now, c.schema(service))
  }

  /** Observed, not before the request's bound, and younger than the TTL. */
  lemma FreshMeans(c: Config, site: Site, record: Record, notBefore: Time, now: Time)
    ensures var observed := record.evidence.observedAt;
            Fresh(c, site, record, notBefore, now) <==>
            observed != NEVER && (notBefore == NEVER || observed >= notBefore) && now < observed + c.ttl(site.service, site.key.instance)
  {
  }

  lemma FirstEvent(e: Event, after: seq<Event>)
    requires |after| >= 2
    ensures ([e] + after)[0] == e && ([e] + after)[1] == after[0] && ([e] + after)[2] == after[1] && ([e] + after)[3..] == after[2..]
  {
  }

  class Service {
    const number: nat
    const config: Config
    const store: MemoryCatalogStore.MemoryCatalogStore
    /** What the service keeps for a key, filled when first asked for. */
    var keys: map<Key, Gens>

    constructor (number: nat, config: Config, store: MemoryCatalogStore.MemoryCatalogStore)
      ensures this.number == number && this.config == config && this.store == store && keys == map[]
    {
      this.number, this.config, this.store, keys := number, config, store, map[];
    }

    ghost function GensAt(key: Key): Gens
      reads this
    {
      if key in keys then keys[key] else Gens(0, 0)
    }

    method State(key: Key) returns (gens: Gens)
      modifies this
      ensures key in keys && gens == keys[key] == old(GensAt(key))
      ensures forall other :: GensAt(other) == old(GensAt(other))
    {
      if key !in keys {
        keys := keys[key := Gens(0, 0)];
      }
      return keys[key];
    }

    // ----- Invalidate -----

    method Invalidate(k: nat, key: Key, mode: Mode, world: nat -> Choice, n: nat)
      returns (error: Option<Error>, ghost events: seq<Event>)
      modifies this, store
      ensures var work := Work(Site(number, key), InvalidateJob, n);
              Alone(old(store.View()), old(GensAt(key)), n, config, k, Invalidating(work, mode), world, 0, 2)
              == End(store.View(), GensAt(key), Done(work, Reply(None, error, false)), events)
      ensures forall other :: other != key ==> GensAt(other) == old(GensAt(other))
      ensures GensAt(key).hard == old(GensAt(key)).hard + (if mode == Hard then 1 else 0)
      ensures GensAt(key).soft == old(GensAt(key)).soft + (if mode == Soft then 1 else 0)
      ensures world(1).ended ==> error == Some(StoreFailed(ContextEnded)) && store.View() == old(store.View())
      ensures !world(1).ended ==> error == None && !Usable(store.View(), config, number, key)
                                  && RevisionOf(store.View(), key) == old(store.View()).revision + 1
      ensures !world(1).ended && config.conditional ==> Lookup(store.View(), key) == None
    {
      hide Alone;
      ghost var s, g, work := store.View(), GensAt(key), Work(Site(number, key), InvalidateJob, n);
      OneStep(s, g, n, config, k, Invalidating(work, mode), world, 0);
      var state := State(key);
      if mode == Soft {
        keys := keys[key := state.(soft := state.soft + 1)];
      } else {
        keys := keys[key := state.(hard := state.hard + 1)];
      }
      OneStep(s, GensAt(key), n + 1, config, k, Clearing(work, mode), world, 1);
      ThenAlone(s, g, n, config, k, Invalidating(work, mode), world, 0, 1, 1);
      var x := world(1);
      if config.conditional {
        var ok := store.Delete(x.ended, key);
        error := if ok then None else Some(StoreFailed(ContextEnded));
        events := [Bumped(k, work.site, mode)] + if ok then [Cleared(k, work.site, None)] else [];
      } else {
        var unprobed := Evidence(NotProbed, [], NEVER, config.schema(number));
        var saved := store.Save(x.ended, key, unprobed);
        error := if saved.Ok? then None else Some(StoreFailed(saved.error));
        events := [Bumped(k, work.site, mode)] + if saved.Ok? then [Cleared(k, work.site, Some(unprobed))] else [];
      }
    }

    // ----- Read, Refresh and Cached -----

    /** A catalog the service serves, and the revision a save may expect. */
    method LoadKey(key: Key, ended: bool) returns (load: Load)
      ensures load == LoadCatalog(store.View(), config, Site(number, key), ended)
      ensures ended ==> load == LoadFailed(ContextEnded)
      ensures !ended ==> load.Read? && load.fence == RevisionOf(store.View(), key)
                         && load.found == if Usable(store.View(), config, number, key) then Some(store.View().records[key]) else None
    {
      var loaded := store.Load(ended, key);
      match loaded {
        case Err(NotFound(revision)) => return Read(None, revision);
        case Err(error) => return LoadFailed(error);
        case Ok(record) =>
          var found := (record.evidence.status == Discovered || record.evidence.status == Empty)
                       && record.evidence.schema == config.schema(number);
          return Read(if found then Some(record) else None, record.revision);
      }
    }

    /** A save that finds the fence unbroken lands. */
    ghost predicate Saves(s: Store, t: Store, key: Key, evidence: Evidence, fence: nat, ended: bool,
                          record: Option<Record>, error: Option<Error>)
    {
      !ended && (config.conditional ==> RevisionOf(s, key) == fence) ==>
        && t == Put(s, key, evidence) && error == None && record == Some(Record(evidence, s.revision + 1))
    }

    /** A save that does not changes nothing, and returns the catalog stored now, if any. */
    ghost predicate Yields(s: Store, t: Store, key: Key, fence: nat, ended: bool, endedThen: bool,
                           record: Option<Record>, error: Option<Error>)
    {
      && (ended ==> t == s && record == None && error == Some(StoreFailed(ContextEnded)))
      && (!ended && config.conditional && RevisionOf(s, key) != fence ==>
            && t == s
            && (if endedThen then record == None && error == Some(StoreFailed(ContextEnded))
                else if Usable(s, config, number, key) then record == Some(s.records[key]) && error == None
                else record == None && error == Some(StateChanged)))
    }

    /** Stores evidence under its terms; a save another write beat yields the catalog stored now.
        The first step is number i and the last number next - 1. */
    method StoreEvidence(k: nat, work: Work, evidence: Evidence, terms: Terms, world: nat -> Choice, i: nat, ghost n: nat)
      returns (record: Option<Record>, error: Option<Error>, next: nat, ghost events: seq<Event>)
      requires work.site.service == number
      modifies store
      ensures next > i
      ensures Alone(old(store.View()), GensAt(work.site.key), n, config, k, Storing(work, evidence, terms), world, i, next - i)
              == End(store.View(), GensAt(work.site.key), Refreshed(work, record, error), events)
      ensures Saves(old(store.View()), store.View(), work.site.key, evidence, terms.fence, world(i).ended, record, error)
      ensures Yields(old(store.View()), store.View(), work.site.key, terms.fence, world(i).ended, world(i + 1).ended, record, error)
      ensures forall e :: e in events ==> e.Stored? || e.Refused?
    {
      hide Alone, Refreshed, LoadCatalog;
      ghost var s, g, call := store.View(), GensAt(work.site.key), Storing(work, evidence, terms);
      OneStep(s, g, n, config, k, call, world, i);
      var x := world(i);
      var saved;
      if config.conditional {
        saved := store.SaveIf(x.ended, work.site.key, evidence, terms.fence);
      } else {
        saved := store.Save(x.ended, work.site.key, evidence);
      }
      if saved.Ok? {
        return Some(Record(evidence, saved.value)), None, i + 1, [Stored(k, work.site, evidence, terms)];
      }
      if saved.error != Conflict {
        return None, Some(StoreFailed(saved.error)), i + 1, [];
      }
      events := [Refused(k, work.site, terms)];
      ThenAlone(s, g, n, config, k, call, world, i, 1, 1);
      OneStep(s, g, n + 1, config, k, Conflicted(work), world, i + 1);
      var load := LoadKey(work.site.key, world(i + 1).ended);
      match load {
        case LoadFailed(error) => return None, Some(StoreFailed(error)), i + 2, events;
        case Read(None, _) => return None, Some(StateChanged), i + 2, events;
        case Read(found, _) => return found, None, i + 2, events;
      }
    }

    /** Stores evidence unless a hard invalidation fenced it; the write lock is held throughout. */
    method SaveEvidence(k: nat, work: Work, fence: Fence, snap: Snapshot, evidence: Evidence, world: nat -> Choice, i: nat, n: nat)
      returns (record: Option<Record>, error: Option<Error>, next: nat, ghost events: seq<Event>)
      requires work.site.service == number && work.site.key in keys
      modifies store
      ensures next > i
      ensures Alone(old(store.View()), GensAt(work.site.key), n, config, k, Committing(work, fence, snap, evidence), world, i, next - i)
              == End(store.View(), GensAt(work.site.key), Refreshed(work, record, error), events)
      ensures var g := keys[work.site.key];
              && (g == snap.gens ==>
                    Saves(old(store.View()), store.View(), work.site.key, evidence, fence.revision, world(i + 1).ended, record, error))
              && (g.hard != snap.gens.hard && !(g.hard == snap.gens.hard + 1 && world(i).rebases) ==>
                    store.View() == old(store.View()) && record == None && error == Some(StateChanged) && events == [])
              && (g.soft != snap.gens.soft && g.hard == snap.gens.hard && !world(i + 1).ended && !world(i + 2).ended ==>
                    store.View() == Put(old(store.View()), work.site.key, evidence) && error == None)
              && (g.hard == snap.gens.hard + 1 && world(i).rebases && !world(i + 1).ended && !world(i + 2).ended ==>
                    store.View() == Put(old(store.View()), work.site.key, evidence) && error == None)
      ensures forall e :: e in events ==> e.Reread? || e.Stored? || e.Refused?
    {
      hide Alone, Refreshed, LoadCatalog;
      ghost var s, g, call := store.View(), GensAt(work.site.key), Committing(work, fence, snap, evidence);
      var state := keys[work.site.key];
      OneStep(s, g, n, config, k, call, world, i);
      var latest, rebased := state.soft != snap.gens.soft, false;
      if state.hard != snap.gens.hard {
        if state.hard != snap.gens.hard + 1 || !world(i).rebases {
          return None, Some(StateChanged), i + 1, [];
        }
        latest, rebased := true, true;
      }
      var terms := Terms(fence.readAt, fence.revision, snap.at, false, false);
      next := i + 1;
      ghost var reread: seq<Event> := [];
      if latest {
        ThenAlone(s, g, n, config, k, call, world, i, 1, 1);
        OneStep(s, g, n, config, k, Rereading(work, snap.at, rebased, evidence), world, i + 1);
        next := i + 2;
        var load := LoadKey(work.site.key, world(i + 1).ended);
        if load.LoadFailed? {
          return None, Some(StoreFailed(load.error)), next, [];
        }
        terms := Terms(n, load.fence, snap.at, rebased, true);
        reread := [Reread(k, work.site)];
      }
      ghost var used := next - i;
      record, error, next, events := StoreEvidence(k, work, evidence, terms, world, next, n + |reread|);
      ThenAlone(s, g, n, config, k, call, world, i, used, next - i - used);
      events := reread + events;
    }

    /** Discovers and stores, expecting the stored revision to be the fence. */
    method Rediscover(k: nat, work: Work, fence: Fence, world: nat -> Choice, i: nat, n: nat)
      returns (record: Option<Record>, error: Option<Error>, next: nat, ghost events: seq<Event>)
      requires work.site.service == number && work.site.key in keys
      modifies store
      ensures next > i
      ensures Alone(old(store.View()), GensAt(work.site.key), n, config, k, Snapping(work, fence), world, i, next - i)
              == End(store.View(), GensAt(work.site.key), Refreshed(work, record, error), events)
      ensures world(i + 1).models == None ==> store.View() == old(store.View()) && record == None && error == Some(DiscoverFailed)
      ensures world(i + 1).models.Some? ==>
                Saves(old(store.View()), store.View(), work.site.key,
                      Listing(config, number, world(i + 1).models.value, world(i + 1).now), fence.revision, world(i + 3).ended, record, error)
      ensures |events| >= 2 && events[0] == Snapped(k, work.site) && events[1] == Asked(k, work.site, world(i + 1).models.Some?)
      ensures forall e :: e in events[2..] ==> e.Reread? || e.Stored? || e.Refused?
    {
      hide Alone, Refreshed;
      ghost var s, g, call := store.View(), GensAt(work.site.key), Snapping(work, fence);
      var started := keys[work.site.key];
      var snap := Snapshot(started, n);
      OneStep(s, g, n, config, k, call, world, i);
      ThenAlone(s, g, n, config, k, call, world, i, 1, 1);
      OneStep(s, g, n + 1, config, k, Asking(work, fence, snap), world, i + 1);
      var x := world(i + 1);
      if x.models == None {
        return None, Some(DiscoverFailed), i + 2, [Snapped(k, work.site), Asked(k, work.site, false)];
      }
      var status := if x.models.value == [] then Empty else Discovered;
      var evidence := Evidence(status, x.models.value, x.now, config.schema(number));
      ghost var before := [Snapped(k, work.site), Asked(k, work.site, true)];
      record, error, next, events := SaveEvidence(k, work, fence, snap, evidence, world, i + 2, n + 2);
      ThenAlone(s, g, n, config, k, call, world, i, 2, next - i - 2);
      events := before + events;
    }

    method Refresh(k: nat, key: Key, world: nat -> Choice, n: nat)
      returns (record: Option<Record>, error: Option<Error>, next: nat, ghost events: seq<Event>)
      modifies this, store
      ensures var work := Work(Site(number, key), RefreshJob, n);
              Alone(old(store.View()), old(GensAt(key)), n, config, k, Waiting(work), world, 0, next)
              == End(store.View(), GensAt(key), Done(work, Reply(record, error, false)), events)
      ensures forall other :: GensAt(other) == old(GensAt(other))
      ensures world(1).ended ==> store.View() == old(store.View()) && record == None && error == Some(StoreFailed(ContextEnded)) && events == []
      ensures !world(1).ended && world(3).models == None ==>
                store.View() == old(store.View()) && record == None && error == Some(DiscoverFailed)
      ensures !world(1).ended && world(3).models.Some? && !world(5).ended ==>
                var evidence := Listing(config, number, world(3).models.value, world(3).now);
                && store.View() == Put(old(store.View()), key, evidence)
                && error == None && record == Some(Record(evidence, old(store.View()).revision + 1))
    {
      hide Alone, LoadCatalog;
      var state := State(key);
      var work := Work(Site(number, key), RefreshJob, n);
      ghost var s, g := store.View(), GensAt(key);
      OneStep(s, g, n, config, k, Waiting(work), world, 0);
      ThenAlone(s, g, n, config, k, Waiting(work), world, 0, 1, 1);
      OneStep(s, g, n, config, k, Loading(work), world, 1);
      var load := LoadKey(key, world(1).ended);
      if load.LoadFailed? {
        return None, Some(StoreFailed(load.error)), 2, [];
      }
      record, error, next, events := Rediscover(k, work, Fence(load.fence, n), world, 2, n + 1);
      ThenAlone(s, g, n, config, k, Waiting(work), world, 0, 2, next - 2);
      events := [Loaded(k, work.site, false)] + events;
    }

    /** How a read that discovered ends: with what is stored then, or with what went wrong. */
    ghost predicate Concludes(s: Store, t: Store, key: Key, world: nat -> Choice, next: nat, reply: Reply) {
      && next > 0
      && (world(next - 1).ended ==> reply == Reply(None, Some(StoreFailed(ContextEnded)), false))
      && (world(3).models == None && !world(next - 1).ended ==>
            && t == s
            && reply == if Usable(t, config, number, key) && config.keepStale(number)
                        then Reply(Some(t.records[key]), Some(DiscoverFailed), true)
                        else Reply(None, Some(DiscoverFailed), false))
      && (world(3).models.Some? && !world(5).ended && !world(next - 1).ended ==>
            var evidence := Listing(config, number, world(3).models.value, world(3).now);
            t == Put(s, key, evidence) && reply == Reply(Some(Record(evidence, s.revision + 1)), None, false))
    }

    lemma ConcludesRead(s: Store, t: Store, key: Key, fence: nat, world: nat -> Choice, settled: nat,
                        record: Option<Record>, failure: Option<Error>, reply: Reply)
      requires world(3).models == None ==> t == s && failure == Some(DiscoverFailed)
      requires world(3).models.Some? ==>
                 Saves(s, t, key, Listing(config, number, world(3).models.value, world(3).now), fence, world(5).ended, record, failure)
      requires fence == RevisionOf(s, key)
      requires var usable := Usable(t, config, number, key);
               reply == if world(settled).ended then Reply(None, Some(StoreFailed(ContextEnded)), false)
                        else if failure.Some? then
                          if usable && config.keepStale(number) then Reply(Some(t.records[key]), failure, true)
                          else Reply(None, failure, false)
                        else if usable then Reply(Some(t.records[key]), None, false)
                        else Reply(None, Some(StateChanged), false)
      ensures Concludes(s, t, key, world, settled + 1, reply)
    {
    }

    /** The stored catalog while it is fresh, and otherwise the one stored after a new discovery. */
    method ReadCatalog(k: nat, key: Key, notBefore: Time, world: nat -> Choice, n: nat)
      returns (reply: Reply, next: nat, ghost events: seq<Event>)
      modifies this, store
      ensures var work := Work(Site(number, key), ReadJob(notBefore), n);
              Alone(old(store.View()), old(GensAt(key)), n, config, k, Waiting(work), world, 0, next)
              == End(store.View(), GensAt(key), Done(work, reply), events)
      ensures forall other :: GensAt(other) == old(GensAt(other))
      ensures world(1).ended ==> reply == Reply(None, Some(StoreFailed(ContextEnded)), false) && events == []
      ensures !world(1).ended ==>
                var s, site := old(store.View()), Site(number, key);
                var young := && Usable(s, config, number, key)
                             && var observed := s.records[key].evidence.observedAt;
                                && observed != NEVER && (notBefore == NEVER || observed >= notBefore)
                                && world(1).now < observed + config.ttl(number, key.instance);
                && (young ==> events == [Loaded(k, site, true)] && reply == Reply(Some(s.records[key]), None, true))
                && (!young ==>
                      && |events| >= 3 && events[0] == Loaded(k, site, false) && events[1] == Snapped(k, site)
                      && events[2] == Asked(k, site, world(3).models.Some?)
                      && (forall e :: e in events[3..] ==> !e.Asked? && !e.Loaded?)
                      && Concludes(s, store.View(), key, world, next, reply))
    {
      hide Alone, LoadCatalog, Fresh, Settle, Usable, Concludes, Saves;
      var state := State(key);
      var work := Work(Site(number, key), ReadJob(notBefore), n);
      ghost var s, g := store.View(), GensAt(key);
      OneStep(s, g, n, config, k, Waiting(work), world, 0);
      ThenAlone(s, g, n, config, k, Waiting(work), world, 0, 1, 1);
      OneStep(s, g, n, config, k, Loading(work), world, 1);
      var x := world(1);
      var load := LoadKey(key, x.ended);
      if load.LoadFailed? {
        return Reply(None, Some(StoreFailed(load.error)), false), 2, [];
      }
      if load.found.Some? { FreshMeans(config, work.site, load.found.value, notBefore, x.now); }
      if load.found.Some? && Fresh(config, work.site, load.found.value, notBefore, x.now) {
        return Reply(load.found, None, true), 2, [Loaded(k, work.site, true)];
      }
      ghost var after;
      reply, next, after := ReadAfresh(k, work, Fence(load.fence, n), world, n + 1);
      ThenAlone(s, g, n, config, k, Waiting(work), world, 0, 2, next - 2);
      events := [Loaded(k, work.site, false)] + after;
      FirstEvent(Loaded(k, work.site, false), after);
    }

    /** A read whose load was not fresh, from its third step on. */
    method ReadAfresh(k: nat, work: Work, fence: Fence, world: nat -> Choice, n: nat)
      returns (reply: Reply, next: nat, ghost events: seq<Event>)
      requires work.site.service == number && work.site.key in keys && work.job.ReadJob?
      requires fence.revision == RevisionOf(store.View(), work.site.key)
      modifies store
      ensures next > 2
      ensures Alone(old(store.View()), GensAt(work.site.key), n, config, k, Snapping(work, fence), world, 2, next - 2)
              == End(store.View(), GensAt(work.site.key), Done(work, reply), events)
      ensures |events| >= 2 && events[0] == Snapped(k, work.site) && events[1] == Asked(k, work.site, world(3).models.Some?)
      ensures forall e :: e in events[2..] ==> !e.Asked? && !e.Loaded?
      ensures Concludes(old(store.View()), store.View(), work.site.key, world, next, reply)
    {
      hide Alone, LoadCatalog, Settle, Usable, Concludes, Saves;
      ghost var s, g, key := store.View(), GensAt(work.site.key), work.site.key;
      var record, failure, settled, after := Rediscover(k, work, fence, world, 2, n);
      ThenAlone(s, g, n, config, k, Snapping(work, fence), world, 2, settled - 2, 1);
      OneStep(store.View(), g, n + |after|, config, k, Settled(work, failure), world, settled);
      reply := Latest(work.site.key, failure, world(settled).ended);
      next, events := settled + 1, after;
      assert after + [] == after;
      ConcludesRead(s, store.View(), key, fence.revision, world, settled, record, failure, reply);
    }

    /** What a read returns once its discovery is over: what is stored now. */
    method Latest(key: Key, failure: Option<Error>, ended: bool) returns (reply: Reply)
      ensures forall work: Work, g, x: Choice :: x.ended == ended && work.site == Site(number, key) ==>
                Settle(store.View(), g, config, work, failure, x) == Turn(store.View(), g, Done(work, reply), [])
      ensures var usable := Usable(store.View(), config, number, key);
              reply == if ended then Reply(None, Some(StoreFailed(ContextEnded)), false)
                       else if failure.Some? then
                         if usable && config.keepStale(number) then Reply(Some(store.View().records[key]), failure, true)
                         else Reply(None, failure, false)
                       else if usable then Reply(Some(store.View().records[key]), None, false)
                       else Reply(None, Some(StateChanged), false)
    {
      var load := LoadKey(key, ended);
      if load.LoadFailed? {
        return Reply(None, Some(StoreFailed(load.error)), false);
      }
      if failure.Some? {
        if load.found.Some? && config.keepStale(number) {
          return Reply(load.found, failure, true);
        }
        return Reply(None, failure, false);
      }
      if load.found.None? {
        return Reply(None, Some(StateChanged), false);
      }
      return Reply(load.found, None, false);
    }

    /** The stored catalog, fresh or not, without discovering it. */
    method Cached(k: nat, key: Key, world: nat -> Choice, n: nat) returns (reply: Reply)
      modifies this
      ensures var work := Work(Site(number, key), CachedJob, n);
              Alone(store.View(), old(GensAt(key)), n, config, k, Caching(work), world, 0, 1)
              == End(store.View(), GensAt(key), Done(work, reply), [])
      ensures forall other :: GensAt(other) == old(GensAt(other))
      ensures world(0).ended ==> reply == Reply(None, Some(StoreFailed(ContextEnded)), true)
      ensures !world(0).ended ==>
                reply == Reply(if Usable(store.View(), config, number, key) then Some(store.View().records[key]) else None, None, true)
    {
      hide Alone, LoadCatalog;
      ghost var work := Work(Site(number, key), CachedJob, n);
      OneStep(store.View(), GensAt(key), n, config, k, Caching(work), world, 0);
      var state := State(key);
      var load := LoadKey(key, world(0).ended);
      match load {
        case LoadFailed(error) => return Reply(None, Some(StoreFailed(error)), true);
        case Read(found, _) => return Reply(found, None, true);
      }
    }
  }
}
