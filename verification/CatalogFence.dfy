/** What holds over every run of the catalog services: fences, reads, and exactly when a save is
    refused. */
module CatalogFence {
  import opened Options
  import opened CatalogStore
  import opened CatalogLog
  import opened CatalogService
  import opened CatalogSafety
  import opened CatalogTurns

  lemma BeginKeeps(c: Config, w: World, step: Step)
    requires WorldOk(c, w) && !step.Advance? && step.k !in w.calls
    ensures WorldOk(c, Next(w, c, step))
  {
    hide Kept, StoreOk, Bumps;
    NotCalled(w.log, w.calls, step.k);
    assert w.log + [] == w.log;
    StagedMore(w.log, w.calls, step.k, FirstCall(step, |w.log|), []);
    hide Staged;
  }

  lemma NotCalled(log: seq<Event>, calls: map<nat, Call>, k: nat)
    requires Staged(log, calls) && k !in calls
    ensures forall i :: 0 <= i < |log| ==> log[i].call != k
  {
    hide Stage;
  }

  lemma NextKeeps(c: Config, w: World, step: Step)
    requires WorldOk(c, w)
    ensures WorldOk(c, Next(w, c, step))
  {
    hide WorldOk, TurnOk, TurnOf, Enabled;
    if step.Advance? {
      if step.k in w.calls && Enabled(w, w.calls[step.k]) {
        StepOk(c, w, step.k, step.choice);
        TurnKeeps(c, w, step.k, TurnOf(w, c, step.k, step.choice));
      }
    } else if step.k !in w.calls {
      BeginKeeps(c, w, step);
    }
  }

  lemma StartIsOk(c: Config)
    ensures WorldOk(c, START)
  {
  }

  /** Main result: in every run, however the calls of any services interleave, the history keeps
      the fencing rules and the store is what its history says. */
  lemma {:induction false} EveryRunKeepsTheFence(c: Config, steps: seq<Step>)
    ensures WorldOk(c, After(c, steps))
  {
    hide WorldOk, Next;
    if steps == [] {
      StartIsOk(c);
    } else {
      EveryRunKeepsTheFence(c, steps[..|steps| - 1]);
      NextKeeps(c, After(c, steps[..|steps| - 1]), steps[|steps| - 1]);
    }
  }

  lemma RunKept(c: Config, steps: seq<Step>)
    ensures Kept(c, After(c, steps).log)
  {
    EveryRunKeepsTheFence(c, steps);
    hide Kept, After, StoreOk, GensOk, Exclusive, CallOk, Staged;
  }

  /** Main result: no resurrection across processes. In any run on a conditional store, a save that
      landed without reading its fence anew found the key as its call loaded it: no service wrote
      or deleted it since. And no two saves, of any services, land under one fence. */
  lemma NoResurrectionAcrossProcesses(c: Config, steps: seq<Step>, i: nat, j: nat, m: nat)
    requires c.conditional
    requires var log := After(c, steps).log; i < |log| && j < |log| && log[i].Stored? && log[j].Stored?
    ensures var log := After(c, steps).log;
            && (!log[j].terms.latest ==> log[j].terms.readAt < j && log[log[j].terms.readAt] == Loaded(log[j].call, log[j].site, false))
            && (log[j].terms.readAt <= m < j ==> !Writes(log[m], log[j].site.key))
            && (i != j && log[i].site.key == log[j].site.key ==> log[i].terms.fence != log[j].terms.fence)
  {
    hide Kept, After;
    RunKept(c, steps);
    var log := After(c, steps).log;
    StoredUntouched(c, log, j);
    if log[i].site.key == log[j].site.key && log[i].terms.fence == log[j].terms.fence {
      OneStorePerFence(c, log, i, j);
    }
  }

  /** Main result: no resurrection in one service, for either kind of store. */
  lemma NoResurrectionInAService(c: Config, steps: seq<Step>, b: nat, j: nat)
    requires var log := After(c, steps).log;
             && b < j < |log| && log[j].Stored? && log[j].terms.snapAt < b
             && log[b].Bumped? && log[b].mode == Hard && log[b].site == log[j].site
    ensures var log := After(c, steps).log;
            && log[j].terms.rebased
            && forall b' :: log[j].terms.snapAt < b' < j && log[b'].Bumped? && log[b'].mode == Hard && log[b'].site == log[j].site ==> b' == b
  {
    hide Kept, After;
    RunKept(c, steps);
    HardInvalidationFences(c, After(c, steps).log, b, j);
  }

  /** Main result: why a save is refused. With no other service writing the key, only for an
      invalidation between its load and its snapshot, never for one after the snapshot. */
  lemma SoftInvalidationsRefuseNothing(c: Config, steps: seq<Step>, j: nat)
    requires var log := After(c, steps).log; j < |log| && log[j].Refused?
    requires var log := After(c, steps).log;
             forall m :: log[j].terms.readAt <= m < j && Writes(log[m], log[j].site.key) ==> log[m].site.service == log[j].site.service
    ensures var log := After(c, steps).log;
            && !log[j].terms.latest
            && exists m :: log[j].terms.readAt < m < log[j].terms.snapAt && m < |log| && log[m].Cleared? && log[m].site == log[j].site
  {
    hide Kept, After;
    RunKept(c, steps);
    var m := RefusedForAReason(c, After(c, steps).log, j);
  }

  /** Main result: exactly when a save on a conditional store is refused: when somebody wrote the key
      since its fence was read. */
  lemma RefusedExactly(c: Config, steps: seq<Step>, k: nat, x: Choice)
    requires c.conditional && !x.ended
    requires var w := After(c, steps); k in w.calls && w.calls[k].Storing?
    ensures var w := After(c, steps);
            var call := w.calls[k];
            && (TurnOf(w, c, k, x).events == [Refused(k, call.work.site, call.terms)] <==>
                exists m :: call.terms.readAt <= m < |w.log| && Writes(w.log[m], call.work.site.key))
            && (TurnOf(w, c, k, x).events == [Stored(k, call.work.site, call.evidence, call.terms)] <==>
                forall m :: call.terms.readAt <= m < |w.log| ==> !Writes(w.log[m], call.work.site.key))
  {
    hide WorldOk, After, Ready, GensOf;
    EveryRunKeepsTheFence(c, steps);
    var w := After(c, steps);
    WorldReady(c, w, k);
    StoringFence(c, w, k);
    var call := w.calls[k];
    SameRevision(w.log, call.terms.readAt, call.work.site.key);
  }

  lemma StoringFence(c: Config, w: World, k: nat)
    requires k in w.calls && w.calls[k].Storing? && Ready(c, w, k, w.calls[k])
    ensures var t, key := w.calls[k].terms, w.calls[k].work.site.key;
            && RevisionOf(w.store, key) == KeyRevision(w.log, key)
            && t.readAt < |w.log| && KeyRevision(w.log[..t.readAt], key) == t.fence
  {
    hide KeyRevision, Bumps;
    KeyIsCurrent(w.store, w.log, w.calls[k].work.site.key);
  }

  /** Main result: reads linearize. A record any call returns without an error was the stored one at
      an instant inside the call, and is one its service serves; a read without an error has one. */
  lemma ReadsLinearize(c: Config, steps: seq<Step>, k: nat)
    requires var w := After(c, steps); k in w.calls && w.calls[k].Done? && w.calls[k].reply.error == None
    ensures var w := After(c, steps);
            var work, record := w.calls[k].work, w.calls[k].reply.record;
            && (record.Some? ==>
                  && (exists p :: work.begun <= p <= |w.log| && RecordOf(w.log[..p], work.site.key) == record)
                  && Serves(c, work.site.service, record.value))
            && (work.job.ReadJob? ==> record.Some?)
  {
    EveryRunKeepsTheFence(c, steps);
    hide After, Kept, StoreOk, GensOk, Exclusive, Staged, Serves, RecordOf;
    assert CallOk(c, After(c, steps).log, k, After(c, steps).calls[k]);
  }

  /** Main result: a call asks upstream at most once, not at all when what it loaded was fresh, and
      stores nothing after a failure; Cached never asks, nor writes. */
  lemma DiscoversAtMostOnce(c: Config, steps: seq<Step>, i: nat, j: nat)
    requires var log := After(c, steps).log; i < |log| && j < |log| && log[i].call == log[j].call
    ensures var w := After(c, steps);
            var log := w.log;
            && (log[i].Asked? && log[j].Asked? ==> i == j)
            && (log[i].Asked? && log[j].Loaded? ==> !log[j].isFresh)
            && (log[i].Asked? && log[j].Stored? ==> log[i].ok)
            && (log[i].call in w.calls ==> !w.calls[log[i].call].work.job.CachedJob?)
  {
    hide Kept, After;
    RunKept(c, steps);
    var w := After(c, steps);
    if w.log[i].Asked? { AskedOnce(c, w.log, i, j); }
    if w.log[i].call in w.calls {
      CachedIsSilent(c, steps, w.log[i].call);
    }
  }

  lemma CachedIsSilent(c: Config, steps: seq<Step>, k: nat)
    requires k in After(c, steps).calls
    ensures Silent(After(c, steps).log, k, After(c, steps).calls[k])
  {
    EveryRunKeepsTheFence(c, steps);
    hide After, Kept, StoreOk, GensOk, Exclusive, Staged, Silent;
    assert CallOk(c, After(c, steps).log, k, After(c, steps).calls[k]);
  }

  /** Main result: in every run a read's first load ends it, with that record and no discovery, exactly
      when the stored record is a discovery of this schema, observed, no earlier than the request's
      bound, and younger than the TTL; otherwise the read goes on to discover. */
  lemma ReadsDiscoverExactly(c: Config, steps: seq<Step>, k: nat, x: Choice)
    requires var w := After(c, steps); k in w.calls && w.calls[k].Loading? && w.calls[k].work.job.ReadJob? && !x.ended
    ensures var w := After(c, steps);
            var work := w.calls[k].work;
            var stored := RecordOf(w.log, work.site.key);
            var turn := TurnOf(w, c, k, x);
            if && stored.Some?
               && var evidence := stored.value.evidence;
                  && (evidence.status == Discovered || evidence.status == Empty) && evidence.schema == c.schema(work.site.service)
                  && evidence.observedAt != NEVER
                  && (work.job.notBefore == NEVER || work.job.notBefore <= evidence.observedAt)
                  && x.now < evidence.observedAt + c.ttl(work.site.service, work.site.key.instance)
            then turn.call == Done(work, Reply(stored, None, true)) && turn.events == [Loaded(k, work.site, true)]
            else turn.call.Snapping? && turn.events == [Loaded(k, work.site, false)]
  {
    hide WorldOk, After, GensOf, RecordOf, KeyRevision, Kept, Staged, Bumps;
    EveryRunKeepsTheFence(c, steps);
    var w := After(c, steps);
    WorldReady(c, w, k);
    ReadyStore(c, w, k, w.calls[k].work.site.key);
  }

  lemma ReadyStore(c: Config, w: World, k: nat, key: Key)
    requires k in w.calls && Ready(c, w, k, w.calls[k])
    ensures Lookup(w.store, key) == RecordOf(w.log, key)
  {
    hide RecordOf, KeyRevision, Bumps, Kept, Staged, CallOk;
  }

  /** The invalidations of a site from an instant of the history on. */
  function BumpsSince(log: seq<Event>, at: nat, site: Site, mode: Mode): int {
    if at <= |log| then Bumps(log, site, mode) - Bumps(log[..at], site, mode) else 0
  }

  /** Main result: in every run the generations decide exactly: a discovery no invalidation crossed is
      saved under its own fence; one that only soft invalidations crossed, or a single hard one Rebase
      accepts, is saved under the fence read anew; any other is refused. */
  lemma CommitsExactly(c: Config, steps: seq<Step>, k: nat, x: Choice)
    requires var w := After(c, steps); k in w.calls && w.calls[k].Committing?
    ensures var w := After(c, steps);
            var call, turn := w.calls[k], TurnOf(w, c, k, x);
            var hards := BumpsSince(w.log, call.snap.at, call.work.site, Hard);
            var softs := BumpsSince(w.log, call.snap.at, call.work.site, Soft);
            && turn.store == w.store && turn.events == []
            && (hards == 0 && softs == 0 ==>
                  turn.call == Storing(call.work, call.evidence, Terms(call.fence.readAt, call.fence.revision, call.snap.at, false, false)))
            && (hards == 0 && softs > 0 ==> turn.call == Rereading(call.work, call.snap.at, false, call.evidence))
            && (hards == 1 && x.rebases ==> turn.call == Rereading(call.work, call.snap.at, true, call.evidence))
            && (hards > 1 || (hards == 1 && !x.rebases) ==>
                  turn.call == if call.work.job.ReadJob? then Settled(call.work, Some(StateChanged))
                               else Done(call.work, Reply(None, Some(StateChanged), false)))
            && hards >= 0 && softs >= 0
  {
    hide WorldOk, After, Kept, Staged, StoreOk, Bumps, GensOf, FenceOk, DiscoveredOk;
    EveryRunKeepsTheFence(c, steps);
    var w := After(c, steps);
    WorldReady(c, w, k);
    QuietCall(c, w, k);
    BumpsBetween(w.log, w.calls[k].snap.at, w.calls[k].work.site, Hard);
    BumpsBetween(w.log, w.calls[k].snap.at, w.calls[k].work.site, Soft);
  }

  // ----- The gap between the load and the snapshot -----

  const YES := Choice(false, Some(["model"]), false, 1)

  /** A refresh whose load precedes a soft invalidation of its own service, and whose snapshot
      follows it. */
  function GapSteps(site: Site): seq<Step> {
    [BeginRefresh(0, site), Advance(0, YES), Advance(0, YES),                            // loads
     BeginInvalidate(1, site, Soft), Advance(1, YES), Advance(1, YES),                   // invalidated
     Advance(0, YES), Advance(0, YES), Advance(0, YES), Advance(0, YES), Advance(0, YES)]
  }

  ghost function From(w: World, c: Config, steps: seq<Step>): World
    decreases |steps|
  {
    if steps == [] then w else From(Next(w, c, steps[0]), c, steps[1..])
  }

  lemma {:induction false} FromStart(c: Config, before: seq<Step>, steps: seq<Step>)
    ensures From(After(c, before), c, steps) == After(c, before + steps)
    decreases |steps|
  {
    hide Next;
    if steps == [] {
      assert before + steps == before;
    } else {
      assert (before + [steps[0]])[..|before|] == before;
      FromStart(c, before + [steps[0]], steps[1..]);
      assert before + [steps[0]] + steps[1..] == before + steps;
    }
  }

  function GapWork(site: Site): Work { Work(site, RefreshJob, 0) }

  const UNTOUCHED := Gens(0, 0)
  const SOFTENED := Gens(0, 1)

  function Loaded3(site: Site): World {
    World(EMPTY_STORE, map[site := UNTOUCHED], map[0 := Snapping(GapWork(site), Fence(0, 0))], [Loaded(0, site, false)])
  }

  function Invalidated6(site: Site): World {
    World(Store(map[], map[site.key := 1], 1), map[site := SOFTENED],
          map[0 := Snapping(GapWork(site), Fence(0, 0)), 1 := Done(Work(site, InvalidateJob, 1), Reply(None, None, false))],
          [Loaded(0, site, false), Bumped(1, site, Soft), Cleared(1, site, None)])
  }

  function GapLog(site: Site): seq<Event> {
    [Loaded(0, site, false), Bumped(1, site, Soft), Cleared(1, site, None),
     Snapped(0, site), Asked(0, site, true), Refused(0, site, Terms(0, 0, 3, false, false))]
  }

  lemma GapLoads(c: Config, site: Site)
    ensures From(START, c, [BeginRefresh(0, site), Advance(0, YES), Advance(0, YES)]) == Loaded3(site)
  {
    var work := GapWork(site);
    var w1 := START.(calls := map[0 := Waiting(work)]);
    var w2 := World(EMPTY_STORE, map[site := UNTOUCHED], map[0 := Loading(work)], []);
    assert Next(START, c, BeginRefresh(0, site)) == w1;
    assert Next(w1, c, Advance(0, YES)) == w2;
    assert Next(w2, c, Advance(0, YES)) == Loaded3(site);
    hide Next;
    Unfold3(START, c, BeginRefresh(0, site), Advance(0, YES), Advance(0, YES));
  }

  lemma GapInvalidates(c: Config, site: Site)
    requires c.conditional
    ensures From(Loaded3(site), c, [BeginInvalidate(1, site, Soft), Advance(1, YES), Advance(1, YES)]) == Invalidated6(site)
  {
    SoftBegins(c, site);
    SoftBumps(c, site);
    SoftClears(c, site);
    hide Next;
    Unfold3(Loaded3(site), c, BeginInvalidate(1, site, Soft), Advance(1, YES), Advance(1, YES));
  }

  function Invalidating4(site: Site): World {
    Loaded3(site).(calls := map[0 := Snapping(GapWork(site), Fence(0, 0)), 1 := Invalidating(Work(site, InvalidateJob, 1), Soft)])
  }

  function Bumped5(site: Site): World {
    World(EMPTY_STORE, map[site := SOFTENED],
          map[0 := Snapping(GapWork(site), Fence(0, 0)), 1 := Clearing(Work(site, InvalidateJob, 1), Soft)],
          [Loaded(0, site, false), Bumped(1, site, Soft)])
  }

  lemma SoftBegins(c: Config, site: Site)
    requires c.conditional
    ensures Next(Loaded3(site), c, BeginInvalidate(1, site, Soft)) == Invalidating4(site)
  {
  }

  lemma SoftBumps(c: Config, site: Site)
    requires c.conditional
    ensures Next(Invalidating4(site), c, Advance(1, YES)) == Bumped5(site)
  {
  }

  lemma SoftClears(c: Config, site: Site)
    requires c.conditional
    ensures Next(Bumped5(site), c, Advance(1, YES)) == Invalidated6(site)
  {
  }

  lemma Unfold3(w: World, c: Config, a: Step, b: Step, d: Step)
    ensures From(w, c, [a, b, d]) == Next(Next(Next(w, c, a), c, b), c, d)
  {
    hide Next;
    var x := Next(w, c, a);
    var y := Next(x, c, b);
    assert [a, b, d][1..] == [b, d] && [b, d][1..] == [d] && [d][1..] == [];
    assert From(w, c, [a, b, d]) == From(x, c, [b, d]) == From(y, c, [d]);
    assert From(y, c, [d]) == From(Next(y, c, d), c, []);
  }

  /** The refresh's call at each of its last steps. */
  function GapWorld(site: Site, call: Call, n: nat): World
    requires n <= 6
  {
    Invalidated6(site).(calls := Invalidated6(site).calls[0 := call], log := GapLog(site)[..n])
  }

  function GapEvidence(c: Config, site: Site): Evidence {
    Evidence(Discovered, ["model"], 1, c.schema(site.service))
  }

  const GAP_FENCE := Fence(0, 0)
  const GAP_SNAP := Snapshot(SOFTENED, 3)
  const GAP_TERMS := Terms(0, 0, 3, false, false)

  lemma GapStep(c: Config, site: Site, call: Call, n: nat, turn: Turn)
    requires n <= 6 && call.work == GapWork(site) && Enabled(GapWorld(site, call, n), call)
    requires turn == Act(Invalidated6(site).store, SOFTENED, n, c, 0, call, YES)
    requires turn.store == Invalidated6(site).store && turn.gens == SOFTENED && turn.call.work == call.work
    requires turn.events == [] || (n < 6 && turn.events == [GapLog(site)[n]])
    ensures Next(GapWorld(site, call, n), c, Advance(0, YES)) == GapWorld(site, turn.call, n + |turn.events|)
  {
    hide Act, Enabled;
    var w, v := GapWorld(site, call, n), GapWorld(site, turn.call, n + |turn.events|);
    assert w.log + turn.events == v.log;
    assert w.gens[site := SOFTENED] == w.gens;
    assert w.calls[0 := turn.call] == v.calls;
  }

  lemma GapIsFree(site: Site, call: Call, n: nat)
    requires n <= 6 && call.work == GapWork(site) && !HoldsWrite(call) && !call.Waiting?
    ensures Enabled(GapWorld(site, call, n), call)
  {
  }

  lemma GapDiscovers(c: Config, site: Site)
    ensures var w := GapWorld(site, Snapping(GapWork(site), GAP_FENCE), 3);
            From(w, c, [Advance(0, YES), Advance(0, YES), Advance(0, YES)]) ==
            GapWorld(site, Storing(GapWork(site), GapEvidence(c, site), GAP_TERMS), 5)
  {
    var work, evidence := GapWork(site), GapEvidence(c, site);
    var call3, call4, call5 := Snapping(work, GAP_FENCE), Asking(work, GAP_FENCE, GAP_SNAP), Committing(work, GAP_FENCE, GAP_SNAP, evidence);
    GapIsFree(site, call3, 3);
    GapIsFree(site, call4, 4);
    GapIsFree(site, call5, 5);
    hide Enabled, Next;
    var store := Invalidated6(site).store;
    GapStep(c, site, call3, 3, Act(store, SOFTENED, 3, c, 0, call3, YES));
    GapStep(c, site, call4, 4, Act(store, SOFTENED, 4, c, 0, call4, YES));
    GapStep(c, site, call5, 5, Act(store, SOFTENED, 5, c, 0, call5, YES));
    Unfold3(GapWorld(site, call3, 3), c, Advance(0, YES), Advance(0, YES), Advance(0, YES));
  }

  lemma GapConflicts(c: Config, site: Site)
    requires c.conditional
    ensures var w := GapWorld(site, Storing(GapWork(site), GapEvidence(c, site), GAP_TERMS), 5);
            Next(Next(w, c, Advance(0, YES)), c, Advance(0, YES)) ==
            GapWorld(site, Done(GapWork(site), Reply(None, Some(StateChanged), false)), 6)
  {
    var work, evidence := GapWork(site), GapEvidence(c, site);
    var call5, call6 := Storing(work, evidence, GAP_TERMS), Conflicted(work);
    GapIsLocked(site, call5, 5);
    GapIsLocked(site, call6, 6);
    hide Enabled, Next;
    var store := Invalidated6(site).store;
    GapStep(c, site, call5, 5, Act(store, SOFTENED, 5, c, 0, call5, YES));
    GapStep(c, site, call6, 6, Act(store, SOFTENED, 6, c, 0, call6, YES));
  }

  lemma GapIsLocked(site: Site, call: Call, n: nat)
    requires n <= 6 && call.work == GapWork(site) && HoldsWrite(call)
    ensures Enabled(GapWorld(site, call, n), call)
  {
  }

  /** A soft invalidation in the gap between a refresh's load and its snapshot refuses it, although
      no other service exists: its discovery is lost with ErrStateChanged. */
  lemma SoftInvalidationInTheGapRefuses(c: Config, site: Site)
    requires c.conditional
    ensures var w := After(c, GapSteps(site));
            w.log == GapLog(site) && 0 in w.calls && w.calls[0] == Done(GapWork(site), Reply(None, Some(StateChanged), false))
  {
    hide Next, GapWorld, GapLog, Invalidated6, Loaded3;
    var y := Advance(0, YES);
    var first, third := [BeginRefresh(0, site), y, y], [y, y, y];
    var second := [BeginInvalidate(1, site, Soft), Advance(1, YES), Advance(1, YES)];
    GapLoads(c, site);
    GapInvalidates(c, site);
    GapBegins(site);
    GapDiscovers(c, site);
    GapConflicts(c, site);
    GapEnds(site, Done(GapWork(site), Reply(None, Some(StateChanged), false)));
    FromStart(c, [], first);
    FromStart(c, first, second);
    FromStart(c, first + second, third);
    AfterTwo(c, first + second + third, y, y);
    assert [] + first == first;
    assert GapSteps(site) == first + second + third + [y, y];
  }

  lemma GapBegins(site: Site)
    ensures GapWorld(site, Snapping(GapWork(site), GAP_FENCE), 3) == Invalidated6(site)
  {
    assert GapLog(site)[..3] == Invalidated6(site).log;
    assert Invalidated6(site).calls[0 := Snapping(GapWork(site), GAP_FENCE)] == Invalidated6(site).calls;
  }

  lemma GapEnds(site: Site, call: Call)
    ensures GapWorld(site, call, 6).log == GapLog(site) && 0 in GapWorld(site, call, 6).calls && GapWorld(site, call, 6).calls[0] == call
  {
  }

  lemma AfterTwo(c: Config, steps: seq<Step>, a: Step, b: Step)
    ensures After(c, steps + [a, b]) == Next(Next(After(c, steps), c, a), c, b)
  {
    hide Next;
    assert (steps + [a, b])[..|steps| + 1] == steps + [a] && (steps + [a])[..|steps|] == steps;
  }
}
