/** Read, Refresh, Invalidate and Cached of any number of catalog services over one store. Every
    call is a little machine; a step takes a lock, makes one store operation or calls Discover,
    and steps of any calls interleave where the locks let them. A service has for each key a
    discovery lock, a write lock and two generations. */
module CatalogService {
  import opened Options
  import opened CatalogStore
  import opened CatalogLog

  // ----- Calls -----

  datatype Job = ReadJob(notBefore: Time) | RefreshJob | InvalidateJob | CachedJob

  /** What a call is for, and how long the history was when it began. */
  datatype Work = Work(site: Site, job: Job, begun: nat)

  datatype Error = StateChanged | DiscoverFailed | StoreFailed(error: StoreError)

  /** What a call returns: a read's record and error may come together. */
  datatype Reply = Reply(record: Option<Record>, error: Option<Error>, fromCache: bool)

  datatype Gens = Gens(hard: nat, soft: nat)

  /** The revision a save is to expect, and when it was read. */
  datatype Fence = Fence(revision: nat, readAt: nat)
  datatype Snapshot = Snapshot(gens: Gens, at: nat)

  datatype Call =
    | Waiting(work: Work)
    | Loading(work: Work)
    | Snapping(work: Work, fence: Fence)
    | Asking(work: Work, fence: Fence, snap: Snapshot)
    | Committing(work: Work, fence: Fence, snap: Snapshot, evidence: Evidence)
    | Rereading(work: Work, snapAt: nat, rebased: bool, evidence: Evidence)
    | Storing(work: Work, evidence: Evidence, terms: Terms)
    | Conflicted(work: Work)
    | Settled(work: Work, failure: Option<Error>)
    | Invalidating(work: Work, mode: Mode)
    | Clearing(work: Work, mode: Mode)
    | Caching(work: Work)
    | Done(work: Work, reply: Reply)

  predicate HoldsDiscovery(call: Call) {
    !call.Waiting? && !call.Invalidating? && !call.Clearing? && !call.Caching? && !call.Done?
  }

  predicate HoldsWrite(call: Call) {
    call.Rereading? || call.Storing? || call.Conflicted? || call.Clearing?
  }

  /** What the world answers in one step: whether the context has ended, what Discover lists
      (None: it failed), what Rebase says (false: there is none) and the clock. */
  datatype Choice = Choice(ended: bool, models: Option<seq<string>>, rebases: bool, now: Time)

  /** What a step does: the store, the site's generations and the call after it, and what the
      history gains. */
  datatype Turn = Turn(store: Store, gens: Gens, call: Call, events: seq<Event>)

  // ----- Reading the store -----

  /** found: a catalog the service serves; fence: the revision a save may expect, an unusable
      record's included. */
  datatype Load = LoadFailed(error: StoreError) | Read(found: Option<Record>, fence: nat)

  function LoadCatalog(s: Store, c: Config, site: Site, ended: bool): Load {
    match CatalogStore.Load(s, ended, site.key)
    case Err(NotFound(revision)) => Read(None, revision)
    case Err(error) => LoadFailed(error)
    case Ok(record) => Read(if Serves(c, site.service, record) then Some(record) else None, record.revision)
  }

  /** Observed, not before the request's bound, and younger than the TTL. */
  predicate Fresh(c: Config, site: Site, record: Record, notBefore: Time, now: Time) {
    var observed := record.evidence.observedAt;
    && observed != NEVER && !(notBefore != NEVER && observed < notBefore)
    && now - observed < c.ttl(site.service, site.key.instance)
  }

  // ----- Read and Refresh -----

  /** How a refresh ends: a read goes on to load what is stored now. */
  function Refreshed(work: Work, record: Option<Record>, error: Option<Error>): Call {
    if work.job.ReadJob? then Settled(work, error) else Done(work, Reply(record, error, false))
  }

  function Begin(s: Store, g: Gens, n: nat, c: Config, k: nat, work: Work, x: Choice): Turn {
    match LoadCatalog(s, c, work.site, x.ended)
    case LoadFailed(error) => Turn(s, g, Done(work, Reply(None, Some(StoreFailed(error)), false)), [])
    case Read(found, fence) =>
      if work.job.ReadJob? && found.Some? && Fresh(c, work.site, found.value, work.job.notBefore, x.now)
      then Turn(s, g, Done(work, Reply(found, None, true)), [Loaded(k, work.site, true)])
      else Turn(s, g, Snapping(work, Fence(fence, n)), [Loaded(k, work.site, false)])
  }

  function Discover(s: Store, g: Gens, c: Config, k: nat, work: Work, fence: Fence, snap: Snapshot, x: Choice): Turn {
    match x.models
    case None => Turn(s, g, Refreshed(work, None, Some(DiscoverFailed)), [Asked(k, work.site, false)])
    case Some(models) =>
      var status := if models == [] then Empty else Discovered;
      var evidence := Evidence(status, models, x.now, c.schema(work.site.service));
      Turn(s, g, Committing(work, fence, snap, evidence), [Asked(k, work.site, true)])
  }

  /** The generations under the write lock decide. */
  function Commit(s: Store, g: Gens, work: Work, fence: Fence, snap: Snapshot, evidence: Evidence, x: Choice): Turn {
    var rebased := g.hard == snap.gens.hard + 1 && x.rebases;
    var next :=
      if g.hard != snap.gens.hard && !rebased then Refreshed(work, None, Some(StateChanged))
      else if rebased || g.soft != snap.gens.soft then Rereading(work, snap.at, rebased, evidence)
      else Storing(work, evidence, Terms(fence.readAt, fence.revision, snap.at, false, false));
    Turn(s, g, next, [])
  }

  function ReadAnew(s: Store, g: Gens, n: nat, c: Config, k: nat, call: Call, x: Choice): Turn
    requires call.Rereading?
  {
    match LoadCatalog(s, c, call.work.site, x.ended)
    case LoadFailed(error) => Turn(s, g, Refreshed(call.work, None, Some(StoreFailed(error))), [])
    case Read(_, fence) =>
      Turn(s, g, Storing(call.work, call.evidence, Terms(n, fence, call.snapAt, call.rebased, true)), [Reread(k, call.work.site)])
  }

  function StoreIt(s: Store, g: Gens, c: Config, k: nat, work: Work, evidence: Evidence, terms: Terms, x: Choice): Turn {
    var r := if c.conditional then SaveIf(s, x.ended, work.site.key, evidence, terms.fence)
             else Save(s, x.ended, work.site.key, evidence);
    match r
    case (t, Ok(revision)) =>
      Turn(t, g, Refreshed(work, Some(Record(evidence, revision)), None), [Stored(k, work.site, evidence, terms)])
    case (t, Err(Conflict)) => Turn(t, g, Conflicted(work), [Refused(k, work.site, terms)])
    case (t, Err(error)) => Turn(t, g, Refreshed(work, None, Some(StoreFailed(error))), [])
  }

  /** A save another write beat returns the catalog stored now. */
  function Yield(s: Store, g: Gens, c: Config, work: Work, x: Choice): Turn {
    var next :=
      match LoadCatalog(s, c, work.site, x.ended)
      case LoadFailed(error) => Refreshed(work, None, Some(StoreFailed(error)))
      case Read(None, _) => Refreshed(work, None, Some(StateChanged))
      case Read(found, _) => Refreshed(work, found, None);
    Turn(s, g, next, [])
  }

  function Settle(s: Store, g: Gens, c: Config, work: Work, failure: Option<Error>, x: Choice): Turn {
    var reply :=
      match LoadCatalog(s, c, work.site, x.ended)
      case LoadFailed(error) => Reply(None, Some(StoreFailed(error)), false)
      case Read(found, _) =>
        if failure.Some? && found.Some? && c.keepStale(work.site.service) then Reply(found, failure, true)
        else if failure.Some? then Reply(None, failure, false)
        else if found.None? then Reply(None, Some(StateChanged), false)
        else Reply(found, None, false);
    Turn(s, g, Done(work, reply), [])
  }

  // ----- Invalidate and Cached -----

  function Bump(g: Gens, mode: Mode): Gens {
    match mode
    case Hard => g.(hard := g.hard + 1)
    case Soft => g.(soft := g.soft + 1)
  }

  /** A conditional store deletes; any other keeps a record never probed, which no read serves. */
  function Clear(s: Store, g: Gens, c: Config, k: nat, work: Work, x: Choice): Turn {
    var unprobed := Evidence(NotProbed, [], NEVER, c.schema(work.site.service));
    if x.ended then Turn(s, g, Done(work, Reply(None, Some(StoreFailed(ContextEnded)), false)), [])
    else
      var t := if c.conditional then Delete(s, x.ended, work.site.key).0 else Save(s, x.ended, work.site.key, unprobed).0;
      Turn(t, g, Done(work, Reply(None, None, false)), [Cleared(k, work.site, if c.conditional then None else Some(unprobed))])
  }

  function Cache(s: Store, g: Gens, c: Config, work: Work, x: Choice): Turn {
    var reply :=
      match LoadCatalog(s, c, work.site, x.ended)
      case LoadFailed(error) => Reply(None, Some(StoreFailed(error)), true)
      case Read(found, _) => Reply(found, None, true);
    Turn(s, g, Done(work, reply), [])
  }

  /** One step of a call; n is the length of the history. */
  function Act(s: Store, g: Gens, n: nat, c: Config, k: nat, call: Call, x: Choice): Turn {
    match call
    case Waiting(work) => Turn(s, g, Loading(work), [])
    case Loading(work) => Begin(s, g, n, c, k, work, x)
    case Snapping(work, fence) => Turn(s, g, Asking(work, fence, Snapshot(g, n)), [Snapped(k, work.site)])
    case Asking(work, fence, snap) => Discover(s, g, c, k, work, fence, snap, x)
    case Committing(work, fence, snap, evidence) => Commit(s, g, work, fence, snap, evidence, x)
    case Rereading(_, _, _, _) => ReadAnew(s, g, n, c, k, call, x)
    case Storing(work, evidence, terms) => StoreIt(s, g, c, k, work, evidence, terms, x)
    case Conflicted(work) => Yield(s, g, c, work, x)
    case Settled(work, failure) => Settle(s, g, c, work, failure, x)
    case Invalidating(work, mode) => Turn(s, Bump(g, mode), Clearing(work, mode), [Bumped(k, work.site, mode)])
    case Clearing(work, mode) => Clear(s, g, c, k, work, x)
    case Caching(work) => Cache(s, g, c, work, x)
    case Done(_, _) => Turn(s, g, call, [])
  }

  // ----- Runs -----

  datatype World = World(store: Store, gens: map<Site, Gens>, calls: map<nat, Call>, log: seq<Event>)

  const START := World(EMPTY_STORE, map[], map[], [])

  function GensOf(w: World, site: Site): Gens {
    if site in w.gens then w.gens[site] else Gens(0, 0)
  }

  predicate DiscoveryFree(w: World, site: Site) {
    forall k :: k in w.calls && w.calls[k].work.site == site ==> !HoldsDiscovery(w.calls[k])
  }

  predicate WriteFree(w: World, site: Site) {
    forall k :: k in w.calls && w.calls[k].work.site == site ==> !HoldsWrite(w.calls[k])
  }

  /** A step that takes a lock waits until it is free; taking the generations needs it for a moment. */
  predicate Enabled(w: World, call: Call) {
    && (call.Waiting? ==> DiscoveryFree(w, call.work.site))
    && (call.Snapping? || call.Committing? || call.Invalidating? ==> WriteFree(w, call.work.site))
  }

  datatype Step =
    | BeginRead(k: nat, site: Site, notBefore: Time)
    | BeginRefresh(k: nat, site: Site)
    | BeginInvalidate(k: nat, site: Site, mode: Mode)
    | BeginCached(k: nat, site: Site)
    | Advance(k: nat, choice: Choice)

  function FirstCall(step: Step, n: nat): Call
    requires !step.Advance?
  {
    match step
    case BeginRead(_, site, notBefore) => Waiting(Work(site, ReadJob(notBefore), n))
    case BeginRefresh(_, site) => Waiting(Work(site, RefreshJob, n))
    case BeginInvalidate(_, site, mode) => Invalidating(Work(site, InvalidateJob, n), mode)
    case BeginCached(_, site) => Caching(Work(site, CachedJob, n))
  }

  function TurnOf(w: World, c: Config, k: nat, x: Choice): Turn
    requires k in w.calls
  {
    var call := w.calls[k];
    Act(w.store, GensOf(w, call.work.site), |w.log|, c, k, call, x)
  }

  function Moved(w: World, k: nat, turn: Turn): World {
    World(turn.store, w.gens[turn.call.work.site := turn.gens], w.calls[k := turn.call], w.log + turn.events)
  }

  /** A step that does not apply changes nothing. */
  function Next(w: World, c: Config, step: Step): World {
    if step.Advance? then
      if step.k in w.calls && Enabled(w, w.calls[step.k]) then Moved(w, step.k, TurnOf(w, c, step.k, step.choice)) else w
    else if step.k in w.calls then w
    else w.(calls := w.calls[step.k := FirstCall(step, |w.log|)])
  }

  ghost function After(c: Config, steps: seq<Step>): World {
    if steps == [] then START else Next(After(c, steps[..|steps| - 1]), c, steps[|steps| - 1])
  }
}
