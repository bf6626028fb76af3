/** Each step of each call of the catalog services is all right, so every run keeps the fencing
    rules, and reads linearize. */
module CatalogTurns {
  import opened Options
  import opened CatalogStore
  import opened CatalogLog
  import opened CatalogService
  import opened CatalogSafety

  /** What the invariant says of the world a step starts from. */
  ghost predicate Ready(c: Config, w: World, k: nat, call: Call) {
    && k in w.calls && w.calls[k] == call && Kept(c, w.log) && Staged(w.log, w.calls) && StoreOk(w.store, w.log)
    && GensOf(w, call.work.site) == Gens(Bumps(w.log, call.work.site, Hard), Bumps(w.log, call.work.site, Soft))
    && CallOk(c, w.log, k, call)
  }

  lemma WorldReady(c: Config, w: World, k: nat)
    requires WorldOk(c, w) && k in w.calls
    ensures Ready(c, w, k, w.calls[k])
  {
    hide Kept, Staged, StoreOk, Exclusive, CallOk, Bumps;
  }

  // ----- Helpers -----

  /** A step without an event, or without an effect on store and generations. */
  lemma QuietTurn(c: Config, w: World, k: nat, turn: Turn)
    requires k in w.calls && Ready(c, w, k, w.calls[k]) && turn.events == [] && turn.store == w.store
    requires turn.gens == GensOf(w, w.calls[k].work.site)
    requires turn.call.work == w.calls[k].work && Stage(w.calls[k]) <= Stage(turn.call)
    requires HoldsDiscovery(turn.call) ==> HoldsDiscovery(w.calls[k]) || DiscoveryFree(w, turn.call.work.site)
    requires HoldsWrite(turn.call) ==> HoldsWrite(w.calls[k]) || WriteFree(w, turn.call.work.site)
    requires CallOk(c, w.log, k, turn.call)
    ensures TurnOk(c, w, k, turn)
  {
    hide Kept, Staged, StoreOk, CallOk, Bumps, EventOk, DiscoveryFree, WriteFree, HoldsDiscovery, HoldsWrite, Stage;
    assert w.log + turn.events == w.log;
  }

  /** A step with an event that touches neither store nor generations. */
  lemma EventTurn(c: Config, w: World, k: nat, turn: Turn, e: Event)
    requires k in w.calls && Ready(c, w, k, w.calls[k]) && turn.events == [e] && turn.store == w.store
    requires turn.gens == GensOf(w, w.calls[k].work.site) && !e.Stored? && !e.Cleared? && !e.Bumped?
    requires turn.call.work == w.calls[k].work && Stage(w.calls[k]) <= Stage(turn.call)
    requires HoldsDiscovery(turn.call) ==> HoldsDiscovery(w.calls[k])
    requires HoldsWrite(turn.call) ==> HoldsWrite(w.calls[k])
    requires EventOk(c, w, k, turn, e) && CallOk(c, w.log + [e], k, turn.call)
    ensures TurnOk(c, w, k, turn)
  {
    hide Kept, Staged, CallOk, EventOk, DiscoveryFree, WriteFree, HoldsDiscovery, HoldsWrite, Stage;
    OneMore(w.log, e);
    assert StoreOk(turn.store, w.log + [e]);
    hide StoreOk, Bumps;
  }

  lemma Comes(w: World, k: nat, e: Event)
    requires k in w.calls && Staged(w.log, w.calls) && e.call == k && Stage(w.calls[k]) <= Rank(e)
    ensures InTurn(w.log, e)
  {
    hide Stage, Rank;
  }

  lemma LoadIsCurrent(s: Store, log: seq<Event>, c: Config, site: Site, ended: bool)
    requires StoreOk(s, log)
    ensures var load := LoadCatalog(s, c, site, ended);
            load.Read? ==>
              && load.fence == KeyRevision(log, site.key)
              && (load.found.Some? ==> RecordOf(log, site.key) == load.found && Serves(c, site.service, load.found.value))
  {
    assert RevisionOf(s, site.key) == KeyRevision(log, site.key) && Lookup(s, site.key) == RecordOf(log, site.key);
    hide Serves, KeyRevision, RecordOf;
  }

  lemma NowStored(log: seq<Event>, begun: nat, key: Key, record: Record)
    requires begun <= |log| && RecordOf(log, key) == Some(record)
    ensures WasStored(log, begun, key, record)
  {
    assert log[..|log|] == log;
  }

  /** How a refresh ends. */
  lemma RefreshedOk(c: Config, log: seq<Event>, k: nat, work: Work, record: Option<Record>, error: Option<Error>)
    requires work.begun <= |log| && !work.job.CachedJob?
    requires error == None && record.Some? ==> RecordOf(log, work.site.key) == record && Serves(c, work.site.service, record.value)
    ensures CallOk(c, log, k, Refreshed(work, record, error)) && Refreshed(work, record, error).work == work
    ensures var r := Refreshed(work, record, error); Stage(r) >= 5 && !HoldsWrite(r)
  {
    hide RecordOf, Serves, WasStored;
    if error == None && record.Some? { NowStored(log, work.begun, work.site.key, record.value); }
  }

  // ----- Waiting, loading, taking the generations -----

  lemma Waits(c: Config, w: World, k: nat, x: Choice)
    requires k in w.calls && w.calls[k].Waiting? && Ready(c, w, k, w.calls[k]) && Enabled(w, w.calls[k])
    ensures TurnOk(c, w, k, TurnOf(w, c, k, x))
  {
    hide Ready, TurnOk, DiscoveryFree, GensOf;
    QuietCall(c, w, k);
    QuietTurn(c, w, k, TurnOf(w, c, k, x));
  }

  lemma QuietCall(c: Config, w: World, k: nat)
    requires k in w.calls && Ready(c, w, k, w.calls[k])
    ensures w.calls[k].work.begun <= |w.log| && StoreOk(w.store, w.log) && Staged(w.log, w.calls) && CallOk(c, w.log, k, w.calls[k])
    ensures var site := w.calls[k].work.site; GensOf(w, site) == Gens(Bumps(w.log, site, Hard), Bumps(w.log, site, Soft))
  {
  }

  lemma Loads(c: Config, w: World, k: nat, x: Choice)
    requires k in w.calls && w.calls[k].Loading? && Ready(c, w, k, w.calls[k])
    ensures TurnOk(c, w, k, TurnOf(w, c, k, x))
  {
    hide Ready, TurnOk, GensOf, LoadCatalog, Fresh, StoreOk, Staged, RecordOf, KeyRevision, Serves, WasStored, InTurn, Bumps;
    var work, turn := w.calls[k].work, TurnOf(w, c, k, x);
    QuietCall(c, w, k);
    LoadIsCurrent(w.store, w.log, c, work.site, x.ended);
    if turn.events == [] {
      QuietTurn(c, w, k, turn);
    } else {
      var e := turn.events[0];
      Comes(w, k, e);
      OneMore(w.log, e);
      if turn.call.Done? {
        NowStored(w.log + [e], work.begun, work.site.key, turn.call.reply.record.value);
      } else {
        LoadedFence(w.log, k, work.site, turn.call.fence.revision);
      }
      EventTurn(c, w, k, turn, e);
    }
  }

  lemma LoadedFence(log: seq<Event>, k: nat, site: Site, revision: nat)
    requires revision == KeyRevision(log, site.key)
    ensures FenceOk(log + [Loaded(k, site, false)], k, site, Fence(revision, |log|))
  {
    assert (log + [Loaded(k, site, false)])[..|log|] == log;
    hide KeyRevision;
  }

  lemma Snaps(c: Config, w: World, k: nat, x: Choice)
    requires k in w.calls && w.calls[k].Snapping? && Ready(c, w, k, w.calls[k]) && Enabled(w, w.calls[k])
    ensures TurnOk(c, w, k, TurnOf(w, c, k, x))
  {
    hide Ready, TurnOk, GensOf, StoreOk, Staged, InTurn, Bumps, FenceOk, SnapOk, WriteFree;
    var work, fence, turn := w.calls[k].work, w.calls[k].fence, TurnOf(w, c, k, x);
    QuietCall(c, w, k);
    var e := Snapped(k, work.site);
    Comes(w, k, e);
    FenceMeans(w.log, k, work.site, fence);
    SnapTaken(w.log, k, work.site, fence, GensOf(w, work.site));
    EventTurn(c, w, k, turn, e);
  }

  lemma FenceMeans(log: seq<Event>, k: nat, site: Site, f: Fence)
    requires FenceOk(log, k, site, f)
    ensures f.readAt < |log| && log[f.readAt] == Loaded(k, site, false)
  {
  }

  lemma SnapTaken(log: seq<Event>, k: nat, site: Site, f: Fence, g: Gens)
    requires FenceOk(log, k, site, f) && g == Gens(Bumps(log, site, Hard), Bumps(log, site, Soft))
    ensures SnapOk(log + [Snapped(k, site)], k, site, f, Snapshot(g, |log|))
  {
    FenceMeans(log, k, site, f);
    FenceStays(log, Snapped(k, site), k, site, f);
    assert (log + [Snapped(k, site)])[..|log|] == log;
    hide FenceOk, Bumps;
  }

  // ----- Discovering and committing -----

  lemma Discovers(c: Config, w: World, k: nat, x: Choice)
    requires k in w.calls && w.calls[k].Asking? && Ready(c, w, k, w.calls[k])
    ensures TurnOk(c, w, k, TurnOf(w, c, k, x))
  {
    hide Ready, TurnOk, GensOf, StoreOk, Staged, InTurn, Bumps, FenceOk, SnapOk, WriteFree, Refreshed;
    var work, turn := w.calls[k].work, TurnOf(w, c, k, x);
    QuietCall(c, w, k);
    var e := turn.events[0];
    Comes(w, k, e);
    SnapMeans(w.log, k, work.site, w.calls[k].fence, w.calls[k].snap);
    SnapStays(w.log, e, k, work.site, w.calls[k].fence, w.calls[k].snap);
    RefreshedOk(c, w.log + [e], k, work, None, Some(DiscoverFailed));
    assert e in w.log + [e];
    RefreshedHolds(work, None, Some(DiscoverFailed));
    EventTurn(c, w, k, turn, e);
  }

  lemma RefreshedHolds(work: Work, record: Option<Record>, error: Option<Error>)
    ensures HoldsDiscovery(Refreshed(work, record, error)) ==> Refreshed(work, record, error).Settled?
    ensures !Refreshed(work, record, error).Snapping?
  {
  }

  lemma SnapMeans(log: seq<Event>, k: nat, site: Site, f: Fence, s: Snapshot)
    requires SnapOk(log, k, site, f, s)
    ensures Snapped(k, site) in log
  {
  }

  lemma Commits(c: Config, w: World, k: nat, x: Choice)
    requires k in w.calls && w.calls[k].Committing? && Ready(c, w, k, w.calls[k]) && Enabled(w, w.calls[k])
    ensures TurnOk(c, w, k, TurnOf(w, c, k, x))
  {
    hide Ready, TurnOk, GensOf, StoreOk, Staged, Bumps, FenceOk, SnapOk, WriteFree, Refreshed, AnewOk, Holds, DiscoveredOk;
    var call, turn := w.calls[k], TurnOf(w, c, k, x);
    var g := GensOf(w, call.work.site);
    QuietCall(c, w, k);
    RefreshedOk(c, w.log, k, call.work, None, Some(StateChanged));
    RefreshedHolds(call.work, None, Some(StateChanged));
    CommitDecides(w.log, k, call.work.site, call.fence, call.snap, g, g.hard == call.snap.gens.hard + 1 && x.rebases);
    QuietTurn(c, w, k, turn);
  }

  lemma CommitDecides(log: seq<Event>, k: nat, site: Site, f: Fence, s: Snapshot, g: Gens, rebased: bool)
    requires SnapOk(log, k, site, f, s) && g == Gens(Bumps(log, site, Hard), Bumps(log, site, Soft))
    requires rebased ==> g.hard == s.gens.hard + 1
    ensures rebased ==> AnewOk(log, k, site, s.at, true)
    ensures g.hard == s.gens.hard && g.soft != s.gens.soft ==> AnewOk(log, k, site, s.at, false)
    ensures g.hard == s.gens.hard && g.soft == s.gens.soft ==> Holds(log, k, site, Terms(f.readAt, f.revision, s.at, false, false))
  {
    hide Bumps, KeyRevision, NoneStored;
  }

  lemma RereadsFence(c: Config, w: World, k: nat, x: Choice)
    requires k in w.calls && w.calls[k].Rereading? && Ready(c, w, k, w.calls[k])
    ensures TurnOk(c, w, k, TurnOf(w, c, k, x))
  {
    hide Ready, TurnOk, GensOf, StoreOk, Staged, Bumps, Refreshed, AnewOk, Holds, DiscoveredOk, LoadCatalog, KeyRevision, InTurn, RecordOf;
    var call, turn := w.calls[k], TurnOf(w, c, k, x);
    var work := call.work;
    QuietCall(c, w, k);
    LoadIsCurrent(w.store, w.log, c, work.site, x.ended);
    if turn.events == [] {
      var error := Some(StoreFailed(LoadCatalog(w.store, c, work.site, x.ended).error));
      RefreshedOk(c, w.log, k, work, None, error);
      RefreshedHolds(work, None, error);
      QuietTurn(c, w, k, turn);
    } else {
      var e := Reread(k, work.site);
      Comes(w, k, e);
      AskedIn(c, w.log, k, work.site, call.evidence);
      DiscoveredStays(c, w.log, e, k, work.site, call.evidence);
      AnewHolds(w.log, k, work.site, call.snapAt, call.rebased, KeyRevision(w.log, work.site.key));
      EventTurn(c, w, k, turn, e);
    }
  }

  lemma AskedIn(c: Config, log: seq<Event>, k: nat, site: Site, evidence: Evidence)
    requires DiscoveredOk(c, log, k, site, evidence)
    ensures Asked(k, site, true) in log && Genuine(c, site.service, evidence)
  {
  }

  lemma AnewHolds(log: seq<Event>, k: nat, site: Site, snapAt: nat, rebased: bool, fence: nat)
    requires AnewOk(log, k, site, snapAt, rebased) && fence == KeyRevision(log, site.key)
    ensures Holds(log + [Reread(k, site)], k, site, Terms(|log|, fence, snapAt, rebased, true))
  {
    var e := Reread(k, site);
    OneMore(log, e);
    assert (log + [e])[..|log|] == log && (log + [e])[..snapAt] == log[..snapAt];
    hide Bumps, KeyRevision;
  }

  // ----- Writing -----

  lemma PutOk(s: Store, log: seq<Event>, e: Event, evidence: Evidence)
    requires StoreOk(s, log) && ((e.Stored? && e.evidence == evidence) || (e.Cleared? && e.record == Some(evidence)))
    ensures StoreOk(Put(s, e.site.key, evidence), log + [e])
    ensures RecordOf(log + [e], e.site.key) == Some(Record(evidence, s.revision + 1))
  {
    hide KeyRevision, WriteCount, RevisionOf;
    OneMore(log, e);
    PutRevisions(s, e.site.key, evidence);
    LastRecord(log, e);
    hide RecordOf;
  }

  lemma LastRecord(log: seq<Event>, e: Event)
    ensures e.Stored? ==> RecordOf(log + [e], e.site.key) == Some(Record(e.evidence, WriteCount(log) + 1))
    ensures e.Cleared? ==> RecordOf(log + [e], e.site.key) ==
                           match e.record case Some(evidence) => Some(Record(evidence, WriteCount(log) + 1)) case None => None
  {
    OneMore(log, e);
    hide WriteCount;
  }

  lemma DropOk(s: Store, log: seq<Event>, e: Event)
    requires StoreOk(s, log) && e.Cleared? && e.record == None
    ensures StoreOk(Drop(s, e.site.key), log + [e])
  {
    hide KeyRevision, WriteCount, RevisionOf;
    OneMore(log, e);
    DropRevisions(s, e.site.key);
    LastRecord(log, e);
    hide RecordOf;
  }

  lemma WriteTurn(c: Config, w: World, k: nat, turn: Turn, e: Event)
    requires k in w.calls && Ready(c, w, k, w.calls[k]) && turn.events == [e] && StoreOk(turn.store, w.log + [e])
    requires turn.gens == GensOf(w, w.calls[k].work.site) && !e.Bumped?
    requires turn.call.work == w.calls[k].work && Stage(w.calls[k]) <= Stage(turn.call)
    requires HoldsDiscovery(turn.call) ==> HoldsDiscovery(w.calls[k])
    requires !HoldsWrite(turn.call)
    requires EventOk(c, w, k, turn, e) && CallOk(c, w.log + [e], k, turn.call)
    ensures TurnOk(c, w, k, turn)
  {
    hide Kept, Staged, CallOk, EventOk, DiscoveryFree, WriteFree, HoldsDiscovery, HoldsWrite, Stage, StoreOk;
    OneMore(w.log, e);
    hide Bumps;
  }

  lemma Stores(c: Config, w: World, k: nat, x: Choice)
    requires k in w.calls && w.calls[k].Storing? && Ready(c, w, k, w.calls[k])
    ensures TurnOk(c, w, k, TurnOf(w, c, k, x))
  {
    hide Ready, TurnOk, GensOf, StoreOk, Staged, Bumps, Refreshed, Holds, DiscoveredOk, KeyRevision, InTurn, RecordOf, Put, Serves, WriteFree;
    var call, turn := w.calls[k], TurnOf(w, c, k, x);
    var work, evidence, terms := call.work, call.evidence, call.terms;
    QuietCall(c, w, k);
    AskedIn(c, w.log, k, work.site, evidence);
    KeyIsCurrent(w.store, w.log, work.site.key);
    if turn.events == [] {
      RefreshedOk(c, w.log, k, work, None, Some(StoreFailed(ContextEnded)));
      RefreshedHolds(work, None, Some(StoreFailed(ContextEnded)));
      QuietTurn(c, w, k, turn);
    } else {
      var e := turn.events[0];
      Comes(w, k, e);
      if e.Stored? {
        PutOk(w.store, w.log, e, evidence);
        var record := Record(evidence, w.store.revision + 1);
        GenuineServes(c, work.site.service, record);
        RefreshedOk(c, w.log + [e], k, work, Some(record), None);
        RefreshedHolds(work, Some(record), None);
        WriteTurn(c, w, k, turn, e);
      } else {
        EventTurn(c, w, k, turn, e);
      }
    }
  }

  lemma KeyIsCurrent(s: Store, log: seq<Event>, key: Key)
    requires StoreOk(s, log)
    ensures RevisionOf(s, key) == KeyRevision(log, key)
  {
  }

  lemma GenuineServes(c: Config, service: nat, record: Record)
    requires Genuine(c, service, record.evidence)
    ensures Serves(c, service, record)
  {
  }

  lemma Clears(c: Config, w: World, k: nat, x: Choice)
    requires k in w.calls && w.calls[k].Clearing? && Ready(c, w, k, w.calls[k])
    ensures TurnOk(c, w, k, TurnOf(w, c, k, x))
  {
    hide Ready, TurnOk, GensOf, StoreOk, Staged, Bumps, InTurn, Put, Drop, WriteFree, Quiet, WasStored;
    var call, turn := w.calls[k], TurnOf(w, c, k, x);
    QuietCall(c, w, k);
    if turn.events == [] {
      QuietTurn(c, w, k, turn);
    } else {
      var e := turn.events[0];
      Comes(w, k, e);
      if c.conditional {
        DropOk(w.store, w.log, e);
      } else {
        PutOk(w.store, w.log, e, e.record.value);
      }
      WriteTurn(c, w, k, turn, e);
    }
  }

  // ----- Invalidating, and reading what is stored -----

  lemma Invalidates(c: Config, w: World, k: nat, x: Choice)
    requires k in w.calls && w.calls[k].Invalidating? && Ready(c, w, k, w.calls[k]) && Enabled(w, w.calls[k])
    ensures TurnOk(c, w, k, TurnOf(w, c, k, x))
  {
    hide StoreOk, Staged, InTurn, GensOf, Kept, Stage, WriteFree;
    var call, turn := w.calls[k], TurnOf(w, c, k, x);
    var e := Bumped(k, call.work.site, call.mode);
    StagesOf(call, turn.call);
    Comes(w, k, e);
    OneMore(w.log, e);
    BumpedStore(w.store, w.log, e);
    assert (w.log + [e])[|w.log|] == e && Quiet(w.log + [e], |w.log|, call.work.site);
    hide Bumps, Quiet;
  }

  lemma StagesOf(call: Call, next: Call)
    requires call.Invalidating? && next.Clearing?
    ensures Stage(call) == 5 && Stage(next) == 6
  {
  }

  lemma BumpedStore(s: Store, log: seq<Event>, e: Event)
    requires StoreOk(s, log) && e.Bumped?
    ensures StoreOk(s, log + [e])
  {
    OneMore(log, e);
    hide KeyRevision, RecordOf, WriteCount;
  }

  lemma ReadsStored(c: Config, w: World, k: nat, x: Choice)
    requires k in w.calls && Ready(c, w, k, w.calls[k])
    requires w.calls[k].Conflicted? || w.calls[k].Settled? || w.calls[k].Caching?
    ensures TurnOk(c, w, k, TurnOf(w, c, k, x))
  {
    hide Ready, TurnOk, GensOf, StoreOk, Staged, Bumps, LoadCatalog, KeyRevision, RecordOf, Serves, WasStored;
    var call, turn := w.calls[k], TurnOf(w, c, k, x);
    var work := call.work;
    QuietCall(c, w, k);
    LoadIsCurrent(w.store, w.log, c, work.site, x.ended);
    var load := LoadCatalog(w.store, c, work.site, x.ended);
    if load.Read? && load.found.Some? {
      NowStored(w.log, work.begun, work.site.key, load.found.value);
    }
    QuietTurn(c, w, k, turn);
  }

  // ----- Every step, every run -----

  lemma StepOk(c: Config, w: World, k: nat, x: Choice)
    requires WorldOk(c, w) && k in w.calls && Enabled(w, w.calls[k])
    ensures TurnOk(c, w, k, TurnOf(w, c, k, x))
  {
    WorldReady(c, w, k);
    hide WorldOk, TurnOk, Ready, Enabled, TurnOf;
    match w.calls[k] {
      case Waiting(_) => Waits(c, w, k, x);
      case Loading(_) => Loads(c, w, k, x);
      case Snapping(_, _) => Snaps(c, w, k, x);
      case Asking(_, _, _) => Discovers(c, w, k, x);
      case Committing(_, _, _, _) => Commits(c, w, k, x);
      case Rereading(_, _, _, _) => RereadsFence(c, w, k, x);
      case Storing(_, _, _) => Stores(c, w, k, x);
      case Invalidating(_, _) => Invalidates(c, w, k, x);
      case Clearing(_, _) => Clears(c, w, k, x);
      case Done(_, _) => Idles(c, w, k, x);
      case _ => ReadsStored(c, w, k, x);
    }
  }

  lemma Idles(c: Config, w: World, k: nat, x: Choice)
    requires k in w.calls && w.calls[k].Done? && Ready(c, w, k, w.calls[k])
    ensures TurnOk(c, w, k, TurnOf(w, c, k, x))
  {
    hide Ready, TurnOk, GensOf, CallOk;
    QuietCall(c, w, k);
    QuietTurn(c, w, k, TurnOf(w, c, k, x));
  }
}
