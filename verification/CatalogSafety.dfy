/** Every interleaving of the catalog services' calls keeps the fencing rules. */
module CatalogSafety {
  import opened Options
  import opened CatalogStore
  import opened CatalogLog
  import opened CatalogService

  // ----- The invariant -----

  function Stage(call: Call): nat {
    match call
    case Waiting(_) => 0
    case Loading(_) => 0
    case Caching(_) => 0
    case Snapping(_, _) => 1
    case Asking(_, _, _) => 2
    case Committing(_, _, _, _) => 3
    case Rereading(_, _, _, _) => 3
    case Storing(_, _, _) => 4
    case Conflicted(_) => 5
    case Settled(_, _) => 5
    case Invalidating(_, _) => 5
    case Clearing(_, _) => 6
    case Done(_, _) => 7
  }

  predicate Staged(log: seq<Event>, calls: map<nat, Call>) {
    forall i :: 0 <= i < |log| ==> log[i].call in calls && Rank(log[i]) < Stage(calls[log[i].call])
  }

  /** The store is what its history says. */
  ghost predicate StoreOk(s: Store, log: seq<Event>) {
    && s.revision == WriteCount(log)
    && forall key :: RevisionOf(s, key) == KeyRevision(log, key) && Lookup(s, key) == RecordOf(log, key)
  }

  ghost predicate GensOk(w: World) {
    forall site :: GensOf(w, site) == Gens(Bumps(w.log, site, Hard), Bumps(w.log, site, Soft))
  }

  ghost predicate Exclusive(w: World) {
    forall j, k :: j in w.calls && k in w.calls && j != k && w.calls[j].work.site == w.calls[k].work.site ==>
      && !(HoldsDiscovery(w.calls[j]) && HoldsDiscovery(w.calls[k]))
      && !(HoldsWrite(w.calls[j]) && HoldsWrite(w.calls[k]))
  }

  predicate FenceOk(log: seq<Event>, k: nat, site: Site, f: Fence) {
    && f.readAt < |log| && log[f.readAt] == Loaded(k, site, false)
    && KeyRevision(log[..f.readAt], site.key) == f.revision && NoneStored(log, f.readAt, site)
  }

  predicate SnapOk(log: seq<Event>, k: nat, site: Site, f: Fence, s: Snapshot) {
    && FenceOk(log, k, site, f) && f.readAt < s.at < |log| && log[s.at] == Snapped(k, site)
    && s.gens == Gens(Bumps(log[..s.at], site, Hard), Bumps(log[..s.at], site, Soft))
  }

  predicate DiscoveredOk(c: Config, log: seq<Event>, k: nat, site: Site, evidence: Evidence) {
    Asked(k, site, true) in log && Genuine(c, site.service, evidence)
  }

  predicate AnewOk(log: seq<Event>, k: nat, site: Site, snapAt: nat, rebased: bool) {
    && snapAt < |log| && log[snapAt] == Snapped(k, site)
    && Bumps(log, site, Hard) == Bumps(log[..snapAt], site, Hard) + (if rebased then 1 else 0)
    && (rebased || Bumps(log, site, Soft) != Bumps(log[..snapAt], site, Soft))
  }

  predicate ClearingOk(log: seq<Event>, k: nat, site: Site) {
    exists b :: 0 <= b < |log| && log[b].Bumped? && log[b].call == k && log[b].site == site && Quiet(log, b, site)
  }

  /** The record was the stored one at an instant from begun on. */
  predicate WasStored(log: seq<Event>, begun: nat, key: Key, record: Record) {
    exists p :: begun <= p <= |log| && RecordOf(log[..p], key) == Some(record)
  }

  predicate ReplyOk(c: Config, log: seq<Event>, work: Work, reply: Reply) {
    && (reply.error.None? && reply.record.Some? ==>
          WasStored(log, work.begun, work.site.key, reply.record.value) && Serves(c, work.site.service, reply.record.value))
    && (work.job.ReadJob? && reply.error.None? ==> reply.record.Some?)
  }

  /** Cached writes nothing and asks nobody. */
  predicate Silent(log: seq<Event>, k: nat, call: Call) {
    call.work.job.CachedJob? ==> (call.Caching? || call.Done?) && forall i :: 0 <= i < |log| ==> log[i].call != k
  }

  predicate CallOk(c: Config, log: seq<Event>, k: nat, call: Call) {
    var site := call.work.site;
    && call.work.begun <= |log| && Silent(log, k, call)
    && match call
       case Snapping(_, fence) => FenceOk(log, k, site, fence)
       case Asking(_, fence, snap) => SnapOk(log, k, site, fence, snap)
       case Committing(_, fence, snap, evidence) => SnapOk(log, k, site, fence, snap) && DiscoveredOk(c, log, k, site, evidence)
       case Rereading(_, snapAt, rebased, evidence) =>
         AnewOk(log, k, site, snapAt, rebased) && DiscoveredOk(c, log, k, site, evidence)
       case Storing(_, evidence, terms) => Holds(log, k, site, terms) && DiscoveredOk(c, log, k, site, evidence)
       case Caching(work) => work.job.CachedJob?
       case Invalidating(work, _) => work.job.InvalidateJob?
       case Clearing(work, _) => work.job.InvalidateJob? && ClearingOk(log, k, site)
       case Done(work, reply) => ReplyOk(c, log, work, reply)
       case _ => true
  }

  ghost predicate WorldOk(c: Config, w: World) {
    && Kept(c, w.log) && Staged(w.log, w.calls) && StoreOk(w.store, w.log) && GensOk(w) && Exclusive(w)
    && forall k :: k in w.calls ==> CallOk(c, w.log, k, w.calls[k])
  }

  // ----- What other calls' events leave alone -----

  /** An event of another call respects the locks a call of this site holds. */
  predicate Respects(e: Event, k: nat, call: Call) {
    && e.call != k
    && (e.site == call.work.site && HoldsDiscovery(call) ==> !e.Stored?)
    && (e.site == call.work.site && HoldsWrite(call) ==> !e.Snapped? && !e.Stored? && !e.Bumped? && !e.Cleared?)
  }

  lemma FenceStays(log: seq<Event>, e: Event, k: nat, site: Site, f: Fence)
    requires FenceOk(log, k, site, f) && !(e.site == site && e.Stored?)
    ensures FenceOk(log + [e], k, site, f)
  {
    assert (log + [e])[..f.readAt] == log[..f.readAt];
    hide KeyRevision;
  }

  lemma SnapStays(log: seq<Event>, e: Event, k: nat, site: Site, f: Fence, s: Snapshot)
    requires SnapOk(log, k, site, f, s) && !(e.site == site && e.Stored?)
    ensures SnapOk(log + [e], k, site, f, s)
  {
    FenceStays(log, e, k, site, f);
    assert (log + [e])[..s.at] == log[..s.at];
    hide FenceOk, Bumps;
  }

  lemma DiscoveredStays(c: Config, log: seq<Event>, e: Event, k: nat, site: Site, evidence: Evidence)
    requires DiscoveredOk(c, log, k, site, evidence)
    ensures DiscoveredOk(c, log + [e], k, site, evidence)
  {
  }

  lemma AnewStays(log: seq<Event>, e: Event, k: nat, site: Site, snapAt: nat, rebased: bool)
    requires AnewOk(log, k, site, snapAt, rebased) && !(e.site == site && e.Bumped?)
    ensures AnewOk(log + [e], k, site, snapAt, rebased)
  {
    OneMore(log, e);
    assert (log + [e])[..snapAt] == log[..snapAt];
    hide Bumps;
  }

  lemma HoldsStays(log: seq<Event>, e: Event, k: nat, site: Site, t: Terms)
    requires Holds(log, k, site, t) && !(e.site == site && (e.Stored? || e.Bumped? || e.Cleared?))
    ensures Holds(log + [e], k, site, t)
  {
    OneMore(log, e);
    assert (log + [e])[..t.snapAt] == log[..t.snapAt] && (log + [e])[..t.readAt] == log[..t.readAt];
    hide Bumps, KeyRevision;
  }

  lemma ClearingStays(log: seq<Event>, e: Event, k: nat, site: Site)
    requires ClearingOk(log, k, site) && !(e.site == site && (e.Snapped? || e.Stored? || e.Bumped? || e.Cleared?))
    ensures ClearingOk(log + [e], k, site)
  {
    var b :| 0 <= b < |log| && log[b].Bumped? && log[b].call == k && log[b].site == site && Quiet(log, b, site);
    assert (log + [e])[b] == log[b] && Quiet(log + [e], b, site);
  }

  lemma ReplyStays(c: Config, log: seq<Event>, e: Event, work: Work, reply: Reply)
    requires ReplyOk(c, log, work, reply)
    ensures ReplyOk(c, log + [e], work, reply)
  {
    if reply.error.None? && reply.record.Some? {
      var p :| work.begun <= p <= |log| && RecordOf(log[..p], work.site.key) == Some(reply.record.value);
      assert (log + [e])[..p] == log[..p];
    }
    hide RecordOf, Serves;
  }

  lemma OtherCall(c: Config, log: seq<Event>, e: Event, k: nat, call: Call)
    requires CallOk(c, log, k, call) && Respects(e, k, call)
    ensures CallOk(c, log + [e], k, call)
  {
    hide FenceOk, SnapOk, DiscoveredOk, AnewOk, Holds, ClearingOk, ReplyOk;
    var site := call.work.site;
    match call {
      case Snapping(_, fence) => FenceStays(log, e, k, site, fence);
      case Asking(_, fence, snap) => SnapStays(log, e, k, site, fence, snap);
      case Committing(_, fence, snap, evidence) =>
        SnapStays(log, e, k, site, fence, snap); DiscoveredStays(c, log, e, k, site, evidence);
      case Rereading(_, snapAt, rebased, evidence) =>
        AnewStays(log, e, k, site, snapAt, rebased); DiscoveredStays(c, log, e, k, site, evidence);
      case Storing(_, evidence, terms) => HoldsStays(log, e, k, site, terms); DiscoveredStays(c, log, e, k, site, evidence);
      case Clearing(_, _) => ClearingStays(log, e, k, site);
      case Done(work, reply) => ReplyStays(c, log, e, work, reply);
      case _ =>
    }
  }

  // ----- One step -----

  /** What one step of a call must see to. */
  ghost predicate TurnOk(c: Config, w: World, k: nat, turn: Turn)
    requires k in w.calls
  {
    var call := w.calls[k];
    && |turn.events| <= 1 && turn.call.work == call.work && Stage(call) <= Stage(turn.call)
    && (turn.events != [] ==> EventOk(c, w, k, turn, turn.events[0]))
    && StoreOk(turn.store, w.log + turn.events)
    && turn.gens == Gens(Bumps(w.log + turn.events, call.work.site, Hard), Bumps(w.log + turn.events, call.work.site, Soft))
    && (HoldsDiscovery(turn.call) ==> HoldsDiscovery(call) || DiscoveryFree(w, call.work.site))
    && (HoldsWrite(turn.call) ==> HoldsWrite(call) || WriteFree(w, call.work.site))
    && CallOk(c, w.log + turn.events, k, turn.call)
  }

  ghost predicate EventOk(c: Config, w: World, k: nat, turn: Turn, e: Event)
    requires k in w.calls
  {
    && e.call == k && e.site == w.calls[k].work.site && Due(c, w.log, e)
    && Stage(w.calls[k]) <= Rank(e) < Stage(turn.call)
    && (e.Stored? ==> HoldsDiscovery(w.calls[k]) && HoldsWrite(w.calls[k]))
    && (e.Snapped? || e.Bumped? || e.Cleared? ==> HoldsWrite(w.calls[k]) || WriteFree(w, e.site))
  }

  lemma StagedMore(log: seq<Event>, calls: map<nat, Call>, k: nat, call: Call, events: seq<Event>)
    requires Staged(log, calls) && (k in calls ==> Stage(calls[k]) <= Stage(call))
    requires forall e :: e in events ==> e.call == k && Rank(e) < Stage(call)
    ensures Staged(log + events, calls[k := call])
  {
    hide Stage, Rank;
  }

  lemma GensMove(w: World, k: nat, turn: Turn)
    requires GensOk(w) && |turn.events| <= 1 && (turn.events != [] ==> turn.events[0].site == turn.call.work.site)
    requires var site := turn.call.work.site;
             turn.gens == Gens(Bumps(w.log + turn.events, site, Hard), Bumps(w.log + turn.events, site, Soft))
    ensures GensOk(Moved(w, k, turn))
  {
    var v := Moved(w, k, turn);
    if turn.events == [] {
      assert w.log + turn.events == w.log;
    } else {
      assert turn.events == [turn.events[0]];
      OneMore(w.log, turn.events[0]);
    }
    forall site ensures GensOf(v, site) == Gens(Bumps(v.log, site, Hard), Bumps(v.log, site, Soft)) {
      if site != turn.call.work.site { assert GensOf(v, site) == GensOf(w, site); }
    }
    hide Bumps;
  }

  lemma ExclusiveMoves(c: Config, w: World, k: nat, turn: Turn)
    requires Exclusive(w) && k in w.calls && TurnOk(c, w, k, turn)
    ensures Exclusive(Moved(w, k, turn))
  {
    hide EventOk, StoreOk, CallOk, HoldsDiscovery, HoldsWrite, Stage, Bumps;
  }

  /** Locks make every step's event respect the other calls. */
  lemma LocksAreRespected(c: Config, w: World, k: nat, turn: Turn, j: nat)
    requires Exclusive(w) && k in w.calls && j in w.calls && j != k
    requires turn.events != [] && EventOk(c, w, k, turn, turn.events[0])
    ensures Respects(turn.events[0], j, w.calls[j])
  {
    hide Due, Stage, HoldsDiscovery, HoldsWrite;
  }

  lemma TurnKeeps(c: Config, w: World, k: nat, turn: Turn)
    requires WorldOk(c, w) && k in w.calls && TurnOk(c, w, k, turn)
    ensures WorldOk(c, Moved(w, k, turn))
  {
    hide StoreOk, GensOk, Exclusive, CallOk, Kept, Staged, Due, Respects, Bumps, DiscoveryFree, WriteFree;
    var v := Moved(w, k, turn);
    ExclusiveMoves(c, w, k, turn);
    GensMove(w, k, turn);
    StagedMore(w.log, w.calls, k, turn.call, turn.events);
    if turn.events == [] {
      assert v.log == w.log;
    } else {
      var e := turn.events[0];
      assert turn.events == [e];
      KeptMore(c, w.log, e);
      forall j | j in v.calls && j != k ensures CallOk(c, v.log, j, v.calls[j]) {
        LocksAreRespected(c, w, k, turn, j);
        OtherCall(c, w.log, e, j, w.calls[j]);
      }
    }
  }
}
