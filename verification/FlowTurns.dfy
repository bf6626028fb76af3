/** Each step of each call of the OAuth service is all right, so every run keeps the protocol. */
module FlowTurns {
  import opened Options
  import opened FlowStore
  import opened FlowLog
  import opened FlowService
  import opened FlowSafety

  // ----- Store operations -----

  lemma FollowsMoves(s: Store, t: Store, id: string)
    requires Follows(s, t, id)
    ensures Moves(s, t, id, false)
  {
    hide Derives;
  }

  /** An operation that takes no revision leaves progress and consumption as they are. */
  lemma QuietStored(s: Store, t: Store, id: string, i: string, log: seq<Event>)
    requires Follows(s, t, id) && t.revision == s.revision
    requires i in s.flows ==> StoredOk(s.flows[i].flow, log)
    ensures i in t.flows ==> StoredOk(t.flows[i].flow, log)
  {
    if i in t.flows { assert Derives(s.flows[i], t.flows[i]); }
    hide EndOf, NoneTaken, Matches;
  }

  /** A step that writes nothing and asks nobody. */
  lemma QuietTurn(w: World, k: nat, turn: Turn, touched: string)
    requires WorldOk(w) && k in w.calls && turn.events == []
    requires Follows(w.store, turn.store, touched) && turn.store.revision == w.store.revision
    requires !turn.call.Creating? && Stage(w.calls[k]) <= Stage(turn.call) && FlowOf(turn.call) in {"", turn.id}
    requires CallOk(turn.store, k, turn.call, Log(w, FlowOf(turn.call)))
    ensures TurnOk(w, k, turn)
  {
    hide Inv, Follows, Moves, FlowOk, DraftsOk, CallOk, StoredOk, EventOk, Log;
    FollowsKeeps(w.store, turn.store, touched);
    QuietMoves(w.store, turn.store, touched, turn.id);
    FlowKept(w, turn.id);
    QuietStored(w.store, turn.store, touched, turn.id, Log(w, turn.id));
    assert Log(w, turn.id) + turn.events == Log(w, turn.id);
  }

  lemma QuietMoves(s: Store, t: Store, touched: string, id: string)
    requires Follows(s, t, touched) && t.revision == s.revision
    ensures Moves(s, t, id, false)
  {
    hide Derives;
  }

  lemma CopyOf(s: Store, id: string)
    requires Inv(s) && id in s.flows
    ensures Copy(s, s.flows[id].flow) && s.flows[id].flow.about.id == id
  {
    assert EntryOk(s, id);
    hide Blank;
  }

  // ----- Get -----

  lemma Reads(w: World, c: Config, k: nat, x: Choice)
    requires WorldOk(w) && k in w.calls
    requires var call := w.calls[k]; call.Looking? || call.Polling? || call.Completing? || call.Redirected?
    ensures TurnOk(w, k, Act(w.store, c, k, w.calls[k], x))
  {
    hide Inv, Follows, FlowOk, DraftsOk, CallOk, TurnOk, Owned, BeforeClaim, BeforeConsume, AfterRedirect;
    var s, call := w.store, w.calls[k];
    OwnedTouchesNothing(s, c, call.caller, call.id, x.now);
    OwnedFollows(s, c, call.caller, call.id, x.now);
    RestrictFollowsAll(s, "");
    var turn := Act(s, c, k, call, x);
    if Get(s, c, x.ended, call.caller, call.id, x.now).1.Ok? {
      CopyOf(s, call.id);
      Continues(w, k, s.flows[call.id].flow, x);
    }
    DoneIsOk(k);
    QuietTurn(w, k, turn, "");
  }

  lemma DoneIsOk(k: nat)
    ensures forall s, log :: CallOk(s, k, Done, log)
  {
  }

  /** What a read flow leads to. */
  lemma Continues(w: World, k: nat, f: Flow, x: Choice)
    requires WorldOk(w) && f.about.id in w.store.flows && w.store.flows[f.about.id].flow == f && Copy(w.store, f)
    ensures Advances(w, k, f, BeforeClaim(f, x))
    ensures forall input :: Advances(w, k, f, BeforeConsume(f, input, x)) && Advances(w, k, f, AfterRedirect(f, input, x))
  {
    FlowKept(w, f.about.id);
    hide Inv, FlowOk, DraftsOk, Copy, Kept, Staged, EndOf, NoneTaken, Matches;
  }

  ghost predicate Advances(w: World, k: nat, f: Flow, call: Call) {
    && !call.Creating? && FlowOf(call) in {"", f.about.id}
    && CallOk(w.store, k, call, Log(w, FlowOf(call)))
  }

  // ----- Update -----

  /** An update lands exactly on the revision it read, and changes progress alone. */
  lemma UpdateEither(s: Store, c: Config, ended: bool, f: Flow, progress: Progress, now: Instant)
    requires Inv(s)
    ensures var r := Update(s, c, ended, f.about.caller, f.about.id, f.revision, progress, now);
            && Follows(s, r.0, f.about.id)
            && (r.1.Err? ==> r.0.revision == s.revision)
            && (r.1.Ok? ==> Landed(s, r.0, f, progress) && r.1.value == r.0.flows[f.about.id].flow)
  {
    hide Inv, Follows, Owned;
    UpdateFollows(s, c, ended, f.about.caller, f.about.id, f.revision, progress, now);
    OwnedFollows(s, c, f.about.caller, f.about.id, now);
    OwnedTouchesNothing(s, c, f.about.caller, f.about.id, now);
  }

  predicate Landed(s: Store, t: Store, f: Flow, progress: Progress) {
    var id := f.about.id;
    && Current(s, f) && id in t.flows && t.revision == s.revision + 1
    && t.flows[id].flow == s.flows[id].flow.(progress := progress, revision := s.revision + 1)
  }

  /** A landed write of progress. */
  lemma LandedTurn(w: World, k: nat, turn: Turn, f: Flow, progress: Progress, e: Event)
    requires WorldOk(w) && k in w.calls && turn.events == [e] && turn.id == f.about.id && e.call == k
    requires Follows(w.store, turn.store, turn.id) && Landed(w.store, turn.store, f, progress)
    requires !e.Started? && Stage(w.calls[k]) <= Rank(e) < Stage(turn.call) && !turn.call.Creating? && FlowOf(turn.call) in {"", turn.id}
    requires Due(Log(w, turn.id), e)
    requires StoredOk(w.store.flows[turn.id].flow.(progress := progress), Log(w, turn.id) + [e])
    requires CallOk(turn.store, k, turn.call, if FlowOf(turn.call) == turn.id then Log(w, turn.id) + [e] else Log(w, ""))
    ensures TurnOk(w, k, turn)
  {
    hide Inv, Follows, Moves, FlowOk, DraftsOk, CallOk, EndOf, NoneTaken, Matches, Due, Log, Rank, Stage, Schedules;
    FollowsKeeps(w.store, turn.store, turn.id);
    FollowsMoves(w.store, turn.store, turn.id);
    FlowKept(w, turn.id);
  }

  /** A failed write ends the call. */
  lemma FailedTurn(w: World, k: nat, turn: Turn, touched: string)
    requires WorldOk(w) && k in w.calls && turn.events == [] && turn.call == Done
    requires Follows(w.store, turn.store, touched) && turn.store.revision == w.store.revision
    ensures TurnOk(w, k, turn)
  {
    hide Inv, Follows, FlowOk, DraftsOk, TurnOk;
    DoneIsOk(k);
    hide CallOk;
    QuietTurn(w, k, turn, touched);
  }

  /** A call has done nothing of a rank it has not come to. */
  lemma TurnComes(w: World, k: nat, id: string, e: Event)
    requires k in w.calls && Staged(Log(w, id), w.calls) && e.call == k && Stage(w.calls[k]) <= Rank(e)
    ensures InTurn(Log(w, id), e)
  {
    hide Stage, Rank, Log;
  }

  /** What the store holds of a copied flow that is still current. */
  lemma CurrentStored(w: World, f: Flow)
    requires WorldOk(w) && Copy(w.store, f) && Current(w.store, f)
    ensures var g := w.store.flows[f.about.id].flow;
            && g.progress == f.progress && g.consumedAt == f.consumedAt && g.about == f.about
            && StoredOk(g, Log(w, f.about.id)) && Kept(Log(w, f.about.id)) && Staged(Log(w, f.about.id), w.calls)
            && StoredOk(f, Log(w, f.about.id))
  {
    FlowKept(w, f.about.id);
    hide Inv, FlowOk, DraftsOk, CallOk, Kept, Staged, Matches, NoneTaken, EndOf;
  }

  // ----- Poll: claim, ask, slow down -----

  lemma ScheduledStored(g: Flow, f: Flow, progress: Progress, log: seq<Event>, e: Event)
    requires StoredOk(g, log) && Pollable(f) && g.consumedAt == f.consumedAt && g.about == f.about && g.progress == f.progress
    requires Schedules(e) && !e.Started? && progress == f.progress.(interval := e.interval, nextPollAt := NextPollAt(e))
    ensures StoredOk(g.(progress := progress), log + [e])
  {
    LastScheduleMore(log, e);
    hide LastSchedule, EndOf;
  }

  lemma Claims(w: World, c: Config, k: nat, x: Choice)
    requires WorldOk(w) && k in w.calls && w.calls[k].Claiming?
    ensures TurnOk(w, k, Act(w.store, c, k, w.calls[k], x))
  {
    hide Inv, Follows, FlowOk, DraftsOk, TurnOk, Update, ClaimedOk, Copy, Landed, Due, StoredOk;
    var s, f, now := w.store, w.calls[k].flow, w.calls[k].now;
    var log, turn := Log(w, f.about.id), Act(s, c, k, w.calls[k], x);
    assert FlowOf(w.calls[k]) == f.about.id;
    assert CallOk(s, k, w.calls[k], log);
    var progress := f.progress.(nextPollAt := now + f.progress.interval);
    UpdateEither(s, c, x.ended, f, progress, x.now);
    if turn.events == [] {
      FailedTurn(w, k, turn, f.about.id);
    } else {
      var e := Claimed(k, now, f.progress.interval);
      LandedIsCurrent(s, turn.store, f, progress);
      CurrentStored(w, f);
      TurnComes(w, k, f.about.id, e);
      ClaimIsDue(f, log, e);
      ScheduledStored(s.flows[f.about.id].flow, f, progress, log, e);
      ClaimedIsOk(s, turn.store, k, f, now, progress, log);
      LandedTurn(w, k, turn, f, progress, e);
    }
  }

  lemma LandedIsCurrent(s: Store, t: Store, f: Flow, progress: Progress)
    requires Landed(s, t, f, progress)
    ensures Current(s, f) && f.about.id in s.flows && f.about.id in t.flows
  {
  }

  lemma ClaimIsDue(f: Flow, log: seq<Event>, e: Event)
    requires StoredOk(f, log) && Pollable(f) && InTurn(log, e) && e.Claimed?
    requires e.interval == f.progress.interval && e.now >= f.progress.nextPollAt
    ensures Due(log, e)
  {
    hide EndOf, NoneTaken, InTurn, LastSchedule;
  }

  lemma ClaimedIsOk(s: Store, t: Store, k: nat, f: Flow, now: Time, progress: Progress, log: seq<Event>)
    requires Landed(s, t, f, progress) && progress == f.progress.(nextPollAt := now + f.progress.interval)
    requires Pollable(f) && s.flows[f.about.id].flow.consumedAt == f.consumedAt && s.flows[f.about.id].flow.about == f.about
    ensures ClaimedOk(t, k, t.flows[f.about.id].flow, now, log + [Claimed(k, now, f.progress.interval)])
    ensures t.flows[f.about.id].flow.about.id == f.about.id
  {
    var e := Claimed(k, now, f.progress.interval);
    LastScheduleMore(log, e);
    assert (log + [e])[|log|] == e;
    hide LastSchedule;
  }

  lemma Asks(w: World, c: Config, k: nat, x: Choice)
    requires WorldOk(w) && k in w.calls && w.calls[k].Asking?
    ensures TurnOk(w, k, Act(w.store, c, k, w.calls[k], x))
  {
    hide Inv, FlowOk, DraftsOk, TurnOk, Copy, Due, StoredOk, Log, Follows, Moves, LastSchedule;
    var s, f := w.store, w.calls[k].flow;
    var log, turn, e := Log(w, f.about.id), Act(s, c, k, w.calls[k], x), Asked(k);
    assert FlowOf(w.calls[k]) == f.about.id;
    assert CallOk(s, k, w.calls[k], log);
    FlowKept(w, f.about.id);
    TurnComes(w, k, f.about.id, e);
    AskIsDue(k, f, w.calls[k].now, s, log);
    LastScheduleMore(log, e);
    StandingTurn(w, k, turn, e);
  }

  lemma AskIsDue(k: nat, f: Flow, now: Time, s: Store, log: seq<Event>)
    requires ClaimedOk(s, k, f, now, log) && InTurn(log, Asked(k))
    ensures Due(log, Asked(k))
  {
    var i :| 0 <= i < |log| && log[i] == Claimed(k, now, f.progress.interval);
    hide InTurn, Copy, LastSchedule;
  }

  /** A step that leaves the store alone and asks somebody. */
  lemma StandingTurn(w: World, k: nat, turn: Turn, e: Event)
    requires WorldOk(w) && k in w.calls && turn.events == [e] && turn.store == w.store && e.call == k
    requires e.Asked? || e.Exchanged? || e.Saved?
    requires Stage(w.calls[k]) <= Rank(e) < Stage(turn.call) && !turn.call.Creating? && FlowOf(turn.call) in {"", turn.id}
    requires Due(Log(w, turn.id), e)
    requires CallOk(turn.store, k, turn.call, if FlowOf(turn.call) == turn.id then Log(w, turn.id) + [e] else Log(w, ""))
    ensures TurnOk(w, k, turn)
  {
    hide Inv, Follows, Moves, FlowOk, DraftsOk, CallOk, Log, Rank, Stage;
    FlowKept(w, turn.id);
    RestrictFollowsAll(w.store, turn.id);
    FollowsMoves(w.store, turn.store, turn.id);
    StandingStored(w, turn.id, e);
    hide StoredOk;
    DueLater(Log(w, turn.id), e);
    hide Due;
  }

  lemma DueLater(log: seq<Event>, e: Event)
    requires Due(log, e) && (e.Asked? || e.Exchanged? || e.Saved?)
    ensures log != []
  {
  }

  lemma StandingStored(w: World, id: string, e: Event)
    requires !Schedules(e) && !e.Ended? && !e.Taken?
    requires id in w.store.flows ==> StoredOk(w.store.flows[id].flow, Log(w, id))
    ensures id in w.store.flows ==> StoredOk(w.store.flows[id].flow, Log(w, id) + [e])
  {
    LastScheduleMore(Log(w, id), e);
    hide LastSchedule, EndOf, Log, Schedules;
  }

  lemma SlowsDown(w: World, c: Config, k: nat, x: Choice)
    requires WorldOk(w) && k in w.calls && w.calls[k].Slowing?
    ensures TurnOk(w, k, Act(w.store, c, k, w.calls[k], x))
  {
    hide Inv, Follows, FlowOk, DraftsOk, TurnOk, Update, Copy, Landed, Due, StoredOk, LastSchedule, Log;
    var s, f, now := w.store, w.calls[k].flow, w.calls[k].now;
    var log, turn := Log(w, f.about.id), Act(s, c, k, w.calls[k], x);
    assert FlowOf(w.calls[k]) == f.about.id;
    assert CallOk(s, k, w.calls[k], log);
    var interval := f.progress.interval + SLOW_DOWN_STEP;
    var progress := f.progress.(interval := interval, nextPollAt := now + interval);
    UpdateEither(s, c, x.ended, f, progress, x.now);
    if turn.events == [] {
      FailedTurn(w, k, turn, f.about.id);
    } else {
      var e := Slowed(k, now, interval);
      LandedIsCurrent(s, turn.store, f, progress);
      CurrentStored(w, f);
      TurnComes(w, k, f.about.id, e);
      SlowIsDue(log, e);
      ScheduledStored(s.flows[f.about.id].flow, f, progress, log, e);
      DoneIsOk(k);
      LandedTurn(w, k, turn, f, progress, e);
    }
  }

  lemma SlowIsDue(log: seq<Event>, e: Event)
    requires e.Slowed? && InTurn(log, e) && LastSchedule(log) == Some(Claimed(e.call, e.now, e.interval - SLOW_DOWN_STEP))
    ensures Due(log, e)
  {
    hide InTurn, LastSchedule;
  }

  // ----- Consume and what follows it -----

  predicate TakenBy(s: Store, t: Store, id: string, f: Flow) {
    && id in s.flows && id in t.flows && !Consumed(s.flows[id].flow) && t.revision == s.revision + 1
    && Consumed(f) && f.about == s.flows[id].flow.about && f.about.id == id && f.revision == t.revision
    && f.progress == s.flows[id].flow.progress && t.flows[id].flow == f.(secrets := NO_SECRETS)
  }

  lemma ConsumeEither(s: Store, c: Config, ended: bool, caller: Caller, id: string, now: Instant, at: Instant)
    requires Inv(s)
    ensures var r := Consume(s, c, ended, caller, id, now, at);
            && Follows(s, r.0, id)
            && (r.1.Err? ==> r.0.revision == s.revision)
            && (r.1.Ok? ==> TakenBy(s, r.0, id, r.1.value))
  {
    hide Inv, Follows, Owned;
    ConsumeFollows(s, c, ended, caller, id, now, at);
    OwnedFollows(s, c, caller, id, now);
    OwnedTouchesNothing(s, c, caller, id, now);
    if id in s.flows { CopyOf(s, id); }
  }

  lemma NothingSaved(log: seq<Event>)
    requires Kept(log) && NoneTaken(log)
    ensures NoneSaved(log)
  {
    forall i | 0 <= i < |log| ensures !log[i].Saved? {
      assert Due(log[..i], log[i]);
    }
    hide Kept;
  }

  /** The consumer has not saved before it comes to saving. */
  lemma NotSavedYet(w: World, k: nat, id: string)
    requires k in w.calls && Kept(Log(w, id)) && Staged(Log(w, id), w.calls) && Taken(k) in Log(w, id) && Stage(w.calls[k]) <= 6
    ensures NoneSaved(Log(w, id))
  {
    var log := Log(w, id);
    hide Log, Stage;
    var t :| 0 <= t < |log| && log[t] == Taken(k);
    forall i | 0 <= i < |log| ensures !log[i].Saved? {
      if log[i].Saved? {
        var b := SpenderTook(log, i);
        TakenOnce(log, t, b);
      }
    }
    hide Kept;
  }

  lemma TakenStored(s: Store, t: Store, id: string, f: Flow, log: seq<Event>, k: nat)
    requires TakenBy(s, t, id, f) && StoredOk(s.flows[id].flow, log)
    ensures StoredOk(t.flows[id].flow, log + [Taken(k)]) && HolderOk(t, k, f, log + [Taken(k)]) && log != [] && NoneTaken(log)
    ensures t.flows[id].flow.revision > s.revision
  {
    LastScheduleMore(log, Taken(k));
    assert (log + [Taken(k)])[|log|] == Taken(k);
    hide LastSchedule, EndOf;
  }

  lemma TakenTurn(w: World, k: nat, turn: Turn, f: Flow)
    requires WorldOk(w) && k in w.calls && w.calls[k].Consuming? && turn.events == [Taken(k)]
    requires Follows(w.store, turn.store, turn.id) && TakenBy(w.store, turn.store, turn.id, f)
    requires turn.call == Spend(f, w.calls[k].purpose)
    ensures TurnOk(w, k, turn)
  {
    hide Inv, Follows, Moves, FlowOk, DraftsOk, StoredOk, HolderOk, Kept, Staged, Log, InTurn;
    assert CallOk(w.store, k, w.calls[k], Log(w, ""));
    FollowsKeeps(w.store, turn.store, turn.id);
    FollowsMoves(w.store, turn.store, turn.id);
    TakenIn(w.store, turn.store, turn.id, f);
    FlowKept(w, turn.id);
    var log := Log(w, turn.id);
    TakenStored(w.store, turn.store, turn.id, f, log, k);
    TurnComes(w, k, turn.id, Taken(k));
    NothingSaved(log);
    hide TakenBy;
  }

  lemma TakenIn(s: Store, t: Store, id: string, f: Flow)
    requires TakenBy(s, t, id, f)
    ensures id in s.flows && f.about.id == id
  {
  }

  lemma Takes(w: World, c: Config, k: nat, x: Choice)
    requires WorldOk(w) && k in w.calls && w.calls[k].Consuming?
    ensures TurnOk(w, k, Act(w.store, c, k, w.calls[k], x))
  {
    hide Inv, Follows, FlowOk, DraftsOk, CallOk, TurnOk, Consume, TakenBy, Spend;
    var s, call := w.store, w.calls[k];
    var turn := Act(s, c, k, call, x);
    ConsumeEither(s, c, x.ended, call.caller, call.id, x.now, x.later);
    if turn.events == [] {
      FailedTurn(w, k, turn, call.id);
    } else {
      TakenTurn(w, k, turn, Consume(s, c, x.ended, call.caller, call.id, x.now, x.later).1.value);
    }
  }

  lemma HolderMore(s: Store, k: nat, f: Flow, log: seq<Event>, e: Event)
    requires HolderOk(s, k, f, log)
    ensures HolderOk(s, k, f, log + [e])
  {
    hide Copy;
  }

  lemma Exchanges(w: World, c: Config, k: nat, x: Choice)
    requires WorldOk(w) && k in w.calls && w.calls[k].Exchanging?
    ensures TurnOk(w, k, Act(w.store, c, k, w.calls[k], x))
  {
    hide Inv, FlowOk, DraftsOk, TurnOk, StoredOk, Log, Kept, Staged, HolderOk, InTurn;
    var s, f := w.store, w.calls[k].flow;
    var log, turn, e := Log(w, f.about.id), Act(s, c, k, w.calls[k], x), Exchanged(k);
    assert FlowOf(w.calls[k]) == f.about.id;
    assert CallOk(s, k, w.calls[k], log);
    FlowKept(w, f.about.id);
    TurnComes(w, k, f.about.id, e);
    HolderTook(s, k, f, log);
    HolderMore(s, k, f, log, e);
    NotSavedYet(w, k, f.about.id);
    StandingTurn(w, k, turn, e);
  }

  lemma HolderTook(s: Store, k: nat, f: Flow, log: seq<Event>)
    requires HolderOk(s, k, f, log)
    ensures Taken(k) in log
  {
  }

  lemma Saves(w: World, c: Config, k: nat, x: Choice)
    requires WorldOk(w) && k in w.calls && w.calls[k].Saving?
    ensures TurnOk(w, k, Act(w.store, c, k, w.calls[k], x))
  {
    hide Inv, FlowOk, DraftsOk, TurnOk, StoredOk, Log, Kept, Staged, HolderOk, InTurn, Blank, Follows;
    var s, f := w.store, w.calls[k].flow;
    var log, turn, e := Log(w, f.about.id), Act(s, c, k, w.calls[k], x), Saved(k, x.key, x.saved);
    assert FlowOf(w.calls[k]) == f.about.id;
    assert CallOk(s, k, w.calls[k], log);
    FlowKept(w, f.about.id);
    HolderTook(s, k, f, log);
    NotSavedYet(w, k, f.about.id);
    if turn.events == [] {
      RestrictFollowsAll(s, "");
      QuietTurn(w, k, turn, "");
    } else {
      TurnComes(w, k, f.about.id, e);
      HolderMore(s, k, f, log, e);
      assert (log + [e])[|log|] == e;
      StandingTurn(w, k, turn, e);
    }
  }

  lemma EndedStored(g: Flow, progress: Progress, log: seq<Event>, e: Event)
    requires StoredOk(g, log) && Consumed(g) && e.Ended?
    requires progress.outcome == e.outcome && progress.credentialKey == e.key
    ensures StoredOk(g.(progress := progress), log + [e])
  {
    LastScheduleMore(log, e);
    hide LastSchedule, EndOf;
  }

  lemma Finishes(w: World, c: Config, k: nat, x: Choice)
    requires WorldOk(w) && k in w.calls && w.calls[k].Finishing?
    ensures TurnOk(w, k, Act(w.store, c, k, w.calls[k], x))
  {
    hide Inv, Follows, FlowOk, DraftsOk, TurnOk, Update, Copy, Landed, StoredOk, Log, InTurn;
    var s, f, outcome, key := w.store, w.calls[k].flow, w.calls[k].outcome, w.calls[k].key;
    var log, turn := Log(w, f.about.id), Act(s, c, k, w.calls[k], x);
    assert FlowOf(w.calls[k]) == f.about.id;
    assert CallOk(s, k, w.calls[k], log);
    var progress := f.progress.(outcome := outcome, credentialKey := key);
    UpdateEither(s, c, false, f, progress, x.now);
    if turn.events == [] {
      FailedTurn(w, k, turn, f.about.id);
    } else {
      var e := Ended(k, outcome, key);
      LandedIsCurrent(s, turn.store, f, progress);
      CurrentStored(w, f);
      TurnComes(w, k, f.about.id, e);
      EndedStored(s.flows[f.about.id].flow, progress, log, e);
      DoneIsOk(k);
      LandedTurn(w, k, turn, f, progress, e);
    }
  }

  // ----- Start and Callback -----

  /** Create touches no stored flow's revision, and adds exactly the new one. */
  lemma CreateEither(s: Store, c: Config, ended: bool, flow: Flow, purgeAt: Instant, evictAt: Instant)
    requires Inv(s) && flow.about.id !in s.flows
    ensures var r := Create(s, c, ended, flow, purgeAt, evictAt);
            && (r.1.Err? ==> Follows(s, r.0, "") && r.0.revision == s.revision)
            && (r.1.Ok? ==> Moves(s, r.0, flow.about.id, true) && flow.about.id in r.0.flows
                            && r.0.flows[flow.about.id].flow == flow.(consumedAt := NEVER, revision := s.revision + 1))
  {
    hide Inv, Follows, PurgeIn, Blank, ValidCaller, StateKeyOf, Evicted;
    RestrictFollowsAll(s, "");
    PurgeFollows(s, s.flows.Keys, purgeAt, c, "");
    PurgeRevision(s, purgeAt, c);
    var purged := Purge(s, purgeAt, c);
    QuietMoves(s, purged, "", flow.about.id);
    hide Derives;
  }

  lemma PurgeRevision(s: Store, now: Time, c: Config)
    ensures Purge(s, now, c).revision == s.revision
  {
    hide Gone, Wiped;
  }

  lemma CreatedStored(w: World, flow: Flow, revision: nat, k: nat)
    requires Fresh(flow)
    ensures StoredOk(flow.(consumedAt := NEVER, revision := revision), [Started(k, flow.about.createdAt, flow.progress.interval)])
  {
    LastScheduleMore([], Started(k, flow.about.createdAt, flow.progress.interval));
    assert [] + [Started(k, flow.about.createdAt, flow.progress.interval)] == [Started(k, flow.about.createdAt, flow.progress.interval)];
  }

  lemma CreatedTurn(w: World, k: nat, turn: Turn, flow: Flow)
    requires WorldOk(w) && k in w.calls && w.calls[k] == Creating(flow) && turn.id == flow.about.id && turn.call == Done
    requires Log(w, flow.about.id) == [] && Fresh(flow)
    requires turn.events == [Started(k, flow.about.createdAt, flow.progress.interval)]
    requires Inv(turn.store) && Moves(w.store, turn.store, turn.id, true) && turn.id in turn.store.flows
    requires turn.store.flows[turn.id].flow == flow.(consumedAt := NEVER, revision := w.store.revision + 1)
    ensures TurnOk(w, k, turn)
  {
    hide Inv, Moves, FlowOk, DraftsOk, CallOk, StoredOk, Log;
    DoneIsOk(k);
    CreatedStored(w, flow, w.store.revision + 1, k);
    assert Log(w, turn.id) + turn.events == turn.events;
  }

  lemma Creates(w: World, c: Config, k: nat, x: Choice)
    requires WorldOk(w) && k in w.calls && w.calls[k].Creating?
    ensures TurnOk(w, k, Act(w.store, c, k, w.calls[k], x))
  {
    hide Inv, Follows, FlowOk, DraftsOk, TurnOk, Create, Moves, Fresh, Log;
    var s, flow := w.store, w.calls[k].flow;
    var turn := Act(s, c, k, w.calls[k], x);
    assert FlowOf(w.calls[k]) == flow.about.id;
    assert CallOk(s, k, w.calls[k], Log(w, flow.about.id));
    CreateEither(s, c, x.ended, flow, x.now, x.later);
    CreateKeepsAll(s, c, x.ended, flow, x.now, x.later);
    if turn.events == [] {
      FailedTurn(w, k, turn, "");
    } else {
      CreatedTurn(w, k, turn, flow);
    }
  }

  lemma CreateKeepsAll(s: Store, c: Config, ended: bool, flow: Flow, purgeAt: Instant, evictAt: Instant)
    requires Inv(s)
    ensures Inv(Create(s, c, ended, flow, purgeAt, evictAt).0)
  {
    CreateKeeps(s, c, ended, flow, purgeAt, evictAt);
    hide Inv, Create;
  }

  lemma Resolves(w: World, c: Config, k: nat, x: Choice)
    requires WorldOk(w) && k in w.calls && w.calls[k].Resolving?
    ensures TurnOk(w, k, Act(w.store, c, k, w.calls[k], x))
  {
    hide Inv, Follows, FlowOk, DraftsOk, TurnOk, ResolveState;
    var s, call := w.store, w.calls[k];
    ResolveFollows(s, c, x.ended, call.input.state, x.now);
    ResolveRevision(s, c, x.ended, call.input.state, x.now);
    QuietTurn(w, k, Act(s, c, k, call, x), "");
  }

  lemma ResolveRevision(s: Store, c: Config, ended: bool, state: string, now: Instant)
    requires Inv(s)
    ensures ResolveState(s, c, ended, state, now).0.revision == s.revision
  {
    hide Inv, Owned;
    if Sha256(state) in s.states && s.states[Sha256(state)] in s.flows {
      var about := s.flows[s.states[Sha256(state)]].flow.about;
      OwnedTouchesNothing(s, c, about.caller, about.id, now);
    }
  }

  // ----- Every step, every run -----

  lemma ActOk(w: World, c: Config, k: nat, x: Choice)
    requires WorldOk(w) && k in w.calls
    ensures TurnOk(w, k, Act(w.store, c, k, w.calls[k], x))
  {
    hide WorldOk, TurnOk;
    match w.calls[k] {
      case Creating(_) => Creates(w, c, k, x);
      case Claiming(_, _) => Claims(w, c, k, x);
      case Asking(_, _) => Asks(w, c, k, x);
      case Slowing(_, _) => SlowsDown(w, c, k, x);
      case Resolving(_) => Resolves(w, c, k, x);
      case Consuming(_, _, _) => Takes(w, c, k, x);
      case Exchanging(_) => Exchanges(w, c, k, x);
      case Saving(_) => Saves(w, c, k, x);
      case Finishing(_, _, _) => Finishes(w, c, k, x);
      case Done => Idles(w, c, k, x);
      case _ => Reads(w, c, k, x);
    }
  }

  lemma Idles(w: World, c: Config, k: nat, x: Choice)
    requires WorldOk(w) && k in w.calls && w.calls[k].Done?
    ensures TurnOk(w, k, Act(w.store, c, k, w.calls[k], x))
  {
    hide Inv, Follows, FlowOk, DraftsOk, TurnOk;
    RestrictFollowsAll(w.store, "");
    QuietTurn(w, k, Act(w.store, c, k, w.calls[k], x), "");
  }

  lemma FirstCallOk(s: Store, k: nat, step: Step)
    requires !step.Advance? && (step.BeginStart? ==> step.id !in s.flows)
    ensures CallOk(s, k, FirstCall(step), [])
    ensures FirstCall(step).Creating? ==> step.BeginStart? && FlowOf(FirstCall(step)) == step.id
    ensures !FirstCall(step).Creating? ==> FlowOf(FirstCall(step)) == "" && forall log :: CallOk(s, k, FirstCall(step), log)
  {
    hide CompleteAuthorization, Blank, ValidCaller;
  }

  lemma BeginKeeps(w: World, c: Config, step: Step)
    requires WorldOk(w) && !step.Advance? && step.k !in w.calls && NewIds(step) * w.used == {}
    ensures WorldOk(Next(w, c, step))
  {
    hide Inv, CallOk, FirstCall, Log;
    var v := Next(w, c, step);
    forall id ensures FlowOk(v, id) {
      BeginFlow(w, step, id);
      assert Log(v, id) == Log(w, id) by { SameLogs(w, v, id); }
    }
    hide FlowOk;
    if step.BeginStart? {
      assert step.id in NewIds(step) && step.id !in NewIds(step) * w.used;
      UnusedId(w, step.id);
    }
    FirstCallOk(w.store, step.k, step);
    forall k | k in v.calls ensures CallOk(v.store, k, v.calls[k], Log(v, FlowOf(v.calls[k]))) {
      SameLogs(w, v, FlowOf(v.calls[k]));
    }
  }

  lemma SameLogs(w: World, v: World, id: string)
    requires v.logs == w.logs
    ensures Log(v, id) == Log(w, id)
  {
  }

  lemma UnusedId(w: World, id: string)
    requires FlowOk(w, id) && id !in w.used
    ensures id !in w.store.flows && Log(w, id) == []
  {
  }

  lemma BeginFlow(w: World, step: Step, id: string)
    requires FlowOk(w, id) && !step.Advance? && step.k !in w.calls
    ensures Staged(Log(w, id), w.calls[step.k := FirstCall(step)])
  {
    hide FirstCall, Log, Kept, StoredOk;
    StagedMoves(Log(w, id), w.calls, step.k, FirstCall(step));
  }

  lemma NextKeeps(w: World, c: Config, step: Step)
    requires WorldOk(w)
    ensures WorldOk(Next(w, c, step))
  {
    hide WorldOk, TurnOk, Act, FirstCall;
    if step.Advance? {
      if step.k in w.calls {
        ActOk(w, c, step.k, step.choice);
        TurnKeeps(w, step.k, Act(w.store, c, step.k, w.calls[step.k], step.choice));
      }
    } else if step.k !in w.calls && NewIds(step) * w.used == {} {
      BeginKeeps(w, c, step);
    }
  }

  lemma StartIsOk()
    ensures WorldOk(START)
  {
  }

  /** Main result: in every run of any calls, interleaved in any way, under any clock readings and
      whatever drivers answer, the history of every flow keeps the protocol, and the stored flow is
      what its history says. */
  lemma {:induction false} EveryRunKeepsTheProtocol(c: Config, steps: seq<Step>)
    ensures WorldOk(After(c, steps))
  {
    hide WorldOk, Next;
    if steps == [] {
      StartIsOk();
    } else {
      EveryRunKeepsTheProtocol(c, steps[..|steps| - 1]);
      NextKeeps(After(c, steps[..|steps| - 1]), c, steps[|steps| - 1]);
    }
  }

  lemma RunFlow(c: Config, steps: seq<Step>, id: string)
    ensures var w := After(c, steps);
            Kept(Log(w, id)) && (id in w.store.flows ==> StoredOk(w.store.flows[id].flow, Log(w, id)))
  {
    hide Inv, FlowOk, DraftsOk, CallOk, Kept, StoredOk, After;
    EveryRunKeepsTheProtocol(c, steps);
    FlowKept(After(c, steps), id);
  }

  /** Main result: poll spacing over runs. */
  lemma PollsAreSpaced(c: Config, steps: seq<Step>, id: string, i: nat, j: nat)
    requires var log := Log(After(c, steps), id); i < j < |log| && log[i].Claimed? && log[j].Claimed?
    ensures var log := Log(After(c, steps), id);
            && log[0].Started? && log[i].now >= log[0].now + log[0].interval
            && log[j].now >= log[i].now + log[i].interval
            && ((exists k :: 0 <= k < |log| && log[k].Slowed? && log[k].call == log[i].call) ==>
                  log[j].now >= log[i].now + log[i].interval + SLOW_DOWN_STEP)
  {
    hide After, Kept, StoredOk, Log;
    RunFlow(c, steps, id);
    ClaimsAreSpaced(Log(After(c, steps), id), i, j);
    FirstClaimWaits(Log(After(c, steps), id), i);
  }

  /** Main result: over runs the driver is asked only after a landed claim of the same call, and once
      per claim. */
  lemma AskedOncePerLandedClaim(c: Config, steps: seq<Step>, id: string, j: nat)
    requires var log := Log(After(c, steps), id); j < |log| && log[j].Asked?
    ensures var log := Log(After(c, steps), id);
            && (exists i :: 0 <= i < j && log[i].Claimed? && log[i].call == log[j].call)
            && (forall k :: 0 <= k < |log| && log[k].Asked? && log[k].call == log[j].call ==> k == j)
            && (forall i, k :: 0 <= i < |log| && 0 <= k < |log| && log[i].Claimed? && log[k].Claimed? && log[i].call == log[k].call ==> i == k)
  {
    hide After, Kept, StoredOk, Log;
    RunFlow(c, steps, id);
    var log := Log(After(c, steps), id);
    AskedOncePerClaim(log, j);
    forall i, k | 0 <= i < |log| && 0 <= k < |log| && log[i].Claimed? && log[k].Claimed? && log[i].call == log[k].call ensures i == k {
      if i < k { OncePerCall(log, i, k); }
      if k < i { OncePerCall(log, k, i); }
    }
  }

  /** Main result: single use over runs. Of consumptions, exchanges, credential saves and outcomes
      there is at most one a flow. */
  lemma SingleUse(c: Config, steps: seq<Step>, id: string, i: nat, j: nat)
    requires var log := Log(After(c, steps), id); i < |log| && j < |log| && Rank(log[i]) == Rank(log[j]) >= 4
    ensures i == j
  {
    hide After, Kept, StoredOk, Log;
    RunFlow(c, steps, id);
    var log := Log(After(c, steps), id);
    if log[i].Taken? { TakenOnce(log, i, j); } else { SpentOnce(log, i, j); }
  }

  /** Main result: a flow that reads complete under a key had a credential saved under it; the
      outcome it reads is the one its history wrote, once. */
  lemma CompleteFlowsWereSaved(c: Config, steps: seq<Step>, id: string)
    requires var w := After(c, steps); id in w.store.flows && w.store.flows[id].flow.progress.outcome != NoOutcome
    ensures var w := After(c, steps);
            var p := w.store.flows[id].flow.progress;
            && (exists call :: Ended(call, p.outcome, p.credentialKey) in Log(w, id))
            && (p.outcome == OutcomeComplete ==> exists call :: Saved(call, p.credentialKey, true) in Log(w, id))
            && (p.outcome != OutcomeComplete ==> NoneSaved(Log(w, id)))
  {
    hide After, Kept, Log;
    RunFlow(c, steps, id);
    var log := Log(After(c, steps), id);
    var i := EndIsLogged(log);
    CompleteMeansSaved(log);
    assert Ended(log[i].call, log[i].outcome, log[i].key) in log;
  }

  lemma {:induction false} LogGrows(c: Config, steps: seq<Step>, n: nat, id: string)
    requires n <= |steps|
    ensures Log(After(c, steps[..n]), id) <= Log(After(c, steps), id)
  {
    if n == |steps| {
      assert steps[..n] == steps;
    } else {
      var front := steps[..|steps| - 1];
      assert front[..n] == steps[..n];
      LogGrows(c, front, n, id);
      NextLog(After(c, front), c, steps[|steps| - 1], id);
    }
  }

  lemma NextLog(w: World, c: Config, step: Step, id: string)
    ensures Log(w, id) <= Log(Next(w, c, step), id)
  {
    hide Act, FirstCall;
    if step.Advance? && step.k in w.calls {
      LogMoved(w, step.k, Act(w.store, c, step.k, w.calls[step.k], step.choice), id);
    }
  }

  /** Main result: while a device flow is pending, its stored interval and its stored next poll
      never go back. */
  lemma StoredScheduleNeverGoesBack(c: Config, steps: seq<Step>, n: nat, id: string)
    requires n <= |steps|
    requires var s := After(c, steps[..n]).store; id in s.flows && Pollable(s.flows[id].flow)
    requires var t := After(c, steps).store; id in t.flows && Pollable(t.flows[id].flow)
    ensures var p, q := After(c, steps[..n]).store.flows[id].flow.progress, After(c, steps).store.flows[id].flow.progress;
            p.interval <= q.interval && p.nextPollAt <= q.nextPollAt
  {
    hide After, Kept, Log, NoneTaken, EndOf;
    RunFlow(c, steps[..n], id);
    RunFlow(c, steps, id);
    LogGrows(c, steps, n, id);
    var before, log := Log(After(c, steps[..n]), id), Log(After(c, steps), id);
    var i := LastScheduleAt(before);
    var j := LastScheduleAt(log);
    if i < j { SchedulesMoveForward(log, i, j); }
  }
}
