/** Every interleaving of the OAuth service's calls keeps the protocol of every flow. */
module FlowSafety {
  import opened Options
  import opened FlowStore
  import opened FlowLog
  import opened FlowService

  // ----- The invariant -----

  /** An event of a call has a rank below the stage the call has come to. */
  function Stage(call: Call): nat {
    match call
    case Claiming(_, _) => 1
    case Asking(_, _) => 2
    case Slowing(_, _) => 3
    case Consuming(_, _, _) => 4
    case Exchanging(_) => 5
    case Saving(_) => 6
    case Finishing(_, _, _) => 7
    case Done => 8
    case _ => 0
  }

  /** The flow a call works on, once it matters. */
  function FlowOf(call: Call): string {
    match call
    case Creating(f) => f.about.id
    case Claiming(f, _) => f.about.id
    case Asking(f, _) => f.about.id
    case Slowing(f, _) => f.about.id
    case Exchanging(f) => f.about.id
    case Saving(f) => f.about.id
    case Finishing(f, _, _) => f.about.id
    case _ => ""
  }

  predicate Current(s: Store, f: Flow) {
    f.about.id in s.flows && s.flows[f.about.id].flow.revision == f.revision
  }

  /** A copy taken from the store: while its revision is the stored one, nothing Update or
      Consume writes has changed. */
  predicate Copy(s: Store, f: Flow) {
    && f.revision <= s.revision
    && (f.about.id in s.flows ==> s.flows[f.about.id].flow.about == f.about)
    && (Current(s, f) ==> s.flows[f.about.id].flow.progress == f.progress && s.flows[f.about.id].flow.consumedAt == f.consumedAt)
  }

  predicate Pollable(f: Flow) { f.about.flowMethod.Device? && !Consumed(f) }

  predicate Fresh(f: Flow) {
    && f.progress.outcome == NoOutcome && f.progress.credentialKey == "" && f.progress.interval >= 0
    && (f.about.flowMethod.Device? ==> f.progress.nextPollAt == f.about.createdAt + f.progress.interval)
  }

  predicate ClaimedOk(s: Store, k: nat, f: Flow, now: Time, log: seq<Event>) {
    && Copy(s, f) && Pollable(f) && f.progress.nextPollAt == now + f.progress.interval
    && Claimed(k, now, f.progress.interval) in log
    && (Current(s, f) ==> LastSchedule(log) == Some(Claimed(k, now, f.progress.interval)))
  }

  predicate EndOk(k: nat, outcome: Outcome, key: string, log: seq<Event>) {
    outcome != NoOutcome && if outcome == OutcomeComplete then Saved(k, key, true) in log else NoneSaved(log)
  }

  predicate HolderOk(s: Store, k: nat, f: Flow, log: seq<Event>) {
    Taken(k) in log && Copy(s, f) && Consumed(f)
  }

  predicate CallOk(s: Store, k: nat, call: Call, log: seq<Event>) {
    match call
    case Creating(f) => f.about.id !in s.flows && log == [] && Fresh(f)
    case Claiming(f, now) => log != [] && Copy(s, f) && Pollable(f) && now >= f.progress.nextPollAt
    case Asking(f, now) => ClaimedOk(s, k, f, now, log)
    case Slowing(f, now) => ClaimedOk(s, k, f, now, log)
    case Consuming(_, _, purpose) => purpose.ToEnd? ==> purpose.outcome != NoOutcome && purpose.outcome != OutcomeComplete
    case Exchanging(f) => HolderOk(s, k, f, log)
    case Saving(f) => HolderOk(s, k, f, log)
    case Finishing(f, outcome, key) => HolderOk(s, k, f, log) && EndOk(k, outcome, key, log)
    case _ => true
  }

  predicate Matches(p: Progress, last: Option<Event>) {
    && last.Some? && Schedules(last.value)
    && p.interval == last.value.interval && p.nextPollAt == NextPollAt(last.value)
  }

  /** What the store holds of a flow is what its history says. */
  predicate StoredOk(f: Flow, log: seq<Event>) {
    && log != [] && (f.progress.outcome, f.progress.credentialKey) == EndOf(log)
    && (!Consumed(f) ==> NoneTaken(log))
    && (Pollable(f) ==> Matches(f.progress, LastSchedule(log)))
  }

  predicate Staged(log: seq<Event>, calls: map<nat, Call>) {
    forall i :: 0 <= i < |log| ==> log[i].call in calls && Rank(log[i]) < Stage(calls[log[i].call])
  }

  ghost predicate FlowOk(w: World, id: string) {
    && Kept(Log(w, id)) && Staged(Log(w, id), w.calls)
    && (id in w.store.flows ==> StoredOk(w.store.flows[id].flow, Log(w, id)))
    && (Log(w, id) != [] ==> id in w.used)
  }

  ghost predicate DraftsOk(w: World) {
    && (forall k :: k in w.calls && w.calls[k].Creating? ==> FlowOf(w.calls[k]) in w.used)
    && (forall j, k :: j in w.calls && k in w.calls && j != k && w.calls[j].Creating? && w.calls[k].Creating? ==>
                         FlowOf(w.calls[j]) != FlowOf(w.calls[k]))
  }

  ghost predicate WorldOk(w: World) {
    && Inv(w.store) && DraftsOk(w)
    && (forall id :: FlowOk(w, id))
    && (forall k :: k in w.calls ==> CallOk(w.store, k, w.calls[k], Log(w, FlowOf(w.calls[k]))))
  }

  // ----- What one step may do -----

  /** Stored flows derive from stored ones, but for the one created, and only the touched one
      takes a revision, a new one. */
  ghost predicate Moves(s: Store, t: Store, id: string, created: bool) {
    && t.revision >= s.revision
    && forall i :: i in t.flows && !(created && i == id) ==>
                     && i in s.flows && Derives(s.flows[i], t.flows[i])
                     && (t.flows[i].flow.revision == s.flows[i].flow.revision || (i == id && t.flows[i].flow.revision > s.revision))
  }

  predicate EventOk(w: World, k: nat, turn: Turn, e: Event)
    requires k in w.calls
  {
    && e.call == k && Stage(w.calls[k]) <= Rank(e) < Stage(turn.call)
    && Due(Log(w, turn.id), e)
    && (if e.Started? then w.calls[k].Creating? && FlowOf(w.calls[k]) == turn.id else Log(w, turn.id) != [])
    && (Schedules(e) && turn.id in turn.store.flows ==> turn.store.flows[turn.id].flow.revision > w.store.revision)
  }

  ghost predicate TurnOk(w: World, k: nat, turn: Turn)
    requires k in w.calls
  {
    var log := Log(w, turn.id) + turn.events;
    && Inv(turn.store) && |turn.events| <= 1
    && Moves(w.store, turn.store, turn.id, turn.events != [] && turn.events[0].Started?)
    && (turn.events != [] ==> EventOk(w, k, turn, turn.events[0]))
    && !turn.call.Creating? && Stage(w.calls[k]) <= Stage(turn.call)
    && (turn.id in turn.store.flows ==> StoredOk(turn.store.flows[turn.id].flow, log))
    && FlowOf(turn.call) in {"", turn.id}
    && CallOk(turn.store, k, turn.call, if FlowOf(turn.call) == turn.id then log else Log(w, FlowOf(turn.call)))
  }

  // ----- Frames -----

  lemma LogMoved(w: World, k: nat, turn: Turn, id: string)
    ensures Log(Moved(w, k, turn), id) == if id == turn.id then Log(w, id) + turn.events else Log(w, id)
  {
  }

  /** A copy stays one; it does not become current again; a write makes it stale. */
  lemma CopyMoves(s: Store, t: Store, id: string, created: bool, f: Flow)
    requires Copy(s, f) && Moves(s, t, id, created) && !(created && f.about.id == id)
    ensures Copy(t, f) && (Current(t, f) ==> Current(s, f))
    ensures id == f.about.id && id in t.flows && t.flows[id].flow.revision > s.revision ==> !Current(t, f)
  {
    if f.about.id in t.flows {
      assert Derives(s.flows[f.about.id], t.flows[f.about.id]);
    }
  }

  lemma StoredMoves(s: Store, t: Store, id: string, created: bool, i: string, log: seq<Event>)
    requires Moves(s, t, id, created) && i != id && i in t.flows
    requires i in s.flows ==> StoredOk(s.flows[i].flow, log)
    ensures StoredOk(t.flows[i].flow, log)
  {
    assert Derives(s.flows[i], t.flows[i]);
    hide Matches, NoneTaken, EndOf;
  }

  lemma StagedMoves(log: seq<Event>, calls: map<nat, Call>, k: nat, call: Call)
    requires Staged(log, calls) && (k in calls ==> Stage(calls[k]) <= Stage(call))
    ensures Staged(log, calls[k := call])
  {
    hide Stage, Rank;
  }

  lemma OtherFlow(w: World, k: nat, turn: Turn, id: string)
    requires k in w.calls && FlowOk(w, id) && TurnOk(w, k, turn) && id != turn.id
    ensures FlowOk(Moved(w, k, turn), id)
  {
    LogMoved(w, k, turn, id);
    StagedMoves(Log(w, id), w.calls, k, turn.call);
    if id in turn.store.flows {
      assert Moves(w.store, turn.store, turn.id, turn.events != [] && turn.events[0].Started?);
      hide Moves;
      StoredMoves(w.store, turn.store, turn.id, turn.events != [] && turn.events[0].Started?, id, Log(w, id));
      StillStored(w.store, turn.store, turn.id, turn.events != [] && turn.events[0].Started?, id);
    }
    hide Inv, Moves, StoredOk, Kept, Staged, Due, CallOk, EventOk;
  }

  lemma StillStored(s: Store, t: Store, id: string, created: bool, i: string)
    requires Moves(s, t, id, created) && i != id && i in t.flows
    ensures i in s.flows
  {
  }

  lemma OwnFlow(w: World, k: nat, turn: Turn)
    requires k in w.calls && FlowOk(w, turn.id) && TurnOk(w, k, turn) && DraftsOk(w)
    ensures FlowOk(Moved(w, k, turn), turn.id)
  {
    hide Inv, Moves, StoredOk, Due, CallOk, Kept, Staged;
    var log := Log(w, turn.id);
    LogMoved(w, k, turn, turn.id);
    StagedMoves(log, w.calls, k, turn.call);
    if turn.events != [] {
      var e := turn.events[0];
      assert turn.events == [e];
      KeptMore(log, e);
      StagedMore(log, w.calls[k := turn.call], e);
    } else {
      assert log + turn.events == log;
    }
  }

  lemma StagedMore(log: seq<Event>, calls: map<nat, Call>, e: Event)
    requires Staged(log, calls) && e.call in calls && Rank(e) < Stage(calls[e.call])
    ensures Staged(log + [e], calls)
  {
    hide Stage, Rank;
  }

  // ----- The other calls -----

  lemma ClaimedMoves(s: Store, t: Store, id: string, created: bool, j: nat, f: Flow, now: Time, log: seq<Event>, more: seq<Event>)
    requires ClaimedOk(s, j, f, now, log) && Moves(s, t, id, created) && !(created && f.about.id == id) && |more| <= 1
    requires f.about.id != id ==> more == []
    requires more != [] && Schedules(more[0]) && id in t.flows ==> t.flows[id].flow.revision > s.revision
    ensures ClaimedOk(t, j, f, now, log + more)
  {
    CopyMoves(s, t, id, created, f);
    hide Moves, Copy;
    if more != [] {
      assert more == [more[0]];
      LastScheduleMore(log, more[0]);
    } else {
      assert log + more == log;
    }
  }

  /** Only the call that took a flow works on it as its consumer. */
  lemma OneHolder(log: seq<Event>, j: nat, e: Event)
    requires Taken(j) in log && Kept(log) && Due(log, e) && e.call != j
    ensures Rank(e) < 4
  {
    var i :| 0 <= i < |log| && log[i] == Taken(j);
    if Rank(e) > 4 {
      hide Kept;
      assert Taken(e.call) in log;
      var i' :| 0 <= i' < |log| && log[i'] == Taken(e.call);
      TakenOnce(log, i, i');
    }
  }

  lemma HolderMoves(s: Store, t: Store, id: string, created: bool, j: nat, f: Flow, log: seq<Event>, more: seq<Event>)
    requires HolderOk(s, j, f, log) && Moves(s, t, id, created) && !(created && f.about.id == id)
    ensures HolderOk(t, j, f, log + more)
  {
    CopyMoves(s, t, id, created, f);
    hide Moves, Copy;
  }

  lemma EndMoves(j: nat, outcome: Outcome, key: string, log: seq<Event>, more: seq<Event>)
    requires EndOk(j, outcome, key, log) && |more| <= 1 && Taken(j) in log && Kept(log)
    requires more != [] ==> Due(log, more[0]) && more[0].call != j
    ensures EndOk(j, outcome, key, log + more)
  {
    if more != [] {
      OneHolder(log, j, more[0]);
    }
    hide Kept, Due;
  }

  /** What one step does to the history of a flow, as far as the other calls care. */
  ghost predicate More(w: World, k: nat, turn: Turn, id: string, more: seq<Event>)
    requires k in w.calls
  {
    && |more| <= 1 && (id != turn.id ==> more == []) && (id == turn.id ==> more == turn.events)
    && (more != [] ==> EventOk(w, k, turn, more[0]))
    && Moves(w.store, turn.store, turn.id, turn.events != [] && turn.events[0].Started?)
  }

  lemma MoreOf(w: World, k: nat, turn: Turn, id: string) returns (more: seq<Event>)
    requires k in w.calls && TurnOk(w, k, turn)
    ensures Log(Moved(w, k, turn), id) == Log(w, id) + more && More(w, k, turn, id, more)
  {
    LogMoved(w, k, turn, id);
    more := if id == turn.id then turn.events else [];
    hide Inv, Moves, EventOk, StoredOk, CallOk;
  }

  /** Nothing but a Creating call's own step creates its flow. */
  lemma NotCreated(w: World, k: nat, turn: Turn, f: Flow, more: seq<Event>)
    requires k in w.calls && More(w, k, turn, f.about.id, more) && Log(w, f.about.id) != []
    ensures !(turn.events != [] && turn.events[0].Started? && f.about.id == turn.id)
  {
    hide Moves;
  }

  lemma OtherClaimed(w: World, k: nat, turn: Turn, j: nat, f: Flow, now: Time, more: seq<Event>)
    requires k in w.calls && More(w, k, turn, f.about.id, more) && ClaimedOk(w.store, j, f, now, Log(w, f.about.id))
    ensures ClaimedOk(turn.store, j, f, now, Log(w, f.about.id) + more)
  {
    hide Moves, Due;
    NotCreated(w, k, turn, f, more);
    ClaimedMoves(w.store, turn.store, turn.id, turn.events != [] && turn.events[0].Started?, j, f, now, Log(w, f.about.id), more);
  }

  lemma OtherHolder(w: World, k: nat, turn: Turn, j: nat, f: Flow, more: seq<Event>)
    requires k in w.calls && More(w, k, turn, f.about.id, more) && HolderOk(w.store, j, f, Log(w, f.about.id))
    ensures HolderOk(turn.store, j, f, Log(w, f.about.id) + more)
  {
    hide Moves, Due;
    NotCreated(w, k, turn, f, more);
    HolderMoves(w.store, turn.store, turn.id, turn.events != [] && turn.events[0].Started?, j, f, Log(w, f.about.id), more);
  }

  lemma OtherEnd(w: World, k: nat, turn: Turn, j: nat, f: Flow, outcome: Outcome, key: string, more: seq<Event>)
    requires k in w.calls && j != k && More(w, k, turn, f.about.id, more) && Kept(Log(w, f.about.id))
    requires HolderOk(w.store, j, f, Log(w, f.about.id)) && EndOk(j, outcome, key, Log(w, f.about.id))
    ensures EndOk(j, outcome, key, Log(w, f.about.id) + more)
  {
    hide Moves, Due, Kept, EndOk;
    EndMoves(j, outcome, key, Log(w, f.about.id), more);
  }

  lemma OtherClaiming(w: World, k: nat, turn: Turn, f: Flow, more: seq<Event>)
    requires k in w.calls && More(w, k, turn, f.about.id, more) && Log(w, f.about.id) != [] && Copy(w.store, f)
    ensures Copy(turn.store, f)
  {
    hide Moves, Copy;
    NotCreated(w, k, turn, f, more);
    CopyMoves(w.store, turn.store, turn.id, turn.events != [] && turn.events[0].Started?, f);
  }

  lemma OtherCreating(w: World, k: nat, turn: Turn, j: nat, f: Flow, more: seq<Event>)
    requires k in w.calls && j in w.calls && j != k && DraftsOk(w) && w.calls[j] == Creating(f)
    requires More(w, k, turn, f.about.id, more) && f.about.id !in w.store.flows && Log(w, f.about.id) == []
    ensures f.about.id !in turn.store.flows && more == []
  {
    hide Due;
    assert FlowOf(w.calls[j]) == f.about.id;
  }

  lemma OtherCall(w: World, k: nat, turn: Turn, j: nat)
    requires k in w.calls && j in w.calls && j != k && DraftsOk(w) && TurnOk(w, k, turn)
    requires CallOk(w.store, j, w.calls[j], Log(w, FlowOf(w.calls[j]))) && Kept(Log(w, FlowOf(w.calls[j])))
    ensures CallOk(turn.store, j, w.calls[j], Log(Moved(w, k, turn), FlowOf(w.calls[j])))
  {
    hide TurnOk, More, Moved, Log, ClaimedOk, HolderOk, EndOk, Copy, Fresh, DraftsOk, Kept, Pollable;
    var more := MoreOf(w, k, turn, FlowOf(w.calls[j]));
    match w.calls[j] {
      case Creating(f) => OtherCreating(w, k, turn, j, f, more);
      case Claiming(f, now) => OtherClaiming(w, k, turn, f, more);
      case Asking(f, now) => OtherClaimed(w, k, turn, j, f, now, more);
      case Slowing(f, now) => OtherClaimed(w, k, turn, j, f, now, more);
      case Exchanging(f) => OtherHolder(w, k, turn, j, f, more);
      case Saving(f) => OtherHolder(w, k, turn, j, f, more);
      case Finishing(f, outcome, key) => OtherHolder(w, k, turn, j, f, more); OtherEnd(w, k, turn, j, f, outcome, key, more);
      case _ =>
    }
  }

  /** A step that is all right keeps the invariant. */
  lemma TurnKeeps(w: World, k: nat, turn: Turn)
    requires WorldOk(w) && k in w.calls && TurnOk(w, k, turn)
    ensures WorldOk(Moved(w, k, turn))
  {
    hide Inv, TurnOk, FlowOk, DraftsOk, CallOk, Kept;
    var v := Moved(w, k, turn);
    forall id ensures FlowOk(v, id) {
      if id == turn.id { OwnFlow(w, k, turn); } else { OtherFlow(w, k, turn, id); }
    }
    forall j | j in v.calls ensures CallOk(v.store, j, v.calls[j], Log(v, FlowOf(v.calls[j]))) {
      if j == k {
        OwnCall(w, k, turn);
      } else {
        FlowKept(w, FlowOf(w.calls[j]));
        OtherCall(w, k, turn, j);
      }
    }
    DraftsMove(w, k, turn);
  }

  lemma FlowKept(w: World, id: string)
    requires FlowOk(w, id)
    ensures Kept(Log(w, id)) && Staged(Log(w, id), w.calls)
    ensures id in w.store.flows ==> StoredOk(w.store.flows[id].flow, Log(w, id))
  {
  }

  lemma OwnCall(w: World, k: nat, turn: Turn)
    requires k in w.calls && TurnOk(w, k, turn)
    ensures CallOk(turn.store, k, turn.call, Log(Moved(w, k, turn), FlowOf(turn.call)))
  {
    hide Inv, Moves, EventOk, StoredOk, CallOk;
    LogMoved(w, k, turn, FlowOf(turn.call));
  }

  lemma DraftsMove(w: World, k: nat, turn: Turn)
    requires k in w.calls && DraftsOk(w) && TurnOk(w, k, turn)
    ensures DraftsOk(Moved(w, k, turn)) && Inv(turn.store)
  {
    hide Inv, Moves, EventOk, StoredOk, CallOk;
  }
}
