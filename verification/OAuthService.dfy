/** oauthflow.Service as it is written: each call a method over the store, proved to make
    exactly the steps FlowService gives that call. What clock, drivers, key hook and credential
    store answer in step i of a call is world(i). */
module OAuthService {
  import opened Options
  import opened FlowStore
  import opened FlowLog
  import opened FlowService
  import opened FlowSafety
  import opened FlowReplies
  import FlowTurns
  import MemoryFlowStore

  // ----- A call on its own -----

  /** Steps i, i + 1, and so on of a call nobody interferes with. */
  ghost function Alone(s: Store, c: Config, k: nat, call: Call, world: nat -> Choice, i: nat, n: nat): (Store, Call, seq<Event>)
    decreases n
  {
    if n == 0 then (s, call, [])
    else
      var turn := Act(s, c, k, call, world(i));
      var rest := Alone(turn.store, c, k, turn.call, world, i + 1, n - 1);
      (rest.0, rest.1, turn.events + rest.2)
  }

  lemma {:induction false} DoneStays(s: Store, c: Config, k: nat, world: nat -> Choice, i: nat, n: nat)
    ensures Alone(s, c, k, Done, world, i, n) == (s, Done, [])
    decreases n
  {
    if n > 0 {
      assert Act(s, c, k, Done, world(i)) == Turn(s, Done, "", []);
      DoneStays(s, c, k, world, i + 1, n - 1);
      var none: seq<Event> := [];
      assert none + none == none;
    }
  }

  /** A call that is over after n steps is over with the same after more. */
  lemma {:induction false} MoreSteps(s: Store, c: Config, k: nat, call: Call, world: nat -> Choice, i: nat, n: nat, m: nat)
    requires n <= m && Alone(s, c, k, call, world, i, n).1 == Done
    ensures Alone(s, c, k, call, world, i, m) == Alone(s, c, k, call, world, i, n)
    decreases n
  {
    hide Act;
    if n == 0 {
      DoneStays(s, c, k, world, i, m);
    } else {
      var turn := Act(s, c, k, call, world(i));
      MoreSteps(turn.store, c, k, turn.call, world, i + 1, n - 1, m - 1);
    }
  }

  /** One step, and then the rest. */
  lemma StepThen(s: Store, c: Config, k: nat, call: Call, world: nat -> Choice, i: nat, n: nat, turn: Turn, rest: (Store, Call, seq<Event>))
    requires turn == Act(s, c, k, call, world(i)) && rest == Alone(turn.store, c, k, turn.call, world, i + 1, n)
    ensures Alone(s, c, k, call, world, i, n + 1) == (rest.0, rest.1, turn.events + rest.2)
    ensures turn.events == [] ==> turn.events + rest.2 == rest.2
  {
    hide Act;
  }

  ghost function Advanced(w: World, c: Config, k: nat, world: nat -> Choice, i: nat, n: nat): World
    decreases n
  {
    if n == 0 then w else Advanced(Next(w, c, Advance(k, world(i))), c, k, world, i + 1, n - 1)
  }

  /** The flow a call is about, once it knows. */
  function Target(call: Call): Option<string> {
    match call
    case Looking(_, id) => Some(id)
    case Polling(_, id) => Some(id)
    case Completing(_, id, _) => Some(id)
    case Redirected(_, id, _) => Some(id)
    case Consuming(_, id, _) => Some(id)
    case Resolving(_) => None
    case Done => None
    case _ => Some(FlowOf(call))
  }

  predicate Stays(call: Call, turn: Turn) {
    && (turn.events != [] ==> Target(call) == Some(turn.id))
    && (turn.call.Done? || call.Resolving? || Target(turn.call) == Target(call))
    && (call.Resolving? ==> turn.events == [] && Target(call) == None)
  }

  lemma ReadStays(s: Store, c: Config, k: nat, call: Call, x: Choice)
    requires Inv(s) && (call.Looking? || call.Polling? || call.Completing? || call.Redirected?)
    ensures Stays(call, Act(s, c, k, call, x))
  {
    hide Inv, FlowStore.Get, Copy;
    if !call.Looking? { GotFlow(s, c, k, call, x); }
  }

  lemma TakeStays(s: Store, c: Config, k: nat, call: Call, x: Choice)
    requires Inv(s) && call.Consuming?
    ensures Stays(call, Act(s, c, k, call, x))
  {
    hide Inv, Consume, Follows;
    FlowTurns.ConsumeEither(s, c, x.ended, call.caller, call.id, x.now, x.later);
  }

  lemma ClaimStays(w: World, c: Config, k: nat, call: Call, x: Choice)
    requires Inv(w.store) && call.Claiming? && Copy(w.store, call.flow)
    ensures Stays(call, Act(w.store, c, k, call, x))
  {
    hide Inv, Update, Follows;
    FlowTurns.UpdateEither(w.store, c, x.ended, call.flow, call.flow.progress.(nextPollAt := call.now + call.flow.progress.interval), x.now);
  }

  lemma OtherStays(s: Store, c: Config, k: nat, call: Call, x: Choice)
    requires !call.Looking? && !call.Polling? && !call.Completing? && !call.Redirected? && !call.Consuming? && !call.Claiming?
    ensures Stays(call, Act(s, c, k, call, x))
  {
    hide Create, Update, ResolveState, Blank;
  }

  /** A step keeps to the call's flow, and writes only that flow's history. */
  lemma StaysWithItsFlow(w: World, c: Config, k: nat, x: Choice)
    requires WorldOk(w) && k in w.calls
    ensures Stays(w.calls[k], Act(w.store, c, k, w.calls[k], x))
  {
    hide Inv, FlowOk, DraftsOk, Stays, Act;
    var call := w.calls[k];
    assert CallOk(w.store, k, call, Log(w, FlowOf(call)));
    if call.Claiming? {
      ClaimStays(w, c, k, call, x);
    } else if call.Consuming? {
      TakeStays(w.store, c, k, call, x);
    } else if call.Looking? || call.Polling? || call.Completing? || call.Redirected? {
      ReadStays(w.store, c, k, call, x);
    } else {
      OtherStays(w.store, c, k, call, x);
    }
  }

  /** Main result: a call on its own is a run of all calls in which the others wait: it leaves the same
      store, and its events are what one flow's history gains, its own flow's once it knows it. */
  lemma {:induction false} AloneIsARun(w: World, c: Config, k: nat, world: nat -> Choice, i: nat, n: nat)
    requires WorldOk(w) && k in w.calls
    ensures var v := Advanced(w, c, k, world, i, n);
            var r := Alone(w.store, c, k, w.calls[k], world, i, n);
            && WorldOk(v) && v.store == r.0 && k in v.calls && v.calls[k] == r.1
            && (forall j :: j in w.calls && j != k ==> j in v.calls && v.calls[j] == w.calls[j])
            && (w.calls[k].Done? ==> r.2 == [])
            && (exists id :: GainsAlone(w, v, r.2, id) && (Target(w.calls[k]).Some? ==> id == Target(w.calls[k]).value))
    decreases n
  {
    hide Act, WorldOk, GainsAlone, Next, Target;
    if n == 0 {
      GainsNothing(w, w, Own(w.calls[k]));
    } else {
      var turn := Act(w.store, c, k, w.calls[k], world(i));
      var next := Next(w, c, Advance(k, world(i)));
      FlowTurns.NextKeeps(w, c, Advance(k, world(i)));
      StaysWithItsFlow(w, c, k, world(i));
      StepMoves(w, c, k, world(i));
      AloneIsARun(next, c, k, world, i + 1, n - 1);
      var v := Advanced(next, c, k, world, i + 1, n - 1);
      var rest := Alone(next.store, c, k, next.calls[k], world, i + 1, n - 1);
      var id :| GainsAlone(next, v, rest.2, id) && (Target(next.calls[k]).Some? ==> id == Target(next.calls[k]).value);
      if turn.call.Done? {
        GainsNothing(next, v, id);
        GainsMore(w, next, v, turn, rest.2, Own(w.calls[k]));
      } else {
        GainsMore(w, next, v, turn, rest.2, id);
      }
    }
  }

  /** The call's flow, or any id. */
  function Own(call: Call): (id: string)
    ensures Target(call).Some? ==> id == Target(call).value
  {
    if Target(call).Some? then Target(call).value else ""
  }

  lemma StepMoves(w: World, c: Config, k: nat, x: Choice)
    requires k in w.calls
    ensures var turn := Act(w.store, c, k, w.calls[k], x);
            var v := Next(w, c, Advance(k, x));
            && v.store == turn.store && v.calls == w.calls[k := turn.call]
            && (forall id :: Log(v, id) == if id == turn.id then Log(w, id) + turn.events else Log(w, id))
            && (w.calls[k].Done? ==> turn.call.Done? && turn.events == [])
  {
    var turn := Act(w.store, c, k, w.calls[k], x);
    hide Log;
    forall id ensures Log(Next(w, c, Advance(k, x)), id) == if id == turn.id then Log(w, id) + turn.events else Log(w, id) {
      LogMoved(w, k, turn, id);
    }
  }

  lemma GainsNothing(w: World, v: World, id: string)
    ensures GainsAlone(w, w, [], id)
    ensures GainsAlone(w, v, [], id) ==> forall other :: GainsAlone(w, v, [], other)
  {
    assert forall log: seq<Event> :: log + [] == log;
  }

  lemma GainsMore(w: World, next: World, v: World, turn: Turn, rest: seq<Event>, id: string)
    requires forall other :: Log(next, other) == if other == turn.id then Log(w, other) + turn.events else Log(w, other)
    requires GainsAlone(next, v, rest, id) && (turn.events == [] || turn.id == id)
    ensures GainsAlone(w, v, turn.events + rest, id)
  {
    hide Log;
    forall other ensures Log(v, other) == if other == id then Log(w, other) + (turn.events + rest) else Log(w, other) {
      ThenMore(Log(w, other), turn.events, rest);
    }
  }

  lemma ThenMore(log: seq<Event>, a: seq<Event>, b: seq<Event>)
    ensures log + a + b == log + (a + b) && log + [] == log
  {
  }

  /** One flow's history gains these events, and no other changes. */
  ghost predicate GainsAlone(w: World, v: World, events: seq<Event>, id: string) {
    forall other :: Log(v, other) == if other == id then Log(w, other) + events else Log(w, other)
  }

  class Service {
    const store: MemoryFlowStore.MemoryFlowStore

    constructor (store: MemoryFlowStore.MemoryFlowStore)
      ensures this.store == store
    {
      this.store := store;
    }

    /** Records how a consumed flow ended; failing to record is not an error. */
    method Finish(k: nat, flow: Flow, outcome: Outcome, key: string, world: nat -> Choice, i: nat)
      returns (view: View, ghost events: seq<Event>)
      requires store.Valid() && Copy(store.View(), flow) && Consumed(flow)
      modifies store
      ensures store.Valid()
      ensures (store.View(), Done, events) == Alone(old(store.View()), store.config, k, Finishing(flow, outcome, key), world, i, 1)
      ensures forall e :: e in events ==> e.Ended?
      ensures view == ViewOf(flow.(progress := flow.progress.(outcome := outcome, credentialKey := key)))
      ensures outcome == OutcomeComplete ==> EndsAs(view, flow.about, StatusComplete, key)
      ensures outcome == OutcomeFailed ==> EndsAs(view, flow.about, StatusFailed, "")
      ensures outcome == OutcomeExpired ==> EndsAs(view, flow.about, StatusExpired, "")
    {
      hide Inv, Update, Alone, Copy, ViewOf, Follows;
      ghost var s := store.View();
      var progress := flow.progress.(outcome := outcome, credentialKey := key);
      var ended := flow.(progress := progress, secrets := NO_SECRETS);
      events := [];
      FlowTurns.UpdateEither(s, store.config, false, flow, progress, world(i).now);
      var updated := store.Update(false, flow.about.caller, flow.about.id, flow.revision, progress, world(i).now);
      if updated.Ok? {
        ended := updated.value;
        events := [Ended(k, outcome, key)];
        SameView(s, store.View(), flow, progress);
      } else {
        SecretsDoNotShow(flow.(progress := progress));
      }
      view := ViewOf(ended);
      EndedShows(flow, outcome, key);
      DoneStays(store.View(), store.config, k, world, i + 1, 0);
      StepThen(s, store.config, k, Finishing(flow, outcome, key), world, i, 0,
               Act(s, store.config, k, Finishing(flow, outcome, key), world(i)), (store.View(), Done, []));
      assert events + [] == events;
    }

    /** Stores a consumed flow's credential under the key the hook chooses, and records the outcome. */
    method Save(k: nat, flow: Flow, world: nat -> Choice, i: nat)
      returns (view: View, error: Option<Error>, ghost events: seq<Event>)
      requires store.Valid() && Copy(store.View(), flow) && Consumed(flow)
      modifies store
      ensures store.Valid()
      ensures (store.View(), Done, events) == Alone(old(store.View()), store.config, k, Saving(flow), world, i, 2)
      ensures Used(k, events, view, error)
      ensures SaveAnswers(flow.about, world(i), view, error)
    {
      hide Inv, Alone, Copy, Follows, Blank, ViewOf;
      ghost var s := store.View();
      var x := world(i);
      var key, saved := x.key, false;
      ghost var asked: seq<Event> := [];
      if !Blank(key) {
        saved := x.saved;
        asked := [Saved(k, key, saved)];
      }
      ghost var rest;
      if !saved {
        error := Some(SaveFailed);
        view, rest := Finish(k, flow, OutcomeFailed, "", world, i + 1);
      } else {
        error := None;
        view, rest := Finish(k, flow, OutcomeComplete, key, world, i + 1);
      }
      events := asked + rest;
      StepThen(s, store.config, k, Saving(flow), world, i, 1, Act(s, store.config, k, Saving(flow), x), (store.View(), Done, rest));
    }

    // ----- Poll -----

    method Poll(k: nat, caller: Caller, id: string, world: nat -> Choice)
      returns (view: View, error: Option<Error>, ghost events: seq<Event>)
      requires store.Valid()
      modifies store
      ensures store.Valid()
      ensures (store.View(), Done, events) == Alone(old(store.View()), store.config, k, Polling(caller, id), world, 0, 6)
      ensures Reports(k, events, view, error)
      ensures PollAnswers(old(store.View()), store.View(), store.config, caller, id, world,
                          Reply(view, error, Taken(k) in events), Asked(k) in events)
    {
      hide Inv, Alone, Copy, Follows, Reports, Act, FlowStore.Get, ViewOf, Refusal, AskAnswers;
      ghost var s := store.View();
      var x := world(0);
      ghost var turn := Act(s, store.config, k, Polling(caller, id), x);
      GotFlow(s, store.config, k, Polling(caller, id), x);
      GetRefuses(s, store.config, caller, id, x);
      var got := store.Get(x.ended, caller, id, x.now);
      events := [];
      NothingReported(k);
      DoneStays(store.View(), store.config, k, world, 1, 5);
      if got.Err? {
        view, error := Unread(id, got.error);
        StepThen(s, store.config, k, Polling(caller, id), world, 0, 5, turn, (store.View(), Done, events));
        return;
      }
      var flow := got.value;
      if !flow.about.flowMethod.Device? || Consumed(flow) || !x.offered || x.clock < flow.progress.nextPollAt {
        view, error := NotPolled(flow, x);
        StepThen(s, store.config, k, Polling(caller, id), world, 0, 5, turn, (store.View(), Done, events));
        return;
      }
      view, error, events := Claim(k, flow, x.clock, world);
      StepThen(s, store.config, k, Polling(caller, id), world, 0, 5, turn, (store.View(), Done, events));
      assert [] + events == events;
    }

    /** Why a flow that was read is not asked about. */
    method NotPolled(flow: Flow, x: Choice) returns (view: View, error: Option<Error>)
      requires !flow.about.flowMethod.Device? || Consumed(flow) || !x.offered || x.clock < flow.progress.nextPollAt
      ensures error == if !flow.about.flowMethod.Device? then Some(WrongMethod) else if Consumed(flow) then None
                       else if !x.offered then Some(NoDriver) else Some(SlowDown)
      ensures view == if error in {None, Some(SlowDown)} then ViewOf(flow) else NoView
    {
      if !flow.about.flowMethod.Device? {
        return NoView, Some(WrongMethod);
      }
      if Consumed(flow) {
        return ViewOf(flow), None;
      }
      if !x.offered {
        return NoView, Some(NoDriver);
      }
      return ViewOf(flow), Some(SlowDown);
    }

    /** What an owner gets for a flow the store does not return. */
    method Unread(id: string, failure: StoreError) returns (view: View, error: Option<Error>)
      ensures view == (if failure == FlowExpired then ExpiredView(id) else NoView) && error == Some(StoreFailed(failure))
    {
      view := if failure == FlowExpired then ExpiredView(id) else NoView;
      error := Some(StoreFailed(failure));
    }

    /** Moves NextPollAt forward first: only the poller whose update lands asks the provider. */
    method Claim(k: nat, flow: Flow, now: Time, world: nat -> Choice)
      returns (view: View, error: Option<Error>, ghost events: seq<Event>)
      requires store.Valid() && Copy(store.View(), flow)
      modifies store
      ensures store.Valid()
      ensures (store.View(), Done, events) == Alone(old(store.View()), store.config, k, Claiming(flow, now), world, 1, 5)
      ensures Reports(k, events, view, error)
      ensures ClaimAnswers(old(store.View()), store.config, flow, world, Reply(view, error, Taken(k) in events), Asked(k) in events)
    {
      hide Inv, Alone, Copy, Follows, Reports, Update, ViewOf, Refusal, AskAnswers;
      ghost var s := store.View();
      var x := world(1);
      var progress := flow.progress.(nextPollAt := now + flow.progress.interval);
      FlowTurns.UpdateEither(s, store.config, x.ended, flow, progress, x.now);
      UpdateRefuses(s, store.config, flow, progress, x);
      var updated := store.Update(x.ended, flow.about.caller, flow.about.id, flow.revision, progress, x.now);
      ghost var turn := Act(s, store.config, k, Claiming(flow, now), x);
      if updated.Err? {
        events := [];
        NothingReported(k);
        if updated.error == Conflict {
          view, error := ViewOf(flow), Some(SlowDown);
        } else {
          view, error := Unread(flow.about.id, updated.error);
        }
        DoneStays(store.View(), store.config, k, world, 2, 4);
        StepThen(s, store.config, k, Claiming(flow, now), world, 1, 4, turn, (store.View(), Done, events));
        return;
      }
      LandedCopy(s, store.View(), flow, progress);
      ghost var rest;
      ghost var asking := store.View();
      view, error, rest := Ask(k, updated.value, now, world);
      events := [Claimed(k, now, progress.interval)] + rest;
      StepThen(s, store.config, k, Claiming(flow, now), world, 1, 4, turn, (store.View(), Done, rest));
      ReportsLater(k, Claimed(k, now, progress.interval), rest, view, error);
      LaterInLog(Claimed(k, now, progress.interval), rest);
      ClaimedCopy(s, flow);
      AskedOfClaimed(s, asking, store.config, flow, updated.value, world, Reply(view, error, Taken(k) in events));
    }

    method Ask(k: nat, claimed: Flow, now: Time, world: nat -> Choice)
      returns (view: View, error: Option<Error>, ghost events: seq<Event>)
      requires store.Valid() && Copy(store.View(), claimed)
      modifies store
      ensures store.Valid()
      ensures (store.View(), Done, events) == Alone(old(store.View()), store.config, k, Asking(claimed, now), world, 2, 4)
      ensures Reports(k, events, view, error)
      ensures AskAnswers(old(store.View()), store.config, claimed, world, Reply(view, error, Taken(k) in events)) && Asked(k) in events
    {
      hide Inv, Alone, Copy, Follows, Reports, Update, Consume, ViewOf, SpendAnswers, SlowAnswers;
      ghost var s := store.View();
      var x := world(2);
      ghost var turn := Act(s, store.config, k, Asking(claimed, now), x);
      ghost var rest: seq<Event> := [];
      NothingReported(k);
      DoneStays(s, store.config, k, world, 3, 3);
      match x.polled {
        case PollFailed => view, error := ViewOf(claimed), Some(DriverFailed);
        case PollPending => view, error := ViewOf(claimed), None;
        case PollSlowDown => view, error, rest := Slow(k, claimed, now, world);
        case PollApproved => view, error, rest := Spend(k, claimed.about.caller, claimed.about.id, ToSave, true, world, 3);
        case PollDenied =>
          view, error, rest := Spend(k, claimed.about.caller, claimed.about.id, ToEnd(OutcomeFailed), true, world, 3);
        case PollExpired =>
          view, error, rest := Spend(k, claimed.about.caller, claimed.about.id, ToEnd(OutcomeExpired), true, world, 3);
        case PollUnknown => view, error := ViewOf(claimed), Some(DriverFailed);
      }
      events := [Asked(k)] + rest;
      StepThen(s, store.config, k, Asking(claimed, now), world, 2, 3, turn, (store.View(), Done, rest));
      ReportsLater(k, Asked(k), rest, view, error);
      LaterInLog(Asked(k), rest);
    }

    method Slow(k: nat, claimed: Flow, now: Time, world: nat -> Choice)
      returns (view: View, error: Option<Error>, ghost events: seq<Event>)
      requires store.Valid() && Copy(store.View(), claimed)
      modifies store
      ensures store.Valid()
      ensures (store.View(), Done, events) == Alone(old(store.View()), store.config, k, Slowing(claimed, now), world, 3, 3)
      ensures Reports(k, events, view, error)
      ensures SlowAnswers(old(store.View()), store.config, claimed, world(3), Reply(view, error, Taken(k) in events))
    {
      hide Inv, Alone, Copy, Follows, Update, ViewOf, Refusal;
      ghost var s := store.View();
      var x := world(3);
      var slower := claimed;
      var interval := claimed.progress.interval + SLOW_DOWN_STEP;
      var progress := claimed.progress.(interval := interval, nextPollAt := now + interval);
      events := [];
      UpdateRefuses(s, store.config, claimed, progress, x);
      var updated := store.Update(x.ended, claimed.about.caller, claimed.about.id, claimed.revision, progress, x.now);
      if updated.Ok? {
        slower := updated.value;
        events := [Slowed(k, now, interval)];
        CurrentCopy(s, claimed, interval, now + interval);
      }
      view, error := ViewOf(slower), Some(SlowDown);
      DoneStays(store.View(), store.config, k, world, 4, 2);
      StepThen(s, store.config, k, Slowing(claimed, now), world, 3, 2, Act(s, store.config, k, Slowing(claimed, now), x), (store.View(), Done, []));
      assert events + [] == events;
    }

    // ----- Once the flow is to be consumed -----

    /** Consumes the flow, at most once whoever else tries, and only then does what it is for. */
    method Spend(k: nat, caller: Caller, id: string, purpose: Purpose, polled: bool, world: nat -> Choice, i: nat)
      returns (view: View, error: Option<Error>, ghost events: seq<Event>)
      requires store.Valid() && (purpose.ToEnd? ==> purpose.outcome in {OutcomeFailed, OutcomeExpired})
      modifies store
      ensures store.Valid()
      ensures (store.View(), Done, events) ==
              Alone(old(store.View()), store.config, k, Consuming(caller, id, purpose), world, i, if purpose.ToExchange? then 4 else 3)
      ensures Reports(k, events, view, error)
      ensures SpendAnswers(old(store.View()), store.config, caller, id, purpose, polled, world, i, Reply(view, error, Taken(k) in events))
    {
      hide Inv, Alone, Copy, Follows, Reports, Consume, Act, ViewOf, Refusal, UseAnswers;
      ghost var s := store.View();
      var x := world(i);
      ghost var n := if purpose.ToExchange? then 3 else 2;
      ghost var turn := Act(s, store.config, k, Consuming(caller, id, purpose), x);
      TakesFlow(s, store.config, k, caller, id, purpose, x);
      ConsumeRefuses(s, store.config, caller, id, x);
      var taken := store.Consume(x.ended, caller, id, x.now, x.later);
      if taken.Err? {
        events := [];
        NothingReported(k);
        view, error := Unread(id, taken.error);
        if polled {
          view := NoView;
        }
        DoneStays(store.View(), store.config, k, world, i + 1, n);
        StepThen(s, store.config, k, Consuming(caller, id, purpose), world, i, n, turn, (store.View(), Done, events));
        return;
      }
      ghost var rest;
      view, error, rest := Use(k, taken.value, purpose, world, i + 1);
      events := [Taken(k)] + rest;
      StepThen(s, store.config, k, Consuming(caller, id, purpose), world, i, n, turn, (store.View(), Done, rest));
      UsedReports(k, rest, view, error);
    }

    method Use(k: nat, flow: Flow, purpose: Purpose, world: nat -> Choice, i: nat)
      returns (view: View, error: Option<Error>, ghost events: seq<Event>)
      requires store.Valid() && Copy(store.View(), flow) && Consumed(flow)
      requires purpose.ToEnd? ==> purpose.outcome in {OutcomeFailed, OutcomeExpired}
      modifies store
      ensures store.Valid()
      ensures (store.View(), Done, events) ==
              Alone(old(store.View()), store.config, k, FlowService.Spend(flow, purpose), world, i, if purpose.ToExchange? then 3 else 2)
      ensures Used(k, events, view, error) && UseAnswers(purpose, flow.about, world, i, view, error)
    {
      hide Inv, Alone, Copy, Follows, ViewOf, EndsAs, SaveAnswers;
      ghost var s := store.View();
      match purpose {
        case ToSave => view, error, events := Save(k, flow, world, i);
        case ToEnd(outcome) =>
          view, events := Finish(k, flow, outcome, "", world, i);
          error := Some(if outcome == OutcomeExpired then StoreFailed(FlowExpired) else AccessDenied);
          MoreSteps(s, store.config, k, Finishing(flow, outcome, ""), world, i, 1, 2);
        case ToExchange =>
          ghost var rest;
          var x := world(i);
          if x.exchanged {
            view, error, rest := Save(k, flow, world, i + 1);
          } else {
            error := Some(DriverFailed);
            view, rest := Finish(k, flow, OutcomeFailed, "", world, i + 1);
            MoreSteps(s, store.config, k, Finishing(flow, OutcomeFailed, ""), world, i + 1, 1, 2);
          }
          events := [Exchanged(k)] + rest;
          StepThen(s, store.config, k, Exchanging(flow), world, i, 2, Act(s, store.config, k, Exchanging(flow), x), (store.View(), Done, rest));
          UsedLater(k, rest, view, error);
      }
    }

    // ----- Complete and Callback -----

    method Complete(k: nat, caller: Caller, id: string, input: CompleteInput, world: nat -> Choice)
      returns (view: View, error: Option<Error>, ghost events: seq<Event>)
      requires store.Valid()
      modifies store
      ensures store.Valid()
      ensures (store.View(), Done, events) ==
              Alone(old(store.View()), store.config, k, FirstCall(BeginComplete(k, caller, id, input)), world, 0, 5)
      ensures Reports(k, events, view, error)
      ensures CompleteAnswers(old(store.View()), store.View(), store.config, caller, id, input, world, Reply(view, error, Taken(k) in events))
    {
      hide Inv, Alone, Copy, Follows, Reports, Act, FlowStore.Get, ViewOf, Refusal, CompletionAnswers;
      ghost var s := store.View();
      NothingReported(k);
      DoneStays(s, store.config, k, world, 0, 5);
      events := [];
      if input.code == "" && input.error == "" {
        return NoView, Some(CodeRequired), [];
      }
      var x := world(0);
      ghost var turn := Act(s, store.config, k, Completing(caller, id, input), x);
      GotFlow(s, store.config, k, Completing(caller, id, input), x);
      GetRefuses(s, store.config, caller, id, x);
      var got := store.Get(x.ended, caller, id, x.now);
      if got.Err? {
        view, error := Unread(id, got.error);
        DoneStays(store.View(), store.config, k, world, 1, 4);
        StepThen(s, store.config, k, Completing(caller, id, input), world, 0, 4, turn, (store.View(), Done, events));
        return;
      }
      view, error, events := CompleteFlow(k, got.value, input, x, world, 1);
      StepThen(s, store.config, k, Completing(caller, id, input), world, 0, 4, turn, (store.View(), Done, events));
    }

    method CompleteFlow(k: nat, flow: Flow, input: CompleteInput, x: Choice, world: nat -> Choice, i: nat)
      returns (view: View, error: Option<Error>, ghost events: seq<Event>)
      requires store.Valid()
      modifies store
      ensures store.Valid()
      ensures (store.View(), Done, events) == Alone(old(store.View()), store.config, k, BeforeConsume(flow, input, x), world, i, 4)
      ensures Reports(k, events, view, error)
      ensures CompletionAnswers(old(store.View()), store.View(), store.config, flow, input, x.offered, world, i,
                                Reply(view, error, Taken(k) in events))
    {
      hide Inv, Alone, Copy, Follows, Reports, Act, ViewOf, SpendAnswers;
      ghost var s := store.View();
      NothingReported(k);
      DoneStays(s, store.config, k, world, i, 4);
      if flow.about.flowMethod.Device? {
        return NoView, Some(WrongMethod), [];
      }
      if Consumed(flow) {
        return NoView, Some(StoreFailed(NotFound)), [];
      }
      if input.state != "" && flow.secrets.state != input.state {
        return ViewOf(flow), Some(StateMismatch), [];
      }
      if !x.offered {
        return NoView, Some(NoDriver), [];
      }
      var purpose := if input.error != "" then ToEnd(OutcomeFailed) else ToExchange;
      view, error, events := Spend(k, flow.about.caller, flow.about.id, purpose, false, world, i);
      if purpose.ToEnd? {
        MoreSteps(s, store.config, k, Consuming(flow.about.caller, flow.about.id, purpose), world, i, 3, 4);
      }
    }

    /** The state, and no caller, names the flow and its owner. */
    method Callback(k: nat, input: CompleteInput, world: nat -> Choice)
      returns (view: View, error: Option<Error>, ghost events: seq<Event>)
      requires store.Valid()
      modifies store
      ensures store.Valid()
      ensures (store.View(), Done, events) ==
              Alone(old(store.View()), store.config, k, FirstCall(BeginCallback(k, input)), world, 0, 6)
      ensures Reports(k, events, view, error)
      ensures CallbackAnswers(old(store.View()), store.View(), store.config, input, world, Reply(view, error, Taken(k) in events))
    {
      hide Inv, Alone, Copy, Follows, Reports, ResolveState, ViewOf, Refusal, RedirectAnswers, Names;
      ghost var s := store.View();
      NothingReported(k);
      DoneStays(s, store.config, k, world, 0, 6);
      events := [];
      if input.state == "" {
        return NoView, Some(StoreFailed(NotFound)), [];
      }
      if input.code == "" && input.error == "" {
        return NoView, Some(CodeRequired), [];
      }
      var x := world(0);
      ghost var turn := Act(s, store.config, k, Resolving(input), x);
      if !x.ended {
        ResolveRefuses(s, store.config, input.state, x);
      } else {
        EndedResolves(s, store.config, input.state, x.now);
      }
      var resolved := store.ResolveState(x.ended, input.state, x.now);
      if resolved.Err? {
        view, error := Unread("", resolved.error);
        DoneStays(store.View(), store.config, k, world, 1, 5);
        StepThen(s, store.config, k, Resolving(input), world, 0, 5, turn, (store.View(), Done, events));
        return;
      }
      var (owner, id) := resolved.value;
      view, error, events := Redirect(k, owner, id, input, world);
      StepThen(s, store.config, k, Resolving(input), world, 0, 5, turn, (store.View(), Done, events));
    }

    method Redirect(k: nat, owner: Caller, id: string, input: CompleteInput, world: nat -> Choice)
      returns (view: View, error: Option<Error>, ghost events: seq<Event>)
      requires store.Valid()
      modifies store
      ensures store.Valid()
      ensures (store.View(), Done, events) == Alone(old(store.View()), store.config, k, Redirected(owner, id, input), world, 1, 5)
      ensures Reports(k, events, view, error)
      ensures RedirectAnswers(old(store.View()), store.View(), store.config, owner, id, input, world, Reply(view, error, Taken(k) in events))
    {
      hide Inv, Alone, Copy, Follows, Reports, Act, FlowStore.Get, ViewOf, BeforeConsume, Refusal, CompletionAnswers;
      ghost var s := store.View();
      var x := world(1);
      ghost var turn := Act(s, store.config, k, Redirected(owner, id, input), x);
      GotFlow(s, store.config, k, Redirected(owner, id, input), x);
      GetRefuses(s, store.config, owner, id, x);
      var got := store.Get(x.ended, owner, id, x.now);
      events := [];
      NothingReported(k);
      DoneStays(store.View(), store.config, k, world, 2, 4);
      if got.Err? {
        view, error := Unread(id, got.error);
      } else if !got.value.about.flowMethod.Browser? {
        view, error := NoView, Some(WrongMethod);
      } else if input.redirectUri != "" && input.redirectUri != got.value.secrets.redirectUri {
        view, error := NoView, Some(StoreFailed(NotFound));
      } else {
        view, error, events := CompleteFlow(k, got.value, input, x, world, 2);
      }
      StepThen(s, store.config, k, Redirected(owner, id, input), world, 1, 4, turn, (store.View(), Done, events));
    }

    // ----- Start -----

    method Start(k: nat, request: StartRequest, offered: bool, authorization: Option<Authorization>, id: string, now: Time,
                 world: nat -> Choice)
      returns (view: View, error: Option<Error>, ghost events: seq<Event>)
      requires store.Valid()
      modifies store
      ensures store.Valid()
      ensures (store.View(), Done, events) ==
              Alone(old(store.View()), store.config, k, BeforeCreate(request, offered, authorization, id, now), world, 0, 1)
      ensures error == None ==> authorization.Some?
      ensures error == None ==> events == [Started(k, now, NewFlow(request, authorization.value, id, now).progress.interval)]
                                && view == ViewOf(NewFlow(request, authorization.value, id, now)) && view.status == StatusPending
      ensures error != None ==> events == [] && view == NoView
      ensures StartAnswers(old(store.View()), store.View(), store.config, request, offered, authorization, id, now, world(0), view, error)
    {
      hide Inv, Alone, Create, ValidCaller, Blank, NewFlow, Admits, StartsAs, ViewOf;
      ghost var s := store.View();
      var x := world(0);
      DoneStays(s, store.config, k, world, 0, 1);
      if !ValidCaller(request.caller) || Blank(request.instance) {
        return NoView, Some(InvalidRequest), [];
      }
      if !offered {
        return NoView, Some(NoDriver), [];
      }
      if authorization == None || !CompleteAuthorization(request.flowMethod, authorization.value) {
        return NoView, Some(DriverFailed), [];
      }
      var flow := NewFlow(request, authorization.value, id, now);
      CreateAnswers(s, store.config, request, authorization.value, id, now, x);
      NewIsPending(request, authorization.value, id, now);
      var created := store.Create(x.ended, flow, x.now, x.later);
      if created.Err? {
        view, error, events := NoView, Some(StoreFailed(created.error)), [];
      } else {
        view, error, events := ViewOf(flow), None, [Started(k, now, flow.progress.interval)];
      }
      DoneStays(store.View(), store.config, k, world, 1, 0);
      StepThen(s, store.config, k, Creating(flow), world, 0, 0, Act(s, store.config, k, Creating(flow), x), (store.View(), Done, []));
      assert events + [] == events;
    }

    method Get(k: nat, caller: Caller, id: string, world: nat -> Choice)
      returns (view: View, error: Option<Error>)
      requires store.Valid()
      modifies store
      ensures store.Valid()
      ensures (store.View(), Done, []) == Alone(old(store.View()), store.config, k, Looking(caller, id), world, 0, 1)
      ensures var s := old(store.View());
              var refusal := Refusal(s, store.config, caller, id, world(0));
              if refusal != None then Refused(Reply(view, error, false), id, refusal)
              else view == ViewOf(s.flows[id].flow) && error == None && store.View() == s
    {
      hide Inv, Alone, Owned, Follows, ViewOf, Refusal;
      ghost var s := store.View();
      var x := world(0);
      GetRefuses(s, store.config, caller, id, x);
      var got := store.Get(x.ended, caller, id, x.now);
      if got.Err? {
        view, error := Unread(id, got.error);
      } else {
        view, error := ViewOf(got.value), None;
      }
      DoneStays(store.View(), store.config, k, world, 1, 0);
      StepThen(s, store.config, k, Looking(caller, id), world, 0, 0, Act(s, store.config, k, Looking(caller, id), x), (store.View(), Done, []));
    }
  }

  lemma EndedShows(f: Flow, outcome: Outcome, key: string)
    requires Consumed(f)
    ensures var view := ViewOf(f.(progress := f.progress.(outcome := outcome, credentialKey := key)));
            && (outcome == OutcomeComplete ==> EndsAs(view, f.about, StatusComplete, key))
            && (outcome == OutcomeFailed ==> EndsAs(view, f.about, StatusFailed, ""))
            && (outcome == OutcomeExpired ==> EndsAs(view, f.about, StatusExpired, ""))
  {
  }

  lemma NewIsPending(request: StartRequest, a: Authorization, id: string, now: Time)
    ensures ViewOf(NewFlow(request, a, id, now)).View? && ViewOf(NewFlow(request, a, id, now)).status == StatusPending
    ensures NewFlow(request, a, id, now).about.createdAt == now && NewFlow(request, a, id, now).about.id == id
  {
  }

  lemma LaterInLog(e: Event, rest: seq<Event>)
    ensures forall f: Event :: f in [e] + rest <==> f == e || f in rest
  {
  }

  /** What a view shows of a copy whose revision is the stored one. */
  lemma CurrentCopy(s: Store, f: Flow, interval: Duration, next: Time)
    requires Copy(s, f) && f.about.id in s.flows && s.flows[f.about.id].flow.revision == f.revision
    ensures ViewOf(s.flows[f.about.id].flow.(progress := f.progress.(interval := interval, nextPollAt := next), revision := s.revision + 1))
            == ViewOf(f.(progress := f.progress.(interval := interval)))
  {
  }

  lemma ClaimedCopy(s: Store, f: Flow)
    requires Copy(s, f) && f.about.id in s.flows && s.flows[f.about.id].flow.revision == f.revision
    ensures s.flows[f.about.id].flow.about == f.about && s.flows[f.about.id].flow.consumedAt == f.consumedAt
  {
  }

  lemma EndedResolves(s: Store, c: Config, state: string, now: Instant)
    ensures ResolveState(s, c, true, state, now) == (s, Err(ContextEnded))
  {
  }

  lemma LandedCopy(s: Store, t: Store, f: Flow, progress: Progress)
    requires FlowTurns.Landed(s, t, f, progress) && Copy(s, f)
    ensures f.about.id in t.flows && Copy(t, t.flows[f.about.id].flow) && t.flows[f.about.id].flow.about == f.about
  {
  }

  /** A read flow is a copy of the stored one. */
  lemma GotFlow(s: Store, c: Config, k: nat, call: Call, x: Choice)
    requires Inv(s) && (call.Polling? || call.Completing? || call.Redirected?)
    ensures var r := Get(s, c, x.ended, call.caller, call.id, x.now);
            var turn := Act(s, c, k, call, x);
            && turn.store == r.0 && turn.events == []
            && (r.1.Err? ==> turn.call == Done)
            && (r.1.Ok? ==> Copy(r.0, r.1.value) && r.1.value.about.id == call.id && r.1.value.about.caller == call.caller
                            && turn.call == match call
                                            case Polling(_, _) => BeforeClaim(r.1.value, x)
                                            case Completing(_, _, input) => BeforeConsume(r.1.value, input, x)
                                            case Redirected(_, _, input) => AfterRedirect(r.1.value, input, x))
  {
    hide Inv, Follows, Owned, Copy, BeforeClaim, BeforeConsume, AfterRedirect;
    OwnedFollows(s, c, call.caller, call.id, x.now);
    if Get(s, c, x.ended, call.caller, call.id, x.now).1.Ok? {
      FlowTurns.CopyOf(s, call.id);
    }
  }

  lemma TakesFlow(s: Store, c: Config, k: nat, caller: Caller, id: string, purpose: Purpose, x: Choice)
    requires Inv(s)
    ensures var r := Consume(s, c, x.ended, caller, id, x.now, x.later);
            var turn := Act(s, c, k, Consuming(caller, id, purpose), x);
            && turn.store == r.0
            && (r.1.Err? ==> turn.events == [] && turn.call == Done)
            && (r.1.Ok? ==> Copy(r.0, r.1.value) && Consumed(r.1.value)
                            && turn.events == [Taken(k)] && turn.call == FlowService.Spend(r.1.value, purpose))
  {
    hide Inv, Follows, Consume, FlowService.Spend;
    FlowTurns.ConsumeEither(s, c, x.ended, caller, id, x.now, x.later);
  }

  lemma SameView(s: Store, t: Store, f: Flow, progress: Progress)
    requires FlowTurns.Landed(s, t, f, progress) && Copy(s, f)
    ensures ViewOf(t.flows[f.about.id].flow) == ViewOf(f.(progress := progress))
  {
  }
}
