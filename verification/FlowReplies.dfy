/** What each call of the OAuth service answers, by the fields of the stored flow and what driver,
    key hook, credential store and clock say. */
module FlowReplies {
  import opened Options
  import opened FlowStore
  import opened FlowLog
  import opened FlowService
  import opened FlowAnswers

  datatype Status = StatusPending | StatusComplete | StatusFailed | StatusExpired

  datatype View = NoView | View(id: string, instance: string, flowMethod: Option<FlowMethod>, status: Status, shown: Shown,
                                interval: int, expiresAt: Time, credentialKey: string)

  datatype Error =
    | SlowDown | AccessDenied | StateMismatch | WrongMethod | CodeRequired | NoDriver | DriverFailed
    | SaveFailed | InvalidRequest | StoreFailed(error: StoreError)

  const NOTHING_SHOWN := Shown("", "", "", "")

  function ViewOf(f: Flow): View {
    var a := f.about;
    if Consumed(f) then
      var status := match f.progress.outcome
        case NoOutcome => StatusPending
        case OutcomeComplete => StatusComplete
        case OutcomeFailed => StatusFailed
        case OutcomeExpired => StatusExpired;
      View(a.id, a.instance, Some(a.flowMethod), status, NOTHING_SHOWN, 0, a.expiresAt,
           if status == StatusComplete then f.progress.credentialKey else "")
    else
      View(a.id, a.instance, Some(a.flowMethod), StatusPending, a.shown,
           if a.flowMethod.Device? then Seconds(f.progress.interval) else 0, a.expiresAt, "")
  }

  /** Truncates toward zero. */
  function Seconds(d: Duration): int {
    if d >= 0 then d / SECOND else -(-d / SECOND)
  }

  function ExpiredView(id: string): View {
    View(id, "", None, StatusExpired, NOTHING_SHOWN, 0, NEVER, "")
  }

  /** What a call that consumed the flow reports: complete without an error exactly when it saved
      the credential, under the key it names. */
  ghost predicate Reports(k: nat, events: seq<Event>, view: View, error: Option<Error>) {
    && (Taken(k) in events && error == None <==> exists key :: Saved(k, key, true) in events)
    && (forall key :: Saved(k, key, true) in events ==> view.View? && view.status == StatusComplete && view.credentialKey == key)
    && (error == Some(SlowDown) || error == Some(StateMismatch) ==> Taken(k) !in events)
  }

  predicate Completes(view: View, key: string) {
    view.View? && view.status == StatusComplete && view.credentialKey == key
  }

  /** The same for what follows the consumption. */
  ghost predicate Used(k: nat, events: seq<Event>, view: View, error: Option<Error>) {
    && (error == None <==> exists key :: Saved(k, key, true) in events)
    && (forall key :: Saved(k, key, true) in events ==> Completes(view, key))
    && error != Some(SlowDown) && error != Some(StateMismatch)
  }

  lemma UsedLater(k: nat, rest: seq<Event>, view: View, error: Option<Error>)
    requires Used(k, rest, view, error)
    ensures Used(k, [Exchanged(k)] + rest, view, error)
  {
    forall key ensures Saved(k, key, true) in [Exchanged(k)] + rest <==> Saved(k, key, true) in rest {
    }
  }

  lemma UsedReports(k: nat, rest: seq<Event>, view: View, error: Option<Error>)
    requires Used(k, rest, view, error)
    ensures Reports(k, [Taken(k)] + rest, view, error)
  {
    var events := [Taken(k)] + rest;
    assert events[0] == Taken(k);
    forall key ensures Saved(k, key, true) in events <==> Saved(k, key, true) in rest {
    }
  }

  lemma NothingReported(k: nat)
    ensures forall view, error :: Reports(k, [], view, error)
  {
  }

  lemma ReportsLater(k: nat, e: Event, rest: seq<Event>, view: View, error: Option<Error>)
    requires Reports(k, rest, view, error) && (e.Claimed? || e.Asked?)
    ensures Reports(k, [e] + rest, view, error)
  {
    var events := [e] + rest;
    forall f: Event | f != e ensures f in events <==> f in rest {
    }
  }

  lemma SecretsDoNotShow(f: Flow)
    ensures ViewOf(f.(secrets := NO_SECRETS)) == ViewOf(f)
  {
  }

  /** A view names its flow; it shows where to authorize and how often to poll until the flow is
      consumed, and from then on how it ended, with the key of a complete one. */
  lemma ViewShows(f: Flow)
    ensures var v := ViewOf(f);
            && v.View? && v.id == f.about.id && v.instance == f.about.instance && v.flowMethod == Some(f.about.flowMethod)
            && v.expiresAt == f.about.expiresAt
            && (f.consumedAt == NEVER ==> v.status == StatusPending && v.shown == f.about.shown && v.credentialKey == "")
            && (f.consumedAt != NEVER ==> v.shown == Shown("", "", "", "") && v.interval == 0)
            && (v.status == StatusComplete <==> f.consumedAt != NEVER && f.progress.outcome == OutcomeComplete)
            && (v.status == StatusFailed <==> f.consumedAt != NEVER && f.progress.outcome == OutcomeFailed)
            && (v.status == StatusExpired <==> f.consumedAt != NEVER && f.progress.outcome == OutcomeExpired)
            && v.credentialKey == (if v.status == StatusComplete then f.progress.credentialKey else "")
            && (f.consumedAt == NEVER && f.about.flowMethod == Device && f.progress.interval >= 0 ==>
                  v.interval * 1_000_000_000 <= f.progress.interval < (v.interval + 1) * 1_000_000_000)
            && (f.about.flowMethod != Device ==> v.interval == 0)
  {
  }

  // ----- The answers -----

  /** What the caller gets, and whether the call took the flow. */
  datatype Reply = Reply(view: View, error: Option<Error>, taken: bool)

  /** Why the store does not return the flow to this caller in a step, if it does not. */
  ghost function Refusal(s: Store, c: Config, caller: Caller, id: string, x: Choice): Option<Error> {
    if x.ended then Some(StoreFailed(ContextEnded))
    else if id !in s.flows || s.flows[id].flow.about.caller != caller then Some(StoreFailed(NotFound))
    else if x.now < s.flows[id].flow.about.expiresAt then None
    else if x.now < s.flows[id].flow.about.expiresAt + c.retention then Some(StoreFailed(FlowExpired))
    else Some(StoreFailed(NotFound))
  }

  /** A flow the store calls expired is shown as such; any other refusal shows nothing. */
  ghost predicate Refused(r: Reply, id: string, refusal: Option<Error>) {
    r == Reply(if refusal == Some(StoreFailed(FlowExpired)) then View(id, "", None, StatusExpired, Shown("", "", "", ""), 0, NEVER, "")
               else NoView, refusal, false)
  }

  /** The view of a flow that has ended so. */
  ghost predicate EndsAs(view: View, about: About, status: Status, key: string) {
    view == View(about.id, about.instance, Some(about.flowMethod), status, Shown("", "", "", ""), 0, about.expiresAt, key)
  }

  /** No key or a failed save fails the flow; otherwise it is complete under the key. */
  ghost predicate SaveAnswers(about: About, x: Choice, view: View, error: Option<Error>) {
    if Blank(x.key) || !x.saved then error == Some(SaveFailed) && EndsAs(view, about, StatusFailed, "")
    else error == None && EndsAs(view, about, StatusComplete, x.key)
  }

  /** What the consumed flow is used for decides the answer, from step i on. */
  ghost predicate UseAnswers(purpose: Purpose, about: About, world: nat -> Choice, i: nat, view: View, error: Option<Error>) {
    match purpose
    case ToEnd(outcome) =>
      if outcome == OutcomeExpired then error == Some(StoreFailed(FlowExpired)) && EndsAs(view, about, StatusExpired, "")
      else error == Some(AccessDenied) && EndsAs(view, about, StatusFailed, "")
    case ToSave => SaveAnswers(about, world(i), view, error)
    case ToExchange =>
      if world(i).exchanged then SaveAnswers(about, world(i + 1), view, error)
      else error == Some(DriverFailed) && EndsAs(view, about, StatusFailed, "")
  }

  /** Only an unexpired, unconsumed flow of the caller's is taken. A poll that finds it gone shows nothing. */
  ghost predicate SpendAnswers(s: Store, c: Config, caller: Caller, id: string, purpose: Purpose, polled: bool,
                               world: nat -> Choice, i: nat, r: Reply) {
    var refusal := Refusal(s, c, caller, id, world(i));
    if refusal != None then if polled then r == Reply(NoView, refusal, false) else Refused(r, id, refusal)
    else if s.flows[id].flow.consumedAt != NEVER then r == Reply(NoView, Some(StoreFailed(NotFound)), false)
    else r.taken && UseAnswers(purpose, s.flows[id].flow.about, world, i + 1, r.view, r.error)
  }

  /** A slow_down lengthens the interval shown if its update lands on the flow as it was read. */
  ghost predicate SlowAnswers(s: Store, c: Config, f: Flow, x: Choice, r: Reply) {
    var lands := Refusal(s, c, f.about.caller, f.about.id, x) == None && s.flows[f.about.id].flow.revision == f.revision;
    r == Reply(ViewOf(if lands then f.(progress := f.progress.(interval := f.progress.interval + 5_000_000_000)) else f),
               Some(SlowDown), false)
  }

  /** The driver's answers to a poll of f. */
  ghost predicate AskAnswers(s: Store, c: Config, f: Flow, world: nat -> Choice, r: Reply) {
    var caller, id := f.about.caller, f.about.id;
    match world(2).polled
    case PollPending => r == Reply(ViewOf(f), None, false)
    case PollSlowDown => SlowAnswers(s, c, f, world(3), r)
    case PollApproved => SpendAnswers(s, c, caller, id, ToSave, true, world, 3, r)
    case PollDenied => SpendAnswers(s, c, caller, id, ToEnd(OutcomeFailed), true, world, 3, r)
    case PollExpired => SpendAnswers(s, c, caller, id, ToEnd(OutcomeExpired), true, world, 3, r)
    case _ => r == Reply(ViewOf(f), Some(DriverFailed), false)
  }

  /** A claim whose flow was written since it was read gives way to the poll that wrote it. */
  ghost predicate ClaimAnswers(s: Store, c: Config, f: Flow, world: nat -> Choice, r: Reply, asked: bool) {
    var refusal := Refusal(s, c, f.about.caller, f.about.id, world(1));
    if refusal != None then Refused(r, f.about.id, refusal) && !asked
    else if s.flows[f.about.id].flow.revision != f.revision then r == Reply(ViewOf(f), Some(SlowDown), false) && !asked
    else asked && AskAnswers(s, c, f, world, r)
  }

  /** Only a pending device flow with a driver, once its next poll is due, is asked about. */
  ghost predicate PollAnswers(s: Store, t: Store, c: Config, caller: Caller, id: string, world: nat -> Choice, r: Reply, asked: bool) {
    var x, refusal := world(0), Refusal(s, c, caller, id, world(0));
    if refusal != None then Refused(r, id, refusal) && !asked
    else
      var f := s.flows[id].flow;
      if f.about.flowMethod != Device then r == Reply(NoView, Some(WrongMethod), false) && t == s && !asked
      else if f.consumedAt != NEVER then r == Reply(ViewOf(f), None, false) && t == s && !asked
      else if !x.offered then r == Reply(NoView, Some(NoDriver), false) && t == s && !asked
      else if x.clock < f.progress.nextPollAt then r == Reply(ViewOf(f), Some(SlowDown), false) && t == s && !asked
      else ClaimAnswers(s, c, f, world, r, asked)
  }

  /** A device or consumed flow, a wrong state and a missing driver each leave the store as it was, and
      are answered in that order; only past them is the flow taken. */
  ghost predicate CompletionAnswers(s: Store, t: Store, c: Config, f: Flow, input: CompleteInput, offered: bool,
                                    world: nat -> Choice, i: nat, r: Reply) {
    if f.about.flowMethod == Device then r == Reply(NoView, Some(WrongMethod), false) && t == s
    else if f.consumedAt != NEVER then r == Reply(NoView, Some(StoreFailed(NotFound)), false) && t == s
    else if input.state != "" && input.state != f.secrets.state then r == Reply(ViewOf(f), Some(StateMismatch), false) && t == s
    else if !offered then r == Reply(NoView, Some(NoDriver), false) && t == s
    else SpendAnswers(s, c, f.about.caller, f.about.id, if input.error != "" then ToEnd(OutcomeFailed) else ToExchange, false, world, i, r)
  }

  ghost predicate CompleteAnswers(s: Store, t: Store, c: Config, caller: Caller, id: string, input: CompleteInput,
                                  world: nat -> Choice, r: Reply) {
    var refusal := Refusal(s, c, caller, id, world(0));
    if input.code == "" && input.error == "" then r == Reply(NoView, Some(CodeRequired), false) && t == s
    else if refusal != None then Refused(r, id, refusal)
    else CompletionAnswers(s, t, c, s.flows[id].flow, input, world(0).offered, world, 1, r)
  }

  /** A callback to a flow that is none of a browser's, or that arrived elsewhere, spends nothing either. */
  ghost predicate RedirectAnswers(s: Store, t: Store, c: Config, owner: Caller, id: string, input: CompleteInput,
                                  world: nat -> Choice, r: Reply) {
    var refusal := Refusal(s, c, owner, id, world(1));
    if refusal != None then Refused(r, id, refusal)
    else
      var f := s.flows[id].flow;
      if f.about.flowMethod != Browser then r == Reply(NoView, Some(WrongMethod), false) && t == s
      else if input.redirectUri != "" && input.redirectUri != f.secrets.redirectUri then
        r == Reply(NoView, Some(StoreFailed(NotFound)), false) && t == s
      else CompletionAnswers(s, t, c, f, input, world(1).offered, world, 2, r)
  }

  /** The flow whose unconsumed state the callback carries. */
  ghost predicate Names(e: Entry, state: string) {
    state != "" && e.indexed && e.stateKey == Sha256(state)
  }

  /** A callback answers for the flow its state names, and finds nothing without one. */
  ghost predicate CallbackAnswers(s: Store, t: Store, c: Config, input: CompleteInput, world: nat -> Choice, r: Reply) {
    if input.state == "" then r == Reply(NoView, Some(StoreFailed(NotFound)), false) && t == s
    else if input.code == "" && input.error == "" then r == Reply(NoView, Some(CodeRequired), false) && t == s
    else if world(0).ended then r == Reply(NoView, Some(StoreFailed(ContextEnded)), false) && t == s
    else if forall id :: id in s.flows ==> !Names(s.flows[id], input.state) then r == Reply(NoView, Some(StoreFailed(NotFound)), false) && t == s
    else
      forall id :: id in s.flows && Names(s.flows[id], input.state) ==>
        var owner := s.flows[id].flow.about.caller;
        var refusal := Refusal(s, c, owner, id, world(0));
        if refusal != None then Refused(r, "", refusal) else RedirectAnswers(s, t, c, owner, id, input, world, r)
  }

  /** The flow a Start stores: ten minutes without the driver's word, a first poll an interval on, five
      seconds without its word, and the driver's redirect URI or else the caller's. */
  ghost predicate StartsAs(request: StartRequest, a: Authorization, id: string, now: Time, f: Flow) {
    && f.about == About(id, request.caller, request.instance, request.flowMethod, now,
                        now + (if a.expiresIn > 0 then a.expiresIn else 600_000_000_000), a.shown)
    && f.consumedAt == NEVER && f.progress.outcome == NoOutcome && f.progress.credentialKey == ""
    && (request.flowMethod == Device ==>
          && f.progress.interval == (if a.interval > 0 then a.interval else 5_000_000_000)
          && f.progress.nextPollAt == now + f.progress.interval)
    && (request.flowMethod != Device ==> f.progress.interval == 0 && f.progress.nextPollAt == NEVER)
    && f.secrets == Secrets(a.secrets.verifier, a.secrets.state, a.secrets.deviceCode,
                            if a.secrets.redirectUri != "" then a.secrets.redirectUri else request.redirectUri,
                            a.secrets.driverData, request.params)
  }

  /** The store takes a new flow while the context lasts, unless it keeps one of the same id or state. */
  ghost predicate Admits(s: Store, c: Config, id: string, state: string, expiresAt: Time, x: Choice) {
    && !x.ended && !Blank(id) && expiresAt != NEVER && !(id in s.flows && KeptAt(s.flows[id], x.now, c))
    && !(exists other :: other in s.flows && KeptAt(s.flows[other], x.now, c) && Names(s.flows[other], state))
  }

  /** What the driver must have returned. */
  ghost predicate Authorizes(flowMethod: FlowMethod, a: Authorization) {
    && (flowMethod == Device ==> a.secrets.deviceCode != "" && a.shown.userCode != "" && a.shown.verificationUri != "")
    && (flowMethod != Device ==> a.shown.authorizationUrl != "" && a.secrets.state != "" && a.secrets.verifier != "")
  }

  ghost predicate StartAnswers(s: Store, t: Store, c: Config, request: StartRequest, offered: bool, a: Option<Authorization>,
                               id: string, now: Time, x: Choice, view: View, error: Option<Error>) {
    if !ValidCaller(request.caller) || Blank(request.instance) then view == NoView && error == Some(InvalidRequest) && t == s
    else if !offered then view == NoView && error == Some(NoDriver) && t == s
    else if a == None || !Authorizes(request.flowMethod, a.value) then view == NoView && error == Some(DriverFailed) && t == s
    else if !Admits(s, c, id, a.value.secrets.state, now + (if a.value.expiresIn > 0 then a.value.expiresIn else 600_000_000_000), x) then
      view == NoView && error.Some? && error.value.StoreFailed?
    else
      && error == None && id in t.flows && StartsAs(request, a.value, id, now, t.flows[id].flow)
      && view == ViewOf(t.flows[id].flow)
  }

  /** What Create does with a started flow. */
  lemma CreateAnswers(s: Store, c: Config, request: StartRequest, a: Authorization, id: string, now: Time, x: Choice)
    requires Inv(s) && ValidCaller(request.caller)
    ensures var flow := NewFlow(request, a, id, now);
            var (t, r) := Create(s, c, x.ended, flow, x.now, x.later);
            && (r.Ok? <==> Admits(s, c, id, a.secrets.state, now + (if a.expiresIn > 0 then a.expiresIn else 600_000_000_000), x))
            && (r.Ok? ==> id in t.flows && StartsAs(request, a, id, now, t.flows[id].flow) && ViewOf(flow) == ViewOf(t.flows[id].flow))
  {
    hide Inv, Create, Blank, ValidCaller, KeptAt;
    CreateExactly(s, c, x.ended, NewFlow(request, a, id, now), x.now, x.later);
  }

  /** A flow that has not been wiped is named by its own state. */
  lemma NamedByItsState(s: Store, id: string)
    requires Inv(s) && id in s.flows && s.flows[id].flow.secrets.state != ""
    ensures Names(s.flows[id], s.flows[id].flow.secrets.state)
  {
    assert EntryOk(s, id);
    hide Blank;
  }

  /** An update of its progress alone leaves every later answer about the flow as it was. */
  lemma AskedOfClaimed(s: Store, t: Store, c: Config, f: Flow, g: Flow, world: nat -> Choice, r: Reply)
    requires AskAnswers(t, c, g, world, r) && f.about.id in s.flows && f.about.id in t.flows && t.flows[f.about.id].flow == g
    requires s.flows[f.about.id].flow.revision == f.revision
    requires g.about == f.about == s.flows[f.about.id].flow.about
    requires g.consumedAt == f.consumedAt == s.flows[f.about.id].flow.consumedAt
    requires g.progress == f.progress.(nextPollAt := g.progress.nextPollAt)
    ensures AskAnswers(s, c, f, world, r)
  {
    hide SaveAnswers, Blank;
  }

  // ----- What the store refuses -----

  lemma GetRefuses(s: Store, c: Config, caller: Caller, id: string, x: Choice)
    ensures var (t, r) := FlowStore.Get(s, c, x.ended, caller, id, x.now);
            match r
            case Ok(f) => Refusal(s, c, caller, id, x) == None && t == s && id in s.flows && s.flows[id].flow == f && f.about.caller == caller
            case Err(error) => Refusal(s, c, caller, id, x) == Some(StoreFailed(error))
  {
    hide Wiped, Remove;
  }

  lemma ConsumeRefuses(s: Store, c: Config, caller: Caller, id: string, x: Choice)
    ensures var (t, r) := Consume(s, c, x.ended, caller, id, x.now, x.later);
            var refusal := Refusal(s, c, caller, id, x);
            match r
            case Ok(f) => refusal == None && s.flows[id].flow.consumedAt == NEVER && f.about == s.flows[id].flow.about
            case Err(error) => if refusal == None then error == NotFound && s.flows[id].flow.consumedAt != NEVER
                               else refusal == Some(StoreFailed(error))
  {
    hide Wiped, Remove;
  }

  lemma UpdateRefuses(s: Store, c: Config, f: Flow, progress: Progress, x: Choice)
    ensures var (t, r) := Update(s, c, x.ended, f.about.caller, f.about.id, f.revision, progress, x.now);
            var refusal := Refusal(s, c, f.about.caller, f.about.id, x);
            match r
            case Ok(g) => refusal == None && f.about.id in s.flows && s.flows[f.about.id].flow.revision == f.revision
                          && g == s.flows[f.about.id].flow.(progress := progress, revision := s.revision + 1)
            case Err(error) => if refusal == None then error == Conflict && s.flows[f.about.id].flow.revision != f.revision
                               else refusal == Some(StoreFailed(error)) && error != Conflict
  {
    hide Wiped, Remove;
  }

  /** ResolveState answers for the one flow the state names. */
  lemma ResolveRefuses(s: Store, c: Config, state: string, x: Choice)
    requires Inv(s) && state != "" && !x.ended
    ensures var (t, r) := ResolveState(s, c, false, state, x.now);
            match r
            case Ok((owner, id)) =>
              && t == s && id in s.flows && Names(s.flows[id], state) && s.flows[id].flow.about.caller == owner
              && Refusal(s, c, owner, id, x) == None
              && forall other :: other in s.flows && Names(s.flows[other], state) ==> other == id
            case Err(error) =>
              if forall id :: id in s.flows ==> !Names(s.flows[id], state) then error == NotFound && t == s
              else forall id :: id in s.flows && Names(s.flows[id], state) ==>
                                Refusal(s, c, s.flows[id].flow.about.caller, id, x) == Some(StoreFailed(error))
  {
    hide Wiped, Remove, Blank, Distinct;
    forall id | id in s.flows ensures EntryOk(s, id) {
    }
    forall h | h in s.states ensures IndexOk(s, h) {
    }
    hide Inv;
  }

  // ----- Where a step of any run leads -----

  /** Whatever other calls do between its steps, a completion goes on to consume exactly a pending browser
      or manual flow whose state it matches or leaves out and which has a driver; short of that it
      changes nothing and ends. */
  lemma CompletingDecides(s: Store, c: Config, k: nat, caller: Caller, id: string, input: CompleteInput, x: Choice)
    requires Inv(s)
    ensures var turn := Act(s, c, k, Completing(caller, id, input), x);
            && turn.events == []
            && if Refusal(s, c, caller, id, x) != None then turn.call == Done
               else
                 var f := s.flows[id].flow;
                 && turn.store == s
                 && turn.call ==
                    if && f.about.flowMethod != Device && f.consumedAt == NEVER && x.offered
                       && (input.state == "" || input.state == f.secrets.state)
                    then Consuming(caller, id, if input.error == "" then ToExchange else ToEnd(OutcomeFailed))
                    else Done
  {
    ReadsFlow(s, c, caller, id, x);
    hide Inv, FlowStore.Get;
  }

  /** And so does a callback, of a browser flow that it reached where it should. */
  lemma RedirectedDecides(s: Store, c: Config, k: nat, owner: Caller, id: string, input: CompleteInput, x: Choice)
    requires Inv(s)
    ensures var turn := Act(s, c, k, Redirected(owner, id, input), x);
            && turn.events == []
            && if Refusal(s, c, owner, id, x) != None then turn.call == Done
               else
                 var f := s.flows[id].flow;
                 && turn.store == s
                 && turn.call ==
                    if && f.about.flowMethod == Browser && f.consumedAt == NEVER && x.offered
                       && (input.redirectUri == "" || input.redirectUri == f.secrets.redirectUri)
                       && (input.state == "" || input.state == f.secrets.state)
                    then Consuming(owner, id, if input.error == "" then ToExchange else ToEnd(OutcomeFailed))
                    else Done
  {
    ReadsFlow(s, c, owner, id, x);
    hide Inv, FlowStore.Get;
  }

  /** A poll goes on to claim exactly a pending device flow with a driver, once its next poll is due. */
  lemma PollingDecides(s: Store, c: Config, k: nat, caller: Caller, id: string, x: Choice)
    requires Inv(s)
    ensures var turn := Act(s, c, k, Polling(caller, id), x);
            && turn.events == []
            && if Refusal(s, c, caller, id, x) != None then turn.call == Done
               else
                 var f := s.flows[id].flow;
                 && turn.store == s
                 && turn.call ==
                    if f.about.flowMethod == Device && f.consumedAt == NEVER && x.offered && x.clock >= f.progress.nextPollAt
                    then Claiming(f, x.clock) else Done
  {
    ReadsFlow(s, c, caller, id, x);
    hide Inv, FlowStore.Get;
  }

  /** The claim lands exactly on the revision read, and moves the next poll one interval on; only then is
      the driver asked. */
  lemma ClaimingDecides(s: Store, c: Config, k: nat, f: Flow, now: Time, x: Choice)
    ensures var turn := Act(s, c, k, Claiming(f, now), x);
            var id := f.about.id;
            if Refusal(s, c, f.about.caller, id, x) == None && s.flows[id].flow.revision == f.revision then
              && turn.events == [Claimed(k, now, f.progress.interval)] && turn.call.Asking? && turn.call.now == now
              && id in turn.store.flows && turn.store.flows[id].flow == turn.call.flow
              && turn.call.flow.progress == f.progress.(nextPollAt := now + f.progress.interval)
              && turn.call.flow.revision == s.revision + 1
            else turn.events == [] && turn.call == Done
  {
    UpdateExactly(s, c, x.ended, f.about.caller, f.about.id, f.revision, f.progress.(nextPollAt := now + f.progress.interval), x.now);
    hide Update;
  }

  /** The driver's answer decides what a poll does next. */
  lemma AskingDecides(s: Store, c: Config, k: nat, f: Flow, now: Time, x: Choice)
    ensures var turn := Act(s, c, k, Asking(f, now), x);
            var caller, id := f.about.caller, f.about.id;
            && turn.store == s && turn.events == [Asked(k)]
            && (x.polled == PollApproved ==> turn.call == Consuming(caller, id, ToSave))
            && (x.polled == PollDenied ==> turn.call == Consuming(caller, id, ToEnd(OutcomeFailed)))
            && (x.polled == PollExpired ==> turn.call == Consuming(caller, id, ToEnd(OutcomeExpired)))
            && (x.polled == PollSlowDown ==> turn.call == Slowing(f, now))
            && (x.polled in {PollPending, PollFailed, PollUnknown} ==> turn.call == Done)
  {
  }

  lemma ReadsFlow(s: Store, c: Config, caller: Caller, id: string, x: Choice)
    requires Inv(s)
    ensures var (t, r) := FlowStore.Get(s, c, x.ended, caller, id, x.now);
            && (r.Ok? <==> Refusal(s, c, caller, id, x) == None)
            && (r.Ok? ==> t == s && id in s.flows && r == Ok(s.flows[id].flow) && r.value.about.id == id && r.value.about.caller == caller)
  {
    GetRefuses(s, c, caller, id, x);
    if id in s.flows { assert EntryOk(s, id); }
    hide Blank;
  }
}
