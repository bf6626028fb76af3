/** Start, Poll, Complete, Callback and Get of any number of OAuth services over one flow
    store: every call is a little machine whose steps each make one store operation or one
    call of a driver, the key hook or the credential store, and any steps of any calls
    interleave. What a driver, a hook or the clock answers is the step's free choice. */
module FlowService {
  import opened Options
  import opened FlowStore
  import opened FlowLog

  const DEFAULT_TTL: Duration := 600 * SECOND
  /** Section 3.2 of RFC 8628. */
  const DEFAULT_INTERVAL: Duration := 5 * SECOND

  // ----- Start -----

  datatype StartRequest = StartRequest(caller: Caller, instance: string, flowMethod: FlowMethod,
                                       redirectUri: string, params: map<string, string>)

  /** What a driver's Start returns. */
  datatype Authorization = Authorization(shown: Shown, secrets: Secrets, expiresIn: Duration, interval: Duration)

  predicate CompleteAuthorization(flowMethod: FlowMethod, a: Authorization) {
    if flowMethod.Device? then
      a.secrets.deviceCode != "" && a.shown.userCode != "" && a.shown.verificationUri != ""
    else
      a.shown.authorizationUrl != "" && a.secrets.state != "" && a.secrets.verifier != ""
  }

  /** The first poll waits a full interval. */
  function FirstProgress(flowMethod: FlowMethod, a: Authorization, now: Time): Progress {
    if flowMethod.Device? then
      var interval := if a.interval <= 0 then DEFAULT_INTERVAL else a.interval;
      Progress(interval, now + interval, NoOutcome, "")
    else Progress(0, NEVER, NoOutcome, "")
  }

  function NewFlow(request: StartRequest, a: Authorization, id: string, now: Time): Flow {
    var ttl := if a.expiresIn <= 0 then DEFAULT_TTL else a.expiresIn;
    var redirectUri := if a.secrets.redirectUri == "" then request.redirectUri else a.secrets.redirectUri;
    Flow(About(id, request.caller, request.instance, request.flowMethod, now, now + ttl, a.shown), 0, NEVER,
         FirstProgress(request.flowMethod, a, now), a.secrets.(params := request.params, redirectUri := redirectUri))
  }

  // ----- Calls -----

  datatype CompleteInput = CompleteInput(code: string, state: string, error: string, redirectUri: string)

  /** What to do with a flow once consumed. */
  datatype Purpose = ToExchange | ToSave | ToEnd(outcome: Outcome)

  /** How far a call has come. Flows in it are copies from the store, maybe stale. */
  datatype Call =
    | Creating(flow: Flow)
    | Looking(caller: Caller, id: string)
    | Polling(caller: Caller, id: string)
    | Claiming(flow: Flow, now: Time)
    | Asking(flow: Flow, now: Time)
    | Slowing(flow: Flow, now: Time)
    | Completing(caller: Caller, id: string, input: CompleteInput)
    | Resolving(input: CompleteInput)
    | Redirected(caller: Caller, id: string, input: CompleteInput)
    | Consuming(caller: Caller, id: string, purpose: Purpose)
    | Exchanging(flow: Flow)
    | Saving(flow: Flow)
    | Finishing(flow: Flow, outcome: Outcome, key: string)
    | Done

  datatype PollAnswer = PollFailed | PollPending | PollSlowDown | PollApproved | PollDenied | PollExpired | PollUnknown

  /** What the world answers in one step: whether the context has ended, the clock readings of
      the store and of the service, whether a driver is offered, and what driver, key hook
      (blank: none) and credential store say. */
  datatype Choice = Choice(ended: bool, now: Instant, later: Instant, clock: Time, offered: bool,
                           polled: PollAnswer, exchanged: bool, key: string, saved: bool)

  /** What a step does: the store and the call after it, and what the flow's history gains. */
  datatype Turn = Turn(store: Store, call: Call, id: string, events: seq<Event>)

  function Idle(r: (Store, Call), id: string): Turn {
    Turn(r.0, r.1, id, [])
  }

  // ----- Poll -----

  /** Poll up to its claim. */
  function BeforeClaim(flow: Flow, x: Choice): Call {
    if !flow.about.flowMethod.Device? || Consumed(flow) || !x.offered || x.clock < flow.progress.nextPollAt then Done
    else Claiming(flow, x.clock)
  }

  function Claim(s: Store, c: Config, k: nat, flow: Flow, now: Time, x: Choice): Turn {
    var progress := flow.progress.(nextPollAt := now + flow.progress.interval);
    match Update(s, c, x.ended, flow.about.caller, flow.about.id, flow.revision, progress, x.now)
    case (t, Ok(claimed)) => Turn(t, Asking(claimed, now), flow.about.id, [Claimed(k, now, progress.interval)])
    case (t, Err(_)) => Turn(t, Done, flow.about.id, [])
  }

  function Ask(s: Store, k: nat, flow: Flow, now: Time, x: Choice): Turn {
    var spend := (purpose: Purpose) => Consuming(flow.about.caller, flow.about.id, purpose);
    var next :=
      match x.polled
      case PollSlowDown => Slowing(flow, now)
      case PollApproved => spend(ToSave)
      case PollDenied => spend(ToEnd(OutcomeFailed))
      case PollExpired => spend(ToEnd(OutcomeExpired))
      case _ => Done;
    Turn(s, next, flow.about.id, [Asked(k)])
  }

  function SlowDown(s: Store, c: Config, k: nat, flow: Flow, now: Time, x: Choice): Turn {
    var interval := flow.progress.interval + SLOW_DOWN_STEP;
    var progress := flow.progress.(interval := interval, nextPollAt := now + interval);
    match Update(s, c, x.ended, flow.about.caller, flow.about.id, flow.revision, progress, x.now)
    case (t, Ok(_)) => Turn(t, Done, flow.about.id, [Slowed(k, now, interval)])
    case (t, Err(_)) => Turn(t, Done, flow.about.id, [])
  }

  // ----- Complete and Callback -----

  function BeforeConsume(flow: Flow, input: CompleteInput, x: Choice): Call {
    if flow.about.flowMethod.Device? || Consumed(flow) then Done
    else if input.state != "" && flow.secrets.state != input.state then Done
    else if !x.offered then Done
    else Consuming(flow.about.caller, flow.about.id, if input.error != "" then ToEnd(OutcomeFailed) else ToExchange)
  }

  function AfterRedirect(flow: Flow, input: CompleteInput, x: Choice): Call {
    if !flow.about.flowMethod.Browser? then Done
    else if input.redirectUri != "" && input.redirectUri != flow.secrets.redirectUri then Done
    else BeforeConsume(flow, input, x)
  }

  // ----- What follows a landed Consume -----

  function Spend(flow: Flow, purpose: Purpose): Call {
    match purpose
    case ToExchange => Exchanging(flow)
    case ToSave => Saving(flow)
    case ToEnd(outcome) => Finishing(flow, outcome, "")
  }

  function Take(s: Store, c: Config, k: nat, caller: Caller, id: string, purpose: Purpose, x: Choice): Turn {
    match Consume(s, c, x.ended, caller, id, x.now, x.later)
    case (t, Ok(flow)) => Turn(t, Spend(flow, purpose), id, [Taken(k)])
    case (t, Err(_)) => Turn(t, Done, id, [])
  }

  function Save(s: Store, k: nat, flow: Flow, x: Choice): Turn {
    if Blank(x.key) then Turn(s, Finishing(flow, OutcomeFailed, ""), flow.about.id, [])
    else if x.saved then Turn(s, Finishing(flow, OutcomeComplete, x.key), flow.about.id, [Saved(k, x.key, true)])
    else Turn(s, Finishing(flow, OutcomeFailed, ""), flow.about.id, [Saved(k, x.key, false)])
  }

  /** The outcome is written even after the request was canceled. */
  function Finish(s: Store, c: Config, k: nat, flow: Flow, outcome: Outcome, key: string, x: Choice): Turn {
    var progress := flow.progress.(outcome := outcome, credentialKey := key);
    match Update(s, c, false, flow.about.caller, flow.about.id, flow.revision, progress, x.now)
    case (t, Ok(_)) => Turn(t, Done, flow.about.id, [Ended(k, outcome, key)])
    case (t, Err(_)) => Turn(t, Done, flow.about.id, [])
  }

  // ----- One step of a call -----

  function StoreFlow(s: Store, c: Config, k: nat, flow: Flow, x: Choice): Turn {
    match Create(s, c, x.ended, flow, x.now, x.later)
    case (t, Ok(_)) => Turn(t, Done, flow.about.id, [Started(k, flow.about.createdAt, flow.progress.interval)])
    case (t, Err(_)) => Turn(t, Done, flow.about.id, [])
  }

  /** Reads the flow and goes on with it, or ends. */
  function Read(s: Store, c: Config, call: Call, x: Choice): (Store, Call)
    requires call.Looking? || call.Polling? || call.Completing? || call.Redirected?
  {
    match Get(s, c, x.ended, call.caller, call.id, x.now)
    case (t, Err(_)) => (t, Done)
    case (t, Ok(flow)) =>
      (t, match call
          case Polling(_, _) => BeforeClaim(flow, x)
          case Completing(_, _, input) => BeforeConsume(flow, input, x)
          case Redirected(_, _, input) => AfterRedirect(flow, input, x)
          case _ => Done)
  }

  function Act(s: Store, c: Config, k: nat, call: Call, x: Choice): Turn {
    match call
    case Creating(flow) => StoreFlow(s, c, k, flow, x)
    case Claiming(flow, now) => Claim(s, c, k, flow, now, x)
    case Asking(flow, now) => Ask(s, k, flow, now, x)
    case Slowing(flow, now) => SlowDown(s, c, k, flow, now, x)
    case Resolving(input) =>
      (match ResolveState(s, c, x.ended, input.state, x.now)
       case (t, Ok((caller, id))) => Turn(t, Redirected(caller, id, input), id, [])
       case (t, Err(_)) => Turn(t, Done, "", []))
    case Consuming(caller, id, purpose) => Take(s, c, k, caller, id, purpose, x)
    case Exchanging(flow) =>
      Turn(s, if x.exchanged then Saving(flow) else Finishing(flow, OutcomeFailed, ""), flow.about.id, [Exchanged(k)])
    case Saving(flow) => Save(s, k, flow, x)
    case Finishing(flow, outcome, key) => Finish(s, c, k, flow, outcome, key, x)
    case Done => Turn(s, Done, "", [])
    case _ => Idle(Read(s, c, call, x), call.id)
  }

  // ----- Runs -----

  /** All calls so far, finished ones too, every flow's history, and every id ever made. */
  datatype World = World(store: Store, calls: map<nat, Call>, logs: map<string, seq<Event>>, used: set<string>)

  const START := World(Store(map[], map[], 0, 0), map[], map[], {})

  function Log(w: World, id: string): seq<Event> {
    if id in w.logs then w.logs[id] else []
  }

  datatype Step =
    | BeginStart(k: nat, request: StartRequest, offered: bool, authorization: Option<Authorization>, id: string, now: Time)
    | BeginGet(k: nat, caller: Caller, id: string)
    | BeginPoll(k: nat, caller: Caller, id: string)
    | BeginComplete(k: nat, caller: Caller, id: string, input: CompleteInput)
    | BeginCallback(k: nat, input: CompleteInput)
    | Advance(k: nat, choice: Choice)

  /** Start up to its store write. */
  function BeforeCreate(request: StartRequest, offered: bool, authorization: Option<Authorization>, id: string, now: Time): Call {
    if !ValidCaller(request.caller) || Blank(request.instance) || !offered || authorization == None then Done
    else if !CompleteAuthorization(request.flowMethod, authorization.value) then Done
    else Creating(NewFlow(request, authorization.value, id, now))
  }

  function FirstCall(step: Step): Call
    requires !step.Advance?
  {
    match step
    case BeginStart(_, request, offered, authorization, id, now) => BeforeCreate(request, offered, authorization, id, now)
    case BeginGet(_, caller, id) => Looking(caller, id)
    case BeginPoll(_, caller, id) => Polling(caller, id)
    case BeginComplete(_, caller, id, input) =>
      if input.code == "" && input.error == "" then Done else Completing(caller, id, input)
    case BeginCallback(_, input) =>
      if input.state == "" || (input.code == "" && input.error == "") then Done else Resolving(input)
  }

  function Moved(w: World, k: nat, turn: Turn): World {
    World(turn.store, w.calls[k := turn.call],
          if turn.events == [] then w.logs else w.logs[turn.id := Log(w, turn.id) + turn.events], w.used)
  }

  /** A step that does not apply changes nothing: a number is one call's, and NewID never
      returns an id twice. */
  function Next(w: World, c: Config, step: Step): World {
    if step.Advance? then
      if step.k in w.calls then Moved(w, step.k, Act(w.store, c, step.k, w.calls[step.k], step.choice)) else w
    else if step.k in w.calls || NewIds(step) * w.used != {} then w
    else w.(calls := w.calls[step.k := FirstCall(step)], used := w.used + NewIds(step))
  }

  function NewIds(step: Step): set<string> {
    if step.BeginStart? then {step.id} else {}
  }

  ghost function After(c: Config, steps: seq<Step>): World {
    if steps == [] then START else Next(After(c, steps[..|steps| - 1]), c, steps[|steps| - 1])
  }
}
