/** What the in-memory OAuth flow store does, operation by operation, on values: the
    meaning MemoryFlowStore is proved against. Clock readings are parameters, in the order
    the code takes them, and SHA-256 is an injective function. */
module FlowStore {
  import opened Options

  type Time = int
  type Duration = int
  const NEVER: Time := 0
  /** A clock reading is after the zero time. */
  type Instant = t: Time | t > NEVER witness 1

  datatype Kind = Human | ServiceKind | Local | Anonymous | OtherKind(name: string)
  datatype Caller = Caller(id: string, kind: Kind, projectId: string)
  datatype FlowMethod = Browser | Device | Manual
  datatype Outcome = NoOutcome | OutcomeComplete | OutcomeFailed | OutcomeExpired

  datatype Secrets = Secrets(verifier: string, state: string, deviceCode: string, redirectUri: string,
                             driverData: map<string, string>, params: map<string, string>)
  const NO_SECRETS := Secrets("", "", "", "", map[], map[])

  /** The only part of a flow that Update may change. */
  datatype Progress = Progress(interval: Duration, nextPollAt: Time, outcome: Outcome, credentialKey: string)

  /** Where the owner authorizes. */
  datatype Shown = Shown(authorizationUrl: string, userCode: string, verificationUri: string, verificationUriComplete: string)

  /** What Create fixes for good. */
  datatype About = About(id: string, caller: Caller, instance: string, flowMethod: FlowMethod,
                         createdAt: Time, expiresAt: Time, shown: Shown)

  datatype Flow = Flow(about: About, revision: nat, consumedAt: Time, progress: Progress, secrets: Secrets)

  predicate Consumed(f: Flow) { f.consumedAt != NEVER }

  predicate Expired(f: Flow, now: Time) { now >= f.about.expiresAt }

  datatype Hash = Sha256(text: string) | ZeroHash
  datatype Entry = Entry(flow: Flow, sequence: nat, stateKey: Hash, indexed: bool)

  datatype Store = Store(flows: map<string, Entry>, states: map<Hash, string>, revision: nat, sequence: nat)

  /** maxFlows caps a caller's pending flows; zero or less means no cap. */
  datatype Config = Config(maxFlows: int, retention: Duration)

  datatype StoreError = NotFound | FlowExpired | FlowExists | Conflict | ContextEnded | Invalid
  datatype Result<+T> = Ok(value: T) | Err(error: StoreError)

  // ----- The invariant of every reachable store -----

  /** states maps a hash to an id exactly when that id's entry is indexed under the hash;
      an indexed entry is unconsumed, a consumed one holds no secrets, and revisions and
      sequences never repeat. */
  ghost predicate Inv(s: Store) {
    && (forall id :: id in s.flows ==> EntryOk(s, id))
    && (forall h :: h in s.states ==> IndexOk(s, h))
    && (forall a, b :: a in s.flows && b in s.flows && a != b ==> Distinct(s.flows[a], s.flows[b]))
  }

  ghost predicate EntryOk(s: Store, id: string)
    requires id in s.flows
  {
    var e := s.flows[id];
    && e.flow.about.id == id && !Blank(id)
    && 1 <= e.sequence <= s.sequence && 1 <= e.flow.revision <= s.revision
    && (e.indexed ==> !Consumed(e.flow) && e.stateKey in s.states && s.states[e.stateKey] == id)
    && (Consumed(e.flow) ==> e.flow.secrets == NO_SECRETS)
    && (e.flow.secrets.state != "" ==> e.indexed && e.stateKey == Sha256(e.flow.secrets.state))
  }

  ghost predicate IndexOk(s: Store, h: Hash)
    requires h in s.states
  {
    s.states[h] in s.flows && s.flows[s.states[h]].indexed && s.flows[s.states[h]].stateKey == h
  }

  predicate Distinct(a: Entry, b: Entry) {
    a.sequence != b.sequence && a.flow.revision != b.flow.revision
  }

  /** Only whitespace, as TrimSpace sees it. */
  predicate Blank(text: string) {
    forall i :: 0 <= i < |text| ==> text[i] in {' ', '\t', '\n', '\r', '\U{0B}', '\U{0C}', '\U{85}', '\U{A0}'}
  }

  predicate ValidCaller(c: Caller) {
    match c.kind
    case OtherKind(_) => false
    case Anonymous => true
    case _ => !Blank(c.id)
  }

  // ----- Forgetting flows -----

  /** The store without the flows outside ids, and without their states. */
  function Restrict(s: Store, ids: set<string>): Store {
    s.(flows := map id | id in s.flows && id in ids :: s.flows[id],
       states := map h | h in s.states && s.states[h] in ids :: s.states[h])
  }

  function Remove(s: Store, id: string): Store {
    Restrict(s, s.flows.Keys - {id})
  }

  function Wiped(e: Entry): Entry {
    e.(flow := e.flow.(secrets := NO_SECRETS))
  }

  /** An expired flow past its retention is as good as missing. */
  predicate Gone(e: Entry, now: Time, c: Config) {
    Expired(e.flow, now) && now - e.flow.about.expiresAt >= c.retention
  }

  /** purgeLocked: of the given ids, flows past their retention go, and the other expired
      ones lose their secrets. */
  function PurgeIn(s: Store, ids: set<string>, now: Time, c: Config): Store {
    var kept := set id | id in s.flows && !(id in ids && Gone(s.flows[id], now, c));
    var left := Restrict(s, kept);
    left.(flows := map id | id in left.flows ::
                     if id in ids && Expired(left.flows[id].flow, now) then Wiped(left.flows[id]) else left.flows[id])
  }

  function Purge(s: Store, now: Time, c: Config): Store {
    PurgeIn(s, s.flows.Keys, now, c)
  }

  // ----- The cap -----

  predicate PendingFor(e: Entry, caller: Caller, now: Time) {
    e.flow.about.caller == caller && !Consumed(e.flow) && !Expired(e.flow, now)
  }

  function PendingIds(s: Store, caller: Caller, now: Time): set<string> {
    set id | id in s.flows && PendingFor(s.flows[id], caller, now)
  }

  /** Older first: by CreatedAt and then by insertion. */
  predicate Older(a: Entry, b: Entry) {
    a.flow.about.createdAt < b.flow.about.createdAt
    || (a.flow.about.createdAt == b.flow.about.createdAt && a.sequence < b.sequence)
  }

  function NewerPending(s: Store, caller: Caller, now: Time, id: string): set<string>
    requires id in s.flows
  {
    set other | other in s.flows && PendingFor(s.flows[other], caller, now) && Older(s.flows[id], s.flows[other])
  }

  /** The flows that must go to make room for one more: those with cap - 1 newer ones or more. */
  function Evicted(s: Store, caller: Caller, now: Time, c: Config): set<string> {
    if c.maxFlows <= 0 then {}
    else set id | id in s.flows && PendingFor(s.flows[id], caller, now) && |NewerPending(s, caller, now, id)| >= c.maxFlows - 1
  }

  function Evict(s: Store, caller: Caller, now: Time, c: Config): Store {
    Restrict(s, s.flows.Keys - Evicted(s, caller, now, c))
  }

  // ----- Operations -----

  function StateKeyOf(f: Flow): Hash {
    if f.secrets.state != "" then Sha256(f.secrets.state) else ZeroHash
  }

  /** Adds a flow that is not stored. */
  function Insert(s: Store, flow: Flow): Store {
    var revision, sequence := s.revision + 1, s.sequence + 1;
    var key, indexed := StateKeyOf(flow), flow.secrets.state != "";
    Store(s.flows[flow.about.id := Entry(flow.(consumedAt := NEVER, revision := revision), sequence, key, indexed)],
          if indexed then s.states[key := flow.about.id] else s.states, revision, sequence)
  }

  function Create(s: Store, c: Config, ended: bool, flow: Flow, purgeAt: Instant, evictAt: Instant): (Store, Result<()>) {
    if ended then (s, Err(ContextEnded))
    else if Blank(flow.about.id) || !ValidCaller(flow.about.caller) || flow.about.expiresAt == NEVER then (s, Err(Invalid))
    else
      var purged := Purge(s, purgeAt, c);
      if flow.about.id in purged.flows || (flow.secrets.state != "" && StateKeyOf(flow) in purged.states)
      then (purged, Err(FlowExists))
      else (Insert(Evict(purged, flow.about.caller, evictAt, c), flow), Ok(()))
  }

  /** ownedLocked: the owner check comes before the expiry check. */
  function Owned(s: Store, c: Config, caller: Caller, id: string, now: Instant): (Store, Result<Entry>) {
    if id !in s.flows || s.flows[id].flow.about.caller != caller then (s, Err(NotFound))
    else if !Expired(s.flows[id].flow, now) then (s, Ok(s.flows[id]))
    else if Gone(s.flows[id], now, c) then (Remove(s, id), Err(NotFound))
    else (s.(flows := s.flows[id := Wiped(s.flows[id])]), Err(FlowExpired))
  }

  function Get(s: Store, c: Config, ended: bool, caller: Caller, id: string, now: Instant): (Store, Result<Flow>) {
    if ended then (s, Err(ContextEnded))
    else match Owned(s, c, caller, id, now)
      case (s', Ok(e)) => (s', Ok(e.flow))
      case (s', Err(error)) => (s', Err(error))
  }

  /** The consumed flow, as its one consumer gets it. */
  function ConsumedFlow(f: Flow, revision: nat, at: Instant): Flow {
    f.(consumedAt := at, revision := revision)
  }

  function Consume(s: Store, c: Config, ended: bool, caller: Caller, id: string, now: Instant, at: Instant): (Store, Result<Flow>) {
    if ended then (s, Err(ContextEnded))
    else match Owned(s, c, caller, id, now)
      case (s', Err(error)) => (s', Err(error))
      case (s', Ok(e)) =>
        if Consumed(e.flow) then (s', Err(NotFound))
        else
          var flow := ConsumedFlow(e.flow, s.revision + 1, at);
          (Store(s.flows[id := Entry(flow.(secrets := NO_SECRETS), e.sequence, e.stateKey, false)],
                 if e.indexed then s.states - {e.stateKey} else s.states, s.revision + 1, s.sequence), Ok(flow))
  }

  /** Update stores progress, and nothing else, if revision is still the stored one. */
  function Update(s: Store, c: Config, ended: bool, caller: Caller, id: string, revision: nat, progress: Progress, now: Instant): (Store, Result<Flow>) {
    if ended then (s, Err(ContextEnded))
    else match Owned(s, c, caller, id, now)
      case (s', Err(error)) => (s', Err(error))
      case (s', Ok(e)) =>
        if e.flow.revision != revision then (s', Err(Conflict))
        else
          var flow := e.flow.(progress := progress, revision := s.revision + 1);
          (s.(flows := s.flows[id := e.(flow := flow)], revision := s.revision + 1), Ok(flow))
  }

  function ResolveState(s: Store, c: Config, ended: bool, state: string, now: Instant): (Store, Result<(Caller, string)>) {
    var key := Sha256(state);
    if ended then (s, Err(ContextEnded))
    else if state == "" || key !in s.states || s.states[key] !in s.flows then (s, Err(NotFound))
    else
      var e := s.flows[s.states[key]];
      if !e.indexed then (s, Err(NotFound))
      else match Owned(s, c, e.flow.about.caller, e.flow.about.id, now)
        case (s', Err(error)) => (s', Err(error))
        case (s', Ok(_)) => (s', Ok((e.flow.about.caller, e.flow.about.id)))
  }

  // ----- Every operation keeps the invariant -----

  /** What any operation but Create may make of a stored entry: it may wipe it, consume it,
      which takes it out of the index, and write its progress, both under a new revision. */
  predicate Derives(was: Entry, next: Entry) {
    && next.flow.about == was.flow.about && next.sequence == was.sequence && next.stateKey == was.stateKey
    && (next.flow.secrets == was.flow.secrets || next.flow.secrets == NO_SECRETS)
    && (next.indexed ==> was.indexed && next.flow.consumedAt == was.flow.consumedAt)
    && (!next.indexed && was.indexed ==> next.flow.secrets == NO_SECRETS)
    && (next.flow.consumedAt == was.flow.consumedAt || (!Consumed(was.flow) && next.flow.secrets == NO_SECRETS))
    && (next.flow.revision == was.flow.revision ==>
          next.flow.progress == was.flow.progress && next.flow.consumedAt == was.flow.consumedAt)
  }

  /** A store that an operation may leave: entries only derive from stored ones, touched alone
      may take the new revision, and the index keeps exactly the states of indexed entries. */
  ghost predicate Follows(s: Store, t: Store, touched: string) {
    && t.sequence == s.sequence && t.revision >= s.revision && t.flows.Keys <= s.flows.Keys
    && (forall id :: id in t.flows ==> Derives(s.flows[id], t.flows[id]))
    && (forall id :: id in t.flows && t.flows[id].flow.revision != s.flows[id].flow.revision ==>
                       id == touched && t.flows[id].flow.revision == t.revision > s.revision)
    && (forall h :: h in t.states <==> h in s.states && s.states[h] in t.flows && t.flows[s.states[h]].indexed)
    && (forall h :: h in t.states ==> t.states[h] == s.states[h])
  }

  lemma FollowsEntries(s: Store, t: Store, touched: string)
    requires Inv(s) && Follows(s, t, touched)
    ensures forall id :: id in t.flows ==> EntryOk(t, id)
  {
    hide Blank;
    forall id | id in t.flows ensures EntryOk(t, id) {
      assert EntryOk(s, id);
      assert Derives(s.flows[id], t.flows[id]);
    }
  }

  lemma FollowsIndex(s: Store, t: Store, touched: string)
    requires Inv(s) && Follows(s, t, touched)
    ensures forall h :: h in t.states ==> IndexOk(t, h)
  {
    hide Derives, EntryOk;
    forall h | h in t.states ensures IndexOk(t, h) {
      assert IndexOk(s, h);
      DerivesKey(s.flows[s.states[h]], t.flows[s.states[h]]);
    }
  }

  lemma FollowsDistinct(s: Store, t: Store, touched: string)
    requires Inv(s) && Follows(s, t, touched)
    ensures forall a, b :: a in t.flows && b in t.flows && a != b ==> Distinct(t.flows[a], t.flows[b])
  {
    hide Derives, IndexOk, Blank;
    forall a, b | a in t.flows && b in t.flows && a != b ensures Distinct(t.flows[a], t.flows[b]) {
      assert Distinct(s.flows[a], s.flows[b]) && EntryOk(s, a) && EntryOk(s, b);
      DerivesKey(s.flows[a], t.flows[a]);
      DerivesKey(s.flows[b], t.flows[b]);
    }
  }

  lemma FollowsKeeps(s: Store, t: Store, touched: string)
    requires Inv(s) && Follows(s, t, touched)
    ensures Inv(t)
  {
    hide Follows, EntryOk, IndexOk, Distinct;
    FollowsEntries(s, t, touched);
    FollowsIndex(s, t, touched);
    FollowsDistinct(s, t, touched);
  }

  lemma DerivesKey(was: Entry, next: Entry)
    requires Derives(was, next)
    ensures next.sequence == was.sequence && next.stateKey == was.stateKey
  {
  }

  lemma RestrictFollows(s: Store, ids: set<string>, touched: string)
    requires Inv(s)
    ensures Follows(s, Restrict(s, ids), touched)
  {
    hide Blank;
    forall h | h in s.states ensures IndexOk(s, h) {
    }
    forall id | id in s.flows ensures Derives(s.flows[id], s.flows[id]) {
    }
    hide EntryOk, Derives;
  }

  /** Wiping entries changes nothing else. */
  lemma WipeFollows(s: Store, left: Store, t: Store, touched: string)
    requires Follows(s, left, touched) && t.(flows := left.flows) == left && t.flows.Keys == left.flows.Keys
    requires forall id :: id in t.flows ==> t.flows[id] == left.flows[id] || t.flows[id] == Wiped(left.flows[id])
    ensures Follows(s, t, touched)
  {
    hide Derives, Wiped;
    forall id | id in t.flows
      ensures Derives(s.flows[id], t.flows[id]) && t.flows[id].indexed == left.flows[id].indexed
      ensures t.flows[id].flow.revision == left.flows[id].flow.revision
    {
      WipingDerives(s.flows[id], left.flows[id]);
    }
  }

  lemma WipingDerives(e: Entry, left: Entry)
    requires Derives(e, left)
    ensures Derives(e, Wiped(left)) && Wiped(left).indexed == left.indexed && Wiped(left).flow.revision == left.flow.revision
  {
  }

  lemma PurgeFollows(s: Store, ids: set<string>, now: Time, c: Config, touched: string)
    requires Inv(s)
    ensures Follows(s, PurgeIn(s, ids, now, c), touched)
  {
    hide Inv, Restrict, Gone, Follows, Wiped;
    var kept := set id | id in s.flows && !(id in ids && Gone(s.flows[id], now, c));
    RestrictFollows(s, kept, touched);
    WipeFollows(s, Restrict(s, kept), PurgeIn(s, ids, now, c), touched);
  }

  lemma PurgeKeeps(s: Store, ids: set<string>, now: Time, c: Config)
    requires Inv(s)
    ensures Inv(PurgeIn(s, ids, now, c))
  {
    hide Inv, PurgeIn, Follows;
    PurgeFollows(s, ids, now, c, "");
    FollowsKeeps(s, PurgeIn(s, ids, now, c), "");
  }

  lemma InsertEntries(s: Store, flow: Flow)
    requires Inv(s) && flow.about.id !in s.flows && !Blank(flow.about.id)
    requires flow.secrets.state != "" ==> StateKeyOf(flow) !in s.states
    ensures forall id :: id in Insert(s, flow).flows ==> EntryOk(Insert(s, flow), id)
  {
    hide Blank;
    var t := Insert(s, flow);
    forall id | id in t.flows ensures EntryOk(t, id) {
      if id != flow.about.id { assert EntryOk(s, id); }
    }
  }

  lemma InsertDistinct(s: Store, flow: Flow)
    requires Inv(s) && flow.about.id !in s.flows
    ensures var t := Insert(s, flow);
            forall a, b :: a in t.flows && b in t.flows && a != b ==> Distinct(t.flows[a], t.flows[b])
  {
    hide Blank, IndexOk, StateKeyOf;
    var t := Insert(s, flow);
    forall a, b | a in t.flows && b in t.flows && a != b ensures Distinct(t.flows[a], t.flows[b]) {
      if a in s.flows { assert EntryOk(s, a); }
      if b in s.flows { assert EntryOk(s, b); }
    }
  }

  lemma InsertIndex(s: Store, flow: Flow)
    requires Inv(s) && flow.about.id !in s.flows && (flow.secrets.state != "" ==> StateKeyOf(flow) !in s.states)
    ensures forall h :: h in Insert(s, flow).states ==> IndexOk(Insert(s, flow), h)
  {
    hide Blank, EntryOk, Distinct;
    var t := Insert(s, flow);
    forall h | h in t.states ensures IndexOk(t, h) {
      if h in s.states { assert IndexOk(s, h); }
    }
  }

  lemma InsertKeeps(s: Store, flow: Flow)
    requires Inv(s) && flow.about.id !in s.flows && !Blank(flow.about.id)
    requires flow.secrets.state != "" ==> StateKeyOf(flow) !in s.states
    ensures Inv(Insert(s, flow))
  {
    InsertEntries(s, flow);
    InsertIndex(s, flow);
    InsertDistinct(s, flow);
    hide EntryOk, IndexOk, Distinct, Insert;
  }

  lemma CreateKeeps(s: Store, c: Config, ended: bool, flow: Flow, purgeAt: Instant, evictAt: Instant)
    requires Inv(s)
    ensures Inv(Create(s, c, ended, flow, purgeAt, evictAt).0)
  {
    hide Inv, PurgeIn, Insert, ValidCaller, Evicted, Follows, Blank, StateKeyOf;
    var purged := Purge(s, purgeAt, c);
    PurgeKeeps(s, s.flows.Keys, purgeAt, c);
    var room := Evict(purged, flow.about.caller, evictAt, c);
    RestrictFollows(purged, purged.flows.Keys - Evicted(purged, flow.about.caller, evictAt, c), "");
    FollowsKeeps(purged, room, "");
    assert room.flows.Keys <= purged.flows.Keys && room.states.Keys <= purged.states.Keys;
    if Create(s, c, ended, flow, purgeAt, evictAt).1.Ok? {
      InsertKeeps(room, flow);
    }
  }

  /** Replacing one entry by one that derives from it and stays indexed as it was. */
  lemma ReplaceFollows(s: Store, id: string, e: Entry, revision: nat)
    requires Inv(s) && id in s.flows && Derives(s.flows[id], e) && e.indexed == s.flows[id].indexed
    requires revision >= s.revision
    requires e.flow.revision == s.flows[id].flow.revision || e.flow.revision == revision > s.revision
    ensures Follows(s, s.(flows := s.flows[id := e], revision := revision), id)
  {
    forall h | h in s.states ensures IndexOk(s, h) {
    }
    forall other | other in s.flows ensures Derives(s.flows[other], s.flows[other]) {
    }
    hide EntryOk, Derives;
  }

  lemma OwnedFollows(s: Store, c: Config, caller: Caller, id: string, now: Instant)
    requires Inv(s)
    ensures Follows(s, Owned(s, c, caller, id, now).0, id)
    ensures Owned(s, c, caller, id, now).1.Ok? ==>
              Owned(s, c, caller, id, now).0 == s && id in s.flows && Owned(s, c, caller, id, now).1.value == s.flows[id]
              && s.flows[id].flow.about.caller == caller && !Expired(s.flows[id].flow, now)
  {
    hide Inv, Restrict, Follows, Wiped, Expired, Gone;
    RestrictFollowsAll(s, id);
    if id in s.flows {
      RestrictFollows(s, s.flows.Keys - {id}, id);
      WipedDerives(s.flows[id]);
      ReplaceFollows(s, id, Wiped(s.flows[id]), s.revision);
    }
  }

  lemma WipedDerives(e: Entry)
    ensures Derives(e, Wiped(e)) && Wiped(e).indexed == e.indexed && Wiped(e).flow.revision == e.flow.revision
  {
  }

  lemma ConsumeFollows(s: Store, c: Config, ended: bool, caller: Caller, id: string, now: Instant, at: Instant)
    requires Inv(s)
    ensures Follows(s, Consume(s, c, ended, caller, id, now, at).0, id)
  {
    hide Follows, Owned, Inv, ConsumedFlow;
    OwnedFollows(s, c, caller, id, now);
    RestrictFollowsAll(s, id);
    if id in s.flows && !Consumed(s.flows[id].flow) {
      ConsumedFollows(s, id, at);
    }
  }

  lemma RestrictFollowsAll(s: Store, touched: string)
    requires Inv(s)
    ensures Follows(s, s, touched)
  {
    RestrictFollows(s, s.flows.Keys, touched);
    forall h | h in s.states ensures IndexOk(s, h) {
    }
    hide EntryOk, Follows, Derives;
    assert Restrict(s, s.flows.Keys) == s;
  }

  lemma ConsumedDerives(s: Store, id: string, at: Instant)
    requires Inv(s) && id in s.flows && !Consumed(s.flows[id].flow)
    ensures var e := s.flows[id];
            Derives(e, Entry(ConsumedFlow(e.flow, s.revision + 1, at).(secrets := NO_SECRETS), e.sequence, e.stateKey, false))
    ensures s.flows[id].indexed ==> s.flows[id].stateKey in s.states
    ensures forall h :: h in s.states ==> IndexOk(s, h)
  {
    assert EntryOk(s, id);
  }

  lemma ConsumedFollows(s: Store, id: string, at: Instant)
    requires Inv(s) && id in s.flows && !Consumed(s.flows[id].flow)
    ensures var e := s.flows[id];
            var flow := ConsumedFlow(e.flow, s.revision + 1, at);
            Follows(s, Store(s.flows[id := Entry(flow.(secrets := NO_SECRETS), e.sequence, e.stateKey, false)],
                             if e.indexed then s.states - {e.stateKey} else s.states, s.revision + 1, s.sequence), id)
  {
    ConsumedDerives(s, id, at);
    forall other | other in s.flows ensures Derives(s.flows[other], s.flows[other]) {
    }
    hide Derives, Blank, EntryOk, Inv;
  }

  lemma UpdatedFollows(s: Store, id: string, progress: Progress)
    requires Inv(s) && id in s.flows
    ensures var e := s.flows[id];
            Follows(s, s.(flows := s.flows[id := e.(flow := e.flow.(progress := progress, revision := s.revision + 1))],
                          revision := s.revision + 1), id)
  {
    var e := s.flows[id];
    assert EntryOk(s, id);
    ReplaceFollows(s, id, e.(flow := e.flow.(progress := progress, revision := s.revision + 1)), s.revision + 1);
  }

  lemma UpdateFollows(s: Store, c: Config, ended: bool, caller: Caller, id: string, revision: nat, progress: Progress, now: Instant)
    requires Inv(s)
    ensures Follows(s, Update(s, c, ended, caller, id, revision, progress, now).0, id)
  {
    hide Follows, Owned, Inv;
    OwnedFollows(s, c, caller, id, now);
    RestrictFollowsAll(s, id);
    if id in s.flows {
      UpdatedFollows(s, id, progress);
    }
  }

  lemma ResolveFollows(s: Store, c: Config, ended: bool, state: string, now: Instant)
    requires Inv(s)
    ensures Follows(s, ResolveState(s, c, ended, state, now).0, "")
  {
    RestrictFollowsAll(s, "");
    var key := Sha256(state);
    if key in s.states && s.states[key] in s.flows {
      var about := s.flows[s.states[key]].flow.about;
      OwnedFollows(s, c, about.caller, about.id, now);
      OwnedTouchesNothing(s, c, about.caller, about.id, now);
    }
    hide Follows, Owned, Inv;
  }

  /** A lookup writes no revision. */
  lemma OwnedTouchesNothing(s: Store, c: Config, caller: Caller, id: string, now: Instant)
    requires Inv(s)
    ensures Follows(s, Owned(s, c, caller, id, now).0, "")
    ensures Owned(s, c, caller, id, now).0.revision == s.revision
  {
    OwnedFollows(s, c, caller, id, now);
    assert Owned(s, c, caller, id, now).0.revision == s.revision by { hide Restrict; }
    hide Owned, Inv;
  }

  lemma OwnedKeeps(s: Store, c: Config, caller: Caller, id: string, now: Instant)
    requires Inv(s)
    ensures Inv(Owned(s, c, caller, id, now).0)
  {
    hide Inv, Owned, Follows;
    OwnedFollows(s, c, caller, id, now);
    FollowsKeeps(s, Owned(s, c, caller, id, now).0, id);
  }

  lemma ConsumeKeeps(s: Store, c: Config, ended: bool, caller: Caller, id: string, now: Instant, at: Instant)
    requires Inv(s)
    ensures Inv(Consume(s, c, ended, caller, id, now, at).0)
  {
    hide Inv, Consume, Follows;
    ConsumeFollows(s, c, ended, caller, id, now, at);
    FollowsKeeps(s, Consume(s, c, ended, caller, id, now, at).0, id);
  }

  lemma UpdateKeeps(s: Store, c: Config, ended: bool, caller: Caller, id: string, revision: nat, progress: Progress, now: Instant)
    requires Inv(s)
    ensures Inv(Update(s, c, ended, caller, id, revision, progress, now).0)
  {
    hide Inv, Update, Follows;
    UpdateFollows(s, c, ended, caller, id, revision, progress, now);
    FollowsKeeps(s, Update(s, c, ended, caller, id, revision, progress, now).0, id);
  }

  lemma ResolveKeeps(s: Store, c: Config, ended: bool, state: string, now: Instant)
    requires Inv(s)
    ensures Inv(ResolveState(s, c, ended, state, now).0)
  {
    hide Inv, ResolveState, Follows;
    ResolveFollows(s, c, ended, state, now);
    FollowsKeeps(s, ResolveState(s, c, ended, state, now).0, "");
  }

  /** ResolveState finds the flow a state was created with, exactly while that flow is stored,
      unconsumed and unexpired, and never any other. */
  lemma ResolveFindsTheFlow(s: Store, c: Config, state: string, now: Instant, id: string)
    requires Inv(s) && state != ""
    ensures (exists caller :: ResolveState(s, c, false, state, now).1 == Ok((caller, id)))
            <==> id in s.flows && s.flows[id].indexed && s.flows[id].stateKey == Sha256(state) && !Expired(s.flows[id].flow, now)
    ensures id in s.flows && s.flows[id].flow.secrets.state == state && !Expired(s.flows[id].flow, now) ==>
              ResolveState(s, c, false, state, now).1 == Ok((s.flows[id].flow.about.caller, id))
  {
    hide Blank, Gone;
    var key := Sha256(state);
    if key in s.states {
      assert IndexOk(s, key) && EntryOk(s, s.states[key]);
    }
    if id in s.flows {
      assert EntryOk(s, id);
    }
  }
}
