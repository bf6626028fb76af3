/** What each operation of the flow store answers and leaves, by the fields of the stored flows. */
module FlowAnswers {
  import opened Options
  import opened FlowStore

  /** Every other flow, and the index of every other flow, is as it was. */
  ghost predicate OthersStay(s: Store, t: Store, id: string) {
    forall other :: other != id ==> (other in t.flows <==> other in s.flows) && (other in t.flows ==> t.flows[other] == s.flows[other])
  }

  /** Get finds the caller's own flow until it expires; an expired one reads expired until its retention
      is over, with its secrets wiped, and then not found; another caller's is never found. */
  lemma GetExactly(s: Store, c: Config, ended: bool, caller: Caller, id: string, now: Instant)
    ensures var (t, r) := Get(s, c, ended, caller, id, now);
            && OthersStay(s, t, id) && t.revision == s.revision
            && if ended then r == Err(ContextEnded) && t == s
               else if id !in s.flows || s.flows[id].flow.about.caller != caller then r == Err(NotFound) && t == s
               else
                 var f := s.flows[id].flow;
                 if now < f.about.expiresAt then r == Ok(f) && t == s
                 else if now < f.about.expiresAt + c.retention then
                   r == Err(FlowExpired) && id in t.flows && t.flows[id].flow == f.(secrets := Secrets("", "", "", "", map[], map[]))
                 else r == Err(NotFound) && id !in t.flows
  {
  }

  /** Consume takes the caller's own flow once, unexpired, and keeps its secrets from the store. */
  lemma ConsumeExactly(s: Store, c: Config, ended: bool, caller: Caller, id: string, now: Instant, at: Instant)
    ensures var (t, r) := Consume(s, c, ended, caller, id, now, at);
            if && !ended && id in s.flows && s.flows[id].flow.about.caller == caller
               && now < s.flows[id].flow.about.expiresAt && s.flows[id].flow.consumedAt == NEVER
            then
              var f := s.flows[id].flow;
              && r == Ok(f.(consumedAt := at, revision := s.revision + 1))
              && id in t.flows
              && t.flows[id].flow == f.(consumedAt := at, revision := s.revision + 1, secrets := Secrets("", "", "", "", map[], map[]))
              && t.revision == s.revision + 1 && OthersStay(s, t, id) && !t.flows[id].indexed
            else r.Err? && t.revision == s.revision && OthersStay(s, t, id)
    ensures var (t, r) := Consume(s, c, false, caller, id, now, at);
            (&& id in s.flows && s.flows[id].flow.about.caller == caller
             && now < s.flows[id].flow.about.expiresAt && s.flows[id].flow.consumedAt != NEVER) ==> r == Err(NotFound) && t == s
    ensures Consume(s, c, true, caller, id, now, at) == (s, Err(ContextEnded))
  {
  }

  /** Update writes progress, and nothing else, exactly on the revision it was read at. */
  lemma UpdateExactly(s: Store, c: Config, ended: bool, caller: Caller, id: string, revision: nat, progress: Progress, now: Instant)
    ensures var (t, r) := Update(s, c, ended, caller, id, revision, progress, now);
            if && !ended && id in s.flows && s.flows[id].flow.about.caller == caller
               && now < s.flows[id].flow.about.expiresAt && s.flows[id].flow.revision == revision
            then
              var f := s.flows[id].flow.(progress := progress, revision := s.revision + 1);
              r == Ok(f) && id in t.flows && t.flows[id].flow == f && t.revision == s.revision + 1 && OthersStay(s, t, id)
            else r.Err? && t.revision == s.revision && OthersStay(s, t, id)
    ensures var (t, r) := Update(s, c, false, caller, id, revision, progress, now);
            (&& id in s.flows && s.flows[id].flow.about.caller == caller
             && now < s.flows[id].flow.about.expiresAt && s.flows[id].flow.revision != revision) ==> r == Err(Conflict) && t == s
    ensures Update(s, c, true, caller, id, revision, progress, now) == (s, Err(ContextEnded))
  {
  }

  /** Create lands exactly when the context lasts, id and caller are valid, the flow has an expiry, and no
      flow kept past the purge has its id or its state; it stores the flow unconsumed. */
  lemma CreateExactly(s: Store, c: Config, ended: bool, flow: Flow, purgeAt: Instant, evictAt: Instant)
    requires Inv(s)
    ensures var (t, r) := Create(s, c, ended, flow, purgeAt, evictAt);
            var id, state := flow.about.id, flow.secrets.state;
            && (r.Ok? <==>
                  && !ended && !Blank(id) && ValidCaller(flow.about.caller) && flow.about.expiresAt != NEVER
                  && !(id in s.flows && KeptAt(s.flows[id], purgeAt, c))
                  && !(state != "" && exists other :: other in s.flows && KeptAt(s.flows[other], purgeAt, c)
                                                      && s.flows[other].indexed && s.flows[other].stateKey == Sha256(state)))
            && (r.Ok? ==>
                  && id in t.flows && t.flows[id].flow == flow.(consumedAt := NEVER, revision := s.revision + 1)
                  && t.flows[id].sequence == s.sequence + 1
                  && (t.flows[id].indexed <==> state != "") && (state != "" ==> t.flows[id].stateKey == Sha256(state))
                  && t.revision == s.revision + 1 && t.sequence == s.sequence + 1)
            && (r.Err? ==> t.revision == s.revision && t.sequence == s.sequence)
  {
    hide Blank, ValidCaller, Evicted;
    PurgedStates(s, purgeAt, c);
    hide Inv;
  }

  /** Its expiry is not over, or its retention is not. */
  predicate KeptAt(e: Entry, now: Time, c: Config) {
    now < e.flow.about.expiresAt || now < e.flow.about.expiresAt + c.retention
  }

  /** A purge keeps the states of the indexed flows it keeps. */
  lemma PurgedStates(s: Store, now: Time, c: Config)
    requires Inv(s)
    ensures forall id :: id in Purge(s, now, c).flows <==> id in s.flows && KeptAt(s.flows[id], now, c)
    ensures forall h :: h in Purge(s, now, c).states <==>
                        exists id :: id in s.flows && KeptAt(s.flows[id], now, c) && s.flows[id].indexed && s.flows[id].stateKey == h
  {
    hide Blank, Wiped;
    forall h | h in s.states ensures IndexOk(s, h) {
    }
    forall id | id in s.flows ensures EntryOk(s, id) {
    }
  }

  /** The entry after a purge at now: past its expiry a flow has no secrets. */
  predicate PurgedTo(was: Entry, next: Entry, now: Time) {
    next == if now < was.flow.about.expiresAt then was
            else was.(flow := was.flow.(secrets := Secrets("", "", "", "", map[], map[])))
  }

  /** Create leaves of every other flow at most what the purge leaves of it, and a Create that the purge
      comes before but that then fails leaves just that. */
  lemma CreateLeavesOthers(s: Store, c: Config, ended: bool, flow: Flow, purgeAt: Instant, evictAt: Instant, other: string)
    requires other != flow.about.id
    ensures var (t, r) := Create(s, c, ended, flow, purgeAt, evictAt);
            && (other in t.flows ==> other in s.flows && (t == s || (KeptAt(s.flows[other], purgeAt, c) && PurgedTo(s.flows[other], t.flows[other], purgeAt))))
            && (r.Err? && other in s.flows && KeptAt(s.flows[other], purgeAt, c) ==> other in t.flows)
  {
    hide Blank, ValidCaller, Evicted, StateKeyOf;
    PurgesExactly(s, c, purgeAt);
    hide PurgeIn, KeptAt, PurgedTo;
  }

  lemma PurgesExactly(s: Store, c: Config, now: Time)
    ensures var t := Purge(s, now, c);
            forall id :: (id in t.flows <==> id in s.flows && KeptAt(s.flows[id], now, c))
                         && (id in t.flows ==> PurgedTo(s.flows[id], t.flows[id], now))
  {
  }
}
