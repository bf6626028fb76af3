/** The history of the catalogs of one store, as any number of services discover, invalidate
    and write them, and what a history that keeps the fencing rules guarantees. */
module CatalogLog {
  import opened Options
  import opened CatalogStore

  type Duration = int

  /** What a service keeps for a key, its locks and generations, is the service's alone. */
  datatype Site = Site(service: nat, key: Key)

  datatype Mode = Hard | Soft

  /** A store shared by services, conditional or not; each service has its own schema and TTLs. */
  datatype Config = Config(conditional: bool, schema: nat -> int, keepStale: nat -> bool, ttl: (nat, string) -> Duration)

  /** What a discovery was stored or refused under: when its fence was read, the fence, when its
      generations were taken, whether Rebase accepted a hard invalidation, and whether the fence
      was read anew under the write lock. */
  datatype Terms = Terms(readAt: nat, fence: nat, snapAt: nat, rebased: bool, latest: bool)

  datatype Event =
    | Loaded(call: nat, site: Site, isFresh: bool)            // the load a read or a refresh begins with
    | Snapped(call: nat, site: Site)                        // the generations a discovery starts from
    | Asked(call: nat, site: Site, ok: bool)                // Discover ran
    | Reread(call: nat, site: Site)                         // the fence read anew
    | Stored(call: nat, site: Site, evidence: Evidence, terms: Terms)
    | Refused(call: nat, site: Site, terms: Terms)          // SaveIf conflicted
    | Bumped(call: nat, site: Site, mode: Mode)             // an invalidation raised a generation
    | Cleared(call: nat, site: Site, record: Option<Evidence>)  // and took the catalog out of the store

  function Rank(e: Event): nat {
    match e
    case Loaded(_, _, _) => 0
    case Snapped(_, _) => 1
    case Asked(_, _, _) => 2
    case Reread(_, _) => 3
    case Stored(_, _, _, _) => 4
    case Refused(_, _, _) => 4
    case Bumped(_, _, _) => 5
    case Cleared(_, _, _) => 6
  }

  predicate Writes(e: Event, key: Key) {
    (e.Stored? || e.Cleared?) && e.site.key == key
  }

  // ----- What the store holds after a history -----

  function WriteCount(log: seq<Event>): nat {
    if log == [] then 0
    else
      var e := log[|log| - 1];
      WriteCount(log[..|log| - 1]) + if e.Stored? || e.Cleared? then 1 else 0
  }

  function KeyRevision(log: seq<Event>, key: Key): nat {
    if log == [] then 0
    else if Writes(log[|log| - 1], key) then WriteCount(log)
    else KeyRevision(log[..|log| - 1], key)
  }

  function RecordOf(log: seq<Event>, key: Key): Option<Record> {
    if log == [] then None
    else
      var e := log[|log| - 1];
      if !Writes(e, key) then RecordOf(log[..|log| - 1], key)
      else if e.Stored? then Some(Record(e.evidence, WriteCount(log)))
      else if e.record.Some? then Some(Record(e.record.value, WriteCount(log)))
      else None
  }

  /** A site's generation. */
  function Bumps(log: seq<Event>, site: Site, mode: Mode): nat {
    if log == [] then 0
    else
      var e := log[|log| - 1];
      Bumps(log[..|log| - 1], site, mode) + if e.Bumped? && e.site == site && e.mode == mode then 1 else 0
  }

  // ----- The rules -----

  /** A catalog a service serves. */
  predicate Serves(c: Config, service: nat, record: Record) {
    record.evidence.status in {Discovered, Empty} && record.evidence.schema == c.schema(service)
  }

  /** What a discovery stores. */
  predicate Genuine(c: Config, service: nat, evidence: Evidence) {
    && evidence.status == (if evidence.models == [] then Empty else Discovered)
    && evidence.schema == c.schema(service)
  }

  predicate InTurn(before: seq<Event>, e: Event) {
    forall i :: 0 <= i < |before| && before[i].call == e.call ==> Rank(before[i]) < Rank(e)
  }

  /** Nothing of the site from i on is an invalidation. */
  predicate NoneCleared(log: seq<Event>, i: nat, site: Site) {
    forall m :: i <= m < |log| && log[m].site == site ==> !log[m].Bumped? && !log[m].Cleared?
  }

  predicate NoneStored(log: seq<Event>, i: nat, site: Site) {
    forall m :: i <= m < |log| && log[m].site == site ==> !log[m].Stored?
  }

  /** The write lock of the site was held from i on. */
  predicate Quiet(log: seq<Event>, i: nat, site: Site) {
    forall m :: i < m < |log| && log[m].site == site ==> !log[m].Snapped? && !log[m].Stored? && !log[m].Bumped? && !log[m].Cleared?
  }

  /** The terms hold: the fence is the key's revision as read then, at the start of the call or,
      under the write lock, at its end; and but for the invalidation Rebase accepted none is hard. */
  predicate Holds(before: seq<Event>, call: nat, site: Site, t: Terms) {
    && t.snapAt < |before| && before[t.snapAt] == Snapped(call, site)
    && t.readAt < |before| && before[t.readAt] == (if t.latest then Reread(call, site) else Loaded(call, site, false))
    && KeyRevision(before[..t.readAt], site.key) == t.fence
    && Bumps(before, site, Hard) == Bumps(before[..t.snapAt], site, Hard) + (if t.rebased then 1 else 0)
    && (t.latest <==> t.rebased || Bumps(before, site, Soft) != Bumps(before[..t.snapAt], site, Soft))
    && NoneStored(before, t.readAt, site)
    && (if t.latest then t.snapAt < t.readAt && NoneCleared(before, t.readAt, site) else t.readAt < t.snapAt)
  }

  predicate Due(c: Config, before: seq<Event>, e: Event) {
    && InTurn(before, e)
    && match e
       case Loaded(_, site, isFresh) =>
         isFresh ==> RecordOf(before, site.key).Some? && Serves(c, site.service, RecordOf(before, site.key).value)
       case Snapped(call, site) => Loaded(call, site, false) in before
       case Asked(call, site, _) => Snapped(call, site) in before
       case Reread(call, site) => Asked(call, site, true) in before
       case Stored(call, site, evidence, terms) =>
         && Asked(call, site, true) in before && Holds(before, call, site, terms) && Genuine(c, site.service, evidence)
         && (c.conditional ==> KeyRevision(before, site.key) == terms.fence)
       case Refused(call, site, terms) =>
         && Asked(call, site, true) in before && Holds(before, call, site, terms)
         && c.conditional && KeyRevision(before, site.key) != terms.fence
       case Bumped(_, _, _) => true
       case Cleared(call, site, record) =>
         && (exists b :: 0 <= b < |before| && before[b].Bumped? && before[b].call == call && before[b].site == site && Quiet(before, b, site))
         && (c.conditional <==> record == None) && (record.Some? ==> record.value.status == NotProbed)
  }

  predicate Kept(c: Config, log: seq<Event>) {
    forall i {:trigger Due(c, log[..i], log[i])} :: 0 <= i < |log| ==> Due(c, log[..i], log[i])
  }

  lemma KeptMore(c: Config, log: seq<Event>, e: Event)
    requires Kept(c, log) && Due(c, log, e)
    ensures Kept(c, log + [e])
  {
    hide Due;
    var more := log + [e];
    assert more[..|log|] == log;
    forall i | 0 <= i < |more| ensures Due(c, more[..i], more[i]) {
      if i < |log| { assert more[..i] == log[..i]; }
    }
  }

  lemma OneMore(log: seq<Event>, e: Event)
    ensures WriteCount(log + [e]) == WriteCount(log) + if e.Stored? || e.Cleared? then 1 else 0
    ensures forall key :: KeyRevision(log + [e], key) == if Writes(e, key) then WriteCount(log) + 1 else KeyRevision(log, key)
    ensures forall key :: !Writes(e, key) ==> RecordOf(log + [e], key) == RecordOf(log, key)
    ensures forall site, mode :: Bumps(log + [e], site, mode) == Bumps(log, site, mode) + if e.Bumped? && e.site == site && e.mode == mode then 1 else 0
  {
    assert (log + [e])[..|log|] == log;
  }

  lemma {:induction false} RevisionIsCounted(log: seq<Event>, key: Key)
    ensures KeyRevision(log, key) <= WriteCount(log)
  {
    if log != [] { RevisionIsCounted(log[..|log| - 1], key); }
  }

  /** A key's revision is the same at two instants exactly when nobody wrote the key in between. */
  lemma {:induction false} SameRevision(log: seq<Event>, n: nat, key: Key)
    requires n <= |log|
    ensures KeyRevision(log, key) == KeyRevision(log[..n], key) <==> (forall m :: n <= m < |log| ==> !Writes(log[m], key))
    ensures KeyRevision(log, key) >= KeyRevision(log[..n], key)
    ensures WriteCount(log) >= WriteCount(log[..n])
  {
    if n == |log| {
      assert log[..n] == log;
    } else {
      var front := log[..|log| - 1];
      assert front[..n] == log[..n];
      SameRevision(front, n, key);
      RevisionIsCounted(front, key);
      RevisionIsCounted(log[..n], key);
      assert forall m :: n <= m < |front| ==> front[m] == log[m];
    }
  }

  lemma {:induction false} BumpsBetween(log: seq<Event>, n: nat, site: Site, mode: Mode)
    requires n <= |log|
    ensures Bumps(log, site, mode) >= Bumps(log[..n], site, mode)
    ensures Bumps(log, site, mode) == Bumps(log[..n], site, mode) <==>
              forall m :: n <= m < |log| && log[m].Bumped? && log[m].site == site ==> log[m].mode != mode
  {
    if n == |log| {
      assert log[..n] == log;
    } else {
      var front := log[..|log| - 1];
      assert front[..n] == log[..n];
      BumpsBetween(front, n, site, mode);
      assert forall m :: n <= m < |front| ==> front[m] == log[m];
    }
  }

  lemma TwoBumpsBetween(log: seq<Event>, n: nat, i: nat, j: nat, site: Site, mode: Mode)
    requires n <= i < j < |log|
    requires log[i] == Bumped(log[i].call, site, mode) && log[j] == Bumped(log[j].call, site, mode)
    ensures Bumps(log, site, mode) >= Bumps(log[..n], site, mode) + 2
  {
    var upTo, after := log[..j], log[..j + 1];
    assert upTo[..n] == log[..n] && after[..j] == upTo && after[j] == log[j] && upTo[i] == log[i];
    BumpsBetween(upTo, n, site, mode);
    BumpsBetween(log, j + 1, site, mode);
  }

  lemma OncePerCall(c: Config, log: seq<Event>, i: nat, j: nat)
    requires Kept(c, log) && i < j < |log| && log[i].call == log[j].call
    ensures Rank(log[i]) < Rank(log[j])
  {
    assert Due(c, log[..j], log[j]);
    assert log[..j][i] == log[i];
  }

  // ----- No resurrection across processes -----

  /** Main result: a discovery is stored in a conditional store only if no service wrote or deleted
      the key since its fence was read; for a save that did not read it anew, since its call began. */
  lemma StoredUntouched(c: Config, log: seq<Event>, j: nat)
    requires Kept(c, log) && c.conditional && j < |log| && log[j].Stored?
    ensures var t := log[j].terms;
            && t.readAt < j && (!t.latest ==> log[t.readAt] == Loaded(log[j].call, log[j].site, false))
            && forall m :: t.readAt <= m < j ==> !Writes(log[m], log[j].site.key)
  {
    var before, t := log[..j], log[j].terms;
    assert Due(c, before, log[j]);
    hide Kept;
    SameRevision(before, t.readAt, log[j].site.key);
    assert forall m :: t.readAt <= m < j ==> before[m] == log[m];
  }

  /** Main result: of discoveries with one fence at most one is stored, whatever services ran them. */
  lemma OneStorePerFence(c: Config, log: seq<Event>, i: nat, j: nat)
    requires Kept(c, log) && c.conditional && i < |log| && j < |log|
    requires log[i].Stored? && log[j].Stored? && log[i].site.key == log[j].site.key && log[i].terms.fence == log[j].terms.fence
    ensures i == j
  {
    if i < j { NotTheSameFence(c, log, i, j); }
    if j < i { NotTheSameFence(c, log, j, i); }
  }

  lemma StoredTerms(c: Config, log: seq<Event>, j: nat)
    requires Kept(c, log) && j < |log| && log[j].Stored?
    ensures Holds(log[..j], log[j].call, log[j].site, log[j].terms)
    ensures c.conditional ==> KeyRevision(log[..j], log[j].site.key) == log[j].terms.fence
  {
    assert Due(c, log[..j], log[j]);
    hide Kept, Holds, KeyRevision;
  }

  lemma NotTheSameFence(c: Config, log: seq<Event>, i: nat, j: nat)
    requires Kept(c, log) && c.conditional && i < j < |log|
    requires log[i].Stored? && log[j].Stored? && log[i].site.key == log[j].site.key
    ensures log[i].terms.fence < log[j].terms.fence
  {
    hide Kept, Holds;
    StoredTerms(c, log, i);
    StoredTerms(c, log, j);
    WriteRaises(log, i, log[i].site.key);
    hide KeyRevision;
    assert log[..j][..i + 1] == log[..i + 1];
    SameRevision(log[..j], i + 1, log[j].site.key);
  }

  lemma WriteRaises(log: seq<Event>, i: nat, key: Key)
    requires i < |log| && Writes(log[i], key)
    ensures KeyRevision(log[..i + 1], key) > KeyRevision(log[..i], key)
  {
    var after := log[..i + 1];
    assert after[..i] == log[..i] && after[i] == log[i];
    RevisionIsCounted(log[..i], key);
  }

  // ----- No resurrection in one service -----

  /** Main result: rows of a discovery whose generations were taken before a hard invalidation of
      its service are never stored after it, unless Rebase accepted and it is the only one. */
  lemma HardInvalidationFences(c: Config, log: seq<Event>, b: nat, j: nat)
    requires Kept(c, log) && b < j < |log| && log[j].Stored?
    requires log[b].Bumped? && log[b].mode == Hard && log[b].site == log[j].site && log[j].terms.snapAt < b
    ensures log[j].terms.rebased && log[j].terms.latest
    ensures forall b' :: log[j].terms.snapAt < b' < j && log[b'].Bumped? && log[b'].mode == Hard && log[b'].site == log[j].site ==> b' == b
  {
    var before, t, site := log[..j], log[j].terms, log[j].site;
    assert Due(c, before, log[j]);
    hide Kept, NoneStored, NoneCleared;
    BumpsBetween(before, t.snapAt, site, Hard);
    assert before[b] == log[b];
    forall b' | t.snapAt < b' < j && log[b'].Bumped? && log[b'].mode == Hard && log[b'].site == site ensures b' == b {
      assert before[b'] == log[b'];
      if b < b' { TwoBumpsBetween(before, t.snapAt, b, b', site, Hard); }
      if b' < b { TwoBumpsBetween(before, t.snapAt, b', b, site, Hard); }
    }
  }

  /** Main result: a save is refused only because another service wrote the key, or, if it did not
      read its fence anew, because its own service invalidated the catalog between that read and
      the snapshot. So a soft invalidation after the snapshot never refuses one. */
  lemma RefusedForAReason(c: Config, log: seq<Event>, j: nat) returns (m: nat)
    requires Kept(c, log) && j < |log| && log[j].Refused?
    ensures log[j].terms.readAt < m < j && Writes(log[m], log[j].site.key)
    ensures log[m].site.service != log[j].site.service || (!log[j].terms.latest && log[m].Cleared? && m < log[j].terms.snapAt)
  {
    hide Kept, Bumps, Quiet;
    var before, t, site := log[..j], log[j].terms, log[j].site;
    RefusedTerms(c, log, j);
    SameRevision(before, t.readAt, site.key);
    m :| t.readAt <= m < |before| && Writes(before[m], site.key);
    assert before[m] == log[m] && before[t.readAt] == log[t.readAt];
    if log[m].site.service == site.service {
      assert log[m].site == site && log[m].Cleared?;
      if !t.latest { ClearedBeforeSnapshot(c, log, j, m); }
    }
  }

  lemma RefusedTerms(c: Config, log: seq<Event>, j: nat)
    requires Kept(c, log) && j < |log| && log[j].Refused?
    ensures Holds(log[..j], log[j].call, log[j].site, log[j].terms)
    ensures c.conditional && KeyRevision(log[..j], log[j].site.key) != log[j].terms.fence
  {
    assert Due(c, log[..j], log[j]);
    hide Kept, Holds, KeyRevision;
  }

  /** An invalidation clears the store under the lock it raised its generation under. */
  lemma ClearedUnderLock(c: Config, log: seq<Event>, m: nat) returns (b: nat)
    requires Kept(c, log) && m < |log| && log[m].Cleared?
    ensures b < m && log[b].Bumped? && log[b].site == log[m].site && Quiet(log[..m], b, log[m].site)
  {
    assert Due(c, log[..m], log[m]);
    hide Kept, Quiet;
    b :| 0 <= b < m && log[..m][b].Bumped? && log[..m][b].site == log[m].site && Quiet(log[..m], b, log[m].site);
  }

  lemma ClearedBeforeSnapshot(c: Config, log: seq<Event>, j: nat, m: nat)
    requires Kept(c, log) && j < |log| && log[j].Refused? && m < j && log[m].Cleared? && log[m].site == log[j].site
    requires !log[j].terms.latest
    ensures m < log[j].terms.snapAt
  {
    hide Kept, Bumps, KeyRevision, NoneStored, NoneCleared;
    var before, t, site := log[..j], log[j].terms, log[j].site;
    RefusedTerms(c, log, j);
    var b := ClearedUnderLock(c, log, m);
    BumpsBetween(before, t.snapAt, site, Hard);
    BumpsBetween(before, t.snapAt, site, Soft);
    assert before[b] == log[b] && before[t.snapAt] == log[t.snapAt];
    assert b < t.snapAt;
  }

  // ----- Discover -----

  /** Main result: a call asks upstream at most once, and not at all when what it loaded was fresh;
      a failed discovery stores nothing. */
  lemma AskedOnce(c: Config, log: seq<Event>, i: nat, j: nat)
    requires Kept(c, log) && i < |log| && j < |log| && log[i].call == log[j].call && log[i].Asked?
    ensures log[j].Asked? ==> i == j
    ensures log[j].Loaded? ==> !log[j].isFresh
    ensures log[j].Stored? ==> log[i].ok
  {
    if i < j { OncePerCall(c, log, i, j); }
    if j < i { OncePerCall(c, log, j, i); }
    assert Due(c, log[..i], log[i]) && Due(c, log[..j], log[j]);
    if log[j].Loaded? {
      assert Snapped(log[i].call, log[i].site) in log[..i];
      var s :| 0 <= s < i && log[..i][s] == Snapped(log[i].call, log[i].site);
      assert Due(c, log[..s], log[s]);
      var l :| 0 <= l < s && log[..s][l] == Loaded(log[s].call, log[s].site, false);
      SameEvent(c, log, l, j);
    }
    if log[j].Stored? {
      var a :| 0 <= a < j && log[..j][a] == Asked(log[j].call, log[j].site, true);
      SameEvent(c, log, a, i);
    }
  }

  lemma SameEvent(c: Config, log: seq<Event>, i: nat, j: nat)
    requires Kept(c, log) && i < |log| && j < |log| && log[i].call == log[j].call && Rank(log[i]) == Rank(log[j])
    ensures i == j
  {
    if i < j { OncePerCall(c, log, i, j); }
    if j < i { OncePerCall(c, log, j, i); }
  }
}
