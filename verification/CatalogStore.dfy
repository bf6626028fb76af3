/** The catalog store: what Load, Save, SaveIf and Delete mean on values, and what a conditional
    store guarantees. Keys are normalized. */
module CatalogStore {
  import opened Options

  type Time = int
  const NEVER: Time := 0

  datatype Key = Key(instance: string, credentialKey: string)
  datatype Status = NotProbed | Discovered | Empty | Failed
  datatype Evidence = Evidence(status: Status, models: seq<string>, observedAt: Time, schema: int)

  /** A revision counts the writes of the store; 0 is that of a key never written. */
  datatype Record = Record(evidence: Evidence, revision: nat)

  /** deleted holds the revision Delete left on a key without a record. */
  datatype Store = Store(records: map<Key, Record>, deleted: map<Key, nat>, revision: nat)
  const EMPTY_STORE := Store(map[], map[], 0)

  datatype StoreError = ContextEnded | NotFound(revision: nat) | Conflict
  datatype Result<+T> = Ok(value: T) | Err(error: StoreError)

  function RevisionOf(s: Store, key: Key): nat {
    if key in s.records then s.records[key].revision else if key in s.deleted then s.deleted[key] else 0
  }

  function Lookup(s: Store, key: Key): Option<Record> {
    if key in s.records then Some(s.records[key]) else None
  }

  function Load(s: Store, ended: bool, key: Key): Result<Record> {
    if ended then Err(ContextEnded)
    else if key in s.records then Ok(s.records[key])
    else Err(NotFound(RevisionOf(s, key)))
  }

  function Put(s: Store, key: Key, evidence: Evidence): Store {
    Store(s.records[key := Record(evidence, s.revision + 1)], s.deleted - {key}, s.revision + 1)
  }

  function Save(s: Store, ended: bool, key: Key, evidence: Evidence): (Store, Result<nat>) {
    if ended then (s, Err(ContextEnded)) else (Put(s, key, evidence), Ok(s.revision + 1))
  }

  function SaveIf(s: Store, ended: bool, key: Key, evidence: Evidence, expected: nat): (Store, Result<nat>) {
    if ended then (s, Err(ContextEnded))
    else if RevisionOf(s, key) != expected then (s, Err(Conflict))
    else (Put(s, key, evidence), Ok(s.revision + 1))
  }

  function Drop(s: Store, key: Key): Store {
    Store(s.records - {key}, s.deleted[key := s.revision + 1], s.revision + 1)
  }

  function Delete(s: Store, ended: bool, key: Key): (Store, bool) {
    if ended then (s, false) else (Drop(s, key), true)
  }

  /** Every revision handed out is below the counter, and no two keys share one but 0. */
  ghost predicate Valid(s: Store) {
    && (forall key :: RevisionOf(s, key) <= s.revision)
    && (forall key :: key in s.records ==> s.records[key].revision > 0)
    && (forall a, b :: RevisionOf(s, a) == RevisionOf(s, b) > 0 ==> a == b)
    && s.records.Keys !! s.deleted.Keys
  }

  ghost predicate NewRevision(s: Store, t: Store, key: Key) {
    && Valid(t) && RevisionOf(t, key) > s.revision
    && forall other :: other != key ==> RevisionOf(t, other) == RevisionOf(s, other) && Lookup(t, other) == Lookup(s, other)
  }

  /** A write gives its key a revision no key ever had, and leaves every other key alone. */
  lemma WritesAreNew(s: Store, key: Key, evidence: Evidence)
    requires Valid(s)
    ensures NewRevision(s, Put(s, key, evidence), key) && NewRevision(s, Drop(s, key), key)
    ensures Lookup(Put(s, key, evidence), key) == Some(Record(evidence, s.revision + 1)) && Lookup(Drop(s, key), key) == None
  {
    PutRevisions(s, key, evidence);
    DropRevisions(s, key);
    hide RevisionOf;
  }

  lemma PutRevisions(s: Store, key: Key, evidence: Evidence)
    ensures forall k :: RevisionOf(Put(s, key, evidence), k) == if k == key then s.revision + 1 else RevisionOf(s, k)
  {
  }

  lemma DropRevisions(s: Store, key: Key)
    ensures forall k :: RevisionOf(Drop(s, key), k) == if k == key then s.revision + 1 else RevisionOf(s, k)
  {
  }
}
