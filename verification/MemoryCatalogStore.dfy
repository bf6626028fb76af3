/** core.MemoryCatalogStore: maps changed in place, proved to do what CatalogStore says. */
module MemoryCatalogStore {
  import opened CatalogStore

  class MemoryCatalogStore {
    var records: map<Key, Record>
    var deleted: map<Key, nat>
    var revision: nat

    ghost function View(): Store
      reads this
    {
      Store(records, deleted, revision)
    }

    constructor ()
      ensures View() == EMPTY_STORE && CatalogStore.Valid(View())
    {
      records, deleted, revision := map[], map[], 0;
    }

    method Load(ended: bool, key: Key) returns (result: Result<Record>)
      ensures result == CatalogStore.Load(View(), ended, key)
    {
      if ended {
        return Err(ContextEnded);
      }
      if key !in records {
        return Err(NotFound(if key in deleted then deleted[key] else 0));
      }
      return Ok(records[key]);
    }

    method Save(ended: bool, key: Key, evidence: Evidence) returns (result: Result<nat>)
      modifies this
      ensures (View(), result) == CatalogStore.Save(old(View()), ended, key, evidence)
    {
      if ended {
        return Err(ContextEnded);
      }
      var saved := SaveLocked(key, evidence);
      return Ok(saved);
    }

    method SaveIf(ended: bool, key: Key, evidence: Evidence, expected: nat) returns (result: Result<nat>)
      modifies this
      ensures (View(), result) == CatalogStore.SaveIf(old(View()), ended, key, evidence, expected)
    {
      if ended {
        return Err(ContextEnded);
      }
      var current := RevisionLocked(key);
      if current != expected {
        return Err(Conflict);
      }
      var saved := SaveLocked(key, evidence);
      return Ok(saved);
    }

    method Delete(ended: bool, key: Key) returns (ok: bool)
      modifies this
      ensures (View(), ok) == CatalogStore.Delete(old(View()), ended, key)
    {
      if ended {
        return false;
      }
      records := records - {key};
      revision := revision + 1;
      deleted := deleted[key := revision];
      return true;
    }

    method RevisionLocked(key: Key) returns (current: nat)
      ensures current == RevisionOf(View(), key)
    {
      if key in records {
        return records[key].revision;
      }
      current := if key in deleted then deleted[key] else 0;
    }

    method SaveLocked(key: Key, evidence: Evidence) returns (saved: nat)
      modifies this
      ensures View() == Put(old(View()), key, evidence) && saved == revision
    {
      revision := revision + 1;
      deleted := deleted - {key};
      records := records[key := Record(evidence, revision)];
      return revision;
    }
  }
}
