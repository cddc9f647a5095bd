/** The per-user record store behind the persistence accessor: each user id is
    an association key under which any number of records are kept, in the
    order they were created. A key with no records is simply absent. */
module Persistence {

  type UserId = string

  /** The stored record `{out, message}`. */
  datatype StorageRecord = StorageRecord(out: bool, message: string)

  type Store = map<UserId, seq<StorageRecord>>

  /** What `readByAssociation` returns: every record kept under `id`, oldest first. */
  function Read(s: Store, id: UserId): (rs: seq<StorageRecord>)
    ensures id !in s ==> rs == []
  {
    if id in s then s[id] else []
  }

  /** The store after `removeByAssociation`: all records under `id` go; other keys stay. */
  function Remove(s: Store, id: UserId): (t: Store)
    ensures id !in t && Read(t, id) == []
    ensures t - {id} == s - {id}
  {
    s - {id}
  }

  /** The store after `createWithAssociation`: one more record under `id`, after the ones
      already there; other keys stay. */
  function Create(s: Store, id: UserId, r: StorageRecord): (t: Store)
    ensures id in t && Read(t, id) == Read(s, id) + [r]
    ensures t - {id} == s - {id}
  {
    s[id := Read(s, id) + [r]]
  }

  /** The persistence accessor with its store as a field. */
  class PersistenceStore {
    var records: Store

    constructor (initial: Store)
      ensures records == initial
    {
      records := initial;
    }

    method RemoveByAssociation(id: UserId)
      modifies this
      ensures records == Remove(old(records), id)
    {
      records := records - {id};
    }

    method CreateWithAssociation(data: StorageRecord, id: UserId)
      modifies this
      ensures records == Create(old(records), id, data)
    {
      var existing := if id in records then records[id] else [];
      records := records[id := existing + [data]];
    }
  }
}
