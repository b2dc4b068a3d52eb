/** The append-only in-memory persistence backend used in place of the
    JSONL file log: every write appends one `{type, data}` entry. The entity
    is stored as given; its `model_dump()` rendering is not modelled. */
module PersistenceMemory {

  datatype Entry<T> = Entry(entityType: string, data: T)

  class MemoryBackend<T> {
    var entries: seq<Entry<T>>

    constructor ()
      ensures entries == []
    {
      entries := [];
    }

    /** Appends exactly one entry at the end; earlier entries are kept. */
    method Write(entity: T, entityType: string)
      modifies this
      ensures entries == old(entries) + [Entry(entityType, entity)]
    {
      entries := entries + [Entry(entityType, entity)];
    }

    /** The entries in write order, as a list of their own. */
    method ReadAll() returns (r: seq<Entry<T>>)
      ensures r == entries
    {
      r := entries;
    }
  }

  /** What `read_all` returned is a snapshot: a later write does not change
      it, while the backend moves on. */
  method ReadAllIsSnapshot<T>(backend: MemoryBackend<T>, entity: T, entityType: string)
    returns (before: seq<Entry<T>>, after: seq<Entry<T>>)
    modifies backend
    ensures before == old(backend.entries)
    ensures after == before + [Entry(entityType, entity)]
  {
    before := backend.ReadAll();
    backend.Write(entity, entityType);
    after := backend.ReadAll();
  }
}
