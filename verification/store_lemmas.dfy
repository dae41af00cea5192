/** Properties relating the store operations to each other and to the store invariant. */
module StoreLemmas {
  import opened Wrappers
  import opened TaskModel
  import opened TaskStore

  /** A successful creation keeps ids unique and issued, because the new id is the counter's old value. */
  lemma CreatePreservesValid(st: Store, title: Option<string>, description: Option<string>,
                             priority: Option<string>, now: Timestamp)
    requires Valid(st)
    ensures Valid(Create(st, title, description, priority, now).store)
  {
  }

  /** An update never changes any id, and only writes a title when it is non-empty. */
  lemma UpdatePreservesValid(st: Store, id: int, p: Patch, now: Timestamp)
    requires Valid(st)
    ensures Valid(Update(st, id, p, now).store)
  {
  }

  /** Removing a task keeps the remaining ids unique and issued. */
  lemma DeletePreservesValid(st: Store, id: int)
    requires Valid(st)
    ensures Valid(Delete(st, id).store)
  {
  }

  /** With unique ids, looking up the id of a stored task yields exactly that task. */
  lemma GetStoredTask(st: Store, t: Task)
    requires Valid(st)
    requires t in st.tasks
    ensures Get(st, t.id) == Success(t)
  {
  }

  /** A freshly created task can be read back by its id. */
  lemma CreateThenGet(st: Store, title: Option<string>, description: Option<string>,
                      priority: Option<string>, now: Timestamp)
    requires Valid(st)
    requires Truthy(title)
    ensures var r := Create(st, title, description, priority, now);
            Get(r.store, st.nextId) == r.result
  {
    var r := Create(st, title, description, priority, now);
    CreatePreservesValid(st, title, description, priority, now);
    assert r.store.tasks[|st.tasks|] == r.result.value;
    GetStoredTask(r.store, r.result.value);
  }

  /** Deleting a freshly created task returns it and restores the task list, but not the counter:
      the deleted id is never handed out again. */
  lemma CreateThenDelete(st: Store, title: Option<string>, description: Option<string>,
                         priority: Option<string>, now: Timestamp)
    requires Valid(st)
    requires Truthy(title)
    ensures var r := Create(st, title, description, priority, now);
            Delete(r.store, st.nextId) == Outcome(Store(st.tasks, st.nextId + 1), r.result)
  {
    var r := Create(st, title, description, priority, now);
    var n := |st.tasks|;
    CreatePreservesValid(st, title, description, priority, now);
    FindIndexUnique(r.store.tasks, st.nextId, n);
    assert r.store.tasks[..n] == st.tasks;
  }

  /** After a successful delete, no task with that id remains. */
  lemma DeleteRemovesId(st: Store, id: int)
    requires Valid(st)
    ensures !HasId(Delete(st, id).store.tasks, id)
    ensures Delete(st, id).store.tasks == Delete(Delete(st, id).store, id).store.tasks
  {
  }

  /** Reading the updated id returns what the update returned. */
  lemma UpdateThenGet(st: Store, id: int, p: Patch, now: Timestamp)
    ensures var r := Update(st, id, p, now);
            Get(r.store, id) == (if r.result.Success? then r.result else Failure(NotFound))
  {
  }

  /** Sending the same update twice, with the same timestamp, is the same as sending it once. */
  lemma UpdateIdempotent(st: Store, id: int, p: Patch, now: Timestamp)
    ensures var r := Update(st, id, p, now);
            Update(r.store, id, p, now) == r
  {
  }

  /** The asymmetric apply rule: an empty title, status or priority leaves the stored value,
      while an empty description overwrites the stored one. */
  lemma UpdateWithEmptyStrings(st: Store, id: int, now: Timestamp)
    requires HasId(st.tasks, id)
    ensures var r := Update(st, id, Patch(Some(""), Some(""), Some(""), Some("")), now);
            var before := st.tasks[FindIndex(st.tasks, id).value];
            && r.result.Success?
            && r.result.value == before.(description := "", updatedAt := Some(now))
  {
  }

  /** A listing with no truthy filter returns the whole store, in order. */
  lemma ListUnfiltered(st: Store, status: Option<string>, priority: Option<string>)
    requires !Truthy(status) && !Truthy(priority)
    ensures List(st, status, priority) == st.tasks
  {
  }
}
