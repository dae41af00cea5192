/** The operations behind the `/api/tasks` routes, as pure functions on a store. */
module TaskStore {
  import opened Wrappers
  import opened Subsequences
  import opened TaskModel

  /** Why a store operation failed: no task with the id, or a creation without a title. */
  datatype Error = NotFound | TitleRequired

  /** A store operation's new store together with its result. */
  datatype Outcome = Outcome(store: Store, result: Result<Task, Error>)

  /** The optional fields of an update request body. */
  datatype Patch = Patch(
    title: Option<string>,
    description: Option<string>,
    status: Option<string>,
    priority: Option<string>)

  /** The two attributes a listing can be filtered on. */
  datatype Tag = Status | Priority

  function TagOf(t: Task, tag: Tag): string
  {
    match tag
    case Status => t.status
    case Priority => t.priority
  }

  /** The tasks whose `tag` equals `value` exactly, in their original order. */
  function FilterBy(tasks: seq<Task>, tag: Tag, value: string): (r: seq<Task>)
    ensures IsSubseq(r, tasks)
    ensures |r| <= |tasks|
    ensures forall i :: 0 <= i < |r| ==> TagOf(r[i], tag) == value
    ensures forall t :: t in r ==> t in tasks
    ensures forall t :: t in tasks && TagOf(t, tag) == value ==> t in r
  {
    if tasks == [] then []
    else
      var rest := FilterBy(tasks[1..], tag, value);
      assert forall t :: t in tasks ==> t == tasks[0] || t in tasks[1..];
      if TagOf(tasks[0], tag) == value then
        var r := [tasks[0]] + rest;
        assert r[1..] == rest;
        r
      else
        rest
  }

  /** A query parameter constrains the listing only when it is truthy. */
  predicate Matches(t: Task, status: Option<string>, priority: Option<string>)
  {
    && (Truthy(status) ==> t.status == status.value)
    && (Truthy(priority) ==> t.priority == priority.value)
  }

  /** `GET /api/tasks?status=&priority=`: first narrow by status, then by priority. */
  function List(st: Store, status: Option<string>, priority: Option<string>): (r: seq<Task>)
    ensures IsSubseq(r, st.tasks)
    ensures |r| <= |st.tasks|
    ensures forall i :: 0 <= i < |r| ==> Matches(r[i], status, priority)
    ensures forall t :: t in st.tasks && Matches(t, status, priority) ==> t in r
  {
    var byStatus := if Truthy(status) then FilterBy(st.tasks, Status, status.value) else st.tasks;
    assert IsSubseq(byStatus, st.tasks) by { if !Truthy(status) { SubseqRefl(st.tasks); } }
    assert forall t :: t in byStatus ==> t in st.tasks;
    if Truthy(priority) then
      var r := FilterBy(byStatus, Priority, priority.value);
      SubseqTrans(r, byStatus, st.tasks);
      SubseqLength(r, st.tasks);
      r
    else
      SubseqLength(byStatus, st.tasks);
      byStatus
  }

  /** Filtering keeps every copy of a matching task and no copy of any other, so counts taken
      by filtering are exact even for a list with repeated records. */
  lemma {:induction false} FilterByMultiplicity(tasks: seq<Task>, tag: Tag, value: string, t: Task)
    ensures multiset(FilterBy(tasks, tag, value))[t] == if TagOf(t, tag) == value then multiset(tasks)[t] else 0
    decreases |tasks|
  {
    if tasks != [] {
      FilterByMultiplicity(tasks[1..], tag, value, t);
      assert tasks == [tasks[0]] + tasks[1..];
    }
  }

  /** A listing keeps every copy of each task matching the query and no copy of any other. */
  lemma ListMultiplicity(st: Store, status: Option<string>, priority: Option<string>, t: Task)
    ensures multiset(List(st, status, priority))[t] == if Matches(t, status, priority) then multiset(st.tasks)[t] else 0
  {
    if Truthy(status) {
      FilterByMultiplicity(st.tasks, Status, status.value, t);
      if Truthy(priority) {
        FilterByMultiplicity(FilterBy(st.tasks, Status, status.value), Priority, priority.value, t);
      }
    } else if Truthy(priority) {
      FilterByMultiplicity(st.tasks, Priority, priority.value, t);
    }
  }

  /** `GET /api/tasks/:id`: the first task with that id, or not-found. */
  function Get(st: Store, id: int): (r: Result<Task, Error>)
    ensures r.Failure? <==> !HasId(st.tasks, id)
    ensures r.Failure? ==> r.error == NotFound
    ensures r.Success? ==> r.value.id == id && r.value in st.tasks
  {
    match FindIndex(st.tasks, id)
    case None => Failure(NotFound)
    case Some(k) => Success(st.tasks[k])
  }

  /** `POST /api/tasks`: validate the title, fill in defaults, append, advance the counter. */
  function Create(st: Store, title: Option<string>, description: Option<string>,
                  priority: Option<string>, now: Timestamp): (r: Outcome)
    ensures r.result.Failure? <==> !Truthy(title)
    ensures r.result.Failure? ==> r.result.error == TitleRequired && r.store == st
    ensures r.result.Success? ==>
              var t := r.result.value;
              && t.id == st.nextId
              && r.store.nextId == st.nextId + 1
              && r.store.tasks == st.tasks + [t]
              && t.title == title.value
              && t.status == "pending"
              && (Truthy(description) ==> t.description == description.value)
              && (!Truthy(description) ==> t.description == "")
              && (priority.None? ==> t.priority == "medium")
              && (priority.Some? ==> t.priority == priority.value)
              && t.createdAt == now
              && t.updatedAt == None
  {
    if !Truthy(title) then Outcome(st, Failure(TitleRequired))
    else
      var t := Task(
        st.nextId,
        title.value,
        if Truthy(description) then description.value else "",
        "pending",
        if priority.Some? then priority.value else "medium",
        now,
        None);
      Outcome(Store(st.tasks + [t], st.nextId + 1), Success(t))
  }

  /** The field-apply rule of an update: title, status and priority only when truthy,
      description whenever it was sent, and `updatedAt` always. */
  function ApplyPatch(t: Task, p: Patch, now: Timestamp): Task
  {
    t.(title := if Truthy(p.title) then p.title.value else t.title,
       description := if p.description.Some? then p.description.value else t.description,
       status := if Truthy(p.status) then p.status.value else t.status,
       priority := if Truthy(p.priority) then p.priority.value else t.priority,
       updatedAt := Some(now))
  }

  /** `PUT /api/tasks/:id`: patch the first task with that id in place. */
  function Update(st: Store, id: int, p: Patch, now: Timestamp): (r: Outcome)
    ensures r.result.Failure? <==> !HasId(st.tasks, id)
    ensures r.result.Failure? ==> r.result.error == NotFound && r.store == st
    ensures r.result.Success? ==>
              var k := FindIndex(st.tasks, id).value;
              var before, after := st.tasks[k], r.result.value;
              && r.store.nextId == st.nextId
              && |r.store.tasks| == |st.tasks|
              && r.store.tasks[k] == after
              && (forall j :: 0 <= j < |st.tasks| && j != k ==> r.store.tasks[j] == st.tasks[j])
              && after.id == before.id == id
              && after.createdAt == before.createdAt
              && after.title == (if Truthy(p.title) then p.title.value else before.title)
              && after.description == (if p.description.Some? then p.description.value else before.description)
              && after.status == (if Truthy(p.status) then p.status.value else before.status)
              && after.priority == (if Truthy(p.priority) then p.priority.value else before.priority)
              && after.updatedAt == Some(now)
  {
    match FindIndex(st.tasks, id)
    case None => Outcome(st, Failure(NotFound))
    case Some(k) =>
      var t := ApplyPatch(st.tasks[k], p, now);
      Outcome(st.(tasks := st.tasks[k := t]), Success(t))
  }

  /** `DELETE /api/tasks/:id`: splice out the first task with that id and return it. */
  function Delete(st: Store, id: int): (r: Outcome)
    ensures r.result.Failure? <==> !HasId(st.tasks, id)
    ensures r.result.Failure? ==> r.result.error == NotFound && r.store == st
    ensures r.result.Success? ==>
              var k := FindIndex(st.tasks, id).value;
              && r.result.value == st.tasks[k]
              && r.result.value.id == id
              && r.store.nextId == st.nextId
              && |r.store.tasks| == |st.tasks| - 1
              && IsSubseq(r.store.tasks, st.tasks)
              && r.store.tasks[..k] == st.tasks[..k]
              && r.store.tasks[k..] == st.tasks[k + 1..]
  {
    match FindIndex(st.tasks, id)
    case None => Outcome(st, Failure(NotFound))
    case Some(k) =>
      RemoveAtIsSubseq(st.tasks, k);
      Outcome(st.(tasks := st.tasks[..k] + st.tasks[k + 1..]), Success(st.tasks[k]))
  }
}
