/** The task record, the in-memory store and the store's identifier invariant. */
module TaskModel {
  import opened Wrappers

  /** A wall-clock time in ISO-8601 text; the model treats it as an opaque value supplied by the caller. */
  type Timestamp = string

  /** One task. `updatedAt` is absent until the first successful update. */
  datatype Task = Task(
    id: int,
    title: string,
    description: string,
    status: string,
    priority: string,
    createdAt: Timestamp,
    updatedAt: Option<Timestamp>)

  /** The ordered task list together with the counter for the next identifier. */
  datatype Store = Store(tasks: seq<Task>, nextId: nat)

  /** JavaScript truthiness of an optional string field: sent, and not the empty string. */
  predicate Truthy(v: Option<string>)
  {
    v.Some? && v.value != ""
  }

  /** Some task in the list carries identifier `id`. */
  predicate HasId(tasks: seq<Task>, id: int)
  {
    exists i :: 0 <= i < |tasks| && tasks[i].id == id
  }

  /** No two tasks share an identifier. */
  predicate IdsUnique(tasks: seq<Task>)
  {
    forall i, j :: 0 <= i < j < |tasks| ==> tasks[i].id != tasks[j].id
  }

  /** Every identifier was handed out by the counter, which starts at one: it is positive and below `nextId`. */
  predicate IdsIssued(st: Store)
  {
    && 1 <= st.nextId
    && forall i :: 0 <= i < |st.tasks| ==> 1 <= st.tasks[i].id < st.nextId
  }

  /** No stored task has an empty title. */
  predicate TitlesPresent(tasks: seq<Task>)
  {
    forall i :: 0 <= i < |tasks| ==> tasks[i].title != ""
  }

  /** The store invariant kept by every request handler. */
  predicate Valid(st: Store)
  {
    IdsUnique(st.tasks) && IdsIssued(st) && TitlesPresent(st.tasks)
  }

  /** The three tasks the server starts with, and the counter set one past the highest of their ids.
      Each creation time is taken separately at start-up, hence three timestamps. */
  function Seed(t1: Timestamp, t2: Timestamp, t3: Timestamp): (st: Store)
    ensures Valid(st)
    ensures |st.tasks| == 3 && st.nextId == |st.tasks| + 1
    ensures forall i :: 0 <= i < |st.tasks| ==> st.tasks[i].id == i + 1 && st.tasks[i].updatedAt == None
  {
    Store(
      [ Task(1, "Setup Docker", "Configure Docker containers", "completed", "high", t1, None),
        Task(2, "Deploy to DigitalOcean", "Deploy application to cloud server", "in-progress", "high", t2, None),
        Task(3, "Add authentication", "Implement user login and registration", "pending", "medium", t3, None) ],
      4)
  }

  /** Position of the first task carrying `id`, as the list's find-index lookup returns it. */
  function FindIndex(tasks: seq<Task>, id: int): (r: Option<nat>)
    ensures r.None? <==> !HasId(tasks, id)
    ensures r.Some? ==> r.value < |tasks| && tasks[r.value].id == id
    ensures r.Some? ==> forall j :: 0 <= j < r.value ==> tasks[j].id != id
  {
    if tasks == [] then None
    else if tasks[0].id == id then Some(0)
    else
      match FindIndex(tasks[1..], id)
      case None =>
        assert forall i :: 1 <= i < |tasks| ==> tasks[i] == tasks[1..][i - 1];
        None
      case Some(k) =>
        assert tasks[k + 1] == tasks[1..][k];
        assert forall j :: 1 <= j < k + 1 ==> tasks[j] == tasks[1..][j - 1];
        Some(k + 1)
  }

  /** In a store with unique identifiers, the task carrying `id` is the one `FindIndex` returns. */
  lemma FindIndexUnique(tasks: seq<Task>, id: int, i: nat)
    requires IdsUnique(tasks)
    requires i < |tasks| && tasks[i].id == id
    ensures FindIndex(tasks, id) == Some(i)
  {
  }
}
