/** The HTTP handlers: each request becomes one store operation and a status code with a JSON envelope. */
module Api {
  import opened Wrappers
  import opened TaskModel
  import opened TaskStore
  import opened StoreLemmas
  import opened Health

  /** The requests the task API and the health/dashboard routes accept; where a handler stamps a task,
      the time it reads from the clock is passed in as `now`. */
  datatype Request =
    | ListTasks(status: Option<string>, priority: Option<string>)
    | GetTask(id: int)
    | CreateTask(title: Option<string>, description: Option<string>, priority: Option<string>, now: Timestamp)
    | UpdateTask(id: int, patch: Patch, now: Timestamp)
    | DeleteTask(id: int)
    | HealthCheck
    | Home

  /** The JSON envelope; `success` is false exactly for `Failed`. */
  datatype Body =
    | TaskList(tasks: seq<Task>, total: nat)
    | OneTask(task: Task)
    | Deleted(task: Task, message: string)
    | Failed(message: string)
    | HealthReport(counts: TaskCounts)
    | HomePage(stats: DashboardStats)

  datatype Response = Response(code: nat, body: Body)

  /** The store after a request together with the response sent. */
  datatype Exchange = Exchange(store: Store, response: Response)

  const NotFoundMessage := "Task not found"
  const TitleRequiredMessage := "Title is required"
  const DeletedMessage := "Task deleted successfully"

  /** Requests that address an existing task by its path id. */
  predicate ById(req: Request)
  {
    req.GetTask? || req.UpdateTask? || req.DeleteTask?
  }

  /** The failure envelope of a store error. */
  function Reject(e: Error): Response
  {
    match e
    case NotFound => Response(404, Failed(NotFoundMessage))
    case TitleRequired => Response(400, Failed(TitleRequiredMessage))
  }

  /** Dispatch one request. */
  function Handle(st: Store, req: Request): (r: Exchange)
    ensures r.response.code in {200, 201, 400, 404}
    ensures r.response.body.Failed? <==> r.response.code >= 400
    ensures r.response.code == 400 <==> req.CreateTask? && !Truthy(req.title)
    ensures r.response.code == 404 <==> ById(req) && !HasId(st.tasks, req.id)
    ensures r.response.code == 201 <==> req.CreateTask? && Truthy(req.title)
    ensures r.response.code == 404 ==> r.response.body.message == NotFoundMessage
    ensures r.response.code >= 400 ==> r.store == st
    ensures !(req.CreateTask? || req.UpdateTask? || req.DeleteTask?) ==> r.store == st
    ensures r.store.nextId == st.nextId + (if r.response.code == 201 then 1 else 0)
    ensures r.response.code == 201 ==> r.response.body.OneTask? && r.response.body.task.id == st.nextId
    ensures r.response.body.TaskList? ==> r.response.body.total == |r.response.body.tasks|
    ensures r.response.code == 400 ==> r.response.body.message == TitleRequiredMessage
    ensures req.HealthCheck? ==> r == Exchange(st, Response(200, HealthReport(HealthCounts(st))))
    ensures req.Home? ==> r == Exchange(st, Response(200, HomePage(Dashboard(st))))
    ensures req.ListTasks? ==>
              var data := List(st, req.status, req.priority);
              r == Exchange(st, Response(200, TaskList(data, |data|)))
    ensures req.GetTask? && HasId(st.tasks, req.id) ==>
              r == Exchange(st, Response(200, OneTask(Get(st, req.id).value)))
    ensures req.CreateTask? ==>
              var o := Create(st, req.title, req.description, req.priority, req.now);
              r.store == o.store && (o.result.Success? ==> r.response.body == OneTask(o.result.value))
    ensures req.UpdateTask? ==>
              var o := Update(st, req.id, req.patch, req.now);
              r.store == o.store && (o.result.Success? ==> r.response == Response(200, OneTask(o.result.value)))
    ensures req.DeleteTask? ==>
              var o := Delete(st, req.id);
              r.store == o.store && (o.result.Success? ==> r.response == Response(200, Deleted(o.result.value, DeletedMessage)))
  {
    match req
    case ListTasks(status, priority) =>
      var data := List(st, status, priority);
      Exchange(st, Response(200, TaskList(data, |data|)))
    case GetTask(id) =>
      (match Get(st, id)
       case Success(t) => Exchange(st, Response(200, OneTask(t)))
       case Failure(e) => Exchange(st, Reject(e)))
    case CreateTask(title, description, priority, now) =>
      var o := Create(st, title, description, priority, now);
      (match o.result
       case Success(t) => Exchange(o.store, Response(201, OneTask(t)))
       case Failure(e) => Exchange(o.store, Reject(e)))
    case UpdateTask(id, patch, now) =>
      var o := Update(st, id, patch, now);
      (match o.result
       case Success(t) => Exchange(o.store, Response(200, OneTask(t)))
       case Failure(e) => Exchange(o.store, Reject(e)))
    case DeleteTask(id) =>
      var o := Delete(st, id);
      (match o.result
       case Success(t) => Exchange(o.store, Response(200, Deleted(t, DeletedMessage)))
       case Failure(e) => Exchange(o.store, Reject(e)))
    case HealthCheck =>
      Exchange(st, Response(200, HealthReport(HealthCounts(st))))
    case Home =>
      Exchange(st, Response(200, HomePage(Dashboard(st))))
  }

  /** Every request keeps the store invariant. */
  lemma HandlePreservesValid(st: Store, req: Request)
    requires Valid(st)
    ensures Valid(Handle(st, req).store)
  {
    match req
    case CreateTask(title, description, priority, now) =>
      CreatePreservesValid(st, title, description, priority, now);
    case UpdateTask(id, patch, now) =>
      UpdatePreservesValid(st, id, patch, now);
    case DeleteTask(id) =>
      DeletePreservesValid(st, id);
    case _ =>
  }

  /** The store and the responses after serving `reqs` one at a time, in order. */
  datatype Trace = Trace(store: Store, responses: seq<Response>)

  function Run(st: Store, reqs: seq<Request>): (r: Trace)
    ensures |r.responses| == |reqs|
    ensures st.nextId <= r.store.nextId
    decreases |reqs|
  {
    if reqs == [] then Trace(st, [])
    else
      var e := Handle(st, reqs[0]);
      var rest := Run(e.store, reqs[1..]);
      Trace(rest.store, [e.response] + rest.responses)
  }

  /** The ids of the tasks created, in the order of the responses. */
  function CreatedIds(responses: seq<Response>): seq<int>
  {
    if responses == [] then []
    else
      var head := responses[0];
      var rest := CreatedIds(responses[1..]);
      if head.code == 201 && head.body.OneTask? then [head.body.task.id] + rest else rest
  }

  /** Serving any sequence of requests keeps the store invariant. */
  lemma {:induction false} RunPreservesValid(st: Store, reqs: seq<Request>)
    requires Valid(st)
    ensures Valid(Run(st, reqs).store)
    decreases |reqs|
  {
    if reqs != [] {
      HandlePreservesValid(st, reqs[0]);
      RunPreservesValid(Handle(st, reqs[0]).store, reqs[1..]);
    }
  }

  /** Creations hand out strictly increasing ids, one per creation, all taken from the counter's range
      during the run. */
  lemma {:induction false} CreatedIdsIncrease(st: Store, reqs: seq<Request>)
    ensures var r := Run(st, reqs);
            var ids := CreatedIds(r.responses);
            && |ids| == r.store.nextId - st.nextId
            && (forall i :: 0 <= i < |ids| ==> st.nextId <= ids[i] < r.store.nextId)
            && (forall i, j :: 0 <= i < j < |ids| ==> ids[i] < ids[j])
    decreases |reqs|
  {
    if reqs != [] {
      var e := Handle(st, reqs[0]);
      var rest := Run(e.store, reqs[1..]);
      CreatedIdsIncrease(e.store, reqs[1..]);
      var rs := [e.response] + rest.responses;
      assert rs[1..] == rest.responses;
      assert Run(st, reqs) == Trace(rest.store, rs);
    }
  }

  /** No id created during a run belongs to a task that was stored before it: ids are never reused,
      even those of tasks deleted in between. */
  lemma CreatedIdsFresh(st: Store, reqs: seq<Request>)
    requires Valid(st)
    ensures var ids := CreatedIds(Run(st, reqs).responses);
            forall i, t :: 0 <= i < |ids| && t in st.tasks ==> ids[i] != t.id
  {
    CreatedIdsIncrease(st, reqs);
  }

  /** The behaviour on the seeded store: a new task gets id 4, listing completed tasks yields the first
      seeded task, re-completing it still stamps it, and an unknown id answers 404. */
  lemma SeedScenario(t1: Timestamp, t2: Timestamp, t3: Timestamp, now: Timestamp)
    ensures var st := Seed(t1, t2, t3);
            && Handle(st, CreateTask(Some("X"), None, None, now)).response
               == Response(201, OneTask(Task(4, "X", "", "pending", "medium", now, None)))
            && Handle(st, ListTasks(Some("completed"), None)).response
               == Response(200, TaskList([st.tasks[0]], 1))
            && Handle(st, UpdateTask(1, Patch(None, None, Some("completed"), None), now)).response
               == Response(200, OneTask(st.tasks[0].(updatedAt := Some(now))))
            && Handle(st, DeleteTask(999)).response == Response(404, Failed(NotFoundMessage))
  {
  }
}
