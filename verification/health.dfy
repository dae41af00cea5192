/** The aggregate task counts reported by `/health` and by the home-page dashboard. */
module Health {
  import opened Wrappers
  import opened TaskModel
  import opened TaskStore

  /** The `tasks` part of the health report. */
  datatype TaskCounts = TaskCounts(total: nat, completed: nat)

  /** The statistics shown on the dashboard. */
  datatype DashboardStats = DashboardStats(total: nat, completed: nat, inProgress: nat, pending: nat)

  /** Number of tasks whose status is exactly `status`, counted by filtering as the server does. */
  function CountStatus(tasks: seq<Task>, status: string): nat
  {
    |FilterBy(tasks, Status, status)|
  }

  /** Tasks with pairwise distinct statuses are counted at most once in total. */
  lemma {:induction false} DistinctStatusCountsBounded(tasks: seq<Task>, a: string, b: string, c: string)
    requires a != b && b != c && a != c
    ensures CountStatus(tasks, a) + CountStatus(tasks, b) + CountStatus(tasks, c) <= |tasks|
    decreases |tasks|
  {
    if tasks != [] {
      DistinctStatusCountsBounded(tasks[1..], a, b, c);
    }
  }

  /** The counts of `GET /health`: every task, and the completed ones among them. */
  function HealthCounts(st: Store): (r: TaskCounts)
    ensures r.total == |st.tasks|
    ensures r.completed <= r.total
    ensures r.completed == |List(st, Some("completed"), None)|
  {
    TaskCounts(|st.tasks|, CountStatus(st.tasks, "completed"))
  }

  /** The counts of the dashboard at `/`: the three conventional statuses never add up to more than the total. */
  function Dashboard(st: Store): (r: DashboardStats)
    ensures r.total == |st.tasks|
    ensures r.completed + r.inProgress + r.pending <= r.total
    ensures r.completed == HealthCounts(st).completed
    ensures r.inProgress == |List(st, Some("in-progress"), None)|
    ensures r.pending == |List(st, Some("pending"), None)|
  {
    DistinctStatusCountsBounded(st.tasks, "completed", "in-progress", "pending");
    DashboardStats(
      |st.tasks|,
      CountStatus(st.tasks, "completed"),
      CountStatus(st.tasks, "in-progress"),
      CountStatus(st.tasks, "pending"))
  }
}
