/** The task list view: the search-and-filter query, the request built when a
    new task is saved, and the completion toggle. */
module TaskView {
  import opened Types
  import opened Seqs
  import opened Text
  import opened App

  /** The status selector: everything, or one status. */
  datatype StatusFilter = AllStatuses | OnlyStatus(status: TaskStatus)

  /** The priority selector: everything, or one priority. */
  datatype PriorityFilter = AllPriorities | OnlyPriority(priority: Priority)

  /** The query occurs, ignoring case, in the title, the description or the
      category; the empty query occurs in every task. */
  predicate QueryMatches(t: Task, query: string)
    ensures query == [] ==> QueryMatches(t, query)
  {
    var q := ToLower(query);
    assert q == [] ==> StartsWith(ToLower(t.title), q);
    Contains(ToLower(t.title), q) || Contains(ToLower(t.description), q) || Contains(ToLower(t.category), q)
  }

  predicate StatusMatches(t: Task, filter: StatusFilter) {
    filter == AllStatuses || filter == OnlyStatus(t.status)
  }

  predicate PriorityMatches(t: Task, filter: PriorityFilter) {
    filter == AllPriorities || filter == OnlyPriority(t.priority)
  }

  /** The three criteria of the list view, all of which must hold: a selected
      status or priority admits only tasks that have it, and no criteria at all
      admit every task. */
  predicate Shown(t: Task, query: string, status: StatusFilter, priority: PriorityFilter)
    ensures Shown(t, query, status, priority) && status.OnlyStatus? ==> t.status == status.status
    ensures Shown(t, query, status, priority) && priority.OnlyPriority? ==> t.priority == priority.priority
    ensures query == [] && status == AllStatuses && priority == AllPriorities ==> Shown(t, query, status, priority)
  {
    QueryMatches(t, query) && StatusMatches(t, status) && PriorityMatches(t, priority)
  }

  function ShownBy(query: string, status: StatusFilter, priority: PriorityFilter): Task -> bool {
    t => Shown(t, query, status, priority)
  }

  /** `filteredTasks`: the tasks that meet every criterion, in list order. */
  function FilteredTasks(ts: seq<Task>, query: string, status: StatusFilter, priority: PriorityFilter): (r: seq<Task>)
    ensures |r| <= |ts|
    ensures forall i :: 0 <= i < |r| ==> r[i] in ts && Shown(r[i], query, status, priority)
    ensures forall i :: 0 <= i < |ts| && Shown(ts[i], query, status, priority) ==> ts[i] in r
    ensures IsSubsequence(r, ts)
  {
    FilterIsSubsequence(ts, ShownBy(query, status, priority));
    Filter(ts, ShownBy(query, status, priority))
  }

  /** No search text and both selectors on ALL: the whole list, unchanged. */
  lemma NoCriteriaShowsAll(ts: seq<Task>)
    ensures FilteredTasks(ts, "", AllStatuses, AllPriorities) == ts
  {
    assert forall i :: 0 <= i < |ts| ==> ShownBy("", AllStatuses, AllPriorities)(ts[i]);
    FilterKeepsAll(ts, ShownBy("", AllStatuses, AllPriorities));
  }

  /** Filtering the filtered list again with the same criteria changes nothing. */
  lemma FilteredTasksIdempotent(ts: seq<Task>, query: string, status: StatusFilter, priority: PriorityFilter)
    ensures FilteredTasks(FilteredTasks(ts, query, status, priority), query, status, priority)
         == FilteredTasks(ts, query, status, priority)
  {
    FilterIdempotent(ts, ShownBy(query, status, priority));
  }

  /** `handleSave`: the partial task handed to `addTask`; the priority is the
      selected filter, or MEDIUM when the filter is ALL. */
  function SaveRequest(title: string, description: string, category: string, priority: PriorityFilter): (p: TaskPatch)
    ensures p.priority.Some? && p.title == Some(title) && p.category == Some(category)
    ensures p.status.None? && p.xpValue.None?
  {
    EmptyPatch.(
      title := Some(title),
      description := Some(description),
      category := Some(category),
      priority := Some(if priority == AllPriorities then MEDIUM else priority.priority))
  }

  /** The task a save creates: the selected priority (MEDIUM under ALL), the
      chosen category ("General" if empty), the title or "Untitled Task", a new
      TODO task worth 20. */
  lemma SavedTask(title: string, description: string, category: string, priority: PriorityFilter,
                  id: string, createdAt: string, today: string)
    ensures var t := NewTask(SaveRequest(title, description, category, priority), id, createdAt, today);
      && t.priority == (if priority == AllPriorities then MEDIUM else priority.priority)
      && t.category == (if category == "" then "General" else category)
      && t.title == (if title == "" then "Untitled Task" else title)
      && t.description == description
      && t.status == TODO && t.xpValue == 20
  {
  }

  /** The check button: COMPLETED goes back to TODO, anything else becomes COMPLETED. */
  function Toggle(s: TaskStatus): (r: TaskStatus)
    ensures r == COMPLETED <==> s != COMPLETED
    ensures r == TODO || r == COMPLETED
  {
    if s == COMPLETED then TODO else COMPLETED
  }

  /** The update the check button sends for a task: it flips the status between
      COMPLETED and TODO, and it earns experience exactly when the task was open. */
  function ToggleRequest(t: Task): (r: TaskPatch)
    ensures Merge(t, r) == t.(status := Toggle(t.status))
    ensures Completes(t, r) <==> t.status != COMPLETED
  {
    StatusPatch(Toggle(t.status))
  }

  /** Un-checking and re-checking a completed task grants its experience again:
      the first click grants nothing, the second grants the full `xpValue`. */
  lemma {:induction false} ToggleTwiceRegrants(u: UserProfile, ts: seq<Task>, k: int)
    requires DistinctIds(ts) && 0 <= k < |ts| && ts[k].status == COMPLETED
    ensures var id := ts[k].id;
      var ts1 := UpdatedTasks(ts, id, ToggleRequest(ts[k]));
      var u1 := GrantAll(u, Grants(ts, id, ToggleRequest(ts[k])));
      var ts2 := UpdatedTasks(ts1, id, ToggleRequest(ts1[k]));
      var u2 := GrantAll(u1, Grants(ts1, id, ToggleRequest(ts1[k])));
      && u1 == u && ts1[k].status == TODO
      && ts2[k] == ts[k] && u2 == GrantXp(u, ts[k].xpValue)
      && u2.completedTasks == u.completedTasks + 1
  {
    var id := ts[k].id;
    var ts1 := UpdatedTasks(ts, id, ToggleRequest(ts[k]));
    MergeLaws(ts[k], EmptyPatch, TODO);
    GrantsOnlyOnCompletion(ts, id, ToggleRequest(ts[k]));
    UpdateKeepsDistinct(ts, id, ToggleRequest(ts[k]));
    MergeLaws(ts1[k], EmptyPatch, COMPLETED);
    UpdateGrant(u, ts1, id, ToggleRequest(ts1[k]));
  }
}
