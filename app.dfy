/** The application root: the task list and the player profile, with the
    handlers that create, update and delete tasks, grant experience and
    evaluate the daily streak. */
module App {
  import opened Types
  import opened Seqs

  const DEFAULT_TITLE: string := "Untitled Task"
  const DEFAULT_CATEGORY: string := "General"
  /** Experience every new task is worth. */
  const TASK_XP: int := 20
  /** Experience needed per level: level `n` is left at `n * XP_PER_LEVEL`. */
  const XP_PER_LEVEL: int := 100
  /** One day in milliseconds. */
  const DAY_MS: int := 86400000

  // ---------------------------------------------------------------------
  // Profile

  /** A profile the progression rules can work on. */
  ghost predicate WellFormed(u: UserProfile) {
    u.level >= 1 && u.completedTasks >= 0 && u.streak >= 0
  }

  /** The experience bar is partly filled: below the current level's threshold. */
  ghost predicate XpInRange(u: UserProfile) {
    0 <= u.xp < u.level * XP_PER_LEVEL
  }

  /** The profile stored on first run; `nowIso` and `nowMs` stand for the clock. */
  function InitialUser(nowIso: string, nowMs: int): (u: UserProfile)
    ensures WellFormed(u) && XpInRange(u)
    ensures u.level == 1 && u.xp == 0 && u.completedTasks == 0 && u.lastActive == nowMs
    ensures |u.badges| == 2 && !IsUnlocked(u.badges[1])
    ensures IsUnlocked(u.badges[0]) <==> nowIso != ""
  {
    UserProfile(
      "user-1", "Alex Developer", "https://picsum.photos/seed/alex/100/100",
      1, 0, 0, nowIso, 5, nowMs,
      [Badge("1", "Early Bird", "☀️", Some(nowIso)), Badge("2", "Task Master", "🎯", None)])
  }

  /** The profile after one grant of `amount` experience: at most one level is gained. */
  function GrantXp(u: UserProfile, amount: int): (r: UserProfile)
    ensures r.completedTasks == u.completedTasks + 1
    ensures r.level == u.level + 1 <==> u.xp + amount >= u.level * XP_PER_LEVEL
    ensures r.level == u.level || r.level == u.level + 1
    ensures r.xp == u.xp + amount - (r.level - u.level) * u.level * XP_PER_LEVEL
    ensures r == u.(xp := r.xp, level := r.level, completedTasks := r.completedTasks)
    ensures WellFormed(u) ==> WellFormed(r)
    ensures XpInRange(u) && u.level >= 1 && 0 <= amount <= XP_PER_LEVEL ==> XpInRange(r)
  {
    var newXp := u.xp + amount;
    var nextLevelXp := u.level * XP_PER_LEVEL;
    if newXp >= nextLevelXp then
      u.(xp := newXp - nextLevelXp, level := u.level + 1, completedTasks := u.completedTasks + 1)
    else
      u.(xp := newXp, completedTasks := u.completedTasks + 1)
  }

  /** The profile after a series of grants, applied in order. */
  function GrantAll(u: UserProfile, amounts: seq<int>): (r: UserProfile)
    ensures r.completedTasks == u.completedTasks + |amounts|
    ensures u.level <= r.level <= u.level + |amounts|
  {
    if amounts == [] then u
    else GrantXp(GrantAll(u, amounts[..|amounts| - 1]), amounts[|amounts| - 1])
  }

  lemma GrantAllSingle(u: UserProfile, amount: int)
    ensures GrantAll(u, [amount]) == GrantXp(u, amount)
  {
    assert [amount][..0] == [];
  }

  /** One grant that spans two thresholds still moves up one level only, and
      leaves the bar over-full. */
  lemma SingleLevelPerGrant()
    ensures var u := InitialUser("", 0);
      var r := GrantXp(u, 300);
      r.level == 2 && r.xp == 200 && !XpInRange(r)
  {
  }

  /** `Math.abs` on integers. */
  function Abs(x: int): (r: nat)
    ensures r == x || r == -x
    ensures x <= r && -x <= r
  {
    if x < 0 then -x else x
  }

  /** Whole days between two instants, rounded up: `Math.ceil(|now - last| / day)`. */
  function StreakDays(now: int, last: int): (days: nat)
    ensures days == 0 <==> now == last
    ensures days > 0 ==> (days - 1) * DAY_MS < Abs(now - last) <= days * DAY_MS
  {
    (Abs(now - last) + DAY_MS - 1) / DAY_MS
  }

  /** The session-start streak rule. */
  function EvaluateStreak(u: UserProfile, now: int): (r: UserProfile)
    ensures r == u || (r.lastActive == now && (r.streak == 1 || r.streak == u.streak + 1))
    ensures r == u.(streak := r.streak, lastActive := r.lastActive)
    ensures WellFormed(u) ==> WellFormed(r)
  {
    var days := StreakDays(now, u.lastActive);
    if days == 1 then u.(streak := u.streak + 1, lastActive := now)
    else if days > 1 then u.(streak := 1, lastActive := now)
    else u
  }

  lemma StreakSameInstant(u: UserProfile)
    ensures EvaluateStreak(u, u.lastActive) == u
  {
  }

  /** Any gap of more than nothing and at most one day, in either direction, continues the streak. */
  lemma StreakWithinOneDay(u: UserProfile, now: int)
    requires now != u.lastActive && Abs(now - u.lastActive) <= DAY_MS
    ensures EvaluateStreak(u, now) == u.(streak := u.streak + 1, lastActive := now)
  {
    var days := StreakDays(now, u.lastActive);
    assert days * DAY_MS >= 1 && (days - 1) * DAY_MS < DAY_MS;
  }

  /** A gap longer than one day restarts the streak at 1. */
  lemma StreakBroken(u: UserProfile, now: int)
    requires Abs(now - u.lastActive) > DAY_MS
    ensures EvaluateStreak(u, now) == u.(streak := 1, lastActive := now)
  {
    var days := StreakDays(now, u.lastActive);
    assert days * DAY_MS > DAY_MS;
  }

  /** Evaluating twice at the same instant changes nothing the second time. */
  lemma StreakIdempotent(u: UserProfile, now: int)
    ensures EvaluateStreak(EvaluateStreak(u, now), now) == EvaluateStreak(u, now)
  {
  }

  // ---------------------------------------------------------------------
  // Tasks

  function Ids(ts: seq<Task>): set<string> {
    set t | t in ts :: t.id
  }

  ghost predicate DistinctIds(ts: seq<Task>) {
    forall i, j :: 0 <= i < j < |ts| ==> ts[i].id != ts[j].id
  }

  /** Every task is worth between 0 and one level's worth of experience. */
  ghost predicate XpValuesBounded(ts: seq<Task>) {
    forall i :: 0 <= i < |ts| ==> 0 <= ts[i].xpValue <= XP_PER_LEVEL
  }

  /** `value || fallback` for an optional string: absent and empty both fall back. */
  function OrDefault(value: Option<string>, fallback: string): (r: string)
    ensures r == fallback || (value.Some? && r == value.value && r != "")
    ensures value.Some? && value.value != "" ==> r == value.value
    ensures value.None? || value.value == "" ==> r == fallback
  {
    if value.Some? && value.value != "" then value.value else fallback
  }

  /** The task `addTask` builds from a partial task; `id`, `createdAt` and
      `today` stand for the generated identifier and the clock. */
  function NewTask(newTask: TaskPatch, id: string, createdAt: string, today: string): (t: Task)
    ensures t.id == id && t.createdAt == createdAt
    ensures t.status == TODO && t.xpValue == TASK_XP && t.assignedTo == None
    ensures t.title != "" && t.category != ""
  {
    Task(
      id,
      OrDefault(newTask.title, DEFAULT_TITLE),
      OrDefault(newTask.description, ""),
      newTask.priority.GetOr(MEDIUM),
      TODO,
      OrDefault(newTask.dueDate, today),
      createdAt,
      newTask.tags.GetOr([]),
      OrDefault(newTask.category, DEFAULT_CATEGORY),
      newTask.subtasks.GetOr([]),
      None,
      TASK_XP)
  }

  /** With nothing given, every field takes its default. */
  lemma NewTaskDefaults(id: string, createdAt: string, today: string)
    ensures NewTask(EmptyPatch, id, createdAt, today)
         == Task(id, "Untitled Task", "", MEDIUM, TODO, today, createdAt, [], "General", [], None, 20)
  {
  }

  /** Given non-empty fields are kept, whatever status and experience are asked for. */
  lemma NewTaskKeepsGiven(newTask: TaskPatch, id: string, createdAt: string, today: string)
    ensures var t := NewTask(newTask, id, createdAt, today);
      && (newTask.title.Some? && newTask.title.value != "" ==> t.title == newTask.title.value)
      && (newTask.title.None? || newTask.title.value == "" ==> t.title == "Untitled Task")
      && (newTask.category.Some? && newTask.category.value != "" ==> t.category == newTask.category.value)
      && (newTask.category.None? || newTask.category.value == "" ==> t.category == "General")
      && (newTask.description.Some? ==> t.description == newTask.description.value)
      && (newTask.description.None? ==> t.description == "")
      && (newTask.dueDate.Some? && newTask.dueDate.value != "" ==> t.dueDate == newTask.dueDate.value)
      && (newTask.dueDate.None? || newTask.dueDate.value == "" ==> t.dueDate == today)
      && (newTask.priority.Some? ==> t.priority == newTask.priority.value)
      && (newTask.priority.None? ==> t.priority == MEDIUM)
      && (newTask.tags.Some? ==> t.tags == newTask.tags.value)
      && (newTask.subtasks.Some? ==> t.subtasks == newTask.subtasks.value)
  {
  }

  /** `{ ...t, ...updates }`: fields present in the patch override the task's. */
  function Merge(t: Task, updates: TaskPatch): (r: Task)
    ensures r.id == t.id
  {
    Task(
      t.id,
      updates.title.GetOr(t.title),
      updates.description.GetOr(t.description),
      updates.priority.GetOr(t.priority),
      updates.status.GetOr(t.status),
      updates.dueDate.GetOr(t.dueDate),
      updates.createdAt.GetOr(t.createdAt),
      updates.tags.GetOr(t.tags),
      updates.category.GetOr(t.category),
      updates.subtasks.GetOr(t.subtasks),
      if updates.assignedTo.Some? then updates.assignedTo else t.assignedTo,
      updates.xpValue.GetOr(t.xpValue))
  }

  /** An empty patch is the identity; a status patch changes the status only;
      applying a patch twice is applying it once. */
  lemma MergeLaws(t: Task, updates: TaskPatch, s: TaskStatus)
    ensures Merge(t, EmptyPatch) == t
    ensures Merge(t, StatusPatch(s)) == t.(status := s)
    ensures Merge(Merge(t, updates), updates) == Merge(t, updates)
  {
  }

  /** The update grants experience: it asks for COMPLETED and the task was not.
      That is exactly an update whose merge moves the task into COMPLETED. */
  predicate Completes(t: Task, updates: TaskPatch)
    ensures Completes(t, updates) <==> t.status != COMPLETED && Merge(t, updates).status == COMPLETED
  {
    updates.status == Some(COMPLETED) && t.status != COMPLETED
  }

  /** The list `updateTask` stores: matching tasks merged, the rest untouched. */
  function UpdatedTasks(ts: seq<Task>, id: string, updates: TaskPatch): (r: seq<Task>)
    ensures |r| == |ts|
    ensures forall i :: 0 <= i < |ts| ==> r[i].id == ts[i].id
  {
    seq(|ts|, i requires 0 <= i < |ts| => if ts[i].id == id then Merge(ts[i], updates) else ts[i])
  }

  /** The experience amounts `updateTask` grants, in list order: the pre-update
      `xpValue` of each matching task the update completes. */
  function Grants(ts: seq<Task>, id: string, updates: TaskPatch): (amounts: seq<int>)
    ensures |amounts| <= |ts|
  {
    if ts == [] then []
    else
      var t := ts[|ts| - 1];
      Grants(ts[..|ts| - 1], id, updates) + (if t.id == id && Completes(t, updates) then [t.xpValue] else [])
  }

  lemma {:induction false} GrantsAbsent(ts: seq<Task>, id: string, updates: TaskPatch)
    requires forall i :: 0 <= i < |ts| ==> ts[i].id != id
    ensures Grants(ts, id, updates) == []
    decreases |ts|
  {
    if ts != [] {
      GrantsAbsent(ts[..|ts| - 1], id, updates);
    }
  }

  /** An update that does not ask for COMPLETED (a move to TODO or IN_PROGRESS,
      an edit) grants nothing and takes nothing away. */
  lemma {:induction false} GrantsOnlyOnCompletion(ts: seq<Task>, id: string, updates: TaskPatch)
    requires updates.status != Some(COMPLETED)
    ensures Grants(ts, id, updates) == []
    decreases |ts|
  {
    if ts != [] {
      GrantsOnlyOnCompletion(ts[..|ts| - 1], id, updates);
    }
  }

  /** With distinct ids, the update of the task at `k` grants its pre-update
      experience exactly when it completes it, and nothing otherwise. */
  lemma {:induction false} GrantsAt(ts: seq<Task>, id: string, updates: TaskPatch, k: int)
    requires DistinctIds(ts) && 0 <= k < |ts| && ts[k].id == id
    ensures Grants(ts, id, updates) == if Completes(ts[k], updates) then [ts[k].xpValue] else []
    decreases |ts|
  {
    var n := |ts| - 1;
    var init := ts[..n];
    assert Grants(ts, id, updates)
      == Grants(init, id, updates) + (if ts[n].id == id && Completes(ts[n], updates) then [ts[n].xpValue] else []);
    if k == n {
      assert forall i :: 0 <= i < |init| ==> init[i].id != id by {
        forall i | 0 <= i < |init| ensures init[i].id != id {
          assert init[i] == ts[i];
        }
      }
      GrantsAbsent(init, id, updates);
    } else {
      assert DistinctIds(init) by {
        forall i, j | 0 <= i < j < |init| ensures init[i].id != init[j].id {
          assert init[i] == ts[i] && init[j] == ts[j];
        }
      }
      assert init[k] == ts[k];
      assert ts[n].id != id;
      GrantsAt(init, id, updates, k);
    }
  }

  /** The profile after `updateTask(id, updates)` on a list with distinct ids. */
  lemma UpdateGrant(u: UserProfile, ts: seq<Task>, id: string, updates: TaskPatch)
    requires DistinctIds(ts)
    ensures id !in Ids(ts) ==> GrantAll(u, Grants(ts, id, updates)) == u
    ensures forall k :: 0 <= k < |ts| && ts[k].id == id ==>
      GrantAll(u, Grants(ts, id, updates))
        == if Completes(ts[k], updates) then GrantXp(u, ts[k].xpValue) else u
  {
    if id !in Ids(ts) {
      forall i | 0 <= i < |ts| ensures ts[i].id != id {
        assert ts[i] in ts;
      }
      GrantsAbsent(ts, id, updates);
    }
    forall k | 0 <= k < |ts| && ts[k].id == id
      ensures GrantAll(u, Grants(ts, id, updates))
        == if Completes(ts[k], updates) then GrantXp(u, ts[k].xpValue) else u
    {
      GrantsAt(ts, id, updates, k);
      GrantAllSingle(u, ts[k].xpValue);
    }
  }

  lemma UpdatedTasksStep(ts: seq<Task>, i: int, id: string, updates: TaskPatch)
    requires 0 <= i < |ts|
    ensures UpdatedTasks(ts[..i + 1], id, updates)
         == UpdatedTasks(ts[..i], id, updates) + [if ts[i].id == id then Merge(ts[i], updates) else ts[i]]
  {
  }

  lemma GrantsStep(ts: seq<Task>, i: int, id: string, updates: TaskPatch)
    requires 0 <= i < |ts|
    ensures Grants(ts[..i + 1], id, updates)
         == Grants(ts[..i], id, updates) + (if ts[i].id == id && Completes(ts[i], updates) then [ts[i].xpValue] else [])
  {
    assert ts[..i + 1][..i] == ts[..i];
  }

  lemma GrantAllStep(u: UserProfile, amounts: seq<int>, more: seq<int>)
    requires |more| <= 1
    ensures GrantAll(u, amounts + more) == if more == [] then GrantAll(u, amounts) else GrantXp(GrantAll(u, amounts), more[0])
  {
    if more == [] {
      assert amounts + more == amounts;
    } else {
      assert (amounts + more)[..|amounts|] == amounts;
    }
  }

  /** Updating keeps the ids, so it keeps them distinct. */
  lemma UpdateKeepsDistinct(ts: seq<Task>, id: string, updates: TaskPatch)
    requires DistinctIds(ts)
    ensures DistinctIds(UpdatedTasks(ts, id, updates))
  {
  }

  /** With bounded task values, an update keeps the experience bar in range. */
  lemma UpdateKeepsXpInRange(u: UserProfile, ts: seq<Task>, id: string, updates: TaskPatch)
    requires DistinctIds(ts) && WellFormed(u) && XpInRange(u) && XpValuesBounded(ts)
    ensures XpInRange(GrantAll(u, Grants(ts, id, updates)))
  {
    UpdateGrant(u, ts, id, updates);
    if id in Ids(ts) {
      var t :| t in ts && t.id == id;
      var k :| 0 <= k < |ts| && ts[k] == t;
    }
  }

  /** An update of an absent id leaves the list as it was. */
  lemma UpdateAbsent(ts: seq<Task>, id: string, updates: TaskPatch)
    requires id !in Ids(ts)
    ensures UpdatedTasks(ts, id, updates) == ts
  {
    forall i | 0 <= i < |ts| ensures ts[i].id != id {
      assert ts[i] in ts;
    }
  }

  /** `t => t.id !== id` */
  function IdIsNot(id: string): Task -> bool {
    (t: Task) => t.id != id
  }

  /** The list `deleteTask` stores. */
  function WithoutId(ts: seq<Task>, id: string): (r: seq<Task>)
    ensures forall i :: 0 <= i < |r| ==> r[i].id != id && r[i] in ts
    ensures forall i :: 0 <= i < |ts| && ts[i].id != id ==> ts[i] in r
    ensures id !in Ids(r)
  {
    Filter(ts, IdIsNot(id))
  }

  /** Deleting keeps the other tasks in their order; deleting an absent id changes nothing. */
  lemma DeleteKeepsOrder(ts: seq<Task>, id: string)
    ensures IsSubsequence(WithoutId(ts, id), ts)
    ensures id !in Ids(ts) ==> WithoutId(ts, id) == ts
  {
    FilterIsSubsequence(ts, IdIsNot(id));
    if id !in Ids(ts) {
      forall i | 0 <= i < |ts| ensures IdIsNot(id)(ts[i]) {
        assert ts[i] in ts;
      }
      FilterKeepsAll(ts, IdIsNot(id));
    }
  }

  // ---------------------------------------------------------------------
  // The application state

  class TickitApp {
    var tasks: seq<Task>
    var user: UserProfile

    ghost predicate Valid()
      reads this
    {
      DistinctIds(tasks) && WellFormed(user)
    }

    /** First run: empty list and the initial profile. */
    constructor (nowIso: string, nowMs: int)
      ensures Valid()
      ensures tasks == [] && user == InitialUser(nowIso, nowMs)
    {
      tasks := [];
      user := InitialUser(nowIso, nowMs);
    }

    /** The streak effect, run once when a session starts at `now`. */
    method StartSession(now: int)
      requires Valid()
      modifies this
      ensures Valid()
      ensures tasks == old(tasks) && user == EvaluateStreak(old(user), now)
    {
      user := EvaluateStreak(user, now);
    }

    /** `addTask`: the new task goes first, the rest follow unchanged. */
    method AddTask(newTask: TaskPatch, id: string, createdAt: string, today: string)
      requires Valid() && id !in Ids(tasks)
      modifies this
      ensures Valid()
      ensures tasks == [NewTask(newTask, id, createdAt, today)] + old(tasks)
      ensures |tasks| == |old(tasks)| + 1 && tasks[1..] == old(tasks)
      ensures user == old(user)
    {
      forall i | 0 <= i < |tasks| ensures tasks[i].id != id {
        assert tasks[i] in tasks;
      }
      var task := NewTask(newTask, id, createdAt, today);
      tasks := [task] + tasks;
    }

    /** `handleXpGain` */
    method HandleXpGain(amount: int)
      requires Valid()
      modifies this
      ensures Valid()
      ensures tasks == old(tasks) && user == GrantXp(old(user), amount)
    {
      user := GrantXp(user, amount);
    }

    /** `updateTask`: merges `updates` into the task with that id and grants
        its experience when the update completes it. */
    method UpdateTask(id: string, updates: TaskPatch)
      requires Valid()
      modifies this
      ensures Valid()
      ensures tasks == UpdatedTasks(old(tasks), id, updates)
      ensures user == GrantAll(old(user), Grants(old(tasks), id, updates))
      ensures id !in Ids(old(tasks)) ==> tasks == old(tasks) && user == old(user)
      ensures forall k :: 0 <= k < |old(tasks)| && old(tasks)[k].id == id ==>
        user == if Completes(old(tasks)[k], updates) then GrantXp(old(user), old(tasks)[k].xpValue) else old(user)
      ensures XpInRange(old(user)) && XpValuesBounded(old(tasks)) ==> XpInRange(user)
    {
      ghost var before := tasks;
      var result: seq<Task> := [];
      var i := 0;
      while i < |tasks|
        invariant Valid() && tasks == before
        invariant 0 <= i <= |tasks|
        invariant result == UpdatedTasks(tasks[..i], id, updates)
        invariant user == GrantAll(old(user), Grants(tasks[..i], id, updates))
      {
        var t := tasks[i];
        UpdatedTasksStep(tasks, i, id, updates);
        GrantsStep(tasks, i, id, updates);
        GrantAllStep(old(user), Grants(tasks[..i], id, updates),
          if t.id == id && Completes(t, updates) then [t.xpValue] else []);
        if t.id == id {
          var updated := Merge(t, updates);
          if updates.status == Some(COMPLETED) && t.status != COMPLETED {
            HandleXpGain(t.xpValue);
          }
          result := result + [updated];
        } else {
          result := result + [t];
        }
        i := i + 1;
      }
      assert tasks[..i] == tasks;
      UpdateGrant(old(user), tasks, id, updates);
      UpdateKeepsDistinct(tasks, id, updates);
      if XpInRange(old(user)) && XpValuesBounded(tasks) {
        UpdateKeepsXpInRange(old(user), tasks, id, updates);
      }
      if id !in Ids(tasks) {
        UpdateAbsent(tasks, id, updates);
      }
      tasks := result;
    }

    /** `deleteTask` */
    method DeleteTask(id: string)
      requires Valid()
      modifies this
      ensures Valid()
      ensures tasks == WithoutId(old(tasks), id) && user == old(user)
      ensures IsSubsequence(tasks, old(tasks)) && id !in Ids(tasks)
      ensures id !in Ids(old(tasks)) ==> tasks == old(tasks)
    {
      DeleteKeepsOrder(tasks, id);
      SubsequenceKeepsDistinct(WithoutId(tasks, id), tasks);
      tasks := WithoutId(tasks, id);
    }

    /** Completing a task from the focus view: `updateTask(id, { status: COMPLETED })`. */
    method CompleteTask(id: string)
      requires Valid()
      modifies this
      ensures Valid()
      ensures tasks == UpdatedTasks(old(tasks), id, StatusPatch(COMPLETED))
      ensures user == GrantAll(old(user), Grants(old(tasks), id, StatusPatch(COMPLETED)))
      ensures id !in Ids(old(tasks)) ==> tasks == old(tasks) && user == old(user)
      ensures forall k :: 0 <= k < |old(tasks)| && old(tasks)[k].id == id ==>
        tasks[k] == old(tasks)[k].(status := COMPLETED) &&
        user == if old(tasks)[k].status != COMPLETED then GrantXp(old(user), old(tasks)[k].xpValue) else old(user)
    {
      UpdateTask(id, StatusPatch(COMPLETED));
      forall k | 0 <= k < |old(tasks)| && old(tasks)[k].id == id
        ensures tasks[k] == old(tasks)[k].(status := COMPLETED)
      {
        MergeLaws(old(tasks)[k], EmptyPatch, COMPLETED);
      }
    }
  }

  /** Deleting elements keeps the ids of the rest distinct. */
  lemma {:induction false} SubsequenceKeepsDistinct(a: seq<Task>, b: seq<Task>)
    requires IsSubsequence(a, b) && DistinctIds(b)
    ensures DistinctIds(a)
    decreases |b|
  {
    if a != [] && b != [] {
      if a[0] == b[0] && IsSubsequence(a[1..], b[1..]) {
        SubsequenceKeepsDistinct(a[1..], b[1..]);
        SubsequenceMembers(a[1..], b[1..]);
        forall j | 0 < j < |a| ensures a[0].id != a[j].id {
          assert a[j] == a[1..][j - 1];
        }
      } else {
        SubsequenceKeepsDistinct(a, b[1..]);
      }
    }
  }

  lemma {:induction false} SubsequenceMembers(a: seq<Task>, b: seq<Task>)
    requires IsSubsequence(a, b)
    ensures forall i :: 0 <= i < |a| ==> exists j :: 0 <= j < |b| && b[j] == a[i]
    decreases |b|
  {
    if a != [] && b != [] {
      if a[0] == b[0] && IsSubsequence(a[1..], b[1..]) {
        SubsequenceMembers(a[1..], b[1..]);
        forall i | 0 < i < |a| ensures exists j :: 0 <= j < |b| && b[j] == a[i] {
          assert a[i] == a[1..][i - 1];
          var j :| 0 <= j < |b[1..]| && b[1..][j] == a[1..][i - 1];
          assert b[j + 1] == a[i];
        }
      } else {
        SubsequenceMembers(a, b[1..]);
        forall i | 0 <= i < |a| ensures exists j :: 0 <= j < |b| && b[j] == a[i] {
          var j :| 0 <= j < |b[1..]| && b[1..][j] == a[i];
          assert b[j + 1] == a[i];
        }
      }
    }
  }
}
