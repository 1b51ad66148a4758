/** The records and enumerations shared by every view of the application. */
module Types {

  datatype Option<+T> = None | Some(value: T) {
    /** The wrapped value, or `default` when absent. */
    function GetOr(default: T): T {
      match this
      case Some(v) => v
      case None => default
    }
  }

  /** Priority of a task: exactly four values. */
  datatype Priority = LOW | MEDIUM | HIGH | URGENT

  /** Lifecycle state of a task: exactly three values. */
  datatype TaskStatus = TODO | IN_PROGRESS | COMPLETED

  datatype SubTask = SubTask(id: string, title: string, isCompleted: bool)

  /** A task. `assignedTo` is the only optional field. Timestamps and due
      dates are kept as the opaque text the application stores. */
  datatype Task = Task(
    id: string,
    title: string,
    description: string,
    priority: Priority,
    status: TaskStatus,
    dueDate: string,
    createdAt: string,
    tags: seq<string>,
    category: string,
    subtasks: seq<SubTask>,
    assignedTo: Option<string>,
    xpValue: int)

  /** A badge is locked when `unlockedAt` is absent or empty: the source tests
      the string's truthiness. */
  datatype Badge = Badge(id: string, name: string, icon: string, unlockedAt: Option<string>)

  predicate IsUnlocked(b: Badge) {
    b.unlockedAt.Some? && b.unlockedAt.value != ""
  }

  /** The player profile. `lastActive` is a time in milliseconds. */
  datatype UserProfile = UserProfile(
    id: string,
    name: string,
    avatar: string,
    level: int,
    xp: int,
    completedTasks: int,
    joinedDate: string,
    streak: int,
    lastActive: int,
    badges: seq<Badge>)

  /** A partial task, as passed to the create and update handlers: every
      field may be absent. */
  datatype TaskPatch = TaskPatch(
    title: Option<string>,
    description: Option<string>,
    priority: Option<Priority>,
    status: Option<TaskStatus>,
    dueDate: Option<string>,
    createdAt: Option<string>,
    tags: Option<seq<string>>,
    category: Option<string>,
    subtasks: Option<seq<SubTask>>,
    assignedTo: Option<string>,
    xpValue: Option<int>)

  const EmptyPatch: TaskPatch :=
    TaskPatch(None, None, None, None, None, None, None, None, None, None, None)

  /** The patch `{ status: s }`. */
  function StatusPatch(s: TaskStatus): TaskPatch {
    EmptyPatch.(status := Some(s))
  }
}
