/** The dashboard: task counts, total experience, the quick-add box, the
    recent-activity list, the badge count and the greeting. */
module Dashboard {
  import opened Types
  import opened Seqs
  import opened Text
  import opened App

  predicate IsPending(t: Task) {
    t.status != COMPLETED
  }

  predicate IsCompleted(t: Task) {
    t.status == COMPLETED
  }

  /** The "Pending" card: tasks not completed. */
  function PendingCount(ts: seq<Task>): (n: nat)
    ensures n <= |ts|
  {
    CountIf(ts, IsPending)
  }

  /** The "Completed" card. */
  function CompletedCount(ts: seq<Task>): (n: nat)
    ensures n <= |ts|
  {
    CountIf(ts, IsCompleted)
  }

  /** Every task is counted on exactly one of the two cards. */
  lemma PendingPlusCompleted(ts: seq<Task>)
    ensures PendingCount(ts) + CompletedCount(ts) == |ts|
  {
    CountsPartition(ts, IsPending, IsCompleted);
  }

  /** Completing a pending task moves it from one card to the other. */
  lemma CompletingMovesBetweenCards(ts: seq<Task>, k: int)
    requires DistinctIds(ts) && 0 <= k < |ts| && ts[k].status != COMPLETED
    ensures var after := UpdatedTasks(ts, ts[k].id, StatusPatch(COMPLETED));
      CompletedCount(after) == CompletedCount(ts) + 1 && PendingCount(after) + 1 == PendingCount(ts)
  {
    var after := UpdatedTasks(ts, ts[k].id, StatusPatch(COMPLETED));
    forall i | 0 <= i < |ts| && i != k ensures after[i] == ts[i] {
    }
    MergeLaws(ts[k], EmptyPatch, COMPLETED);
    CompletedCountSwap(ts, after, k);
    PendingPlusCompleted(ts);
    PendingPlusCompleted(after);
  }

  /** Two lists that differ only at `k`, where a pending task became completed. */
  lemma {:induction false} CompletedCountSwap(a: seq<Task>, b: seq<Task>, k: int)
    requires |a| == |b| && 0 <= k < |a|
    requires forall i :: 0 <= i < |a| && i != k ==> a[i] == b[i]
    requires !IsCompleted(a[k]) && IsCompleted(b[k])
    ensures CompletedCount(b) == CompletedCount(a) + 1
    decreases |a|
  {
    if k == 0 {
      assert a[1..] == b[1..];
    } else {
      CompletedCountSwap(a[1..], b[1..], k - 1);
      assert a[0] == b[0];
    }
  }

  /** The "Total XP" card as the dashboard computes it: the bar's experience
      plus 100 for every level left behind. It falls short of the experience
      earned by `50 * (level - 1) * (level - 2)`. */
  function DisplayedTotalXp(u: UserProfile): (r: int)
    ensures u.level >= 1 ==> r + 50 * (u.level - 1) * (u.level - 2) == EarnedTotalXp(u)
  {
    u.xp + (u.level - 1) * 100
  }

  /** The displayed total drops when a grant crosses the level-2 threshold:
      290 before completing a 20-XP task, 210 after. */
  lemma DisplayedTotalXpDrops()
    ensures var u := InitialUser("", 0).(level := 2, xp := 190);
      XpInRange(u) && DisplayedTotalXp(u) == 290
      && GrantXp(u, 20) == u.(level := 3, xp := 10, completedTasks := 1)
      && DisplayedTotalXp(GrantXp(u, 20)) == 210
  {
  }

  /** The experience it takes to reach `level` from level 1: level `n` is
      left after `n * 100`, so 100 + 200 + ... + (level - 1) * 100. */
  function LevelFloorXp(level: int): (r: int)
    requires level >= 1
    ensures r == 50 * level * (level - 1)
  {
    if level == 1 then 0 else LevelFloorXp(level - 1) + (level - 1) * XP_PER_LEVEL
  }

  /** Total experience earned: what the levels left behind cost, plus the bar. */
  function EarnedTotalXp(u: UserProfile): int
    requires u.level >= 1
  {
    LevelFloorXp(u.level) + u.xp
  }

  /** Every grant raises the earned total by exactly the amount granted. */
  lemma EarnedTotalXpGrows(u: UserProfile, amount: int)
    requires u.level >= 1
    ensures EarnedTotalXp(GrantXp(u, amount)) == EarnedTotalXp(u) + amount
  {
  }

  /** Up to level 2 the two totals agree. */
  lemma TotalsAgreeBelowLevelThree(u: UserProfile)
    requires 1 <= u.level <= 2
    ensures EarnedTotalXp(u) == DisplayedTotalXp(u)
  {
  }

  /** The three cards. */
  datatype Stats = Stats(pending: nat, completed: nat, totalXp: int)

  function DashboardStats(ts: seq<Task>, u: UserProfile): (r: Stats)
    requires u.level >= 1
    ensures r.pending + r.completed == |ts|
    ensures r.totalXp == EarnedTotalXp(u)
  {
    PendingPlusCompleted(ts);
    Stats(PendingCount(ts), CompletedCount(ts), EarnedTotalXp(u))
  }

  /** The three cards as the dashboard shows them: the same counts, and the
      Total XP card's own formula, which agrees with the earned total only up
      to level 2. */
  function DisplayedStats(ts: seq<Task>, u: UserProfile): (r: Stats)
    requires u.level >= 1
    ensures r.pending == DashboardStats(ts, u).pending && r.completed == DashboardStats(ts, u).completed
    ensures r.totalXp + 50 * (u.level - 1) * (u.level - 2) == DashboardStats(ts, u).totalXp
    ensures r == DashboardStats(ts, u) <==> u.level <= 2
  {
    DashboardStats(ts, u).(totalXp := DisplayedTotalXp(u))
  }

  /** What submitting the quick-add box does: the request for `addTask`, if
      any, and the text left in the box. */
  datatype QuickAdd = QuickAdd(request: Option<TaskPatch>, input: string)

  /** `handleQuickAdd`: blank text adds nothing and stays; otherwise a task with
      that text as its title is requested and the box is cleared. */
  function SubmitQuickAdd(input: string): (r: QuickAdd)
    ensures r.request.None? <==> forall i :: 0 <= i < |input| ==> IsWhitespace(input[i])
    ensures r.request.None? ==> r.input == input
    ensures r.request.Some? ==> r.request.value == EmptyPatch.(title := Some(input)) && r.input == ""
  {
    TrimEmptyIffBlank(input);
    if Trim(input) == [] then QuickAdd(None, input)
    else QuickAdd(Some(EmptyPatch.(title := Some(input))), "")
  }

  /** A quick-added task carries the typed text, untrimmed, as its title. */
  lemma QuickAddTitle(input: string, id: string, createdAt: string, today: string)
    requires SubmitQuickAdd(input).request.Some?
    ensures var t := NewTask(SubmitQuickAdd(input).request.value, id, createdAt, today);
      t.title == input && t.status == TODO && t.priority == MEDIUM && t.category == "General"
  {
  }

  /** The recent-activity list: the first five tasks. */
  function RecentTasks(ts: seq<Task>): (r: seq<Task>)
    ensures |r| == if |ts| < 5 then |ts| else 5
    ensures r == ts[..|r|]
  {
    if |ts| < 5 then ts else ts[..5]
  }

  /** "No tasks yet." appears exactly when the recent list is empty. */
  predicate ShowsNoTasksMessage(ts: seq<Task>) {
    |ts| == 0
  }

  lemma NoTasksMessageIffNothingRecent(ts: seq<Task>)
    ensures ShowsNoTasksMessage(ts) <==> RecentTasks(ts) == []
  {
  }

  /** The achievements header: how many badges are unlocked. */
  function UnlockedCount(badges: seq<Badge>): (n: nat)
    ensures n <= |badges|
    ensures n == |badges| <==> forall i :: 0 <= i < |badges| ==> IsUnlocked(badges[i])
    ensures n == 0 <==> forall i :: 0 <= i < |badges| ==> !IsUnlocked(badges[i])
  {
    UnlockedCountSpec(badges);
    CountIf(badges, IsUnlocked)
  }

  lemma {:induction false} UnlockedCountSpec(badges: seq<Badge>)
    ensures CountIf(badges, IsUnlocked) == |badges| <==> forall i :: 0 <= i < |badges| ==> IsUnlocked(badges[i])
    ensures CountIf(badges, IsUnlocked) == 0 <==> forall i :: 0 <= i < |badges| ==> !IsUnlocked(badges[i])
    decreases |badges|
  {
    if badges != [] {
      UnlockedCountSpec(badges[1..]);
      assert forall i :: 1 <= i < |badges| ==> badges[i] == badges[1..][i - 1];
    }
  }

  /** The greeting name: `name.split(' ')[0]`, the text before the first space. */
  function FirstName(name: string): (r: string)
    ensures |r| <= |name| && r == name[..|r|]
    ensures forall i :: 0 <= i < |r| ==> r[i] != ' '
    ensures |r| < |name| ==> name[|r|] == ' '
  {
    if name == [] || name[0] == ' ' then [] else [name[0]] + FirstName(name[1..])
  }
}
