/** The task list: per-task claim status, the claim write, and the tab views. */
module Tasks {
  import opened Common
  import opened Records
  import opened Firebase
  import opened AuthContext

  datatype TaskType = Limited | InGame | Partners

  /** A task document, with `completed` set from the session's list of completed tasks when loaded. */
  datatype Task = Task(
    id: string,
    name: string,
    reward: int,
    icon: string,
    kind: TaskType,
    link: Option<string>,
    completed: bool)

  /** The button state of one task. */
  datatype TaskStatus = Idle | Checking | Claiming | Completed {
    /** Position in the order idle < checking < claiming < completed. */
    function Stage(): nat {
      match this
      case Idle => 0
      case Checking => 1
      case Claiming => 2
      case Completed => 3
    }
  }

  function InitialStatus(t: Task): TaskStatus {
    if t.completed then Completed else Idle
  }

  function IdsOf(tasks: seq<Task>): set<string> {
    set i | 0 <= i < |tasks| :: tasks[i].id
  }

  /** The loaded tasks: each fetched task marked completed exactly when the session lists its id. */
  function MarkCompleted(fetched: seq<Task>, completedTasks: seq<string>): (r: seq<Task>)
    ensures |r| == |fetched|
    ensures forall i :: 0 <= i < |r| ==> r[i] == fetched[i].(completed := fetched[i].id in completedTasks)
  {
    seq(|fetched|, i requires 0 <= i < |fetched| => fetched[i].(completed := fetched[i].id in completedTasks))
  }

  /** The status map the load loop builds, one task at a time in load order. */
  function StatusMapOf(tasks: seq<Task>): map<string, TaskStatus> {
    if tasks == [] then map[]
    else StatusMapOf(tasks[..|tasks| - 1])[tasks[|tasks| - 1].id := InitialStatus(tasks[|tasks| - 1])]
  }

  /** Every loaded task has a status, and nothing else has one. */
  lemma {:induction false} StatusMapKeys(tasks: seq<Task>)
    ensures StatusMapOf(tasks).Keys == IdsOf(tasks)
  {
    if tasks != [] {
      var n := |tasks|;
      StatusMapKeys(tasks[..n - 1]);
      assert IdsOf(tasks) == IdsOf(tasks[..n - 1]) + {tasks[n - 1].id} by {
        forall id | id in IdsOf(tasks) ensures id in IdsOf(tasks[..n - 1]) + {tasks[n - 1].id} {
          var k :| 0 <= k < n && tasks[k].id == id;
          if k < n - 1 {
            assert tasks[..n - 1][k].id == id;
          }
        }
      }
    }
  }

  /** A task's status comes from its own flag unless a later task has the same id. */
  lemma {:induction false} StatusMapLastWins(tasks: seq<Task>, k: nat)
    requires k < |tasks|
    requires forall j :: k < j < |tasks| ==> tasks[j].id != tasks[k].id
    ensures tasks[k].id in StatusMapOf(tasks) && StatusMapOf(tasks)[tasks[k].id] == InitialStatus(tasks[k])
  {
    var n := |tasks|;
    if k < n - 1 {
      var prefix := tasks[..n - 1];
      assert forall j :: k < j < |prefix| ==> prefix[j] == tasks[j];
      StatusMapLastWins(prefix, k);
    }
  }

  /** Every status is the initial status of some loaded task with that id. */
  lemma {:induction false} StatusMapOrigin(tasks: seq<Task>, id: string)
    requires id in StatusMapOf(tasks)
    ensures exists k :: 0 <= k < |tasks| && tasks[k].id == id && StatusMapOf(tasks)[id] == InitialStatus(tasks[k])
  {
    var n := |tasks|;
    if tasks[n - 1].id != id {
      var prefix := tasks[..n - 1];
      StatusMapOrigin(prefix, id);
      var k :| 0 <= k < |prefix| && prefix[k].id == id && StatusMapOf(prefix)[id] == InitialStatus(prefix[k]);
      assert tasks[k] == prefix[k];
    }
  }

  /** The initial status loop: every loaded task's id gets completed or idle by the task's flag; when ids
      repeat, the later task wins. */
  method InitialStatuses(tasks: seq<Task>) returns (m: map<string, TaskStatus>)
    ensures m.Keys == IdsOf(tasks)
    ensures forall k :: 0 <= k < |tasks| && (forall j :: k < j < |tasks| ==> tasks[j].id != tasks[k].id) ==>
      m[tasks[k].id] == InitialStatus(tasks[k])
    ensures forall id :: id in m ==> exists k :: 0 <= k < |tasks| && tasks[k].id == id && m[id] == InitialStatus(tasks[k])
  {
    m := map[];
    var i := 0;
    while i < |tasks|
      invariant 0 <= i <= |tasks|
      invariant m == StatusMapOf(tasks[..i])
    {
      assert tasks[..i + 1][..i] == tasks[..i];
      m := m[tasks[i].id := InitialStatus(tasks[i])];
      i := i + 1;
    }
    assert tasks[..i] == tasks;
    StatusMapKeys(tasks);
    forall k | 0 <= k < |tasks| && (forall j :: k < j < |tasks| ==> tasks[j].id != tasks[k].id)
      ensures m[tasks[k].id] == InitialStatus(tasks[k])
    {
      StatusMapLastWins(tasks, k);
    }
    forall id | id in m
      ensures exists k :: 0 <= k < |tasks| && tasks[k].id == id && m[id] == InitialStatus(tasks[k])
    {
      StatusMapOrigin(tasks, id);
    }
  }

  /** The points a claim writes: the session's cached points (0 without a session record) plus the reward. */
  function ClaimedPoints(cached: Option<UserData>, task: Task): int {
    (if cached.Some? then cached.value.points else 0) + task.reward
  }

  /** The completed-task list a claim writes: the session's cached list with this task appended. */
  function ClaimedTasks(cached: Option<UserData>, task: Task): seq<string> {
    (if cached.Some? then cached.value.completedTasks else []) + [task.id]
  }

  /** The ledger line a claim adds. */
  function ClaimReward(userId: string, task: Task, now: Time): Reward {
    Reward(userId, task.id, task.reward, "Completed: " + task.name, now)
  }

  /** The state the task list keeps: the loaded tasks and the status of each, by task id. */
  class TaskBoard {
    var tasks: seq<Task>
    var status: map<string, TaskStatus>

    constructor ()
      ensures tasks == [] && status == map[]
    {
      tasks, status := [], map[];
    }

    /** Loading runs only when there is a session record. `fetched` is the answer of the query for active
        tasks (store call 1); a failed query changes nothing. */
    method LoadTasks(fetched: seq<Task>, userData: Option<UserData>, fault: Fault)
      modifies this
      ensures userData.None? || fault.Rejects(1) ==> tasks == old(tasks) && status == old(status)
      ensures userData.Some? && !fault.Rejects(1) ==>
        && tasks == MarkCompleted(fetched, userData.value.completedTasks)
        && status.Keys == IdsOf(fetched)
        && (forall id :: id in status ==> (status[id] == Completed <==> id in userData.value.completedTasks))
        && (forall id :: id in status ==> status[id] == Completed || status[id] == Idle)
    {
      if userData.None? || fault.Rejects(1) {
        return;
      }
      var loaded := MarkCompleted(fetched, userData.value.completedTasks);
      tasks := loaded;
      status := InitialStatuses(loaded);
      assert IdsOf(loaded) == IdsOf(fetched) by {
        forall id | id in IdsOf(fetched) ensures id in IdsOf(loaded) {
          var i :| 0 <= i < |fetched| && fetched[i].id == id;
          assert loaded[i].id == id;
        }
      }
    }

    /** `handleTaskAction` for `task`. `userId` is the signed-in user's document id (none when signed out)
        and `cached` the session's user record. From idle the task starts checking; while checking or
        completed, or with no status or no user, nothing happens. From claiming: the user's points and
        completed-task list are overwritten (call 1, which fails on a missing document), a reward document
        is added (call 2), and only then is the task completed; a failure leaves it claiming. */
    method HandleTaskAction(db: Database, task: Task, userId: Option<string>, cached: Option<UserData>,
                            now: Time, fault: Fault)
      modifies db, this`status
      ensures db.referrals == old(db.referrals)
      ensures status.Keys == old(status.Keys)
      ensures forall id :: id in status && id != task.id ==> status[id] == old(status[id])
      ensures userId.None? || task.id !in old(status) || old(status[task.id]) in {Checking, Completed} ==>
        status == old(status) && db.users == old(db.users) && db.rewards == old(db.rewards)
      ensures userId.Some? && task.id in old(status) && old(status[task.id]) == Idle ==>
        status == old(status)[task.id := Checking] && db.users == old(db.users) && db.rewards == old(db.rewards)
      ensures userId.Some? && task.id in old(status) && old(status[task.id]) == Claiming ==>
        var uid := userId.value;
        && (uid !in old(db.users) || fault.Rejects(1) ==>
              status == old(status) && db.users == old(db.users) && db.rewards == old(db.rewards))
        && (uid in old(db.users) && !fault.Rejects(1) ==>
              db.users == old(db.users)[uid := old(db.users)[uid].(points := Some(ClaimedPoints(cached, task)),
                                                                   completedTasks := Some(ClaimedTasks(cached, task)))])
        && (uid in old(db.users) && !fault.Rejects(1) && fault.Rejects(2) ==>
              status == old(status) && db.rewards == old(db.rewards))
        && (uid in old(db.users) && !fault.Rejects(1) && !fault.Rejects(2) ==>
              status == old(status)[task.id := Completed] && db.rewards == old(db.rewards) + [ClaimReward(uid, task, now)])
      ensures task.id in status ==> old(status[task.id]).Stage() <= status[task.id].Stage()
    {
      if userId.None? || task.id !in status || status[task.id] == Completed {
        return;
      }
      if status[task.id] == Idle {
        status := status[task.id := Checking];
      } else if status[task.id] == Claiming {
        var uid := userId.value;
        if uid !in db.users || fault.Rejects(1) {
          return;
        }
        db.users := db.users[uid := db.users[uid].(points := Some(ClaimedPoints(cached, task)),
                                                   completedTasks := Some(ClaimedTasks(cached, task)))];
        if fault.Rejects(2) {
          return;
        }
        db.rewards := db.rewards + [ClaimReward(uid, task, now)];
        status := status[task.id := Completed];
      }
    }

    /** The timer started by the move to checking: after the delay the task becomes claimable. */
    method CheckingTimerFires(taskId: string)
      modifies this`status
      ensures status == old(status)[taskId := Claiming]
    {
      status := status[taskId := Claiming];
    }
  }

  /** Two claims made from the same cached session record: the second overwrites the first, so the user
      ends with only the second reward added to the cached points and without the first task in the list,
      although both reward documents exist. The cached record is never refreshed after a claim. */
  method ClaimTwiceFromOneCache(db: Database, board: TaskBoard, t1: Task, t2: Task, uid: string,
                                cached: UserData, now1: Time, now2: Time)
    requires t1.id != t2.id && uid in db.users
    requires t1.id in board.status && board.status[t1.id] == Claiming
    requires t2.id in board.status && board.status[t2.id] == Claiming
    modifies db, board`status
    ensures uid in db.users && db.users[uid].points == Some(cached.points + t2.reward)
    ensures db.users[uid].completedTasks == Some(cached.completedTasks + [t2.id])
    ensures db.rewards == old(db.rewards) + [ClaimReward(uid, t1, now1), ClaimReward(uid, t2, now2)]
    ensures board.status == old(board.status)[t1.id := Completed][t2.id := Completed]
  {
    board.HandleTaskAction(db, t1, Some(uid), Some(cached), now1, NoFault);
    board.HandleTaskAction(db, t2, Some(uid), Some(cached), now2, NoFault);
  }

  // ---------------------------------------------------------------------------------------------
  // Views

  /** The tasks listed under one tab, in load order. */
  function TabTasks(tasks: seq<Task>, kind: TaskType): (r: seq<Task>)
    ensures |r| <= |tasks|
    ensures forall t :: t in r <==> t in tasks && t.kind == kind
  {
    if tasks == [] then []
    else (if tasks[0].kind == kind then [tasks[0]] else []) + TabTasks(tasks[1..], kind)
  }

  /** Whether a task still counts as pending on the in-game badge: an in-game task whose status is not
      completed (a task without a status counts). */
  predicate PendingInGame(t: Task, status: map<string, TaskStatus>) {
    t.kind == InGame && !(t.id in status && status[t.id] == Completed)
  }

  /** The number on the in-game tab's badge. */
  function PendingInGameCount(tasks: seq<Task>, status: map<string, TaskStatus>): (r: nat)
    ensures r <= |tasks|
    ensures r == 0 <==> forall i :: 0 <= i < |tasks| ==> !PendingInGame(tasks[i], status)
  {
    if tasks == [] then 0
    else (if PendingInGame(tasks[0], status) then 1 else 0) + PendingInGameCount(tasks[1..], status)
  }

  /** The three tabs split the task list: every task is listed under exactly one tab. */
  lemma {:induction false} TabsPartitionTasks(tasks: seq<Task>)
    ensures |TabTasks(tasks, Limited)| + |TabTasks(tasks, InGame)| + |TabTasks(tasks, Partners)| == |tasks|
  {
    if tasks != [] {
      TabsPartitionTasks(tasks[1..]);
    }
  }

  /** The badge never exceeds the number of in-game tasks. */
  lemma {:induction false} PendingWithinInGameTab(tasks: seq<Task>, status: map<string, TaskStatus>)
    ensures PendingInGameCount(tasks, status) <= |TabTasks(tasks, InGame)|
  {
    if tasks != [] {
      PendingWithinInGameTab(tasks[1..], status);
    }
  }

  /** Completing a task never raises the badge; completing a pending in-game task lowers it. */
  lemma {:induction false} CompletingLowersBadge(tasks: seq<Task>, status: map<string, TaskStatus>, id: string)
    ensures PendingInGameCount(tasks, status[id := Completed]) <= PendingInGameCount(tasks, status)
    ensures (exists t :: t in tasks && t.id == id && PendingInGame(t, status)) ==>
      PendingInGameCount(tasks, status[id := Completed]) < PendingInGameCount(tasks, status)
  {
    if tasks != [] {
      CompletingLowersBadge(tasks[1..], status, id);
      if exists t :: t in tasks && t.id == id && PendingInGame(t, status) {
        var t :| t in tasks && t.id == id && PendingInGame(t, status);
        if t != tasks[0] {
          assert t in tasks[1..];
        }
      }
    }
  }
}
