/**
 * The task pools of `src-tauri/src/utils/scheduled_tasks.rs` and the four
 * commands that touch them.
 *
 * `ONE_TIME_TASK_POOL` maps a reminder id to the handle of the task spawned
 * to notify at the reminder's time; `TASK_POOL` maps a cron task id to the id
 * of the job registered with the cron scheduler `SCHEDULER`. The model keeps
 * these process-wide values as the fields of one `TaskRegistry` object whose
 * methods own them exclusively (the source guards each map with a mutex).
 *
 * What the libraries decide is passed in: the outcome of parsing the reminder
 * time, its resolution to a single local instant, the current time, the
 * outcome of parsing a cron expression, and the outcomes of the scheduler's
 * `add` and `remove`. The scheduler's own state is modelled as the map of
 * jobs it holds; the async runtime's as a count of spawned tasks and the set
 * of tasks aborted.
 */
module ScheduledTasks {
  import opened Wrappers

  /** `task_type` of a notification: 0 for a one-time reminder, 1 for a cron task. */
  const OneTimeTaskType := 0
  const PeriodicTaskType := 1

  const InvalidRemindTime := "无效的提醒时间"
  const SchedulerNotInitialized := "Scheduler not initialized"

  function DateTimeParseFailed(error: string): string { "Failed to parse date time: " + error }
  function ReminderCancelled(id: string): string { "已取消提醒任务: " + id }
  function ReminderNotFound(id: string): string { "未找到提醒任务: " + id }
  function CronParseFailed(error: string): string { "解析 cron 表达式失败: " + error }
  function CronTaskCreated(jobId: Uuid): string { "任务已创建，任务ID: " + jobId.text }
  function CronTaskNotFound(id: string): string { "No task found with id: " + id }
  function CronTaskCancelled(id: string): string { "Task " + id + " canceled" }

  /** A one-time reminder (`Todo`); `remindTime` is the text "YYYY-MM-DD HH:mm:ss". */
  datatype Todo = Todo(id: string, content: string, remindTime: string)

  /** A recurring task (`CronTask`). */
  datatype CronTask = CronTask(id: string, content: string, cronExpr: string)

  /** The arguments a fired task passes to `send_notification`. */
  datatype Notification = Notification(todoId: string, content: string, taskType: int)

  /**
   * The handle of a spawned reminder task: the task `task` sleeps `delay`
   * milliseconds and then sends `fires`.
   */
  datatype JoinHandle = JoinHandle(task: nat, delay: nat, fires: Notification)

  /** A job id handed out by the cron scheduler, by its printed form. */
  datatype Uuid = Uuid(text: string)

  /** A cron job: on every time its expression matches, it sends `fires`. */
  datatype Job = Job(cronExpr: string, fires: Notification)

  /** The outcome of a library call that yields nothing or an error message. */
  datatype Outcome = Pass | Fail(error: string)

  /**
   * `(remind_time_local - now).to_std().unwrap_or(0)`: the time left until the
   * reminder, or zero for a reminder already due.
   */
  function ReminderDelay(remindAt: int, now: int): (delay: nat)
    ensures delay >= remindAt - now
    ensures delay == 0 || delay == remindAt - now
  {
    if remindAt - now < 0 then 0 else remindAt - now
  }

  class TaskRegistry {
    /** `ONE_TIME_TASK_POOL`: reminder id to the handle of its spawned task. */
    var oneTimeTaskPool: map<string, JoinHandle>
    /** `TASK_POOL`: cron task id to the id of its scheduler job. */
    var taskPool: map<string, Uuid>
    /** Whether `SCHEDULER` has been set. */
    var schedulerStarted: bool
    /** The jobs the scheduler holds, by job id. */
    var jobs: map<Uuid, Job>
    /** The number of reminder tasks spawned so far; task ids are 0, 1, 2, ... */
    var spawned: nat
    /** The reminder tasks that have been aborted. */
    var aborted: set<nat>

    /**
     * Only spawned tasks are aborted; every pooled reminder handle belongs to a
     * spawned task that has not been aborted, and no two reminder ids share a
     * task; every pooled cron task id names a job the scheduler still holds,
     * and no two cron task ids share a job.
     */
    ghost predicate Valid()
      reads this
    {
      && (forall task :: task in aborted ==> task < spawned)
      && (forall id :: id in oneTimeTaskPool ==>
            oneTimeTaskPool[id].task < spawned && oneTimeTaskPool[id].task !in aborted)
      && (forall id, id' :: id in oneTimeTaskPool && id' in oneTimeTaskPool && id != id' ==>
            oneTimeTaskPool[id].task != oneTimeTaskPool[id'].task)
      && (forall id :: id in taskPool ==> taskPool[id] in jobs)
      && (forall id, id' :: id in taskPool && id' in taskPool && id != id' ==> taskPool[id] != taskPool[id'])
    }

    constructor ()
      ensures Valid()
      ensures oneTimeTaskPool == map[] && taskPool == map[] && !schedulerStarted
      ensures jobs == map[] && spawned == 0 && aborted == {}
    {
      oneTimeTaskPool := map[];
      taskPool := map[];
      schedulerStarted := false;
      jobs := map[];
      spawned := 0;
      aborted := {};
    }

    /** Setting `SCHEDULER` once at start-up; setting it again changes nothing. */
    method StartScheduler()
      requires Valid()
      modifies this
      ensures Valid() && schedulerStarted
      ensures oneTimeTaskPool == old(oneTimeTaskPool) && taskPool == old(taskPool) && jobs == old(jobs)
      ensures spawned == old(spawned) && aborted == old(aborted)
    {
      if !schedulerStarted {
        schedulerStarted := true;
      }
    }

    /**
     * `schedule_reminder`. `parse` is the outcome of parsing `todo.remindTime`
     * with "%Y-%m-%d %H:%M:%S", `localTime` the single local instant it denotes
     * (in milliseconds; None when the local time is ambiguous or does not
     * exist) and `now` the current local time. A parse failure is reported
     * first. On success a task is spawned and its handle stored under
     * `todo.id`, replacing any handle stored there before.
     */
    method ScheduleReminder(todo: Todo, parse: Outcome, localTime: Option<int>, now: int) returns (r: Result<(), string>)
      requires Valid()
      modifies this
      ensures Valid()
      ensures parse.Fail? ==> r == Failure(DateTimeParseFailed(parse.error)) && unchanged(this)
      ensures parse.Pass? && localTime.None? ==> r == Failure(InvalidRemindTime) && unchanged(this)
      ensures parse.Pass? && localTime.Some? ==>
        && r == Success(())
        && spawned == old(spawned) + 1
        && oneTimeTaskPool == old(oneTimeTaskPool)[todo.id :=
             JoinHandle(old(spawned), ReminderDelay(localTime.value, now),
                        Notification(todo.id, todo.content, OneTimeTaskType))]
        && taskPool == old(taskPool) && schedulerStarted == old(schedulerStarted)
        && jobs == old(jobs) && aborted == old(aborted)
    {
      if parse.Fail? {
        return Failure(DateTimeParseFailed(parse.error));
      }
      if localTime.None? {
        return Failure(InvalidRemindTime);
      }
      var delay := ReminderDelay(localTime.value, now);
      var handle := JoinHandle(spawned, delay, Notification(todo.id, todo.content, OneTimeTaskType));
      spawned := spawned + 1;
      oneTimeTaskPool := oneTimeTaskPool[todo.id := handle];
      return Success(());
    }

    /**
     * `cancel_reminder`: removes the handle stored under `id` and aborts its
     * task, or reports that there is none and changes nothing.
     */
    method CancelReminder(id: string) returns (r: Result<string, string>)
      requires Valid()
      modifies this
      ensures Valid()
      ensures id in old(oneTimeTaskPool) ==>
        && r == Success(ReminderCancelled(id))
        && oneTimeTaskPool == old(oneTimeTaskPool) - {id}
        && aborted == old(aborted) + {old(oneTimeTaskPool)[id].task}
        && taskPool == old(taskPool) && schedulerStarted == old(schedulerStarted)
        && jobs == old(jobs) && spawned == old(spawned)
      ensures id !in old(oneTimeTaskPool) ==> r == Failure(ReminderNotFound(id)) && unchanged(this)
    {
      if id in oneTimeTaskPool {
        var handle := oneTimeTaskPool[id];
        oneTimeTaskPool := oneTimeTaskPool - {id};
        aborted := aborted + {handle.task};
        return Success(ReminderCancelled(id));
      } else {
        return Failure(ReminderNotFound(id));
      }
    }

    /**
     * `schedule_cron_task`. `cronParse` is the outcome of building the job
     * from `task.cronExpr`, `add` that of handing it to the scheduler, which
     * gives out a job id it does not hold yet. The scheduler is checked
     * first, then the expression; on success `task.id` is mapped to the new
     * job id, replacing any job id stored there before.
     */
    method ScheduleCronTask(task: CronTask, cronParse: Outcome, add: Result<Uuid, string>) returns (r: Result<string, string>)
      requires Valid()
      requires add.Success? ==> add.value !in jobs
      modifies this
      ensures Valid()
      ensures !old(schedulerStarted) ==> r == Failure(SchedulerNotInitialized) && unchanged(this)
      ensures old(schedulerStarted) && cronParse.Fail? ==>
        r == Failure(CronParseFailed(cronParse.error)) && unchanged(this)
      ensures old(schedulerStarted) && cronParse.Pass? && add.Failure? ==>
        r == Failure(add.error) && unchanged(this)
      ensures old(schedulerStarted) && cronParse.Pass? && add.Success? ==>
        && r == Success(CronTaskCreated(add.value))
        && taskPool == old(taskPool)[task.id := add.value]
        && jobs == old(jobs)[add.value := Job(task.cronExpr, Notification(task.id, task.content, PeriodicTaskType))]
        && oneTimeTaskPool == old(oneTimeTaskPool) && schedulerStarted == old(schedulerStarted)
        && spawned == old(spawned) && aborted == old(aborted)
    {
      if !schedulerStarted {
        return Failure(SchedulerNotInitialized);
      }
      if cronParse.Fail? {
        return Failure(CronParseFailed(cronParse.error));
      }
      var job := Job(task.cronExpr, Notification(task.id, task.content, PeriodicTaskType));
      if add.Failure? {
        return Failure(add.error);
      }
      var jobId := add.value;
      jobs := jobs[jobId := job];
      taskPool := taskPool[task.id := jobId];
      return Success(CronTaskCreated(jobId));
    }

    /**
     * `cancel_cron_task`. `remove` is the outcome of asking the scheduler to
     * drop the job. The pool is checked first: an unknown id changes nothing;
     * a known id leaves the pool even when the scheduler is not set or its
     * `remove` fails.
     */
    method CancelCronTask(id: string, remove: Outcome) returns (r: Result<string, string>)
      requires Valid()
      modifies this
      ensures Valid()
      ensures id !in old(taskPool) ==> r == Failure(CronTaskNotFound(id)) && unchanged(this)
      ensures id in old(taskPool) ==>
        && taskPool == old(taskPool) - {id}
        && oneTimeTaskPool == old(oneTimeTaskPool) && schedulerStarted == old(schedulerStarted)
        && spawned == old(spawned) && aborted == old(aborted)
      ensures id in old(taskPool) && !old(schedulerStarted) ==>
        r == Failure(SchedulerNotInitialized) && jobs == old(jobs)
      ensures id in old(taskPool) && old(schedulerStarted) && remove.Fail? ==>
        r == Failure(remove.error) && jobs == old(jobs)
      ensures id in old(taskPool) && old(schedulerStarted) && remove.Pass? ==>
        r == Success(CronTaskCancelled(id)) && jobs == old(jobs) - {old(taskPool)[id]}
    {
      if id !in taskPool {
        return Failure(CronTaskNotFound(id));
      }
      var jobId := taskPool[id];
      taskPool := taskPool - {id};
      if !schedulerStarted {
        return Failure(SchedulerNotInitialized);
      }
      if remove.Fail? {
        return Failure(remove.error);
      }
      jobs := jobs - {jobId};
      return Success(CronTaskCancelled(id));
    }
  }

  /** Cancelling the same reminder twice: the second cancel finds nothing. */
  method CancelReminderTwice(registry: TaskRegistry, id: string) returns (first: Result<string, string>, second: Result<string, string>)
    requires registry.Valid()
    modifies registry
    ensures registry.Valid()
    ensures first.Success? <==> id in old(registry.oneTimeTaskPool)
    ensures second == Failure(ReminderNotFound(id))
    ensures id !in registry.oneTimeTaskPool
  {
    first := registry.CancelReminder(id);
    second := registry.CancelReminder(id);
  }

  /**
   * A reminder scheduled and then cancelled: the cancel succeeds, the task
   * spawned for it is aborted, and the pool is as before without the id.
   */
  method ScheduleThenCancelReminder(registry: TaskRegistry, todo: Todo, remindAt: int, now: int)
    returns (scheduled: Result<(), string>, cancelled: Result<string, string>)
    requires registry.Valid()
    modifies registry
    ensures registry.Valid()
    ensures scheduled == Success(())
    ensures cancelled == Success(ReminderCancelled(todo.id))
    ensures old(registry.spawned) in registry.aborted
    ensures registry.oneTimeTaskPool == old(registry.oneTimeTaskPool) - {todo.id}
  {
    scheduled := registry.ScheduleReminder(todo, Pass, Some(remindAt), now);
    cancelled := registry.CancelReminder(todo.id);
  }

  /**
   * A cron task scheduled and then cancelled on a started scheduler whose
   * calls succeed: its job is no longer held by the scheduler.
   */
  method ScheduleThenCancelCronTask(registry: TaskRegistry, task: CronTask, jobId: Uuid)
    returns (scheduled: Result<string, string>, cancelled: Result<string, string>)
    requires registry.Valid() && registry.schedulerStarted && jobId !in registry.jobs
    modifies registry
    ensures registry.Valid()
    ensures scheduled == Success(CronTaskCreated(jobId))
    ensures cancelled == Success(CronTaskCancelled(task.id))
    ensures jobId !in registry.jobs && task.id !in registry.taskPool
  {
    scheduled := registry.ScheduleCronTask(task, Pass, Success(jobId));
    cancelled := registry.CancelCronTask(task.id, Pass);
  }

  /**
   * Scheduling a reminder id that is already pooled replaces its handle
   * without aborting the earlier task: that task is still live but can no
   * longer be reached by `cancel_reminder`.
   */
  method RescheduleReminder(registry: TaskRegistry, todo: Todo, remindAt: int, now: int)
    returns (earlier: JoinHandle, r: Result<(), string>)
    requires registry.Valid() && todo.id in registry.oneTimeTaskPool
    modifies registry
    ensures registry.Valid()
    ensures earlier == old(registry.oneTimeTaskPool)[todo.id]
    ensures r == Success(())
    ensures earlier.task !in registry.aborted
    ensures forall id :: id in registry.oneTimeTaskPool ==> registry.oneTimeTaskPool[id].task != earlier.task
  {
    earlier := registry.oneTimeTaskPool[todo.id];
    r := registry.ScheduleReminder(todo, Pass, Some(remindAt), now);
  }

  /**
   * Scheduling a cron task id that is already pooled replaces its job id:
   * the earlier job stays with the scheduler but no pool entry names it.
   */
  method RescheduleCronTask(registry: TaskRegistry, task: CronTask, jobId: Uuid)
    returns (earlier: Uuid, r: Result<string, string>)
    requires registry.Valid() && registry.schedulerStarted
    requires task.id in registry.taskPool && jobId !in registry.jobs
    modifies registry
    ensures registry.Valid()
    ensures earlier == old(registry.taskPool)[task.id]
    ensures r == Success(CronTaskCreated(jobId))
    ensures earlier in registry.jobs
    ensures forall id :: id in registry.taskPool ==> registry.taskPool[id] != earlier
  {
    earlier := registry.taskPool[task.id];
    r := registry.ScheduleCronTask(task, Pass, Success(jobId));
  }
}
