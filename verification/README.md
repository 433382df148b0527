# lin-toolbox core in Dafny

This project models the three pieces of lin-toolbox that carry real logic.

- **The Snowflake id generator** (`src-tauri/src/utils/snowflake.rs`, module `SnowflakeIds`). It produces 64-bit ids. From high to low bits, an id holds:
  - the milliseconds since the custom epoch 2020-01-01 (`1577836800000`), at shift 22;
  - a 5-bit datacenter id, at shift 17;
  - a 5-bit worker id, at shift 12;
  - a 12-bit sequence that separates ids minted in the same millisecond.

  The generator is the class `Snowflake`. Its fields `lastTimestamp` and `sequence` are the mutex-protected `SnowflakeState`. The method `NextId` is the source's `next_id`. It is proved against the pure step function `Advance`, whose properties are proved in turn. A ghost history `minted` records the state after each successful call. The object invariant keeps that history strictly increasing in the order (timestamp, sequence), with every sequence within 12 bits. `GeneratorIdsDistinct` then shows that the ids a generator has minted at in-range clock readings strictly increase, so they are pairwise distinct. Ids are `u64` values: `Pack` returns a `U64` for every input.
- **The task pools** (`src-tauri/src/utils/scheduled_tasks.rs`, module `ScheduledTasks`). `ONE_TIME_TASK_POOL` maps a reminder id to the handle of its spawned task. `TASK_POOL` maps a cron task id to the job id that the cron scheduler gave out. The class `TaskRegistry` holds both maps, together with:
  - whether `SCHEDULER` is set;
  - the jobs the scheduler holds;
  - the number of reminder tasks spawned;
  - the set of tasks aborted.

  Its methods are the four commands. Each states its result string and its whole new state for every error path and for the success path.
- **The label lookup** (`src/utils/KvUtil.ts`, module `KvUtil`). `getLabelByValue` returns the label of the first option whose value matches, or `未找到匹配值` when none does.

The module `Bits` gives Rust's `u64` and the operators the packing uses:
- wrapping `-`;
- `<<` that drops the bits past bit 63;
- `>>`;
- bitwise `|` and `&`, defined bit by bit.

Bit-vector types are not used. Their comparisons are too costly for the solver, and the ids must be compared.

Inputs in place of I/O:
- `NextId` takes the clock readings of one call as a sequence. The first reading is `next_id`'s own. The later ones are those `til_next_millis` takes while it waits. The call needs a later reading past the last timestamp only when it has to wait.
- `ScheduleReminder` takes three inputs: the outcome of parsing the date text, the single local instant it denotes (None when `.single()` finds none) and the current time.
- `ScheduleCronTask` takes the outcome of building the job from the cron expression and the outcome of the scheduler's `add`. It requires that a job id from `add` is not one the scheduler already holds.
- `CancelCronTask` takes the outcome of the scheduler's `remove`.

Behaviour of the source worth noting:
- Scheduling a reminder or cron task under an id that is already pooled overwrites the entry and does not fail. The earlier reminder task is not aborted. The earlier cron job stays with the scheduler. Neither can be cancelled any more (`RescheduleReminder`, `RescheduleCronTask`).
- `cancel_cron_task` returns the scheduler's error text unchanged. Its success text is `Task {id} canceled`.
- A reminder's pool entry stays in the pool after the reminder fires.

## Model

| member | source | states |
|---|---|---|
| Bits.OrIntoZeroLowBits | src-tauri/src/utils/snowflake.rs:98-101 | OR-ing a value below 2^n into a multiple of 2^n adds it, so the packed fields do not interfere |
| Bits.OrOfU64 | src-tauri/src/utils/snowflake.rs:98-101 | the bitwise OR of two `u64` values is a `u64`, so the packed id is one for every input |
| Bits.AndLowMask | src-tauri/src/utils/snowflake.rs:84 | AND with the mask of the n low bits (`SEQUENCE_MASK`, `MAX_WORKER_ID`) is the remainder modulo 2^n |
| SnowflakeIds.ConfigPanic | src-tauri/src/utils/snowflake.rs:44-50 | the ids are accepted exactly when both are at most 31 (so 0 and 31 are accepted); otherwise the worker-id panic text comes first, then the datacenter-id one |
| SnowflakeIds.Snowflake.New | src-tauri/src/utils/snowflake.rs:44-62 | fails with the panic text exactly when an id exceeds 31; on success the fresh generator stores both ids verbatim, starts in state (0, 0) and is valid |
| SnowflakeIds.Snowflake.constructor | src-tauri/src/utils/snowflake.rs:52-61 | stores the ids verbatim with state (0, 0) and an empty history |
| SnowflakeIds.NextSequence | src-tauri/src/utils/snowflake.rs:84 | `(sequence + 1) & SEQUENCE_MASK` is the successor modulo 4096, so the sequence stays within [0, 4095] |
| SnowflakeIds.FirstLaterIndex | src-tauri/src/utils/snowflake.rs:107-115 | the reading picked is later than the last timestamp and every reading taken before it is not |
| SnowflakeIds.Snowflake.TilNextMillis | src-tauri/src/utils/snowflake.rs:107-115 | the wait loop returns the first reading (from the second one on) that is strictly later than the last timestamp |
| SnowflakeIds.Advance | src-tauri/src/utils/snowflake.rs:74-95 | fails with "Clock moved backwards. Refusing to generate id." exactly when the reading is below the last timestamp; at the same millisecond the sequence becomes (sequence + 1) mod 4096, and on wrap-around the timestamp is the first later reading; at a later millisecond the state is (reading, 0); a success strictly advances (timestamp, sequence), so the last timestamp never decreases |
| SnowflakeIds.Snowflake.NextId | src-tauri/src/utils/snowflake.rs:70-104 | a failure returns the regression error and leaves the state and history unchanged; a success sets the state to `Advance`'s, appends it to the history, returns the id packed from it (so the last timestamp is the one encoded in the id) and keeps the invariant that the history strictly increases |
| SnowflakeIds.PackValue | src-tauri/src/utils/snowflake.rs:98-101 | for an in-range timestamp and fields, the id is offset * 2^22 + datacenter * 2^17 + worker * 2^12 + sequence and fits in 64 bits |
| SnowflakeIds.PackDecodes | src-tauri/src/utils/snowflake.rs:98-101 | decoding is lossless: `id & 4095` is the sequence, `(id >> 12) & 31` the worker id, `(id >> 17) & 31` the datacenter id, `id >> 22` the timestamp minus the epoch |
| SnowflakeIds.PackPreservesOrder | src-tauri/src/utils/snowflake.rs:98-101 | packing is strictly monotone in (timestamp, sequence) for in-range fields |
| SnowflakeIds.SuccessiveIds | src-tauri/src/utils/snowflake.rs:187-199 | two successive ids strictly increase; with equal timestamp fields they differ by exactly 1; after a new millisecond the timestamp field grows and the sequence field is 0 |
| SnowflakeIds.MintedIdsStrictlyIncrease | src-tauri/src/utils/snowflake.rs:201-213 | the ids of a strictly increasing history of in-range states strictly increase, hence are pairwise distinct |
| SnowflakeIds.GeneratorIdsDistinct | src-tauri/src/utils/snowflake.rs:201-213 | every id a valid generator has minted at in-range readings is larger than all ids it minted earlier, so its ids are pairwise distinct |
| SnowflakeIds.MintFirstId | src-tauri/src/utils/snowflake.rs:170-184 | the first id of a fresh generator (5, 10) decodes to worker 5, datacenter 10, sequence 0 and the reading's offset from the epoch |
| ScheduledTasks.ReminderDelay | src-tauri/src/utils/scheduled_tasks.rs:51-52 | the delay is max(0, remind time - now) |
| ScheduledTasks.TaskRegistry.constructor | src-tauri/src/utils/scheduled_tasks.rs:30-35 | both pools start empty, with the scheduler not set |
| ScheduledTasks.TaskRegistry.StartScheduler | src-tauri/src/utils/scheduled_tasks.rs:33 | setting the scheduler cell is idempotent and touches no pool |
| ScheduledTasks.TaskRegistry.ScheduleReminder | src-tauri/src/utils/scheduled_tasks.rs:38-67 | a parse failure gives "Failed to parse date time: …" and a non-unique local time gives "无效的提醒时间", both checked in that order and leaving everything unchanged; a success spawns one task that sleeps max(0, remind - now) and then notifies (id, content, 0), and maps `todo.id` to its handle, overwriting any earlier entry and keeping all others |
| ScheduledTasks.TaskRegistry.CancelReminder | src-tauri/src/utils/scheduled_tasks.rs:70-80 | a pooled id loses exactly its entry, its task is aborted, and the result is "已取消提醒任务: {id}"; an absent id gives "未找到提醒任务: {id}" and changes nothing |
| ScheduledTasks.TaskRegistry.ScheduleCronTask | src-tauri/src/utils/scheduled_tasks.rs:133-165 | the errors are checked in this order, each leaving everything unchanged: "Scheduler not initialized", then "解析 cron 表达式失败: …", then the scheduler's `add` error; a success maps `task.id` to the new job id (overwriting), registers the job that notifies (id, content, 1), and returns "任务已创建，任务ID: {job_id}" |
| ScheduledTasks.TaskRegistry.CancelCronTask | src-tauri/src/utils/scheduled_tasks.rs:108-129 | the pool is checked first: an absent id gives "No task found with id: {id}" and changes nothing; a pooled id is removed even when the scheduler is not set or its `remove` fails, and only a successful `remove` drops the job and gives "Task {id} canceled" |
| ScheduledTasks.CancelReminderTwice | src-tauri/src/utils/scheduled_tasks.rs:70-80 | the first cancel succeeds exactly when the id was pooled; the second always fails with "未找到提醒任务: {id}" |
| ScheduledTasks.ScheduleThenCancelReminder | src-tauri/src/utils/scheduled_tasks.rs:54-79 | a scheduled then cancelled reminder has its spawned task aborted and leaves the pool without its id |
| ScheduledTasks.ScheduleThenCancelCronTask | src-tauri/src/utils/scheduled_tasks.rs:110-164 | a scheduled then cancelled cron task leaves neither a pool entry nor a scheduler job |
| ScheduledTasks.RescheduleReminder | src-tauri/src/utils/scheduled_tasks.rs:62 | re-scheduling a pooled reminder id leaves the earlier task un-aborted and referenced by no pool entry |
| ScheduledTasks.RescheduleCronTask | src-tauri/src/utils/scheduled_tasks.rs:158-161 | re-scheduling a pooled cron task id leaves the earlier job with the scheduler and referenced by no pool entry |
| KvUtil.FindIndex | src/utils/KvUtil.ts:2 | `find` yields the first option whose value equals the input, every option before it differs, and none is found only when no option matches |
| KvUtil.GetLabelByValue | src/utils/KvUtil.ts:1-8 | if some option matches, the result is the label of the first matching one; if none matches, in particular for an empty list, the result is "未找到匹配值" |
| KvUtil.FindIndexOfConcatenation | src/utils/KvUtil.ts:2 | searching `front + back` finds the match in `front` if there is one, and otherwise the match in `back`, shifted by the length of `front` |
| KvUtil.LabelOfConcatenation | src/utils/KvUtil.ts:2-7 | options after the first match do not change the label; non-matching options before it are skipped |

## Left out

- Pack and the lemmas about ids: the ordering and decoding properties hold only when the clock reading is at or after the custom epoch and less than 2^42 ms after it (until about the year 2159). Outside that range the model computes what a release build computes: the subtraction and the shift wrap. A debug build would panic on the subtraction instead; that panic is not modelled.
- `get_time_ms` (the system clock) and its `as u64` truncation: readings are inputs.
- `generate_snowflake_id`: it only renders the id in decimal.
- The `Arc<Mutex<…>>` sharing and the multi-threaded uniqueness test: calls are linearised, one at a time, on one object. Lock poisoning (`lock().unwrap()`) is not modelled.
- The `yield_now` inside the wait loop: a scheduling hint with no effect on the state.
- `send_notification` (desktop notification and the `reminder_triggered` event): a spawned task or a cron job records the notification it would send, but no sending or firing is modelled.
- The sleeping and firing of reminder tasks, tokio's `spawn`/`abort`, chrono's parsing and local-time resolution, and `tokio_cron_scheduler`'s `Job::new_async`/`add`/`remove`: their outcomes are inputs. Abort is the addition of the task to the aborted set.
- Times are whole milliseconds; chrono's sub-millisecond precision is not modelled.
- `schedule_one_time_reminder`: it is unused and touches no pool.
- Where `SCHEDULER` is set (the start-up code in `src-tauri/src/lib.rs`) is not part of this model; `StartScheduler` stands for it.
- `src-tauri/src/utils/network_util.rs`, `src-tauri/src/lib.rs`, `src/directives/copy.ts`, `src/router/index.ts` and `src/main.ts` are not part of this model: they are I/O, UI and framework glue.
- GetLabelByValue: `===` is modelled as Dafny's value equality. So JavaScript's reference equality on objects and `NaN !== NaN` are not captured.
