# dtm coordinator: optimistic persistence and the branch-status flusher

This Dafny project models two parts of the persistence discipline of the dtm
distributed-transaction coordinator (package `dtmsvr`).

- **Optimistic status transitions and idempotent creation** (`dtmsvr/types.go`).
  `TransGlobal.changeStatus` and `TransBranch.changeStatus` are compare-and-set
  updates. They write only if the stored status still equals the status the
  caller holds in memory. A write that matches no row is the "duplicate
  updating" panic. `touch` refreshes `update_time` and nothing else.
  `getProcessor` dispatches on the transaction type. `SaveNew` inserts a
  transaction and its generated branches as one unit of work, and does nothing
  on conflicts. `Process` loads the branches of a transaction in id order.
- **The branch-status flusher** (`updateBranchAsync` in `dtmsvr/svr.go`).
  Events wait on a channel of capacity 1000. The loop drains them into batches
  of at most 20 per time window. It hands each batch to the store's batch
  update and retries the same batch until a call succeeds.

Modules:

- `Wrappers`: `Option`, `Result` and `Outcome`. The model uses them for the
  source's nil values and panics.
- `Store`: the two tables as values (`Tables`: a map from gid to the global row,
  and a sequence of branch rows in ascending id order). Every write the code
  issues is a function on these values, such as insert-or-ignore, a conditional
  update or a batch update by id. The class `Store.Db` holds the current tables
  and applies those writes in place.
- `Trans`: the entities of `types.go`. The classes `TransGlobal` and
  `TransBranch` have the fields the source declares, plus the `ID` of the
  embedded `ModelBase`. They do not hold ModelBase's create and update times.
  Their methods change the database, the in-memory `Status` and, on creation,
  `ID`. Each method is tied to a specification function
  (`ChangeGlobalStatus`, `ChangeBranchStatus`, `SaveNewSpec`), and the promised
  properties are lemmas about those functions.
- `Flusher`: the channel, the accumulation loop, the retry loop, one cycle of
  the outer loop and a run of cycles. Ghost sequences record what was sent and
  what reached the store. The no-loss property is the class invariant
  `Sent == Flushed + chan`.

Modelling choices:

- Panics are values. `checkAffected` yields `Fail(DuplicateUpdating)`. Calling
  a method on the nil processor yields `Fail(NilProcessor)`. Inside `SaveNew`
  that panic happens within `db.Transaction`, which rolls back, so the model
  restores the tables the unit of work started from.
- The source's literal is `"committed"` (types.go:120). The code advances a
  stored `"prepared"` row only for that incoming status, and the model follows
  the code. The same branch never sets `commit_time`.
- `SaveNew` returns nothing on a benign duplicate. It reports no error, so there
  is no "duplicate ignored" outcome in the model.
- `getProcessor` knows only `saga`, `tcc` and `xa`. So a `msg` transaction gets
  no processor, and creating one is rolled back (`Trans.SaveNewMsgRolledBack`).
- A global row carries its auto-increment `id` and is stored under its `gid`,
  the table's other unique key. `touch` and the prepared-to-committed advance
  in `SaveNew` select the row by gid (types.go:37, types.go:121).
  `changeStatus` selects through `Model(t)` (types.go:50), so it uses the
  object's primary key `ID` and the status. An object whose `ID` is zero adds no
  key condition, so it rewrites every row in that status
  (`Trans.GlobalChangeStatusZeroId`). Only when `ID` is the key of the row stored
  under the object's gid is the change a compare-and-set on that one row
  (`Trans.GlobalChangeStatusByGid`).
- A branch's `changeStatus` also updates through `Model(t)` (types.go:74), so
  the same rule holds for the branch table: a zero `ID` rewrites every branch
  row in the object's status (`Trans.BranchChangeStatusZeroId`), and the
  nonzero key of a stored row makes it a compare-and-set on that row
  (`Trans.BranchChangeStatusByKey`).
- `Create(t)` writes the new key back into `t.ID`. A gid conflict leaves `ID` as
  it was: after the prepared-to-committed advance the object keeps the key it
  came with, which is zero for an object built from a request. The
  branches are generated from the object after that write-back, so a new row's
  key is visible to `GenBranches` (types.go:119, types.go:127).
- The auto-increment counters are not rolled back with a unit of work. A
  rolled-back creation of a new gid uses up one global id.
- The model takes the unique key of
  `trans_branch` to be (gid, branch, branch_type). The schema is not part of
  this model, and this is the key under which the action and compensation rows
  of one step are distinct.
- gorm's automatic timestamps are modelled. An insert sets `create_time` and
  `update_time`, and every update sets `update_time`.
- Time is an opaque `nat` supplied by the caller. The accumulation window is a
  `seq<bool>` read once per check of the loop guard. The store's failures are a
  `seq<bool>` read once per call. Both sequences are finite, so the window
  closes and the store eventually accepts.

## Model

| member | source | states |
|---|---|---|
| `Trans.GetProcessor` | dtmsvr/types.go:89-98 | a processor is returned only for its own type name; for every other string (msg included) the result is none |
| `Trans.GetProcessorOfTypeName` | dtmsvr/types.go:90-95 | each of saga, tcc and xa dispatches to its own processor |
| `Trans.CheckAffected` | dtmsvr/types.go:83-87 | zero affected rows is the "duplicate updating" failure; any positive count passes |
| `Trans.GlobalStatusUpdate` | dtmsvr/types.go:42-49 | the update always carries the new status; it sets finish_time exactly for "succeed" and rollback_time exactly for "failed", both to the current instant |
| `Trans.ChangeGlobalStatus` | dtmsvr/types.go:40-54 | a global status change touches neither the branch table nor the counters, and a failed one changes nothing |
| `Trans.GlobalChangeStatusCas` | dtmsvr/types.go:50-52 | every row the update through the object's key and status selects gets the new columns, every other row is kept, and the change succeeds exactly when some row is selected |
| `Trans.GlobalChangeStatusByGid` | dtmsvr/types.go:50-52 | when the object's ID is the key of the row under its gid, the change succeeds exactly when that row's status is the caller's, and then only that row changes |
| `Trans.GlobalChangeStatusZeroId` | dtmsvr/types.go:50 | an object whose ID is zero rewrites every row in the expected status |
| `Trans.GlobalChangeStatusTimestamps` | dtmsvr/types.go:42-50 | on a selected row "succeed" sets finish_time only, "failed" sets rollback_time only, other statuses set neither; commit_time and the business columns are kept |
| `Trans.TouchKeepsRow` | dtmsvr/types.go:35-38 | touch sets the gid's row's update_time to now, so the recovery poller sees it as alive, and changes no other column on any row; it affects a row exactly when the gid exists |
| `Trans.ChangeBranchStatus` | dtmsvr/types.go:72-81 | a branch status change touches neither the global table nor the counters and keeps the number of rows; a failure is "duplicate updating" |
| `Trans.BranchChangeStatusCas` | dtmsvr/types.go:72-80 | row by row, the update through the object's key (none when the key is zero) and status gives every selected row the new status and finish_time together, and keeps every other row; it succeeds exactly when some row is selected; on failure nothing changes |
| `Trans.BranchChangeStatusByKey` | dtmsvr/types.go:74-77 | through the nonzero key of a stored row, the change succeeds exactly when that row is in the caller's status, and then no other row changes |
| `Trans.BranchChangeStatusZeroId` | dtmsvr/types.go:74 | a branch object whose ID is zero rewrites every branch row in the expected status |
| `Trans.SaveNewSpec` | dtmsvr/types.go:112-137 | a failed creation is the nil-processor panic and leaves every row as it was; a passing one leaves the gid stored and adds no other global row; the old branch rows stay in place as a prefix and no counter goes back |
| `Trans.SaveNewExisting` | dtmsvr/types.go:117-133 | on an existing gid nothing is written unless the incoming status is committed and the stored one prepared; then the row becomes committed, the generated branches are inserted with do-nothing on conflict, existing branches are kept and every generated key is stored |
| `Trans.SaveNewFresh` | dtmsvr/types.go:117-133 | on a new gid the row is stored under the next global id and the branches generated from the row with that key are inserted with do-nothing on conflict; without a processor every row is rolled back and only the drawn id stays used |
| `Trans.SaveNewMsgRolledBack` | dtmsvr/types.go:113-127 | a new msg transaction gets no processor, so its creation fails and leaves every row unchanged |
| `Trans.SaveNewValid` | dtmsvr/types.go:117-133 | creation keeps every table constraint, so no branch key is stored twice and no two global rows share an id, and existing branch rows stay as they were |
| `Trans.SaveNewIdempotent` | dtmsvr/types.go:117-125 | a second identical SaveNew, at any instant, reports the same outcome and changes no row; only a rolled-back creation of a new gid draws one more id |
| `Trans.TransGlobal.constructor` | dtmsvr/types.go:19-29 | a transaction built in memory has the given columns, no timestamps and the zero key |
| `Trans.TransGlobal.Touch` | dtmsvr/types.go:35-38 | the database afterwards is the touch of the old one; the branch table and the counters are unchanged |
| `Trans.TransGlobal.ChangeStatus` | dtmsvr/types.go:40-54 | the database afterwards is the update through the object's ID on the caller's old status; on success the in-memory status is the new one, and so is the stored status of its gid when ID is that row's key; on failure the in-memory status is unchanged |
| `Trans.TransGlobal.SaveNew` | dtmsvr/types.go:112-137 | the outcome and the database afterwards are those of the creation unit of work on the object's row; ID becomes the new key exactly when the gid was new, even if the unit of work is rolled back |
| `Trans.TransGlobal.Process` | dtmsvr/types.go:100-110 | the processor for the type receives exactly the branches of this gid, in strictly ascending id order; without a processor the pass fails |
| `Trans.TransBranch.FromRow` | dtmsvr/types.go:56-66 | the in-memory branch holds the stored row's key and columns |
| `Trans.TransBranch.ChangeStatus` | dtmsvr/types.go:72-81 | the database afterwards is the branch compare-and-set on the caller's old status; the in-memory status is the new one exactly on success |
| `Store.InsertGlobal` | dtmsvr/types.go:117-119 | insert-or-ignore on gid: one row is affected exactly when the gid is new, and it is then stored under the next id, which the counter passes; stored rows are never changed |
| `Store.InsertGlobalValid` | dtmsvr/types.go:117-119 | the insert keeps rows keyed by gid and global ids positive, below the counter and distinct |
| `Store.UpdateGlobalWhere` | dtmsvr/types.go:121 | the update by gid and status affects one row exactly when the gid is stored in that status, and leaves every other row |
| `Store.UpdateGlobalWhereValid` | dtmsvr/types.go:121 | the update by gid rewrites neither a gid nor an id |
| `Store.UpdateGlobalByModel` | dtmsvr/types.go:50 | the update through an object's key adds and removes no row, affects some row exactly when one is selected, and changes nothing when none is |
| `Store.UpdateGlobalByModelValid` | dtmsvr/types.go:50 | the update keeps the table constraints, and with a nonzero key it affects at most one row |
| `Store.TouchGlobal` | dtmsvr/types.go:37 | the touch affects at most one row and adds or removes none |
| `Store.UpdateBranchWhere` | dtmsvr/types.go:74-77 | the conditional branch update keeps the number of rows and affects no more rows than there are |
| `Store.UpdateBranchWhereRows` | dtmsvr/types.go:74-77 | the conditional branch update rewrites exactly the rows it selects, those in the status with that id (any id when the key is zero), setting status and finish_time together, and leaves every other row as it was |
| `Store.UpdateBranchWhereAffected` | dtmsvr/types.go:74-79 | the update affects a row exactly when some row is selected by the key and the expected status, so checkAffected fails exactly when none does |
| `Store.UpdateBranchWhereAtMostOne` | dtmsvr/types.go:74-77 | with ascending, hence unique, ids an update through a nonzero key affects at most one row |
| `Store.InsertBranches` | dtmsvr/types.go:130-132 | the multi-row insert affects at most as many rows as it is given, appends exactly that many, and advances the id counter by the same number |
| `Store.InsertBranchesStamped` | dtmsvr/types.go:130-132 | every appended row is one of the requested rows with only its new id and the insert's create and update times filled in; no other column is changed |
| `Store.InsertBranchesPrefix` | dtmsvr/types.go:130-132 | the branch insert only appends: existing rows stay in place and the affected count is the number appended |
| `Store.InsertBranchesValid` | dtmsvr/types.go:130-132 | the insert keeps ids ascending and below the next id, and keeps branch keys unique |
| `Store.InsertBranchesCovers` | dtmsvr/types.go:130-132 | afterwards a row with every requested key is stored, whether it was inserted or already present |
| `Store.InsertBranchesPresent` | dtmsvr/types.go:130-132 | inserting rows whose keys are all stored already affects nothing and changes nothing |
| `Store.InsertBranchesIdempotent` | dtmsvr/types.go:130-132 | repeating a branch insert is a no-op: existing branch rows are never duplicated |
| `Store.BranchesOf` | dtmsvr/types.go:108 | the select returns no more rows than are stored, all of the gid |
| `Store.BranchesOfSelects` | dtmsvr/types.go:107-108 | the select returns exactly the stored rows of the gid |
| `Store.BranchesOfAscending` | dtmsvr/types.go:107-108 | the selected rows are in strictly ascending id order, as `order by id asc` asks |
| `Store.AssignColumns` | dtmsvr/svr.go:80 | a batch entry changes only the status, finish_time, rollback_time and update_time of a row, each only when its column is listed; a listed update_time is stamped with the current instant |
| `Store.ApplyUpdates` | dtmsvr/svr.go:80 | the batch update neither adds nor removes rows |
| `Store.ApplyUpdatesFrame` | dtmsvr/svr.go:80 | the batch update keeps every row's id, gid, url, data, branch, branch type and create time, and each column outside the listed ones |
| `Store.ApplyUpdatesLastWins` | dtmsvr/svr.go:80 | each row ends with the listed columns of the last batch entry for its id, or unchanged if no entry names it |
| `Store.ApplyUpdatesIdempotent` | dtmsvr/svr.go:79-88 | applying a batch a second time leaves the rows as the first application did |
| `Store.ApplyUpdatesValid` | dtmsvr/svr.go:80 | the batch update keeps the table constraints |
| `Store.Db.CreateGlobal` | dtmsvr/types.go:117-119 | the global insert with do-nothing on a gid conflict, drawing the next global id |
| `Store.Db.UpdateGlobal` | dtmsvr/types.go:121 | the global update conditioned on gid and status; it affects at most one row |
| `Store.Db.UpdateGlobalModel` | dtmsvr/types.go:50 | the global update through an object's key and status; with a nonzero key it affects at most one row |
| `Store.Db.Touch` | dtmsvr/types.go:37 | the unconditional touch of the gid's row |
| `Store.Db.UpdateBranch` | dtmsvr/types.go:74-77 | the branch update conditioned on the object's key and status; through a nonzero key it affects at most one row |
| `Store.Db.CreateBranches` | dtmsvr/types.go:130-132 | the loop inserting branches one by one computes the multi-row insert with do-nothing on conflict |
| `Store.Db.UpdateBranches` | dtmsvr/svr.go:80 | a failing call changes nothing; a succeeding one applies the batch to the listed columns |
| `Store.Db.Rollback` | dtmsvr/types.go:113-136 | the rolled-back unit of work restores the rows it started from and keeps the ids it drew |
| `Flusher.ToUpdate` | dtmsvr/svr.go:71-75 | the batch entry for an event carries its id, status and finish time |
| `Flusher.ToUpdates` | dtmsvr/svr.go:70-75 | one batch entry per event, in dequeue order |
| `Flusher.RunLength` | dtmsvr/svr.go:68 | the first check at which the window is closed: open at every earlier check, closed at that one |
| `Flusher.BatchSize` | dtmsvr/svr.go:68 | a batch holds at most 20 events, no more than are queued or than window checks allow, and stops only for one of those three reasons |
| `Flusher.Accumulate` | dtmsvr/svr.go:65-78 | the batch is the first BatchSize events in dequeue order, each with the same id, status and finish time; the queue is the batch's events followed by what remains |
| `Flusher.Flush` | dtmsvr/svr.go:79-89 | an empty batch makes no call; otherwise every call receives the same batch, all fail except the last, and the tables end with the batch applied once |
| `Flusher.FlushKeepsOtherColumns` | dtmsvr/svr.go:80 | a flush changes only status, finish_time and update_time on any row |
| `Flusher.FlushLastEventWins` | dtmsvr/svr.go:70-80 | a flushed row ends with the status and finish time of the last event for it in the batch |
| `Flusher.TwentyFiveEvents` | dtmsvr/svr.go:68-88 | 25 queued events under windows that do not close early go out as 20 and then the remaining 5 |
| `Flusher.ApplyCycles` | dtmsvr/svr.go:63-90 | the branch rows after a run of cycles keep their number |
| `Flusher.ApplyCyclesKeepsOtherColumns` | dtmsvr/svr.go:63-90 | any number of flushes changes only status, finish_time and update_time, on any row |
| `Flusher.BranchFlusher.Send` | dtmsvr/svr.go:60 | a send is accepted exactly when fewer than 1000 events wait; a refused send changes nothing and the producer must wait |
| `Flusher.BranchFlusher.Cycle` | dtmsvr/svr.go:63-90 | one cycle removes BatchSize events from the head of the channel, records them as flushed, retries until a call succeeds, with every earlier call failing and all of them carrying the same batch, and applies them to the store; no event is lost and no other table changes |
| `Flusher.BranchFlusher.Run` | dtmsvr/svr.go:62-91 | over any number of cycles the flushed events and the remaining channel together are the original channel, in order; the cycles' batches, each at most 20, are the flushed events in order, and the store ends with each batch applied in turn and nothing else changed |

## Left out

- `StartSvr` and `PopulateDB` (dtmsvr/svr.go:24-56): listener binding, middleware, driver registration and schema setup are network and database set-up.
- `TransFromContext` and `TransFromDb` (dtmsvr/types.go:139-158): JSON parsing of a request and a single-row fetch are transport and driver plumbing. A key sent in the request body is not modelled: creation always draws the next auto-increment id.
- `writeTransLog`, the logging calls, `handlePanic`, `TransProcessedTestChan` and `common.RecoverPanic`: audit output, panic containment and a test hook. Panics are returned as error values instead.
- The bodies of `GenBranches` and `ProcessOnce` for saga, tcc and xa are not part of this model. `SaveNew` takes the branch generator as a total function parameter, and `Process` returns what it would hand to `ProcessOnce`.
- Errors of the database driver behind `db.Must()` are not modelled. The only store failure modelled is the flusher's `UpdateBranches` error.
- Wall-clock time (`time.Now`, `time.Since`, `time.After`, `time.Sleep`, the 200 ms window, the 20 ms poll slice, the 1 s back-off) is replaced by caller-supplied instants and finite boolean oracles.
- Goroutines and concurrent producers: the channel's contents are fixed during a cycle, so an event arriving during a 20 ms wait is not modelled. A full channel refuses the send instead of blocking the producer.
- `Flusher.BranchFlusher.Run`: models a finite run of cycles; the source's outer loop never ends.
- `Flusher.BranchFlusher.Run`: assumes every cycle completes. The `defer common.RecoverPanic(nil)` at dtmsvr/svr.go:64 sits inside `for {}`, so it runs only when `updateBranchAsync` returns. One deferred call is stacked per cycle. A panic in any cycle is recovered, but the goroutine then ends and the channel is no longer drained. The model has no panics in the flusher and does not capture this.
- `Store.ApplyUpdates`: the body of the store's `UpdateBranches` is not part of this model. The model assumes that the batch's entries apply in order, that the last entry for an id wins and that an entry whose id has no row is skipped. `Store.ApplyUpdatesLastWins` and `Flusher.FlushLastEventWins` rest on that assumption.
- The row count returned by `UpdateBranches` is only logged by the source and is not modelled.
- gorm may write other updated values back into the in-memory struct. The model tracks only the explicit `t.Status = status` assignment and the key that `Create(t)` writes into `t.ID`.
- examples/http_msg.go is a client sample and has no coordinator logic.
