# Sushiro queue bot: the queue-progress monitor in Dafny

This project models the queue-progress monitor of a Telegram bot for a sushi
restaurant chain. A patron picks a language and a store, then types their
ticket number. The bot then polls the store's live queue feed every 30 seconds.
Each tick computes how many tables are still ahead of the patron
(`queue_number - max(active tickets)`). It maps that number to an alert stage
through the thresholds `ALERT_LIST = [10, 5, 2]`, sends an "almost ready"
alert when the stage rises, and sends a final call at the last stage.
A monitor stops itself after the final call. It is also meant to stop, with a
"store closed" notice, when the feed shows no active ticket. Monitors are jobs
in the bot's job queue, named after the chat. Entering a new ticket removes the
chat's earlier monitors, and `/cancel` is meant to remove them too. As written,
neither the closed notice nor `/cancel` gets that far: both read a text that the
localization tables do not define (see "## Findings").

Modules, following the source files:

- `Dal` (src/dal.py): the per-user `user_data` dictionary.
  - `UserData` is a class whose one field, `entries`, is a map from the five
    keys the bot uses to string or integer values.
  - `Record` is the subset type that keeps each key to its value kind.
  - The `ContextDal` save/get methods are methods over a `UserData`. Each takes
    the user name the source passes and ignores it.
- `QueueInfo` (src/utils.py): the parsing step of `get_queue_info`. Each entry
  of the feed's answer is cut at its first `-`. A null or empty answer gives
  `[]`.
- `Alerts` (app.py): `get_wait_progress`.
  - `Stage` is the recursive reference definition, over any threshold list.
  - `GetWaitProgress` is the source's loop with an early return, proved equal
    to `Stage` on `ALERT_LIST`.
- `Snapshot` (app.py): `get_current_queue`. It returns the largest active
  ticket, or -1 when there is none.
- `Keyboard` (app.py): the store buttons split into rows of three.
- `Messages`: what the bot sends, as a kind plus its parameters, and `Outbox`,
  the sequence of messages sent. `TableAttributes` lists the attributes of a
  localization table, and `Writable` says whether the text a message reads
  exists in it.
- `Jobs`: the job queue.
  - `Job` has a name (the chat id), a context (the user's `UserData`, shared by
    reference) and a `removed` flag.
  - `JobQueue` holds the jobs in order. Its invariant says no two live jobs
    share a name.
- `Monitor` (app.py): `poll_queue`.
  - `TickOf` is the pure decision of one tick.
  - `PollQueue` is the imperative tick. It sends to the outbox, removes its job
    and writes `wait_progress`, and is proved to act as `TickOf` says.
  - `Run` chains ticks over a sequence of snapshots until the job removes
    itself.
  - `TickAsWritten` is the tick as the code runs it. It differs from `TickOf`
    only on the closed notice.
- `Handlers` (app.py): `handle_queue_input`, `cancel` and `show_queue_info`.

Behaviour of the code that the model keeps and that the proofs bring out:

- A tick reads `user_data[...]` without a default. A missing key raises and ends
  the tick before anything is sent or written. The job-queue framework logs the
  error, and the job keeps running (`Crashed`).
- A tick's stored stage (`wait_progress`) is written only by intermediate
  alerts. The final call and the intended closed notice remove the job and
  leave it unchanged.
- `handle_queue_input` does not reset `wait_progress`. The new monitor runs over
  the same dictionary, so a stage stored by an earlier monitor of the same user
  silences the lower alerts of the next one (`CarriedStageSilencesAlerts`).
- Jobs are named by chat while records are kept per user. A second user entering
  a ticket in the same chat removes the first user's monitor.

Further behaviour of the code that the model keeps:

- Stage numbering. `get_wait_progress` returns the index of the first
  threshold that the count strictly exceeds, or `len(ALERT_LIST)` when it
  exceeds none. With descending thresholds, this is the number of thresholds
  at or above the count, so a count of 2 or less is the final stage.
- Closure. An empty ticket list counts as "closed". There is no separate
  closed signal.
- The final call stops the monitor without recording its stage in
  `wait_progress`.
- The stored stage lives in the user's dictionary, not in the monitor. A new
  monitor for the same user does not start at 0.
- A failing fetch raises out of the tick. Like any other error in a job, it
  leaves the tick without effect, and the next tick runs as usual.

## Model

| member | source | states |
|---|---|---|
| `Dal.SaveLanguage` | src/dal.py:43-44 | writes `language` and no other key |
| `Dal.GetLanguage` | src/dal.py:47-48 | the saved language, or `'zh'` when none was saved |
| `Dal.SaveQueueNumber` | src/dal.py:51-52 | writes `queue_number` and no other key |
| `Dal.GetQueueNumber` | src/dal.py:55-56 | the saved ticket number, or None exactly when the key is absent |
| `Dal.SaveStoreId` | src/dal.py:59-60 | writes `store_id` and no other key |
| `Dal.GetStoreId` | src/dal.py:63-64 | the saved store id, or None exactly when the key is absent |
| `Dal.SaveChatId` | src/dal.py:67-68 | writes `chat_id` and no other key |
| `Dal.GetChatId` | src/dal.py:71-72 | the saved chat id, or None exactly when the key is absent |
| `Dal.SaveThenGet` | src/dal.py:43-72 | each getter returns what the matching save wrote |
| `Dal.GetBeforeSave` | src/dal.py:47-72 | on an empty record: language `'zh'`, the other getters None, stored stage 0 |
| `Dal.SaveKeepsOtherKeys` | src/dal.py:44-68 | a save changes only its own key and keeps the record well-typed |
| `QueueInfo.BeforeDash` | src/utils.py:30 | the result is the longest dash-free prefix of the entry |
| `QueueInfo.BeforeDashNoDash` | src/utils.py:30 | an entry without a dash is returned unchanged |
| `QueueInfo.BeforeDashIdempotent` | src/utils.py:30 | cutting an already cut entry changes nothing |
| `QueueInfo.ParseQueue` | src/utils.py:28-30 | a null answer gives `[]`; otherwise same length and order, each entry cut just before its first dash and free of dashes |
| `QueueInfo.ParseKeepsPlainEntries` | src/utils.py:30 | a dash-free entry appears unchanged at its own index |
| `Alerts.Stage` | app.py:94-99 | result in `[0, len(thresholds)]`; every threshold before it is at least the count, and the one at it (if any) is below the count |
| `Alerts.GetWaitProgress` | app.py:94-99 | the loop returns `Stage(tables_left, ALERT_LIST)`, so at most 3 |
| `Alerts.StageMonotone` | app.py:95-99 | more tables left never gives a higher stage |
| `Alerts.StageBands` | app.py:95-99 | with descending thresholds, stage i is exactly the band `thresholds[i] < count <= thresholds[i-1]`: upper end inclusive, lower end exclusive |
| `Alerts.AlertListStages` | app.py:40 | with `[10, 5, 2]`: stages 0..3; 11→0, 10→1, 9→1, 5→2, 2→3 |
| `Snapshot.MaxTicket` | app.py:105 | -1 for no tickets; otherwise a ticket of the list that no ticket exceeds |
| `Snapshot.CurrentQueue` | app.py:102-105 | first component is -1 exactly when the list is empty, otherwise the largest ticket; second is the list unchanged |
| `Keyboard.StoreRows` | app.py:64-65 | every row has 1 to 3 buttons, and every row but the last has exactly 3 |
| `Keyboard.StoreRowsFlatten` | app.py:65 | the rows, concatenated, are the original buttons in order |
| `Keyboard.StoreRowsUnique` | app.py:64-65 | any rows of 3 buttons, with a last row of 1 to 3, that concatenate to the buttons are exactly the layout `StoreRows` gives |
| `Messages.Outbox.Send` | app.py:116-117 | a sent message is appended to what was sent before |
| `Messages.WritableMessages` | src/localization.py:5-31 | the tables define the texts of the alert, the final call and the ticket confirmation, and neither the closed notice nor the goodbye |
| `Jobs.Job.constructor` | app.py:150-151 | a new job carries its name and context and is live |
| `Jobs.Job.ScheduleRemoval` | app.py:118 | the job is no longer live |
| `Jobs.LiveNamed` | app.py:146 | exactly the live jobs of that name, from the queue |
| `Jobs.AtMostOneLiveNamed` | app.py:146-151 | under the queue invariant a lookup by name returns at most one job |
| `Jobs.JobQueue.RemoveNamed` | app.py:146-148 | every job of the name is removed and no other job changes; none of the name is left live |
| `Jobs.JobQueue.RunRepeating` | app.py:150-151 | a fresh live job with the name and context is appended |
| `Jobs.JobQueue.Replace` | app.py:146-151 | after replacement the new job is the one live job of its name, older jobs of that name are removed, others unchanged |
| `Monitor.PollQueue` | app.py:108-137 | the intended tick: messages sent, job removal and new record are exactly those `TickOf` decides for the old record and the snapshot |
| `Monitor.TickAsWritten` | app.py:108-137 | the tick as written: it sends only texts the tables define, and it is either the intended tick or a tick that sends nothing, keeps the job and changes nothing |
| `Monitor.ClosedStoreKeepsPollingAsWritten` | app.py:115-119 | as written, a tick runs as intended exactly when tickets are served; on an empty snapshot it raises, sends nothing and keeps the job polling |
| `Monitor.ClosedExactlyWhenEmpty` | app.py:114-119 | as intended, an empty snapshot, and only that, sends one closed message, removes the job and keeps the record |
| `Monitor.QuietUnlessHigherStage` | app.py:121-124 | a tick is silent exactly when the stage is not above the stored one; then nothing changes; stage 0 is never sent |
| `Monitor.AdvanceRecordsStage` | app.py:133-137 | an alert carries `tables_left`, keeps the job and stores its stage, which is above the old one and below `len(ALERT_LIST)` |
| `Monitor.FinalWhenTwoLeft` | app.py:126-131 | the final call happens exactly when at most 2 tables are left and the stored stage is below 3; it removes the job and leaves `wait_progress` alone |
| `Monitor.StoredProgressMonotone` | app.py:122-137 | the stored stage never decreases, rises only with an alert, and stays below 3 |
| `Monitor.Run` | app.py:108-137 | the first tick is `TickOf` the starting record; the run goes through every snapshot unless it ends with a tick that removes the job, and no earlier tick removes it |
| `Monitor.RunAlertsIncrease` | app.py:122-137 | for any snapshots, the stages announced strictly increase and lie above the starting stage and at most 3 |
| `Monitor.TicketFiftyQuiet` | app.py:121-124 | ticket 50 with 39 served: 11 left, stage 0, silent |
| `Monitor.TicketFiftyAlert` | app.py:133-137 | ticket 50 with 41 served: first alert with 9 tables left, stage 1 stored |
| `Monitor.TicketFiftyFinal` | app.py:126-131 | ticket 50 with 49 served after stage 1: final call |
| `Monitor.TicketFiftyExample` | app.py:108-137 | the run quiet → alert(9) → final call ends after the final call, though the snapshots go on |
| `Handlers.HandleQueueInput` | app.py:140-153 | saves ticket and chat, leaves the new job the one live monitor of the chat over the same record, removes the older ones, confirms |
| `Handlers.Cancel` | app.py:164-173 | as intended: says goodbye; afterwards no live monitor of the chat, other jobs unchanged |
| `Handlers.CancelAsWritten` | app.py:166-168 | as written: reading the goodbye text always raises, before the reply and before the removal loop at lines 170-172 |
| `Handlers.ShowQueueInfo` | app.py:176-194 | help when no live monitor or no store/ticket, no reply when the store serves nobody, otherwise the tables left counted against the largest served ticket; nothing changes |
| `Handlers.CarriedStageSilencesAlerts` | app.py:123 | a stage stored by an earlier monitor survives a new ticket, and silences every intermediate alert of the new monitor |

## Findings

| source | as written | input that shows it | evidently intended | confidence | as-written member | corrected member |
|---|---|---|---|---|---|---|
| app.py:117 | the closed notice reads `localization[lan].this_store_closed_no_more_msgs`, which no table in src/localization.py defines; `AttributeError` is raised before `send_message` and before `schedule_removal` at line 118 | any record with language, store, chat and ticket, and an empty snapshot | send the closed notice once and stop the monitor | high, not executed | `Monitor.ClosedStoreKeepsPollingAsWritten` | `Monitor.ClosedExactlyWhenEmpty` |
| app.py:168 | `cancel` reads `localization[lan].goodbye`, which no table defines; `AttributeError` is raised before the reply and before the removal loop at lines 170-172 | any `/cancel`, e.g. chat 7 with language `'en'` | say goodbye and remove the chat's monitors | high, not executed | `Handlers.CancelAsWritten` | `Handlers.Cancel` |

The rest of the model (`PollQueue`, `Run`, `RunAlertsIncrease`, the ticket-50
run) uses the intended tick `TickOf`. Its alert and final-call texts do exist
in the tables, so those ticks are the same as written (`TickAsWritten`).

## Left out

- The Telegram transport and the conversation framework are not modelled:
  `start`, the keyboards, `handle_store`, `handle_bad_queue_input`,
  `command_help`, `command_about`, `handle_every_message`, `main` and the token
  file. Of `handle_language`, only the row split is modelled. Replies are
  message tags in an outbox. The conversation state that handlers return is
  not modelled.
- Job timing is not modelled: `run_repeating`, `POLL_INTERVAL` and concurrent
  ticks. A tick is an explicit call to `PollQueue`. A removed job stays in the
  queue with its flag set, and the scheduler never runs it again.
- HTTP, the TTL caches, `get_all_stores_info` and `_get_response_json` are not
  modelled, because they are network I/O with floating-point coordinates. Each
  tick and each status query takes the feed's snapshot as a parameter.
- `int(q)` on the feed's strings is not modelled. Tickets are natural numbers,
  because the parsed entries carry no sign.
- ParseQueue: a falsy answer is modelled as null or an empty list. Other JSON
  shapes (objects, strings, numbers) are not modelled.
- The texts of the localization tables and `str.format` are not modelled.
  Only the set of attributes a table defines is modelled. A message is its
  kind plus the values its template is filled with.
- `localization[lan]` raises `KeyError` for a language other than `'en'` or
  `'zh'`. This is not modelled, because the stored language comes from the
  language keyboard, which offers only those keys.
- Sending is taken to succeed. Whether the chat server accepts the MarkdownV2
  formatting of the alert and final-call texts is outside the code. A
  rejected send would raise before `wait_progress` is written.
- The `SushiroDalInterface` abstract class is not modelled: it declares
  methods with no behaviour.
- Logging is not modelled. When a job callback raises, the framework logs the
  error; the model keeps only the fact that nothing happens (`Crashed`).
- Job names are `str(chat_id)`. The model names jobs by the integer chat id,
  since `str` is injective on integers.
- HandleQueueInput: appends its confirmation to the outbox before replacing
  the chat's jobs, not after. The two steps touch disjoint state, so the final
  state is the same.
