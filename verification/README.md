# Telegram forwarder: a Dafny model of its bookkeeping

The repository holds two Telegram forwarders that copy messages from a source chat to a target chat.

- **Pyrogram bot (`new_bot/`).** Users register a bot token, tune filters and captions, and start or resume forwarding tasks. Tasks are stored in a PostgreSQL `tasks` table, and a shared `STATUS` dict counts their progress.
- **Telethon front ends (`telegram_bot.py`, `telegram_client.py`).** They walk a user through a login and selection dialog, then hand the work to a `BotManager`. The manager keeps one `Forwarder` per phone, and a JSON `Storage` keeps one file per phone.

This project models the logic around the network calls and proves what it guarantees:

- locks, cancel flags and counters;
- checkpoints and task statuses;
- the persisted tables and files;
- the parsers and validators;
- the dialog state machines.

Every Telegram call is an input to the model:

- a message sequence;
- a delivery answer per request;
- the way the iterator ends;
- success or failure of logins and lookups.

The model is one module per source file:

| Dafny file (module) | models |
|---|---|
| `common.dfy` (`Common`) | Python string helpers the others share: `split`, `join`, `strip`, `rstrip`, `int()`, `str()`, `[-4:]` |
| `time_format.dfy` (`TimeFormat`) | `TimeFormatter` of `new_bot/plugins/regix.py` |
| `buttons.dfy` (`Buttons`) | `parse_buttons` of `new_bot/plugins/test.py` |
| `database.dfy` (`Db`) | the tables of `new_bot/database.py` as maps and sequences, and its operations as a class |
| `startup.dfy` (`Startup`) | the demotion loops of `new_bot/main.py` |
| `status_board.dfy` (`Sts`) | class `STS` and the shared `STATUS` dict of `new_bot/plugins/utils.py` |
| `regix.dfy` (`Regix`) | the task engine of `new_bot/plugins/regix.py`, whose fields are the `temp` registries |
| `commands.dfy` (`Commands`) | `/forward`, `/tasks` and `/cancel` of `new_bot/plugins/commands.py` |
| `settings.dfy` (`Settings`) | the settings router, the filter toggle and the token check of `new_bot/plugins/settings.py` |
| `storage.dfy` (`UserStore`) | the per-phone JSON files of `storage.py` |
| `forwarder.dfy` (`Relay`) | class `Forwarder` of `forwarder.py` |
| `bot_manager.dfy` (`Manager`) | class `BotManager` of `bot_manager.py` |
| `dialog.dfy` (`Dialog`) | the dialog step shared by both Telethon front ends, and callback-data parsing |
| `bot_dialog.dfy` (`BotDialog`) | the handlers of `telegram_bot.py` |
| `client_dialog.dfy` (`ClientDialog`) | the handlers of `telegram_client.py` |

## How the model is built

**Mutable state.** Code that mutates state becomes a class:

| Class | State it holds |
|---|---|
| `Db.Database` | the tables |
| `Sts.StatusBoard` | `STATUS` |
| `Regix.Engine` | `lock`, `CANCEL`, `IS_FRWD_CHAT`, `forwardings`, `ACTIVE_TASKS`, plus an outbox of the requests that reached the target |
| `UserStore.Storage` | the files |
| `Relay.Forwarder` | `is_running`, `should_cancel`, `progress` |
| `Manager.BotManager` | `clients`, `forwarders`, `active_tasks` |
| `BotDialog.TelegramBot` | `user_states`, `sessions` |
| `ClientDialog.TelegramClientBot` | `user_sessions` |

Calls into the manager are recorded in a `calls` log.

**Loops.** A loop in the source is a loop in the model, proved against a function on values:

- the `async for` loop of a run (`Regix.Engine.Loop`);
- the two paging loops (`Relay.Forwarder.CountPass` and `Relay.Forwarder.RelayPass`);
- the result loop of `get_user_active_tasks`;
- the demotion loop;
- the Resume-button loop.

**Exceptions.** Exceptions are modelled as error results:

- `None` where `int()` raises;
- `AddRaises` for `STS.add`;
- `Raised` for a `KeyError` in a dialog step;
- `HandlerRaised` for a message without text.
- `Relay.FetchFault` for a `get_messages` call that raises in either paging loop of a run (which pass, which call).

**The `/cancel` dead branch.** In `telegram_bot.py`, `/cancel` is a command. So the `~filters.COMMAND` filter keeps it from `handle_message`, and the branch of `handle_message` that resets the state never runs. `BotDialog.TelegramBot.OnText` states that `/cancel` leaves `user_states` and `sessions` as they were. `BotDialog.TelegramBot.HandleMessage` models the dead branch for a direct call.

**Logout in the two front ends.** The bot's `/logout` deletes the session and keeps the state. A user left in the code step then has no session, and their next message raises a `KeyError`; the contract of `BotDialog.TelegramBot.LogoutCommand` shows this breaks the dialog invariant. `telegram_client.py` resets the whole session instead, so its invariant always holds. There, only the link steps can raise, because they read the phone, which a user who never logged in lacks.

## Model

| member | source | states |
|---|---|---|
| Common.Split | new_bot/plugins/settings.py:38 | `s.split(sep)` gives at least one piece, no piece holds the separator, and joining the pieces gives `s` back |
| Common.SplitJoin | telegram_bot.py:231 | splitting undoes joining when no part holds the separator (callback data `prefix:a:b` reads back its fields) |
| Common.SplitLast | bot_manager.py:105 | the last piece of `a + sep + b` is `b` when `b` holds no separator |
| Common.SplitAtFirst | telegram_bot.py:231 | splitting at the first separator gives the part before it, then the split of the rest |
| Common.RStrip | bot_manager.py:206 | `rstrip(c)` drops exactly the trailing run of `c`: the result is a prefix, does not end in `c`, and only `c` was removed |
| Common.Strip | new_bot/plugins/settings.py:198 | `strip()` leaves no white space at either end |
| Common.LStrip | new_bot/plugins/settings.py:198 | the leading white space, and only it, is removed |
| Common.RStripSpace | new_bot/plugins/settings.py:198 | the trailing white space, and only it, is removed |
| Common.StripNoSpace | new_bot/plugins/settings.py:198 | a text without white space is its own strip |
| Common.NatToString | new_bot/plugins/regix.py:555-559 | `str(n)` of a natural is a non-empty numeral whose value is `n`, with a leading 0 only for 0 |
| Common.IntToString | new_bot/plugins/regix.py:555-559 | `str(n)` is non-empty and starts with '-' exactly for negative `n` |
| Common.ParseInt | telegram_bot.py:718 | `int(text)` succeeds only on text with something besides white space |
| Common.ParseIntOfIntToString | telegram_bot.py:718 | `int(str(n)) == n` for every integer |
| Common.LastFour | new_bot/plugins/commands.py:141 | `s[-4:]` is the last four characters of `s`, or all of a shorter `s` |
| TimeFormat.SpanOf | new_bot/plugins/regix.py:551-554 | the `divmod` chain gives in-range hours, minutes, seconds and milliseconds that add back up to the count |
| TimeFormat.SpanOfUnique | new_bot/plugins/regix.py:551-554 | no other in-range span stands for the same count |
| TimeFormat.TimeFormatterListsParts | new_bot/plugins/regix.py:550-560 | the result lists the non-zero parts with their units, in the order days, hours, minutes, seconds, milliseconds, joined by ", " |
| TimeFormat.TimeFormatterEmptyIff | new_bot/plugins/regix.py:550-560 | the result is empty exactly for a zero count |
| Buttons.MatchPrefix | new_bot/plugins/test.py:64 | a match of `\{([^}]+)\}\(([^)]+)\)` at the start of the text is at least four characters long |
| Buttons.FindAllRenderRow | new_bot/plugins/test.py:64-68 | `re.findall` reads a written-out row of readable buttons back button for button |
| Buttons.Rows | new_bot/plugins/test.py:61-70 | every row kept has at least one button (rows with no match are dropped) |
| Buttons.ParseButtons | new_bot/plugins/test.py:54-71 | the intended parser returns a keyboard only with markup on and both braces in the text, and the keyboard is never empty |
| Buttons.ParseButtonsRoundTrip | new_bot/plugins/test.py:54-71 | a keyboard of readable one-line buttons, written out as `{text}(url)` lines, parses back to itself |
| Buttons.ParseButtonsNoneCases | new_bot/plugins/test.py:56-60 | empty text, markup off, or a text lacking '{' or '}' gives None |
| Buttons.BraceBranchNeverBuilds | new_bot/plugins/test.py:60-75 | as written, the brace branch either raises NameError or returns None, never a keyboard |
| Buttons.ParseButtonsAsWrittenIsNone | new_bot/plugins/test.py:1-7 | as the file runs, `re` is unbound, the NameError is swallowed, and every input gives None |
| Buttons.ParseButtonsAsWritten | new_bot/plugins/test.py:54-75 | a keyboard only with markup on and a text holding both braces (and, by `ParseButtonsAsWrittenIsNone`, never) |
| Buttons.ParseButtonsDiscrepancy | new_bot/plugins/test.py:60-75 | every keyboard the intended parser reads back is dropped by the file's version |
| Db.DictToJson | new_bot/database.py:15-19 | None stays None and only None gives None |
| Db.JsonToDict | new_bot/database.py:21-28 | a missing column reads as None |
| Db.JsonRoundTrip | new_bot/database.py:15-28 | the two helpers are inverse whenever the parser reads back what the printer wrote |
| Db.DefaultFilters | new_bot/database.py:253-274 | the default filters are the nine message kinds, all on |
| Db.DefaultConfigs | new_bot/database.py:253-274 | the default configs: duplicate check on, forward tag off, no size limit, no caption, all nine filters on |
| Db.RowOf | new_bot/database.py:444-490 | the saved row carries the given id, user and chats, with the `.get` defaults for missing keys (active, checkpoint 0, totals 0, empty configs) |
| Db.UsersAfterAdd | new_bot/database.py:152-159 | the user is present afterwards; an existing row is kept as it was, a new one gets the name, no ban and the default configs |
| Db.AddUserIdempotent | new_bot/database.py:152-159 | adding the same id again changes nothing |
| Db.UpdateUser | new_bot/database.py:182-206 | an UPDATE by id keeps the set of users and every other row |
| Db.SetStatus | new_bot/database.py:529-544 | the rows of the task get the new status, and the new checkpoint only when one is given; every other row and column stays |
| Db.SetStatusTwice | new_bot/database.py:529-544 | a later status write overrides an earlier one, keeping the later checkpoint if it has one |
| Db.SetStatusKeepsIds | new_bot/database.py:529-544 | a status write keeps every row's id, so task ids stay unique |
| Db.UpsertSingle | new_bot/database.py:437-493 | after the save exactly one row carries the id, it holds the new fields, every other row is kept, and ids stay unique |
| Db.Upsert | new_bot/database.py:437-493 | the rows grow by one exactly when the id is new; every row with another id is kept in place; every row with the id holds the new fields |
| Db.FindTask | new_bot/database.py:495-509 | `get_task` finds a row with that id exactly when one exists |
| Db.Selected | new_bot/database.py:515-517 | the query selects only the user's tasks that are active, paused or failed |
| Db.SelectedHasAll | new_bot/database.py:515-517 | every such task is selected |
| Db.InsertNewestFirst | new_bot/database.py:515-523 | inserting into a newest-first list adds exactly that row and keeps the order |
| Db.WithoutBotsOf | new_bot/database.py:310-314 | the delete removes exactly the user's bots and keeps one bot per user |
| Db.FindBot | new_bot/database.py:316-323 | `get_bot` returns a bot of that user, or None when the user has none |
| Db.BotsAfterAddFacts | new_bot/database.py:282-308 | a user never gets a second bot, an existing bot is never replaced, and a user without one gets the new row |
| Db.Database.constructor | new_bot/database.py:32-36 | the tables start empty |
| Db.Database.AddUser | new_bot/database.py:152-159 | `add_user` changes only the users table, as `UsersAfterAdd` says |
| Db.Database.GetBanStatus | new_bot/database.py:208-219 | the stored ban status, not banned for an unknown user |
| Db.Database.BanUser | new_bot/database.py:195-206 | an existing user is banned with the reason; nothing else changes |
| Db.Database.RemoveBan | new_bot/database.py:182-193 | afterwards the user is not banned; nothing else changes |
| Db.Database.GetConfigs | new_bot/database.py:250-280 | the stored configs, or the defaults for an unknown user |
| Db.Database.UpdateConfigs | new_bot/database.py:241-248 | an existing user's configs are replaced; an unknown user is not created |
| Db.Database.UpdateFilter | new_bot/database.py:338-343 | only the 'filters' key of an existing user's configs changes; every other user and table stays |
| Db.Database.GetBot | new_bot/database.py:316-323 | the user's bot row, or None when the user has no bot |
| Db.Database.AddBot | new_bot/database.py:282-308 | an existing bot is kept, a user without one gets the new row, and one bot per user still holds |
| Db.Database.RemoveBot | new_bot/database.py:310-314 | afterwards the user has no bot; other users' bots stay |
| Db.Database.AddChannel | new_bot/database.py:365-398 | True exactly when both ids are present and non-zero and the pair is new, and then one row is inserted; otherwise nothing changes |
| Db.Database.SaveForwardingTask | new_bot/database.py:437-493 | an upsert: afterwards `get_task` finds exactly the saved row |
| Db.Database.GetTask | new_bot/database.py:495-509 | the row with that id, or None when there is none |
| Db.Database.UpdateTaskStatus | new_bot/database.py:529-544 | the tasks table changes as `SetStatus` says and the other tables stay |
| Db.Database.GetUserActiveTasks | new_bot/database.py:511-527 | exactly the user's active, paused and failed tasks, each once, newest `created_at` first |
| Startup.Mark | new_bot/main.py:59-61 | marking keeps the number of rows |
| Startup.DemoteRows | new_bot/main.py:58-62 | the demotion keeps the number of rows |
| Startup.MarkStep | new_bot/main.py:61 | one `update_task_status(id, "paused")` marks one more id |
| Startup.MarkSelected | new_bot/main.py:58-62 | with unique ids, pausing the active rows of the query result pauses exactly that user's active rows |
| Startup.DemoteActiveTasks | new_bot/main.py:58-62 | the loop over the query result leaves the table as `DemoteRows` says and the other tables alone |
| Startup.RunMain | new_bot/main.py:56-79 | `main` demotes user 0's active tasks at start-up and again at shutdown, and nothing else |
| Startup.DemoteFacts | new_bot/main.py:60-61 | the user's active rows become paused; paused, failed and finished rows and other users' rows stay; ids and checkpoints never change |
| Startup.DemoteIdempotent | new_bot/main.py:73-79 | the shutdown pass changes nothing more |
| Startup.OtherUsersStayActive | new_bot/main.py:58 | as written, an active task of any user other than 0 is still active after both passes |
| Startup.OtherUsersStayActiveExample | new_bot/main.py:58 | user 7's active task "task_0000abcd" survives start-up |
| Startup.DemoteAll | new_bot/main.py:56-62 | the corrected demotion keeps the number of rows |
| Startup.DemoteAllFacts | new_bot/main.py:56-62 | after the corrected demotion no task is active, and only active rows changed, only in status |
| Startup.DemoteEveryUser | new_bot/main.py:56-62 | the corrected loop leaves no task active in the table |
| Sts.ValueStr | new_bot/plugins/regix.py:78-79 | `str(v)` of a text is the text and of a number its numeral |
| Sts.FreshRecord | new_bot/plugins/utils.py:25-39 | `store` writes the chats, skip and limit, `fetched = skip`, `total = limit`, and zero counters |
| Sts.BumpedFacts | new_bot/plugins/utils.py:57-64 | `add(key, v)` raises only `key` of this id's record by `v`; an unknown key changes nothing; other ids' records never change |
| Sts.BumpedKeepsStored | new_bot/plugins/utils.py:57-64 | `add` keeps counters numbers and loses no key |
| Sts.BumpedTwice | new_bot/plugins/utils.py:57-64 | two additions to the same key add up |
| Sts.Divisor | new_bot/plugins/utils.py:68 | a zero divisor is read as 1, any other is kept |
| Sts.TruncDiv | new_bot/plugins/utils.py:146 | `int(a / b)` truncates toward zero: the floor for non-negative operands, with the sign of the true quotient |
| Sts.ProgressOf | new_bot/plugins/utils.py:140-146 | a record with no total, or a zero one, has progress 0 |
| Sts.ProgressBounds | new_bot/plugins/utils.py:146 | for `0 <= fetched <= total` the percentage lies in 0..100 |
| Sts.SetupOf | new_bot/plugins/utils.py:74-97 | chat id, limit and offset come from the record and keywords and extensions from the configs; `skip_duplicate` is `[db_uri, TO]` exactly when `duplicate` is on, `media_size` is set exactly when `file_size != 0`; bot, caption, tag, filters and protect come from the configs; the keyboard is None, since `parse_buttons` as written never builds one |
| Sts.StatusBoard.constructor | new_bot/plugins/utils.py:13 | `STATUS` starts empty |
| Sts.StatusBoard.Get | new_bot/plugins/utils.py:43-50 | `get(key)` is None when the record is absent or empty or lacks the key, else the stored value |
| Sts.StatusBoard.GetFull | new_bot/plugins/utils.py:43-55 | `get(full=True)` is `{}` when the record is absent or empty, else the record |
| Sts.StatusBoard.Store | new_bot/plugins/utils.py:25-41 | `store` replaces the id's record by the fresh one and touches no other id |
| Sts.StatusBoard.Add | new_bot/plugins/utils.py:57-64 | raises exactly when the id has no record or the key holds no number, and then changes nothing; otherwise the key grows by `v` |
| Sts.StatusBoard.AddTime | new_bot/plugins/utils.py:59-60 | `add(time=True)` changes only `start`, and raises exactly when there is no record |
| Sts.StatusBoard.UpdateLastMessage | new_bot/plugins/utils.py:130-133 | no-op for an unknown id; otherwise only `last_message_id` changes |
| Sts.StatusBoard.Divide | new_bot/plugins/utils.py:66-69 | the quotient is `no` over the divisor, with 1 for a zero divisor |
| Sts.StatusBoard.GetProgress | new_bot/plugins/utils.py:135-146 | 0 without a record, or with a missing or zero total |
| Sts.StatusBoard.Put | new_bot/plugins/utils.py:27 | the id's record is replaced and every other id's kept |
| Sts.StatusBoard.LoadFromTask | new_bot/plugins/utils.py:103-128 | False and no change for a missing task; otherwise the id's record becomes the one loaded from the task |
| Sts.StatusBoard.GetData | new_bot/plugins/utils.py:71-101 | the fallback tuple when a database read raises; otherwise exactly `SetupOf` on the user's bot, configs and tracking record |
| Sts.PutTwice | new_bot/plugins/utils.py:27 | a second `store` for an id wipes out the first |
| Sts.LoadedRecordFacts | new_bot/plugins/utils.py:110-122 | the loaded record holds the checkpoint as `fetched` and `skip`, the task's chats and total, zero counters, and the task's id, bot and configs |
| Sts.LoadedRecord | new_bot/plugins/utils.py:110-122 | the record `load_from_task` builds has every key the counters read |
| Regix.CustomCaption | new_bot/plugins/regix.py:519-532 | no caption without media; a filled caption uses the user's template; a template on a named file fills in its name, size and caption |
| Regix.UnitFrom | new_bot/plugins/regix.py:534-541 | `get_size`'s loop stops at the largest unit not above the size: every unit it passes is at most the size, and the next one is above it |
| Regix.Hundredths | new_bot/plugins/regix.py:541 | the hundredths `%.2f` prints lie within half a hundredth of the exact quotient |
| Regix.SizeText | new_bot/plugins/regix.py:534-541 | `get_size` raises exactly for sizes of 1024^7 bytes or more; otherwise the numeral, two decimals and the unit the loop reached; a negative size stays in bytes |
| Regix.SizeTextOfKilobytes | new_bot/plugins/regix.py:534-541 | 1536 bytes read "1.50 KB" |
| Regix.FormatEscaped | new_bot/plugins/regix.py:530 | a template with every brace doubled formats to its own text |
| Regix.FormatOneField | new_bot/plugins/regix.py:530 | a template that is one replacement field gives that field's value, and raises for an unknown name |
| Regix.Format | new_bot/plugins/regix.py:530 | a template without braces formats to itself |
| Regix.RenderCaption | new_bot/plugins/regix.py:519-532 | a plain caption is sent as is; a size `get_size` cannot name gives no caption; a brace-free template is sent as is |
| Regix.EmptyCaptionCopies | new_bot/plugins/regix.py:390-406 | a `{filename}` template on a video without a file name renders the empty string, so `copy` copies the message instead of sending the cached media |
| Regix.MediaId | new_bot/plugins/regix.py:543-548 | a file id comes only from the message's media object |
| Regix.CopyItem | new_bot/plugins/regix.py:390-406 | `copy` sends the cached media exactly when the file id is non-empty and the caption `custom_caption` renders is a non-empty string; otherwise it copies the message |
| Regix.RunFrom | new_bot/plugins/regix.py:121-171 | a run is only cancelled after a press of Cancel |
| Regix.StepFacts | new_bot/plugins/regix.py:121-171 | one message counts one fetch and sends at most one request, appended to those before; an empty or service message only counts as deleted; a copied message is checkpointed and counted as one file |
| Regix.RunFromIsFold | new_bot/plugins/regix.py:121-171 | the loop's counts are the loop body applied in order to the messages it handles |
| Regix.ConsumedAboveSkip | new_bot/plugins/regix.py:310-311 | resume handles only messages above the stored checkpoint |
| Regix.NoPressNoCancel | new_bot/plugins/regix.py:124-125 | without a press of Cancel the run is never cancelled and handles every message it does not skip |
| Regix.FoldFetched | new_bot/plugins/regix.py:132 | every handled message adds exactly 1 to `fetched` |
| Regix.FoldUntagged | new_bot/plugins/regix.py:141-171 | copy mode: each non-empty, non-service message adds 1 to `total_files` even when its copy was refused; each handled message is counted once, as deleted or as a request that went out; the checkpoint is the last such message |
| Regix.FoldTagged | new_bot/plugins/regix.py:146-160 | tag mode: the batch stays under 100 and `total_files` plus what still waits equals what was kept; leftover ids are never flushed |
| Regix.EndOutcome | new_bot/plugins/regix.py:173-213 | how the iterator ends decides an outcome that is never "cancelled" |
| Regix.OutcomeOf | new_bot/plugins/regix.py:124-125 | a run ends cancelled exactly when the cancel flag stopped it |
| Regix.FloodEndsCompleted | new_bot/plugins/regix.py:173-213 | a FloodWait escaping the loop ends with the same status as an exhausted iterator: completed |
| Regix.RemoveFirstAppendedCount | new_bot/plugins/regix.py:205-206 | appending a target and removing it again keeps the same targets |
| Regix.RemoveFirstAppended | new_bot/plugins/regix.py:205-206 | appending and removing a target not already listed restores the list |
| Regix.RemoveFirst | new_bot/plugins/regix.py:205-206 | `list.remove(x)` drops one occurrence of `x` when present and otherwise leaves the list alone |
| Regix.StoredRunnable | new_bot/plugins/regix.py:113 | a stored record that passes the first progress edit has what the loop reads |
| Regix.TallyOf | new_bot/plugins/regix.py:111-113 | the starting counts are the record's own, with an empty batch and no checkpoint |
| Regix.BumpFetched | new_bot/plugins/regix.py:132 | `sts.add('fetched')` during a run raises 1 count, as the loop expects |
| Regix.BumpDeleted | new_bot/plugins/regix.py:141-143 | `sts.add('deleted')` during a run cannot raise and raises only the deleted count |
| Regix.BumpFiles | new_bot/plugins/regix.py:160-166 | `sts.add('total_files', n)` during a run cannot raise and raises only the file count |
| Regix.WithCountsStored | new_bot/plugins/regix.py:132-166 | counting keeps every record a stored one |
| Regix.WithCountsTo | new_bot/plugins/regix.py:161 | counting never changes the target chat |
| Regix.KeptCountZero | new_bot/plugins/regix.py:146-160 | when no message was kept for a batch, none of them is a kept message |
| Regix.StartMirrors | new_bot/plugins/regix.py:75-113 | before the first message the record and the table are what the starting counts describe |
| Regix.ResumeTaskIdAsWrittenIsTask | new_bot/plugins/regix.py:219 | as written, the id read from a Resume button is the word "task" |
| Regix.ResumeAsWrittenFindsNothing | new_bot/plugins/regix.py:219-228 | so `get_task` finds nothing and every resume fails |
| Regix.ResumeTaskId | new_bot/plugins/regix.py:219 | the corrected reading gives an id only when the data is that id's Resume data |
| Regix.ResumeTaskIdRoundTrip | new_bot/plugins/regix.py:565-566 | the corrected reading recovers the id of every Resume button |
| Regix.PublicIdRoundTrip | new_bot/plugins/regix.py:562-563 | the id of a Retry button without '_' is read back |
| Regix.EditFailsIgnoresStart | new_bot/plugins/utils.py:59-60 | stamping the start time does not change whether the first edit divides |
| Regix.LockTwice | new_bot/plugins/regix.py:502-511 | a second lock write overrides the first |
| Regix.FindAfterSetStatus | new_bot/database.py:529-544 | after a status write the task is found with the new status and checkpoint |
| Regix.ActiveAfterSetStatus | new_bot/plugins/regix.py:274 | after setting a task active every row of it is active |
| Regix.AccessRefusal | new_bot/plugins/regix.py:48-68 | the bot and both chats pass exactly when access is ok; after a failed source or target check `stop` runs, after a failed start it does not |
| Regix.PubGate | new_bot/plugins/regix.py:25-47 | the refusals before the save never reach the run or the save |
| Regix.TaskDataOf | new_bot/plugins/regix.py:75-93 | `pub_` saves an active task with no checkpoint, the record's chats and total (0 for a missing or None limit), the bot and the time |
| Regix.ResumeGate | new_bot/plugins/regix.py:219-272 | the refusals before a resume never reach the run |
| Regix.ResumeRecord | new_bot/plugins/regix.py:232-245 | the resumed record starts at the row's checkpoint, with its target and total |
| Regix.ResumeRecordFails | new_bot/plugins/regix.py:232-245 | a row with no checkpoint or a zero total fails at the first progress edit |
| Regix.ResumeRecordRuns | new_bot/plugins/regix.py:232-245 | a row with a checkpoint and a non-zero total gets past it |
| Regix.Engine.constructor | new_bot/config.py:28-36 | the registries start empty |
| Regix.Engine.Stop | new_bot/plugins/regix.py:502-511 | one run fewer and the user's lock released |
| Regix.Engine.TerminateForwarding | new_bot/plugins/regix.py:568-579 | the lock is released, the cancel flag raised, the user's active task marked cancelled, and nothing else changes |
| Regix.Engine.IsCancelled | new_bot/plugins/regix.py:486-500 | true exactly when the flag is up; then the task is marked cancelled, the target leaves `IS_FRWD_CHAT` and `stop` runs; otherwise nothing changes |
| Regix.Engine.Release | new_bot/plugins/regix.py:199-210 | the target leaves `IS_FRWD_CHAT` if listed, then `stop` |
| Regix.Engine.Copy | new_bot/plugins/regix.py:390-414 | the request goes out, or a refusal adds 1 to `deleted`, as `CopySent` says |
| Regix.Engine.CountFetched | new_bot/plugins/regix.py:132 | the record and the table still mirror the counts, with one more fetched |
| Regix.Engine.CountDeleted | new_bot/plugins/regix.py:141-143 | the record and the table still mirror the counts, with one more deleted |
| Regix.Engine.HandleBatched | new_bot/plugins/regix.py:146-160 | tag mode: the batch grows by the message and is flushed, counted and checkpointed as `Batched` says |
| Regix.Engine.Commit | new_bot/plugins/regix.py:166-169 | the file count grows by one and the table's checkpoint becomes the message, as `Committed` says; other tables stay |
| Regix.Engine.Forward | new_bot/plugins/regix.py:416-430 | the batch goes out, or a refusal adds its length to `deleted` |
| Regix.Engine.Handle | new_bot/plugins/regix.py:132-171 | one message's counts, outbox and checkpoint follow the loop body `Step` |
| Regix.Engine.Visit | new_bot/plugins/regix.py:121-171 | one event: a Cancel press raises the flag, a message after it stops the run, any other message is handled |
| Regix.Engine.Loop | new_bot/plugins/regix.py:121-171 | the loop's state follows `RunFrom`; it stops exactly when the flag was up at a message, and then `stop` ran |
| Regix.Engine.RunLoop | new_bot/plugins/regix.py:110-213 | a record whose numbers the first edit cannot divide fails at once; otherwise counts, outbox and checkpoint follow `RunFrom` and the final status follows how it ended; the lock is released and the target removed |
| Regix.Engine.Proceed | new_bot/plugins/regix.py:113-213 | a runnable record: the outcome follows `RunFrom` from the record's counts and how the iterator ended; the lock is released and the target removed |
| Regix.Engine.RunTracked | new_bot/plugins/regix.py:110-213 | a record the first edit cannot divide fails with no checkpoint and changes nothing else; otherwise the outcome is the run `RunOf` makes from the record, the record holds its counts, the outbox gains its requests, the cancel flag is its end, and the row takes its status and checkpoint |
| Regix.Engine.Finish | new_bot/plugins/regix.py:173-213 | completed, also after paused then active on a FloodWait, or failed on an exception; the target removed and `stop` run |
| Regix.Engine.PubForward | new_bot/plugins/regix.py:23-213 | a refused start changes nothing but the cleared cancel flag (and `stop` after a failed chat check); a save that raises changes nothing more; otherwise the saved row ends with the run's status and checkpoint, `ACTIVE_TASKS` names it, the lock is released and `IS_FRWD_CHAT` is as before, and the outcome, `STATUS` record and outbox are those of the run `RunOf` makes from the record and the user's settings |
| Regix.Engine.PubSave | new_bot/plugins/regix.py:72-213 | the save raises for a limit that is neither a number nor None, or a truthy skip that is not a number, and nothing changes; otherwise the run is made and its row saved, with the outcome, record, outbox and checkpoint of the run from the record and the user's settings |
| Regix.Engine.StartRun | new_bot/plugins/regix.py:75-107 | the task is saved, registered and counted, its target listed, the user locked, and the run made; afterwards the row holds what was saved with the run's final status and checkpoint, and the outcome, record, outbox and cancel flag are the run's |
| Regix.Engine.Launch | new_bot/plugins/regix.py:276-290 | starting a run from an active row: the record is stamped with the start time; a record the first edit cannot divide fails at once; otherwise outcome, record, outbox, cancel flag and the row's status and checkpoint are those of the run `RunOf` makes; `IS_FRWD_CHAT` ends as it started |
| Regix.Engine.SaveActive | new_bot/plugins/regix.py:75-95 | the task is saved as active and `get_task` finds exactly that row |
| Regix.Engine.Begin | new_bot/plugins/regix.py:95-107 | the run is registered: `ACTIVE_TASKS` names it, one more run, the target listed, the user locked, and the record changes only in its start time |
| Regix.StartedRunOf | new_bot/plugins/regix.py:100 | stamping the start time changes neither what the run reads nor the run it makes |
| Regix.Engine.Enlist | new_bot/plugins/regix.py:95-107 | the registries change exactly as registering the run says |
| Regix.Engine.ResumeForwardingTask | new_bot/plugins/regix.py:217-387 | refusals change nothing (apart from `stop` after a failed chat check); otherwise the row is set active and run from its checkpoint, with outcome, record, outbox and the row's status and checkpoint those of the run from `ResumeRecord`; a row with no checkpoint or a zero total fails |
| Regix.Engine.ResumeChecked | new_bot/plugins/regix.py:247-387 | a failed access check answers and changes nothing else; otherwise the run from `ResumeRecord`, with its outcome, record, outbox and row |
| Regix.Engine.Refuse | new_bot/plugins/regix.py:256-271 | the refusal, with `stop` after a failed chat check but not after a failed start |
| Regix.Engine.ResumeRun | new_bot/plugins/regix.py:274-387 | a resumed run: `IS_FRWD_CHAT` ends as it started, the user's lock is released, and the outcome, record, outbox, cancel flag and the row's status and checkpoint are those of the run from `ResumeRecord` with the row's checkpoint as skip bound |
| Regix.Engine.Reactivate | new_bot/plugins/regix.py:274 | the task's rows become active and nothing else changes |
| Commands.ResumeKeyNamesTask | new_bot/plugins/commands.py:140-143 | a Resume button's data reads back its task id, and its label ends with the id's last four characters |
| Commands.ResumeKey | new_bot/plugins/commands.py:140-143 | the label is "Resume " and at most four characters, and the corrected callback parse reads the task id back from the data |
| Commands.ResumeRows | new_bot/plugins/commands.py:121-143 | at most one Resume row per task |
| Commands.ResumeRowsAll | new_bot/plugins/commands.py:139-143 | when every task is resumable, row i is task i's Resume button |
| Commands.TaskKeyboard | new_bot/plugins/commands.py:145-149 | there is a keyboard exactly when there is a Resume row, and its last row is Close |
| Commands.ListedTasksAllResumable | new_bot/plugins/commands.py:114-149 | each task the query lists gets its Resume button in list order, and Close follows |
| Commands.AnyActive | new_bot/plugins/commands.py:96 | the `any(...)` test holds exactly when some listed task is active |
| Commands.AnyActiveOfQuery | new_bot/plugins/commands.py:95-96 | the active test on the query result is the active test on the table |
| Commands.CollectResumeRows | new_bot/plugins/commands.py:122-143 | the loop builds the Resume rows in task order |
| Commands.CommandPlugin.constructor | new_bot/plugins/commands.py:81-107 | `FORWARD_STATE` starts empty |
| Commands.CommandPlugin.CancelCommand | new_bot/plugins/commands.py:151-163 | a user in the forward dialog leaves it and the cancel flags stay; otherwise an existing flag is raised; otherwise nothing changes |
| Commands.CommandPlugin.ForwardCommand | new_bot/plugins/commands.py:80-108 | no bot, or an active task: nothing changes; otherwise the user enters the source step |
| Commands.CommandPlugin.TasksCommand | new_bot/plugins/commands.py:110-149 | "no tasks" exactly when the query is empty; otherwise the newest-first list with its Resume keyboard |
| Settings.MultiWordUnreachable | new_bot/plugins/settings.py:38-162 | as written, no button reaches a branch whose action holds '_' |
| Settings.RouteOf | new_bot/plugins/settings.py:37-184 | the corrected router dispatches on everything after the first '_' |
| Settings.RoutesAfterPrefix | new_bot/plugins/settings.py:38 | both routers, stated on the fields of the action alone |
| Settings.SplitAfterPrefix | new_bot/plugins/settings.py:38 | splitting "settings_<action>" gives "settings" and then the split of the action |
| Settings.AddBotButtonIgnored | new_bot/plugins/settings.py:51-119 | "settings_add_bot" lands nowhere as written |
| Settings.AddBotButtonRouted | new_bot/plugins/settings.py:51-119 | with the correction it reaches the Add Bot branch |
| Settings.RouteMultiWord | new_bot/plugins/settings.py:118-162 | with the correction every multi-word button reaches its own branch |
| Settings.RouteSingleWord | new_bot/plugins/settings.py:50-107 | a one-word action goes where it names under both routers |
| Settings.RouteToggleAsWritten | new_bot/plugins/settings.py:107-108 | a toggle button toggles its filter as written |
| Settings.RouteToggle | new_bot/plugins/settings.py:107-108 | and also under the correction |
| Settings.ToggleIsOneWord | new_bot/plugins/settings.py:107 | a toggle action is one word, so the router as written reaches it |
| Settings.ToggleFilter | new_bot/plugins/settings.py:111 | the named filter flips (a missing one counts as on) and every other filter stays |
| Settings.ToggleTwice | new_bot/plugins/settings.py:111 | toggling twice restores the filter, a missing one coming back as on |
| Settings.FilterButtons | new_bot/plugins/settings.py:273-285 | one row per filter in menu order, showing its state, a missing filter as on |
| Settings.FilterOrderIsFilterNames | new_bot/plugins/settings.py:16 | the menu's rows are exactly the filters the toggle accepts |
| Settings.FilterOrderDistinct | new_bot/plugins/settings.py:16 | each filter appears once in the menu |
| Settings.FilterNamesOneWord | new_bot/plugins/settings.py:16 | no filter name holds '_', so its toggle data splits into three fields |
| Settings.FilterButtonsRoute | new_bot/plugins/settings.py:273-285 | every row of the filter menu routes to the toggle of the filter it shows |
| Settings.ToggleFlipsOneRow | new_bot/plugins/settings.py:107-115 | pressing a row flips what that row shows and leaves every other row as it was |
| Settings.IndexOf | new_bot/plugins/settings.py:201 | the first position of ':' |
| Settings.ValidTokenIff | new_bot/plugins/settings.py:201 | a token is accepted exactly when it is a non-empty run of digits, ':', and a non-empty run of word characters and '-' |
| Settings.SettingsPlugin.constructor | new_bot/plugins/settings.py:15 | `USER_STATE` starts empty |
| Settings.SettingsPlugin.SettingsQuery | new_bot/plugins/settings.py:35-184 | under the corrected router `RouteOf` (as written, settings.py:38 dispatches as `RouteAsWritten`, see the Findings row): menus change nothing; a toggle flips a known filter; Add Bot and Set Caption wait for input; Confirm Remove deletes the bot; Clear Caption clears it; Cancel drops the wait; every other user's row, and this user's name and ban, are left as they were |
| Settings.SettingsPlugin.HandleSettingsInput | new_bot/plugins/settings.py:187-263 | users with no wait are ignored; an invalid token, or one whose bot cannot start, keeps the wait; a good one saves the bot and ends the wait; a caption is saved with the other configs kept and ends the wait; every other user's row, and this user's name and ban, are left as they were |
| UserStore.NewUser | storage.py:25-38 | a new record has the phone, API id and hash, and empty sources, destinations and progress |
| UserStore.OverwriteFacts | storage.py:66-78 | `update_user` overwrites exactly the given keys, later pairs winning, and loses no key |
| UserStore.WithEntryFacts | storage.py:80-104 | adding an entry sets it and keeps every other entry of the field and every other key; a field that is not an object raises |
| UserStore.Lookup | storage.py:40-52 | a record is read exactly for a present, readable file |
| UserStore.Storage.constructor | storage.py:8-15 | the files are the directory's |
| UserStore.Storage.GetUserData | storage.py:40-52 | the record only for an existing user; None for an unknown phone |
| UserStore.Storage.SaveUserData | storage.py:54-64 | afterwards `get_user_data` returns what was saved |
| UserStore.Storage.CreateUser | storage.py:25-38 | the fresh record replaces any file for the phone and reads back |
| UserStore.Storage.UpdateUser | storage.py:66-78 | False with nothing written for a missing or empty record; otherwise the record with the updates written |
| UserStore.Storage.AddEntry | storage.py:80-104 | False for an unknown user, a raise for a field that is not an object, otherwise the entry added |
| UserStore.Storage.AddSource | storage.py:80-91 | the source is stored under its id in `sources`; False for an unknown user |
| UserStore.Storage.AddDestination | storage.py:93-104 | the destination is stored under its id in `destinations`; False for an unknown user |
| UserStore.Storage.DeleteUser | storage.py:106-118 | the file is gone and the answer is True, whether or not it was there |
| Relay.ProgressJson | forwarder.py:40 | the stored progress holds the last forwarded id (null when none) and the status name |
| Relay.PersistOf | forwarder.py:35-43 | what `update_progress` writes: nothing unless both ids are set |
| Relay.FilesAfterFacts | forwarder.py:28-43 | `update_progress` persists only under the pair's key: other phones, other keys and other pairs stay |
| Relay.FilesAfterTwice | forwarder.py:28-43 | a second write for the same pair leaves the file as the second alone would |
| Relay.StartIdAsWrittenIsOne | forwarder.py:56-80 | as written, the start id is always 1 |
| Relay.ResumeStartIdResumes | forwarder.py:67-80 | read before the overwrite, an unfinished run stopped after message k resumes at k + 1 |
| Relay.StartIdDiscrepancy | forwarder.py:56-80 | an entry stopped at 41 resumes at 42 when read first, but starts at 1 as written |
| Relay.VisibleAfterFull | forwarder.py:130-146 | after full pages, what is still visible is what the remaining pages show |
| Relay.FlatNext | forwarder.py:142-143 | one more full page read |
| Relay.DiscoveryCountsVisible | forwarder.py:130-149 | the counting loop counts exactly the messages the paging loop reaches in the pages it receives |
| Relay.CountIsSentMinusFloods | forwarder.py:182-195 | FloodWait is not retried: the count is the messages sent minus the FloodWaits |
| Relay.LastSent | forwarder.py:176-186 | the shortest prefix that holds every forwarded message |
| Relay.RelayProgressFacts | forwarder.py:176-198 | the record is untouched when nothing went out; otherwise it names the last message sent and the count as it stood then |
| Relay.AttemptedWhenCut | forwarder.py:155-172 | a cancel cuts the attempts exactly where it lands |
| Relay.AttemptedWhenPageCut | forwarder.py:155-172 | a cancel inside a page cuts the attempts there |
| Relay.VisibleFrom | forwarder.py:155-203 | the visible messages from a page on, one page unfolded |
| Relay.FaultCutsAttempts | forwarder.py:159-165 | a page fetch that raises cuts the forwarding pass short: its attempts are the start of those the run without the error makes, and without a fault they are `Attempted` |
| Relay.CancelBlocksFetch | forwarder.py:155-165 | a cancel seen at the top of the loop keeps that page fetch and every later one from being made |
| Relay.CancelInPageBlocksFetch | forwarder.py:170-203 | a cancel that lands inside a page keeps every later page fetch from being made |
| Relay.NoCallPast | forwarder.py:144-146 | a page that is not full ends the paging loop, so no later fetch is made |
| Relay.RunOutcomeFacts | forwarder.py:111-206 | failed with the error and nothing counted when the chats do not resolve or a page fetch of the counting pass raises; otherwise the count of the counting pass's pages as total and the last message sent with its count, failed with the error when a page fetch of the forwarding pass raises (what was forwarded before it kept), else cancelled exactly when the cancel landed; with the same pages for both passes and nothing cutting the run short, the total is the number of attempts |
| Relay.RunOutcome | forwarder.py:111-206 | the ids are kept; failed, with the error, exactly when the chats do not resolve or a page fetch of either pass raises; nothing counted when that happens before the total is recorded; otherwise the counting pass's visible messages as total, and without a fetch error cancelled exactly when the cancel landed and completed otherwise |
| Relay.FinalProgress | forwarder.py:45-206 | the pair's ids; failed, with the error, exactly when the chats do not resolve, the record is missing, reading the start id raises, or a page fetch of either pass raises |
| Relay.Forwarder.constructor | forwarder.py:11-26 | not running, not cancelled, idle progress |
| Relay.Forwarder.UpdateProgress | forwarder.py:28-43 | the record becomes the new one, and the file changes as `FilesAfter` says |
| Relay.Forwarder.Track | forwarder.py:183-186 | a later write of the same run cannot raise and keeps the file in step |
| Relay.Forwarder.CancelForwarding | forwarder.py:208-211 | the flag is up afterwards |
| Relay.Forwarder.Observe | forwarder.py:156-171 | a cancel that has landed is seen at the next check |
| Relay.Forwarder.CountPass | forwarder.py:130-146 | the counting loop raises exactly when its faulty page fetch is reached, and otherwise computes `DiscoveryTotal` |
| Relay.Forwarder.RelayPass | forwarder.py:155-203 | the loop raises exactly when its faulty page fetch is reached before a cancel is seen; the attempts are exactly `Attempts` (those of the earlier pages when it raises, `Attempted` otherwise), and the record is what they leave |
| Relay.Forwarder.RelayTurn | forwarder.py:159-203 | one fetched page: its attempts, and the loop stops after an empty or short page or a cancel inside it, no later fetch being made |
| Relay.Forwarder.RelayPage | forwarder.py:170-198 | one page's attempts and their bookkeeping |
| Relay.Forwarder.RunAsync | forwarder.py:111-206 | resolve, count the first history, record the total, forward the second history; it raises exactly when the chats do not resolve or a page fetch of either pass raises, the record untouched when that happens before the total; otherwise the attempts are `Attempts` and the record is what they leave |
| Relay.Forwarder.FinishRun | forwarder.py:66-107 | the final record is `RunOutcome`: cancelled, completed, or failed with the error after an exception, keeping what was forwarded |
| Relay.Forwarder.ForwardMessages | forwarder.py:45-109 | a call while running changes nothing; a first write that raises leaves it running; otherwise the final record is `FinalProgress` (including a page fetch that raises in either pass), it is not running afterwards, and the start id is 1 |
| Manager.FallbackRequest | bot_manager.py:101-113 | an invite is imported exactly when the link holds "joinchat"; anything else is joined as that link |
| Manager.InviteHashOfLink | bot_manager.py:103-107 | an invite link `…/joinchat/<hash>` imports exactly `<hash>` |
| Manager.JoinchatInfix | bot_manager.py:101 | a link with "joinchat" in it is seen to hold it |
| Manager.MemberTest | bot_manager.py:234-240 | Python's `in`: a dict tests its keys, a list its items, a text its substrings; anything else raises |
| Manager.Resolve | bot_manager.py:97-116 | the entity from the lookup; else, for an invite link, the first chat of the imported invite; joining a public channel never resolves, since the updates it answers have no `id` |
| Manager.SourceEntry | bot_manager.py:119-127 | the stored source: id, link, title (the link when there is none), entity id, no last message |
| Manager.DestinationEntry | bot_manager.py:172-180 | the stored destination, likewise |
| Manager.RStripSlashes | bot_manager.py:206 | stripping trailing slashes gives back a text that does not end in one |
| Manager.NumeralHasNoSlash | bot_manager.py:206-207 | a numeral holds no slash |
| Manager.LinkMessageIdOf | bot_manager.py:206-207 | a link `…/<n>`, with any trailing slashes, names message `n` |
| Manager.LinkTailOf | bot_manager.py:206 | the tail of `…/<tail>` followed by slashes is `<tail>` |
| Manager.WithLastMessage | bot_manager.py:210-214 | no record exactly when the user has none; "Source not found" exactly when Python's `in` test on `sources` is false (on a dict: the id is not a key) |
| Manager.WithLastMessageUpdates | bot_manager.py:210-215 | an update changes only that source's `last_message_id`, every other key, source and entry field staying |
| Manager.WithLastMessageOnList | bot_manager.py:210-214 | a list of sources holding the id passes the `in` test and fails on the update, an empty list gives "Source not found", a number raises in the test |
| Manager.StartLookup | bot_manager.py:230-262 | a missing record raises; a task is registered only when both fields are dicts holding the ids, and the forwarder is called exactly when both entries also have an `entity_id` |
| Manager.StartLookupAbsent | bot_manager.py:234-240 | the call returns without recording anything exactly when the source's `in` test is false, or it is true and the destination's is false |
| Manager.StartLookupEmptySources | bot_manager.py:231-236 | empty sources return quietly, whatever the destinations hold |
| Manager.MarkFailed | bot_manager.py:263-267 | an exception marks the phone's task failed with the error |
| Manager.PercentHundredths | bot_manager.py:297-299 | progress is 0 when the total is not positive |
| Manager.StatusOf | bot_manager.py:287-310 | idle exactly without a task; `active` exactly when running; the task's fields otherwise; 0 progress for a zero total |
| Manager.StatusProgressAlwaysZero | bot_manager.py:287-310 | since nothing updates a task's counters after the start, reported progress is always 0 |
| Manager.BotManager.constructor | bot_manager.py:15-23 | no clients, forwarders or tasks |
| Manager.BotManager.InitializeBot | bot_manager.py:25-64 | authorised: a client, a record if missing, a new idle forwarder; code sent: client and record only; an exception drops the client |
| Manager.BotManager.SubmitCode | bot_manager.py:66-86 | "Client not initialized" without a client, the 2FA message or the error on failure, a new forwarder on success |
| Manager.BotManager.AddSource | bot_manager.py:88-141 | "Client not initialized" without a client; the fallback request exactly when the lookup fails; the error, storage unchanged, when the link does not resolve or the stored `sources` is not an object (the insertion raises); otherwise the entry stored and returned |
| Manager.BotManager.AddDestination | bot_manager.py:143-194 | as `add_source`, into `destinations`: the error, storage unchanged, when the link does not resolve or `destinations` is not an object; otherwise the entry stored and returned |
| Manager.BotManager.SetLastMessage | bot_manager.py:196-220 | "Client not initialized", the parse error, the error of an `in` test or subscript that raises, or "Source not found" exactly when the `in` test is false, storage unchanged; otherwise only that source's last message id changes |
| Manager.BotManager.StartForwarding | bot_manager.py:222-267 | without a client or forwarder nothing changes; a false `in` test (source first, then destination) returns with nothing recorded; a raise before registration marks only an existing task failed; with both ids found in dict fields the task is registered as running with zero counters, and marked failed when an `entity_id` or the forwarder raises |
| Manager.BotManager.CancelForwarding | bot_manager.py:269-285 | "Forwarder not initialized" without a forwarder; otherwise success, the flag up, an existing task marked cancelled |
| Manager.BotManager.GetForwardingStatus | bot_manager.py:287-310 | idle exactly when the phone has no task; `active` exactly when it is running |
| Manager.BotManager.LogoutUser | bot_manager.py:320-339 | only that phone's client, forwarder and task are removed |
| Manager.BotManager.DeleteSource | bot_manager.py:341-361 | "Source not found" exactly when the `in` test is false; an id the phone's task uses (any status): refused; an id found in a list or a text: the error; nothing changes in these; otherwise exactly that entry is removed |
| Manager.BotManager.DeleteDestination | bot_manager.py:363-383 | as `delete_source`, on `destinations` |
| Manager.BotManager.DeleteEntry | bot_manager.py:341-383 | the body both deletes share |
| Manager.WithoutEntry | bot_manager.py:344-356 | no record exactly when the user has none; "not found" exactly when the `in` test is false (on a dict: the id is not a key); an id found in a list or a text cannot be deleted; a delete removes exactly the entry, every other entry and key staying |
| Manager.AddedFiles | storage.py:80-104 | the store keeps its phones and every other phone's file; no record, an empty record or a raising insertion leave it as it was; otherwise the record has the field (created when missing) holding the entry under the id, every other key kept |
| Dialog.StateNumber | telegram_bot.py:22-31 | each dialog state has its own number, 0 for the initial state |
| Dialog.StateNumberInjective | telegram_bot.py:22-31 | different states have different numbers |
| Dialog.PrefixesExclusive | telegram_bot.py:230-357 | two prefixes that differ at some position never both start the same data |
| Dialog.FieldAfterPrefix | telegram_bot.py:231 | data that starts with a prefix holding ':' has a field 1 |
| Dialog.Field | telegram_bot.py:231-240 | `data.split(":")[i]` exists exactly when there are more than `i` pieces, and holds no ':' |
| Dialog.FieldsOfButton | telegram_bot.py:266-267 | the data `prefix:a:b` gives `a` as field 1 and `b` as field 2 |
| Dialog.StepRaises | telegram_bot.py:742-902 | a step raises exactly when it reads a session key that is missing, and then changes no state and makes no call |
| Dialog.MessageStep | telegram_bot.py:742-902 | at most two calls, two only as a successful set-last-message followed by the start of forwarding for the same source; the API id step makes no call and moves on exactly when the text is an integer; every call is for the phone in the session (or the one just typed) |
| Dialog.StepKeepsReady | telegram_bot.py:716-911 | a step from a state whose session has the keys it needs leaves one that does too |
| Dialog.ReadyStepRaises | telegram_client.py:497-584 | with the keys in place only the link steps raise, and only without a phone |
| Dialog.StepEndsOnSuccess | telegram_bot.py:742-902 | the dialog returns to the initial state only after a successful call, or a phone step that needs no code |
| Dialog.StepWritesOwnKey | telegram_bot.py:716-769 | each step writes only its own key: API id, hash, or the phone as typed; the selections stay |
| Dialog.CallbackPrefixes | telegram_bot.py:230-357 | no callback data starts with two of the prefixes, so the order of the `startswith` chain does not matter |
| BotDialog.CommandName | telegram_bot.py:1076-1092 | the command word is the longest run of command characters after the '/' |
| BotDialog.CancelIsCommand | telegram_bot.py:1086-1092 | "/cancel" is the cancel command, so `~filters.COMMAND` keeps it from `handle_message` |
| BotDialog.IsCommand | telegram_bot.py:1086-1092 | a command text has a non-empty command name after the '/' |
| BotDialog.CommandNameAll | telegram_bot.py:1076-1092 | a word made only of command characters is its own command |
| BotDialog.AllReadyWrite | telegram_bot.py:694-911 | writing one user's state and session keeps every user's keys in place |
| BotDialog.TelegramBot.constructor | telegram_bot.py:22-33 | no states, no sessions |
| BotDialog.TelegramBot.Start | telegram_bot.py:36-39 | `/start` sets the initial state |
| BotDialog.TelegramBot.Login | telegram_bot.py:937-945 | `/login` sets the API-id state |
| BotDialog.TelegramBot.LogoutCommand | telegram_bot.py:913-935 | with a phone, the manager is asked to log out and the session deleted while the state stays, so a user in the code step is left with no session |
| BotDialog.TelegramBot.CancelCommand | telegram_bot.py:1027-1064 | with a phone, the manager is asked to cancel; no state or session changes |
| BotDialog.TelegramBot.HandleMessage | telegram_bot.py:694-911 | "/cancel" resets the state; otherwise the state, session and calls follow the dialog step, and the keys stay in place |
| BotDialog.TelegramBot.OnText | telegram_bot.py:1076-1092 | routing by command: "/cancel" leaves states and sessions as they were, `/start` and `/login` set their states, and only `/logout` can break the keys invariant |
| BotDialog.TelegramBot.AddSourceButton | telegram_bot.py:172-180 | the source-link state |
| BotDialog.TelegramBot.AddDestinationButton | telegram_bot.py:182-190 | the destination-link state |
| BotDialog.TelegramBot.SelectSource | telegram_bot.py:230-236 | the selected source stored and the selecting state set; a `KeyError` without a session |
| BotDialog.TelegramBot.SelectDestination | telegram_bot.py:238-263 | acts only in the selecting state; offers the pair when both ids are set |
| BotDialog.TelegramBot.SetLastMessageButton | telegram_bot.py:265-278 | both ids stored and the last-message state set; raises without field 2 or a session |
| BotDialog.TelegramBot.ForwardNow | telegram_bot.py:280-301 | asks the manager to start forwarding the pair when logged in; raises without field 2 |
| BotDialog.TelegramBot.DeleteButton | telegram_bot.py:303-357 | asks the manager to delete the source or destination when logged in |
| BotDialog.TelegramBot.ButtonCallback | telegram_bot.py:110-377 | unknown data changes nothing; only a destination press makes an offer; only logout can break the keys invariant |
| ClientDialog.TelegramClientBot.constructor | telegram_client.py:30-40 | no sessions |
| ClientDialog.TelegramClientBot.Start | telegram_client.py:45-51 | an existing session is reset to empty |
| ClientDialog.TelegramClientBot.LoginCommand | telegram_client.py:864-877 | the session's state becomes API-id, its data kept |
| ClientDialog.TelegramClientBot.LogoutCommand | telegram_client.py:880-906 | with a phone, logout is asked and the session reset to empty; without a session one is made empty |
| ClientDialog.TelegramClientBot.CancelCommand | telegram_client.py:953-988 | the session is created if missing; with a phone, cancel is asked |
| ClientDialog.TelegramClientBot.MessageHandler | telegram_client.py:392-601 | non-private messages change nothing; "/cancel" resets the state; otherwise the dialog step; with the keys in place only a link step without a phone raises |
| ClientDialog.TelegramClientBot.SetStateButton | telegram_client.py:193-211 | the button's state is set and the data kept |
| ClientDialog.TelegramClientBot.SelectSource | telegram_client.py:317-323 | the selected source stored and the selecting state set |
| ClientDialog.TelegramClientBot.SelectDestination | telegram_client.py:325-348 | acts only in the selecting state; offers the pair when both ids are set |
| ClientDialog.TelegramClientBot.SetLastMessageButton | telegram_client.py:350-363 | both ids stored and the last-message state set; raises without field 2 |
| ClientDialog.TelegramClientBot.ForwardNow | telegram_client.py:365-389 | asks the manager to start forwarding the pair when logged in |
| ClientDialog.TelegramClientBot.DeleteButton | telegram_client.py:261-315 | asks the manager to delete the source or destination when logged in |
| ClientDialog.TelegramClientBot.CallbackHandler | telegram_client.py:118-389 | the session exists afterwards; only last-message and forward-now presses without field 2 raise; unknown data only creates the session |
| ClientDialog.TelegramClientBot.OnNewMessage | telegram_client.py:391-601 | a private "/cancel" resets the state, keeps the data and asks the manager to cancel; "/login" sets the API-id state; the keys invariant always holds |

## Left out

- Network calls are inputs, not code: Telegram logins, lookups, joins, history pages, copies and forwards, and the bot start/stop and chat access checks (`Access`, `Delivery`, `End`, `Login`, `SignIn`, `Answer`).
- `asyncio.sleep`, `time.time()` (a `now` parameter), `uuid4` (a `newId`/`taskId` parameter), `threading.Lock`, and the interleaving of async handlers: every handler runs to completion, one at a time.
- Reply texts, menus and keyboards other than the filter menu and the Resume list: the help, about, status, sources and destinations menus of both front ends, `main_buttons`, `show_*`, and `msg_edit`.
- The progress message of `edit` and `status_msg` (float ETA, speed, percentage and progress bar) and `close`; only whether the first `edit` can divide is modelled (`EditFails`).
- `list_tasks` in new_bot/plugins/regix.py:601-634 is not modelled separately; it makes the same selection and keyboard as `/tasks` (`Commands.CommandPlugin.TasksCommand`), labelled "Resume Task ".
- Database connection, `_init_tables`, `is_user_exist`, counts, `get_all_users`, `delete_user`, `get_banned`, channel reads and deletes, the notify table and `delete_task`: plain queries, with no logic the model needs.
- The `/settings` command's `add_user` call and the settings menu texts.
- JSON encoding itself: `json.dumps` and `json.loads` are parameters of `Db.DictToJson` and `Db.JsonToDict`.
- `\d` and `\w` in the token check are ASCII only.
- Common.ParseInt: accepts ASCII digits only; Python's `int()` also accepts other Unicode decimal digits (Arabic-Indic, full-width), which the model treats as a parse error.
- Telegram's command entities are approximated by `BotDialog.IsCommand`: a '/' then a command character; `/cmd@botname` and case are not modelled.
- `Manager.BotManager.GetForwardingStatus`: `round(progress, 2)` is an integer count of hundredths truncated toward zero, not a rounded float.
- `Sts.StatusBoard.Divide`: returns the exact ratio rather than a float.
- `Sts.StatusBoard.GetProgress`: a non-numeric count is None (the TypeError) rather than an exception, and the percentage is `Sts.ProgressOf`'s exact one.
- Sts.ProgressOf: the percentage is the integer part of the exact ratio `fetched*100/total`; the source computes `int((fetched / total) * 100)` in floating point, which can come out one lower (29 of 100 gives 28). The floor equation of `Sts.ProgressBounds` is about the exact ratio; the 0..100 bound holds for both.
- `get_active_task` and `get_user_data` of bot_manager.py are plain reads of `active_tasks` and the store.
- `Manager.BotManager.LogoutUser`: `disconnect()` is taken never to raise, so the answer is always True.
- A background `asyncio.create_task` of the front ends is recorded as an immediate call in the `calls` log.
- `BotDialog.TelegramBot.ButtonCallback`: states only the invariant, the offer and the no-op for unknown data; the effect of each button is stated on its branch method (`SelectSource`, `SetLastMessageButton`, `ForwardNow`, `DeleteButton`, …).
- `ClientDialog.TelegramClientBot.CallbackHandler`: states only the invariant, the raise cases, the offer and the no-op; the effect of each button is stated on its branch method.
- Regix.CustomCaption: a template `str.format` rejects (an unknown name, a lone '}', an unclosed '{') or a size of 1024^7 bytes or more (the `IndexError` of `get_size`) raises at new_bot/plugins/regix.py:163 (347 on resume), outside `copy`'s `try`, and ends the source's run as failed; the model renders no caption (`RenderCaption` is None), counts it as empty, and the run copies the message and goes on.
- Regix.CopyItem: with the caption above, copies where the source's run fails; replacement fields with a conversion, a format spec, an attribute or an index (`{size:>10}`, `{filename!r}`) are taken to raise; sizes are formatted from the exact integer, not through a float (they differ only from 2^53 bytes on); a file size is always a present integer (a missing one would make `float('')` raise); `fcaption.html` is taken to be the caption text given.
- Regix.SaveFails: the only bind errors modelled are a limit that is neither an integer nor None and a truthy skip that is not an integer. A None limit is saved as NULL in the source; the model stores 0 (`Regix.TaskDataOf`), so a resume fails at its first edit in both, but `/tasks` prints 0 where the source prints None. `created_at` is bound from `time.time()`, a float, to a TIMESTAMP column, which the driver would refuse; the model takes the save to succeed and stores the integer time, and reading it back into `time.localtime` is taken to work.
- Manager.BotManager.StartForwarding: the history pages (`counted`, `pages`) are inputs; nothing ties them to the `min_id`/`max_id` window that the stored `last_message_id` (bot_manager.py:261) and the start id (forwarder.py:75-80) put on both paging loops (forwarder.py:131-137, 159-165), so no contract says that a stored last message or a resumed start id bounds what a run forwards.
- Relay.DiscoveryCountsVisible: each pass of a run reads its own history (`counted` and `pages`); the lemma relates the count to the messages of the same pages, and a run whose chat changed between the passes records a total that need not match its attempts.
- UserStore.Storage.SaveUserData: always succeeds; in the source a failed write (a directory that is not writable, a full disk) returns False, possibly after `open(path, 'w')` has emptied the file, so that `get_user_data` then gives None. File-system failures are outside the model.
- UserStore.Storage.DeleteUser: always answers True; in the source an `os.remove` that fails (permissions, a file in use) is caught and answers False with the file kept.
- `Dialog.PressOf` is the `if/elif` chain of callback data; by `Dialog.CallbackPrefixes` its order does not change the result.

## Findings

| source | as written | input that shows it | evidently intended | confidence | as-written member | corrected member |
|---|---|---|---|---|---|---|
| new_bot/plugins/test.py:1-7, 64 | `re` is never imported, so the brace branch raises NameError, which the `except` swallows, and `parse_buttons` always returns None | `parse_buttons("{Site}(https://a.b)")` | a keyboard with the one button `Site` → `https://a.b` | high, not executed | Buttons.ParseButtonsDiscrepancy | Buttons.ParseButtonsRoundTrip |
| new_bot/main.py:58, 74 | the demotion queries `get_user_active_tasks(0)`, so only user 0's tasks are paused | user 7's active task "task_0000abcd" stays active through start-up and shutdown | every active task paused | high, not executed | Startup.OtherUsersStayActiveExample | Startup.DemoteEveryUser |
| new_bot/plugins/regix.py:219 | the task id is `message.data.split("_")[2]`, which for "resume_task_<id>" is the word "task" | the Resume button of "task_0000abcd" looks up task "task" and finds nothing | the text after "resume_task_" | high, not executed | Regix.ResumeAsWrittenFindsNothing | Regix.ResumeTaskIdRoundTrip |
| forwarder.py:56-80 | the run's first `update_progress` overwrites the pair's entry with `last_forwarded_id` None before the start id is read from it | an entry stopped at message 41, status running | resume at message 42 | medium, not executed | Relay.StartIdDiscrepancy | Relay.ResumeStartIdResumes |
| new_bot/plugins/settings.py:38, 118-162 | the router dispatches on field 1 of `data.split("_")`, so the actions `add_bot`, `remove_bot`, `confirm_remove_bot`, `set_caption`, `clear_caption` are never matched | the button data "settings_add_bot" | the Add Bot branch | high, not executed | Settings.AddBotButtonIgnored | Settings.AddBotButtonRouted |

