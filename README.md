# Outlook room notifier — a Dafny model

The room notifier watches a meeting room's Outlook calendar and posts one
Telegram message per new booking. It stores each booking in SQLite so that no
booking is announced twice. This project models its core and proves what that
core guarantees.

The core is:

- **Identity** (`Booking`): `generate_event_id` hashes subject, start, end and
  organizer joined by `_`. SHA-256 is kept symbolic as the constructor
  `Sha256(preimage)`, so two ids are equal exactly when their pre-images are.
- **Room filter and message** (`Booking`):
  - On the fallback (personal) calendar, an appointment is kept when its
    lower-cased location mentions the local part of the room address, or when a
    recipient mentions the whole address.
  - The notification text is built from the header, date, time range,
    organizer and subject. A location line is added only for a non-empty
    location.
- **Dedup store** (`DedupStore.Store`): a class with three fields.
  - `events` is the `processed_events` table, keyed by id.
  - `logs` is the append-only `logs` table.
  - `nextLogId` is its AUTOINCREMENT counter.
  - `init_database` is its constructor: on a fresh file, or `Reopen` on an
    existing one, which keeps every stored row across a restart.
  - Its methods are `log_message`, `is_event_processed`,
    `mark_event_processed` and `clean_old_events`. Each method's contract
    gives the whole new state and keeps the log ids increasing (`Valid`).
- **Sending** (`Telegram`): `send_telegram_message` makes one attempt. After a
  failure it reconnects and makes exactly one more attempt, logging each
  failure. The chat is the class `Channel`, which holds the messages received
  and the number of send attempts.
- **Poll cycle** (`PollCycle`): `check_room_bookings`.
  - The window runs from one hour before now to 24 hours after that.
  - For each appointment it applies the room filter, checks the store, sends,
    marks on delivery, and counts a booking when the mark succeeds.
  - It ends with a summary line. An exception ends it early with error lines,
    the last being the handler's, and no summary: before the first
    appointment when the calendar fetch fails, or inside the loop, which then
    keeps what the earlier appointments did (`Fetch.Interrupted`). An
    exception after a failed store lookup adds the lookup's error line first.
  - The loop is a method. It is proved against the specification function
    `Run`, a fold of `Step` over the window.
  - `CycleProperties` proves what a run guarantees: the counter, a store that
    only grows, no re-notification, retry after a failed send, and a quiet
    second run.
- **Configuration** (`ConfigManager`): `load_config` lets the file's entries
  override `DEFAULT_CONFIG`. `validate_config` decides whether the service may
  start.

Environment answers are parameters, not effects:

- Whether a store query works is an `Access`.
- Whether a send attempt is delivered is an `Attempt`.
- Per appointment, these are bundled as `Outcomes`.
- What the calendar returned is a `Fetch`.

Times are whole minutes since an epoch.

Four behaviours of the code are worth knowing, because they shape what the
proofs can promise:

- **A failed `is_event_processed` query counts as "not seen".** The code
  catches the error and returns False, so a stored booking is announced again
  and the duplicate insert that follows fails
  (`CycleProperties.ReadFaultResends`).
- **The id ignores the location.** Only subject, start, end and organizer are
  hashed, so moving a booking to another location does not announce it again
  (`Booking.EventIdIgnoresLocation`).
- **The raw subject is hashed, not the placeholder.** The placeholder "无主题"
  appears in the message and in the stored row, but an empty subject is hashed
  as it is (`Booking.GenerateEventId`).
- **The message shows the date as formatted, and a location line only for a
  non-empty location** (`Booking.LocationLineAppended`).

## Model

| member | source | states |
|---|---|---|
| Text.LocalPart | room_notifier.py:84 | `split('@')[0]`: the result is a prefix of the address with no `@`, and it stops at the first `@` or at the end |
| Text.Lower | room_notifier.py:84-92 | `lower()` keeps the length and lower-cases each ASCII letter, position by position |
| Text.NatText | room_notifier.py:135 | `str(n)` of a count is decimal digits only, one digit exactly below ten, and reads back as `n` |
| Text.IntText | room_notifier.py:135 | `str(n)` is non-empty, starts with `-` exactly for negative numbers, and reads back (sign, then decimal digits) as `n` |
| Text.IntTextInjective | room_notifier.py:289 | different times render as different text, so the start and end parts of the id separate times |
| Text.SearchFindsOccurrence | room_notifier.py:86-92 | the `in` test on text succeeds exactly when the needle occurs at some position of the haystack |
| Booking.ShownSubject | room_notifier.py:104 | the shown subject is never empty, and is the subject itself whenever that is non-empty |
| Booking.StampText | room_notifier.py:289 | the text a time contributes to the identity is non-empty and reads back as that time |
| Booking.DateText | room_notifier.py:110 | the `%Y-%m-%d` date is non-empty and reads back as the day the start falls on |
| Text.Pad2 | room_notifier.py:111-112 | `%02d` gives two decimal digits that read back as the number |
| Booking.ClockText | room_notifier.py:111-112 | `%H:%M` is five characters: two digits reading back as the hour of the day, `:`, and two digits reading back as the minute of the hour |
| Booking.ClockTextSameMinuteOfDay | room_notifier.py:111-112 | two times show the same `%H:%M` exactly when they fall on the same minute of the day |
| Booking.IdentityText | room_notifier.py:289 | the hashed text opens with the raw subject and `_`, closes with `_` and the organizer, and has room only for the two times and three separators between |
| Booking.GenerateEventId | room_notifier.py:286-291 | the id is the digest of the identity text, which is the same with the location and recipients erased; an empty subject is hashed as it is, not as the placeholder |
| Booking.EventIdIgnoresLocation | room_notifier.py:286-291 | appointments that agree on subject, start, end and organizer get the same id, whatever their location and recipients |
| Booking.SubjectChangesId | room_notifier.py:289 | changing only the subject changes the id |
| Booking.StartChangesId | room_notifier.py:289 | changing only the start (by as little as a minute) changes the id |
| Booking.EndChangesId | room_notifier.py:289 | changing only the end changes the id |
| Booking.OrganizerChangesId | room_notifier.py:289 | changing only the organizer changes the id |
| Booking.EventIdSeparatesSingleChange | room_notifier.py:286-291 | whenever exactly one of the four identifying fields differs, the ids differ |
| Booking.EventIdJoinIsAmbiguous | room_notifier.py:289 | the plain `_` join lets two bookings that differ in subject and organizer share one id |
| Booking.ConcernsRoom | room_notifier.py:84-94 | the room test; with an empty room address every appointment with a location or a recipient passes, because every text contains the empty text |
| Booking.IsRoomEvent | room_notifier.py:81-98 | the filter loop keeps an appointment exactly when its location mentions the room's local part or some recipient mentions the full address (both directions) |
| Booking.FullAddressInLocationPasses | room_notifier.py:84-87 | a location that mentions the full room address passes the filter |
| Booking.BareAppointmentSkipped | room_notifier.py:86-98 | with no location and no recipients the appointment is skipped |
| Booking.Message | room_notifier.py:115-125 | the notification shows the date line, the time-range line, the organizer line and the subject (or placeholder) behind its label |
| Booking.LocationLineAppended | room_notifier.py:115-125 | adding a location adds exactly one location line at the end of the message and changes nothing before it |
| Booking.MessageStartsWithHeader | room_notifier.py:115-116 | every message starts with the notification header |
| Booking.EmptySubjectShown | room_notifier.py:104-120 | a booking without a subject is announced with the "无主题" placeholder |
| DedupStore.RecordOf | room_notifier.py:239-250 | the stored row holds the shown subject, the organizer, the location, the start and end `%H:%M` and the start date, and is created and processed at the current time |
| DedupStore.RecordMatchesMessage | room_notifier.py:239-250 | the stored row's subject line, date and time range all appear in the notification sent for the same appointment |
| DedupStore.RecordDefaults | room_notifier.py:239-250 | the stored row falls back to the placeholder subject and an empty location, and is created at the current time |
| DedupStore.StampKeepsLogsBelow | room_notifier.py:189-195 | appending log rows keeps the AUTOINCREMENT ids increasing and below the counter |
| DedupStore.Retained | room_notifier.py:276 | the kept log rows are exactly those created at or after the cutoff |
| DedupStore.RetainedIncreasing | room_notifier.py:276 | deleting old log rows keeps the ids increasing |
| DedupStore.Expired | room_notifier.py:269-273 | the rows the count and the delete select: exactly the stored ids created before the cutoff |
| DedupStore.Unexpired | room_notifier.py:273 | the kept events are exactly those created at or after the cutoff, unchanged |
| DedupStore.PruneAccounting | room_notifier.py:269-273 | the rows counted before the delete are disjoint from the kept rows, and the two together make up the table |
| DedupStore.RetentionBoundary | room_notifier.py:269-273 | a record created exactly at the cutoff is kept, and one created a minute earlier is deleted |
| DedupStore.Store.constructor | room_notifier.py:167-202 | `init_database` on a fresh file: empty event table, and the "数据库初始化成功" row with id 1 when the database opens (print only otherwise) |
| DedupStore.Store.Reopen | room_notifier.py:167-202 | `init_database` on an existing file (`CREATE TABLE IF NOT EXISTS`): every stored event row is kept, so earlier notifications stay deduplicated across restarts, and the log continues after the ids already used |
| DedupStore.Store.LogMessage | room_notifier.py:204-218 | appends one row with the next id and the current time; nothing else changes |
| DedupStore.Store.IsEventProcessed | room_notifier.py:220-231 | true exactly when the query works and the id is stored; a failing query answers false and logs the error |
| DedupStore.Store.MarkEventProcessed | room_notifier.py:233-257 | succeeds exactly when the database works and the id is new, and then adds that one row; otherwise the table is unchanged and the error is logged |
| DedupStore.Store.CleanOldEvents | room_notifier.py:259-284 | deletes exactly the events and log rows created before the cutoff, and returns the number of deleted events; reports the count only when positive; with the setting missing or a failing database, only logs the error; in every case the log counter advances by exactly the lines logged |
| Telegram.SendPlan | room_notifier.py:142-165 | at most two attempts, a second one exactly after a failed first; success exactly when one attempt delivers; one error line per failed attempt |
| Telegram.SendTelegramMessage | room_notifier.py:142-165 | the group receives the message once exactly when the result is true; calls, error log rows and the untouched event table follow `SendPlan` |
| PollCycle.Restrict | room_notifier.py:59-70 | the window keeps exactly the appointments with start at or after now − 1 h and end at or before that + 24 h, each as often as it occurs in the calendar |
| PollCycle.RestrictAppend | room_notifier.py:69-70 | the window of two sequences in a row is the window of the first followed by that of the second: the filter keeps the calendar's order |
| PollCycle.RestrictSingle | room_notifier.py:67-70 | one appointment is kept exactly when it lies in the window |
| PollCycle.RestrictKeepsStartOrder | room_notifier.py:69-70 | appointments sorted by start stay sorted by start in the window |
| PollCycle.Run | room_notifier.py:76-132 | the loop as a fold: one visit added per appointment with earlier visits kept, at most one count and two send attempts per appointment |
| PollCycle.Summary | room_notifier.py:134-137 | the closing info line says "本次检查未发现新预订" exactly when nothing was counted |
| PollCycle.Cycle | room_notifier.py:25-140 | the cycle's last log line is the summary exactly when the loop ran to its end, and otherwise the handler's error line; a failed fetch changes nothing else |
| PollCycle.Delivery | room_notifier.py:128-132 | the message reaches the group exactly when an attempt delivers; a row is added exactly when delivered and the insert is admitted; at most two send attempts |
| PollCycle.Handle | room_notifier.py:76-132 | an appointment is skipped exactly when the filter rejects it, seen exactly when it is stored and the lookup works; only a marked visit changes the store, by one new row under its own id |
| PollCycle.Record | room_notifier.py:130-132 | mark, then log "已发送通知" only on success; the store ends as `RecordLines` and the mark say |
| PollCycle.Deliver | room_notifier.py:128-132 | sending then marking changes the store, chat and logs exactly as `Delivery` says |
| PollCycle.ProcessAppointment | room_notifier.py:76-132 | one loop turn changes the store, chat and logs exactly as `Handle` says, and reports whether it counted |
| PollCycle.ProcessWindow | room_notifier.py:73-132 | the loop leaves the store, chat and logs as the fold `Run` says, and its counter equals `Run`'s count |
| PollCycle.CutShort | room_notifier.py:81-112 | the turn an exception cuts short sends and stores nothing, and logs only the lookup's error when the exception came after the lookup |
| PollCycle.Interrupt | room_notifier.py:100-140 | an interrupted run ends with the cut-short turn and the handler's error line, and no summary |
| PollCycle.Summarize | room_notifier.py:134-137 | writing the summary line leaves the store, chat and logs mirroring the finished run: the run's lines followed by the summary of its count |
| PollCycle.CheckRoomBookings | room_notifier.py:25-140 | a whole cycle leaves the store, chat and logs as `Cycle` says (including a fetch that fails and a loop that raises), and `notifications_sent` equals its count |
| CycleProperties.RunCounts | room_notifier.py:73-132 | one visit per appointment; the counter equals the successful marks, equals the rows added, and never exceeds the messages delivered |
| CycleProperties.RunVisits | room_notifier.py:76-101 | the k-th visit is skipped exactly when the filter rejects the k-th appointment, and otherwise carries that appointment's id |
| CycleProperties.RunStores | room_notifier.py:128-132 | old rows are kept unchanged; every new row comes from a delivered-and-marked visit; every marked visit left its row |
| CycleProperties.RunSkipsStored | room_notifier.py:100-101 | an id stored before the run is never sent while the store can be read |
| CycleProperties.RunNoDoubleNotice | room_notifier.py:100-132 | after an appointment is marked, a later one with the same id in the same run is not sent again while the store can be read |
| CycleProperties.UndeliveredRetried | room_notifier.py:128-130 | a send that failed twice leaves no row, so, provided no other appointment of the same run was marked under that id, the next run with a readable store sends it again |
| CycleProperties.GoodVisitStores | room_notifier.py:128-132 | a relevant appointment with a working store and a delivered first attempt is stored after its visit |
| CycleProperties.RunStoresAll | room_notifier.py:76-132 | when everything works, every appointment the run looks at is stored |
| CycleProperties.RunQuietWhenStored | room_notifier.py:100-101 | when every lookup works and every relevant appointment is already stored, the run sends nothing, changes nothing, logs nothing and counts 0 |
| CycleProperties.SecondCycleQuiet | room_notifier.py:25-140 | after a cycle in which every lookup, first attempt and insert worked, a later cycle, at any instant and over any fetch whose window holds only appointments of the first window, with working lookups, sends nothing, keeps the store and logs only "本次检查未发现新预订" |
| CycleProperties.InterruptedKeepsPrefix | room_notifier.py:27-140 | an exception inside the loop keeps the rows, messages and log lines of the earlier appointments and every row stored before; only error lines follow, the last being the handler's, so no summary is written |
| CycleProperties.ReadFaultResends | room_notifier.py:229-231 | a failing lookup makes a stored booking look new: it is sent again, and the duplicate insert leaves the store as it was |
| CycleProperties.SingleBookingNotified | room_notifier.py:25-140 | empty store, one booking in the window: one send call, one message, one row, counter 1, and the info and summary log lines |
| CycleProperties.SummaryReportsCount | room_notifier.py:134-137 | the summary mentions "条新通知" exactly when the count is positive, and then names the count |
| ConfigManager.LoadConfig | config_manager.py:18-31 | every default key is present; the file's keys win; other defaults are kept; a missing or unreadable file gives exactly the defaults |
| ConfigManager.MissingKeys | config_manager.py:44-45 | the reported keys are exactly the required keys whose value is missing or falsy |
| ConfigManager.ValidateConfig | config_manager.py:42-67 | accepted exactly when the required values are truthy, the API id is a positive int, the hash has a length and the chat id is an int; incomplete exactly when a required value is missing or falsy; a short hash only sets the warning |
| ConfigManager.HashLengthOnlyWarns | config_manager.py:58-60 | replacing the hash with any other non-empty string never changes acceptance |
| ConfigManager.DefaultConfig | config_manager.py:5-13 | the defaults hold the four required keys, the interval, database and session settings, no retention setting, seven keys in all |
| ConfigManager.DefaultRequiredEntries | config_manager.py:5-13 | the shipped defaults for the four required keys |
| ConfigManager.MissingIdAndHash | config_manager.py:44-51 | with the room and chat present, a falsy API id and hash are both reported, in order |
| ConfigManager.DefaultConfigRejected | config_manager.py:5-51 | the shipped defaults fail validation, reporting the API id and hash as missing |

## Left out

- Outlook is not modelled: COM dispatch, recipient resolution, and the choice between the shared and the personal calendar. The fetch is a parameter, a `Fetch` value with a `personalCalendar` flag.
- The `Restrict` filter string and its `strftime` formatting are not modelled. The window is compared on minutes directly.
- `Sort("[Start]")` is not modelled. The fetched sequence is taken to be in start order already.
- Telethon is not modelled: connection state, `connect`/`disconnect` and `parse_mode`. Each attempt's outcome is a parameter.
- `Telegram.SendTelegramMessage`: an attempt either delivers or raises with nothing delivered. An attempt that raises after the group got the message (a lost acknowledgement) is not modelled; the code then reconnects and sends again, so the group gets the message twice. "Received once exactly when true" holds only without such attempts.
- SQLite connections, commits and crashes mid-insert are not modelled. Each query's success is a parameter.
- `DedupStore.Store.LogMessage`: does not model a failing log insert (the message is then only printed). The row is always appended.
- `print` output is not modelled, because it changes no state.
- `Booking.StampText`, `Booking.DateText`: `str(datetime)` and `%Y-%m-%d` are rendered as decimal minute and day numbers, not calendar text. Time zones are left out.
- `DedupStore.Store.CleanOldEvents`: one clock serves both the rows and the cutoff. In the code, SQLite's `CURRENT_TIMESTAMP` writes `created_at` in UTC, while the cutoff comes from the local `datetime.now()`. Outside UTC, rows are therefore pruned early or late by the zone's offset; `RetentionBoundary` holds only on the single clock.
- `PollCycle.CheckRoomBookings`: after an exception in the loop the code drops `notifications_sent`; the method still returns the number of rows stored before the exception.
- SHA-256 internals are left out. The digest is symbolic and therefore collision-free.
- `Text.Lower`: lower-cases ASCII letters only; Python's `lower()` also folds non-ASCII letters.
- `str(recipient)` is taken as given text for each recipient.
- A `room_email` that is not a string is not modelled.
- `ConfigManager.LoadConfig`: `dict.update` with a top-level JSON array of pairs is not modelled. A file whose top level is not an object contributes no entries.
- `data_retention_days` is not modelled as a setting. It is absent from `DEFAULT_CONFIG`, and `clean_old_events` receives the resulting cutoff as an option. A fractional number of days is not modelled.
- The scheduler is not modelled: `main`, `schedule.every`, the sleep loop and shutdown. `clean_old_events` is modelled as an operation, but the program never calls it.
- `save_config_template` writes a file and is not modelled.
- `get_telegram_group_id.py` is a separate interactive helper script and is not part of this model.
