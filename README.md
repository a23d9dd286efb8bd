# Smart washing machine — verified model of the telemetry engine, the operator routes and the washer firmware

This project models the core of the smart laundry system in Dafny:

- **Telemetry engine** (`MqttService`). It routes an inbound broker message by its topic. A status report overwrites the machine record and its realtime snapshot, and mirrors progress onto the order the report names. An error report becomes one ERROR notification. A DONE event completes the order, sends the completion mail at most once and counts one cycle. An ONLINE event upserts the machine as AVAILABLE. Commands are published on `laundry/<id>/command`.
- **Operator routes on orders** (`OrderRoutes`). Creation runs the unique-code retry loop and applies the schema defaults and validation. The other routes are start on an AVAILABLE machine, pickup, cancel of a PENDING order, and the day statistics.
- **Operator routes on machines** (`MachineRoutes`). These are PAUSE, RESUME, RESET, the maintenance switch, renaming, and the idempotent initialisation of MACHINE_01..04.
- **Records** (`OrderModel`, `MachineModel`, `NotificationModel`). They hold the enum domains and the schema defaults, together with:
  - the six-character order-code generator;
  - the default machine name;
  - the daily reset of the cycle counter.
- **Notification routes** (`NotificationRoutes`). The list is paged and newest first, with its counts and page arithmetic. The other routes are mark-read, read-all and the cleanup of read records older than thirty days.
- **Washer firmware** (`Firmware`). One `loop()` iteration is a touch block, a door block and the per-state logic over READY, FILLING, WASHING, PAUSED, ERROR_DOOR and DONE. The millisecond counters are 32-bit and wrap around.

The database is one `Database.Store` object. It holds:

- the machines, keyed by id;
- the orders, keyed by code;
- the notifications, with the next notification id;
- three logs for the outbound effects: realtime `events` to the socket clients, `commands` published to the broker, and the `outbox` of e-mail attempts.

Every handler and every route that writes is a method that updates the store in place, and `Store.Valid()` is kept by all of them. It says that:

- every record is filed under its own key;
- every order code is a well-formed generated code;
- each stored order had exactly one creation mail attempt, and exactly one completion attempt when its `emailSent.completed` guard is set (none otherwise);
- notification ids are distinct and below the next id.

The two read routes with results worth stating, the order statistics and the notification list, are functions of the stored collections.

## Inputs that become parameters

These are taken as parameters rather than modelled:

- the clock (`now`, `millis()`);
- the random draws of the code generator (`Draws`);
- the boolean returned by the e-mail collaborator (`mailOk`);
- the parsed JSON payload, or its failure to parse (`Message`);
- the firmware's sensor readings (`Inputs`).

## Where the code departs from the intended design

The model follows the code in both of these cases.

- A status report with device state `DONE` sets the machine to AVAILABLE. The status mapping starts from AVAILABLE and only moves away from it for the other states, at `backend/services/mqttService.js` lines 62-66. Completion is meant to be decided by the DONE event alone. `MqttService.StatusOf` states the code's behaviour.
- A status report naming an order overwrites that order's status with WASHING or DONE, whatever it was before. This includes PICKED_UP and CANCELLED orders, at `backend/services/mqttService.js` lines 83-94. Pickup likewise accepts an order in any status. PICKED_UP and CANCELLED are meant to be terminal.

## Model

| member | source | states |
|---|---|---|
| MqttService.OnMessage | backend/services/mqttService.js:25-39 | An unparsable payload or a topic matching no route leaves the store unchanged. Otherwise exactly the handler the topic selects runs, with its whole effect stated. |
| MqttService.RouteOf | backend/services/mqttService.js:29-35 | The route in both directions: any topic containing "/status" goes to the status handler; otherwise exactly `laundry/errors` goes to the error handler and exactly `laundry/events` to the event handler; every other topic is ignored. |
| MqttService.StatusTopicRoutes | backend/services/mqttService.js:29-30 | Every per-machine topic `laundry/<id>/status` is routed to the status handler. |
| MqttService.SharedTopicsRoute | backend/services/mqttService.js:29-34 | `laundry/errors` reaches the error handler and `laundry/events` the event handler. Neither topic is caught by the "/status" test that comes first. |
| MqttService.ErrorsTopicHasNoStatus | backend/services/mqttService.js:29-31 | `laundry/errors` does not contain "/status". |
| MqttService.EventsTopicHasNoStatus | backend/services/mqttService.js:29-33 | `laundry/events` does not contain "/status". |
| MqttService.NoStatusIn | backend/services/mqttService.js:29 | A `laundry/<tail>` topic whose six-character tail has no '/' and does not start with 's' never contains "/status". |
| MqttService.StatusOf | backend/services/mqttService.js:62-66 | Each state's status, stated in both directions: POWER_OFF gives OFFLINE; READY and DONE give AVAILABLE; ERROR_DOOR and ERROR_WATER give ERROR; every other state gives RUNNING; MAINTENANCE is never produced. |
| MqttService.ProvisionedName | backend/services/mqttService.js:57 | The name given to a machine first seen in a status report always starts with "Máy #". |
| MqttService.ProvisionedNameOfOtherId | backend/services/mqttService.js:57 | An id without "MACHINE_" is kept whole after "Máy #". |
| MqttService.ProvisionedNameIsDefaultName | backend/services/mqttService.js:55-58 | For an id `MACHINE_<n>`, the name given on first sight is "Máy #<n>". This is the same name the schema default gives. |
| MqttService.SnapshotOf | backend/services/mqttService.js:70-78 | The realtime snapshot is the payload's state, progress, water level, mode and door flag. The error code is null when falsy, and the update time is the receipt time. |
| MqttService.ApplyStatus | backend/services/mqttService.js:68-78 | A status report sets the status from the state and the current order to the order code, or null when it is falsy. It replaces the whole snapshot and keeps the id, name, stats and creation time. |
| MqttService.ReplayStatus | backend/services/mqttService.js:68-80 | Applying the same report twice equals applying it once at the later time. Two applications differ only in `lastUpdate`. |
| MqttService.MirrorStatus | backend/services/mqttService.js:83-94 | The named order becomes DONE exactly when the state is DONE, and WASHING otherwise. Progress, phase (the state), mode and machine are copied; an absent mode is kept. Every other field is unchanged: code, customer, package, price, all four timestamps and the mail guards. |
| MqttService.ReplayMirror | backend/services/mqttService.js:84-93 | Mirroring the same report twice is mirroring it once. |
| MqttService.StatusTarget | backend/services/mqttService.js:51-59 | The stored machine, or a new OFFLINE machine with the provisioned name when the id is unknown. |
| MqttService.OrderKey | backend/services/mqttService.js:84 | The stored code an `{orderCode}` filter matches is the upper-cased code, through the schema's `uppercase` setter. It has the same length, and a well-formed code is its own key. |
| MqttService.MirroredOrders | backend/services/mqttService.js:83-94 | With a truthy order code whose upper-cased form is stored, that order becomes its mirror of the report. Every other order is unchanged, and so is the key set. |
| MqttService.StatusKeepsInvariants | backend/services/mqttService.js:51-94 | A status report keeps the keying of machines and orders and the mail bookkeeping. |
| MqttService.HandleMachineStatus | backend/services/mqttService.js:47-113 | The whole new state: the machine upserted and overwritten, and the named order mirrored. It emits `machineUpdate`, then `orderUpdate` only with an order code. Notifications, commands and mail are untouched. |
| MqttService.ErrorText | backend/services/mqttService.js:125 | The device's message when it is truthy; otherwise the fallback text naming the machine and the error type. |
| MqttService.ErrorNotification | backend/services/mqttService.js:122-132 | An unread ERROR notification titled "Lỗi <id>". It carries the message text, the machine, the order code and `{errorType, errorMessage}`. |
| MqttService.HandleError | backend/services/mqttService.js:116-143 | Exactly one notification is appended and the id counter moves by one. `newNotification` and `machineError` are emitted. No machine, order, command or mail changes. |
| MqttService.CompleteOrder | backend/services/mqttService.js:153-170 | The completed order is DONE with progress 100, phase DONE and the completion time. The event's mode is applied when present, and the completion guard is set whatever it was. Every other field is unchanged: code, customer, package, price, machine, creation, start and pickup times, and the creation guard. |
| MqttService.CountCycle | backend/services/mqttService.js:173-177 | Both cycle counters go up by exactly one and the reset date is kept. The machine becomes AVAILABLE with no current order. Id, name, snapshot and creation time are unchanged. |
| MqttService.CompletedOrders | backend/services/mqttService.js:153-163 | A stored order with the matched code becomes `CompleteOrder` of itself. Every other order is unchanged, and an unknown code changes nothing. |
| MqttService.CompletionOutbox | backend/services/mqttService.js:165-170 | One completion attempt for the code is appended exactly when the order is stored with its completion guard clear. Otherwise the log is unchanged; earlier entries are always kept. |
| MqttService.CountedMachines | backend/services/mqttService.js:173-177 | A stored machine becomes `CountCycle` of itself and every other machine is unchanged. An unknown id changes nothing: there is no upsert. |
| MqttService.DoneKeepsInvariants | backend/services/mqttService.js:151-177 | A DONE event keeps the record keying and the one-attempt-per-guard mail bookkeeping. |
| MqttService.HandleDone | backend/services/mqttService.js:151-181 | The order matched by the upper-cased code is completed, and the mail is attempted only while its guard is clear. A stored machine counts one cycle, even when the order is missing. One `orderCompleted` with the code as sent is emitted. |
| MqttService.OnlineTarget | backend/services/mqttService.js:184-187 | The upsert target is the stored machine, or, as designed, a new one with the schema defaults. |
| MqttService.MarkOnline | backend/services/mqttService.js:184-187 | The machine becomes AVAILABLE and the snapshot's `lastUpdate` becomes now. Every other field, including the creation time, is unchanged. |
| MqttService.HandleOnline | backend/services/mqttService.js:183-190 | The machine is upserted as AVAILABLE and `machineOnline` is emitted. Nothing else changes. |
| MqttService.HandleEvent | backend/services/mqttService.js:146-191 | DONE with a truthy order code runs the completion. ONLINE runs the upsert. Anything else, including DONE without an order code, changes nothing. |
| MqttService.CommandTopicNamesMachine | backend/services/mqttService.js:195 | The machine id can be recovered from its command topic, so two machines never share one. |
| MqttService.CommandTopic | backend/services/mqttService.js:195 | The command topic is "laundry/", then the machine id, then "/command". |
| MqttService.CommandPayload | backend/services/mqttService.js:196 | `{command, ...data}`: the keys are "command" plus the data keys. Data values win on a clash. |
| MqttService.SendCommand | backend/services/mqttService.js:194-200 | Exactly one publish on `laundry/<id>/command`. Nothing else changes. |
| OrderRoutes.PackageName | backend/routes/orders.js:63 | A falsy package name becomes "STANDARD"; a truthy one is kept. |
| OrderRoutes.PriceOf | backend/routes/orders.js:64 | A missing price or a price of 0 becomes 30000; any other price is kept. |
| OrderRoutes.BuildOrder | backend/routes/orders.js:58-67 | The document is accepted exactly when the e-mail is truthy and the package is in the enum. An accepted order has the code, the defaults, PENDING and both mail guards clear. |
| OrderRoutes.CreationDefaults | backend/routes/orders.js:58-65 | With package and price left out, or given as "" and 0, the order is STANDARD at 30000. |
| OrderRoutes.FirstFresh | backend/routes/orders.js:50-56 | The code the retry loop settles on is unused and well formed. It is the first candidate not in use. None means every candidate was taken. |
| OrderRoutes.GeneratedIsCodeOf | backend/routes/orders.js:53 | Each generated candidate is the code its draws determine. |
| OrderRoutes.FindFreshCode | backend/routes/orders.js:50-56 | The `while (!isUnique)` loop finds exactly the first fresh candidate. |
| OrderRoutes.CreateOrder | backend/routes/orders.js:45-80 | On success, the new code was not in the store. One creation mail is attempted and `emailSent.created` equals its result. A refused document changes nothing and gives 500. |
| OrderRoutes.Available | backend/routes/orders.js:89-92 | The start guard: the machine is stored and AVAILABLE. |
| OrderRoutes.StartedOrder | backend/routes/orders.js:95-103 | The order gets WASHING, the machine and the start time. Every other field is unchanged: code, customer, package, price, progress, phase, mode, the other timestamps and the mail guards. |
| OrderRoutes.Engaged | backend/routes/orders.js:110-112 | The machine becomes RUNNING with the upper-cased code as its current order. Id, name, snapshot, stats and creation time are unchanged. |
| OrderRoutes.StartCommand | backend/routes/orders.js:115 | A START command on the machine's topic, whose payload carries exactly the command and the order code. |
| OrderRoutes.StartOrder | backend/routes/orders.js:83-121 | 400, with nothing changed, exactly when the machine is missing or not AVAILABLE; this is checked first. Then 404, with nothing changed, exactly when the upper-cased code is unknown. Otherwise the order and the machine are updated and one START is published. The prior status of the order is not checked. |
| OrderRoutes.PickedUp | backend/routes/orders.js:126-133 | The order becomes PICKED_UP with the pickup time. Every other field is unchanged. |
| OrderRoutes.Pickup | backend/routes/orders.js:124-143 | 404 with no change exactly when the code is unknown. Otherwise the order becomes PICKED_UP, whatever its status. |
| OrderRoutes.Cancelled | backend/routes/orders.js:148-152 | The order becomes CANCELLED. Every other field is unchanged. |
| OrderRoutes.Cancel | backend/routes/orders.js:146-162 | The order is cancelled exactly when it is stored and PENDING. Otherwise the reply is 404 and nothing changes. |
| OrderRoutes.SecondCancelFails | backend/routes/orders.js:146-162 | Whatever the first cancel did, a second cancel of the same code is 404. The store is as the first cancel left it. |
| OrderRoutes.StartedOrderNotCancellable | backend/routes/orders.js:83-162 | After a successful start the order is WASHING, and a cancel of it is 404. |
| OrderRoutes.PickedUpOrderNotCancellable | backend/routes/orders.js:124-162 | After a pickup attempt on a code, a cancel of that code is always 404. A successful pickup leaves the order PICKED_UP. |
| OrderRoutes.StoredCodeIsUpperCase | backend/routes/orders.js:86 | A stored order code is unchanged by upper-casing, so path lookups find it. |
| OrderRoutes.CountWhere | backend/routes/orders.js:171-174 | A count never exceeds the size of the collection. |
| OrderRoutes.SumWhereAppend | backend/routes/orders.js:177-180 | The revenue sum over a concatenation is the sum of the two parts. |
| OrderRoutes.CountIsSumOfOnes | backend/routes/orders.js:171-174 | A count is the sum of 1 over the matching orders. |
| OrderRoutes.SumWherePermutation | backend/routes/orders.js:177-180 | The sum is the same for every enumeration order of the same collection. |
| OrderRoutes.SumWhereNone | backend/routes/orders.js:187 | With no matching order the sum is 0. |
| OrderRoutes.CountDisjoint | backend/routes/orders.js:173-174 | Two statuses that exclude each other count to at most the total. |
| OrderRoutes.DayStart | backend/routes/orders.js:167-168 | Midnight today is no later than now and falls on the same day. |
| OrderRoutes.CreatedSince | backend/routes/orders.js:171 | The "created today" filter: created at or after the given start of day. |
| OrderRoutes.Earning | backend/routes/orders.js:178-180 | The revenue filter: DONE or PICKED_UP. |
| OrderRoutes.EnumeratesInsert | backend/routes/orders.js:170-171 | Storing an order under a fresh code extends an enumeration of the collection by that order. |
| OrderRoutes.StatsSummary | backend/routes/orders.js:165-192 | Over an enumeration listing each stored order once, the total is the number of stored orders, and today's count and the per-status counts are within it. The revenue is the price sum over orders created today that are DONE or PICKED_UP. |
| OrderRoutes.RevenueZeroWithoutEarningOrders | backend/routes/orders.js:177-187 | With no stored order created today that is DONE or PICKED_UP, the revenue is 0. |
| OrderRoutes.SummaryIgnoresEnumerationOrder | backend/routes/orders.js:170-188 | Two enumerations of the stored orders that are permutations of each other give the same summary. |
| OrderRoutes.CreatedOrderInStats | backend/routes/orders.js:170-188 | Storing a new PENDING order under a fresh code adds one to the total and to the pending count. It adds nothing to washing or to revenue. |
| MachineRoutes.Pause | backend/routes/machines.js:31-48 | 404 with no change exactly when the machine is unknown. 400 with no change exactly when it is not RUNNING. Otherwise one `{command: PAUSE}` is published and no record changes. |
| MachineRoutes.Resume | backend/routes/machines.js:51-64 | 404 with no change exactly when the machine is unknown. Otherwise one RESUME is published, whatever the status. |
| MachineRoutes.ResetMachine | backend/routes/machines.js:77-78 | AVAILABLE with no current order. The stats, snapshot, name and id are kept. |
| MachineRoutes.Reset | backend/routes/machines.js:67-90 | 404 with no change exactly when the machine is unknown. Otherwise one RESET is published, the machine is freed and emitted, and no order is touched. |
| MachineRoutes.SetMaintenance | backend/routes/machines.js:106 | MAINTENANCE when enabling and AVAILABLE when disabling. Only the status changes. |
| MachineRoutes.Maintenance | backend/routes/machines.js:93-117 | 404 exactly when the machine is unknown. 400 exactly when enabling on a RUNNING machine; both leave everything unchanged. Otherwise the status is switched from whatever it was and the machine is emitted. |
| MachineRoutes.Renamed | backend/routes/machines.js:122-127 | Only the name changes. An absent name changes nothing. |
| MachineRoutes.Rename | backend/routes/machines.js:120-137 | 404 with no change exactly when the machine is unknown. Otherwise only that machine's name changes. |
| MachineRoutes.Upsert | backend/routes/machines.js:171-175 | `$setOnInsert` with upsert: an absent machine is inserted and a present one is kept. |
| MachineRoutes.UpsertAll | backend/routes/machines.js:170-176 | After the loop every seed id exists. Existing machines are unchanged. Each new one is the default machine with the first seed name for its id. |
| MachineRoutes.UpsertAllIdempotent | backend/routes/machines.js:170-176 | Running the upserts again, at any time, changes nothing. |
| MachineRoutes.UpsertSeeds | backend/routes/machines.js:170-176 | The `for` loop computes exactly the upsert sequence, and only the machines change. |
| MachineRoutes.Init | backend/routes/machines.js:161-183 | Afterwards MACHINE_01..04 all exist, and every machine stored before is unchanged. |
| MachineRoutes.MaintenanceBlocksStart | backend/routes/machines.js:93-117 | After switching maintenance on, a start on that machine is always 400. When the switch succeeded, the machine is in maintenance and no order, command or mail has changed. |
| MachineRoutes.ResetAllowsStart | backend/routes/machines.js:67-90 | After a successful reset a start on that machine is never 400. It succeeds exactly when the upper-cased code is stored. |
| OrderModel.ParsePackage | backend/models/Order.js:26-30 | The package enum: exactly BASIC, STANDARD and PREMIUM are accepted. |
| OrderModel.NewOrder | backend/models/Order.js:3-82 | The schema defaults: PENDING, progress 0, phase "PENDING", mode "NORMAL", no machine, no start, completion or pickup time, and both mail guards false. |
| OrderModel.AlphabetChars | backend/models/Order.js:86 | The alphabet has 36 characters: A–Z at indices 0–25 and 0–9 at 26–35. |
| OrderModel.EveryCodeCharIsDrawn | backend/models/Order.js:86-89 | Every upper-case letter and digit is at some index of the alphabet. |
| OrderModel.GenerateOrderCode | backend/models/Order.js:85-92 | The loop builds exactly six characters, the i-th one being the alphabet at the i-th draw. |
| OrderModel.CodeOf | backend/models/Order.js:85-92 | The code the draws determine is a well-formed order code. |
| OrderModel.EveryOrderCodeIsGenerated | backend/models/Order.js:85-92 | Every well-formed code is generated by some draws: the generator's range is exactly the order codes. |
| MachineModel.DefaultNameOfNumberedId | backend/models/Machine.js:10-12 | The default name of `MACHINE_<n>` is "Máy #<n>". |
| MachineModel.DefaultNameOfOtherId | backend/models/Machine.js:10-12 | An id without "MACHINE_" is kept whole after "Máy ". |
| MachineModel.DefaultName | backend/models/Machine.js:10-12 | The default name always starts with "Máy ". |
| MachineModel.DefaultRealtime | backend/models/Machine.js:25-33 | The snapshot defaults: POWER_OFF, progress 0, water 0, mode NORMAL, door shut, no error code. |
| MachineModel.NewMachine | backend/models/Machine.js:3-46 | A new machine is OFFLINE with no current order, the default snapshot and both counters 0. |
| MachineModel.DayOf | backend/models/Machine.js:50-51 | The day number of a time is the whole day that contains it. |
| MachineModel.CheckDailyReset | backend/models/Machine.js:49-57 | On a new day `todayCycles` becomes 0 and `lastResetDate` becomes now. On the same day nothing changes, and `totalCycles` never changes. |
| MachineModel.CheckDailyResetIdempotent | backend/models/Machine.js:49-57 | A second check on the same day changes nothing. |
| NotificationRoutes.KeepWhere | backend/routes/notifications.js:11-13 | The filter keeps exactly the matching records, each taken from the input. |
| NotificationRoutes.KeepWhereKeepsIdsFresh | backend/routes/notifications.js:84-87 | Deleting records keeps the ids distinct and below the next id. |
| NotificationRoutes.KeepWhereEmptyIff | backend/routes/notifications.js:11-13 | Nothing is kept exactly when no record matches. |
| NotificationRoutes.UnreadCount | backend/routes/notifications.js:21 | `countDocuments({read: false})` is within the collection size, and 0 exactly when every record is read. |
| NotificationRoutes.Insert | backend/routes/notifications.js:16 | Inserting into a newest-first sequence keeps it newest first and adds exactly that record. |
| NotificationRoutes.NewestFirst | backend/routes/notifications.js:15-16 | `sort({createdAt: -1})`: a reordering of the records, with none added or lost, in newest-first order. |
| NotificationRoutes.Cap | backend/routes/notifications.js:18 | `limit(n)`: 0 means no limit, a negative n means its absolute value, and never more than are available. |
| NotificationRoutes.Window | backend/routes/notifications.js:17-18 | `skip(k).limit(n)`: the records from position k on, as many as the cap allows, in order. |
| NotificationRoutes.TotalPages | backend/routes/notifications.js:28 | `Math.ceil(total / limit)`: for a positive limit, the least page count that covers the total. It is not finite for limit 0. |
| NotificationRoutes.OrDefault | backend/routes/notifications.js:8 | A destructuring default: an absent query parameter takes the default and a given one is kept. |
| NotificationRoutes.List | backend/routes/notifications.js:6-33 | An absent page is 1 and an absent limit 20. The listing is refused exactly when the skip is negative. `total` counts the filtered records. `unreadCount` counts all unread records, whatever the filter. The page is the newest-first window. |
| NotificationRoutes.DefaultListIsNewestTwenty | backend/routes/notifications.js:8-28 | A request without page and limit lists the twenty newest matching records as page 1, with `ceil(total / 20)` pages. |
| NotificationRoutes.ListIsNewestFirstSlice | backend/routes/notifications.js:15-18 | A listed page is newest first, drawn from the stored records, unread-only when asked, and at most the limit long. |
| NotificationRoutes.PageNonEmptyIffWithinTotalPages | backend/routes/notifications.js:17-28 | With a positive limit, a page holds records exactly when its number is at most `totalPages`. |
| NotificationRoutes.IndexOf | backend/routes/notifications.js:48 | The position of the record with the id, or None exactly when there is no such record. |
| NotificationRoutes.MarkedRead | backend/routes/notifications.js:50 | The record becomes read at now. All its other fields are kept. |
| NotificationRoutes.MarkRead | backend/routes/notifications.js:46-62 | 404 with no change exactly when no record has the id. Otherwise exactly that record is marked read. |
| NotificationRoutes.ReadAllOf | backend/routes/notifications.js:67-70 | Unread records become read at now. Records already read keep their `readAt`. |
| NotificationRoutes.ReadAllLeavesNoneUnread | backend/routes/notifications.js:67-70 | Afterwards no record is unread. |
| NotificationRoutes.ReadAll | backend/routes/notifications.js:65-76 | Every record is updated as above, the unread count becomes 0 and nothing else changes. |
| NotificationRoutes.Cutoff | backend/routes/notifications.js:81-82 | The cutoff is thirty days of milliseconds before now. |
| NotificationRoutes.Expired | backend/routes/notifications.js:84-87 | What the cleanup deletes: read records created before the cutoff. An expired record is always read. |
| NotificationRoutes.Cleanup | backend/routes/notifications.js:79-93 | Exactly the read records older than thirty days are removed, and the reply is their number. No unread record is removed and the unread count is unchanged. |
| NotificationRoutes.UnreadSurviveCleanup | backend/routes/notifications.js:84-87 | The unread records after cleanup are the unread records before it. |
| Strings.OrNull | backend/services/mqttService.js:69 | Falsy strings become null and truthy ones are kept. |
| Strings.ContainsIffOccurs | backend/services/mqttService.js:29 | `includes` holds exactly when the pattern occurs at some index. |
| Strings.ReplaceFirstAtFirstOccurrence | backend/models/Machine.js:11 | `replace` with a string pattern replaces exactly the first occurrence. |
| Strings.ReplaceFirstWithoutOccurrence | backend/models/Machine.js:11 | Without an occurrence, `replace` returns the string unchanged. |
| Strings.ToUpper | backend/routes/orders.js:86 | Same length. Each letter a–z becomes its own capital, 32 code points lower, and every other character is kept. |
| Strings.ToUpperIdempotent | backend/routes/orders.js:86 | Upper-casing twice is upper-casing once. |
| Database.CompletionKeepsMailConsistent | backend/services/mqttService.js:165-169 | Setting the completion guard together with one completion attempt keeps the mail bookkeeping. |
| Database.CreationKeepsMailConsistent | backend/routes/orders.js:67-74 | Storing a new order together with its one creation attempt keeps the mail bookkeeping. |
| Database.CompletionMailAtMostOnce | backend/services/mqttService.js:165-169 | In a consistent store each order had at most one completion attempt. It had exactly one precisely when its guard is set. |
| Firmware.Sub | src/main.cpp:182 | `unsigned long` subtraction wraps below zero. |
| Firmware.Add | src/main.cpp:193 | `unsigned long` addition, exact while below 2^32. |
| Firmware.Times100 | src/main.cpp:201 | `elapsedTime * 100` in `unsigned long`, exact while below 2^32. |
| Firmware.SubSubCancels | src/main.cpp:128 | `now - (now - e) == e` in wrapping arithmetic. |
| Firmware.Touch | src/main.cpp:106-135 | Only a press more than 500 ms after the last one counts. The transitions are READY→FILLING, FILLING or WASHING→PAUSED (saving the phase), PAUSED→the saved phase (restarting the wash clock into WASHING), DONE→READY, and ERROR_DOOR unchanged. |
| Firmware.DoorAsWritten | src/main.cpp:138-149 | The door block as written: an open door mid-cycle, including PAUSED, saves the current state and enters ERROR_DOOR. A closed door turns ERROR_DOOR into PAUSED. |
| Firmware.Door | src/main.cpp:138-149 | The corrected door block: it is the same as written, except that opening the door of a PAUSED machine keeps the phase saved by the pause. |
| Firmware.Progress | src/main.cpp:200-202 | The displayed progress is within 0..100. |
| Firmware.WaterLevel | src/main.cpp:165 | `map(raw, 0, 4095, 0, 100)`: a 12-bit reading gives a level of at most 100, and a full-scale reading gives exactly 100. |
| Firmware.DebounceSpacing | src/main.cpp:106-116 | The 500 ms debounce: after an accepted press, in both versions of the iteration, the last touch time is that press, and any touch no more than 500 ms later, in wrapping time, is ignored. |
| Firmware.Logic | src/main.cpp:152-228 | READY clears the dirt flag and resets the wash time. FILLING goes to WASHING above 80 % water with a fresh clock. WASHING writes only elapsed, the dirt flag, the wash time and the state: it updates elapsed, adds the dirt bonus once above 2000, and goes DONE exactly when elapsed reaches the wash time. PAUSED, DONE and ERROR_DOOR change nothing. |
| Firmware.InitialInv | src/main.cpp:27-34 | The power-on globals satisfy the controller invariant. |
| Firmware.WashInv | src/main.cpp:185-198 | The wash time is the base plus the bonus exactly when dirt was seen. It is then 10 s or 15 s. |
| Firmware.Inv | src/main.cpp:105-231 | The corrected controller's invariant: the wash-time invariant, and a paused or door-stopped cycle remembers FILLING or WASHING. |
| Firmware.Step | src/main.cpp:105-231 | One corrected iteration differs from the code as written only in the remembered phase. It is identical unless the door opens on a paused machine. The last touch time moves to now exactly on an accepted press. |
| Firmware.StepAsWritten | src/main.cpp:105-231 | One iteration as written: a door opened on a paused machine gives ERROR_DOOR with PAUSED remembered. |
| Firmware.StepAsWrittenKeepsWashInv | src/main.cpp:105-231 | Each iteration as written keeps the wash-time invariant. |
| Firmware.Run | src/main.cpp:105-231 | The corrected iterations over a sequence of readings, in order. |
| Firmware.RunSnoc | src/main.cpp:105-231 | One more reading is one more corrected iteration after the others. The repeated loop uses this. |
| Firmware.RunAsWritten | src/main.cpp:105-231 | The iterations as written over a sequence of readings, in order. |
| Firmware.RunAsWrittenKeepsWashInv | src/main.cpp:105-231 | The wash-time invariant holds after any number of iterations as written. |
| Firmware.StepKeepsInv | src/main.cpp:105-231 | Every corrected iteration keeps the invariant. The wash time is the base plus the bonus exactly when dirt was seen, and a paused or door-stopped cycle remembers a resumable phase. |
| Firmware.RunKeepsInv | src/main.cpp:105-231 | The invariant holds after any number of corrected iterations. |
| Firmware.WashTimeIsBaseOrBonus | src/main.cpp:185-198 | The dirt bonus is added at most once, so the wash time is always 10 s or 15 s. This holds for the code as written and for the corrected code. |
| Firmware.ProgressBounds | src/main.cpp:200-208 | Progress is within 0..100. It is below 100 before the wash time has passed and exactly 100 after it, barring overflow. |
| Firmware.PressResumes | src/main.cpp:126-128 | With the invariant, a press on a PAUSED machine with the door shut resumes the cycle. |
| Firmware.ResumeKeepsElapsed | src/main.cpp:126-128 | Resuming a paused wash keeps the wash time already spent. |
| Firmware.DoorClosedPauses | src/main.cpp:145-149 | A closed door on an ERROR_DOOR machine always gives PAUSED. |
| Firmware.FillingToWashing | src/main.cpp:169-176 | FILLING becomes WASHING exactly when the water is above 80 %, with elapsed 0 and the clock started now. |
| Firmware.TrappedAsWritten | src/main.cpp:126-146 | As written, once PAUSED is the saved phase, no single iteration leaves {PAUSED, ERROR_DOOR}. |
| Firmware.TrappedForeverAsWritten | src/main.cpp:105-231 | As written, a trapped controller stays trapped after any number of iterations, whatever the readings. |
| Firmware.DoorWhilePausedTrapsAsWritten | src/main.cpp:138-144 | As written, opening the door of a paused wash traps the controller. The corrected step keeps WASHING as the phase to resume. |
| Firmware.PausedDoorCounterexample | src/main.cpp:122-146 | Concretely, the sequence is pause, open, close, press. The code as written stays PAUSED; the corrected step is washing again. |
| Firmware.Controller.constructor | src/main.cpp:27-34 | The globals start at their power-on values, which satisfy the invariant. |
| Firmware.Controller.TouchBlock | src/main.cpp:106-135 | The in-place button block computes `Touch`. |
| Firmware.Controller.DoorBlock | src/main.cpp:138-149 | The in-place door block computes the corrected `Door`. |
| Firmware.Controller.LogicBlock | src/main.cpp:152-228 | The in-place state switch computes `Logic`. |
| Firmware.Controller.Loop | src/main.cpp:105-231 | One `loop()` iteration computes `Step` on the globals and keeps the invariant. |
| Firmware.Controller.RunLoop | src/main.cpp:105-231 | Calling `loop()` once per reading computes `Run` over the readings and keeps the invariant. |

## Left out

- Transport: the broker connection, subscriptions and error logging are left out, and so is the socket.io delivery. Emissions and publishes are appended to logs.
- E-mail: the templates and SMTP are left out. Each send is one logged attempt, and its boolean result is a parameter.
- Authentication, the one-off scripts, the UI and `backend/models/Notification.js` are not part of this model. The notification schema's fields are the `Notification` record.
- Concurrency: every handler and route runs as one atomic step. Interleavings between broker messages and HTTP requests are not modelled.
- Dates: `new Date()` and `millis()` are parameters. `toDateString` and midnight today are day numbers in UTC, so time zones and daylight saving are left out. The thirty-day cutoff is a fixed 30 × 24 h.
- JSON: payload fields are taken as present and well typed. A missing or non-string `machineId` makes the source throw inside the handler, and the model does not cover that. An absent optional field is `None`. The query strings `page` and `limit` are taken as integers when given, so NaN pages are left out. When absent they take their defaults of 1 and 20.
- Mongoose: undefined keys in an update are dropped, so an absent `mode` or `name` leaves the field as it was. An `{orderCode}` filter is cast through the schema's `uppercase` setter before matching. Upper-casing is ASCII only.
- MqttService.OnlineTarget: an ONLINE event for an unknown id inserts the fully defaulted machine `NewMachine(id, DefaultName(id), now)`. This is the designed outcome, but the source text does not guarantee it. The update at `backend/services/mqttService.js` lines 184-187 has no document for the `name` default at `backend/models/Machine.js` lines 10-12 to read `this._id` from. Depending on the Mongoose version, the inserted record gets no defaults, or the default function throws. A throw would be logged by the `catch` at `backend/services/mqttService.js` lines 36-38, with nothing stored. The model does not cover either of those outcomes.
- MachineRoutes.Upsert: the `$setOnInsert` upsert at `backend/routes/machines.js` lines 171-175 is taken to apply the schema defaults to the fields it does not set. That is the designed outcome, and the seed supplies the name, so the `name` default is never needed. Mongoose versions that do not apply defaults on an upsert would insert only the id and name. The model does not cover that outcome.
- The ties in the newest-first sort are left out. Records with equal `createdAt` may come in any order the database chooses, and the model fixes one such order.
- Read-only routes: GET of orders, of one order, of machines, of one machine, `/:machineId/stats` and `/unread-count` only read the store. They are left out, apart from the counts used by the notification list.
- An `io` object is always taken to be present, so the `if (io)` guards in the machine routes always emit.
- MachineModel.CheckDailyReset: modelled as a value update rather than an in-place method, because no core operation ever calls it.
- OrderRoutes.CreateOrder: the retry loop is bounded by the finite sequence of draws given, and running out is reported as a server error. The source loops until it finds a fresh code, and its termination depends on the random draws.
- NotificationRoutes.TotalPages: for a negative limit only the sign of the result is stated.
- Firmware: the hardware I/O is left out: relays, analog reads, the display and drawing, touch-point mapping and hit-testing. Each iteration takes one `millis()` reading, the "touched inside the button" flag, the door switch and the raw sensor values as inputs. The 100 ms delay is not modelled.
- Firmware.Progress: the `int` cast at `src/main.cpp` line 201 comes before the cap at line 202, and it is not modelled. The uncapped quotient fits in an `int` because `WashInv` keeps the wash time at 10000 ms or more, so the quotient is at most (2^32 - 1) / 10000.
- NotificationRoutes.MarkRead: path ids are taken as well formed. A malformed ObjectId makes `findByIdAndUpdate` throw a cast error, which `backend/routes/notifications.js` lines 59-61 answer with 500, not 404; the model's `nat` ids cannot express that.

## Findings

| source | as written | input that shows it | evidently intended | confidence | as-written member | corrected member |
|---|---|---|---|---|---|---|
| src/main.cpp:138-144 | Opening the door in any state but READY, DONE or ERROR_DOOR saves `currentState` into `previousState`, and that includes PAUSED. After the door closes, pressing RESUME restores PAUSED. The washer is then stuck in PAUSED/ERROR_DOOR until power-off. | A wash is paused, then the door is opened, closed, and the button is pressed. The washer stays PAUSED. | The phase saved by the pause (FILLING or WASHING) should survive the door opening, so that RESUME continues the cycle. | high, not executed | Firmware.DoorAsWritten, Firmware.StepAsWritten, Firmware.TrappedAsWritten, Firmware.TrappedForeverAsWritten, Firmware.DoorWhilePausedTrapsAsWritten, Firmware.PausedDoorCounterexample | Firmware.Door, Firmware.Step, Firmware.StepKeepsInv, Firmware.PressResumes, Firmware.Controller.Loop |
