# Minecraft auto-farmer: a Dafny model of its coordination core

The system runs a fleet of Minecraft farming bots. Two servers coordinate them:

- The **task coordinator** (`controller.js`) keeps the connected farmers,
  the farming tasks and the leases (`claimed`) on tasks it has handed out.
  It elects one farmer as master and broadcasts that choice every second.
  It takes task batches from the master (MASTER_FARM_INFO) and hands each
  requester the nearest eligible task (GET_TASK). It cleans up after a
  farmer that disconnects.
- The **block-claim server** (`control.js`) leases single block positions
  for one minute. A FINDBLOCK hands out the first free candidate;
  RELEASEBLOCK gives one back. Every answer is a delayed ACK.

Three clients talk to those servers:

- `utils/tcpController.js` talks to the coordinator.
- `utils/controlUtils.js` talks to the claim server. It keys requests by a
  random id and re-sends any request left unacknowledged after 500 ms.
- The bot's farming loop in `main.js`.

Both servers and the TCP client end every record they write with `;`. The
coordinator and both clients split incoming data on `;`. The control client
writes its requests with no terminator (utils/controlUtils.js:77). The claim
server parses each received chunk whole (control.js:18-24).
Helpers in `utils/botUtils.js` decide ripeness, a full inventory, items to
drop and a random walk target. `tasks/task.js` holds the task-name table.

## How the model is built

Each core file is one module:

| module | file(s) | source |
|---|---|---|
| `JsArrays` | `js_arrays.dfy` | the JavaScript array operations the sources rely on |
| `Framing` | `framing.dfy` | the `;` framing |
| `CoordinatorSpec`, `Coordinator` | `coordinator_spec.dfy`, `coordinator.dfy` | `controller.js` |
| `BlockClaims` | `block_claims.dfy` | `control.js` |
| `ControlClient` | `control_client.dfy` | `utils/controlUtils.js` |
| `TcpClient` | `tcp_client.dfy` | `utils/tcpController.js` |
| `BotUtils` | `bot_utils.dfy` | `utils/botUtils.js` |
| `BotLoop` | `bot_loop.dfy` | `main.js` |
| `TaskNames` | `task_names.dfy` | `tasks/task.js` |

JavaScript semantics are kept as written:

- `splice(-1, 1)` removes the last element.
- `findIndex`/`find` pick the first match.
- `filter` keeps order.
- The stable `sort` followed by `[0]` picks the earliest of equally near tasks.
- A `for` loop that splices without `i--`/`j--` skips the element that slides
  into the freed index.
- Truthiness is modelled: task code 0 is falsy, and a generated id 0 is redrawn.
- `Object.keys` returns string keys.
- An exception thrown in a `data` handler stops the pieces after it.

Where the sources mutate module-level or object state, the model has a class
with that state as fields. Examples are `Coordinator.Controller`,
`BlockClaims.ControlServer`, `ControlClient.ControlUtils`,
`TcpClient.TcpController` and `BotLoop.Bot`. A handler for one message,
timer or pass is a method whose `ensures` gives its new state through pure
functions. A handler that loops over the pieces of a chunk (or the bot's loop
over its events) states its new state as the left fold of the one-piece step
function over the pieces it handled. The properties of those functions are
lemmas.

Outside effects are modelled as follows:

- Sockets are numbers.
- Each `Math.random()` value becomes a parameter: a draw, a generated id or
  a random index.
- The clock becomes a `now` parameter.
- Each timer firing is its own method call. Examples are `ElectionTimer`,
  `Timeout`, `DeliverAck` and `Sweep`.
- JSON is kept opaque. Parsing is a parameter `parse: string -> Option<…>`,
  and written records are kept as structured values.

Some behaviour of the code is easy to misread, and the model follows the code:

- A farmer that disconnects has its tasks deleted, not returned to the pool
  (controller.js:35-40).
- GET_TASK does not consult `claimed`. Distance is measured on x and z only.
- COMPLETED_TASK removes the first task and the first lease with the id.
- After a control-client request times out, its old id stays in
  `sendMessages` until the re-send settles (utils/controlUtils.js:61-75).
- No data handler buffers a partial record across chunks.
- In the coordinator's client, a piece that does not parse is skipped: the
  source then reads `message.type` of the raw string, which is `undefined`.
- The claim server parses each whole chunk as one JSON message.
- The local `claimedBlocks` of main.js (line 13) is never added to, so its
  filters at main.js:65 and main.js:85 keep everything. The model leaves
  them out.

## Model

| member | source | states |
|---|---|---|
| JsArrays.FindIndex | control.js:51-53 | the first index whose element matches, and -1 exactly when no element matches |
| JsArrays.Find | control.js:84 | undefined exactly when nothing matches; otherwise the first matching element |
| JsArrays.Splice1 | control.js:54 | `splice(i, 1)` removes index i when it is in range, removes the last element for -1, counts any other negative start from the end (clamped at index 0), and changes nothing for a start at or past the end; the source passes only `findIndex`/`indexOf` results |
| JsArrays.RemoveFirstSpec | controller.js:101-106 | a find-splice-break loop removes exactly one matching element, or nothing when none matches |
| JsArrays.RemoveFirstKeeps | controller.js:101-106 | such a loop never removes an element that does not match |
| JsArrays.RemoveFirstSubset | controller.js:101-106 | it adds nothing: every survivor was there before |
| JsArrays.RemoveFirstMatch | controller.js:101-106 | the loop computes the first-match removal |
| JsArrays.RemoveAllMatches | controller.js:35-40 | the splice-with-`i--` loop removes every match and keeps the rest in order |
| JsArrays.FilterMultiset | control.js:80 | `filter` keeps a sub-multiset and keeps every passing element with its multiplicity |
| JsArrays.FilterMembers | control.js:80 | `filter` adds no element and loses no element that passes |
| JsArrays.FilterAppend | utils/botUtils.js:26 | filtering distributes over concatenation |
| Framing.Split | controller.js:16 | `split(';')` gives at least one piece, and no piece holds a `;` |
| Framing.JoinSplit | controller.js:16 | splitting loses nothing: joining the pieces gives the chunk back |
| Framing.SplitAfterRecord | controller.js:265-267 | a record without `;` followed by `;` splits off as one piece |
| Framing.SplitFrameAll | controller.js:265-267 | records framed by `sendData` split back into exactly those records, plus one trailing empty piece |
| Framing.NonEmpty | utils/controlUtils.js:43 | the control client keeps exactly the non-empty pieces |
| Framing.NonEmptySplitFrameAll | utils/controlUtils.js:40-43 | the control client recovers exactly the non-empty records written |
| CoordinatorSpec.AuthVerdict | controller.js:216-224 | AUTH is accepted exactly when no farmer has the username or the uuid; a rejection gives one of the two reasons |
| CoordinatorSpec.AuthVerdictReason | controller.js:216-224 | the first clashing farmer decides the reason, and a username clash is checked first |
| CoordinatorSpec.AcceptKeepsDistinct | controller.js:226 | an accepted farmer keeps usernames and uuids pairwise distinct |
| CoordinatorSpec.RemoveAtKeepsDistinct | controller.js:56 | removing a farmer keeps the others distinct |
| CoordinatorSpec.Pick | controller.js:236 | `Math.floor(random * n)` for a draw in [0, 1) is a valid index |
| CoordinatorSpec.PickReaches | controller.js:236 | every farmer's index can be drawn |
| CoordinatorSpec.AnnounceAt | controller.js:241-243 | the broadcast sends one CHOSEN_MASTER record per farmer, in table order |
| CoordinatorSpec.AnnounceOneMaster | controller.js:241-243 | with distinct uuids, exactly the elected farmer's record says `isMaster` |
| CoordinatorSpec.RemoveAtUnique | controller.js:166-171 | removing the task at a position keeps one task per (x, z) and leaves none at that (x, z) |
| CoordinatorSpec.SupersedeSpec | controller.js:155-174 | a new task replaces the task at its (x, z), is the only one there, and every task elsewhere stays |
| CoordinatorSpec.IngestAllUnique | controller.js:155-200 | ingesting a batch keeps at most one task per (x, z) |
| CoordinatorSpec.IngestLatestWins | controller.js:155-200 | a new task that no later one in the batch supersedes ends up in the table |
| CoordinatorSpec.IngestKeepsOthers | controller.js:155-200 | an existing task survives when no new task shares its (x, z) |
| CoordinatorSpec.SpliceMatchesUnique | controller.js:203-207 | with one task per (x, z), the sweep without `j--` still removes every task at the lease's (x, z) |
| CoordinatorSpec.SpliceMatchesSkipsNeighbour | controller.js:203-207 | without that invariant, the second of two adjacent tasks at a leased (x, z) survives |
| CoordinatorSpec.FilterUnique | controller.js:35-40 | deleting tasks keeps one task per (x, z) |
| CoordinatorSpec.DropClaimedClears | controller.js:202-208 | after the sweep no task shares (x, z) with a lease, tasks stay unique, and nothing new appears |
| CoordinatorSpec.DropClaimedKeeps | controller.js:202-208 | the sweep keeps every task whose (x, z) no lease holds |
| CoordinatorSpec.FarmDataSpec | controller.js:152-209 | MASTER_FARM_INFO keeps tasks unique, leaves none on a leased (x, z), and keeps every unleased new task that is the last at its (x, z) |
| CoordinatorSpec.NearestIsUnique | controller.js:121-138 | the sort-then-filter choice is determined: at most one index is the earliest nearest eligible task |
| CoordinatorSpec.AssignKeepsUnique | controller.js:138-140 | assigning a task keeps tasks unique per (x, z) |
| CoordinatorSpec.AssignedNotEligible | controller.js:121-140 | an assigned task is never handed out again |
| CoordinatorSpec.CleanupLeavesNothing | controller.js:35-47 | after the disconnect cleanup no task or lease refers to the session, and every other task stays |
| CoordinatorSpec.Dispatched | controller.js:17-28 | the handler dispatches at most one request per piece, and none of unknown type |
| CoordinatorSpec.IncomingFramed | controller.js:14-29 | requests framed with `;` by a client whose encoding the parser inverts are dispatched exactly and in order |
| CoordinatorSpec.DispatchedAll | controller.js:17-28 | the pieces of framed records, with the trailing empty piece, dispatch to exactly those requests |
| Coordinator.SpliceClaimedPosition | controller.js:203-207 | the inner sweep loop computes the splice-without-`j--` function |
| Coordinator.IngestBatch | controller.js:155-200 | the two `forEach` loops compute batch ingestion of the PLACE_CROP tasks and then the HARVEST_CROP tasks |
| Coordinator.IngestFarmland | controller.js:155-174 | the farmland loop ingests exactly the batch's PLACE_CROP prefix |
| Coordinator.IngestCrops | controller.js:176-200 | the crop loop, started from the farmland loop's table, completes the whole batch's ingestion |
| Coordinator.SupersedeWith | controller.js:166-173 | the position loop plus `push` removes the first task at the new task's (x, z) and appends the new one |
| Coordinator.FindFarmer | controller.js:49-61 | the search loop returns the first farmer on the socket, or -1 exactly when none is |
| Coordinator.SweepClaims | controller.js:202-208 | the nested sweep loops compute the lease-by-lease sweep |
| CoordinatorSpec.NearestInSpec | controller.js:121-138 | scanning a prefix keeps the earliest nearest eligible task, or -1 exactly when none is eligible |
| CoordinatorSpec.NearestSpec | controller.js:121-138 | the handler's choice is -1 exactly when no task is eligible, and otherwise the nearest eligible task, ties going to the earliest |
| Coordinator.SelectTask | controller.js:121-138 | the scan computes that choice: -1 exactly when no task is eligible; otherwise the earliest nearest eligible task |
| Coordinator.RemoveAtKeepsMaster | controller.js:49-61 | removing a non-master farmer keeps the master among the farmers |
| Coordinator.Controller.constructor | controller.js:5-8 | empty tables and no master |
| Coordinator.Controller.Broadcast | controller.js:246-263 | one CHOSEN_MASTER record per farmer is appended; the master lookup it prints from never fails; nothing else changes |
| Coordinator.Controller.ElectMaster | controller.js:232-244 | with farmers and no master, the drawn farmer becomes master and every farmer is told; otherwise nothing changes |
| Coordinator.Controller.ElectionTimer | controller.js:53 | a delayed election runs, with the same effect as `electMaster` |
| Coordinator.CheckAuth | controller.js:216-224 | the scan over the farmers answers the verdict: the first farmer holding the username or the uuid decides the rejection, and no clash means acceptance |
| Coordinator.Controller.HandleAuth | controller.js:211-230 | the AUTH step: a clashing AUTH gets the verdict's reason and changes no table; otherwise the farmer is appended, accepted and an election runs; identities stay distinct |
| Coordinator.Controller.HandleFarmData | controller.js:152-209 | the MASTER_FARM_INFO step: tasks become the ingested batch with leased positions swept, unique per (x, z), none on a lease |
| Coordinator.Controller.HandleTaskRequest | controller.js:118-150 | the GET_TASK step: an IDLE reply when nothing is eligible; otherwise the nearest eligible task is assigned, leased and sent |
| Coordinator.Controller.HandleCompletedTask | controller.js:98-115 | the COMPLETED_TASK step: the first task and the first lease with the id go; nothing else changes |
| Coordinator.Controller.Disconnect | controller.js:31-95 | the session's tasks and leases are deleted and its farmer is removed; a departing master is cleared and an election is scheduled |
| Coordinator.Controller.RemoveFarmer | controller.js:49-61 | the first farmer on the socket leaves; if it was the master the master is cleared and one election is scheduled, otherwise master and elections stay |
| Coordinator.ServeFrames | controller.js:23-28 | one request only appends to the outbox and schedules no election; only AUTH changes farmers and master, only GET_TASK and COMPLETED_TASK change the leases |
| Coordinator.ServeAllFrames | controller.js:14-29 | the same across a chunk's requests |
| Coordinator.Controller.Dispatch | controller.js:23-28 | farmers, tasks, leases, master, outbox and elections become the one-request step: each type has its handler's effect, records included, and an unknown type changes nothing |
| Coordinator.Controller.ServeEach | controller.js:18-28 | the requests are handled in order; the tables stay valid and the state is the one-request step folded over them |
| Coordinator.Controller.OnData | controller.js:14-29 | the requests of the chunk's `;` pieces are handled in order: the whole state is the one-request step folded over them; the tables stay valid and the outbox only grows |
| BlockClaims.IsUnclaimedBlock | control.js:83-85 | true exactly when no lease sits at (x, y, z) |
| BlockClaims.FindUnclaimedBlock | control.js:87-89 | none exactly when every candidate is leased; otherwise the first free candidate |
| BlockClaims.ReleaseFound | control.js:51-54 | releasing a leased position removes the first lease there, whoever holds it |
| BlockClaims.ReleaseMissing | control.js:51-54 | releasing a free position drops the last lease (`splice(-1, 1)`) |
| BlockClaims.ReleaseClears | control.js:48-57 | with unique leases, a release frees the position and keeps every other lease |
| BlockClaims.ReleaseKeepsUnique | control.js:48-57 | any release keeps leases unique |
| BlockClaims.FindKeepsUnique | control.js:62-64 | the lease FINDBLOCK adds keeps leases unique |
| BlockClaims.SweepKeepsUnique | control.js:79-81 | the minute sweep keeps leases unique |
| BlockClaims.SweepLaterSubsumes | control.js:79-81 | sweeping at `now` and then at `later` is sweeping at `later` |
| BlockClaims.UnlistListed | control.js:9-11 | closing a listed socket removes its first entry and nothing else |
| BlockClaims.UnlistUnlisted | control.js:9-16 | closing an unlisted socket removes the last listed socket |
| BlockClaims.ErrorThenClose | control.js:9-16 | a socket that errors and then closes takes another socket off the list |
| BlockClaims.ControlServer.constructor | control.js:3-32 | no sockets and no leases |
| BlockClaims.ControlServer.Connect | control.js:7 | the socket is listed |
| BlockClaims.ControlServer.Closed | control.js:9-16 | the socket is destroyed and unlisted as `splice(indexOf)` does |
| BlockClaims.ControlServer.HandleIncomingMessage | control.js:34-76 | for each message type, the leases and scheduled ACK it produces; leases stay unique |
| BlockClaims.ControlServer.ReleaseBlock | control.js:48-57 | the first lease at the position is spliced (the last one when none matches), one id-only ACK is scheduled, leases stay unique |
| BlockClaims.ControlServer.FindBlock | control.js:59-71 | the first unclaimed candidate is leased at `now` and acked with its position, or the ACK carries null and nothing is leased; leases stay unique |
| BlockClaims.AckForAnswered | control.js:34-76 | exactly REGISTER, RELEASEBLOCK and FINDBLOCK are answered, each with one ACK to the sender under the message's id |
| BlockClaims.ClaimsAfterUnique | control.js:48-71 | no message makes two leases sit on one position |
| BlockClaims.FoundIsClaimed | control.js:59-71 | a FINDBLOCK answered with a position hands out a listed candidate nobody held and leases it to the sender from `now`; a null answer leases nothing |
| BlockClaims.ControlServer.OnData | control.js:18-27 | a chunk that does not parse changes nothing; otherwise the leases become those the message's type produces and its ACK, if any, is scheduled |
| BlockClaims.ControlServer.Sweep | control.js:79-81 | only leases younger than a minute stay |
| BlockClaims.ControlServer.DeliverAck | control.js:91-99 | a due ACK is written unless its socket was destroyed |
| ControlClient.GenerateUniqueId | utils/controlUtils.js:85-93 | the first draw that is non-zero and not a pending id |
| ControlClient.MasterUpdate | utils/controlUtils.js:108-117 | a flag loosely equal to neither true nor false leaves `isMaster` unchanged |
| ControlClient.MasterFollowsMessage | utils/controlUtils.js:108-117 | a boolean flag in MASTER sets `isMaster` to it |
| ControlClient.Resolved | utils/controlUtils.js:103 | a promise settles once; later resolutions change nothing |
| ControlClient.PiecesOfFramedRecords | utils/controlUtils.js:39-48 | `;`-terminated non-empty records reach the handler one by one |
| ControlClient.ControlUtils.constructor | utils/controlUtils.js:3-5 | no sockets, no pending messages, not master |
| ControlClient.ControlUtils.SocketUp | utils/controlUtils.js:10 | the username has a socket |
| ControlClient.ControlUtils.SocketDown | utils/controlUtils.js:18-37 | the username's socket is nulled; pending entries stay |
| ControlClient.ControlUtils.SendControlMessage | utils/controlUtils.js:52-83 | without a socket, the promise resolves false; otherwise the request is written under a fresh unique id and kept pending with its timer |
| ControlClient.ControlUtils.Timeout | utils/controlUtils.js:61-75 | a pending request is re-sent under a new promise that the original awaits; the old entry stays |
| ControlClient.ControlUtils.Resume | utils/controlUtils.js:67-73 | the re-send's outcome settles the original promise, and the old id is deleted and disarmed |
| ControlClient.ReceiveAllMonotone | utils/controlUtils.js:95-118 | messages never add a pending request or a timer or alter one that stays, and a settled promise keeps its outcome |
| ControlClient.AckedOnce | utils/controlUtils.js:99-105 | an ACK deletes, disarms and resolves its request, so a second ACK for the id changes nothing |
| ControlClient.ControlUtils.HandleMessage | utils/controlUtils.js:95-118 | the pending table, timers, settled promises and master flag become the one-message step: an ACK for a pending id resolves, deletes and disarms it; MASTER updates the flag; anything else changes nothing |
| ControlClient.ControlUtils.HandleAll | utils/controlUtils.js:41-47 | pieces are handled in order until one fails to parse, which throws; the state is the step folded over the handled messages |
| ControlClient.ControlUtils.OnData | utils/controlUtils.js:39-48 | the non-empty `;` pieces are handled in order until one fails to parse, which throws and stops the rest; the pending table, timers, settled promises and master flag are the one-message step folded over the parsed pieces |
| TcpClient.NotifyCallsRegistered | utils/tcpController.js:160-172 | exactly the callbacks registered for the event are called, in registration order, with the argument |
| TcpClient.AnswerUndoesRequest | utils/tcpController.js:42-58 | a GET_TASK under a new id, once answered, leaves the pending list as it was |
| TcpClient.AnsweredSpec | utils/tcpController.js:181 | a TASK reply removes every request with its id and keeps the others |
| TcpClient.TcpController.constructor | utils/tcpController.js:18-32 | not authenticated, nothing pending, nothing registered |
| TcpClient.TcpController.CompletedTask | utils/tcpController.js:34-36 | one COMPLETED_TASK record written; nothing else changes |
| TcpClient.TcpController.SendMasterData | utils/tcpController.js:38-40 | one MASTER_FARM_INFO record written; nothing else changes |
| TcpClient.TcpController.GetTask | utils/tcpController.js:42-58 | a new promise; the request is pending under its id and written |
| TcpClient.TcpController.Reconnect | utils/tcpController.js:65-68 | only a boolean changes the flag; the flag is returned |
| TcpClient.TcpController.On | utils/tcpController.js:99-102 | the callback is registered for the event |
| TcpClient.TcpController.Authenticate | utils/tcpController.js:108-120 | not authenticated, and an AUTH record with the bot's identity is written |
| TcpClient.TcpController.Destroy | utils/tcpController.js:214-217 | reconnecting is off and the socket is ended |
| TcpClient.TcpController.Dispatch | utils/tcpController.js:160-172 | every callback registered for the event is called |
| TcpClient.ReactAllMonotone | utils/tcpController.js:142-185 | replies only append callback calls and only drop pending requests; a resolved promise stays resolved, and every promise resolved was pending |
| TcpClient.TcpController.HandleReply | utils/tcpController.js:152-183 | the pending requests, authentication, resolutions and callback calls become the one-reply step: a successful AUTH_RESULT authenticates and notifies, a failed one throws and changes nothing, CHOSEN_MASTER notifies, TASK answers and resolves the first pending request with its id |
| TcpClient.TcpController.HandlePiece | utils/tcpController.js:147-183 | a piece that does not parse is skipped; a parsed reply is handled; a failed AUTH is the only reply that throws |
| TcpClient.TcpController.HandleAll | utils/tcpController.js:146-184 | the pieces are handled in order until a failed AUTH throws; the state is the one-reply step folded over the handled pieces |
| TcpClient.TcpController.OnData | utils/tcpController.js:142-185 | every `;` piece is handled in order until a failed AUTH throws and stops the rest; the pending requests, authentication, resolutions and callback calls are the one-reply step folded over the parsed pieces |
| BotUtils.Code | utils/botUtils.js:6-14 | each task's number is below 7 |
| BotUtils.FromCode | utils/botUtils.js:6-14 | exactly the numbers 0-6 name a task |
| BotUtils.CodesDistinct | utils/botUtils.js:6-14 | the numbers are distinct, and decoding a task's number gives the task back |
| BotUtils.FullGrownAge | utils/botUtils.js:16-23 | every listed crop ripens at age 3 or 7 |
| BotUtils.IsGrownThresholds | utils/botUtils.js:41 | wheat, carrots and potatoes are ripe from age 7, beetroots and nether wart from age 3, and nothing else is ripe |
| BotUtils.CheckGrownCropsNeverMatchesNames | utils/botUtils.js:158 | the ripeness recheck as written never passes when the list holds crop names, as `findgrownCrops` uses it at utils/botUtils.js:41 |
| BotUtils.CheckGrownCropsFixedAge | utils/botUtils.js:158 | even matched by number, a crop ripe at age 3 is never reported |
| BotUtils.CheckGrownCropsReportsRipe | utils/botUtils.js:153-159 | the corrected recheck passes exactly the ripe configured crops |
| BotUtils.InventoryFullMonotone | utils/botUtils.js:25-27 | fewer than 36 slots are never full; filling an empty slot never un-fills |
| BotUtils.RandomNearTarget | utils/botUtils.js:100-121 | the target is the stepped position clamped into the farm box; from inside the box it is at most 4 blocks away on each axis and never in the positive direction |
| BotUtils.ItemsToDropSpec | utils/botUtils.js:123-142 | everything but seeds and the hoe is dropped, the hoe is kept, and exactly one seed stack stays: the dropped seed stacks are all but the last, in order (`seeds.pop()`, utils/botUtils.js:140) |
| BotUtils.NoneSeeds | utils/botUtils.js:131-133 | the non-kept items contain no seed stack |
| BotUtils.DropUnneededItems | utils/botUtils.js:144-147 | the toss loop tosses exactly the selected items, in order |
| TaskNames.Lookup | tasks/task.js:10 | a key has a value exactly when the table lists it |
| TaskNames.Decimal | tasks/task.js:10 | a number's property key is a non-empty string of digits |
| TaskNames.DecimalLong | tasks/task.js:10 | numbers from 10 have keys of two or more digits |
| TaskNames.ToInt | tasks/task.js:13-15 | looking up the found key gives the task back; nothing is found exactly when no entry holds the value |
| TaskNames.LookupEntry | tasks/task.js:1-11 | every entry of the table is found under its own key |
| TaskNames.ToTaskNames | tasks/task.js:1-11 | 0, 1 and 2 name IDLE, RETURN_HOME and MOVE_TO |
| TaskNames.ToTaskOthers | tasks/task.js:9-11 | every other number is undefined |
| TaskNames.ToIntNames | tasks/task.js:13-15 | each name maps to its key as a string |
| TaskNames.ToIntUnknown | tasks/task.js:13-15 | a name outside the table has no key |
| BotLoop.Target | main.js:70-71 | a one-element target exactly when the ACK carried a position |
| BotLoop.AsImportedNeverAsks | main.js:1-63 | as imported, the pass stops at its first scan and never sends FINDBLOCK, farms or seeds |
| BotLoop.AsImportedStopsOnSecondPass | main.js:50-63 | from the start, the second pass stops unless the inventory is full |
| BotLoop.AsWrittenNeverSeeds | main.js:80-94 | with the unawaited farmland scan, SEED_CROPS is never chosen and an idle pass without a crop stops the loop |
| BotLoop.SeedsWhenGranted | main.js:80-94 | with the scan awaited, a granted farmland position with seeds at hand means SEED_CROPS |
| BotLoop.BusyDoesNotScan | main.js:57 | RETURN_HOME, DROP_ITEMS and BAKKIE_DOEN do no scan and no FINDBLOCK |
| BotLoop.FullInventoryDrops | main.js:58-61 | otherwise a full inventory means DROP_ITEMS |
| BotLoop.ChosenOnlyWhenGranted | main.js:57-95 | FARM_CROPS and SEED_CROPS are chosen only with a position the claim server granted |
| BotLoop.Forced | main.js:97-100 | a truthy forced task replaces the task and is cleared unless it is BAKKIE_DOEN; IDLE (0) is ignored |
| BotLoop.PassKeepsLoopTop | main.js:53-207 | every pass leaves the loop at RETURN_HOME, IDLE or BAKKIE_DOEN with a forceable task; with the two Findings corrected (the exported scans bound, the farmland scan awaited) |
| BotLoop.WorkReleasesTarget | main.js:167-188 | every SEED_CROPS or FARM_CROPS pass releases exactly the position it was granted |
| BotLoop.BreakIsAbsorbing | main.js:115-130 | without a forced task, BAKKIE_DOEN is never left and asks nothing |
| BotLoop.Transitions | main.js:115-206 | the task after each action |
| BotLoop.Bot.constructor | main.js:50 | the loop starts at RETURN_HOME with nothing forced |
| BotLoop.Bot.OnChat | main.js:26-34 | the chat step: "bakkie doen" forces BAKKIE_DOEN and "werrekuh" forces RETURN_HOME, the latter winning; nothing else changes |
| BotLoop.Bot.Iterate | main.js:53-211 | the pass step: the choice, the forced override, the task performed, the next task and the requests sent; with the two Findings corrected (the exported scans bound, the farmland scan awaited) |
| BotLoop.Scan | main.js:53-94 | the scanning code yields exactly the awaited-scan choice: DROP_ITEMS on a full inventory, FARM_CROPS on a granted crop, SEED_CROPS on a granted farmland with seeds, with one FINDBLOCK per non-empty scan; with the two Findings corrected (the exported scans bound, the farmland scan awaited) |
| BotLoop.Perform | main.js:115-211 | the `switch` leaves the task that follows the performed one and releases the granted target only after SEED_CROPS or FARM_CROPS |
| BotLoop.RunAllKeepsLoopTop | main.js:26-211 | any run of chat lines and passes keeps the loop top at RETURN_HOME, IDLE or BAKKIE_DOEN with a forceable task; with the two Findings corrected (the exported scans bound, the farmland scan awaited) |
| BotLoop.RunAllHistory | main.js:53-211 | each pass performs exactly one task and chat lines none; earlier tasks and requests are kept as a prefix |
| BotLoop.Bot.Run | main.js:26-211 | the task, forced task, requests and performed tasks are the chat and pass steps folded over the events in order; with the two Findings corrected (the exported scans bound, the farmland scan awaited) |

## Left out

- TCP connection set-up, `listen`, `connect`, reconnect timers
  (utils/tcpController.js:73-91, 126-133, 190-209) and control-socket creation
  (utils/controlUtils.js:7-37 beyond the socket table): the model handles
  socket events, not how sockets are opened.
- Console output everywhere, including the broadcast's `console.clear` and the
  printouts of controller.js:251-262.
- JSON encoding and decoding: modelled as opaque `parse`/`enc` parameters. A
  record that parses but lacks fields the handler reads is not modelled. In
  the source such a record may throw: uncaught in the coordinator and both
  clients, possibly after a partial update (a MASTER_FARM_INFO without `crops`
  throws after the farmland loop of controller.js:158-174 has added its
  tasks), and caught and dropped in the claim server (control.js:19-24). Or it
  may go on with `undefined` fields: a RELEASEBLOCK without coordinates
  matches no lease, so `splice(-1, 1)` drops the last one and the ACK is sent
  (control.js:48-56); an AUTH with `data: {}` registers and accepts a farmer
  with an undefined identity, which the election may then pick
  (controller.js:212-228).
- Floating-point distance: `Math.sqrt` of squares is replaced by the squared
  XZ distance, which orders tasks the same way.
- The ACK delay `Math.floor(Math.random() * 400) + 1` of control.js:98: the
  order in which due ACKs fire is the caller's choice of `DeliverAck` index.
- The game and mineflayer: walking, digging, placing, equipping, looking and
  tossing, `createBotInstance`, `walkToLocation` and the scans `findgrownCrops`
  and `lookForEmptyFarmland`. Their results are `Observation` inputs; tossing
  becomes a log.
- `harvestAndReplaceCrop`: a game-side action whose only result, a boolean,
  is only logged by the loop.
- The watchdog timer of main.js:102-112 and utils/watchdog.js: a timeout
  that restarts the loop depends on real time.
- The `exit` chat command (main.js:36-39): it ends the process.
- utils/farmer.js and botmain.js are not part of this model.
- `TcpController.on` also registers the callback on the raw socket
  (utils/tcpController.js:100); socket-level events are not modelled.
- `#bot`, stored by `authenticate`, is never read, so it is not modelled.
- Task ids are random strings in the source and parameters here. Two equal
  generated ids, possible in the source, are not excluded.
- `isConnected` (utils/tcpController.js:81-83) and `isMasterFunc`
  (utils/controlUtils.js:120-122) only read state.
- The walk of `walkToRandomNearLocation` is game-side; only its target is
  modelled.

## Findings

| source | as written | input that shows it | evidently intended | confidence | as-written member | corrected member |
|---|---|---|---|---|---|---|
| main.js:1 | imports `findGrownWheat`, `checkGrownWheat` and `harvestAndReplaceWheat`, which utils/botUtils.js does not export (it exports `findgrownCrops`, `checkgrownCrops`, `harvestAndReplaceCrop`), so `findGrownWheat(bot)` at main.js:63 throws | the second pass from the start (RETURN_HOME then IDLE) with room in the inventory | bind the exported crop functions, so the loop scans for ripe crops | high (the export list is in the same repository); not executed | BotLoop.ChooseAsImported / BotLoop.AsImportedStopsOnSecondPass | BotLoop.Choose / BotLoop.SeedsWhenGranted |
| main.js:81 | `lookForEmptyFarmland(bot, 128)` returns a promise that is not awaited, so `.filter` at main.js:85 throws and SEED_CROPS is never chosen | an IDLE pass with room in the inventory and no granted crop | `await lookForEmptyFarmland(bot, 128)` | high; not executed | BotLoop.ChooseAsWritten / BotLoop.AsWrittenNeverSeeds | BotLoop.Choose / BotLoop.SeedsWhenGranted |
| utils/botUtils.js:158 | `CROP_ITEM.includes(block.type) && age >= 7` compares the block's numeric type with crop names and uses one age for every crop | any ripe wheat block; a beetroot at age 3 | `CROP_ITEM.includes(block.name) && age >= fullGrownAges[block.name]`, as `findgrownCrops` tests at utils/botUtils.js:41 | medium (the crop list's configuration is not in the repository); not executed | BotUtils.CheckGrownCropsAsWritten / BotUtils.CheckGrownCropsNeverMatchesNames | BotUtils.CheckGrownCrops / BotUtils.CheckGrownCropsReportsRipe |
