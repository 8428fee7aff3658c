# Screen-to-box assignment engine, in Dafny

The system hands out *boxes* to users and pairs boxes with *screens*.

- A **box** is a user-claimable switch port with its own VLAN.
- A **screen** is a display port.
- Pairing a box with a screen means putting the screen's port into the box's VLAN on a Cisco switch.

This project models the engine behind it in three layers and proves what each layer promises.

1. **Record stores** (`BoxStore`, `ScreenStore`, `ConfigStore`).
   - Each store is a class holding its table as a `seq` of records.
   - A TinyDB search becomes a first-match loop.
   - An `update(..., cond)` becomes a loop that rewrites every matching record.
   - A `remove` becomes a filtering loop.
   - The box and screen tables allocate ids as max + 1.
   - One user per box and one screen per box are stated as table predicates: `OneBoxPerUser` and `OneScreenPerBox`.
   - Every public create, update, unassign and delete operation is shown to keep those predicates, and so is `AssignBoxToScreen`.
   - The two user claims, `AssignUserToBox` and `AssignUserToAnyFreeBox`, are the exception, as in the source. They keep one box per user only when the user held no box before. A successful claim by a user who already holds a box breaks the rule, and both contracts say so. The HTTP handlers clear the user's boxes before claiming, and `App.ClaimLeavesOneHolder` proves that this restores the rule.
   - The per-record rewrite loops (`PatchWhereId`, `SetUserWhereId`, `SetBoxWhereId`, `DetachWhereBox`) state their effect record by record and leave the predicates to the operation that calls them.
   - Where the result is tri-state in the source (None / False / True), so is the model's.
2. **The switch worker** (`Switch.CiscoWorker`).
   - The serial line is a `Device`: a function from the commands written so far and the next command to the answer text, or `None` when the transport raises.
   - The worker keeps:
     - `connected`;
     - `log`, the commands it has written;
     - `portCalls`, the `(port, vlan)` requests made of `assign_port_to_vlan`.
   - Python exceptions are a `Reply` value (`Ok` or `Raised`).
   - A `try`/`except` is a helper method whose `Raised` result the caller catches.
   - The pure readings of answer text are functions, each with a lemma giving its meaning:
     - the VLAN-existence check;
     - the two `get_port_vlan` patterns;
     - the status classification;
     - the line filters.
   - Each conversation with the switch is also a function of the device that gives the whole command log and the result (`CreateVlanRun`, `AssignPortRun` and their parts). The method's contract equals that function, and lemmas about the function state the promises: which commands, in what order, and when the result is true.
3. **The HTTP handlers** (`App.Server`).
   - Each handler is a method that returns the HTTP status.
   - It changes the two tables in the source's order and never rolls them back.
   - It asks the worker for switch changes only while the worker is connected. Those requests are visible in `worker.portCalls`.

The modules follow the repository: `common.dfy` (shared vocabulary), `box_service.dfy`, `screen_service.dfy`, `config_service.dfy`, `cisco_worker.dfy` and `app.dfy`.

Where the code and its description differ, the model follows the code:
- `assign_user_to_box` refuses a box already held by the same user, so it is not idempotent;
- deleting a box or a screen does not touch the other table;
- the VLAN-existence check is case-sensitive;
- `assign_user_to_screen` resets the *box* ports involved, to the box's own VLAN or the default box VLAN, and never resets a screen's port;
- the default screen VLAN is held but never used.

## Model

| member | source | states |
|---|---|---|
| Common.OrElse | services/cisco_worker/cisco_worker.py:372 | `x or fallback` on an optional string: the value when present and non-empty, the fallback otherwise |
| Common.ContainsIff | services/cisco_worker/cisco_worker.py:137-142 | Python's `t in s` holds exactly when `t` occurs in `s` at some index |
| Common.ContainsInfix | services/cisco_worker/cisco_worker.py:137-142 | a string written into another is found by `in` wherever it sits |
| Common.Lower | services/cisco_worker/cisco_worker.py:285-288 | `lower()` keeps the length and lower-cases each ASCII letter in place |
| Common.LowerIdempotent | services/cisco_worker/cisco_worker.py:285-288 | lower-casing twice equals lower-casing once |
| Common.SplitLines | services/cisco_worker/cisco_worker.py:313 | `split('\n')` gives at least one piece and no piece holds a newline |
| Common.SplitLinesJoin | services/cisco_worker/cisco_worker.py:313 | splitting at newlines loses nothing: joining the pieces with newlines gives the text back |
| Common.Words | services/cisco_worker/cisco_worker.py:318 | `split()` yields only non-empty runs without whitespace |
| BoxStore.FindBox | services/box_service/box_service.py:40-43 | the first box in table order with the id, and None exactly when no box has it |
| BoxStore.FindUserBox | services/box_service/box_service.py:45-48 | the first box in table order held by the user, and None exactly when the user holds none |
| BoxStore.FreeBoxes | services/box_service/box_service.py:54-56 | exactly the boxes without a user; empty iff every box is held; otherwise it starts with the first free box |
| BoxStore.WithoutId | services/box_service/box_service.py:35-38 | exactly the records whose id differs; the length shrinks iff some record had the id |
| BoxStore.Patched | services/box_service/box_service.py:116-127 | each field given overwrites the box's field, the id and the user never change, and no field given leaves the box as it was |
| BoxStore.Cleared | services/box_service/box_service.py:106-108 | same length, and every record has its user cleared where it was the given user and is otherwise unchanged |
| BoxStore.SubsequenceKeeps | services/box_service/box_service.py:35-38 | removing an id leaves no record with it, keeps the ids unique and keeps one box per user |
| BoxStore.WithoutIdUnique | services/box_service/box_service.py:35-38 | removing an id keeps the ids unique |
| BoxStore.WithoutIdOnePerUser | services/box_service/box_service.py:35-38 | removing an id keeps one box per user |
| BoxStore.BoxService.constructor | services/box_service/box_service.py:8-12 | the table starts empty and valid |
| BoxStore.BoxService.NextBoxId | services/box_service/box_service.py:14-20 | 1 for an empty table; otherwise exceeds every id, and is one more than some existing id (the maximum) |
| BoxStore.BoxService.CreateBox | services/box_service/box_service.py:22-33 | appends exactly one free record with the given fields under a fresh id; earlier records are unchanged; the invariants are kept |
| BoxStore.BoxService.DeleteBox | services/box_service/box_service.py:35-38 | true iff some record had the id; afterwards none has it and exactly the other records remain, in order |
| BoxStore.BoxService.GetBoxById | services/box_service/box_service.py:40-43 | None iff no record has the id, else the first record with it |
| BoxStore.BoxService.GetBoxByUserId | services/box_service/box_service.py:45-48 | None iff the user holds no box, else the first box held by the user |
| BoxStore.BoxService.GetFreeBoxes | services/box_service/box_service.py:54-56 | the free boxes in table order |
| BoxStore.BoxService.SetUserWhereId | services/box_service/box_service.py:69 | every record with the id gets the new user; every other record is unchanged |
| BoxStore.BoxService.PatchWhereId | services/box_service/box_service.py:127 | every record with the id gets the fields given; every other record is unchanged |
| BoxStore.BoxService.AssignUserToBox | services/box_service/box_service.py:58-71 | None with no change for a missing box or one with any user, the same user included; otherwise only that box gains the user; one box per user is kept iff the user held no box before |
| BoxStore.BoxService.AssignUserToAnyFreeBox | services/box_service/box_service.py:73-83 | None with no change iff no box is free; otherwise exactly the first free box in table order gains the user; one box per user is kept iff the user held no box before |
| BoxStore.BindKeepsOne | services/box_service/box_service.py:58-83 | giving a free box to a user who holds none keeps one box per user |
| BoxStore.BindBreaksOne | services/box_service/box_service.py:58-83 | giving a free box to a user who already holds one leaves that user with two |
| BoxStore.BoxService.UnassignUserIfExists | services/box_service/box_service.py:106-108 | afterwards no box references the user; only those user fields changed; one box per user is kept |
| BoxStore.BoxService.UnassignUserFromBox | services/box_service/box_service.py:85-92 | false iff no box had the user; afterwards no box references the user, and only user fields of the user's boxes changed |
| BoxStore.BoxService.UnassignBox | services/box_service/box_service.py:94-104 | None / false / true for a missing, free or held box; the user is cleared only in the true case, and nothing else changes |
| BoxStore.BoxService.UpdateBox | services/box_service/box_service.py:110-131 | None and no change for an unknown id; no change when no field is given; otherwise only that box is patched, and no user field ever changes, so one box per user is kept |
| ScreenStore.FindScreen | services/screen_service/screen_service.py:40-43 | the first screen in table order with the id, None exactly when there is none |
| ScreenStore.ScreenOfBox | services/screen_service/screen_service.py:45-48 | the first screen in table order paired with the box, None exactly when none is |
| ScreenStore.FreeScreens | services/screen_service/screen_service.py:54-56 | exactly the unpaired screens |
| ScreenStore.WithoutId | services/screen_service/screen_service.py:35-38 | exactly the records whose id differs; the length shrinks iff some record had the id |
| ScreenStore.Patched | services/screen_service/screen_service.py:106-117 | each field given overwrites the screen's field, the id and the paired box never change, and no field given leaves the screen as it was |
| ScreenStore.WithoutIdKeeps | services/screen_service/screen_service.py:35-38 | removing an id keeps the ids unique and the pairing one-to-one |
| ScreenStore.WithoutIdUnique | services/screen_service/screen_service.py:35-38 | removing an id keeps the ids unique |
| ScreenStore.WithoutIdOnePerBox | services/screen_service/screen_service.py:35-38 | removing an id keeps one screen per box |
| ScreenStore.ScreenService.constructor | services/screen_service/screen_service.py:8-12 | the table starts empty and valid |
| ScreenStore.ScreenService.NextScreenId | services/screen_service/screen_service.py:14-20 | 1 for an empty table; otherwise exceeds every id, and is one more than some existing id |
| ScreenStore.ScreenService.CreateScreen | services/screen_service/screen_service.py:22-33 | appends exactly one unpaired record with the given fields under a fresh id; the earlier records and the invariants are kept |
| ScreenStore.ScreenService.DeleteScreen | services/screen_service/screen_service.py:35-38 | true iff some record had the id; afterwards none has it, exactly the others remain, and one screen per box is kept |
| ScreenStore.ScreenService.GetScreenById | services/screen_service/screen_service.py:40-43 | None iff no record has the id, else the first one with it |
| ScreenStore.ScreenService.GetScreenByBoxId | services/screen_service/screen_service.py:45-48 | None iff no screen is paired with the box, else the first one that is |
| ScreenStore.ScreenService.GetFreeScreens | services/screen_service/screen_service.py:54-56 | the unpaired screens, in table order |
| ScreenStore.ScreenService.SetBoxWhereId | services/screen_service/screen_service.py:75 | every record with the id gets the new box; every other record is unchanged |
| ScreenStore.ScreenService.AssignBoxToScreen | services/screen_service/screen_service.py:58-77 | None with no change for a missing screen, a screen holding another box, or a box already on a screen; a screen already holding the box is returned unchanged; otherwise only that screen is paired; the pairing stays one-to-one and no other screen holds the box |
| ScreenStore.ScreenService.UnassignBoxFromScreen | services/screen_service/screen_service.py:79-86 | false iff no screen held the box; afterwards none does, and only those pairings were cleared |
| ScreenStore.ScreenService.DetachWhereBox | services/screen_service/screen_service.py:85 | every screen paired with the box is cleared; every other screen is unchanged |
| ScreenStore.ScreenService.UnassignScreen | services/screen_service/screen_service.py:88-98 | None / false / true for a missing, free or paired screen; the pairing is cleared only in the true case |
| ScreenStore.ScreenService.PatchWhereId | services/screen_service/screen_service.py:117 | every record with the id gets the fields given; every other record is unchanged |
| ScreenStore.ScreenService.UpdateScreen | services/screen_service/screen_service.py:100-121 | None and no change for an unknown id; no change when no field is given; otherwise only that screen is patched, and no pairing ever changes, so one screen per box is kept |
| ConfigStore.Lookup | services/config_service/config_service.py:25-28 | None iff no record has the key, else the value of the first record with it |
| ConfigStore.WithoutKey | services/config_service/config_service.py:42 | exactly the records with another key |
| ConfigStore.Stored | services/config_service/config_service.py:30-45 | the new record comes last, and the table holds exactly it and the old records with another key |
| ConfigStore.AllConfig | services/config_service/config_service.py:78-79 | the dictionary's keys are exactly the stored keys |
| ConfigStore.WithoutKeyAppend | services/config_service/config_service.py:42 | the removal filter grows one record at a time |
| ConfigStore.LookupAppend | services/config_service/config_service.py:25-28 | a search over two tables in a row finds the first table's record if it has one |
| ConfigStore.WithoutKeyLookup | services/config_service/config_service.py:42 | removing one key leaves the lookup of every other key unchanged |
| ConfigStore.SetThenGet | services/config_service/config_service.py:30-45 | round trip: after setting a key, getting it yields the value set |
| ConfigStore.SetKeepsOthers | services/config_service/config_service.py:30-45 | setting one key leaves the lookup of every other key unchanged |
| ConfigStore.SetLeavesOneRecord | services/config_service/config_service.py:41-44 | after a set exactly one record has the key (the new last one), and keys stay unique |
| ConfigStore.WithoutKeyUnique | services/config_service/config_service.py:42 | removing a key keeps keys unique |
| ConfigStore.AllConfigAgrees | services/config_service/config_service.py:71-79 | with unique keys, the dictionary holds exactly the keys `get_config` finds, with the same values |
| ConfigStore.ConfigService.constructor | services/config_service/config_service.py:8-12 | the table starts empty and valid |
| ConfigStore.ConfigService.GetConfig | services/config_service/config_service.py:14-28 | the default when no record has the key, else the first record's value |
| ConfigStore.ConfigService.SetConfig | services/config_service/config_service.py:30-45 | always true; the table is the old one without the key plus the new record; get returns the new value and every other key is unchanged |
| ConfigStore.ConfigService.Remove | services/config_service/config_service.py:42 | keeps exactly the records with another key, in order |
| ConfigStore.ConfigService.GetSerialPort | services/config_service/config_service.py:47-57 | the default when the port is unset or empty, else the stored port |
| ConfigStore.ConfigService.SetSerialPort | services/config_service/config_service.py:59-69 | always true; stores the port under its key; a non-empty port is what `get_serial_port` then returns |
| ConfigStore.ConfigService.GetAllConfig | services/config_service/config_service.py:71-79 | maps exactly the stored keys, each to the value `get_config` returns for it |
| Switch.ExtendsTrans | services/cisco_worker/cisco_worker.py:144-238 | a log extended twice with allowed commands is extended once |
| Switch.ExtendsWider | services/cisco_worker/cisco_worker.py:144-238 | an extension within a smaller set of commands is one within a larger set |
| Switch.ExtendsStep | services/cisco_worker/cisco_worker.py:144-238 | writing one allowed command extends the log |
| Switch.ExtendsExit | services/cisco_worker/cisco_worker.py:122-126 | leaving configuration mode writes at most "end" and an empty line |
| Switch.BlockExtends | services/cisco_worker/cisco_worker.py:219-228 | any beginning of the port block is allowed for the port assignment, and the whole block ends the log |
| Switch.ReplyTextStable | services/cisco_worker/cisco_worker.py:62-95 | later commands do not change what an earlier command was answered |
| Switch.CheckVlan | services/cisco_worker/cisco_worker.py:127-142 | the check raises exactly when its `show vlan id` query does, with the same error, and reads absent exactly when the answer holds one of the two "not found" messages |
| Switch.VlanPresentIff | services/cisco_worker/cisco_worker.py:137-142 | the check reads "absent" exactly when one of the two "not found" messages occurs in the answer |
| Switch.MissingFirstChar | services/cisco_worker/cisco_worker.py:137-142 | a text none of whose characters is a pattern's first character does not contain it |
| Switch.VlanCheckCaseSensitive | services/cisco_worker/cisco_worker.py:137-142 | the match is case-sensitive: any lower-cased answer reads "present", even the lower-cased "not found" message |
| Switch.VlanCheckFindsMessage | services/cisco_worker/cisco_worker.py:137-142 | the switch's "VLAN v not found" message anywhere in the answer reads "absent" |
| Switch.ClassifyStatus | services/cisco_worker/cisco_worker.py:284-288 | active iff the lower-cased answer has "connected" or "up"; else inactive iff it has "notconnect" or "down"; else unknown |
| Switch.DuplexHeaderReadsActive | services/cisco_worker/cisco_worker.py:284-288 | any answer carrying a "Duplex" header reads active, since "duplex" contains "up" |
| Switch.LineStatus | services/cisco_worker/cisco_worker.py:321 | a port line is active exactly when the classification reads active, and is never unknown |
| Switch.DigitRun | services/cisco_worker/cisco_worker.py:253-259 | the end of the maximal digit run |
| Switch.MatchAt | services/cisco_worker/cisco_worker.py:253-259 | a match at an index captures a non-empty digit string |
| Switch.FindFrom | services/cisco_worker/cisco_worker.py:253-259 | the leftmost matching index at or after the start, or past the end when there is none |
| Switch.Search | services/cisco_worker/cisco_worker.py:253-259 | `re.search` captures only non-empty digit strings |
| Switch.SearchLeftmost | services/cisco_worker/cisco_worker.py:253-259 | the search fails iff the pattern matches nowhere, and otherwise captures at the leftmost match |
| Switch.PortVlan | services/cisco_worker/cisco_worker.py:239-262 | any VLAN read is a non-empty digit string |
| Switch.PortVlanPrefersAccessLine | services/cisco_worker/cisco_worker.py:253-261 | None iff neither pattern matches anywhere; a matching access-mode line wins at its leftmost match; otherwise the plain VLAN pattern decides |
| Switch.PortVlanReadsAccessLine | services/cisco_worker/cisco_worker.py:253-255 | a report with the line "Access Mode VLAN: v" reads `v` |
| Switch.DigitsSpan | services/cisco_worker/cisco_worker.py:253 | a digit string followed by a non-digit is exactly one digit run |
| Switch.StatusVlan | services/cisco_worker/cisco_worker.py:290-299 | the second report's access-line digits when it has them, else the first report's reading, always digits |
| Switch.StatusVlanStable | services/cisco_worker/cisco_worker.py:290-299 | when both reports are equal, the VLAN is `get_port_vlan`'s reading |
| Switch.PortName | services/cisco_worker/cisco_worker.py:319-320 | the port of a port line is its first word: non-empty, without whitespace, and containing "Gi", "Fa" or "Te" |
| Switch.PortLines | services/cisco_worker/cisco_worker.py:315-319 | exactly the port lines, in order |
| Switch.VlanEntries | services/cisco_worker/cisco_worker.py:419-430 | every VLAN line gives an entry and every entry comes from a VLAN line; ids are digits and names are words |
| Switch.ParseVlanBrief | services/cisco_worker/cisco_worker.py:419-430 | the loop yields exactly the entries of the VLAN lines, in order |
| Switch.Enable | services/cisco_worker/cisco_worker.py:96-116 | "enable" first, then only enable-mode commands; prompted without a password it stops with false; a password is sent iff one is asked for and given; true only when the last prompt shows "#" |
| Switch.GuardedAfterCheck | services/cisco_worker/cisco_worker.py:202-205 | after a VLAN-creation run ending in a positive check, every later interface command is guarded by that check |
| Switch.GuardedVacuous | services/cisco_worker/cisco_worker.py:144-189 | a VLAN-creation run writes no interface command |
| Switch.GuardedGrow | services/cisco_worker/cisco_worker.py:231-236 | commands other than interface commands keep a log guarded |
| Switch.SendAllShape | services/cisco_worker/cisco_worker.py:219-223 | sending a list of commands writes a beginning of it, at least its first command, and on success the whole list |
| Switch.SendAllOkIff | services/cisco_worker/cisco_worker.py:219-223 | the list goes through exactly when each command is answered after the ones before it |
| Switch.ExitRun | services/cisco_worker/cisco_worker.py:122-125 | "end", then the empty line unless "end" raised; it succeeds iff both are answered |
| Switch.EnsureRun | services/cisco_worker/cisco_worker.py:160-163 | an empty line first, then only enable-mode commands; "enable" follows exactly when the empty line is answered without "#" |
| Switch.ProbeRun | services/cisco_worker/cisco_worker.py:166-169 | an empty line; "configure terminal" follows exactly when the lower-cased answer lacks "(config)", and then nothing else is written; mode counts as entered here iff "configure terminal" is answered; never refused |
| Switch.EnterRun | services/cisco_worker/cisco_worker.py:160-169 | only mode-entry commands, starting with an empty line; refused exactly when privileged mode was not reached; ready only after it was |
| Switch.CreateAttemptRun | services/cisco_worker/cisco_worker.py:158-183 | only creation-related commands, starting with an empty line; configuration mode counts as entered only when "configure terminal" was answered |
| Switch.CreateVlanRun | services/cisco_worker/cisco_worker.py:144-188 | the whole `create_vlan` conversation: the check first, then only creation-related commands; a VLAN already reported gives true with only the check written |
| Switch.CreateAttemptLastCheck | services/cisco_worker/cisco_worker.py:182-183 | an attempt that ends with an answered check returns that check's reading, and true only right after a check |
| Switch.CreateVlanAnswersLastCheck | services/cisco_worker/cisco_worker.py:155-188 | a run that ends with an answered check returns its reading; true exactly when the last command is a check the device answers positively |
| Switch.AbsentAnswersLastCheck | services/cisco_worker/cisco_worker.py:158-188 | the same when the first check reads absent |
| Switch.CreateVlanWritesWhenAbsent | services/cisco_worker/cisco_worker.py:155-177 | the creation command is written exactly when the first check reads absent and the configuration prompt is reached, and then right after reaching it |
| Switch.WritesAfterOpening | services/cisco_worker/cisco_worker.py:166-177 | after an absent check and a reached prompt, the creation command comes next |
| Switch.AttemptWrites | services/cisco_worker/cisco_worker.py:166-177 | an attempt that reaches the prompt writes the creation command next |
| Switch.ConfigureRun | services/cisco_worker/cisco_worker.py:207-229 | only port-assignment commands |
| Switch.AssignAttemptRun | services/cisco_worker/cisco_worker.py:201-229 | only port-assignment commands |
| Switch.AssignPortRun | services/cisco_worker/cisco_worker.py:190-237 | the whole `assign_port_to_vlan` conversation: it never raises and writes only port-assignment commands |
| Switch.AssignPortSucceedsIff | services/cisco_worker/cisco_worker.py:201-230 | true exactly when the VLAN is created, the prompt is reached and every port command is answered; then the log is the mode entry followed by the port block, ending with interface, access mode, access vlan, no shutdown, end (and the empty line) |
| Switch.AssignPortGuarded | services/cisco_worker/cisco_worker.py:201-223 | every interface command of the conversation follows a positive VLAN check written in it |
| Switch.GuardedOnceCreated | services/cisco_worker/cisco_worker.py:203-237 | the same, once `create_vlan` has returned true |
| Switch.CreateVlanSettles | services/cisco_worker/cisco_worker.py:155-156 | idempotence: after a successful creation on a device that keeps reporting the VLAN, the next run, under any name, writes only the check and returns true |
| Switch.ScreenPlan | services/cisco_worker/cisco_worker.py:361-368 | one request per screen with a port and a VLAN, and only those |
| Switch.BoxPlan | services/cisco_worker/cisco_worker.py:370-377 | one request per box with a port, to its VLAN or the default, and only those |
| Switch.ResumeEmpty | services/cisco_worker/cisco_worker.py:312-315 | resuming from nothing is the reading itself |
| Switch.ResumeDone | services/cisco_worker/cisco_worker.py:336 | once the lines run out, the gathered reports are the result |
| Switch.ResumeSkip | services/cisco_worker/cisco_worker.py:319 | a line that is not a port line is skipped |
| Switch.ResumeRead | services/cisco_worker/cisco_worker.py:319-334 | an answered port line adds its query and its report |
| Switch.ResumeRaise | services/cisco_worker/cisco_worker.py:330 | a raising query ends the reading with that error |
| Switch.ReadPortsQueries | services/cisco_worker/cisco_worker.py:315-336 | at most one switchport query per port line and no other command; a successful reading queried every port line and holds one report per port line; a failed one wrote the query that raised |
| Switch.AllPorts | services/cisco_worker/cisco_worker.py:303-337 | the status query first; if it raises the reading stops there with that error; otherwise only switchport queries follow, one per report |
| Switch.ReportsCons | services/cisco_worker/cisco_worker.py:334 | a report put in front of reports of lines reports the extended lines |
| Switch.ReadPortsReports | services/cisco_worker/cisco_worker.py:303-337 | a successful reading has one report per port line, in order, each naming the line's port with its status, and any VLAN is digits |
| Switch.ReportsPortLine | services/cisco_worker/cisco_worker.py:319-334 | the step for a port line: its report goes in front of the reports of the rest |
| Switch.CiscoWorker.constructor | services/cisco_worker/cisco_worker.py:16-35 | not connected, with empty logs and the given default VLANs |
| Switch.CiscoWorker.Connect | services/cisco_worker/cisco_worker.py:36-55 | true iff the port opens; a failure leaves the connection as it was |
| Switch.CiscoWorker.Disconnect | services/cisco_worker/cisco_worker.py:56-61 | the worker is no longer connected |
| Switch.CiscoWorker.SendCommand | services/cisco_worker/cisco_worker.py:62-95 | without a connection it raises and writes nothing; otherwise it writes exactly the command and returns the device's answer |
| Switch.CiscoWorker.EnableMode | services/cisco_worker/cisco_worker.py:96-116 | writes and returns exactly the `Enable` conversation; raises without writing when disconnected |
| Switch.CiscoWorker.ConfigureTerminal | services/cisco_worker/cisco_worker.py:117-121 | raises without writing when disconnected; otherwise writes "configure terminal", raises with the device's error when it does, and else is true iff the lower-cased answer has "config" or "(config)" |
| Switch.CiscoWorker.ExitConfigMode | services/cisco_worker/cisco_worker.py:122-126 | raises without writing when disconnected; otherwise exactly the log and result of `ExitRun` |
| Switch.CiscoWorker.VlanExists | services/cisco_worker/cisco_worker.py:127-143 | writes one `show vlan id` and returns the case-sensitive reading of its answer |
| Switch.CiscoWorker.EnterConfig | services/cisco_worker/cisco_worker.py:160-170 | exactly the log and result of `EnterRun` |
| Switch.CiscoWorker.EnsureEnabled | services/cisco_worker/cisco_worker.py:160-163 | exactly the log and result of `EnsureRun` |
| Switch.CiscoWorker.ProbeConfig | services/cisco_worker/cisco_worker.py:165-169 | exactly the log and result of `ProbeRun` |
| Switch.CiscoWorker.CreateVlan | services/cisco_worker/cisco_worker.py:144-189 | raises without writing when disconnected; otherwise exactly the log and result of `CreateVlanRun`: the check first, only creation-related commands, a VLAN already reported giving true with the check alone, and true only right after a positive check |
| Switch.CiscoWorker.CreateAttempt | services/cisco_worker/cisco_worker.py:158-183 | exactly the log, result and mode flag of `CreateAttemptRun` |
| Switch.CiscoWorker.AssignPortToVlan | services/cisco_worker/cisco_worker.py:190-238 | one request logged; false with nothing written when disconnected; otherwise exactly the log of `AssignPortRun`, true iff it is; only port-assignment commands; an interface command only after a positive VLAN check in the same call; true only when the log ends with the port block |
| Switch.CiscoWorker.AssignAttempt | services/cisco_worker/cisco_worker.py:201-229 | raises without writing when disconnected; otherwise exactly the log and result of `AssignAttemptRun` |
| Switch.CiscoWorker.ConfigureAfterCheck | services/cisco_worker/cisco_worker.py:207-229 | exactly the log and result of `ConfigureRun` |
| Switch.CiscoWorker.ConfigurePort | services/cisco_worker/cisco_worker.py:219-228 | exactly the log and result of sending the port block (with the closing empty line when configuration mode was entered here) one command at a time, stopping at the first that raises |
| Switch.CiscoWorker.GetPortVlan | services/cisco_worker/cisco_worker.py:239-262 | one switchport query; its result is the two-pattern reading of the answer; it raises exactly when the device does |
| Switch.CiscoWorker.GetPortStatus | services/cisco_worker/cisco_worker.py:263-302 | raises without writing when disconnected; otherwise writes the three queries in order and stops at the first that raises, whose fault it raises, with the log ending at that query; succeeds iff all three are answered; then the status is the classification of the first answer and the VLAN is `StatusVlan` of the two switchport answers |
| Switch.CiscoWorker.GetAllPortsStatus | services/cisco_worker/cisco_worker.py:303-337 | the status query, then the reading of its lines: exactly the commands and result of `AllPorts` |
| Switch.CiscoWorker.ReadLines | services/cisco_worker/cisco_worker.py:315-336 | the loop writes exactly the queries of `ReadPorts` and returns its result |
| Switch.CiscoWorker.ReadPortLine | services/cisco_worker/cisco_worker.py:318-334 | a non-port line is skipped with nothing written; a port line gets one switchport query and a report with its port, its line status and the query's VLAN reading |
| Switch.CiscoWorker.GetSwitchInfo | services/cisco_worker/cisco_worker.py:397-435 | disconnected: empty and nothing written; otherwise the log of `AllPorts`; if that raised, empty lists and nothing more; else its reports, then one `show vlan brief` whose answer's VLAN lines are the VLANs (none if it raised); statuses never unknown, VLAN ids digits and names words |
| Switch.CiscoWorker.SyncWithDb | services/cisco_worker/cisco_worker.py:338-383 | true iff connected (or connecting) and privileged mode is reached; then one request per screen with a port and VLAN, followed by one per box with a port, ignoring failures, and the log is the enable exchange followed only by the port commands of those requests; otherwise no request |
| Switch.CiscoWorker.SyncScreens | services/cisco_worker/cisco_worker.py:361-368 | the screen requests, in table order; the log grows only by the port commands of those requests |
| Switch.CiscoWorker.SyncScreen | services/cisco_worker/cisco_worker.py:362-366 | a request only for a screen with a port and a VLAN; the log grows only by that request's port commands, and not at all for a skipped screen |
| Switch.CiscoWorker.SyncBoxes | services/cisco_worker/cisco_worker.py:370-377 | the box requests, in table order; the log grows only by the port commands of those requests |
| Switch.CiscoWorker.SyncBox | services/cisco_worker/cisco_worker.py:371-375 | a request only for a box with a port, to its VLAN or the default; the log grows only by that request's port commands, and not at all for a box without a port |
| Switch.CallCmdsIff | services/cisco_worker/cisco_worker.py:361-377 | a command belongs to the commands of a list of requests iff it is a port command of one of them |
| Switch.CallCmdsAppend | services/cisco_worker/cisco_worker.py:361-377 | the commands of two request lists in a row are the union of their commands |
| Switch.ExtendsPlan | services/cisco_worker/cisco_worker.py:361-377 | a log grown by one list of requests and then another has grown by the commands of both |
| Switch.ScreenPlanGrows | services/cisco_worker/cisco_worker.py:361-368 | one more screen extends the requests and the log by exactly that screen's share |
| Switch.BoxPlanGrows | services/cisco_worker/cisco_worker.py:370-377 | one more box extends the requests and the log by exactly that box's share |
| Switch.CiscoWorker.AssignBoxToScreenVlan | services/cisco_worker/cisco_worker.py:384-396 | the box port requested into the screen's VLAN, with exactly the log, result and guarantees of `AssignPortToVlan` |
| App.ScreenOfBoxAt | services/screen_service/screen_service.py:45-48 | the screen found for a box is the first holding it |
| App.DetachedAll | services/screen_service/screen_service.py:85 | clearing a box from every screen leaves no screen holding it and nothing else changed |
| App.ReleasesMakeRoom | app.py:367-402 | after both releases the screen is free with no screen holding the box, or already holds it, so the pairing cannot fail; freeing the screen first does not change whether the box is on another screen |
| App.UserScreenCallsOrder | app.py:375-415 | at most three requests; the displaced box's reset comes first and the screen's request last |
| App.ClaimLeavesOneHolder | app.py:83-87 | clearing before claiming leaves the user with exactly the claimed box; ids and the invariants are kept |
| App.PairedTableFrame | app.py:365-421 | after pairing, the chosen screen holds the box with its other fields kept, and every other screen is as before except that it no longer holds the box |
| App.Server.constructor | app.py:10-18 | empty tables and a disconnected worker |
| App.Server.ResetBoxPort | app.py:377-384 | a reset request, to the box's VLAN or the default box VLAN, only when connected and the box has a port; the connection is unchanged |
| App.Server.SetScreenPort | app.py:408-419 | a request only when connected and the port and VLAN are set |
| App.Server.DeleteBox | app.py:60-68 | 200 iff the box existed, else 404; only that box is removed and the screen table is untouched |
| App.Server.AssignBox | app.py:71-112 | 400 with no change without a user; otherwise the user's boxes are cleared even when the claim fails; 404 iff the given box is unknown, 400 iff it is held after clearing; on 200 the user holds exactly one box (the given one, or the first free one); one box per user is kept |
| App.Server.AssignUserToFreeBox | app.py:115-138 | 400 without a user; 404 iff no box is free after the user's are cleared; on 200 the first free box is claimed and the user holds only it |
| App.Server.ClaimAnyFreeBox | app.py:124-129 | the clearing is kept on 404; on 200 the first free box after clearing is the user's only box |
| App.Server.UnassignBox | app.py:141-171 | 400 with neither id; by user: 200 iff the user held a box, every such box cleared; by box: 404 / 400 / 200 for unknown, free or held, clearing only that box; no change unless 200 |
| App.Server.DeleteScreen | app.py:254-262 | 200 iff the screen existed, else 404; only that screen is removed and the box table is untouched |
| App.Server.AssignBoxToScreen | app.py:290-338 | 400 without both ids; 404 for an unknown box or screen; 400 iff the screen holds another box or the box is on a screen; on 200 only the screen is paired and its port is requested into the box's VLAN when connected; no change otherwise |
| App.Server.AssignUserToScreen | app.py:341-421 | 404 for an unknown screen and 400 for a user without a box, with no change and no request; otherwise always 200 (the 500 branch is unreachable), the whole screen table is `PairedTable` of the old one at the screen's first index, no other screen holds the box, and the requests are the displaced box's reset, then the moved box's reset, then the screen port |
| App.Server.MoveBoxOntoScreen | app.py:365-421 | both releases then the pairing: 200, the whole screen table is `PairedTable` of the old one, no other screen holds the box, and the requests are in `UserScreenCalls` order |
| App.Server.PairReleased | app.py:403-419 | after the releases the pairing succeeds, changes only that screen, and requests its port into the box's VLAN |
| App.Server.ReleaseForPairing | app.py:367-399 | both releases: the whole screen table is `ReleasedTable` of the old one, their resets are logged in order, and there is room for the pairing |
| App.Server.ReleaseScreen | app.py:367-385 | a screen holding another box lets it go, and that box's port is reset if the box still exists |
| App.Server.ReleaseBox | app.py:387-399 | a box on another screen is cleared from every screen and its port reset |
| App.Server.UnassignBoxFromScreen | app.py:424-489 | 400 with neither id; by box: 200 iff the box exists and is on a screen, clearing it everywhere and resetting its port; by screen: 404 / 400 / 200 for unknown, free or paired, resetting the freed box's port only if that box still exists; no change and no request unless 200 |

## Left out

- Serial transport: opening the port, sleeps, the read loop and its timeout, flushes and the permissive UTF-8 decode. `Device` stands for all of them. Whether the port opens is the `portOpens` parameter of `Connect` and `SyncWithDb`.
- Wire text: commands are the `Command` datatype. `Text` gives the line each one puts on the wire, but nothing relates the device to that text.
- Text handling is ASCII only. `lower()`, `\d` and `isdigit()` cover ASCII letters and digits. `split()` and `\s` cover the ASCII whitespace Python counts: space, tab, newline, carriage return, vertical tab, form feed and the separators 0x1C to 0x1F. Non-ASCII whitespace such as U+0085 or U+00A0 is not modelled.
- Regular expressions in general: only the two fixed `get_port_vlan` patterns are written out.
- TinyDB persistence and file I/O: each table is an in-memory sequence of records. The worker's own store handles are left out. `sync_with_db` takes the two tables as parameters.
- Flask plumbing: JSON parsing, `jsonify` and response bodies. A missing body and a missing or null field are both `None`. User ids are strings throughout.
- App.Server.AssignBox: a JSON `null` user id is refused with 400 like a missing one. The source only checks that the key is present (app.py:75), so `{"user_id": null}` goes on. With a box id it binds the text "None" to a free box. Without one it writes a null user into the first free box, which leaves it free, and answers 200 (404 when no box is free). The model's request fields cannot tell a null from a missing key.
- App.Server.AssignUserToFreeBox: a JSON `null` user id is refused with 400 like a missing one. The source only checks that the key is present (app.py:119), so `{"user_id": null}` goes on: it writes a null user into the first free box, which leaves it free, and answers 200 (404 when no box is free).
- Routes without logic beyond one store call are not modelled as handlers, because their effect is the store operation itself:
  - `add_box`, `add_screen`, `update_box` and `update_screen`;
  - the getters, including `get_all_boxes` and `get_all_screens`, which return the table;
  - the switch routes and the config routes.
- `get_user_screen` is not modelled.
- `initialize_switch` startup sequencing and `set_serial_port`'s reconnection side effect are left out.
- `print` logging is left out.
- Concurrency is left out: the shared worker is used without a lock, which a sequential model cannot state.
- Port reports carry no duplex, speed or type, because they are always empty in the source.
- The constants module is not part of this model. The default box and screen VLANs are constructor parameters.
- Switch.CreateVlanSettles: idempotence of `create_vlan` is proved only for a device that keeps reporting a VLAN once it has reported it, because the device is otherwise arbitrary.
- Switch.ParseVlanBrief: the `VLAN<id>` fallback name cannot be reached, because a line needs two words to be read. It is kept but says nothing.
- Switch.CiscoWorker.SyncWithDb: the VLAN-check guard is proved for each port request by `AssignPortToVlan`, but the sync contracts do not restate it over the whole sync log. They state only that the log grows by the port commands of the planned requests.
- Common.Words: no round trip with `' '.join` is stated, since `split()` drops the whitespace.
