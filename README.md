# HSGQ OLT bot — a verified model of its core

The bot answers Telegram commands about the ONUs behind an HSGQ OLT. An ONU is a
customer's optical terminal, and an OLT is the PON head end that serves many
ONUs. The OLT family can be GPON or EPON. It offers:

- `/onu` for an ONU's details;
- `/pon` and `/showpon` for port listings;
- `/showall`;
- `/reboot` and `/rename`, each confirmed through an inline keyboard;
- a plain-text search.

This project models the logic behind those commands:

- **The session-token client of `src/utils/api.js`.** Logins and API calls are
  scripted outcomes. Its state `xToken`/`tokenExpiration` is a class.
- **The older client `src/olt.js`.** This covers its own token cache and retry
  loop, the rx-power tiers of its detail report, the bad-signal sweep, and the
  guards of its reboot and rename.
- **The ONU service (`src/services/onuService.js`).** Table reading, record
  formatting, the port merge of GPON tables, normalisation and sorting, the
  detail lookup with its enrichment requests, and the status and signal wording.
  It also covers reboot and rename.
- **The system service (`src/services/systemService.js`).** OLT family
  detection, device-type and uptime rendering, the offline-device report, and the
  configuration save.
- **The handlers (`src/handlers/onuHandlers.js`, `src/handlers/systemHandlers.js`).**
  Argument parsing, prompts, confirmation keyboards and callback routing
  (`app.js`), the listings with their 100-line cap, the status counts and the
  `/showpon` groups. The chat is a `Context` object whose sent messages,
  deleted ids and edits the handler methods change.

Every HTTP request, login and clock reading is a parameter holding its outcome.
The services a handler calls are parameters too.

Modules, one file each:

- `Wrappers`: Option and Result.
- `Strings`: the JavaScript string operations used.
- `Arrays`: `find`, `filter` and the stable `sort`.
- `Wire`: the JSON rows and replies.
- `ApiClient`, `LegacyOlt`, `OnuService`, `SystemService`, `ChatContext`,
  `OnuHandlers` and `SystemHandlers`.

Where the code and its design notes disagree, the model follows the code:

- `getOnuDetail` finds a row by serial OR name in one `find`. It does not try
  the identifier first and the name second.
- The GPON enrichment requests share one `try` block. A thrown base request
  therefore skips the optical and version requests.
- In `src/utils/api.js`, a rejected token clears `xToken` only. The expiration
  stays, and the client does not wait. A thrown error keeps the token.
- The service's GPON reboot and rename do not stop when the offline table gives
  no identifier. They send `parseInt(null)`, which is `NaN`. `src/olt.js` does
  stop.
- The service saves the configuration with a GET. `src/olt.js` uses a POST.
- The service's reboot and rename return error texts instead of throwing.

## Model

| member | source | states |
|---|---|---|
| ApiClient.GetTokenReuses | src/utils/api.js:24-29 | an unexpired non-empty token is returned with no login and the session unchanged |
| ApiClient.GetTokenLogsIn | src/utils/api.js:24-70 | otherwise exactly one login happens, stamped with the time read before it; a header is stored for 30 minutes from that time; a missing header or a thrown login fails and leaves the session as it was |
| ApiClient.GetTokenHandsOutHeldToken | src/utils/api.js:56-62 | a token handed out is the one now held, non-empty and still reusable; a failure never changes the session |
| ApiClient.RetryUnfold | src/utils/api.js:82-114 | one pass of the loop: the first attempt's step decides between return, throw and another attempt |
| ApiClient.RetryCallsBounded | src/utils/api.js:80-83 | the API call is made at most `maxRetries` times, and never when `maxRetries` is not positive |
| ApiClient.RetryNoAttempts | src/utils/api.js:116 | with no attempt allowed nothing is sent and 'All API request attempts failed' is thrown |
| ApiClient.RetryReturnsScriptedReply | src/utils/api.js:93-104 | a resolved value is a reply of some allowed attempt and never the token-rejection marker |
| ApiClient.RetrySendsOnlyWithToken | src/utils/api.js:85-90 | every API call goes out after `getToken` succeeded, carrying a non-empty token |
| ApiClient.RejectionClearsTokenOnly | src/utils/api.js:93-97 | a rejection before the last attempt clears the token, keeps the expiration and does not wait, so the next attempt logs in |
| ApiClient.ThrowKeepsSession | src/utils/api.js:105-111 | a thrown error before the last attempt waits 1000 ms and keeps the session |
| ApiClient.PersistentRejectionFails | src/utils/api.js:93-100 | if every reply rejects the token the call throws 'Token authentication failed after maximum retries' and never waits |
| ApiClient.PersistentThrowPropagates | src/utils/api.js:105-112 | if every call throws, the last attempt's error propagates and the token is kept |
| ApiClient.RecoversFromRejectedToken | src/utils/api.js:79-117 | with the default two attempts, a rejected held token is dropped, a login is made, and the second reply is returned with the new token held |
| ApiClient.TokenClient.constructor | src/utils/api.js:16-17 | the client starts with no token and expiration 0 |
| ApiClient.TokenClient.GetToken | src/utils/api.js:23-71 | the method's result, new state and log are those of the token step |
| ApiClient.TokenClient.TryAttempt | src/utils/api.js:85-113 | one loop body (try and catch blocks) leaves the state and log of the attempt step |
| ApiClient.TokenClient.HandleTokenFailure | src/utils/api.js:79-117 | the `while` loop's result, final state and log are those of the retry function, whose properties are the lemmas above |
| ApiClient.TokenClient.ApiGet | src/utils/api.js:124-130 | a GET through the retry with two attempts |
| ApiClient.TokenClient.ApiPost | src/utils/api.js:138-150 | a POST through the retry with two attempts |
| LegacyOlt.LegacyGetTokenOutcomes | src/olt.js:30-66 | a header is stored for 30 minutes after the response; a missing header is not an error and changes nothing; a transport error is rethrown with its message |
| LegacyOlt.BoundaryInstantDiffers | src/olt.js:68-82 | at the expiry instant this client still reuses the token while `src/utils/api.js` logs in |
| LegacyOlt.MissingHeaderKeepsOldToken | src/olt.js:55-81 | a login without a header leaves the old (possibly empty) token to be used |
| LegacyOlt.LegacyRetryUnfold | src/olt.js:88-127 | one pass of the `for` loop: return, record the error, or skip after a rejection |
| LegacyOlt.FailureResetsSession | src/olt.js:98-122 | every failure before the last attempt resets token and expiration, so the next attempt always logs in |
| LegacyOlt.LegacyCallsBounded | src/olt.js:88 | at most `maxRetries` API calls are made |
| LegacyOlt.LegacyThrowsLastError | src/olt.js:114-130 | when attempts ran and all failed, the error thrown is one the last attempt records (its login's or call's error, or for a rejected token the multiple-retries error), never `undefined` |
| LegacyOlt.LegacyThrowsLastErrorExactly | src/olt.js:98-130 | with two or more attempts the last one logs in from the reset session, and the error thrown is exactly the one it records: the login's error, else the call's, else the multiple-retries error |
| LegacyOlt.LegacyNoAttempts | src/olt.js:85-130 | with no attempt allowed nothing is sent and `undefined` is thrown |
| LegacyOlt.LegacyPersistentRejection | src/olt.js:98-108 | persistent rejections end in 'Token authentication failed after multiple retries' |
| LegacyOlt.LegacyClient.constructor | src/olt.js:26-27 | the client starts with no token and expiration 0 |
| LegacyOlt.LegacyClient.GetToken | src/olt.js:30-66 | result, state and log are those of the legacy token step |
| LegacyOlt.LegacyClient.EnsureValidToken | src/olt.js:68-82 | result, state and log are those of the validity check |
| LegacyOlt.LegacyClient.TryAttempt | src/olt.js:89-126 | one loop body leaves the state and log of the legacy attempt step |
| LegacyOlt.LegacyClient.HandleTokenFailure | src/olt.js:84-131 | the loop's outcome, final state and log are those of the legacy retry function |
| LegacyOlt.TierBands | src/olt.js:381-394 | each verdict covers exactly its band: at least -16 dBm, down to -24, down to -26, below |
| LegacyOlt.TierMonotone | src/olt.js:385-393 | a stronger signal never gets a worse verdict |
| LegacyOlt.DetailSignal | src/olt.js:378-394 | a reading gives its tier's text; no reading, '-', or a non-number keeps 'Unknown' (GPON) or 'LOS' (EPON) |
| LegacyOlt.DetailSignalDefaultDistinct | src/olt.js:441-457 | the text names a tier exactly when there is a reading |
| LegacyOlt.BadListMembers | src/olt.js:984-1011 | an entry is listed exactly when some row below the threshold gives it |
| LegacyOlt.BadSignalSorted | src/olt.js:982-1015 | the answer is sorted by ascending power, a permutation of the table-order list, and holds only rows below -25 dBm |
| LegacyOlt.GetBadSignalOnus | src/olt.js:970-1022 | the loop builds the table-order list, which is then sorted; an empty table gives an empty list; errors are rethrown with the prefix |
| LegacyOlt.NoIdentifierIsNotNotFound | src/olt.js:592-598 | a missing identifier is reported differently from a missing ONU |
| LegacyOlt.LegacyRebootGuards | src/olt.js:565-598 | a blank name is answered before the table is read; a command goes out only for a found row that (GPON) has an identifier |
| LegacyOlt.RebootSendCommand | src/olt.js:601-619 | exactly one command, with reboot flag 4 (GPON) or 1 (EPON) |
| LegacyOlt.LegacyRebootAck | src/olt.js:624-637 | an answered reboot reports success exactly when the OLT acknowledged it |
| LegacyOlt.LegacyRenameGuards | src/olt.js:699-714 | both names are checked before the table is read; a command goes out only for a found row with (GPON) an identifier |
| LegacyOlt.LegacyRenameAck | src/olt.js:765-808 | success exactly when acknowledged; an acknowledged rename is followed by a save; a failed save still reports success, with its error appended |
| OnuService.OnuTable | src/services/onuService.js:11-36 | a truthy payload is passed through, otherwise an empty array; errors are rethrown with the table prefix |
| OnuService.OfflineOnus | src/services/onuService.js:42-54 | errors are swallowed; a falsy payload gives an empty array |
| OnuService.IconStateRoundTrip | src/services/onuService.js:304-323 | status mark and rstate code translate into each other without loss |
| OnuService.GponOnlineIff | src/services/onuService.js:177-222 | a row is online exactly when the first present one of `auth_state`, `rstate`, `run_state` says so |
| OnuService.GponStatePrecedence | src/services/onuService.js:177-203 | a present `auth_state` decides alone and never yields unknown; a present `rstate` overrides `run_state` |
| OnuService.FormatGponRow | src/services/onuService.js:171-230 | the record is well formed (code in 0..3 with its mark) and takes serial and name with '-' defaults |
| OnuService.FormatGponOnus | src/services/onuService.js:170-232 | one well-formed record per row, in order |
| OnuService.EponOfflineAgrees | src/services/onuService.js:277-287 | the offline report and the ONU list read an EPON status the same way |
| OnuService.GponOfflineAgrees | src/services/onuService.js:191-203 | a GPON row the report lists as offline or initial is so marked in the list |
| OnuService.FormatEponRow | src/services/onuService.js:271-295 | well formed, serial from `macaddr` then `sn`, name from `onu_name` then `ont_name` |
| OnuService.FormatEponOnus | src/services/onuService.js:270-297 | one well-formed record per row, in order |
| OnuService.Normalized | src/services/onuService.js:305-321 | a missing rstate is derived from the mark, a present one is kept, a well-formed record is unchanged |
| OnuService.NormalizeOnuStates | src/services/onuService.js:304-323 | every array slot is replaced by its normalised record |
| OnuService.MergeOffline | src/services/onuService.js:146-153 | the loop appends exactly the offline records whose serial the table did not list, in order |
| OnuService.GetGponOnus | src/services/onuService.js:91-163 | the method returns the GPON list: the auth answer unfiltered when non-empty, else table records then new offline ones, else empty |
| OnuService.GponOnusMerge | src/services/onuService.js:129-153 | the list opens with the table records, later records are new offline ones, each keeping all its copies |
| OnuService.RawOnusWellFormed | src/services/onuService.js:91-297 | every record of either family is well formed |
| OnuService.ByNameTotal | src/services/onuService.js:77 | comparing by name is total whenever the collation is |
| OnuService.GetAllOnus | src/services/onuService.js:61-84 | normalise in place, then sort by name |
| OnuService.AllOnusSpec | src/services/onuService.js:61-84 | the result is a permutation of the family's records, all well formed, sorted by name for a total collation |
| OnuService.FindRow | src/services/onuService.js:339-342 | `find` yields a matching row exactly when one exists |
| OnuService.EnrichFinding | src/services/onuService.js:363-397 | the sequence of `finding = {...finding, ...}` steps stops at the first thrown request |
| OnuService.EnrichIsOverlay | src/services/onuService.js:371-391 | enriching is overlaying what the replies supply; every other key keeps the table's value |
| OnuService.EnrichStops | src/services/onuService.js:364-396 | replies after the first thrown request are never merged |
| OnuService.OnuDetailOutcomes | src/services/onuService.js:330-456 | a table match is enriched; an offline-table hit is used unenriched, only on GPON and only with no table match; not-found exactly when neither table matches |
| OnuService.DetailOfEmptyTable | src/services/onuService.js:26-31 | an empty payload counts as an empty table: nothing is found |
| OnuService.StatusText | src/services/onuService.js:851-867 | a word maps to Online/Offline/Initial or is echoed; a number maps to the three codes or 'Unknown' |
| OnuService.StatusTextOfCodes | src/services/onuService.js:853-866 | codes 0, 1, 2 read like their words; a numeric string is echoed, not decoded |
| OnuService.SignalBands | src/services/onuService.js:874-901 | undetermined exactly for a missing, '-' or unparsable reading; each verdict covers its band |
| OnuService.SignalMonotone | src/services/onuService.js:888-900 | a stronger signal never gets a worse verdict |
| OnuService.BlankFindsNothing | src/services/onuService.js:912-929 | a blank search term matches no row |
| OnuService.GponTargetSelection | src/services/onuService.js:918-941 | the identifier always comes from the offline table; display prefers the table row |
| OnuService.GponAckIsStricter | src/services/onuService.js:959-962 | GPON accepts message or code only; `status: 'success'` alone acknowledges just on EPON |
| OnuService.RebootOutcomes | src/services/onuService.js:908-1011 | one reboot command with flag 4 or 1 exactly when the ONU is found; success exactly when acknowledged; a blank name sends nothing |
| OnuService.RenameDoneReads | src/services/onuService.js:1075-1084 | the success text opens with the mark and, after a failed save, carries the save error as a warning |
| OnuService.RenameAck | src/services/onuService.js:1070-1088 | the save follows exactly an acknowledgement; success exactly then, even when the save throws |
| OnuService.RenameOutcomes | src/services/onuService.js:1019-1139 | a rename command carrying the new name goes out exactly for a found ONU; a blank name sends nothing |
| SystemService.DetectOltType | src/services/systemService.js:297-327 | model/vendor decide first, EPON before GPON; then the version of a model called an OLT, EPON before GPON; then `device_type`; Unknown exactly when no source names a family |
| SystemService.DeviceTypeConsultedLast | src/services/systemService.js:316-324 | once model, vendor or version decide, `device_type` cannot change the answer |
| SystemService.DeviceTypeText | src/services/systemService.js:97-108 | codes 1 and 2 (number or string) are named, other values shown as they are, absent is 'Unknown' |
| SystemService.DeviceTypeTextAgrees | src/services/systemService.js:97-108 | when only the device type decides, the detected family and the Device Type line agree |
| SystemService.InfoTrailer | src/services/systemService.js:126-129 | the warning lines appear exactly on a mismatch and end with the warning |
| SystemService.WarningIffFamilyDiffers | src/services/systemService.js:126-129 | warned exactly when a type is configured, one is detected, and they differ case-insensitively |
| SystemService.UptimeDecomposition | src/services/systemService.js:396-402 | days, hours, minutes and seconds add back up and are each in range |
| SystemService.ComposeUptime | src/services/systemService.js:403-409 | the `result +=` steps give the shared layout |
| SystemService.FormatUptime | src/services/systemService.js:334-414 | the method follows every parsing path of the uptime function |
| SystemService.UptimeIdempotent | src/services/systemService.js:334-414 | formatting an already formatted uptime returns it unchanged |
| SystemService.CommaFormParses | src/services/systemService.js:344-363 | a 'd,h,m,s' text of four numbers is laid out from those numbers |
| SystemService.ColonFormParses | src/services/systemService.js:374-384 | an 'H:M:S' text is laid out from its three numbers |
| SystemService.UptimeFormsAgree | src/services/systemService.js:338-410 | seconds, their 'd,h,m,s' form and (below a day) their 'H:M:S' form format alike |
| SystemService.Lines | src/services/systemService.js:232-241 | one line per listed row |
| SystemService.AppendListing | src/services/systemService.js:232-241 | the `for ... result +=` loop appends every row's line in order |
| SystemService.OfflineDeviceInfo | src/services/systemService.js:203-290 | the method gives the report function on every path |
| SystemService.ReportRows | src/services/systemService.js:224-285 | header plus offline then initial lines, or the per-port 'none' line, or nothing |
| SystemService.GponReportRows | src/services/systemService.js:225-243 | each GPON row with rstate 2 or 0 is listed once, offline ones before initial ones, nothing else |
| SystemService.NoOfflineLineNeedsPort | src/services/systemService.js:244-285 | without a port the report is empty, the error text, or a listing |
| SystemService.SaveConfiguration | src/services/systemService.js:420-442 | saved text exactly on an acknowledgement; a reply without one gives 'Gagal menyimpan konfigurasi. Pesan: ' with the OLT's message, or 'Unknown error' when there is none; error exactly when the GET throws, with the save prefix |
| Wire.ParseIntOfNumber | src/services/onuService.js:124-125 | `parseInt` reads back a number and its decimal rendering |
| Wire.OverlayKeys | src/services/onuService.js:371 | for every one of the fifteen keys, a spread takes the right object's value when it has the key and keeps the left one's otherwise |
| Wire.OverlayIdentity | src/services/onuService.js:371 | spreading an empty object, or an object over itself, changes nothing |
| Arrays.SortStable | src/services/onuService.js:77 | the sort is stable: the elements a transitive comparator ranks level come out in their input order |
| Wire.PortRows | src/services/onuService.js:122-127 | the port filter keeps exactly the rows whose parsed port equals the requested one |
| ChatContext.Context.constructor | src/handlers/onuHandlers.js:11 | a context starts with nothing sent, deleted or edited |
| ChatContext.Context.Reply | src/handlers/onuHandlers.js:100 | appends one plain message and answers its id |
| ChatContext.Context.ReplyWithButtons | src/handlers/onuHandlers.js:57-66 | appends one message with its keyboard |
| ChatContext.Context.DeleteMessage | src/handlers/onuHandlers.js:106 | records the id as deleted |
| ChatContext.Context.EditMessageText | src/handlers/onuHandlers.js:81-87 | records the edit of the pressed message |
| OnuHandlers.ParamsJoin | src/handlers/onuHandlers.js:13-16 | split, shift and join give everything after the first space |
| OnuHandlers.CommandArgument | src/handlers/onuHandlers.js:13-16 | the argument is exactly what follows the first space |
| OnuHandlers.HandleOnuCommand | src/handlers/onuHandlers.js:11-28 | a blank argument gets the family's prompt and no lookup; otherwise the detail or the error text |
| OnuHandlers.LineRun | app.js:66 | `(.+)` takes the longest line-terminator-free prefix |
| OnuHandlers.ColonFreeRun | app.js:67 | `([^:]+)` takes the longest colon-free prefix |
| OnuHandlers.RebootRoundTrip | app.js:66 | a reboot button routes back to its name for any non-empty line-free name |
| OnuHandlers.RenameRoundTrip | app.js:67 | a rename button routes back when the old name is colon-free and the data holds no 'reboot:' |
| OnuHandlers.RenameSplitsAtColon | src/handlers/onuHandlers.js:178 | as written, an old name with a colon is cut at its first colon |
| OnuHandlers.RenameSplitsMac | app.js:67 | as written, renaming by MAC routes '00' as the old name |
| OnuHandlers.RenameHijackedByReboot | app.js:66-67 | as written, a new name holding 'reboot:' turns the rename button into a reboot |
| OnuHandlers.FixedRoundTrip | app.js:66-68 | with anchored routing and a space separator every built button routes back to what it was built for |
| OnuHandlers.HandleRebootCommand | src/handlers/onuHandlers.js:39-66 | blank argument gets the prompt; otherwise the confirmation with reboot and cancel buttons |
| OnuHandlers.RenameArgumentsSplit | src/handlers/onuHandlers.js:158-170 | the old name is one token and the two names rejoin to the argument |
| OnuHandlers.HandleRenameCommand | src/handlers/onuHandlers.js:155-184 | too few tokens get the usage text; otherwise the confirmation with rename and cancel buttons, whose data uses the corrected encoding `rename:<old> <new>` (see Findings) |
| OnuHandlers.RenameButtonRoundTrip | src/handlers/onuHandlers.js:167-178 | with the corrected encoding and routing, each rename confirmation routes back to the names it shows |
| OnuHandlers.HandleCallback | src/handlers/onuHandlers.js:76-210 | with the corrected anchored routing, reboot and rename write a progress line then the service reply; cancel writes its notice; other data does nothing |
| OnuHandlers.HandleTextMessage | src/handlers/onuHandlers.js:216-231 | text starting with '/' is ignored; any other is searched |
| OnuHandlers.OnuLines | src/handlers/onuHandlers.js:125-131 | one `${sn} - ${name}` line per ONU |
| OnuHandlers.SendOnuLines | src/handlers/onuHandlers.js:125-137 | the loop sends the first `count` lines, one reply each |
| OnuHandlers.ListBodyShape | src/handlers/onuHandlers.js:122-142 | at most 100 lines in order; the overflow notice exactly past 100 |
| OnuHandlers.SendListBody | src/handlers/onuHandlers.js:122-145 | sends the capped lines and the overflow notice |
| OnuHandlers.HandleShowAllCommand | src/handlers/onuHandlers.js:97-148 | loading, then not-found or summary, lines and done; the loading message is deleted |
| SystemHandlers.PortArgumentRoundTrip | src/handlers/systemHandlers.js:34-45 | every rendered port number is read back as that port |
| SystemHandlers.PonRequestCases | src/handlers/systemHandlers.js:34-45 | blank means all ports; non-numeric is rejected; otherwise the parsed port |
| SystemHandlers.CountsPartition | src/handlers/systemHandlers.js:81-99 | no ONU is counted twice; coded ONUs are each counted once |
| SystemHandlers.ServiceCountsAddUp | src/handlers/systemHandlers.js:81-99 | for service records the four counts sum to the list length |
| SystemHandlers.AddCategory | src/handlers/systemHandlers.js:112-125 | one `+=` step adds the category, with ' \| ' only after an earlier one |
| SystemHandlers.ComposeStatus | src/handlers/systemHandlers.js:105-132 | the steps build the summary |
| SystemHandlers.StatusUnknownIff | src/handlers/systemHandlers.js:128-130 | 'Status: Unknown' exactly when all counts are zero |
| SystemHandlers.StatusPartsOrdered | src/handlers/systemHandlers.js:108-125 | one part per non-zero count, in the order Online, Offline, Initial, Unknown |
| SystemHandlers.ServiceSummaryKnown | src/handlers/systemHandlers.js:81-130 | a non-empty service list never gets 'Status: Unknown' |
| SystemHandlers.PortRepliesShape | src/handlers/systemHandlers.js:61-164 | loading, then not-found alone, or summary, at most 100 lines, overflow past 100, done |
| SystemHandlers.CountStates | src/handlers/systemHandlers.js:81-99 | the four filter counts |
| OnuHandlers.SendListing | src/handlers/systemHandlers.js:134-163 | the summary, then at most 100 per-ONU lines in order with the overflow notice exactly past 100, then the done line are sent, and nothing is deleted or edited; `/showall` sends its listing the same way (src/handlers/onuHandlers.js:114-145) |
| SystemHandlers.HandleSpecificPonPort | src/handlers/systemHandlers.js:61-164 | sends the port replies and deletes the loading message |
| SystemHandlers.HandlePonCommand | src/handlers/systemHandlers.js:27-49 | all-ports status, the warning, or the port listing |
| SystemHandlers.ReadPortArgument | src/handlers/systemHandlers.js:29-45 | cut, blank test and parse give the port request |
| SystemHandlers.GroupLines | src/handlers/systemHandlers.js:243-244 | one `${sn} (${name})` line per ONU |
| SystemHandlers.BuildGroup | src/handlers/systemHandlers.js:241-246 | header with the group size, then every line in order |
| SystemHandlers.GroupsPartition | src/handlers/systemHandlers.js:225-238 | membership per group exactly by state; no ONU is in two groups; unknown ones in none |
| SystemHandlers.ShowPonAccounts | src/handlers/systemHandlers.js:205-265 | groups plus unknown ones account for every record; one message per non-empty group |
| SystemHandlers.SendGroups | src/handlers/systemHandlers.js:240-265 | sends the non-empty groups in order |
| SystemHandlers.ShowPort | src/handlers/systemHandlers.js:189-268 | loading, then not-found or summary, groups and done; the loading message is deleted |
| SystemHandlers.SendGroupListing | src/handlers/systemHandlers.js:222-268 | summary, groups and done line are sent |
| SystemHandlers.HandleShowPonCommand | src/handlers/systemHandlers.js:170-273 | prompt, warning, or the port's grouped listing |

## Left out

- HTTP, axios and Telegram I/O are left out. Each request's outcome, each login
  outcome and each clock reading (`Date.now()`) is a parameter. The waits
  (`setTimeout`, the 300 ms pauses between replies) are events or are left out.
- The login body (MD5 key, base64 password) and the request bodies of
  `apiPost` are left out. Neither affects any decision modelled here.
- Power readings are whole hundredths of a dBm. `parseFloat`, `toFixed` and
  the `replace(/[^\d.-]/g, '')` clean-up are abstracted to a reading, '-', or
  no number.
- `parseInt` reads an optional sign and decimal digits. Hex prefixes and the
  other radix rules are not modelled.
- SystemService.FormatUptime reads only decimal integers as numbers. A string
  such as '12.5' or '1e3' is returned as it is, where the source would parse
  it.
- `localeCompare` is a parameter, the collation `nameLe`. The sort is proved
  ordered when that collation is total.
- OnuService.NormalizeOnuStates: `rstate` is `Option<int>`. A `NaN` rstate and
  an absent one are both `None`.
- The in-place `onuList.sort` is modelled on the sequence the normalised array
  holds.
- Not modelled:
  - the detail templates `formatOnuDetailText` and its helpers
    (`src/services/onuService.js:463-844`), including the calendar uptime of
    `formatUptimeGpon`;
  - the rest of `getOltSystemInfo` (its requests and the line layout);
  - `getPonStatus`. It only composes texts and never throws, and `/pon` takes
    its text as a parameter.
- `getAllOnus` never throws here: both family readers catch every error, so its
  catch block is unreachable and not modelled.
- Handler catch blocks react only to Telegram failures, which the context does
  not produce. Other Telegram wiring is not modelled:
  - `/help` (`src/handlers/systemHandlers.js:279-313`);
  - the unbounded `/delete` loop (319-328);
  - the bot error handler (343-353);
  - `/olt` (13-21), which only forwards the system text;
  - the authorisation whitelist.
- The `onuTable`, `ponHSGQ`, `onuDetail`, `oltSystem` and `getAllOnu` reports
  of `src/olt.js` are not modelled. Only its token client, signal tiers,
  bad-signal sweep, and reboot and rename guards are.
- Concurrency between chats is left out. Each handler call runs alone on one
  client state.
- Engine `TypeError` messages have one fixed text. JSON `null` counts as
  absent.
- JSON numbers are whole numbers (`JNum` holds an `int`). A fractional value
  such as `port_id: 1.5` or `device_type: 1.0` cannot be represented, so the
  way `parseInt` truncates it and the way a template renders it are not
  modelled.
- Telegram's 64-byte limit on callback data is not modelled.
- OnuHandlers.HandleRenameCommand: builds its buttons with the corrected data
  `rename:<old> <new>`, not the `rename:<old>:<new>` of
  `src/handlers/onuHandlers.js:178` (see Findings). The as-written encoding is
  `RenameData`, with its lemmas.
- OnuHandlers.RenameButtonRoundTrip: proved for the corrected encoding and
  routing. As written, the round trip fails for an old name holding a colon
  (`RenameSplitsMac`).
- OnuHandlers.HandleCallback: routes with the corrected anchored patterns, not the
  unanchored `app.js:66-67` ones, so the as-written misroutes are not reproduced
  by the handler. The as-written `Dispatch`, with its lemmas, models them.
- Strings.Lower and Strings.Upper map the ASCII letters only, where JavaScript's
  `toLowerCase`/`toUpperCase` map all of Unicode. The case-insensitive ONU
  search, the EPON status words and the OLT family read through them, so a
  name such as 'ÉLAN' searched as 'élan' matches in the bot but not here.

## Findings

| source | as written | input that shows it | evidently intended | confidence | as-written member | corrected member |
|---|---|---|---|---|---|---|
| src/handlers/onuHandlers.js:178 | the rename button data is `rename:${onuName}:${newName}`, routed by `/rename:([^:]+):(.+)/`, so the old name ends at its first colon | EPON rename by MAC: `/rename 00:11:22:33:44:55 BUDI` is routed as old name '00', new name '11:22:33:44:55:BUDI' | the pressed button renames the ONU it names to the name it shows | high (not executed) | OnuHandlers.RenameSplitsMac | OnuHandlers.RenameButtonRoundTrip |
| app.js:66-67 | the unanchored `/reboot:(.+)/` is registered before the rename pattern and matches anywhere in the data | a rename to 'reboot:ALL': data 'rename:ONU1:reboot:ALL' is routed as a reboot of 'ALL' | a rename button is never taken for a reboot | high (not executed) | OnuHandlers.RenameHijackedByReboot | OnuHandlers.FixedRoundTrip |
