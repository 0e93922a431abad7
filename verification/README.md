# redpay transfer automation in Dafny

redpay pays an Angolan bank transfer by driving the payer's online banking in a
browser. Four programs take part:

- a React client (`src/App.tsx`, `src/components/OtpForm.tsx`) that collects the
  bank, the credentials and, when the bank asks for one, an OTP code;
- an Express server (`backend/server.js`) that validates `POST /api/transfer` and
  either answers in demo mode or hands the request to the automation service;
- the Node.js automation service (`backend/services/pythonAutomation.js`) that
  spawns the Python worker, classifies how the worker ended, and keeps the
  sessions that stopped at an OTP page, in memory and in a directory of
  `<session_id>.json` files;
- the Python worker (`backend/automation/bank_scraper.py` with
  `session_manager.py`) that runs the browser steps, stops at the OTP page, and in
  a second run continues the stored session with the code.

The model is functional. JSON documents are a `Value` datatype. The session
directory is a map from session id to `Valid(record) | Empty | Corrupt |
Unreadable`, and a put is one atomic map update, because both writers write a
temporary file and rename it. The ids whose file the system refuses to remove
are a parameter, `locked`. Every browser, driver, process-table or clock call becomes a parameter
that returns a value or raises (`Step<T>`). The worker's and the service's
reactions to those answers are modelled branch by branch, with the exact
messages, defaults and key sets of the code.

Files:

| file | modules |
|---|---|
| `base.dfy` | `Base` (options, steps, first-match search), `Json` (values, Python and JavaScript truthiness), `Strings` |
| `fee.dfy` | `FeeRule` (the four copies of the fee clamp), `Amounts` (how Python and JavaScript read an amount) |
| `session_files.dfy` | `SessionFiles` (the directory), `PySessionStore` (`SessionManager`) |
| `js_session_store.dfy` | `JsSessionStore` (the Node.js readers and writer of the same directory) |
| `scraper.dfy` | `Scraper` (the worker's decisions and `main`) |
| `orchestrator.dfy` | `Orchestrator` (`PythonAutomationService`) |
| `types.dfy` | `Types` (`Bank`, `TransferRequest`, `TransferResponse`) |
| `server.dfy` | `Server` (`POST /api/transfer`) |
| `automation.dfy` | `BackendAutomation`, `FrontendAutomation`, `AutomationFees` (the two simulated automations) |
| `app.dfy` | `App` (the client's screen state machine) |
| `otp_form.dfy` | `OtpForm` |
| `pipeline.dfy` | `Pipeline` (properties that cross program boundaries) |

## Model

| member | source | states |
|---|---|---|
| FeeRule.Fee | backend/automation/bank_scraper.py:991-998 | The fee always lies in [500, 5000]. It is exactly 0.5% of the amount iff 100000 <= amount <= 1000000, the floor at or below 100000 and the cap at or above 1000000. |
| FeeRule.FrontendFee | src/services/bankAutomation.ts:132-138 | The browser-side fee is at least 500. It is exactly 0.5% iff amount >= 100000, and 500 at or below that. |
| FeeRule.FeeMonotone | backend/services/bankAutomation.js:214-222 | The backend fee is non-decreasing in the amount. |
| FeeRule.FrontendFeeMonotone | src/services/bankAutomation.ts:132-138 | The browser-side fee is non-decreasing in the amount. |
| FeeRule.FrontendAgreesIffBelowCap | src/services/bankAutomation.ts:132-138 | The uncapped and capped rules agree iff amount <= 1000000. Above that the uncapped one exceeds 5000, and it is never below the capped one. |
| FeeRule.FeeExamples | backend/server.js:169-175 | Concrete values: 1 gives 500, 200000 gives 1000, 2000000 gives 5000 capped and 10000 uncapped. |
| Amounts.PyNumber | backend/automation/bank_scraper.py:991-998 | `amount * 0.005` succeeds in Python iff the JSON amount is a number or a boolean. Otherwise it raises the TypeError text of the value's type. |
| Amounts.PyFee | backend/automation/bank_scraper.py:991-998 | The worker's fee on a JSON value is defined exactly when the multiplication is, and is then the clamp of that number. |
| Amounts.JsNumber | backend/server.js:169-175 | JavaScript's reading of a JSON amount: numbers read as themselves, objects as NaN. |
| Amounts.JsFee | backend/server.js:169-175 | The server's serialised fee is `null` exactly when the amount reads as NaN. Otherwise it is the clamp of that number and lies in [500, 5000]. |
| Amounts.FeesAgreeOnNumbers | backend/server.js:169-175 | On a JSON number, the worker and the server charge the same fee. |
| Amounts.StringAmountsDiverge | backend/automation/bank_scraper.py:991-998 | On an amount sent as a digit string, the server coerces it and charges the fee, while the worker raises. |
| Json.JsAndPyTruthinessDiffer | backend/automation/session_manager.py:200-207 | `{}` is truthy in JavaScript and falsy in Python. On every non-object value the two truthiness rules agree. |
| Strings.Find | backend/automation/bank_scraper.py:408-409 | Python `find`: the least index at or after the start where the text occurs, or -1 iff there is none. |
| Strings.ParseInt | backend/automation/bank_scraper.py:412 | Succeeds iff the text is ASCII digits with an optional sign. The value is that of the digits, negated after '-'. |
| Strings.Lower | backend/automation/bank_scraper.py:841-843 | Each character is mapped to lower case, and the length is kept. |
| Strings.LowerIdempotent | backend/automation/bank_scraper.py:974-976 | Lower-casing twice is lower-casing once. |
| Strings.Capitalize | backend/automation/bank_scraper.py:972 | The first character is upper-cased and every other one lower-cased; the length is kept. |
| Strings.CapitalizeKeepsLower | backend/automation/bank_scraper.py:972 | Capitalising changes only case: the lower-cased text is the same. |
| Strings.Trim | backend/services/pythonAutomation.js:346 | JavaScript `trim`: the result is empty or starts and ends with a non-space, and it occurs in the input. |
| Strings.TrimStripsOnlySpace | backend/services/pythonAutomation.js:346 | The input is white space, then the trimmed text, then white space. |
| SessionFiles.Swept | backend/automation/session_manager.py:146-189 | After the Python reader has visited every file, an entry is left iff it parses, cannot be read, or is empty or corrupt with a removal that raised. Every parseable entry is left, and every entry left is unchanged. |
| SessionFiles.SweptIdempotent | backend/automation/session_manager.py:146-189 | A second sweep removes nothing more. |
| PySessionStore.StorageRecord | backend/automation/session_manager.py:40-55 | The stored record has the id and the write time. `bank_config` and `transfer_data` are copied. `status` defaults to 'waiting_otp' and `otp_detected` to False when absent. |
| PySessionStore.StorageRecordKeys | backend/automation/session_manager.py:40-51 | The record's keys are exactly the ten kept keys. Every kept key the caller passed keeps its value, and a missing handle is None. |
| PySessionStore.StoreSession | backend/automation/session_manager.py:33-78 | Succeeds iff both payload keys are present and the write succeeds. On failure the directory is unchanged. On success only this id's entry changes, to the storage record. |
| PySessionStore.StoreIsAllOrNothing | backend/automation/session_manager.py:57-78 | A store that fails for any reason leaves the previous entry, and what a read of it returns, unchanged. |
| PySessionStore.GetSession | backend/automation/session_manager.py:80-116 | Finds a record iff the entry parses, and it is then the stored one. A missing id changes nothing. An empty or corrupt entry reads as None and is removed, unless the removal raises, in which case it stays. A file whose reading raises reads as None and stays. No other entry changes, and nothing expires by age. |
| PySessionStore.FailedReadKeepsFile | backend/automation/session_manager.py:91-116 | When reading the file raises, or removing an empty or corrupt file raises, the read returns None with the directory unchanged, and a sweep keeps that entry as it was. |
| PySessionStore.StoreThenGet | backend/automation/session_manager.py:33-112 | A read right after a successful store returns the storage record. Its keys are the kept set, every kept field equals the caller's, the timestamp is the time of the store, and `transaction_id` is dropped. |
| PySessionStore.DeleteSession | backend/automation/session_manager.py:127-144 | Reports True iff the file is absent or its removal succeeds, and then the id is absent. When the removal raises it reports False and the directory is unchanged. No other entry changes. |
| PySessionStore.DeleteIdempotent | backend/automation/session_manager.py:127-141 | Deleting twice is deleting once, and a read after a delete finds nothing. |
| PySessionStore.Merged | backend/automation/session_manager.py:204-205 | The merged record takes each updated key from the updates, keeps every other stored key, and carries the update time. |
| PySessionStore.MergedKeepsPayload | backend/automation/session_manager.py:204-205 | A merge keeps the two payload fields of the stored record. |
| PySessionStore.UpdateSession | backend/automation/session_manager.py:200-207 | Succeeds only on a present, parseable, non-empty record with a successful write. An absent id gives False with nothing changed. The id stays iff the Python reader would keep it; a readable record stays readable and an unusable one stays as it was. No other entry changes. |
| PySessionStore.UpdateWritesMergedRecord | backend/automation/session_manager.py:200-207 | On a record with both payload fields, the update writes the storage record of the merge. |
| PySessionStore.UpdateMerges | backend/automation/session_manager.py:200-207 | After an update, each kept field has the update's value when the update names it, and its stored value otherwise. |
| PySessionStore.UpdateStampsTime | backend/automation/session_manager.py:205 | An update always stamps the record with the time of the update. |
| PySessionStore.UpdateKeepsStoredKeys | backend/automation/session_manager.py:200-207 | An update on a record with both payload fields succeeds and leaves exactly the kept keys. |
| PySessionStore.UpdateSessionStatus | backend/automation/session_manager.py:118-125 | On success, the stored record holds the new status. On failure, no other entry changes. |
| PySessionStore.UpdateStatusIsUpdate | backend/automation/session_manager.py:118-125 | `update_session_status` is `update_session` with the single update `status`. |
| PySessionStore.StatusUpdateLands | backend/automation/session_manager.py:118-125 | A status update on a record with both payload fields succeeds. The record keeps those fields and holds the new status. |
| PySessionStore.IsBrowserAlive | backend/automation/session_manager.py:191-198 | A falsy pid is dead. For a non-zero pid written as an integer, the answer is the process table's. Anything psutil cannot take reads as dead. |
| PySessionStore.SweepDirectory | backend/automation/session_manager.py:160-163 | The loop over the directory collects exactly the ids whose record is truthy, and leaves the swept directory, failed removals included. |
| PySessionStore.ListActiveSessions | backend/automation/session_manager.py:146-168 | Lists exactly the ids with a parseable, non-empty record. On the way it deletes the empty and corrupt files whose removal does not raise. |
| PySessionStore.CleanupExpiredSessions | backend/automation/session_manager.py:170-189 | Keeps every parseable or unreadable entry unchanged, whatever its age. An empty or corrupt entry stays iff its removal raises. No entry is added or changed. |
| JsSessionStore.FileRecord | backend/services/pythonAutomation.js:18-34 | Normalises the record: each payload field is taken from the snake_case name, else the camelCase name, else `{}`. Status defaults to 'waiting_otp', `otp_detected` is false only for null or undefined, and a supplied timestamp wins. The pass-through handles are copied iff supplied. |
| JsSessionStore.FileRecordKeys | backend/services/pythonAutomation.js:18-34 | The written keys are exactly the six fixed ones plus the supplied pass-through handles, so `debugger_port` is never written. |
| JsSessionStore.PassThroughNotFixed | backend/services/pythonAutomation.js:18-34 | No pass-through handle collides with a fixed field. |
| JsSessionStore.StoreSessionToFile | backend/services/pythonAutomation.js:12-61 | Only the write can fail. A failed write changes nothing, and a successful one replaces just this id's entry with the normalised record. |
| JsSessionStore.StoreThenGet | backend/services/pythonAutomation.js:12-107 | A read right after a successful write returns the normalised record. |
| JsSessionStore.GetSessionFromFile | backend/services/pythonAutomation.js:64-107 | Finds a record iff the file parses. A missing, empty or unreadable file reads as null and is kept. A corrupt file reads as null and is deleted, unless `unlinkSync` throws, in which case it stays. No other file changes. |
| JsSessionStore.ReadersAgreeOffEmpty | backend/services/pythonAutomation.js:64-107 | On any entry but an empty file, the Python and Node.js readers return the same record and leave the same directory, given one classification of the file's content for both readers. |
| JsSessionStore.ListActiveSessionsFromFiles | backend/services/pythonAutomation.js:110-132 | Lists exactly the ids of parseable files. A corrupt file is deleted unless its removal throws. Empty and unreadable files are kept, and the others are unchanged. |
| JsSessionStore.EmptyFileHandlingDiffers | backend/services/pythonAutomation.js:78-81 | On an empty file both readers return nothing. Python deletes the file unless the removal raises; Node.js always keeps it. |
| JsSessionStore.EmptyObjectListingDiffers | backend/services/pythonAutomation.js:110-132 | A file holding `{}` is listed by Node.js and not by Python, and neither deletes it. |
| JsSessionStore.PythonUpdateDropsTransactionId | backend/automation/session_manager.py:40-51 | A record Node.js wrote with a `transaction_id` loses that field on the worker's first update, because the Python store keeps a fixed key set. |
| JsSessionStore.TransactionIdNotStored | backend/automation/session_manager.py:40-51 | `transaction_id` is not among the keys the Python store keeps. |
| Scraper.PyIndex | backend/automation/bank_scraper.py:1105-1106 | `v[k]` succeeds iff `v` is a dict holding `k`. A missing key raises the quoted key. |
| Scraper.FindFirstSelector | backend/automation/bank_scraper.py:1078-1085 | Returns a selector iff some selector finds an element. It returns the first such selector in list order, and every earlier one finds nothing. |
| Scraper.VerifyTransferSuccess | backend/automation/bank_scraper.py:927-983 | Success iff an element was found whose lower-cased class contains "success"; this wins over "danger". Otherwise the message is the element's capitalised text for "danger", the no-clear-class text, or the timeout text. |
| Scraper.VerdictIgnoresClassCase | backend/automation/bank_scraper.py:971-979 | The classification does not depend on the case of the class attribute. |
| Scraper.OtpFieldSelectors | backend/automation/bank_scraper.py:785-811 | The bank's own OTP selector, when it has one, comes first, followed by all the generic selectors in order. |
| Scraper.PageMentionsOtp | backend/automation/bank_scraper.py:827-845 | True iff the lower-cased page contains one of the lower-cased phrases. |
| Scraper.OtpTextIgnoresCase | backend/automation/bank_scraper.py:827-845 | The text check is insensitive to the case of the page. |
| Scraper.SelectorLoop | backend/automation/bank_scraper.py:815-825 | The first wait, in order, that does not time out decides: an element gives true, and any other exception leaves the loop with that exception. It gives nothing iff every wait times out. |
| Scraper.DetectOtpRequirement | backend/automation/bank_scraper.py:773-851 | Over the bank selector and then the generic ones, the first wait that does not time out decides. An element means an OTP step, and a non-timeout exception is raised out of the function with its message. When every wait times out, the answer is whether the page source is readable and mentions an OTP phrase. |
| Scraper.DetectWithoutErrors | backend/automation/bank_scraper.py:815-851 | When no wait raises, the detection does not raise. It reports an OTP step iff some selector locates an element, or the readable page mentions an OTP phrase. |
| Scraper.BadBankSelectorRaises | backend/automation/bank_scraper.py:785-825 | A bank `otpInputField` whose wait raises (a malformed selector, for instance) makes the detection raise, before any generic selector or the page text is tried. |
| Scraper.ParseDebuggerPort | backend/automation/bank_scraper.py:408-416 | A port is found only in a command line containing the flag. |
| Scraper.ParsePortIsParseInt | backend/automation/bank_scraper.py:408-416 | Whatever stands between the first flag and the next space (or the end) decides: the result is `ParseInt` of that slice, so the port is its integer value when the slice is a signed or unsigned digit string and None otherwise. |
| Scraper.SignedPortAccepted | backend/automation/bank_scraper.py:412 | `int('+80')` is 80, so a signed port after the flag is read as that port. |
| Scraper.NonIntegerPortRejected | backend/automation/bank_scraper.py:412-418 | `int('abc')` raises, the handler catches it, and there is no port. |
| Scraper.ParsePortRoundTrip | backend/automation/bank_scraper.py:408-416 | A command line with the flag, then a port, then nothing or a space, gives that port back. |
| Scraper.FindSurvivesAppend | backend/automation/bank_scraper.py:408-416 | The first occurrence of the flag stays first when text is appended. |
| Scraper.SpaceEndsDigits | backend/automation/bank_scraper.py:408-416 | After the port's digits, the slice ends at the next space or at the end of the line. |
| Scraper.FlagThenPort | backend/automation/bank_scraper.py:408-416 | The flag followed by a port and nothing else gives that port. |
| Scraper.FindDebuggerPort | backend/automation/bank_scraper.py:387-422 | As written: the answer is the first common port, in order, that answers. It is none iff no common port answers, whatever the command line says. |
| Scraper.FindDebuggerPortIntended | backend/automation/bank_scraper.py:404-416 | Intended: the same when a common port answers; otherwise the port read from the browser's command line. |
| Scraper.CmdlinePortIgnored | backend/automation/bank_scraper.py:404-416 | With no common port answering and `--remote-debugging-port=<n>` on the command line, the code as written finds no port and the intended one finds n. |
| Scraper.SuccessDoc | backend/automation/bank_scraper.py:506-525 | The success dict exists iff `amount` and `receiverIban` are present and the fee is computable. Its details carry both values and the worker's fee. |
| Scraper.Forget | backend/automation/bank_scraper.py:527-537 | The `except` branch removes this run's session id and touches no other. |
| Scraper.PerformTransfer | backend/automation/bank_scraper.py:425-537 | Exactly one of three replies. The OTP checkpoint comes iff the run stops at the OTP page without a code and the handles are readable; it registers the session. Success requires verification and a buildable success dict. Any other path gives the fixed failure dict and forgets a session registered by this run. |
| Scraper.CheckpointDoc | backend/automation/bank_scraper.py:495-505 | The checkpoint asks for an OTP under this run's session id and carries the browser pid. It has no `transactionId`, no `debuggerPort` and no `otpDetected`. |
| Scraper.RunTouchesOnlyItsSession | backend/automation/bank_scraper.py:473-537 | A run changes no session but its own, and its session stays registered iff it ended at the checkpoint. |
| Scraper.TransferDataOf | backend/automation/bank_scraper.py:356-358 | `session_data['transfer_data']` succeeds iff the key is present. |
| Scraper.ContinuationDoc | backend/automation/bank_scraper.py:346-360 | The success dict is built iff the record has `transfer_data` holding a receiver IBAN and an amount the fee rule accepts. It then reports success with this run's transaction id. Without `transfer_data` the KeyError text is `'transfer_data'`. |
| Scraper.SetStatus | backend/automation/bank_scraper.py:337 | A status write changes only this session's entry, and keeps a readable record readable. |
| Scraper.ContinueWithExistingSession | backend/automation/bank_scraper.py:291-385 | A missing or empty record gives 'Session not found' with no status written. A record without `bank_config` raises. Otherwise statuses are written starting with 'failed' or 'processing_otp'. The trail is ['processing_otp', 'completed'] iff the code was submitted and verified and the success dict was built, and then the result is that dict. Any other trail ends in 'failed'. The record is never deleted. |
| Scraper.LiveTrail | backend/automation/bank_scraper.py:310-377 | The statuses written after the record is read, in order. It is never empty, starts with 'failed' or 'processing_otp', completes iff the OTP was verified and the dict built, and otherwise ends in 'failed'. |
| Scraper.LiveResult | backend/automation/bank_scraper.py:310-377 | A completed trail returns the success dict, and any other trail returns `success: False`. A dead browser gives 'Browser session expired'. A raising re-login, OTP submission, success check or success dict gives 'Erro na verificação OTP: ' plus that exception's text. A negative verdict gives its own message, or 'Transfer verification failed after OTP' when that is empty. |
| Scraper.ApplyStatuses | backend/automation/bank_scraper.py:310-377 | Writing the trail's statuses changes only this session's entry, and a readable record stays readable. |
| Scraper.StatusesLand | backend/automation/bank_scraper.py:310-377 | When every write succeeds, the last status of the trail is what the record holds, and the payload fields survive. |
| Scraper.ContinueLiveSession | backend/automation/bank_scraper.py:310-377 | After the record is read, the continuation never raises, and it writes exactly the trail. |
| Scraper.ContinuationStatusLands | backend/automation/bank_scraper.py:291-385 | With successful writes, the session file ends with the last status written: 'completed' on success and 'failed' otherwise. |
| Scraper.RecordId | backend/automation/bank_scraper.py:1046-1047 | The file name handed on is the record's own string `session_id`, or 'None' when that is missing or null. |
| Scraper.Returned | backend/automation/bank_scraper.py:1069-1076 | The continuation's value or exception passes through unchanged. |
| Scraper.SubmitOtpToSession | backend/automation/bank_scraper.py:1029-1076 | As written: an unusable record gives 'Session not found'. It returns None iff the record is usable and the browser is dead. With a live browser and a working driver, the result is the continuation's. Afterwards exactly the readable entries remain. |
| Scraper.SubmitOtpToSessionIntended | backend/automation/bank_scraper.py:1045-1076 | Intended: never returns None. It agrees with the code as written on unusable records and live browsers. |
| Scraper.IntendedReportsExpiry | backend/automation/bank_scraper.py:1045-1076 | On a record the store wrote itself, with a dead browser: the code as written returns None, and the intended code reports 'Browser session expired'. |
| Scraper.Dispatch | backend/automation/bank_scraper.py:1087-1124 | Usage iff argv has fewer than 2 entries. OTP mode iff there are at least 4 entries and argv[2] is 'submit_otp'; the code is argv[4] or ''. 'Invalid JSON input data' iff the JSON argument does not parse. Transfer mode iff it parses to an object holding both keys. |
| Scraper.Main | backend/automation/bank_scraper.py:1087-1132 | The exit status is 0 or 1. A transfer prints the run's reply with 0. An OTP run prints the attempt's dict, or `null` when it returns None, with 0; an escaping exception prints 'Automation error: ...' with 1. Bad input prints its message with 1. |
| Orchestrator.GetActive | backend/services/pythonAutomation.js:269 | A session is found iff a non-object id is a key of the in-memory map, and the entry found is the stored one. |
| Orchestrator.CheckpointRecord | backend/services/pythonAutomation.js:205-216 | The checkpoint record carries the request's bank and transfer data, status 'submit_otp', the time, and `otp_detected` from the worker or false. |
| Orchestrator.CheckpointRecordCarriesHandles | backend/services/pythonAutomation.js:205-216 | The record carries the transaction id, browser pid and URL exactly when the worker reported them. |
| Orchestrator.HandlesCarried | backend/services/pythonAutomation.js:205-216 | The reported handles appear under their file names iff the worker reported them. |
| Orchestrator.FixedKeysLeaveHandles | backend/services/pythonAutomation.js:205-216 | The fixed fields of the record do not overwrite a reported handle. |
| Orchestrator.HandleKeyNotFixed | backend/services/pythonAutomation.js:205-216 | The handle names differ from the five fixed field names. |
| Orchestrator.Outcome | backend/services/pythonAutomation.js:178-261 | Each event settles with one value. A spawn error gives 'Failed to start automation: ...'. A non-zero exit gives 'Automation process failed: ' plus stderr or 'Unknown error'. A clean exit gives the parsed value or 'Failed to parse automation result'. The timer resolves iff the output lacks `"requiresOtp": true`. |
| Orchestrator.Effect | backend/services/pythonAutomation.js:181-219 | A handler never removes a session, and it adds one only for a clean exit reporting a checkpoint, under that checkpoint's id. |
| Orchestrator.Handle | backend/services/pythonAutomation.js:178-261 | Once settled, the promise keeps its value, and a pending one takes the event's outcome. The worker is killed iff the timer fired without the OTP marker. |
| Orchestrator.RunEvents | backend/services/pythonAutomation.js:178-261 | Running the handlers over any events keeps a settled value, keeps a killed worker killed, and never drops a session. |
| Orchestrator.PerformTransfer | backend/services/pythonAutomation.js:147-263 | The promise settles with the first value any handler resolves with, and every session registered before stays registered. |
| Orchestrator.FirstOutcomeWins | backend/services/pythonAutomation.js:178-261 | Over any sequence of events, the promise settles with the first value resolved and never changes after. |
| Orchestrator.SessionsOnlyGrow | backend/services/pythonAutomation.js:181-219 | During a transfer, sessions are only added, and each new one is the id of a checkpoint some clean exit reported. |
| Orchestrator.CheckpointRegisters | backend/services/pythonAutomation.js:181-219 | A clean exit with a string checkpoint id settles with the worker's reply unchanged and does not kill the worker. It registers the session with the request's payload and time, and writes its file. |
| Orchestrator.JsString | backend/services/pythonAutomation.js:321-328 | A string id or code is passed on the command line unchanged. |
| Orchestrator.ChunkReply | backend/services/pythonAutomation.js:345-365 | A parsed non-null first chunk gives its `success` and its `message` or 'OTP verification result received'. Anything else gives success true with the trimmed text as the message. |
| Orchestrator.SubmitOtp | backend/services/pythonAutomation.js:265-396 | A worker is spawned iff the id is in the in-memory map; the file store is not consulted. Otherwise the reply is 'Session expired or not found'. The argv carries the payload, 'submit_otp', the id and the code. The reply is pending iff there is no output. A spawn failure crashes the service with its reason, since the child has no `error` listener. Otherwise the first chunk decides. |
| Orchestrator.NullOutputReadsAsSuccess | backend/services/pythonAutomation.js:345-365 | A worker that prints `null` is reported as a successful verification whose message is the text. |
| Orchestrator.SpawnFailureOnlyReportedByTransfer | backend/services/pythonAutomation.js:241-345 | A worker that cannot be started settles `performTransfer` with 'Failed to start automation: ' and the reason, but takes the service down in `submitOtp`. |
| Orchestrator.CleanupExpiredSessions | backend/services/pythonAutomation.js:402-417 | Removes exactly the sessions older than 300000 ms and keeps all others unchanged. |
| Types.BankJson | src/types/bank.ts:1-34 | The bank object has exactly the seven keys of `Bank`. It carries the id, name, login URL and selectors, and reads back as the same bank. |
| Types.SelectorsJson | src/types/bank.ts:8-33 | The selectors object has exactly the bank's selector names, each mapped to its string. |
| Types.SelectorsOf | src/types/bank.ts:8-33 | A JSON value reads as selectors iff it is an object of strings, and encoding what was read gives the value back. |
| Types.SelectorsRoundTrip | src/types/bank.ts:8-33 | Reading encoded selectors gives them back. |
| Types.EncodeRequest | src/types/bank.ts:36-44 | The posted body carries the bank id and the numeric amount. |
| Types.DecodeRequest | src/types/bank.ts:36-44 | A decoded request's bank id and amount are the body's own. |
| Types.RequestRoundTrip | src/types/bank.ts:36-44 | Decoding an encoded request gives the request back. |
| Server.FlagsOf | backend/server.js:12-13 | Each mode is on iff its variable is exactly the text 'true'. |
| Server.Complete | backend/server.js:55 | A complete body holds each of the five required fields, and none of them is null, false, 0 or the empty string. |
| Server.FindBank | backend/server.js:65-66 | Finds a bank iff some listed id strictly equals the request's `bankId`, and returns the first such bank. |
| Server.HandleTransfer | backend/server.js:40-145 | Any falsy required field gives 400 'Dados de transferência incompletos'. Then an unknown bank gives 400 'Banco não suportado'. Demo mode wins: the checkpoint without a code, the success with one. Real mode calls `submitOtp` iff both the code and the session id are truthy, and otherwise `performTransfer`. Neither mode gives 400 'Sistema não configurado...'. |
| Server.ZeroAmountRejected | backend/server.js:55-62 | An amount of 0 is rejected as incomplete, whatever else the request holds. |
| Server.OtpWithoutCredentialsRejected | backend/server.js:55-62 | An OTP resubmission without username or password is rejected before anything else. |
| Server.DemoFeeMatchesWorker | backend/server.js:102-116 | The demo fee on a numeric amount equals the worker's `calculate_fee`. |
| Server.DemoCheckpoint | backend/server.js:83-95 | The demo checkpoint asks for an OTP. Its session id is 'DEMO_' followed by the milliseconds, which read back as that number. |
| Server.DemoSuccess | backend/server.js:102-116 | The demo success reports success with a fee in its details. The fee is the clamp of a numeric amount, and is null exactly when the amount reads as NaN. |
| Server.DemoSessionIdsDiffer | backend/server.js:83-95 | Demo checkpoints issued at different milliseconds get different session ids. |
| BackendAutomation.FirstError | backend/services/bankAutomation.js:27-54 | No step throws iff every browser step returns. |
| BackendAutomation.FeeOf | backend/services/bankAutomation.js:214-222 | A numeric fee is in [500, 5000], and a numeric amount gives the clamp. |
| BackendAutomation.PerformTransfer | backend/services/bankAutomation.js:27-91 | Success iff no step throws and the success element appears. Then the details carry the request's amount and IBAN when present, and the fee. Otherwise the message is 'Erro na automação: ' plus the first error, or plus 'Transfer verification failed'. |
| FrontendAutomation.PerformTransfer | src/services/bankAutomation.ts:12-43 | Success iff the simulation completes. Then the details carry the request's amount and IBAN and the uncapped fee. Otherwise the result is the fixed credentials failure. |
| AutomationFees.ReportedFeesAgreeIffBelowCap | src/services/bankAutomation.ts:132-138 | On a successful run of each automation for the same request, the reported fees agree iff amount <= 1000000. |
| App.SelectBank | src/App.tsx:29-32 | Goes to the login screen with the chosen bank; nothing else changes. |
| App.Back | src/App.tsx:129-132 | Goes back to the bank list and clears the bank; nothing else changes. |
| App.LoginRequest | src/App.tsx:42-49 | The posted body reads back as a typed request for the chosen bank, with the fixed amount and description and no OTP code. |
| App.SubmitLogin | src/App.tsx:34-75 | Without a bank nothing happens. Otherwise the request is posted and loading ends, at step 3 or 4. A result asking for an OTP goes to the OTP screen, keeping the request and the truthy session id or null. Any other result is shown. A throw, or a `null` result, shows the fixed error. |
| App.SubmitOtp | src/App.tsx:77-105 | Nothing happens unless there are a bank, a pending request and a truthy session id. Otherwise the pending request plus code and session id is posted, and the answer, or the fixed OTP error on a throw, is shown at step 5. |
| App.NewTransfer | src/App.tsx:120-127 | Back to the bank list at step 1, with bank, result, pending request and session id cleared. |
| App.OtpBack | src/App.tsx:134-137 | To the processing view waiting at step 4; nothing else changes. |
| App.InitialWf | src/App.tsx:14-22 | The initial state is well formed. |
| App.Enabled | src/App.tsx:142-178 | The processing view offers only the IBAN load, and the credential and OTP forms are shown only with a bank selected. |
| App.Next | src/App.tsx:24-178 | Only the IBAN load changes the receiver IBAN. Only the two submit handlers post a request, and the login handler always posts once a bank is selected. |
| App.NextPreservesWf | src/App.tsx:142-178 | Every event the rendered screen offers keeps the state well formed. Screens that show a bank have one, the OTP screen has a request, the result screen has a result, and the step is 1 to 5. |
| App.OtpBackIsADeadEnd | src/App.tsx:155-161 | After going back from the OTP form, the processing view offers no event except the IBAN load. |
| App.CheckpointWithoutSessionIdBlocksOtp | src/App.tsx:56-78 | A checkpoint answered without a session id leads to an OTP screen on which submitting a code does nothing. |
| OtpForm.DigitsOf | src/components/OtpForm.tsx:94 | The filter keeps only digits and never lengthens the input. Every digit of the input is kept as often as it occurs. |
| OtpForm.DigitsOfAppend | src/components/OtpForm.tsx:94 | Filtering a concatenation concatenates the filtered parts. |
| OtpForm.DigitsOfDigits | src/components/OtpForm.tsx:94 | A digit string passes the filter unchanged. |
| OtpForm.Sanitize | src/components/OtpForm.tsx:94 | The code is digits only, at most 6 long, and is the prefix of the input's digits of length min(6, their count). |
| OtpForm.SanitizeIdempotent | src/components/OtpForm.tsx:94 | Sanitising twice is sanitising once. |
| OtpForm.SanitizeKeepsCodes | src/components/OtpForm.tsx:94 | A code of at most 6 digits passes through unchanged. |
| OtpForm.GuardIgnoresTimer | src/components/OtpForm.tsx:31-36 | handleSubmit's own guard does not consult the timer. An enabled button implies the form submits, and handleSubmit's guard alone would accept a 4-digit code at time 0, where the button is disabled (otp_form.dfy:93). |
| OtpForm.Tick | src/components/OtpForm.tsx:23-29 | One tick decrements by one and never goes below zero. |
| OtpForm.TicksSaturate | src/components/OtpForm.tsx:23-29 | After n ticks the countdown shows `timeLeft - n`, or 0 once that is spent. |
| OtpForm.Resend | src/components/OtpForm.tsx:135-142 | Resending from an enabled link restarts at 300, which disables the link again. |
| OtpForm.ResendOpensAfterAMinute | src/components/OtpForm.tsx:135-142 | From a fresh countdown, the resend link is disabled exactly during the first 60 ticks. |
| OtpForm.Pad2 | src/components/OtpForm.tsx:41 | Padding gives at least two digits, and exactly two below 100. |
| OtpForm.Pad2Value | src/components/OtpForm.tsx:41 | The padded seconds read back as their value. |
| OtpForm.FormatTime | src/components/OtpForm.tsx:38-42 | The display is at least four characters long. |
| OtpForm.ColonAfterDigits | src/components/OtpForm.tsx:38-42 | The first colon of the display follows the minutes. |
| OtpForm.FormatTimeRoundTrip | src/components/OtpForm.tsx:38-42 | The `m:ss` display parses back to the number of seconds it shows. |
| OtpForm.FormatTimeInjective | src/components/OtpForm.tsx:38-42 | Two different times never display alike. |
| OtpForm.FormatTimeExamples | src/components/OtpForm.tsx:38-42 | 300 shows '5:00', 65 shows '1:05' and 0 shows '0:00'. |
| Pipeline.CheckpointDocProps | backend/automation/bank_scraper.py:473-505 | The worker's checkpoint passes the service's checkpoint test and carries the browser pid, but no `transactionId` and no `otpDetected`. |
| Pipeline.CheckpointRecordOf | backend/services/pythonAutomation.js:205-216 | For such a checkpoint, the service's record has status 'submit_otp', the bank, the pid, no transaction id, and `otp_detected` false. |
| Pipeline.FileRecordOfCheckpoint | backend/services/pythonAutomation.js:18-34 | The file written for that record keeps its id, status, pid and flag, and carries no transaction id. |
| Pipeline.HandOff | backend/services/pythonAutomation.js:181-219 | A reported checkpoint registers the session and leaves a file the worker's OTP run can use: its `session_id` names its own file, its status is 'submit_otp', and it holds the bank and the pid. |
| Pipeline.CheckpointHandOff | backend/automation/bank_scraper.py:473-505 | The same for the checkpoint the worker actually prints. |
| Pipeline.OtpChildDispatch | backend/services/pythonAutomation.js:321-328 | The service's OTP command line is read by the worker's `main` as an OTP submission for that session and code. |
| Pipeline.LoginRequestComplete | backend/server.js:55-62 | The client's login request with non-empty fields passes the server's validation. |
| Pipeline.ResendKeepsRequest | src/App.tsx:85-89 | Adding the code and session id keeps a complete request complete and keeps its bank id. |
| Pipeline.ClientOtpRequestReachesSubmitOtp | backend/server.js:127-133 | In real mode and for a listed bank, the client's OTP request reaches `submitOtp` with the session id the client kept and the code. |
| Pipeline.DeadBrowserPrintsNull | backend/automation/bank_scraper.py:1095-1101 | As written, the worker's OTP run on a usable record whose browser died prints `null` with exit status 0. |
| Pipeline.NullReplyReadsAsSuccess | backend/services/pythonAutomation.js:345-365 | The service reads that `null` line as a successful OTP verification with message 'null'. |
| Pipeline.TrimNull | backend/services/pythonAutomation.js:346 | Trimming the printed line leaves `null`. |
| Pipeline.IntendedDeadBrowserReportedAsFailure | backend/automation/bank_scraper.py:1045-1076 | With the dead browser handled, the client sees a failure with 'Browser session expired'. |
| Pipeline.FailureReplyReadsAsFailure | backend/services/pythonAutomation.js:345-365 | A failure dict printed by the worker reaches the client as a failure with its message. |

## Left out

- Browser and driver steps are oracles that return or raise: `setup_driver`, `login`, the navigation, form filling, confirmation, `submit_otp`, screenshots, and the driver methods of `bankAutomation.js`. Their internals (selectors tried, waits, clicks) are not modelled.
- Scraper.PerformTransfer receives the OTP-page decision as the value of the `confirm` step; `Scraper.DetectOtpRequirement` models that decision on its own. An exception it raises reaches the `confirm` step as 'Failed to confirm transfer: ' plus its text (`backend/automation/bank_scraper.py:770-771`), and that is a value the `confirm` oracle can take. The Banco Atlântico confirmation click at `backend/automation/bank_scraper.py:777-783` is left out, and so is the KeyError of a bank config without `id` or `selectors`.
- The `reconnect_to_existing_session` attempt is the boolean `reconnected`, and the fallback re-login is one step; `submit_otp_to_session`'s new driver is the step `setup`.
- Process spawning and signals: the service sees a worker through its events (spawn error, close with exit code and parsed output, timer firing with the output so far). Chunk boundaries are not modelled: output is the parsed whole, or, for `submitOtp`, the first chunk. The stdin write to the OTP worker is left out.
- `submitOtp`'s `close` handler is attached to the old, already exited process, so it never runs; it is not modelled.
- The worker's threads and queues (`monitor_session`, `otp_queue`, `process_otp_in_session`, `start_otp_monitor_thread`, `cleanup_session`) are concurrency outside the decisions modelled.
- The first definitions of `find_chrome_debugger_port` and `perform_transfer` in `bank_scraper.py` (lines 122 and 159) are shadowed by the later ones, which are the ones modelled.
- The Python `finally` clauses that quit the driver are left out. The `automation_instance` value the worker would store is any value.
- Directory details are left out: directory creation, `readdir` order and temp-file cleanup. A put is one atomic map update. A file that parses to JSON that is not an object is not modelled, and neither is the Node.js asynchronous write's ordering against later reads.
- The legacy `<id>.pkl` removal in `delete_session` (`backend/automation/session_manager.py:135-139`) is left out; a raise there would also make `PySessionStore.DeleteSession` report False.
- Session ids are file names without `.json`; both listings derive them with `replace('.json', '')`, which removes every occurrence of `.json` in the name, not only the suffix. The model keys the directory by the id directly, so a name such as `a.json.b.json` is not modelled.
- A file that is not valid UTF-8 is one `Unreadable` entry for both readers: Python raises, which the model follows, while Node.js would read it with replacement characters and then meet it as corrupt. The model does not distinguish that case.
- `locked` is one set for the whole run: a removal either always raises for an id or never does.
- `JsSessionStore.StoreSessionToFile` is only called with a string session id. A checkpoint whose `sessionId` is not a string registers the in-memory session but writes no file in the model.
- `Orchestrator.JsString` renders a fractional number through its integer part; JavaScript would print the fraction.
- Scraper.RecordId renders any non-string, non-bool `session_id` (numbers, objects) as 'None'; Python would print its `str()`. Records written by either store carry a string id.
- Scraper.ApplyStatuses takes one write outcome, `writeOk`, for every status write of a trail; a trail whose first write fails and whose second succeeds is not modelled.
- Scraper.VerifyTransferSuccess and Scraper.PageMentionsOtp use `Strings.Lower` and `Strings.Capitalize`, which map case only for ASCII and the Latin-1 letters that stay inside Latin-1. Python's full Unicode mapping differs on other letters (for example `ß`, `ÿ` and the Kelvin sign).
- PySessionStore.IsBrowserAlive treats every whole-valued JSON number as an integer pid. A pid written with a fraction part, such as `1234.0`, is a Python float: `os.kill` refuses it with a TypeError, and the bare `except` reports the browser dead. The model's exact reals cannot tell `1234.0` from `1234`, so it asks the process table instead. Records written by either store carry integer pids.
- JsSessionStore.ReadersAgreeOffEmpty rests on one `Entry` classification shared by both readers. Python's `strip()` and JavaScript's `trim()` remove different characters: `strip()` also removes `\x1c`-`\x1f` and `\x85`, and `trim()` also removes `\ufeff`. So a file `"\ufeff{...}"` is a record for Node.js and corrupt for Python, which deletes it, and a file holding only `\x85` is empty for Python and corrupt for Node.js, which deletes it. The model does not give such files two classifications, and the lemma says nothing about them.
- Scraper.ParseDebuggerPort uses `Strings.ParseInt`, which takes an optional sign and ASCII digits only. Python's `int()` also accepts surrounding white space, `_` between digits and non-ASCII decimal digits; a port written so is read as no port.
- `Amounts.JsNumber` reads only blank or plain-digit strings. Decimals, signs, exponents and hex strings are read as NaN, where JavaScript would convert them.
- JSON arrays and NaN are not values of the model. Amounts are exact reals, not IEEE doubles, and `toLocaleString` formatting is left out.
- Clocks, `uuid4`, `Math.random` and the generated transaction ids are parameters, and so is the client's 50% coin for step 4. The simulated delays are left out.
- `src/services/api.ts` is a network client. Its answer, including the failure object it builds on a network or HTTP error, is the `ApiOutcome` input of the client handlers.
- The rendering components (`BankSelector`, `LoginForm`, `ProcessingStatus`, `TransferStatus`) are represented only by which events each screen offers. `src/data/banks.ts` and the server's bank list are a parameter.
- The server's body-parse errors and its 500 branch (`backend/server.js:147-154`) are left out: the automation calls are route results, so nothing in the handler itself throws.

## Findings

| source | as written | input that shows it | evidently intended | confidence | as-written member | corrected member |
|---|---|---|---|---|---|---|
| backend/automation/bank_scraper.py:404-416 | The command-line fallback calls `psutil`, which the module never imports (imports at lines 7-26). The NameError is caught, so the function returns None. | No common port answers, and the browser runs with `--remote-debugging-port=9333`. | Read the port from the browser's command line. | not executed | Scraper.FindDebuggerPort (shown by Scraper.CmdlinePortIgnored) | Scraper.FindDebuggerPortIntended |
| backend/automation/bank_scraper.py:1045-1076 | With a dead browser the `if` has no `else`, so `submit_otp_to_session` returns None. `main` prints `null` with exit status 0, and the service's chunk handler reads a property of `null`, catches the TypeError and reports success with message 'null'. | A usable session file whose `browser_pid` is no longer running, then an OTP submission for it. | Report 'Browser session expired' as a failure and mark the session failed, as `continue_with_existing_session` does. | not executed | Scraper.SubmitOtpToSession (shown by Pipeline.DeadBrowserPrintsNull and Pipeline.NullReplyReadsAsSuccess) | Scraper.SubmitOtpToSessionIntended (proved by Scraper.IntendedReportsExpiry and Pipeline.IntendedDeadBrowserReportedAsFailure) |

`Scraper.Main` models the worker as written and so uses `Scraper.SubmitOtpToSession`. The intended version is stated beside it, together with the end-to-end property that it would repair.
