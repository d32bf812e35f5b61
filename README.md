# Infinario Python SDK: a verified model of the client core

This project models, in Dafny, the core of `infinario.py`, the Python client of the Infinario
tracking API:

- **Buffered asynchronous delivery** (`AsynchronousTransport` and its `Worker` thread). Tracked
  commands are buffered. A worker sends them in bulk when a flush is pending, when more than 50
  are waiting, or when the oldest is overdue. It then reconciles the positional per-command
  statuses of the bulk response against the buffer. The shared state (`buffer`, `flush`, `stop`)
  is a Dafny class; the worker is a sequential loop over it (`Run`, `SendBulk`, `Reconcile`).
- **Response classification** in `SynchronousTransport._send`. A response becomes a returned
  envelope, a raised error, or a logged error when `no_raise` is set.
- **Target URL normalisation** in `_InfinarioBase.__init__`. The regular expression
  `^(?:(https?:)?//)?([^/]+)(/*)$` is modelled with Python's matching order and the rule that
  `$` may match before a final newline.
- **Argument conversion and payloads**: `_convert_customer_argument`,
  `_convert_timestamp_argument`, and the JSON messages built by `identify`, `update` and `track`.

Files: `wrappers.dfy` (Option, Result), `values.dfy` (JSON documents, Python argument values),
`errors.dfy` (the exceptions), `sync_transport.dfy`, `target.dfy`, `client.dfy`,
`async_transport.dfy`.

Modelling choices:

- Time is integer ticks supplied by the caller.
- The HTTP exchange is an abstract `Response`: connection failure, or status + text + decoded body.
- Python objects passed as arguments are the `PyValue` datatype.
- Exceptions are `Err` values of `Errors.Error`.
- The model follows the code as written:
  - status 500 gives `ServiceUnavailable`, and every other failing status but 401 gives
    `InvalidRequest`;
  - a connection failure re-raises `ConnectionError` as is;
  - `success` is tested for Python truthiness, so a truthy `success` returns the envelope even
    with status 500;
  - a body that is not a JSON object raises even when `no_raise` is set, because `response.json()`
    or `.get` fails before the check;
  - an explicit `http:` scheme is kept;
  - a command is overdue only when strictly more than one tick old;
  - `flush()` on an empty buffer is not a no-op: the flag stays set, so the next command is sent
    at once;
  - a `results` value that is an empty object or an empty string has length 0, so every position
    reads as "retry";
  - commands appended during a bulk send are dropped (see Findings).

## Model

| member | source | states |
|---|---|---|
| Values.Truthy | infinario.py:98 | the falsy JSON values are exactly null, false, 0, 0.0, the empty string, the empty list and the empty object |
| SyncTransport.Fail | infinario.py:84-88 | a failure is logged (returning None) exactly when `no_raise` is set, and raised otherwise, with the same error |
| SyncTransport.Envelope | infinario.py:96 | the decoded body is an envelope exactly when it is a JSON object, and the envelope is that object's fields |
| SyncTransport.Send | infinario.py:75-111 | a connection failure gives ConnectionError, logged or raised by `no_raise`; 401 gives AuthenticationError(text) before the body is read; a body that is not a JSON object raises MalformedResponse even under `no_raise`; the envelope is returned iff status is not 401, the body is a JSON object and its `success` is truthy, whatever the status; otherwise 500 gives ServiceUnavailable and any other status gives InvalidRequest(errors, default []) |
| SyncTransport.SendAndReceive | infinario.py:113-114 | never silent: it returns exactly what the silent send returns (the response's own envelope), and raises the very error the silent send would log or raise |
| SyncTransport.SendAndIgnore | infinario.py:116-117 | with a logger it raises exactly when the body is unreadable; without one it raises exactly when send_and_receive would not return, with the same error |
| SyncTransport.NoRaiseOnlySilences | infinario.py:83-111 | for every response, `no_raise` keeps the returned envelope and turns each raised error, except an unreadable body, into the same error logged |
| Target.RunLength | infinario.py:238 | a greedy run: every character it covers is (or is not) a slash, and the next one, if any, is not (or is) |
| Target.HostFormRuns | infinario.py:238 | any split of a text into host, slashes and an optional final newline is the one the two greedy runs find |
| Target.MatchHost | infinario.py:238 | the host group is a non-empty slash-free prefix followed only by slashes (and a final newline after at least one slash); when there is no such split, there is no match |
| Target.TryPrefix | infinario.py:238 | one alternative of the pattern: a host exactly when the text is the literal prefix, a host and slashes, and none otherwise |
| Target.MatchTarget | infinario.py:238 | a match has a non-empty slash-free host spelled by one of the four alternatives, with scheme "https:" or "http:" exactly for the scheme alternatives; no match exactly when none of the four spells the text |
| Target.Normalise | infinario.py:236-246 | a falsy target gives the default URL; a successful result is always canonical (http or https scheme, slash-free host, one trailing slash); it fails exactly when the target does not match, with ValueError without a logger and AttributeError (`match.group` on None) with one |
| Target.RebuiltIsCanonical | infinario.py:244 | rebuilding a matched host with an http or https scheme always gives a canonical URL |
| Target.NonSlashRun | infinario.py:238 | the greedy host run stops at the first slash |
| Target.SlashRun | infinario.py:238 | the greedy slash run stops at the first non-slash |
| Target.HostThenSlashes | infinario.py:238 | a host followed by any number of slashes matches with that host: all trailing slashes collapse |
| Target.TrailingNewlineDropped | infinario.py:238 | Python's `$` accepts a final newline after at least one slash, and the newline is dropped |
| Target.NoHostInSlashes | infinario.py:238 | text of slashes alone has no host |
| Target.NotPrefixAt | infinario.py:238 | a text that differs from a prefix at some position does not start with it |
| Target.MatchBare | infinario.py:238 | a bare host (with slashes) is matched by the prefix-less alternative, with no scheme |
| Target.MatchDoubleSlash | infinario.py:238 | "//host" is matched with no scheme |
| Target.MatchHttps | infinario.py:238 | "https://host" is matched with scheme "https:" |
| Target.MatchHttp | infinario.py:238 | "http://host" is matched with scheme "http:" |
| Target.NormaliseRejectsInnerSlash | infinario.py:238-241 | "ab/c" does not match, because of the `(/*)$` anchor, so the constructor raises ValueError |
| Target.NormaliseMatched | infinario.py:244 | a matched target becomes (scheme or "https:") + "//" + host + "/" |
| Target.NormaliseAcceptedForms | infinario.py:237-244 | host, //host, https://host and http://host, each with any trailing slashes, normalise to https://host/, except http://host/ for an explicit http scheme |
| Target.DefaultIsCanonical | infinario.py:28 | the default target is itself canonical |
| Target.NormaliseCanonical | infinario.py:237-244 | a canonical target is left unchanged |
| Target.NormaliseIdempotent | infinario.py:236-246 | normalising a normalised target gives the same string, with or without a logger |
| Target.NormaliseSchemeRelative | test_infinario_sdk.py:32 | "//nope" becomes "https://nope/" |
| Target.NormaliseBareHost | test_infinario_sdk.py:46 | "nope/" becomes "https://nope/" |
| Client.ConvertCustomer | infinario.py:366-374 | None gives {}, a string s gives {"registered": s}, a dict is kept, anything else is a ValueError |
| Client.ConvertTimestamp | infinario.py:376-385 | None gives None, numbers (bool included) pass unchanged, an object with timestamp() gives what it returns, anything else is a ValueError naming the value |
| Client.Configure | infinario.py:285-300 | a logger exists exactly in silent mode; the client holds the normalised target and converted customer; a bad target fails with its own error before the customer is looked at, and a customer that cannot be converted then gives ValueError |
| Client.Update | infinario.py:312-321 | a crm/customers message with exactly ids, project_id and the given properties |
| Client.Track | infinario.py:323-337 | a crm/events message with customer_ids, project_id, type, properties (default {}), plus timestamp exactly when one other than None is given; an unconvertible timestamp raises before anything is sent |
| Client.Identify | infinario.py:302-310 | the customer changes only when it converts, otherwise ValueError; an update of the new customer is produced exactly when properties are given |
| Client.ScenarioConfigure | test_infinario_sdk.py:32 | the test's client has token "t", no customer and target https://nope/ |
| Client.ScenarioMessages | test_infinario_sdk.py:33-44 | the four messages the synchronous test expects, in order |
| Client.TimestampScenarios | test_infinario_sdk.py:61-78 | 10 and 10.1 pass, an object returning 123 gives 123, 'a string' is refused |
| AsyncTransport.Decide | infinario.py:172-184 | send iff (buffer non-empty and flush) or more than 50 buffered or the oldest is strictly more than 1 tick old; otherwise exit iff stopped, else wait for the oldest's remaining time (non-negative), or forever when empty |
| AsyncTransport.StoppedWorkerDrains | infinario.py:177-183 | once stopped with a flush pending, the worker sends while anything is buffered and exits exactly on an empty buffer |
| AsyncTransport.TimeoutIsStrict | infinario.py:174-177 | a command exactly one tick old is not yet overdue; one tick later it is sent |
| AsyncTransport.PendingFlushSendsNextCommand | infinario.py:177-180 | a flush requested on an empty buffer sends nothing, and makes the next buffered command go out at once |
| AsyncTransport.CommandJson | infinario.py:152 | a buffered command is an object with exactly the keys name, data and scheduled, holding the service, the message and the enqueue time |
| AsyncTransport.BulkMessage | infinario.py:190 | the bulk request is an object whose only key, `commands`, holds the JSON of the given commands |
| AsyncTransport.Batch | infinario.py:190 | the bulk request carries the first min(n, 50) commands, in FIFO order |
| AsyncTransport.CommandsJson | infinario.py:190 | one JSON command per buffered command, same order |
| AsyncTransport.StatusAt | infinario.py:201 | a position past the results reads "retry"; otherwise the result's `status`, or "missing" when it has none |
| AsyncTransport.VerdictAt | infinario.py:201-210 | a position past the results is retried; "ok" is delivered, "retry" retried, any other status a failure carrying that status and the result's `errors` (default []) |
| AsyncTransport.Leftovers | infinario.py:199-206 | the loop's retry filter, never longer than the snapshot; which commands it keeps is stated by LeftoversAreRetried |
| AsyncTransport.Settled | infinario.py:199-210 | the commands that leave the buffer; with the leftovers they account for the whole snapshot in number (LeftoversAndSettledPartition gives the multiset) |
| AsyncTransport.Failures | infinario.py:205-210 | the loop's failure reports, at most one per position; which ones is stated by FailuresAreFailed |
| AsyncTransport.Positions | infinario.py:199 | the positions kept are increasing, in range, and exactly those whose verdict qualifies |
| AsyncTransport.LeftoversAreRetried | infinario.py:199-206 | the leftovers are exactly the commands at the retried positions, in their original relative order |
| AsyncTransport.FailuresAreFailed | infinario.py:205-210 | one failure report per failed position, in order, with that position's status and errors |
| AsyncTransport.LeftoversAndSettledPartition | infinario.py:199-210 | every snapshot command is either kept for retry or settled (delivered or failed), none twice |
| AsyncTransport.RetriedSuffixKept | infinario.py:201-206 | a run of retried positions at the end is kept whole, in order |
| AsyncTransport.SettledSuffixDropped | infinario.py:201-204 | a run of settled positions at the end adds nothing to the leftovers |
| AsyncTransport.UnansweredTailKept | infinario.py:189-201 | positions beyond the results (the unsent tail past 50 among them) all survive, after the answered positions' leftovers |
| AsyncTransport.StatusOnly | infinario.py:201 | a result holding only a status gives that status |
| AsyncTransport.EightyCommandsScenario | infinario.py:189-218 | 80 commands answered 20 ok + 30 retry: the request carries 50, the last 60 remain, and the next request carries 50 of them |
| AsyncTransport.Reconciled | infinario.py:218 | as written, the new buffer is built from the snapshot alone and is never longer than it, whatever was appended during the send |
| AsyncTransport.ReconciledKeepingAppended | infinario.py:218 | corrected: the new buffer ends with exactly the commands appended during the send, in order |
| AsyncTransport.AsWrittenLosesAppended | infinario.py:218 | as written, the commands appended during the send are neither kept nor settled: fewer commands remain accounted for than were buffered |
| AsyncTransport.NoCommandLost | infinario.py:199-218 | corrected reconciliation: every buffered command is kept or settled, and retried commands precede those appended during the send |
| AsyncTransport.ReconcileVariantsAgree | infinario.py:189-218 | with nothing appended during the send, the as-written and the corrected reconciliation agree |
| AsyncTransport.ReconciledFromBuffer | infinario.py:199-218 | the reconciliation never invents or duplicates a command |
| AsyncTransport.SortOutcomes | infinario.py:194-210 | the loop over the snapshot positions yields exactly the leftovers and the failure reports |
| AsyncTransport.BulkResults | infinario.py:195-201 | the results cannot be read exactly when `results` is missing, or reading a snapshot position raises (a non-object entry of a list, any position of a non-empty object or string, a value without `len`); a list gives its first min(length, positions) entries in order; an empty object or string gives no results |
| AsyncTransport.BulkSend | infinario.py:188-218 | one `_send_bulk`: the worker survives exactly when the request returns, the results can be read and there is a logger or no failure; a failed request ends it with the error `send_and_receive` raised, unreadable results with MalformedResponse; a crash leaves the buffer untouched and logs nothing; without a logger a failed command crashes with ServiceUnavailable; the buffer never gains a command |
| AsyncTransport.BulkSendRaisesFirstFailure | infinario.py:212-216 | without a logger, the first failed command ends the worker with ServiceUnavailable carrying that command's report, the buffer untouched and nothing logged |
| AsyncTransport.BulkSendDelivered | infinario.py:197-218 | a surviving bulk send leaves the snapshot's leftovers and logs its failure reports |
| AsyncTransport.WorkerRun | infinario.py:169-186 | the stop invariant is kept; with nothing due the run exits (stopped) or waits for the decided timeout, changing nothing; with a send due and a reply, the first message is the bulk message of the oldest 50; one message per reply at most |
| AsyncTransport.AfterSend | infinario.py:177-180 | the send branch: at least one message, the first being the bulk message of the oldest 50, and the stop invariant kept |
| AsyncTransport.WorkerRunCrashes | infinario.py:177-178 | a bulk send that raises ends the run with that error, after its one message, buffer and flag unchanged |
| AsyncTransport.WorkerRunContinues | infinario.py:177-180 | a surviving bulk send is followed by the run from the reconciled buffer, flush cleared exactly on an empty buffer |
| AsyncTransport.WorkerRunStops | infinario.py:181-184 | with nothing due the run exits when stopped and waits otherwise; with a send due but no reply it is left sending |
| AsyncTransport.WorkerRunEnds | infinario.py:169-186 | a run exits only when stopped with an empty buffer, waits only when not stopped and nothing is due, is left sending only when every reply was used, and crashes only after a message was sent |
| AsyncTransport.WorkerRunKeeps | infinario.py:169-218 | a run never adds a command, logs only with a logger, never sets the flush flag, and clears it only once the buffer has drained |
| AsyncTransport.SingleDeliveredSend | infinario.py:177-218 | one due request answered with readable results: the buffer becomes the leftovers, the failures are logged, flush is cleared iff the buffer drained, and the run then ends as the worker decides |
| AsyncTransport.AsynchronousTransport.constructor | infinario.py:136-146 | an empty buffer with both flags clear |
| AsyncTransport.AsynchronousTransport.Enqueue | infinario.py:151-161 | after stop: ValueError and the buffer is unchanged; otherwise exactly one command, stamped now, appended at the end; flags unchanged |
| AsyncTransport.AsynchronousTransport.Flush | infinario.py:223-226 | sets flush and changes nothing else |
| AsyncTransport.AsynchronousTransport.Stop | infinario.py:228-232 | sets stop and flush, buffer unchanged |
| AsyncTransport.AsynchronousTransport.Snapshot | infinario.py:189-190 | the number of buffered commands and the bulk message of the first 50 |
| AsyncTransport.AsynchronousTransport.Reconcile | infinario.py:197-218 | with a logger, every failure is logged and the buffer becomes the snapshot's leftovers (commands appended meanwhile are dropped); without one, the first failure raises ServiceUnavailable and the buffer is left unreplaced; the flags are unchanged |
| AsyncTransport.AsynchronousTransport.ReconcileKeepingAppended | infinario.py:218 | corrected reconciliation: as Reconcile, but the leftovers go back ahead of the commands appended meanwhile |
| AsyncTransport.AsynchronousTransport.SendBulk | infinario.py:188-218 | sends the bulk message of the first 50 commands, and leaves exactly the buffer, the logged failures and the crash that BulkSend gives for the reply |
| AsyncTransport.AsynchronousTransport.SendDue | infinario.py:177-180 | the loop's send branch: a crash ends the run there; otherwise the run is this message followed by the run from the new state on the remaining replies |
| AsyncTransport.AsynchronousTransport.Step | infinario.py:172-180 | one sending pass keeps "the whole run is what was sent and logged so far, then the run from here" |
| AsyncTransport.AsynchronousTransport.Run | infinario.py:169-186 | the loop's messages, logged failures, end, final buffer and flag are exactly those of WorkerRun, so everything proved of WorkerRun (WorkerRunEnds, WorkerRunKeeps, SingleDeliveredSend) holds of the loop |

## Left out

- Threads and locking: `threading.Condition`, `wait`/`notify`, the lazy `Worker().start()` and the
  unsynchronised `_worker_running` flag. The worker is a sequential loop. The window in which the
  lock is released for the network call is modelled by letting `Reconcile` see a buffer that grew
  after `Snapshot`. Two consequences are not modelled. After the worker raises on a failed
  command, it dies holding the lock, so later producers block. And a stop that races with the
  unlocked stop check in `_ensure_lazy_worker` can still append a command.
- Real HTTP and JSON encoding (`requests.Session.post`, `json.dumps`, `response.json()`): a
  response is an abstract record whose body is already decoded. Request URLs, query parameters and
  headers are not modelled.
- Wall-clock floating-point time: integer ticks. `Run` keeps the clock fixed during one run.
- Logging: the failure reports the worker logs are returned in `logged`, and a `_send` failure
  logged under `no_raise` is `Logged(error)`. The `logger.error` call for a target that does not
  match (infinario.py:241) is not modelled: with a logger, `Normalise` gives only the
  AttributeError that follows it. The text of log and exception messages is left out; the error
  value carries their content.
- Python's `repr` of values inside messages is not modelled; `CannotConvertTimestamp` carries the
  value itself.
- `bytes` customer identifiers (part of `basestring` on Python 3) and dictionaries with non-string
  keys are not represented.
- `NullTransport`, `AuthenticatedInfinario.export_analysis`, `get_html`, `Infinario.flush`/`close`
  (which only forward to the transport) and the command-line entry point: thin wrappers around
  modelled operations or I/O.
- The test's `secret=` argument and `get_segment` call do not exist in this `infinario.py`; the
  scenario lemmas use the rest of that test.
- AsyncTransport.AsynchronousTransport.Run: replies are a finite list, so a run ends in `Sending`
  when the list is exhausted, where the thread would block in the network call. The run is
  stated through `WorkerRun`, which assumes no producer runs during it.

## Findings

| source | as written | input that shows it | evidently intended | confidence | as-written member | corrected member |
|---|---|---|---|---|---|---|
| infinario.py:218 | `data.buffer = leftovers` replaces the whole buffer with the snapshot's leftovers | a command enqueued by a producer after the snapshot (line 189) and before the lock is taken again (line 197) | keep the leftovers, followed by the commands appended while the request was in flight | high; not executed | AsyncTransport.AsWrittenLosesAppended | AsyncTransport.NoCommandLost |

The worker loop `Run` calls the as-written `Reconcile`. No producer runs inside `Run`, and with
nothing appended the two reconciliations coincide (`ReconcileVariantsAgree`). The corrected
class method is `ReconcileKeepingAppended`.
