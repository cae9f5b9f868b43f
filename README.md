# lhm chunked copy, modelled in Dafny

This project models the core of lhm's online table migration: the engine that
copies rows from the origin table to the new table in primary-key chunks.
It has four parts.

- **The chunker** (`Chunker`, `chunker.dfy`) models `Chunker#execute`. A cursor
  walks the origin table's primary key from `start` to `limit`. On each pass the
  chunker:
  - asks the throttler for a stride;
  - clamps the upper-id answer to `limit`;
  - lets the verifier veto the copy;
  - inserts the chunk;
  - inspects the server's warnings when fewer rows arrived than the range spans;
  - throttles;
  - advances the cursor to `top + 1`;
  - notifies the printer and the progress tracker.

  The chunker's `run` follows the Command template. Its state hooks end the run
  in `copying_done` or `copying_failed`.
- **Progress and Speedometer** (`progress.dfy`, `speedometer.dfy`).
  - The progress record holds the row counter and the bytes, percentage and
    speed derived from it. It also holds the migration state and the snapshots
    handed to the printer.
  - The speedometer keeps a time-ordered sample log trimmed to a trailing
    window plus one anchor sample. Its speed is the slope of a least-squares fit.
- **The reconnect helper** (`ReconnectHelper`, `reconnect_helper.dfy`).
  - Every attempt first checks that the server uuid is still the one seen at
    start-up.
  - An error whose message names a lost connection starts the reconnect
    procedure. Reaching the same server raises a "reconnected" signal that the
    outer retry policy retries. Any other outcome is fatal.
- **The Command template** (`Command`, `command.dfy`). `run` calls a fixed
  sequence of hooks. A rescued exception runs the revert hooks and is raised
  again.

How the outside world appears in the model:
- Every database answer, the throttler, the verifier and the clock are inputs:
  - for the chunker, an `Env` value;
  - for the reconnect helper, a `Database` whose `script` gives the reply to
    each request in order;
  - for `run`, a map from each hook to the error it raises.
- What the code does to the outside is recorded as a sequence of effects or
  requests, in order: inserts, logged warnings, throttling, printer calls,
  progress snapshots, hook calls, SQL statements and reconnections.
- Exceptions are `Error` values. Each carries its Ruby class and its message.
  `IsStandardError` says which ones a bare `rescue` catches.

The sources cited below are the repository's `lib/lhm/*.rb` files, its
`spec/unit/progress_spec.rb` unit tests, and the default retry configuration in
`lib/lhm/connection.rb`.

## Model

| member | source | states |
|---|---|---|
| Chunker.DuplicatePrimaryWarning | lib/lhm/chunker.rb:98 | Every MySQL duplicate-entry warning on key 'PRIMARY' matches the skip pattern, for any non-empty one-line key value. |
| Chunker.SecondaryKeyDuplicateIsUnexpected | lib/lhm/chunker.rb:98 | A duplicate-entry warning on any key other than PRIMARY does not match the pattern, so it is treated as unexpected. This holds for every value and key name without a capital P. |
| Chunker.UnexpectedMembers | lib/lhm/chunker.rb:97-103 | A message is reported exactly when it is one of the server's warnings and is not a primary-key duplicate. |
| Chunker.UnexpectedPrefix | lib/lhm/chunker.rb:97-103 | The filter keeps the warnings' order: the unexpected messages of a prefix are a prefix of the unexpected messages. |
| Chunker.FirstUnexpected | lib/lhm/chunker.rb:101 | The message the loop raises at is the first unexpected message of the whole reply. |
| Chunker.Warnings | lib/lhm/chunker.rb:99-100 | One "Unexpected warning found for inserted row" log entry per message, in order. |
| Chunker.UpperId | lib/lhm/chunker.rb:121 | The top never exceeds `limit`. It is the id found, or `limit` when none was found, and never above the id found. |
| Chunker.PlannedInRange | lib/lhm/chunker.rb:117-122 | If the upper-id query returns ids at or above the cursor, every chunk from a cursor within the limit satisfies bottom <= top <= limit. |
| Chunker.VerifyCanRun | lib/lhm/chunker.rb:110-115 | Raises exactly when a verifier is configured and either raises or answers false. Its own error passes through unchanged, and a false answer becomes a RuntimeError. |
| Chunker.NoticesOf | lib/lhm/chunker.rb:70-71 | The printer's k-th notice is the id after the k-th chunk's top, together with `limit`. |
| Chunker.BetweenParts | lib/lhm/chunker.rb:52-68 | When at least `top - bottom + 1` rows arrived, no warnings are logged. Otherwise only the unexpected warnings are logged, followed by the throttler call exactly when the `throttled` flag holds; `AfterInsert` sets that flag to "there is a throttler and rows arrived". |
| Chunker.RoundFilters | lib/lhm/chunker.rb:51-71 | A completed pass inserts exactly its chunk and notifies the printer once, with `top + 1` and `limit`. |
| Chunker.ContiguousDisjoint | lib/lhm/chunker.rb:70-74 | Chunks that each start after the previous top are ordered and never overlap. |
| Chunker.ContiguousCovers | lib/lhm/chunker.rb:70-74 | Those chunks leave no id out between `start` and the last top. |
| Chunker.CopiedPass | lib/lhm/chunker.rb:46-75 | A completed pass extends the copy record: one more contiguous chunk in range, determined by the collaborators and notified. |
| Chunker.CopiedFail | lib/lhm/chunker.rb:46-79 | A pass that raises leaves the record valid, with at most one inserted chunk that was never notified. |
| Chunker.ExecutePathHooks | lib/lhm/command.rb:19-31 | Once validation passes, `run` calls validate, the copying state hook and execute. It then calls the done hook, or the revert hooks when execute raised, and it raises what execute raised. |
| Chunker.ValidationFailureHooks | lib/lhm/command.rb:11-31 | A validation error on a non-empty table runs only the revert hooks and is raised again. Execute never runs. |
| Chunker.Chunker.constructor | lib/lhm/chunker.rb:19-37 | Copies `start` and `limit` and the collaborators. `raise_on_warnings` defaults to false. |
| Chunker.Chunker.AfterInsertError | lib/lhm/chunker.rb:62-68 | The checks after an insert raise a StandardError only: with rows missing, nothing is raised only if `show warnings` answered and, when warnings are fatal, no warning was unexpected. With a throttler and rows inserted, nothing is raised only if `throttler.run` did not raise. |
| Chunker.Chunker.PassChunk | lib/lhm/chunker.rb:47-51 | A pass that reaches its insert works on the chunk from the cursor to the clamped upper id, with the rows the insert created: a chunk determined by the collaborators. |
| Chunker.Chunker.PassError | lib/lhm/chunker.rb:46-68 | What one pass raises, in source order: NoMethodError without a throttler, then the upper-id query, the verifier, the insert and the after-insert checks. Every error is a StandardError. A pass that does not reach a successful insert always raises, and a pass that raises nothing passed the after-insert checks. |
| Chunker.Chunker.RaiseOnNonPkDuplicateWarning | lib/lhm/chunker.rb:96-104 | Logs one warning per unexpected message, in order. It raises Lhm::Error at the first one exactly when warnings are fatal and one exists, having logged just that one. A failing `show warnings` is re-raised. |
| Chunker.Chunker.Locate | lib/lhm/chunker.rb:47-49 | The chunk top is the clamped upper id, between the cursor and `limit`. It fails exactly on a missing throttler, a failing query or a verifier veto, and its error is what `PassError` names for the pass. |
| Chunker.Chunker.AfterInsert | lib/lhm/chunker.rb:62-68 | Warnings are inspected only when rows are missing, and the throttler runs only when there is a throttler and rows arrived. Nothing is inserted or notified. It raises exactly `AfterInsertError`: the warnings error or first fatal unexpected warning, else the throttler's error, else nothing. |
| Chunker.Chunker.Advance | lib/lhm/chunker.rb:70-72 | The cursor moves to `top + 1` before the printer is notified with that value. The progress tracker adds the chunk's rows, and its state and key range are unchanged. |
| Chunker.Chunker.FinishChunk | lib/lhm/chunker.rb:62-72 | The rest of a pass after the insert. It raises exactly `AfterInsertError`. On success: warnings, then throttle, then the notice of `top + 1`, with the cursor and progress advanced. On failure: nothing notified, and the cursor and progress unchanged. |
| Chunker.Chunker.CopyChunk | lib/lhm/chunker.rb:47-72 | One pass from the cursor. It raises exactly `PassError` at the cursor. On success its effects are exactly insert, warnings, throttle and notice for a chunk with bottom <= top <= limit determined by the collaborators. On failure nothing is notified, the cursor stays, and the chunk is inserted exactly when throttler, query, verifier and insert all went through. |
| Chunker.Chunker.Pass | lib/lhm/chunker.rb:46-75 | One iteration keeps the loop invariant, in which every completed chunk raised nothing. The cursor strictly grows and stays at most `limit + 1`. A failing iteration raises `PassError` at the cursor, after the completed chunks. |
| Chunker.Chunker.CopyLoop | lib/lhm/chunker.rb:45-75 | The chunks are contiguous from `start`, within `limit`, and end at `limit` on success. None are copied when `start > limit` and at most one when `start == limit`. Every completed chunk is notified, passed every check, and its rows are counted by the progress tracker. An error is exactly `PassError` where the completed chunks end, and that chunk is inserted exactly when its insert went through. |
| Chunker.Chunker.Execute | lib/lhm/chunker.rb:39-80 | An empty table returns before any progress update, stride, insert or printer call. Otherwise the statistics are read and the key range is recorded, then the copy runs. `printer.end` follows on success; on failure the error reaches `printer.exception` and is raised unchanged. With readable statistics, an error is exactly `PassError` of the first pass that did not complete (`Executed`). |
| Chunker.Chunker.Rescue | lib/lhm/chunker.rb:77-79 | The error is passed to `printer.exception` when the printer has it, and is raised unchanged. |
| Chunker.Chunker.Revert | lib/lhm/chunker.rb:90-92 | The revert state hook moves progress to `copying_failed` and reports it. The default `revert` does nothing, and the error is raised again. |
| Chunker.Chunker.Run | lib/lhm/command.rb:9-32 | The hooks follow the Command template. The run succeeds exactly when progress ends in `copying_done`, at 100 percent, and fails exactly when it ends in `copying_failed`. On the execute path the first new snapshot is `copying`, and `Executed` holds: a completed copy ends its chunks at `limit`; a failed one raises the statistics error, or `PassError` of the first pass that did not complete. A validation failure copies nothing and leaves the effects unchanged. |
| Chunker.Chunker.RunRejected | lib/lhm/command.rb:11-31 | A validation failure on a non-empty table: the trace and the raised error follow the Command template, progress ends in `copying_failed` with one new snapshot, and nothing reaches the table or the printer. |
| Chunker.Chunker.RunExecute | lib/lhm/chunker.rb:82-88 | The execute path: the `copying` snapshot, the copy, then `copying_done` or the revert hooks and `copying_failed`. It raises what execute raised. An unreadable statistics row raises that error with no chunk copied. Otherwise an error is `PassError` of the first pass that did not complete, and a completed copy ends its contiguous chunks at `limit` and ends with `printer.end`. |
| Chunker.Chunker.ExecuteThenFinish | lib/lhm/command.rb:20-30 | Execute and then the done hook, or the revert hooks when it raised. The copy it made is the one `Executed` describes, so a raised error is the statistics error or `PassError` of the first pass that did not complete. |
| Chunker.Chunker.Finish | lib/lhm/chunker.rb:86-92 | After execute: the done hook on success, otherwise the revert hooks. Either way one snapshot is reported. |
| Chunker.Chunker.FirstPassFailure | lib/lhm/chunker.rb:46-79 | When the first pass raises before its insert, `execute` raises that pass's error. Nothing is inserted or notified, and the printer hears of the error when it handles exceptions. |
| Chunker.Chunker.VerifierVetoAtStart | lib/lhm/chunker.rb:110-115 | A verifier that answers false for the first chunk makes `execute` raise "Verification failed, aborting early". Nothing is inserted, and `printer.exception` gets the error when the printer has it. |
| Command.FirstRaise | lib/lhm/command.rb:11-22 | Gives the position of the first hook that raises: every hook before it completes. |
| Command.RaiseError | lib/lhm/command.rb:73-75 | `error(msg)` raises an Lhm::Error, which is a StandardError, carrying `msg`. |
| Command.Command.constructor | lib/lhm/command.rb:8-9 | A command starts with no hooks called. |
| Command.Command.Call | lib/lhm/command.rb:36-71 | Calling a hook records it and fails exactly when that hook raises. |
| Command.Command.Then | lib/lhm/command.rb:11-22 | The next hook runs only while no earlier hook has raised. |
| Command.Command.Body | lib/lhm/command.rb:11-25 | Runs the main hooks in order and stops at the first one that raises. |
| Command.Command.Run | lib/lhm/command.rb:9-32 | The trace is exactly `RunTrace` and the raised error exactly `RunRaises`. Without a block the result is execute's value; with a block it is nil, the value of the default `update_state_after_block`. |
| Command.ValidateRunsFirst | lib/lhm/command.rb:10-11 | `validate` is always the first hook called. |
| Command.SuccessfulRun | lib/lhm/command.rb:13-25 | When no hook raises, the trace is exactly before, the block state hook, the block, after and the state hook, or the execute-path hooks. Nothing is raised. |
| Command.FailedRunReverts | lib/lhm/command.rb:26-31 | A StandardError from any main hook, validate included, is followed by `update_state_when_revert` and then `revert`, and that original error is raised again. |
| Command.UncaughtErrorSkipsRevert | lib/lhm/command.rb:26 | An exception that is not a StandardError skips the revert hooks and propagates. |
| Command.RevertErrorReplaces | lib/lhm/command.rb:28-31 | An error raised by a revert hook replaces the original one. |
| Command.DefaultRunRaisesNotImplemented | lib/lhm/command.rb:36-65 | With the default hooks and no block, execute raises NotImplementedError naming the class. It is not rescued, so no revert hook runs. |
| Command.DefaultRunWithBlock | lib/lhm/command.rb:13-18 | With the default hooks and a block, every hook runs and nothing is raised. |
| Command.ValidationErrorReverts | lib/lhm/command.rb:11-31 | A validation that calls `error(msg)` reverts and raises an Lhm::Error with `msg`. |
| Progress.StateNamesDistinct | lib/lhm/progress.rb:5-14 | The ten state names are pairwise different. |
| Progress.PercentageInRange | lib/lhm/progress.rb:56 | Up to the maximum key, the percentage is finite and between 0 and 100. |
| Progress.PercentageDefinedIff | lib/lhm/progress.rb:56 | The percentage is finite exactly when a non-zero maximum key is known. |
| Progress.HalfWay | spec/unit/progress_spec.rb:69 | 2000 rows of 4000 give 50.0. |
| Progress.AllWritten | lib/lhm/progress.rb:56 | As many rows as the maximum key gives 100.0. |
| Progress.Progress.constructor | lib/lhm/progress.rb:17-35 | The state is `initial` and every counter is zero. The throttler and switcher names and the five-minute default window are set, and the speedometer holds one zero sample. |
| Progress.Progress.UpdateBeforeCopy | lib/lhm/progress.rb:46-50 | Records the table statistics, then `min_pk_key = start` and `max_pk_key = limit`. A failing statistics query, or a missing row (`nil[0]`), raises and leaves the key range unchanged. |
| Progress.Progress.UpdateDuringCopy | lib/lhm/progress.rb:52-66 | Adds the rows. Bytes are rows times the average row length, and the percentage is rows over the maximum key. Logs the bytes in the speedometer and takes its speed. Reports a snapshot exactly when 60 seconds have passed or logging is verbose. |
| Progress.Progress.UpdateState | lib/lhm/progress.rb:68-73 | Sets the state, forcing 100 percent on `copying_done`, and reports one snapshot. |
| Progress.CopyProgressExample | spec/unit/progress_spec.rb:56-80 | Statistics (20, 80000), range 1..4000, `copying`, then 2000 rows give the two expected snapshots. The first is in `copying` at 0 rows and 0.0 percent. The second has 2000 rows, 40000 bytes and 50.0 percent, keeps the statistics and the key range, and has no speed (the empty copy speed the test expects). |
| Progress.StateExample | spec/unit/progress_spec.rb:84-106 | A new record is `initial`. `copying` and then `copying_done` report two snapshots, the second at 100 percent. |
| Speedometer.FirstInWindow | lib/lhm/progress.rb:172 | The first sample within the window: every earlier one is outside it. |
| Speedometer.TrimKeepsOneAnchor | lib/lhm/progress.rb:160-175 | After `<<` the new sample is last, every retained sample but the first is within the window, only samples outside it are dropped, and exactly one anchor outside it is kept when any was dropped. |
| Speedometer.AppendInsideWindow | lib/lhm/progress.rb:172-174 | When the oldest sample is still within the window, nothing is dropped. |
| Speedometer.AppendDropsOne | lib/lhm/progress.rb:172-174 | When exactly two samples fall outside the window, only the older one is dropped. |
| Speedometer.FirstInWindowUnique | lib/lhm/progress.rb:172 | The `find_index` position is the only index meeting its definition. |
| Speedometer.Linregress | lib/lhm/progress.rb:120-147 | The five running sums give the least-squares fit. Different lengths raise ArgumentError. |
| Speedometer.SpreadZeroIffAllEqual | lib/lhm/progress.rb:138-141 | The denominator is never negative, and is zero exactly when all x values are equal, which is when the fit is singular. |
| Speedometer.LeastSquaresFitsLine | lib/lhm/progress.rb:138-146 | Points on a line `y = a x + b` with two distinct x values fit exactly slope `a` and intercept `b`. |
| Speedometer.FitOfLine | lib/lhm/progress.rb:143-144 | The closed-form slope and intercept recover `a` and `b` from the sums of a line. |
| Speedometer.Round2 | lib/lhm/progress.rb:194 | The result is within 0.005 of the value. |
| Speedometer.SpeedDefinedIff | lib/lhm/progress.rb:177-194 | Speed is reported exactly when two samples have different times. |
| Speedometer.SameClockNoSpeed | lib/lhm/progress.rb:193 | Samples that all share one clock reading give no speed. |
| Speedometer.SteadyRateIsReported | lib/lhm/progress.rb:177-194 | Values growing at a steady whole rate report exactly that rate. |
| Speedometer.Speedometer.constructor | lib/lhm/progress.rb:149-158 | A new speedometer holds exactly one sample, the initial value. |
| Speedometer.Speedometer.Append | lib/lhm/progress.rb:160-175 | `<<` leaves the trimmed log of the old log plus the new sample: at least two samples, the new one last, still in clock order. |
| Speedometer.Speedometer.Speed | lib/lhm/progress.rb:177-195 | `speed` is nil with fewer than two samples or a singular fit, and otherwise the fitted slope rounded to hundredths. |
| Speedometer.FreshHasNoSpeed | spec/unit/progress_spec.rb:24-26 | A new speedometer reports no speed. |
| Speedometer.TwoPointSpeed | spec/unit/progress_spec.rb:28-33 | Values 0 and 10, ten seconds apart, give speed 1.0. |
| Speedometer.WindowExample | spec/unit/progress_spec.rb:35-47 | Samples at 10, 20, 30, 40, 300, 610 and 620 with a 600-second window keep 6 samples, the first with value 716, and the speed is 34.78. |
| Speedometer.WindowSamples | spec/unit/progress_spec.rb:38-44 | The log those samples leave. |
| Speedometer.WindowTrace | spec/unit/progress_spec.rb:36-41 | The log after each sample of that example. |
| Speedometer.ExampleSums | lib/lhm/progress.rb:130-136 | The five sums of the example's retained samples. |
| Speedometer.ExampleFit | lib/lhm/progress.rb:138-144 | The example's fit is not singular and its slope rounds to 34.78. |
| Speedometer.ExampleSpeed | spec/unit/progress_spec.rb:46 | The speed of the example's log is 34.78. |
| ReconnectHelper.ReconnectRetriesIff | lib/lhm/reconnect_helper.rb:104-110 | The reconnect loop retries exactly the StandardErrors reporting a lost initial communication packet. |
| ReconnectHelper.AbortIsFinal | lib/lhm/reconnect_helper.rb:26-36 | The wrong-host abort is not reconnect-class and is not retried under `default_retry_config`, so it ends the run under that configuration. |
| ReconnectHelper.AbortIsNotReconnectClass | lib/lhm/reconnect_helper.rb:91-102 | The abort message contains none of the five reconnect patterns. |
| ReconnectHelper.AbortIsNotRetried | lib/lhm/connection.rb:61-76 | The abort message contains none of the retry patterns of `default_retry_config`. |
| ReconnectHelper.SuccessSignalRetriedByDefault | lib/lhm/connection.rb:73-75 | The "reconnected" signal is retried under `default_retry_config`. |
| ReconnectHelper.AnnotatedProbeIsSameStatement | lib/lhm/reconnect_helper.rb:52-54 | The annotated probe is the plain `SELECT <name> LIMIT 1` once the server drops the leading comment. |
| ReconnectHelper.AnnotatedProbeAsWrittenIsNotSelect | lib/lhm/reconnect_helper.rb:54 | As written, the annotated probe does not start with SELECT and is not the plain probe. |
| ReconnectHelper.SuccessMessageAsWrittenOmitsUuid | lib/lhm/reconnect_helper.rb:74 | As written, the "reconnected" message is the same whatever the host and uuid. |
| ReconnectHelper.SuccessMessageNamesHost | lib/lhm/reconnect_helper.rb:74 | The corrected message starts with the success text and names the initial host and uuid. |
| ReconnectHelper.WrongHostMessageAsWrittenOmitsUuids | lib/lhm/reconnect_helper.rb:77 | As written, the wrong-host message names neither uuid. |
| ReconnectHelper.WrongHostMessageNamesBoth | lib/lhm/reconnect_helper.rb:77 | The corrected message names the uuid the migration started on and the one reached. |
| ReconnectHelper.ReconnectVerdict | lib/lhm/reconnect_helper.rb:80-87 | The signal is raised again unchanged. Any other error is wrapped as "LHM tried the reconnection procedure but failed" with its message. |
| ReconnectHelper.Database.constructor | lib/lhm/reconnect_helper.rb:17 | A connection with its replies and no requests yet. |
| ReconnectHelper.Database.Execute | lib/lhm/reconnect_helper.rb:56-57 | Records the statement and answers with the next reply. |
| ReconnectHelper.Database.Reconnect | lib/lhm/reconnect_helper.rb:70 | Records a reconnection, which fails when the next reply is an error. |
| ReconnectHelper.Connection.constructor | lib/lhm/reconnect_helper.rb:15-17 | No uuid or hostname captured yet, and ProxySQL off. |
| ReconnectHelper.Connection.SingleValue | lib/lhm/reconnect_helper.rb:52-59 | Sends `SELECT <name> LIMIT 1`, annotated when asked, and returns the first column of the first row or nil. |
| ReconnectHelper.Connection.InitializeReconnectHelper | lib/lhm/reconnect_helper.rb:15-50 | Captures the uuid, then the hostname, then tests the version comment for "(ProxySQL)". Each probe's error propagates, and a nil comment fails on `include?`. |
| ReconnectHelper.Connection.SameHostAsInitial | lib/lhm/reconnect_helper.rb:61-63 | Probes only the server uuid, never the hostname, and compares it with the uuid captured at start-up. |
| ReconnectHelper.Connection.ReconnectTry | lib/lhm/reconnect_helper.rb:69-78 | Reconnects once, then raises the "reconnected" signal on the initial server, or the wrong-host error after probing the hostname on any other. What it raises and how many requests it made are exactly `TryOutcome` of the replies. |
| ReconnectHelper.Connection.ReconnectWithHostCheck | lib/lhm/reconnect_helper.rb:65-120 | At most 20 reconnect tries, one reconnection each. Every try but the last was retried. The result is the signal or the "tried but failed" error built from the last one. Each try raised what the replies to its own requests dictate and starts where the one before ended; the verdict, the requests used and the number of tries are exactly those of `ReconnectLoop`. |
| ReconnectHelper.Connection.RunOnce | lib/lhm/reconnect_helper.rb:27-35 | Checks the uuid first. A different server aborts without running the statement. An error that is not reconnect-class is raised unchanged with no reconnection. A reconnect-class error runs the reconnect procedure and raises its outcome. The outcome and the requests used are exactly `AttemptOutcome` of the replies. |
| ReconnectHelper.Connection.Block | lib/lhm/reconnect_helper.rb:27-28 | The uuid probe, then the statement on the initial server only; the outcome is exactly `Checked` of the replies. |
| ReconnectHelper.Connection.Rescue | lib/lhm/reconnect_helper.rb:29-34 | The rescue clause: the outcome is exactly `RescuedOutcome`; a reconnect-class error starts with a reconnection and ends in one of the two reconnect outcomes. |
| ReconnectHelper.Connection.WithRetriesAndReconnect | lib/lhm/reconnect_helper.rb:26-36 | At most `tries` attempts under the configured policy. Every attempt but the last failed with a retried error, each attempt begins with the uuid check and on the initial server sends the statement next, and a final failure before the limit is one the policy does not retry. Each attempt's outcome is what the replies to its own requests dictate and starts where the one before ended; the result, the requests used and the number of attempts are exactly those of `RetryLoop`. |
| ReconnectHelper.TryOutcome | lib/lhm/reconnect_helper.rb:69-78 | One try of the reconnect block uses one to three requests. A failed reconnection raises its own error after one request, and the only "reconnected" signal a try raises is the corrected one, naming the start-up host and uuid (see Findings). |
| ReconnectHelper.ReconnectLoop | lib/lhm/reconnect_helper.rb:66-88 | The reconnect loop takes between one and 20 tries and at least one request; a signal it ends with is the corrected one, naming the start-up host and uuid (see Findings); ending before the 20th try means the last error is not one the loop retries. |
| ReconnectHelper.ReconnectLoopNext | lib/lhm/reconnect_helper.rb:66-79 | A retried try hands over to the next try where its requests ended. |
| ReconnectHelper.ReconnectLoopLast | lib/lhm/reconnect_helper.rb:66-79 | A try the loop does not retry ends the loop with what it raised. |
| ReconnectHelper.Checked | lib/lhm/reconnect_helper.rb:27-28 | The block before the rescue succeeds exactly when the uuid probe answers the start-up uuid and the statement answers; it uses two requests on the initial server and one otherwise, and never raises the "reconnected" signal. |
| ReconnectHelper.RescuedOutcome | lib/lhm/reconnect_helper.rb:29-34 | The rescue always raises. It raises the error itself, with no further request, exactly when the error cannot trigger a reconnect; a signal it raises is the corrected one, naming the start-up host and uuid (see Findings). |
| ReconnectHelper.AttemptOutcome | lib/lhm/reconnect_helper.rb:27-35 | One attempt uses at least one request; it succeeds only on the initial server with an answering statement; a signal it raises is the corrected one, naming the start-up host and uuid (see Findings). |
| ReconnectHelper.RetryLoop | lib/lhm/reconnect_helper.rb:26-36 | The outer retry takes between one and `tries` attempts; a failure before the limit is one the policy does not retry. |
| ReconnectHelper.RetryLoopNext | lib/lhm/reconnect_helper.rb:26-36 | A retried attempt hands over to the next attempt where its requests ended. |
| ReconnectHelper.RetryLoopLast | lib/lhm/reconnect_helper.rb:26-36 | An attempt the policy does not retry ends the retry with its outcome. |
| ReconnectHelper.WrongServerAborts | lib/lhm/reconnect_helper.rb:27-28 | Under `default_retry_config`, a uuid probe that answers another server's uuid ends the whole retry at once with the abort, after that one request. |
| ReconnectHelper.ReconnectedRunsAgain | lib/lhm/reconnect_helper.rb:80-84 | An attempt that raises the "reconnected" signal is followed, while tries of `default_retry_config` remain, by another attempt starting where it ended. |
| ReconnectHelper.WrongHostEndsReconnect | lib/lhm/reconnect_helper.rb:75-87 | A reconnect try that reaches another server and reads its hostname ends the loop after three requests with the wrong-host error, unless that error is itself retried; the attempt then fails with an Lhm::Error. |

## Left out

- Clocks. `Time.now` becomes an integer clock reading (whole seconds) passed in by
  the caller. The chunker reads it once per chunk through `Env.clock`. Ruby
  subtracts `Time` values as floats with sub-second precision.
- Floating point.
  - The regression sums are exact integers and the quotients exact reals.
    `round(2)` rounds exact reals, halves away from zero, without
    binary-float representation error.
  - A non-finite percentage (division by a zero or missing maximum key) is
    `None`. So is a nil speed.
- `as_hash` formatting and `Lhm::VERSION`. A snapshot keeps the record's values
  but not their text ("% complete", "bytes/sec"), the version, or the table
  names.
- Logging. `Lhm.logger` calls other than the unexpected-warning log
  (lib/lhm/chunker.rb:100, recorded as the `Warned` effect) are not modelled.
  This covers:
  - the chunker's once-a-minute progress line (lib/lhm/chunker.rb:54-60);
  - `run`'s start line and its error log before reverting
    (lib/lhm/command.rb:10 and 27);
  - the reconnect notice "Lost connection to MySQL, will retry to connect to
    same host" (lib/lhm/reconnect_helper.rb:66, through `log_with_prefix`);
  - Retriable's `on_retry` log.
- The printer. Its calls are recorded as effects and its output is not
  modelled. lib/lhm/printer.rb is not part of this model: the model assumes a
  printer that accepts `notify(bottom, limit)` and `notify_progress`.
- Retriable internals. Backoff intervals, `multiplier`, `rand_factor`, sleeps
  and `max_elapsed_time` are left out. A policy is the classes and message
  patterns it retries on, plus the number of tries.
- The retries inside `SqlRetry` around the verifier, the statistics query and
  `show warnings`. Each is one answer in `Env`, taken after those retries.
- SQL. `ChunkFinder`, `ChunkInsert`, the upper-id select, `show warnings` and
  the `information_schema` query are oracles in `Env`. Chunker.Sound states the
  property the upper-id query's `where id >= next_id` guarantees: every id it
  finds is at or above the cursor.
- The throttler's `connection=` assignment (lib/lhm/chunker.rb:27). Only whether
  a throttler exists is modelled, together with its stride and what `run`
  raises. Without one, `stride` on nil raises NoMethodError, as the source does.
- The value `execute` returns (that of `printer.end`). Chunker.Chunker.Run
  returns only what it raises. Command.Command.Run returns the value it is
  given.
- `reconnect_successful?`, called at lib/lhm/reconnect_helper.rb:84, is defined
  neither in that module nor in lib/lhm/connection.rb, which includes it. It is
  read as "the error is a ReconnectToHostSuccessful".
- `@connection&.execute` on a nil connection is not modelled: the connection
  always exists.
- lib/lhm/connection.rb is used only for its `default_retry_config`. That
  configuration applies only when `retry_options` is passed as nil
  (lib/lhm/connection.rb:11): the parameter's default `{}` is truthy in Ruby.
  `WithRetriesAndReconnect` takes the configuration as a parameter.
- Command.Command.Run: with a block it returns nil, the value of the default
  `update_state_after_block` (lib/lhm/command.rb:18). A class that overrides
  that hook returns its value instead; the model does not cover overrides.
- ReconnectHelper.Connection.SingleValue: sends `ProbeQuery`, the annotation
  as a leading SQL comment, not the as-written `prepend` (see Findings).
- ReconnectHelper.Connection.ReconnectTry: raises the corrected "reconnected"
  and wrong-host messages, which name the captured host and uuid, not the
  as-written ones (see Findings). ReconnectWithHostCheck, RunOnce and
  WithRetriesAndReconnect inherit both corrections.
- ReconnectHelper.TryOutcome: specifies the corrected "reconnected" and
  wrong-host messages, not the as-written ones (see Findings).
- ReconnectHelper.ReconnectLoop: its signal is the corrected message (see Findings).
- ReconnectHelper.RescuedOutcome: its signal is the corrected message (see Findings).
- ReconnectHelper.AttemptOutcome: its signal is the corrected message (see Findings).
- Chunker.Chunker.Execute: the statistics row is a pair of integers. A database
  that returns a row of another shape is not modelled.

## Findings

| source | as written | input that shows it | evidently intended | confidence | as-written member | corrected member |
|---|---|---|---|---|---|---|
| lib/lhm/reconnect_helper.rb:54 | `prepend("maintenance:lhm")` glues the annotation to the statement: "maintenance:lhmSELECT @@global.server_uuid LIMIT 1" | ProxySQL on, any probe name | the annotation as a leading SQL comment, so the server still runs the plain SELECT | not executed; medium | ReconnectHelper.AnnotatedProbeAsWrittenIsNotSelect | ReconnectHelper.AnnotatedProbeIsSameStatement |
| lib/lhm/reconnect_helper.rb:74 | interpolates `@initial_host` and `@initial_server_id`, which are never assigned (lines 18-19 set `@initial_hostname` and `@initial_server_uuid`), so both print empty | host "db-1", uuid "abc": the message names neither | the message names the initial host and uuid | not executed; high | ReconnectHelper.SuccessMessageAsWrittenOmitsUuid | ReconnectHelper.SuccessMessageNamesHost |
| lib/lhm/reconnect_helper.rb:77 | the same unassigned variables, and the new server's uuid printed as `@initial_server_id` | any two uuid pairs give the same message; with uuid "xyz", "xyz" does not appear in it | the message names the initial and the new host and uuid | not executed; high | ReconnectHelper.WrongHostMessageAsWrittenOmitsUuids | ReconnectHelper.WrongHostMessageNamesBoth |
