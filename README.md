# A verified model of the MariaDB Connector/J prepared-statement core

This project models three pieces of client-side logic of MariaDB
Connector/J, the JDBC driver for MariaDB and MySQL:

* **The server-side prepared statement** (`ServerPreparedStatement`):
  * how it runs one execute, either pipelined (COM_STMT_PREPARE and
    COM_STMT_EXECUTE in one write) or standard (PREPARE, then EXECUTE);
  * how it runs a batch, in one of three ways: windows of at most 250
    EXECUTEs (the first led by a PREPARE when no prepared statement is
    held), one COM_STMT_BULK_EXECUTE, or one exchange per entry (used for
    `LOAD DATA LOCAL INFILE`);
  * the parameter check, the batch snapshots taken by `addBatch`, and how
    the held prepared statement is released on `close` and by the
    max-rows and timeout setters.
* **The `mysql_native_password` authentication method**
  (`NativePasswordPlugin`): the scramble
  SHA1(pw) XOR SHA1(seed ++ SHA1(SHA1(pw))), the empty response for a
  missing password, and the removal of the seed's trailing NUL.
* **The COM_QUERY message** (`QueryPacket`): command byte 0x03 followed
  by the SQL text, and the case-insensitive `COMMIT` test.

Modules, one file each:

* `wire.dfy` (`Wire`): bytes, `Option`, `Result`.
* `text.dfy` (`Text`): ASCII upper-casing, substring and prefix tests.
* `query_packet.dfy` (`QueryMessage`): a packet writer that records what it
  flushes, and the `QueryPacket` class.
* `native_password.dfy` (`NativePassword`): the scramble as a function,
  `encryptPassword` as a method with its loop over a fresh array, the
  server's side of the check, and the plugin class, whose functions `Type`
  and `Name` are the plugin's `type()` and `name()`.
* `protocol.dfy` (`Protocol`): messages, completions, errors, and the
  `Connection` class. A connection holds:
  * the server, as a total function from the messages of one exchange to
    a reply;
  * the prepare cache, as a map from command text to prepared statement;
  * a use counter per prepared statement;
  * a log of every exchange written.
* `batching.dfy` (`Batching`): the batch pipeline and the per-entry batch
  as functions from the server and the batch to a trace, with the window
  arithmetic and the lemmas about both.
* `dispatch.dfy` (`Dispatch`): these decisions as pure functions, with
  lemmas about each:
  * the preparable-command pattern and the parameter check;
  * the single execute;
  * the bulk predicate and the choice of batch path.
* `server_prepared_statement.dfy` (`ServerPrepared`): the statement as a
  class whose fields the methods update. Each method is proved against
  the functions of `Batching` and `Dispatch`. A method that changes the
  statement or the connection states in its `ensures`, on every branch,
  each field it may change, the exchanges appended to the connection's
  log and the new use counts, and that the prepare cache is unchanged.

How the environment is modelled:

* **Server.** The server is a parameter of the connection. Every reply
  that succeeds carries at least one completion per message written, so
  `res.subList(1, ..)` and `res.get(0)` are always defined. The lemmas
  that line completions up with batch entries (`RunBunchesAligned`,
  `PipelineAligned`, `Pipeline501`, `WindowsReportFailure`) assume a
  stronger server, one that answers each message with exactly one
  completion; a statement answering with several (a `CALL` returning
  result sets) breaks that alignment in the driver too.
* **SHA-1** (FIPS 180-4). It is a parameter: an arbitrary function
  returning 20 bytes.
* **String-to-bytes conversion.** The packet writer's conversion of a
  string to bytes by the connection's character set is a parameter too.
* **Handing over a prepared statement.** The client code that gives a
  prepare result to the statement is not part of this model. It is
  modelled by `Adopted`: after an exchange that began with a PREPARE and
  succeeded, the statement takes the prepared statement in the first
  completion, if there is one, and counts one use of it.

## Model

| member | source | states |
|---|---|---|
| Text.AsciiUpper | src/main/java/org/mariadb/jdbc/ServerPreparedStatement.java:169 | (definition) same length; each ASCII lower-case letter becomes upper case and every other character is kept |
| QueryMessage.PacketWriter.InitPacket | src/main/java/org/mariadb/jdbc/message/client/QueryPacket.java:42 | starts an empty packet; flushed packets unchanged |
| QueryMessage.PacketWriter.WriteByte | src/main/java/org/mariadb/jdbc/message/client/QueryPacket.java:43 | appends one byte to the packet being built |
| QueryMessage.PacketWriter.WriteString | src/main/java/org/mariadb/jdbc/message/client/QueryPacket.java:44 | appends the encoded string to the packet being built |
| QueryMessage.PacketWriter.Flush | src/main/java/org/mariadb/jdbc/message/client/QueryPacket.java:45 | the packet being built joins the flushed packets; the buffer is empty again |
| QueryMessage.ParseCommand | src/main/java/org/mariadb/jdbc/message/client/QueryPacket.java:43-44 | the inverse of the writes at these lines, which the round-trip lemma uses: reads a payload back as command byte and body; fails exactly on the empty payload; byte followed by body rebuilds the payload |
| QueryMessage.QueryPayload | src/main/java/org/mariadb/jdbc/message/client/QueryPacket.java:42-45 | (definition) the payload of the one packet `encode` flushes: 0x03, then the encoded SQL text; `QueryPayloadParses` and `QueryPacket.Encode` state its meaning |
| QueryMessage.IsCommitText | src/main/java/org/mariadb/jdbc/message/client/QueryPacket.java:49-51 | (definition) `"COMMIT".equalsIgnoreCase(sql)` char by char, as Java compares; `IsCommitAscii` and `IsCommitExamples` state its meaning |
| QueryMessage.QueryPayloadParses | src/main/java/org/mariadb/jdbc/message/client/QueryPacket.java:41-47 | a COM_QUERY payload parses back to command 0x03 and exactly the encoded SQL text |
| QueryMessage.IsCommitAscii | src/main/java/org/mariadb/jdbc/message/client/QueryPacket.java:49-51 | on ASCII text, the COMMIT test holds if and only if the text upper-cases to "COMMIT" |
| QueryMessage.IsCommitExamples | src/main/java/org/mariadb/jdbc/message/client/QueryPacket.java:49-51 | "commit", "CoMmIt" and "COMMIT" pass, and so do "comm" followed by dotless i (U+0131) and "COMM" followed by capital I with dot above (U+0130), then "t"/"T"; "COMMIT WORK", "COMMIT ", "" and "ROLLBACK" do not |
| QueryMessage.QueryPacket.constructor | src/main/java/org/mariadb/jdbc/message/client/QueryPacket.java:30-34 | the SQL text is stored as given |
| QueryMessage.QueryPacket.BatchUpdateLength | src/main/java/org/mariadb/jdbc/message/client/QueryPacket.java:36-38 | always 1 |
| QueryMessage.QueryPacket.Description | src/main/java/org/mariadb/jdbc/message/client/QueryPacket.java:53-55 | the SQL text given to the constructor, unchanged |
| QueryMessage.QueryPacket.IsCommit | src/main/java/org/mariadb/jdbc/message/client/QueryPacket.java:49-51 | (definition) the COMMIT test of the stored SQL text |
| QueryMessage.QueryPacket.Encode | src/main/java/org/mariadb/jdbc/message/client/QueryPacket.java:41-47 | exactly one packet is flushed, 0x03 followed by the encoded SQL; nothing is left in the buffer; returns 1 |
| NativePassword.Xor | src/main/java/org/mariadb/jdbc/plugin/authentication/standard/NativePasswordPlugin.java:78-82 | (definition) a digest whose byte i is a[i] XOR b[i], for every i below 20 |
| NativePassword.XorInvolution | src/main/java/org/mariadb/jdbc/plugin/authentication/standard/NativePasswordPlugin.java:79-81 | masking twice with the same digest gives the original back |
| NativePassword.Scramble | src/main/java/org/mariadb/jdbc/plugin/authentication/standard/NativePasswordPlugin.java:58-83 | empty exactly when the password is empty; otherwise 20 bytes |
| NativePassword.Credential | src/main/java/org/mariadb/jdbc/plugin/authentication/standard/NativePasswordPlugin.java:61-63 | (definition) an absent password stands for the empty one; a present one for itself |
| NativePassword.EncryptPassword | src/main/java/org/mariadb/jdbc/plugin/authentication/standard/NativePasswordPlugin.java:58-83 | the loop's output is the scramble of the password and seed, so it depends on them and the hash only; it is empty exactly for an absent or empty password |
| NativePassword.TruncateSeed | src/main/java/org/mariadb/jdbc/plugin/authentication/standard/NativePasswordPlugin.java:124-130 | an empty seed stays empty; a non-empty one loses exactly its last byte |
| NativePassword.ServerRecoversStage1 | src/main/java/org/mariadb/jdbc/plugin/authentication/standard/NativePasswordPlugin.java:68-81 | unmasking the response with SHA1(seed ++ SHA1(SHA1(pw))) yields SHA1(pw) exactly |
| NativePassword.ServerAcceptsScramble | src/main/java/org/mariadb/jdbc/plugin/authentication/standard/NativePasswordPlugin.java:47-51 | a server storing SHA1(SHA1(pw)) accepts the response of a client that knows pw, for every seed |
| NativePassword.NativePasswordPlugin.constructor | src/main/java/org/mariadb/jdbc/plugin/authentication/standard/NativePasswordPlugin.java:41-42 | no credential before `initialize`; the seed, null in the source, is modelled as empty and is never read before `initialize` |
| NativePassword.NativePasswordPlugin.Initialize | src/main/java/org/mariadb/jdbc/plugin/authentication/standard/NativePasswordPlugin.java:102-105 | stores exactly the credential and the seed given |
| NativePassword.NativePasswordPlugin.Process | src/main/java/org/mariadb/jdbc/plugin/authentication/standard/NativePasswordPlugin.java:117-132 | an empty packet for an absent or empty credential; otherwise the 20-byte scramble over the seed without its last byte |
| NativePassword.NativePasswordPlugin.Type | src/main/java/org/mariadb/jdbc/plugin/authentication/standard/NativePasswordPlugin.java:91-93 | (definition) the constant `mysql_native_password` |
| NativePassword.NativePasswordPlugin.Name | src/main/java/org/mariadb/jdbc/plugin/authentication/standard/NativePasswordPlugin.java:86-88 | (definition) the constant `mysql native password` |
| Protocol.Acquired | src/main/java/org/mariadb/jdbc/ServerPreparedStatement.java:74 | one more use of the statement taken; every other count unchanged |
| Protocol.Released | src/main/java/org/mariadb/jdbc/ServerPreparedStatement.java:352 | one use fewer of the statement released, never below 0; every other count unchanged |
| Protocol.HoldingTwice | src/main/java/org/mariadb/jdbc/ServerPreparedStatement.java:297-302 | for a holder that keeps a statement once it has one, counting uses step by step equals counting them once over the whole run |
| Protocol.Lookup | src/main/java/org/mariadb/jdbc/ServerPreparedStatement.java:74 | (definition) finds a statement exactly when the command is cached, and then the cached one |
| Protocol.Connection.Exchange | src/main/java/org/mariadb/jdbc/ServerPreparedStatement.java:244-253 | the reply is the server's answer to the messages, which are appended to the log as one exchange; cache and uses unchanged |
| Protocol.Connection.GetPrepareCacheCmd | src/main/java/org/mariadb/jdbc/ServerPreparedStatement.java:94 | the cached statement for the command, if any, with one use counted for it; nothing written |
| Protocol.Connection.Acquire | src/main/java/org/mariadb/jdbc/ServerPreparedStatement.java:119-130 | one use counted for a statement just prepared; nothing written |
| Protocol.Connection.DecrementUse | src/main/java/org/mariadb/jdbc/ServerPreparedStatement.java:352 | one use fewer; COM_STMT_CLOSE written exactly when no use remains and the cache no longer holds the statement |
| Protocol.Connection.constructor | src/main/java/org/mariadb/jdbc/ServerPreparedStatement.java:166-195 | a connection with the server, the capabilities and options these lines read, and the cache given; no use counted and nothing written |
| Batching.Executes | src/main/java/org/mariadb/jdbc/ServerPreparedStatement.java:239-243 | (definition) `count` messages; message k is the EXECUTE of entry index + k |
| Batching.WindowCount | src/main/java/org/mariadb/jdbc/ServerPreparedStatement.java:237 | (definition) `Math.min(size - index, maxCmd)`, the window size computed here and again at line 258, and 0 once `index` has passed the end; `LoopSizesClosedForm` and `WindowSizesCover` state its meaning |
| Batching.Bunch | src/main/java/org/mariadb/jdbc/ServerPreparedStatement.java:236-243 | (definition) the window `executeBunch` sends from `index`; `BunchFromSlots`, `ExecutesCarry` and `LoopWindowsCarry` state its meaning |
| Batching.BunchPrepare | src/main/java/org/mariadb/jdbc/ServerPreparedStatement.java:256-264 | (definition) the PREPARE followed by the window from `index` with a null statement; `BunchPrepareFromSlots` and `PlanCarriesBatch` state its meaning |
| Batching.LoopWindows | src/main/java/org/mariadb/jdbc/ServerPreparedStatement.java:224-227 | (definition) the windows of the `while` loop from `index`; `LoopWindowsCarry` states its meaning |
| Batching.Plan | src/main/java/org/mariadb/jdbc/ServerPreparedStatement.java:216-227 | (definition) every window of the pipeline when all succeed; `PlanCarriesBatch` states its meaning |
| Batching.RunBunches | src/main/java/org/mariadb/jdbc/ServerPreparedStatement.java:224-232 | (definition) the `while` loop against the server, stopping at the first failing window; `RunBunchesFollowsPlan` and `RunBunchesAligned` state its meaning |
| Batching.RunPipeline | src/main/java/org/mariadb/jdbc/ServerPreparedStatement.java:211-234 | (definition) `executeBatchPipeline` after its cache lookup; `PipelineFollowsPlan`, `PipelineAligned` and `Pipeline501` state its meaning |
| Batching.RunStandard | src/main/java/org/mariadb/jdbc/ServerPreparedStatement.java:290-316 | (definition) the loop of `executeBatchStandard` from entry `index`; the `Standard..` lemmas below state its meaning |
| Batching.BunchFromSlots | src/main/java/org/mariadb/jdbc/ServerPreparedStatement.java:237-243 | an array filled slot by slot with the EXECUTEs of the window's entries is the window `executeBunch` sends |
| Batching.BunchPrepareFromSlots | src/main/java/org/mariadb/jdbc/ServerPreparedStatement.java:258-264 | an array with the PREPARE in slot 0 and EXECUTEs with a null statement for entries index.. in slots 1..n is the first window |
| Batching.StripPrepare | src/main/java/org/mariadb/jdbc/ServerPreparedStatement.java:277-281 | a leading prepare result is dropped and the rest kept in order; any other reply is returned whole |
| Batching.Adopted | src/main/java/org/mariadb/jdbc/ServerPreparedStatement.java:220-222 | (definition) a statement is taken exactly when the first completion is a prepare result, and it is that one |
| Batching.LoopSizesClosedForm | src/main/java/org/mariadb/jdbc/ServerPreparedStatement.java:224-227 | from `index`, the loop writes ceil((size - index) / 250) windows; window k holds min(size - index - 250k, 250) entries, between 1 and 250; they add up to size - index |
| Batching.PrepareKeepsWindows | src/main/java/org/mariadb/jdbc/ServerPreparedStatement.java:220-227 | with a non-empty batch, the PREPARE-led first window moves no window boundary; with an empty batch the PREPARE is still written alone |
| Batching.WindowSizesCover | src/main/java/org/mariadb/jdbc/ServerPreparedStatement.java:216-227 | window k holds min(size - 250k, 250) EXECUTEs; the sizes add up to the batch size; their number is ceil(size / 250) (one for an empty batch led by a PREPARE) |
| Batching.WindowsOf501 | src/main/java/org/mariadb/jdbc/ServerPreparedStatement.java:216-227 | 501 entries give windows of 250, 250 and 1, with or without a held statement |
| Batching.ExecutesCarry | src/main/java/org/mariadb/jdbc/ServerPreparedStatement.java:239-243 | a window of `count` EXECUTEs carries exactly entries index .. index + count - 1, in order |
| Batching.LoopWindowsCarry | src/main/java/org/mariadb/jdbc/ServerPreparedStatement.java:224-243 | the loop's windows have the closed-form sizes; together they carry every entry from `index` on, exactly once, in ascending order; every message is an EXECUTE of the held statement |
| Batching.PlanCarriesBatch | src/main/java/org/mariadb/jdbc/ServerPreparedStatement.java:216-264 | the planned windows of the whole pipeline have the window sizes and carry the batch exactly once, in order; the only PREPARE is slot 0 of the first window, and it is there exactly when no statement is held |
| Batching.RunBunchesFollowsPlan | src/main/java/org/mariadb/jdbc/ServerPreparedStatement.java:224-232 | the loop writes a prefix of its planned windows: all of them when none fails, otherwise up to and including the failing one |
| Batching.PipelineFollowsPlan | src/main/java/org/mariadb/jdbc/ServerPreparedStatement.java:211-234 | the pipeline writes a prefix of its plan, the whole plan when it succeeds; a held statement is kept; otherwise the statement held is the one the first reply prepared |
| Batching.RunBunchesAligned | src/main/java/org/mariadb/jdbc/ServerPreparedStatement.java:224-227 | against a server that answers each message once, the loop appends one completion per entry sent and no prepare result; a failure keeps only the full windows before it |
| Batching.PipelineAligned | src/main/java/org/mariadb/jdbc/ServerPreparedStatement.java:216-228 | against a server that answers each message once, a successful pipeline returns exactly one completion per batch entry, none of them a prepare result; a failed one returns 250 per window before the failing one |
| Batching.Pipeline501 | src/main/java/org/mariadb/jdbc/ServerPreparedStatement.java:216-281 | against a server that answers each message once, 501 entries without a held statement, when all succeed: exchanges of 250, 250 and 1 EXECUTEs, and 501 completions |
| Batching.EnsurePrepared | src/main/java/org/mariadb/jdbc/ServerPreparedStatement.java:297-302 | unless the PREPARE fails, the step ends with a statement held or with exactly one PREPARE written |
| Batching.AfterThen | src/main/java/org/mariadb/jdbc/ServerPreparedStatement.java:303-309 | one iteration appends its exchanges and its completions, and records its error only if none came before |
| Batching.StandardOneMessage | src/main/java/org/mariadb/jdbc/ServerPreparedStatement.java:294-310 | every exchange of the per-entry batch is a single PREPARE or a single EXECUTE |
| Batching.StandardSendsEntries | src/main/java/org/mariadb/jdbc/ServerPreparedStatement.java:294-310 | without an aborting PREPARE, the EXECUTEs carry every entry, in order, failures included |
| Batching.StandardAbortIsLast | src/main/java/org/mariadb/jdbc/ServerPreparedStatement.java:297-302 | a failing PREPARE is the last exchange of the batch |
| Batching.StandardAbortMissesEntries | src/main/java/org/mariadb/jdbc/ServerPreparedStatement.java:294-302 | after an aborting PREPARE, the EXECUTEs carry a proper prefix of the entries |
| Batching.StandardKeepsSuccesses | src/main/java/org/mariadb/jdbc/ServerPreparedStatement.java:303-306 | the completions kept are those of every EXECUTE that succeeded, in order |
| Batching.StandardKeepsFirstError | src/main/java/org/mariadb/jdbc/ServerPreparedStatement.java:307-309 | the error kept is that of the first EXECUTE that failed, and none if none failed |
| Batching.StandardAttemptsEveryEntry | src/main/java/org/mariadb/jdbc/ServerPreparedStatement.java:290-316 | every exchange is one statement; without an aborting PREPARE, one EXECUTE reply per entry, carrying the entries in order; with one, a proper prefix; successes' completions and the first error are kept |
| Dispatch.PreparableExamples | src/main/java/org/mariadb/jdbc/ServerPreparedStatement.java:32-33 | the pattern matches a leading SELECT, INSERT, CALL or DO in any case, but not after a space, not SET, and not the empty text |
| Dispatch.IsPreparable | src/main/java/org/mariadb/jdbc/ServerPreparedStatement.java:32-33 | (definition) the pattern: the text begins with SELECT, UPDATE, INSERT, DELETE, REPLACE, DO or CALL, matched ignoring ASCII case, as used at line 75; `PreparableMeans` and `PreparableExamples` state its meaning |
| Dispatch.PreparableMeans | src/main/java/org/mariadb/jdbc/ServerPreparedStatement.java:32-33 | preparable if and only if the upper-cased text begins with one of the seven keywords; the case of the text does not matter; text appended after a match keeps it a match |
| Dispatch.FirstUnset | src/main/java/org/mariadb/jdbc/ServerPreparedStatement.java:506-511 | the smallest position from `from` below `bound` with no value; none exactly when all of them hold a value |
| Dispatch.MissingPosition | src/main/java/org/mariadb/jdbc/ServerPreparedStatement.java:487-491 | any error is a missing parameter with SQLState 07004 |
| Dispatch.ParameterCheck | src/main/java/org/mariadb/jdbc/ServerPreparedStatement.java:485-513 | every error it raises has SQLState 07004 |
| Dispatch.ParameterCheckMeans | src/main/java/org/mariadb/jdbc/ServerPreparedStatement.java:485-513 | with a statement: passes if and only if each of its parameters is set. Without one: passes if and only if the set is at least as wide as the first batch entry and has no gap below its size; a narrower set gets the width error. A reported position is 1-based and the smallest unset one |
| Dispatch.SingleDependsOnHeld | src/main/java/org/mariadb/jdbc/ServerPreparedStatement.java:93-99 | the single execute depends only on the statement held after the cache lookup, not on where it came from |
| Dispatch.Held | src/main/java/org/mariadb/jdbc/ServerPreparedStatement.java:93-94 | (definition) the statement already held, or else the cache's, as the fallback here and at lines 212-213 does |
| Dispatch.PrepareExecute | src/main/java/org/mariadb/jdbc/ServerPreparedStatement.java:119-122 | (definition) the one `PrepareExecutePacket`, modelled as two messages, PREPARE then EXECUTE of the statement just prepared, written in one exchange |
| Dispatch.SingleStrategyExclusive | src/main/java/org/mariadb/jdbc/ServerPreparedStatement.java:93-99 | the PREPARE+EXECUTE exchange is written if and only if no statement is held and pipelining is permitted, and then it is the only one. Otherwise every exchange is one message: PREPARE first only when none was held, and the EXECUTE names the statement held |
| Dispatch.PipelinedDropsPrepare | src/main/java/org/mariadb/jdbc/ServerPreparedStatement.java:119-130 | the pipelined execute returns every completion but the first, one fewer than the server sent, and takes the prepared statement of the first |
| Dispatch.SingleOutcome | src/main/java/org/mariadb/jdbc/ServerPreparedStatement.java:87-160 | results exist exactly when no error was raised, and are non-empty; a standard execute succeeds only after its parameter check passes, and keeps the reply to its EXECUTE |
| Dispatch.RunSingle | src/main/java/org/mariadb/jdbc/ServerPreparedStatement.java:87-160 | (definition) the body of `executeInternal` after its checks; `SingleDependsOnHeld`, `SingleStrategyExclusive`, `PipelinedDropsPrepare` and `SingleOutcome` state its meaning |
| Dispatch.PossibleLoadLocal | src/main/java/org/mariadb/jdbc/ServerPreparedStatement.java:166-172 | (definition) the LOCAL INFILE test: local files allowed, and the upper-cased text contains " LOCAL ", "LOAD" and " INFILE"; `LoadLocalMeans` and `LoadLocalExamples` state its meaning |
| Dispatch.LoadLocalMeans | src/main/java/org/mariadb/jdbc/ServerPreparedStatement.java:166-172 | the test never holds without the local-files capability, and it ignores the case of the text |
| Dispatch.LoadLocalExamples | src/main/java/org/mariadb/jdbc/ServerPreparedStatement.java:166-172 | `load data local infile 'f'` is LOCAL INFILE when local files are allowed and not otherwise; `DO 1` is not |
| Dispatch.CanUseBulk | src/main/java/org/mariadb/jdbc/ServerPreparedStatement.java:187-195 | (definition) the `canUseBulk` formula; `CanUseBulkMeans` states its meaning |
| Dispatch.CanUseBulkMeans | src/main/java/org/mariadb/jdbc/ServerPreparedStatement.java:182-195 | bulk needs the server capability and bulk configured for the command's kind; INSERT .. ON DUPLICATE KEY UPDATE and RETURN_GENERATED_KEYS need per-entry results; with everything on, bulk is allowed |
| Dispatch.ChooseBatchPath | src/main/java/org/mariadb/jdbc/ServerPreparedStatement.java:166-202 | bulk if and only if not LOCAL INFILE, bulk allowed and more than one entry; per-entry if and only if LOCAL INFILE; never bulk for one entry or none |
| Dispatch.PipelineOutcome | src/main/java/org/mariadb/jdbc/ServerPreparedStatement.java:228-233 | (definition) a failing window raises a batch-update error with the completions so far and the batch size, and clears the results |
| Dispatch.StandardOutcome | src/main/java/org/mariadb/jdbc/ServerPreparedStatement.java:312-315 | (definition) a failing PREPARE propagates as is; otherwise the first EXECUTE error becomes a batch-update error with every completion and the batch size |
| Dispatch.BulkOutcome | src/main/java/org/mariadb/jdbc/ServerPreparedStatement.java:196-198 | (definition) one COM_STMT_BULK_EXECUTE of every entry, its completions or its error |
| Dispatch.BatchRun | src/main/java/org/mariadb/jdbc/ServerPreparedStatement.java:162-203 | (definition) the batch along the chosen path; `PerEntryReportsEveryEntry` and `WindowsReportFailure` state its meaning |
| Dispatch.PerEntryReportsEveryEntry | src/main/java/org/mariadb/jdbc/ServerPreparedStatement.java:290-316 | unless a PREPARE fails, every entry is attempted; a batch error carries the successes' completions, the batch size and the first error; without an error, the completions are the successes'; the results are not cleared |
| Dispatch.WindowsReportFailure | src/main/java/org/mariadb/jdbc/ServerPreparedStatement.java:211-234 | against a server that answers each message once: on success, one completion per entry, none a prepare result, window sizes as computed and every entry sent once in order; a failing window gives a batch error with the batch size and the completions before it. Either way the results are cleared on error |
| ServerPrepared.ParameterList.constructor | src/main/java/org/mariadb/jdbc/ServerPreparedStatement.java:78 | an empty parameter list |
| ServerPrepared.ParameterList.Set | src/main/java/org/mariadb/jdbc/ServerPreparedStatement.java:477 | the position holds the value and no other changes; the size grows to cover it. The ParameterList class and the base statement's setters that call it are not part of this model; the line cited is where the live list is replaced by its copy, which later sets write to |
| ServerPrepared.ParameterList.ContainsKey | src/main/java/org/mariadb/jdbc/ServerPreparedStatement.java:488 | (definition) whether a position holds a value, as `containsKey` is called here; the ParameterList class is not part of this model |
| ServerPrepared.ParameterList.Size | src/main/java/org/mariadb/jdbc/ServerPreparedStatement.java:506 | (definition) one more than the highest position set, as `size()` is called here; the ParameterList class is not part of this model |
| ServerPrepared.ParameterList.Clone | src/main/java/org/mariadb/jdbc/ServerPreparedStatement.java:477 | a fresh list with the same contents and size |
| ServerPrepared.ValuesOf | src/main/java/org/mariadb/jdbc/ServerPreparedStatement.java:294 | the contents of each list, in order |
| ServerPrepared.ServerPreparedStatement.Init | src/main/java/org/mariadb/jdbc/ServerPreparedStatement.java:63-78 | the flags given, no statement held, an empty live list and no batch |
| ServerPrepared.ServerPreparedStatement.Precheck | src/main/java/org/mariadb/jdbc/ServerPreparedStatement.java:88-89 | (definition) `checkNotClosed()` then `validParameters()`: the closed error first, else the parameter check's error |
| ServerPrepared.ServerPreparedStatement.CacheLookup | src/main/java/org/mariadb/jdbc/ServerPreparedStatement.java:94 | (definition) `getPrepareCacheCmd` when caching is on, else none, the lookup also made at lines 74, 140, 212 and 298 |
| ServerPrepared.ServerPreparedStatement.FirstWidth | src/main/java/org/mariadb/jdbc/ServerPreparedStatement.java:497 | (definition) `batchParameters.get(0).size()` when the batch is not empty, else none |
| ServerPrepared.ServerPreparedStatement.Open | src/main/java/org/mariadb/jdbc/ServerPreparedStatement.java:51-79 | takes the cached statement when caching is on. With none, a PREPARE is written exactly for a command outside the preparable kinds, and its failure fails the construction with the server's error. The new statement holds the flags given, an empty live list, no batch, no results, no current result, zero max rows and timeout; uses are counted for the statement taken |
| ServerPrepared.ServerPreparedStatement.Adopt | src/main/java/org/mariadb/jdbc/ServerPreparedStatement.java:221-222 | the statement takes the prepared statement of the reply, counting one use; nothing written |
| ServerPrepared.ServerPreparedStatement.ValidParameters | src/main/java/org/mariadb/jdbc/ServerPreparedStatement.java:485-513 | the loops return exactly the error of the parameter check |
| ServerPrepared.ServerPreparedStatement.SetParameter | src/main/java/org/mariadb/jdbc/ServerPreparedStatement.java:476-477 | changes the live list only; the batch snapshots keep their contents |
| ServerPrepared.ServerPreparedStatement.AddBatch | src/main/java/org/mariadb/jdbc/ServerPreparedStatement.java:473-478 | after a failing check nothing changes. Otherwise the live list is appended to the batch and a fresh copy with the same contents becomes the live list, so the batch gains exactly the current parameters |
| ServerPrepared.ServerPreparedStatement.ExecuteInternal | src/main/java/org/mariadb/jdbc/ServerPreparedStatement.java:87-107 | a closed statement or a failing parameter check raises before anything is written. Otherwise the single execute runs and any error clears the results and the current result |
| ServerPrepared.ServerPreparedStatement.ExecuteChecked | src/main/java/org/mariadb/jdbc/ServerPreparedStatement.java:92-99 | the cache lookup, then the pipelined execute exactly when nothing is held and pipelining is permitted, else the standard one; state as the single-execute function says |
| ServerPrepared.ServerPreparedStatement.ExecutePipeline | src/main/java/org/mariadb/jdbc/ServerPreparedStatement.java:115-135 | one PREPARE+EXECUTE exchange; the results are the completions after the first; an error leaves no results |
| ServerPrepared.ServerPreparedStatement.PrepareIfNeeded | src/main/java/org/mariadb/jdbc/ServerPreparedStatement.java:139-144 | keeps a held statement, else takes the cached one, else writes a PREPARE and returns its failure |
| ServerPrepared.ServerPreparedStatement.ExecuteStandard | src/main/java/org/mariadb/jdbc/ServerPreparedStatement.java:137-160 | PREPARE if needed, the parameter check against the statement then held, then one EXECUTE whose completions become the results; any error leaves the results as they were |
| ServerPrepared.ServerPreparedStatement.ExecuteInternalPreparedBatch | src/main/java/org/mariadb/jdbc/ServerPreparedStatement.java:162-203 | a closed statement raises with nothing written and no field or use count changed. Otherwise the chosen path runs; it returns true exactly for bulk; a success leaves the completions as results and an error is raised as the path defines |
| ServerPrepared.ServerPreparedStatement.BuildBunch | src/main/java/org/mariadb/jdbc/ServerPreparedStatement.java:236-243 | the array loop builds exactly the window's EXECUTEs |
| ServerPrepared.ServerPreparedStatement.BuildBunchPrepare | src/main/java/org/mariadb/jdbc/ServerPreparedStatement.java:256-264 | the array loop builds exactly the PREPARE followed by the window's EXECUTEs with a null statement |
| ServerPrepared.ServerPreparedStatement.SendBunch | src/main/java/org/mariadb/jdbc/ServerPreparedStatement.java:236-254 | one window written as one exchange; the reply is the server's |
| ServerPrepared.ServerPreparedStatement.SendExecute | src/main/java/org/mariadb/jdbc/ServerPreparedStatement.java:304-306 | one entry's EXECUTE written as one exchange; the reply is the server's |
| ServerPrepared.ServerPreparedStatement.ExecuteBatchPipeline | src/main/java/org/mariadb/jdbc/ServerPreparedStatement.java:211-234 | the cache lookup, then the windowed run; success leaves all completions as results, a failure raises a batch error and clears them |
| ServerPrepared.ServerPreparedStatement.SendPipeline | src/main/java/org/mariadb/jdbc/ServerPreparedStatement.java:219-227 | the exchanges, completions, error and statement held are those of the pipeline function |
| ServerPrepared.ServerPreparedStatement.SendPrefixedPipeline | src/main/java/org/mariadb/jdbc/ServerPreparedStatement.java:220-227 | with no statement held: the PREPARE-led first window, then the loop, as the pipeline function says |
| ServerPrepared.ServerPreparedStatement.SendWindows | src/main/java/org/mariadb/jdbc/ServerPreparedStatement.java:224-227 | the while loop writes and gathers what the loop function says, stopping at the first failing window |
| ServerPrepared.ServerPreparedStatement.ExecuteBatchStandard | src/main/java/org/mariadb/jdbc/ServerPreparedStatement.java:290-316 | a PREPARE failure is raised as is. Otherwise the first EXECUTE error is raised after the loop as a batch error with every completion and the batch size. Without errors the completions become the results |
| ServerPrepared.ServerPreparedStatement.SendEntries | src/main/java/org/mariadb/jdbc/ServerPreparedStatement.java:292-310 | the for loop writes, gathers and keeps the first error as the per-entry function says, stopping only when a PREPARE fails |
| ServerPrepared.ServerPreparedStatement.AdvanceEntry | src/main/java/org/mariadb/jdbc/ServerPreparedStatement.java:294-310 | one iteration moves the loop's state one entry along the per-entry function |
| ServerPrepared.ServerPreparedStatement.SendEntry | src/main/java/org/mariadb/jdbc/ServerPreparedStatement.java:297-306 | the PREPARE step, then this entry's EXECUTE, as one step of the per-entry function |
| ServerPrepared.ServerPreparedStatement.ExecuteBatchBulk | src/main/java/org/mariadb/jdbc/ServerPreparedStatement.java:196-198 | one COM_STMT_BULK_EXECUTE of every entry; its completions become the results, and its error is raised |
| ServerPrepared.ServerPreparedStatement.HandleParameterOutput | src/main/java/org/mariadb/jdbc/ServerPreparedStatement.java:460-462 | the first result becomes the current one and is removed from the results |
| ServerPrepared.ServerPreparedStatement.Execute | src/main/java/org/mariadb/jdbc/ServerPreparedStatement.java:342-346 | a closed statement or a failing parameter check raises with nothing written and no field or use count changed. Otherwise the single execute runs, an error clears the results and the current result, and uses are counted for the statement taken. On success the first result becomes current, the rest remain, and the answer is whether it is a result set; the cache is unchanged |
| ServerPrepared.ServerPreparedStatement.ReleaseHandle | src/main/java/org/mariadb/jdbc/ServerPreparedStatement.java:351-354 | one use fewer of the held statement, COM_STMT_CLOSE when none remains, and nothing held |
| ServerPrepared.ServerPreparedStatement.SetMaxRows | src/main/java/org/mariadb/jdbc/ServerPreparedStatement.java:349-355 | the limit is stored; the held statement is released exactly when server-side max rows are in use |
| ServerPrepared.ServerPreparedStatement.SetLargeMaxRows | src/main/java/org/mariadb/jdbc/ServerPreparedStatement.java:358-364 | as `setMaxRows` |
| ServerPrepared.ServerPreparedStatement.SetQueryTimeout | src/main/java/org/mariadb/jdbc/ServerPreparedStatement.java:367-373 | the timeout is stored; the held statement is released exactly when server-side timeouts are in use |
| ServerPrepared.ServerPreparedStatement.Close | src/main/java/org/mariadb/jdbc/ServerPreparedStatement.java:575-582 | a held statement is released once and nothing is held any more; the statement is closed |
| ServerPrepared.CloseTwice | src/main/java/org/mariadb/jdbc/ServerPreparedStatement.java:575-579 | a second close releases nothing more: one use fewer, exactly the one release exchange of the first close, and the cache unchanged |
| ServerPrepared.AddBatchThenSet | src/main/java/org/mariadb/jdbc/ServerPreparedStatement.java:473-478 | setting a parameter after `addBatch` changes the live list, its values and size as `SetParameter` says, but not the snapshot just added; after a failing check nothing changes |

## Left out

- Socket I/O, packet headers and the splitting of large packets. The packet writer only records payloads. The connection records exchanges and answers them with a function of the messages written, so a server whose answers depend on earlier exchanges is not modelled.
- An exchange that fails keeps no completions. The driver may have read some completions before the error, and those are not modelled.
- A server reply with fewer completions than messages written is excluded by the connection's invariant. The driver would raise an index error there.
- The lock (`ClosableLock`) and the query-timeout handler (`QueryTimeoutHandler`): their purpose is concurrency and cancellation.
- The `localInfileInputStream` field, and the fetch size, result-set type and concurrency passed along to the client.
- `escapeTimeout`: the command sent is the SQL text unchanged.
- The prepare cache's insertion and eviction, and the internals of `decrementUse`: neither is part of this model. The cache is a map the model never changes. Releasing a use is modelled as one use fewer, with COM_STMT_CLOSE once no use remains and the cache does not hold the statement.
- The body of `executeBatchBulk` is not part of this model. It is modelled as one COM_STMT_BULK_EXECUTE exchange whose completions become the results.
- `parseCommandIfNeeded` and the client parser are not part of this model. `isInsert` and `isInsertDuplicate` are inputs.
- Result-set construction and column decoding. The metadata methods `getMetaData` and `getParameterMetaData`.
- `executeQuery`, `executeUpdate` and `executeLargeUpdate`, including the `permitNoResults` fallback. `execute` is modelled.
- `toString`.
- The SQLState of the error `checkNotClosed` raises, which the base class defines.
- `fireStatementClosed` and the base class's `close`. The base setters' validation of their arguments: the model takes natural numbers.
- The UTF-8 conversion of the password: it is taken as bytes. An empty Java string converts to no bytes, and a non-empty one to some bytes.
- The SHA-1 algorithm itself, and the `NoSuchAlgorithmException` path.
- The packet that `process` reads back after writing its response.
- Text.AsciiUpper: upper-cases ASCII letters only, which is weaker than Java's full `toUpperCase(Locale.ROOT)` at ServerPreparedStatement.java line 169. Non-ASCII letters whose upper case is an ASCII letter (for example dotless i, U+0131, which upper-cases to I) are not mapped.
- Dispatch.PossibleLoadLocal: built on `Text.AsciiUpper`, so text that reaches " LOCAL ", "LOAD" or " INFILE" only through a non-ASCII letter (such as `load data local \u0131nfile 'f'`, with a dotless i) is not recognised as LOCAL INFILE, where the driver would take the per-entry path.
- A PREPARE answered inside an exchange that then fails (the PREPARE+EXECUTE of a single execute, or the first window of the batch pipeline) is neither adopted nor counted as a use. In the driver the prepare result reaches the statement while the reply is read, so the statement can be left holding it.
- A null `batchParameters`: the model has one batch value, the empty sequence, standing for both null and empty. In the source, a batch run on a null list would throw a NullPointerException at ServerPreparedStatement.java lines 196, 224, 258 and 294, where the model runs the empty batch (on the windowed path, a lone PREPARE). The caller that keeps a null batch away from these methods is not part of this model.
- The Java `int` arithmetic of `index += maxCmd` (lines 222 and 226) and of the list sizes: the model uses unbounded integers. No list holds enough entries for the sum to overflow.
