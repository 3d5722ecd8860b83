/** The decisions of the server-prepared statement, as pure functions of
    its state and of the connection's capabilities: which SQL is prepared
    eagerly, the parameter check, the single-execute run, the bulk
    predicate and the choice among the three batch paths. */
module Dispatch {
  import opened Wire
  import opened Protocol
  import opened Batching
  import opened Text

  /** SQLState of "Parameter at position .. is not set" and of "batch set of
      parameters differ from previous set". */
  const ParameterNotSet: string := "07004"

  /** `java.sql.Statement.RETURN_GENERATED_KEYS`. */
  const ReturnGeneratedKeys: int := 1

  // ---------------------------------------------------------------------
  // Commands the statement may leave unprepared until execution

  const PreparableKeywords: seq<string> := ["SELECT", "UPDATE", "INSERT", "DELETE", "REPLACE", "DO", "CALL"]

  /** `^(SELECT|UPDATE|INSERT|DELETE|REPLACE|DO|CALL)` with CASE_INSENSITIVE,
      found at the start of the text. */
  predicate IsPreparable(sql: string)
  {
    exists k :: 0 <= k < |PreparableKeywords| && StartsWithIgnoringAsciiCase(sql, PreparableKeywords[k])
  }

  lemma PreparableExamples()
    ensures IsPreparable("select * from t") && IsPreparable("INSERT INTO t VALUES (?)")
    ensures IsPreparable("Call p(?)") && IsPreparable("do 1")
    ensures !IsPreparable(" SELECT 1") && !IsPreparable("SET @a = 1") && !IsPreparable("")
  {
    assert StartsWithIgnoringAsciiCase("select * from t", PreparableKeywords[0]) by {
      assert "select * from t"[..6] == "select";
    }
    assert StartsWithIgnoringAsciiCase("INSERT INTO t VALUES (?)", PreparableKeywords[2]) by {
      assert "INSERT INTO t VALUES (?)"[..6] == "INSERT";
    }
    assert StartsWithIgnoringAsciiCase("Call p(?)", PreparableKeywords[6]) by {
      assert "Call p(?)"[..4] == "Call";
    }
    assert StartsWithIgnoringAsciiCase("do 1", PreparableKeywords[5]) by {
      assert "do 1"[..2] == "do";
    }
    forall k | 0 <= k < |PreparableKeywords|
      ensures !StartsWithIgnoringAsciiCase(" SELECT 1", PreparableKeywords[k])
      ensures !StartsWithIgnoringAsciiCase("SET @a = 1", PreparableKeywords[k])
    {
      var w := PreparableKeywords[k];
      if |w| <= |" SELECT 1"| {
        assert AsciiUpper(" SELECT 1"[..|w|])[0] == ' ';
      }
      if 3 <= |w| <= |"SET @a = 1"| {
        assert AsciiUpper("SET @a = 1"[..|w|])[2] == 'T';
      } else if |w| <= |"SET @a = 1"| {
        assert AsciiUpper("SET @a = 1"[..|w|])[0] == 'S';
      }
    }
  }

  /** The pattern, read as ASCII case-insensitive and anchored at the
      start: the upper-cased text begins with one of the keywords, so the
      case of the text does not matter and whatever follows the keyword
      does not either. */
  lemma PreparableMeans(sql: string, rest: string)
    ensures IsPreparable(sql) <==>
            exists k :: 0 <= k < |PreparableKeywords| && PreparableKeywords[k] <= AsciiUpper(sql)
    ensures IsPreparable(sql) <==> IsPreparable(AsciiUpper(sql))
    ensures IsPreparable(sql) ==> IsPreparable(sql + rest)
  {
    AsciiUpperIdempotent(sql);
    forall k | 0 <= k < |PreparableKeywords|
      ensures StartsWithIgnoringAsciiCase(sql, PreparableKeywords[k]) <==> PreparableKeywords[k] <= AsciiUpper(sql)
      ensures StartsWithIgnoringAsciiCase(AsciiUpper(sql), PreparableKeywords[k])
              <==> PreparableKeywords[k] <= AsciiUpper(sql)
      ensures StartsWithIgnoringAsciiCase(sql, PreparableKeywords[k]) ==>
              StartsWithIgnoringAsciiCase(sql + rest, PreparableKeywords[k])
    {
      var w := PreparableKeywords[k];
      StartsWithMeans(sql, w);
      StartsWithMeans(AsciiUpper(sql), w);
      if |w| <= |sql| {
        assert (sql + rest)[..|w|] == sql[..|w|];
      }
    }
  }

  // ---------------------------------------------------------------------
  // validParameters

  /** The smallest position in from .. bound - 1 that holds no value. */
  function FirstUnset(values: Params, from: nat, bound: nat): (r: Option<nat>)
    ensures r.Some? ==> from <= r.value < bound && r.value !in values &&
                        forall j :: from <= j < r.value ==> j in values
    ensures r.None? <==> forall j :: from <= j < bound ==> j in values
    decreases bound - from
  {
    if from >= bound then None
    else if from !in values then Some(from)
    else FirstUnset(values, from + 1, bound)
  }

  /** The error for the first of positions 0 .. bound - 1 left unset;
      positions are reported 1-based. */
  function MissingPosition(values: Params, bound: nat): (r: Option<SqlError>)
    ensures r.Some? ==> r.value.sqlState == ParameterNotSet && r.value.kind.MissingParameter?
  {
    match FirstUnset(values, 0, bound)
    case None => None
    case Some(i) => Some(SqlError(MissingParameter(i + 1), ParameterNotSet))
  }

  /** `validParameters`: with a prepared statement, every one of its
      parameters must be set; without one, the current set must be at
      least as wide as the first batch entry (`firstWidth`) and must have
      no gap below its size. */
  function ParameterCheck(handle: Option<Handle>, values: Params, size: nat, firstWidth: Option<nat>)
    : (r: Option<SqlError>)
    ensures r.Some? ==> r.value.sqlState == ParameterNotSet
  {
    if handle.Some? then MissingPosition(values, handle.value.paramCount)
    else if firstWidth.Some? && size < firstWidth.value then Some(SqlError(BatchWidthMismatch, ParameterNotSet))
    else MissingPosition(values, size)
  }

  /** What the parameter check accepts: with a prepared statement, exactly
      the sets holding each of its parameters; without one, exactly the
      sets at least as wide as the first batch entry with no gap below
      their size. A missing position it reports is the smallest one. */
  lemma ParameterCheckMeans(handle: Option<Handle>, values: Params, size: nat, firstWidth: Option<nat>)
    ensures handle.Some? ==>
              (ParameterCheck(handle, values, size, firstWidth).None? <==>
               forall j :: 0 <= j < handle.value.paramCount ==> j in values)
    ensures handle.None? ==>
              (ParameterCheck(handle, values, size, firstWidth).None? <==>
               ((firstWidth.None? || size >= firstWidth.value) && forall j :: 0 <= j < size ==> j in values))
    ensures handle.None? && firstWidth.Some? && size < firstWidth.value ==>
              ParameterCheck(handle, values, size, firstWidth) == Some(SqlError(BatchWidthMismatch, ParameterNotSet))
    ensures var r := ParameterCheck(handle, values, size, firstWidth);
            r.Some? && r.value.kind.MissingParameter? ==>
              var i := r.value.kind.position - 1;
              0 <= i < (if handle.Some? then handle.value.paramCount else size) &&
              i !in values && forall j :: 0 <= j < i ==> j in values
  {
  }

  // ---------------------------------------------------------------------
  // The single execute

  /** The statement held once `executeInternal` has consulted the cache. */
  function Held(held: Option<Handle>, lookup: Option<Handle>): Option<Handle>
  {
    if held.Some? then held else lookup
  }

  /** What one execute did: the exchanges written, the results kept (None
      for Java's null), the statement held afterwards and the error. */
  datatype SingleTrace = SingleTrace(sent: seq<seq<Message>>, results: Option<seq<Completion>>,
                                     handle: Option<Handle>, failure: Option<SqlError>)

  /** The exchange of `executePipeline`: PREPARE and EXECUTE of the
      statement just prepared (id -1), written together. */
  function PrepareExecute(cmd: string, values: Params): seq<Message>
  {
    [Prepare(cmd), Execute(None, values, cmd)]
  }

  /** The body of `executeInternal` inside its try block: `executePipeline`
      when no statement is held and the server permits pipelining,
      `executeStandard` otherwise. Any error clears the results. */
  function RunSingle(server: Transport, held: Option<Handle>, lookup: Option<Handle>, permitPipeline: bool,
                     cmd: string, values: Params, size: nat, firstWidth: Option<nat>): SingleTrace
    requires WellFormed(server)
  {
    var h := Held(held, lookup);
    if h.None? && permitPipeline then
      var msgs := PrepareExecute(cmd, values);
      match server(msgs)
      case Failure(e) => SingleTrace([msgs], None, None, Some(e))
      case Success(res) => SingleTrace([msgs], Some(res[1..]), Adopted(res), None)
    else
      var p := EnsurePrepared(server, lookup, h, cmd);
      if p.abort.Some? then SingleTrace(p.sent, None, None, p.abort)
      else
        match ParameterCheck(p.handle, values, size, firstWidth)
        case Some(e) => SingleTrace(p.sent, None, p.handle, Some(e))
        case None =>
          var msgs := [Execute(IdOf(p.handle), values, cmd)];
          match server(msgs)
          case Failure(e) => SingleTrace(p.sent + [msgs], None, p.handle, Some(e))
          case Success(res) => SingleTrace(p.sent + [msgs], Some(res), p.handle, None)
  }

  /** Only the statement held matters, whether the statement had it
      already or found it in the cache. */
  lemma SingleDependsOnHeld(server: Transport, held: Option<Handle>, lookup: Option<Handle>,
                            permitPipeline: bool, cmd: string, values: Params, size: nat,
                            firstWidth: Option<nat>)
    requires WellFormed(server)
    ensures RunSingle(server, held, lookup, permitPipeline, cmd, values, size, firstWidth)
         == RunSingle(server, Held(held, lookup), None, permitPipeline, cmd, values, size, firstWidth)
  {
  }

  /** The two single-execute strategies exclude each other: the pipelined
      PREPARE + EXECUTE exchange is written exactly when no statement is
      held and pipelining is permitted; otherwise every exchange carries
      one message, a PREPARE only when no statement was held, and the
      EXECUTE names the statement held at the end. */
  lemma SingleStrategyExclusive(server: Transport, held: Option<Handle>, lookup: Option<Handle>,
                                permitPipeline: bool, cmd: string, values: Params, size: nat,
                                firstWidth: Option<nat>)
    requires WellFormed(server)
    ensures var t := RunSingle(server, held, lookup, permitPipeline, cmd, values, size, firstWidth);
      var h := Held(held, lookup);
      && (PrepareExecute(cmd, values) in t.sent <==> h.None? && permitPipeline)
      && (h.None? && permitPipeline ==> t.sent == [PrepareExecute(cmd, values)])
      && (h.Some? ==> t.handle == h && t.sent <= [[Execute(IdOf(h), values, cmd)]])
      && (h.None? && !permitPipeline ==> 1 <= |t.sent| <= 2 && t.sent[0] == [Prepare(cmd)] &&
                                         (|t.sent| == 2 ==> t.sent[1] == [Execute(IdOf(t.handle), values, cmd)]))
  {
    var h := Held(held, lookup);
    var t := RunSingle(server, held, lookup, permitPipeline, cmd, values, size, firstWidth);
    if !(h.None? && permitPipeline) {
      var p := EnsurePrepared(server, lookup, h, cmd);
      forall x | x in t.sent ensures |x| == 1 {
      }
      assert PrepareExecute(cmd, values) !in t.sent by {
        assert |PrepareExecute(cmd, values)| == 2;
      }
    }
  }

  /** The pipelined execute hands back every completion but the first, the
      prepare result: one fewer than the server sent. */
  lemma PipelinedDropsPrepare(server: Transport, held: Option<Handle>, lookup: Option<Handle>,
                              cmd: string, values: Params, size: nat, firstWidth: Option<nat>)
    requires WellFormed(server) && Held(held, lookup).None?
    requires server(PrepareExecute(cmd, values)).Success?
    ensures var t := RunSingle(server, held, lookup, true, cmd, values, size, firstWidth);
      var res := server(PrepareExecute(cmd, values)).value;
      && t.results.Some?
      && [res[0]] + t.results.value == res
      && |t.results.value| == |res| - 1 >= 1
      && t.handle == Adopted(res)
  {
  }

  /** A single execute that succeeds always leaves a first result to take,
      and one that fails leaves none; on the standard path it succeeds only
      after the parameter check against the statement it executes. */
  lemma SingleOutcome(server: Transport, held: Option<Handle>, lookup: Option<Handle>, permitPipeline: bool,
                      cmd: string, values: Params, size: nat, firstWidth: Option<nat>)
    requires WellFormed(server)
    ensures var t := RunSingle(server, held, lookup, permitPipeline, cmd, values, size, firstWidth);
      && (t.failure.None? <==> t.results.Some?)
      && (t.results.Some? ==> |t.results.value| >= 1)
      && (t.failure.None? && !(Held(held, lookup).None? && permitPipeline) ==>
            ParameterCheck(t.handle, values, size, firstWidth).None? &&
            t.results == Some(server(t.sent[|t.sent| - 1]).value))
  {
    var t := RunSingle(server, held, lookup, permitPipeline, cmd, values, size, firstWidth);
    var msgs := PrepareExecute(cmd, values);
    if Held(held, lookup).None? && permitPipeline {
      assert server(msgs).Success? ==> |server(msgs).value| >= |msgs|;
    } else {
      var p := EnsurePrepared(server, lookup, Held(held, lookup), cmd);
      var exec := [Execute(IdOf(p.handle), values, cmd)];
      assert server(exec).Success? ==> |server(exec).value| >= |exec|;
    }
  }

  // ---------------------------------------------------------------------
  // The batch paths

  /** Whether the command may read a local file (`LOAD DATA LOCAL INFILE`):
      the connection allows it, and the upper-cased text contains " LOCAL ",
      "LOAD" and " INFILE". Such a batch cannot be pipelined. */
  predicate PossibleLoadLocal(localFiles: bool, sql: string)
  {
    localFiles &&
    var upper := AsciiUpper(sql);
    Contains(upper, " LOCAL ") && Contains(upper, "LOAD") && Contains(upper, " INFILE")
  }

  /** Only a connection allowing local files can take the per-entry
      path for this reason, and the test ignores the case of the text. */
  lemma LoadLocalMeans(localFiles: bool, sql: string)
    ensures PossibleLoadLocal(localFiles, sql) ==> localFiles
    ensures PossibleLoadLocal(localFiles, sql) <==> PossibleLoadLocal(localFiles, AsciiUpper(sql))
  {
    AsciiUpperIdempotent(sql);
  }

  lemma LoadLocalExamples()
    ensures PossibleLoadLocal(true, "load data local infile 'f'")
    ensures !PossibleLoadLocal(false, "load data local infile 'f'")
    ensures !PossibleLoadLocal(true, "DO 1")
  {
    var sql := "load data local infile 'f'";
    var upper := AsciiUpper(sql);
    assert OccursAt(upper, " LOCAL ", 9) by {
      AsciiUpperSlice(sql, 9, 16);
      assert sql[9..16] == " local ";
    }
    assert OccursAt(upper, "LOAD", 0) by {
      AsciiUpperSlice(sql, 0, 4);
      assert sql[0..4] == "load";
    }
    assert OccursAt(upper, " INFILE", 15) by {
      AsciiUpperSlice(sql, 15, 22);
      assert sql[15..22] == " infile";
    }
  }

  /** `canUseBulk` of `executeInternalPreparedBatch`. */
  predicate CanUseBulk(serverBulk: bool, isInsert: bool, isInsertDuplicate: bool, useBulkStmts: bool,
                       useBulkStmtsForInserts: bool, bulkUnitResults: bool, autoGeneratedKeys: int)
  {
    serverBulk
    && ((isInsert && (useBulkStmts || useBulkStmtsForInserts) && (bulkUnitResults || !isInsertDuplicate))
        || (!isInsert && useBulkStmts))
    && (bulkUnitResults || autoGeneratedKeys != ReturnGeneratedKeys)
  }

  /** What the bulk predicate guarantees: the server supports bulk
      operations; bulk is configured for the kind of command; and when the
      affected rows or the generated keys of each entry cannot be guessed
      (INSERT .. ON DUPLICATE KEY UPDATE, RETURN_GENERATED_KEYS), the
      server returns per-entry results. With all capabilities and options
      on, bulk is always usable. */
  lemma CanUseBulkMeans(serverBulk: bool, isInsert: bool, isInsertDuplicate: bool, useBulkStmts: bool,
                        useBulkStmtsForInserts: bool, bulkUnitResults: bool, autoGeneratedKeys: int)
    ensures CanUseBulk(serverBulk, isInsert, isInsertDuplicate, useBulkStmts, useBulkStmtsForInserts,
                       bulkUnitResults, autoGeneratedKeys) ==>
      && serverBulk
      && (isInsert ==> useBulkStmts || useBulkStmtsForInserts)
      && (!isInsert ==> useBulkStmts)
      && (isInsert && isInsertDuplicate ==> bulkUnitResults)
      && (autoGeneratedKeys == ReturnGeneratedKeys ==> bulkUnitResults)
    ensures serverBulk && useBulkStmts && bulkUnitResults ==>
      CanUseBulk(serverBulk, isInsert, isInsertDuplicate, useBulkStmts, useBulkStmtsForInserts,
                 bulkUnitResults, autoGeneratedKeys)
  {
  }

  datatype BatchPath =
    | PerEntry  // executeBatchStandard: one exchange per entry
    | Bulk      // executeBatchBulk: one COM_STMT_BULK_EXECUTE
    | Windows   // executeBatchPipeline: windows of at most 250 EXECUTEs

  /** The path `executeInternalPreparedBatch` takes; it returns true for
      bulk only. */
  function ChooseBatchPath(loadLocal: bool, canUseBulk: bool, size: nat): (path: BatchPath)
    ensures path == Bulk <==> !loadLocal && canUseBulk && size > 1
    ensures loadLocal ==> path == PerEntry
    ensures path == PerEntry <==> loadLocal
    ensures size <= 1 ==> path != Bulk
  {
    if loadLocal then PerEntry else if canUseBulk && size > 1 then Bulk else Windows
  }

  // ---------------------------------------------------------------------
  // What a batch leaves behind

  /** The exception a batch raises: the error itself, or a batch-update
      error carrying the completions obtained so far and the batch size. */
  datatype StatementError =
    | Plain(error: SqlError)
    | BatchUpdate(completions: seq<Completion>, size: nat, cause: SqlError)

  /** The exchanges a batch wrote, the statement it holds afterwards, the
      completions it gathered, the error it raises, and whether an error
      also clears the statement's results. */
  datatype BatchOutcome = BatchOutcome(sent: seq<seq<Message>>, handle: Option<Handle>,
                                       completions: seq<Completion>, error: Option<StatementError>,
                                       clearsResults: bool)

  /** `executeBatchPipeline`: a failing window raises a batch-update error
      with the completions of the windows before it, and clears the
      results. */
  function PipelineOutcome(t: Trace, size: nat): BatchOutcome
  {
    BatchOutcome(t.sent, t.handle, t.completions,
                 if t.failure.Some? then Some(BatchUpdate(t.completions, size, t.failure.value)) else None,
                 true)
  }

  /** `executeBatchStandard`: a failing PREPARE propagates as is; otherwise
      the first failing EXECUTE is raised after the loop, as a batch-update
      error with every completion gathered. Neither touches the results. */
  function StandardOutcome(t: StandardTrace, size: nat): BatchOutcome
  {
    BatchOutcome(t.sent, t.handle, t.completions,
                 if t.aborted.Some? then Some(Plain(t.aborted.value))
                 else if t.firstError.Some? then Some(BatchUpdate(t.completions, size, t.firstError.value))
                 else None,
                 false)
  }

  /** The bulk batch, as one COM_STMT_BULK_EXECUTE of every entry. */
  function BulkOutcome(server: Transport, held: Option<Handle>, cmd: string, batch: seq<Params>): BatchOutcome
  {
    var msgs := [BulkExecute(IdOf(held), batch, cmd)];
    match server(msgs)
    case Failure(e) => BatchOutcome([msgs], held, [], Some(Plain(e)), false)
    case Success(rs) => BatchOutcome([msgs], held, rs, None, false)
  }

  /** The batch along the path `executeInternalPreparedBatch` chose;
      `lookup` is what the prepare cache holds for the command. */
  function BatchRun(server: Transport, held: Option<Handle>, lookup: Option<Handle>, path: BatchPath,
                    cmd: string, batch: seq<Params>): BatchOutcome
  {
    match path
    case PerEntry => StandardOutcome(RunStandard(server, lookup, held, cmd, batch, 0), |batch|)
    case Bulk => BulkOutcome(server, held, cmd, batch)
    case Windows => PipelineOutcome(RunPipeline(server, Held(held, lookup), cmd, batch), |batch|)
  }

  /** The per-entry batch, used for LOAD DATA LOCAL INFILE, attempts every
      entry: unless a PREPARE fails, every entry is sent in its own
      exchange, and a batch-update error reports the batch size, the
      completions of every EXECUTE that succeeded and the error of the
      first that failed. */
  lemma PerEntryReportsEveryEntry(server: Transport, held: Option<Handle>, lookup: Option<Handle>,
                                  cmd: string, batch: seq<Params>)
    ensures var o := BatchRun(server, held, lookup, PerEntry, cmd, batch);
      var replies := Replies(server, ExecuteExchanges(o.sent));
      && !o.clearsResults
      && (!(o.error.Some? && o.error.value.Plain?) ==> SentEntries(o.sent) == batch && |replies| == |batch|)
      && (o.error.Some? && o.error.value.BatchUpdate? ==>
            FirstFailure(replies).Some? &&
            o.error.value == BatchUpdate(Successes(replies), |batch|, FirstFailure(replies).value))
      && (o.error.None? ==> o.completions == Successes(replies) && FirstFailure(replies).None?)
  {
    StandardAttemptsEveryEntry(server, lookup, held, cmd, batch);
  }

  /** The windowed batch raises a batch-update error exactly when a window
      fails, and keeps the completions of the windows before it. */
  lemma WindowsReportFailure(server: Transport, held: Option<Handle>, lookup: Option<Handle>,
                             cmd: string, batch: seq<Params>)
    requires OnePerMessage(server)
    ensures var o := BatchRun(server, held, lookup, Windows, cmd, batch);
      && o.clearsResults
      && (o.error.None? ==> |o.completions| == |batch| && NoPrepareResults(o.completions) &&
                            Counts(o.sent) == WindowSizes(|batch|, Held(held, lookup).None?) &&
                            SentEntries(o.sent) == batch)
      && (o.error.Some? ==> o.error.value.BatchUpdate? && o.error.value.size == |batch| &&
                            o.error.value.completions == o.completions &&
                            |o.completions| == MaxCmd * (|o.sent| - 1))
  {
    var t := RunPipeline(server, Held(held, lookup), cmd, batch);
    PipelineAligned(server, Held(held, lookup), cmd, batch);
    PipelineFollowsPlan(server, Held(held, lookup), cmd, batch);
    PlanCarriesBatch(Held(held, lookup), IdOf(t.handle), cmd, batch);
  }
}
