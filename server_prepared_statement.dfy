/** The server-side prepared statement: its parameter list, the batch of
    parameter snapshots, the prepared statement it holds, and the five
    ways it talks to the server (pipelined and standard single execute;
    windowed, bulk and per-entry batch). */
module ServerPrepared {
  import opened Wire
  import opened Protocol
  import opened Batching
  import opened Text
  import opened Dispatch

  /** The error `checkNotClosed` raises; its SQLState is not modelled. */
  const ClosedError: SqlError := SqlError(StatementClosed, "")

  /** The parameters being set: position to value, and the list's size,
      one more than the highest position ever set. */
  class ParameterList {
    var values: Params
    var length: nat

    constructor ()
      ensures values == map[] && length == 0
    {
      values := map[];
      length := 0;
    }

    predicate ContainsKey(i: nat)
      reads this
    {
      i in values
    }

    function Size(): nat
      reads this
    {
      length
    }

    method Set(i: nat, v: Value)
      modifies this
      ensures values == old(values)[i := v]
      ensures length == if i < old(length) then old(length) else i + 1
    {
      values := values[i := v];
      if length <= i {
        length := i + 1;
      }
    }

    /** A new list with the same contents. */
    method Clone() returns (c: ParameterList)
      ensures fresh(c) && c.values == values && c.length == length
    {
      c := new ParameterList();
      c.values := values;
      c.length := length;
    }
  }

  /** The contents of a sequence of parameter lists. */
  function ValuesOf(ps: seq<ParameterList>): (vs: seq<Params>)
    reads ps
    ensures |vs| == |ps| && forall k :: 0 <= k < |ps| ==> vs[k] == ps[k].values
  {
    if ps == [] then [] else [ps[0].values] + ValuesOf(ps[1..])
  }

  class ServerPreparedStatement {
    const con: Connection
    const sql: string
    const canUseServerTimeout: bool
    const canUseServerMaxRows: bool
    const canCachePrepStmts: bool
    const autoGeneratedKeys: int
    var prepareResult: Option<Handle>
    var parameters: ParameterList
    var batchParameters: seq<ParameterList>   // [] stands for an empty batch
    var results: Option<seq<Completion>>
    var currResult: Option<Completion>
    var maxRows: nat
    var queryTimeout: nat
    var closed: bool

    /** The connection's server is well formed, the live parameter list is
        none of the batch snapshots, and a held statement counts a use. */
    ghost predicate Valid()
      reads this, con
    {
      con.Valid() && parameters !in batchParameters &&
      (prepareResult.Some? ==> Uses(con.uses, prepareResult.value.id) >= 1)
    }

    /** The parameter sets of the batch, in order. */
    function BatchValues(): seq<Params>
      reads this, batchParameters
    {
      ValuesOf(batchParameters)
    }

    /** The size of the first batch entry, if there is one. */
    function FirstWidth(): Option<nat>
      reads this, batchParameters
    {
      if |batchParameters| > 0 then Some(batchParameters[0].length) else None
    }

    /** What `getPrepareCacheCmd` finds for `cmd`, when caching is on. */
    function CacheLookup(cmd: string): Option<Handle>
      reads this, con
    {
      if canCachePrepStmts then Lookup(con.cache, cmd) else None
    }

    /** `checkNotClosed` followed by `validParameters`, as one check. */
    function Precheck(): Option<SqlError>
      reads this, parameters, batchParameters
    {
      if closed then Some(ClosedError)
      else ParameterCheck(prepareResult, parameters.values, parameters.length, FirstWidth())
    }

    /** The single execute from the current state. */
    ghost function SingleRun(): SingleTrace
      requires Valid()
      reads this, con, parameters, batchParameters
    {
      RunSingle(con.server, prepareResult, CacheLookup(sql), con.permitPipeline, sql,
                parameters.values, parameters.length, FirstWidth())
    }

    /** The batch path chosen from the current state. */
    function BatchPathNow(isInsert: bool, isInsertDuplicate: bool): BatchPath
      reads this, con, batchParameters
    {
      ChooseBatchPath(PossibleLoadLocal(con.localFiles, sql),
                      CanUseBulk(con.serverBulk, isInsert, isInsertDuplicate, con.useBulkStmts,
                                 con.useBulkStmtsForInserts, con.bulkUnitResults, autoGeneratedKeys),
                      |batchParameters|)
    }

    /** The part of the base statement's constructor this class relies on. */
    constructor Init(con: Connection, sql: string, canUseServerTimeout: bool, canUseServerMaxRows: bool,
                     canCachePrepStmts: bool, autoGeneratedKeys: int)
      requires con.Valid()
      ensures Valid() && prepareResult.None? && fresh(parameters)
      ensures this.con == con && this.sql == sql && this.canUseServerTimeout == canUseServerTimeout
      ensures this.canUseServerMaxRows == canUseServerMaxRows && this.canCachePrepStmts == canCachePrepStmts
      ensures this.autoGeneratedKeys == autoGeneratedKeys
      ensures parameters.values == map[] && parameters.length == 0 && batchParameters == []
      ensures results.None? && currResult.None? && maxRows == 0 && queryTimeout == 0 && !closed
    {
      this.con := con;
      this.sql := sql;
      this.canUseServerTimeout := canUseServerTimeout;
      this.canUseServerMaxRows := canUseServerMaxRows;
      this.canCachePrepStmts := canCachePrepStmts;
      this.autoGeneratedKeys := autoGeneratedKeys;
      prepareResult := None;
      parameters := new ParameterList();
      batchParameters := [];
      results := None;
      currResult := None;
      maxRows := 0;
      queryTimeout := 0;
      closed := false;
    }

    /** The constructor: takes the cached statement for `sql` when caching
        is on; without one, a command that is not among the preparable
        kinds is prepared at once, and a failing PREPARE fails the
        construction. */
    static method Open(con: Connection, sql: string, canUseServerTimeout: bool, canUseServerMaxRows: bool,
                       canCachePrepStmts: bool, autoGeneratedKeys: int)
      returns (r: Result<ServerPreparedStatement, SqlError>)
      requires con.Valid()
      modifies con
      ensures var lookup := if canCachePrepStmts then Lookup(old(con.cache), sql) else None;
        var eager := lookup.None? && !IsPreparable(sql);
        && con.log == old(con.log) + (if eager then [[Prepare(sql)]] else [])
        && con.cache == old(con.cache)
        && (r.Failure? <==> eager && con.server([Prepare(sql)]).Failure?)
        && (r.Failure? ==> r.error == con.server([Prepare(sql)]).error && con.uses == old(con.uses))
        && (r.Success? ==>
              && fresh(r.value) && fresh(r.value.parameters) && r.value.Valid()
              && r.value.con == con && r.value.sql == sql && r.value.canCachePrepStmts == canCachePrepStmts
              && r.value.canUseServerTimeout == canUseServerTimeout
              && r.value.canUseServerMaxRows == canUseServerMaxRows
              && r.value.autoGeneratedKeys == autoGeneratedKeys
              && r.value.batchParameters == [] && r.value.results.None? && !r.value.closed
              && r.value.parameters.values == map[] && r.value.parameters.length == 0
              && r.value.currResult.None? && r.value.maxRows == 0 && r.value.queryTimeout == 0
              && r.value.prepareResult == (if !eager then lookup else Adopted(con.server([Prepare(sql)]).value))
              && con.uses == Holding(old(con.uses), None, r.value.prepareResult))
    {
      var s := new ServerPreparedStatement.Init(con, sql, canUseServerTimeout, canUseServerMaxRows,
                                                canCachePrepStmts, autoGeneratedKeys);
      if canCachePrepStmts {
        s.prepareResult := con.GetPrepareCacheCmd(sql);
      }
      if s.prepareResult.None? && !IsPreparable(sql) {
        var reply := con.Exchange([Prepare(sql)]);
        if reply.Failure? {
          return Failure(reply.error);
        }
        s.Adopt(reply.value);
      }
      return Success(s);
    }

    /** The client reading a prepare result: the statement takes the
        prepared statement a reply to a PREPARE carries, and counts a use. */
    method Adopt(res: seq<Completion>)
      requires Valid() && prepareResult.None?
      modifies this`prepareResult, con
      ensures Valid() && prepareResult == Adopted(res)
      ensures con.uses == Holding(old(con.uses), None, prepareResult)
      ensures con.log == old(con.log) && con.cache == old(con.cache)
    {
      var h := Adopted(res);
      if h.Some? {
        con.Acquire(h.value);
        prepareResult := h;
      }
    }

    /** `validParameters`. */
    method ValidParameters() returns (failure: Option<SqlError>)
      ensures failure == ParameterCheck(prepareResult, parameters.values, parameters.length, FirstWidth())
    {
      if prepareResult.Some? {
        var n := prepareResult.value.paramCount;
        var i := 0;
        while i < n
          invariant 0 <= i <= n
          invariant FirstUnset(parameters.values, i, n) == FirstUnset(parameters.values, 0, n)
        {
          if !parameters.ContainsKey(i) {
            return Some(SqlError(MissingParameter(i + 1), ParameterNotSet));
          }
          i := i + 1;
        }
        return None;
      } else {
        if |batchParameters| > 0 && parameters.Size() < batchParameters[0].Size() {
          return Some(SqlError(BatchWidthMismatch, ParameterNotSet));
        }
        var n := parameters.Size();
        var i := 0;
        while i < n
          invariant 0 <= i <= n
          invariant FirstUnset(parameters.values, i, n) == FirstUnset(parameters.values, 0, n)
        {
          if !parameters.ContainsKey(i) {
            return Some(SqlError(MissingParameter(i + 1), ParameterNotSet));
          }
          i := i + 1;
        }
        return None;
      }
    }

    /** Sets one parameter of the live list (the base statement's setters). */
    method SetParameter(index: nat, v: Value)
      requires Valid()
      modifies parameters
      ensures Valid()
      ensures parameters.values == old(parameters.values)[index := v]
      ensures parameters.length == if index < old(parameters.length) then old(parameters.length) else index + 1
      ensures BatchValues() == old(BatchValues())
    {
      parameters.Set(index, v);
    }

    /** `addBatch`: after the parameter check, the live list joins the
        batch and a copy of it becomes the live list, so that later
        settings do not reach the entry just added. */
    method AddBatch() returns (failure: Option<SqlError>)
      requires Valid()
      modifies this`batchParameters, this`parameters
      ensures Valid()
      ensures failure == old(ParameterCheck(prepareResult, parameters.values, parameters.length, FirstWidth()))
      ensures failure.Some? ==> batchParameters == old(batchParameters) && parameters == old(parameters)
      ensures failure.None? ==> batchParameters == old(batchParameters) + [old(parameters)] && fresh(parameters)
      ensures parameters.values == old(parameters.values) && parameters.length == old(parameters.length)
      ensures BatchValues() == old(BatchValues()) + (if failure.None? then [old(parameters.values)] else [])
    {
      failure := ValidParameters();
      if failure.Some? {
        return;
      }
      ghost var before := BatchValues();
      batchParameters := batchParameters + [parameters];
      assert ValuesOf(batchParameters) == before + [parameters.values];
      parameters := parameters.Clone();
    }

    /** `executeInternal`: the closed and parameter checks raise before
        anything is sent; otherwise the single execute runs, pipelined or
        standard, and any error clears the results and the current result. */
    method ExecuteInternal() returns (failure: Option<SqlError>)
      requires Valid()
      modifies this`prepareResult, this`results, this`currResult, con
      ensures Valid()
      ensures old(Precheck()).Some? ==>
        && failure == old(Precheck())
        && prepareResult == old(prepareResult) && results == old(results) && currResult == old(currResult)
        && con.log == old(con.log) && con.uses == old(con.uses)
      ensures old(Precheck()).None? ==>
        var t := old(SingleRun());
        && failure == t.failure && results == t.results && prepareResult == t.handle
        && con.log == old(con.log) + t.sent
        && currResult == (if failure.Some? then None else old(currResult))
        && con.uses == Holding(old(con.uses), old(prepareResult), prepareResult)
      ensures con.cache == old(con.cache)
    {
      if closed {
        return Some(ClosedError);
      }
      failure := ValidParameters();
      if failure.Some? {
        return;
      }
      SingleOutcome(con.server, prepareResult, CacheLookup(sql), con.permitPipeline, sql,
                    parameters.values, parameters.length, FirstWidth());
      failure := ExecuteChecked();
      if failure.Some? {
        results := None;
        currResult := None;
      }
    }

    /** The part of `executeInternal` after its checks: the cache lookup
        and the choice between the pipelined and the standard execute. */
    method ExecuteChecked() returns (failure: Option<SqlError>)
      requires Valid()
      modifies this`prepareResult, this`results, con
      ensures Valid()
      ensures var t := old(SingleRun());
        var pipelined := old(Held(prepareResult, CacheLookup(sql)).None? && con.permitPipeline);
        && failure == t.failure && prepareResult == t.handle
        && results == (if failure.None? || pipelined then t.results else old(results))
        && con.log == old(con.log) + t.sent
        && currResult == old(currResult)
        && con.uses == Holding(old(con.uses), old(prepareResult), prepareResult)
      ensures con.cache == old(con.cache)
    {
      ghost var t := SingleRun();
      ghost var h := Held(prepareResult, CacheLookup(sql));
      SingleDependsOnHeld(con.server, prepareResult, CacheLookup(sql), con.permitPipeline, sql,
                          parameters.values, parameters.length, FirstWidth());
      var cmd := sql;
      if prepareResult.None? && canCachePrepStmts {
        prepareResult := con.GetPrepareCacheCmd(cmd);
      }
      assert prepareResult == h;
      if prepareResult.None? && con.permitPipeline {
        failure := ExecutePipeline(cmd, t);
      } else {
        assert Held(prepareResult, CacheLookup(cmd)) == h;
        SingleDependsOnHeld(con.server, prepareResult, CacheLookup(cmd), con.permitPipeline, cmd,
                            parameters.values, parameters.length, FirstWidth());
        failure := ExecuteStandard(cmd, t);
      }
    }

    /** `executePipeline`: PREPARE and EXECUTE in one exchange; the
        completions after the first, the prepare result, are the results. */
    method ExecutePipeline(cmd: string, ghost t: SingleTrace) returns (failure: Option<SqlError>)
      requires Valid() && prepareResult.None? && con.permitPipeline
      requires t == RunSingle(con.server, None, None, true, cmd, parameters.values, parameters.length, FirstWidth())
      modifies this`prepareResult, this`results, con
      ensures Valid()
      ensures && failure == t.failure && results == t.results && prepareResult == t.handle
        && con.log == old(con.log) + t.sent
        && con.uses == Holding(old(con.uses), None, prepareResult)
      ensures con.cache == old(con.cache)
    {
      var reply := con.Exchange(PrepareExecute(cmd, parameters.values));
      if reply.Failure? {
        results := None;
        return Some(reply.error);
      }
      assert |reply.value| >= 2;
      Adopt(reply.value);
      results := Some(reply.value[1..]);
      return None;
    }

    /** The COM_STMT_PREPARE step of `executeStandard` and of each entry of
        `executeBatchStandard`: nothing when a statement is held, the
        cached one when there is one, and otherwise a PREPARE exchange,
        whose failure is returned. */
    method PrepareIfNeeded(cmd: string) returns (abort: Option<SqlError>)
      requires Valid()
      modifies this`prepareResult, con
      ensures Valid()
      ensures var p := old(EnsurePrepared(con.server, CacheLookup(cmd), prepareResult, cmd));
        && abort == p.abort && prepareResult == p.handle
        && con.log == old(con.log) + p.sent
        && con.uses == Holding(old(con.uses), old(prepareResult), prepareResult)
      ensures con.cache == old(con.cache)
    {
      if prepareResult.None? {
        if canCachePrepStmts {
          prepareResult := con.GetPrepareCacheCmd(cmd);
        }
        if prepareResult.None? {
          var reply := con.Exchange([Prepare(cmd)]);
          if reply.Failure? {
            return Some(reply.error);
          }
          Adopt(reply.value);
        }
      }
      return None;
    }

    /** `executeStandard`: PREPARE on its own when no statement is held,
        the parameter check against the statement now held, then EXECUTE. */
    method ExecuteStandard(cmd: string, ghost t: SingleTrace) returns (failure: Option<SqlError>)
      requires Valid() && !(Held(prepareResult, CacheLookup(cmd)).None? && con.permitPipeline)
      requires t == RunSingle(con.server, prepareResult, CacheLookup(cmd), con.permitPipeline, cmd,
                              parameters.values, parameters.length, FirstWidth())
      modifies this`prepareResult, this`results, con
      ensures Valid()
      ensures && failure == t.failure && prepareResult == t.handle
        && results == (if failure.None? then t.results else old(results))
        && con.log == old(con.log) + t.sent
        && con.uses == Holding(old(con.uses), old(prepareResult), prepareResult)
      ensures con.cache == old(con.cache)
    {
      failure := PrepareIfNeeded(cmd);
      if failure.Some? {
        return;
      }
      failure := ValidParameters();
      if failure.Some? {
        return;
      }
      var reply := con.Exchange([Message.Execute(IdOf(prepareResult), parameters.values, cmd)]);
      if reply.Failure? {
        return Some(reply.error);
      }
      results := Some(reply.value);
      return None;
    }

    /** `executeInternalPreparedBatch`: after the closed check, a command
        that may read a local file runs entry by entry; otherwise bulk when
        the bulk predicate allows it and the batch has more than one entry,
        and the windowed pipeline in every other case. True means bulk. */
    method ExecuteInternalPreparedBatch(isInsert: bool, isInsertDuplicate: bool)
      returns (r: Result<bool, StatementError>)
      requires Valid()
      modifies this`prepareResult, this`results, con
      ensures Valid()
      ensures old(closed) ==> r == Failure(Plain(ClosedError)) && con.log == old(con.log) &&
                              prepareResult == old(prepareResult) && results == old(results) &&
                              con.uses == old(con.uses)
      ensures !old(closed) ==>
        var path := old(BatchPathNow(isInsert, isInsertDuplicate));
        var o := old(BatchRun(con.server, prepareResult, CacheLookup(sql), path, sql, BatchValues()));
        && con.log == old(con.log) + o.sent && prepareResult == o.handle
        && con.uses == Holding(old(con.uses), old(prepareResult), prepareResult)
        && (o.error.Some? ==> r == Failure(o.error.value) &&
                              results == (if o.clearsResults then None else old(results)))
        && (o.error.None? ==> r == Success(path == Bulk) && results == Some(o.completions))
      ensures con.cache == old(con.cache)
    {
      if closed {
        return Failure(Plain(ClosedError));
      }
      var cmd := sql;
      var path := BatchPathNow(isInsert, isInsertDuplicate);
      var error: Option<StatementError>;
      if path == PerEntry {
        error := ExecuteBatchStandard(cmd);
      } else if path == Bulk {
        error := ExecuteBatchBulk(cmd);
      } else {
        error := ExecuteBatchPipeline(cmd);
      }
      if error.Some? {
        return Failure(error.value);
      }
      return Success(path == Bulk);
    }

    /** The EXECUTEs of one window of `executeBatchPipeline`. */
    method BuildBunch(id: Option<StatementId>, cmd: string, index: nat) returns (msgs: seq<Message>)
      requires index < |batchParameters|
      ensures msgs == Bunch(id, cmd, BatchValues(), index)
    {
      ghost var batch := BatchValues();
      var n := Min(|batchParameters| - index, MaxCmd);
      var packets := new Message[n];
      for i := index to index + n
        invariant forall k :: 0 <= k < i - index ==> packets[k] == Message.Execute(id, batch[index + k], cmd)
      {
        packets[i - index] := Message.Execute(id, batchParameters[i].values, cmd);
      }
      msgs := packets[..];
      BunchFromSlots(id, cmd, batch, index, msgs);
    }

    /** The PREPARE and the EXECUTEs of the first window, when no statement
        is held: the EXECUTEs name no statement (id -1). */
    method BuildBunchPrepare(cmd: string, index: nat) returns (msgs: seq<Message>)
      requires index <= |batchParameters|
      ensures msgs == BunchPrepare(cmd, BatchValues(), index)
    {
      ghost var batch := BatchValues();
      var n := Min(|batchParameters| - index, MaxCmd);
      var packets := new Message[n + 1];
      packets[0] := Prepare(cmd);
      for i := index to index + n
        invariant packets[0] == Prepare(cmd)
        invariant forall k :: 1 <= k <= i - index ==> packets[k] == Message.Execute(None, batch[index + k - 1], cmd)
      {
        packets[i + 1 - index] := Message.Execute(None, batchParameters[i].values, cmd);
      }
      msgs := packets[..];
      BunchPrepareFromSlots(cmd, batch, index, msgs);
    }

    /** One window of the loop of `executeBatchPipeline`, sent. */
    method SendBunch(cmd: string, index: nat) returns (reply: Reply)
      requires index < |batchParameters|
      modifies con
      ensures var msgs := Bunch(IdOf(prepareResult), cmd, BatchValues(), index);
        reply == con.server(msgs) && con.log == old(con.log) + [msgs]
      ensures con.uses == old(con.uses) && con.cache == old(con.cache)
    {
      var msgs := BuildBunch(IdOf(prepareResult), cmd, index);
      reply := con.Exchange(msgs);
    }

    /** The EXECUTE of one entry of `executeBatchStandard`, sent. */
    method SendExecute(cmd: string, i: nat) returns (reply: Reply)
      requires i < |batchParameters|
      modifies con
      ensures var msgs := [Message.Execute(IdOf(prepareResult), BatchValues()[i], cmd)];
        reply == con.server(msgs) && con.log == old(con.log) + [msgs]
      ensures con.uses == old(con.uses) && con.cache == old(con.cache)
    {
      reply := con.Exchange([Message.Execute(IdOf(prepareResult), batchParameters[i].values, cmd)]);
    }

    /** `executeBatchPipeline`: the cache lookup, the first window with its
        PREPARE when no statement is held, then the remaining windows; the
        completions of all windows become the results, and a failing
        window raises a batch-update error and clears them. */
    method ExecuteBatchPipeline(cmd: string) returns (error: Option<StatementError>)
      requires Valid()
      modifies this`prepareResult, this`results, con
      ensures Valid()
      ensures var o := old(PipelineOutcome(RunPipeline(con.server, Held(prepareResult, CacheLookup(cmd)), cmd,
                                                       BatchValues()), |batchParameters|));
        && error == o.error && prepareResult == o.handle
        && results == (if error.None? then Some(o.completions) else None)
        && con.log == old(con.log) + o.sent
        && con.uses == Holding(old(con.uses), old(prepareResult), prepareResult)
      ensures con.cache == old(con.cache)
    {
      ghost var t := RunPipeline(con.server, Held(prepareResult, CacheLookup(cmd)), cmd, BatchValues());
      if prepareResult.None? && canCachePrepStmts {
        prepareResult := con.GetPrepareCacheCmd(cmd);
      }
      assert t == RunPipeline(con.server, prepareResult, cmd, BatchValues());
      ghost var h1, uses1 := prepareResult, con.uses;
      var failure, res, sent := SendPipeline(cmd);
      HoldingTwice(old(con.uses), old(prepareResult), h1, prepareResult);
      if failure.Some? {
        results := None;
        return Some(BatchUpdate(res, |batchParameters|, failure.value));
      }
      results := Some(res);
      return None;
    }

    /** `executeBatchPipeline` after its cache lookup: the first window
        with its PREPARE when no statement is held, then the loop. */
    method SendPipeline(cmd: string) returns (failure: Option<SqlError>, res: seq<Completion>,
                                              ghost sent: seq<seq<Message>>)
      requires Valid()
      modifies this`prepareResult, con
      ensures Valid()
      ensures old(RunPipeline(con.server, prepareResult, cmd, BatchValues()))
              == Trace(sent, res, failure, prepareResult)
      ensures con.log == old(con.log) + sent
      ensures con.uses == Holding(old(con.uses), old(prepareResult), prepareResult)
      ensures old(prepareResult).Some? ==> prepareResult == old(prepareResult)
      ensures con.cache == old(con.cache)
    {
      if prepareResult.None? {
        failure, res, sent := SendPrefixedPipeline(cmd);
      } else {
        failure, res, sent := SendWindows(cmd, 0, [], []);
        assert [] + sent == sent;
      }
    }

    /** The batch pipeline when no statement is held: the first window is
        prefixed with a PREPARE, whose result the later windows use. */
    method SendPrefixedPipeline(cmd: string) returns (failure: Option<SqlError>, res: seq<Completion>,
                                                      ghost sent: seq<seq<Message>>)
      requires Valid() && prepareResult.None?
      modifies this`prepareResult, con
      ensures Valid()
      ensures old(RunPipeline(con.server, None, cmd, BatchValues())) == Trace(sent, res, failure, prepareResult)
      ensures con.log == old(con.log) + sent
      ensures con.uses == Holding(old(con.uses), None, prepareResult)
      ensures con.cache == old(con.cache)
    {
      var msgs := BuildBunchPrepare(cmd, 0);
      var reply := con.Exchange(msgs);
      if reply.Failure? {
        return Some(reply.error), [], [msgs];
      }
      Adopt(reply.value);
      ghost var rest;
      failure, res, rest := SendWindows(cmd, MaxCmd, StripPrepare(reply.value), [msgs]);
      sent := [msgs] + rest;
    }

    /** The `while (index < size)` loop of `executeBatchPipeline`, from
        window `index0` on, with completions `acc` gathered before it: the
        windows sent and the completions of all that succeeded, up to the
        first that fails. */
    method SendWindows(cmd: string, index0: nat, acc: seq<Completion>, ghost sent0: seq<seq<Message>>)
      returns (failure: Option<SqlError>, res: seq<Completion>, ghost sent: seq<seq<Message>>)
      modifies con
      ensures RunBunches(con.server, prepareResult, cmd, BatchValues(), index0, sent0, acc)
              == Trace(sent0 + sent, res, failure, prepareResult)
      ensures con.log == old(con.log) + sent && con.uses == old(con.uses) && con.cache == old(con.cache)
    {
      ghost var batch := BatchValues();
      ghost var t := RunBunches(con.server, prepareResult, cmd, batch, index0, sent0, acc);
      var index := index0;
      res := acc;
      sent := [];
      assert sent0 + sent == sent0;
      while index < |batchParameters|
        invariant batch == BatchValues()
        invariant t == RunBunches(con.server, prepareResult, cmd, batch, index, sent0 + sent, res)
        invariant con.log == old(con.log) + sent && con.uses == old(con.uses) && con.cache == old(con.cache)
        decreases |batchParameters| - index
      {
        ghost var msgs := Bunch(IdOf(prepareResult), cmd, batch, index);
        var reply := SendBunch(cmd, index);
        assert (sent0 + sent) + [msgs] == sent0 + (sent + [msgs]);
        sent := sent + [msgs];
        if reply.Failure? {
          return Some(reply.error), res, sent;
        }
        res := res + reply.value;
        index := index + MaxCmd;
      }
      return None, res, sent;
    }

    /** `executeBatchStandard`: every entry in its own exchange, after a
        PREPARE when no statement is held; a failing EXECUTE does not stop
        the loop: its error is kept if it is the first, and the completions
        of the others are gathered. A failing PREPARE propagates at once. */
    method ExecuteBatchStandard(cmd: string) returns (error: Option<StatementError>)
      requires Valid()
      modifies this`prepareResult, this`results, con
      ensures Valid()
      ensures var o := old(StandardOutcome(RunStandard(con.server, CacheLookup(cmd), prepareResult, cmd,
                                                       BatchValues(), 0), |batchParameters|));
        && error == o.error && prepareResult == o.handle
        && results == (if error.None? then Some(o.completions) else old(results))
        && con.log == old(con.log) + o.sent
        && con.uses == Holding(old(con.uses), old(prepareResult), prepareResult)
      ensures con.cache == old(con.cache)
    {
      var abort, firstError, tmpResults, sent := SendEntries(cmd);
      if abort.Some? {
        return Some(Plain(abort.value));
      }
      if firstError.Some? {
        return Some(BatchUpdate(tmpResults, |batchParameters|, firstError.value));
      }
      results := Some(tmpResults);
      return None;
    }

    /** The loop of `executeBatchStandard`: the PREPARE error that ended it,
        if any, the first EXECUTE error, and the completions gathered. */
    method SendEntries(cmd: string)
      returns (abort: Option<SqlError>, firstError: Option<SqlError>, tmpResults: seq<Completion>,
               ghost sent: seq<seq<Message>>)
      requires Valid()
      modifies this`prepareResult, con
      ensures Valid()
      ensures old(RunStandard(con.server, CacheLookup(cmd), prepareResult, cmd, BatchValues(), 0))
              == StandardTrace(sent, tmpResults, firstError, abort, prepareResult)
      ensures con.log == old(con.log) + sent
      ensures con.uses == Holding(old(con.uses), old(prepareResult), prepareResult)
      ensures con.cache == old(con.cache)
    {
      ghost var batch := BatchValues();
      ghost var lookup := CacheLookup(cmd);
      ghost var t := RunStandard(con.server, lookup, prepareResult, cmd, batch, 0);
      tmpResults := [];
      firstError := None;
      sent := [];
      assert t == After(sent, tmpResults, firstError, t);
      var i := 0;
      while i < |batchParameters|
        invariant 0 <= i <= |batch| == |batchParameters|
        invariant Valid() && lookup == CacheLookup(cmd) && batch == BatchValues()
        invariant con.cache == old(con.cache)
        invariant t == After(sent, tmpResults, firstError, RunStandard(con.server, lookup, prepareResult, cmd, batch, i))
        invariant con.log == old(con.log) + sent
        invariant con.uses == Holding(old(con.uses), old(prepareResult), prepareResult)
        invariant old(prepareResult).Some? ==> prepareResult == old(prepareResult)
      {
        ghost var h0 := prepareResult;
        abort, tmpResults, firstError, sent := AdvanceEntry(cmd, i, old(con.log), sent, tmpResults, firstError);
        HoldingTwice(old(con.uses), old(prepareResult), h0, prepareResult);
        if abort.Some? {
          return;
        }
        i := i + 1;
      }
      abort := None;
    }

    /** One iteration of the loop of `executeBatchStandard`, on the loop's
        state: exchanges `sent` (after `base`), completions `acc` and first
        error `err`. */
    method AdvanceEntry(cmd: string, i: nat, ghost base: seq<seq<Message>>, ghost sent: seq<seq<Message>>,
                        acc: seq<Completion>, err: Option<SqlError>)
      returns (abort: Option<SqlError>, acc': seq<Completion>, err': Option<SqlError>,
               ghost sent': seq<seq<Message>>)
      requires Valid() && i < |batchParameters| && con.log == base + sent
      modifies this`prepareResult, con
      ensures Valid()
      ensures con.cache == old(con.cache)
      ensures abort.Some? ==> prepareResult.None?
      ensures con.log == base + sent'
      ensures con.uses == Holding(old(con.uses), old(prepareResult), prepareResult)
      ensures old(prepareResult).Some? ==> prepareResult == old(prepareResult)
      ensures var rest := RunStandard(con.server, CacheLookup(cmd), prepareResult, cmd, BatchValues(), i + 1);
        old(After(sent, acc, err, RunStandard(con.server, CacheLookup(cmd), prepareResult, cmd, BatchValues(), i)))
        == if abort.Some? then StandardTrace(sent', acc', err', abort, None) else After(sent', acc', err', rest)
    {
      var reply;
      ghost var step;
      abort, reply, step := SendEntry(cmd, i);
      sent' := sent + step;
      if abort.Some? {
        assert acc + [] == acc;
        return abort, acc, err, sent';
      }
      ghost var next := RunStandard(con.server, CacheLookup(cmd), prepareResult, cmd, BatchValues(), i + 1);
      AfterThen(sent, acc, err, step, reply, next);
      if reply.Success? {
        acc' := acc + reply.value;
        err' := err;
      } else {
        acc' := acc;
        err' := if err.None? then Some(reply.error) else err;
        assert acc + [] == acc;
      }
      assert acc' == acc + Completions(reply) && err' == FirstError(err, reply);
    }

    /** One entry of `executeBatchStandard`: its PREPARE step, then, unless
        that failed, its EXECUTE. */
    method SendEntry(cmd: string, i: nat)
      returns (abort: Option<SqlError>, reply: Reply, ghost step: seq<seq<Message>>)
      requires Valid() && i < |batchParameters|
      modifies this`prepareResult, con
      ensures Valid()
      ensures con.cache == old(con.cache)
      ensures abort.Some? ==> prepareResult.None?
      ensures var rest := RunStandard(con.server, CacheLookup(cmd), prepareResult, cmd, BatchValues(), i + 1);
        old(RunStandard(con.server, CacheLookup(cmd), prepareResult, cmd, BatchValues(), i))
        == if abort.Some? then StandardTrace(step, [], None, abort, None) else Then(step, reply, rest)
      ensures con.log == old(con.log) + step
      ensures con.uses == Holding(old(con.uses), old(prepareResult), prepareResult)
      ensures old(prepareResult).Some? ==> prepareResult == old(prepareResult)
    {
      StandardStep(con.server, CacheLookup(cmd), prepareResult, cmd, BatchValues(), i);
      ghost var p := EnsurePrepared(con.server, CacheLookup(cmd), prepareResult, cmd);
      abort := PrepareIfNeeded(cmd);
      if abort.Some? {
        return abort, Failure(abort.value), p.sent;
      }
      ghost var msgs := [Message.Execute(IdOf(prepareResult), BatchValues()[i], cmd)];
      reply := SendExecute(cmd, i);
      step := p.sent + [msgs];
    }

    /** The bulk batch: one COM_STMT_BULK_EXECUTE of every entry, whose
        completions become the results. */
    method ExecuteBatchBulk(cmd: string) returns (error: Option<StatementError>)
      requires Valid()
      modifies this`results, con
      ensures Valid()
      ensures var o := old(BulkOutcome(con.server, prepareResult, cmd, BatchValues()));
        && error == o.error && prepareResult == o.handle
        && results == (if error.None? then Some(o.completions) else old(results))
        && con.log == old(con.log) + o.sent && con.uses == old(con.uses)
      ensures con.cache == old(con.cache)
    {
      var reply := con.Exchange([BulkExecute(IdOf(prepareResult), BatchValues(), cmd)]);
      if reply.Failure? {
        return Some(Plain(reply.error));
      }
      results := Some(reply.value);
      return None;
    }

    /** `handleParameterOutput`: the first result becomes the current one
        and is removed from the results. */
    method HandleParameterOutput()
      requires results.Some? && |results.value| > 0
      modifies this`results, this`currResult
      ensures currResult == Some(old(results.value[0])) && results == Some(old(results.value[1..]))
    {
      currResult := Some(results.value[0]);
      results := Some(results.value[1..]);
    }

    /** `execute`: true when the first result is a result set. A single
        execute that succeeds always has a first result to take. */
    method Execute() returns (r: Result<bool, SqlError>)
      requires Valid()
      modifies this`prepareResult, this`results, this`currResult, con
      ensures Valid()
      ensures old(Precheck()).Some? ==>
        && r == Failure(old(Precheck()).value)
        && prepareResult == old(prepareResult) && results == old(results) && currResult == old(currResult)
        && con.log == old(con.log) && con.uses == old(con.uses)
      ensures old(Precheck()).None? ==>
        var t := old(SingleRun());
        && con.log == old(con.log) + t.sent && prepareResult == t.handle
        && con.uses == Holding(old(con.uses), old(prepareResult), prepareResult)
        && (t.failure.Some? ==> r == Failure(t.failure.value) && results.None? && currResult.None?)
        && (t.failure.None? ==> t.results.Some? && |t.results.value| >= 1 &&
                                currResult == Some(t.results.value[0]) &&
                                results == Some(t.results.value[1..]) &&
                                r == Success(t.results.value[0].ResultSet?))
      ensures con.cache == old(con.cache)
    {
      ghost var t := SingleRun();
      SingleOutcome(con.server, prepareResult, CacheLookup(sql), con.permitPipeline, sql,
                    parameters.values, parameters.length, FirstWidth());
      var failure := ExecuteInternal();
      if failure.Some? {
        return Failure(failure.value);
      }
      HandleParameterOutput();
      return Success(currResult.value.ResultSet?);
    }

    /** Gives up the held statement: one use fewer, and COM_STMT_CLOSE once
        nothing uses it any more. */
    method ReleaseHandle()
      requires Valid() && prepareResult.Some?
      modifies this`prepareResult, con
      ensures Valid() && prepareResult.None?
      ensures con.uses == Released(old(con.uses), old(prepareResult).value.id)
      ensures con.log == old(con.log) + ReleaseLog(old(con.uses), con.cache, old(prepareResult).value.id)
      ensures con.cache == old(con.cache)
    {
      con.DecrementUse(prepareResult.value);
      prepareResult := None;
    }

    /** `setMaxRows`: a server-side row limit is part of the prepared
        statement, so a held one is given up. */
    method SetMaxRows(max: nat)
      requires Valid()
      modifies this`maxRows, this`prepareResult, con
      ensures Valid() && maxRows == max
      ensures canUseServerMaxRows && old(prepareResult).Some? ==>
        && prepareResult.None?
        && con.uses == Released(old(con.uses), old(prepareResult).value.id)
        && con.log == old(con.log) + ReleaseLog(old(con.uses), con.cache, old(prepareResult).value.id)
      ensures !(canUseServerMaxRows && old(prepareResult).Some?) ==>
        prepareResult == old(prepareResult) && con.uses == old(con.uses) && con.log == old(con.log)
      ensures con.cache == old(con.cache)
    {
      maxRows := max;
      if canUseServerMaxRows && prepareResult.Some? {
        ReleaseHandle();
      }
    }

    /** `setLargeMaxRows`: as `setMaxRows`. */
    method SetLargeMaxRows(max: nat)
      requires Valid()
      modifies this`maxRows, this`prepareResult, con
      ensures Valid() && maxRows == max
      ensures canUseServerMaxRows && old(prepareResult).Some? ==>
        && prepareResult.None?
        && con.uses == Released(old(con.uses), old(prepareResult).value.id)
        && con.log == old(con.log) + ReleaseLog(old(con.uses), con.cache, old(prepareResult).value.id)
      ensures !(canUseServerMaxRows && old(prepareResult).Some?) ==>
        prepareResult == old(prepareResult) && con.uses == old(con.uses) && con.log == old(con.log)
      ensures con.cache == old(con.cache)
    {
      maxRows := max;
      if canUseServerMaxRows && prepareResult.Some? {
        ReleaseHandle();
      }
    }

    /** `setQueryTimeout`: a server-side timeout is part of the prepared
        statement, so a held one is given up. */
    method SetQueryTimeout(seconds: nat)
      requires Valid()
      modifies this`queryTimeout, this`prepareResult, con
      ensures Valid() && queryTimeout == seconds
      ensures canUseServerTimeout && old(prepareResult).Some? ==>
        && prepareResult.None?
        && con.uses == Released(old(con.uses), old(prepareResult).value.id)
        && con.log == old(con.log) + ReleaseLog(old(con.uses), con.cache, old(prepareResult).value.id)
      ensures !(canUseServerTimeout && old(prepareResult).Some?) ==>
        prepareResult == old(prepareResult) && con.uses == old(con.uses) && con.log == old(con.log)
      ensures con.cache == old(con.cache)
    {
      queryTimeout := seconds;
      if canUseServerTimeout && prepareResult.Some? {
        ReleaseHandle();
      }
    }

    /** `close`: gives up a held statement and marks the statement closed. */
    method Close()
      requires Valid()
      modifies this`prepareResult, this`closed, con
      ensures Valid() && closed && prepareResult.None?
      ensures old(prepareResult).Some? ==>
        && con.uses == Released(old(con.uses), old(prepareResult).value.id)
        && con.log == old(con.log) + ReleaseLog(old(con.uses), con.cache, old(prepareResult).value.id)
      ensures old(prepareResult).None? ==> con.uses == old(con.uses) && con.log == old(con.log)
      ensures con.cache == old(con.cache)
    {
      if prepareResult.Some? {
        ReleaseHandle();
      }
      closed := true;
    }
  }

  /** Closing twice releases the held statement once: the second close
      finds no statement and changes nothing. */
  method CloseTwice(s: ServerPreparedStatement)
    requires s.Valid()
    modifies s`prepareResult, s`closed, s.con
    ensures s.closed && s.prepareResult.None?
    ensures old(s.prepareResult).Some? ==>
      s.con.uses == Released(old(s.con.uses), old(s.prepareResult).value.id) &&
      s.con.log == old(s.con.log) + ReleaseLog(old(s.con.uses), s.con.cache, old(s.prepareResult).value.id)
    ensures old(s.prepareResult).None? ==> s.con.uses == old(s.con.uses) && s.con.log == old(s.con.log)
    ensures s.con.cache == old(s.con.cache)
  {
    s.Close();
    s.Close();
  }

  /** A snapshot taken by `addBatch` is not changed by setting parameters
      afterwards. */
  method AddBatchThenSet(s: ServerPreparedStatement, index: nat, v: Value) returns (failure: Option<SqlError>)
    requires s.Valid()
    modifies s`batchParameters, s`parameters
    ensures s.Valid()
    ensures failure.None? ==> s.BatchValues() == old(s.BatchValues()) + [old(s.parameters.values)]
    ensures failure.None? ==> s.parameters.values == old(s.parameters.values)[index := v]
    ensures failure.None? ==>
      s.parameters.length == if index < old(s.parameters.length) then old(s.parameters.length) else index + 1
    ensures failure.Some? ==>
      s.BatchValues() == old(s.BatchValues()) && s.parameters == old(s.parameters) &&
      s.parameters.values == old(s.parameters.values) && s.parameters.length == old(s.parameters.length)
  {
    failure := s.AddBatch();
    if failure.None? {
      s.SetParameter(index, v);
    }
  }
}
