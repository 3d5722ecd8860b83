/** The vocabulary the prepared-statement engine speaks with the server:
    the binary-protocol messages it sends, the completions it reads back,
    and the connection that carries them (transport, prepare cache and the
    use counters of prepared statements). */
module Protocol {
  import opened Wire

  /** Server-side identifier of a prepared statement. */
  type StatementId = nat

  /** The answer to a COM_STMT_PREPARE: the statement identifier and how
      many parameters and result columns the server found in the command. */
  datatype Handle = Handle(id: StatementId, paramCount: nat, columnCount: nat)

  /** A parameter value; its binary encoding is not modelled. */
  datatype Value = NullValue | IntValue(i: int) | TextValue(s: string) | BytesValue(b: seq<byte>)

  /** One set of parameters: 0-based position to value. */
  type Params = map<nat, Value>

  datatype Message =
    | Prepare(sql: string)
      // COM_STMT_PREPARE
    | Execute(statement: Option<StatementId>, params: Params, sql: string)
      // COM_STMT_EXECUTE; None stands for statement id -1, "the statement
      // prepared just before in the same pipeline"
    | BulkExecute(statement: Option<StatementId>, entries: seq<Params>, sql: string)
      // COM_STMT_BULK_EXECUTE
    | CloseStatement(id: StatementId)
      // COM_STMT_CLOSE

  datatype Completion =
    | ResultSet(rows: nat)
    | Update(affectedRows: nat, insertId: int)
    | PrepareResult(handle: Handle)

  datatype ErrorKind =
    | ServerError(code: nat)
    | MissingParameter(position: nat)
    | BatchWidthMismatch
    | StatementClosed

  datatype SqlError = SqlError(kind: ErrorKind, sqlState: string)

  /** The completions of one exchange, or the error that ended it. */
  type Reply = Result<seq<Completion>, SqlError>

  /** The server behind the socket: the reply to each sequence of messages
      written in one exchange. */
  type Transport = seq<Message> -> Reply

  /** Every message of an exchange that succeeds is answered by at least
      one completion. */
  ghost predicate WellFormed(server: Transport)
  {
    forall msgs {:trigger server(msgs)} :: server(msgs).Success? ==> |server(msgs).value| >= |msgs|
  }

  /** The use count of a statement id (0 when it was never acquired). */
  function Uses(uses: map<StatementId, nat>, id: StatementId): nat
  {
    if id in uses then uses[id] else 0
  }

  function Acquired(uses: map<StatementId, nat>, id: StatementId): (u: map<StatementId, nat>)
    ensures Uses(u, id) == Uses(uses, id) + 1
    ensures forall other :: other != id ==> Uses(u, other) == Uses(uses, other)
  {
    uses[id := Uses(uses, id) + 1]
  }

  function Released(uses: map<StatementId, nat>, id: StatementId): (u: map<StatementId, nat>)
    ensures Uses(uses, id) > 0 ==> Uses(u, id) + 1 == Uses(uses, id)
    ensures Uses(uses, id) == 0 ==> Uses(u, id) == 0
    ensures forall other :: other != id ==> Uses(u, other) == Uses(uses, other)
  {
    uses[id := if Uses(uses, id) > 0 then Uses(uses, id) - 1 else 0]
  }

  /** The use counts once a holder that held `before` holds `after`:
      taking a statement where none was held counts one use of it. */
  function Holding(uses: map<StatementId, nat>, before: Option<Handle>, after: Option<Handle>)
    : (u: map<StatementId, nat>)
  {
    if before.None? && after.Some? then Acquired(uses, after.value.id) else uses
  }

  /** Holding in two steps counts as holding in one, for a holder that
      keeps a statement once it has one. */
  lemma HoldingTwice(uses: map<StatementId, nat>, h0: Option<Handle>, h1: Option<Handle>, h2: Option<Handle>)
    requires h0.Some? ==> h1 == h0
    requires h1.Some? ==> h2 == h1
    ensures Holding(Holding(uses, h0, h1), h1, h2) == Holding(uses, h0, h2)
  {
  }

  function Lookup(cache: map<string, Handle>, cmd: string): (h: Option<Handle>)
    ensures h.Some? <==> cmd in cache
    ensures h.Some? ==> h.value == cache[cmd]
  {
    if cmd in cache then Some(cache[cmd]) else None
  }

  predicate Resident(cache: map<string, Handle>, id: StatementId)
  {
    exists cmd :: cmd in cache && cache[cmd].id == id
  }

  /** What releasing one use of `id` writes: COM_STMT_CLOSE once no use
      remains and the cache no longer holds the statement. */
  function ReleaseLog(uses: map<StatementId, nat>, cache: map<string, Handle>, id: StatementId)
    : seq<seq<Message>>
  {
    if Uses(Released(uses, id), id) == 0 && !Resident(cache, id) then [[CloseStatement(id)]] else []
  }

  /** A connection: server capabilities and configuration, the prepare
      cache, the use counter of every prepared statement, and the log of
      exchanges written to the server. */
  class Connection {
    const server: Transport
    const permitPipeline: bool          // server allows PREPARE + EXECUTE in one write
    const localFiles: bool              // client capability LOCAL_FILES
    const serverBulk: bool              // server capability STMT_BULK_OPERATIONS
    const bulkUnitResults: bool         // client capability BULK_UNIT_RESULTS
    const useBulkStmts: bool            // option useBulkStmts
    const useBulkStmtsForInserts: bool  // option useBulkStmtsForInserts
    var cache: map<string, Handle>
    var uses: map<StatementId, nat>
    var log: seq<seq<Message>>

    ghost predicate Valid()
    {
      WellFormed(server)
    }

    constructor (server: Transport, permitPipeline: bool, localFiles: bool, serverBulk: bool,
                 bulkUnitResults: bool, useBulkStmts: bool, useBulkStmtsForInserts: bool,
                 cache: map<string, Handle>)
      requires WellFormed(server)
      ensures Valid()
      ensures this.server == server && this.permitPipeline == permitPipeline
      ensures this.localFiles == localFiles && this.serverBulk == serverBulk
      ensures this.bulkUnitResults == bulkUnitResults && this.useBulkStmts == useBulkStmts
      ensures this.useBulkStmtsForInserts == useBulkStmtsForInserts
      ensures this.cache == cache && uses == map[] && log == []
    {
      this.server := server;
      this.permitPipeline := permitPipeline;
      this.localFiles := localFiles;
      this.serverBulk := serverBulk;
      this.bulkUnitResults := bulkUnitResults;
      this.useBulkStmts := useBulkStmts;
      this.useBulkStmtsForInserts := useBulkStmtsForInserts;
      this.cache := cache;
      uses := map[];
      log := [];
    }

    /** Writes `msgs` in one exchange and reads every answer. */
    method Exchange(msgs: seq<Message>) returns (r: Reply)
      modifies this
      ensures r == server(msgs)
      ensures log == old(log) + [msgs] && cache == old(cache) && uses == old(uses)
    {
      r := server(msgs);
      log := log + [msgs];
    }

    /** The cached prepared statement for `cmd`, if any; taking it counts
        one more use. */
    method GetPrepareCacheCmd(cmd: string) returns (h: Option<Handle>)
      modifies this
      ensures h == Lookup(cache, cmd)
      ensures uses == if h.Some? then Acquired(old(uses), h.value.id) else old(uses)
      ensures log == old(log) && cache == old(cache)
    {
      h := Lookup(cache, cmd);
      if h.Some? {
        uses := Acquired(uses, h.value.id);
      }
    }

    /** Counts a use of a statement the client has just prepared. */
    method Acquire(h: Handle)
      modifies this
      ensures uses == Acquired(old(uses), h.id)
      ensures log == old(log) && cache == old(cache)
    {
      uses := Acquired(uses, h.id);
    }

    /** Releases one use; once no use remains and the cache does not hold
        the statement, COM_STMT_CLOSE is sent for it. */
    method DecrementUse(h: Handle)
      modifies this
      ensures uses == Released(old(uses), h.id) && cache == old(cache)
      ensures log == old(log) + ReleaseLog(old(uses), cache, h.id)
    {
      uses := Released(uses, h.id);
      if Uses(uses, h.id) == 0 && !Resident(cache, h.id) {
        log := log + [[CloseStatement(h.id)]];
      }
    }
  }
}
