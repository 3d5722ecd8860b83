/** The batch pipeline of the server-prepared statement: a batch is sent
    in windows of at most 250 COM_STMT_EXECUTE, the first window prefixed
    with a COM_STMT_PREPARE when no prepared statement is held, and the
    completions of all windows are concatenated in batch order.

    The messages each window carries do not depend on the server (the
    "plan"); what the run adds is where it stops on an error and which
    completions it keeps. */
module Batching {
  import opened Wire
  import opened Protocol

  /** Largest number of EXECUTEs written in one window. */
  const MaxCmd: nat := 250

  function Min(a: int, b: int): int
  {
    if a <= b then a else b
  }

  /** The statement id an EXECUTE names for a held handle (None: id -1). */
  function IdOf(h: Option<Handle>): Option<StatementId>
  {
    if h.Some? then Some(h.value.id) else None
  }

  /** EXECUTEs of batch entries index .. index + count - 1, in that order. */
  function Executes(id: Option<StatementId>, cmd: string, batch: seq<Params>, index: nat, count: nat)
    : (r: seq<Message>)
    requires index + count <= |batch|
    ensures |r| == count
    ensures forall k :: 0 <= k < count ==> r[k] == Execute(id, batch[index + k], cmd)
  {
    seq(count, k requires 0 <= k < count => Execute(id, batch[index + k], cmd))
  }

  /** Number of EXECUTEs in the window that starts at `index`. */
  function WindowCount(size: nat, index: nat): nat
  {
    if index < size then Min(size - index, MaxCmd) else 0
  }

  /** The messages of `executeBunch`. */
  function Bunch(id: Option<StatementId>, cmd: string, batch: seq<Params>, index: nat): seq<Message>
  {
    if index < |batch| then Executes(id, cmd, batch, index, WindowCount(|batch|, index)) else []
  }

  /** The messages of `executeBunchPrepare`: slot 0 is the PREPARE, the
      EXECUTEs name the statement it prepares. */
  function BunchPrepare(cmd: string, batch: seq<Params>, index: nat): seq<Message>
  {
    [Prepare(cmd)] + Bunch(None, cmd, batch, index)
  }

  /** A window is determined by its slots: the EXECUTEs of the entries
      from `index` on, as many as the window holds. */
  lemma BunchFromSlots(id: Option<StatementId>, cmd: string, batch: seq<Params>, index: nat,
                       msgs: seq<Message>)
    requires index < |batch| && |msgs| == WindowCount(|batch|, index)
    requires forall k :: 0 <= k < |msgs| ==> msgs[k] == Execute(id, batch[index + k], cmd)
    ensures msgs == Bunch(id, cmd, batch, index)
  {
    var w := Bunch(id, cmd, batch, index);
    assert |w| == |msgs|;
    forall k | 0 <= k < |msgs|
      ensures msgs[k] == w[k]
    {
    }
  }

  /** The first window with its PREPARE, determined by its slots. */
  lemma BunchPrepareFromSlots(cmd: string, batch: seq<Params>, index: nat, msgs: seq<Message>)
    requires index <= |batch| && |msgs| == WindowCount(|batch|, index) + 1 && msgs[0] == Prepare(cmd)
    requires forall k :: 1 <= k < |msgs| ==> msgs[k] == Execute(None, batch[index + k - 1], cmd)
    ensures msgs == BunchPrepare(cmd, batch, index)
  {
    if index < |batch| {
      BunchFromSlots(None, cmd, batch, index, msgs[1..]);
    }
    assert msgs == [msgs[0]] + msgs[1..];
  }

  /** Drops a leading prepare result, so that completions line up with
      batch entries; any other reply is kept whole. */
  function StripPrepare(res: seq<Completion>): (r: seq<Completion>)
    ensures |res| > 0 && res[0].PrepareResult? ==> [res[0]] + r == res
    ensures !(|res| > 0 && res[0].PrepareResult?) ==> r == res
  {
    if |res| > 0 && res[0].PrepareResult? then res[1..] else res
  }

  /** The prepared statement a reply to a PREPARE hands to the statement. */
  function Adopted(res: seq<Completion>): (h: Option<Handle>)
    ensures h.Some? <==> |res| > 0 && res[0].PrepareResult?
    ensures h.Some? ==> res[0] == PrepareResult(h.value)
  {
    if |res| > 0 && res[0].PrepareResult? then Some(res[0].handle) else None
  }

  // ---------------------------------------------------------------------
  // The plan

  /** The windows of the `while (index < size)` loop, from `index` on. */
  function LoopWindows(id: Option<StatementId>, cmd: string, batch: seq<Params>, index: nat)
    : seq<seq<Message>>
    decreases |batch| - index
  {
    if index < |batch| then [Bunch(id, cmd, batch, index)] + LoopWindows(id, cmd, batch, index + MaxCmd)
    else []
  }

  /** Every exchange the batch pipeline writes when all succeed; `adopted`
      is the statement the first reply prepared, when there was no held
      one. */
  function Plan(held: Option<Handle>, adopted: Option<StatementId>, cmd: string, batch: seq<Params>)
    : seq<seq<Message>>
  {
    if held.Some? then LoopWindows(IdOf(held), cmd, batch, 0)
    else [BunchPrepare(cmd, batch, 0)] + LoopWindows(adopted, cmd, batch, MaxCmd)
  }

  /** Window sizes of the loop from `index`, and of the whole pipeline. */
  function LoopSizes(size: nat, index: nat): seq<nat>
    decreases size - index
  {
    if index < size then [Min(size - index, MaxCmd)] + LoopSizes(size, index + MaxCmd) else []
  }

  function WindowSizes(size: nat, prepareFirst: bool): seq<nat>
  {
    if prepareFirst then [Min(size, MaxCmd)] + LoopSizes(size, MaxCmd) else LoopSizes(size, 0)
  }

  function Sum(s: seq<nat>): nat
  {
    if s == [] then 0 else s[0] + Sum(s[1..])
  }

  /** Number of EXECUTE messages in one exchange. */
  function ExecuteCount(msgs: seq<Message>): nat
  {
    if msgs == [] then 0 else (if msgs[0].Execute? then 1 else 0) + ExecuteCount(msgs[1..])
  }

  function Counts(xs: seq<seq<Message>>): (r: seq<nat>)
    ensures |r| == |xs|
  {
    if xs == [] then [] else [ExecuteCount(xs[0])] + Counts(xs[1..])
  }

  /** The parameter sets the EXECUTEs of an exchange carry, in order. */
  function EntriesOf(msgs: seq<Message>): seq<Params>
  {
    if msgs == [] then []
    else (if msgs[0].Execute? then [msgs[0].params] else []) + EntriesOf(msgs[1..])
  }

  /** The parameter sets the EXECUTEs of a sequence of exchanges carry. */
  function SentEntries(xs: seq<seq<Message>>): seq<Params>
  {
    if xs == [] then [] else EntriesOf(xs[0]) + SentEntries(xs[1..])
  }

  // ---------------------------------------------------------------------
  // The run against a server

  /** What a batch pipeline did: the exchanges written, the completions
      kept, the error that stopped it, and the statement held at the end. */
  datatype Trace = Trace(sent: seq<seq<Message>>, completions: seq<Completion>,
                         failure: Option<SqlError>, handle: Option<Handle>)

  /** The `while (index < size)` loop of `executeBatchPipeline`. */
  function RunBunches(server: Transport, handle: Option<Handle>, cmd: string, batch: seq<Params>,
                      index: nat, sent: seq<seq<Message>>, acc: seq<Completion>): Trace
    decreases |batch| - index
  {
    if index >= |batch| then Trace(sent, acc, None, handle)
    else
      var msgs := Bunch(IdOf(handle), cmd, batch, index);
      match server(msgs)
      case Failure(e) => Trace(sent + [msgs], acc, Some(e), handle)
      case Success(rs) => RunBunches(server, handle, cmd, batch, index + MaxCmd, sent + [msgs], acc + rs)
  }

  /** `executeBatchPipeline` after its cache lookup: `held` is the
      prepared statement it starts with. */
  function RunPipeline(server: Transport, held: Option<Handle>, cmd: string, batch: seq<Params>): Trace
  {
    if held.Some? then RunBunches(server, held, cmd, batch, 0, [], [])
    else
      var msgs := BunchPrepare(cmd, batch, 0);
      match server(msgs)
      case Failure(e) => Trace([msgs], [], Some(e), None)
      case Success(rs) => RunBunches(server, Adopted(rs), cmd, batch, MaxCmd, [msgs], StripPrepare(rs))
  }

  // ---------------------------------------------------------------------
  // Window arithmetic

  /** Closed form of the loop's windows: window k from `index` holds
      min(size - index - 250k, 250) entries, there are ceil((size-index)/250)
      of them, and together they cover the remaining entries. */
  lemma {:induction false} LoopSizesClosedForm(size: nat, index: nat)
    ensures |LoopSizes(size, index)| == if index < size then (size - index + MaxCmd - 1) / MaxCmd else 0
    ensures forall k :: 0 <= k < |LoopSizes(size, index)| ==>
              LoopSizes(size, index)[k] == Min(size - index - MaxCmd * k, MaxCmd) &&
              1 <= LoopSizes(size, index)[k] <= MaxCmd
    ensures Sum(LoopSizes(size, index)) == if index < size then size - index else 0
    decreases size - index
  {
    if index < size {
      var rest := LoopSizes(size, index + MaxCmd);
      LoopSizesClosedForm(size, index + MaxCmd);
      assert LoopSizes(size, index) == [Min(size - index, MaxCmd)] + rest;
      forall k | 1 <= k < |LoopSizes(size, index)|
        ensures LoopSizes(size, index)[k] == Min(size - index - MaxCmd * k, MaxCmd)
      {
        assert LoopSizes(size, index)[k] == rest[k - 1];
      }
      assert ([Min(size - index, MaxCmd)] + rest)[1..] == rest;
    }
  }

  /** Prefixing the first window with a PREPARE moves no window boundary:
      for a non-empty batch the windows are those of a held statement. For
      an empty batch the PREPARE is still sent, with no EXECUTE. */
  lemma PrepareKeepsWindows(size: nat)
    ensures size > 0 ==> WindowSizes(size, true) == WindowSizes(size, false)
    ensures WindowSizes(0, true) == [0] && WindowSizes(0, false) == []
  {
  }

  /** Every window size of the pipeline: all are at most 250, they add up
      to the batch size, and all but the last are full. */
  lemma WindowSizesCover(size: nat, prepareFirst: bool)
    ensures Sum(WindowSizes(size, prepareFirst)) == size
    ensures forall k :: 0 <= k < |WindowSizes(size, prepareFirst)| ==>
              WindowSizes(size, prepareFirst)[k] == Min(size - MaxCmd * k, MaxCmd)
    ensures |WindowSizes(size, prepareFirst)| ==
              if size == 0 then (if prepareFirst then 1 else 0) else (size + MaxCmd - 1) / MaxCmd
  {
    LoopSizesClosedForm(size, 0);
    if size > 0 {
      PrepareKeepsWindows(size);
    }
  }

  /** 501 entries without a held statement: windows of 250, 250 and 1. */
  lemma WindowsOf501()
    ensures WindowSizes(501, true) == [250, 250, 1]
    ensures WindowSizes(501, false) == [250, 250, 1]
  {
    assert LoopSizes(501, 750) == [];
    assert LoopSizes(501, 500) == [1];
    assert LoopSizes(501, 250) == [250, 1];
    assert LoopSizes(501, 0) == [250, 250, 1];
  }

  // ---------------------------------------------------------------------
  // What the plan sends

  lemma ExecutesFront(id: Option<StatementId>, cmd: string, batch: seq<Params>, index: nat, count: nat)
    requires 0 < count && index + count <= |batch|
    ensures Executes(id, cmd, batch, index, count)
            == [Execute(id, batch[index], cmd)] + Executes(id, cmd, batch, index + 1, count - 1)
  {
  }

  /** A run of EXECUTEs carries `count` EXECUTEs, for exactly the entries
      index .. index + count - 1, in order. */
  lemma {:induction false} ExecutesCarry(id: Option<StatementId>, cmd: string, batch: seq<Params>,
                                         index: nat, count: nat)
    requires index + count <= |batch|
    ensures ExecuteCount(Executes(id, cmd, batch, index, count)) == count
    ensures EntriesOf(Executes(id, cmd, batch, index, count)) == batch[index..index + count]
    decreases count
  {
    var xs := Executes(id, cmd, batch, index, count);
    if count > 0 {
      ExecutesFront(id, cmd, batch, index, count);
      ExecutesCarry(id, cmd, batch, index + 1, count - 1);
      assert xs[1..] == Executes(id, cmd, batch, index + 1, count - 1);
      assert batch[index..index + count] == [batch[index]] + batch[index + 1..index + count];
    }
  }

  /** The windows of the loop carry LoopSizes EXECUTEs each and, together,
      every entry from `index` on exactly once and in ascending order. */
  lemma {:induction false} LoopWindowsCarry(id: Option<StatementId>, cmd: string, batch: seq<Params>,
                                            index: nat)
    ensures Counts(LoopWindows(id, cmd, batch, index)) == LoopSizes(|batch|, index)
    ensures SentEntries(LoopWindows(id, cmd, batch, index)) == if index < |batch| then batch[index..] else []
    ensures forall i, j :: 0 <= i < |LoopWindows(id, cmd, batch, index)| &&
                           0 <= j < |LoopWindows(id, cmd, batch, index)[i]| ==>
              LoopWindows(id, cmd, batch, index)[i][j].Execute? &&
              LoopWindows(id, cmd, batch, index)[i][j].statement == id
    decreases |batch| - index
  {
    var ws := LoopWindows(id, cmd, batch, index);
    if index < |batch| {
      var w := Bunch(id, cmd, batch, index);
      var rest := LoopWindows(id, cmd, batch, index + MaxCmd);
      var n := WindowCount(|batch|, index);
      LoopWindowsCarry(id, cmd, batch, index + MaxCmd);
      ExecutesCarry(id, cmd, batch, index, n);
      assert ws == [w] + rest;
      assert ws[1..] == rest;
      if index + MaxCmd < |batch| {
        assert batch[index..] == batch[index..index + n] + batch[index + MaxCmd..];
      } else {
        assert batch[index..] == batch[index..index + n];
      }
      forall i, j | 0 <= i < |ws| && 0 <= j < |ws[i]|
        ensures ws[i][j].Execute? && ws[i][j].statement == id
      {
        if i > 0 {
          assert ws[i] == rest[i - 1];
        }
      }
    }
  }

  /** The exchanges the batch pipeline plans: their EXECUTE counts are the
      window sizes, they carry every batch entry exactly once and in order,
      and the only PREPARE is slot 0 of the first exchange, sent only when
      no statement is held. */
  lemma PlanCarriesBatch(held: Option<Handle>, adopted: Option<StatementId>, cmd: string,
                         batch: seq<Params>)
    ensures Counts(Plan(held, adopted, cmd, batch)) == WindowSizes(|batch|, held.None?)
    ensures SentEntries(Plan(held, adopted, cmd, batch)) == batch
    ensures forall i, j :: 0 <= i < |Plan(held, adopted, cmd, batch)| &&
                           0 <= j < |Plan(held, adopted, cmd, batch)[i]| ==>
              (Plan(held, adopted, cmd, batch)[i][j].Prepare? <==> held.None? && i == 0 && j == 0)
  {
    var plan := Plan(held, adopted, cmd, batch);
    if held.Some? {
      LoopWindowsCarry(IdOf(held), cmd, batch, 0);
      assert batch[0..] == batch;
    } else {
      var first := BunchPrepare(cmd, batch, 0);
      var rest := LoopWindows(adopted, cmd, batch, MaxCmd);
      var n := WindowCount(|batch|, 0);
      LoopWindowsCarry(adopted, cmd, batch, MaxCmd);
      assert plan == [first] + rest;
      assert plan[1..] == rest;
      assert Bunch(None, cmd, batch, 0) == Executes(None, cmd, batch, 0, n);
      ExecutesCarry(None, cmd, batch, 0, n);
      assert first[1..] == Bunch(None, cmd, batch, 0);
      assert ExecuteCount(first) == n;
      assert EntriesOf(first) == batch[0..n];
      assert n == Min(|batch|, MaxCmd);
      if MaxCmd < |batch| {
        assert batch == batch[0..n] + batch[MaxCmd..];
      } else {
        assert batch == batch[0..n];
      }
      forall i, j | 0 <= i < |plan| && 0 <= j < |plan[i]|
        ensures plan[i][j].Prepare? <==> i == 0 && j == 0
      {
        if i > 0 {
          assert plan[i] == rest[i - 1];
        } else if j > 0 {
          assert plan[i][j] == first[1..][j - 1];
        }
      }
    }
  }

  // ---------------------------------------------------------------------
  // The run follows the plan

  /** The loop writes a prefix of its planned windows: all of them when no
      window fails, up to and including the failing one otherwise. */
  lemma {:induction false} RunBunchesFollowsPlan(server: Transport, handle: Option<Handle>, cmd: string,
                                                 batch: seq<Params>, index: nat,
                                                 sent: seq<seq<Message>>, acc: seq<Completion>)
    ensures var t := RunBunches(server, handle, cmd, batch, index, sent, acc);
      && t.handle == handle
      && |sent| <= |t.sent| && t.sent[..|sent|] == sent
      && t.sent[|sent|..] <= LoopWindows(IdOf(handle), cmd, batch, index)
      && (t.failure.None? ==> t.sent[|sent|..] == LoopWindows(IdOf(handle), cmd, batch, index))
      && (t.failure.Some? ==> |t.sent| > |sent| && index < |batch|)
    decreases |batch| - index
  {
    var t := RunBunches(server, handle, cmd, batch, index, sent, acc);
    if index < |batch| {
      var msgs := Bunch(IdOf(handle), cmd, batch, index);
      var plan := LoopWindows(IdOf(handle), cmd, batch, index);
      assert plan == [msgs] + LoopWindows(IdOf(handle), cmd, batch, index + MaxCmd);
      match server(msgs)
      case Failure(e) =>
        assert t.sent[|sent|..] == [msgs];
      case Success(rs) =>
        RunBunchesFollowsPlan(server, handle, cmd, batch, index + MaxCmd, sent + [msgs], acc + rs);
        assert t.sent[|sent|..] == [msgs] + t.sent[|sent| + 1..];
    }
  }

  /** The batch pipeline writes a prefix of its plan, the whole plan when it
      succeeds. A held statement is kept; otherwise the statement is the one
      the first reply prepared, if any. */
  lemma PipelineFollowsPlan(server: Transport, held: Option<Handle>, cmd: string, batch: seq<Params>)
    ensures var t := RunPipeline(server, held, cmd, batch);
      && t.sent <= Plan(held, IdOf(t.handle), cmd, batch)
      && |t.sent| >= (if held.None? then 1 else 0)
      && (t.failure.None? ==> t.sent == Plan(held, IdOf(t.handle), cmd, batch))
      && (t.failure.Some? ==> |t.sent| >= 1)
      && (held.Some? ==> t.handle == held)
      && (held.None? ==> t.handle == match server(BunchPrepare(cmd, batch, 0))
                                    case Success(rs) => Adopted(rs)
                                    case Failure(_) => None)
  {
    var t := RunPipeline(server, held, cmd, batch);
    if held.Some? {
      RunBunchesFollowsPlan(server, held, cmd, batch, 0, [], []);
      assert t.sent[0..] == t.sent;
    } else {
      var msgs := BunchPrepare(cmd, batch, 0);
      match server(msgs)
      case Failure(e) =>
      case Success(rs) =>
        RunBunchesFollowsPlan(server, Adopted(rs), cmd, batch, MaxCmd, [msgs], StripPrepare(rs));
        assert t.sent == [msgs] + t.sent[1..];
    }
  }

  // ---------------------------------------------------------------------
  // Completions line up with batch entries

  /** A server that answers every message with exactly one completion, a
      prepare result exactly for a PREPARE. */
  ghost predicate OnePerMessage(server: Transport)
  {
    forall msgs: seq<Message> {:trigger server(msgs)} :: server(msgs).Success? ==>
      |server(msgs).value| == |msgs| &&
      forall i :: 0 <= i < |msgs| ==> (server(msgs).value[i].PrepareResult? <==> msgs[i].Prepare?)
  }

  predicate NoPrepareResults(cs: seq<Completion>)
  {
    forall i :: 0 <= i < |cs| ==> !cs[i].PrepareResult?
  }

  lemma {:induction false} RunBunchesAligned(server: Transport, handle: Option<Handle>, cmd: string,
                                             batch: seq<Params>, index: nat,
                                             sent: seq<seq<Message>>, acc: seq<Completion>)
    requires OnePerMessage(server)
    ensures var t := RunBunches(server, handle, cmd, batch, index, sent, acc);
      && |acc| <= |t.completions| && t.completions[..|acc|] == acc
      && NoPrepareResults(t.completions[|acc|..])
      && (t.failure.None? ==> |t.completions| == |acc| + (if index < |batch| then |batch| - index else 0))
      && (t.failure.Some? ==> |t.sent| > |sent| && index < |batch| &&
                              |t.completions| == |acc| + MaxCmd * (|t.sent| - |sent| - 1))
    decreases |batch| - index
  {
    var t := RunBunches(server, handle, cmd, batch, index, sent, acc);
    if index < |batch| {
      var msgs := Bunch(IdOf(handle), cmd, batch, index);
      var n := WindowCount(|batch|, index);
      assert msgs == Executes(IdOf(handle), cmd, batch, index, n);
      match server(msgs)
      case Failure(e) =>
      case Success(rs) =>
        var t' := RunBunches(server, handle, cmd, batch, index + MaxCmd, sent + [msgs], acc + rs);
        RunBunchesAligned(server, handle, cmd, batch, index + MaxCmd, sent + [msgs], acc + rs);
        assert t == t';
        assert |rs| == n;
        assert NoPrepareResults(rs) by {
          forall i | 0 <= i < |rs| ensures !rs[i].PrepareResult? {
            assert !msgs[i].Prepare?;
          }
        }
        assert t.completions[..|acc| + |rs|] == acc + rs;
        assert t.completions[..|acc|] == acc;
        assert t.completions[|acc|..] == rs + t.completions[|acc| + |rs|..];
        if t.failure.Some? {
          assert n == MaxCmd;
        }
    }
  }

  /** Chunking is invisible to the caller: against a server that answers
      each message once, a batch pipeline that succeeds returns one
      completion per batch entry and no prepare result, for every batch
      size; one that fails carries the completions of the full windows
      before the failing one. */
  lemma PipelineAligned(server: Transport, held: Option<Handle>, cmd: string, batch: seq<Params>)
    requires OnePerMessage(server)
    ensures var t := RunPipeline(server, held, cmd, batch);
      && NoPrepareResults(t.completions)
      && (t.failure.None? ==> |t.completions| == |batch|)
      && (t.failure.Some? ==> |t.sent| >= 1 && |t.completions| == MaxCmd * (|t.sent| - 1))
  {
    var t := RunPipeline(server, held, cmd, batch);
    if held.Some? {
      RunBunchesAligned(server, held, cmd, batch, 0, [], []);
    } else {
      var msgs := BunchPrepare(cmd, batch, 0);
      var n := WindowCount(|batch|, 0);
      assert Bunch(None, cmd, batch, 0) == Executes(None, cmd, batch, 0, n);
      match server(msgs)
      case Failure(e) =>
      case Success(rs) =>
        assert |rs| == n + 1;
        assert rs[0].PrepareResult?;
        var kept := StripPrepare(rs);
        assert kept == rs[1..];
        assert NoPrepareResults(kept) by {
          forall i | 0 <= i < |kept| ensures !kept[i].PrepareResult? {
            assert kept[i] == rs[i + 1];
            assert msgs[i + 1] == Bunch(None, cmd, batch, 0)[i];
          }
        }
        RunBunchesAligned(server, Adopted(rs), cmd, batch, MaxCmd, [msgs], kept);
        assert t.completions == kept + t.completions[|kept|..];
        if t.failure.Some? {
          assert n == MaxCmd;
        }
    }
  }

  /** The example of 501 entries without a held statement: three exchanges
      of 250, 250 and 1 EXECUTEs, the first led by the PREPARE, and 501
      completions once the prepare result is dropped. */
  lemma Pipeline501(server: Transport, cmd: string, batch: seq<Params>)
    requires OnePerMessage(server) && |batch| == 501
    ensures var t := RunPipeline(server, None, cmd, batch);
      t.failure.None? ==> Counts(t.sent) == [250, 250, 1] && |t.completions| == 501
  {
    var t := RunPipeline(server, None, cmd, batch);
    PipelineFollowsPlan(server, None, cmd, batch);
    PlanCarriesBatch(None, IdOf(t.handle), cmd, batch);
    WindowsOf501();
    PipelineAligned(server, None, cmd, batch);
  }

  // ---------------------------------------------------------------------
  // The standard batch: one exchange per entry

  /** The prepare step at the head of each iteration of
      `executeBatchStandard`: keep a held statement, else take the cached
      one (`lookup`), else send a PREPARE on its own. A failing PREPARE
      ends the whole batch with its error. */
  datatype PrepareStep = PrepareStep(sent: seq<seq<Message>>, handle: Option<Handle>, abort: Option<SqlError>)

  function EnsurePrepared(server: Transport, lookup: Option<Handle>, handle: Option<Handle>, cmd: string)
    : (p: PrepareStep)
    ensures p.abort.None? ==> p.handle.Some? || p.sent == [[Prepare(cmd)]]
  {
    if handle.Some? then PrepareStep([], handle, None)
    else if lookup.Some? then PrepareStep([], lookup, None)
    else
      match server([Prepare(cmd)])
      case Failure(e) => PrepareStep([[Prepare(cmd)]], None, Some(e))
      case Success(rs) => PrepareStep([[Prepare(cmd)]], Adopted(rs), None)
  }

  /** What a standard batch did: the exchanges written, the completions of
      the EXECUTEs that succeeded, the first EXECUTE error, the PREPARE
      error that aborted it (if any), and the statement held at the end. */
  datatype StandardTrace = StandardTrace(sent: seq<seq<Message>>, completions: seq<Completion>,
                                         firstError: Option<SqlError>, aborted: Option<SqlError>,
                                         handle: Option<Handle>)

  /** The loop of `executeBatchStandard` from entry `index` on. */
  function RunStandard(server: Transport, lookup: Option<Handle>, handle: Option<Handle>, cmd: string,
                       batch: seq<Params>, index: nat): StandardTrace
    requires index <= |batch|
    decreases |batch| - index
  {
    if index == |batch| then StandardTrace([], [], None, None, handle)
    else
      var p := EnsurePrepared(server, lookup, handle, cmd);
      if p.abort.Some? then StandardTrace(p.sent, [], None, p.abort, None)
      else
        var msgs := [Execute(IdOf(p.handle), batch[index], cmd)];
        Then(p.sent + [msgs], server(msgs), RunStandard(server, lookup, p.handle, cmd, batch, index + 1))
  }

  /** One iteration, which wrote `sent` and got reply `r` to its EXECUTE,
      followed by the rest of the loop. */
  function Then(sent: seq<seq<Message>>, r: Reply, rest: StandardTrace): StandardTrace
  {
    StandardTrace(sent + rest.sent, Completions(r) + rest.completions,
                  if r.Failure? then Some(r.error) else rest.firstError, rest.aborted, rest.handle)
  }

  /** The loop's state so far (`sent`, `acc`, `error`) followed by the rest
      of the loop. */
  function After(sent: seq<seq<Message>>, acc: seq<Completion>, error: Option<SqlError>,
                 rest: StandardTrace): StandardTrace
  {
    StandardTrace(sent + rest.sent, acc + rest.completions,
                  if error.Some? then error else rest.firstError, rest.aborted, rest.handle)
  }

  /** The completions of one reply: none when it failed. */
  function Completions(r: Reply): seq<Completion>
  {
    if r.Success? then r.value else []
  }

  /** The first error once reply `r` is in. */
  function FirstError(error: Option<SqlError>, r: Reply): Option<SqlError>
  {
    if error.Some? || r.Success? then error else Some(r.error)
  }

  lemma AfterThen(sent: seq<seq<Message>>, acc: seq<Completion>, error: Option<SqlError>,
                  step: seq<seq<Message>>, r: Reply, rest: StandardTrace)
    ensures After(sent, acc, error, Then(step, r, rest))
            == After(sent + step, acc + Completions(r), FirstError(error, r), rest)
  {
    assert (sent + step) + rest.sent == sent + (step + rest.sent);
    assert (acc + Completions(r)) + rest.completions == acc + (Completions(r) + rest.completions);
  }

  /** An exchange of one EXECUTE. */
  predicate IsExecuteExchange(x: seq<Message>)
  {
    |x| == 1 && x[0].Execute?
  }

  function ExecuteExchanges(xs: seq<seq<Message>>): (r: seq<seq<Message>>)
    ensures forall i :: 0 <= i < |r| ==> IsExecuteExchange(r[i])
  {
    if xs == [] then []
    else (if IsExecuteExchange(xs[0]) then [xs[0]] else []) + ExecuteExchanges(xs[1..])
  }

  /** The replies the server gives to the exchanges `xs`, in order. */
  function Replies(server: Transport, xs: seq<seq<Message>>): (r: seq<Reply>)
    ensures |r| == |xs|
  {
    if xs == [] then [] else [server(xs[0])] + Replies(server, xs[1..])
  }

  lemma {:induction false} RepliesAppend(server: Transport, a: seq<seq<Message>>, b: seq<seq<Message>>)
    ensures Replies(server, a + b) == Replies(server, a) + Replies(server, b)
    decreases |a|
  {
    if a != [] {
      assert (a + b)[1..] == a[1..] + b;
      RepliesAppend(server, a[1..], b);
    } else {
      assert a + b == b;
    }
  }

  /** Reference definitions: the completions of the successful replies, in
      order, and the error of the first failing one. */
  function Successes(rs: seq<Reply>): seq<Completion>
  {
    if rs == [] then [] else Completions(rs[0]) + Successes(rs[1..])
  }

  function FirstFailure(rs: seq<Reply>): Option<SqlError>
  {
    if rs == [] then None else if rs[0].Failure? then Some(rs[0].error) else FirstFailure(rs[1..])
  }

  lemma {:induction false} ExecuteExchangesAppend(a: seq<seq<Message>>, b: seq<seq<Message>>)
    ensures ExecuteExchanges(a + b) == ExecuteExchanges(a) + ExecuteExchanges(b)
    decreases |a|
  {
    if a != [] {
      assert (a + b)[1..] == a[1..] + b;
      ExecuteExchangesAppend(a[1..], b);
    } else {
      assert a + b == b;
    }
  }

  lemma {:induction false} SentEntriesAppend(a: seq<seq<Message>>, b: seq<seq<Message>>)
    ensures SentEntries(a + b) == SentEntries(a) + SentEntries(b)
    decreases |a|
  {
    if a != [] {
      assert (a + b)[1..] == a[1..] + b;
      SentEntriesAppend(a[1..], b);
    } else {
      assert a + b == b;
    }
  }

  lemma {:induction false} SuccessesAppend(a: seq<Reply>, b: seq<Reply>)
    ensures Successes(a + b) == Successes(a) + Successes(b)
    decreases |a|
  {
    if a != [] {
      assert (a + b)[1..] == a[1..] + b;
      SuccessesAppend(a[1..], b);
    } else {
      assert a + b == b;
    }
  }

  lemma {:induction false} FirstFailureAppend(a: seq<Reply>, b: seq<Reply>)
    ensures FirstFailure(a + b) == if FirstFailure(a).Some? then FirstFailure(a) else FirstFailure(b)
    decreases |a|
  {
    if a != [] {
      assert (a + b)[1..] == a[1..] + b;
      FirstFailureAppend(a[1..], b);
    } else {
      assert a + b == b;
    }
  }

  /** One step of the standard loop writes the prepare step's exchanges
      (PREPAREs only) and one EXECUTE exchange. */
  lemma PrepareStepSendsNoExecute(server: Transport, lookup: Option<Handle>, handle: Option<Handle>, cmd: string)
    ensures var p := EnsurePrepared(server, lookup, handle, cmd);
      ExecuteExchanges(p.sent) == [] && SentEntries(p.sent) == [] &&
      forall i :: 0 <= i < |p.sent| ==> p.sent[i] == [Prepare(cmd)]
  {
    var p := EnsurePrepared(server, lookup, handle, cmd);
    if p.sent != [] {
      assert p.sent == [[Prepare(cmd)]];
      assert SentEntries(p.sent) == EntriesOf([Prepare(cmd)]) + SentEntries([]);
    }
  }

  /** One unfolding of the standard loop at an entry. */
  lemma StandardStep(server: Transport, lookup: Option<Handle>, handle: Option<Handle>, cmd: string,
                     batch: seq<Params>, index: nat)
    requires index < |batch|
    ensures var p := EnsurePrepared(server, lookup, handle, cmd);
      var t := RunStandard(server, lookup, handle, cmd, batch, index);
      var msgs := [Execute(IdOf(p.handle), batch[index], cmd)];
      if p.abort.Some? then t == StandardTrace(p.sent, [], None, p.abort, None)
      else t == Then(p.sent + [msgs], server(msgs), RunStandard(server, lookup, p.handle, cmd, batch, index + 1))
  {
  }

  /** Every exchange in `xs` is a single PREPARE or EXECUTE. */
  predicate OneStatementEach(xs: seq<seq<Message>>)
  {
    forall i :: 0 <= i < |xs| ==> |xs[i]| == 1 && (xs[i][0].Prepare? || xs[i][0].Execute?)
  }

  lemma OneStatementEachAppend(a: seq<seq<Message>>, b: seq<seq<Message>>)
    requires OneStatementEach(a) && OneStatementEach(b)
    ensures OneStatementEach(a + b)
  {
    forall i | 0 <= i < |a + b|
      ensures |(a + b)[i]| == 1 && ((a + b)[i][0].Prepare? || (a + b)[i][0].Execute?)
    {
      if i < |a| {
        assert (a + b)[i] == a[i];
      } else {
        assert (a + b)[i] == b[i - |a|];
      }
    }
  }

  /** Every exchange of the standard batch is a single PREPARE or EXECUTE. */
  lemma {:induction false} StandardOneMessage(server: Transport, lookup: Option<Handle>,
                                              handle: Option<Handle>, cmd: string, batch: seq<Params>,
                                              index: nat)
    requires index <= |batch|
    ensures OneStatementEach(RunStandard(server, lookup, handle, cmd, batch, index).sent)
    decreases |batch| - index
  {
    var t := RunStandard(server, lookup, handle, cmd, batch, index);
    if index < |batch| {
      var p := EnsurePrepared(server, lookup, handle, cmd);
      StandardStep(server, lookup, handle, cmd, batch, index);
      PrepareStepSendsNoExecute(server, lookup, handle, cmd);
      assert OneStatementEach(p.sent);
      if p.abort.None? {
        var msgs := [Execute(IdOf(p.handle), batch[index], cmd)];
        var rest := RunStandard(server, lookup, p.handle, cmd, batch, index + 1);
        StandardOneMessage(server, lookup, p.handle, cmd, batch, index + 1);
        assert OneStatementEach([msgs]);
        OneStatementEachAppend(p.sent, [msgs]);
        OneStatementEachAppend(p.sent + [msgs], rest.sent);
        assert t.sent == p.sent + [msgs] + rest.sent;
      }
    }
  }

  /** The standard batch attempts every entry even after EXECUTE failures:
      unless a PREPARE aborts it, its EXECUTEs carry the entries in order. */
  lemma {:induction false} StandardSendsEntries(server: Transport, lookup: Option<Handle>,
                                                handle: Option<Handle>, cmd: string, batch: seq<Params>,
                                                index: nat)
    requires index <= |batch|
    requires RunStandard(server, lookup, handle, cmd, batch, index).aborted.None?
    ensures SentEntries(RunStandard(server, lookup, handle, cmd, batch, index).sent) == batch[index..]
    decreases |batch| - index
  {
    if index < |batch| {
      var p := EnsurePrepared(server, lookup, handle, cmd);
      StandardEntriesStep(server, lookup, handle, cmd, batch, index);
      StandardSendsEntries(server, lookup, p.handle, cmd, batch, index + 1);
      SliceCons(batch, index);
    }
  }

  /** One step of the standard batch, seen from the entries its EXECUTEs
      carry: this entry first, then those of the rest of the batch; a
      PREPARE that aborts carries none and ends the batch. */
  lemma StandardEntriesStep(server: Transport, lookup: Option<Handle>, handle: Option<Handle>,
                            cmd: string, batch: seq<Params>, index: nat)
    requires index < |batch|
    ensures var p := EnsurePrepared(server, lookup, handle, cmd);
      var t := RunStandard(server, lookup, handle, cmd, batch, index);
      var rest := RunStandard(server, lookup, p.handle, cmd, batch, index + 1);
      && (p.abort.Some? ==> SentEntries(t.sent) == [] && t.aborted.Some?)
      && (p.abort.None? ==> SentEntries(t.sent) == [batch[index]] + SentEntries(rest.sent)
                            && t.aborted == rest.aborted)
  {
    var t := RunStandard(server, lookup, handle, cmd, batch, index);
    var p := EnsurePrepared(server, lookup, handle, cmd);
    StandardStep(server, lookup, handle, cmd, batch, index);
    PrepareStepSendsNoExecute(server, lookup, handle, cmd);
    if p.abort.None? {
      var rest := RunStandard(server, lookup, p.handle, cmd, batch, index + 1);
      SentEntriesStep(p.sent, IdOf(p.handle), batch[index], cmd, rest.sent);
    } else {
      assert t.sent == p.sent;
    }
  }

  /** A PREPARE that fails aborts the standard batch: it is the last
      exchange. */
  lemma {:induction false} StandardAbortIsLast(server: Transport, lookup: Option<Handle>,
                                               handle: Option<Handle>, cmd: string, batch: seq<Params>,
                                               index: nat)
    requires index <= |batch|
    requires RunStandard(server, lookup, handle, cmd, batch, index).aborted.Some?
    ensures var t := RunStandard(server, lookup, handle, cmd, batch, index);
      t.sent != [] && t.sent[|t.sent| - 1] == [Prepare(cmd)]
    decreases |batch| - index
  {
    assert index < |batch|;
    var t := RunStandard(server, lookup, handle, cmd, batch, index);
    var p := EnsurePrepared(server, lookup, handle, cmd);
    StandardStep(server, lookup, handle, cmd, batch, index);
    if p.abort.None? {
      var rest := RunStandard(server, lookup, p.handle, cmd, batch, index + 1);
      StandardAbortIsLast(server, lookup, p.handle, cmd, batch, index + 1);
      var exec := [Execute(IdOf(p.handle), batch[index], cmd)];
      assert t.sent == (p.sent + [exec]) + rest.sent;
      LastOfAppend(p.sent + [exec], rest.sent);
    }
  }

  /** An aborted standard batch leaves some entries unsent: the EXECUTEs
      carry a proper prefix of the entries. */
  lemma {:induction false} StandardAbortMissesEntries(server: Transport, lookup: Option<Handle>,
                                                      handle: Option<Handle>, cmd: string,
                                                      batch: seq<Params>, index: nat)
    requires index <= |batch|
    requires RunStandard(server, lookup, handle, cmd, batch, index).aborted.Some?
    ensures SentEntries(RunStandard(server, lookup, handle, cmd, batch, index).sent) < batch[index..]
    decreases |batch| - index
  {
    assert index < |batch|;
    var p := EnsurePrepared(server, lookup, handle, cmd);
    StandardEntriesStep(server, lookup, handle, cmd, batch, index);
    if p.abort.None? {
      var rest := RunStandard(server, lookup, p.handle, cmd, batch, index + 1);
      StandardAbortMissesEntries(server, lookup, p.handle, cmd, batch, index + 1);
      SliceCons(batch, index);
      ProperPrefixCons(batch[index], SentEntries(rest.sent), batch[index + 1..]);
    }
  }

  /** The entries of a step that writes no EXECUTE before its own. */
  lemma SentEntriesStep(pre: seq<seq<Message>>, id: Option<StatementId>, entry: Params, cmd: string,
                        rest: seq<seq<Message>>)
    requires SentEntries(pre) == []
    ensures SentEntries(pre + [[Execute(id, entry, cmd)]] + rest) == [entry] + SentEntries(rest)
  {
    var msgs := [Execute(id, entry, cmd)];
    SentEntriesAppend(pre + [msgs], rest);
    SentEntriesAppend(pre, [msgs]);
    assert SentEntries([msgs]) == [entry] by {
      assert EntriesOf(msgs) == [entry] + EntriesOf([]);
    }
  }

  lemma SliceCons<T>(s: seq<T>, i: nat)
    requires i < |s|
    ensures s[i..] == [s[i]] + s[i + 1..]
  {
  }

  lemma LastOfAppend<T>(a: seq<T>, b: seq<T>)
    requires b != []
    ensures (a + b)[|a + b| - 1] == b[|b| - 1]
  {
  }

  lemma ProperPrefixCons<T>(x: T, a: seq<T>, b: seq<T>)
    requires a < b
    ensures [x] + a < [x] + b
  {
    assert ([x] + b)[..|a| + 1] == [x] + b[..|a|];
  }

  /** One step of the standard batch, seen from its EXECUTE exchanges:
      this entry's EXECUTE first, then those of the rest of the batch; a
      PREPARE that aborts leaves none. */
  lemma StandardExecutesStep(server: Transport, lookup: Option<Handle>, handle: Option<Handle>,
                             cmd: string, batch: seq<Params>, index: nat)
    requires index < |batch|
    ensures var p := EnsurePrepared(server, lookup, handle, cmd);
      var t := RunStandard(server, lookup, handle, cmd, batch, index);
      var rest := RunStandard(server, lookup, p.handle, cmd, batch, index + 1);
      && (p.abort.Some? ==> ExecuteExchanges(t.sent) == [])
      && (p.abort.None? ==> ExecuteExchanges(t.sent)
                            == [[Execute(IdOf(p.handle), batch[index], cmd)]] + ExecuteExchanges(rest.sent))
  {
    var t := RunStandard(server, lookup, handle, cmd, batch, index);
    var p := EnsurePrepared(server, lookup, handle, cmd);
    StandardStep(server, lookup, handle, cmd, batch, index);
    PrepareStepSendsNoExecute(server, lookup, handle, cmd);
    if p.abort.None? {
      var msgs := [Execute(IdOf(p.handle), batch[index], cmd)];
      var rest := RunStandard(server, lookup, p.handle, cmd, batch, index + 1);
      assert t.sent == p.sent + [msgs] + rest.sent;
      ExecuteExchangesAppend(p.sent + [msgs], rest.sent);
      ExecuteExchangesAppend(p.sent, [msgs]);
      assert ExecuteExchanges([msgs]) == [msgs];
    } else {
      assert t.sent == p.sent;
    }
  }

  /** The same step, seen from the replies to its EXECUTEs. */
  lemma StandardRepliesStep(server: Transport, lookup: Option<Handle>, handle: Option<Handle>,
                            cmd: string, batch: seq<Params>, index: nat)
    requires index < |batch|
    ensures var p := EnsurePrepared(server, lookup, handle, cmd);
      var t := RunStandard(server, lookup, handle, cmd, batch, index);
      var rest := RunStandard(server, lookup, p.handle, cmd, batch, index + 1);
      && (p.abort.Some? ==> Replies(server, ExecuteExchanges(t.sent)) == [])
      && (p.abort.None? ==> Replies(server, ExecuteExchanges(t.sent))
                            == [server([Execute(IdOf(p.handle), batch[index], cmd)])]
                               + Replies(server, ExecuteExchanges(rest.sent)))
  {
    var p := EnsurePrepared(server, lookup, handle, cmd);
    StandardExecutesStep(server, lookup, handle, cmd, batch, index);
    if p.abort.None? {
      var rest := RunStandard(server, lookup, p.handle, cmd, batch, index + 1);
      RepliesCons(server, [Execute(IdOf(p.handle), batch[index], cmd)], ExecuteExchanges(rest.sent));
    }
  }

  /** The same step, seen from what the loop keeps: this entry's
      completions before those of the rest, and its error if it failed; a
      PREPARE that aborts keeps nothing. */
  lemma StandardOutcomeStep(server: Transport, lookup: Option<Handle>, handle: Option<Handle>,
                            cmd: string, batch: seq<Params>, index: nat)
    requires index < |batch|
    ensures var p := EnsurePrepared(server, lookup, handle, cmd);
      var t := RunStandard(server, lookup, handle, cmd, batch, index);
      var rest := RunStandard(server, lookup, p.handle, cmd, batch, index + 1);
      var r := server([Execute(IdOf(p.handle), batch[index], cmd)]);
      && (p.abort.Some? ==> t.completions == [] && t.firstError.None?)
      && (p.abort.None? ==> t.completions == Completions(r) + rest.completions
                            && t.firstError == if r.Failure? then Some(r.error) else rest.firstError)
  {
    StandardStep(server, lookup, handle, cmd, batch, index);
  }

  lemma RepliesCons(server: Transport, x: seq<Message>, xs: seq<seq<Message>>)
    ensures Replies(server, [x] + xs) == [server(x)] + Replies(server, xs)
  {
    assert ([x] + xs)[1..] == xs;
  }

  lemma KeepsSuccessesGlue(kept: seq<Completion>, restKept: seq<Completion>, r: Reply,
                           restReplies: seq<Reply>, replies: seq<Reply>)
    requires kept == Completions(r) + restKept && restKept == Successes(restReplies)
    requires replies == [r] + restReplies
    ensures kept == Successes(replies)
  {
    assert replies[1..] == restReplies;
  }

  lemma KeepsFirstErrorGlue(error: Option<SqlError>, restError: Option<SqlError>, r: Reply,
                            restReplies: seq<Reply>, replies: seq<Reply>)
    requires error == (if r.Failure? then Some(r.error) else restError)
    requires restError == FirstFailure(restReplies)
    requires replies == [r] + restReplies
    ensures error == FirstFailure(replies)
  {
    assert replies[1..] == restReplies;
  }

  /** The standard batch keeps the completions of every EXECUTE that
      succeeded, in order. */
  lemma {:induction false} StandardKeepsSuccesses(server: Transport, lookup: Option<Handle>,
                                                  handle: Option<Handle>, cmd: string, batch: seq<Params>,
                                                  index: nat)
    requires index <= |batch|
    ensures var t := RunStandard(server, lookup, handle, cmd, batch, index);
      t.completions == Successes(Replies(server, ExecuteExchanges(t.sent)))
    decreases |batch| - index
  {
    var t := RunStandard(server, lookup, handle, cmd, batch, index);
    if index < |batch| {
      var p := EnsurePrepared(server, lookup, handle, cmd);
      StandardOutcomeStep(server, lookup, handle, cmd, batch, index);
      StandardRepliesStep(server, lookup, handle, cmd, batch, index);
      if p.abort.None? {
        var rest := RunStandard(server, lookup, p.handle, cmd, batch, index + 1);
        StandardKeepsSuccesses(server, lookup, p.handle, cmd, batch, index + 1);
        KeepsSuccessesGlue(t.completions, rest.completions, server([Execute(IdOf(p.handle), batch[index], cmd)]),
                           Replies(server, ExecuteExchanges(rest.sent)), Replies(server, ExecuteExchanges(t.sent)));
      }
    }
  }

  /** The standard batch reports the error of the first EXECUTE that
      failed, if any. */
  lemma {:induction false} StandardKeepsFirstError(server: Transport, lookup: Option<Handle>,
                                                   handle: Option<Handle>, cmd: string, batch: seq<Params>,
                                                   index: nat)
    requires index <= |batch|
    ensures var t := RunStandard(server, lookup, handle, cmd, batch, index);
      t.firstError == FirstFailure(Replies(server, ExecuteExchanges(t.sent)))
    decreases |batch| - index
  {
    var t := RunStandard(server, lookup, handle, cmd, batch, index);
    if index < |batch| {
      var p := EnsurePrepared(server, lookup, handle, cmd);
      StandardOutcomeStep(server, lookup, handle, cmd, batch, index);
      StandardRepliesStep(server, lookup, handle, cmd, batch, index);
      if p.abort.None? {
        var rest := RunStandard(server, lookup, p.handle, cmd, batch, index + 1);
        StandardKeepsFirstError(server, lookup, p.handle, cmd, batch, index + 1);
        KeepsFirstErrorGlue(t.firstError, rest.firstError, server([Execute(IdOf(p.handle), batch[index], cmd)]),
                            Replies(server, ExecuteExchanges(rest.sent)), Replies(server, ExecuteExchanges(t.sent)));
      }
    }
  }

  /** The standard batch as `executeBatchStandard` runs it, from its
      first entry: one message per exchange; without an aborting PREPARE,
      one EXECUTE exchange per entry, in order; the completions of the
      successes and the first error. */
  lemma StandardAttemptsEveryEntry(server: Transport, lookup: Option<Handle>, handle: Option<Handle>,
                                   cmd: string, batch: seq<Params>)
    ensures var t := RunStandard(server, lookup, handle, cmd, batch, 0);
      var replies := Replies(server, ExecuteExchanges(t.sent));
      && OneStatementEach(t.sent)
      && (t.aborted.None? ==> SentEntries(t.sent) == batch && |replies| == |batch|)
      && (t.aborted.Some? ==> SentEntries(t.sent) < batch)
      && t.completions == Successes(replies)
      && t.firstError == FirstFailure(replies)
  {
    var t := RunStandard(server, lookup, handle, cmd, batch, 0);
    StandardOneMessage(server, lookup, handle, cmd, batch, 0);
    StandardKeepsSuccesses(server, lookup, handle, cmd, batch, 0);
    StandardKeepsFirstError(server, lookup, handle, cmd, batch, 0);
    assert batch[0..] == batch;
    if t.aborted.None? {
      StandardSendsEntries(server, lookup, handle, cmd, batch, 0);
      ExecuteCountMatchesEntries(t.sent);
    } else {
      StandardAbortIsLast(server, lookup, handle, cmd, batch, 0);
      StandardAbortMissesEntries(server, lookup, handle, cmd, batch, 0);
    }
  }

  /** In exchanges of one PREPARE or one EXECUTE each, there are as many
      EXECUTE exchanges as parameter sets sent. */
  lemma {:induction false} ExecuteCountMatchesEntries(xs: seq<seq<Message>>)
    requires forall i :: 0 <= i < |xs| ==> |xs[i]| == 1 && (xs[i][0].Prepare? || xs[i][0].Execute?)
    ensures |ExecuteExchanges(xs)| == |SentEntries(xs)|
    decreases |xs|
  {
    if xs != [] {
      ExecuteCountMatchesEntries(xs[1..]);
      assert EntriesOf(xs[0]) == (if xs[0][0].Execute? then [xs[0][0].params] else []) + EntriesOf(xs[0][1..]);
      assert xs[0][1..] == [];
    }
  }
}
