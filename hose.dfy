/** The synthetic batch generator of the `hose` command: one call builds a
    one-transfer batch from the configured storage endpoints and batch states.

    Every random draw of the Go program (the endpoint picks, the file name, the
    state pick, the finished-or-failed pick) and both fresh UUIDs are inputs
    here, gathered in `Draws`; the storage-URL parser is a function parameter. */
module Hose {
  import opened Wrappers
  import opened Tasks

  /** The configuration globals the generator reads, set from command-line
      flags. */
  datatype Config = Config(
    sourceSes: seq<string>,
    destSes: seq<string>,
    states: seq<string>,
    delegationId: string,
    vo: string,
    activity: string)

  /** The globals' and flags' defaults: one mock source, one mock destination,
      state READY, and the delegation id, VO and activity of the globals. */
  const DefaultConfig: Config :=
    Config(["mock://source.es"], ["mock://dest.ch"], [ReadyName], "123456789", "dteam", "default")

  /** The error a failed storage-URL parse reports; the generator panics with it. */
  type ParseError = string

  /** Storage-URL parser: a string either parses or is rejected with an error. */
  type Parser = string -> Result<Surl, ParseError>

  /** The two transfer states a done batch draws from, in the order listed. */
  const DoneStates: seq<TransferState> := [TransferFinished, TransferFailed]

  /** The outcome of each random draw of one call, and the two fresh UUIDs. */
  datatype Draws = Draws(
    sourceIndex: nat,
    destIndex: nat,
    file: string,
    stateIndex: nat,
    doneIndex: nat,
    jobId: string,
    transferId: string)

  /** Every index drawn lies inside the list it was drawn from. */
  predicate InBounds(cfg: Config, d: Draws) {
    && d.sourceIndex < |cfg.sourceSes|
    && d.destIndex < |cfg.destSes|
    && d.stateIndex < |cfg.states|
    && d.doneIndex < |DoneStates|
  }

  /** A random pick from a list, by the index that was drawn. */
  function Choose<T>(xs: seq<T>, i: nat): (x: T)
    requires i < |xs|
    ensures x in xs
  {
    xs[i]
  }

  /** The transfer state derived from the batch state. A state outside the
      four known ones matches no case and leaves the zero value. */
  function TransferStateFor(b: BatchState, doneIndex: nat): (t: TransferState)
    requires doneIndex < |DoneStates|
    ensures Consistent(b, t)
    // corollary of the clause above, stated for the reader
    ensures b == BatchDone ==> (t == TransferFinished || t == TransferFailed)
  {
    match b
    case BatchSubmitted => TransferSubmitted
    case BatchReady => TransferActive
    case BatchRunning => TransferActive
    case BatchDone => Choose(DoneStates, doneIndex)
    case BatchOther(_) => TransferZero
  }

  /** Every transfer state consistent with a batch state is produced from it
      by some finished-or-failed draw. */
  lemma {:induction false} TransferStateForComplete(b: BatchState, t: TransferState)
    requires Consistent(b, t)
    ensures exists k: nat :: k < |DoneStates| && TransferStateFor(b, k) == t
  {
    var k := if t == TransferFailed then 1 else 0;
    assert TransferStateFor(b, k) == t;
  }

  /** What a generated batch satisfies, stated without reference to how it is
      built: a simple batch in a configured state, from a configured source to
      a configured destination, holding exactly one fresh, never-retried
      transfer whose state is consistent with the batch state and whose
      endpoints are the parses of the two storages joined with the same file,
      with delegation, VO and activity taken from the configuration. */
  predicate Admissible(cfg: Config, parse: Parser, file: string, jobId: string, transferId: string, b: Batch) {
    && b.batchType == BatchSimple
    && Canonical(b.state)
    && BatchStateName(b.state) in cfg.states
    && b.sourceSe in cfg.sourceSes
    && b.destSe in cfg.destSes
    && b.delegationId == cfg.delegationId
    && b.vo == cfg.vo
    && b.activity == cfg.activity
    && |b.transfers| == 1
    && Consistent(b.state, b.transfers[0].state)
    && b.transfers[0].jobId == jobId
    && b.transfers[0].transferId == transferId
    && b.transfers[0].retry == 0
    && b.transfers[0].activity == cfg.activity
    && parse(b.sourceSe + file) == Success(b.transfers[0].source)
    && parse(b.destSe + file) == Success(b.transfers[0].destination)
  }

  /** One call of the generator. It panics (here: fails with the parser's
      error) when the source storage joined with the file does not parse, or
      else when the destination one does not; otherwise it returns a batch.
      A batch state outside the known ones is no error. */
  function Generate(cfg: Config, parse: Parser, d: Draws): (r: Result<Batch, ParseError>)
    requires InBounds(cfg, d)
    ensures r.Success? <==>
              parse(cfg.sourceSes[d.sourceIndex] + d.file).Success? &&
              parse(cfg.destSes[d.destIndex] + d.file).Success?
    ensures parse(cfg.sourceSes[d.sourceIndex] + d.file).Failure? ==>
              r == Failure(parse(cfg.sourceSes[d.sourceIndex] + d.file).error)
    ensures parse(cfg.sourceSes[d.sourceIndex] + d.file).Success? &&
            parse(cfg.destSes[d.destIndex] + d.file).Failure? ==>
              r == Failure(parse(cfg.destSes[d.destIndex] + d.file).error)
    ensures r.Success? ==> Admissible(cfg, parse, d.file, d.jobId, d.transferId, r.value)
    // corollary of Admissible, stated for the reader
    ensures r.Success? ==> StateConsistent(r.value)
    ensures r.Success? ==>
              && BatchStateName(r.value.state) == cfg.states[d.stateIndex]
              && r.value.sourceSe == cfg.sourceSes[d.sourceIndex]
              && r.value.destSe == cfg.destSes[d.destIndex]
  {
    var sourceSe := Choose(cfg.sourceSes, d.sourceIndex);
    var destSe := Choose(cfg.destSes, d.destIndex);
    var sourceSurl := parse(sourceSe + d.file);
    if sourceSurl.Failure? then Failure(sourceSurl.error)
    else
      var destSurl := parse(destSe + d.file);
      if destSurl.Failure? then Failure(destSurl.error)
      else
        var batchState := BatchStateOf(Choose(cfg.states, d.stateIndex));
        var fileState := TransferStateFor(batchState, d.doneIndex);
        var transfer := Transfer(
          fileState, d.jobId, d.transferId, 0, sourceSurl.value, destSurl.value, cfg.activity);
        Success(Batch(
          BatchSimple, batchState, [transfer], cfg.delegationId, sourceSe, destSe, cfg.vo, cfg.activity))
  }

  /** Every admissible batch is the result of some draws with the given file
      and identifiers: together with the last ensures of `Generate`, the
      batches the generator can return are exactly the admissible ones. */
  lemma {:induction false} GenerateComplete(
    cfg: Config, parse: Parser, file: string, jobId: string, transferId: string, b: Batch)
    requires Admissible(cfg, parse, file, jobId, transferId, b)
    ensures exists d :: && InBounds(cfg, d) && d.file == file
                        && d.jobId == jobId && d.transferId == transferId
                        && Generate(cfg, parse, d) == Success(b)
  {
    var i :| 0 <= i < |cfg.sourceSes| && cfg.sourceSes[i] == b.sourceSe;
    var j :| 0 <= j < |cfg.destSes| && cfg.destSes[j] == b.destSe;
    var k :| 0 <= k < |cfg.states| && cfg.states[k] == BatchStateName(b.state);
    var t := b.transfers[0];
    TransferStateForComplete(b.state, t.state);
    var m: nat :| m < |DoneStates| && TransferStateFor(b.state, m) == t.state;
    BatchStateNameRoundTrip(b.state);
    var d := Draws(i, j, file, k, m, jobId, transferId);
    assert [t] == b.transfers;
    assert Generate(cfg, parse, d) == Success(b);
  }

  /** The transfer state of a generated batch, in terms of the configured
      state string that was drawn: SUBMITTED gives a submitted transfer, READY
      and RUNNING an active one, DONE a finished or failed one, and any other
      string leaves the transfer state at its zero value. */
  lemma GeneratedTransferState(cfg: Config, parse: Parser, d: Draws)
    requires InBounds(cfg, d) && Generate(cfg, parse, d).Success?
    ensures var s := cfg.states[d.stateIndex];
            var t := Generate(cfg, parse, d).value.transfers[0].state;
            && (s == SubmittedName ==> t == TransferSubmitted)
            && (s == ReadyName ==> t == TransferActive)
            && (s == RunningName ==> t == TransferActive)
            && (s == DoneName ==> (t == TransferFinished || t == TransferFailed))
            && (!IsKnownName(s) ==> t == TransferZero)
  {
  }

  /** With a done batch state, the finished-or-failed draw decides the
      outcome and both outcomes occur: the first draw gives finished, the
      second failed. */
  lemma DoneReachesBothOutcomes(cfg: Config, parse: Parser, d: Draws)
    requires InBounds(cfg, d) && Generate(cfg, parse, d).Success?
    requires cfg.states[d.stateIndex] == DoneName
    ensures Generate(cfg, parse, d.(doneIndex := 0)).Success?
    ensures Generate(cfg, parse, d.(doneIndex := 1)).Success?
    ensures Generate(cfg, parse, d.(doneIndex := 0)).value.transfers[0].state == TransferFinished
    ensures Generate(cfg, parse, d.(doneIndex := 1)).value.transfers[0].state == TransferFailed
  {
  }

  /** With the globals' and flags' defaults, every batch that is returned is a READY batch
      from mock://source.es to mock://dest.ch whose one transfer is active. */
  lemma DefaultConfigBatch(parse: Parser, d: Draws)
    requires InBounds(DefaultConfig, d)
    requires Generate(DefaultConfig, parse, d).Success?
    ensures var b := Generate(DefaultConfig, parse, d).value;
            && b.state == BatchReady
            && b.transfers[0].state == TransferActive
            && b.sourceSe == "mock://source.es"
            && b.destSe == "mock://dest.ch"
            && b.delegationId == "123456789"
            && b.vo == "dteam"
            && b.activity == "default"
  {
  }
}
