/** The domain values the generator builds: batch and transfer states, the
    batch type, parsed storage URLs, transfers and batches.

    In the Go program these come from the `tasks` and `surl` packages, which
    are not part of this model. Their states are string types there; here the
    four known batch states are constructors and every other string is kept
    verbatim in `BatchOther`. */
module Tasks {

  const SubmittedName: string := "SUBMITTED"
  const ReadyName: string := "READY"
  const RunningName: string := "RUNNING"
  const DoneName: string := "DONE"

  /** Lifecycle state of a batch. Any string converts to a batch state, so
      values outside the four known ones are kept in `BatchOther`. */
  datatype BatchState =
    | BatchSubmitted
    | BatchReady
    | BatchRunning
    | BatchDone
    | BatchOther(name: string)

  /** The names that denote one of the four known batch states. */
  predicate IsKnownName(s: string) {
    s == SubmittedName || s == ReadyName || s == RunningName || s == DoneName
  }

  /** A batch state value is canonical when an `BatchOther` never hides one of
      the four known names: then a state and its string are in one-to-one
      correspondence. */
  predicate Canonical(b: BatchState) {
    b.BatchOther? ==> !IsKnownName(b.name)
  }

  /** The string a batch state stands for. */
  function BatchStateName(b: BatchState): (s: string)
    ensures Canonical(b) ==> (IsKnownName(s) <==> !b.BatchOther?)
  {
    match b
    case BatchSubmitted => SubmittedName
    case BatchReady => ReadyName
    case BatchRunning => RunningName
    case BatchDone => DoneName
    case BatchOther(name) => name
  }

  /** The conversion of a configured string to a batch state. It never fails:
      an unknown string becomes `BatchOther` of itself. */
  function BatchStateOf(s: string): (b: BatchState)
    ensures Canonical(b)
    ensures BatchStateName(b) == s
    ensures b.BatchOther? <==> !IsKnownName(s)
  {
    if s == SubmittedName then BatchSubmitted
    else if s == ReadyName then BatchReady
    else if s == RunningName then BatchRunning
    else if s == DoneName then BatchDone
    else BatchOther(s)
  }

  /** Converting a canonical state to its name and back gives the state. */
  lemma BatchStateNameRoundTrip(b: BatchState)
    requires Canonical(b)
    ensures BatchStateOf(BatchStateName(b)) == b
  {
  }

  /** Lifecycle state of one transfer. `TransferZero` is the zero value of the
      Go string type (the empty string), which a transfer keeps when its batch
      state matched none of the known ones. */
  datatype TransferState =
    | TransferZero
    | TransferSubmitted
    | TransferActive
    | TransferFinished
    | TransferFailed

  /** The batch type tag; the generator only ever builds simple batches. Other
      batch types of the `tasks` package are not part of this model. */
  datatype BatchType = BatchSimple

  /** A parsed storage URL. Its grammar belongs to the `surl` package and is
      not modelled; the parser is a parameter of the generator. */
  datatype Surl = Surl(scheme: string, host: string, path: string)

  /** One file-level unit of work. */
  datatype Transfer = Transfer(
    state: TransferState,
    jobId: string,
    transferId: string,
    retry: int,
    source: Surl,
    destination: Surl,
    activity: string)

  /** A group of transfers sharing one delegated credential. */
  datatype Batch = Batch(
    batchType: BatchType,
    state: BatchState,
    transfers: seq<Transfer>,
    delegationId: string,
    sourceSe: string,
    destSe: string,
    vo: string,
    activity: string)

  /** Which batch states a transfer in that state may belong to, read from the
      transfer's side: a submitted transfer sits in a submitted batch, an
      active one in a ready or running batch, a finished or failed one in a
      done batch, and a transfer with no state in a batch whose state is none
      of the known ones. */
  predicate Consistent(b: BatchState, t: TransferState) {
    match t
    case TransferSubmitted => b == BatchSubmitted
    case TransferActive => b == BatchReady || b == BatchRunning
    case TransferFinished => b == BatchDone
    case TransferFailed => b == BatchDone
    case TransferZero => b.BatchOther?
  }

  /** Every transfer of the batch is consistent with the batch state. */
  predicate StateConsistent(batch: Batch) {
    forall i :: 0 <= i < |batch.transfers| ==> Consistent(batch.state, batch.transfers[i].state)
  }
}
