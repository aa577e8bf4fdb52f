# Synthetic transfer-batch generator of fts-toolkit's `hose` command

The `hose` command publishes synthetic transfer batches onto the FTS worker
queue as test traffic. Each batch comes from `GenerateRandomTransfer`. It picks
a source storage element, a destination storage element and a file name,
and parses each storage joined with the file into a storage URL (SURL). It
panics if either parse fails. It then draws a batch state from the configured
list and derives the transfer state from it with a fixed switch. Last, it
assembles a simple batch holding exactly one transfer, with delegation id, VO
and activity taken from the configuration.

This project models that function as pure Dafny:

- `wrappers.dfy`: `Wrappers.Result`. A failure stands for the `log.Panic` that
  aborts generation with the parser's error.
- `tasks.dfy`: module `Tasks` holds the domain values. Batch states are the
  four known ones plus `BatchOther(name)` for any other configured string
  (`BatchStateOf`, `BatchStateName` and their round trip). `BatchStateName`
  gives the string a batch state stands for, as `string(tasks.BatchReady)`
  does at `cmd/hose.go:136`. Transfer states
  include `TransferZero`, Go's empty-string zero value. Also here are
  `Transfer`, `Batch` and the consistency relation `Consistent` between a
  batch state and a transfer state, read from the transfer's side.
- `hose.dfy`: module `Hose`. It holds the configuration globals as a `Config`
  value, and `DefaultConfig` holds the globals' and flags' defaults
  (`cmd/hose.go:37-39`, `131-138`). The activity default comes from the
  global at `cmd/hose.go:39`, which has no flag. Every random outcome of one
  call is an input gathered in `Draws`: the three list indices, the
  finished-or-failed index, the file name and the two UUIDs. The SURL parser
  is a parameter `parse`. The module also holds `Generate`, the independent
  description `Admissible` of the batches the generator may return, and the
  lemmas relating the two.

An unrecognised batch state is no error: the switch at `cmd/hose.go:91-102`
has no default branch, so the transfer state stays at the empty zero value
and `Generate` still returns a batch (`GeneratedTransferState`).

## Model

| member | source | states |
|---|---|---|
| `Tasks.BatchStateOf` | cmd/hose.go:89 | converting any configured string gives a batch state whose name is that string; it is `BatchOther` exactly when the string is none of the four known names |
| `Tasks.BatchStateName` | cmd/hose.go:136 | the string of a canonical batch state is one of the four known names exactly when the state is not `BatchOther`, matching `string(tasks.BatchReady)` |
| `Tasks.BatchStateNameRoundTrip` | cmd/hose.go:89 | a canonical batch state converted to its name and back is the same state, so the batch's state and the drawn string correspond one to one |
| `Hose.Choose` | cmd/hose.go:76-77 | the element picked from a list by the drawn index is a member of that list |
| `Hose.TransferStateFor` | cmd/hose.go:90-102 | the derived transfer state is consistent with the batch state, and a done batch gives finished or failed, nothing else |
| `Hose.TransferStateForComplete` | cmd/hose.go:90-102 | every transfer state consistent with a batch state is produced from it by some finished-or-failed draw |
| `Hose.Generate` | cmd/hose.go:75-125 | a batch is returned iff both the source and destination SURLs parse; otherwise it fails with the source's parse error if that one fails, else with the destination's error; a returned batch is admissible, meaning a simple batch in the drawn configured state, from a configured source to a configured destination, with delegation id, VO and activity passed through, a single transfer with retry 0, the given ids, the configured activity, a state consistent with the batch's, and endpoints equal to the parses of the source and destination storages joined with the same file |
| `Hose.GenerateComplete` | cmd/hose.go:75-125 | every admissible batch is returned for some in-bounds draws with the given file and ids, so the possible results are exactly the admissible batches |
| `Hose.GeneratedTransferState` | cmd/hose.go:89-104 | for the drawn state string, SUBMITTED gives a submitted transfer, READY and RUNNING an active one, DONE a finished or failed one, and any other string leaves the zero state while still returning a batch |
| `Hose.DoneReachesBothOutcomes` | cmd/hose.go:98-101 | with a DONE state, finished-or-failed draw 0 gives a finished transfer and draw 1 a failed one, so both outcomes occur |
| `Hose.DefaultConfigBatch` | cmd/hose.go:131-138 | with the flags' defaults and the globals' delegation id, VO and activity (the activity from `cmd/hose.go:39`, which has no flag), a returned batch is READY, goes from mock://source.es to mock://dest.ch, has the default delegation id, VO and activity, and its transfer is active |

## Left out

- `HoseCmd.Run` (`cmd/hose.go:45-72`): it is STOMP publishing, JSON marshalling and sleeping, which is network I/O and foreign library calls. So the JSON round trip of a batch is not modelled.
- `uuid.NewV4` (`cmd/hose.go:110-111`): the job and transfer ids are opaque inputs. Their uniqueness is probabilistic and external.
- `surl.Parse`: it is a parameter of the generator. The SURL grammar belongs to the `surl` package, which is not part of this model.
- `testutil.RandomChoice` and `testutil.RandomFile`: each draw is an input, with a precondition that a drawn index lies inside its list. What `RandomChoice` does on an empty list is not modelled.
- Hose.Generate: all draws are inputs, so it does not capture that the source code draws the state only after both parses succeeded. It requires the state index to be in bounds even on the panic paths, and it takes the finished-or-failed index even when the state is not DONE.
- The `tasks` package is not part of this model. The spellings of the state names (`SUBMITTED`, `READY`, `RUNNING`, `DONE`) are assumed, and the proofs depend only on their being distinct. The double string conversion of the finished-or-failed pick (`cmd/hose.go:99-101`) is the identity and is modelled as a direct pick. Batch types other than the simple one are not modelled.
- The batch is returned by pointer and the SURLs are dereferenced copies (`cmd/hose.go:104`, `113-114`). Values have no identity here, so this is not modelled.
- `cmd/delegate.go` (RPC and proxy signing), `cmd/drain.go` (goroutines per destination over channels) and `cmd/root.go` (flag wiring, reconnect policy) are out of scope. They are foreign calls, concurrency and transport only.
- The `init` flag registration (`cmd/hose.go:127-140`) is CLI plumbing. Only its default values appear, as `DefaultConfig`.
