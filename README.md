# Chain facade of the ordering service

This project models `chainSupport`, the per-chain resource facade of the
ordering service (`orderer/multichain/chainsupport.go`), and proves what it
promises:

- **Block write path.** `WriteBlock` invokes the deferred committers once each,
  in list order. It then stamps the SIGNATURES metadata slot and the
  LAST_CONFIGURATION metadata slot of the block in place, appends the block to
  the ledger and returns the same block. A failed append panics.
- **Last-configuration bookkeeping.** The facade holds two fields,
  `lastConfiguration` and `lastConfigSeq`. They move to the block's number and
  the config manager's sequence only when that sequence strictly exceeds the
  stored one. Across any run of writes, the stored sequence is the largest one
  seen so far, and the index is the number of the most recent bump.
- **Rule lists.** Ordinary chains get `[EmptyReject, SigFilter, ConfigTx, Accept]`.
  The system chain gets the same list with the chain-creation rule inserted
  before the configuration filter. Both lists end in the catch-all accept.
- **Construction and delegation.** The consenter is chosen by consensus type.
  `HandleChain` runs once on the new facade. An unknown type or a
  `HandleChain` error is fatal. `Enqueue` passes through to the chain.

Files: `protos.dfy` holds the message types, the encoder and signer as
function values, and `ConcatenateBytes`. `filters.dfy` holds the rule lists.
`last_config.dfy` holds the bookkeeping as a value with its lemmas.
`chain_support.dfy` holds the facade class and its collaborators.
`wrappers.dfy` holds `Option` and `Result`.

Inputs that stand for foreign code or the environment:

- `WriteBlock` receives `sequence`, which is what `configManager.Sequence()`
  reports once the committers have run.
- `WriteBlock` receives two marshalled signature headers, one per slot.
  `NewSignatureHeader` is called once per slot and may return a different
  header on each call.
- `WriteBlock` receives `appendFails`, which is the ledger's answer to `Append`.
- `Header.Bytes()`, `MarshalOrPanic` and `Sign` are function values. The
  read-back lemmas only require marshalling to be injective.
- `rawledger.CreateNextBlock` is the function value `nextBlock`. The facade
  requires it to allocate the SIGNATURES and LAST_CONFIGURATION slots
  (`MultiChain.AllocatesSlots`), so the blocks it builds can be written.

Two behaviours of the code are worth knowing:

- The two fields start at zero, because the struct literal does not set them.
  So the first block written after construction with a nonzero sequence records
  its own number as the last configuration, whether or not it carries a
  configuration transaction (`LastConfig.Track` from `LastConfig.Initial`).
- One expects `lastConfiguration` never to go backwards. The code guarantees
  that only when blocks are written in non-decreasing number order.
  `LastConfig.IndexNeverDecreases` states it under that requirement, which the
  code leaves to the consenter.

## Model

| member | source | states |
|---|---|---|
| Protos.ConcatenateBytes | orderer/multichain/chainsupport.go:218 | the joined bytes of no parts are empty, and otherwise start with the first part |
| Protos.ConcatenateEndsWithLast | orderer/multichain/chainsupport.go:218 | the joined bytes of one or more parts end with the last part |
| Protos.ConcatenateThree | orderer/multichain/chainsupport.go:241 | joining value, signature header and header bytes yields their plain concatenation |
| Protos.NilValueSigned | orderer/multichain/chainsupport.go:214-218 | with the nil SIGNATURES value, the signed bytes are signature header followed by header bytes |
| Filters.CreateStandardFilters | orderer/multichain/chainsupport.go:138-146 | four rules: empty-reject first, the catch-all accept last and nowhere else, and no chain-creation rule |
| Filters.CreateSystemChainFilters | orderer/multichain/chainsupport.go:148-157 | the standard list with the chain-creation rule inserted at position 2, between sigfilter and configtx filter, ending in accept |
| Filters.Evaluate | orderer/multichain/chainsupport.go:139-144 | a rule list yields the verdict of its first non-forwarding rule, and yields Forward only when every rule forwards |
| Filters.EndsInAcceptDecides | orderer/multichain/chainsupport.go:143 | a list ending in the catch-all accept always decides |
| Filters.BuiltListsDecide | orderer/multichain/chainsupport.go:138-157 | both built lists decide every envelope |
| Filters.SystemChainAgreesWhenNotClaimed | orderer/multichain/chainsupport.go:150-156 | when the chain-creation rule forwards, the system chain decides exactly as an ordinary chain |
| Filters.SystemChainSharesPrefix | orderer/multichain/chainsupport.go:150-153 | an envelope rejected as empty or by the ingress policy is rejected on both kinds of chain |
| LastConfig.Track | orderer/multichain/chainsupport.go:229-233 | the stored sequence becomes the max of old and observed; the pair changes iff the sequence strictly exceeds the stored one, and then the index is the block number |
| LastConfig.ReplayPeak | orderer/multichain/chainsupport.go:229-233 | after any run of writes the stored sequence is the largest of the start and all observed sequences |
| LastConfig.StepIsBump | orderer/multichain/chainsupport.go:230-233 | a write changes the pair exactly when its sequence exceeds the start and every earlier sequence |
| LastConfig.Replay | orderer/multichain/chainsupport.go:229-233 | the two fields after a run of writes: unchanged by no writes, sequence never below the start or the latest write's sequence |
| LastConfig.ReplaySnoc | orderer/multichain/chainsupport.go:229-233 | one more write is one more step of the update |
| LastConfig.NoBumpKeepsTracker | orderer/multichain/chainsupport.go:229-233 | if no write raised the sequence above every earlier one, both fields keep their starting values |
| LastConfig.LatestBumpHolds | orderer/multichain/chainsupport.go:229-233 | after any run of writes both fields hold the block number and sequence of the most recent bump |
| LastConfig.SequenceNeverDecreases | orderer/multichain/chainsupport.go:230-232 | the stored sequence is non-decreasing along any run of writes |
| LastConfig.IndexIsObserved | orderer/multichain/chainsupport.go:231 | the stored index is the starting one or the number of some block written |
| LastConfig.IndexNeverDecreases | orderer/multichain/chainsupport.go:230-231 | with block numbers written in non-decreasing order, lastConfiguration never decreases |
| MultiChain.Invocations | orderer/multichain/chainsupport.go:252-254 | one Committed event per committer, in list order |
| MultiChain.SignaturesEntry | orderer/multichain/chainsupport.go:210-225 | the marshalled SIGNATURES metadata: nil value, one signature by the signer over signature header + header bytes |
| MultiChain.LastConfigEntry | orderer/multichain/chainsupport.go:235-248 | the marshalled LAST_CONFIGURATION metadata: the encoded index as value, one signature over value + signature header + header bytes |
| MultiChain.SignaturesEntryReadsBack | orderer/multichain/chainsupport.go:210-225 | the SIGNATURES slot decodes to a nil value with exactly one signature over signature header + header bytes |
| MultiChain.LastConfigEntryReadsBack | orderer/multichain/chainsupport.go:235-248 | the LAST_CONFIGURATION slot decodes to a value holding the given index, with exactly one signature over value + signature header + header bytes |
| MultiChain.Chain.Enqueue | orderer/multichain/chainsupport.go:48-49 | accepts and queues the envelope unless the chain is halted |
| MultiChain.Chain.Start | orderer/multichain/chainsupport.go:51-54 | marks the chain started, nothing else changes |
| MultiChain.Chain.Halt | orderer/multichain/chainsupport.go:56-57 | after Halt the chain is halted, so Enqueue refuses |
| MultiChain.Consenter.HandleChain | orderer/multichain/chainsupport.go:35-38 | records the support it is handed; fails iff the implementation refuses, otherwise returns a fresh, unstarted chain |
| MultiChain.ChainSupport.constructor | orderer/multichain/chainsupport.go:118-126 | stores the collaborators; lastConfiguration and lastConfigSeq are zero and no chain is set yet |
| MultiChain.ChainSupport.Start | orderer/multichain/chainsupport.go:159-161 | starts the chain |
| MultiChain.ChainSupport.Enqueue | orderer/multichain/chainsupport.go:199-201 | returns exactly the chain's Enqueue answer and has exactly its effect |
| MultiChain.ChainSupport.CreateNextBlock | orderer/multichain/chainsupport.go:203-205 | a fresh block equal to the ledger collaborator's next block for the batch, with both stamped slots allocated; the ledger is unchanged |
| MultiChain.ChainSupport.AddBlockSignature | orderer/multichain/chainsupport.go:207-226 | the SIGNATURES slot holds the signed nil-value entry and every other slot is unchanged |
| MultiChain.ChainSupport.AddLastConfigSignature | orderer/multichain/chainsupport.go:228-249 | if Sequence() > lastConfigSeq both fields move to the block number and the sequence, else both are unchanged; the slot signs the post-update index; other slots unchanged |
| MultiChain.ChainSupport.InvokeCommitters | orderer/multichain/chainsupport.go:252-254 | Commit runs on every committer exactly once, in list order |
| MultiChain.ChainSupport.AppendToLedger | orderer/multichain/chainsupport.go:259-262 | on success the block's value is appended; on an append error the process panics and the ledger is unchanged |
| MultiChain.ChainSupport.WriteBlock | orderer/multichain/chainsupport.go:251-264 | committers run once each in order before both stamps and the append; only the two slots change; the stamped block is appended and returned; an append error panics with the ledger unchanged; the two fields take one step of LastConfig.Track |
| MultiChain.NewChainSupport | orderer/multichain/chainsupport.go:101-135 | unknown consensus type is fatal with no HandleChain call; otherwise HandleChain runs exactly once, on the new facade, and its error is fatal; on success the facade holds the chain with both fields zero |

## Left out

- `orderer/sbft/main/network_test.go` is an integration test that spawns processes, dials gRPC and writes certificates. It has no logic of its own to model.
- The accessors `NewSignatureHeader`, `Sign`, `SharedConfig`, `ConfigTxManager`, `ChainID`, `PolicyManager`, `Filters`, `BlockCutter` and `Reader` only return or call a stored collaborator. Only the rule list, signer, encoder, ledger and next-block builder are stored in the model.
- `blockcutter.NewReceiverImpl` is not part of this model, and neither is the batching policy. Both live in another package.
- The internals of each rule (`EmptyRejectRule`, `sigfilter`, `configtx.NewFilter`, `newSystemChainFilter`) are not modelled. Rules are tags, and a rule's verdict is a parameter. The committer a rule returns with Accept is not modelled either.
- Filters.Evaluate: stands in for `filter.RuleSet.Apply`, whose source is not part of this model. It returns Forward when no rule decides; the fall-through value of `Apply` itself is not claimed. The lists built here never fall through.
- MultiChain.Consenter.HandleChain: stands in for the solo, Kafka and SBFT implementations. It keeps only the interface contract: it records the call, and it either fails or returns a fresh chain.
- MultiChain.Chain.Enqueue: stands in for the consenters' chains. It keeps only the documented contract, which is to accept until halted and refuse after. Worker loops, queues and their concurrency are left out.
- Cryptography is kept abstract. `Sign` and `Header.Bytes()` are arbitrary functions, and `MarshalOrPanic` is an arbitrary encoder. The read-back lemmas require it to be injective, and nothing else is assumed. Encoders are total: a `MarshalOrPanic` panic on an encoding error and a failing `Header.Bytes()` are not modelled.
- `configManager.Sequence()`, the signature-header nonces and the ledger's `Append` error are inputs of `WriteBlock`. They are not computed by the model.
- `Append` is a call into the ledger, which is not part of this model. The model assumes that a failed `Append` leaves the ledger unchanged. chainsupport.go:259-262 does not promise that; it only panics on the error.
- Logging (`logger.Debugf`) is left out. `logger.Fatalf` becomes a `Failure` result, and `logger.Panicf` sets `panicked`. Every method of the facade except the constructor requires `!panicked`, so nothing runs after a panic.
- Block numbers and sequences are Go `uint64`. The facade only compares and copies them, so no wrap-around arises.
