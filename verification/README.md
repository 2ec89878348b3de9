# Cosmos SDK: block execution, proposals, collections, dependency injection and decimals

A Dafny model of the parts of the Cosmos SDK in which a mistake is hard to see, with proofs about it.
`dafny verify dfyconfig.toml` checks everything.

**Blocks.** A node keeps a root store and a few volatile branches of it. `Branches` and `GasMeters` model
stores, branches and meters; `Transactions` is `runTx` with its nested branches, its deferred charge and its
recovery from panics, next to a reference that has none of these; `BlockExecution` is what a block does to a
store and what its gas meter shows; `Traces` and `BlockTraces` say what the reference computes step by step,
without it: the stores and meters between messages, transactions and blocks; `Application` is the class behind the ABCI methods, with the check,
prepare, process and finalize branches and optimistic execution; `Lifecycle` drives it through whole runs.
The main result is `Lifecycle.Drive`: for every sequence of legal calls, with proposals, checks,
simulations, votes, stopped optimistic runs, failed blocks, restarts and replays anywhere in between, the
committed store is the one that the genesis and the committed blocks alone lead to.

**Proposals.** `Proposals` has the default proposal handlers and the transaction selector,
`ProposalProperties` proves that proposals are well formed and that validators accept them although the
proposer's branch keeps the writes of transactions it did not select, for all verifiers that check sequences.
`ProposalWalks` says of every transaction of the mempool what becomes of it and why.
`ProposalRuns` shows that `runTx` in prepare and process mode is such a verifier, and when it is not.
`VoteExtensions` is the quorum check.

**Collections.** `Bytes`, `KeyCodec`, `PartCodecs` and `KeyBuffer` are keys and their encodings, `Ranges` and
`PrefixRanges` the ranges over them, `KVStore` and `Collections` the maps, `Schema` the schema builder and the
lookup of the collection that owns a key, `IndexedMap` the maps with indexes.

**Dependency injection.** `ProviderGraph` says what a container holds and what it means that a provider was
run on resolved values; `Arguments` says what these values are; `Registration` is about looking types up and registering them; `Chains` is about the
stack of calls and what errors are due to; `Resolution` has the invariants of resolving, and `Steps` what each
step of it does to them; `Container` is the container itself.
`Hiding` has the device by which long invariants are passed on without being looked into.

**Decimals.** `Decimal`, `DecimalPower`, `RelativePower` and `DecimalText`: rounding, powers, printing and
parsing. `PowerErrors` bounds the error of rounded powers for both kinds of numbers.

The application's handlers, the verifier of proposals, part codecs and provider functions are arbitrary
deterministic functions; errors and panics are result cases; hashes and signatures are functions and
predicates that are passed in. Nothing here was executed.

## What the code does differently from what it promises

- Optimistic execution (`baseapp/oe/optimistic_execution.go:146-154`): `Abort` stops the run but leaves it
  registered as the run of its block. If that block is decided after all, `FinalizeBlock` uses the stopped run
  and nothing of the block reaches the root store. `Application.BaseApp.FinalizeBlock` states both sides: the
  block has its plain effect unless the run of this very block was disturbed, and otherwise none on the root
  store. `Lifecycle.StoppedRunIsReused` shows it for every node that executes a proposal ahead while it is asked
  about another: the first, decided after all, has its effect if and only if the second was accepted.
- A proposer keeps the sequence that a transaction was counted with even if the post handler then refuses the
  transaction (`baseapp/abci_utils.go:362-364`). The signer's next transaction is proposed without it, and
  validators reject the whole proposal (`ProposalRuns.CountedButRefused`). If nothing fails after the ante
  handler, every proposal is accepted (`ProposalRuns.NodesAgree`).
- A value that is supplied for a many-per-container or one-per-module type, or one that a module-scoped provider
  gives, is lost when its collection is first asked for: the resolver is overwritten
  (`depinject/container.go:117-150`). `Registration.TakesOver` says exactly which resolvers are replaced, and
  `Container.Container.SuppliedIsLost` loses a value in any container.
- A start bound past the last key of a collection whose prefix consists of 0xFF bytes becomes a nil key, which
  the store takes for its beginning (`collections/iter.go:134-169`). Such a range reaches every key outside the
  collection, and clearing it deletes the entries of all other collections (`Ranges.FallenStart`,
  `Collections.Map.Clear`, `Collections.ClearEmptiesStore`, `Collections.OtherEntryReached`). A range stays inside
  its collection exactly when its start bound is a key (`Ranges.StaysInside`).
- `QuoRoundUp` (`math/legacy_dec.go:414-424`) is one unit too large exactly for operands of opposite sign whose
  inexact quotient is not smaller than one unit of the last place in magnitude (`Decimal.QuoRoundUpIsCeiling`).
- Dividing a decimal in place by itself gives zero or one unit, because the dividend is scaled before the
  divisor is read (`Decimal.LegacyDec.QuoMut` and its two companions).
- `LegacyNewDecFromStr` (`math/legacy_dec.go:158-206`) documents an optional minus sign and digits around an
  optional point. It also takes a second sign, which `big.Int.SetString` reads, and then no digits: "+" is zero and
  "--5" is five (`DecimalText.LooseSigns`). Whatever it parses has the documented form exactly if it has no plus
  sign and no second sign (`DecimalText.ParsedIsDocumented`).
- The non-terminal encoding of strings (`collections/codec/string.go:40-50`) copies only the first byte of each
  rune: strings are read back exactly when they have no multi-byte rune (`PartCodecs.StringNonTerminal`).
- A collection prefix that consists of 0xFF bytes only cannot be iterated as a whole, since the missing end
  bound is refused (`Ranges.WholeCollectionRefused`).
- The total gas of a proposal can exceed the limit when the gas of a transaction is so large that the sum wraps
  around (`ProposalProperties.GasWraps`, for every such gas); otherwise it cannot (`ProposalProperties.GasWithin`).

## Model

| member | source | states |
|---|---|---|
| `Branches.ApplyTwice` | baseapp/baseapp.go:687-701 | writing a branch of a branch into its parent leaves what is read through the parent as it was read through the branch |
| `Transactions.TxRun.ConsumeBlockGas` | baseapp/baseapp.go:864-871 | the first call charges the block exactly the gas consumed up to the limit, and says if that panics; later calls do nothing |
| `Transactions.TxRun.RunMsgs` | baseapp/baseapp.go:1027-1091 | messages run in order on one branch up to the first failure, in finalize and simulate mode only, and writes, gas and status are those of the reference, which `Traces.Continues` describes step by step |
| `Transactions.TxRun.Execute` | baseapp/baseapp.go:962-1020 | the branch of messages and post handler is written iff both succeed and the block can pay; the charge happens then and only then |
| `Transactions.TxRun.Process` | baseapp/baseapp.go:884-1020 | the body of `runTx` refines the reference settlement up to the deferred charge, for every exit |
| `Transactions.TxRun.Run` | baseapp/baseapp.go:835-1020 | `runTx` with deferred charge and recovery equals the reference settlement in finalize mode; in other modes it keeps at most the ante writes and never touches block gas |
| `Transactions.TxAtomic` | baseapp/baseapp.go:835-1020 | nothing, exactly the ante writes, or ante plus all message and post writes; the last iff no error; charged once unless the block had no gas left |
| `Traces.Continues` | baseapp/baseapp.go:1027-1091 | messages start where the ones before ended, with the store and the gas meter that these left, up to the first that fails |
| `Traces.TxTraced` | baseapp/baseapp.go:835-1020 | every transaction of a block has a trace: it succeeds iff ante handler, all messages one after the other, post handler and charge do, and then the store is the last one; else the trace names the first step that fails and the store is the one before or the one after the ante handler; the charge is what was consumed up to the limit |
| `Traces.OneTrace` | baseapp/baseapp.go:835-1020 | the steps alone determine the trace, so how a transaction ends, its store and its cost |
| `Traces.TraceSettles` | baseapp/baseapp.go:835-1020 | any trace of a transaction has the outcome, the store and the meter of the reference |
| `Traces.CheckPasses` | baseapp/baseapp.go:884-1000 | when transactions are checked or looked at in proposals no message runs: they pass iff the ante handler accepts, the mempool does not refuse, and the post handler accepts |
| `Traces.SimulationPasses` | baseapp/baseapp.go:1027-1091 | a simulation passes iff there is a succession of all messages and the post handler accepts after it |
| `Transactions.ProposalCheck` | baseapp/baseapp.go:1179-1210 | verification for a proposal is the ante handler's verdict when the post handler does not fail in that mode |
| `BlockExecution.BlockAtomic` | baseapp/abci.go:842-864 | for every transaction of every block, the flat store changes by nothing, the ante writes, or everything, the last iff it is reported successful |
| `BlockExecution.Charging` | baseapp/baseapp.go:844-881 | each transaction moves the block meter by exactly its cost, or not at all when no gas is left; success is within the limit |
| `BlockExecution.Conserved` | baseapp/baseapp.go:852-881 | the meter shows the start plus every charge once, saturating at the largest 64-bit number |
| `BlockExecution.WithinLimit` | baseapp/baseapp.go:1005-1011 | when a transaction succeeds all charges so far are within the limit; those of successful ones always are |
| `BlockExecution.BlockGas` | baseapp/abci.go:835-864 | the two laws above for every block with a limit, tied to the delivered block |
| `BlockExecution.ExhaustedIsFinal` | baseapp/baseapp.go:844-847 | once the meter is exhausted no later transaction changes the store or the meter, and all fail |
| `BlockTraces.BlockTraced` | baseapp/abci.go:749-892 | a block that succeeds went through pre-block, begin block, its transactions and end block, each on the store the one before left, with the named header fields and the parameters in force |
| `BlockTraces.StepsExecute` | baseapp/abci.go:749-892 | whatever goes through these steps is a block that succeeds, with the last store and the results of its traces |
| `BlockTraces.BlockIff` | baseapp/abci.go:749-892 | a block succeeds iff it can go through these steps |
| `BlockTraces.LimitedBlock` | baseapp/baseapp.go:648-654 | with a positive limit in the parameters after begin block the successful transactions cost at most the limit, so does everything up to a successful one, and those that find the limit reached, and no others, are not started and change nothing |
| `BlockTraces.UnlimitedBlock` | baseapp/baseapp.go:561-579 | without parameters, with 0 or with -1 every transaction is started and none fails for block gas below 2^64 |
| `BlockTraces.UnusableLimit` | baseapp/baseapp.go:561-579 | a limit below -1 before the block, after pre-block or after begin block makes the block fail |
| `BlockTraces.ChainTraced` | baseapp/abci.go:44-140 | the committed store of a chain is the last of the stores that genesis and blocks lead to, starting from nothing, the genesis under the first block |
| `BlockTraces.StepsChain` | baseapp/abci.go:44-140 | and any such stores are those of the chain |
| `BlockExecution.ChainGrows` | baseapp/abci.go:775-780 | a block executed on the last committed store, with the genesis branch if it is the first, extends the chain, or fails exactly when the chain has no such extension |
| `Application.BaseApp.RunTx` | baseapp/baseapp.go:657-683 | a transaction in check, simulate, prepare or process mode adds at most the ante writes to that mode's branch |
| `Application.BaseApp.CheckTx` | baseapp/abci.go:358-393 | the check state changes by the ante writes of an accepted transaction and by nothing else |
| `Application.BaseApp.Simulate` | baseapp/abci.go:1055-1080 | the result of a run on a branch that is thrown away; nothing changes |
| `Application.BaseApp.RunScript` | baseapp/abci_utils.go:362-366 | whatever a proposal handler writes and tries, each act starts from the store the one before left, and its branch holds the last one |
| `Application.BaseApp.ProposalState` | baseapp/abci.go:1191-1201 | proposals at the initial height are looked at on top of the uncommitted genesis, others on the root store |
| `Application.BaseApp.PrepareProposal` | baseapp/abci.go:408-481 | stops an optimistic run, touches only its own branch, and answers the engine's transactions if the handler fails or panics |
| `Application.BaseApp.ProcessProposal` | baseapp/abci.go:498-588 | exactly when it accepts, when the finalize branch is renewed, and when an optimistic run starts |
| `Application.BaseApp.Renew` | baseapp/abci.go:526-530 | no run goes on, the finalize branch is new, and a run that was registered stays registered |
| `Application.BaseApp.Judge` | baseapp/abci.go:532-573 | accepts iff the handler does and the block parameters are usable; only the process branch changes |
| `Application.BaseApp.InternalFinalizeBlock` | baseapp/abci.go:749-892 | a run replies with the executed block, fails exactly as the block does, or was cut short at one of its points; it halts iff the configured height or time is reached |
| `Application.BaseApp.FromBeginBlock` | baseapp/abci.go:815-892 | begin block, meter reset, transactions and end block refine the reference from the same store |
| `Application.BaseApp.DeliverTx` | baseapp/baseapp.go:758-791 | one transaction takes the finalize branch to the settled store |
| `Application.BaseApp.DeliverTxs` | baseapp/abci.go:842-864 | the loop over raw transactions refines the reference fold, wherever it is cancelled |
| `Application.BaseApp.Execute` | baseapp/oe/optimistic_execution.go:85-119 | a run is registered on a clean finalize branch |
| `Application.BaseApp.WaitResult` | baseapp/oe/optimistic_execution.go:157-160 | a run that is not cut short comes to its own end, with the reply of the plain block, and nothing happens if it had ended before |
| `Application.BaseApp.Abort` | baseapp/oe/optimistic_execution.go:146-154 | no run goes on afterwards, but it stays registered with its request |
| `Application.BaseApp.TakeRun` | baseapp/abci.go:921-934 | an undisturbed run answers its block as the plain block would; a disturbed one leaves the root store unchanged |
| `Application.BaseApp.DropRun` | baseapp/abci.go:923-938 | the run of another block ends, and it and its branch are forgotten |
| `Application.BaseApp.FinalizeBlock` | baseapp/abci.go:904-948 | reply, results and root store are those without optimistic execution unless the matching run was disturbed; then the root store is unchanged |
| `Application.BaseApp.InitChain` | baseapp/abci.go:44-140 | nothing changes for another chain identifier; else the genesis writes are in the finalize branch, not in the root store, and it succeeds iff storing the parameters and the genesis handler do |
| `Application.BaseApp.Commit` | baseapp/abci.go:975-1035 | exactly what was written is committed, under the next version; the finalize branch and pre-commit writes are gone and the check branch is new |
| `Application.BaseApp.Restart` | baseapp/baseapp.go:351-435 | only the committed store survives |
| `Lifecycle.Init` | baseapp/abci.go:44-140 | a legal `InitChain` keeps the relation between node and history |
| `Lifecycle.Look` | baseapp/abci.go:358-393 | so do checks, simulations and votes |
| `Lifecycle.Prepare` | baseapp/abci.go:408-481 | so do prepared proposals, wherever a run is stopped; the history says whether the run came to its own end |
| `Lifecycle.Process` | baseapp/abci.go:498-588 | so do processed proposals, accepted on the store of the committed blocks or not; the history says what is executed ahead |
| `Lifecycle.Finalize` | baseapp/abci.go:904-948 | a block whose optimistic run, if any, was not disturbed succeeds iff the node is not configured to halt and the chain has that extension; then it extends the chain in the root store, otherwise nothing is committed |
| `Lifecycle.CommitBlock` | baseapp/abci.go:975-1035 | the decided block becomes the last of the committed chain |
| `Lifecycle.StartAgain` | baseapp/baseapp.go:351-435 | a restart at any moment returns to the committed chain |
| `Lifecycle.Do` | baseapp/abci.go:44-1053 | every legal call keeps the relation between the node and the history of the run, and succeeds exactly when the history says so |
| `Lifecycle.Drive` | baseapp/abci.go:408-1053 | a node takes exactly the calls up to the first that is not legal, which the calls alone decide; for every run the committed store is a function of the genesis and the committed blocks, and these are a function of the calls, with and without optimistic execution |
| `Lifecycle.SameBlocksSameStore` | baseapp/abci.go:408-1053 | two nodes with different calls and settings, each with the history that its legal calls determine, have the same committed store if genesis and blocks are the same |
| `Lifecycle.StoppedRunIsReused` | baseapp/oe/optimistic_execution.go:146-154 | for every node that executes one proposal ahead and is asked about another: the first, decided after all, has its plain effect iff the second was accepted; else the root store is unchanged |
| `Lifecycle.RunsAheadHappens` | baseapp/abci.go:498-588 | such a node comes about by starting a chain, committing its first block and accepting the next proposal |
| `Proposals.TxSelector.SelectTxForProposal` | baseapp/abci_utils.go:531-559 | adds iff size and gas fit, in wrapping arithmetic, and stops iff a limit is reached |
| `Proposals.CheckSigners` | baseapp/abci_utils.go:333-355 | passes iff every signer seen before continues its sequence, and notes the sequences |
| `Proposals.UpdateSequences` | baseapp/abci_utils.go:372-388 | the loop over the noted signers computes the update for selected and for unselected transactions |
| `Proposals.Offer` | baseapp/abci_utils.go:319-393 | the mempool callback refines one step of the reference |
| `Proposals.SelectBy` | baseapp/abci_utils.go:313-393 | the mempool's offers, up to the first that is answered with false, refine the reference over the whole mempool |
| `Proposals.PickAll` | baseapp/abci_utils.go:302-311 | without a mempool, transactions are picked in order until a limit is reached |
| `Proposals.PrepareProposal` | baseapp/abci_utils.go:277-408 | the whole handler refines the reference, with every error case |
| `Proposals.ProcessProposal` | baseapp/abci_utils.go:421-457 | accepts iff there is no mempool, or there are branches between the transactions such that each passes on its branch and leaves the next, and for a positive limit the gas sum of every prefix, modulo 2^64, is within it |
| `ProposalWalks.ProposedWalks` | baseapp/abci_utils.go:313-393 | every offered transaction is skipped iff a sequence is not the expected one, refused iff the verifier refuses, and else selected iff size and gas fit; expected is the successor of the last selected sequence, or the first one left out; offers end when a limit is reached or signers are missing |
| `ProposalWalks.WholeWalk` | baseapp/abci_utils.go:313-408 | any walk with these reasons that goes as far as it can tells what is proposed, what is removed and whether it fails |
| `ProposalWalks.WholeWalkExists` | baseapp/abci_utils.go:313-393 | there is such a walk over every mempool, for every verifier |
| `ProposalWalks.PickedPicks` | baseapp/abci_utils.go:302-311 | without a mempool a transaction is selected iff it fits, in order, until a limit is reached |
| `ProposalProperties.SizeWithin` | baseapp/abci_utils.go:538-559 | for any mempool and verifier the total size is the counted one and at most the maximum, if no sum of sizes can wrap around |
| `ProposalProperties.GasWithin` | baseapp/abci_utils.go:538-559 | and the total gas at most a positive limit, if no sum of gas can wrap around |
| `ProposalProperties.PickedWithin` | baseapp/abci_utils.go:302-311 | both bounds for proposals without a mempool |
| `ProposalProperties.GasWraps` | baseapp/abci_utils.go:538-559 | for every gas that can wrap around with the limit there is a proposal that exceeds the limit |
| `ProposalProperties.SequencesConsecutive` | baseapp/abci_utils.go:313-393 | each signer's ordered transactions have consecutive sequences in every proposal |
| `ProposalProperties.ValidatorMatches` | baseapp/abci_utils.go:326-393 | what the proposer verified in sequence also matches the validator's store |
| `ProposalProperties.StaysApart` | baseapp/abci_utils.go:371-388 | how far the two stores may drift, kept by selected and by unselected transactions |
| `ProposalProperties.Agreement` | baseapp/abci_utils.go:277-457 | every proposal of the default handler is replayed successfully by any validator whose verifier checks the same sequences |
| `ProposalProperties.ProposeAndProcess` | baseapp/abci_utils.go:277-457 | accepted iff prepared without an error, and exactly when there is no error |
| `ProposalRuns.VerifyTx` | baseapp/baseapp.go:1179-1210 | verifying a transaction of a proposal is a run of `runTx` on the branch of the mode |
| `ProposalRuns.RunChecksSequences` | baseapp/baseapp.go:1179-1210 | such runs check sequences if the ante handler does and, in prepare and process mode, nothing fails after it |
| `ProposalRuns.NodesAgree` | baseapp/abci_utils.go:277-457 | with `runTx` as verifier on both sides, what one node proposes without an error another accepts |
| `ProposalRuns.CountedButRefused` | baseapp/abci_utils.go:358-390 | a transaction that fails after the ante handler makes the proposer select a successor that validators reject |
| `ProposalRuns.RefusalHappens` | baseapp/baseapp.go:962-1000 | an application in which this happens |
| `VoteExtensions.ValidateAgainstLastCommit` | baseapp/abci_utils.go:181-220 | accepts iff round, validators, powers, order and uniqueness agree with the last commit |
| `VoteExtensions.TallyVotes` | baseapp/abci_utils.go:95-160 | fails iff an extension is wrong; the sums are exact when twice the total fits into 63 bits |
| `VoteExtensions.ValidateVoteExtensions` | baseapp/abci_utils.go:62-175 | accepts iff extensions are enabled, all of them verify and they hold more than two thirds of a positive total |
| `VoteExtensions.QuorumsIntersect` | baseapp/abci_utils.go:95-220 | validators verified in two accepted commits hold more than one third |
| `Bytes.NextKey` | collections/iter.go:331-336 | appending a zero byte gives the next key in byte order |
| `Bytes.PrefixInterval` | collections/iter.go:338-361 | p is a prefix of k iff p <= k < end of p, with no end as infinity |
| `Bytes.NextBytesPrefixKey` | collections/iter.go:338-361 | the loop over a shrinking buffer computes that end |
| `KeyCodec.LeadingKey` | collections/collections.go:25-54 | a self-delimiting key never starts the bytes of another |
| `KeyCodec.PairLawful` | collections/pair.go:80-196 | pairs of lawful codecs round-trip, have exact sizes and are self-delimiting again; they encode iff both parts do |
| `KeyCodec.TripleLawful` | collections/triple.go:172-290 | so do triples |
| `KeyCodec.QuadLawful` | collections/quad.go:212-360 | so do quads |
| `KeyBuffer.EncodePairInto` | collections/pair.go:80-97 | the buffer holds the encoding from the given position, and the count returned is its size |
| `KeyBuffer.EncodeTripleInto` | collections/triple.go:172-196 | the same for triples |
| `KeyBuffer.EncodeQuadInto` | collections/quad.go:212-243 | the same for quads |
| `KeyBuffer.EncodeKeyWithPrefix` | collections/map.go:276-290 | the prefix followed by the key, or an error |
| `PartCodecs.BigEndianOrder` | collections/codec/uint.go:14-24 | byte order of big-endian numbers is numeric order |
| `PartCodecs.UintLawful` | collections/codec/uint.go:10-144 | unsigned keys of every width are lawful, and encode iff they fit the width |
| `PartCodecs.EncodeIntOrder` | collections/codec/int.go:14-30 | byte order of signed keys is numeric order |
| `PartCodecs.IntLawful` | collections/codec/int.go:10-127 | signed keys of every width are lawful, and encode iff they fit the width |
| `PartCodecs.BytesLawful` | collections/codec/bytes.go:17-79 | byte keys are lawful, and have a non-terminal form iff they have at most 255 bytes |
| `PartCodecs.StringNonTerminal` | collections/codec/string.go:40-60 | a string without the delimiter is read back iff it has no multi-byte rune |
| `PartCodecs.StringLawful` | collections/codec/string.go:18-60 | strings of one-byte runes are lawful; a non-terminal string encodes iff it has no zero byte |
| `PartCodecs.MultiByteRuneIsLost` | collections/codec/string.go:40-50 | a two-byte rune that is not read back |
| `Ranges.RangeExact` | collections/iter.go:134-169 | a stored key is in the byte interval iff it is in the collection and satisfies the bounds |
| `Ranges.OrdinaryPrefixResolves` | collections/iter.go:313-361 | with a byte below 0xFF in the prefix every range has the bounds it needs |
| `Ranges.InvalidIteratorMeansEmpty` | collections/iter.go:160-169 | the iterator is refused only when no key satisfies the bounds |
| `Ranges.NilEndIsRefused` | collections/iter.go:160-169 | a range whose end cannot be expressed is refused |
| `Ranges.WholeCollectionRefused` | collections/iter.go:134-169 | iterating everything is refused iff the prefix is all 0xFF |
| `Ranges.StaysInside` | collections/iter.go:134-169 | a range reaches non-empty keys of its collection only iff its start can be expressed |
| `Ranges.FallenStart` | collections/iter.go:134-169 | otherwise the prefix is all 0xFF and every key outside the collection is reached |
| `PrefixRanges.PrefixedRangeVisits` | collections/pair.go:329-334 | a prefixed range visits exactly the keys that begin with the encoded prefix |
| `PrefixRanges.PairRangeSelects` | collections/pair.go:329-334 | exactly the pairs with that first part |
| `PrefixRanges.WithinIsNested` | collections/pair.go:336-374 | a pair range with bounds on the second part is a range over second parts under the encoded first part |
| `PrefixRanges.PairBoundsSelect` | collections/pair.go:336-374 | it selects exactly the pairs with that first part whose second part satisfies the inclusive or exclusive bounds |
| `PrefixRanges.TripleRangesSelect` | collections/triple.go:338-354 | exactly the triples with those one or two leading parts |
| `PrefixRanges.QuadRangesSelect` | collections/quad.go:409-435 | exactly the quads with those one, two or three leading parts |
| `KVStore.Store.Iterator` | collections/iter.go:181-205 | the keys of the interval, each once, in byte order or its reverse |
| `Collections.DeleteDomain` | collections/map.go:192-224 | the batched loop terminates and deletes exactly the keys in the interval |
| `Collections.DeleteKeys` | collections/map.go:207-220 | deletes exactly the given keys |
| `Collections.Map.constructor` | collections/map.go:44-66 | a collection without entries is well formed |
| `Collections.Map.Set` | collections/map.go:78-91 | writes one entry of the collection or fails without effect; a well-formed collection stays so |
| `Collections.Map.Get` | collections/map.go:96-117 | the stored value, not found, or an encoding error |
| `Collections.Map.Has` | collections/map.go:120-129 | whether the key is stored |
| `Collections.Map.Remove` | collections/map.go:132-139 | removes one entry of the collection or fails without effect; a well-formed collection stays so |
| `Collections.Map.Clear` | collections/map.go:179-189 | deletes exactly the keys in the range and touches no other collection if the start bound is a key; else deletes everything outside the collection; a well-formed collection stays so |
| `Collections.Map.DomainReached` | collections/iter.go:134-169 | the byte interval of a range holds exactly the keys that it reaches, in both cases |
| `Collections.ClearEmptiesStore` | collections/map.go:179-189 | clearing past a key of 0xFF bytes under a prefix of 0xFF bytes empties every store |
| `Collections.OtherEntryReached` | collections/iter.go:134-169 | an entry of another collection in such an interval |
| `Collections.Map.Iterate` | collections/map.go:143-148 | exactly the stored keys that the range reaches, in order |
| `Collections.Map.Keys` | collections/iter.go:257-269 | the decoded keys of the range, in the order of their encodings |
| `Schema.SchemaBuilder.AddCollection` | collections/schema.go:86-107 | a duplicate or invalid collection fails the builder and is not added |
| `Schema.SchemaBuilder.Build` | collections/schema.go:45-84 | succeeds iff nothing failed and no prefix starts another |
| `Schema.OneOwner` | collections/schema.go:50-64 | a raw key belongs to at most one collection |
| `Schema.Isolation` | collections/schema.go:45-107 | what touches one collection leaves every entry of every other |
| `Schema.ModuleCodec` | collections/indexing.go:24-100 | the lookup holds exactly the collections that are not indexes |
| `Schema.GreatestIsPrefix` | collections/indexing.go:110-128 | the greatest prefix not above a key is the only one that can start it |
| `Schema.DecodeKV` | collections/indexing.go:110-128 | the descending walk that stops at the first entry finds the collection of the key, and nothing iff there is none |
| `IndexedMap.CachedGet.Call` | collections/indexed_map.go:199-217 | the old value is read once and then repeated |
| `IndexedMap.Index.Reference` | collections/indexes/multi.go:77-99 | succeeds iff the reference keys exist and a unique one is free; then the entry of the old value is replaced by that of the new one |
| `IndexedMap.Index.Unreference` | collections/indexes/multi.go:101-115 | succeeds iff there is a value with a reference key; then its entry is dropped |
| `IndexedMap.Index.DroppedAgrees` | collections/indexed_map.go:151-157 | dropping keeps an index derived from the map without the key |
| `IndexedMap.Index.ReplacedAgrees` | collections/indexed_map.go:140-148 | replacing keeps an index derived from the updated map |
| `IndexedMap.Index.ReplaceableInMap` | collections/indexes/unique.go:34-63 | in an index that agrees with the map, that is: the new value has a reference key, and in a unique index no other primary key has it |
| `IndexedMap.IndexedMap.Set` | collections/indexed_map.go:140-148 | succeeds iff key and value encode and every index can replace its entry; the primary map is updated iff it succeeds, and then all indexes agree again |
| `IndexedMap.IndexedMap.Remove` | collections/indexed_map.go:151-157 | succeeds iff the key encodes and every index finds the value and its reference key; the same for the map and the indexes |
| `IndexedMap.IndexedMap.Run` | collections/indexed_map.go:140-197 | after any run without errors each index holds exactly the pairs derived from the primary map |
| `ProviderGraph.EdgeIsEarlier` | depinject/container.go:57-97 | a provider that ran depends, in the graph as it was given and in the one with all bindings made on the way, only on providers that ran earlier |
| `ProviderGraph.PathDescends` | depinject/container.go:57-97 | along dependencies the position in the log goes down |
| `ProviderGraph.NoReachableCycle` | depinject/container.go:57-97 | a provider from which a cycle can be reached has not run |
| `ProviderGraph.NoGivenCycle` | depinject/container.go:57-97 | if the root reaches no cycle, no wanted output led to one in the graph as it was given |
| `Arguments.LogExplained` | depinject/container.go:57-97 | every argument of every run is what the name of its input type stands for, the module's binding before the container's: a result that an earlier run returned at the registered position, a supplied value, or a collection of such results |
| `Arguments.GroupByPositions` | depinject/group.go:51-83 | the list of a group, by positions: each output contributes its value, or the elements of its slice, in order of registration |
| `Chains.StackedStable` | depinject/container.go:57-97 | the stack of calls stays a chain of dependencies while types are looked up |
| `Chains.FindsFault` | depinject/container.go:375-425 | a lookup that gives an error or nothing is due to the type: a binding that leads nowhere, several implementations, or none |
| `Chains.BlameExplained` | depinject/container.go:57-97 | an error is due to a chain of dependencies from the root or an invoker that returns to a location or ends in an input that cannot be resolved |
| `Container.Container.constructor` | depinject/container.go:46-55 | an empty container with its bindings |
| `Registration.TakesOver` | depinject/container.go:117-150 | registering a group replaces a resolver iff it is that of the collection or of the element type that was not asked for |
| `Container.Container.GetResolver` | depinject/container.go:99-175 | what a lookup finds and registers in each case: the binding of the module, else that of the container, each to a registered type or an error, else registered types, collected types, and interfaces with one, no or several implementations |
| `Container.Container.BindInterface` | depinject/container.go:152-172 | an interface is bound to its unique concrete implementation; several are an error and none is none |
| `Container.Container.Call` | depinject/container.go:57-97 | a provider at a location that is being called is a cycle; otherwise it is called on the values of its resolved inputs; every other error has its cause |
| `Container.Container.Arguments` | depinject/container.go:71-82 | every input is resolved in order, and each value still serves its input when all are |
| `Container.Container.Resolve` | depinject/container.go:375-425 | the value serves the input, for every kind of input |
| `Container.Container.ResolveValues` | depinject/simple.go:33-44 | a simple provider runs on first use only |
| `Container.Container.ResolveSimple` | depinject/simple.go:46-63 | the value of its output, which is kept for all later callers |
| `Container.Container.ResolveScoped` | depinject/module_dep.go:31-53 | the value of its output, which is kept for later callers of the same module |
| `Container.Container.ScopedValues` | depinject/module_dep.go:40-48 | a module-scoped provider runs once for each module |
| `Container.Container.ResolveCollection` | depinject/group.go:51-83 | a collection is built on first use and kept for all later callers |
| `Container.Container.CollectSlice` | depinject/group.go:51-83 | the values of all providers of a group in order of registration |
| `Container.Container.CollectTable` | depinject/one_per_module.go:54-84 | the values of all modules by name |
| `Container.Container.AddNode` | depinject/container.go:210-338 | a provider is module-scoped iff it asks for a module key; collected types are refused as inputs; looking up the type of each output leads to that output, and what was registered stays available; every failure has its cause in an input or in an output that another provider, a supplied value or a binding stands in the way of |
| `Container.Container.AddOutput` | depinject/group.go:89-93 | exactly which resolvers accept another provider and how |
| `Container.Container.Supply` | depinject/container.go:340-359 | registers a value iff its type has no resolver |
| `Container.Container.SuppliedIsLost` | depinject/container.go:117-135 | in any container, a value supplied for a many-per-container type is accepted, and after asking for the collection the group is empty and nothing resolves to the value |
| `Container.Container.Build` | depinject/container.go:427-498 | terminates; the graph only grows from the given one by the root; on success and on error every provider ran at most once (per module if scoped), after the providers of its inputs and on their values, the failing one included; every argument is explained by earlier runs; on success the wanted outputs have values, explained likewise, all registered invokers ran in order and no cycle is reachable from the outputs; a cycle of the given graph is an error; every error has its cause |
| `Container.Container.CallInvokers` | depinject/container.go:487-494 | every registered invoker runs exactly once, in order of registration, or the error has its cause |
| `Decimal.ChopPrecisionAndRound` | math/legacy_dec.go:628-658 | nearest, ties to even, for both signs |
| `Decimal.ChopPrecisionAndTruncate` | math/legacy_dec.go:703-705 | the sign is kept and the magnitude is the largest multiple not above it |
| `Decimal.ChopPrecisionAndRoundUp` | math/legacy_dec.go:660-680 | the ceiling for both signs |
| `Decimal.NearestEvenUnique` | math/legacy_dec.go:628-658 | nearest with ties to even is unique |
| `Decimal.LegacyDec.MulMut` | math/legacy_dec.go:317-324 | the product rounded to nearest even; panics iff out of range |
| `Decimal.LegacyDec.MulTruncateMut` | math/legacy_dec.go:332-337 | the truncated product |
| `Decimal.LegacyDec.MulRoundUpMut` | math/legacy_dec.go:345-351 | the product rounded up |
| `Decimal.LegacyDec.QuoMut` | math/legacy_dec.go:383-391 | the doubly scaled quotient rounded to nearest even, also what happens when divisor and dividend are the same object |
| `Decimal.LegacyDec.QuoTruncateMut` | math/legacy_dec.go:399-406 | the truncated quotient |
| `Decimal.LegacyDec.QuoRoundupMut` | math/legacy_dec.go:414-424 | the quotient as the code rounds it up |
| `Decimal.MulCommutes` | math/legacy_dec.go:312-324 | multiplication commutes |
| `Decimal.QuotientsOrdered` | math/legacy_dec.go:383-424 | truncated <= rounded <= rounded up <= truncated plus one unit, despite two roundings |
| `Decimal.QuoRoundUpIsCeiling` | math/legacy_dec.go:414-424 | rounding up is the ceiling iff signs agree, or the quotient is exact or below one unit of the last place; otherwise it is one unit too large |
| `PowerErrors.NearPowerProduct` | math/legacy_dec.go:509-526 | if two numbers are close to powers of x, their rounded product is close to the power with the sum of the exponents: within half a unit for each product, times the growth g for each factor that follows, where g is 1 if abs(x) is at most 1, else abs(x) plus half a unit |
| `PowerErrors.UnitError` | math/legacy_dec.go:509-526 | for numbers up to one that is half a unit for each product |
| `DecimalPower.TracksProduct` | math/legacy_dec.go:509-526 | exactness of integers, staying in [0, 1] and the error bound are kept by rounded products |
| `DecimalPower.PowerMut` | math/legacy_dec.go:509-526 | every power is within (n-1) * half a unit * g^(n-2) of the true one, and does not panic if g^n is in range; integer powers are exact and panic iff the power is out of range; powers of numbers in [0, 1] stay there and never panic |
| `RelativePower.MulRounded` | math/uint.go:266-282 | exactly when a rounded product panics, and that multiples of the base multiply exactly |
| `RelativePower.RelativePow` | math/uint.go:257-289 | every power is within the same bound of the true one, and does not panic if g^n*b*b + b/2 has at most 256 bits; the power of a multiple k*b of the base is exactly k^n*b, and there is no panic iff n is at most one or k^n*b*b + b/2 has at most 256 bits |
| `RelativePower.DocumentedPower` | math/uint.go:255-256 | the documented example: 210 to the power 2 with base 100 is 441 |
| `DecimalText.String` | math/legacy_dec.go:547-597 | the buffer holds the layout, for both layouts and signs |
| `DecimalText.PrintedForm` | math/legacy_dec.go:547-597 | sign, the digits of the whole part without leading zeros, a point, and exactly 18 digits that are the remainder |
| `DecimalText.ParsesLiteral` | math/legacy_dec.go:158-206 | digits with up to 18 digits after a point, or without one, and signs denote whole * 10^18 + fraction * 10^(18 - its length), if that is in range, else out of range |
| `DecimalText.ParsedIsLiteral` | math/legacy_dec.go:158-206 | whatever is parsed or out of range has that form |
| `DecimalText.ParsesExactly` | math/legacy_dec.go:158-206 | a string is parsed iff it has that form and is in range, and out of range iff it has that form and is not |
| `DecimalText.RefusedEarly` | math/legacy_dec.go:160-181 | exactly which strings are empty, have too many points, or a point at an end |
| `DecimalText.ParsedIsDocumented` | math/legacy_dec.go:142-156 | what is parsed has the documented form iff it has no plus sign and no second sign |
| `DecimalText.LooseSigns` | math/legacy_dec.go:158-206 | a plus sign alone is zero, and two minus signs cancel out |
| `DecimalText.ParsePrinted` | math/legacy_dec.go:158-206 | parsing what was printed gives the same decimal, for every decimal in range |
| `DecimalText.PrintedInjective` | math/legacy_dec.go:547-597 | different decimals never print alike |

## Left out

- Handlers: ante, message, post and block handlers neither replace nor refund the block gas meter, and block-level handlers do not observe the gas meter or the events of their context.
- Mempool: only the results of inserting, removing and selecting are modelled; in whole runs removing a transaction fails with "not found" at most, and everywhere else it may fail in any way.
- Optimistic runs: the concurrent run takes effect when it is waited for; nothing else reads or writes its branch meanwhile.
- Crashes: a panic outside the recovered regions (a maximum gas below -1, a missing finalize state) is an error result; the process may be restarted at any moment anyway.
- Application.BaseApp.InitChain: the comparison of the validators with those of the request is part of the genesis handler's result; setting the initial version of the store does not fail, as in `store/rootmulti/store.go:806-821`.
- Application.BaseApp.Simulate: simulation of nested messages is not part of this model.
- ProposalRuns.NodesAgree: the ante handler is one that checks and increments the sequences of distinct signers of ordered transactions and leaves sequences alone for unordered ones, as `x/auth/ante/sigverify.go:330-345` does; its other checks do not depend on the store.
- VoteExtensions.ValidateVoteExtensions: looking up the key of a validator and verifying a signature is one predicate.
- Container.Container.Build: a type carries at most one of the two collection markers, and the slice or map type of a collected type is the unnamed one.
- Container.Container.CollectTable: the check for a provider that returned too few values is left out, since functions return one value for each output.
- Container.Container.AddNode: struct arguments are taken to be expanded; resolve stacks, locations for messages, graph drawing and logging are not part of this model.
- DecimalPower.PowerMut: for decimals that are neither integers nor in [0, 1], the condition for not panicking is sufficient only, since what the intermediate roundings add up to can only be found by computing them.
- RelativePower.RelativePow: the same for numbers that are no multiple of the base.
- IndexedMap.Index.Reference: one class stands for multi and unique indexes, which differ in the key of the entry and in the uniqueness error.
- Queries, snapshots, streaming, telemetry, gRPC routing, protobuf and JSON encodings, retention heights: plumbing without a law of its own.
- `collections/vec.go`, `collections/item.go`, `collections/sequence.go`, the builder objects `Range` and `PairRange` (their values are modelled) and the until-prefix ranges: easy members on top of maps and ranges.
- `ApproxRoot`, sortable decimal bytes and `math/dec.go`: no clean general claim, or a wrapper of another library.
