# Bark: a verified model of the Ark client and server core

Bark is an implementation of the Ark protocol: clients swap virtual outputs
(vtxos) in rounds run by a server. This project models the parts of it that are
hardest to get right and proves what they are meant to guarantee, for every
input, every run and every interleaving. `dafny verify dfyconfig.toml` checks all
of it.

| file | models |
|---|---|
| src/Round.dfy | the client's round state machine: events, synchronisation, cancellation |
| src/RoundStore.dfy | storing, losing and reloading the states of that machine |
| src/Tracking.dfy | tracking of an attempt whose forfeits were signed, with double-spend detection |
| src/Proposal.dfy | the client's checks of what the server proposes |
| src/Participation.dfy | coin selection, participations and the movement record |
| src/VtxoPool.dfy | the server's pool of pre-issued vtxos |
| src/Connectors.dfy, src/Forfeits.dfy | the connector chain, the client signing over it and the server spending it |
| src/SweepIndex.dfy, src/Sweeps.dfy | the sweeper's index, and the passes that fill its builder, in order |
| src/Flux.dfy, src/Mailbox.dfy | the lock table with guards and the registry of mailbox watchers |
| src/Encode.dfy, src/Address.dfy, src/Challenges.dfy | byte encodings, address payloads and signed messages |
| src/Basics.dfy | the entities several parts share: outputs, policies, vtxo requests |
| src/Collections.dfy | shared facts about maps, ordered keys, vectors and filters |

## How to read it

Code that updates fields in place is a class with methods, each proved against a
specification function or predicate; the specification carries the properties.
Protocols are state machines with one action per atomic step, and a `Run` is a
sequence of states from the start linked by enabled actions. What the network,
the chain, the database, the clock and signing answer is an input: a parameter,
a field of an action, or a function the statement quantifies over. A transaction
id is an arbitrary hash of the stripped transaction, injective where a statement
says so; in the round state machine, and for the sweeper, it is an opaque name
that fixes the inputs of its transaction.

Where the code differs from its own documentation, or from what it expects of
itself, the model follows the code:

- `purge_sweeps` keeps the entries its comment says it removes
  (server/src/sweeps.rs:271-289), so a confirmed tree transaction drops what was
  collected before for any other round; `PurgeSweeps` and `ProcessTreeTx` state what
  is left.
- `process_connectors` reports a finished chain with height zero even if it has
  just added sweeps (server/src/sweeps.rs:427), and the round then counts as swept;
  `ProcessConnectors` states exactly when, `SweptTooEarly` gives such a round.
- The claim of an exited vtxo compares a zero-based index with a count
  (server/src/forfeits.rs:374), so the connector recorded for the last of several
  is not the one spent; `HandleExit` states exactly when they agree.
- `ConnectorIter::size_hint` is one too high once the last connector was handed
  out (lib/src/connectors.rs:296-299); `SizeHint` states exactly when it is right.
- The assertion in `process_event` on a finished round can fail when a `sync`
  dropped the last tracked attempt in between (bark/src/round.rs:295);
  `FinishCanPanic` gives a run, `FinishOutcome` the exact condition.
- `sign_vtxo_tree` checks a tree without looking at cosign keys and then expects to
  find our requests with our keys (bark/src/round.rs:753-777); `LookupSafe` states
  when that is safe, `AcceptedCanPanic` gives a tree for which it is not.
- `sign_forfeits` checks the connector output against the number of vtxos with nonces
  and signs over a chain as long as one list of nonces (bark/src/round.rs:825-836);
  `SignForfeits` states when the two fit, `UnfundedSigned` gives nonces for which they
  do not.
- A forfeit claim that cannot be started has used up a connector, and the exits of
  that pass are handled again (server/src/forfeits.rs:382-406); `DetectConfirms` states
  exactly when the connectors run out, `RetryRunsOut` gives a run.
- A failed write of a round state is only logged (bark/src/round.rs:1309-1330), and the
  next call starts from what was stored before; `LoadExact` states exactly when that is
  safe, `FailedStoreUnlocks` and `FailedRemovalReleases` give runs in which it is not.
- An address accepts, and drops, bytes after its policy and after the type byte of a
  built-in delivery (lib/src/address.rs:240-257); `PayloadCanonical` is exact about it.

## Model

| member | source | states |
|---|---|---|
| VtxoPool.Data.TakeInputs | server/src/vtxopool.rs:180-224 | for a positive amount it succeeds exactly when the pool is worth that much; picks plus remaining pool are the old pool as a multiset, on failure too; the picks are a greedy selection and cover the amount; no bucket is left empty |
| VtxoPool.Data.Walk | server/src/vtxopool.rs:195-211 | the walk over all heights ends in a state the greedy rule reaches, and if something remains uncovered the pool is exhausted |
| VtxoPool.Data.WalkHeight | server/src/vtxopool.rs:197-211 | one height of the walk leads from a greedy state with all earlier heights used up to the next one |
| VtxoPool.Data.TakeFromHeight | server/src/vtxopool.rs:198-211 | the walk over one height makes greedy picks only, leaves other heights alone, and empties the height unless the amount is covered |
| VtxoPool.Data.TakeFromAmount | server/src/vtxopool.rs:201-209 | the innermost loop makes greedy picks only and stops at an empty bucket or when the next lower amount suffices |
| VtxoPool.TakeOne | server/src/vtxopool.rs:202-208 | one pop of the walk is the pick the greedy rule demands at that moment |
| VtxoPool.GreedyConserves | server/src/vtxopool.rs:184-211 | picks and remaining pool partition the pool, counted per vtxo |
| VtxoPool.GreedyTotal | server/src/vtxopool.rs:184-211 | value of the pool is value of the picks plus value of what remains |
| VtxoPool.GreedyMinimal | server/src/vtxopool.rs:205-208 | before each pick the earlier picks fell short of the amount, so the last one cannot be dropped |
| VtxoPool.GreedyEarliestFirst | server/src/vtxopool.rs:177-193 | once something at a height is taken, every vtxo expiring earlier has been taken |
| VtxoPool.GreedyHeightsAscend | server/src/vtxopool.rs:197-198 | picks never return to an earlier height |
| VtxoPool.GreedyUnique | server/src/vtxopool.rs:184-193 | the rule determines the selection: two selections that cover the amount are equal |
| VtxoPool.RollbackRestores | server/src/vtxopool.rs:213-219 | putting the picks back restores the contents and leaves no bucket empty |
| VtxoPool.Data.Insert | server/src/vtxopool.rs:113-115 | adds one vtxo to its bucket, raises the total by its amount and keeps the no-empty-bucket invariant |
| VtxoPool.LastInFirstOut | server/src/vtxopool.rs:202-203 | the vtxo inserted last is the first to come out of its bucket |
| VtxoPool.Data.InsertAll | server/src/vtxopool.rs:215-217 | the put-back loop is the series of insertions |
| VtxoPool.Data.Prune | server/src/vtxopool.rs:157-168 | same contents, no empty bucket afterwards |
| VtxoPool.Data.PruneExpiring | server/src/vtxopool.rs:171-173 | keeps exactly the vtxos expiring after the threshold |
| VtxoPool.Data.SendArkoor | server/src/vtxopool.rs:296-313 | succeeds exactly if the pool can cover the request and preparing it goes through; otherwise the contents are unchanged; on success inputs plus pool are the old pool plus the change |
| VtxoPool.Data.FinishSend | server/src/vtxopool.rs:303-312 | whatever the pool holds by then, a failed payment adds exactly its inputs back and a successful one exactly its stored change |
| Round.UnlockSafe | bark/src/round.rs:191-214 | over every interleaving of events, sync and cancel: once the inputs are unlocked every attempt whose forfeit signatures were handed out has been judged double spent, and none is ever handed out again |
| Round.StaysTracked | bark/src/round.rs:664-687 | in every run an attempt handed out and not judged double spent is tracked, and the inputs are locked |
| Round.RunInv | bark/src/round.rs:234-427 | the ledger of handed-out, tracked and dropped attempts balances in every reachable state |
| Round.SyncLedger | bark/src/round.rs:340-395 | one sync splits the tracked attempts exactly into survivors and dropped ones |
| Round.SyncUnlocksExactly | bark/src/round.rs:397-427 | a sync goes on to unlock the inputs if and only if nothing is tracked after it and the interactive part is over |
| Round.SurvivorsExact | bark/src/round.rs:338-395 | what is tracked after a sync are exactly the attempts not dropped, as updated |
| Round.DroppedExact | bark/src/round.rs:382-388 | an attempt is dropped if and only if it is missing and conflicted deeply, or with bitcoind for long enough |
| Round.ConfirmedExact | bark/src/round.rs:366-376 | the confirmed attempt reported is the last one asked that has the required confirmations and whose new vtxos, if this call brought its witnesses, could be stored |
| Round.StatusExact | bark/src/round.rs:397-443 | each status by what is confirmed, what is tracked and signed, and where the flow stands |
| Round.ConfirmedSurvives | bark/src/round.rs:369-376 | an attempt counted as confirmed is still tracked after the sync |
| Round.CancelExactly | bark/src/round.rs:191-214 | in every reachable state cancelling succeeds if and only if nothing is tracked and the round did not succeed; the flow is then canceled unless it had failed, and otherwise unchanged |
| Round.DropJustified | bark/src/round.rs:382-388 | in every run the call that drops an attempt did not find it and found its inputs conflicted deeply enough, by the rule of the chain source in use, even if that changes during the run |
| Round.Lineage | bark/src/round.rs:336-395 | in every run a tracked entry is what the syncs since its signatures were handed out, one answer each, made of it |
| Round.DropBitcoind | bark/src/round.rs:1125-1152 | in every run on bitcoind an attempt is dropped only if every completed sync since some earlier one saw it missing with an input spent, for more than twice the expected time |
| Round.DropEsplora | bark/src/round.rs:1074-1123 | in every run an attempt dropped by Esplora had a foreign spender reported for one of its inputs in some sync since its signatures were handed out, with the required confirmations in the sync that drops it |
| Round.OneRoundPerAttempt | bark/src/round.rs:280-287 | tracked plus dropped attempts are those handed out, at most one per joined attempt |
| Round.EventProgress | bark/src/round.rs:234-331 | an event reports an update exactly when (flow, attempt, stage) strictly increases; otherwise nothing changes; the round never moves later |
| Round.EventExact | bark/src/round.rs:234-331 | an event has exactly one of five effects (fail, join an attempt, sign the tree, hand out forfeits, succeed), each with its whole new state, and reports an update exactly if one of them applies |
| Round.RunProgress | bark/src/round.rs:179-214 | over a whole run with cancellations and syncs the flow only moves forward, the start is not re-entered and final flows stay |
| Round.FinishSound | bark/src/round.rs:290-324 | in every run in which sync keeps the awaited attempt, in particular with events alone, that attempt is tracked and no event makes the assertion fail |
| Round.FinishOutcome | bark/src/round.rs:290-319 | on a matching finish the assertion fails exactly if nothing is tracked and the round succeeds exactly if the announced transaction is tracked |
| Round.FinishCanPanic | bark/src/round.rs:1303-1337 | a run of three events and one sync after which a matching finish makes the assertion fail |
| Round.RoundState.HandleEvent | bark/src/round.rs:234-331 | the in-place event handler does what the transition function says and keeps the run invariant |
| Round.RoundState.AskOne | bark/src/round.rs:340-395 | one round of the sync loop keeps the entry in place, updated, or swaps it out when judged double spent, and makes progress |
| Round.RoundState.AskAll | bark/src/round.rs:338-395 | the loop asks every tracked attempt exactly once and leaves exactly the survivors, in the order asked |
| Round.RoundState.SyncRounds | bark/src/round.rs:336-443 | status and unlocking follow from the survivors, and a failed database write turns the status into an error without undoing anything; unlocking happens only with nothing tracked and everything handed out judged double spent |
| Round.RoundState.Cancel | bark/src/round.rs:191-214 | whether a cancel succeeds or only fails to be stored, it leaves a final flow with nothing tracked and everything handed out judged double spent |
| RoundStore.UnlockSafeStored | bark/src/round.rs:1303-1337 | over every run of events, syncs and cancels with successful and failed writes, removals and reloads in any order, unlocking is safe as long as every stored state that is loaded tracks what was handed out and not judged double spent, and has ended if the inputs were unlocked |
| RoundStore.LoadExact | bark/src/round.rs:1339-1362 | a load is followed by safe unlocking only, whatever happens next, if and only if the stored state satisfies that condition |
| RoundStore.SavedLoadsSafely | bark/src/round.rs:1328-1330 | a state that was stored and not changed since satisfies it |
| RoundStore.StorageExact | bark/src/round.rs:1309-1330 | a write stores what is in memory, a load brings back what was stored, what was removed cannot be loaded, and failures change nothing |
| RoundStore.FailedStoreUnlocks | bark/src/round.rs:1309-1314 | a run in which storing fails after the signatures were handed out and the next call unlocks the inputs |
| RoundStore.FailedRemovalReleases | bark/src/round.rs:1415-1427 | a run in which a canceled round cannot be removed from the database and signatures are handed out for unlocked inputs |
| Tracking.EsploraConflict | bark/src/round.rs:1074-1123 | the transaction a conflict names is not ours and the latest of the confirmed conflicting spenders seen in that pass, by height and then by id |
| Tracking.EsploraConflictExact | bark/src/round.rs:1074-1123 | a conflict in Esplora mode is found if and only if everything asked was answered, some conflicting spender is confirmed, as remembered or as reported by the chain source, and all of those seen have the required confirmations |
| Tracking.LookExact | bark/src/round.rs:1077-1108 | what looking at one input comes to, in terms of the answers: when it fails, which spender counts as confirmed at which height, and which one is remembered |
| Tracking.EsploraMemory | bark/src/round.rs:1077-1108 | after a pass every input looked at remembers exactly what the answers say, and those after the first error what they had |
| Tracking.EsploraVerdict | bark/src/round.rs:1077-1117 | over any series of calls a double-spend verdict names a transaction that the chain source reported, then or earlier, as spender of one of our inputs and that is deep enough now |
| Tracking.BitcoindVerdict | bark/src/round.rs:1125-1152 | over any series of calls a double-spend verdict means that every completed call since some earlier one saw our transaction missing and an input spent, for more than twice the expected time |
| Tracking.BitcoindVerdictComplete | bark/src/round.rs:1125-1152 | the converse, with a clock that does not run backwards: once every completed call since one has seen the conflict for more than twice the expected time, the verdict is double spent |
| Tracking.AnySpentExact | bark/src/round.rs:1126-1133 | some input counts as spent exactly if one is and all before it were answered unspent; none counts as spent exactly if all were answered unspent |
| Tracking.RememberedTime | bark/src/round.rs:1137-1149 | the remembered time is that of a call that saw the conflict, and every completed call since saw it |
| Tracking.RememberedSpender | bark/src/round.rs:1078-1108 | a remembered spender was reported in an earlier call |
| Tracking.SyncKeeps | bark/src/round.rs:1055-1064 | a call keeps the id and inputs of the tracked transaction and never remembers it as its own spender |
| Tracking.SyncSameMemory | bark/src/round.rs:1157-1204 | what a call concludes and remembers does not depend on witnesses or new vtxos |
| Tracking.SignedNotDropped | bark/src/round.rs:345-364 | an attempt that became signed in a call is not judged double spent in the same call |
| Tracking.SyncEntry | bark/src/round.rs:1157-1204 | the call with its loops computes the specified new entry and verdict, error paths included |
| Tracking.SyncVerdict | bark/src/round.rs:1157-1204 | exactly when each verdict is given: confirmed with tip minus height plus one at least the requirement, double spent with a deep or long conflict of a missing transaction, an error for want of an answer, and unconfirmed otherwise |
| Tracking.SyncMemory | bark/src/round.rs:1157-1204 | what a call changes: a transaction that is found gets its witnesses and resets the clock, a conflict shown by bitcoind starts it, and an unspent set of inputs stops it |
| Tracking.PassLoop | bark/src/round.rs:1076-1110 | the loop over the inputs updates the memory and finds the latest sighting as specified, also when it aborts |
| Tracking.AnySpentLoop | bark/src/round.rs:1126-1133 | finds whether some input is spent, stopping at the first spent one or error |
| Proposal.CheckProposal | bark/src/round.rs:733-771 | accepts exactly when there are two outputs, the requested vtxos are a sub-multiset of the tree and the offboards a sub-multiset of the outputs from index two |
| Proposal.SignVtxoTree | bark/src/round.rs:733-793 | refuses exactly what the check refuses; of an accepted tree it finds the leaf of each of our signed requests, and panics exactly if one is missing |
| Proposal.LookupSafe | bark/src/round.rs:775-777 | with one fresh cosign key per output no look-up fails exactly if our requests with our keys are a sub-multiset of the tree; the leaves are then distinct and the check of the vtxos cannot fail |
| Proposal.AcceptedCanPanic | bark/src/round.rs:753-777 | an accepted tree with another cosign key, on which the look-up panics |
| Proposal.Unmatched | bark/src/round.rs:749-756 | the strike-out loop leaves the multiset difference |
| Proposal.CollectVtxos | bark/src/round.rs:870-900 | on success the leaves are distinct, validate, and their requests are exactly the requested outputs; a missing request means the tree lacks it; so after an accepted proposal with the same tree nothing can be missing |
| Forfeits.SignInput | bark/src/round.rs:841-863 | succeeds exactly with enough server nonces; the i-th signature commits to the i-th connector and the i-th nonce |
| Forfeits.SignForfeits | bark/src/round.rs:822-868 | panics, refuses the connector output or misses nonces exactly as stated; otherwise signs every input over the whole chain, and the accepted connector output funds that chain if and only if there are as many entries of nonces as nonces in the entry counted |
| Forfeits.UnfundedSigned | bark/src/round.rs:825-836 | one vtxo with two nonces, for which the accepted connector output does not fund the chain that is signed |
| Connectors.ChainConserves | lib/src/connectors.rs:102-129 | each transaction spends output 0 of its predecessor, the first the root, and its outputs add up to what it spends |
| Connectors.ChainLayout | lib/src/connectors.rs:102-129 | every transaction spelled out: version 3, one bare input, the continuation and the connector under the script of the chain with their values, and the empty anchor |
| Connectors.ConnectorIsDust | lib/src/connectors.rs:31-34 | every connector is an output of one dust amount under the script of the chain |
| Connectors.ConnectorsUseBudget | lib/src/connectors.rs:58-65 | the values of the connectors add up to the required budget |
| Connectors.FundsIffSameLength | lib/src/connectors.rs:78-83 | an output made for a chain of some length funds exactly the chains of that length |
| Connectors.ConnectorsDistinct | lib/src/connectors.rs:282-294 | no two connectors of a chain share an outpoint |
| Connectors.ConnectorTxIter.Next | lib/src/connectors.rs:228-241 | yields the chain transactions in order, exactly len-1 of them, with the same stripped form signed or not; with a key each carries its signature over the transaction and the output it spends |
| Connectors.ConnectorTxIter.SizeHint | lib/src/connectors.rs:243-246 | exact at every step |
| Connectors.ConnectorIter.Next | lib/src/connectors.rs:282-294 | yields the connectors in order, exactly len of them, with the same outpoints signed or not, each but the last with its transaction |
| Connectors.ConnectorIter.SizeHint | lib/src/connectors.rs:296-299 | exact until the last connector has been handed out, and one too many afterwards |
| Connectors.SameLengthSameConnector | lib/src/connectors.rs:102-129 | two chains from the same output agree on the k-th connector exactly when they have the same length |
| Forfeits.RoundState.NextConnector | server/src/forfeits.rs:148-153 | the k-th draw has index k and is the k-th connector of the chain; after as many draws as inputs there is none left |
| Forfeits.RoundState.HandleExit | server/src/forfeits.rs:343-387 | the finalized forfeit carries the user signature for exactly that vtxo, connector and nonce; the recorded connector equals the spent one if and only if it is not the last of several; a connector is used up even if the claim cannot be started |
| Forfeits.RoundState.HandleExits | server/src/forfeits.rs:402-404 | over a series of exits given up at the first failure all forfeits match their user signatures and no connector is used twice; the connectors run out exactly if more are asked for than are left |
| Forfeits.Watcher.DetectConfirms | server/src/forfeits.rs:389-408 | a pass that fails leaves all exits waiting, and its draws are lost; over any series of passes the connectors last as long as the vtxos registered and the draws lost together do not outnumber the inputs |
| Forfeits.Watcher.NeverTwice | server/src/forfeits.rs:148-153 | no connector is spent by two claims, in whatever passes they were started |
| Forfeits.SignAndClaim | bark/src/round.rs:822-868 | both sides together: whatever inputs a client signs for, the server claims each with the signature made for that vtxo and connector, and no connector twice |
| Forfeits.LastRecordedWrong | server/src/forfeits.rs:371-381 | of two exits the second is recorded with a connector other than the one spent |
| Forfeits.RetryRunsOut | server/src/forfeits.rs:382-404 | a round of one input whose claim failed to start once: the next pass has no connector left |
| Forfeits.MatchesIffSameLength | server/src/forfeits.rs:58-79 | the signature at the server index fits exactly when client and server use the same chain length |
| SweepIndex.Process.StorePending | server/src/sweeps.rs:571-576 | adds the transaction at the end of the list of each of its inputs and of no other, and keeps the index consistent |
| SweepIndex.Process.IsSwept | server/src/sweeps.rs:590-600 | the look-up never fails; the result is the first listed sweep of the outpoint that is confirmed, with its height; none if and only if no listed sweep is confirmed |
| SweepIndex.Process.Forget | server/src/sweeps.rs:604-610 | removes the outpoint and keeps the index consistent |
| SweepIndex.Process.RoundFinished | server/src/sweeps.rs:613-638 | removes exactly the outpoints of the round and keeps every other entry as it is; the index stays consistent |
| SweepIndex.Process.ClearConfirmedSweeps | server/src/sweeps.rs:717-747 | drops exactly the transactions none of whose inputs is indexed, or nothing on a database error; every listed transaction stays |
| Sweeps.SweepBuilder.ProcessVtxos | server/src/sweeps.rs:342-407 | a height is returned only if the tree is swept by our own sweeps up to it, and it is the height of one of them; no height only if something is unswept; an error exactly if a transaction is missing from the index; with an unconfirmed root exactly an unswept tree output is added, with a confirmed one nothing is left in the builder but sweeps around the confirmed transaction walked last; no connector is added |
| Sweeps.SweepBuilder.WalkTree | server/src/sweeps.rs:378-406 | the same for the walk down a tree with a confirmed root, whose assertion holds |
| Sweeps.SweepBuilder.ProcessTreeTx | server/src/sweeps.rs:381-403 | after a confirmed transaction the builder holds its unswept outputs and, of everything collected before for whatever round or board, only sweeps of its input |
| Sweeps.SweepBuilder.ProcessOutputs | server/src/sweeps.rs:394-403 | a height bounds the heights of the sweeps of all outputs; there is none only if there was none before or an output is unswept; what is added to the builder are exactly the unswept outputs with their values |
| Sweeps.SweepBuilder.ProcessConnectors | server/src/sweeps.rs:413-487 | adds exactly the unspent unswept connectors up to where it stops, and the unswept end there; a positive height means that nothing was added and all of it was swept by then; zero is reported exactly if every connector transaction is confirmed and answered for, and then nothing was added if and only if no unspent connector is unswept |
| Sweeps.SweepBuilder.WalkConnectors | server/src/sweeps.rs:421-472 | follows the chain to its first unconfirmed transaction, its end or a node error, adding exactly the connectors left to sweep on the way; the running result is empty exactly if there are any |
| Sweeps.SweepBuilder.SweepConnector | server/src/sweeps.rs:449-461 | adds exactly this sweep if the outpoint is unswept and nothing otherwise, where the result is then the later of the old one and the height of a sweep of it |
| Sweeps.NewConnectorsExact | server/src/sweeps.rs:449-461 | the connectors added are exactly those unspent and unswept, so nothing is added exactly if there are none |
| Sweeps.AddedExact | server/src/sweeps.rs:421-481 | everything the walk along the connectors adds, element by element |
| Sweeps.SweepsSpendOutputs | server/src/sweeps.rs:240-269 | every sweep names an output of its round and carries the value of that output |
| Sweeps.AskedPointsForgotten | server/src/sweeps.rs:613-638 | every outpoint a pass asks about for a round is among those forgotten with it |
| Sweeps.SweepBuilder.ProcessRound | server/src/sweeps.rs:489-512 | each outcome with its whole effect: a connector is added, and exactly the outpoints of the round leave the index, only if the tree is swept up to the given height; the round counts as swept with its connectors swept by then, or with all connector transactions confirmed, where connectors left to sweep have just been added; it waits only for the reasons stated |
| Sweeps.SweptTooEarly | server/src/sweeps.rs:425-428 | a round declared swept and forgotten with a connector that was never swept in the builder |
| Sweeps.SweepBuilder.ProcessRounds | server/src/sweeps.rs:661-670 | every round of a pass is processed in turn, from the index and builder the previous one left, and comes out as stated for one round; exactly the outpoints of rounds that count as swept leave the index; every connector in the builder belongs to a round whose tree our own sweeps spent with at least 100 confirmations |
| Sweeps.SweepBuilder.OneRound | server/src/sweeps.rs:664-668 | one round with the purge after it |
| Sweeps.SweepBuilder.ProcessBoard | server/src/sweeps.rs:312-336 | a board is added exactly if its exit and our sweeps of it are unconfirmed; it leaves the index exactly if it was exited or the first confirmed one of its listed sweeps is deep enough |
| Sweeps.ForgottenByDepth | server/src/sweeps.rs:321-326 | an unexited board leaves the index if all its confirmed sweeps are deep enough and there is one, and stays if none is |
| Sweeps.SweepBuilder.ProcessBoards | server/src/sweeps.rs:671-679 | every board to be swept and worth its cost is added, and with distinct anchors no other; exactly the anchors of the boards to be forgotten leave the index; the round sweeps are the old ones, or the worthwhile ones if there was a board |
| Sweeps.SweepBuilder.PerformSweep | server/src/sweeps.rs:640-687 | a whole pass is the pass over the rounds followed by that over the boards, each as stated; connectors are swept only behind deeply confirmed tree sweeps; the sweep goes ahead exactly if the surplus of both reaches the threshold |
| Sweeps.SweepBuilder.PurgeSweeps | server/src/sweeps.rs:272-289 | as written, keeps exactly the round and board sweeps of the given outpoint, in order |
| Sweeps.SweepBuilder.PurgeUneconomical | server/src/sweeps.rs:292-309 | keeps exactly the round and board sweeps worth at least their cost, which leaves what can be gained unchanged |
| Sweeps.PurgeKeepsSurplus | server/src/sweeps.rs:222-226 | purging leaves the total surplus unchanged, and it then equals value minus cost, for round and board sweeps alike |
| Sweeps.SurplusExact | server/src/sweeps.rs:222-226 | the surplus of round sweeps is the value minus the cost of those worth their cost |
| Sweeps.BoardSurplusExact | server/src/sweeps.rs:222-226 | the same for board sweeps |
| Sweeps.SweepBuilder.TotalSurplus | server/src/sweeps.rs:222-226 | adds up what the sweeps worth more than their cost gain, boards and rounds |
| Flux.VtxosInFlux.AtomicCheckPut | server/src/flux.rs:57-76 | locks all ids exactly if none is locked and none repeats; otherwise the table is unchanged and the first offending id is reported |
| Flux.VtxosInFlux.Release | server/src/flux.rs:78-83 | removes exactly the given ids |
| Flux.FluxLock.Lock | server/src/flux.rs:44-55 | a guard holds exactly the ids newly put into the table, or nothing changed |
| Flux.FluxLock.ReleaseAll | server/src/flux.rs:104-109 | empties the guard and takes exactly what it held out of the table |
| Flux.FluxLock.Absorb | server/src/flux.rs:111-113 | all ids move to the absorbing guard |
| Flux.FluxLock.IntoOwned | server/src/flux.rs:137-146 | all ids move to the owned guard |
| Flux.RunPartitions | server/src/flux.rs:44-83 | in every interleaving the table is the disjoint union of what guards and callers in the middle of locking hold |
| Flux.StepExact | server/src/flux.rs:44-146 | what every step does to the table and to each holder, and that nothing else changes |
| Flux.ReleasedIsFree | server/src/flux.rs:104-119 | in every run what a guard releases, or holds when dropped, can be locked again at once |
| Flux.HeldStaysLocked | server/src/flux.rs:104-119 | while an id is held no request containing it succeeds, and only its holder releasing or being dropped frees it |
| Flux.GuardsDisjoint | server/src/flux.rs:99-146 | in every interleaving two guards hold no id in common and hold only locked ids |
| Mailbox.RunInv | server/src/mailbox_manager.rs:19-54 | under every interleaving of lock steps every live receiver listens on the channel registered for its mailbox |
| Mailbox.NotifyReaches | server/src/mailbox_manager.rs:39-54 | a notify that starts and returns while a receiver of that mailbox lives puts its checkpoint on that receiver's channel |
| Mailbox.RemovalIsSafe | server/src/mailbox_manager.rs:43-51 | only a channel without receivers is ever removed |
| Mailbox.SubscribeReturns | server/src/mailbox_manager.rs:19-37 | in every run a subscribe that returns has handed out a new receiver of the channel registered for its mailbox |
| Mailbox.NewChannelStartsAt | server/src/mailbox_manager.rs:28-35 | in every run a new channel starts with the checkpoint given to the subscribe that made it |
| Mailbox.OnlyNotifyChanges | server/src/mailbox_manager.rs:39-54 | after that only a notify for the channel changes its checkpoint, to its own |
| Mailbox.StepExact | server/src/mailbox_manager.rs:19-54 | what each look-up, send and check decides, and that a removal removes exactly that mailbox |
| Participation.SelectVtxosToCover | bark/src/lib.rs:1798-1831 | succeeds exactly if some vtxo is eligible and all eligible ones together suffice; the result is the shortest nonempty covering prefix of the eligible ones |
| Participation.LastingExact | bark/src/lib.rs:1808-1817 | the eligible vtxos are those that do not expire before the threshold |
| Participation.BuildRefresh | bark/src/lib.rs:1694-1731 | succeeds exactly for known distinct ids; inputs are exactly those vtxos, the one output pays all of them to the given key, no fee |
| Participation.BuildOffboard | bark/src/lib.rs:1608-1652 | succeeds exactly if there are vtxos worth the fee; all of them minus the fee go to the destination in one offboard |
| Participation.BuildOnchainPayment | bark/src/lib.rs:1851-1891 | succeeds exactly if the spendable vtxos cover amount and fee; the inputs are a minimal cover, the change goes to the given key exactly if it exceeds dust, and the fee paid is between the computed fee and that plus dust |
| Participation.AddShouldRefresh | bark/src/lib.rs:1580-1606 | appends exactly the vtxos to refresh that are no inputs yet and one output of their sum, if that exceeds dust, and else nothing; the fee and the distinctness of inputs stay |
| Participation.ExtraExact | bark/src/lib.rs:1584-1589 | the vtxos added are those to refresh whose id is not among the inputs |
| Participation.ToMovementUpdate | bark/src/round.rs:59-84 | the fee is what is left over, the effective balance is outputs minus inputs, and the destinations are the offboards in order |
| Participation.Record | bark/src/round.rs:1226-1234 | any balanced participation is recorded with its fee and without underflow, consuming exactly its inputs and those of the extra refresh |
| Encode.CompactSizeBack | lib/src/encode.rs:132-155 | reading undoes writing for every 64-bit value and leaves the rest |
| Encode.CompactSizeCanonical | lib/src/encode.rs:203-231 | whatever is accepted is exactly what would have been written for the value |
| Encode.CompactSizeForm | lib/src/encode.rs:132-155 | the four forms: their ranges, first bytes and little-endian digits |
| Encode.CompactSizeErrors | lib/src/encode.rs:203-231 | reading fails for want of bytes exactly if the announced ones are missing, and as invalid exactly if a shorter form would have done |
| Encode.ReadLEBack | lib/src/encode.rs:111-124 | little-endian integers read back |
| Encode.ReadLECanonical | lib/src/encode.rs:170-188 | what is read is exactly what would be written |
| Encode.LEDigit | lib/src/encode.rs:111-124 | byte i of the little-endian form is the i-th digit of the value in base 256 |
| Encode.OptKeyBack | lib/src/encode.rs:275-296 | optional keys read back from the front of any string, although only the first byte of a key tells that there is one |
| Encode.OptKeyExact | lib/src/encode.rs:275-296 | a string is read as an optional key exactly if it starts with its encoding |
| Encode.OptionalForms | lib/src/encode.rs:251-296 | the bytes of present and absent keys and hashes |
| Encode.OptHashExact | lib/src/encode.rs:251-273 | a string is read as an optional hash exactly if it is its encoding |
| Encode.Writer.EmitCompactSize | lib/src/encode.rs:132-155 | appends the encoding and reports its length |
| Encode.Writer.EmitLE | lib/src/encode.rs:111-124 | appends the bytes, least significant first |
| Address.PolicyBack | lib/src/vtxo/mod.rs:873-931 | every policy reads back from the front of any string, so policies are self-delimiting |
| Address.PolicyCanonical | lib/src/vtxo/mod.rs:873-931 | whatever is read as a policy is valid and exactly what would have been written for it |
| Address.PolicyForm | lib/src/vtxo/mod.rs:860-904 | the type byte of every policy and where its fields are |
| Address.DeliveryBack | lib/src/address.rs:85-129 | the announced length is exact, and decoding gives the delivery back exactly if it is unambiguous |
| Address.DeliveryForm | lib/src/address.rs:70-107 | the type byte of every delivery and what follows it |
| Address.PayloadBack | lib/src/address.rs:207-260 | decoding an encoded address gives it back exactly when no unknown delivery uses a known type byte, for any number of deliveries |
| Address.PayloadForm | lib/src/address.rs:207-225 | where the payload has its id, the length of the policy, the policy and the deliveries |
| Address.DeliveriesForm | lib/src/address.rs:219-222 | deliveries follow each other, each behind the length of its encoding |
| Address.PayloadErrors | lib/src/address.rs:230-260 | when decoding succeeds, and that an unreadable policy, and nothing else, gives the error of its own |
| Address.PayloadCanonical | lib/src/address.rs:230-260 | an accepted payload is the encoding of the address it decodes to exactly if no bytes follow the policy in its buffer and no built-in delivery is longer than its type byte |
| Address.DeliveriesCanonical | lib/src/address.rs:251-257 | accepted deliveries are what would have been written, or longer if one has slack |
| Address.EncodePayloadTo | lib/src/address.rs:207-225 | the writer loop produces the specified payload |
| Address.DecodePayloadFrom | lib/src/address.rs:230-260 | the reader produces the specified result, errors included |
| Address.DecodeDeliveriesFrom | lib/src/address.rs:251-257 | the loop over the remaining input reads the specified deliveries, errors included |
| Challenges.MessageInjective | lib/src/challenges.rs:33-57 | different proofs, of the same or different kinds and with lists of any length, sign different byte strings |
| Challenges.RoundLayout | lib/src/challenges.rs:33-57 | where the signed bytes have the prefix, the challenge, the vtxo id, the two counts and the two lists |
| Challenges.LightningLayout | lib/src/challenges.rs:100-108 | prefix, payment hash and vtxo id, in this order |
| Challenges.StatusLayout | lib/src/challenges.rs:158-165 | prefix and vtxo id, in this order |
| Challenges.BEDigit | lib/src/challenges.rs:44 | byte i of a big-endian integer is the digit of weight n-1-i in base 256 |
| Challenges.RequestForm | lib/src/challenges.rs:46-48 | a request is its amount, big-endian, its policy and its cosign key or a zero |
| Challenges.OffboardForm | lib/src/challenges.rs:52-54 | an offboard is its value, little-endian, and its script behind its length |
| Challenges.ListsForm | lib/src/challenges.rs:45-54 | the lists are written element by element in order |
| Challenges.CountedBack | lib/src/challenges.rs:44-54 | both counted lists read back |
| Challenges.RequestBack | lib/src/challenges.rs:45-49 | a request reads back from the front of any string |
| Challenges.OffboardBack | lib/src/challenges.rs:52-54 | an offboard output reads back from the front of any string |
| Challenges.PrefixesDiffer | lib/src/challenges.rs:16 | the prefixes of the three kinds differ |
| Challenges.RoundMessage | lib/src/challenges.rs:33-57 | feeding the engine step by step yields the specified string |
| Challenges.LightningMessage | lib/src/challenges.rs:100-108 | feeding the engine yields the specified string |
| Challenges.StatusMessage | lib/src/challenges.rs:158-165 | feeding the engine yields the specified string |

## Left out

- Elliptic curves, MuSig, Schnorr and taproot: a signature is what it commits to, and whether a point is on the curve is a parameter.
- The bech32m character layer of addresses (BIP 350), and the memory an absurd length prefix would allocate: only the byte payload is modelled.
- 64-bit overflow of amounts and 32-bit underflow of block heights: amounts and heights are unbounded, and confirmation counts are integers; the source panics or wraps there.
- gRPC, REST, SQLite, Postgres, logging, telemetry, configuration, daemons and the command line.
- The shape of the vtxo tree, exits, lightning and arkoor: the sweeper gets the tree transactions as a list with at least one output each.
- `count_amount` (counts the vtxos of one amount) and `calculate_required_issuance` (subtracts such counts from configured targets) of the pool: each is one expression over the pool with no state of its own.
- `progress_pending_claims` of the forfeit watcher: the same asking loop with `swap_remove` as `sync`, over claims whose progress only depends on confirmations; claims are modelled from the exit to the start.
- `locked_pending_inputs` of the round: a look-up by flow that may report inputs as unlocked which are not, and that no step of the state machine reads.
- Several rounds in one forfeit watcher: each round has its own connectors, so `Watcher` follows the exits of one.
- Calls that work on copies of the same stored round at the same time: `RoundStore` has one copy in memory, which can be lost at any point.
- 32-bit targets: the list lengths in a signed round challenge are `usize`, eight bytes only on 64-bit targets, which is what is modelled.
- VtxoPool.Data.SendArkoor: takes, prepares and finishes in one step; `FinishSend` covers the second half on a pool that others used in between.
- Signing and sending the branches found in `sign_vtxo_tree`, and its secret nonces: one list of nonces per cosign key is assumed.
- Changes of the chain during one sweeper pass: a pass sees one view. Building and signing the sweep transaction itself.
- The tracked attempts of a round are values in a sequence that the loop of `sync` reassigns, not objects it mutates through references.
- In the interleaved model of the flux table the guards are entries of a map; the class `FluxLock` shows their operations in place, one caller at a time.
- The public `add_locked` of a flux guard with ids locked elsewhere: only its use inside `lock` is modelled.
