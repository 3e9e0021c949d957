# Scalegraph emulator: verified model

A Dafny model of the emulator's ledger, of the server protocol in front of it, of the event feeds
behind it and of the registry's k-closest lookup. Run `dafny verify dfyconfig.toml`.

## What is modelled

An application owns accounts. An account has a balance, a locked minimum balance (MBR), a nonce that
counts the transactions it signed, a token store and a chain of blocks of its own. A store entry is
a real token or the zero token, a placeholder meaning "authorised but not owned". Eleven requests change the ledger; seven
of them concern two accounts, which append the same transaction one after the other, the first being
rolled back by a hand-written handler if the second refuses.

The project has three layers.

1. **Objects** (`Blockchains`, `Accounts`, `Apps`, `Servers`, `Registries`, `Distances`): classes that update
   their fields in place as the Go code does, one method a Go method, each proved equal to a
   specification function of the old state.
2. **Specification** (`Ids`, `Tokens`, `Transactions`, `AccountSpec`, `Ledgers`, `Events`, `ServerSpec`,
   `Protocol`): what a handler refuses (`Refusal`), does (`Effect`) and undoes (`Reversal`), what a request
   does to the whole ledger (`Execute`), what handling a request does to ledger and topics (`Handle`), and the
   protocol as a transition system (`Enabled`, `Perform`).
3. **Theorems** (`Changes`, `Requests`, `Holdings`, `Mbr`, `MbrCounts`, `Solvency`, `Money`, `Chains`, `Replays`,
   `Drifts`, `Consents`, `FreezeSafety`, `Witnesses`, `Feeds`, `Admissions`, `Bits`, `ProtocolSafety`, `ProtocolProgress`): statements over every run
   (`Ledgers.Run`: any finite sequence of requests, successful or not, from the empty ledger), over any work
   the server handles, and over every interleaving of the protocol's steps.

`Changes.ExecuteIsOneChange` is the hinge: it reduces each request, with its order of checks, its two appends
and its rollback, to one of four changes, and every theorem over runs goes through it. The three layers meet
in `ProtocolSafety`: the server's ledger in any interleaving is the ledger after some run.

`Requests` is a second, independent account of the ledger: for each of the eleven requests when it succeeds, what it
then does and how it is refused, said of balances, nonces and stores in numbers and without the handlers. The
specification, and with it the objects, is proved to do exactly that (`Requests.ExecutesExactly`).

Assumptions are parameters or hypotheses, never axioms: the verdict of the cryptographic verification is an
input of each request (`ServerSpec.Verdict`), and single holding is proved for runs in which signature bytes determine
signer and nonce (`Holdings.SignaturesBind`). Money is exact (`real`), with the source's constants: 0.5 per slot,
1.0 per token, 0.1 per freeze.

## Where the code does not do the obvious thing

The model follows the code; the theorems say exactly where the obvious property stops.

- A failed authorisation over an existing placeholder deletes that placeholder and releases its 0.5
  (internal/scalegraph/account.go:403-412, 559-568). It is the only failed request that leaves a trace
  (`Changes.FailureLeavesNoTrace`). An account is the replay of its chain at every moment of a run exactly when
  it never sent such a request (`Replays.ReplaysExactly`); right after one it is not
  (`Replays.DropBreaksReplay`). `Drifts.ReplayDrifts` says what the chain replays to at any moment: the account with its
  lost placeholders and 0.5 locked for each, as long as every later block had what it needs free with those set aside and
  brought in no token with a lost placeholder; once one did not, nothing, for good. An authorisation posted straight after
  the drop heals it, one that comes after the freed 0.5 was spent does not (`Witnesses`).
- Burning a frozen token is allowed and never releases its freeze authority's 0.1
  (internal/scalegraph/account.go:256-277). `Mbr.Stuck` counts these; `Mbr.MbrIsLockedExactly` and
  `MbrCounts.StuckStaysLocked` say that they are all there is to it and that they stay.
- A negative amount is refused by the RPC schema alone (proto/currency/v1/currency.proto:11). The REST route for transfers
  has no schema and passes any signed amount on (internal/transport/rest/rest.go:293-319). Solvency holds exactly as long as
  none takes more from its receiver than is free (`Solvency.SolventExactly`).
- Clawing back a token without clawback address dereferences nil (internal/scalegraph/app.go:460); the request is
  served outside the recover of internal/server/server.go:321-327, so the whole program ends.
  So does verifying a token mint or look-up that comes without an envelope (internal/scalegraph/requests.go:133, 434); no
  client method sends one. `Changes.PanicsExactly` and `ProtocolSafety.CrashesExactly` say when, `Witnesses` has a run and
  step sequences that get there.
- Shutting down closes every application's event bus before the loop is told to stop (internal/server/server.go:267-278), so
  what is handled in between is on the chains and not on the topics. A topic mirrors the chain as it was when the bus closed
  (`ProtocolSafety.TopicsMirrorChains`), and the chain as it is now exactly if no block came after that
  (`ProtocolSafety.TopicsCurrentExactly`, `Witnesses.LateBlockUnannounced`).
- The receiving side of the TransferToken rollback takes 1.0 where the handler took 0.5, and the
  BurnToken rollback does not restore the token (internal/scalegraph/account.go:549-552, 585-595). Both are modelled as
  written, and no request reaches these two handlers. In a well-formed store, and with a moved token that is the very token
  stored, `AccountSpec.RollbackInvertsAppend` makes exceptions for exactly them and the repeated authorisation.
- A request that enters the channel after the drain has ended is accepted and never answered. A stopped server has
  answered exactly the requests accepted before that moment (`ProtocolSafety.AnsweredExactly`,
  `Witnesses.LateRequestNeverAnswered`).
- Comments that disagree with the code: the formula at internal/scalegraph/account.go:52 omits freezes; line 163
  says the nonce counts transfers and token mints only, but it counts nine kinds; lines 542-544 say that receiving a token raises the
  minimum balance, but it lowers it; internal/scalegraph/app.go:142 calls Transfer atomic although it has no
  rollback - which is right all the same, since a receiver never refuses funds (`Changes.SecondRefusalIsUndone`).

## Model

| member | source | states |
|---|---|---|
| `Changes.ExecuteIsOneChange` | internal/scalegraph/app.go:32-590 | every request, in every well-formed ledger, does exactly one of four things: nothing, open an account, post one transaction with all its parties, or drop the placeholder of a repeated authorisation; it succeeds exactly in the second and third case, and whether it posts is decided by what each party would say before the request |
| `Requests.ExecutesExactly` | internal/scalegraph/app.go:32-590 | every request, on every well-formed ledger, does exactly what the reference says: on success the stated amounts, store entries, nonces and blocks of the accounts named and nothing else, on a repeated authorisation the placeholder and 0.5 gone, otherwise nothing; and it is answered as the reference says |
| `Requests.SucceedsExactly` | internal/scalegraph/app.go:32-590 | for each request the conditions on the accounts, stores and nonces under which it succeeds, and that it succeeds under no others; for a token transfer: both known and different, a real unfrozen token in the sender's store, the sender's nonce, a placeholder in the receiver's |
| `Requests.AnswersExactly` | internal/scalegraph/app.go:32-590 | which error a request gets: the first thing wrong in the order in which the application, the first account and then the second look; an account that faces itself is refused by its own second look |
| `Requests.RefusedForFundsExactly` | internal/scalegraph/account.go:214-218 | a request is refused for funds if and only if all else is in order and less than 1.0 is free for a token mint, 0.5 for a fresh slot, 0.1 for a freeze, the amount for a transfer |
| `Requests.RefusedAsUnknownExactly` | internal/scalegraph/app.go:152-162 | an unknown account is reported if and only if some account the request names does not exist, before anything else |
| `Changes.AppendBothIsOneChange` | internal/scalegraph/app.go:284-294 | append to one account, then to the other, undoing the first if the second refuses: all parties post or none does, but for the dropped placeholder; covers requests an account directs at itself |
| `Changes.SecondRefusalIsUndone` | internal/scalegraph/account.go:279-303 | the rollback the application calls never fails and restores the first account exactly, unless it repeats an authorisation; a transfer of funds, which has no rollback, never needs one |
| `Changes.FailureLeavesNoTrace` | internal/scalegraph/app.go:257-298 | a request fails and changes the ledger if and only if both accounts exist, the nonce is current, its account has a placeholder for the token, and the owner it names is itself or does not hold the token; the change is then that placeholder gone and 0.5 released, nothing else |
| `Changes.PanicsExactly` | internal/scalegraph/app.go:433-463 | the program dereferences a nil clawback address exactly on a clawback, between known accounts, of a held token that has none |
| `Changes.PlaceholderTestExact` | internal/scalegraph/token.go:24-44 | in a well-formed store, equality with the zero token, although it ignores freeze address, nonce and flag, holds exactly of the zero token |
| `Changes.PlaceholdersDiscriminated` | internal/scalegraph/account.go:174-254 | in every reachable store an entry passes the placeholder test if and only if it is the zero token; every other entry stands under its own identifier and its signer field names an account |
| `Changes.WellFormedAfter` | internal/scalegraph/account.go:201-254 | every reachable ledger files accounts under their own identifiers and has only such stores |
| `Changes.PostingIsLawful` | internal/scalegraph/app.go:365-377 | a posted token move carries the very token its sender holds, a posted clawback goes to the clawback address, a posted freeze or unfreeze comes from the freeze authority, and no token is minted frozen |
| `Changes.PostingAdvancesNonces` | internal/scalegraph/account.go:325-496 | posting raises the nonce of the signer by one and no other: the receiver for token mints and clawbacks, the sender otherwise |
| `Changes.PostAllAt` | internal/scalegraph/app.go:177-187 | seen from one account a posting is its own handler's effect if it is a party, and nothing otherwise |
| `Changes.PostingKeepsWellFormed` | internal/scalegraph/account.go:201-254 | posting keeps the store invariant in every account |
| `AccountSpec.RollbackInvertsAppend` | internal/scalegraph/account.go:279-323 | rolling back an accepted append restores balance, minimum balance, nonce, store and chain if and only if the case is invertible: an authorisation of a fresh slot, a revocation of a zero placeholder, the giving side of a token transfer or clawback of the very token held, the receiving side of a clawback, and any mint, token mint, funds transfer, freeze or unfreeze; never a token burn, never the receiving side of a token transfer |
| `AccountSpec.ReversalInvertsEffect` | internal/scalegraph/account.go:501-610 | the same for the handler alone, before the block is removed |
| `AccountSpec.RollbackMisses` | internal/scalegraph/account.go:540-595 | what the three rollbacks that do not invert leave: the repeated authorisation without its placeholder and 0.5, the receiver of a token 1.5 below its minimum balance before, the burned token gone |
| `AccountSpec.RollbackFailsExactly` | internal/scalegraph/account.go:279-303 | a rollback fails if and only if the transaction is not the latest, or a minted or clawed-back token is gone, or a clawed-back one is back; in the latter cases its block is gone all the same |
| `AccountSpec.Outsiders` | internal/scalegraph/account.go:325-496 | an account that is no party: funds minted are credited whoever it is, the kinds with one party and funds transfers are appended without effect, everything else is refused |
| `AccountSpec.BurnsFreeFunds` | internal/scalegraph/account.go:344-352 | burning funds succeeds if and only if the amount is free, and takes just it |
| `Mbr.MbrExact` | internal/scalegraph/account.go:51-62 | in every reachable state, through every success and rollback, an account's minimum balance equals the sum of what all store entries anywhere charge it plus FREEZE for each frozen token burned under its freeze authority |
| `Mbr.MbrIsLockedExactly` | internal/scalegraph/account.go:256-277 | an account's minimum balance is just what live tokens and placeholders charge it if and only if no token was burned while frozen under it |
| `Mbr.StuckForGood` | internal/scalegraph/account.go:256-277 | the number of such burns never falls along a run |
| `MbrCounts.MbrIsCounted` | internal/scalegraph/account.go:51-62 | the same in counts: 0.5 x its placeholders + 1.0 x live tokens it signed, in any store + 0.1 x (live frozen tokens naming it freeze authority + such tokens burned while frozen); hence never negative |
| `MbrCounts.StuckStaysLocked` | internal/scalegraph/account.go:256-277 | what such burns have left locked stays locked in every later state |
| `Mbr.ChangeCharges` | internal/scalegraph/account.go:256-277 | the step behind it: a change moves an account's minimum balance and its charges by the same amount, except that burning a frozen token takes the charge away and leaves the minimum balance |
| `Mbr.PostingCharges` | internal/scalegraph/account.go:325-496 | the same for one posted transaction over both its parties |
| `Mbr.EffectCharges` | internal/scalegraph/account.go:396-454 | how one party's handler changes what its store charges any account |
| `Witnesses.BurningFrozenKeepsCharge` | internal/scalegraph/account.go:256-277 | a concrete run: the authority freezes a token, its signer burns it, and no token is left but the authority still has 0.1 locked |
| `Witnesses.RepeatedAuthorizationLosesPlaceholder` | internal/scalegraph/account.go:403-412 | a concrete run: a second authorisation naming a wrong owner fails and takes the first one's placeholder and locked 0.5 with it |
| `Witnesses.LaterAuthorizationHeals` | internal/scalegraph/account.go:396-412 | a concrete run: straight after that drop a proper authorisation succeeds, and the chain replays to the account although a placeholder was lost |
| `Witnesses.AuthorizationAfterTransferDoesNotHeal` | internal/scalegraph/account.go:396-412 | a concrete run: after the drop the account transfers what was set free, is funded again and authorises the token properly; all succeed, and its chain still does not replay |
| `Witnesses.ClawbackWithoutAddressPanics` | internal/scalegraph/app.go:460 | a concrete run whose last request, a clawback of a token without clawback address, panics |
| `Witnesses.ClawbackWithoutAddressCrashesServer` | internal/server/server.go:318-327 | the same request sent to the server: four protocol steps from its call the server has crashed |
| `Witnesses.LateRequestNeverAnswered` | internal/server/server.go:338-360 | a concrete interleaving: shutdown, then a call whose request enters the channel; whatever follows, it stays there without a reply |
| `Witnesses.LateBlockUnannounced` | internal/server/server.go:267-278 | a concrete interleaving: a bus closes, then a mint is handled; its block is on the chain and the topic is empty |
| `Witnesses.FirstCallAnswered` | internal/server/client.go:69-121 | a first call, whatever the server's state and the request, unless that panics, comes back with the answer to its request in eight steps |
| `Witnesses.WaitingCallToldOfShutdown` | internal/server/server.go:338-360 | a call still waiting when the server shuts down comes back with the notice of shutdown in nine |
| `Witnesses.MintWithoutEnvelopeCrashesServer` | internal/scalegraph/requests.go:131-134 | four protocol steps from the call of a token mint without an envelope the server has crashed, whatever the ledger |
| `Holdings.SingleHolder` | internal/scalegraph/account.go:201-221 | in every reachable state no token is really held by two accounts, and the tokens held are exactly those minted and not burned, provided signature bytes determine signer and nonce |
| `Holdings.AlwaysTracked` | internal/scalegraph/app.go:239-246 | the invariant behind it: every minted token carries a nonce its signer has already used, and a held token's own signer and nonce are those its identifier stands for |
| `Holdings.MintedTokenTracked` | internal/scalegraph/account.go:354-363 | a token that passes the mint handler's checks was never minted before, by anyone, although the handler looks only at one store |
| `Holdings.PostingMovesTokens` | internal/scalegraph/account.go:226-254 | who owns which token, and which token exactly, after any posted transaction, for all accounts at once |
| `Holdings.OtherChangesMoveNothing` | internal/scalegraph/account.go:559-568 | opening an account or losing a placeholder moves no real token |
| `FreezeSafety.TokenStep` | internal/scalegraph/account.go:370-394 | the complete life of a held token under one request: kept, transferred (only unfrozen, only at its holder's request), clawed back (only to its clawback address), frozen or unfrozen (only by its freeze authority), or burned (only by its signer); apart from the flag nothing about it ever changes |
| `FreezeSafety.FrozenStays` | internal/scalegraph/account.go:612-668 | from a freeze until a successful unfreeze or burn the token stays exactly as it is, flag included, with its holder or its clawback address |
| `FreezeSafety.FrozenNowhereElse` | internal/scalegraph/app.go:460-472 | and nobody else holds it in that time |
| `FreezeSafety.FreezeFreezes` | internal/scalegraph/app.go:490-539 | after a successful freeze the holder's token is frozen under that authority |
| `FreezeSafety.ProvenanceConstant` | internal/scalegraph/token.go:56-74 | value, signature, addresses and nonce of a token are the same in any later state until it is burned, and it always has a holder |
| `Solvency.SolventExactly` | internal/scalegraph/account.go:330-342 | over whole runs: every account has balance >= minimum balance at every step if and only if no request carried a negative amount larger than what its receiver has free |
| `Solvency.StepSolventExactly` | internal/scalegraph/account.go:330-342 | the same for one request on a solvent ledger |
| `Solvency.AlwaysSolvent` | internal/scalegraph/account.go:214-218 | with non-negative amounts, as the RPC schema demands, 0 <= minimum balance <= balance for every account in every reachable state |
| `Solvency.NegativeTransferOverdraws` | internal/scalegraph/app.go:143-190 | a concrete run: a transfer of -1 from an account with 1 to an empty one succeeds and leaves the receiver at -1 |
| `Money.Conservation` | internal/scalegraph/app.go:193-214 | after any run, whatever succeeded or failed, the balances add up to what was minted |
| `Money.PostingShiftsFunds` | internal/scalegraph/account.go:325-342 | a posted transaction changes the total by the minted amount and nothing else |
| `Chains.ChainsAgree` | internal/scalegraph/app.go:177-187 | for any two accounts and any run, both chains hold the same transactions between the two in the same order |
| `Chains.ChainGrows` | internal/scalegraph/account.go:305-323 | a request adds at most one block to each chain, the block of the posted transaction to each party's, and rollback leaves no block behind |
| `Chains.NonceDiscipline` | internal/scalegraph/account.go:163-169 | an account's nonce equals the number of blocks on its chain it signed, and its successful signed requests carried exactly 0, 1, 2, ... in that order, so none succeeds twice |
| `Chains.RequestUsesNonce` | internal/scalegraph/app.go:170-175 | a signed request succeeds only with its signer's current nonce and then advances it by one; no other request moves a nonce |
| `Replays.ChainReplays` | internal/scalegraph/account.go:305-323 | replaying an account's chain through the checking handlers from an empty account gives its balance, minimum balance, nonce and store, if no placeholder of its was ever dropped |
| `Replays.ReplaysExactly` | internal/scalegraph/account.go:403-412 | over whole runs: an account is the checked replay of its chain at every moment if and only if none of its requests so far repeated an authorisation that the owner side then refused, a condition each request can be checked for beforehand; equivalently, no placeholder of it was ever dropped |
| `Replays.AuthorizationHeals` | internal/scalegraph/account.go:396-412 | an accepted authorisation of the same token posted straight after the drop makes the chain replay to the account again |
| `Replays.JournalReplays` | internal/scalegraph/account.go:305-323 | without that condition: every account is the checked replay of its blocks and its dropped placeholders, interleaved as they happened |
| `Replays.DropBreaksReplay` | internal/scalegraph/account.go:559-568 | right after a drop the chain does not replay to the account |
| `Drifts.ReplayDrifts` | internal/scalegraph/account.go:279-323 | at every moment of every run: what checked replay of an account's chain gives, namely the account with its lost placeholders put back and SLOT locked for each, or nothing once it has parted; so it gives the account itself if and only if it has not parted and nothing is lost at that moment |
| `Drifts.BlockDrifts` | internal/scalegraph/account.go:325-496 | one more block: the replay goes on if and only if what the block needs free is there with SLOT set aside for each lost placeholder and it mints or claws back no token with a lost placeholder; an authorisation of a lost token, which then needs nothing free, puts its placeholder back |
| `Drifts.PartedForGood` | internal/scalegraph/account.go:305-323 | once the chain has stopped replaying no later block repairs that |
| `Replays.FundsReplay` | internal/scalegraph/account.go:325-342 | balance and nonce are the replay of the chain in every reachable state, dropped placeholders or not |
| `Consents.ConsentPrecedesReceipt` | internal/scalegraph/account.go:226-235 | on every chain each incoming token transfer is preceded by the account's own authorisation of that token with no revocation or earlier receipt in between; every placeholder stands for such an authorisation |
| `ProtocolSafety.CallersGetTheirOwnAnswer` | internal/server/client.go:69-121 | over all interleavings a call that returns a response returns its own: the answer sequential handling gives its request in its turn, or the shutdown notice if it was drained (that such answers are always possible is `ProtocolProgress.CanBeAnswered`) |
| `ProtocolSafety.HandledAtMostOnce` | internal/server/server.go:309-360 | requests are taken in the order they were accepted, each is handled or drained at most once and never both; once the server has stopped, an accepted request has been replied to if and only if it is not still in the channel |
| `ProtocolSafety.AnsweredExactly` | internal/server/server.go:338-360 | an accepted request of a stopped server has been replied to if and only if it entered the channel before the step that ended the drain; what is left in the channel is exactly what entered after that step, in order |
| `ProtocolSafety.StoppedExactly` | internal/server/server.go:328-360 | the server has stopped if and only if some step ended the drain |
| `ProtocolSafety.StoppedForGood` | internal/server/server.go:328-360 | whatever steps follow, a stopped server stays stopped, its ledger, topics, answers and replies stay as they are, and what still enters the channel stays there |
| `ProtocolSafety.CrashesExactly` | internal/server/server.go:318 | in any reachable state handling crashes the server if and only if the request is a verified clawback of a held token without clawback address, or a token mint or look-up without an envelope |
| `ProtocolSafety.CrashIsFinal` | internal/server/server.go:318 | after a crash nothing changes any more |
| `ProtocolSafety.NothingLeaksNothingLost` | internal/server/client.go:80-121 | the pending registrations are exactly the calls in flight, the one-slot buffer never overflows, a caller that still waits after its request was replied to has the reply in its buffer, a reply is lost only when its caller had given up, a call that timed out while sending was never taken |
| `ProtocolSafety.RealTimeOrder` | internal/server/server.go:309-334 | a call begun after another was handled is itself handled after it: with the sequential answers, the requests that change the ledger are linearizable |
| `ProtocolSafety.HistoryGrows` | internal/server/server.go:309-334 | what has been handled stays handled, in the same order |
| `ProtocolSafety.WorkIsARun` | internal/server/server.go:363-398 | the ledger after handling any work is the ledger after the corresponding run of requests |
| `ProtocolSafety.ServerLedgerIsReachable` | internal/server/server.go:309-334 | so in every interleaving the server's ledger is one the theorems over runs speak of |
| `ProtocolSafety.EveryBlockSigned` | internal/server/server.go:376-386 | in every interleaving each block on each chain, but mints of funds, was asked for by a handled request with a genuine verdict |
| `ProtocolSafety.TopicsMirrorChains` | internal/server/server.go:309-334 | in every interleaving of calls without administrative requests and account creation, closing buses and shutdown included: a topic, the extra notices aside, is the sequence of blocks its account's chain had gained when the application's bus closed, or has gained by now if it is open |
| `ProtocolSafety.TopicsCurrentExactly` | internal/server/server.go:267-278 | a topic mirrors the chain as it is now if and only if no block was added to it since the bus closed |
| `Protocol.InvariantHolds` | internal/server/server.go:309-360 | the protocol's invariants in every state reachable by any sequence of steps; the ledger and every reply are those of sequential handling |
| `Protocol.DeliverFindsRoom` | internal/server/server.go:321-327 | when the server replies the one-slot buffer is empty, and a closed channel belongs to a caller that got no response |
| `Protocol.StepKeepsSafe` | internal/server/client.go:69-121 | each of the fifteen kinds of step keeps the registration, ordering and reply invariants |
| `Protocol.StepKeepsReplies` | internal/server/client.go:107-120 | each step keeps the reply of a waiting caller in its buffer until the caller takes it |
| `ProtocolProgress.CallsCanGoOn` | internal/server/client.go:69-121 | in every reachable state but a crashed one a call can go on: into the channel if and only if fewer than 1000 requests wait there, back with its reply if and only if that is in its buffer, by time-out or cancellation at any time, and out |
| `ProtocolProgress.CallGoesOn` | internal/server/client.go:80-121 | where each of those steps leads |
| `ProtocolProgress.CallStarts` | internal/server/client.go:69-78 | a call starts registered, with an empty buffer, under an identifier no earlier call had |
| `ProtocolProgress.TakesItsReply` | internal/server/client.go:106-109 | a waiting call whose reply is in its buffer can take it and comes back with just that |
| `ProtocolProgress.LoopCanGoOn` | internal/server/server.go:309-360 | the loop is never stuck: in each mode its next step is possible, and shutdown and new calls always are |
| `ProtocolProgress.LoopGoesOn` | internal/server/server.go:309-360 | where the loop's steps lead: the oldest request is served next, an answered one leads back to listening or draining |
| `ProtocolProgress.ServeGoesOn` | internal/server/server.go:318 | handling a request leads to its own answer under way, or to a crash if it panics |
| `ProtocolProgress.ReplyGoesOut` | internal/server/server.go:321-327 | a reply goes into its caller's buffer unless the channel is closed or the buffer full |
| `ProtocolProgress.ShutdownGoesOn` | internal/server/server.go:328-360 | shutting down raises a flag, seeing it starts the drain, and the drain ends only with the channel empty |
| `ProtocolProgress.LoopRunsDry` | internal/server/server.go:309-360 | from any reachable state the server's own steps lead to one where it has nothing to do, touching no call |
| `ProtocolProgress.CanBeAnswered` | internal/server/client.go:106-109 | every call that waits while the server has not stopped can still come back with a response, by steps of the server and then its own last three, unless the server crashes on the way |
| `Protocol.StepKeepsSequential` | internal/server/server.go:363-398 | each step keeps the ledger and all answers those of handling the requests one after another |
| `Protocol.AnnouncingHolds` | internal/server/server.go:267-278 | in every reachable state an application's topics are those of handling the requests that were handled while its event bus was open, one after another, and nothing of the later ones |
| `Feeds.FeedMirrorsChain` | internal/server/server.go:402-431 | over any work without administrative requests and account creation, every registered application's topic for an account is the sequence of blocks added to that account's chain, in order, once the notices of mints to a clawback address are taken out: a lone copy for another minter's token, the second of two equal copies for its own; every block has its event |
| `Feeds.TopicExactly` | internal/server/server.go:402-431 | the topic itself, notices included: the event of every posted block, in the order of the work, once if the account is a party and once more if it is the clawback address of a minted token, and nothing else |
| `Feeds.StepMirrors` | internal/server/server.go:363-398 | one request publishes on an account's topic exactly the copies of the block it posts, and, notices aside, exactly the block it adds to that chain; a failed or rejected one publishes nothing |
| `Feeds.EventIsBlockEvent` | internal/server/event_builder.go:174-243 | the event built from a request and its response is the one its posted block stands for |
| `Events.EventTellsBlock` | internal/server/event_builder.go:44-170 | an event tells the kind, the parties in their roles, and the amount or the token of its block |
| `Feeds.PublishedMirrors` | internal/server/event_builder.go:11-40 | publishing a block's event adds to a topic exactly one copy for a party and one for the clawback address of a mint |
| `Registries.Registry.GetKClosest` | internal/server/registry.go:89-125 | an error exactly for k <= 0; otherwise min(k, n) registered applications in strictly ascending distance, none left out nearer than one returned (`Bits.NearerExactly` says what nearer is) |
| `Registries.KNearestUnique` | internal/server/registry.go:98-116 | that specification has one answer, so neither the map's iteration order nor the instability of the sort can show |
| `Registries.PrefixIsKNearest` | internal/server/registry.go:113-124 | a prefix of any ascending rearrangement of the distances meets it |
| `Registries.Registry.CollectDistances` | internal/server/registry.go:104-111 | each registered application once, with its distance, in whatever order the map is visited |
| `Registries.Registry.Register` | internal/server/registry.go:29-42 | refuses a taken identifier, otherwise adds the application under its own |
| `Registries.Registry.Unregister` | internal/server/registry.go:45-52 | removes that identifier and nothing else |
| `Distances.XorDistance` | internal/server/registry.go:130-141 | the byte loop and the big-endian reading compute the distance of the specification, whose bits `Bits.DistanceBit` gives |
| `Distances.DistanceIsMetric` | internal/server/registry.go:85-88 | zero only from itself, symmetric, and the triangle inequality on 160 bits |
| `Distances.DistanceInjective` | internal/server/registry.go:127-129 | from one target no two identifiers are equally far |
| `Bits.XorBit` | internal/server/registry.go:134 | bit k of the exclusive or is set if and only if bit k of the two numbers differ, bit k of n being n / 2^k mod 2 |
| `Bits.DistanceBit` | internal/server/registry.go:130-141 | bit k of the distance of two identifiers is set if and only if they differ in bit k |
| `Bits.NumberBits` | internal/server/registry.go:137-139 | bit j of byte i stands at place 8 x (n - 1 - i) + j of the number: the reading is big-endian |
| `Bits.NearerExactly` | internal/server/registry.go:85-88 | of two identifiers the nearer to a target is the one that has the target's bit at the first bit in which the two differ |
| `Ids.ParseExactly` | internal/scalegraph/id.go:26-37 | a string parses to an identifier if and only if, lower-cased, it is that identifier's printed form |
| `Ids.ParseFormat` | internal/scalegraph/id.go:26-42 | printing then parsing is the identity |
| `Ids.FormatInjective` | internal/scalegraph/id.go:40-42 | comparing printed identifiers, as the program often does, is comparing identifiers |
| `Ids.EncodeDecode` | internal/scalegraph/id.go:26-42 | decoding then encoding gives the lower-case form of the input |
| `Ids.EncodeAt` | internal/scalegraph/id.go:40-42 | the two lower-case digits of byte i stand at places 2i and 2i + 1, the high one first |
| `Tokens.EqualEmptyExactly` | internal/scalegraph/token.go:24-44 | which tokens the placeholder test accepts: all whose value, signature and clawback address are zero |
| `Tokens.EqualEmptyIsNotEmptiness` | internal/scalegraph/token.go:24-44 | so by itself the test is wrong on some token |
| `Tokens.SignedIsNotEmpty` | internal/scalegraph/token.go:24-44 | but never on one whose signer field names an account |
| `Blockchains.LinksDetermineHistory` | internal/scalegraph/blockchain.go:18-26 | the pointers alone determine the history: from one tail there is one head and one sequence of transactions |
| `Blockchains.Blockchain.constructor` | internal/scalegraph/blockchain.go:29-36 | a chain of the genesis block only |
| `Blockchains.Blockchain.Append` | internal/scalegraph/blockchain.go:39-47 | the history grows by the transaction at its end; the new tail points to the old one and head stays |
| `Blockchains.Blockchain.RemoveLatestBlock` | internal/scalegraph/blockchain.go:49-58 | undoes the latest append; genesis is never removed |
| `Blockchains.Blockchain.Len` | internal/scalegraph/blockchain.go:61-65 | one more than the number of transactions, genesis counted |
| `Blockchains.Blockchain.GetBlocks` | internal/scalegraph/blockchain.go:81-95 | terminates and lists the linked blocks genesis first, head to tail, each pointing to the one before and holding the transaction of the history at its place |
| `Blockchains.Block.Genesis` | internal/scalegraph/block.go:12-20 | no predecessor and no transaction |
| `Blockchains.Block.Next` | internal/scalegraph/block.go:22-30 | points to the given predecessor and holds the transaction |
| `Accounts.Account.constructor` | internal/scalegraph/account.go:81-97 | a new account is empty, on a fresh chain |
| `Accounts.Account.AppendTransaction` | internal/scalegraph/account.go:305-323 | a refused transaction leaves the whole account as it was, an accepted one has its effect and one new block |
| `Accounts.Account.RollbackLatestTransaction` | internal/scalegraph/account.go:279-303 | refuses unless the transaction is the latest block's; then removes the block and reverses, and if the reversal fails the block is gone all the same |
| `Accounts.Account.GetNonce` | internal/scalegraph/account.go:165-169 | the next nonce |
| `Accounts.Account.GetToken` | internal/scalegraph/account.go:174-182 | the token if a real one is there; nothing for a placeholder |
| `Accounts.Account.MintToken` | internal/scalegraph/account.go:201-221 | four refusals in order (taken, bad signer, wrong signer, too little free); otherwise stores the token and locks TOKEN; in numbers, `Requests.RefusedForFundsExactly` |
| `Accounts.Account.AddTokenFromTransfer` | internal/scalegraph/account.go:226-235 | needs a placeholder, replaces it and releases SLOT |
| `Accounts.Account.RemoveToken` | internal/scalegraph/account.go:237-244 | removes the entry, an error if there is none |
| `Accounts.Account.AddToken` | internal/scalegraph/account.go:246-254 | adds under a free identifier only |
| `Accounts.Account.BurnToken` | internal/scalegraph/account.go:256-277 | only a real token signed by this account; removes it and releases TOKEN, frozen or not |
| `Accounts.Account.HandleMintTx` | internal/scalegraph/account.go:325-328 | adds the amount, never refuses; a refusal changes nothing |
| `Accounts.Account.HandleTransferTx` | internal/scalegraph/account.go:330-342 | sender needs the amount free, pays and uses a nonce; receiver gets it; a refusal changes nothing |
| `Accounts.Account.HandleBurnTx` | internal/scalegraph/account.go:344-352 | receiver needs the amount free and loses it; a refusal changes nothing |
| `Accounts.Account.HandleMintTokenTx` | internal/scalegraph/account.go:354-368 | needs the current nonce and the mint checks; uses the nonce; a refusal changes nothing |
| `Accounts.Account.HandleTransferTokenTx` | internal/scalegraph/account.go:370-394 | sender gives up an unfrozen token and uses its nonce; receiver needs a placeholder; an outsider is refused; a refusal changes nothing |
| `Accounts.Account.HandleAuthorizeTx` | internal/scalegraph/account.go:396-424 | authoriser locks SLOT for a new placeholder, or keeps an old one, and uses its nonce; the owner must really own the token; a refusal changes nothing |
| `Accounts.Account.HandleUnauthorizeTx` | internal/scalegraph/account.go:426-454 | authoriser gives up its placeholder and gets SLOT back, using its nonce; the owner must really own the token; a refusal changes nothing |
| `Accounts.Account.HandleBurnTokenTx` | internal/scalegraph/account.go:456-471 | signer burns its own token and uses its nonce; a refusal changes nothing |
| `Accounts.Account.HandleClawbackTx` | internal/scalegraph/account.go:473-496 | holder gives up the token whatever its flag; authority takes it under a free identifier and uses its nonce; a refusal changes nothing |
| `Accounts.Account.HandleFreezeTx` | internal/scalegraph/account.go:612-644 | authority locks FREEZE and uses its nonce; holder's real, unfrozen token naming that authority is flagged; a refusal changes nothing |
| `Accounts.Account.HandleUnfreezeTx` | internal/scalegraph/account.go:646-668 | authority gets FREEZE back and uses its nonce; holder's frozen token is unflagged; a refusal changes nothing |
| `Accounts.Account.RollbackMintTx` | internal/scalegraph/account.go:501-504 | takes the amount back |
| `Accounts.Account.RollbackTransferTx` | internal/scalegraph/account.go:506-515 | undoes both sides and the nonce |
| `Accounts.Account.RollbackBurnTx` | internal/scalegraph/account.go:517-522 | gives the amount back |
| `Accounts.Account.RollbackMintTokenTx` | internal/scalegraph/account.go:526-538 | removes the token, releases TOKEN, gives the nonce back; fails if the token is gone |
| `Accounts.Account.RollbackTransferTokenTx` | internal/scalegraph/account.go:545-554 | sender gets token and nonce back; receiver gets a placeholder and loses TOKEN, which is not what it had paid |
| `Accounts.Account.RollbackAuthorizeTx` | internal/scalegraph/account.go:559-568 | removes the placeholder and SLOT even when the authorisation had added neither |
| `Accounts.Account.RollbackUnauthorizeTx` | internal/scalegraph/account.go:573-582 | puts placeholder, SLOT and nonce back |
| `Accounts.Account.RollbackBurnTokenTx` | internal/scalegraph/account.go:585-595 | gives TOKEN and the nonce back but not the token |
| `Accounts.Account.RollbackClawbackTx` | internal/scalegraph/account.go:597-610 | moves the token back on either side; the authority gets its nonce back |
| `Accounts.Account.RollbackFreezeTx` | internal/scalegraph/account.go:670-680 | undoes the lock and nonce, or the flag |
| `Accounts.Account.RollbackUnfreezeTx` | internal/scalegraph/account.go:682-692 | undoes the release and nonce, or the flag |
| `Apps.App.PostBoth` | internal/scalegraph/app.go:284-294 | the shape the seven two-sided requests share, proved against the two-account specification: first account, then second, undoing the first on refusal, except for funds |
| `Apps.App.Post` | internal/scalegraph/app.go:423-427 | one account appends; nobody else changes |
| `Apps.App.Rollback` | internal/scalegraph/app.go:292 | undoes the first account's append, ignoring the error as the source does; nobody else changes |
| `Apps.App.CreateAccountWithKeys` | internal/scalegraph/app.go:32-79 | refuses a taken identifier; otherwise opens the account and mints a positive initial balance; the new ledger and outcome are exactly those of the specification, which `Requests.ExecutesExactly` spells out in full |
| `Apps.App.MintFunds` | internal/scalegraph/app.go:193-214 | refuses an unknown account; otherwise posts the mint; the new ledger and outcome are exactly those of the specification, which `Requests.ExecutesExactly` spells out in full |
| `Apps.App.TransferFunds` | internal/scalegraph/app.go:143-190 | checks both accounts, self-transfer and nonce in that order, then both append; the new ledger and outcome are exactly those of the specification, which `Requests.ExecutesExactly` spells out in full |
| `Apps.App.MintNewToken` | internal/scalegraph/app.go:217-255 | signer field, account and nonce checks, then the signer appends; returns the token's identifier; the new ledger and outcome are exactly those of the specification, which `Requests.ExecutesExactly` spells out in full |
| `Apps.App.AuthorizeTransferOfToken` | internal/scalegraph/app.go:257-298 | both accounts and the authoriser's nonce, then both append or neither; the new ledger and outcome are exactly those of the specification, which `Requests.ExecutesExactly` spells out in full |
| `Apps.App.UnauthorizeTransferOfToken` | internal/scalegraph/app.go:300-341 | both accounts and the authoriser's nonce, then both append or neither; the new ledger and outcome are exactly those of the specification, which `Requests.ExecutesExactly` spells out in full |
| `Apps.App.TransferHeldToken` | internal/scalegraph/app.go:344-393 | both accounts, a really held token, the sender's nonce, then both append or neither; the new ledger and outcome are exactly those of the specification, which `Requests.ExecutesExactly` spells out in full |
| `Apps.App.BurnHeldToken` | internal/scalegraph/app.go:402-431 | account and nonce, then one append; the new ledger and outcome are exactly those of the specification, which `Requests.ExecutesExactly` spells out in full |
| `Apps.App.ClawbackHeldToken` | internal/scalegraph/app.go:433-488 | both accounts, a really held token, its clawback address (a nil one panics), the receiver's nonce, then both append or neither; the new ledger and outcome are exactly those of the specification, which `Requests.ExecutesExactly` spells out in full |
| `Apps.App.FreezeHeldToken` | internal/scalegraph/app.go:490-539 | both accounts, a really held token, its freeze address, the authority's nonce, then both append or neither; the new ledger and outcome are exactly those of the specification, which `Requests.ExecutesExactly` spells out in full |
| `Apps.App.UnfreezeHeldToken` | internal/scalegraph/app.go:541-590 | both accounts, a really held token, its freeze address, the authority's nonce, then both append or neither; the new ledger and outcome are exactly those of the specification, which `Requests.ExecutesExactly` spells out in full |
| `Apps.IsFreezeAuthority` | internal/scalegraph/app.go:514-516 | comparing printed addresses decides whether the token names this freeze authority |
| `Servers.Server.HandleRequest` | internal/server/server.go:363-398 | the server's ledger, topics and reply after one request are those of the handling the protocol and feed theorems are about; what is served on whose word the lemmas of `Admissions` spell out |
| `Servers.Server.Verify` | internal/server/server.go:375-386 | a token mint or look-up without an envelope panics; any other signed request is let through exactly if its verdict is genuine and, for a mint, the signer field is a printed identifier |
| `Admissions.UnverifiedChangesNothing` | internal/server/server.go:376-386 | without a genuine verdict a domain request other than a mint of funds, an account look-up or a token look-up leaves the whole server state as it was, and is turned away, or panics for want of an envelope if it is a token mint or look-up |
| `Admissions.OpenServedAnyway` | internal/scalegraph/requests.go:104-109 | mints of funds, the two administrative requests and the two listings are served the same whatever the verdict, and never turned away |
| `Admissions.GenuineServed` | internal/server/server.go:363-398 | with a genuine verdict every kind of request does and answers what the application does and answers, but for a token mint whose signer field is no printed identifier, which changes nothing |
| `Admissions.BlocksAreSigned` | internal/server/server.go:376-392 | over any work, every block added to any chain, but mints of funds, is the transaction some request among it with a genuine verdict asked for when its turn came |
| `Servers.Server.CreateVirtualApp` | internal/server/server.go:292-306 | a taken identifier is refused; otherwise the application is registered with an empty topic for every account, and nothing else changes |
| `Servers.Server.ExecuteAndPublish` | internal/server/server.go:388-397 | executes, and publishes only on success |
| `Servers.Server.PublishEvent` | internal/server/server.go:402-431 | every application gets the event on every involved account's topic, in account order, whatever order the applications are visited in |
| `Servers.Server.PublishOn` | internal/server/server.go:420-429 | one application gets one copy of the event for each listed account, in order |
| `Servers.Server.Dispatch` | internal/server/server.go:75-101 | each payload type reaches its own application method |

## Left out

- Rounding: amounts are `float64` in the source and exact reals here, so 0.1 + 0.2 is 0.3; sums that drift by rounding are not captured.
- Width: nonces are `uint64`, on token mints compared as `int64`, and unbounded integers here; they would need more than 2^63 requests to wrap.
- Cryptography: Ed25519, X.509, the CA, timestamps and the comparison of request fields with signed fields are one verdict per request, given from outside; an envelope that holds no payload is not modelled. Of verification only the rule that a mint's signer field is a printed identifier is modelled (`ServerSpec.SignerCanonical`); without the verdict the feed theorem could name a topic in the wrong letter case.
- Identifiers of accounts, transactions and blocks are arbitrary inputs; no theorem needs them fresh.
- Aliasing of tokens: tokens are values here. In the source a token and the TransferToken and MintToken blocks that moved it share one object, so the flag of the token recorded in an old block changes with later freezes; chains here keep the token as it was.
- Transactions with nil sender or receiver: only the source's unit tests build funds or token transactions without one where a request would set it; here both parties are identifiers. The branches that refuse a mint's sender and a burn's receiver are unreachable for the same reason.
- Unreachable branches: the deletion of an account whose initial mint fails (a mint never fails), `Len() == 0` (genesis stays), unknown transaction types, and the skip error no handler returns.
- Locks: each request and each protocol step is atomic, as one goroutine runs the server loop; recursive read locks and starting the server twice are not modelled.
- The server loop: `run` and `drainRequests` do not terminate or race with senders, so they are steps of `Protocol`; only the handling of one request is a method. Time-outs, cancellations and the choice among ready cases are free choices of step.
- Fairness: that a waiting call can always still be answered is proved (`ProtocolProgress.CanBeAnswered`); that the steps which answer it are taken before it gives up is up to the scheduler and not stated.
- Servers.Server.HandleRequest: what a query (GetAccount, GetAccounts, AccountCount, LookupToken) answers is left out, only that it changes nothing and which ones are verified; the source hands out live accounts and tokens, so nothing is claimed of reads.
- Registries.Registry.GetKClosest: the source allocates room for k results beforehand, so a k of a size no memory can hold ends the program there; here every positive k is served.
- Event timestamps, marshalling, message identifiers, Watermill delivery and subscription: publishing appends to a topic, for all accounts of an event at once, so a bus never closes half-way through one. The feed theorems speak of one application from a moment when its topic is empty, such as its registration.
- Library stand-ins: `sort.Slice` is some ascending rearrangement (`Registries.SortSlice`), `slices.Reverse` a function, `big.Int` a natural number, `hex` written out in `Ids`.
- Repetition: the append-append-rollback lines the source repeats in seven requests are one method here (`Apps.App.PostBoth`).
- Value store, logging, trace identifiers, string rendering, REST, ConnectRPC, MCP and TUI transports, the test client: no behaviour the ledger or protocol depends on.
