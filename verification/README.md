# StealthWage, verified

StealthWage streams wages confidentially. Two programs must agree on every payment:
`StreamVault`, a contract that holds many streams in shared token balances and pays out against
signed cumulative figures, and an enclave handler that authenticates a party, prices the stream
from its sealed terms and signs. This project models both, together with the token ledgers, the
clock and the signatures that exist, as one transition system, and proves what the product claims
for every run: a stream never pays more than its terms have accrued, every accepted call traces
back to an authenticated grant, a settlement splits the funding to the raw unit inside a ten-minute
window, the vault stays solvent under reentrant tokens, authorizations commute and can be replayed
harmlessly, an honest party always gets paid what the dashboard shows, and an outsider learns nothing
about a salary by asking. Three smaller cores stand
beside it: the promise chain that serializes requests, the resumable machine registration, and the
envelope between browser and server.

Run `dafny verify dfyconfig.toml` with Dafny 4.11.

## Files

| file | content |
|---|---|
| `Abi.dfy` | octets, 32-byte words, big-endian numbers, static tuples, ideal hashing |
| `Options.dfy` | values that may be absent |
| `Protocol.dfy` | terms, accrual, authorization and challenge preimages, EIP-191 messages |
| `Rates.dfy` | arithmetic of accrual, daily rates, the display and the decimal parser |
| `Tokens.dfy` | ledgers of standard tokens and their total supply |
| `Vault.dfy` | the vault as a step function `Exec` on values, token callbacks included |
| `Books.dfy`, `Accounting.dfy` | the accounts every call keeps, before, between and after its token calls |
| `Guarantees.dfy` | what one top-level call guarantees |
| `Operations.dfy` | each call in plain conditions: when it completes, why it reverts, what it leaves |
| `StreamVault.dfy` | the contract as a class whose methods are proved equal to `Exec` |
| `Enclave.dfy` | `authorize` as a function and as a method |
| `System.dfy` | actions, runs and the invariant of the whole system |
| `Theorems.dfy` | what holds in every reachable state |
| `Changes.dfy` | what can change a stream in a run, and who can do it |
| `Replay.dfy` | replay and receipts between any other actions of a run |
| `Parties.dfy` | published against stored parties: who is paid and who can settle |
| `Confidentiality.dfy` | what an outsider learns from the enclave |
| `Confluence.dfy` | order and repetition of authorizations at the vault |
| `Serializer.dfy` | `Server.serialize` over an explicit event loop |
| `Registration.dfy` | `RegisterNode` over any sequence of failing and resumed runs |
| `Envelope.dfy` | hex, names, handler lookup and the request body |

## How to read the model

- A contract call is `Exec(chain, now, world, call)`. A revert leaves the world as it was. Tokens in
  `chain.standard` behave like `MockERC20` (`test/StreamVault.t.sol:8-36`) with 256-bit arithmetic and
  a 256-bit total supply. Any other token answers each transfer with a `Reply`: any finite list of
  calls back into the vault or into standard tokens, then success or failure.
- `trail` is a history: money the vault moved or was given, and terms it emitted. It decides nothing.
  For a token that is not standard, "paid" means that the token reported success.
- Hashing is ideal. An octet is a literal or the i-th octet of the hash of a given preimage, so hashes
  are equal exactly when their preimages are and never equal a literal word; of the three tags the proofs
  use only that they differ and do not fit in 160 bits (`WiderThanAddress`). A signature recovers its
  signer over the message it was made for and nobody over any other. Signatures are values that exist
  once somebody makes them; an enclave key makes them only by granting a request.
- Assumptions: enclave and chain read one clock; the vault's owner installs only enclave keys
  (`HonestRotation`); no call is sent by the zero address or by the vault itself (`Legit`); the browser
  and server print and parse JSON faithfully (`Codec.Faithful`).
- `decodeTerms` hands the ABI decoding to viem, which is not part of this model. `DecodeTerms` reads the
  seven words, takes the low 20 octets of an address and ignores trailing octets; `BlobRoundTrip` says
  exactly which blobs re-encode to themselves.

Where the code says something other than its documentation or its names suggest:

- The vault never compares the parties, token and start time inside the terms with those it stores, so
  "permitted party" below always means a party named in the terms, while money goes to the stored
  recipient and refunds to the stored employer. Published parties are therefore not enforced:
  `PublishedPartiesNeedNotBePaid` is a run that pays somebody else, `PublishedPartiesPaid` and
  `PublishedPartiesSettled` say exactly when a withdrawal and the two transfers of a settlement go to the
  published parties, and `EmployerAloneSettles` exactly when the stored employer can settle.
- `revealTerms` and `decodeTerms` accept any 224 octets, so the preimage of an authorization or a
  challenge, written out, can be committed to and revealed as if it were terms (`WordsAreABlob`). Only
  what `encodeTerms` makes is apart from those preimages, and `CollidesWithTerms` gives the exact limit.
  Commitments are never signed, so nothing else here depends on it.
- `RegisterNode` reads a failing on-chain lookup as "not registered"; `FailingLookupRegistersTwice` shows
  what that costs, `RegisteredOnceExactly` says exactly which runs register at most once, and
  `NeverRegisteredTwice` follows with reliable lookups. An `a` step whose command has neither `r` nor `R`
  uses the zero attestation id even when the state file holds one. A reply lost after its transaction was
  mined makes the next run repeat the step (`LostReplyRepeatsStep`), working saves or not; `EffectsExactly`
  and `AtMostOnceExactly` say exactly how often each step takes effect. A write of the state file that fails
  half way leaves a file that every later run refuses.
- The browser's `toBytes32Hex` cuts a long name where the server's `stringToBytes32Hex` throws;
  `EncodersAgree` gives the exact condition.

## Model

| member | source | states |
|---|---|---|
| Theorems.PaidWithinAccrual | contracts/StreamVault.sol:140-168 | in every reachable state every stream has withdrawn <= min(funded, accrual now of whatever terms open its commitment), and a commitment that opens to no terms has paid nothing |
| Theorems.AcceptedTracesBack | README.md:120-134 | a withdrawal or settlement the vault accepts was granted earlier for exactly this purpose, chain, vault, stream, commitment, figure and deadline, at most ten minutes ago, for exactly the units earned then, after a permitted party (never an enclave key) signed a challenge for this very stream |
| Theorems.AcceptedFigureIsEarned | README.md:120-134 | every figure ever accepted is, to the raw unit, what the terms behind the commitment had earned at a time in the ten minutes before |
| Theorems.CallerIsNoEnclave | typescript/src/app/streamHandlers.ts:161-190 | the authenticated caller of a grant is never an enclave key, because no enclave signature is a challenge signature |
| Theorems.Conservation | README.md:214-224 | per stream and for any token: deposits = funded, receipts = withdrawn, deposits = receipts + refund once cancelled, no refund before, never more out than in |
| Theorems.Solvency | contracts/StreamVault.sol:127-207 | the vault's balance of a standard token is the sum of all its open streams' reserves plus its starting balance plus the gifts made to it, so never less than the reserves |
| Theorems.PayoutsNeverFail | contracts/StreamVault.sol:159-207 | in reachable states a withdrawal or settlement of a standard token completes exactly when its own checks pass: no transfer ever fails |
| Theorems.SettledBounds | contracts/StreamVault.sol:173-207 | at every state after an accepted settlement the stream is cancelled and its receipts lie between two accruals of its terms |
| Theorems.SettlementWindow | contracts/StreamVault.sol:182-198 | lifetime receipts after a settlement at block time b lie in [min(funded, accrued(b-600)), min(funded, accrued(b))], the bounds differ by at most ceil(rate*600/10^12), and the refund is the rest |
| Theorems.CancelledBySettlement | contracts/StreamVault.sol:173-193 | a stream is cancelled if and only if the vault accepted a settlement of it |
| Changes.StepChanges | contracts/StreamVault.sol:127-207 | in any step, callbacks included, an existing stream changes only by its own completed funding, signed withdrawal, or signed settlement sent by its stored employer |
| Changes.OnlyEmployerCancels | contracts/StreamVault.sol:179-181 | wherever a run turns an open stream into a cancelled one, one of its actions is a settlement that the stored employer sent |
| Theorems.PublishedTermsAreEnforced | README.md:184-188 | all terms published for a stream are one blob, and every figure ever accepted is that blob's accrual at a time in the ten minutes before; parties and token are the matter of `Parties` |
| Parties.PublishedPartiesNeedNotBePaid | contracts/StreamVault.sol:98-124 | a reachable state whose published terms name another employer, recipient and token than the stream, where everything went to the stored recipient in the stored token |
| Parties.PublishedPartiesPaid | contracts/StreamVault.sol:159-167 | an accepted withdrawal moves a positive payout in the stored token to the stored recipient; it is a payout in the published token to the published recipient if and only if both are the stored ones, or nothing leaves the vault |
| Parties.PublishedPartiesSettled | contracts/StreamVault.sol:192-205 | for both transfers of a completed settlement: what was owed goes to the published recipient if and only if recipient and token are the stored ones (or nothing leaves the vault), the refund goes to the published employer if and only if employer and token are |
| Parties.MovedToOne | contracts/StreamVault.sol:166 | a payout to one holder in one token is a payout to no other |
| Parties.SettledWasSigned | typescript/src/app/streamHandlers.ts:161-190 | no stream is ever cancelled unless the employer its terms name, never an enclave key, signed a challenge for settling this very stream |
| Parties.OthersCannotSettle | contracts/StreamVault.sol:173-190 | in any run where somebody else alone signs, the stream stays open unless such a challenge existed before |
| Parties.EmployerAloneSettles | contracts/StreamVault.sol:173-190 | the stored employer can have an open stream settled with no other party's signature if and only if the terms name them |
| Parties.PaidState | contracts/StreamVault.sol:140-168 | an honest withdrawal carried to its end is reachable and leaves receipts at min(accrued, funded) |
| Replay.ReceiptsAreMaximum | contracts/StreamVault.sol:127-207 | over any run, whatever else happens, receipts end at max(w0, min(funded, largest figure accepted)) without a top-up, and with top-ups between that bound for the funding at the start and at the end |
| Replay.ReplayReverts | README.md:128-130 | after an accepted withdrawal and any further run, the same or a smaller figure reverts unless the stream was topped up |
| Replay.ReplayPaysTopUps | contracts/StreamVault.sol:140-168 | an authorization presented again pays if and only if it is still presentable and min(figure, funded) > withdrawn, and then exactly that difference; with nothing accepted in between, if and only if the first funding fell short of the figure and has grown |
| Theorems.AvailableNotNegative | frontend/app/stream/[id]/page.tsx:204-208 | the dashboard's available amount is min(accrued, funded) - withdrawn and never negative in reachable states |
| Theorems.HonestRequestSucceeds | typescript/src/app/streamHandlers.ts:97-229 | from any state, signing a fresh challenge and asking the enclave, to withdraw or to settle, is a valid run that yields the signature for the current accrual |
| Theorems.AuthorizationPays | contracts/StreamVault.sol:140-168 | submitting a payable authorization is enabled, completes, and moves exactly min(figure, funded) - withdrawn from the vault to the recipient |
| Theorems.HonestWithdrawalCompletes | typescript/src/app/streamHandlers.ts:135-229 | from any reachable state a party's request is granted, and in every continuation the authorization is accepted until its deadline while its signer is installed, the stream open and something left to pay |
| Theorems.DashboardIsPaid | frontend/app/stream/[id]/page.tsx:204-208 | what the dashboard shows is never negative, and when positive the signature obtained at once can be submitted by anyone, completes, and moves exactly that to the recipient |
| Theorems.DashboardIsPayable | frontend/app/stream/[id]/page.tsx:204-208 | with no step in between the authorization is payable exactly when the dashboard shows something, for exactly that |
| Theorems.AuthorizationSettles | contracts/StreamVault.sol:173-207 | a live settlement of a standard-token stream submitted by the stream's employer always completes: receipts become max(withdrawn, min(figure, funded)), the recipient is paid the difference and the employer exactly the rest |
| Theorems.HonestSettlementCompletes | typescript/src/app/streamHandlers.ts:135-229 | from any reachable state the terms' employer's settlement request is granted, and in every continuation the stream's employer can settle with it until its deadline while its signer is installed and the stream open, whatever was withdrawn or topped up in between; at once exactly when the stream is open (standard tokens) |
| Theorems.StreamsEvolve | contracts/StreamVault.sol:98-207 | in every continuation parties, token, commitment and start time stay, counters never fall and a cancelled stream is frozen |
| Theorems.ReachableExtends | contracts/StreamVault.sol:44-60 | reachable states are closed under further valid runs |
| System.StepKeepsInv | contracts/StreamVault.sol:88-218 | every enabled action keeps the system invariant: accounts, honest signer, granted signatures, sound grants, backed streams, justified acceptances |
| System.RunKeepsInv | contracts/StreamVault.sol:88-218 | the invariant, the evolution of streams and the clock's order hold along every valid run |
| System.AcceptedWasGranted | contracts/StreamVault.sol:151-157 | a signature that passes the vault's check covers an earlier grant of exactly the same authorization |
| System.TransactionBacked | contracts/StreamVault.sol:159-165 | after any transaction each stream's receipts are backed by a granted figure for its commitment |
| System.TransactionAccepts | contracts/StreamVault.sol:140-207 | after any transaction every acceptance so far is justified by a grant, and settled streams stay inside their window |
| System.CancelWithin | contracts/StreamVault.sol:192-198 | settling with a granted figure in time puts the receipts inside the settlement window |
| System.TransactionSigner | contracts/StreamVault.sol:88-93 | no transaction, callbacks included, can leave a signer the owner did not install |
| System.SameBlob | contracts/StreamVault.sol:213-217 | one commitment opens to one blob |
| Guarantees.EveryCallKeepsWorld | contracts/StreamVault.sol:75-218 | ids, bounds, books, solvency, supply, published terms and the free lock survive every top-level call, whatever non-standard tokens do |
| Guarantees.OuterCallDecides | contracts/StreamVault.sol:75-80 | whatever is called back, the lock ends free and each stream that existed before changes by the outer call alone |
| Guarantees.HoldsReserve | contracts/StreamVault.sol:127-207 | the vault holds what any one open stream of a standard token still reserves |
| Guarantees.WithdrawalPays | contracts/StreamVault.sol:140-168 | for standard tokens withdraw completes exactly when its checks pass and moves exactly the difference to the recipient |
| Guarantees.SettlementPays | contracts/StreamVault.sol:173-207 | for standard tokens cancelStream completes exactly when its checks pass (plainly in `Operations.CancelExactly`): neither transfer fails |
| Guarantees.SettlementMoves | contracts/StreamVault.sol:200-205 | a settlement moves what is owed to the recipient, then the refund to the employer, and nothing else |
| Guarantees.SettlementSplits | contracts/StreamVault.sol:192-198 | the refund never underflows; owed + refund is the rest of the funding; withdrawn becomes max(withdrawn, min(figure, funded)) |
| Guarantees.FundingMoves | contracts/StreamVault.sol:127-135 | funding with a standard token moves the amount from the sender to the vault exactly when checks (plainly in `Operations.FundExactly`), balance and allowance allow |
| Guarantees.CreatedStream | contracts/StreamVault.sol:98-124 | a created stream gets the next id, the sender as employer and the given data, starts empty and open, and leaves all others alone |
| Operations.FundExactly | contracts/StreamVault.sol:127-135 | fund completes if and only if the lock is free, the stream exists and is open, the amount is positive, the funding stays below 2^128 and balance and allowance suffice (another token: reports success); the funding then grows by exactly the amount and nothing else changes |
| Operations.FundReason | contracts/StreamVault.sol:127-135 | which reason fund reverts with |
| Operations.FundSpendsAllowance | test/StreamVault.t.sol:28-35 | a completed fund spends exactly its amount of the sender's allowance and of no other |
| Operations.WithdrawExactly | contracts/StreamVault.sol:140-168 | withdraw completes if and only if the lock is free, the stream exists and is open, the deadline has not passed, the installed signer signed exactly this withdrawal, more than the receipts is signed and funded, and another token than the standard ones reports success; the receipts are then min(figure, funded) and nothing else changes |
| Operations.WithdrawReason | contracts/StreamVault.sol:146-161 | which reason withdraw reverts with |
| Operations.CancelExactly | contracts/StreamVault.sol:173-207 | cancelStream completes if and only if the lock is free, the sender is the stored employer, the stream exists and is open, the deadline has not passed, the installed signer signed exactly this settlement, and another token than the standard ones reports success where there is something to transfer; the stream is then cancelled with max(withdrawn, min(figure, funded)) received |
| Operations.CancelReason | contracts/StreamVault.sol:179-190 | which reason cancelStream reverts with |
| Operations.SignatureReason | contracts/StreamVault.sol:220-231 | the check passes exactly for the installed signer's signature over the prefixed hash of the seven words in ABI order, and names what is wrong with any other |
| Operations.FalseReverts | contracts/StreamVault.sol:132-205 | a token other than the standard ones answering false reverts fund, withdraw and either transfer of a settlement |
| Operations.CreateExactly | contracts/StreamVault.sol:98-124 | createStream completes if and only if recipient, token and commitment are not zero and an id is left; it stores exactly what it was given under the next id and changes nothing else |
| Operations.RotateExactly | contracts/StreamVault.sol:88-93 | setTeeSigner completes if and only if the owner sends a signer that is not zero, and installs exactly that |
| Operations.RevealExactly | contracts/StreamVault.sol:213-218 | revealTerms completes if and only if the stream exists and the blob hashes to its commitment, and publishes exactly that blob |
| Operations.CallbacksInOrder | contracts/StreamVault.sol:75-80 | a token's callbacks are full calls one after the other, a reverted one leaving no trace |
| Operations.OutsideTransfer | test/StreamVault.t.sol:21-26 | an outside transfer of a standard token completes exactly when the balance suffices, and moves the amount |
| Operations.AllowanceExactly | test/StreamVault.t.sol:16-19 | approving sets exactly one allowance |
| Books.UnguardedShifts | contracts/StreamVault.sol:88-124 | createStream, revealTerms, setTeeSigner and third-party token steps leave existing streams, the lock and the vault's net holdings alone |
| Books.LockedReverts | contracts/StreamVault.sol:75-80 | under the lock every guarded call reverts |
| Books.CallbacksShift | contracts/StreamVault.sol:75-80 | any finite sequence of callbacks under the lock keeps existing streams, totals and net holdings, and creates only empty streams |
| Accounting.EnterMidway | contracts/StreamVault.sol:128-166 | updating a stream before the token call leaves the accounts off by exactly the amounts still due |
| Accounting.LegMidway | contracts/StreamVault.sol:132-205 | a token call and its record settle exactly the amount they move |
| Accounting.FundCompletes | contracts/StreamVault.sol:127-135 | a completed fund adds the amount to its stream, keeps the others and all accounts |
| Accounting.WithdrawCompletes | contracts/StreamVault.sol:140-168 | a completed withdraw sets withdrawn to min(figure, funded), keeps the others and all accounts |
| Accounting.CancelCompletes | contracts/StreamVault.sol:173-207 | a completed cancelStream settles its stream with two, one or no transfers, keeps the others and all accounts |
| Accounting.OpenWithinOwed | contracts/StreamVault.sol:127-207 | one stream's reserve is part of the token's reserved sum |
| StreamVaultContract.StreamVault.constructor | contracts/StreamVault.sol:82-85 | deployment sets owner and signer, first id 1, no streams, free lock |
| StreamVaultContract.StreamVault.SetTeeSigner | contracts/StreamVault.sol:88-93 | equals the step function, reverts included |
| StreamVaultContract.StreamVault.CreateStream | contracts/StreamVault.sol:98-124 | equals the step function and returns the new id |
| StreamVaultContract.StreamVault.Fund | contracts/StreamVault.sol:127-135 | equals the step function, lock, callbacks and rollback included |
| StreamVaultContract.StreamVault.Withdraw | contracts/StreamVault.sol:140-168 | equals the step function, lock, callbacks and rollback included |
| StreamVaultContract.StreamVault.CancelStream | contracts/StreamVault.sol:173-207 | equals the step function, lock, callbacks and rollback included |
| StreamVaultContract.StreamVault.RevealTerms | contracts/StreamVault.sol:213-218 | equals the step function |
| StreamVaultContract.StreamVault.RunCallbacks | contracts/StreamVault.sol:75-80 | a token's callbacks run in order, each a full call of its own |
| StreamVaultContract.StreamVault.Transact | contracts/StreamVault.sol:88-218 | a top-level call by an outside account keeps every account invariant |
| Tokens.TwoHolders | test/StreamVault.t.sol:8-36 | two holders together never exceed a uint256 |
| Tokens.TransferSucceeds | test/StreamVault.t.sol:21-26 | with the supply in range a transfer fails only for lack of balance |
| Tokens.MovedKeepsSupply | test/StreamVault.t.sol:21-35 | transfers keep every partial sum of balances within the total supply |
| Tokens.MintKeepsSupply | test/StreamVault.t.sol:12-14 | minting keeps every partial sum of balances within the total supply |
| Enclave.GrantsAreOk | typescript/src/app/streamHandlers.ts:135-214 | every grant binds terms that open its commitment, their accrual at the signing time, a ten-minute deadline and a permitted party's fresh challenge for the same stream and purpose |
| Enclave.GrantedExactly | typescript/src/app/streamHandlers.ts:97-229 | a request is granted if and only if keys are configured, the terms open its commitment, the challenge is within 300 seconds, well formed and signed by the employer or, to withdraw, the recipient of the terms, and the clock leaves room for a deadline; the grant fixes this request's stream, the units earned by now and now + 600 |
| Enclave.RefusalReason | typescript/src/app/streamHandlers.ts:121-143 | which refusal a request gets for keys, decryption, commitment and terms |
| Enclave.CallerRefusalReason | typescript/src/app/streamHandlers.ts:149-190 | which refusal it gets for its date, its signature and its caller |
| Enclave.CallerExactly | typescript/src/app/streamHandlers.ts:161-190 | the caller recovered is permitted exactly when a party signed the words of this request's challenge |
| Enclave.HonestRequestGranted | typescript/src/app/streamHandlers.ts:146-214 | a party's well-formed request is always granted; after authentication only a clock beyond 2^256 - 600 can make the digest throw |
| Confidentiality.RefusedUnlessSigned | typescript/src/app/streamHandlers.ts:161-190 | a request without a permitted party's signed challenge for its own stream, commitment and purpose is refused |
| Confidentiality.OutsiderLearnsNothing | README.md:132-134 | such a request gets the same refusal for any two blobs of terms between the same parties, so nothing about rate, total, token, start time or salt |
| Confidentiality.NothingWithoutParty | README.md:132-134 | over any run in which only outsiders sign, and no party had signed a challenge for a commitment before, the enclave signs nothing about it |
| Confidentiality.PollingLearnsNothing | README.md:132-134 | at the end of any such run every request about the terms changes nothing and gets the refusal any other terms between the same parties would have got |
| Enclave.StreamHandlers.Authorize | typescript/src/app/streamHandlers.ts:97-229 | answers as specified whatever was served before, refusals in the source's order, and the counter stays the number of grants since the last reset |
| Enclave.StreamHandlers.Decide | typescript/src/app/streamHandlers.ts:135-214 | the chain of checks and the signature give the specified answer |
| Enclave.StreamHandlers.ReportStreamState | typescript/src/app/streamHandlers.ts:89-91 | reports the number of requests granted since the last reset |
| Enclave.ResetForgets | typescript/src/app/streamHandlers.ts:93-95 | after a reset the count is the number of grants made since, whatever was granted before |
| Protocol.TermsRoundTrip | typescript/src/shared/protocol.ts:74-88 | decodeTerms(encodeTerms(t)) = t for all encodable terms |
| Protocol.BlobRoundTrip | typescript/src/shared/protocol.ts:74-88 | decoding and re-encoding gives a blob back if and only if it is canonical |
| Protocol.DecodeReadsSevenWords | typescript/src/shared/protocol.ts:79-88 | a blob decodes if and only if it holds 224 octets; octets behind them and before an address are not looked at |
| Protocol.AuthMessageInjective | typescript/src/shared/protocol.ts:136-158 | a signed authorization fixes all seven of its members |
| Protocol.ChallengeMessageInjective | typescript/src/shared/protocol.ts:167-188 | a signed challenge fixes all its members |
| Protocol.AuthorizationSlots | typescript/src/shared/protocol.ts:136-158 | each member of a signed authorization sits in its own 32 octets, in the contract's order |
| Protocol.ChallengeSlots | typescript/src/shared/protocol.ts:167-188 | each member of a signed challenge sits in its own 32 octets |
| Protocol.PreimagesDisjoint | typescript/src/shared/protocol.ts:34-37 | withdraw authorizations, settle authorizations, challenges and encoded terms never share a preimage |
| Protocol.TaggedIsNoTerms | typescript/src/shared/protocol.ts:74-88 | no tuple whose first word has a nonzero octet among its first twelve is an encoding of terms, whatever the word is |
| Protocol.WordsAreABlob | contracts/StreamVault.sol:213-218 | seven words are the octets of some blob if and only if they are written out, and decodeTerms decodes that blob |
| Protocol.CollidesWithTerms | typescript/src/shared/protocol.ts:74-88 | seven words are an encoding of terms if and only if they are written out, the first three fit in 160 bits and the sixth in 64 |
| Protocol.MessagesDisjoint | typescript/src/shared/protocol.ts:136-188 | no authorization signature is a challenge signature |
| Protocol.TagsDistinct | contracts/StreamVault.sol:50-51 | the three domain tags differ |
| Protocol.EthSignedInjective | contracts/StreamVault.sol:220-231 | EIP-191 prefixing keeps different digests different |
| Abi.BigEndianRoundTrip | typescript/src/shared/protocol.ts:145-157 | a number that fits is read back from its big-endian octets |
| Abi.TupleSlot | typescript/src/shared/protocol.ts:145-157 | each member of a static tuple is read back from its own 32-byte slot |
| Abi.TupleInjective | typescript/src/shared/protocol.ts:145-157 | the static tuple encoding is injective |
| Rates.AccruedExactly | typescript/src/shared/protocol.ts:124-131 | accruedAt is the one figure that is at most the total, at most rate * elapsed / 10^12, and not a unit less unless the total is reached |
| Rates.AccruedMonotone | typescript/src/shared/protocol.ts:124-131 | accrual never falls over time |
| Rates.NothingBeforeStart | typescript/src/shared/protocol.ts:124-131 | nothing accrues up to the start time |
| Rates.AccrueAdditive | typescript/src/shared/protocol.ts:124-131 | adjacent intervals accrue what their union does to within one unit, and never more |
| Rates.ReachesTotal | typescript/src/shared/protocol.ts:124-131 | the total is reached exactly from ceil(total*10^12/rate) seconds on |
| Rates.WindowGrowth | typescript/src/shared/protocol.ts:124-131 | over a window accrual grows by at most ceil(rate*window/10^12) |
| Rates.RateAccuracy | typescript/src/shared/protocol.ts:97-131 | accrual at the scaled daily rate never exceeds the exact pay and is short by at most ceil(e/10^12), so by one unit up to 10^12 seconds |
| Rates.DailyPay | typescript/src/shared/protocol.ts:97-131 | the same for what a stream at that rate has accrued, until its total is reached |
| Rates.DailyRateIsFloor | typescript/src/shared/protocol.ts:119-121 | the scaled rate is floor(amount * 10^12 / 86400) |
| Rates.DisplayUndoesScaling | frontend/app/stream/[id]/page.tsx:213-219 | the rounded daily figure is the amount the rate was made from |
| Rates.TruncatingDisplay | frontend/app/stream/[id]/page.tsx:213-219 | without the half unit it is exact if and only if 27 divides the amount, otherwise one short |
| Rates.ToScaledRateIsFloor | typescript/src/shared/protocol.ts:112-116 | toScaledRate is floor(value*10^12) for every nonnegative numeral with any number of fraction digits |
| Rates.ToScaledRateOfInteger | typescript/src/shared/protocol.ts:112-116 | the same for a numeral without a point |
| Rates.SecondPointIgnored | typescript/src/shared/protocol.ts:112-116 | whatever follows a second point is ignored |
| Rates.PrintedRateParses | typescript/src/shared/protocol.ts:112-116 | a rate printed with twelve fraction digits parses back to itself |
| Rates.DigitsValue | typescript/src/shared/protocol.ts:112-116 | every number has a fixed-width decimal text with its value |
| Confluence.WithdrawalsReachMaximum | contracts/StreamVault.sol:159-164 | any sequence of valid authorizations without funding ends at max(w0, min(funded, largest figure)) |
| Confluence.WithdrawalsCommute | contracts/StreamVault.sol:159-164 | the same figures in any order, repetition and timing leave the stream and its receipts the same |
| Confluence.ToppedUpBound | contracts/StreamVault.sol:127-164 | with top-ups anywhere, receipts stay within min(funded, largest figure) |
| Confluence.LargestLastCatchesUp | contracts/StreamVault.sol:127-164 | resubmitting the largest figure after the last top-up reaches that bound exactly |
| Serializer.RunInv | typescript/src/base/server.ts:184-191 | after any schedule there is one frontier job; earlier ones are over and passed on, later ones untouched |
| Serializer.OneAtATime | typescript/src/base/server.ts:39-40 | at most one handler is in flight and none begins before all earlier ones are over |
| Serializer.EachGetsItsOwn | typescript/src/base/server.ts:184-191 | each call's promise is fulfilled with the value its handler returns in the sequential run, rejected with the error it throws there, and pending until it is over |
| Serializer.StateIsFold | typescript/src/base/server.ts:136-138 | the shared state is always the sequential fold of the handlers' turns in enqueue order |
| Serializer.ReadsAreSequential | typescript/src/base/server.ts:170-177 | a finished state read reports the fold of exactly the handlers enqueued before it |
| Serializer.ExactlyOneMove | typescript/src/base/server.ts:184-191 | while any call is unfinished exactly one move of the event loop is enabled |
| Serializer.ThrowingNeverBlocks | typescript/src/base/server.ts:180-190 | after a call has ended, by throwing too, its successor can begin at most one hand-over later |
| Serializer.EveryMoveIsProgress | typescript/src/base/server.ts:184-191 | with handlers that end, every turn and hand-over strictly lowers the work ahead |
| Serializer.AllCallsEnd | typescript/src/base/server.ts:184-191 | with handlers that end when run in sequence, at most the work ahead in moves can follow without an arrival, and once that many have or none is left every call is finished |
| Serializer.Server.constructor | typescript/src/base/server.ts:40 | the queue starts resolved and empty |
| Serializer.Server.Serialize | typescript/src/base/server.ts:184-191 | chains the handler on the queue, moves the queue behind it and returns the handler's promise |
| Serializer.Server.RunTurn | typescript/src/base/server.ts:185 | a handler's turn changes state, phase and promise as the step function says |
| Serializer.Server.PassOn | typescript/src/base/server.ts:186-189 | the queue promise is fulfilled however the handler ended |
| Registration.IdsFollowTheirSteps | tools/pkg/fccutils/registration.go:74-167 | over any runs, with failing saves, lost replies and crashes: `a` uses the newest attestation id exactly when the command has r or R (else zero), and `p` uses the newest check's id or the given one |
| Registration.NeverRegisteredTwice | tools/pkg/fccutils/registration.go:80-98 | with reliable lookups that condition always holds, whatever is lost between an effect and its save |
| Registration.FailingLookupRegistersTwice | tools/pkg/fccutils/registration.go:82-98 | without them it can be: two crashed runs with failing lookups |
| Registration.EffectsExactly | tools/pkg/fccutils/registration.go:59-172 | with working saves each of r, R, a takes effect, while the state file lasts, once per run that loses its reply and once more when it is recorded as completed |
| Registration.AtMostOnceExactly | tools/pkg/fccutils/registration.go:59-172 | so at most once if and only if no reply of it was lost, or one was and the step is not completed |
| Registration.LostReplyRepeatsStep | tools/pkg/fccutils/registration.go:259-278 | working saves alone do not suffice: two runs that lose the reply of R request the attestation twice |
| Registration.EachStepOnce | tools/pkg/fccutils/registration.go:59-172 | with working saves and no reply of the step lost it takes effect at most once while the state file lasts, and exactly once when the last run succeeds and the command has it |
| Registration.RunOnceOk | tools/pkg/fccutils/registration.go:59-172 | one run keeps the log and the state file truthful |
| Registration.RunEffects | tools/pkg/fccutils/registration.go:59-167 | a run has exactly these effects in this order: registration or fresh attestation, attestation, check of the attestation at hand, production of the instruction at hand, each with the id of its reply and only if all before it pass |
| Registration.RunProduces | tools/pkg/fccutils/registration.go:157-167 | a run produces once, as its last effect and with the id at hand, if it passes the earlier steps, has `p`, has the proof and is not refused; otherwise not at all |
| Registration.RunSucceeds | tools/pkg/fccutils/registration.go:59-172 | a run succeeds if and only if every step it has to do is confirmed; with `p` it has then produced exactly once |
| Registration.ProductionsTotal | tools/pkg/fccutils/registration.go:157-167 | over any runs there is one production for every run that meets those conditions |
| Registration.FileAfterRun | tools/pkg/fccutils/registration.go:169-171 | a successful run removes the state file or leaves exactly the steps done in it; a failing run never removes it |
| Registration.IdsRecorded | tools/pkg/fccutils/registration.go:99-149 | the ids it leaves are those of the last attestation and check it made, else those recorded before |
| Registration.RunRegisters | tools/pkg/fccutils/registration.go:65-106 | a run registers the machine once if it can read its file, has `r` to do, the lookup does not find the machine and the call is not refused; otherwise not at all |
| Registration.RegistrationsTotal | tools/pkg/fccutils/registration.go:65-106 | over any runs the registrations are those before plus the runs that meet this guard |
| Registration.RegisteredOnceExactly | tools/pkg/fccutils/registration.go:65-106 | the machine is registered at most once if and only if at most one run, none if it was registered before, meets this guard |
| Registration.OnceUnlessRegisteredAgain | tools/pkg/fccutils/registration.go:80-98 | of a machine registered at most once before, it stays so if and only if no run that starts with it registered meets the guard |
| Registration.Registrar.RegisterNode | tools/pkg/fccutils/registration.go:59-172 | equals one run of the specification, file and chain effects included |
| Registration.Registrar.PreRegister | tools/pkg/fccutils/registration.go:74-106 | the r block equals its specification |
| Registration.Registrar.Attest | tools/pkg/fccutils/registration.go:108-124 | the R block equals its specification |
| Registration.Registrar.Check | tools/pkg/fccutils/registration.go:126-155 | the a block equals its specification |
| Registration.Registrar.Produce | tools/pkg/fccutils/registration.go:157-167 | the p block equals its specification |
| Registration.Registrar.SaveState | tools/pkg/fccutils/registration.go:48-57 | a write that ends replaces the file, one that cannot start leaves it, one that fails half way leaves a text that loadState refuses |
| Envelope.RequestReachesHandler | typescript/src/base/server.ts:105-138 | for all names, a body the browser builds reaches exactly the handler registered for the same bytes32 names, exact before wildcard and first before later, with a message that decodes to the payload; otherwise it is unsupported |
| Envelope.CleanRequestReachesHandler | typescript/src/base/server.ts:105-138 | for names that fit and do not end in a zero octet, registered means registered under literally these names |
| Envelope.SameNameIsEqual | typescript/src/base/encoding.ts:50-58 | such names share a bytes32 if and only if they are equal |
| Envelope.HexRoundTrip | typescript/src/base/encoding.ts:16-42 | hexToBytes inverts bytesToHex |
| Envelope.HexDecodable | typescript/src/base/encoding.ts:16-35 | a text decodes if and only if, behind an optional 0x or 0X, it has an even number of hex digits of either case |
| Envelope.HexDecodes | typescript/src/base/encoding.ts:16-35 | and it decodes to the octets whose hex its lower case is |
| Envelope.EncodersAgree | frontend/lib/enclave.ts:40-45 | browser and server encode a name alike if and only if it has at most 32 octets |
| Envelope.BrowserNameCuts | frontend/lib/enclave.ts:40-45 | the browser's name is the first 32 octets, filled up with zeros |
| Envelope.NameRoundTrip | typescript/src/base/encoding.ts:50-74 | a name of at most 32 octets not ending in zero survives encoding, decoding and trimming |
| Envelope.TrimsExactly | typescript/src/base/encoding.ts:71-73 | trimming drops zeros from the end, all of them and nothing else |
| Envelope.LookupIgnoresCase | typescript/src/base/types.ts:105-124 | lookup does not depend on hex case |
| Envelope.LookupIgnoresPrefix | typescript/src/base/types.ts:118-124 | a missing 0x never matters, and no command is the zero word |
| Envelope.LookupIsFirst | typescript/src/base/types.ts:105-116 | lookup gives the first exact entry, and only without one the first wildcard entry of the type |
| Envelope.LookupFindsNothing | typescript/src/base/types.ts:105-116 | and nothing if and only if the type has neither |
| Envelope.BadRequestExactly | typescript/src/base/server.ts:105-134 | which bodies are malformed, which unsupported, and that all others reach lookup's handler with the original message |
| Envelope.LookupByName | typescript/src/base/types.ts:96-116 | lookup on encoded names is lookup on names, cut to 32 octets |
| Envelope.HexToBytesLoop | typescript/src/base/encoding.ts:16-35 | the decoding loop computes the specification, exceptions included |
| Envelope.BytesToHexLoop | typescript/src/base/encoding.ts:38-42 | the server's encoding loop |
| Envelope.ToHexLoop | frontend/lib/enclave.ts:32-37 | the browser's encoding loop computes the same text |
| Envelope.TrimLoop | typescript/src/base/encoding.ts:71-73 | the loop drops exactly the trailing zeros |
| Envelope.Bytes32HexToOctets | typescript/src/base/encoding.ts:64-74 | a text that does not decode gives the empty name, any other its octets without trailing zeros |
| Envelope.Framework.Handle | typescript/src/base/types.ts:96-102 | registers names that fit and throws on others |
| Envelope.Framework.Lookup | typescript/src/base/types.ts:105-116 | the two scans find the first exact entry, else the first wildcard entry |

## Left out

- ECIES, keccak256, ecrecover and viem's internals: foreign code, idealised as described above.
- Request decoding in `authorize` (JSON syntax, unknown, missing or non-string fields): a request is modelled from its decoded fields on, with `None` for a field the later code cannot read.
- JSON text and UTF-8: records and octets instead, printed and parsed faithfully.
- Rates.ToScaledRateIsFloor: texts other than decimal numerals (signs, blanks, other bases) are not modelled; rates are nonnegative.
- Theorems.PublishedTermsAreEnforced: states the figures only, because the code does not enforce published parties and token; `Parties` holds the counterexample and the exact conditions.
- Tokens.MintKeepsSupply: minting is refused when the total supply would pass 2^256, as a uint256 totalSupply demands; the mock keeps no total and refuses only when a holder's own balance would.
- Fee-on-transfer and rebasing tokens: balance claims cover standard tokens only; counters, locks and books cover every token.
- Clock skew between enclave and chain, and block reorganisations.
- A token that never returns from a callback, and gas.
- Events that carry no money and no terms (`StreamCreated`, `TeeSignerUpdated`).
- Envelope responses: only the request direction is modelled.
- contracts/InstructionSender.sol, the greeting handlers, React state, HTTP transport, CORS, RPC reads, deployment and key generation scripts, and the validation tools: pass-through calls, reporting or easy members.
- Registration delays (`time.Sleep`) and the contents of on-chain calls beyond their effect and id.
