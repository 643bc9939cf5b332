# Dex fee-dividend settlement, modelled in Dafny

This project models the settlement engine of the go-vite decentralized exchange's built-in fund
contract, `vm/contracts/dex/fund_dividend.go`. It has three parts:

- **DivideByProportion**, the proportional allocator. It gives one party its share of one token's
  pool. The share is rounded to the nearest unit. The party that exhausts the pool, or whose stake
  brings the running total to the reference total, takes the whole remainder, so nothing leaks.
- **DoFeesDividend**, the stake dividend. It collects every unfinished fee period up to the given
  period and sums each token's dividend pool. It marks those periods finished. It then walks the
  per-address stake records in key order and gives each eligible address its proportional share of
  every still-active token. Each share is logged as a fee-dividend event and credited to the fund
  ledger. A token whose pool is exhausted is retired, and the walk stops once every token is retired.
- **DoOperatorFeesDividend**, the operator payout. It consumes every operator fee record of the
  period and credits each operator the sum of its market fees per token, with one event per market fee.

Modules:

- `DexStore` (`dex_store.dfy`) holds the persisted state and the fund ledger. The state is a value,
  `Db`: fees by period, the global stake-sum record, the raw key/value entries, balances and the
  event log. The module also holds the storage iterator `Cursor` and the collaborators whose
  definitions are not part of this model, as function-valued fields of `Env`.
- `Allocator` (`allocator.dfy`) holds `DivideByProportion` and successive calls for one token.
- `FeeDividend` (`fee_dividend.dfy`) and `FeeDividendLemmas` (`fee_dividend_lemmas.dfy`) cover
  `DoFeesDividend`.
- `OperatorDividend` (`operator_dividend.dfy`) covers `DoOperatorFeesDividend`.

Each loop of the source is a `method` with a `while` loop. The method is proved equal to a
recursive specification function, and the properties are proved about that function.

Each settlement ends in an `Outcome`:

- An error return of the source is `Err`. It keeps the writes made so far.
- A panic is `Abort`. The enclosing transition is abandoned, so no write survives.

## Model

| member | source | states |
|---|---|---|
| Allocator.DivideByProportion | vm/contracts/dex/fund_dividend.go:188-201 | the party's stake is added to the divided stake; share plus what is left equals what was left before; finished exactly when the tentative share reaches the remainder or the divided stake reaches the total, and exactly when nothing is left; a finishing call hands out the whole remainder, any other call the pool times stake over total rounded to nearest |
| Allocator.DivideInTurnConserves | vm/contracts/dex/fund_dividend.go:188-201 | over successive calls for one token, the shares handed out plus what is left equal the pool; finished exactly when nothing is left; the divided stake is the sum of the stakes of the calls made |
| Allocator.DivideInTurnFinishes | vm/contracts/dex/fund_dividend.go:193-197 | once the stakes reach the reference total, the pool is exhausted |
| Allocator.FullStakeSharesWholePool | vm/contracts/dex/fund_dividend.go:188-201 | when the stakes add up to the total, the shares add up to the pool exactly: no rounding leakage |
| Allocator.SingleHolderGetsWholePool | vm/contracts/dex/fund_dividend.go:188-201 | a party holding the whole reference stake receives the whole pool and finishes it |
| Allocator.SixtyFortySplit | vm/contracts/dex/fund_dividend.go:188-201 | stakes 60 and 40 of 100 split 1,000,000 into 600,000 and 400,000 |
| DexStore.Credit | vm/contracts/dex/fund_dividend.go:130 | UpdateFund adds each amount to the address's balance of that token and changes no other balance |
| FeeDividend.UnfinishedPeriods | vm/contracts/dex/fund_dividend.go:20 | the periods collected are exactly those stored, not finished and not after the given period, in ascending order without repeats |
| FeeDividend.AddAccountsSums | vm/contracts/dex/fund_dividend.go:41-52 | summing one period's accounts adds to each token exactly its dividend-eligible amount |
| FeeDividend.SumPeriodsSums | vm/contracts/dex/fund_dividend.go:39-54 | fee summing only sets finished flags; when every token decodes, each pool is the token's dividend-eligible total over the collected periods and every collected period is marked finished |
| FeeDividend.SumDividendPools | vm/contracts/dex/fund_dividend.go:39-54 | the nested summing loop computes exactly the pools and marks of SumPeriods, stopping at the first undecodable token |
| FeeDividend.DivideAmongTokens | vm/contracts/dex/fund_dividend.go:113-129 | the token loop for one address computes exactly the state and dividend of DivideTokens |
| FeeDividend.ScanStakeholders | vm/contracts/dex/fund_dividend.go:70-133 | the iterator loop computes exactly RunScan: it stops when every token is retired, when the entries run out, or at the first undecodable address or record |
| FeeDividend.DoFeesDividend | vm/contracts/dex/fund_dividend.go:11-135 | the settlement computes exactly FeesDividend, with its guards, summing, scan and failure paths in the order of the source |
| FeeDividendLemmas.DivideTokenPools | vm/contracts/dex/fund_dividend.go:114-127 | one pass retires at most the current token; the active tokens stay the ones not retired; no other pool changes |
| FeeDividendLemmas.DivideTokenAccounts | vm/contracts/dex/fund_dividend.go:118-128 | one pass keeps every pool balanced: paid out plus left equals the pool, the stake divided equals the stakes its events were shared by, retired exactly when nothing is left, and retired once the stake divided reaches the total |
| FeeDividendLemmas.DivideTokenActiveAccounts | vm/contracts/dex/fund_dividend.go:118-128 | the same for a pass over a token that is still active |
| FeeDividendLemmas.DivideTokenOwnPool | vm/contracts/dex/fund_dividend.go:118-127 | the pass appends one event for the token with the address's stake and share, and the token's payout, remainder and divided stake move together; reaching the total retires it (line 193) |
| FeeDividendLemmas.DivideTokenOtherPools | vm/contracts/dex/fund_dividend.go:114-127 | the books of every other token are unchanged by the pass |
| FeeDividendLemmas.DivideTokenNoStrayPayments | vm/contracts/dex/fund_dividend.go:123-127 | a pass pays nothing out of a token that has no pool |
| FeeDividendLemmas.DivideTokenLedger | vm/contracts/dex/fund_dividend.go:123-128 | the share logged in the event is the share added to the address's pending dividend |
| FeeDividendLemmas.DivideTokensKeepsBooks | vm/contracts/dex/fund_dividend.go:113-129 | the whole token loop keeps every pool balanced and the pending dividend equal to what its events pay |
| FeeDividendLemmas.DivideTokensEmits | vm/contracts/dex/fund_dividend.go:113-129 | the token loop writes only the event log, appending one event for the address and its stake per still-active token, even when the share is 0 |
| FeeDividendLemmas.EligibleKeepsBooks | vm/contracts/dex/fund_dividend.go:113-132 | after an eligible address is credited its dividend, the ledger has moved by exactly the events and every pool is still balanced |
| FeeDividendLemmas.VisitAddressKeepsBooks | vm/contracts/dex/fund_dividend.go:81-132 | visiting any stake record keeps every pool balanced and the ledger equal to the events, and never revives a retired token |
| FeeDividendLemmas.VisitAddressHousekeeping | vm/contracts/dex/fund_dividend.go:98-111 | no match skips the address unchanged; a match deletes or re-saves the record as asked before eligibility is checked; an ineligible address gets no credit and no event |
| FeeDividendLemmas.VisitAddressFrame | vm/contracts/dex/fund_dividend.go:81-132 | visiting an address changes neither the fee store nor the stake sum, and only appends to the log |
| FeeDividendLemmas.RunScanKeepsBooks | vm/contracts/dex/fund_dividend.go:70-133 | at the end of the scan, every token's paid-out amount plus its remainder equals its pool, its divided stake is the sum of the stakes its events were shared by, a token whose divided stake reached the stake sum is retired, a retired token was paid exactly its pool, and the ledger moved by exactly the events |
| FeeDividendLemmas.RunScanFrame | vm/contracts/dex/fund_dividend.go:70-133 | the scan changes neither the fee store nor the stake-sum record |
| FeeDividendLemmas.StartScanBooks | vm/contracts/dex/fund_dividend.go:66-69 | the scan starts with one active pool per summed token, carrying that token's sum, and nothing paid |
| FeeDividendLemmas.ScanPays | vm/contracts/dex/fund_dividend.go:60-133 | from its start, the scan only appends events, credits exactly what they pay, never pays out more of a token than its pool, and pays exactly the pool of a token whose events were shared by stakes adding up to the stake sum, which is then no longer active |
| FeeDividendLemmas.BooksSettle | vm/contracts/dex/fund_dividend.go:188-201 | on balanced books no pool is overdrawn, and a token whose divided stake reached the stake sum was paid exactly its pool and is inactive |
| FeeDividendLemmas.FeesDividendPays | vm/contracts/dex/fund_dividend.go:11-135 | short of a panic, the settlement only appends events, credits exactly what its events pay, pays no more of a token than its dividend-eligible fees over the settled periods, and pays exactly those fees for a token whose events were shared by stakes adding up to the period's stake sum |
| FeeDividendLemmas.PastGuardsPays | vm/contracts/dex/fund_dividend.go:39-135 | the same for a settlement past its guards, against the stake sum it matched |
| FeeDividendLemmas.FeesDividendEarlyExit | vm/contracts/dex/fund_dividend.go:20-37 | with nothing to settle or no positive stake sum, the settlement succeeds; its only possible write is re-saving the compacted stake-sum record |
| FeeDividendLemmas.FeesDividendSettlesPeriods | vm/contracts/dex/fund_dividend.go:39-54 | past the guards, unless a fee token fails to decode or the run panics, every collected period is marked finished and no other period changes |
| FeeDividendLemmas.NoUnfinishedPeriods | vm/contracts/dex/fund_dividend.go:20-22 | with every period up to the given one finished, none is collected |
| FeeDividendLemmas.SecondSettlementIsNoOp | vm/contracts/dex/fund_dividend.go:11-54 | after a settlement that got past the guards and summed every token, a second settlement for the same period succeeds and changes nothing |
| FeeDividendLemmas.DeferredPeriodsSettleLater | vm/contracts/dex/fund_dividend.go:10-54 | a settlement that gets past the guards also marks finished every period left unfinished up to an earlier period, so periods an earlier run left behind at its guards are settled later |
| OperatorDividend.AddMarketFeesLoop | vm/contracts/dex/fund_dividend.go:174-181 | the market-fee loop computes exactly AddMarketFees |
| OperatorDividend.PayOutRecord | vm/contracts/dex/fund_dividend.go:158-183 | paying out one record computes exactly SettleRecord: consume, decode, sum per token, log, credit |
| OperatorDividend.DoOperatorFeesDividend | vm/contracts/dex/fund_dividend.go:137-186 | the operator settlement computes exactly OperatorFeesDividend over the records under the period's key prefix |
| OperatorDividend.AddMarketFeesSums | vm/contracts/dex/fund_dividend.go:174-181 | one token's market fees add their total to that token only and log one event per fee, in order |
| OperatorDividend.CollectFeesSums | vm/contracts/dex/fund_dividend.go:168-182 | summing a record succeeds exactly when every token id decodes; it then adds what the record owes per token and logs one event per market fee |
| OperatorDividend.SettleRecordPays | vm/contracts/dex/fund_dividend.go:155-183 | a record is paid out exactly when the record, the key's address and every token decode; then it is deleted, its operator is credited what it owes, and its events are logged |
| OperatorDividend.RunOperatorOutcome | vm/contracts/dex/fund_dividend.go:143-185 | the settlement succeeds exactly when the iterator does not fail and every non-empty record has a 32-byte key and decodes; it never returns an error, it panics |
| OperatorDividend.RunOperatorSettles | vm/contracts/dex/fund_dividend.go:143-185 | on success, exactly the non-empty records are deleted, each operator is credited what its records owe, one event is logged per market fee, and the fee store and stake sum are untouched |
| OperatorDividend.RunOperatorConsumes | vm/contracts/dex/fund_dividend.go:153-159 | on success, exactly the non-empty records were deleted |
| OperatorDividend.RunOperatorLogs | vm/contracts/dex/fund_dividend.go:169-181 | on success, one event per market fee was logged in record order, and the fee store and stake sum are untouched |
| OperatorDividend.RunOperatorCredits | vm/contracts/dex/fund_dividend.go:169-183 | on success, each operator was credited exactly what its records owe |
| OperatorDividend.OperatorSettlementConsumesPeriod | vm/contracts/dex/fund_dividend.go:138-158 | a successful settlement deletes exactly the non-empty records under the period's prefix and no key outside it |
| OperatorDividend.SecondOperatorSettlementIsNoOp | vm/contracts/dex/fund_dividend.go:137-186 | a second settlement of the same period deletes, logs and credits nothing |

## Left out

- The `big.Float` quotient at `bigFloatPrec` and `RoundAmount` (lines 190-191) are floating point.
  The share is modelled as the exact quotient rounded to nearest, halves up (`TentativeShare`).
- The definitions of `MatchVxFundsByPeriod`, `splitDividendPool`, `IsValidVxAmountForDividend`
  and `MapToAmountWithTokens`, serialization (`DeSerialize`) and address/token byte decoding are not
  part of this model. Each is a field of `Env` that the model leaves unconstrained, except that
  `MapToAmountWithTokens` must list each summed token once (`ListsTokens`).
- The Go definitions of `GetNotFinishDividendDexFeesByPeriodMap` and `UpdateFund` are not part of
  this model either. They are not `Env` fields: each is replaced by a concrete function that states
  its documented meaning. `FeeDividend.UnfinishedPeriods` gives the unfinished periods up to the
  given one. `DexStore.Credit` adds each token amount to the address's balance.
- The Go map at line 40 is iterated in random order; the model sums the periods in ascending order.
  The order only matters when a fee token fails to decode midway. Then the periods summed before it
  are already marked finished.
- `MatchVxFundsByPeriod` compacts the record it is given, in place. The model returns the
  compacted record in `VxMatch`. The stake record is re-saved or deleted under the key it was read
  from; `address.Bytes()` is assumed to give back the key's address bytes.
- DexStore.Credit: the error return of `UpdateFund` (line 130) is not modelled, because its
  definition is not part of this model. Crediting always succeeds. The operator payout ignores that
  result anyway (line 183).
- The iterator's `Release` is not modelled. An iterator error is modelled after the entries it
  yields before the error (`failsAtEnd`), wherever in the key range the error strikes. Such a cursor
  is only required to yield store entries in ascending order (`DexStore.CursorOver`), not all of
  them. Only a cursor that does not fail must yield every key under the prefix.
- Events are appended log entries. What `AddFeeDividendEvent` and `AddOperatorFeeDividendEvent`
  write beyond their arguments is not modelled.
- What the caller does with the writes of a settlement that returns an error is not part of this
  model. `Err` keeps them.
- FeeDividendLemmas.FeesDividendPays equates a token's payout with its pool only once the stakes
  its events were shared by reach the stake sum; otherwise it bounds the payout by the pool. The
  scan may run out of stake records before then. What is then left over is not paid, and
  `RunScanKeepsBooks` accounts for it as the token's remainder.
