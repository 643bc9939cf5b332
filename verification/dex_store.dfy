/**
 * The persisted state the dex fund contract's settlement engine reads and writes,
 * the collaborators it calls but that are not part of this model, and the fund ledger.
 */
module DexStore {

  type Bytes = seq<bv8>

  /** An epoch identifier: a Go uint64. */
  type PeriodId = p: nat | p < 0x1_0000_0000_0000_0000

  datatype Option<T> = None | Some(value: T)

  /** A 21-byte account address and a 10-byte token type id, as decoded from key or record bytes. */
  datatype Address = Address(bytes: Bytes)
  datatype Token = Token(id: Bytes)

  /** One trader-side fee record of a period; `splitDividendPool` decides which part is dividend pool. */
  datatype FeeAccount = FeeAccount(token: Bytes, baseAmount: nat, inviteBonusAmount: nat)

  /** The fees of one period and its "dividend finished" flag. */
  datatype DexFeesByPeriod = DexFeesByPeriod(feesForDividend: seq<FeeAccount>, finishDividend: bool)

  /** A stake history: checkpoints (period, amount), per address or global. */
  datatype VxFundCheckpoint = VxFundCheckpoint(period: PeriodId, amount: nat)
  datatype VxFunds = VxFunds(funds: seq<VxFundCheckpoint>)

  /**
   * What MatchVxFundsByPeriod reports: whether a checkpoint applies, the stake it resolves to,
   * whether the record must be saved again or deleted, and the record as it left the (possibly
   * compacting) match.
   */
  datatype VxMatch = VxMatch(found: bool, amount: nat, needUpdate: bool, needDelete: bool, compacted: VxFunds)

  /** The operator fee record of one (period, operator): per token, the fees of each market. */
  datatype MarketFee = MarketFee(marketId: int, amount: nat)
  datatype OperatorFeeAccount = OperatorFeeAccount(token: Bytes, marketFees: seq<MarketFee>)
  datatype OperatorFeesByPeriod = OperatorFeesByPeriod(operatorFees: seq<OperatorFeeAccount>)

  /** The event log entries the two settlements emit. */
  datatype Event =
    | FeeDividend(address: Address, token: Token, vxAmount: nat, amount: nat)
    | OperatorFeeDividend(operator: Address, fee: MarketFee)

  /**
   * The persisted state: the fee-by-period store, the global stake-sum record, the raw key/value
   * entries the storage iterators walk (per-address stake records and operator fee records),
   * the fund ledger and the event log.
   */
  datatype Db = Db(
    feesByPeriod: map<PeriodId, DexFeesByPeriod>,
    vxSumFunds: Option<VxFunds>,
    store: map<Bytes, Bytes>,
    funds: map<Address, map<Token, nat>>,
    events: seq<Event>)

  /** The error values a settlement returns (its writes so far stay in the state). */
  datatype Failure = BadFeeToken | BadStakeAddress | BadStakeRecord

  /** The panics: the enclosing transition is aborted and every write is discarded. */
  datatype Fault =
    | IteratorOpenFailed
    | IteratorFailed
    | BadOperatorKeyLength
    | BadOperatorRecord
    | BadOperatorAddress
    | BadOperatorToken

  datatype Outcome = Ok(db: Db) | Err(failure: Failure, db: Db) | Abort(fault: Fault)

  /**
   * A storage iterator over one key prefix: whether it could be opened, the entries it yields
   * (in ascending key-byte order), and whether it reports an error once they are exhausted.
   */
  datatype Entry = Entry(key: Bytes, value: Bytes)
  datatype Cursor = Cursor(opens: bool, entries: seq<Entry>, failsAtEnd: bool)

  /** The collaborators the settlement calls whose definitions are not part of this model. */
  datatype Env = Env(
    vxFundKeyPrefix: Bytes,
    operatorFeesKeyPrefix: Bytes,
    decodeAddress: Bytes -> Option<Address>,
    decodeToken: Bytes -> Option<Token>,
    decodeVxFunds: Bytes -> Option<VxFunds>,
    encodeVxFunds: VxFunds -> Bytes,
    decodeOperatorFees: Bytes -> Option<OperatorFeesByPeriod>,
    matchVxFunds: (VxFunds, PeriodId, bool) -> VxMatch,
    splitDividendPool: FeeAccount -> nat,
    isValidVxAmountForDividend: nat -> bool,
    listTokens: set<Token> -> seq<Token>)

  /** `ts` lists every element of `s` exactly once. */
  ghost predicate IsListing(ts: seq<Token>, s: set<Token>) {
    && (forall i, j :: 0 <= i < j < |ts| ==> ts[i] != ts[j])
    && (set t | t in ts) == s
  }

  /** MapToAmountWithTokens lists each pooled token once, in an order of its own. */
  ghost predicate ListsTokens(env: Env) {
    forall s: set<Token> :: IsListing(env.listTokens(s), s)
  }

  // ----- keys and iteration -----

  predicate HasPrefix(prefix: Bytes, key: Bytes) {
    |prefix| <= |key| && key[..|prefix|] == prefix
  }

  /** Strict lexicographic order on key bytes: the order the storage iterator yields keys in. */
  predicate KeyLess(a: Bytes, b: Bytes)
    decreases |a|
  {
    if a == [] then b != []
    else if b == [] then false
    else a[0] < b[0] || (a[0] == b[0] && KeyLess(a[1..], b[1..]))
  }

  function KeysOf(entries: seq<Entry>): set<Bytes> {
    set e | e in entries :: e.key
  }

  /**
   * `c` walks entries of `store` under `prefix`, in ascending key order; a cursor that does not fail
   * walks all of them, while one that fails stops after an ascending run of them, wherever the error struck.
   */
  ghost predicate CursorOver(store: map<Bytes, Bytes>, prefix: Bytes, c: Cursor) {
    && (forall i :: 0 <= i < |c.entries| ==>
          HasPrefix(prefix, c.entries[i].key) && c.entries[i].key in store && store[c.entries[i].key] == c.entries[i].value)
    && (forall i, j :: 0 <= i < j < |c.entries| ==> KeyLess(c.entries[i].key, c.entries[j].key))
    && (!c.failsAtEnd ==> forall k :: k in store && HasPrefix(prefix, k) ==> k in KeysOf(c.entries))
  }

  /** Uint64ToBytes: `width` bytes, most significant first. */
  function BigEndian(n: nat, width: nat): (b: Bytes)
    ensures |b| == width
  {
    if width == 0 then [] else BigEndian(n / 256, width - 1) + [(n % 256) as bv8]
  }

  // ----- the fund ledger -----

  function Amount(m: map<Token, nat>, t: Token): nat {
    if t in m then m[t] else 0
  }

  function Balance(funds: map<Address, map<Token, nat>>, a: Address, t: Token): nat {
    if a in funds then Amount(funds[a], t) else 0
  }

  /** UpdateFund: add `amounts` to the balances of `a`; the ledger is only ever credited. */
  function Credit(funds: map<Address, map<Token, nat>>, a: Address, amounts: map<Token, nat>): (f: map<Address, map<Token, nat>>)
    ensures forall t :: Balance(f, a, t) == Balance(funds, a, t) + Amount(amounts, t)
    ensures forall b, t :: b != a ==> Balance(f, b, t) == Balance(funds, b, t)
  {
    var held := if a in funds then funds[a] else map[];
    var credited: map<Token, nat> := map t | t in held.Keys + amounts.Keys :: Amount(held, t) + Amount(amounts, t);
    funds[a := credited]
  }

  // ----- what the event log records as paid -----

  /** The fee-dividend amount an event pays to (a, t). */
  function Payment(e: Event, a: Address, t: Token): nat {
    if e.FeeDividend? && e.address == a && e.token == t then e.amount else 0
  }

  /** The fee-dividend amount an event pays out of token t's pool. */
  function TokenPayment(e: Event, t: Token): nat {
    if e.FeeDividend? && e.token == t then e.amount else 0
  }

  function Paid(evs: seq<Event>, a: Address, t: Token): nat {
    if evs == [] then 0 else Paid(evs[..|evs| - 1], a, t) + Payment(evs[|evs| - 1], a, t)
  }

  function TokenPaid(evs: seq<Event>, t: Token): nat {
    if evs == [] then 0 else TokenPaid(evs[..|evs| - 1], t) + TokenPayment(evs[|evs| - 1], t)
  }

  /** The stake an event counts against token t's pool: the vx amount a fee-dividend event for t was shared by. */
  function TokenStakePart(e: Event, t: Token): nat {
    if e.FeeDividend? && e.token == t then e.vxAmount else 0
  }

  function TokenStake(evs: seq<Event>, t: Token): nat {
    if evs == [] then 0 else TokenStake(evs[..|evs| - 1], t) + TokenStakePart(evs[|evs| - 1], t)
  }

  /** Every balance moved by exactly what the fee-dividend events `evs` pay to it. */
  ghost predicate CreditedByEvents(f0: map<Address, map<Token, nat>>, f: map<Address, map<Token, nat>>, evs: seq<Event>) {
    forall a, t :: Balance(f, a, t) == Balance(f0, a, t) + Paid(evs, a, t)
  }
}
