/**
 * DoFeesDividend: settle every unfinished fee period up to a period among the stakers of the
 * mining token, in proportion to their stake, scanning the per-address stake records in key order.
 */
module FeeDividend {
  import opened DexStore
  import opened Allocator

  // ----- the periods to settle -----

  /** GetNotFinishDividendDexFeesByPeriodMap: every period up to `periodId` not yet finished, oldest first. */
  function UnfinishedPeriods(fees: map<PeriodId, DexFeesByPeriod>, periodId: PeriodId): (ps: seq<PeriodId>)
    ensures forall p :: p in ps <==> p in fees && p <= periodId && !fees[p].finishDividend
    ensures forall i, j :: 0 <= i < j < |ps| ==> ps[i] < ps[j]
    decreases periodId
  {
    var here := if periodId in fees && !fees[periodId].finishDividend then [periodId] else [];
    if periodId == 0 then here
    else
      var earlier := UnfinishedPeriods(fees, periodId - 1);
      assert forall k :: 0 <= k < |earlier| ==> earlier[k] in earlier;
      earlier + here
  }

  // ----- summing the dividend pools -----

  /** The fee-summing loop either sums every period (marking each) or stops at an undecodable token. */
  datatype PoolPhase =
    | Summed(pools: map<Token, nat>, fees: map<PeriodId, DexFeesByPeriod>)
    | BadToken(fees: map<PeriodId, DexFeesByPeriod>)

  /** Add each account's dividend part to its token's pool; None at the first token that does not decode. */
  function AddAccounts(env: Env, pools: map<Token, nat>, accounts: seq<FeeAccount>): Option<map<Token, nat>>
    decreases |accounts|
  {
    if accounts == [] then Some(pools)
    else
      match env.decodeToken(accounts[0].token)
      case None => None
      case Some(t) => AddAccounts(env, pools[t := Amount(pools, t) + env.splitDividendPool(accounts[0])], accounts[1..])
  }

  /** The pools summed over `periods`, each period marked finished once its fees are added. */
  function SumPeriods(env: Env, fees: map<PeriodId, DexFeesByPeriod>, pools: map<Token, nat>, periods: seq<PeriodId>): PoolPhase
    requires forall p :: p in periods ==> p in fees
    decreases |periods|
  {
    if periods == [] then Summed(pools, fees)
    else
      var fee := fees[periods[0]];
      match AddAccounts(env, pools, fee.feesForDividend)
      case None => BadToken(fees)
      case Some(added) => SumPeriods(env, fees[periods[0] := fee.(finishDividend := true)], added, periods[1..])
  }

  /** Reference: the dividend-eligible amount of token `t` among `accounts`. */
  function AccountsTotal(env: Env, accounts: seq<FeeAccount>, t: Token): nat {
    if accounts == [] then 0
    else (if env.decodeToken(accounts[0].token) == Some(t) then env.splitDividendPool(accounts[0]) else 0)
         + AccountsTotal(env, accounts[1..], t)
  }

  /** Reference: the dividend-eligible amount of token `t` over all of `periods`. */
  function PoolTotal(env: Env, fees: map<PeriodId, DexFeesByPeriod>, periods: seq<PeriodId>, t: Token): nat
    requires forall p :: p in periods ==> p in fees
  {
    if periods == [] then 0
    else AccountsTotal(env, fees[periods[0]].feesForDividend, t) + PoolTotal(env, fees, periods[1..], t)
  }

  /** Marking a period finished changes no period's fees. */
  ghost predicate MarksOnly(fees: map<PeriodId, DexFeesByPeriod>, marked: map<PeriodId, DexFeesByPeriod>, periods: seq<PeriodId>) {
    && marked.Keys == fees.Keys
    && (forall p :: p in fees && p !in periods ==> marked[p] == fees[p])
    && (forall p :: p in fees && p in periods ==>
          marked[p] == fees[p] || marked[p] == fees[p].(finishDividend := true))
  }

  lemma {:induction false} AddAccountsSums(env: Env, pools: map<Token, nat>, accounts: seq<FeeAccount>, t: Token)
    requires AddAccounts(env, pools, accounts).Some?
    ensures Amount(AddAccounts(env, pools, accounts).value, t) == Amount(pools, t) + AccountsTotal(env, accounts, t)
    decreases |accounts|
  {
    if accounts != [] {
      var t0 := env.decodeToken(accounts[0].token).value;
      AddAccountsSums(env, pools[t0 := Amount(pools, t0) + env.splitDividendPool(accounts[0])], accounts[1..], t);
    }
  }

  lemma {:induction false} PoolTotalIgnoresMarks(env: Env, fees: map<PeriodId, DexFeesByPeriod>, q: PeriodId, periods: seq<PeriodId>, t: Token)
    requires q in fees
    requires forall p :: p in periods ==> p in fees
    ensures PoolTotal(env, fees[q := fees[q].(finishDividend := true)], periods, t) == PoolTotal(env, fees, periods, t)
  {
    if periods != [] {
      PoolTotalIgnoresMarks(env, fees, q, periods[1..], t);
    }
  }

  /**
   * The fee-summing loop: each token's pool is that token's dividend-eligible amount over all the
   * collected periods, every collected period ends up finished, and nothing else in the store changes.
   */
  lemma {:induction false} SumPeriodsSums(env: Env, fees: map<PeriodId, DexFeesByPeriod>, pools: map<Token, nat>, periods: seq<PeriodId>)
    requires forall p :: p in periods ==> p in fees
    ensures var r := SumPeriods(env, fees, pools, periods);
      && MarksOnly(fees, r.fees, periods)
      && (r.Summed? ==>
            && (forall t :: Amount(r.pools, t) == Amount(pools, t) + PoolTotal(env, fees, periods, t))
            && (forall p :: p in periods ==> r.fees[p] == fees[p].(finishDividend := true)))
    decreases |periods|
  {
    if periods != [] {
      var q := periods[0];
      var fee := fees[q];
      match AddAccounts(env, pools, fee.feesForDividend)
      case None =>
      case Some(added) =>
        var fees' := fees[q := fee.(finishDividend := true)];
        SumPeriodsSums(env, fees', added, periods[1..]);
        var r := SumPeriods(env, fees', added, periods[1..]);
        assert r == SumPeriods(env, fees, pools, periods);
        if r.Summed? {
          forall t ensures Amount(r.pools, t) == Amount(pools, t) + PoolTotal(env, fees, periods, t) {
            AddAccountsSums(env, pools, fee.feesForDividend, t);
            PoolTotalIgnoresMarks(env, fees, q, periods[1..], t);
          }
          forall p | p in periods ensures r.fees[p] == fees[p].(finishDividend := true) {
            assert p == q || p in periods[1..];
          }
        }
    }
  }

  /** The fee-summing loop (lines 39-54 of the Go source), in period order. */
  method SumDividendPools(env: Env, fees: map<PeriodId, DexFeesByPeriod>, periods: seq<PeriodId>) returns (r: PoolPhase)
    requires forall p :: p in periods ==> p in fees
    ensures r == SumPeriods(env, fees, map[], periods)
  {
    var feeSumMap: map<Token, nat> := map[];
    var marked := fees;
    var i := 0;
    while i < |periods|
      invariant 0 <= i <= |periods|
      invariant forall p :: p in periods ==> p in marked
      invariant SumPeriods(env, marked, feeSumMap, periods[i..]) == SumPeriods(env, fees, map[], periods)
    {
      var fee := marked[periods[i]];
      var accounts := fee.feesForDividend;
      ghost var start := feeSumMap;
      var j := 0;
      while j < |accounts|
        invariant 0 <= j <= |accounts|
        invariant AddAccounts(env, feeSumMap, accounts[j..]) == AddAccounts(env, start, accounts)
      {
        var token := env.decodeToken(accounts[j].token);
        if token.None? {
          return BadToken(marked);
        }
        feeSumMap := feeSumMap[token.value := Amount(feeSumMap, token.value) + env.splitDividendPool(accounts[j])];
        j := j + 1;
      }
      marked := marked[periods[i] := fee.(finishDividend := true)];
      i := i + 1;
    }
    return Summed(feeSumMap, marked);
  }

  // ----- the stake scan -----

  /** One entry of feeSumWithTokens: a token, its summed pool and whether it is retired. */
  datatype Pool = Pool(token: Token, amount: nat, deleted: bool)

  /**
   * The scan's working state: the persisted state, the pools, feeSumMap (the tokens still to divide)
   * and, per token, the running accumulators feeSumLeavedMap and dividedVxAmtMap hold.
   */
  datatype Scan = Scan(db: Db, pools: seq<Pool>, active: map<Token, nat>, accs: map<Token, Accumulator>)

  /** The scan state after some of an address's tokens, and userFeeDividend so far. */
  datatype Divided = Divided(sc: Scan, dividend: map<Token, nat>)

  /** Pool `i` for the address `addr` holding stake `vx` (one pass of the token loop). */
  function DivideToken(total: nat, vx: nat, addr: Address, sc: Scan, dividend: map<Token, nat>, i: nat): (r: Divided)
    requires total > 0 && i < |sc.pools|
    ensures |r.sc.pools| == |sc.pools|
  {
    var p := sc.pools[i];
    if p.deleted then Divided(sc, dividend)
    else
      var acc := if p.token in sc.accs then sc.accs[p.token] else Accumulator(0, p.amount);
      var d := DivideByProportion(total, vx, p.amount, acc);
      var sc' := sc.(
        pools := if d.finished then sc.pools[i := p.(deleted := true)] else sc.pools,
        active := if d.finished then sc.active - {p.token} else sc.active,
        accs := sc.accs[p.token := d.acc],
        db := sc.db.(events := sc.db.events + [FeeDividend(addr, p.token, vx, d.share)]));
      Divided(sc', dividend[p.token := d.share])
  }

  /** The token loop from pool `i` on. */
  function DivideTokens(total: nat, vx: nat, addr: Address, sc: Scan, dividend: map<Token, nat>, i: nat): (r: Divided)
    requires total > 0 && i <= |sc.pools|
    ensures |r.sc.pools| == |sc.pools|
    decreases |sc.pools| - i
  {
    if i == |sc.pools| then Divided(sc, dividend)
    else
      var r := DivideToken(total, vx, addr, sc, dividend, i);
      DivideTokens(total, vx, addr, r.sc, r.dividend, i + 1)
  }

  /** The token loop for one eligible address (lines 113-129 of the Go source). */
  method DivideAmongTokens(total: nat, vx: nat, addr: Address, sc0: Scan) returns (sc: Scan, dividend: map<Token, nat>)
    requires total > 0
    ensures Divided(sc, dividend) == DivideTokens(total, vx, addr, sc0, map[], 0)
  {
    sc, dividend := sc0, map[];
    var i := 0;
    while i < |sc.pools|
      invariant 0 <= i <= |sc.pools| == |sc0.pools|
      invariant DivideTokens(total, vx, addr, sc, dividend, i) == DivideTokens(total, vx, addr, sc0, map[], 0)
    {
      var p := sc.pools[i];
      if !p.deleted {
        var acc := if p.token in sc.accs then sc.accs[p.token] else Accumulator(0, p.amount);
        var d := DivideByProportion(total, vx, p.amount, acc);
        dividend := dividend[p.token := d.share];
        if d.finished {
          sc := sc.(pools := sc.pools[i := p.(deleted := true)], active := sc.active - {p.token});
        }
        sc := sc.(accs := sc.accs[p.token := d.acc],
                  db := sc.db.(events := sc.db.events + [FeeDividend(addr, p.token, vx, d.share)]));
      }
      i := i + 1;
    }
  }

  /** What one iterator entry does to the scan: go on with a new state, or return an error. */
  datatype Visit = Next(sc: Scan) | Stop(failure: Failure)

  /** Delete the stake record, or save it compacted, as the match asks. */
  function Housekeep(env: Env, store: map<Bytes, Bytes>, key: Bytes, m: VxMatch): map<Bytes, Bytes> {
    if m.needDelete then store - {key}
    else if m.needUpdate then store[key := env.encodeVxFunds(m.compacted)]
    else store
  }

  /** One pass of the scan loop for an iterator entry (lines 81-132 of the Go source). */
  function VisitAddress(env: Env, total: nat, periodId: PeriodId, sc: Scan, e: Entry): Visit
    requires total > 0 && HasPrefix(env.vxFundKeyPrefix, e.key)
  {
    if |e.value| == 0 then Next(sc)
    else
      match env.decodeAddress(e.key[|env.vxFundKeyPrefix|..])
      case None => Stop(BadStakeAddress)
      case Some(addr) =>
        (match env.decodeVxFunds(e.value)
         case None => Stop(BadStakeRecord)
         case Some(funds) =>
           var m := env.matchVxFunds(funds, periodId, true);
           if !m.found then Next(sc)
           else
             var kept := sc.(db := sc.db.(store := Housekeep(env, sc.db.store, e.key, m)));
             if !env.isValidVxAmountForDividend(m.amount) then Next(kept)
             else
               var d := DivideTokens(total, m.amount, addr, kept, map[], 0);
               Next(d.sc.(db := d.sc.db.(funds := Credit(d.sc.db.funds, addr, d.dividend)))))
  }

  predicate UnderPrefix(prefix: Bytes, entries: seq<Entry>) {
    forall i :: 0 <= i < |entries| ==> HasPrefix(prefix, entries[i].key)
  }

  datatype ScanStatus = Completed | Failed(failure: Failure) | IteratorBroke
  datatype ScanEnd = ScanEnd(sc: Scan, status: ScanStatus)

  /** The scan loop over the remaining iterator entries: it stops once every token is retired. */
  function RunScan(env: Env, total: nat, periodId: PeriodId, sc: Scan, entries: seq<Entry>, failsAtEnd: bool): ScanEnd
    requires total > 0 && UnderPrefix(env.vxFundKeyPrefix, entries)
    decreases |entries|
  {
    if |sc.active| == 0 then ScanEnd(sc, Completed)
    else if entries == [] then ScanEnd(sc, if failsAtEnd then IteratorBroke else Completed)
    else
      match VisitAddress(env, total, periodId, sc, entries[0])
      case Stop(f) => ScanEnd(sc, Failed(f))
      case Next(sc') => RunScan(env, total, periodId, sc', entries[1..], failsAtEnd)
  }

  /** The scan loop (lines 70-133 of the Go source). */
  method ScanStakeholders(env: Env, total: nat, periodId: PeriodId, sc0: Scan, c: Cursor) returns (end: ScanEnd)
    requires total > 0 && UnderPrefix(env.vxFundKeyPrefix, c.entries)
    ensures end == RunScan(env, total, periodId, sc0, c.entries, c.failsAtEnd)
  {
    var sc := sc0;
    var i := 0;
    while |sc.active| > 0 && i < |c.entries|
      invariant 0 <= i <= |c.entries|
      invariant RunScan(env, total, periodId, sc, c.entries[i..], c.failsAtEnd) == RunScan(env, total, periodId, sc0, c.entries, c.failsAtEnd)
      decreases |c.entries| - i
    {
      var e := c.entries[i];
      assert c.entries[i..][0] == e && c.entries[i..][1..] == c.entries[i + 1..];
      if |e.value| > 0 {
        var address := env.decodeAddress(e.key[|env.vxFundKeyPrefix|..]);
        if address.None? {
          return ScanEnd(sc, Failed(BadStakeAddress));
        }
        var funds := env.decodeVxFunds(e.value);
        if funds.None? {
          return ScanEnd(sc, Failed(BadStakeRecord));
        }
        var m := env.matchVxFunds(funds.value, periodId, true);
        if m.found {
          if m.needDelete {
            sc := sc.(db := sc.db.(store := sc.db.store - {e.key}));
          } else if m.needUpdate {
            sc := sc.(db := sc.db.(store := sc.db.store[e.key := env.encodeVxFunds(m.compacted)]));
          }
          if env.isValidVxAmountForDividend(m.amount) {
            var dividend;
            sc, dividend := DivideAmongTokens(total, m.amount, address.value, sc);
            sc := sc.(db := sc.db.(funds := Credit(sc.db.funds, address.value, dividend)));
          }
        }
      }
      i := i + 1;
    }
    if |sc.active| == 0 {
      return ScanEnd(sc, Completed);
    }
    return ScanEnd(sc, if c.failsAtEnd then IteratorBroke else Completed);
  }

  // ----- the settlement -----

  /** The scan's starting state: MapToAmountWithTokens lists the pools, no accumulator is opened yet. */
  function StartScan(env: Env, db: Db, pools: map<Token, nat>): Scan {
    var tokens := env.listTokens(pools.Keys);
    Scan(db, seq(|tokens|, k requires 0 <= k < |tokens| => Pool(tokens[k], Amount(pools, tokens[k]), false)), pools, map[])
  }

  /** The settlement gets past its guards: periods to settle and a positive stake sum at `periodId`. */
  predicate PassesGuards(env: Env, db: Db, periodId: PeriodId) {
    && UnfinishedPeriods(db.feesByPeriod, periodId) != []
    && db.vxSumFunds.Some?
    && env.matchVxFunds(db.vxSumFunds.value, periodId, false).found
    && env.matchVxFunds(db.vxSumFunds.value, periodId, false).amount > 0
  }

  /** DoFeesDividend, as a function of the state before it. */
  function FeesDividend(env: Env, db: Db, periodId: PeriodId, c: Cursor): Outcome
    requires UnderPrefix(env.vxFundKeyPrefix, c.entries)
  {
    var periods := UnfinishedPeriods(db.feesByPeriod, periodId);
    if periods == [] then Ok(db)
    else if db.vxSumFunds.None? then Ok(db)
    else
      var m := env.matchVxFunds(db.vxSumFunds.value, periodId, false);
      if !m.found then Ok(db)
      else
        var db1 := if m.needUpdate then db.(vxSumFunds := Some(m.compacted)) else db;
        if m.amount == 0 then Ok(db1)
        else
          match SumPeriods(env, db1.feesByPeriod, map[], periods)
          case BadToken(fees) => Err(BadFeeToken, db1.(feesByPeriod := fees))
          case Summed(pools, fees) =>
            if !c.opens then Abort(IteratorOpenFailed)
            else
              var end := RunScan(env, m.amount, periodId, StartScan(env, db1.(feesByPeriod := fees), pools), c.entries, c.failsAtEnd);
              match end.status
              case Completed => Ok(end.sc.db)
              case Failed(f) => Err(f, end.sc.db)
              case IteratorBroke => Abort(IteratorFailed)
  }

  /** DoFeesDividend (lines 11-135 of the Go source). */
  method DoFeesDividend(env: Env, db: Db, periodId: PeriodId, c: Cursor) returns (r: Outcome)
    requires CursorOver(db.store, env.vxFundKeyPrefix, c)
    ensures r == FeesDividend(env, db, periodId, c)
  {
    var periods := UnfinishedPeriods(db.feesByPeriod, periodId);
    if |periods| == 0 {
      return Ok(db);
    }
    if db.vxSumFunds.None? {
      return Ok(db);
    }
    var m := env.matchVxFunds(db.vxSumFunds.value, periodId, false);
    if !m.found {
      return Ok(db);
    }
    var state := db;
    if m.needUpdate {
      state := state.(vxSumFunds := Some(m.compacted));
    }
    if m.amount == 0 {
      return Ok(state);
    }
    var phase := SumDividendPools(env, state.feesByPeriod, periods);
    if phase.BadToken? {
      return Err(BadFeeToken, state.(feesByPeriod := phase.fees));
    }
    state := state.(feesByPeriod := phase.fees);
    if !c.opens {
      return Abort(IteratorOpenFailed);
    }
    var end := ScanStakeholders(env, m.amount, periodId, StartScan(env, state, phase.pools), c);
    match end.status
    case Completed => r := Ok(end.sc.db);
    case Failed(f) => r := Err(f, end.sc.db);
    case IteratorBroke => r := Abort(IteratorFailed);
  }
}
