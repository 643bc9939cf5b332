/**
 * What DoFeesDividend promises: no pool leaks or is made up, the ledger moves by exactly the
 * dividend events, retired tokens stay retired, stake records are housekept whether or not the
 * address is eligible, the guards leave the periods for a later run, and a settled run is not repeated.
 */
module FeeDividendLemmas {
  import opened DexStore
  import opened Allocator
  import opened FeeDividend

  function PoolTokens(pools: seq<Pool>): set<Token> {
    set k | 0 <= k < |pools| :: pools[k].token
  }

  function ActiveTokens(pools: seq<Pool>): set<Token> {
    set k | 0 <= k < |pools| && !pools[k].deleted :: pools[k].token
  }

  function TokensBefore(pools: seq<Pool>, i: nat): set<Token>
    requires i <= |pools|
  {
    set k | 0 <= k < i :: pools[k].token
  }

  /** The number of pools from `i` on that are not retired. */
  function ActiveFrom(pools: seq<Pool>, i: nat): nat
    decreases |pools| - i
  {
    if i >= |pools| then 0 else (if pools[i].deleted then 0 else 1) + ActiveFrom(pools, i + 1)
  }

  ghost predicate DistinctTokens(pools: seq<Pool>) {
    forall i, j :: 0 <= i < j < |pools| ==> pools[i].token != pools[j].token
  }

  /** `after` is `before` with, at most, more tokens retired. */
  ghost predicate RetiresOnly(before: seq<Pool>, after: seq<Pool>) {
    && |after| == |before|
    && forall i :: 0 <= i < |before| ==>
         && after[i].token == before[i].token
         && after[i].amount == before[i].amount
         && (before[i].deleted ==> after[i].deleted)
  }

  /**
   * One token's books against the stake sum `total`: what was paid out of the pool plus what it has
   * left is the pool; the stake divided so far is the stake its events were shared by; the token is
   * retired exactly when nothing is left; and once the stake divided reaches `total` it is retired.
   */
  ghost predicate PoolAccounted(accs: map<Token, Accumulator>, p: Pool, paid: nat, staked: nat, total: nat) {
    if p.token in accs then
      && paid + accs[p.token].leave == p.amount
      && accs[p.token].divided == staked
      && (p.deleted <==> accs[p.token].leave == 0)
      && (staked >= total ==> p.deleted)
    else paid == 0 && staked == 0 && !p.deleted
  }

  /** The books of a scan, against the stake sum `total`, whose events from index `base` on are the ones this settlement emitted. */
  ghost predicate PoolBooks(sc: Scan, base: nat, total: nat) {
    && base <= |sc.db.events|
    && DistinctTokens(sc.pools)
    && sc.active.Keys == ActiveTokens(sc.pools)
    && (forall i :: 0 <= i < |sc.pools| ==>
          PoolAccounted(sc.accs, sc.pools[i], TokenPaid(sc.db.events[base..], sc.pools[i].token),
                        TokenStake(sc.db.events[base..], sc.pools[i].token), total))
    && (forall t :: t !in PoolTokens(sc.pools) ==> TokenPaid(sc.db.events[base..], t) == 0)
  }

  /** The ledger, once `addr` is credited its pending `dividend`, has moved by exactly the events `evs`. */
  ghost predicate LedgerPending(f0: map<Address, map<Token, nat>>, funds: map<Address, map<Token, nat>>,
                                evs: seq<Event>, addr: Address, dividend: map<Token, nat>) {
    forall a, t :: Balance(funds, a, t) + (if a == addr then Amount(dividend, t) else 0) == Balance(f0, a, t) + Paid(evs, a, t)
  }

  // ----- appending one event -----

  lemma PaidAppend(evs: seq<Event>, e: Event)
    ensures forall a, t :: Paid(evs + [e], a, t) == Paid(evs, a, t) + Payment(e, a, t)
    ensures forall t :: TokenPaid(evs + [e], t) == TokenPaid(evs, t) + TokenPayment(e, t)
    ensures forall t :: TokenStake(evs + [e], t) == TokenStake(evs, t) + TokenStakePart(e, t)
  {
    assert (evs + [e])[..|evs + [e]| - 1] == evs;
  }

  /** Retiring pool `i` removes its token from the active ones and from nothing else. */
  lemma RetireOne(pools: seq<Pool>, i: nat)
    requires i < |pools| && DistinctTokens(pools)
    ensures var pools' := pools[i := pools[i].(deleted := true)];
      && ActiveTokens(pools') == ActiveTokens(pools) - {pools[i].token}
      && PoolTokens(pools') == PoolTokens(pools)
      && DistinctTokens(pools')
  {
    var pools' := pools[i := pools[i].(deleted := true)];
    forall x ensures x in ActiveTokens(pools') <==> x in ActiveTokens(pools) - {pools[i].token} {
      if x in ActiveTokens(pools') {
        var k :| 0 <= k < |pools'| && !pools'[k].deleted && pools'[k].token == x;
        assert k != i && pools[k] == pools'[k];
      }
      if x in ActiveTokens(pools) - {pools[i].token} {
        var k :| 0 <= k < |pools| && !pools[k].deleted && pools[k].token == x;
        assert k != i && pools[k] == pools'[k];
      }
    }
    forall x ensures x in PoolTokens(pools') <==> x in PoolTokens(pools) {
      if x in PoolTokens(pools') {
        var k :| 0 <= k < |pools'| && pools'[k].token == x;
        assert pools[k].token == x;
      }
      if x in PoolTokens(pools) {
        var k :| 0 <= k < |pools| && pools[k].token == x;
        assert pools'[k].token == x;
      }
    }
  }

  // ----- the token loop -----

  /** The pool list after one pass: at most pool `i` is retired, and the token sets follow. */
  lemma DivideTokenPools(total: nat, vx: nat, addr: Address, sc: Scan, dividend: map<Token, nat>, i: nat)
    requires total > 0 && i < |sc.pools|
    requires DistinctTokens(sc.pools) && sc.active.Keys == ActiveTokens(sc.pools)
    ensures var r := DivideToken(total, vx, addr, sc, dividend, i);
      && DistinctTokens(r.sc.pools)
      && r.sc.active.Keys == ActiveTokens(r.sc.pools)
      && PoolTokens(r.sc.pools) == PoolTokens(sc.pools)
      && RetiresOnly(sc.pools, r.sc.pools)
      && (forall j :: 0 <= j < |sc.pools| && j != i ==> r.sc.pools[j] == sc.pools[j])
      && r.sc.db.funds == sc.db.funds
  {
    var p := sc.pools[i];
    if !p.deleted {
      var acc := if p.token in sc.accs then sc.accs[p.token] else Accumulator(0, p.amount);
      var d := DivideByProportion(total, vx, p.amount, acc);
      if d.finished {
        RetireOne(sc.pools, i);
      }
    }
  }

  /** One pass keeps every pool's books: the event it appends is paid out of exactly one pool, the one it updates. */
  lemma DivideTokenAccounts(total: nat, vx: nat, addr: Address, sc: Scan, dividend: map<Token, nat>, i: nat, base: nat)
    requires total > 0 && i < |sc.pools|
    requires PoolBooks(sc, base, total)
    ensures PoolBooks(DivideToken(total, vx, addr, sc, dividend, i).sc, base, total)
  {
    if sc.pools[i].deleted {
      assert DivideToken(total, vx, addr, sc, dividend, i).sc == sc;
    } else {
      DivideTokenActiveAccounts(total, vx, addr, sc, dividend, i, base);
    }
  }

  lemma DivideTokenActiveAccounts(total: nat, vx: nat, addr: Address, sc: Scan, dividend: map<Token, nat>, i: nat, base: nat)
    requires total > 0 && i < |sc.pools| && !sc.pools[i].deleted
    requires PoolBooks(sc, base, total)
    ensures PoolBooks(DivideToken(total, vx, addr, sc, dividend, i).sc, base, total)
  {
    DivideTokenPools(total, vx, addr, sc, dividend, i);
    var evs := sc.db.events[base..];
    assert PoolAccounted(sc.accs, sc.pools[i], TokenPaid(evs, sc.pools[i].token), TokenStake(evs, sc.pools[i].token), total);
    DivideTokenOwnPool(total, vx, addr, sc, dividend, i, base);
    DivideTokenOtherPools(total, vx, addr, sc, dividend, i, base);
    DivideTokenNoStrayPayments(total, vx, addr, sc, dividend, i, base);
  }

  /** A pass pays nothing out of a token that has no pool. */
  lemma DivideTokenNoStrayPayments(total: nat, vx: nat, addr: Address, sc: Scan, dividend: map<Token, nat>, i: nat, base: nat)
    requires total > 0 && i < |sc.pools| && !sc.pools[i].deleted
    requires PoolBooks(sc, base, total)
    ensures var r := DivideToken(total, vx, addr, sc, dividend, i);
      forall t :: t !in PoolTokens(r.sc.pools) ==> TokenPaid(r.sc.db.events[base..], t) == 0
  {
    var r := DivideToken(total, vx, addr, sc, dividend, i);
    var p := sc.pools[i];
    var evs := sc.db.events[base..];
    var e := FeeDividend(addr, p.token, vx, r.dividend[p.token]);
    DivideTokenPools(total, vx, addr, sc, dividend, i);
    assert PoolAccounted(sc.accs, p, TokenPaid(evs, p.token), TokenStake(evs, p.token), total);
    DivideTokenOwnPool(total, vx, addr, sc, dividend, i, base);
    PaidAppend(evs, e);
    assert p.token in PoolTokens(sc.pools);
    forall t | t !in PoolTokens(r.sc.pools) ensures TokenPaid(r.sc.db.events[base..], t) == 0 {
      assert TokenPaid(evs, t) == 0;
    }
  }

  /** The pool a pass divides: its payout, its remainder and the stake divided move together. */
  lemma DivideTokenOwnPool(total: nat, vx: nat, addr: Address, sc: Scan, dividend: map<Token, nat>, i: nat, base: nat)
    requires total > 0 && i < |sc.pools| && !sc.pools[i].deleted && base <= |sc.db.events|
    requires var evs := sc.db.events[base..];
      PoolAccounted(sc.accs, sc.pools[i], TokenPaid(evs, sc.pools[i].token), TokenStake(evs, sc.pools[i].token), total)
    ensures var r := DivideToken(total, vx, addr, sc, dividend, i);
      && r.sc.db.events[base..] == sc.db.events[base..] + [FeeDividend(addr, sc.pools[i].token, vx, r.dividend[sc.pools[i].token])]
      && PoolAccounted(r.sc.accs, r.sc.pools[i], TokenPaid(r.sc.db.events[base..], r.sc.pools[i].token),
                       TokenStake(r.sc.db.events[base..], r.sc.pools[i].token), total)
  {
    var r := DivideToken(total, vx, addr, sc, dividend, i);
    var p := sc.pools[i];
    var acc := if p.token in sc.accs then sc.accs[p.token] else Accumulator(0, p.amount);
    var d := DivideByProportion(total, vx, p.amount, acc);
    var e := FeeDividend(addr, p.token, vx, d.share);
    var evs := sc.db.events[base..];
    assert r.sc.db.events[base..] == evs + [e];
    PaidAppend(evs, e);
    assert r.sc.accs[p.token] == d.acc && r.sc.pools[i] == p.(deleted := d.finished);
    assert TokenPaid(evs + [e], p.token) == TokenPaid(evs, p.token) + d.share;
    assert TokenStake(evs + [e], p.token) == TokenStake(evs, p.token) + vx;
  }

  /** The pools a pass does not divide keep their books: the event it appends is for another token. */
  lemma DivideTokenOtherPools(total: nat, vx: nat, addr: Address, sc: Scan, dividend: map<Token, nat>, i: nat, base: nat)
    requires total > 0 && i < |sc.pools| && !sc.pools[i].deleted
    requires PoolBooks(sc, base, total)
    ensures var r := DivideToken(total, vx, addr, sc, dividend, i);
      forall j :: 0 <= j < |r.sc.pools| && j != i ==>
        PoolAccounted(r.sc.accs, r.sc.pools[j], TokenPaid(r.sc.db.events[base..], r.sc.pools[j].token),
                      TokenStake(r.sc.db.events[base..], r.sc.pools[j].token), total)
  {
    var r := DivideToken(total, vx, addr, sc, dividend, i);
    var p := sc.pools[i];
    var acc := if p.token in sc.accs then sc.accs[p.token] else Accumulator(0, p.amount);
    var d := DivideByProportion(total, vx, p.amount, acc);
    var e := FeeDividend(addr, p.token, vx, d.share);
    var evs := sc.db.events[base..];
    assert r.sc.db.events[base..] == evs + [e];
    PaidAppend(evs, e);
    forall j | 0 <= j < |r.sc.pools| && j != i
      ensures PoolAccounted(r.sc.accs, r.sc.pools[j], TokenPaid(evs + [e], r.sc.pools[j].token),
                            TokenStake(evs + [e], r.sc.pools[j].token), total)
    {
      assert sc.pools[j].token != p.token;
      assert r.sc.pools[j] == sc.pools[j];
      assert PoolAccounted(sc.accs, sc.pools[j], TokenPaid(evs, sc.pools[j].token), TokenStake(evs, sc.pools[j].token), total);
    }
  }

  /** One pass adds to `dividend` at most the token of pool `i`. */
  lemma DivideTokenDividendKeys(total: nat, vx: nat, addr: Address, sc: Scan, dividend: map<Token, nat>, i: nat)
    requires total > 0 && i < |sc.pools|
    requires dividend.Keys <= TokensBefore(sc.pools, i)
    ensures var r := DivideToken(total, vx, addr, sc, dividend, i);
      && r.dividend.Keys <= dividend.Keys + {sc.pools[i].token}
      && r.dividend.Keys <= TokensBefore(r.sc.pools, i + 1)
  {
    var r := DivideToken(total, vx, addr, sc, dividend, i);
    DivideTokenPoolsKept(total, vx, addr, sc, dividend, i);
    forall x | x in TokensBefore(sc.pools, i) ensures x in TokensBefore(r.sc.pools, i + 1) {
      var k :| 0 <= k < i && sc.pools[k].token == x;
      assert r.sc.pools[k].token == x;
    }
    assert r.sc.pools[i].token == sc.pools[i].token;
  }

  /** One pass keeps every pool's token and amount. */
  lemma DivideTokenPoolsKept(total: nat, vx: nat, addr: Address, sc: Scan, dividend: map<Token, nat>, i: nat)
    requires total > 0 && i < |sc.pools|
    ensures RetiresOnly(sc.pools, DivideToken(total, vx, addr, sc, dividend, i).sc.pools)
  {
  }

  /** One pass keeps the pending ledger: the share the event records is the share added to `dividend`. */
  lemma DivideTokenLedger(total: nat, vx: nat, addr: Address, sc: Scan, dividend: map<Token, nat>, i: nat,
                          f0: map<Address, map<Token, nat>>, base: nat)
    requires total > 0 && i < |sc.pools| && base <= |sc.db.events|
    requires sc.pools[i].token !in dividend
    requires LedgerPending(f0, sc.db.funds, sc.db.events[base..], addr, dividend)
    ensures var r := DivideToken(total, vx, addr, sc, dividend, i);
      LedgerPending(f0, r.sc.db.funds, r.sc.db.events[base..], addr, r.dividend)
  {
    var r := DivideToken(total, vx, addr, sc, dividend, i);
    var p := sc.pools[i];
    if !p.deleted {
      var acc := if p.token in sc.accs then sc.accs[p.token] else Accumulator(0, p.amount);
      var d := DivideByProportion(total, vx, p.amount, acc);
      var e := FeeDividend(addr, p.token, vx, d.share);
      var evs := sc.db.events[base..];
      assert r.sc.db.events[base..] == evs + [e];
      PaidAppend(evs, e);
      assert r.sc.db.funds == sc.db.funds && r.dividend == dividend[p.token := d.share];
      forall a, t
        ensures Balance(r.sc.db.funds, a, t) + (if a == addr then Amount(r.dividend, t) else 0)
             == Balance(f0, a, t) + Paid(evs + [e], a, t)
      {
        assert Amount(r.dividend, t) == Amount(dividend, t) + (if t == p.token then d.share else 0);
        assert Payment(e, a, t) == (if a == addr && t == p.token then d.share else 0);
      }
    }
  }

  /** Pool `i`'s token is not among those of earlier pools. */
  lemma TokenNotBefore(pools: seq<Pool>, i: nat)
    requires i < |pools| && DistinctTokens(pools)
    ensures pools[i].token !in TokensBefore(pools, i)
  {
    forall k | 0 <= k < i ensures pools[k].token != pools[i].token { }
  }

  /** The loop invariant of the token loop for one eligible address. */
  ghost predicate DividingBooks(f0: map<Address, map<Token, nat>>, base: nat, total: nat, addr: Address, d: Divided, i: nat) {
    && i <= |d.sc.pools|
    && PoolBooks(d.sc, base, total)
    && LedgerPending(f0, d.sc.db.funds, d.sc.db.events[base..], addr, d.dividend)
    && d.dividend.Keys <= TokensBefore(d.sc.pools, i)
  }

  lemma RetiresOnlyTransitive(a: seq<Pool>, b: seq<Pool>, c: seq<Pool>)
    requires RetiresOnly(a, b) && RetiresOnly(b, c)
    ensures RetiresOnly(a, c)
  {
  }

  /** The whole token loop for one eligible address keeps the books and the pending ledger. */
  lemma {:induction false} DivideTokensKeepsBooks(total: nat, vx: nat, addr: Address, sc: Scan, dividend: map<Token, nat>, i: nat,
                                                  f0: map<Address, map<Token, nat>>, base: nat)
    requires total > 0
    requires DividingBooks(f0, base, total, addr, Divided(sc, dividend), i)
    ensures var r := DivideTokens(total, vx, addr, sc, dividend, i);
      DividingBooks(f0, base, total, addr, r, |r.sc.pools|) && RetiresOnly(sc.pools, r.sc.pools)
    decreases |sc.pools| - i
  {
    if i < |sc.pools| {
      var r := DivideToken(total, vx, addr, sc, dividend, i);
      DivideTokenPools(total, vx, addr, sc, dividend, i);
      DivideTokenAccounts(total, vx, addr, sc, dividend, i, base);
      TokenNotBefore(sc.pools, i);
      DivideTokenDividendKeys(total, vx, addr, sc, dividend, i);
      DivideTokenLedger(total, vx, addr, sc, dividend, i, f0, base);
      assert DividingBooks(f0, base, total, addr, r, i + 1);
      DivideTokensKeepsBooks(total, vx, addr, r.sc, r.dividend, i + 1, f0, base);
      var r2 := DivideTokens(total, vx, addr, sc, dividend, i);
      assert r2 == DivideTokens(total, vx, addr, r.sc, r.dividend, i + 1);
      RetiresOnlyTransitive(sc.pools, r.sc.pools, r2.sc.pools);
    } else {
      assert DivideTokens(total, vx, addr, sc, dividend, i) == Divided(sc, dividend);
    }
  }

  lemma {:induction false} ActiveFromSuffix(before: seq<Pool>, after: seq<Pool>, i: nat)
    requires |before| == |after|
    requires forall j :: i <= j < |before| ==> after[j] == before[j]
    ensures ActiveFrom(after, i) == ActiveFrom(before, i)
    decreases |before| - i
  {
    if i < |before| {
      ActiveFromSuffix(before, after, i + 1);
    }
  }

  /**
   * The token loop writes only the event log, and appends exactly one fee-dividend event for the
   * address per token still active, even when its share is 0.
   */
  lemma {:induction false} DivideTokensEmits(total: nat, vx: nat, addr: Address, sc: Scan, dividend: map<Token, nat>, i: nat)
    requires total > 0 && i <= |sc.pools|
    ensures var r := DivideTokens(total, vx, addr, sc, dividend, i);
      && r.sc.db == sc.db.(events := r.sc.db.events)
      && sc.db.events <= r.sc.db.events
      && |r.sc.db.events| == |sc.db.events| + ActiveFrom(sc.pools, i)
      && (forall k :: |sc.db.events| <= k < |r.sc.db.events| ==>
            r.sc.db.events[k].FeeDividend? && r.sc.db.events[k].address == addr && r.sc.db.events[k].vxAmount == vx)
    decreases |sc.pools| - i
  {
    if i < |sc.pools| {
      var r1 := DivideToken(total, vx, addr, sc, dividend, i);
      DivideTokensEmits(total, vx, addr, r1.sc, r1.dividend, i + 1);
      ActiveFromSuffix(sc.pools, r1.sc.pools, i + 1);
    }
  }

  // ----- one address -----

  /** Crediting the pending dividend settles the ledger: it has then moved by exactly the events. */
  lemma CreditSettles(f0: map<Address, map<Token, nat>>, funds: map<Address, map<Token, nat>>, evs: seq<Event>,
                      addr: Address, dividend: map<Token, nat>)
    requires LedgerPending(f0, funds, evs, addr, dividend)
    ensures CreditedByEvents(f0, Credit(funds, addr, dividend), evs)
  {
  }

  /** An eligible address: its token loop and the credit that follows keep the books. */
  lemma EligibleKeepsBooks(total: nat, vx: nat, addr: Address, sc: Scan, f0: map<Address, map<Token, nat>>, base: nat)
    requires total > 0
    requires PoolBooks(sc, base, total) && CreditedByEvents(f0, sc.db.funds, sc.db.events[base..])
    ensures var d := DivideTokens(total, vx, addr, sc, map[], 0);
            var sc' := d.sc.(db := d.sc.db.(funds := Credit(d.sc.db.funds, addr, d.dividend)));
      && PoolBooks(sc', base, total)
      && CreditedByEvents(f0, sc'.db.funds, sc'.db.events[base..])
      && RetiresOnly(sc.pools, sc'.pools)
  {
    assert LedgerPending(f0, sc.db.funds, sc.db.events[base..], addr, map[]);
    DivideTokensKeepsBooks(total, vx, addr, sc, map[], 0, f0, base);
    var d := DivideTokens(total, vx, addr, sc, map[], 0);
    CreditSettles(f0, d.sc.db.funds, d.sc.db.events[base..], addr, d.dividend);
    var sc' := d.sc.(db := d.sc.db.(funds := Credit(d.sc.db.funds, addr, d.dividend)));
    assert sc'.db.events == d.sc.db.events && sc'.pools == d.sc.pools && sc'.accs == d.sc.accs && sc'.active == d.sc.active;
  }

  /** One address keeps the books: the ledger moves by exactly the events, and only retirements change the pools. */
  lemma VisitAddressKeepsBooks(env: Env, total: nat, periodId: PeriodId, sc: Scan, e: Entry,
                               f0: map<Address, map<Token, nat>>, base: nat)
    requires total > 0 && HasPrefix(env.vxFundKeyPrefix, e.key)
    requires PoolBooks(sc, base, total) && CreditedByEvents(f0, sc.db.funds, sc.db.events[base..])
    ensures var v := VisitAddress(env, total, periodId, sc, e);
      v.Next? ==>
        && PoolBooks(v.sc, base, total)
        && CreditedByEvents(f0, v.sc.db.funds, v.sc.db.events[base..])
        && RetiresOnly(sc.pools, v.sc.pools)
  {
    var v := VisitAddress(env, total, periodId, sc, e);
    if v.Next? && |e.value| > 0 {
      var addr := env.decodeAddress(e.key[|env.vxFundKeyPrefix|..]).value;
      var m := env.matchVxFunds(env.decodeVxFunds(e.value).value, periodId, true);
      if m.found {
        var kept := sc.(db := sc.db.(store := Housekeep(env, sc.db.store, e.key, m)));
        assert kept.db.events == sc.db.events && kept.db.funds == sc.db.funds && kept.pools == sc.pools;
        assert kept.accs == sc.accs && kept.active == sc.active;
        if env.isValidVxAmountForDividend(m.amount) {
          EligibleKeepsBooks(total, m.amount, addr, kept, f0, base);
        }
      }
    }
  }

  /**
   * Housekeeping comes before the eligibility check: a matched record is deleted or saved compacted
   * as the match asks, and an ineligible address gets no credit and no event.
   */
  lemma VisitAddressHousekeeping(env: Env, total: nat, periodId: PeriodId, sc: Scan, e: Entry)
    requires total > 0 && HasPrefix(env.vxFundKeyPrefix, e.key) && |e.value| > 0
    requires env.decodeAddress(e.key[|env.vxFundKeyPrefix|..]).Some?
    requires env.decodeVxFunds(e.value).Some?
    ensures var m := env.matchVxFunds(env.decodeVxFunds(e.value).value, periodId, true);
            var v := VisitAddress(env, total, periodId, sc, e);
      && v.Next?
      && (!m.found ==> v.sc == sc)
      && (m.found ==> v.sc.db.store == Housekeep(env, sc.db.store, e.key, m))
      && (m.found && m.needDelete ==> e.key !in v.sc.db.store)
      && (m.found && !env.isValidVxAmountForDividend(m.amount) ==>
            v.sc == sc.(db := sc.db.(store := Housekeep(env, sc.db.store, e.key, m))))
  {
    var addr := env.decodeAddress(e.key[|env.vxFundKeyPrefix|..]).value;
    var m := env.matchVxFunds(env.decodeVxFunds(e.value).value, periodId, true);
    if m.found && env.isValidVxAmountForDividend(m.amount) {
      var kept := sc.(db := sc.db.(store := Housekeep(env, sc.db.store, e.key, m)));
      DivideTokensEmits(total, m.amount, addr, kept, map[], 0);
    }
  }

  /** Neither the fee store nor the stake sum is touched by one address; the log only grows. */
  lemma VisitAddressFrame(env: Env, total: nat, periodId: PeriodId, sc: Scan, e: Entry)
    requires total > 0 && HasPrefix(env.vxFundKeyPrefix, e.key)
    ensures var v := VisitAddress(env, total, periodId, sc, e);
      v.Next? ==>
        && v.sc.db.feesByPeriod == sc.db.feesByPeriod
        && v.sc.db.vxSumFunds == sc.db.vxSumFunds
        && sc.db.events <= v.sc.db.events
  {
    var v := VisitAddress(env, total, periodId, sc, e);
    if v.Next? && |e.value| > 0 {
      var addr := env.decodeAddress(e.key[|env.vxFundKeyPrefix|..]).value;
      var m := env.matchVxFunds(env.decodeVxFunds(e.value).value, periodId, true);
      if m.found && env.isValidVxAmountForDividend(m.amount) {
        var kept := sc.(db := sc.db.(store := Housekeep(env, sc.db.store, e.key, m)));
        DivideTokensEmits(total, m.amount, addr, kept, map[], 0);
      }
    }
  }

  // ----- the scan -----

  /**
   * The scan keeps the books to its end: for every token, what the events paid out of its pool plus
   * what is left is the pool; the stake divided is what its events were shared by, and a token whose
   * divided stake reached `total` is retired; a retired token has nothing left, so it was paid out
   * exactly; the ledger moved by exactly the events; and a retired token is never revived.
   */
  lemma {:induction false} RunScanKeepsBooks(env: Env, total: nat, periodId: PeriodId, sc: Scan, entries: seq<Entry>,
                                             failsAtEnd: bool, f0: map<Address, map<Token, nat>>, base: nat)
    requires total > 0 && UnderPrefix(env.vxFundKeyPrefix, entries)
    requires PoolBooks(sc, base, total) && CreditedByEvents(f0, sc.db.funds, sc.db.events[base..])
    ensures var end := RunScan(env, total, periodId, sc, entries, failsAtEnd);
      && PoolBooks(end.sc, base, total)
      && CreditedByEvents(f0, end.sc.db.funds, end.sc.db.events[base..])
      && RetiresOnly(sc.pools, end.sc.pools)
      && end.sc.db.feesByPeriod == sc.db.feesByPeriod
      && end.sc.db.vxSumFunds == sc.db.vxSumFunds
      && sc.db.events <= end.sc.db.events
    decreases |entries|
  {
    if |sc.active| > 0 && entries != [] {
      var v := VisitAddress(env, total, periodId, sc, entries[0]);
      VisitAddressKeepsBooks(env, total, periodId, sc, entries[0], f0, base);
      VisitAddressFrame(env, total, periodId, sc, entries[0]);
      if v.Next? {
        RunScanKeepsBooks(env, total, periodId, v.sc, entries[1..], failsAtEnd, f0, base);
      }
    }
  }

  // ----- the settlement -----

  lemma StartScanBooks(env: Env, db: Db, pools: map<Token, nat>, total: nat)
    requires ListsTokens(env)
    ensures var sc := StartScan(env, db, pools);
      && PoolBooks(sc, |db.events|, total)
      && CreditedByEvents(db.funds, sc.db.funds, sc.db.events[|db.events|..])
      && (forall k :: 0 <= k < |sc.pools| ==> sc.pools[k].amount == Amount(pools, sc.pools[k].token))
      && PoolTokens(sc.pools) == pools.Keys
  {
    var sc := StartScan(env, db, pools);
    var tokens := env.listTokens(pools.Keys);
    assert IsListing(tokens, pools.Keys);
    assert sc.db.events[|db.events|..] == [];
    forall x ensures x in PoolTokens(sc.pools) <==> x in pools.Keys {
      if x in pools.Keys {
        assert x in (set t | t in tokens);
        var k :| 0 <= k < |tokens| && tokens[k] == x;
        assert sc.pools[k].token == x;
      }
    }
    forall x ensures x in ActiveTokens(sc.pools) <==> x in PoolTokens(sc.pools) {
      if x in PoolTokens(sc.pools) {
        var k :| 0 <= k < |sc.pools| && sc.pools[k].token == x;
        assert !sc.pools[k].deleted;
      }
    }
  }

  /**
   * The scan from its starting state: the ledger moves by exactly the events, no pool is overdrawn,
   * and a token whose events were shared by stakes adding up to the stake sum `total` was paid
   * exactly its pool and is no longer active.
   */
  lemma ScanPays(env: Env, total: nat, periodId: PeriodId, db: Db, pools: map<Token, nat>, entries: seq<Entry>, failsAtEnd: bool)
    requires total > 0 && UnderPrefix(env.vxFundKeyPrefix, entries) && ListsTokens(env)
    ensures var end := RunScan(env, total, periodId, StartScan(env, db, pools), entries, failsAtEnd);
      && db.events <= end.sc.db.events
      && var evs := end.sc.db.events[|db.events|..];
      && CreditedByEvents(db.funds, end.sc.db.funds, evs)
      && (forall t :: TokenPaid(evs, t) <= Amount(pools, t))
      && (forall t :: TokenStake(evs, t) >= total ==> TokenPaid(evs, t) == Amount(pools, t) && t !in end.sc.active)
  {
    var sc := StartScan(env, db, pools);
    StartScanBooks(env, db, pools, total);
    RunScanKeepsBooks(env, total, periodId, sc, entries, failsAtEnd, db.funds, |db.events|);
    var end := RunScan(env, total, periodId, sc, entries, failsAtEnd);
    RetiresOnlyKeepsTokens(sc.pools, end.sc.pools);
    BooksSettle(end.sc, |db.events|, total, pools);
  }

  lemma RetiresOnlyKeepsTokens(before: seq<Pool>, after: seq<Pool>)
    requires RetiresOnly(before, after)
    ensures PoolTokens(after) == PoolTokens(before)
    ensures forall k :: 0 <= k < |after| ==> after[k].amount == before[k].amount
  {
    forall x ensures x in PoolTokens(after) <==> x in PoolTokens(before) {
      if x in PoolTokens(after) {
        var k :| 0 <= k < |after| && after[k].token == x;
        assert before[k].token == x;
      }
      if x in PoolTokens(before) {
        var k :| 0 <= k < |before| && before[k].token == x;
        assert after[k].token == x;
      }
    }
  }

  /**
   * What books kept against pools `pools` give per token: no pool is overdrawn, and once the stake
   * divided reaches `total` the token was paid exactly its pool and is no longer active.
   */
  lemma BooksSettle(sc: Scan, base: nat, total: nat, pools: map<Token, nat>)
    requires total > 0 && PoolBooks(sc, base, total) && PoolTokens(sc.pools) == pools.Keys
    requires forall k :: 0 <= k < |sc.pools| ==> sc.pools[k].amount == Amount(pools, sc.pools[k].token)
    ensures var evs := sc.db.events[base..];
      && (forall t :: TokenPaid(evs, t) <= Amount(pools, t))
      && (forall t :: TokenStake(evs, t) >= total ==> TokenPaid(evs, t) == Amount(pools, t) && t !in sc.active)
  {
    var evs := sc.db.events[base..];
    forall t ensures TokenPaid(evs, t) <= Amount(pools, t) && (TokenStake(evs, t) >= total ==> TokenPaid(evs, t) == Amount(pools, t) && t !in sc.active) {
      if t in PoolTokens(sc.pools) {
        var k :| 0 <= k < |sc.pools| && sc.pools[k].token == t;
        assert PoolAccounted(sc.accs, sc.pools[k], TokenPaid(evs, t), TokenStake(evs, t), total);
        if TokenStake(evs, t) >= total {
          assert sc.pools[k].deleted;
          forall j | 0 <= j < |sc.pools| && !sc.pools[j].deleted ensures sc.pools[j].token != t {
            assert j != k;
          }
        }
      } else {
        assert t !in ActiveTokens(sc.pools);
      }
    }
  }

  /**
   * Whatever the outcome short of an abort, the settlement only appends to the event log, moves the
   * ledger by exactly what its fee-dividend events pay, and pays out of each token no more than that
   * token's dividend-eligible fees over the periods it settles; a token whose events were shared by
   * stakes adding up to the period's stake sum was paid exactly those fees.
   */
  lemma FeesDividendPays(env: Env, db: Db, periodId: PeriodId, c: Cursor)
    requires UnderPrefix(env.vxFundKeyPrefix, c.entries) && ListsTokens(env)
    ensures var r := FeesDividend(env, db, periodId, c);
            var periods := UnfinishedPeriods(db.feesByPeriod, periodId);
      !r.Abort? ==>
        && db.events <= r.db.events
        && CreditedByEvents(db.funds, r.db.funds, r.db.events[|db.events|..])
        && (forall t :: TokenPaid(r.db.events[|db.events|..], t) <= PoolTotal(env, db.feesByPeriod, periods, t))
        && (PassesGuards(env, db, periodId) ==>
              forall t :: TokenStake(r.db.events[|db.events|..], t) >= env.matchVxFunds(db.vxSumFunds.value, periodId, false).amount ==>
                TokenPaid(r.db.events[|db.events|..], t) == PoolTotal(env, db.feesByPeriod, periods, t))
  {
    if !PassesGuards(env, db, periodId) {
      FeesDividendEarlyExit(env, db, periodId, c);
      NothingPaid(db.funds, db.events);
    } else {
      PastGuardsPays(env, db, periodId, c);
    }
  }

  /** FeesDividendPays for a settlement that gets past its guards, against the stake sum it found. */
  lemma PastGuardsPays(env: Env, db: Db, periodId: PeriodId, c: Cursor)
    requires UnderPrefix(env.vxFundKeyPrefix, c.entries) && ListsTokens(env) && PassesGuards(env, db, periodId)
    ensures var r := FeesDividend(env, db, periodId, c);
            var periods := UnfinishedPeriods(db.feesByPeriod, periodId);
            var total := env.matchVxFunds(db.vxSumFunds.value, periodId, false).amount;
      !r.Abort? ==>
        && db.events <= r.db.events
        && CreditedByEvents(db.funds, r.db.funds, r.db.events[|db.events|..])
        && (forall t :: TokenPaid(r.db.events[|db.events|..], t) <= PoolTotal(env, db.feesByPeriod, periods, t))
        && (forall t :: TokenStake(r.db.events[|db.events|..], t) >= total ==>
              TokenPaid(r.db.events[|db.events|..], t) == PoolTotal(env, db.feesByPeriod, periods, t))
  {
    var r := FeesDividend(env, db, periodId, c);
    var periods := UnfinishedPeriods(db.feesByPeriod, periodId);
    var m := env.matchVxFunds(db.vxSumFunds.value, periodId, false);
    var db1 := if m.needUpdate then db.(vxSumFunds := Some(m.compacted)) else db;
    var phase := SumPeriods(env, db1.feesByPeriod, map[], periods);
    if phase.BadToken? {
      assert r == Err(BadFeeToken, db1.(feesByPeriod := phase.fees));
      NothingPaid(db.funds, db.events);
    } else if c.opens {
      SumPeriodsSums(env, db1.feesByPeriod, map[], periods);
      var db2 := db1.(feesByPeriod := phase.fees);
      ScanPays(env, m.amount, periodId, db2, phase.pools, c.entries, c.failsAtEnd);
      var end := RunScan(env, m.amount, periodId, StartScan(env, db2, phase.pools), c.entries, c.failsAtEnd);
      assert !r.Abort? ==> r.db == end.sc.db;
    }
  }

  lemma NothingPaid(funds: map<Address, map<Token, nat>>, evs: seq<Event>)
    ensures CreditedByEvents(funds, funds, evs[|evs|..])
    ensures forall t :: TokenPaid(evs[|evs|..], t) == 0 && TokenStake(evs[|evs|..], t) == 0
  {
    assert evs[|evs|..] == [];
  }

  /**
   * The guards: with no period to settle, no stake-sum record, no stake sum at `periodId` or a zero
   * stake sum, the settlement succeeds having changed nothing but, possibly, the saved stake-sum
   * record; no period is marked finished and no balance is credited.
   */
  lemma FeesDividendEarlyExit(env: Env, db: Db, periodId: PeriodId, c: Cursor)
    requires UnderPrefix(env.vxFundKeyPrefix, c.entries)
    requires !PassesGuards(env, db, periodId)
    ensures var r := FeesDividend(env, db, periodId, c);
      && r.Ok?
      && r.db.(vxSumFunds := db.vxSumFunds) == db
      && (r.db.vxSumFunds != db.vxSumFunds ==>
            && db.vxSumFunds.Some?
            && var m := env.matchVxFunds(db.vxSumFunds.value, periodId, false);
               m.found && m.needUpdate && m.amount == 0 && r.db.vxSumFunds == Some(m.compacted))
  {
  }

  /**
   * Past the guards, unless a fee token failed to decode or the run aborted, every period collected
   * is marked finished and no other period changes.
   */
  lemma FeesDividendSettlesPeriods(env: Env, db: Db, periodId: PeriodId, c: Cursor)
    requires UnderPrefix(env.vxFundKeyPrefix, c.entries)
    requires PassesGuards(env, db, periodId)
    ensures var r := FeesDividend(env, db, periodId, c);
            var periods := UnfinishedPeriods(db.feesByPeriod, periodId);
      (r.Ok? || (r.Err? && r.failure != BadFeeToken)) ==>
        && r.db.feesByPeriod.Keys == db.feesByPeriod.Keys
        && (forall p :: p in periods ==> r.db.feesByPeriod[p] == db.feesByPeriod[p].(finishDividend := true))
        && (forall p :: p in db.feesByPeriod && p !in periods ==> r.db.feesByPeriod[p] == db.feesByPeriod[p])
  {
    var r := FeesDividend(env, db, periodId, c);
    var periods := UnfinishedPeriods(db.feesByPeriod, periodId);
    var m := env.matchVxFunds(db.vxSumFunds.value, periodId, false);
    var db1 := if m.needUpdate then db.(vxSumFunds := Some(m.compacted)) else db;
    SumPeriodsSums(env, db1.feesByPeriod, map[], periods);
    var phase := SumPeriods(env, db1.feesByPeriod, map[], periods);
    if phase.Summed? && c.opens {
      var sc := StartScan(env, db1.(feesByPeriod := phase.fees), phase.pools);
      RunScanFrame(env, m.amount, periodId, sc, c.entries, c.failsAtEnd);
    }
  }

  lemma {:induction false} RunScanFrame(env: Env, total: nat, periodId: PeriodId, sc: Scan, entries: seq<Entry>, failsAtEnd: bool)
    requires total > 0 && UnderPrefix(env.vxFundKeyPrefix, entries)
    ensures var end := RunScan(env, total, periodId, sc, entries, failsAtEnd);
      end.sc.db.feesByPeriod == sc.db.feesByPeriod && end.sc.db.vxSumFunds == sc.db.vxSumFunds
    decreases |entries|
  {
    if |sc.active| > 0 && entries != [] {
      var v := VisitAddress(env, total, periodId, sc, entries[0]);
      VisitAddressFrame(env, total, periodId, sc, entries[0]);
      if v.Next? {
        RunScanFrame(env, total, periodId, v.sc, entries[1..], failsAtEnd);
      }
    }
  }

  /** With every period up to `periodId` finished, there is nothing to settle. */
  lemma {:induction false} NoUnfinishedPeriods(fees: map<PeriodId, DexFeesByPeriod>, periodId: PeriodId)
    requires forall p :: p in fees && p <= periodId ==> fees[p].finishDividend
    ensures UnfinishedPeriods(fees, periodId) == []
    decreases periodId
  {
    if periodId > 0 {
      NoUnfinishedPeriods(fees, periodId - 1);
    }
  }

  /**
   * Idempotent settlement: once a run got past the guards and did not stop at a fee token, a second
   * run for the same period finds nothing to settle and changes nothing.
   */
  lemma SecondSettlementIsNoOp(env: Env, db: Db, periodId: PeriodId, c1: Cursor, c2: Cursor)
    requires UnderPrefix(env.vxFundKeyPrefix, c1.entries) && UnderPrefix(env.vxFundKeyPrefix, c2.entries)
    requires PassesGuards(env, db, periodId)
    requires var r := FeesDividend(env, db, periodId, c1); r.Ok? || (r.Err? && r.failure != BadFeeToken)
    ensures var db1 := FeesDividend(env, db, periodId, c1).db;
      FeesDividend(env, db1, periodId, c2) == Ok(db1)
  {
    var db1 := FeesDividend(env, db, periodId, c1).db;
    FeesDividendSettlesPeriods(env, db, periodId, c1);
    NoUnfinishedPeriods(db1.feesByPeriod, periodId);
  }

  /**
   * Deferred settlement: a settlement that gets past the guards also marks finished every period
   * still unfinished up to an earlier one, such as those an earlier run left behind at its guards
   * (by FeesDividendEarlyExit, such a run leaves the fee store as it was).
   */
  lemma DeferredPeriodsSettleLater(env: Env, db: Db, periodId: PeriodId, later: PeriodId, c: Cursor)
    requires UnderPrefix(env.vxFundKeyPrefix, c.entries)
    requires periodId <= later && PassesGuards(env, db, later)
    requires var r := FeesDividend(env, db, later, c); r.Ok? || (r.Err? && r.failure != BadFeeToken)
    ensures var r := FeesDividend(env, db, later, c);
      forall p :: p in UnfinishedPeriods(db.feesByPeriod, periodId) ==> p in r.db.feesByPeriod && r.db.feesByPeriod[p].finishDividend
  {
    FeesDividendSettlesPeriods(env, db, later, c);
  }
}
