/**
 * DoOperatorFeesDividend: the consume-once payout of one period's operator fee records. Every
 * record under the period's key prefix is deleted and its operator, the address in the key, is
 * credited the sum of its market fees per token, with one event per market fee.
 */
module OperatorDividend {
  import opened DexStore

  /** Key layout of an operator fee record: 3-byte prefix, 8-byte period, 21-byte operator address. */
  const OperatorKeyLength: nat := 32
  const OperatorAddressOffset: nat := 11

  /** userFund and the event log while one record is being paid out. */
  datatype Collected = Collected(fund: map<Token, nat>, events: seq<Event>)

  /** The market-fee loop of one token: each fee is added to the token's sum and logged. */
  function AddMarketFees(addr: Address, t: Token, col: Collected, fees: seq<MarketFee>): Collected
    decreases |fees|
  {
    if fees == [] then col
    else
      AddMarketFees(addr, t, Collected(col.fund[t := Amount(col.fund, t) + fees[0].amount],
                                       col.events + [OperatorFeeDividend(addr, fees[0])]), fees[1..])
  }

  /** The token loop of one record; None at the first token id that does not decode. */
  function CollectFees(env: Env, addr: Address, col: Collected, accounts: seq<OperatorFeeAccount>): Option<Collected>
    decreases |accounts|
  {
    if accounts == [] then Some(col)
    else
      match env.decodeToken(accounts[0].token)
      case None => None
      case Some(t) => CollectFees(env, addr, AddMarketFees(addr, t, col, accounts[0].marketFees), accounts[1..])
  }

  /** One non-empty record with a well-sized key: consume it, then decode, sum and credit (lines 158-183 of the Go source). */
  function SettleRecord(env: Env, db: Db, e: Entry): Outcome
    requires |e.key| == OperatorKeyLength
  {
    var consumed := db.(store := db.store - {e.key});
    match env.decodeOperatorFees(e.value)
    case None => Abort(BadOperatorRecord)
    case Some(rec) =>
      match env.decodeAddress(e.key[OperatorAddressOffset..])
      case None => Abort(BadOperatorAddress)
      case Some(addr) =>
        match CollectFees(env, addr, Collected(map[], consumed.events), rec.operatorFees)
        case None => Abort(BadOperatorToken)
        case Some(col) => Ok(consumed.(events := col.events, funds := Credit(consumed.funds, addr, col.fund)))
  }

  /** The iterator loop over the remaining entries. */
  function RunOperator(env: Env, db: Db, entries: seq<Entry>, failsAtEnd: bool): Outcome
    decreases |entries|
  {
    if entries == [] then (if failsAtEnd then Abort(IteratorFailed) else Ok(db))
    else if |entries[0].value| == 0 then RunOperator(env, db, entries[1..], failsAtEnd)
    else if |entries[0].key| != OperatorKeyLength then Abort(BadOperatorKeyLength)
    else
      var s := SettleRecord(env, db, entries[0]);
      if s.Ok? then RunOperator(env, s.db, entries[1..], failsAtEnd) else s
  }

  /** The key prefix of one period's operator fee records. */
  function PeriodPrefix(env: Env, periodId: PeriodId): Bytes {
    env.operatorFeesKeyPrefix + BigEndian(periodId, 8)
  }

  /** DoOperatorFeesDividend, as a function of the state before it. */
  function OperatorFeesDividend(env: Env, db: Db, periodId: PeriodId, c: Cursor): Outcome {
    if !c.opens then Abort(IteratorOpenFailed) else RunOperator(env, db, c.entries, c.failsAtEnd)
  }

  /** The market-fee loop (lines 174-181 of the Go source). */
  method AddMarketFeesLoop(addr: Address, t: Token, fund0: map<Token, nat>, events0: seq<Event>, fees: seq<MarketFee>)
    returns (fund: map<Token, nat>, events: seq<Event>)
    ensures Collected(fund, events) == AddMarketFees(addr, t, Collected(fund0, events0), fees)
  {
    fund, events := fund0, events0;
    var k := 0;
    while k < |fees|
      invariant 0 <= k <= |fees|
      invariant AddMarketFees(addr, t, Collected(fund, events), fees[k..]) == AddMarketFees(addr, t, Collected(fund0, events0), fees)
    {
      assert fees[k..][0] == fees[k] && fees[k..][1..] == fees[k + 1..];
      fund := fund[t := Amount(fund, t) + fees[k].amount];
      events := events + [OperatorFeeDividend(addr, fees[k])];
      k := k + 1;
    }
  }

  /** The body of the iterator loop for a non-empty record with a well-sized key (lines 158-183 of the Go source). */
  method PayOutRecord(env: Env, db: Db, e: Entry) returns (s: Outcome)
    requires |e.key| == OperatorKeyLength
    ensures s == SettleRecord(env, db, e)
  {
    var state := db.(store := db.store - {e.key});
    var rec := env.decodeOperatorFees(e.value);
    if rec.None? {
      return Abort(BadOperatorRecord);
    }
    var addr := env.decodeAddress(e.key[OperatorAddressOffset..]);
    if addr.None? {
      return Abort(BadOperatorAddress);
    }
    var accounts := rec.value.operatorFees;
    var userFund: map<Token, nat> := map[];
    var events := state.events;
    var j := 0;
    while j < |accounts|
      invariant 0 <= j <= |accounts|
      invariant CollectFees(env, addr.value, Collected(userFund, events), accounts[j..])
             == CollectFees(env, addr.value, Collected(map[], state.events), accounts)
    {
      assert accounts[j..][0] == accounts[j] && accounts[j..][1..] == accounts[j + 1..];
      var token := env.decodeToken(accounts[j].token);
      if token.None? {
        return Abort(BadOperatorToken);
      }
      userFund, events := AddMarketFeesLoop(addr.value, token.value, userFund, events, accounts[j].marketFees);
      j := j + 1;
    }
    return Ok(state.(events := events, funds := Credit(state.funds, addr.value, userFund)));
  }

  /** DoOperatorFeesDividend (lines 137-186 of the Go source). */
  method DoOperatorFeesDividend(env: Env, db: Db, periodId: PeriodId, c: Cursor) returns (r: Outcome)
    requires CursorOver(db.store, PeriodPrefix(env, periodId), c)
    ensures r == OperatorFeesDividend(env, db, periodId, c)
  {
    if !c.opens {
      return Abort(IteratorOpenFailed);
    }
    var state := db;
    var i := 0;
    while i < |c.entries|
      invariant 0 <= i <= |c.entries|
      invariant RunOperator(env, state, c.entries[i..], c.failsAtEnd) == RunOperator(env, db, c.entries, c.failsAtEnd)
    {
      var e := c.entries[i];
      assert c.entries[i..][0] == e && c.entries[i..][1..] == c.entries[i + 1..];
      if |e.value| > 0 {
        if |e.key| != OperatorKeyLength {
          return Abort(BadOperatorKeyLength);
        }
        var s := PayOutRecord(env, state, e);
        if !s.Ok? {
          return s;
        }
        state := s.db;
      }
      i := i + 1;
    }
    if c.failsAtEnd {
      return Abort(IteratorFailed);
    }
    return Ok(state);
  }

  // ----- reference definitions -----

  /** The sum of a list of market fees. */
  function FeeTotal(fees: seq<MarketFee>): nat {
    if fees == [] then 0 else fees[0].amount + FeeTotal(fees[1..])
  }

  /** Every market fee of a record, token by token, in record order. */
  function MarketFeesOf(accounts: seq<OperatorFeeAccount>): seq<MarketFee> {
    if accounts == [] then [] else accounts[0].marketFees + MarketFeesOf(accounts[1..])
  }

  /** One operator-fee-dividend event per market fee, in order. */
  function FeeEvents(addr: Address, fees: seq<MarketFee>): (evs: seq<Event>)
    ensures |evs| == |fees|
  {
    seq(|fees|, k requires 0 <= k < |fees| => OperatorFeeDividend(addr, fees[k]))
  }

  /** What a record owes its operator in token `t`: the fees of every market listed under `t`. */
  function OperatorDue(env: Env, accounts: seq<OperatorFeeAccount>, t: Token): nat {
    if accounts == [] then 0
    else (if env.decodeToken(accounts[0].token) == Some(t) then FeeTotal(accounts[0].marketFees) else 0)
         + OperatorDue(env, accounts[1..], t)
  }

  predicate TokensDecode(env: Env, accounts: seq<OperatorFeeAccount>) {
    forall k :: 0 <= k < |accounts| ==> env.decodeToken(accounts[k].token).Some?
  }

  /** A record the loop pays out: a 32-byte key, and a record, an address and token ids that all decode. */
  predicate Payable(env: Env, e: Entry) {
    && |e.key| == OperatorKeyLength
    && env.decodeOperatorFees(e.value).Some?
    && env.decodeAddress(e.key[OperatorAddressOffset..]).Some?
    && TokensDecode(env, env.decodeOperatorFees(e.value).value.operatorFees)
  }

  /** What entry `e` owes address `a` in token `t`. */
  function EntryDue(env: Env, e: Entry, a: Address, t: Token): nat {
    if |e.value| > 0 && Payable(env, e) && env.decodeAddress(e.key[OperatorAddressOffset..]).value == a
    then OperatorDue(env, env.decodeOperatorFees(e.value).value.operatorFees, t)
    else 0
  }

  function EntryEvents(env: Env, e: Entry): seq<Event> {
    if |e.value| > 0 && Payable(env, e)
    then FeeEvents(env.decodeAddress(e.key[OperatorAddressOffset..]).value,
                   MarketFeesOf(env.decodeOperatorFees(e.value).value.operatorFees))
    else []
  }

  function OperatorOwed(env: Env, entries: seq<Entry>, a: Address, t: Token): nat {
    if entries == [] then 0 else EntryDue(env, entries[0], a, t) + OperatorOwed(env, entries[1..], a, t)
  }

  function OperatorEvents(env: Env, entries: seq<Entry>): seq<Event> {
    if entries == [] then [] else EntryEvents(env, entries[0]) + OperatorEvents(env, entries[1..])
  }

  /** The keys of the non-empty records among `entries`: the ones the loop consumes. */
  function ConsumedKeys(entries: seq<Entry>): set<Bytes> {
    if entries == [] then {}
    else (if |entries[0].value| > 0 then {entries[0].key} else {}) + ConsumedKeys(entries[1..])
  }

  // ----- one record -----

  lemma FeeEventsAppend(addr: Address, a: seq<MarketFee>, b: seq<MarketFee>)
    ensures FeeEvents(addr, a + b) == FeeEvents(addr, a) + FeeEvents(addr, b)
  {
    assert forall k :: 0 <= k < |a + b| ==> FeeEvents(addr, a + b)[k] == (FeeEvents(addr, a) + FeeEvents(addr, b))[k];
  }

  /** The market-fee loop adds the token's fee total and logs one event per fee. */
  lemma {:induction false} AddMarketFeesSums(addr: Address, t: Token, col: Collected, fees: seq<MarketFee>)
    ensures var r := AddMarketFees(addr, t, col, fees);
      && r.events == col.events + FeeEvents(addr, fees)
      && forall u :: Amount(r.fund, u) == Amount(col.fund, u) + (if u == t then FeeTotal(fees) else 0)
    decreases |fees|
  {
    if fees != [] {
      var next := Collected(col.fund[t := Amount(col.fund, t) + fees[0].amount],
                            col.events + [OperatorFeeDividend(addr, fees[0])]);
      AddMarketFeesSums(addr, t, next, fees[1..]);
      assert fees == [fees[0]] + fees[1..];
      FeeEventsAppend(addr, [fees[0]], fees[1..]);
    }
  }

  /**
   * The token loop succeeds exactly when every token id decodes, and then has added what the
   * record owes per token and logged one event per market fee.
   */
  lemma {:induction false} CollectFeesSums(env: Env, addr: Address, col: Collected, accounts: seq<OperatorFeeAccount>)
    ensures var r := CollectFees(env, addr, col, accounts);
      && (r.Some? <==> TokensDecode(env, accounts))
      && (r.Some? ==>
            && r.value.events == col.events + FeeEvents(addr, MarketFeesOf(accounts))
            && forall u :: Amount(r.value.fund, u) == Amount(col.fund, u) + OperatorDue(env, accounts, u))
    decreases |accounts|
  {
    if accounts != [] {
      assert forall k :: 0 <= k < |accounts[1..]| ==> accounts[1..][k] == accounts[k + 1];
      match env.decodeToken(accounts[0].token)
      case None =>
      case Some(t) =>
        var next := AddMarketFees(addr, t, col, accounts[0].marketFees);
        AddMarketFeesSums(addr, t, col, accounts[0].marketFees);
        CollectFeesSums(env, addr, next, accounts[1..]);
        FeeEventsAppend(addr, accounts[0].marketFees, MarketFeesOf(accounts[1..]));
    }
  }

  /** One record: consumed, and on success its operator is credited what it owes and its events logged. */
  lemma SettleRecordPays(env: Env, db: Db, e: Entry)
    requires |e.key| == OperatorKeyLength && |e.value| > 0
    ensures var s := SettleRecord(env, db, e);
      && (s.Ok? <==> Payable(env, e))
      && !s.Err?
      && (s.Ok? ==>
            && s.db.store == db.store - {e.key}
            && s.db.feesByPeriod == db.feesByPeriod
            && s.db.vxSumFunds == db.vxSumFunds
            && s.db.events == db.events + EntryEvents(env, e)
            && forall a, t :: Balance(s.db.funds, a, t) == Balance(db.funds, a, t) + EntryDue(env, e, a, t))
  {
    var rec := env.decodeOperatorFees(e.value);
    var addr := env.decodeAddress(e.key[OperatorAddressOffset..]);
    if rec.Some? && addr.Some? {
      CollectFeesSums(env, addr.value, Collected(map[], db.events), rec.value.operatorFees);
    }
  }

  // ----- the iterator loop -----

  /**
   * The loop succeeds exactly when the iterator does not fail and every non-empty record is payable.
   * It never returns an error: every failure aborts.
   */
  lemma {:induction false} RunOperatorOutcome(env: Env, db: Db, entries: seq<Entry>, failsAtEnd: bool)
    ensures var r := RunOperator(env, db, entries, failsAtEnd);
      && !r.Err?
      && (r.Ok? <==> !failsAtEnd && forall k :: 0 <= k < |entries| && |entries[k].value| > 0 ==> Payable(env, entries[k]))
    decreases |entries|
  {
    if entries != [] {
      var e := entries[0];
      assert forall k :: 0 <= k < |entries[1..]| ==> entries[1..][k] == entries[k + 1];
      if |e.value| == 0 {
        RunOperatorOutcome(env, db, entries[1..], failsAtEnd);
      } else if |e.key| == OperatorKeyLength {
        SettleRecordPays(env, db, e);
        var s := SettleRecord(env, db, e);
        if s.Ok? {
          RunOperatorOutcome(env, s.db, entries[1..], failsAtEnd);
        }
      }
    }
  }

  /**
   * On success every non-empty record is consumed and nothing else is deleted, each operator is
   * credited exactly what its records owe, and one event is logged per market fee.
   */
  lemma RunOperatorSettles(env: Env, db: Db, entries: seq<Entry>, failsAtEnd: bool)
    ensures var r := RunOperator(env, db, entries, failsAtEnd);
      r.Ok? ==>
        && r.db.store == db.store - ConsumedKeys(entries)
        && r.db.feesByPeriod == db.feesByPeriod
        && r.db.vxSumFunds == db.vxSumFunds
        && r.db.events == db.events + OperatorEvents(env, entries)
        && forall a, t :: Balance(r.db.funds, a, t) == Balance(db.funds, a, t) + OperatorOwed(env, entries, a, t)
  {
    RunOperatorConsumes(env, db, entries, failsAtEnd);
    RunOperatorLogs(env, db, entries, failsAtEnd);
    RunOperatorCredits(env, db, entries, failsAtEnd);
  }

  /** On success the loop deleted exactly the non-empty records. */
  lemma {:induction false} RunOperatorConsumes(env: Env, db: Db, entries: seq<Entry>, failsAtEnd: bool)
    ensures var r := RunOperator(env, db, entries, failsAtEnd);
      r.Ok? ==> r.db.store == db.store - ConsumedKeys(entries)
    decreases |entries|
  {
    if entries != [] {
      var e := entries[0];
      if |e.value| == 0 {
        RunOperatorConsumes(env, db, entries[1..], failsAtEnd);
      } else if |e.key| == OperatorKeyLength {
        SettleRecordPays(env, db, e);
        var s := SettleRecord(env, db, e);
        if s.Ok? {
          RunOperatorConsumes(env, s.db, entries[1..], failsAtEnd);
          assert ConsumedKeys(entries) == {e.key} + ConsumedKeys(entries[1..]);
          assert db.store - {e.key} - ConsumedKeys(entries[1..]) == db.store - ConsumedKeys(entries);
        }
      }
    }
  }

  /** On success the loop logged one event per market fee, in record order, and touched no fee or stake record. */
  lemma {:induction false} RunOperatorLogs(env: Env, db: Db, entries: seq<Entry>, failsAtEnd: bool)
    ensures var r := RunOperator(env, db, entries, failsAtEnd);
      r.Ok? ==>
        && r.db.feesByPeriod == db.feesByPeriod
        && r.db.vxSumFunds == db.vxSumFunds
        && r.db.events == db.events + OperatorEvents(env, entries)
    decreases |entries|
  {
    if entries != [] {
      var e := entries[0];
      var rest := OperatorEvents(env, entries[1..]);
      if |e.value| == 0 {
        RunOperatorLogs(env, db, entries[1..], failsAtEnd);
        assert OperatorEvents(env, entries) == rest;
      } else if |e.key| == OperatorKeyLength {
        SettleRecordPays(env, db, e);
        var s := SettleRecord(env, db, e);
        if s.Ok? {
          RunOperatorLogs(env, s.db, entries[1..], failsAtEnd);
          calc {
            s.db.events + rest;
            (db.events + EntryEvents(env, e)) + rest;
            { assert OperatorEvents(env, entries) == EntryEvents(env, e) + rest; }
            db.events + OperatorEvents(env, entries);
          }
        }
      }
    }
  }

  /** On success each operator was credited exactly what the records owe it. */
  lemma {:induction false} RunOperatorCredits(env: Env, db: Db, entries: seq<Entry>, failsAtEnd: bool)
    ensures var r := RunOperator(env, db, entries, failsAtEnd);
      r.Ok? ==> forall a, t :: Balance(r.db.funds, a, t) == Balance(db.funds, a, t) + OperatorOwed(env, entries, a, t)
    decreases |entries|
  {
    if entries != [] {
      var e := entries[0];
      if |e.value| == 0 {
        RunOperatorCredits(env, db, entries[1..], failsAtEnd);
      } else if |e.key| == OperatorKeyLength {
        SettleRecordPays(env, db, e);
        var s := SettleRecord(env, db, e);
        if s.Ok? {
          RunOperatorCredits(env, s.db, entries[1..], failsAtEnd);
        }
      }
    }
  }

  lemma {:induction false} ConsumedKeysMembers(entries: seq<Entry>, key: Bytes)
    ensures key in ConsumedKeys(entries) <==> exists i :: 0 <= i < |entries| && |entries[i].value| > 0 && entries[i].key == key
    decreases |entries|
  {
    if entries != [] {
      ConsumedKeysMembers(entries[1..], key);
      if key in ConsumedKeys(entries[1..]) {
        var i :| 0 <= i < |entries[1..]| && |entries[1..][i].value| > 0 && entries[1..][i].key == key;
        assert entries[i + 1] == entries[1..][i];
      }
      if exists i :: 0 <= i < |entries| && |entries[i].value| > 0 && entries[i].key == key {
        var i :| 0 <= i < |entries| && |entries[i].value| > 0 && entries[i].key == key;
        if i > 0 {
          assert entries[1..][i - 1] == entries[i];
        }
      }
    }
  }

  /** The non-empty records of the store under `prefix`. */
  function PendingKeys(store: map<Bytes, Bytes>, prefix: Bytes): set<Bytes> {
    set k | k in store && HasPrefix(prefix, k) && |store[k]| > 0
  }

  /**
   * Consume-once: a successful settlement deletes exactly the non-empty records under the period's
   * prefix, and no key outside it.
   */
  lemma OperatorSettlementConsumesPeriod(env: Env, db: Db, periodId: PeriodId, c: Cursor)
    requires CursorOver(db.store, PeriodPrefix(env, periodId), c)
    ensures var r := OperatorFeesDividend(env, db, periodId, c);
      r.Ok? ==> r.db.store == db.store - PendingKeys(db.store, PeriodPrefix(env, periodId))
  {
    var prefix := PeriodPrefix(env, periodId);
    RunOperatorOutcome(env, db, c.entries, c.failsAtEnd);
    RunOperatorSettles(env, db, c.entries, c.failsAtEnd);
    if c.opens && !c.failsAtEnd {
      // only a cursor that does not fail is known to walk every pending key
      forall key ensures key in ConsumedKeys(c.entries) <==> key in PendingKeys(db.store, prefix) {
        ConsumedKeysMembers(c.entries, key);
        if key in PendingKeys(db.store, prefix) {
          assert key in KeysOf(c.entries);
          var e :| e in c.entries && e.key == key;
          var i :| 0 <= i < |c.entries| && c.entries[i] == e;
          assert |c.entries[i].value| > 0;
        }
      }
    }
  }

  lemma {:induction false} SkipsEmptyRecords(env: Env, db: Db, entries: seq<Entry>)
    requires forall k :: 0 <= k < |entries| ==> |entries[k].value| == 0
    ensures RunOperator(env, db, entries, false) == Ok(db)
    decreases |entries|
  {
    if entries != [] {
      assert forall k :: 0 <= k < |entries[1..]| ==> entries[1..][k] == entries[k + 1];
      SkipsEmptyRecords(env, db, entries[1..]);
    }
  }

  /**
   * A second settlement of the same period finds only empty records, so it deletes nothing, logs
   * nothing and credits nothing.
   */
  lemma SecondOperatorSettlementIsNoOp(env: Env, db: Db, periodId: PeriodId, c1: Cursor, c2: Cursor)
    requires CursorOver(db.store, PeriodPrefix(env, periodId), c1)
    requires OperatorFeesDividend(env, db, periodId, c1).Ok?
    requires CursorOver(OperatorFeesDividend(env, db, periodId, c1).db.store, PeriodPrefix(env, periodId), c2)
    requires c2.opens && !c2.failsAtEnd
    ensures var db1 := OperatorFeesDividend(env, db, periodId, c1).db;
      OperatorFeesDividend(env, db1, periodId, c2) == Ok(db1)
  {
    var prefix := PeriodPrefix(env, periodId);
    var db1 := OperatorFeesDividend(env, db, periodId, c1).db;
    OperatorSettlementConsumesPeriod(env, db, periodId, c1);
    forall k | 0 <= k < |c2.entries| ensures |c2.entries[k].value| == 0 {
      var key := c2.entries[k].key;
      assert key in db1.store && HasPrefix(prefix, key);
      assert key !in PendingKeys(db.store, prefix);
    }
    SkipsEmptyRecords(env, db1, c2.entries);
  }
}
