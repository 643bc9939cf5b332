/**
 * The proportional allocator DivideByProportion: one party's share of one token's pool,
 * with the last party absorbing whatever rounding left over.
 */
module Allocator {

  /** The running state of one token's division: stake folded in so far and pool still to give. */
  datatype Accumulator = Accumulator(divided: nat, leave: nat)

  /** What one call hands out and whether it exhausted the pool. */
  datatype Division = Division(share: nat, finished: bool, acc: Accumulator)

  /**
   * poolTotal * part / total rounded to the nearest integer, halves upward: the exact value the
   * extended-precision quotient and RoundAmount approximate.
   */
  function TentativeShare(total: nat, part: nat, poolTotal: nat): nat
    requires total > 0
  {
    (2 * poolTotal * part + total) / (2 * total)
  }

  /**
   * DivideByProportion(totalReferAmt, partReferAmt, dividedReferAmt, toDivideTotalAmt, toDivideLeaveAmt):
   * the two accumulators it updates in place are `acc` in and `d.acc` out.
   */
  function DivideByProportion(total: nat, part: nat, poolTotal: nat, acc: Accumulator): (d: Division)
    requires total > 0
    ensures d.acc.divided == acc.divided + part
    ensures d.share + d.acc.leave == acc.leave
    ensures d.finished <==> (acc.leave - TentativeShare(total, part, poolTotal) <= 0 || acc.divided + part >= total)
    ensures d.finished <==> d.acc.leave == 0
    ensures d.finished ==> d.share == acc.leave
    ensures !d.finished ==> d.share == TentativeShare(total, part, poolTotal)
  {
    var divided := acc.divided + part;
    var share := TentativeShare(total, part, poolTotal);
    if acc.leave - share <= 0 || divided >= total then
      Division(acc.leave, true, Accumulator(divided, 0))
    else
      Division(share, false, Accumulator(divided, acc.leave - share))
  }

  function Sum(s: seq<nat>): nat {
    if s == [] then 0 else s[0] + Sum(s[1..])
  }

  /** The calls for one token, one per eligible party in scan order, stopping once the pool is exhausted. */
  datatype Turns = Turns(shares: seq<nat>, acc: Accumulator, finished: bool)

  function DivideInTurn(total: nat, parts: seq<nat>, poolTotal: nat, acc: Accumulator): (r: Turns)
    requires total > 0
    decreases |parts|
  {
    if parts == [] then Turns([], acc, false)
    else
      var d := DivideByProportion(total, parts[0], poolTotal, acc);
      if d.finished then Turns([d.share], d.acc, true)
      else
        var rest := DivideInTurn(total, parts[1..], poolTotal, d.acc);
        Turns([d.share] + rest.shares, rest.acc, rest.finished)
  }

  /** Nothing leaks and nothing is made up: the shares and what is left add up to what was left before. */
  lemma {:induction false} DivideInTurnConserves(total: nat, parts: seq<nat>, poolTotal: nat, acc: Accumulator)
    requires total > 0
    ensures var r := DivideInTurn(total, parts, poolTotal, acc);
      && Sum(r.shares) + r.acc.leave == acc.leave
      && |r.shares| <= |parts|
      && (r.finished <==> r.acc.leave == 0 && parts != [])
      && r.acc.divided == acc.divided + Sum(parts[..|r.shares|])
  {
    if parts != [] {
      var d := DivideByProportion(total, parts[0], poolTotal, acc);
      assert parts[..1] == [parts[0]];
      assert Sum([parts[0]]) == parts[0];
      if d.finished {
        assert Sum([d.share]) == d.share;
      } else {
        var rest := DivideInTurn(total, parts[1..], poolTotal, d.acc);
        DivideInTurnConserves(total, parts[1..], poolTotal, d.acc);
        assert ([d.share] + rest.shares)[1..] == rest.shares;
        var n := |rest.shares|;
        assert parts[..n + 1][1..] == parts[1..][..n];
      }
    }
  }

  /** Once the parties' stakes reach the total, the pool is exhausted: someone absorbed the remainder. */
  lemma {:induction false} DivideInTurnFinishes(total: nat, parts: seq<nat>, poolTotal: nat, acc: Accumulator)
    requires total > 0
    requires acc.divided + Sum(parts) >= total
    requires parts != []
    ensures DivideInTurn(total, parts, poolTotal, acc).finished
  {
    var d := DivideByProportion(total, parts[0], poolTotal, acc);
    if !d.finished {
      assert acc.divided + parts[0] < total;
      DivideInTurnFinishes(total, parts[1..], poolTotal, d.acc);
    }
  }

  /**
   * Leakage-free allocation: when the stakes scanned add up to the reference total, the shares
   * add up to the pool exactly.
   */
  lemma FullStakeSharesWholePool(total: nat, parts: seq<nat>, pool: nat)
    requires total > 0
    requires Sum(parts) == total
    ensures var r := DivideInTurn(total, parts, pool, Accumulator(0, pool));
      r.finished && Sum(r.shares) == pool && r.acc.leave == 0
  {
    assert parts != [];
    DivideInTurnFinishes(total, parts, pool, Accumulator(0, pool));
    DivideInTurnConserves(total, parts, pool, Accumulator(0, pool));
  }

  /** A party holding the whole reference stake, first in line, receives the whole pool. */
  lemma SingleHolderGetsWholePool(total: nat, pool: nat)
    requires total > 0
    ensures DivideByProportion(total, total, pool, Accumulator(0, pool)) == Division(pool, true, Accumulator(total, 0))
  {
  }

  /** Stakes 60 and 40 out of 100 split a pool of 1,000,000 into 600,000 and 400,000. */
  lemma SixtyFortySplit()
    ensures DivideInTurn(100, [60, 40], 1000000, Accumulator(0, 1000000))
         == Turns([600000, 400000], Accumulator(100, 0), true)
  {
    assert TentativeShare(100, 60, 1000000) == 600000;
    var d := DivideByProportion(100, 60, 1000000, Accumulator(0, 1000000));
    assert d == Division(600000, false, Accumulator(60, 400000));
    assert [60, 40][1..] == [40];
  }
}
