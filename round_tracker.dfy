/**
 * The accumulation state of the round in progress (`RoundTracker` in the
 * program) and the settlement record computed from it when the round ends
 * (`GameRound`).
 *
 * `TrackerState` is the tracker's value; `Stats` is the settlement as a
 * function of that value, summing bets and cashouts without regard to the
 * order in which the bets map is walked. The class `RoundTracker` holds the
 * same fields and is updated in place.
 */
module Tracker {

  import opened Wrappers
  import opened PlayerData

  /** An instant of the wall clock; only ever stored and handed on. */
  datatype Timestamp = Timestamp(ticks: int)

  datatype PlayerBet = PlayerBet(
    username: string,
    playerId: string,
    betAmountUsd: real,
    currency: string,
    betNumber: string)

  datatype PlayerCashout = PlayerCashout(
    username: string,
    playerId: string,
    betAmountUsd: real,
    multiplier: real,
    cashoutAmountUsd: real)

  /** The settlement of one round; the date and time columns are both read from `startedAt`. */
  datatype GameRound = GameRound(
    startedAt: Timestamp,
    crashMultiplier: real,
    flightDuration: real,
    totalBetsUsd: real,
    totalPlayersBet: int,
    totalCashoutsUsd: real,
    totalPlayersCashedOut: int,
    profitUsd: real,
    playersLost: int)

  datatype TrackerState = TrackerState(
    bets: map<string, PlayerBet>,
    cashouts: seq<PlayerCashout>,
    startTime: Option<Timestamp>,
    crashMultiplier: real,
    flightDuration: real,
    isActive: bool)

  /** The state of a new tracker, and of every tracker after a reset. */
  function Fresh(): (t: TrackerState)
    ensures WellFormed(t) && !t.isActive
    ensures |t.bets| == 0 && |t.cashouts| == 0
  {
    TrackerState(map[], [], None, 0.0, 0.0, false)
  }

  /** Every bet is stored under the key built from its own identity fields. */
  ghost predicate KeysMatchBets(bets: map<string, PlayerBet>) {
    forall k | k in bets ::
      && NoSeparator(bets[k].playerId)
      && NoSeparator(bets[k].betNumber)
      && k == Key(bets[k].playerId, bets[k].betNumber)
  }

  /**
   * What the monitor keeps true of its tracker: a round is active exactly
   * when it has a start time, an idle tracker holds no flight telemetry,
   * and the bet keys match the bets.
   */
  ghost predicate WellFormed(t: TrackerState) {
    && (t.isActive <==> t.startTime.Some?)
    && (!t.isActive ==> t.crashMultiplier == 0.0 && t.flightDuration == 0.0)
    && KeysMatchBets(t.bets)
  }

  ghost function PickKey(bets: map<string, PlayerBet>): (k: string)
    requires bets != map[]
    ensures k in bets
  {
    var k :| k in bets; k
  }

  lemma RemoveKeyShrinks(bets: map<string, PlayerBet>, k: string)
    requires k in bets
    ensures |bets - {k}| == |bets| - 1
  {
    assert (bets - {k}).Keys == bets.Keys - {k};
  }

  /** The sum of the USD amounts of all bets in the map. */
  ghost function SumBets(bets: map<string, PlayerBet>): real
    decreases |bets|
  {
    if bets == map[] then 0.0
    else
      var k := PickKey(bets);
      RemoveKeyShrinks(bets, k);
      bets[k].betAmountUsd + SumBets(bets - {k})
  }

  /** Stakes that are none of them negative add up to a total that is not negative. */
  lemma {:induction false} SumBetsNonNegative(bets: map<string, PlayerBet>)
    requires forall k | k in bets :: bets[k].betAmountUsd >= 0.0
    ensures SumBets(bets) >= 0.0
    decreases |bets|
  {
    if bets != map[] {
      var k := PickKey(bets);
      RemoveKeyShrinks(bets, k);
      SumBetsNonNegative(bets - {k});
    }
  }

  /** The sum does not depend on which bet is taken out first. */
  lemma {:induction false} SumBetsRemove(bets: map<string, PlayerBet>, k: string)
    requires k in bets
    ensures SumBets(bets) == bets[k].betAmountUsd + SumBets(bets - {k})
    decreases |bets|
  {
    var j := PickKey(bets);
    if j != k {
      RemoveKeyShrinks(bets, j);
      RemoveKeyShrinks(bets, k);
      SumBetsRemove(bets - {j}, k);
      SumBetsRemove(bets - {k}, j);
      assert bets - {j} - {k} == bets - {k} - {j};
    }
  }

  /** The sum of the USD payouts of the cashouts, in order. */
  function SumCashouts(cashouts: seq<PlayerCashout>): real {
    if cashouts == [] then 0.0
    else cashouts[0].cashoutAmountUsd + SumCashouts(cashouts[1..])
  }

  /** Payouts that are none of them negative add up to a total that is not negative. */
  lemma {:induction false} SumCashoutsNonNegative(cashouts: seq<PlayerCashout>)
    requires forall i | 0 <= i < |cashouts| :: cashouts[i].cashoutAmountUsd >= 0.0
    ensures SumCashouts(cashouts) >= 0.0
  {
    if cashouts != [] {
      SumCashoutsNonNegative(cashouts[1..]);
    }
  }

  lemma {:induction false} SumCashoutsAppend(cashouts: seq<PlayerCashout>, c: PlayerCashout)
    ensures SumCashouts(cashouts + [c]) == SumCashouts(cashouts) + c.cashoutAmountUsd
  {
    if cashouts != [] {
      assert (cashouts + [c])[1..] == cashouts[1..] + [c];
      SumCashoutsAppend(cashouts[1..], c);
    } else {
      assert [c][1..] == [];
    }
  }

  /**
   * The settlement of the tracked round. `now` stands for the clock reading
   * used when no start time was recorded.
   */
  ghost function Stats(t: TrackerState, now: Timestamp): (r: GameRound)
    ensures r.playersLost >= 0
    ensures r.playersLost >= r.totalPlayersBet - r.totalPlayersCashedOut
    ensures r.playersLost == 0 || r.playersLost == r.totalPlayersBet - r.totalPlayersCashedOut
    ensures r.playersLost <= r.totalPlayersBet
  {
    var totalBets := SumBets(t.bets);
    var totalCashouts := SumCashouts(t.cashouts);
    var playersBet := |t.bets|;
    var playersCashedOut := |t.cashouts|;
    var playersLost := if playersCashedOut > playersBet then 0 else playersBet - playersCashedOut;
    GameRound(
      if t.startTime.Some? then t.startTime.value else now,
      t.crashMultiplier,
      t.flightDuration,
      totalBets,
      playersBet,
      totalCashouts,
      playersCashedOut,
      totalBets - totalCashouts,
      playersLost)
  }

  /**
   * Storing a bet under a key moves the bet total by the difference between
   * the new amount and the one it replaces, and adds a player only when the
   * key is new; the cashout side of the settlement is untouched.
   */
  lemma StatsAfterBet(t: TrackerState, key: string, bet: PlayerBet, now: Timestamp)
    ensures
      var before := Stats(t, now);
      var after := Stats(t.(bets := t.bets[key := bet]), now);
      && after.totalBetsUsd
         == before.totalBetsUsd - (if key in t.bets then t.bets[key].betAmountUsd else 0.0) + bet.betAmountUsd
      && after.totalPlayersBet == before.totalPlayersBet + (if key in t.bets then 0 else 1)
      && after.totalCashoutsUsd == before.totalCashoutsUsd
      && after.totalPlayersCashedOut == before.totalPlayersCashedOut
  {
    var updated := t.bets[key := bet];
    SumBetsRemove(updated, key);
    assert updated - {key} == t.bets - {key};
    if key in t.bets {
      SumBetsRemove(t.bets, key);
    } else {
      assert t.bets - {key} == t.bets;
    }
  }

  /**
   * Recording a cashout adds its payout to the cashout total and takes it
   * off the profit, counts one more cashed-out player, and lowers the
   * players-lost figure by one unless it is already zero.
   */
  lemma StatsAfterCashout(t: TrackerState, c: PlayerCashout, now: Timestamp)
    ensures
      var before := Stats(t, now);
      var after := Stats(t.(cashouts := t.cashouts + [c]), now);
      && after.totalCashoutsUsd == before.totalCashoutsUsd + c.cashoutAmountUsd
      && after.totalPlayersCashedOut == before.totalPlayersCashedOut + 1
      && after.profitUsd == before.profitUsd - c.cashoutAmountUsd
      && after.playersLost == (if before.playersLost > 0 then before.playersLost - 1 else 0)
      && after.totalBetsUsd == before.totalBetsUsd
  {
    SumCashoutsAppend(t.cashouts, c);
  }

  /** A fresh (or reset) tracker settles to all zeros, stamped with the clock. */
  lemma StatsOfFresh(now: Timestamp)
    ensures Stats(Fresh(), now) == GameRound(now, 0.0, 0.0, 0.0, 0, 0.0, 0, 0.0, 0)
  {
  }

  class RoundTracker {
    var bets: map<string, PlayerBet>
    var cashouts: seq<PlayerCashout>
    var startTime: Option<Timestamp>
    var crashMultiplier: real
    var flightDuration: real
    var isActive: bool

    ghost function State(): TrackerState
      reads this
    {
      TrackerState(bets, cashouts, startTime, crashMultiplier, flightDuration, isActive)
    }

    ghost predicate Valid()
      reads this
    {
      WellFormed(State())
    }

    constructor ()
      ensures State() == Fresh() && Valid()
    {
      bets := map[];
      cashouts := [];
      startTime := None;
      crashMultiplier := 0.0;
      flightDuration := 0.0;
      isActive := false;
    }

    /** Empties the tracker in place; afterwards it is a new tracker again. */
    method Reset()
      modifies this
      ensures State() == Fresh() && Valid()
    {
      bets := map[];
      cashouts := [];
      startTime := None;
      crashMultiplier := 0.0;
      flightDuration := 0.0;
      isActive := false;
    }

    /**
     * The settlement of the tracked round, read without changing the
     * tracker. The bets map is walked in whatever order keys come out.
     */
    method CalculateStats(now: Timestamp) returns (r: GameRound)
      ensures r == Stats(State(), now)
    {
      var totalBets := 0.0;
      var rest := bets;
      while rest != map[]
        invariant totalBets + SumBets(rest) == SumBets(bets)
        decreases |rest|
      {
        var k :| k in rest;
        SumBetsRemove(rest, k);
        RemoveKeyShrinks(rest, k);
        totalBets := totalBets + rest[k].betAmountUsd;
        rest := rest - {k};
      }
      assert totalBets == SumBets(bets);

      var totalCashouts := 0.0;
      for i := 0 to |cashouts|
        invariant totalCashouts == SumCashouts(cashouts[..i])
      {
        SumCashoutsAppend(cashouts[..i], cashouts[i]);
        assert cashouts[..i + 1] == cashouts[..i] + [cashouts[i]];
        totalCashouts := totalCashouts + cashouts[i].cashoutAmountUsd;
      }
      assert cashouts[..|cashouts|] == cashouts;
      assert totalCashouts == SumCashouts(cashouts);

      var playersBet := |bets|;
      var playersCashedOut := |cashouts|;
      var playersLost := if playersCashedOut > playersBet then 0 else playersBet - playersCashedOut;
      var started := if startTime.Some? then startTime.value else now;
      r := GameRound(started, crashMultiplier, flightDuration, totalBets, playersBet,
                     totalCashouts, playersCashedOut, totalBets - totalCashouts, playersLost);
    }
  }
}
