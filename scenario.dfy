/**
 * Two rounds driven through the monitor, sub-message by sub-message, as a
 * client of its contracts. The first round is the one the monitor joins
 * after start-up: two bets of 10.00 and 5.00 USD, one cashout of 18.00 USD
 * at 1.8x, a crash at 2.0x after 3.0 seconds. Its settlement is computed but
 * not persisted. The second round has no wagers and crashes at 1.5x; its
 * settlement is persisted.
 */
module Scenario {

  import opened Wrappers
  import opened PlayerData
  import opened Numbers
  import opened Tracker
  import opened Wager
  import opened Monitor

  /** A nine-field player payload; the local-currency amount repeats the USD one. */
  function Payload(username: string, usd: string, multiplier: string, cashoutUsd: string,
                   playerId: string, betNumber: string): (data: string)
    ensures |data| > 0
  {
    Join([username, usd, usd, multiplier, cashoutUsd, playerId, betNumber, "USD", "0"])
  }

  lemma PayloadSplits(username: string, usd: string, multiplier: string, cashoutUsd: string,
                      playerId: string, betNumber: string)
    requires NoSeparator(username) && NoSeparator(usd) && NoSeparator(multiplier)
    requires NoSeparator(cashoutUsd) && NoSeparator(playerId) && NoSeparator(betNumber)
    ensures Split(Payload(username, usd, multiplier, cashoutUsd, playerId, betNumber))
            == [username, usd, usd, multiplier, cashoutUsd, playerId, betNumber, "USD", "0"]
  {
    SplitJoin([username, usd, usd, multiplier, cashoutUsd, playerId, betNumber, "USD", "0"]);
  }

  lemma ZeroAmount()
    ensures ParseNum("0") == 0.0
  {
    WholeDecimal("0");
  }

  lemma TenAmount()
    ensures ParseNum("10.00") == 10.0
  {
    assert "10.00" == "10" + "." + "00";
    PointDecimal("10", "00");
    assert NaturalValue("10") == 10 by { assert "10"[..1] == "1"; }
    assert FractionValue("00") == 0.0 by { assert "00"[1..] == "0"; }
  }

  lemma FiveAmount()
    ensures ParseNum("5.00") == 5.0
  {
    assert "5.00" == "5" + "." + "00";
    PointDecimal("5", "00");
    assert FractionValue("00") == 0.0 by { assert "00"[1..] == "0"; }
  }

  lemma EighteenAmount()
    ensures ParseNum("18.00") == 18.0
  {
    assert "18.00" == "18" + "." + "00";
    PointDecimal("18", "00");
    assert NaturalValue("18") == 18 by { assert "18"[..1] == "1"; }
    assert FractionValue("00") == 0.0 by { assert "00"[1..] == "0"; }
  }

  lemma OnePointEight()
    ensures ParseNum("1.8") == 1.8
  {
    assert "1.8" == "1" + "." + "8";
    PointDecimal("1", "8");
  }

  lemma AliceBets()
    ensures Classify("b", Payload("alice", "10.00", "0", "0", "p1", "b1"))
            == PlaceBet(Key("p1", "b1"), PlayerBet("alice", "p1", 10.0, "USD", "b1"))
  {
    PayloadSplits("alice", "10.00", "0", "0", "p1", "b1");
    ZeroAmount();
    TenAmount();
  }

  lemma BobBets()
    ensures Classify("b", Payload("bob", "5.00", "0", "0", "p2", "b1"))
            == PlaceBet(Key("p2", "b1"), PlayerBet("bob", "p2", 5.0, "USD", "b1"))
  {
    PayloadSplits("bob", "5.00", "0", "0", "p2", "b1");
    ZeroAmount();
    FiveAmount();
  }

  lemma AliceCashesOut()
    ensures Classify("c", Payload("alice", "10.00", "1.8", "18.00", "p1", "b1"))
            == AddCashout(PlayerCashout("alice", "p1", 10.0, 1.8, 18.0))
  {
    PayloadSplits("alice", "10.00", "1.8", "18.00", "p1", "b1");
    TenAmount();
    EighteenAmount();
    OnePointEight();
  }

  // The tracker's state along the first round.
  function Opened(): TrackerState {
    Fresh().(startTime := Some(Timestamp(0)), isActive := true)
  }

  function AliceBet(): PlayerBet { PlayerBet("alice", "p1", 10.0, "USD", "b1") }

  function BobBet(): PlayerBet { PlayerBet("bob", "p2", 5.0, "USD", "b1") }

  function AliceCashout(): PlayerCashout { PlayerCashout("alice", "p1", 10.0, 1.8, 18.0) }

  function WithBets(): TrackerState {
    Opened().(bets := map[Key("p1", "b1") := AliceBet(), Key("p2", "b1") := BobBet()])
  }

  function WithCashout(): TrackerState {
    WithBets().(crashMultiplier := 1.8, flightDuration := 2.1, cashouts := [AliceCashout()])
  }

  /** The settlement of the first round: 15.00 staked by two players, 18.00 paid to one. */
  lemma FirstRoundSettlement()
    ensures Stats(WithCashout().(crashMultiplier := 2.0, flightDuration := 3.0), Timestamp(5))
            == GameRound(Timestamp(0), 2.0, 3.0, 15.0, 2, 18.0, 1, -3.0, 1)
  {
    var t0 := Opened();
    var t1 := t0.(bets := t0.bets[Key("p1", "b1") := AliceBet()]);
    var t2 := t1.(bets := t1.bets[Key("p2", "b1") := BobBet()]);
    assert Key("p2", "b1") != Key("p1", "b1") by { assert Key("p2", "b1")[1] != Key("p1", "b1")[1]; }
    StatsOfFresh(Timestamp(5));
    StatsAfterBet(t0, Key("p1", "b1"), AliceBet(), Timestamp(5));
    StatsAfterBet(t1, Key("p2", "b1"), BobBet(), Timestamp(5));
    assert t2 == WithBets();
    var t3 := t2.(crashMultiplier := 2.0, flightDuration := 3.0);
    assert Stats(t3, Timestamp(5)).totalBetsUsd == 15.0;
    StatsAfterCashout(t3, AliceCashout(), Timestamp(5));
    assert t3.(cashouts := t3.cashouts + [AliceCashout()])
           == WithCashout().(crashMultiplier := 2.0, flightDuration := 3.0);
  }

  /** Alice and Bob bet 10.00 and 5.00 in the open round. */
  method PlaceBets(monitor: RoundMonitor)
    requires monitor.Valid() && monitor.tracker.State() == Opened()
    modifies monitor, monitor.tracker
    ensures monitor.Valid() && monitor.tracker.State() == WithBets()
    ensures monitor.firstRoundSeen == old(monitor.firstRoundSeen)
    ensures monitor.roundCount == old(monitor.roundCount)
    ensures monitor.persisted == old(monitor.persisted)
  {
    AliceBets();
    var settlement, persist := monitor.Step(Wagering("b", Payload("alice", "10.00", "0", "0", "p1", "b1")), Timestamp(1));
    BobBets();
    settlement, persist := monitor.Step(Wagering("b", Payload("bob", "5.00", "0", "0", "p2", "b1")), Timestamp(2));
  }

  /** The plane climbs to 1.8x and Alice cashes out 18.00. */
  method FlyAndCashOut(monitor: RoundMonitor)
    requires monitor.Valid() && monitor.tracker.State() == WithBets()
    modifies monitor, monitor.tracker
    ensures monitor.Valid() && monitor.tracker.State() == WithCashout()
    ensures monitor.firstRoundSeen == old(monitor.firstRoundSeen)
    ensures monitor.roundCount == old(monitor.roundCount)
    ensures monitor.persisted == old(monitor.persisted)
  {
    var settlement, persist := monitor.Step(Response(FlightSample(false, 1.8, 2.1)), Timestamp(3));
    AliceCashesOut();
    settlement, persist := monitor.Step(Wagering("c", Payload("alice", "10.00", "1.8", "18.00", "p1", "b1")), Timestamp(4));
  }

  /** The round joined after start-up: opened, two bets, a cashout, a crash at 2.0x. */
  method FirstRound(monitor: RoundMonitor) returns (settlement: Option<GameRound>, persist: bool)
    requires monitor.Valid() && monitor.tracker.State() == Fresh() && !monitor.firstRoundSeen
    modifies monitor, monitor.tracker
    ensures monitor.Valid() && monitor.tracker.State() == Fresh() && monitor.firstRoundSeen
    ensures settlement == Some(GameRound(Timestamp(0), 2.0, 3.0, 15.0, 2, 18.0, 1, -3.0, 1))
    ensures !persist
  {
    settlement, persist := monitor.Step(Response(FlightSample(false, 1.0, 0.0)), Timestamp(0));
    PlaceBets(monitor);
    FlyAndCashOut(monitor);
    FirstRoundSettlement();
    settlement, persist := monitor.Step(Response(FlightSample(true, 2.0, 3.0)), Timestamp(5));
  }

  /** A round without wagers that crashes at 1.5x after one second. */
  method SecondRound(monitor: RoundMonitor) returns (settlement: Option<GameRound>, persist: bool)
    requires monitor.Valid() && monitor.tracker.State() == Fresh() && monitor.firstRoundSeen
    modifies monitor, monitor.tracker
    ensures settlement == Some(GameRound(Timestamp(10), 1.5, 1.0, 0.0, 0, 0.0, 0, 0.0, 0))
    ensures persist
  {
    settlement, persist := monitor.Step(Response(FlightSample(false, 1.0, 0.0)), Timestamp(10));
    StatsOfFresh(Timestamp(11));
    settlement, persist := monitor.Step(Response(FlightSample(true, 1.5, 1.0)), Timestamp(11));
  }

  /**
   * Runs both rounds on a new monitor and returns their settlements and
   * whether each was persisted.
   */
  method TwoRounds() returns (first: Option<GameRound>, firstPersisted: bool,
                              second: Option<GameRound>, secondPersisted: bool)
    ensures first == Some(GameRound(Timestamp(0), 2.0, 3.0, 15.0, 2, 18.0, 1, -3.0, 1))
    ensures !firstPersisted
    ensures second == Some(GameRound(Timestamp(10), 1.5, 1.0, 0.0, 0, 0.0, 0, 0.0, 0))
    ensures secondPersisted
  {
    var monitor := new RoundMonitor();
    first, firstPersisted := FirstRound(monitor);
    second, secondPersisted := SecondRound(monitor);
  }

  /** A payload of six fields is rejected before its action is even looked at. */
  lemma SixFieldPayloadRejected()
    ensures Classify("b", Join(["alice", "10.00", "10.00", "0", "0", "p1"])) == MalformedPayload
  {
    FewFieldsRejected("b", ["alice", "10.00", "10.00", "0", "0", "p1"]);
  }
}
