/**
 * What one wagering event (method "g") does to the tracker. `Classify`
 * decides, from the action tag and the player payload, which of the
 * program's branches the event takes; `ApplyEffect` is the change that
 * branch makes to the tracker's state. Only two branches change anything:
 * a bet is stored under its key (a later bet with the same key replaces the
 * earlier one) and a cashout is appended. Neither looks at whether a round
 * is active.
 */
module Wager {

  import opened Wrappers
  import opened PlayerData
  import opened Numbers
  import opened Tracker

  // Field positions in the player payload.
  const UsernameField: nat := 0
  const BetUsdField: nat := 1
  const MultiplierField: nat := 3
  const CashoutUsdField: nat := 4
  const PlayerIdField: nat := 5
  const BetNumberField: nat := 6
  const CurrencyField: nat := 7

  datatype Effect =
    | PlaceBet(key: string, bet: PlayerBet)
    | AddCashout(cashout: PlayerCashout)
    | MalformedPayload      // fewer than nine fields
    | InvalidBet            // a "b" event whose multiplier or cashout is not zero
    | InvalidCashout        // a "c" event whose multiplier or cashout is not positive
    | UnrecognizedAction    // any other action tag

  /** The branch a wagering event with tag `action` and payload `data` takes. */
  function Classify(action: string, data: string): (e: Effect)
    ensures e == MalformedPayload <==> Occurrences(data) + 1 < MinFields
    ensures e.PlaceBet? ==>
      && action == "b"
      && NoSeparator(e.bet.playerId) && NoSeparator(e.bet.betNumber)
      && e.key == Key(e.bet.playerId, e.bet.betNumber)
      && Split(e.key) == [e.bet.playerId, e.bet.betNumber]
    ensures e.AddCashout? ==>
      action == "c" && e.cashout.multiplier > 0.0 && e.cashout.cashoutAmountUsd > 0.0
    ensures e == InvalidBet ==> action == "b"
    ensures e == InvalidCashout ==> action == "c"
    ensures e == UnrecognizedAction <==>
      Occurrences(data) + 1 >= MinFields && action != "b" && action != "c"
  {
    match ParsePlayerData(data)
    case None => MalformedPayload
    case Some(parts) =>
      var multiplier := ParseNum(parts[MultiplierField]);
      var cashoutUsd := ParseNum(parts[CashoutUsdField]);
      if action == "b" then
        if multiplier == 0.0 && cashoutUsd == 0.0 then
          var bet := PlayerBet(parts[UsernameField], parts[PlayerIdField],
                               ParseNum(parts[BetUsdField]), parts[CurrencyField],
                               parts[BetNumberField]);
          KeySplits(bet.playerId, bet.betNumber);
          PlaceBet(Key(bet.playerId, bet.betNumber), bet)
        else
          InvalidBet
      else if action == "c" then
        if multiplier > 0.0 && cashoutUsd > 0.0 then
          AddCashout(PlayerCashout(parts[UsernameField], parts[PlayerIdField],
                                   ParseNum(parts[BetUsdField]), multiplier, cashoutUsd))
        else
          InvalidCashout
      else
        UnrecognizedAction
  }

  /**
   * A bet carries the payload's fields in their places: the key is the
   * player-id and bet-number fields joined by the separator, and the amount
   * is the bet-USD field read as a number.
   */
  lemma PlaceBetFields(action: string, data: string)
    ensures
      var e := Classify(action, data);
      var parts := Split(data);
      e.PlaceBet? ==>
      && |parts| >= MinFields
      && e.key == Join([parts[PlayerIdField], parts[BetNumberField]])
      && e.bet.username == parts[UsernameField]
      && e.bet.currency == parts[CurrencyField]
      && e.bet.betAmountUsd == ParseNum(parts[BetUsdField])
      && ParseNum(parts[MultiplierField]) == 0.0 && ParseNum(parts[CashoutUsdField]) == 0.0
  {
    var parts := Split(data);
    if Classify(action, data).PlaceBet? {
      assert [parts[PlayerIdField], parts[BetNumberField]][1..] == [parts[BetNumberField]];
    }
  }

  /**
   * A "b" event with at least nine fields whose multiplier and cashout
   * fields both read as 0 is stored: under the key made of its player-id
   * and bet-number fields, as the bet those fields describe.
   */
  lemma BetAccepted(data: string)
    requires |Split(data)| >= MinFields
    requires ParseNum(Split(data)[MultiplierField]) == 0.0
    requires ParseNum(Split(data)[CashoutUsdField]) == 0.0
    ensures
      var parts := Split(data);
      Classify("b", data)
      == PlaceBet(Key(parts[PlayerIdField], parts[BetNumberField]),
                  PlayerBet(parts[UsernameField], parts[PlayerIdField], ParseNum(parts[BetUsdField]),
                            parts[CurrencyField], parts[BetNumberField]))
  {
    SplitCount(data);
  }

  /**
   * A "c" event with at least nine fields whose multiplier and cashout
   * fields both read above 0 is recorded, with the amounts those fields give.
   */
  lemma CashoutAccepted(data: string)
    requires |Split(data)| >= MinFields
    requires ParseNum(Split(data)[MultiplierField]) > 0.0
    requires ParseNum(Split(data)[CashoutUsdField]) > 0.0
    ensures
      var parts := Split(data);
      Classify("c", data)
      == AddCashout(PlayerCashout(parts[UsernameField], parts[PlayerIdField], ParseNum(parts[BetUsdField]),
                                  ParseNum(parts[MultiplierField]), ParseNum(parts[CashoutUsdField])))
  {
    SplitCount(data);
  }

  /**
   * A recorded cashout comes from a "c" event of at least nine fields whose
   * multiplier and cashout fields both read above 0, and carries the
   * payload's fields in their places.
   */
  lemma CashoutFields(action: string, data: string)
    ensures
      var e := Classify(action, data);
      var parts := Split(data);
      e.AddCashout? ==>
      && |parts| >= MinFields
      && ParseNum(parts[MultiplierField]) > 0.0 && ParseNum(parts[CashoutUsdField]) > 0.0
      && e.cashout
         == PlayerCashout(parts[UsernameField], parts[PlayerIdField], ParseNum(parts[BetUsdField]),
                          ParseNum(parts[MultiplierField]), ParseNum(parts[CashoutUsdField]))
  {
  }

  /** The change an event's branch makes to the tracker. */
  function ApplyEffect(t: TrackerState, e: Effect): (u: TrackerState)
    ensures u.isActive == t.isActive && u.startTime == t.startTime
    ensures u.crashMultiplier == t.crashMultiplier && u.flightDuration == t.flightDuration
    ensures |u.cashouts| == |t.cashouts| + (if e.AddCashout? then 1 else 0)
    ensures t.bets.Keys <= u.bets.Keys
    ensures !e.PlaceBet? ==> u.bets == t.bets
  {
    match e
    case PlaceBet(key, bet) => t.(bets := t.bets[key := bet])
    case AddCashout(c) => t.(cashouts := t.cashouts + [c])
    case _ => t
  }

  /** Every classified event keeps the tracker well formed. */
  lemma ApplyKeepsWellFormed(t: TrackerState, action: string, data: string)
    requires WellFormed(t)
    ensures WellFormed(ApplyEffect(t, Classify(action, data)))
  {
  }

  /**
   * A payload with fewer than nine fields, or an event whose numbers do not
   * fit its action, leaves bets and cashouts as they were.
   */
  lemma RejectedEventChangesNothing(t: TrackerState, action: string, data: string)
    requires
      var e := Classify(action, data);
      !e.PlaceBet? && !e.AddCashout?
    ensures ApplyEffect(t, Classify(action, data)) == t
  {
  }

  /**
   * Last write wins: a second bet under the same key replaces the first, and
   * the number of stored bets is that of storing the second alone.
   */
  lemma RepeatedKeyOverwrites(t: TrackerState, key: string, first: PlayerBet, second: PlayerBet)
    ensures
      var once := ApplyEffect(t, PlaceBet(key, second));
      var twice := ApplyEffect(ApplyEffect(t, PlaceBet(key, first)), PlaceBet(key, second));
      && twice == once
      && twice.bets[key] == second
      && |twice.bets| == |t.bets| + (if key in t.bets then 0 else 1)
  {
    assert t.bets[key := first][key := second] == t.bets[key := second];
  }

  /**
   * Distinct bets never collide: when an accepted bet's key is already in
   * use, the bet stored there has the same player id and bet number, so an
   * overwrite only ever replaces the same player's same bet.
   */
  lemma OverwriteOnlySameBet(t: TrackerState, key: string, bet: PlayerBet)
    requires WellFormed(t)
    requires NoSeparator(bet.playerId) && NoSeparator(bet.betNumber)
    requires key == Key(bet.playerId, bet.betNumber) && key in t.bets
    ensures t.bets[key].playerId == bet.playerId && t.bets[key].betNumber == bet.betNumber
  {
    var stored := t.bets[key];
    KeyInjective(stored.playerId, stored.betNumber, bet.playerId, bet.betNumber);
  }

  /**
   * A payload made of fewer than nine fields is rejected whatever its
   * action, so it can never reach the bets or the cashouts.
   */
  lemma FewFieldsRejected(action: string, fields: seq<string>)
    requires 1 <= |fields| < MinFields
    requires forall i | 0 <= i < |fields| :: NoSeparator(fields[i])
    ensures Classify(action, Join(fields)) == MalformedPayload
  {
    SplitJoin(fields);
    SplitCount(Join(fields));
  }
}
