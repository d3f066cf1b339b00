/**
 * The game monitor's event loop: one already-decoded sub-message at a time
 * drives the round tracker. Flight telemetry ("response") switches the
 * tracker between idle and active and settles a round when the plane has
 * fallen; wagering events ("g") store bets and cashouts. The monitor also
 * counts started rounds and remembers whether a settlement has been seen,
 * because the first settlement after start-up belongs to a round joined in
 * the middle and is not persisted.
 */
module Monitor {

  import opened Wrappers
  import opened Tracker
  import opened Wager

  /** The fields of a telemetry sample; a missing field is already false or 0.0. */
  datatype FlightSample = FlightSample(fallen: bool, multiplier: real, elapsed: real)

  datatype SubMessage =
    | Response(sample: FlightSample)
    | Wagering(action: string, data: string)
    | Ignored   // another method name, or a message lacking the fields its method needs

  /** The sample that opens a round: not fallen, multiplier 1.0, no time elapsed. */
  predicate IsStartSample(s: FlightSample): (start: bool)
    ensures start ==> !s.fallen
  {
    !s.fallen && s.multiplier == 1.0 && s.elapsed == 0.0
  }

  /** What the monitor holds besides its history: its tracker's state, the round counter and the flag. */
  datatype MonitorState = MonitorState(tracker: TrackerState, roundCount: nat, firstRoundSeen: bool)

  /** The state after one sub-message, the settlement it produced, if any, and whether that is persisted. */
  datatype StepResult = StepResult(state: MonitorState, settlement: Option<GameRound>, persist: bool)

  /** The state after a sequence of sub-messages and the settlements persisted on the way, in order. */
  datatype FrameResult = FrameResult(state: MonitorState, toPersist: seq<GameRound>)

  /** What one telemetry sample does to the monitor's state. */
  ghost function NextSample(s: MonitorState, sample: FlightSample, now: Timestamp): StepResult {
    var t := s.tracker;
    if IsStartSample(sample) && !t.isActive then
      StepResult(s.(tracker := t.(startTime := Some(now), isActive := true), roundCount := s.roundCount + 1),
                 None, false)
    else if !sample.fallen && t.isActive then
      StepResult(s.(tracker := t.(crashMultiplier := sample.multiplier, flightDuration := sample.elapsed)),
                 None, false)
    else if sample.fallen && t.isActive then
      var stats := Stats(t.(crashMultiplier := sample.multiplier, flightDuration := sample.elapsed), now);
      StepResult(MonitorState(Fresh(), s.roundCount, true), Some(stats), s.firstRoundSeen)
    else
      StepResult(s, None, false)
  }

  /**
   * The monitor's state after one sub-message. A settlement is produced only
   * when a round ends; it is persisted exactly when an earlier settlement has
   * been seen; afterwards the tracker is new again and the flag is set.
   */
  ghost function Next(s: MonitorState, m: SubMessage, now: Timestamp): (r: StepResult)
    ensures r.persist <==> r.settlement.Some? && s.firstRoundSeen
    ensures r.settlement.Some? ==> r.state.firstRoundSeen && r.state.tracker == Fresh()
    ensures r.settlement.None? ==> r.state.firstRoundSeen == s.firstRoundSeen
    ensures r.state.roundCount == s.roundCount || r.state.roundCount == s.roundCount + 1
    ensures r.state.roundCount == s.roundCount + 1 <==> !s.tracker.isActive && r.state.tracker.isActive
    ensures WellFormed(s.tracker) ==> WellFormed(r.state.tracker)
  {
    match m
    case Response(sample) => NextSample(s, sample, now)
    case Wagering(action, data) =>
      var t := ApplyEffect(s.tracker, Classify(action, data));
      assert WellFormed(s.tracker) ==> WellFormed(t) by {
        if WellFormed(s.tracker) {
          ApplyKeepsWellFormed(s.tracker, action, data);
        }
      }
      StepResult(s.(tracker := t), None, false)
    case Ignored => StepResult(s, None, false)
  }

  /** The monitor's state after the sub-messages of `frame`, handled in order at the readings of `clock`. */
  ghost function Run(s: MonitorState, frame: seq<SubMessage>, clock: seq<Timestamp>): (r: FrameResult)
    requires |clock| == |frame|
    ensures |r.toPersist| <= |frame|
    ensures s.firstRoundSeen ==> r.state.firstRoundSeen
    ensures s.roundCount <= r.state.roundCount <= s.roundCount + |frame|
    decreases |frame|
  {
    if frame == [] then FrameResult(s, [])
    else
      var before := Run(s, frame[..|frame| - 1], clock[..|clock| - 1]);
      var step := Next(before.state, frame[|frame| - 1], clock[|clock| - 1]);
      FrameResult(step.state, before.toPersist + (if step.persist then [step.settlement.value] else []))
  }

  /** Handling the sub-message after a prefix of a frame is one more step after that prefix. */
  lemma RunStep(s: MonitorState, frame: seq<SubMessage>, clock: seq<Timestamp>, i: nat,
                before: FrameResult, step: StepResult)
    requires |clock| == |frame| && i < |frame|
    requires Run(s, frame[..i], clock[..i]) == before
    requires step == Next(before.state, frame[i], clock[i])
    ensures Run(s, frame[..i + 1], clock[..i + 1])
            == FrameResult(step.state, before.toPersist + (if step.persist then [step.settlement.value] else []))
  {
    assert frame[..i + 1][..i] == frame[..i];
    assert clock[..i + 1][..i] == clock[..i];
  }

  /**
   * Handling two frames one after the other is handling their concatenation:
   * the final state is the same and the persisted settlements are those of
   * the first frame followed by those of the second.
   */
  lemma {:induction false} RunAppend(s: MonitorState, f1: seq<SubMessage>, c1: seq<Timestamp>,
                                     f2: seq<SubMessage>, c2: seq<Timestamp>)
    requires |c1| == |f1| && |c2| == |f2|
    ensures
      var first := Run(s, f1, c1);
      var second := Run(first.state, f2, c2);
      Run(s, f1 + f2, c1 + c2) == FrameResult(second.state, first.toPersist + second.toPersist)
    decreases |f2|
  {
    if f2 == [] {
      assert f1 + f2 == f1 && c1 + c2 == c1;
    } else {
      var f2Init, c2Init := f2[..|f2| - 1], c2[..|c2| - 1];
      RunAppend(s, f1, c1, f2Init, c2Init);
      assert (f1 + f2)[..|f1 + f2| - 1] == f1 + f2Init;
      assert (c1 + c2)[..|c1 + c2| - 1] == c1 + c2Init;
      assert (f1 + f2)[|f1 + f2| - 1] == f2[|f2| - 1];
      assert (c1 + c2)[|c1 + c2| - 1] == c2[|c2| - 1];
      var first := Run(s, f1, c1);
      var secondInit := Run(first.state, f2Init, c2Init);
      var step := Next(secondInit.state, f2[|f2| - 1], c2[|c2| - 1]);
      AppendAssoc(first.toPersist, secondInit.toPersist,
                  if step.persist then [step.settlement.value] else []);
    }
  }

  lemma AppendAssoc<T>(a: seq<T>, b: seq<T>, c: seq<T>)
    ensures a + (b + c) == a + b + c
  {
  }

  class RoundMonitor {
    const tracker: RoundTracker
    var roundCount: nat
    var firstRoundSeen: bool
    /** Every settlement produced so far, in order. */
    ghost var settled: seq<GameRound>
    /** The settlements handed to persistence, in order. */
    ghost var persisted: seq<GameRound>

    /**
     * Every started round is either settled or still active, the flag is
     * set once some round has been settled, and everything but the first
     * settlement has been persisted.
     */
    ghost predicate Valid()
      reads this, tracker
    {
      && tracker.Valid()
      && roundCount == |settled| + (if tracker.isActive then 1 else 0)
      && firstRoundSeen == (settled != [])
      && persisted == (if settled == [] then [] else settled[1..])
    }

    ghost function Snapshot(): MonitorState
      reads this, tracker
    {
      MonitorState(tracker.State(), roundCount, firstRoundSeen)
    }

    constructor ()
      ensures Valid() && fresh(tracker)
      ensures tracker.State() == Fresh() && roundCount == 0 && !firstRoundSeen
      ensures settled == [] && persisted == []
    {
      tracker := new RoundTracker();
      roundCount := 0;
      firstRoundSeen := false;
      settled := [];
      persisted := [];
    }

    /**
     * Settles the active round on a fallen sample: records the final
     * telemetry, computes the settlement, decides whether it is persisted
     * (every settlement but the first) and resets the tracker.
     */
    method Settle(sample: FlightSample, now: Timestamp) returns (stats: GameRound, persist: bool)
      requires Valid() && tracker.isActive
      modifies this, tracker
      ensures Valid()
      ensures stats
              == Stats(old(tracker.State()).(crashMultiplier := sample.multiplier,
                                             flightDuration := sample.elapsed), now)
      ensures stats.startedAt == old(tracker.startTime).value
      ensures persist == old(firstRoundSeen) && firstRoundSeen
      ensures tracker.State() == Fresh() && roundCount == old(roundCount)
      ensures settled == old(settled) + [stats]
      ensures persisted == old(persisted) + (if persist then [stats] else [])
    {
      tracker.crashMultiplier := sample.multiplier;
      tracker.flightDuration := sample.elapsed;
      stats := tracker.CalculateStats(now);
      settled := settled + [stats];
      if firstRoundSeen {
        persist := true;
        persisted := persisted + [stats];
      } else {
        persist := false;
        firstRoundSeen := true;
      }
      tracker.Reset();
    }

    /** Handles one flight-telemetry sample. */
    method HandleSample(sample: FlightSample, now: Timestamp) returns (settlement: Option<GameRound>, persist: bool)
      requires Valid()
      modifies this, tracker
      ensures Valid()
      ensures persist ==> settlement.Some?
      ensures persisted == old(persisted) + (if persist then [settlement.value] else [])
      ensures settled == old(settled) + (if settlement.Some? then [settlement.value] else [])
      // A start sample while idle opens a round: one more round, start time recorded.
      ensures IsStartSample(sample) && !old(tracker.isActive) ==>
        && tracker.State() == old(tracker.State()).(startTime := Some(now), isActive := true)
        && roundCount == old(roundCount) + 1
        && firstRoundSeen == old(firstRoundSeen)
        && settlement.None?
      // A sample that has not fallen, during a round, records multiplier and elapsed time.
      ensures !sample.fallen && old(tracker.isActive) ==>
        && tracker.State()
           == old(tracker.State()).(crashMultiplier := sample.multiplier, flightDuration := sample.elapsed)
        && roundCount == old(roundCount)
        && firstRoundSeen == old(firstRoundSeen)
        && settlement.None?
      // A fallen sample during a round settles it with the final telemetry, then resets.
      ensures sample.fallen && old(tracker.isActive) ==>
        && settlement
           == Some(Stats(old(tracker.State()).(crashMultiplier := sample.multiplier,
                                               flightDuration := sample.elapsed), now))
        && settlement.value.startedAt == old(tracker.startTime).value
        && persist == old(firstRoundSeen)
        && firstRoundSeen
        && tracker.State() == Fresh()
        && roundCount == old(roundCount)
      // Any sample while idle other than a start sample, a fallen one included, changes nothing.
      ensures !IsStartSample(sample) && !old(tracker.isActive) ==>
        unchanged(this, tracker) && settlement.None?
    {
      settlement, persist := None, false;
      if IsStartSample(sample) && !tracker.isActive {
        tracker.startTime := Some(now);
        tracker.isActive := true;
        roundCount := roundCount + 1;
      } else if !sample.fallen && tracker.isActive {
        tracker.crashMultiplier := sample.multiplier;
        tracker.flightDuration := sample.elapsed;
      } else if sample.fallen && tracker.isActive {
        var stats;
        stats, persist := Settle(sample, now);
        settlement := Some(stats);
      }
    }

    /**
     * Handles one wagering event: a bet is stored under its key, a cashout
     * appended, anything else dropped; whether or not a round is active.
     */
    method HandleWager(action: string, data: string)
      requires Valid()
      modifies tracker
      ensures Valid()
      ensures tracker.State() == ApplyEffect(old(tracker.State()), Classify(action, data))
    {
      var effect := Classify(action, data);
      ApplyKeepsWellFormed(tracker.State(), action, data);
      match effect {
        case PlaceBet(key, bet) =>
          tracker.bets := tracker.bets[key := bet];
        case AddCashout(c) =>
          tracker.cashouts := tracker.cashouts + [c];
        case _ =>
      }
    }

    /**
     * Processes one sub-message. `now` is the clock reading at that moment.
     * Returns the settlement of a round that has just ended, if any, and
     * whether it is to be persisted.
     */
    method Step(m: SubMessage, now: Timestamp) returns (settlement: Option<GameRound>, persist: bool)
      requires Valid()
      modifies this, tracker
      ensures Valid()
      ensures persist ==> settlement.Some?
      ensures persisted == old(persisted) + (if persist then [settlement.value] else [])
      ensures settled == old(settled) + (if settlement.Some? then [settlement.value] else [])
      ensures old(firstRoundSeen) ==> firstRoundSeen
      ensures StepResult(Snapshot(), settlement, persist) == Next(old(Snapshot()), m, now)
      // A start sample while idle opens a round: one more round, start time recorded.
      ensures m.Response? && IsStartSample(m.sample) && !old(tracker.isActive) ==>
        && tracker.State() == old(tracker.State()).(startTime := Some(now), isActive := true)
        && roundCount == old(roundCount) + 1
        && firstRoundSeen == old(firstRoundSeen)
        && settlement.None?
      // A sample that has not fallen, during a round, records multiplier and elapsed time.
      ensures m.Response? && !m.sample.fallen && old(tracker.isActive) ==>
        && tracker.State()
           == old(tracker.State()).(crashMultiplier := m.sample.multiplier, flightDuration := m.sample.elapsed)
        && roundCount == old(roundCount)
        && firstRoundSeen == old(firstRoundSeen)
        && settlement.None?
      // A fallen sample during a round settles it with the final telemetry, then resets.
      ensures m.Response? && m.sample.fallen && old(tracker.isActive) ==>
        && settlement
           == Some(Stats(old(tracker.State()).(crashMultiplier := m.sample.multiplier,
                                               flightDuration := m.sample.elapsed), now))
        && persist == old(firstRoundSeen)
        && tracker.State() == Fresh()
        && roundCount == old(roundCount)
      // Any sample while idle other than a start sample, a fallen one included, changes nothing.
      ensures m.Response? && !IsStartSample(m.sample) && !old(tracker.isActive) ==>
        unchanged(this, tracker) && settlement.None?
      // Wagering events never settle a round and change only bets and cashouts.
      ensures m.Wagering? ==>
        && tracker.State() == ApplyEffect(old(tracker.State()), Classify(m.action, m.data))
        && roundCount == old(roundCount)
        && firstRoundSeen == old(firstRoundSeen)
        && settlement.None?
      ensures m.Ignored? ==> unchanged(this, tracker) && settlement.None?
    {
      match m
      case Response(sample) =>
        settlement, persist := HandleSample(sample, now);
      case Wagering(action, data) =>
        HandleWager(action, data);
        settlement, persist := None, false;
      case Ignored =>
        settlement, persist := None, false;
    }

    /**
     * Processes the sub-messages of one frame strictly in order, `clock[i]`
     * being the clock reading when `frame[i]` is handled. Returns the
     * settlements to persist, in the order the rounds ended.
     */
    method ProcessFrame(frame: seq<SubMessage>, clock: seq<Timestamp>) returns (toPersist: seq<GameRound>)
      requires Valid() && |clock| == |frame|
      modifies this, tracker
      ensures Valid()
      ensures Snapshot() == Run(old(Snapshot()), frame, clock).state
      ensures toPersist == Run(old(Snapshot()), frame, clock).toPersist
      ensures persisted == old(persisted) + toPersist
      ensures old(settled) <= settled
      ensures roundCount >= old(roundCount)
      ensures old(firstRoundSeen) ==> firstRoundSeen
    {
      ghost var start, persisted0, settled0 := Snapshot(), persisted, settled;
      toPersist := [];
      for i := 0 to |frame|
        invariant Valid()
        invariant Run(start, frame[..i], clock[..i]) == FrameResult(Snapshot(), toPersist)
        invariant persisted == persisted0 + toPersist
        invariant settled0 <= settled
      {
        ghost var before := FrameResult(Snapshot(), toPersist);
        ghost var persistedBefore := persisted;
        var settlement, persist := Step(frame[i], clock[i]);
        ghost var step := StepResult(Snapshot(), settlement, persist);
        var added := if persist then [settlement.value] else [];
        assert persisted == persistedBefore + added;
        AppendAssoc(persisted0, toPersist, added);
        RunStep(start, frame, clock, i, before, step);
        toPersist := toPersist + added;
      }
      assert frame[..|frame|] == frame && clock[..|clock|] == clock;
    }
  }
}
