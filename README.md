# JetX round monitor: a verified model of its round-accumulation core

The JetX monitor listens to a live stream from a crash-style betting game. Flight telemetry tells it when a plane takes off, how high the multiplier has climbed and when the plane has fallen. Wagering events tell it which players bet and which cashed out. It accumulates one round at a time in a `RoundTracker` and, when the plane falls, turns it into a `GameRound` settlement: stakes, payouts, house profit and the number of players who lost. Every settlement except the first after start-up is handed to the database. The first one is skipped because its round was joined in the middle.

This project models that core in Dafny, module by module:

- `PlayerData` (`player_data.dfy`): the underscore-delimited player payload. It holds `Split` and `Join` (proved inverse to each other on non-empty sequences of separator-free pieces), `ParsePlayerData` (the payload is accepted when it has at least nine fields) and the bet key `Key(playerId, betNumber)`, which is proved injective on separator-free parts (every split piece is one).
- `Numbers` (`numbers.dfy`): reading a numeric payload field. A field that is not a decimal number reads as `0.0`.
- `Tracker` (`round_tracker.dfy`): the entities `PlayerBet`, `PlayerCashout`, `GameRound` and the tracker's value `TrackerState`. `Stats` is the settlement as a function of the tracker. The class `RoundTracker` is updated in place and has `Reset` and a read-only `CalculateStats`.
- `Wager` (`wager.dfy`): which branch a wagering event takes (`Classify`) and what that branch does to the tracker (`ApplyEffect`). A bet is stored under its key and the last write wins. A cashout is appended. Anything else is dropped.
- `Monitor` (`monitor.dfy`): the class `RoundMonitor`, which holds the tracker, `roundCount` and `firstRoundSeen`. `Next` is the step function on the monitor's value `MonitorState`, and `Run` folds it over a frame. `Step` processes one decoded sub-message and is proved to do what `Next` says. `ProcessFrame` processes a frame's sub-messages in order and is proved to end where `Run` ends. Two ghost fields record every settlement produced (`settled`) and every one handed to persistence (`persisted`). The object invariant says `persisted` is `settled` without its first element.
- `Scenario` (`scenario.dfy`): two complete rounds driven through `Step`. The first has two bets, a cashout and a crash, and is computed but not persisted. The second is persisted.

The program's round handling, in brief (`src/main.rs`):

- There is no phase enumeration. The only phase state is `is_active`: idle or in a round.
- There is no leak classification. Bets and cashouts are both recorded whether or not a round is active.
- A cashout is accepted when its multiplier and amount are both greater than 0. It is not required to exceed 1.0.
- The tracker is reset as soon as a round settles, not on a board-load signal. No `"gBoard"` handling exists, so that method is one of the ignored ones.
- A fallen sample while idle changes nothing and settles nothing.

The JSON envelope is taken as already decoded into `SubMessage`:

- `Response(sample)` is a "response" message whose first argument gives `f`, `v` and `s`. A missing field is already `false` or `0.0`.
- `Wagering(action, data)` is a "g" message whose first argument has a string `M` and an object `I` holding a string `a`.
- `Ignored` covers every other method name and every message lacking those fields. In the source, all of these only log.

The clock is a `Timestamp` parameter (`now`, or `clock` per sub-message). Constructing a `RoundMonitor` corresponds to entering `monitor_jetx`. After every reconnect the program builds a new tracker and resets both counters, so the first settlement after each reconnect is skipped.

## Model

| member | source | states |
|---|---|---|
| PlayerData.Split | src/main.rs:109 | splitting on '_' gives at least one piece, and no piece contains '_' |
| PlayerData.SplitCount | src/main.rs:109-110 | the number of pieces is the number of '_' plus one, so the nine-field test counts separators |
| PlayerData.JoinSplit | src/main.rs:109-111 | joining the pieces with '_' gives back the payload exactly: nothing is dropped or reordered |
| PlayerData.SplitJoin | src/main.rs:109 | splitting a '_'-join of separator-free pieces gives back exactly those pieces (the other half of the round trip) |
| PlayerData.ParsePlayerData | src/main.rs:108-115 | Some exactly when the payload has at least 8 separators (9 fields); the fields are then separator-free, at least 9, and join back to the payload |
| PlayerData.Key | src/main.rs:395 | the definition of the `format!("{}_{}")` key: player id, '_', bet number; its properties are in KeySplits and KeyInjective |
| PlayerData.KeySplits | src/main.rs:395 | a key built from separator-free player id and bet number splits back into exactly those two parts |
| PlayerData.KeyInjective | src/main.rs:395 | two separator-free (player id, bet number) pairs give the same key only if they are the same pair |
| Numbers.FractionValue | src/main.rs:382-383 | the digits after a decimal point are worth at least 0 and less than 1 |
| Numbers.ParseUnsigned | src/main.rs:382-383 | an unsigned decimal that is read succeeds only on text with a digit, and is never negative |
| Numbers.ParseDecimal | src/main.rs:382-383 | a signed decimal succeeds only on text with a digit, and is negative only after a leading '-' |
| Numbers.ParseNum | src/main.rs:382-383 | a field is read as a decimal, falling back to 0.0: text without a digit (the empty field included) reads as 0.0, and a negative value needs a leading '-' (the converse is NegatedDecimal, the other fallbacks StrayCharReadsAsZero and TwoPointsReadAsZero) |
| Numbers.NegatedDecimal | src/main.rs:407-410 | a '-' before an unsigned decimal negates its value and a '+' keeps it, so a "c" event whose field 3 is "-1.8" reads -1.8 and fails the `> 0.0` test |
| Numbers.StrayCharReadsAsZero | src/main.rs:382-385 | a field holding a character that is neither a digit nor a point, other than a leading sign ("1abc"), fails to parse and reads as 0.0 |
| Numbers.TwoPointsReadAsZero | src/main.rs:382-385 | a field with two decimal points ("1.2.3") fails to parse and reads as 0.0 |
| Numbers.PointDecimal | src/main.rs:390 | "digits.digits" reads as the whole part plus the fraction |
| Numbers.WholeDecimal | src/main.rs:383 | a field of digits only reads as the number it spells |
| Tracker.SumBetsNonNegative | src/main.rs:80 | the stake total `SumBets` over the bets map is not negative when no bet amount is |
| Tracker.SumCashoutsNonNegative | src/main.rs:81 | the payout total `SumCashouts` over the cashouts is not negative when no payout is |
| Tracker.SumBetsRemove | src/main.rs:80 | the sum of bet amounts does not depend on the order the map is walked: any bet can be taken out first |
| Tracker.SumCashoutsAppend | src/main.rs:81 | appending a cashout adds exactly its payout to the cashout sum |
| Tracker.Stats | src/main.rs:84-88 | players_lost is max(bets − cashouts, 0): never negative, never below the difference, never above the bet count |
| Tracker.StatsAfterBet | src/main.rs:80-89 | storing a bet moves the stake total by the new amount minus the one it replaces, and adds a player only for a new key; cashout totals are untouched |
| Tracker.StatsAfterCashout | src/main.rs:81-89 | one more cashout adds its payout to the cashout total, subtracts it from the profit, counts one more cashed-out player, and lowers players_lost by one unless it is already 0 |
| Tracker.Fresh | src/main.rs:59-68 | the new-tracker state is idle, holds no bets and no cashouts, and satisfies the tracker invariant |
| Tracker.StatsOfFresh | src/main.rs:59-68 | a new or reset tracker settles to all zeros, stamped with the clock because it has no start time |
| Tracker.RoundTracker.constructor | src/main.rs:59-68 | a new tracker has no bets or cashouts, no start time, multiplier and duration 0, and is idle |
| Tracker.RoundTracker.Reset | src/main.rs:70-77 | after reset the tracker is in exactly the new-tracker state, whatever it held, so resetting twice equals resetting once |
| Tracker.RoundTracker.CalculateStats | src/main.rs:79-105 | reads the tracker without changing it and returns the settlement `Stats` of its state, walking the bet map in any order |
| Wager.Classify | src/main.rs:381-436 | malformed exactly when the payload has fewer than 9 fields; unrecognized exactly when it has 9 or more and the action is neither "b" nor "c"; a stored bet comes from a "b" event, and its key is its separator-free player id and bet number joined by '_' and splits back into them; a recorded cashout comes from a "c" event and its own multiplier and payout are both above 0 (that they are the payload's fields 3 and 4 is CashoutFields) |
| Wager.BetAccepted | src/main.rs:386-403 | a "b" event with 9 or more fields whose fields 3 and 4 read as 0 is stored under the key of fields 5 and 6, as the bet with username, player id, USD amount, currency and bet number from fields 0, 5, 1, 7 and 6 |
| Wager.CashoutAccepted | src/main.rs:408-427 | a "c" event with 9 or more fields whose fields 3 and 4 read above 0 is recorded as the cashout with username, player id and bet amount from fields 0, 5 and 1, and multiplier and payout from fields 3 and 4 |
| Wager.CashoutFields | src/main.rs:407-427 | a recorded cashout comes from a payload of at least 9 fields whose fields 3 and 4 read above 0, and takes username, player id, bet amount, multiplier and payout from fields 0, 5, 1, 3 and 4 |
| Wager.PlaceBetFields | src/main.rs:383-395 | an accepted bet takes username, currency, USD amount and key from fields 0, 7, 1, 5 and 6, and its multiplier and cashout fields both read as 0 |
| Wager.ApplyEffect | src/main.rs:403-427 | a wagering event never changes is_active, the start time, the multiplier or the duration; it adds one cashout exactly when it is a cashout, and it never removes a bet key |
| Wager.ApplyKeepsWellFormed | src/main.rs:395-403 | every wagering event keeps every bet stored under the key built from its own identity |
| Wager.RejectedEventChangesNothing | src/main.rs:404-436 | an event that is neither an accepted bet nor an accepted cashout leaves the tracker unchanged |
| Wager.RepeatedKeyOverwrites | src/main.rs:403 | last write wins: a second bet under a key replaces the first and does not change the number of stored bets |
| Wager.OverwriteOnlySameBet | src/main.rs:395-403 | when an accepted bet's key is already in use, the stored bet has the same player id and bet number: distinct bets never overwrite each other |
| Wager.FewFieldsRejected | src/main.rs:434-436 | a payload of fewer than nine fields is rejected whatever its action |
| Monitor.IsStartSample | src/main.rs:323 | the definition of the start test `!f && v == 1.0 && s == 0.0`; what it does to the monitor is stated by Next and Step |
| Monitor.Next | src/main.rs:313-444 | one sub-message: a settlement is persisted exactly when one is produced and an earlier one was seen; after a settlement the tracker is new and first-round-seen is set; otherwise the flag keeps its value; the round count grows by one exactly when an idle tracker becomes active, else stays; the tracker invariant is kept |
| Monitor.Run | src/main.rs:310-444 | handling a frame in order persists at most one settlement per sub-message, never clears first-round-seen, and raises the round count by at most the number of sub-messages |
| Monitor.RunAppend | src/main.rs:310-444 | handling two frames one after the other ends in the same state as handling their concatenation, and persists the first frame's settlements followed by the second's |
| Monitor.RoundMonitor.constructor | src/main.rs:294-296 | the monitor starts with a new tracker, round count 0 and no round seen |
| Monitor.RoundMonitor.Settle | src/main.rs:336-367 | a fallen sample during a round stores the final multiplier and duration, settles with the recorded start time, persists unless it is the first settlement, sets first-round-seen and resets the tracker |
| Monitor.RoundMonitor.HandleSample | src/main.rs:316-368 | a start sample while idle opens a round (start time, active, round count + 1); a non-fallen sample in a round stores multiplier and duration; a fallen sample in a round settles it; any other idle sample changes nothing |
| Monitor.RoundMonitor.HandleWager | src/main.rs:371-441 | a wagering event changes the tracker by its classified effect, whatever is_active is |
| Monitor.RoundMonitor.Step | src/main.rs:313-444 | one sub-message: the new state, settlement and persist flag are exactly those `Next` gives for the old state; the sample cases above, wagering never settles and changes only bets and cashouts, other messages change nothing; every settlement except the first is persisted, and first-round-seen never goes back to false |
| Monitor.RoundMonitor.ProcessFrame | src/main.rs:310-448 | the final state and the settlements returned for persistence are exactly those of `Run`, stepping through the frame in order, and they are exactly what is added to the persisted history |
| Scenario.FirstRoundSettlement | src/main.rs:79-105 | two bets (10.00, 5.00) and one 18.00 cashout settle to stakes 15.00 from 2 players, payouts 18.00 from 1, profit −3.00, 1 player lost |
| Scenario.TwoRounds | src/main.rs:323-367 | driving two rounds through `Step` gives the first settlement unpersisted and the second persisted, with the expected figures |
| Scenario.SixFieldPayloadRejected | src/main.rs:110-114 | a six-field payload is rejected |

## Left out

- WebSocket connection, TLS setup, the reconnect loop, ping/pong and close handling (src/main.rs:250-292, 457-495): transport plumbing outside the core.
- PostgreSQL connection and insert (src/main.rs:117-220): persistence is modelled only as the `persist` flag and the ghost `persisted` history. A failed insert is only logged, so it does not affect the state.
- The HTTP endpoints and `main` (src/main.rs:222-247, 497-526): server plumbing.
- JSON decoding of frames and sub-messages (src/main.rs:308-319, 372-378): sub-messages arrive decoded as `SubMessage`.
- Logging, including the message counter (src/main.rs:297, 304). At src/main.rs:396-401 and 420-425 only the first line of each `println!` is commented out, which leaves its arguments and closing `);` dangling, so the file as written does not compile. The model reads both statements as fully commented out: they would only log.
- Tracker.Stats: the settlement figures are exact sums. The rounding of multiplier, duration and money to two decimals (src/main.rs:96-102) is not modelled, so the contract does not state the source's cent-rounded values.
- Floating point in general: amounts, multipliers and durations are exact reals. Rounding error in sums and the exact-equality tests `v == 1.0`, `s == 0.0` and `mult == 0.0` are taken at their real-number meaning.
- Numbers.ParseNum: only plain decimals (optional sign, digits, at most one point) are read. Exponent forms, `inf`, `infinity` and `NaN` read as 0.0 in the model, although the program's float parser accepts them.
- The 32-bit casts of the bet and cashout counts (src/main.rs:82-83) and the 32-bit round counter (src/main.rs:295): counts are unbounded integers. Wrap-around would need more than 2^31 entries.
- Date and time formatting (src/main.rs:91-95): `GameRound.startedAt` holds the start instant the two columns are formatted from. The fallback to the current time is a parameter and is unreachable from `Step`, because an active round always has a start time.
