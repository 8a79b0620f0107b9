# Port of Mars: the Mars-event catalogue, in Dafny

This project models the Mars events of Port of Mars, a five-player,
role-based resource-management game. It also models the finalisation step of
the game's command-line tool, and proves properties of both.

**The event catalogue.** Each Mars event is a class. Classes register under
their class name (`assocEventId`). An event is rebuilt from its serialised
form by `constructState`, and serialised by `toJSON`, which carries the
class's `getData` when it has one. An event acts on the shared game state in
two ways:

- directly, in `initialize` and `finalize`;
- through actions it queues in a FIRST, MIDDLE or LAST tier, which run after
  the events are finalized.

The model covers all twenty-one registered event classes: sixteen, plus
the five `OutOfCommission` role variants. In `EventIds.EventId` they are
seventeen constructors, because `OutOfCommission(target)` stands for all
five variants; `Registry.REGISTERED` lists the twenty-one.

- The game state is a class, `Game.GameState`. Its snapshot is a value, and
  every event's `finalize` is specified by one pure function of it,
  `MarsEvents.Finalized`.
- The votes are counted and ranked in `Ballots`:
  - the yes-voters of PersonalGain;
  - the tallies and the winner of CompulsivePhilanthropy.

**The command line.** `finalize` replays a game and adds the terminal event
the game is missing: defeat or victory. If the game is unfinished, it refuses.
The model also has the option helpers `customParseInt` and `toIntArray`, with
JavaScript's `parseInt` written out.

Modules, one per file:

| file | module | what it holds |
|---|---|---|
| `roles.dfy` | `Roles` | roles, resources, the shared role order |
| `text.dfy` | `Text` | number rendering, `join`, white space, `trim` |
| `eventnames.dfy` | `EventNames` | `formatEventName` |
| `ballots.dfy` | `Ballots` | the PersonalGain and CompulsivePhilanthropy ballots |
| `game.dfy` | `Game` | players, system health, the log, the deferred actions and the `GameState` class |
| `eventids.dfy` | `EventIds` | the event classes and their names |
| `registry.dfy` | `Registry` | the dispatch table |
| `marsevents.dfy` | `MarsEvents` | event state, (de)serialisation, `finalize`/`initialize` and the `MarsEventState` class |
| `cli.dfy` | `Cli` | the finalisation decision, `parseInt`, `customParseInt`, `toIntArray` |

Where the source calls something it does not define, the model makes that an
input or states it as an assumption. Examples:

- `_.shuffle(ROLES)` becomes the `shuffled` parameter.
- `GameState` and `Player` are modelled by their effect on a snapshot.
- The game replayer's end state is an input of `Cli.FinalizeGame`.
- The persister and the process exit are its outcome.

## Model

| member | source | states |
|---|---|---|
| `EventNames.FormatEventNameShape` | server/src/rooms/game/state/marsevents/state.ts:16-20 | For a letters-only class name, the title is the name with a space before every capital except a leading one. A character of the title is a space exactly when a capital follows it, and the title never starts with a space. |
| `EventNames.FormatEventName` | server/src/rooms/game/state/marsevents/state.ts:16-20 | Defines formatEventName: a space before every A-Z, then trim. It has no contract of its own; FormatEventNameShape and FormatEventNameRoundTrip state what it gives. |
| `EventNames.FormatEventNameRoundTrip` | server/src/rooms/game/state/marsevents/state.ts:16-20 | Deleting the spaces of a letters-only name's title gives the name back, so distinct class names give distinct titles. |
| `EventIds.EventName` | server/src/rooms/game/state/marsevents/state.ts:22-24 | Defines the registry id of each class, taken to be its class name (getEventName is assumed; see "## Left out"). It has no contract of its own; EventNameInjective and Registry.DispatchHoldsOnlyEventNames state that the 17 names are distinct and are exactly the registry keys. |
| `EventIds.EventNameInjective` | server/src/rooms/game/state/marsevents/state.ts:22-24 | No two event classes have the same name, so no registration overwrites another. |
| `Registry.EveryEventRegistered` | server/src/rooms/game/state/marsevents/state.ts:63-502 | Every event class, including each of the five OutOfCommission role classes, carries the registering decorator. |
| `Registry.AssocEventId` | server/src/rooms/game/state/marsevents/state.ts:22-24 | Registering a class files it under its name and leaves every other entry as it was. |
| `Registry.RegisterAddsNames` | server/src/rooms/game/state/marsevents/state.ts:22-24 | Registering a sequence of classes keeps the earlier entries and adds every class's name. |
| `Registry.RegisterFilesUnderName` | server/src/rooms/game/state/marsevents/state.ts:22-24 | If every entry is filed under its own class's name before registration, that still holds afterwards. |
| `Registry.Register` | server/src/rooms/game/state/marsevents/state.ts:22-24 | Defines the table the decorators build: each class filed in turn by assocEventId. It has no contract of its own; RegisterAddsNames and RegisterFilesUnderName state its properties. |
| `Registry.Dispatch` | server/src/rooms/game/state/marsevents/state.ts:14-24 | Defines `_dispatch` once every decorator has run: all twenty-one classes registered, in order, into an empty table. DispatchFindsEveryEvent and DispatchHoldsOnlyEventNames state its contents. |
| `Registry.DispatchFindsEveryEvent` | server/src/rooms/game/state/marsevents/state.ts:22-33 | After all the decorators have run, looking up an event's class name finds that event's class. |
| `Registry.DispatchHoldsOnlyEventNames` | server/src/rooms/game/state/marsevents/state.ts:14-33 | An id is in the table exactly when it is some class's name, and the entry it finds is that class. |
| `Registry.NoEventNamed` | server/src/rooms/game/state/marsevents/state.ts:26-32 | A string that the name test rejects is the name of no event class, and the registry has no entry under it. |
| `MarsEvents.DataOf` | server/src/rooms/game/state/marsevents/state.ts:53-54 | Defines what getData returns: the votes (PersonalGain, 179-181), the votes and the order (CompulsivePhilanthropy, 244-246), the roles (OutOfCommission, 285-287) and the influence votes (BondingThroughAdversity, 404-406), and nothing for the other classes. It has no contract of its own; MarsEventState.GetData, SerializeNamesTheClass and RebuildKeepsData state that it is present exactly for those four classes and that constructing from it rebuilds the same fields. |
| `MarsEvents.Serialize` | server/src/rooms/game/state/marsevents/state.ts:49-57 | toJSON's id is a registered name, and it looks up the event's own class. |
| `MarsEvents.InitialFields` | server/src/rooms/game/state/marsevents/state.ts:85-379 | The fields each class's constructor sets up from the data always fit that class. |
| `MarsEvents.SerializeNamesTheClass` | server/src/rooms/game/state/marsevents/state.ts:49-57 | toJSON's id looks up the event's own class, and it carries data exactly when the class defines getData. |
| `MarsEvents.DefaultPersonalGainVotes` | server/src/rooms/game/state/marsevents/state.ts:127-135 | PersonalGain's default ballot has all five roles voting yes. |
| `MarsEvents.ZeroAllocations` | server/src/rooms/game/state/marsevents/state.ts:88-92 | BreakdownOfTrust starts with a placeholder allocation of 0 for every role. |
| `MarsEvents.FreshPersonalGainVotesYes` | server/src/rooms/game/state/marsevents/state.ts:139-143 | A PersonalGain built without data has every role voting yes. |
| `MarsEvents.FreshPhilanthropyVotesForSelf` | server/src/rooms/game/state/marsevents/state.ts:194-204 | A CompulsivePhilanthropy built without data has every role voting for itself, and uses the shuffled role order. |
| `MarsEvents.CommissionIgnoresInput` | server/src/rooms/game/state/marsevents/state.ts:253-336 | Each OutOfCommission role class ignores its data. Its roles map is the identity, and the player it puts out of commission is its own role. |
| `MarsEvents.SerializationRoundTrip` | server/src/rooms/game/state/marsevents/state.ts:26-57 | Passing toJSON's id and data to constructState rebuilds an event of the same class with the same getData. |
| `MarsEvents.RebuildKeepsData` | server/src/rooms/game/state/marsevents/state.ts:139-287 | Every constructor, given the class's own getData, rebuilds that getData. |
| `MarsEvents.TrustAllocationsNotSerialized` | server/src/rooms/game/state/marsevents/state.ts:85-118 | BreakdownOfTrust has no getData: its toJSON carries no data, and a rebuilt event holds the zero placeholders again. |
| `MarsEvents.NoClassNamedConstructor` | server/src/rooms/game/state/marsevents/state.ts:14-33 | No event class is named "constructor", so the registry holds no entry under that id. |
| `MarsEvents.ResolveAsWritten` | server/src/rooms/game/state/marsevents/state.ts:27-28 | Defines the as-written `_dispatch[id]` lookup: a registered class, the inherited Object constructor for "constructor", and a throw for every other id. It has no contract of its own; ConstructorIdPassesTheCheck states that "constructor" gets through, and ConstructState with ConstructStateKnowsOnlyClassNames states the intended refusal. |
| `MarsEvents.ConstructorIdPassesTheCheck` | server/src/rooms/game/state/marsevents/state.ts:14-33 | The lookup as written still resolves the id "constructor", to the Object constructor every object inherits. |
| `MarsEvents.ConstructState` | server/src/rooms/game/state/marsevents/state.ts:26-33 | It fails, with the id, exactly when the id is registered under no class. Otherwise it returns a fresh event of the registered class, built from the data. |
| `MarsEvents.ConstructStateKnowsOnlyClassNames` | server/src/rooms/game/state/marsevents/state.ts:26-33 | constructState accepts exactly the class names, and an accepted name builds the class of that name. |
| `MarsEvents.MarsEventState.constructor` | server/src/rooms/game/state/marsevents/state.ts:139-143 | A new event holds the fields its class's constructor gives it for the data passed in. |
| `MarsEvents.MarsEventState.GetData` | server/src/rooms/game/state/marsevents/state.ts:179-181 | getData is present exactly for PersonalGain, CompulsivePhilanthropy, OutOfCommission and BondingThroughAdversity. |
| `MarsEvents.MarsEventState.ToJSON` | server/src/rooms/game/state/marsevents/state.ts:49-57 | The id is the registered name of the event's class, and the data is getData's result. |
| `MarsEvents.MarsEventState.UpdatePersonalGainVote` | server/src/rooms/game/state/marsevents/state.ts:145-148 | Records one role's yes/no vote and changes nothing else. |
| `MarsEvents.MarsEventState.VoteForPlayer` | server/src/rooms/game/state/marsevents/state.ts:206-208 | Records whom the voter chose, and keeps the role order. |
| `MarsEvents.MarsEventState.UpdateBondingVote` | server/src/rooms/game/state/marsevents/state.ts:381-383 | Records the influence a role chose. |
| `MarsEvents.MarsEventState.PlayerOutOfCommission` | server/src/rooms/game/state/marsevents/state.ts:269-272 | The roles map of an OutOfCommission event sends every role to itself. |
| `MarsEvents.AddedInvestments` | server/src/rooms/game/state/marsevents/state.ts:104-106 | Each resource's pending investment grows by the amount given for it, or stays the same when no amount is given. |
| `MarsEvents.MarsEventState.UpdateSavedResources` | server/src/rooms/game/state/marsevents/state.ts:104-106 | Only the named player's pending investments change, by AddedInvestments. |
| `MarsEvents.SavedAllocations` | server/src/rooms/game/state/marsevents/state.ts:94-102 | Saves each player's currentTimeBlocksAmount under its role. |
| `MarsEvents.MarsEventState.InitializeBreakdownOfTrust` | server/src/rooms/game/state/marsevents/state.ts:94-102 | Saves every player's currentTimeBlocksAmount, gives every player 2 time blocks, and changes nothing else in the game. |
| `MarsEvents.TrustInitialized` | server/src/rooms/game/state/marsevents/state.ts:94-102 | Defines the game and the fields after BreakdownOfTrust.initialize: every player set to 2 time blocks, and each role's currentTimeBlocksAmount saved. It has no contract of its own; TrustSavesAndRestores states both halves, and MarsEventState.InitializeBreakdownOfTrust is proved to reach it. |
| `MarsEvents.TrustSavesAndRestores` | server/src/rooms/game/state/marsevents/state.ts:94-117 | After initialize, every player has 2 time blocks. After finalize, whatever happened in between, each player has the allocation saved for its role. |
| `MarsEvents.GainInfluence` | server/src/rooms/game/state/marsevents/state.ts:393 | The chosen resource goes up by one, and every other resource and player field stays the same. |
| `MarsEvents.Finalized` | server/src/rooms/game/state/marsevents/state.ts:63-502 | Defines the game state after each class's finalize, case by case. It has no contract of its own; the Finalize* lemmas below state its properties, and MarsEventState.Finalize is proved to reach it. |
| `MarsEvents.FinalizeHealthLoss` | server/src/rooms/game/state/marsevents/state.ts:63-461 | Sandstorm, HullBreach, CropFailure and SolarFlare lower health once, by 10, 7, 20 and 5, stopping at the floor. Every other finalize leaves health alone. |
| `MarsEvents.FinalizeTrading` | server/src/rooms/game/state/marsevents/state.ts:452-471 | Only SolarFlare and MarketsClosed close trading. Every other finalize leaves the flag as it was. |
| `MarsEvents.FinalizeLogsOnce` | server/src/rooms/game/state/marsevents/state.ts:63-502 | finalize only appends to the log: one entry, or none for PersonalGain, OutOfCommission and DifficultConditions. |
| `MarsEvents.LogOnlyEventsChangeNothingElse` | server/src/rooms/game/state/marsevents/state.ts:338-483 | LifeAsUsual, Audit, ChangingTides, Interdisciplinary and EffortsWasted change nothing in the modelled state but the log. |
| `MarsEvents.HealthAndTradingEventsLogTheirEntry` | server/src/rooms/game/state/marsevents/state.ts:63-471 | Sandstorm, HullBreach, CropFailure, SolarFlare and MarketsClosed keep the players and the queue, and each appends exactly its own message in its own category to the log. With FinalizeHealthLoss and FinalizeTrading this gives their whole new state. |
| `MarsEvents.FinalizeQueue` | server/src/rooms/game/state/marsevents/state.ts:163-283 | Exactly PersonalGain, OutOfCommission and CompulsivePhilanthropy queue an action: one each, in the FIRST, MIDDLE and LAST tier respectively. Other events leave the queue alone. |
| `MarsEvents.PersonalGainOnlyQueues` | server/src/rooms/game/state/marsevents/state.ts:163-177 | PersonalGain's finalize queues its payout, with the yes-voter text, and changes nothing else. |
| `MarsEvents.PersonalGainActionPays` | server/src/rooms/game/state/marsevents/state.ts:164-176 | The queued payout does three things: it gives each yes-voter 6 time blocks and only that; it lowers health once by 6 per yes-voter; it logs the reduction and the voters. |
| `MarsEvents.PhilanthropyElectsTopVoted` | server/src/rooms/game/state/marsevents/state.ts:210-242 | The winner has the highest tally, and no earlier role in the stored order has that tally. The logged count is the highest tally. The winner's investment is queued last. |
| `MarsEvents.CommissionTargetsItsRole` | server/src/rooms/game/state/marsevents/state.ts:274-334 | An OutOfCommission role class queues, as a MIDDLE action, an action that targets its own role. |
| `MarsEvents.CommissionActionSetsOnlyTarget` | server/src/rooms/game/state/marsevents/state.ts:275-282 | The queued action leaves the target with exactly 3 time blocks. It changes no other player, health or the queue, and appends exactly one log entry: the "has 3 time blocks" message, in the OutOfCommission category. |
| `MarsEvents.BondingGainsOneOfChoice` | server/src/rooms/game/state/marsevents/state.ts:391-398 | Each player that voted gains one of the influence it chose and nothing else. A player that did not vote is unchanged. |
| `MarsEvents.StymiedBlocksSpecialty` | server/src/rooms/game/state/marsevents/state.ts:486-493 | Every player's specialty now costs 1000. Its other costs and the rest of the player stay the same. |
| `MarsEvents.DifficultConditionsDoublesUpkeep` | server/src/rooms/game/state/marsevents/state.ts:496-502 | Every player's upkeep doubles, and nothing else about the player changes. Health, the log and the queue stay the same. |
| `MarsEvents.FinalizeKeepsValid` | server/src/rooms/game/state/marsevents/state.ts:63-502 | Every finalize keeps all five players well formed and health within its bounds. |
| `MarsEvents.MarsEventState.Finalize` | server/src/rooms/game/state/marsevents/state.ts:63-502 | Each class's finalize, run on the game object, leaves exactly the state Finalized describes. |
| `MarsEvents.MarsEventState.FinalizeBreakdownOfTrust` | server/src/rooms/game/state/marsevents/state.ts:108-117 | Every player gets its saved time blocks back, and the event is logged. |
| `MarsEvents.MarsEventState.FinalizePersonalGain` | server/src/rooms/game/state/marsevents/state.ts:163-177 | Queues the payout as a FIRST action, with the yes-voter text computed at finalize. |
| `MarsEvents.MarsEventState.FinalizeCompulsivePhilanthropy` | server/src/rooms/game/state/marsevents/state.ts:210-242 | Tallies the votes and collects the top-voted roles. It logs the first of them in the stored order, with its count, and queues that role's investment as a LAST action. |
| `MarsEvents.MarsEventState.FinalizeBondingThroughAdversity` | server/src/rooms/game/state/marsevents/state.ts:391-398 | Gives each player one of its chosen influence, then logs once. |
| `MarsEvents.MarsEventState.FinalizeStymied` | server/src/rooms/game/state/marsevents/state.ts:487-492 | Sets every player's specialty cost to 1000, then logs once. |
| `MarsEvents.MarsEventState.FinalizeDifficultConditions` | server/src/rooms/game/state/marsevents/state.ts:497-501 | Doubles every player's upkeep and logs nothing. |
| `Ballots.YesVoters` | server/src/rooms/game/state/marsevents/state.ts:154-159 | Defines the loop's list of yes-voters over a run of candidates, in their order. Its own contract bounds only its length; the membership and the order are stated by YesVotersMembers and YesVotersInRoleOrder. |
| `Ballots.YesVotersMembers` | server/src/rooms/game/state/marsevents/state.ts:150-161 | The listed yes-voters are exactly the roles that voted yes. |
| `Ballots.YesVotersInRoleOrder` | server/src/rooms/game/state/marsevents/state.ts:150-161 | The yes-voters are listed in the shared role order, each once. |
| `Ballots.Names` | server/src/rooms/game/state/marsevents/state.ts:155-157 | Each listed role is turned into its name, in the same position. |
| `Ballots.VotingInfo` | server/src/rooms/game/state/marsevents/state.ts:150-161 | Defines the yes-voter text: the yes-voters' names in role order, comma joined. It has no contract of its own; VotingInfoReadsBack states what the text holds. |
| `Ballots.VotingInfoReadsBack` | server/src/rooms/game/state/marsevents/state.ts:150-161 | The logged text can be read back: split at ',', it gives exactly the yes-voters' names in role order, and it is empty when nobody voted yes. |
| `Ballots.PlayerVotingInfo` | server/src/rooms/game/state/marsevents/state.ts:150-161 | The loop's text is the comma-joined names of the yes-voters, in role order. |
| `Ballots.VotesFor` | server/src/rooms/game/state/marsevents/state.ts:219-221 | Defines the number of `voters` whose vote is for the candidate. Its own contract bounds it by the number of voters; VotesForCountsDistinctVoters states that it counts each distinct voter with that choice once. |
| `Ballots.Tally` | server/src/rooms/game/state/marsevents/state.ts:211-221 | Defines a role's vote count as VotesFor over all five roles. It has no contract of its own; TallyCountsVoters states that it is the number of voters that chose the role. |
| `Ballots.TallyCountsVoters` | server/src/rooms/game/state/marsevents/state.ts:211-221 | A role's tally is the number of voters that chose it. |
| `Ballots.VotesForCountsDistinctVoters` | server/src/rooms/game/state/marsevents/state.ts:219-221 | Counting over distinct voters counts each voter for the candidate once. |
| `Ballots.Tallies` | server/src/rooms/game/state/marsevents/state.ts:211-221 | There is a count for every role, and it is that role's tally. |
| `Ballots.TallyVotes` | server/src/rooms/game/state/marsevents/state.ts:211-221 | The counting loop gives every role its tally. |
| `Ballots.MaxCount` | server/src/rooms/game/state/marsevents/state.ts:223-233 | The count the winner loop ends with is at least every role's tally and is some role's tally; it is 0 when there are no roles. |
| `Ballots.Leaders` | server/src/rooms/game/state/marsevents/state.ts:223-233 | The winners kept are exactly the roles whose tally equals the count. |
| `Ballots.NoLeadersAboveMax` | server/src/rooms/game/state/marsevents/state.ts:223-233 | No role reaches a count above the maximum. |
| `Ballots.FindWinners` | server/src/rooms/game/state/marsevents/state.ts:223-233 | The winner loop leaves the count at the maximum tally and the winners at exactly the roles with that tally. |
| `Ballots.FirstListedIndex` | server/src/rooms/game/state/marsevents/state.ts:233 | _.find stops at the first role of the order that is among the winners. |
| `Ballots.ChooseWinner` | server/src/rooms/game/state/marsevents/state.ts:233 | The choice is a role of the order. It is one of the winners, unless no role of the order is a winner; then it is the order's first role. |
| `Ballots.Winner` | server/src/rooms/game/state/marsevents/state.ts:223-233 | The chosen philanthropist is a role of the stored order. |
| `Ballots.MostVoted` | server/src/rooms/game/state/marsevents/state.ts:223-233 | Defines the winners the splice/push loop keeps: the Leaders at the maximum tally, in role order. It has no contract of its own; MostVotedNonEmpty, Leaders and FindWinners state that it is non-empty and holds exactly the roles with the maximum tally. |
| `Ballots.MostVotedNonEmpty` | server/src/rooms/game/state/marsevents/state.ts:223-233 | There is always at least one winner, and no tally exceeds the maximum. |
| `Ballots.WinnerHasMostVotes` | server/src/rooms/game/state/marsevents/state.ts:223-233 | With a full role order, the chosen philanthropist has the maximum tally. |
| `Ballots.WinnerIsFirstInOrder` | server/src/rooms/game/state/marsevents/state.ts:233 | The chosen philanthropist is the first top-voted role in the stored order; every role before it has a lower tally. |
| `Ballots.CastVotes` | server/src/rooms/game/state/marsevents/state.ts:206-208 | Defines the ballot after a sequence of voteForPlayer calls, each overwriting its voter's entry. It has no contract of its own; CastVotesKeepsLastChoice and VoteArrivalOrderIrrelevant state what the ballot holds. |
| `Ballots.CastVotesKeepsLastChoice` | server/src/rooms/game/state/marsevents/state.ts:206-208 | After a sequence of voteForPlayer calls, each voter holds the choice of its last call, and a voter that made no call keeps its old entry. |
| `Ballots.VoteArrivalOrderIrrelevant` | server/src/rooms/game/state/marsevents/state.ts:206-208 | Any two sequences of voteForPlayer calls in which every voter ends on the same choice give the same ballot, and so the same winner, whatever order the calls arrived in. |
| `Game.FormattedCategoryNamesTheClass` | server/src/rooms/game/state/marsevents/state.ts:16-20 | A category made from a letters-only class name has a title whose spaces mark its capitals, and deleting them gives the class name back. |
| `Game.ClampHealth` | server/src/rooms/game/state/marsevents/state.ts:66 | Health always stays within the floor and the ceiling; a value already inside is kept, and one outside is cut to the bound it passed. |
| `Game.DecreaseLowersByExactly` | server/src/rooms/game/state/marsevents/state.ts:66 | Decreasing health never raises it; it lowers it by exactly the amount unless that would go below the floor, which then caps it. |
| `Game.IncreaseRaisesByExactly` | server/src/rooms/game/state/marsevents/state.ts:239 | Increasing health never lowers it; it raises it by exactly the amount unless that would pass the ceiling, which then caps it. |
| `Game.EachPlayer` | server/src/rooms/game/state/marsevents/state.ts:487-489 | Updating every player applies the change to each player under its own role and keeps the set of roles. |
| `Game.UpdateEachPlayer` | server/src/rooms/game/state/marsevents/state.ts:497-500 | The per-role loop gives the same players as updating every player at once. |
| `Game.PersonalGainApplied` | server/src/rooms/game/state/marsevents/state.ts:165-176 | Defines the game after the PersonalGain action. It has no contract of its own; PersonalGainActionPays and PersonalGainPaysWhatHealthLoses state what it pays, charges and logs, and GameState.ExecuteGrantPersonalGain is proved to reach it. |
| `Game.PersonalGainBalances` | server/src/rooms/game/state/marsevents/state.ts:166-171 | Over any prefix of the role order, the payout adds 6 time blocks per yes-voter to the players' total. |
| `Game.PersonalGainPaysWhatHealthLoses` | server/src/rooms/game/state/marsevents/state.ts:165-173 | The time blocks paid out equal the system-health reduction that is charged and logged. |
| `Game.PayYesVoters` | server/src/rooms/game/state/marsevents/state.ts:165-172 | The payout loop pays exactly the yes-voters and adds 6 to the reduction for each. |
| `Game.InvestApplied` | server/src/rooms/game/state/marsevents/state.ts:238-241 | Defines the game after the CompulsivePhilanthropy action. It has no contract of its own; InvestMovesTimeBlocksIntoHealth states its effect, and GameState.ExecuteInvestInSystemHealth is proved to reach it. |
| `Game.InvestMovesTimeBlocksIntoHealth` | server/src/rooms/game/state/marsevents/state.ts:238-241 | The winner's time blocks go into health, and the winner is left with none. Health grows by exactly those time blocks, or stops at the ceiling when the sum would pass it. No other player, the log and the queue change. |
| `Game.CommissionApplied` | server/src/rooms/game/state/marsevents/state.ts:275-282 | Defines the game after the OutOfCommission action. It has no contract of its own; MarsEvents.CommissionActionSetsOnlyTarget states its effect, and GameState.ExecutePutOutOfCommission is proved to reach it. |
| `Game.ActionApplied` | server/src/rooms/game/state/marsevents/state.ts:163-283 | Defines running a queued action by its descriptor: the PersonalGain, CompulsivePhilanthropy or OutOfCommission closure. It has no contract of its own; ActionKeepsValid states that it keeps the game well formed and leaves the queue and trading alone, and GameState.ExecuteAction is proved to reach it. |
| `Game.ActionKeepsValid` | server/src/rooms/game/state/marsevents/state.ts:164-282 | Running any queued action keeps the game well formed. It never touches the queue or the trading flag. |
| `Game.FlushOrder` | server/src/rooms/game/state/marsevents/state.ts:165-275 | Defines the assumed run order of the actions pushed at lines 165 (FIRST), 238 (LAST) and 275 (MIDDLE): by tier, then in push order. The flush routine is not part of this model; the lemmas below state the properties of this order. |
| `Game.OfTierShape` | server/src/rooms/game/state/marsevents/state.ts:165 | For the tiers pushed at lines 165, 238 and 275: the actions picked from one tier are all of that tier, and they are exactly the queued actions of that tier. |
| `Game.TiersPartition` | server/src/rooms/game/state/marsevents/state.ts:165 | For the tiers pushed at lines 165, 238 and 275: the three tiers together hold every queued action exactly once. |
| `Game.FlushOrderIsPermutation` | server/src/rooms/game/state/marsevents/state.ts:238 | The assumed flush order of the actions pushed at lines 165, 238 and 275 is a permutation of the queue. |
| `Game.FlushOrderSortedByTier` | server/src/rooms/game/state/marsevents/state.ts:275 | In the assumed flush order of the actions pushed at lines 165, 238 and 275, FIRST actions run before MIDDLE ones, and MIDDLE before LAST. |
| `Game.FlushOrderStable` | server/src/rooms/game/state/marsevents/state.ts:165 | In the assumed flush order of the actions pushed at lines 165, 238 and 275, actions of one tier run in the order they were pushed. |
| `Game.OfTierAppend` | server/src/rooms/game/state/marsevents/state.ts:238 | For the tiers pushed at lines 165, 238 and 275: picking a tier from two queues in sequence is picking it from each, in sequence. |
| `Game.OfTierOfTier` | server/src/rooms/game/state/marsevents/state.ts:275 | For the tiers pushed at lines 165, 238 and 275: picking a tier twice is picking it once; picking two different tiers in turn gives nothing. |
| `Game.GameState.DecreaseSystemHealth` | server/src/rooms/game/state/marsevents/state.ts:427 | Lowers health by the amount, stopping at the floor, and changes nothing else. |
| `Game.GameState.IncreaseSystemHealth` | server/src/rooms/game/state/marsevents/state.ts:239 | Raises health by the amount, stopping at the ceiling, and changes nothing else. |
| `Game.GameState.DisableTrading` | server/src/rooms/game/state/marsevents/state.ts:456 | Clears the trading flag and changes nothing else. |
| `Game.GameState.Log` | server/src/rooms/game/state/marsevents/state.ts:67 | Appends one entry to the log and changes nothing else. |
| `Game.GameState.PushPendingAction` | server/src/rooms/game/state/marsevents/state.ts:238 | Appends one action to the queue and changes nothing else. |
| `Game.GameState.ExecuteGrantPersonalGain` | server/src/rooms/game/state/marsevents/state.ts:164-176 | Running PersonalGain's closure on the game object leaves the state PersonalGainApplied describes. |
| `Game.GameState.ExecuteInvestInSystemHealth` | server/src/rooms/game/state/marsevents/state.ts:238-241 | Running CompulsivePhilanthropy's closure leaves the state InvestApplied describes. |
| `Game.GameState.ExecutePutOutOfCommission` | server/src/rooms/game/state/marsevents/state.ts:275-282 | Running OutOfCommission's closure leaves the state CommissionApplied describes. |
| `Game.GameState.ExecuteAction` | server/src/rooms/game/state/marsevents/state.ts:164-282 | Running any queued action on the game object leaves the state ActionApplied describes. |
| `Roles.IdentityRoles` | server/src/rooms/game/state/marsevents/state.ts:196-202 | The default assignment sends every role to itself. |
| `Text.NatToString` | server/src/rooms/game/state/marsevents/state.ts:174 | A number's rendering is a non-empty run of decimal digits, and it is one digit long exactly for numbers below 10. |
| `Text.Join` | server/src/rooms/game/state/marsevents/state.ts:160 | An empty list gives the empty string, and a single name gives just that name. |
| `Text.JoinSnoc` | server/src/rooms/game/state/marsevents/state.ts:160 | Two or more names give the join of all but the last, the separator, and the last name. |
| `Text.SplitJoin` | server/src/rooms/game/state/marsevents/state.ts:160 | Joined with a one-character separator that no part contains, the parts come back by splitting at that character. |
| `Text.Trim` | server/src/rooms/game/state/marsevents/state.ts:17 | The result is a slice of the input: everything cut before and after it is white space, and it neither starts nor ends with white space. |
| `Text.TrimStart` | server/src/rooms/game/state/marsevents/state.ts:17 | The result is a suffix that does not start with white space, and only white space was removed. |
| `Text.TrimEnd` | server/src/rooms/game/state/marsevents/state.ts:17 | The result is a prefix that does not end with white space, and only white space was removed. |
| `Cli.FinalizeDecision` | server/src/cli.ts:105-120 | Defines the decision the finalize routine takes on the replayed end state. It has no contract of its own; FinalizeDecisionCases states each outcome with its exact condition. |
| `Cli.FinalizeDecisionCases` | server/src/cli.ts:105-120 | A terminal phase means nothing to do. Otherwise, health at or below 0 gives defeat, even when the last round is reached; reaching the last round gives victory; and only an unfinished game is refused. |
| `Cli.EnteredPhase` | server/src/cli.ts:108-113 | Each terminal event enters a terminal phase. |
| `Cli.FinalizeIsIdempotent` | server/src/cli.ts:105-107 | Once the emitted event has been applied, finalizing again does nothing. |
| `Cli.FinalizeGame` | server/src/cli.ts:99-122 | The three outcomes: it persists exactly one event, the one the decision names; it leaves a terminal game unchanged; it exits with status 1 exactly when the game is unfinished. |
| `Cli.DigitValue` | server/src/cli.ts:240 | Digit values stay within 36, and a value is below 10 exactly for a decimal digit. |
| `Cli.ParseIntRadix` | server/src/cli.ts:240 | Defines JavaScript's parseInt(input, radix): skip white space, take a sign, choose the radix, read the longest run of digits. It has no contract of its own; the ParseInt* lemmas below state what it reads. |
| `Cli.ParseInt` | server/src/cli.ts:240 | Defines parseInt with no radix, as toIntArray and customParseInt call it. ParseIntReadsDecimal, ParseIntReadsNegative and ParseIntReadsHexPrefix state what it reads. |
| `Cli.DigitPrefix` | server/src/cli.ts:240 | parseInt reads the longest prefix made of the radix's digits. |
| `Cli.ParseIntReadsDecimal` | server/src/cli.ts:253-255 | parseInt reads back the decimal rendering of every natural number. |
| `Cli.ParseIntReadsNegative` | server/src/cli.ts:253-255 | A leading minus sign negates the value read. |
| `Cli.ParseIntSkipsLeadingWhitespace` | server/src/cli.ts:253-255 | Leading white space does not change what parseInt reads, in any radix. |
| `Cli.ParseIntIgnoresTrailingText` | server/src/cli.ts:239-241 | A numeral followed by anything that starts with no digit reads as the numeral. The exception is "0" followed by x or X. |
| `Cli.ParseIntWithoutDigitsIsNaN` | server/src/cli.ts:239-241 | With neither a digit nor a sign after the white space, parseInt gives NaN. |
| `Cli.ParseIntReadsHexPrefix` | server/src/cli.ts:253-255 | A 0x or 0X prefix makes parseInt read the rest in hexadecimal. |
| `Cli.CustomParseInt` | server/src/cli.ts:253-255 | Defines customParseInt: parseInt of the value, with the second argument unused. CustomParseIntIsDecimal states that it reads decimal whatever that argument is. |
| `Cli.CustomParseIntIsDecimal` | server/src/cli.ts:243-255 | customParseInt reads every decimal numeral in base 10, whatever second argument commander passes. |
| `Cli.ParseIntRadixTwelve` | server/src/cli.ts:243-252 | If the default of 12 were passed on as the radix, every decimal numeral would be read in base 12. |
| `Cli.DefaultAsRadixMisreads` | server/src/cli.ts:243-255 | With 12 as the radix, "12" would read as 14; customParseInt reads it as 12. |
| `Cli.ToIntArray` | server/src/cli.ts:239-241 | The result is one longer than the previous values, keeps them as its prefix, and ends with the parsed value. |
| `Cli.CollectIntsParsesEach` | server/src/cli.ts:239-241 | Folding toIntArray over a repeated option's values gives one parsed value per value, in order. The fold starts from `[]`, the default both toIntArray options give at cli.ts:289 and 338. |

## Left out

- `invertPendingInventory` and `mergePendingAndInventory` are not modelled.
  BreakdownOfTrust calls these Player methods in `initialize` and `finalize`, and
  their code is not part of this model. The model covers only the
  time-block side of BreakdownOfTrust.
- ChangingTides discards every player's accomplishments and draws a new one.
  That is not modelled, because the accomplishment deck is not part of this
  model. Only its log entry is.
- The queue is flushed outside the event catalogue, and that routine is not
  part of this model. The model states only the order a flush runs in
  (`Game.FlushOrder`) and what each action does (`Game.GameState.ExecuteAction`).
- The deferred closures are modelled as descriptors that carry the values the
  closures use. The PersonalGain descriptor takes the votes at `finalize`,
  while the closure reads `this.votes` when it runs. The two differ only if the
  votes change between `finalize` and the flush.
- Players are values in a map keyed by role. Aliasing of the player objects is
  not modelled, and neither is lodash's `cloneDeep`, which is the identity on
  values.
- `getEventName` is defined outside the event catalogue. It is assumed to
  give a class's name.
- The shared `ROLES` constant is defined outside the event catalogue. The
  model assumes its order is Curator, Entrepreneur, Pioneer, Politician,
  Researcher (`Roles.ROLES`). That order decides the order of the yes-voter
  text and of the collected winners; the winner itself and the `order[0]`
  fallback come from the stored order.
- `_.shuffle(ROLES)` is random. It is the `shuffled` input, taken to be a
  permutation of the five roles.
- `MarsEvents.InitialFields` treats a payload whose shape does not match the
  class's getData as absent. It also replaces a stored CompulsivePhilanthropy
  order that is not a permutation of the five roles with the shuffled order.
  The source would keep such an order, and its winner could then be
  undefined.
- BondingThroughAdversity's default vote is an unset static, so a player that
  has not voted would bump `inventory[undefined]`. The model leaves that
  player's real resources unchanged and does not represent the stray key.
- `decreaseSystemHealth` and `increaseSystemHealth` are defined outside the
  event catalogue. The model assumes they clamp health to [0, 100]
  (`Game.ClampHealth`).
- `setTimeBlocks` is assumed to set only `timeBlocks`.
- `pendingInvestments.add` is assumed to add the amounts resource by
  resource.
- The shared `Phase` enumeration is not part of this model. Only its
  terminal phases `defeat` and `victory` are used, and the other names are
  placeholders.
- In cli.ts, the model leaves out the database connection and the replay of
  stored events; the replayed end state is `Cli.FinalizeGame`'s input.
- The persister's `persist`, `sync` and `finalize` calls are left out. They
  are I/O, the persisted events are the method's outcome, and the metadata
  (game id, date, time remaining) is not modelled.
- The rest of cli.ts is left out too: the events' `playerScores`, logging, the
  commander set-up and the other subcommands, which are I/O, and
  `getRandomInt`, which is randomness.
- `Cli.ParseIntRadix` works on unbounded integers. JavaScript numbers are
  doubles, so numerals beyond 2^53 lose precision in the source and not in
  the model.
- `Cli.ParseIntRadix` gives 0 for "-0", where JavaScript gives negative zero.
- `Cli.ParseIntRadix` takes the radix after its conversion to a 32-bit
  integer.
- `updateVotes`, `voteForPlayer` and BondingThroughAdversity's `updateVotes`
  accept every call, after `finalize` too. Nothing in the event classes
  rejects a late vote, and the model follows the code.

## Findings

| source | as written | input that shows it | evidently intended | confidence | as-written member | corrected member |
|---|---|---|---|---|---|---|
| server/src/rooms/game/state/marsevents/state.ts:14-33 | `_dispatch` is an ordinary object literal, so `_dispatch[id]` also finds the members every object inherits from `Object.prototype`. For the id `constructor` the lookup yields the `Object` function: the `if (constructor)` test passes, and `constructState` returns `new Object(data)` instead of throwing. | `constructState("constructor", {})` | an id that is no event class's name is refused with an error | not executed | `MarsEvents.ConstructorIdPassesTheCheck` | `MarsEvents.ConstructState` |
