/**
 * The Mars-event catalogue: the state each event class keeps, what getData
 * and toJSON expose of it, how constructState rebuilds an event, and what
 * each class's initialize and finalize do to the game.
 */
module MarsEvents {
  import opened Roles
  import opened Text
  import opened Ballots
  import opened Game
  import opened EventIds
  import opened Registry

  // ---------------------------------------------------------------------------
  // Event state and its serialised form
  // ---------------------------------------------------------------------------

  /** The instance fields of an event; classes without fields have NoFields. */
  datatype EventFields =
    | NoFields
    | TrustFields(savedTimeBlockAllocations: map<Role, int>)
    | GainFields(votes: map<Role, bool>)
    | PhilanthropyFields(philanthropyVotes: map<Role, Role>, order: seq<Role>)
    | CommissionFields(player: Role, roles: map<Role, Role>)
    | BondingFields(influenceVotes: map<Role, Resource>)

  /** What getData returns, per class that defines it. */
  datatype EventData =
    | GainVotes(votes: map<Role, bool>)
    | PhilanthropyData(philanthropyVotes: map<Role, Role>, order: seq<Role>)
    | CommissionData(roles: map<Role, Role>)
    | InfluenceVotes(influenceVotes: map<Role, Resource>)

  /** MarsEventSerialized: the class name, and getData's result when the class has one. */
  datatype MarsEventSerialized = MarsEventSerialized(id: string, data: Option<EventData>)

  /** The fields an event of class k carries. */
  predicate FieldsFit(k: EventId, f: EventFields)
  {
    match k
    case BreakdownOfTrust => f.TrustFields? && forall r: Role :: r in f.savedTimeBlockAllocations
    case PersonalGain => f.GainFields?
    case CompulsivePhilanthropy => f.PhilanthropyFields? && IsRoleOrder(f.order)
    case OutOfCommission(r) => f == CommissionFields(r, IdentityRoles())
    case BondingThroughAdversity => f.BondingFields?
    case _ => f == NoFields
  }

  /** The classes that define getData. */
  predicate HasGetData(k: EventId)
  {
    k.PersonalGain? || k.CompulsivePhilanthropy? || k.OutOfCommission? || k.BondingThroughAdversity?
  }

  /** getData of an event with fields f, or None for a class without getData. */
  function DataOf(f: EventFields): Option<EventData>
  {
    match f
    case GainFields(votes) => Some(GainVotes(votes))
    case PhilanthropyFields(votes, order) => Some(PhilanthropyData(votes, order))
    case CommissionFields(_, roles) => Some(CommissionData(roles))
    case BondingFields(votes) => Some(InfluenceVotes(votes))
    case _ => None
  }

  /** BaseEvent.toJSON. */
  function Serialize(k: EventId, f: EventFields): MarsEventSerialized
  {
    MarsEventSerialized(EventName(k), DataOf(f))
  }

  /** toJSON names the event's class, and carries data exactly when the class defines getData. */
  lemma SerializeNamesTheClass(k: EventId, f: EventFields)
    requires FieldsFit(k, f)
    ensures Serialize(k, f).id in Dispatch() && Dispatch()[Serialize(k, f).id] == k
    ensures Serialize(k, f).data.Some? <==> HasGetData(k)
  {
    DispatchFindsEveryEvent(k);
  }

  // ---------------------------------------------------------------------------
  // Construction
  // ---------------------------------------------------------------------------

  /** PersonalGain.defaultVotes: every role votes yes. */
  function DefaultPersonalGainVotes(): (votes: map<Role, bool>)
    ensures forall r: Role :: r in votes && votes[r]
  {
    var votes := map[Curator := true, Entrepreneur := true, Pioneer := true, Politician := true, Researcher := true];
    assert forall r: Role :: r in votes && votes[r] by {
      forall r: Role ensures r in votes && votes[r] { RoleCases(r); }
    }
    votes
  }

  /** The placeholder allocations BreakdownOfTrust starts from: 0 for every role. */
  function ZeroAllocations(): (saved: map<Role, int>)
    ensures forall r: Role :: r in saved && saved[r] == 0
  {
    var saved := map[Curator := 0, Entrepreneur := 0, Pioneer := 0, Politician := 0, Researcher := 0];
    assert forall r: Role :: r in saved && saved[r] == 0 by {
      forall r: Role ensures r in saved && saved[r] == 0 { RoleCases(r); }
    }
    saved
  }

  /**
   * The fields `new constructor(data)` gives an event of class k. `shuffled`
   * stands for `_.shuffle(ROLES)`. A payload that does not match the class's
   * getData shape is treated as absent.
   */
  function InitialFields(k: EventId, data: Option<EventData>, shuffled: seq<Role>): (f: EventFields)
    requires IsRoleOrder(shuffled)
    ensures FieldsFit(k, f)
  {
    match k
    case BreakdownOfTrust => TrustFields(ZeroAllocations())
    case PersonalGain => (
      match data
      case Some(GainVotes(votes)) => GainFields(votes)
      case _ => GainFields(DefaultPersonalGainVotes()))
    case CompulsivePhilanthropy => (
      match data
      case Some(PhilanthropyData(votes, order)) =>
        PhilanthropyFields(votes, if IsRoleOrder(order) then order else shuffled)
      case _ => PhilanthropyFields(IdentityRoles(), shuffled))
    case OutOfCommission(r) => CommissionFields(r, IdentityRoles())
    case BondingThroughAdversity => (
      match data
      case Some(InfluenceVotes(votes)) => BondingFields(votes)
      case _ => BondingFields(map[]))
    case _ => NoFields
  }

  /** A fresh PersonalGain, with nothing passed in, has all five roles voting yes. */
  lemma FreshPersonalGainVotesYes(shuffled: seq<Role>)
    requires IsRoleOrder(shuffled)
    ensures var f := InitialFields(PersonalGain, None, shuffled);
      forall r: Role :: VotedYes(f.votes, r)
  {
  }

  /** A fresh CompulsivePhilanthropy has every role voting for itself, and the shuffled order. */
  lemma FreshPhilanthropyVotesForSelf(shuffled: seq<Role>)
    requires IsRoleOrder(shuffled)
    ensures var f := InitialFields(CompulsivePhilanthropy, None, shuffled);
      f.order == shuffled && forall r: Role :: r in f.philanthropyVotes && f.philanthropyVotes[r] == r
  {
  }

  /**
   * Each OutOfCommission class ignores what it is passed and puts its own role
   * out of commission: the Pioneer class always targets the Pioneer.
   */
  lemma CommissionIgnoresInput(r: Role, data: Option<EventData>, shuffled: seq<Role>)
    requires IsRoleOrder(shuffled)
    ensures var f := InitialFields(OutOfCommission(r), data, shuffled);
      f.player == r && f.roles[f.player] == r && f.roles == IdentityRoles()
  {
  }

  /**
   * Passing toJSON's (id, data) back to constructState rebuilds an event of
   * the same class with the same getData.
   */
  lemma SerializationRoundTrip(k: EventId, f: EventFields, shuffled: seq<Role>)
    requires FieldsFit(k, f) && IsRoleOrder(shuffled)
    ensures var j := Serialize(k, f);
      j.id in Dispatch() && Dispatch()[j.id] == k &&
      DataOf(InitialFields(Dispatch()[j.id], j.data, shuffled)) == j.data
  {
    DispatchFindsEveryEvent(k);
    RebuildKeepsData(k, f, shuffled);
  }

  /** Rebuilding an event of class k from its own getData gives back that getData. */
  lemma RebuildKeepsData(k: EventId, f: EventFields, shuffled: seq<Role>)
    requires FieldsFit(k, f) && IsRoleOrder(shuffled)
    ensures DataOf(InitialFields(k, DataOf(f), shuffled)) == DataOf(f)
  {
  }

  /**
   * BreakdownOfTrust has no getData, so the allocations it saved do not
   * survive serialisation: the rebuilt event holds the placeholders again.
   */
  lemma TrustAllocationsNotSerialized(f: EventFields, shuffled: seq<Role>)
    requires FieldsFit(BreakdownOfTrust, f) && IsRoleOrder(shuffled)
    ensures var j := Serialize(BreakdownOfTrust, f);
      j.data == None && InitialFields(BreakdownOfTrust, j.data, shuffled) == TrustFields(ZeroAllocations())
  {
  }

  datatype ConstructError = UnknownEventType(id: string)

  /**
   * How `_dispatch[id]` resolves in JavaScript: `_dispatch` is an ordinary
   * object, so besides the registered classes it also finds the members it
   * inherits from Object.prototype. Of those, only `constructor` (the Object
   * function) can be called with `new`. Every other id throws: one that finds
   * nothing fails the `if (constructor)` test and throws the source's error;
   * an inherited member such as `toString` or `__proto__` passes the test and
   * then throws a TypeError at `new`, since it is no constructor.
   */
  datatype Resolution = RegisteredClass(k: EventId) | InheritedObjectConstructor | Throws

  function ResolveAsWritten(id: string): (r: Resolution)
  {
    if id in Dispatch() then RegisteredClass(Dispatch()[id])
    else if id == "constructor" then InheritedObjectConstructor
    else Throws
  }

  /**
   * The lookup as written lets the id "constructor" through: it names no event
   * class, yet `if (constructor)` holds and constructState returns
   * `new Object(data)` instead of throwing.
   */
  lemma ConstructorIdPassesTheCheck()
    ensures ResolveAsWritten("constructor") == InheritedObjectConstructor
  {
    NoClassNamedConstructor();
  }

  /** Discriminate rejects every 11-character string that starts with 'c'. */
  lemma LowerCaseElevenRejected(name: string)
    requires |name| == 11 && name[0] == 'c'
    ensures Discriminate(name) == None
  {
  }

  /** No event class is called "constructor", so the registry has no entry under that id. */
  lemma NoClassNamedConstructor()
    ensures forall k :: EventName(k) != "constructor"
    ensures "constructor" !in Dispatch()
  {
    var name := "constructor";
    assert |name| == 11 && name[0] == 'c';
    LowerCaseElevenRejected(name);
    NoEventNamed(name);
  }

  // ---------------------------------------------------------------------------
  // What finalize does, as a function of the game state
  // ---------------------------------------------------------------------------

  function Logged(s: GameSnapshot, message: string, category: LogCategory): GameSnapshot
  {
    s.(log := s.log + [LogEntry(message, category)])
  }

  function Queued(s: GameSnapshot, ordering: ActionOrdering, action: MarsEventAction): GameSnapshot
  {
    s.(pendingMarsEventActions := s.pendingMarsEventActions + [PendingAction(ordering, action)])
  }

  const SANDSTORM_DAMAGE: int := 10
  const HULL_BREACH_DAMAGE: int := 7
  const CROP_FAILURE_DAMAGE: int := 20
  const SOLAR_FLARE_DAMAGE: int := 5
  const BREAKDOWN_OF_TRUST_TIME_BLOCKS: int := 2
  const STYMIED_SPECIALTY_COST: int := 1000

  const SANDSTORM_MESSAGE: string := "A sandstorm has decreased system health by 10."
  const LIFE_AS_USUAL_MESSAGE: string := "As the first human outpost on Mars, having a \"usual\" day is pretty unusual."
  const BREAKDOWN_OF_TRUST_MESSAGE: string := "Each player can choose to save up to 2 units of Influence that they already own. The rest will be lost."
  const AUDIT_MESSAGE: string := "You will be able to view other players' resources. Hover over each player tab on the right to reveal their inventory."
  const BONDING_MESSAGE: string := "Players have gained one influence currency of their choice."
  const CHANGING_TIDES_MESSAGE: string := "Each player discards their current Accomplishments and draws one new Accomplishment."
  const HULL_BREACH_MESSAGE: string := "A hull breach has destroyed 7 System Health."
  const CROP_FAILURE_MESSAGE: string := "Crop failure has destroyed 20 system health."
  const INTERDISCIPLINARY_MESSAGE: string := "In this round, each player can spend 3 time blocks to earn an influence in either of the 2 influences they normally can't create."
  const SOLAR_FLARE_MESSAGE: string := "A Solar Flare has destroyed 5 System Health. Chat and trade are not available in this round."
  const MARKETS_CLOSED_MESSAGE: string := "Markets Closed: Players may not trade Influences this round."
  const EFFORTS_WASTED_MESSAGE: string := "Each player must discard an Accomplishment card they have purchased."
  const STYMIED_MESSAGE: string := "Players may not earn their specialty Influence this round."

  function PhilanthropyMessage(winner: Role, count: nat): string
  {
    "The " + RoleName(winner) + " was voted to be Compulsive Philanthropist with " + NatToString(count) +
    " votes. The " + RoleName(winner) + " invested all of their timeblocks into System Health."
  }

  /** `inventory[resource] += 1`. */
  function GainInfluence(p: Player, resource: Resource): (q: Player)
    requires PlayerValid(p)
    ensures PlayerValid(q) && q == p.(inventory := q.inventory)
    ensures q.inventory[resource] == p.inventory[resource] + 1
    ensures forall other: Resource :: other != resource ==> q.inventory[other] == p.inventory[other]
  {
    p.(inventory := p.inventory[resource := p.inventory[resource] + 1])
  }

  /** BondingThroughAdversity's step for one player: one more of the resource the role voted for. */
  function BondingStep(votes: map<Role, Resource>): (Role, Player) -> Player
  {
    (r: Role, p: Player) => if r in votes && PlayerValid(p) then GainInfluence(p, votes[r]) else p
  }

  /** Stymied's step: the specialty's cost becomes STYMIED_SPECIALTY_COST. */
  function StymiedStep(r: Role, p: Player): Player
  {
    p.(costs := p.costs.(influence := p.costs.influence[p.specialty := STYMIED_SPECIALTY_COST]))
  }

  /** DifficultConditions's step: the upkeep doubles. */
  function DifficultConditionsStep(r: Role, p: Player): Player
  {
    p.(costs := p.costs.(upkeep := p.costs.upkeep * 2))
  }

  /** BreakdownOfTrust.finalize's step: the time blocks go back to the saved allocation. */
  function RestoreStep(saved: map<Role, int>): (Role, Player) -> Player
  {
    (r: Role, p: Player) => if r in saved then p.(timeBlocks := saved[r]) else p
  }

  /** BreakdownOfTrust.initialize's step: every player has 2 time blocks for the event. */
  function LimitStep(r: Role, p: Player): Player
  {
    p.(timeBlocks := BREAKDOWN_OF_TRUST_TIME_BLOCKS)
  }

  /** The allocations BreakdownOfTrust.initialize saves: each player's currentTimeBlocksAmount. */
  function SavedAllocations(players: map<Role, Player>): (saved: map<Role, int>)
    ensures saved.Keys == players.Keys
    ensures forall r :: r in players ==> saved[r] == players[r].currentTimeBlocksAmount
  {
    map r | r in players :: players[r].currentTimeBlocksAmount
  }

  /** The game after finalize of an event of class k with fields f. */
  function Finalized(k: EventId, f: EventFields, s: GameSnapshot): GameSnapshot
    requires FieldsFit(k, f)
  {
    match k
    case Sandstorm =>
      Logged(s.(systemHealth := Decreased(s.systemHealth, SANDSTORM_DAMAGE)), SANDSTORM_MESSAGE, FormattedEvent("Sandstorm"))
    case LifeAsUsual => Logged(s, LIFE_AS_USUAL_MESSAGE, FormattedEvent("LifeAsUsual"))
    case BreakdownOfTrust =>
      Logged(s.(players := EachPlayer(s.players, RestoreStep(f.savedTimeBlockAllocations))),
             BREAKDOWN_OF_TRUST_MESSAGE, FormattedEvent("BreakdownOfTrust"))
    case PersonalGain => Queued(s, First, GrantPersonalGain(f.votes, VotingInfo(f.votes)))
    case CompulsivePhilanthropy =>
      var winner := Winner(f.philanthropyVotes, f.order);
      Queued(Logged(s, PhilanthropyMessage(winner, MaxTally(f.philanthropyVotes)), FormattedEvent("CompulsivePhilanthropy")),
             Last, InvestInSystemHealth(winner))
    case OutOfCommission(_) => Queued(s, Middle, PutOutOfCommission(f.player, f.roles[f.player]))
    case Audit => Logged(s, AUDIT_MESSAGE, FormattedEvent("Audit"))
    case BondingThroughAdversity =>
      Logged(s.(players := EachPlayer(s.players, BondingStep(f.influenceVotes))), BONDING_MESSAGE, FormattedEvent("BondingThroughAdversity"))
    case ChangingTides => Logged(s, CHANGING_TIDES_MESSAGE, FormattedEvent("ChangingTides"))
    case HullBreach =>
      Logged(s.(systemHealth := Decreased(s.systemHealth, HULL_BREACH_DAMAGE)), HULL_BREACH_MESSAGE, TitledEvent("Hull Breach"))
    case CropFailure =>
      Logged(s.(systemHealth := Decreased(s.systemHealth, CROP_FAILURE_DAMAGE)), CROP_FAILURE_MESSAGE, TitledEvent("Crop Failure"))
    case Interdisciplinary => Logged(s, INTERDISCIPLINARY_MESSAGE, TitledEvent("Interdisciplinary"))
    case SolarFlare =>
      Logged(s.(systemHealth := Decreased(s.systemHealth, SOLAR_FLARE_DAMAGE), tradingEnabled := false),
             SOLAR_FLARE_MESSAGE, TitledEvent("Solar Flare"))
    case MarketsClosed => Logged(s.(tradingEnabled := false), MARKETS_CLOSED_MESSAGE, TitledEvent("Markets Closed"))
    case EffortsWasted => Logged(s, EFFORTS_WASTED_MESSAGE, TitledEvent("Efforts Wasted"))
    case Stymied => Logged(s.(players := EachPlayer(s.players, StymiedStep)), STYMIED_MESSAGE, TitledEvent("Stymied"))
    case DifficultConditions => s.(players := EachPlayer(s.players, DifficultConditionsStep))
  }

  /** The classes whose finalize only writes to the Mars log. */
  predicate OnlyLogs(k: EventId)
  {
    k == LifeAsUsual || k == Audit || k == Interdisciplinary || k == EffortsWasted || k == ChangingTides
  }

  /** The classes whose finalize defers its effect to a queued action. */
  predicate Defers(k: EventId)
  {
    k.PersonalGain? || k.CompulsivePhilanthropy? || k.OutOfCommission?
  }

  // ---------------------------------------------------------------------------
  // Properties of finalize
  // ---------------------------------------------------------------------------

  /** The health each class's finalize takes away. */
  function HealthLoss(k: EventId): nat
  {
    match k
    case Sandstorm => SANDSTORM_DAMAGE
    case HullBreach => HULL_BREACH_DAMAGE
    case CropFailure => CROP_FAILURE_DAMAGE
    case SolarFlare => SOLAR_FLARE_DAMAGE
    case _ => 0
  }

  /**
   * Sandstorm, HullBreach, CropFailure and SolarFlare lower system health once
   * by 10, 7, 20 and 5 (down to the floor); every other finalize leaves it alone.
   */
  lemma FinalizeHealthLoss(k: EventId, f: EventFields, s: GameSnapshot)
    requires FieldsFit(k, f) && SnapshotValid(s)
    ensures var t := Finalized(k, f, s);
      (s.systemHealth - HealthLoss(k) >= SYSTEM_HEALTH_FLOOR ==> t.systemHealth == s.systemHealth - HealthLoss(k)) &&
      (s.systemHealth - HealthLoss(k) < SYSTEM_HEALTH_FLOOR ==> t.systemHealth == SYSTEM_HEALTH_FLOOR)
  {
  }

  /** SolarFlare and MarketsClosed close trading; no other finalize touches the flag. */
  lemma FinalizeTrading(k: EventId, f: EventFields, s: GameSnapshot)
    requires FieldsFit(k, f)
    ensures Finalized(k, f, s).tradingEnabled == if k == SolarFlare || k == MarketsClosed then false else s.tradingEnabled
  {
  }

  /**
   * Every finalize appends to the log and never rewrites it: one entry, except
   * PersonalGain and OutOfCommission (whose queued actions log later) and
   * DifficultConditions, which log nothing.
   */
  lemma FinalizeLogsOnce(k: EventId, f: EventFields, s: GameSnapshot)
    requires FieldsFit(k, f)
    ensures var t := Finalized(k, f, s);
      |t.log| == |s.log| + (if k.PersonalGain? || k.OutOfCommission? || k == DifficultConditions then 0 else 1) &&
      t.log[..|s.log|] == s.log
  {
  }

  /** LifeAsUsual, Audit, Interdisciplinary, EffortsWasted and ChangingTides change nothing but the log. */
  lemma LogOnlyEventsChangeNothingElse(k: EventId, f: EventFields, s: GameSnapshot)
    requires FieldsFit(k, f) && OnlyLogs(k)
    ensures var t := Finalized(k, f, s);
      t.(log := s.log) == s && |t.log| == |s.log| + 1 && t.log[..|s.log|] == s.log
  {
  }

  /** The classes whose finalize changes only system health or trading, besides the log. */
  predicate OnlyHealthOrTrading(k: EventId)
  {
    k == Sandstorm || k == HullBreach || k == CropFailure || k == SolarFlare || k == MarketsClosed
  }

  /**
   * Sandstorm, HullBreach, CropFailure, SolarFlare and MarketsClosed keep the
   * players and the queue, and append exactly their own entry to the log;
   * FinalizeHealthLoss and FinalizeTrading state the rest of the new state.
   */
  lemma HealthAndTradingEventsLogTheirEntry(k: EventId, f: EventFields, s: GameSnapshot)
    requires FieldsFit(k, f) && OnlyHealthOrTrading(k)
    ensures var t := Finalized(k, f, s);
      t.players == s.players && t.pendingMarsEventActions == s.pendingMarsEventActions &&
      (k == Sandstorm ==> t.log == s.log + [LogEntry(SANDSTORM_MESSAGE, FormattedEvent("Sandstorm"))]) &&
      (k == HullBreach ==> t.log == s.log + [LogEntry(HULL_BREACH_MESSAGE, TitledEvent("Hull Breach"))]) &&
      (k == CropFailure ==> t.log == s.log + [LogEntry(CROP_FAILURE_MESSAGE, TitledEvent("Crop Failure"))]) &&
      (k == SolarFlare ==> t.log == s.log + [LogEntry(SOLAR_FLARE_MESSAGE, TitledEvent("Solar Flare"))]) &&
      (k == MarketsClosed ==> t.log == s.log + [LogEntry(MARKETS_CLOSED_MESSAGE, TitledEvent("Markets Closed"))])
  {
  }

  /**
   * Exactly the deferring classes queue an action, one each, in their tier:
   * PersonalGain FIRST, OutOfCommission MIDDLE, CompulsivePhilanthropy LAST.
   */
  lemma FinalizeQueue(k: EventId, f: EventFields, s: GameSnapshot)
    requires FieldsFit(k, f)
    ensures var t := Finalized(k, f, s);
      (!Defers(k) ==> t.pendingMarsEventActions == s.pendingMarsEventActions) &&
      (Defers(k) ==>
        |t.pendingMarsEventActions| == |s.pendingMarsEventActions| + 1 &&
        t.pendingMarsEventActions[..|s.pendingMarsEventActions|] == s.pendingMarsEventActions &&
        t.pendingMarsEventActions[|s.pendingMarsEventActions|].ordering ==
          (if k.PersonalGain? then First else if k.OutOfCommission? then Middle else Last))
  {
  }

  /** PersonalGain.finalize queues one FIRST action and changes nothing else. */
  lemma PersonalGainOnlyQueues(f: EventFields, s: GameSnapshot)
    requires FieldsFit(PersonalGain, f)
    ensures Finalized(PersonalGain, f, s) ==
      s.(pendingMarsEventActions := s.pendingMarsEventActions + [PendingAction(First, GrantPersonalGain(f.votes, VotingInfo(f.votes)))])
  {
  }

  /**
   * Running PersonalGain's queued action pays every yes-voter 6 time blocks,
   * leaves the others alone, and lowers health once, by 6 per yes-voter.
   */
  lemma PersonalGainActionPays(s: GameSnapshot, votes: map<Role, bool>, info: string)
    requires SnapshotValid(s)
    ensures var t := ActionApplied(s, GrantPersonalGain(votes, info));
      (forall r: Role :: t.players[r].timeBlocks == s.players[r].timeBlocks + (if VotedYes(votes, r) then PERSONAL_GAIN_BONUS else 0)) &&
      (forall r: Role :: t.players[r] == s.players[r].(timeBlocks := t.players[r].timeBlocks)) &&
      t.systemHealth == Decreased(s.systemHealth, PERSONAL_GAIN_BONUS * |YesVotersOf(votes)|) &&
      t.tradingEnabled == s.tradingEnabled && t.pendingMarsEventActions == s.pendingMarsEventActions &&
      t.log == s.log + [LogEntry(PersonalGainMessage(PERSONAL_GAIN_BONUS * |YesVotersOf(votes)|, info), FormattedEvent("PersonalGain"))]
  {
    forall r: Role ensures r in s.players { }
  }

  /**
   * CompulsivePhilanthropy.finalize logs the maximum tally, and queues the
   * winner: a role with the maximum tally, the first such in the stored order.
   */
  lemma PhilanthropyElectsTopVoted(f: EventFields, s: GameSnapshot)
    requires FieldsFit(CompulsivePhilanthropy, f)
    ensures var t := Finalized(CompulsivePhilanthropy, f, s);
      var votes := f.philanthropyVotes;
      var w := Winner(votes, f.order);
      t.log == s.log + [LogEntry(PhilanthropyMessage(w, MaxTally(votes)), FormattedEvent("CompulsivePhilanthropy"))] &&
      t.pendingMarsEventActions == s.pendingMarsEventActions + [PendingAction(Last, InvestInSystemHealth(w))] &&
      Tally(votes, w) == MaxTally(votes) &&
      (forall r: Role :: Tally(votes, r) <= Tally(votes, w)) &&
      (exists i :: 0 <= i < |f.order| && f.order[i] == w && forall j :: 0 <= j < i ==> Tally(votes, f.order[j]) < MaxTally(votes))
  {
    WinnerHasMostVotes(f.philanthropyVotes, f.order);
    var i := WinnerIsFirstInOrder(f.philanthropyVotes, f.order);
  }

  /** The OutOfCommission class for role r queues, in the MIDDLE tier, an action that targets r. */
  lemma CommissionTargetsItsRole(r: Role, f: EventFields, s: GameSnapshot)
    requires FieldsFit(OutOfCommission(r), f)
    ensures Finalized(OutOfCommission(r), f, s) ==
      s.(pendingMarsEventActions := s.pendingMarsEventActions + [PendingAction(Middle, PutOutOfCommission(r, r))])
  {
  }

  /** The queued OutOfCommission action sets only the target's time blocks, to 3, and logs once. */
  lemma CommissionActionSetsOnlyTarget(s: GameSnapshot, r: Role)
    requires SnapshotValid(s)
    ensures var t := ActionApplied(s, PutOutOfCommission(r, r));
      t.players[r] == s.players[r].(timeBlocks := OUT_OF_COMMISSION_TIME_BLOCKS) &&
      (forall other :: other != r ==> t.players[other] == s.players[other]) && t.players.Keys == s.players.Keys &&
      t.systemHealth == s.systemHealth && t.tradingEnabled == s.tradingEnabled &&
      t.pendingMarsEventActions == s.pendingMarsEventActions &&
      t.log == s.log + [LogEntry(OutOfCommissionMessage(r), FormattedEvent("OutOfCommission"))]
  {
  }

  /**
   * BondingThroughAdversity gives each player exactly one more of the resource
   * it voted for and leaves every other resource, and everything else, as it
   * was; a player that has not voted is left unchanged.
   */
  lemma BondingGainsOneOfChoice(f: EventFields, s: GameSnapshot)
    requires FieldsFit(BondingThroughAdversity, f) && SnapshotValid(s)
    ensures var t := Finalized(BondingThroughAdversity, f, s);
      forall r: Role | r in f.influenceVotes ::
        t.players[r].inventory[f.influenceVotes[r]] == s.players[r].inventory[f.influenceVotes[r]] + 1 &&
        (forall other: Resource :: other != f.influenceVotes[r] ==> t.players[r].inventory[other] == s.players[r].inventory[other]) &&
        t.players[r] == s.players[r].(inventory := t.players[r].inventory)
    ensures var t := Finalized(BondingThroughAdversity, f, s);
      forall r: Role | r !in f.influenceVotes :: t.players[r] == s.players[r]
  {
    var t := Finalized(BondingThroughAdversity, f, s);
    forall r: Role | r in f.influenceVotes
      ensures t.players[r].inventory[f.influenceVotes[r]] == s.players[r].inventory[f.influenceVotes[r]] + 1
      ensures forall other: Resource :: other != f.influenceVotes[r] ==> t.players[r].inventory[other] == s.players[r].inventory[other]
      ensures t.players[r] == s.players[r].(inventory := t.players[r].inventory)
    {
      assert r in s.players && PlayerValid(s.players[r]);
      assert t.players[r] == GainInfluence(s.players[r], f.influenceVotes[r]);
    }
    forall r: Role | r !in f.influenceVotes ensures t.players[r] == s.players[r] {
      assert r in s.players;
    }
  }

  /** Stymied makes every player's specialty cost 1000 and leaves the other costs alone. */
  lemma StymiedBlocksSpecialty(f: EventFields, s: GameSnapshot)
    requires FieldsFit(Stymied, f) && SnapshotValid(s)
    ensures var t := Finalized(Stymied, f, s);
      forall r: Role ::
        t.players[r].costs.influence[s.players[r].specialty] == STYMIED_SPECIALTY_COST &&
        (forall res: Resource :: res != s.players[r].specialty ==> t.players[r].costs.influence[res] == s.players[r].costs.influence[res]) &&
        t.players[r].costs.upkeep == s.players[r].costs.upkeep &&
        t.players[r] == s.players[r].(costs := t.players[r].costs)
  {
    var t := Finalized(Stymied, f, s);
    forall r: Role
      ensures t.players[r] == StymiedStep(r, s.players[r])
    {
      assert r in s.players;
    }
  }

  /** DifficultConditions doubles every player's upkeep and writes nothing to the log. */
  lemma DifficultConditionsDoublesUpkeep(f: EventFields, s: GameSnapshot)
    requires FieldsFit(DifficultConditions, f) && SnapshotValid(s)
    ensures var t := Finalized(DifficultConditions, f, s);
      (forall r: Role :: t.players[r].costs.upkeep == 2 * s.players[r].costs.upkeep &&
        t.players[r] == s.players[r].(costs := s.players[r].costs.(upkeep := t.players[r].costs.upkeep))) &&
      t.log == s.log && t.systemHealth == s.systemHealth && t.pendingMarsEventActions == s.pendingMarsEventActions
  {
    var t := Finalized(DifficultConditions, f, s);
    forall r: Role
      ensures t.players[r] == DifficultConditionsStep(r, s.players[r])
    {
      assert r in s.players;
    }
  }

  /** The game and the fields after BreakdownOfTrust.initialize. */
  function TrustInitialized(s: GameSnapshot): (GameSnapshot, EventFields)
  {
    (s.(players := EachPlayer(s.players, LimitStep)), TrustFields(SavedAllocations(s.players)))
  }

  /**
   * After BreakdownOfTrust.initialize every player has 2 time blocks; after
   * its finalize, whatever happened in between to the time blocks, each player
   * has the currentTimeBlocksAmount saved for its role.
   */
  lemma TrustSavesAndRestores(s: GameSnapshot, during: GameSnapshot)
    requires SnapshotValid(s) && SnapshotValid(during)
    ensures var (t, f) := TrustInitialized(s);
      FieldsFit(BreakdownOfTrust, f) &&
      (forall r: Role :: t.players[r].timeBlocks == BREAKDOWN_OF_TRUST_TIME_BLOCKS) &&
      (forall r: Role :: Finalized(BreakdownOfTrust, f, during).players[r].timeBlocks == s.players[r].currentTimeBlocksAmount)
  {
    var (t, f) := TrustInitialized(s);
    forall r: Role ensures r in s.players && r in during.players { }
  }

  /** Finalize keeps the game well formed. */
  lemma FinalizeKeepsValid(k: EventId, f: EventFields, s: GameSnapshot)
    requires FieldsFit(k, f) && SnapshotValid(s)
    ensures SnapshotValid(Finalized(k, f, s))
  {
    var t := Finalized(k, f, s);
    forall r: Role ensures r in t.players && t.players[r].role == r && PlayerValid(t.players[r]) {
      assert r in s.players && PlayerValid(s.players[r]);
    }
  }

  // ---------------------------------------------------------------------------
  // The event object
  // ---------------------------------------------------------------------------

  class MarsEventState {
    const id: EventId
    var fields: EventFields

    predicate Valid()
      reads this
    {
      FieldsFit(id, fields)
    }

    /** `new constructor(data)` for the class id; `shuffled` stands for `_.shuffle(ROLES)`. */
    constructor(id: EventId, data: Option<EventData>, shuffled: seq<Role>)
      requires IsRoleOrder(shuffled)
      ensures Valid() && this.id == id && fields == InitialFields(id, data, shuffled)
    {
      this.id := id;
      fields := InitialFields(id, data, shuffled);
    }

    /** getData, for the classes that define it. */
    function GetData(): (d: Option<EventData>)
      requires Valid()
      reads this
      ensures d.Some? <==> HasGetData(id)
    {
      DataOf(fields)
    }

    /** BaseEvent.toJSON: the registered class name, and a copy of getData's result if there is one. */
    function ToJSON(): (j: MarsEventSerialized)
      requires Valid()
      reads this
      ensures j.id in Dispatch() && Dispatch()[j.id] == id
      ensures j.data == GetData()
    {
      SerializeNamesTheClass(id, fields);
      Serialize(id, fields)
    }

    /** PersonalGain.updateVotes: record one role's vote. */
    method UpdatePersonalGainVote(player: Role, vote: bool)
      requires Valid() && id == PersonalGain
      modifies this
      ensures Valid()
      ensures fields == GainFields(old(fields).votes[player := vote])
    {
      fields := GainFields(fields.votes[player := vote]);
    }

    /** CompulsivePhilanthropy.voteForPlayer: record whom the voter chose. */
    method VoteForPlayer(voter: Role, philanthropist: Role)
      requires Valid() && id == CompulsivePhilanthropy
      modifies this
      ensures Valid()
      ensures fields == old(fields).(philanthropyVotes := old(fields).philanthropyVotes[voter := philanthropist])
    {
      fields := fields.(philanthropyVotes := fields.philanthropyVotes[voter := philanthropist]);
    }

    /** BondingThroughAdversity.updateVotes: record the influence the player chose. */
    method UpdateBondingVote(player: Role, vote: Resource)
      requires Valid() && id == BondingThroughAdversity
      modifies this
      ensures Valid()
      ensures fields == BondingFields(old(fields).influenceVotes[player := vote])
    {
      fields := BondingFields(fields.influenceVotes[player := vote]);
    }

    /** OutOfCommission.playerOutOfCommission: the role the roles map assigns, which is the role itself. */
    function PlayerOutOfCommission(outOfCommission: Role): (player: Role)
      requires Valid() && id.OutOfCommission?
      reads this
      ensures player == outOfCommission
    {
      fields.roles[outOfCommission]
    }

    /**
     * BreakdownOfTrust.updateSavedResources: add the chosen amounts to the
     * player's pending investments.
     */
    method UpdateSavedResources(player: Role, game: GameState, updatedInventory: map<Resource, int>)
      requires Valid() && id == BreakdownOfTrust && game.Valid()
      modifies game
      ensures game.Valid()
      ensures game.Snapshot() == old(game.Snapshot()).(players := old(game.players)[player :=
        old(game.players)[player].(pendingInvestments := AddedInvestments(old(game.players)[player].pendingInvestments, updatedInventory))])
    {
      var p := game.players[player];
      game.players := game.players[player := p.(pendingInvestments := AddedInvestments(p.pendingInvestments, updatedInventory))];
      ReplacedPlayerValid(old(game.players), player, game.players[player]);
    }

    /** BreakdownOfTrust.initialize: save each player's allocation, then give every player 2 time blocks. */
    method InitializeBreakdownOfTrust(game: GameState)
      requires Valid() && id == BreakdownOfTrust && game.Valid()
      modifies this, game
      ensures Valid() && game.Valid()
      ensures (game.Snapshot(), fields) == TrustInitialized(old(game.Snapshot()))
    {
      var saved := SavedAllocations(game.players);
      LimitKeepsValid(game.Snapshot());
      var limited := UpdateEachPlayer(game.players, LimitStep);
      fields := TrustFields(saved);
      game.players := limited;
    }

    /** finalize of every class, dispatched on the class as the method call does in the source. */
    method Finalize(game: GameState)
      requires Valid() && game.Valid()
      modifies game
      ensures game.Valid()
      ensures game.Snapshot() == Finalized(id, fields, old(game.Snapshot()))
    {
      FinalizeKeepsValid(id, fields, game.Snapshot());
      match id
      case Sandstorm =>
        game.DecreaseSystemHealth(SANDSTORM_DAMAGE);
        game.Log(SANDSTORM_MESSAGE, FormattedEvent("Sandstorm"));
      case LifeAsUsual => game.Log(LIFE_AS_USUAL_MESSAGE, FormattedEvent("LifeAsUsual"));
      case BreakdownOfTrust => FinalizeBreakdownOfTrust(game);
      case PersonalGain => FinalizePersonalGain(game);
      case CompulsivePhilanthropy => FinalizeCompulsivePhilanthropy(game);
      case OutOfCommission(_) => game.PushPendingAction(Middle, PutOutOfCommission(fields.player, PlayerOutOfCommission(fields.player)));
      case Audit => game.Log(AUDIT_MESSAGE, FormattedEvent("Audit"));
      case BondingThroughAdversity => FinalizeBondingThroughAdversity(game);
      case ChangingTides => game.Log(CHANGING_TIDES_MESSAGE, FormattedEvent("ChangingTides"));
      case HullBreach =>
        game.DecreaseSystemHealth(HULL_BREACH_DAMAGE);
        game.Log(HULL_BREACH_MESSAGE, TitledEvent("Hull Breach"));
      case CropFailure =>
        game.DecreaseSystemHealth(CROP_FAILURE_DAMAGE);
        game.Log(CROP_FAILURE_MESSAGE, TitledEvent("Crop Failure"));
      case Interdisciplinary => game.Log(INTERDISCIPLINARY_MESSAGE, TitledEvent("Interdisciplinary"));
      case SolarFlare =>
        game.DecreaseSystemHealth(SOLAR_FLARE_DAMAGE);
        game.DisableTrading();
        game.Log(SOLAR_FLARE_MESSAGE, TitledEvent("Solar Flare"));
      case MarketsClosed =>
        game.DisableTrading();
        game.Log(MARKETS_CLOSED_MESSAGE, TitledEvent("Markets Closed"));
      case EffortsWasted => game.Log(EFFORTS_WASTED_MESSAGE, TitledEvent("Efforts Wasted"));
      case Stymied => FinalizeStymied(game);
      case DifficultConditions => FinalizeDifficultConditions(game);
    }

    /** BreakdownOfTrust.finalize: every player's time blocks go back to the saved allocation. */
    method FinalizeBreakdownOfTrust(game: GameState)
      requires Valid() && id == BreakdownOfTrust && game.Valid()
      modifies game
      ensures game.Valid()
      ensures game.Snapshot() == Finalized(id, fields, old(game.Snapshot()))
    {
      FinalizeKeepsValid(id, fields, game.Snapshot());
      game.players := UpdateEachPlayer(game.players, RestoreStep(fields.savedTimeBlockAllocations));
      game.Log(BREAKDOWN_OF_TRUST_MESSAGE, FormattedEvent("BreakdownOfTrust"));
    }

    /** PersonalGain.finalize: compute the yes-voter text now and queue the payout as a FIRST action. */
    method FinalizePersonalGain(game: GameState)
      requires Valid() && id == PersonalGain && game.Valid()
      modifies game
      ensures game.Valid()
      ensures game.Snapshot() == Finalized(id, fields, old(game.Snapshot()))
    {
      var playerVotingInfo := PlayerVotingInfo(fields.votes);
      game.PushPendingAction(First, GrantPersonalGain(fields.votes, playerVotingInfo));
    }

    /**
     * CompulsivePhilanthropy.finalize: count the votes, collect the roles with
     * the top count, pick the first of them in the stored order, log the
     * result and queue the winner's investment as a LAST action.
     */
    method FinalizeCompulsivePhilanthropy(game: GameState)
      requires Valid() && id == CompulsivePhilanthropy && game.Valid()
      modifies game
      ensures game.Valid()
      ensures game.Snapshot() == Finalized(id, fields, old(game.Snapshot()))
    {
      var voteCounts := TallyVotes(fields.philanthropyVotes);
      var winners, count := FindWinners(voteCounts);
      var winner := ChooseWinner(fields.order, winners);
      game.Log(PhilanthropyMessage(winner, count), FormattedEvent("CompulsivePhilanthropy"));
      game.PushPendingAction(Last, InvestInSystemHealth(winner));
    }

    /** BondingThroughAdversity.finalize: each player gains one of the influence it voted for. */
    method FinalizeBondingThroughAdversity(game: GameState)
      requires Valid() && id == BondingThroughAdversity && game.Valid()
      modifies game
      ensures game.Valid()
      ensures game.Snapshot() == Finalized(id, fields, old(game.Snapshot()))
    {
      FinalizeKeepsValid(id, fields, game.Snapshot());
      game.players := UpdateEachPlayer(game.players, BondingStep(fields.influenceVotes));
      game.Log(BONDING_MESSAGE, FormattedEvent("BondingThroughAdversity"));
    }

    /** Stymied.finalize: every player's specialty becomes unaffordable. */
    method FinalizeStymied(game: GameState)
      requires Valid() && id == Stymied && game.Valid()
      modifies game
      ensures game.Valid()
      ensures game.Snapshot() == Finalized(id, fields, old(game.Snapshot()))
    {
      FinalizeKeepsValid(id, fields, game.Snapshot());
      game.players := UpdateEachPlayer(game.players, StymiedStep);
      game.Log(STYMIED_MESSAGE, TitledEvent("Stymied"));
    }

    /** DifficultConditions.finalize: every player's upkeep doubles; nothing is logged. */
    method FinalizeDifficultConditions(game: GameState)
      requires Valid() && id == DifficultConditions && game.Valid()
      modifies game
      ensures game.Valid()
      ensures game.Snapshot() == Finalized(id, fields, old(game.Snapshot()))
    {
      FinalizeKeepsValid(id, fields, game.Snapshot());
      game.players := UpdateEachPlayer(game.players, DifficultConditionsStep);
    }
  }

  /** `pendingInvestments.add(updatedInventory)`, taken to add the amounts resource by resource. */
  function AddedInvestments(pending: map<Resource, int>, added: map<Resource, int>): (sum: map<Resource, int>)
    ensures sum.Keys == pending.Keys
    ensures forall res :: res in pending ==> sum[res] == pending[res] + (if res in added then added[res] else 0)
  {
    map res | res in pending :: pending[res] + (if res in added then added[res] else 0)
  }

  /** Giving every player 2 time blocks keeps the game well formed. */
  lemma LimitKeepsValid(s: GameSnapshot)
    requires SnapshotValid(s)
    ensures SnapshotValid(s.(players := EachPlayer(s.players, LimitStep)))
  {
    var ps := EachPlayer(s.players, LimitStep);
    forall r: Role ensures r in ps && ps[r].role == r && PlayerValid(ps[r]) {
      assert r in s.players && PlayerValid(s.players[r]);
    }
  }

  /**
   * constructState: an unknown id is refused with an error; a known one gives
   * an event of the registered class built from the payload.
   */
  method ConstructState(id: string, data: Option<EventData>, shuffled: seq<Role>)
    returns (r: Result<MarsEventState, ConstructError>)
    requires IsRoleOrder(shuffled)
    ensures r.Failure? <==> id !in Dispatch()
    ensures r.Failure? ==> r.error == UnknownEventType(id)
    ensures r.Success? ==> fresh(r.value) && r.value.Valid() && r.value.id == Dispatch()[id] &&
                           r.value.fields == InitialFields(Dispatch()[id], data, shuffled)
  {
    var dispatch := Dispatch();
    if id in dispatch {
      var event := new MarsEventState(dispatch[id], data, shuffled);
      r := Success(event);
    } else {
      r := Failure(UnknownEventType(id));
    }
  }

  /** constructState finds exactly the class names: anything else, "constructor" included, is refused. */
  lemma ConstructStateKnowsOnlyClassNames(id: string)
    ensures id in Dispatch() <==> exists k :: EventName(k) == id
    ensures id in Dispatch() ==> EventName(Dispatch()[id]) == id
  {
    DispatchHoldsOnlyEventNames(id);
    if id in Dispatch() {
      assert EventName(Dispatch()[id]) == id;
    }
  }
}
