/**
 * The part of the game state the Mars events act on: the five players, the
 * system health, the trading flag, the append-only Mars log and the queue of
 * deferred Mars-event actions. GameState and Player are defined outside the
 * event catalogue; their primitive operations are modelled here by their
 * effect on this state.
 */
module Game {
  import opened Roles
  import opened Text
  import opened EventNames
  import opened Ballots

  // ---------------------------------------------------------------------------
  // System health
  // ---------------------------------------------------------------------------

  /** System health is assumed to be kept within [SYSTEM_HEALTH_FLOOR, SYSTEM_HEALTH_CEILING]. */
  const SYSTEM_HEALTH_FLOOR: int := 0
  const SYSTEM_HEALTH_CEILING: int := 100

  /** The assumed clamp of decreaseSystemHealth / increaseSystemHealth. */
  function ClampHealth(h: int): (c: int)
    ensures SYSTEM_HEALTH_FLOOR <= c <= SYSTEM_HEALTH_CEILING
    ensures SYSTEM_HEALTH_FLOOR <= h <= SYSTEM_HEALTH_CEILING ==> c == h
    ensures h < SYSTEM_HEALTH_FLOOR ==> c == SYSTEM_HEALTH_FLOOR
    ensures h > SYSTEM_HEALTH_CEILING ==> c == SYSTEM_HEALTH_CEILING
  {
    if h < SYSTEM_HEALTH_FLOOR then SYSTEM_HEALTH_FLOOR
    else if h > SYSTEM_HEALTH_CEILING then SYSTEM_HEALTH_CEILING
    else h
  }

  /** System health after decreaseSystemHealth(amount). */
  function Decreased(health: int, amount: int): int
  {
    ClampHealth(health - amount)
  }

  /** System health after increaseSystemHealth(amount). */
  function Increased(health: int, amount: int): int
  {
    ClampHealth(health + amount)
  }

  /**
   * A loss of `amount` from a health within range lowers it by exactly
   * `amount` unless that would go below the floor, where it stops.
   */
  lemma DecreaseLowersByExactly(health: int, amount: nat)
    requires SYSTEM_HEALTH_FLOOR <= health <= SYSTEM_HEALTH_CEILING
    ensures Decreased(health, amount) <= health
    ensures health - amount >= SYSTEM_HEALTH_FLOOR ==> Decreased(health, amount) == health - amount
    ensures health - amount < SYSTEM_HEALTH_FLOOR ==> Decreased(health, amount) == SYSTEM_HEALTH_FLOOR
  {
  }

  /** A gain of `amount` raises a health within range by exactly `amount` up to the ceiling. */
  lemma IncreaseRaisesByExactly(health: int, amount: nat)
    requires SYSTEM_HEALTH_FLOOR <= health <= SYSTEM_HEALTH_CEILING
    ensures health <= Increased(health, amount)
    ensures health + amount <= SYSTEM_HEALTH_CEILING ==> Increased(health, amount) == health + amount
    ensures health + amount > SYSTEM_HEALTH_CEILING ==> Increased(health, amount) == SYSTEM_HEALTH_CEILING
  {
  }

  // ---------------------------------------------------------------------------
  // Players
  // ---------------------------------------------------------------------------

  /** What a player pays: a cost per influence resource, and the upkeep. */
  datatype ResourceCosts = ResourceCosts(influence: map<Resource, int>, upkeep: int)

  datatype Player = Player(
    role: Role,
    timeBlocks: int,
    currentTimeBlocksAmount: int,
    inventory: map<Resource, int>,
    pendingInvestments: map<Resource, int>,
    costs: ResourceCosts,
    specialty: Resource)

  /** Every resource has an inventory count, a pending investment and a cost. */
  predicate PlayerValid(p: Player)
  {
    forall res: Resource :: res in p.inventory && res in p.pendingInvestments && res in p.costs.influence
  }

  /** The players of a game: one per role, each filed under its own role. */
  predicate PlayersValid(players: map<Role, Player>)
  {
    forall r: Role :: r in players && players[r].role == r && PlayerValid(players[r])
  }

  /** Replacing one player by a well-formed player of the same role keeps the players well formed. */
  lemma ReplacedPlayerValid(players: map<Role, Player>, r: Role, p: Player)
    requires PlayersValid(players) && p.role == r && PlayerValid(p)
    ensures PlayersValid(players[r := p])
  {
  }

  /** Two player maps that agree on every role are equal. */
  lemma SameOnEveryRole(a: map<Role, Player>, b: map<Role, Player>)
    requires forall r: Role :: r in a && r in b && a[r] == b[r]
    ensures a == b
  {
    assert a.Keys == b.Keys;
  }

  /**
   * The players of `base` with the first k roles of ROLES replaced by their
   * entries in `target`: the state of a "for role of ROLES" loop after k steps.
   */
  function Overlay(base: map<Role, Player>, target: map<Role, Player>, k: nat): (m: map<Role, Player>)
    requires k <= |ROLES|
    requires forall r: Role :: r in base && r in target
    ensures forall r: Role :: r in m
  {
    if k == 0 then base else Overlay(base, target, k - 1)[ROLES[k - 1] := target[ROLES[k - 1]]]
  }

  /** After k steps the roles before position k hold their target, the others their old value. */
  lemma {:induction false} OverlayAgrees(base: map<Role, Player>, target: map<Role, Player>, k: nat)
    requires k <= |ROLES|
    requires forall r: Role :: r in base && r in target
    ensures forall r: Role :: Overlay(base, target, k)[r] == if RoleIndex(r) < k then target[r] else base[r]
  {
    if k > 0 {
      OverlayAgrees(base, target, k - 1);
      RoleIndexOfPosition(k - 1);
    }
  }

  /** After all five steps every role holds its target. */
  lemma OverlayComplete(base: map<Role, Player>, target: map<Role, Player>)
    requires forall r: Role :: r in base && r in target
    ensures Overlay(base, target, |ROLES|) == target
  {
    OverlayAgrees(base, target, |ROLES|);
    SameOnEveryRole(Overlay(base, target, |ROLES|), target);
  }

  /** Every player replaced by f of its role and itself. */
  function EachPlayer(players: map<Role, Player>, f: (Role, Player) -> Player): (m: map<Role, Player>)
    ensures m.Keys == players.Keys
    ensures forall r :: r in players ==> m[r] == f(r, players[r])
  {
    map r | r in players :: f(r, players[r])
  }

  /**
   * `for (const player of game.players) { ...player... }`: the per-player loop
   * of several events, applying f to each player in ROLES order.
   */
  method UpdateEachPlayer(players: map<Role, Player>, f: (Role, Player) -> Player) returns (updated: map<Role, Player>)
    requires forall r: Role :: r in players
    ensures updated == EachPlayer(players, f)
  {
    var target := EachPlayer(players, f);
    updated := players;
    for i := 0 to |ROLES|
      invariant updated == Overlay(players, target, i)
    {
      var role := ROLES[i];
      OverlayAgrees(players, target, i);
      RoleIndexOfPosition(i);
      updated := updated[role := f(role, updated[role])];
    }
    OverlayComplete(players, target);
  }

  /** The time blocks the players of `rs` hold together. */
  function TotalTimeBlocks(players: map<Role, Player>, rs: seq<Role>): int
    requires forall r :: r in rs ==> r in players
  {
    if rs == [] then 0
    else TotalTimeBlocks(players, rs[..|rs| - 1]) + players[rs[|rs| - 1]].timeBlocks
  }

  // ---------------------------------------------------------------------------
  // The Mars log and the deferred actions
  // ---------------------------------------------------------------------------

  /**
   * The category of a Mars-event log entry, `${MarsLogCategory.event}: title`.
   * Most events take the title from their class name through formatEventName
   * (FormattedEvent); a few write it out (TitledEvent).
   */
  datatype LogCategory = FormattedEvent(eventName: string) | TitledEvent(title: string)

  /** The title part of a category. */
  function CategoryTitle(c: LogCategory): string
  {
    match c
    case FormattedEvent(eventName) => FormatEventName(eventName)
    case TitledEvent(title) => title
  }

  /**
   * A formatted category names its class: for a letters-only class name the
   * title's spaces mark its capitals, and deleting them gives the name back.
   */
  lemma FormattedCategoryNamesTheClass(eventName: string)
    requires IsLetters(eventName)
    ensures SpacesMarkCapitals(CategoryTitle(FormattedEvent(eventName)))
    ensures RemoveSpaces(CategoryTitle(FormattedEvent(eventName))) == eventName
  {
    FormatEventNameShape(eventName);
    FormatEventNameRoundTrip(eventName);
  }

  datatype LogEntry = LogEntry(message: string, category: LogCategory)

  /** The tier of a deferred action: FIRST actions run before MIDDLE ones, MIDDLE before LAST. */
  datatype ActionOrdering = First | Middle | Last

  /**
   * The deferred closures the events push, as descriptors carrying the values
   * each closure uses when it runs.
   */
  datatype MarsEventAction =
    | GrantPersonalGain(votes: map<Role, bool>, votingInfo: string)
    | InvestInSystemHealth(winner: Role)
    | PutOutOfCommission(player: Role, target: Role)

  datatype PendingAction = PendingAction(ordering: ActionOrdering, action: MarsEventAction)

  /** The time blocks PersonalGain pays each yes-voter, and the health each of them costs. */
  const PERSONAL_GAIN_BONUS: nat := 6

  /** The time blocks an out-of-commission player is left with. */
  const OUT_OF_COMMISSION_TIME_BLOCKS: int := 3

  function PersonalGainMessage(reduction: nat, votingInfo: string): string
  {
    "System health decreased by " + NatToString(reduction) + ". The following players voted yes: " + votingInfo
  }

  function OutOfCommissionMessage(player: Role): string
  {
    RoleName(player) + " has 3 time blocks to invest during this round."
  }

  // ---------------------------------------------------------------------------
  // The game state as a value, and what the deferred actions do to it
  // ---------------------------------------------------------------------------

  datatype GameSnapshot = GameSnapshot(
    players: map<Role, Player>,
    systemHealth: int,
    tradingEnabled: bool,
    log: seq<LogEntry>,
    pendingMarsEventActions: seq<PendingAction>)

  predicate SnapshotValid(s: GameSnapshot)
  {
    PlayersValid(s.players) && SYSTEM_HEALTH_FLOOR <= s.systemHealth <= SYSTEM_HEALTH_CEILING
  }

  /** Every yes-voter of `votes` with PERSONAL_GAIN_BONUS more time blocks. */
  function PersonalGainPlayers(players: map<Role, Player>, votes: map<Role, bool>): (ps: map<Role, Player>)
    ensures ps.Keys == players.Keys
    ensures forall r :: r in players && VotedYes(votes, r) ==>
      ps[r] == players[r].(timeBlocks := players[r].timeBlocks + PERSONAL_GAIN_BONUS)
    ensures forall r :: r in players && !VotedYes(votes, r) ==> ps[r] == players[r]
  {
    map r | r in players :: if VotedYes(votes, r) then players[r].(timeBlocks := players[r].timeBlocks + PERSONAL_GAIN_BONUS) else players[r]
  }

  /** The health PersonalGain costs: PERSONAL_GAIN_BONUS per yes-voter. */
  function PersonalGainReduction(votes: map<Role, bool>): nat
  {
    PERSONAL_GAIN_BONUS * |YesVotersOf(votes)|
  }

  /** The PersonalGain action: pay the yes-voters, charge the health once, log the vote. */
  function PersonalGainApplied(s: GameSnapshot, votes: map<Role, bool>, votingInfo: string): GameSnapshot
  {
    var reduction := PersonalGainReduction(votes);
    s.(players := PersonalGainPlayers(s.players, votes),
       systemHealth := Decreased(s.systemHealth, reduction),
       log := s.log + [LogEntry(PersonalGainMessage(reduction, votingInfo), FormattedEvent("PersonalGain"))])
  }

  /**
   * The time blocks PersonalGain hands out are exactly the health it takes:
   * the players' total grows by the reduction the log reports.
   */
  lemma {:induction false} PersonalGainBalances(players: map<Role, Player>, votes: map<Role, bool>, k: nat)
    requires k <= |ROLES|
    requires forall r: Role :: r in players
    ensures TotalTimeBlocks(PersonalGainPlayers(players, votes), ROLES[..k]) ==
            TotalTimeBlocks(players, ROLES[..k]) + PERSONAL_GAIN_BONUS * |YesVoters(votes, ROLES[..k])|
  {
    if k > 0 {
      PersonalGainBalances(players, votes, k - 1);
      assert ROLES[..k][..k - 1] == ROLES[..k - 1];
    }
  }

  /** Over all five roles: the payout equals PersonalGainReduction. */
  lemma PersonalGainPaysWhatHealthLoses(players: map<Role, Player>, votes: map<Role, bool>)
    requires forall r: Role :: r in players
    ensures TotalTimeBlocks(PersonalGainPlayers(players, votes), ROLES) ==
            TotalTimeBlocks(players, ROLES) + PersonalGainReduction(votes)
  {
    PersonalGainBalances(players, votes, |ROLES|);
    assert ROLES[..|ROLES|] == ROLES;
  }

  /** The CompulsivePhilanthropy action: the winner's time blocks go into system health. */
  function InvestApplied(s: GameSnapshot, winner: Role): GameSnapshot
    requires winner in s.players
  {
    var p := s.players[winner];
    s.(systemHealth := Increased(s.systemHealth, p.timeBlocks),
       players := s.players[winner := p.(timeBlocks := 0)])
  }

  /**
   * After the CompulsivePhilanthropy action the winner holds no time blocks,
   * health has grown by what the winner held (up to the ceiling), and no
   * other player, the log and the queue are untouched.
   */
  lemma InvestMovesTimeBlocksIntoHealth(s: GameSnapshot, winner: Role)
    requires SnapshotValid(s) && s.players[winner].timeBlocks >= 0
    ensures var t := InvestApplied(s, winner);
      t.players[winner].timeBlocks == 0 &&
      (s.systemHealth + s.players[winner].timeBlocks <= SYSTEM_HEALTH_CEILING ==>
         t.systemHealth == s.systemHealth + s.players[winner].timeBlocks) &&
      (s.systemHealth + s.players[winner].timeBlocks > SYSTEM_HEALTH_CEILING ==>
         t.systemHealth == SYSTEM_HEALTH_CEILING) &&
      (forall r :: r != winner ==> t.players[r] == s.players[r]) &&
      t.log == s.log && t.pendingMarsEventActions == s.pendingMarsEventActions && SnapshotValid(t)
  {
    var t := InvestApplied(s, winner);
    forall r: Role ensures r in t.players && t.players[r].role == r && PlayerValid(t.players[r]) {
      assert r in s.players;
    }
  }

  /** The OutOfCommission action: the target is left with 3 time blocks, and the event is logged. */
  function CommissionApplied(s: GameSnapshot, player: Role, target: Role): GameSnapshot
    requires target in s.players
  {
    s.(players := s.players[target := s.players[target].(timeBlocks := OUT_OF_COMMISSION_TIME_BLOCKS)],
       log := s.log + [LogEntry(OutOfCommissionMessage(player), FormattedEvent("OutOfCommission"))])
  }

  /** What running a deferred action does to the game. */
  function ActionApplied(s: GameSnapshot, a: MarsEventAction): GameSnapshot
    requires SnapshotValid(s)
  {
    match a
    case GrantPersonalGain(votes, info) => PersonalGainApplied(s, votes, info)
    case InvestInSystemHealth(winner) => InvestApplied(s, winner)
    case PutOutOfCommission(player, target) => CommissionApplied(s, player, target)
  }

  /** Running a deferred action keeps the game state well formed and never touches the queue. */
  lemma ActionKeepsValid(s: GameSnapshot, a: MarsEventAction)
    requires SnapshotValid(s)
    ensures SnapshotValid(ActionApplied(s, a))
    ensures ActionApplied(s, a).pendingMarsEventActions == s.pendingMarsEventActions
    ensures ActionApplied(s, a).tradingEnabled == s.tradingEnabled
  {
    match a
    case GrantPersonalGain(votes, info) =>
      PersonalGainKeepsValid(s.players, votes);
    case InvestInSystemHealth(winner) =>
      ReplacedPlayerValid(s.players, winner, s.players[winner].(timeBlocks := 0));
    case PutOutOfCommission(player, target) =>
      ReplacedPlayerValid(s.players, target, s.players[target].(timeBlocks := OUT_OF_COMMISSION_TIME_BLOCKS));
  }

  lemma PersonalGainKeepsValid(players: map<Role, Player>, votes: map<Role, bool>)
    requires PlayersValid(players)
    ensures PlayersValid(PersonalGainPlayers(players, votes))
  {
    var ps := PersonalGainPlayers(players, votes);
    forall r: Role ensures r in ps && ps[r].role == r && PlayerValid(ps[r]) {
      assert r in players && PlayerValid(players[r]);
    }
  }

  /** One step of that loop moves the overlay of PersonalGainPlayers on by one role. */
  lemma PayStep(players: map<Role, Player>, votes: map<Role, bool>, i: nat)
    requires i < |ROLES|
    requires forall r: Role :: r in players
    ensures var target := PersonalGainPlayers(players, votes);
            var paid := Overlay(players, target, i);
            var role := ROLES[i];
            (VotedYes(votes, role) ==>
               Overlay(players, target, i + 1) == paid[role := paid[role].(timeBlocks := paid[role].timeBlocks + PERSONAL_GAIN_BONUS)]) &&
            (!VotedYes(votes, role) ==> Overlay(players, target, i + 1) == paid[role := paid[role]])
  {
    var target := PersonalGainPlayers(players, votes);
    var role := ROLES[i];
    OverlayAgrees(players, target, i);
    RoleIndexOfPosition(i);
    assert Overlay(players, target, i)[role] == players[role];
  }

  /**
   * The loop of the PersonalGain closure: walking ROLES, every yes-voter gets
   * PERSONAL_GAIN_BONUS time blocks and the health reduction grows by as much.
   */
  method PayYesVoters(players: map<Role, Player>, votes: map<Role, bool>)
    returns (paid: map<Role, Player>, systemHealthReduction: nat)
    requires forall r: Role :: r in players
    ensures paid == PersonalGainPlayers(players, votes)
    ensures systemHealthReduction == PersonalGainReduction(votes)
  {
    var target := PersonalGainPlayers(players, votes);
    paid := players;
    systemHealthReduction := 0;
    for i := 0 to |ROLES|
      invariant paid == Overlay(players, target, i)
      invariant systemHealthReduction == PERSONAL_GAIN_BONUS * |YesVoters(votes, ROLES[..i])|
    {
      var role := ROLES[i];
      PayStep(players, votes, i);
      YesVotersStep(votes, i);
      if VotedYes(votes, role) {
        paid := paid[role := paid[role].(timeBlocks := paid[role].timeBlocks + PERSONAL_GAIN_BONUS)];
        systemHealthReduction := systemHealthReduction + PERSONAL_GAIN_BONUS;
      } else {
        paid := paid[role := paid[role]];
      }
    }
    assert ROLES[..|ROLES|] == ROLES;
    OverlayComplete(players, target);
  }

  // ---------------------------------------------------------------------------
  // The order in which the queue of deferred actions is run
  // ---------------------------------------------------------------------------

  /** The actions of one tier, in the order they were pushed. */
  function OfTier(q: seq<PendingAction>, t: ActionOrdering): seq<PendingAction>
  {
    if q == [] then []
    else (if q[0].ordering == t then [q[0]] else []) + OfTier(q[1..], t)
  }

  /** A tier's actions are drawn from the queue, and all carry that tier. */
  lemma {:induction false} OfTierShape(q: seq<PendingAction>, t: ActionOrdering)
    ensures |OfTier(q, t)| <= |q|
    ensures forall i :: 0 <= i < |OfTier(q, t)| ==> OfTier(q, t)[i].ordering == t
    ensures forall a :: a in OfTier(q, t) <==> a in q && a.ordering == t
  {
    if q != [] {
      OfTierShape(q[1..], t);
      var head := if q[0].ordering == t then [q[0]] else [];
      var r := head + OfTier(q[1..], t);
      forall i | 0 <= i < |r| ensures r[i].ordering == t {
        if i >= |head| { assert r[i] == OfTier(q[1..], t)[i - |head|]; }
      }
      assert q == [q[0]] + q[1..];
    }
  }

  /** The assumed run order of pendingMarsEventActions: by tier, FIRST to LAST, stable within a tier. */
  function FlushOrder(q: seq<PendingAction>): seq<PendingAction>
  {
    OfTier(q, First) + OfTier(q, Middle) + OfTier(q, Last)
  }

  function TierRank(t: ActionOrdering): nat
  {
    match t
    case First => 0
    case Middle => 1
    case Last => 2
  }

  /** The tiers of a queue split it: every action lands in exactly its own tier. */
  lemma {:induction false} TiersPartition(q: seq<PendingAction>)
    ensures multiset(OfTier(q, First)) + multiset(OfTier(q, Middle)) + multiset(OfTier(q, Last)) == multiset(q)
  {
    if q != [] {
      TiersPartition(q[1..]);
      assert q == [q[0]] + q[1..];
      assert multiset(q) == multiset{q[0]} + multiset(q[1..]);
      var f, m, l := OfTier(q[1..], First), OfTier(q[1..], Middle), OfTier(q[1..], Last);
      match q[0].ordering
      case First =>
        assert OfTier(q, First) == [q[0]] + f && OfTier(q, Middle) == m && OfTier(q, Last) == l;
        assert multiset(OfTier(q, First)) == multiset{q[0]} + multiset(f);
      case Middle =>
        assert OfTier(q, First) == f && OfTier(q, Middle) == [q[0]] + m && OfTier(q, Last) == l;
        assert multiset(OfTier(q, Middle)) == multiset{q[0]} + multiset(m);
      case Last =>
        assert OfTier(q, First) == f && OfTier(q, Middle) == m && OfTier(q, Last) == [q[0]] + l;
        assert multiset(OfTier(q, Last)) == multiset{q[0]} + multiset(l);
    }
  }

  /** The flush runs every queued action exactly once. */
  lemma FlushOrderIsPermutation(q: seq<PendingAction>)
    ensures multiset(FlushOrder(q)) == multiset(q)
  {
    TiersPartition(q);
  }

  /** The flush runs the tiers in order: no action runs before one of an earlier tier. */
  lemma FlushOrderSortedByTier(q: seq<PendingAction>)
    ensures var f := FlushOrder(q);
      forall i, j :: 0 <= i < j < |f| ==> TierRank(f[i].ordering) <= TierRank(f[j].ordering)
  {
    var a, b, c := OfTier(q, First), OfTier(q, Middle), OfTier(q, Last);
    OfTierShape(q, First);
    OfTierShape(q, Middle);
    OfTierShape(q, Last);
    var f := a + b + c;
    forall i, j | 0 <= i < j < |f| ensures TierRank(f[i].ordering) <= TierRank(f[j].ordering) {
      if i < |a| { assert f[i] == a[i]; }
      else if i < |a| + |b| {
        assert f[i] == b[i - |a|];
        if j < |a| + |b| { assert f[j] == b[j - |a|]; } else { assert f[j] == c[j - |a| - |b|]; }
      } else {
        assert f[i] == c[i - |a| - |b|];
        assert f[j] == c[j - |a| - |b|];
      }
    }
  }

  /** Within one tier the flush keeps the order in which the actions were pushed. */
  lemma FlushOrderStable(q: seq<PendingAction>, t: ActionOrdering)
    ensures OfTier(FlushOrder(q), t) == OfTier(q, t)
  {
    var a, b, c := OfTier(q, First), OfTier(q, Middle), OfTier(q, Last);
    OfTierAppend(a + b, c, t);
    OfTierAppend(a, b, t);
    OfTierOfTier(q, First, t);
    OfTierOfTier(q, Middle, t);
    OfTierOfTier(q, Last, t);
  }

  lemma {:induction false} OfTierAppend(x: seq<PendingAction>, y: seq<PendingAction>, t: ActionOrdering)
    ensures OfTier(x + y, t) == OfTier(x, t) + OfTier(y, t)
  {
    if x != [] {
      assert (x + y)[1..] == x[1..] + y;
      OfTierAppend(x[1..], y, t);
    } else {
      assert x + y == y;
    }
  }

  /** Filtering one tier out of one tier: the same tier again, or nothing. */
  lemma {:induction false} OfTierOfTier(q: seq<PendingAction>, u: ActionOrdering, t: ActionOrdering)
    ensures OfTier(OfTier(q, u), t) == if u == t then OfTier(q, t) else []
  {
    if q != [] {
      OfTierOfTier(q[1..], u, t);
      var head := if q[0].ordering == u then [q[0]] else [];
      OfTierAppend(head, OfTier(q[1..], u), t);
    }
  }

  // ---------------------------------------------------------------------------
  // The game state object
  // ---------------------------------------------------------------------------

  class GameState {
    var players: map<Role, Player>
    var systemHealth: int
    var tradingEnabled: bool
    var log: seq<LogEntry>
    var pendingMarsEventActions: seq<PendingAction>

    function Snapshot(): GameSnapshot
      reads this
    {
      GameSnapshot(players, systemHealth, tradingEnabled, log, pendingMarsEventActions)
    }

    predicate Valid()
      reads this
    {
      SnapshotValid(Snapshot())
    }

    /** A game in progress: trading open, nothing logged, nothing queued. */
    constructor(players: map<Role, Player>, systemHealth: int)
      requires PlayersValid(players) && SYSTEM_HEALTH_FLOOR <= systemHealth <= SYSTEM_HEALTH_CEILING
      ensures Valid()
      ensures Snapshot() == GameSnapshot(players, systemHealth, true, [], [])
    {
      this.players := players;
      this.systemHealth := systemHealth;
      tradingEnabled := true;
      log := [];
      pendingMarsEventActions := [];
    }

    method DecreaseSystemHealth(amount: int)
      requires Valid()
      modifies this
      ensures Valid()
      ensures Snapshot() == old(Snapshot()).(systemHealth := Decreased(old(systemHealth), amount))
    {
      systemHealth := Decreased(systemHealth, amount);
    }

    method IncreaseSystemHealth(amount: int)
      requires Valid()
      modifies this
      ensures Valid()
      ensures Snapshot() == old(Snapshot()).(systemHealth := Increased(old(systemHealth), amount))
    {
      systemHealth := Increased(systemHealth, amount);
    }

    method DisableTrading()
      requires Valid()
      modifies this
      ensures Valid()
      ensures Snapshot() == old(Snapshot()).(tradingEnabled := false)
    {
      tradingEnabled := false;
    }

    /** game.log: append one entry to the Mars log. */
    method Log(message: string, category: LogCategory)
      requires Valid()
      modifies this
      ensures Valid()
      ensures Snapshot() == old(Snapshot()).(log := old(log) + [LogEntry(message, category)])
    {
      log := log + [LogEntry(message, category)];
    }

    /** pendingMarsEventActions.push. */
    method PushPendingAction(ordering: ActionOrdering, action: MarsEventAction)
      requires Valid()
      modifies this
      ensures Valid()
      ensures Snapshot() == old(Snapshot()).(pendingMarsEventActions := old(pendingMarsEventActions) + [PendingAction(ordering, action)])
    {
      pendingMarsEventActions := pendingMarsEventActions + [PendingAction(ordering, action)];
    }

    /** The PersonalGain closure: pay each yes-voter in ROLES order, then charge the total once. */
    method ExecuteGrantPersonalGain(votes: map<Role, bool>, votingInfo: string)
      requires Valid()
      modifies this
      ensures Valid()
      ensures Snapshot() == PersonalGainApplied(old(Snapshot()), votes, votingInfo)
    {
      var paid, systemHealthReduction := PayYesVoters(players, votes);
      PersonalGainKeepsValid(players, votes);
      players := paid;
      DecreaseSystemHealth(systemHealthReduction);
      Log(PersonalGainMessage(systemHealthReduction, votingInfo), FormattedEvent("PersonalGain"));
    }

    /** The CompulsivePhilanthropy closure: put the winner's time blocks into health, then zero them. */
    method ExecuteInvestInSystemHealth(winner: Role)
      requires Valid()
      modifies this
      ensures Valid()
      ensures Snapshot() == InvestApplied(old(Snapshot()), winner)
    {
      IncreaseSystemHealth(players[winner].timeBlocks);
      players := players[winner := players[winner].(timeBlocks := 0)];
      ReplacedPlayerValid(old(players), winner, players[winner]);
    }

    /** The OutOfCommission closure: the target keeps 3 time blocks, and the event is logged. */
    method ExecutePutOutOfCommission(player: Role, target: Role)
      requires Valid()
      modifies this
      ensures Valid()
      ensures Snapshot() == CommissionApplied(old(Snapshot()), player, target)
    {
      ghost var before := Snapshot();
      var outOfCommission := players[target].(timeBlocks := OUT_OF_COMMISSION_TIME_BLOCKS);
      ReplacedPlayerValid(players, target, outOfCommission);
      players := players[target := outOfCommission];
      assert Snapshot() == before.(players := before.players[target := outOfCommission]);
      Log(OutOfCommissionMessage(player), FormattedEvent("OutOfCommission"));
    }

    /** Run one deferred action. */
    method ExecuteAction(a: MarsEventAction)
      requires Valid()
      modifies this
      ensures Valid()
      ensures Snapshot() == ActionApplied(old(Snapshot()), a)
    {
      match a
      case GrantPersonalGain(votes, info) => ExecuteGrantPersonalGain(votes, info);
      case InvestInSystemHealth(winner) => ExecuteInvestInSystemHealth(winner);
      case PutOutOfCommission(player, target) => ExecutePutOutOfCommission(player, target);
    }
  }
}
