/**
 * The two vote-counting procedures of the Mars events: the yes/no ballot of
 * PersonalGain and the plurality vote of CompulsivePhilanthropy, with the
 * reference definitions their loops are proved against.
 */
module Ballots {
  import opened Roles
  import opened Text

  // ---------------------------------------------------------------------------
  // PersonalGain: who voted yes
  // ---------------------------------------------------------------------------

  /** A missing vote is undefined, which the source's `if (votes[role])` treats as no. */
  predicate VotedYes(votes: map<Role, bool>, r: Role)
  {
    r in votes && votes[r]
  }

  /** The yes-voters among `candidates`, in the order of `candidates`. */
  function YesVoters(votes: map<Role, bool>, candidates: seq<Role>): (ys: seq<Role>)
    ensures |ys| <= |candidates|
  {
    if candidates == [] then []
    else
      var prefix, last := candidates[..|candidates| - 1], candidates[|candidates| - 1];
      YesVoters(votes, prefix) + (if VotedYes(votes, last) then [last] else [])
  }

  /** A role is listed exactly when it is a candidate that voted yes. */
  lemma {:induction false} YesVotersMembers(votes: map<Role, bool>, candidates: seq<Role>)
    ensures forall r :: r in YesVoters(votes, candidates) <==> r in candidates && VotedYes(votes, r)
  {
    if candidates != [] {
      var prefix, last := candidates[..|candidates| - 1], candidates[|candidates| - 1];
      assert candidates == prefix + [last];
      YesVotersMembers(votes, prefix);
    }
  }

  /** Extending the prefix of ROLES by one role adds that role's yes, if it is one. */
  lemma YesVotersStep(votes: map<Role, bool>, i: nat)
    requires i < |ROLES|
    ensures |YesVoters(votes, ROLES[..i + 1])| == |YesVoters(votes, ROLES[..i])| + if VotedYes(votes, ROLES[i]) then 1 else 0
  {
    assert ROLES[..i + 1][..i] == ROLES[..i];
  }

  /** The yes-voters of a ballot, in ROLES order. */
  function YesVotersOf(votes: map<Role, bool>): seq<Role>
  {
    YesVoters(votes, ROLES)
  }

  /** ys lists roles of the first k positions of ROLES, in strictly increasing position. */
  predicate InRoleOrderBelow(ys: seq<Role>, k: nat)
  {
    (forall i :: 0 <= i < |ys| ==> RoleIndex(ys[i]) < k) &&
    (forall i, j :: 0 <= i < j < |ys| ==> RoleIndex(ys[i]) < RoleIndex(ys[j]))
  }

  /** The yes-voters of a ballot are listed in ROLES order, each once. */
  lemma {:induction false} YesVotersInRoleOrder(votes: map<Role, bool>, k: nat)
    requires k <= |ROLES|
    ensures InRoleOrderBelow(YesVoters(votes, ROLES[..k]), k)
  {
    if k > 0 {
      YesVotersInRoleOrder(votes, k - 1);
      assert ROLES[..k][..k - 1] == ROLES[..k - 1];
      var ys := YesVoters(votes, ROLES[..k]);
      var prev := YesVoters(votes, ROLES[..k - 1]);
      assert InRoleOrderBelow(prev, k - 1);
      assert ys == prev + (if VotedYes(votes, ROLES[k - 1]) then [ROLES[k - 1]] else []);
      assert RoleIndex(ROLES[k - 1]) == k - 1 by { RoleIndexOfPosition(k - 1); }
      forall i | 0 <= i < |ys| ensures RoleIndex(ys[i]) < k {
        if i < |prev| { assert ys[i] == prev[i]; } else { assert ys[i] == ROLES[k - 1]; }
      }
      forall i, j | 0 <= i < j < |ys| ensures RoleIndex(ys[i]) < RoleIndex(ys[j]) {
        assert ys[i] == prev[i];
        if j < |prev| { assert ys[j] == prev[j]; } else { assert ys[j] == ROLES[k - 1]; }
      }
    }
  }

  lemma RoleIndexOfPosition(i: nat)
    requires i < |ROLES|
    ensures RoleIndex(ROLES[i]) == i
  {
  }

  /** The role names of rs, in order. */
  function Names(rs: seq<Role>): (ns: seq<string>)
    ensures |ns| == |rs|
    ensures forall i :: 0 <= i < |rs| ==> ns[i] == RoleName(rs[i])
  {
    if rs == [] then [] else Names(rs[..|rs| - 1]) + [RoleName(rs[|rs| - 1])]
  }

  /** The text playerVotingInfo builds: the yes-voters' names in ROLES order, comma separated. */
  function VotingInfo(votes: map<Role, bool>): string
  {
    Join(Names(YesVotersOf(votes)), ",")
  }

  /**
   * The yes-voter text can be read back: no role name holds a comma, so
   * splitting it at ',' gives the yes-voters' names in ROLES order, and a
   * ballot without yes-voters logs the empty text.
   */
  lemma VotingInfoReadsBack(votes: map<Role, bool>)
    ensures YesVotersOf(votes) == [] ==> VotingInfo(votes) == ""
    ensures YesVotersOf(votes) != [] ==> Split(VotingInfo(votes), ',') == Names(YesVotersOf(votes))
  {
    var ys := YesVotersOf(votes);
    var ns := Names(ys);
    if ys != [] {
      forall i | 0 <= i < |ns| ensures ',' !in ns[i] {
        RoleCases(ys[i]);
      }
      assert "," == [','];
      SplitJoin(ns, ',');
    }
  }

  /**
   * PersonalGain.playerVotingInfo: walks ROLES, pushes the name of every
   * yes-voter, and returns the array's toString().
   */
  method PlayerVotingInfo(voteResults: map<Role, bool>) returns (info: string)
    ensures info == VotingInfo(voteResults)
  {
    var playerYesVotes: seq<string> := [];
    for i := 0 to |ROLES|
      invariant playerYesVotes == Names(YesVoters(voteResults, ROLES[..i]))
    {
      var role := ROLES[i];
      assert ROLES[..i + 1][..i] == ROLES[..i];
      if role in voteResults && voteResults[role] {
        playerYesVotes := playerYesVotes + [RoleName(role)];
      }
    }
    assert ROLES[..|ROLES|] == ROLES;
    info := Join(playerYesVotes, ",");
  }

  // ---------------------------------------------------------------------------
  // CompulsivePhilanthropy: plurality vote, ties broken by a stored order
  // ---------------------------------------------------------------------------

  /** How many of `voters` cast their vote for `candidate`. */
  function VotesFor(votes: map<Role, Role>, candidate: Role, voters: seq<Role>): (n: nat)
    ensures n <= |voters|
  {
    if voters == [] then 0
    else
      var last := voters[|voters| - 1];
      VotesFor(votes, candidate, voters[..|voters| - 1]) + (if last in votes && votes[last] == candidate then 1 else 0)
  }

  /** The number of votes a candidate received. */
  function Tally(votes: map<Role, Role>, candidate: Role): nat
  {
    VotesFor(votes, candidate, ROLES)
  }

  /** The voters among rs for a candidate, as a set. */
  ghost function VotersAmong(votes: map<Role, Role>, candidate: Role, rs: seq<Role>): set<Role>
  {
    set v | v in rs && v in votes && votes[v] == candidate
  }

  /** The tally is the number of roles whose vote names the candidate. */
  lemma TallyCountsVoters(votes: map<Role, Role>, candidate: Role)
    ensures Tally(votes, candidate) == |set v | v in votes && votes[v] == candidate|
  {
    RolesDistinct();
    VotesForCountsDistinctVoters(votes, candidate, ROLES);
    assert (set v | v in votes && votes[v] == candidate) == VotersAmong(votes, candidate, ROLES) by {
      forall v | v in votes ensures v in ROLES { RoleCases(v); }
    }
  }

  lemma RolesDistinct()
    ensures forall i, j :: 0 <= i < j < |ROLES| ==> ROLES[i] != ROLES[j]
  {
  }

  /** Appending one voter adds that voter to the set exactly when it voted for the candidate. */
  lemma VotersAmongSnoc(votes: map<Role, Role>, candidate: Role, prefix: seq<Role>, last: Role)
    ensures VotersAmong(votes, candidate, prefix + [last]) ==
            VotersAmong(votes, candidate, prefix) + (if last in votes && votes[last] == candidate then {last} else {})
  {
    assert forall v :: v in prefix + [last] <==> v in prefix || v == last;
  }

  /** Over voters listed without repetition, VotesFor counts the set of those voters. */
  lemma {:induction false} VotesForCountsDistinctVoters(votes: map<Role, Role>, candidate: Role, rs: seq<Role>)
    requires forall i, j :: 0 <= i < j < |rs| ==> rs[i] != rs[j]
    ensures VotesFor(votes, candidate, rs) == |VotersAmong(votes, candidate, rs)|
  {
    if rs != [] {
      var prefix, last := rs[..|rs| - 1], rs[|rs| - 1];
      assert rs == prefix + [last];
      VotesForCountsDistinctVoters(votes, candidate, prefix);
      VotersAmongSnoc(votes, candidate, prefix, last);
      assert last !in VotersAmong(votes, candidate, prefix) by {
        assert last !in prefix;
      }
    }
  }

  /** voteCounts after the counting loop: every role with its tally. */
  function Tallies(votes: map<Role, Role>): (counts: map<Role, nat>)
    ensures forall r: Role :: r in counts && counts[r] == Tally(votes, r)
  {
    var counts := map[Curator := Tally(votes, Curator), Entrepreneur := Tally(votes, Entrepreneur),
                      Pioneer := Tally(votes, Pioneer), Politician := Tally(votes, Politician),
                      Researcher := Tally(votes, Researcher)];
    assert forall r: Role :: r in counts && counts[r] == Tally(votes, r) by {
      forall r: Role ensures r in counts && counts[r] == Tally(votes, r) { RoleCases(r); }
    }
    counts
  }

  function CountOf(counts: map<Role, nat>, r: Role): nat
  {
    if r in counts then counts[r] else 0
  }

  /** The largest count among rs, starting from 0 as the source's `count` does. */
  function MaxCount(counts: map<Role, nat>, rs: seq<Role>): (m: nat)
    ensures forall r :: r in rs ==> CountOf(counts, r) <= m
    ensures rs == [] ==> m == 0
    ensures rs != [] ==> exists r :: r in rs && CountOf(counts, r) == m
  {
    if rs == [] then 0
    else
      var prefix, last := rs[..|rs| - 1], rs[|rs| - 1];
      assert rs == prefix + [last];
      var m := MaxCount(counts, prefix);
      if CountOf(counts, last) > m then CountOf(counts, last) else m
  }

  /** The roles of rs whose count is m, in the order of rs. */
  function Leaders(counts: map<Role, nat>, rs: seq<Role>, m: nat): (ls: seq<Role>)
    ensures forall r :: r in ls <==> r in rs && CountOf(counts, r) == m
  {
    if rs == [] then []
    else
      var prefix, last := rs[..|rs| - 1], rs[|rs| - 1];
      assert rs == prefix + [last];
      Leaders(counts, prefix, m) + (if CountOf(counts, last) == m then [last] else [])
  }

  /** No role of rs reaches a count above their maximum. */
  lemma {:induction false} NoLeadersAboveMax(counts: map<Role, nat>, rs: seq<Role>, m: nat)
    requires MaxCount(counts, rs) < m
    ensures Leaders(counts, rs, m) == []
  {
    if rs != [] {
      NoLeadersAboveMax(counts, rs[..|rs| - 1], m);
    }
  }

  /** The maximum tally of a vote. */
  function MaxTally(votes: map<Role, Role>): nat
  {
    MaxCount(Tallies(votes), ROLES)
  }

  /** The candidates with the maximum tally, in ROLES order. */
  function MostVoted(votes: map<Role, Role>): seq<Role>
  {
    Leaders(Tallies(votes), ROLES, MaxTally(votes))
  }

  /** Position of the first entry of `order` that is among `winners`, or |order| if none is. */
  function FirstListedIndex(order: seq<Role>, winners: seq<Role>): (i: nat)
    ensures i <= |order|
    ensures i < |order| ==> order[i] in winners
    ensures forall j :: 0 <= j < i ==> order[j] !in winners
  {
    if order == [] then 0
    else if order[0] in winners then 0
    else 1 + FirstListedIndex(order[1..], winners)
  }

  /** `_.find(order, w => winners.includes(w)) || order[0]`. */
  function ChooseWinner(order: seq<Role>, winners: seq<Role>): (w: Role)
    requires |order| > 0
    ensures w in order
    ensures w in winners || (w == order[0] && forall j :: 0 <= j < |order| ==> order[j] !in winners)
  {
    var i := FirstListedIndex(order, winners);
    if i < |order| then order[i] else order[0]
  }

  /** The Compulsive Philanthropist a vote elects under the tie-break order. */
  function Winner(votes: map<Role, Role>, order: seq<Role>): (w: Role)
    requires |order| > 0
    ensures w in order
  {
    ChooseWinner(order, MostVoted(votes))
  }

  /** Some role has the maximum tally, so with a full role order the fallback is never taken. */
  lemma MostVotedNonEmpty(votes: map<Role, Role>)
    ensures exists r :: r in MostVoted(votes)
    ensures forall r: Role :: Tally(votes, r) <= MaxTally(votes)
  {
    var counts := Tallies(votes);
    var r :| r in ROLES && CountOf(counts, r) == MaxTally(votes);
    assert r in MostVoted(votes);
    forall r': Role ensures Tally(votes, r') <= MaxTally(votes) {
      RoleCases(r');
      assert r' in ROLES;
    }
  }

  /** The winner has the maximum tally, and no role has more votes. */
  lemma WinnerHasMostVotes(votes: map<Role, Role>, order: seq<Role>)
    requires IsRoleOrder(order)
    ensures Tally(votes, Winner(votes, order)) == MaxTally(votes)
    ensures forall r: Role :: Tally(votes, r) <= Tally(votes, Winner(votes, order))
  {
    MostVotedNonEmpty(votes);
    var r :| r in MostVoted(votes);
    assert r in order;
  }

  /**
   * The tie-break: the winner is the first role of `order` whose tally is the
   * maximum; every role before it in `order` has fewer votes.
   */
  lemma WinnerIsFirstInOrder(votes: map<Role, Role>, order: seq<Role>) returns (i: nat)
    requires IsRoleOrder(order)
    ensures i < |order| && order[i] == Winner(votes, order)
    ensures Tally(votes, order[i]) == MaxTally(votes)
    ensures forall j :: 0 <= j < i ==> Tally(votes, order[j]) < MaxTally(votes)
  {
    WinnerHasMostVotes(votes, order);
    i := FirstListedIndex(order, MostVoted(votes));
    MostVotedNonEmpty(votes);
    var r :| r in MostVoted(votes);
    assert r in order;
    forall j | 0 <= j < i ensures Tally(votes, order[j]) < MaxTally(votes) {
      assert order[j] !in MostVoted(votes);
      assert order[j] in ROLES by { RoleCases(order[j]); }
    }
  }

  /** One voteForPlayer call: the voter's choice of philanthropist. */
  datatype Vote = Vote(voter: Role, choice: Role)

  /** The ballot after the calls in `cast`, made in that order, each overwriting the voter's entry. */
  function CastVotes(votes: map<Role, Role>, cast: seq<Vote>): map<Role, Role>
  {
    if cast == [] then votes
    else
      var last := cast[|cast| - 1];
      CastVotes(votes, cast[..|cast| - 1])[last.voter := last.choice]
  }

  /** The choice of the voter's last call in `cast`, if it made one. */
  function LastChoice(cast: seq<Vote>, voter: Role): Option<Role>
  {
    if cast == [] then None
    else if cast[|cast| - 1].voter == voter then Some(cast[|cast| - 1].choice)
    else LastChoice(cast[..|cast| - 1], voter)
  }

  /** After the calls, each voter holds its last choice, or its old entry when it made no call. */
  lemma {:induction false} CastVotesKeepsLastChoice(votes: map<Role, Role>, cast: seq<Vote>)
    ensures forall v :: v in CastVotes(votes, cast) <==> v in votes || LastChoice(cast, v).Some?
    ensures forall v :: v in CastVotes(votes, cast) ==>
      CastVotes(votes, cast)[v] == if LastChoice(cast, v).Some? then LastChoice(cast, v).value else votes[v]
  {
    if cast != [] {
      CastVotesKeepsLastChoice(votes, cast[..|cast| - 1]);
    }
  }

  /**
   * The ballot, and so the winner, depends only on each voter's last call:
   * two sequences of voteForPlayer calls in which every voter ends on the same
   * choice give the same ballot, whatever the order of arrival.
   */
  lemma VoteArrivalOrderIrrelevant(votes: map<Role, Role>, cast1: seq<Vote>, cast2: seq<Vote>, order: seq<Role>)
    requires forall v: Role :: LastChoice(cast1, v) == LastChoice(cast2, v)
    requires |order| > 0
    ensures CastVotes(votes, cast1) == CastVotes(votes, cast2)
    ensures Winner(CastVotes(votes, cast1), order) == Winner(CastVotes(votes, cast2), order)
  {
    var one, other := CastVotes(votes, cast1), CastVotes(votes, cast2);
    CastVotesKeepsLastChoice(votes, cast1);
    CastVotesKeepsLastChoice(votes, cast2);
    forall v: Role ensures v in one <==> v in other {
      assert LastChoice(cast1, v) == LastChoice(cast2, v);
    }
    forall v: Role | v in one ensures one[v] == other[v] {
      assert LastChoice(cast1, v) == LastChoice(cast2, v);
    }
    assert one.Keys == other.Keys;
  }

  /**
   * The counting loop of CompulsivePhilanthropy.finalize: each cast vote adds
   * one to its candidate's count. The source walks `Object.values(votes)`;
   * here the voters are walked in ROLES order, which gives the same counts.
   */
  method TallyVotes(votes: map<Role, Role>) returns (voteCounts: map<Role, nat>)
    ensures voteCounts == Tallies(votes)
  {
    voteCounts := map[Curator := 0, Entrepreneur := 0, Pioneer := 0, Politician := 0, Researcher := 0];
    assert forall r: Role :: r in voteCounts && voteCounts[r] == 0 by {
      forall r: Role ensures r in voteCounts && voteCounts[r] == 0 { RoleCases(r); }
    }
    for i := 0 to |ROLES|
      invariant forall r: Role :: r in voteCounts && voteCounts[r] == VotesFor(votes, r, ROLES[..i])
    {
      var voter := ROLES[i];
      VotesForStep(votes, i);
      if voter in votes {
        var philanthropist := votes[voter];
        voteCounts := voteCounts[philanthropist := voteCounts[philanthropist] + 1];
      }
    }
    assert ROLES[..|ROLES|] == ROLES;
    SameCounts(voteCounts, Tallies(votes));
  }

  /** Counting one more voter adds one to the count of the candidate it voted for. */
  lemma VotesForStep(votes: map<Role, Role>, i: nat)
    requires i < |ROLES|
    ensures forall r: Role ::
      VotesFor(votes, r, ROLES[..i + 1]) == VotesFor(votes, r, ROLES[..i]) + (if ROLES[i] in votes && votes[ROLES[i]] == r then 1 else 0)
  {
    assert ROLES[..i + 1][..i] == ROLES[..i];
  }

  /** Two counts that agree on every role are the same map. */
  lemma SameCounts(a: map<Role, nat>, b: map<Role, nat>)
    requires forall r: Role :: r in a && r in b && a[r] == b[r]
    ensures a == b
  {
  }

  /**
   * The winners loop of CompulsivePhilanthropy.finalize: a higher count
   * replaces the winners with the new role, an equal count appends it.
   */
  method FindWinners(voteCounts: map<Role, nat>) returns (winners: seq<Role>, count: nat)
    ensures count == MaxCount(voteCounts, ROLES)
    ensures winners == Leaders(voteCounts, ROLES, count)
  {
    winners := [];
    count := 0;
    for i := 0 to |ROLES|
      invariant count == MaxCount(voteCounts, ROLES[..i])
      invariant winners == Leaders(voteCounts, ROLES[..i], count)
    {
      var potentialWinner := ROLES[i];
      MaxCountSnoc(voteCounts, i);
      var c := CountOf(voteCounts, potentialWinner);
      if c > count {
        NoLeadersAboveMax(voteCounts, ROLES[..i], c);
        LeadersSnoc(voteCounts, i, c);
        winners := [potentialWinner];
        count := c;
      } else {
        LeadersSnoc(voteCounts, i, count);
        if c == count {
          winners := winners + [potentialWinner];
        }
      }
    }
    assert ROLES[..|ROLES|] == ROLES;
  }

  /** The maximum over one more role. */
  lemma MaxCountSnoc(counts: map<Role, nat>, i: nat)
    requires i < |ROLES|
    ensures MaxCount(counts, ROLES[..i + 1]) ==
      if CountOf(counts, ROLES[i]) > MaxCount(counts, ROLES[..i]) then CountOf(counts, ROLES[i]) else MaxCount(counts, ROLES[..i])
  {
    assert ROLES[..i + 1][..i] == ROLES[..i];
  }

  /** The leaders among one more role. */
  lemma LeadersSnoc(counts: map<Role, nat>, i: nat, m: nat)
    requires i < |ROLES|
    ensures Leaders(counts, ROLES[..i + 1], m) ==
      Leaders(counts, ROLES[..i], m) + (if CountOf(counts, ROLES[i]) == m then [ROLES[i]] else [])
  {
    assert ROLES[..i + 1][..i] == ROLES[..i];
  }
}
