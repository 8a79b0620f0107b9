/**
 * The fixed vocabulary of a Port of Mars game: the five player roles, in the
 * order of the shared ROLES constant that every per-role loop follows, and the
 * five influence resources.
 */
module Roles {

  datatype Option<T> = None | Some(value: T)

  datatype Result<T, E> = Success(value: T) | Failure(error: E)

  /** The five player roles; each player of a game holds exactly one. */
  datatype Role = Curator | Entrepreneur | Pioneer | Politician | Researcher

  /** The shared role order: every loop "for role of ROLES" visits roles in this order. */
  const ROLES: seq<Role> := [Curator, Entrepreneur, Pioneer, Politician, Researcher]

  /** The string value of a role, as it appears in log messages. */
  function RoleName(r: Role): string
  {
    match r
    case Curator => "Curator"
    case Entrepreneur => "Entrepreneur"
    case Pioneer => "Pioneer"
    case Politician => "Politician"
    case Researcher => "Researcher"
  }

  /** A role is one of the five; used to split a proof over roles. */
  lemma RoleCases(r: Role)
    ensures r == Curator || r == Entrepreneur || r == Pioneer || r == Politician || r == Researcher
  {
  }

  /** Position of a role in ROLES. */
  function RoleIndex(r: Role): (i: nat)
    ensures i < |ROLES| && ROLES[i] == r
  {
    match r
    case Curator => 0
    case Entrepreneur => 1
    case Pioneer => 2
    case Politician => 3
    case Researcher => 4
  }

  /** The influence resources a player can hold, invest in and pay for. */
  datatype Resource = Culture | Finance | Government | Legacy | Science

  /** A role order as a shuffle of ROLES produces: five entries, every role present. */
  predicate IsRoleOrder(order: seq<Role>)
  {
    |order| == |ROLES| && forall r: Role :: r in order
  }

  /** Every role maps to itself: the default assignment several events start from. */
  function IdentityRoles(): (m: map<Role, Role>)
    ensures forall r: Role :: r in m && m[r] == r
  {
    var m := map[Curator := Curator, Entrepreneur := Entrepreneur, Pioneer := Pioneer,
                 Politician := Politician, Researcher := Researcher];
    assert forall r: Role :: r in m && m[r] == r by {
      forall r: Role ensures r in m && m[r] == r { RoleCases(r); }
    }
    m
  }
}
