/**
 * The Mars event classes and their names.
 */
module EventIds {
  import opened Roles

  /**
   * The registered event classes. The five OutOfCommission subclasses differ
   * only in the role they put out of commission.
   */
  datatype EventId =
    | Sandstorm | LifeAsUsual | BreakdownOfTrust | PersonalGain | CompulsivePhilanthropy
    | OutOfCommission(target: Role)
    | Audit | BondingThroughAdversity | ChangingTides | HullBreach | CropFailure | Interdisciplinary
    | SolarFlare | MarketsClosed | EffortsWasted | Stymied | DifficultConditions

  /** The class name of an event, which is its id in the registry and in serialised form. */
  function EventName(k: EventId): string
  {
    match k
    case Sandstorm => "Sandstorm"
    case LifeAsUsual => "LifeAsUsual"
    case BreakdownOfTrust => "BreakdownOfTrust"
    case PersonalGain => "PersonalGain"
    case CompulsivePhilanthropy => "CompulsivePhilanthropy"
    case OutOfCommission(r) => (
      match r
      case Curator => "OutOfCommissionCurator"
      case Entrepreneur => "OutOfCommissionEntrepreneur"
      case Pioneer => "OutOfCommissionPioneer"
      case Politician => "OutOfCommissionPolitician"
      case Researcher => "OutOfCommissionResearcher")
    case Audit => "Audit"
    case BondingThroughAdversity => "BondingThroughAdversity"
    case ChangingTides => "ChangingTides"
    case HullBreach => "HullBreach"
    case CropFailure => "CropFailure"
    case Interdisciplinary => "Interdisciplinary"
    case SolarFlare => "SolarFlare"
    case MarketsClosed => "MarketsClosed"
    case EffortsWasted => "EffortsWasted"
    case Stymied => "Stymied"
    case DifficultConditions => "DifficultConditions"
  }

  /**
   * The class a name can only belong to, told by the name's length, its first
   * letter and, for the OutOfCommission classes, its sixteenth letter (the
   * first letter of the role). Every class name is told apart this way.
   */
  function Discriminate(s: string): Option<EventId>
  {
    if |s| == 0 then None
    else if |s| == 5 && s[0] == 'A' then Some(Audit)
    else if |s| == 7 && s[0] == 'S' then Some(Stymied)
    else if |s| == 9 && s[0] == 'S' then Some(Sandstorm)
    else if |s| == 10 && s[0] == 'H' then Some(HullBreach)
    else if |s| == 10 && s[0] == 'S' then Some(SolarFlare)
    else if |s| == 11 && s[0] == 'L' then Some(LifeAsUsual)
    else if |s| == 11 && s[0] == 'C' then Some(CropFailure)
    else if |s| == 12 && s[0] == 'P' then Some(PersonalGain)
    else if |s| == 13 && s[0] == 'C' then Some(ChangingTides)
    else if |s| == 13 && s[0] == 'M' then Some(MarketsClosed)
    else if |s| == 13 && s[0] == 'E' then Some(EffortsWasted)
    else if |s| == 16 && s[0] == 'B' then Some(BreakdownOfTrust)
    else if |s| == 17 && s[0] == 'I' then Some(Interdisciplinary)
    else if |s| == 19 && s[0] == 'D' then Some(DifficultConditions)
    else if |s| == 22 && s[0] == 'C' then Some(CompulsivePhilanthropy)
    else if |s| == 23 && s[0] == 'B' then Some(BondingThroughAdversity)
    else if |s| == 22 && s[0] == 'O' && s[15] == 'C' then Some(OutOfCommission(Curator))
    else if |s| == 27 && s[0] == 'O' && s[15] == 'E' then Some(OutOfCommission(Entrepreneur))
    else if |s| == 22 && s[0] == 'O' && s[15] == 'P' then Some(OutOfCommission(Pioneer))
    else if |s| == 25 && s[0] == 'O' && s[15] == 'P' then Some(OutOfCommission(Politician))
    else if |s| == 25 && s[0] == 'O' && s[15] == 'R' then Some(OutOfCommission(Researcher))
    else None
  }

  lemma DiscriminateNames(k: EventId)
    ensures Discriminate(EventName(k)) == Some(k)
  {
    match k
    case Sandstorm =>
    case LifeAsUsual =>
    case BreakdownOfTrust =>
    case PersonalGain =>
    case CompulsivePhilanthropy =>
    case Audit =>
    case BondingThroughAdversity =>
    case ChangingTides =>
    case HullBreach =>
    case CropFailure =>
    case Interdisciplinary =>
    case SolarFlare =>
    case MarketsClosed =>
    case EffortsWasted =>
    case Stymied =>
    case DifficultConditions =>
    case OutOfCommission(r) => {
      match r
      case Curator =>
      case Entrepreneur =>
      case Pioneer =>
      case Politician =>
      case Researcher =>
    }
  }

  /** No two event classes share a name. */
  lemma EventNameInjective(a: EventId, b: EventId)
    ensures EventName(a) == EventName(b) ==> a == b
  {
    DiscriminateNames(a);
    DiscriminateNames(b);
  }
}
