/**
 * The registry of Mars events: every event class registers itself under its
 * class name (assocEventId), and constructState looks an id up there.
 */
module Registry {
  import opened Roles
  import opened EventIds

  /** The classes in the order the module registers them. */
  const REGISTERED: seq<EventId> := [
    Sandstorm, LifeAsUsual, BreakdownOfTrust, PersonalGain,
    CompulsivePhilanthropy, OutOfCommission(Curator), OutOfCommission(Politician), OutOfCommission(Researcher),
    OutOfCommission(Pioneer), OutOfCommission(Entrepreneur), Audit, BondingThroughAdversity,
    ChangingTides, HullBreach, CropFailure, Interdisciplinary,
    SolarFlare, MarketsClosed, EffortsWasted, Stymied,
    DifficultConditions
  ]

  lemma EveryEventRegistered(k: EventId)
    ensures k in REGISTERED
  {
    if k.OutOfCommission? {
      RoleCases(k.target);
    }
  }

  /** assocEventId: file the class under its name, replacing whatever was there. */
  function AssocEventId(dispatch: map<string, EventId>, k: EventId): (d: map<string, EventId>)
    ensures EventName(k) in d && d[EventName(k)] == k
    ensures forall n :: n != EventName(k) ==> (n in d <==> n in dispatch)
    ensures forall n :: n != EventName(k) && n in dispatch ==> d[n] == dispatch[n]
  {
    dispatch[EventName(k) := k]
  }

  /** Registering the classes ks one after another. */
  function Register(dispatch: map<string, EventId>, ks: seq<EventId>): map<string, EventId>
    decreases ks
  {
    if ks == [] then dispatch else Register(AssocEventId(dispatch, ks[0]), ks[1..])
  }

  /** Registration only adds names: the old ones stay, and every registered class's name is there. */
  lemma {:induction false} RegisterAddsNames(dispatch: map<string, EventId>, ks: seq<EventId>)
    decreases ks
    ensures dispatch.Keys <= Register(dispatch, ks).Keys
    ensures forall k :: k in ks ==> EventName(k) in Register(dispatch, ks)
  {
    if ks != [] {
      RegisterAddsNames(AssocEventId(dispatch, ks[0]), ks[1..]);
      assert forall k :: k in ks ==> k == ks[0] || k in ks[1..];
    }
  }

  /** Every entry is filed under its class's own name, before and after registering more. */
  lemma {:induction false} RegisterFilesUnderName(dispatch: map<string, EventId>, ks: seq<EventId>)
    decreases ks
    requires forall n :: n in dispatch ==> EventName(dispatch[n]) == n
    ensures forall n :: n in Register(dispatch, ks) ==> EventName(Register(dispatch, ks)[n]) == n
  {
    if ks != [] {
      RegisterFilesUnderName(AssocEventId(dispatch, ks[0]), ks[1..]);
    }
  }

  /** The registry after the module has loaded. */
  function Dispatch(): map<string, EventId>
  {
    Register(map[], REGISTERED)
  }

  /** Every event class can be found under its name. */
  lemma DispatchFindsEveryEvent(k: EventId)
    ensures EventName(k) in Dispatch() && Dispatch()[EventName(k)] == k
  {
    EveryEventRegistered(k);
    RegisterAddsNames(map[], REGISTERED);
    RegisterFilesUnderName(map[], REGISTERED);
    EventNameInjective(k, Dispatch()[EventName(k)]);
  }

  /** The registry holds nothing but class names, each filed with its own class. */
  lemma DispatchHoldsOnlyEventNames(id: string)
    ensures id in Dispatch() ==> EventName(Dispatch()[id]) == id
    ensures id !in Dispatch() <==> forall k :: EventName(k) != id
  {
    RegisterFilesUnderName(map[], REGISTERED);
    if id !in Dispatch() {
      forall k ensures EventName(k) != id {
        DispatchFindsEveryEvent(k);
      }
    }
  }

  /** No event class has a name that Discriminate rejects, so the registry has no entry under it. */
  lemma NoEventNamed(name: string)
    requires Discriminate(name) == None
    ensures forall k :: EventName(k) != name
    ensures name !in Dispatch()
  {
    forall k ensures EventName(k) != name {
      DiscriminateNames(k);
    }
    DispatchHoldsOnlyEventNames(name);
  }
}
