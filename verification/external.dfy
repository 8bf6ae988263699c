/**
 * The mock external client of the Deck controller: Observe, Create, Update
 * and Delete. Go mutates the Deck in place; here each operation
 * returns the resource as it stands afterwards together with its result.
 */
module External {
  import opened Results
  import opened DeckTypes
  import opened DeckErrors
  import opened Cards
  import opened Shuffle

  /** Connection details published as a connection secret. */
  type ConnectionDetails = map<string, seq<byte>>

  /** What Observe reports about the external resource. */
  datatype ExternalObservation = ExternalObservation(
    resourceExists: bool,
    resourceUpToDate: bool,
    connectionDetails: ConnectionDetails)

  /** What Create reports. */
  datatype ExternalCreation = ExternalCreation(connectionDetails: ConnectionDetails)

  /** What Update reports. */
  datatype ExternalUpdate = ExternalUpdate(connectionDetails: ConnectionDetails)

  /** An external client bound to the service Connect constructed. */
  datatype Client<S> = Client(service: S)

  /** The managed resource after an operation, and the operation's result. */
  datatype Effect<T> = Effect(resource: Managed, result: Result<T, Error>)

  /** Observe: a read-only probe that always finds the Deck present and current. */
  function Observe<S>(c: Client<S>, mg: Managed): (r: Effect<ExternalObservation>)
    ensures r.resource == mg
    ensures r.result.Ok? <==> mg.DeckResource?
    ensures r.result.Err? ==> r.result.error == NotDeck
    ensures r.result.Ok? ==> r.result.value.resourceExists && r.result.value.resourceUpToDate
    ensures r.result.Ok? ==> r.result.value.connectionDetails == map[]
  {
    match mg
    case OtherResource(_) => Effect(mg, Err(NotDeck))
    case DeckResource(_) => Effect(mg, Ok(ExternalObservation(true, true, map[])))
  }

  /**
   * Create: record a freshly built and shuffled deck (for the given draws) in
   * the Deck's observed status.
   */
  function Create<S>(c: Client<S>, mg: Managed, choices: seq<int>): (r: Effect<ExternalCreation>)
    requires ValidChoices(choices, DeckSize)
    ensures r.result.Ok? <==> mg.DeckResource?
    ensures r.result.Err? ==> r.result.error == NotDeck && r.resource == mg
    ensures r.result.Ok? ==> r.result.value.connectionDetails == map[]
    ensures mg.DeckResource? ==>
      && r.resource.DeckResource?
      && SameExceptCards(mg.deck, r.resource.deck)
      && IsFullDeck(r.resource.deck.Cards())
  {
    match mg
    case OtherResource(_) => Effect(mg, Err(NotDeck))
    case DeckResource(d) =>
      FreshDeckIsFull(choices);
      Effect(DeckResource(d.WithCards(FreshDeck(choices))), Ok(ExternalCreation(map[])))
  }

  /** Update: nothing to reconcile in the mock; succeeds without change. */
  function Update<S>(c: Client<S>, mg: Managed): (r: Effect<ExternalUpdate>)
    ensures r.resource == mg
    ensures r.result.Ok? <==> mg.DeckResource?
    ensures r.result.Err? ==> r.result.error == NotDeck
    ensures r.result.Ok? ==> r.result.value.connectionDetails == map[]
  {
    match mg
    case OtherResource(_) => Effect(mg, Err(NotDeck))
    case DeckResource(_) => Effect(mg, Ok(ExternalUpdate(map[])))
  }

  /** Delete: nothing to remove in the mock; succeeds without change. */
  function Delete<S>(c: Client<S>, mg: Managed): (r: Effect<()>)
    ensures r.resource == mg
    ensures r.result.Ok? <==> mg.DeckResource?
    ensures r.result.Err? ==> r.result.error == NotDeck
  {
    match mg
    case OtherResource(_) => Effect(mg, Err(NotDeck))
    case DeckResource(_) => Effect(mg, Ok(()))
  }

  // ---------------------------------------------------------------------------
  // Properties across calls

  /** The cards Create leaves in the status are the fresh deck for its draws, whatever was there before. */
  lemma CreateOverwritesCards<S>(c: Client<S>, d: Deck, choices: seq<int>)
    requires ValidChoices(choices, DeckSize)
    ensures Create(c, DeckResource(d), choices).resource == DeckResource(d.WithCards(FreshDeck(choices)))
    ensures forall previous :: Create(c, DeckResource(d.WithCards(previous)), choices) == Create(c, DeckResource(d), choices)
  {
  }

  /** Observing right after Create finds the resource existing and current, and keeps the created deck. */
  lemma ObserveAfterCreate<S>(c: Client<S>, d: Deck, choices: seq<int>)
    requires ValidChoices(choices, DeckSize)
    ensures var created := Create(c, DeckResource(d), choices).resource;
      && Observe(c, created).result == Ok(ExternalObservation(true, true, map[]))
      && Observe(c, created).resource == created
      && IsFullDeck(Observe(c, created).resource.deck.Cards())
  {
  }

  /** Update is idempotent: a second call reports the same details and leaves the same resource. */
  lemma UpdateIdempotent<S>(c: Client<S>, mg: Managed)
    ensures Update(c, Update(c, mg).resource) == Update(c, mg)
  {
  }

  /** Delete is idempotent: deleting again after a successful delete succeeds again. */
  lemma DeleteIdempotent<S>(c: Client<S>, mg: Managed)
    requires Delete(c, mg).result.Ok?
    ensures Delete(c, Delete(c, mg).resource).result.Ok?
  {
  }

  /** All four operations reject a resource that is not a Deck with the same error and change nothing. */
  lemma NonDeckRejected<S>(c: Client<S>, mg: Managed, choices: seq<int>)
    requires ValidChoices(choices, DeckSize)
    requires mg.OtherResource?
    ensures Observe(c, mg) == Effect(mg, Err(NotDeck))
    ensures Create(c, mg, choices) == Effect(mg, Err(NotDeck))
    ensures Update(c, mg) == Effect(mg, Err(NotDeck))
    ensures Delete(c, mg) == Effect(mg, Err(NotDeck))
  {
  }
}
